/**
 One TCP connection between the client and its server task: both protocol state machines, step by
 step between two await points, and the byte streams that connect them.

 A step reads or writes any non-empty chunk, so every chunking of the streams is covered. A broken
 connection is a side that fails: the bytes it did not read stay undelivered for ever.
 */
module Lockstep {
  import opened Bytes
  import opened Wrappers
  import opened Kdf

  /**
   What both hosts share: the hash, the server's parameters, and the key that the QKD network files
   under each key id. The client runs with the mirrored parameters.
   */
  datatype Config = Config(xof: Xof, params: ProtocolParameters, store: Uuid -> Key)

  /** The QKD key and the nonce of one round. */
  datatype Round = Round(key: Etsi014Key, nonce: Nonce)
  {
    function Req(): RekeyReq {
      RekeyReq(key.id, nonce)
    }
  }

  // ---------------------------------------------------------------- the server task

  datatype ServerPhase =
    | Fetching
    | Writing(round: Round, rest: seq<byte>)
    | ReadingAck(round: Round)
    | Forwarding(osk: Key)
    | Sleeping
    | Exiting
    | Ended

  datatype ServerAction =
    | Fetched(key: Etsi014Key, nonce: Nonce)
    | Wrote(count: nat)
    | GotAck(ack: byte)
    | Enqueued
    | Woke
    | Failed
    | ExitSent
    | Cancelled

  function ServerStep(xof: Xof, params: ProtocolParameters, p: ServerPhase, a: ServerAction): Option<ServerPhase> {
    match (p, a)
    case (Fetching, Fetched(key, nonce)) =>
      Some(Writing(Round(key, nonce), RekeyReq(key.id, nonce).AsBytes()))
    case (Writing(round, rest), Wrote(count)) =>
      if !(0 < count <= |rest|) then None
      else if count == |rest| then Some(ReadingAck(round))
      else Some(Writing(round, rest[count..]))
    case (ReadingAck(round), GotAck(ack)) =>
      if ack == REKEY_ACK then Some(Forwarding(DeriveDaisywayKey(xof, params, round.nonce, round.key)))
      else Some(Exiting)
    case (Forwarding(_), Enqueued) => Some(Sleeping)
    case (Sleeping, Woke) => Some(Fetching)
    case (Exiting, ExitSent) => Some(Ended)
    case (_, Failed) =>
      if p.Fetching? || p.Writing? || p.ReadingAck? || p.Forwarding? then Some(Exiting) else None
    case (_, Cancelled) => Some(Ended)
    case _ => None
  }

  // ---------------------------------------------------------------- the client

  datatype ClientPhase =
    | Reading(buf: seq<byte>)
    | Asking(req: RekeyReq)
    | Acking(req: RekeyReq, key: Etsi014Key)
    | Installing(osk: Key)
    | Closed(unread: seq<byte>)

  datatype ClientAction =
    | Got(chunk: seq<byte>)
    | Answered(key: Etsi014Key)
    | Acked
    | Installed
    | Broke

  function ClientStep(xof: Xof, params: ProtocolParameters, p: ClientPhase, a: ClientAction): Option<ClientPhase> {
    match (p, a)
    case (Reading(buf), Got(chunk)) =>
      if chunk == [] || |buf + chunk| > REKEY_REQ_LENGTH then None
      else if |buf + chunk| == REKEY_REQ_LENGTH then Some(Asking(ReadRekeyReq(buf + chunk)))
      else Some(Reading(buf + chunk))
    case (Asking(req), Answered(key)) => Some(Acking(req, key))
    case (Acking(req, key), Acked) => Some(Installing(DeriveDaisywayKey(xof, params, req.nonce, key)))
    case (Installing(_), Installed) => Some(Reading([]))
    case (Closed(_), Broke) => None
    case (_, Broke) => Some(Closed(if p.Reading? then p.buf else []))
    case _ => None
  }

  // ---------------------------------------------------------------- both ends together

  /**
   `sent` are the rounds the server began, `parsed` the requests the client read completely.
   `agreed` and `forwarded` are the keys the server derived and passed to the manager; `derived` and
   `installed` those the client derived and passed to its key handler.
   */
  datatype Link = Link(
    server: ServerPhase, client: ClientPhase, toClient: seq<byte>, toServer: seq<byte>,
    sent: seq<Round>, parsed: seq<RekeyReq>,
    agreed: seq<Key>, forwarded: seq<Key>, derived: seq<Key>, installed: seq<Key>)

  const NewLink: Link := Link(Fetching, Reading([]), [], [], [], [], [], [], [], [])

  /** What the server task's action does to the connection. */
  function ServerActs(cfg: Config, l: Link, a: ServerAction): Option<Link> {
    var next := ServerStep(cfg.xof, cfg.params, l.server, a);
    if next.None? then None
    else
      var l' := l.(server := next.value);
      match a
      case Fetched(key, nonce) =>
        if key.key == cfg.store(key.id) then Some(l'.(sent := l.sent + [Round(key, nonce)])) else None
      case Wrote(count) =>
        Some(l'.(toClient := l.toClient + l.server.rest[..count]))
      case GotAck(ack) =>
        if l.toServer == [] || l.toServer[0] != ack then None
        else Some(l'.(toServer := l.toServer[1..],
                      agreed := l.agreed + if next.value.Forwarding? then [next.value.osk] else []))
      case Enqueued =>
        Some(l'.(forwarded := l.forwarded + [l.server.osk]))
      case _ => Some(l')
  }

  /** What the client's action does to the connection. */
  function ClientActs(cfg: Config, l: Link, a: ClientAction): Option<Link> {
    var next := ClientStep(cfg.xof, cfg.params.Mirrored(), l.client, a);
    if next.None? then None
    else
      var l' := l.(client := next.value);
      match a
      case Got(chunk) =>
        if !(chunk <= l.toClient) then None
        else Some(l'.(toClient := l.toClient[|chunk|..],
                      parsed := l.parsed + if next.value.Asking? then [next.value.req] else []))
      case Answered(key) =>
        if key == Etsi014Key(l.client.req.qkdKeyId, cfg.store(l.client.req.qkdKeyId)) then Some(l') else None
      case Acked =>
        Some(l'.(toServer := l.toServer + [REKEY_ACK], derived := l.derived + [next.value.osk]))
      case Installed =>
        Some(l'.(installed := l.installed + [l.client.osk]))
      case Broke => Some(l')
  }

  // ---------------------------------------------------------------- the invariant

  /** The bytes of a request that the client has read but not yet completed. */
  function Partial(p: ClientPhase): seq<byte> {
    if p.Reading? then p.buf else if p.Closed? then p.unread else []
  }

  function RoundKey(cfg: Config, r: Round): Key {
    DeriveDaisywayKey(cfg.xof, cfg.params, r.nonce, r.key)
  }

  /** Rounds in flight: counts only. */
  ghost predicate Counts(l: Link) {
    var n, p, a, d := |l.sent|, |l.parsed|, |l.agreed|, |l.derived|;
    && p <= n <= p + 1
    && a + |l.toServer| == d <= p <= d + 1
    && a <= n <= a + 1
    && |l.forwarded| <= a <= |l.forwarded| + 1
    && |l.installed| <= d <= |l.installed| + 1
    && (|l.forwarded| < a ==> n == a)
    && (l.server.Fetching? || l.server.Sleeping? ==> n == a == |l.forwarded|)
    && (l.server.Forwarding? ==> n == a == |l.forwarded| + 1)
    && (l.server.Writing? || l.server.ReadingAck? ==> n == a + 1 && a == |l.forwarded|)
    && (l.client.Reading? ==> p == d == |l.installed|)
    && (l.client.Installing? ==> p == d == |l.installed| + 1)
    && (l.client.Asking? || l.client.Acking? ==> p == d + 1 && d == |l.installed|)
  }

  /** The contents of the logs: every key is the key of its round. */
  ghost predicate Logs(cfg: Config, l: Link) {
    && (forall i | 0 <= i < |l.sent| :: l.sent[i].key.key == cfg.store(l.sent[i].key.id))
    && (forall i | 0 <= i < |l.parsed| :: i < |l.sent| && l.parsed[i] == l.sent[i].Req())
    && (forall i | 0 <= i < |l.agreed| :: i < |l.sent| && l.agreed[i] == RoundKey(cfg, l.sent[i]))
    && (forall i | 0 <= i < |l.derived| :: i < |l.sent| && l.derived[i] == RoundKey(cfg, l.sent[i]))
    && l.forwarded <= l.agreed
    && l.installed <= l.derived
  }

  /** The round or the key each side works on is its latest. */
  ghost predicate Current(cfg: Config, l: Link) {
    && (l.server.Writing? ==> l.sent != [] && l.server.round == l.sent[|l.sent| - 1])
    && (l.server.ReadingAck? ==> l.sent != [] && l.server.round == l.sent[|l.sent| - 1])
    && (l.server.Forwarding? ==> l.agreed != [] && l.server.osk == l.agreed[|l.agreed| - 1])
    && (l.client.Asking? ==> l.parsed != [] && l.client.req == l.parsed[|l.parsed| - 1])
    && (l.client.Acking? ==> l.parsed != [] && l.client.req == l.parsed[|l.parsed| - 1]
                             && l.client.key == Etsi014Key(l.client.req.qkdKeyId, cfg.store(l.client.req.qkdKeyId)))
    && (l.client.Installing? ==> l.derived != [] && l.client.osk == l.derived[|l.derived| - 1])
  }

  /** The bytes under way belong to the one request that the client has not completed. */
  ghost predicate Streams(l: Link) {
    && (|l.sent| == |l.parsed| ==> Partial(l.client) == [] && l.toClient == [])
    && (|l.sent| > |l.parsed| ==>
          var req := l.sent[|l.sent| - 1].Req().AsBytes();
          && Partial(l.client) + l.toClient <= req
          && |Partial(l.client)| < REKEY_REQ_LENGTH
          && (l.server.Writing? ==> Partial(l.client) + l.toClient + l.server.rest == req)
          && (l.server.ReadingAck? ==> Partial(l.client) + l.toClient == req))
    && (l.server.Writing? ==> l.server.rest != [] && |l.sent| > |l.parsed|)
    && (forall b | b in l.toServer :: b == REKEY_ACK)
  }

  ghost predicate InLockstep(cfg: Config, l: Link) {
    Counts(l) && Logs(cfg, l) && Current(cfg, l) && Streams(l)
  }

  lemma NewLinkInLockstep(cfg: Config)
    ensures InLockstep(cfg, NewLink)
  {
  }

  lemma FetchKeepsLockstep(cfg: Config, l: Link, key: Etsi014Key, nonce: Nonce)
    requires InLockstep(cfg, l) && ServerActs(cfg, l, Fetched(key, nonce)).Some?
    ensures InLockstep(cfg, ServerActs(cfg, l, Fetched(key, nonce)).value)
  {
  }

  lemma WriteKeepsLockstep(cfg: Config, l: Link, count: nat)
    requires InLockstep(cfg, l) && ServerActs(cfg, l, Wrote(count)).Some?
    ensures InLockstep(cfg, ServerActs(cfg, l, Wrote(count)).value)
  {
    hide RoundKey, DeriveDaisywayKey, ReadRekeyReq;
    var rest := l.server.rest;
    var req := l.sent[|l.sent| - 1].Req().AsBytes();
    assert rest[..count] + rest[count..] == rest;
    assert Partial(l.client) + (l.toClient + rest[..count]) + rest[count..] == req;
  }

  lemma AckKeepsLockstep(cfg: Config, l: Link, ack: byte)
    requires InLockstep(cfg, l) && ServerActs(cfg, l, GotAck(ack)).Some?
    ensures ack == REKEY_ACK == 1
    ensures InLockstep(cfg, ServerActs(cfg, l, GotAck(ack)).value)
  {
    hide DeriveDaisywayKey, ReadRekeyReq;
    assert l.toServer[0] in l.toServer;
    assert l.server.round == l.sent[|l.agreed|];
  }

  lemma EnqueueKeepsLockstep(cfg: Config, l: Link)
    requires InLockstep(cfg, l) && ServerActs(cfg, l, Enqueued).Some?
    ensures InLockstep(cfg, ServerActs(cfg, l, Enqueued).value)
  {
    hide RoundKey, DeriveDaisywayKey, ReadRekeyReq;
  }

  lemma PhaseChangeKeepsLockstep(cfg: Config, l: Link, a: ServerAction)
    requires InLockstep(cfg, l) && ServerActs(cfg, l, a).Some?
    requires a.Woke? || a.Failed? || a.ExitSent? || a.Cancelled?
    ensures InLockstep(cfg, ServerActs(cfg, l, a).value)
  {
    hide Logs, ServerActs, ServerStep;
    PhaseChange(cfg, l, a);
    SameLogs(cfg, l, ServerActs(cfg, l, a).value);
  }

  lemma PhaseChange(cfg: Config, l: Link, a: ServerAction)
    requires ServerActs(cfg, l, a).Some?
    requires a.Woke? || a.Failed? || a.ExitSent? || a.Cancelled?
    ensures var l' := ServerActs(cfg, l, a).value;
            && l' == l.(server := l'.server)
            && (l'.server.Exiting? || l'.server.Ended? || (l'.server.Fetching? && l.server.Sleeping?))
  {
  }

  /** `Logs` speaks about the logs alone. */
  lemma SameLogs(cfg: Config, l: Link, l': Link)
    requires Logs(cfg, l)
    requires l' == l.(server := l'.server, client := l'.client)
    ensures Logs(cfg, l')
  {
  }

  /** Whatever the server task does, at whatever moment, the two ends stay in lockstep. */
  lemma ServerKeepsLockstep(cfg: Config, l: Link, a: ServerAction)
    requires InLockstep(cfg, l) && ServerActs(cfg, l, a).Some?
    ensures InLockstep(cfg, ServerActs(cfg, l, a).value)
  {
    hide InLockstep, ServerActs;
    match a
    case Fetched(key, nonce) => FetchKeepsLockstep(cfg, l, key, nonce);
    case Wrote(count) => WriteKeepsLockstep(cfg, l, count);
    case GotAck(ack) => AckKeepsLockstep(cfg, l, ack);
    case Enqueued => EnqueueKeepsLockstep(cfg, l);
    case _ => PhaseChangeKeepsLockstep(cfg, l, a);
  }

  lemma ReadKeepsLockstep(cfg: Config, l: Link, chunk: seq<byte>)
    requires InLockstep(cfg, l) && ClientActs(cfg, l, Got(chunk)).Some?
    ensures InLockstep(cfg, ClientActs(cfg, l, Got(chunk)).value)
  {
    var buf := l.client.buf;
    var req := l.sent[|l.sent| - 1].Req();
    assert (buf + chunk) + l.toClient[|chunk|..] == buf + l.toClient;
    assert |buf + chunk| == REKEY_REQ_LENGTH ==> buf + chunk == req.AsBytes() && l.toClient[|chunk|..] == [];
    RekeyReqRoundTrip(req, buf + chunk);
  }

  lemma AckingKeepsLockstep(cfg: Config, l: Link)
    requires InLockstep(cfg, l) && ClientActs(cfg, l, Acked).Some?
    ensures InLockstep(cfg, ClientActs(cfg, l, Acked).value)
  {
    hide DeriveDaisywayKey, ReadRekeyReq;
    var round := l.sent[|l.derived|];
    assert l.client.req == round.Req() && l.client.key == round.key;
    MirroredHostsDeriveTheSame(cfg.xof, cfg.params, round.nonce, round.key);
  }

  lemma AnswerKeepsLockstep(cfg: Config, l: Link, key: Etsi014Key)
    requires InLockstep(cfg, l) && ClientActs(cfg, l, Answered(key)).Some?
    ensures InLockstep(cfg, ClientActs(cfg, l, Answered(key)).value)
  {
  }

  lemma InstallKeepsLockstep(cfg: Config, l: Link)
    requires InLockstep(cfg, l) && ClientActs(cfg, l, Installed).Some?
    ensures InLockstep(cfg, ClientActs(cfg, l, Installed).value)
  {
    hide RoundKey, DeriveDaisywayKey, ReadRekeyReq;
  }

  lemma BreakKeepsLockstep(cfg: Config, l: Link)
    requires InLockstep(cfg, l) && ClientActs(cfg, l, Broke).Some?
    ensures InLockstep(cfg, ClientActs(cfg, l, Broke).value)
  {
    hide Logs;
    SameLogs(cfg, l, ClientActs(cfg, l, Broke).value);
  }

  /** Whatever the client does, at whatever moment, the two ends stay in lockstep. */
  lemma ClientKeepsLockstep(cfg: Config, l: Link, a: ClientAction)
    requires InLockstep(cfg, l) && ClientActs(cfg, l, a).Some?
    ensures InLockstep(cfg, ClientActs(cfg, l, a).value)
  {
    hide InLockstep, ClientActs;
    match a
    case Got(chunk) => ReadKeepsLockstep(cfg, l, chunk);
    case Answered(key) => AnswerKeepsLockstep(cfg, l, key);
    case Acked => AckingKeepsLockstep(cfg, l);
    case Installed => InstallKeepsLockstep(cfg, l);
    case Broke => BreakKeepsLockstep(cfg, l);
  }

  // ---------------------------------------------------------------- what lockstep means

  /** One emitted key log is a prefix of the other, and they differ by at most one key. */
  lemma SkewAtMostOne(cfg: Config, l: Link)
    requires InLockstep(cfg, l)
    ensures l.forwarded <= l.installed || l.installed <= l.forwarded
    ensures -1 <= |l.forwarded| - |l.installed| <= 1
    ensures l.forwarded <= l.agreed <= l.derived
  {
  }

  /**
   Stream synchronisation: the client's n-th request is the server's n-th, and bytes are under way
   in one direction only. While the server is sending or waiting for the acknowledgement, the bytes
   not yet read by the client are a suffix of the latest request.
   */
  lemma StreamsSynchronised(cfg: Config, l: Link)
    requires InLockstep(cfg, l)
    ensures |l.parsed| <= |l.sent| <= |l.parsed| + 1
    ensures forall i | 0 <= i < |l.parsed| :: l.parsed[i] == l.sent[i].Req()
    ensures l.toServer != [] ==> l.toServer == [REKEY_ACK] && l.toClient == [] && !l.server.Writing?
    ensures (l.server.Writing? || l.server.ReadingAck?) && |l.parsed| < |l.sent| ==>
              var req := l.sent[|l.sent| - 1].Req().AsBytes();
              l.toClient + (if l.server.Writing? then l.server.rest else []) == req[|Partial(l.client)|..]
  {
    if (l.server.Writing? || l.server.ReadingAck?) && |l.parsed| < |l.sent| {
      var rest := if l.server.Writing? then l.server.rest else [];
      assert Partial(l.client) + (l.toClient + rest) == l.sent[|l.sent| - 1].Req().AsBytes();
    }
    if l.toServer != [] {
      assert l.toServer == [l.toServer[0]] && l.toServer[0] in l.toServer;
    }
  }
}
