/**
 The objects that run the protocol: server task, client, the task wrapper that reports to the manager
 and the reconnecting client. Each is proved to make only steps of the state machines in
 Lockstep.dfy, with exactly their effects on the byte streams and on the key handlers.

 Their environment is arbitrary: how many bytes a connection still takes and delivers, in which
 chunks, which requests to the key server succeed, how many keys the handler still takes. The
 endless loops end when the environment makes them fail.
 */
module Protocol {
  import opened Wrappers
  import opened Bytes
  import opened Kdf
  import opened Lockstep
  import opened ManagerModel

  // ---------------------------------------------------------------- the environment

  /** One end of a TCP connection that takes `room` more bytes and delivers the `incoming` ones. */
  class TcpStream {
    var written: seq<byte>
    var incoming: seq<byte>
    var room: nat
    var chunks: seq<nat>

    constructor (incoming: seq<byte>, room: nat, chunks: seq<nat>)
      ensures written == [] && this.incoming == incoming && this.room == room && this.chunks == chunks
    {
      written := [];
      this.incoming := incoming;
      this.room := room;
      this.chunks := chunks;
    }

    method NextChunk(limit: nat) returns (n: nat)
      requires limit > 0
      modifies this`chunks
      ensures 0 < n <= limit
    {
      n := limit;
      if chunks != [] {
        if 0 < chunks[0] < limit {
          n := chunks[0];
        }
        chunks := chunks[1..];
      }
    }

    /** Takes some of the data; 0 bytes mean that the connection is broken. */
    method Write(data: seq<byte>) returns (n: nat)
      requires data != []
      modifies this`written, this`room, this`chunks
      ensures n <= |data| && written == old(written) + data[..n]
      ensures (n == 0 <==> old(room) == 0) && room == old(room) - n
    {
      n := NextChunk(|data|);
      n := if room < n then room else n;
      written := written + data[..n];
      room := room - n;
    }

    /** Delivers some bytes; none mean that the connection has ended. */
    method Read(space: nat) returns (chunk: seq<byte>)
      requires space > 0
      modifies this`incoming, this`chunks
      ensures |chunk| <= space && old(incoming) == chunk + incoming
      ensures chunk == [] <==> old(incoming) == []
    {
      var n := NextChunk(space);
      n := if |incoming| < n then |incoming| else n;
      chunk := incoming[..n];
      incoming := incoming[n..];
    }
  }

  /** The key server as one host sees it: the keys it will be issued, and which requests succeed. */
  class KeyServer {
    var issues: seq<Round>
    var answers: nat

    constructor (issues: seq<Round>, answers: nat)
      ensures this.issues == issues && this.answers == answers
    {
      this.issues := issues;
      this.answers := answers;
    }

    /** A new key, and the nonce to go with it; fails once no keys are left. */
    method FetchAny() returns (r: Option<Round>)
      modifies this`issues
      ensures r.None? <==> old(issues) == []
      ensures r.None? ==> issues == old(issues)
      ensures r.Some? ==> r.value == old(issues)[0] && issues == old(issues)[1..]
    {
      if issues == [] {
        return None;
      }
      r := Some(issues[0]);
      issues := issues[1..];
    }

    /** The stored key under the id asked for; fails once no answers are left. */
    method FetchSpecific(store: Uuid -> Key, id: Uuid) returns (r: Option<Etsi014Key>)
      modifies this`answers
      ensures r.None? <==> old(answers) == 0
      ensures r.None? ==> answers == old(answers)
      ensures r.Some? ==> r.value == Etsi014Key(id, store(id)) && answers == old(answers) - 1
    {
      if answers == 0 {
        return None;
      }
      answers := answers - 1;
      r := Some(Etsi014Key(id, store(id)));
    }
  }

  /** The manager's notification channel; it closes after `room` more events. */
  class NotificationQueue {
    var events: seq<StreamEvent>
    var room: nat

    constructor (room: nat)
      ensures events == [] && this.room == room
    {
      events := [];
      this.room := room;
    }

    method Send(ev: StreamEvent) returns (ok: bool)
      modifies this
      ensures (ok <==> old(room) > 0) && room == old(room) - (if ok then 1 else 0)
      ensures events == old(events) + if ok then [ev] else []
    {
      ok := room > 0;
      if ok {
        events := events + [ev];
        room := room - 1;
      }
    }
  }

  /** The events by which a server task passes on fresh keys. */
  function FreshEvents(c: ConnectionId, keys: seq<Key>): seq<StreamEvent> {
    if keys == [] then []
    else FreshEvents(c, keys[..|keys| - 1]) + [Osk(OskEvent(c, keys[|keys| - 1], Fresh))]
  }

  lemma {:induction false} FreshEventsAt(c: ConnectionId, keys: seq<Key>, i: nat)
    requires i < |keys|
    ensures |FreshEvents(c, keys)| == |keys| && FreshEvents(c, keys)[i] == Osk(OskEvent(c, keys[i], Fresh))
  {
    var n := |keys| - 1;
    if n > 0 {
      FreshEventsAt(c, keys[..n], if i < n then i else 0);
    }
  }

  /** The key handler of a server task: tags keys with the connection and sends them to the manager. */
  class FanoutOskHandler {
    const queue: NotificationQueue
    const connectionId: ConnectionId
    // What was in the queue at the start, and the fresh keys sent since.
    ghost const earlier: seq<StreamEvent>
    ghost var received: seq<Key>

    ghost predicate Valid()
      reads this, queue
    {
      queue.events == earlier + FreshEvents(connectionId, received)
    }

    constructor (queue: NotificationQueue, connectionId: ConnectionId)
      ensures this.queue == queue && this.connectionId == connectionId && received == []
      ensures Valid() && earlier == queue.events
    {
      this.queue := queue;
      this.connectionId := connectionId;
      earlier := queue.events;
      received := [];
    }

    method SetOsk(key: Key, reason: SetOskReason) returns (ok: bool)
      modifies queue
      ensures (ok <==> old(queue.room) > 0) && queue.room == old(queue.room) - (if ok then 1 else 0)
      ensures queue.events ==
              old(queue.events) + if ok then [Osk(OskEvent(connectionId, key, reason))] else []
    {
      ok := queue.Send(Osk(OskEvent(connectionId, key, reason)));
    }

    method SetFreshOsk(key: Key) returns (ok: bool)
      requires Valid()
      modifies this, queue
      ensures Valid()
      ensures (ok <==> old(queue.room) > 0) && queue.room == old(queue.room) - (if ok then 1 else 0)
      ensures received == old(received) + if ok then [key] else []
    {
      ok := SetOsk(key, Fresh);
      if ok {
        assert (received + [key])[..|received|] == received;
        received := received + [key];
      }
    }
  }

  /** The client's key handler; it takes `room` more keys. */
  class ClientOskHandler {
    var received: seq<Key>
    var room: nat

    constructor (room: nat)
      ensures received == [] && this.room == room
    {
      received := [];
      this.room := room;
    }

    method SetFreshOsk(key: Key) returns (ok: bool)
      modifies this
      ensures (ok <==> old(room) > 0) && room == old(room) - (if ok then 1 else 0)
      ensures received == old(received) + if ok then [key] else []
    {
      ok := room > 0;
      if ok {
        received := received + [key];
        room := room - 1;
      }
    }
  }

  // ---------------------------------------------------------------- runs of one side

  /** A connection after the given actions of the server task, the other side doing nothing. */
  ghost function ServerReplay(cfg: Config, l: Link, trace: seq<ServerAction>): Option<Link> {
    if trace == [] then Some(l)
    else
      var n := |trace| - 1;
      var l' := ServerReplay(cfg, l, trace[..n]);
      if l'.None? then None else ServerActs(cfg, l'.value, trace[n])
  }

  lemma ServerReplayAppend(cfg: Config, l: Link, trace: seq<ServerAction>, a: ServerAction)
    ensures var l' := ServerReplay(cfg, l, trace);
            ServerReplay(cfg, l, trace + [a]) == if l'.None? then None else ServerActs(cfg, l'.value, a)
  {
    hide ServerActs;
    assert (trace + [a])[..|trace|] == trace;
  }

  /** A connection after the given actions of the client, the other side doing nothing. */
  ghost function ClientReplay(cfg: Config, l: Link, trace: seq<ClientAction>): Option<Link> {
    if trace == [] then Some(l)
    else
      var n := |trace| - 1;
      var l' := ClientReplay(cfg, l, trace[..n]);
      if l'.None? then None else ClientActs(cfg, l'.value, trace[n])
  }

  lemma ClientReplayAppend(cfg: Config, l: Link, trace: seq<ClientAction>, a: ClientAction)
    ensures var l' := ClientReplay(cfg, l, trace);
            ClientReplay(cfg, l, trace + [a]) == if l'.None? then None else ClientActs(cfg, l'.value, a)
  {
    hide ClientActs;
    assert (trace + [a])[..|trace|] == trace;
  }

  // ---------------------------------------------------------------- single steps of the server task

  lemma FailStep(cfg: Config, l: Link)
    requires l.server.Fetching? || l.server.Writing? || l.server.ReadingAck? || l.server.Forwarding?
    ensures ServerActs(cfg, l, Failed) == Some(l.(server := Exiting))
  {
  }

  lemma FetchStep(cfg: Config, l: Link, key: Etsi014Key, nonce: Nonce)
    requires l.server.Fetching? && key.key == cfg.store(key.id)
    ensures ServerActs(cfg, l, Fetched(key, nonce)) ==
            Some(l.(server := Writing(Round(key, nonce), RekeyReq(key.id, nonce).AsBytes()),
                    sent := l.sent + [Round(key, nonce)]))
  {
  }

  lemma WriteStep(cfg: Config, l: Link, count: nat)
    requires l.server.Writing? && 0 < count <= |l.server.rest|
    ensures var rest := l.server.rest;
            ServerActs(cfg, l, Wrote(count)) ==
            Some(l.(server := if count == |rest| then ReadingAck(l.server.round)
                              else Writing(l.server.round, rest[count..]),
                    toClient := l.toClient + rest[..count]))
  {
  }

  lemma AckStep(cfg: Config, l: Link, chunk: seq<byte>, rest: seq<byte>)
    requires l.server.ReadingAck? && |chunk| == 1 && l.toServer == chunk + rest
    ensures var key := RoundKey(cfg, l.server.round);
            ServerActs(cfg, l, GotAck(chunk[0])) ==
            Some(if chunk[0] == REKEY_ACK then
                   l.(server := Forwarding(key), toServer := rest, agreed := l.agreed + [key])
                 else l.(server := Exiting, toServer := rest))
  {
    hide DeriveDaisywayKey;
    assert l.toServer[1..] == rest && l.agreed + [] == l.agreed;
  }

  lemma ForwardSteps(cfg: Config, l: Link)
    requires l.server.Forwarding?
    ensures var asleep := l.(server := Sleeping, forwarded := l.forwarded + [l.server.osk]);
            && ServerActs(cfg, l, Enqueued) == Some(asleep)
            && ServerActs(cfg, asleep, Woke) == Some(asleep.(server := Fetching))
  {
  }

  // ---------------------------------------------------------------- what a server task comes to

  /** The keys of these rounds. */
  function RoundKeys(cfg: Config, rounds: seq<Round>): (keys: seq<Key>)
    ensures |keys| == |rounds|
  {
    seq(|rounds|, i requires 0 <= i < |rounds| => RoundKey(cfg, rounds[i]))
  }

  /** The requests of these rounds, one after the other. */
  function Requests(rounds: seq<Round>): (bytes: seq<byte>)
    ensures |bytes| == REKEY_REQ_LENGTH * |rounds|
  {
    if rounds == [] then []
    else
      var n := |rounds| - 1;
      Requests(rounds[..n]) + rounds[n].Req().AsBytes()
  }

  lemma {:induction false} RequestAt(rounds: seq<Round>, i: nat)
    requires i < |rounds|
    ensures Requests(rounds)[REKEY_REQ_LENGTH * i..REKEY_REQ_LENGTH * i + REKEY_REQ_LENGTH] == rounds[i].Req().AsBytes()
  {
    var n := |rounds| - 1;
    if i < n {
      RequestAt(rounds[..n], i);
    }
  }

  lemma RequestsAppend(rounds: seq<Round>, n: nat)
    requires n < |rounds|
    ensures Requests(rounds[..n + 1]) == Requests(rounds[..n]) + rounds[n].Req().AsBytes()
  {
    assert rounds[..n + 1][..n] == rounds[..n];
  }

  /** How many valid acknowledgements a stream begins with. */
  function Acknowledged(incoming: seq<byte>): nat {
    if incoming == [] || incoming[0] != REKEY_ACK then 0 else 1 + Acknowledged(incoming[1..])
  }

  lemma {:induction false} AcknowledgedIff(incoming: seq<byte>, n: nat)
    ensures n <= Acknowledged(incoming) <==> n <= |incoming| && forall i | 0 <= i < n :: incoming[i] == REKEY_ACK
  {
    if 0 < n <= |incoming| && incoming[0] == REKEY_ACK {
      AcknowledgedIff(incoming[1..], n - 1);
      assert forall i | 0 < i < n :: incoming[i] == incoming[1..][i - 1];
    } else if n > |incoming| && incoming != [] {
      AcknowledgedIff(incoming[1..], n - 1);
    }
  }

  lemma AcknowledgedTail(incoming: seq<byte>)
    requires Acknowledged(incoming) > 0
    ensures incoming != [] && incoming[0] == REKEY_ACK
    ensures Acknowledged(incoming) == 1 + Acknowledged(incoming[1..])
  {
  }

  /**
   How many rounds a task completes: as many as there are keys, room for requests, valid
   acknowledgements and places in the queue.
   */
  function Completed(issues: nat, incoming: seq<byte>, room: nat, places: nat): nat {
    Min(Min(issues, room / REKEY_REQ_LENGTH), Min(Acknowledged(incoming), places))
  }

  lemma CompletedStep(issues: nat, incoming: seq<byte>, room: nat, places: nat)
    ensures Completed(issues, incoming, room, places) > 0 ==>
              && issues > 0 && room >= REKEY_REQ_LENGTH && incoming != [] && places > 0
              && incoming[0] == REKEY_ACK
              && Completed(issues, incoming, room, places) ==
                 1 + Completed(issues - 1, incoming[1..], room - REKEY_REQ_LENGTH, places - 1)
    ensures Completed(issues, incoming, room, places) == 0 ==>
              issues == 0 || room < REKEY_REQ_LENGTH || incoming == [] || incoming[0] != REKEY_ACK || places == 0
  {
  }

  lemma NoRounds(cfg: Config, rounds: seq<Round>)
    ensures RoundKeys(cfg, rounds[..0]) == [] && Requests(rounds[..0]) == []
  {
  }

  lemma OneMore(cfg: Config, rounds: seq<Round>, n: nat)
    requires n < |rounds|
    ensures rounds[..n + 1] == rounds[..n] + [rounds[n]] && rounds[n..][0] == rounds[n] && rounds[n..][1..] == rounds[n + 1..]
    ensures RoundKeys(cfg, rounds[..n + 1]) == RoundKeys(cfg, rounds[..n]) + [RoundKey(cfg, rounds[n])]
    ensures Requests(rounds[..n + 1]) == Requests(rounds[..n]) + rounds[n].Req().AsBytes()
  {
    hide RoundKey;
    RequestsAppend(rounds, n);
  }

  /** The last request begun is written as far as there is room. */
  lemma CutShort(rounds: seq<Round>, n: nat, room: nat)
    requires n <= |rounds| && REKEY_REQ_LENGTH * n <= room
    ensures n < |rounds| ==>
              Requests(rounds[..n]) + rounds[n].Req().AsBytes()[..Min(room - REKEY_REQ_LENGTH * n, REKEY_REQ_LENGTH)] ==
              Requests(rounds[..n + 1])[..Min(room, REKEY_REQ_LENGTH * (n + 1))]
    ensures Requests(rounds[..n])[..Min(room, REKEY_REQ_LENGTH * n)] == Requests(rounds[..n])
  {
    hide Requests;
    if n < |rounds| {
      RequestsAppend(rounds, n);
    }
  }

  /** Why a task stops: for the reason that belongs to its phase, and for no other. */
  ghost predicate ServerCause(
    p: ServerPhase, a: ServerAction, issues: seq<Round>, room: nat, incoming: seq<byte>, places: nat) {
    match (p, a)
    case (Fetching, Failed) => issues == []
    case (Writing(_, _), Failed) => room == 0
    case (ReadingAck(_), Failed) => incoming == []
    case (ReadingAck(_), GotAck(ack)) => ack != REKEY_ACK
    case (Forwarding(_), Failed) => places == 0
    case _ => false
  }

  ghost predicate StopsFor(
    cfg: Config, start: Link, trace: seq<ServerAction>,
    issues: seq<Round>, room: nat, incoming: seq<byte>, places: nat) {
    && trace != []
    && var n := |trace| - 1;
       var l := ServerReplay(cfg, start, trace[..n]);
       l.Some? && ServerCause(l.value.server, trace[n], issues, room, incoming, places)
  }

  // ---------------------------------------------------------------- the server task

  class DaisywayServerProtocol {
    const cfg: Config
    const stream: TcpStream
    const etsiClient: KeyServer
    const oskHandler: FanoutOskHandler

    // The steps made so far, from the connection as it was at the start.
    ghost const start: Link
    ghost var trace: seq<ServerAction>
    ghost var phase: ServerPhase
    ghost var sent: seq<Round>
    ghost var agreed: seq<Key>

    ghost function View(): Link
      reads this, stream, oskHandler
    {
      Link(phase, Reading([]), stream.written, stream.incoming, sent, [], agreed, oskHandler.received, [], [])
    }

    /** What the task has done to the connection is what its steps do in the model. */
    ghost predicate Valid()
      reads this, stream, oskHandler
    {
      ServerReplay(cfg, start, trace) == Some(View())
    }

    /** All keys that the task will be issued are the stored ones. */
    ghost predicate FaithfulServer()
      reads this, etsiClient
    {
      forall r | r in etsiClient.issues :: r.key.key == cfg.store(r.key.id)
    }

    ghost predicate Stopped()
      reads this, stream, etsiClient, oskHandler.queue
    {
      && phase == Exiting
      && StopsFor(cfg, start, trace, etsiClient.issues, stream.room, stream.incoming, oskHandler.queue.room)
    }

    constructor (cfg: Config, stream: TcpStream, etsiClient: KeyServer, oskHandler: FanoutOskHandler)
      requires stream.written == [] && oskHandler.received == []
      ensures Valid() && phase == Fetching && trace == []
      ensures this.cfg == cfg && this.stream == stream
      ensures this.etsiClient == etsiClient && this.oskHandler == oskHandler
      ensures start == NewLink.(toServer := stream.incoming)
    {
      this.cfg := cfg;
      this.stream := stream;
      this.etsiClient := etsiClient;
      this.oskHandler := oskHandler;
      start := NewLink.(toServer := stream.incoming);
      trace, phase, sent, agreed := [], Fetching, [], [];
    }

    /** Records a step whose effects outside this object have just been made. */
    ghost method Record(a: ServerAction, before: Link)
      requires ServerReplay(cfg, start, trace) == Some(before)
      requires ServerActs(cfg, before, a).Some?
      requires var l := ServerActs(cfg, before, a).value;
               l == View().(server := l.server, sent := l.sent, agreed := l.agreed)
      modifies this`trace, this`phase, this`sent, this`agreed
      ensures Valid() && View() == ServerActs(cfg, before, a).value
      ensures trace == old(trace) + [a]
    {
      var l := ServerActs(cfg, before, a).value;
      ServerReplayAppend(cfg, start, trace, a);
      trace, phase, sent, agreed := trace + [a], l.server, l.sent, l.agreed;
    }

    /** Runs round after round, `n` of them completely, and says exactly what that amounts to. */
    method EventLoop() returns (ghost n: nat)
      requires Valid() && phase == Fetching && FaithfulServer() && oskHandler.Valid()
      modifies this, stream, etsiClient, oskHandler, oskHandler.queue
      ensures Valid() && oskHandler.Valid() && Stopped()
      ensures n == old(Completed(|etsiClient.issues|, stream.incoming, stream.room, oskHandler.queue.room))
      ensures oskHandler.received == old(oskHandler.received) + RoundKeys(cfg, old(etsiClient.issues)[..n])
      ensures oskHandler.queue.room == old(oskHandler.queue.room) - n
      ensures var begun := old(etsiClient.issues)[..Min(n + 1, |old(etsiClient.issues)|)];
              && sent == old(sent) + begun
              && old(etsiClient.issues) == begun + etsiClient.issues
              && stream.written ==
                 old(stream.written) + Requests(begun)[..Min(old(stream.room), REKEY_REQ_LENGTH * |begun|)]
    {
      hide ServerReplay, RoundKey, RoundKeys, Requests, Completed, StopsFor, FanoutOskHandler.Valid, RekeyReq.AsBytes;
      ghost var issues, incoming, room, places := etsiClient.issues, stream.incoming, stream.room, oskHandler.queue.room;
      ghost var total := Completed(|issues|, incoming, room, places);
      n := 0;
      NoRounds(cfg, issues);
      while true
        invariant Valid() && phase == Fetching && FaithfulServer() && oskHandler.Valid()
        invariant n <= |issues| && etsiClient.issues == issues[n..] && sent == old(sent) + issues[..n]
        invariant stream.room == room - REKEY_REQ_LENGTH * n && oskHandler.queue.room == places - n
        invariant total == n + Completed(|etsiClient.issues|, stream.incoming, stream.room, oskHandler.queue.room)
        invariant stream.written == old(stream.written) + Requests(issues[..n])
        invariant oskHandler.received == old(oskHandler.received) + RoundKeys(cfg, issues[..n])
        decreases |etsiClient.issues|
      {
        if n < |issues| {
          OneMore(cfg, issues, n);
        }
        CompletedStep(|etsiClient.issues|, stream.incoming, stream.room, oskHandler.queue.room);
        CutShort(issues, n, room);
        var ok := Rekey();
        if !ok {
          return;
        }
        n := n + 1;
      }
    }

    /** One pass through the loop: negotiate, pass the key on, sleep. */
    method Rekey() returns (ok: bool)
      requires Valid() && phase == Fetching && FaithfulServer() && oskHandler.Valid()
      modifies this, stream, etsiClient, oskHandler, oskHandler.queue
      ensures Valid() && oskHandler.Valid() && FaithfulServer()
      ensures ok <==> 0 < old(Completed(|etsiClient.issues|, stream.incoming, stream.room, oskHandler.queue.room))
      ensures if ok then phase == Fetching else Stopped()
      ensures old(etsiClient.issues) == [] ==>
                && etsiClient.issues == [] && sent == old(sent) && stream.written == old(stream.written)
      ensures old(etsiClient.issues) != [] ==>
                var round, n := old(etsiClient.issues)[0], Min(old(stream.room), REKEY_REQ_LENGTH);
                && etsiClient.issues == old(etsiClient.issues)[1..] && sent == old(sent) + [round]
                && stream.written == old(stream.written) + round.Req().AsBytes()[..n]
                && stream.room == old(stream.room) - n
      ensures oskHandler.queue.room == old(oskHandler.queue.room) - if ok then 1 else 0
      ensures oskHandler.received ==
              old(oskHandler.received) + if ok then [RoundKey(cfg, old(etsiClient.issues)[0])] else []
      ensures ok ==> stream.incoming == old(stream.incoming)[1..]
    {
      hide ServerReplay, ServerActs, StopsFor, RoundKey, FanoutOskHandler.Valid, Completed, RekeyReq.AsBytes;
      CompletedStep(|etsiClient.issues|, stream.incoming, stream.room, oskHandler.queue.room);
      var key := NegotiateKey();
      if key.None? {
        return false;
      }
      ghost var before := View();
      ok := oskHandler.SetFreshOsk(key.value);
      if !ok {
        FailStep(cfg, before);
        Record(Failed, before);
        StopsIn(before);
        return;
      }
      ForwardSteps(cfg, before);
      Record(Enqueued, before);
      // Sleep until the next round
      Record(Woke, View());
    }

    /** The step just recorded was the last one, for the cause of the phase before it. */
    lemma StopsIn(before: Link)
      requires trace != [] && phase == Exiting
      requires ServerReplay(cfg, start, trace[..|trace| - 1]) == Some(before)
      requires ServerCause(before.server, trace[|trace| - 1],
                           etsiClient.issues, stream.room, stream.incoming, oskHandler.queue.room)
      ensures Stopped()
    {
    }

    /**
     One round up to the acknowledgement: the next key is taken, its request is written as far as
     there is room, then one byte is read, and the round's key is returned if that byte is right.
     */
    method NegotiateKey() returns (osk: Option<Key>)
      requires Valid() && phase == Fetching && FaithfulServer()
      modifies this, stream, etsiClient
      ensures Valid() && FaithfulServer()
      ensures osk.None? ==> Stopped()
      ensures osk.Some? ==> phase == Forwarding(osk.value)
      ensures old(etsiClient.issues) == [] ==>
                && osk.None? && etsiClient.issues == [] && sent == old(sent)
                && stream.written == old(stream.written) && stream.room == old(stream.room)
                && stream.incoming == old(stream.incoming)
      ensures old(etsiClient.issues) != [] ==>
                var round, room, incoming := old(etsiClient.issues)[0], old(stream.room), old(stream.incoming);
                var n := Min(room, REKEY_REQ_LENGTH);
                var waits := n == REKEY_REQ_LENGTH && incoming != [];
                && etsiClient.issues == old(etsiClient.issues)[1..] && sent == old(sent) + [round]
                && stream.written == old(stream.written) + round.Req().AsBytes()[..n] && stream.room == room - n
                && stream.incoming == (if waits then incoming[1..] else incoming)
                && osk == if waits && incoming[0] == REKEY_ACK then Some(RoundKey(cfg, round)) else None
    {
      hide ServerReplay, ServerActs, DeriveDaisywayKey, StopsFor;
      ghost var before := View();
      var issued := etsiClient.FetchAny();
      if issued.None? {
        FailStep(cfg, before);
        Record(Failed, before);
        StopsIn(before);
        return None;
      }
      var key, nonce := issued.value.key, issued.value.nonce;
      var rekeyReq := RekeyReq(key.id, nonce);
      FetchStep(cfg, View(), key, nonce);
      Record(Fetched(key, nonce), View());
      var ok := WriteAll(Round(key, nonce), rekeyReq.AsBytes());
      if !ok {
        return None;
      }
      osk := ReadAck(Round(key, nonce));
    }

    /** Waits for the acknowledgement of the round. */
    method ReadAck(round: Round) returns (osk: Option<Key>)
      requires Valid() && phase == ReadingAck(round)
      modifies this`trace, this`phase, this`sent, this`agreed
      modifies stream
      ensures Valid() && sent == old(sent)
      ensures osk.None? ==> Stopped()
      ensures osk.Some? ==> phase == Forwarding(osk.value)
      ensures stream.written == old(stream.written) && stream.room == old(stream.room)
      ensures var incoming := old(stream.incoming);
              && stream.incoming == (if incoming == [] then [] else incoming[1..])
              && osk == if incoming != [] && incoming[0] == REKEY_ACK then Some(RoundKey(cfg, round)) else None
    {
      hide ServerReplay, ServerActs, DeriveDaisywayKey, StopsFor;
      ghost var before := View();
      var ack := new byte[1](_ => 0);
      var chunk := stream.Read(1);
      if chunk == [] {
        FailStep(cfg, before);
        Record(Failed, before);
        StopsIn(before);
        return None;
      }
      ack[0] := chunk[0];
      AckStep(cfg, before, chunk, stream.incoming);
      Record(GotAck(ack[0]), before);
      if ack[0] != REKEY_ACK {
        StopsIn(before);
        return None;
      }
      return Some(DeriveDaisywayKey(cfg.xof, cfg.params, round.nonce, round.key));
    }

    /** Writes all the data, or as much of it as there is room for. */
    method WriteAll(round: Round, data: seq<byte>) returns (ok: bool)
      requires Valid() && data != [] && phase == Writing(round, data)
      modifies this`trace, this`phase, this`sent, this`agreed
      modifies stream
      ensures Valid() && sent == old(sent)
      ensures ok <==> |data| <= old(stream.room)
      ensures if ok then phase == ReadingAck(round) else Stopped()
      ensures var n := Min(old(stream.room), |data|);
              stream.written == old(stream.written) + data[..n] && stream.room == old(stream.room) - n
      ensures stream.incoming == old(stream.incoming)
    {
      hide ServerReplay, ServerActs, StopsFor;
      var rest := data;
      while rest != []
        invariant Valid() && sent == old(sent)
        invariant phase == if rest == [] then ReadingAck(round) else Writing(round, rest)
        invariant |rest| <= |data| && rest == data[|data| - |rest|..]
        invariant stream.written == old(stream.written) + data[..|data| - |rest|]
        invariant stream.room + (|data| - |rest|) == old(stream.room)
        invariant stream.incoming == old(stream.incoming)
        decreases |rest|
      {
        ghost var before := View();
        var n := stream.Write(rest);
        if n == 0 {
          FailStep(cfg, before);
          Record(Failed, before);
          StopsIn(before);
          return false;
        }
        WriteStep(cfg, before, n);
        Record(Wrote(n), before);
        rest := rest[n..];
      }
      return true;
    }
  }

  /**
   The task of one connection: run the protocol until it fails, then report the exit. Of the keys
   it is issued, exactly those of the completed rounds are sent to the manager, in order; the exit
   follows them if the queue still has a place.
   */
  method InitTask(
    cfg: Config, connectionId: ConnectionId, stream: TcpStream, etsiClient: KeyServer, queue: NotificationQueue)
    returns (reported: bool, ghost keys: seq<Key>, ghost trace: seq<ServerAction>)
    requires stream.written == []
    requires forall r | r in etsiClient.issues :: r.key.key == cfg.store(r.key.id)
    modifies stream, etsiClient, queue
    ensures queue.events ==
            old(queue.events) + FreshEvents(connectionId, keys) + if reported then [Exit(connectionId)] else []
    ensures reported <==> |keys| < old(queue.room)
    ensures var n := old(Completed(|etsiClient.issues|, stream.incoming, stream.room, queue.room));
            && keys == RoundKeys(cfg, old(etsiClient.issues)[..n])
            && var begun := old(etsiClient.issues)[..Min(n + 1, |old(etsiClient.issues)|)];
               && old(etsiClient.issues) == begun + etsiClient.issues
               && stream.written == Requests(begun)[..Min(old(stream.room), REKEY_REQ_LENGTH * |begun|)]
               && StopsFor(cfg, NewLink.(toServer := old(stream.incoming)), trace,
                           etsiClient.issues, stream.room, stream.incoming, old(queue.room) - n)
    ensures old(&& REKEY_REQ_LENGTH * |etsiClient.issues| <= stream.room
                && |etsiClient.issues| <= Acknowledged(stream.incoming)
                && |etsiClient.issues| <= queue.room) ==>
              keys == RoundKeys(cfg, old(etsiClient.issues)) && stream.written == Requests(old(etsiClient.issues))
    ensures var l := ServerReplay(cfg, NewLink.(toServer := old(stream.incoming)), trace);
            && l.Some? && l.value.server == Exiting
            && l.value.forwarded == keys && l.value.toClient == stream.written
  {
    hide ServerReplay, RoundKey, Requests, Acknowledged, StopsFor;
    var oskHandler := new FanoutOskHandler(queue, connectionId);
    var handler := new DaisywayServerProtocol(cfg, stream, etsiClient, oskHandler);
    ghost var n := handler.EventLoop();
    keys, trace := oskHandler.received, handler.trace;
    reported := queue.Send(Exit(connectionId));
    assert old(etsiClient.issues)[..|old(etsiClient.issues)|] == old(etsiClient.issues);
  }

  // ---------------------------------------------------------------- single steps of the client

  lemma BreakStep(cfg: Config, l: Link)
    requires !l.client.Closed?
    ensures ClientActs(cfg, l, Broke) == Some(l.(client := Closed(Partial(l.client))))
  {
  }

  lemma ReadStep(cfg: Config, l: Link, chunk: seq<byte>, rest: seq<byte>)
    requires l.client.Reading? && chunk != [] && l.toClient == chunk + rest
    requires |l.client.buf + chunk| <= REKEY_REQ_LENGTH
    ensures var buf := l.client.buf + chunk;
            ClientActs(cfg, l, Got(chunk)) ==
            Some(if |buf| == REKEY_REQ_LENGTH then
                   l.(client := Asking(ReadRekeyReq(buf)), toClient := rest, parsed := l.parsed + [ReadRekeyReq(buf)])
                 else l.(client := Reading(buf), toClient := rest))
  {
    assert l.toClient[|chunk|..] == rest && l.parsed + [] == l.parsed;
  }

  lemma AnswerStep(cfg: Config, l: Link)
    requires l.client.Asking?
    ensures var key := Etsi014Key(l.client.req.qkdKeyId, cfg.store(l.client.req.qkdKeyId));
            ClientActs(cfg, l, Answered(key)) == Some(l.(client := Acking(l.client.req, key)))
  {
  }

  lemma AckedStep(cfg: Config, l: Link)
    requires l.client.Acking?
    ensures var key := DeriveDaisywayKey(cfg.xof, cfg.params.Mirrored(), l.client.req.nonce, l.client.key);
            ClientActs(cfg, l, Acked) ==
            Some(l.(client := Installing(key), toServer := l.toServer + [REKEY_ACK], derived := l.derived + [key]))
  {
    hide DeriveDaisywayKey;
  }

  lemma InstallStep(cfg: Config, l: Link)
    requires l.client.Installing?
    ensures ClientActs(cfg, l, Installed) ==
            Some(l.(client := Reading([]), installed := l.installed + [l.client.osk]))
  {
  }

  // ---------------------------------------------------------------- what a client comes to

  /** The complete requests in a stream. */
  function RequestsIn(incoming: seq<byte>): nat {
    |incoming| / REKEY_REQ_LENGTH
  }

  /** The key that the client derives for a request. */
  function AnsweredKey(cfg: Config, req: RekeyReq): Key {
    DeriveDaisywayKey(cfg.xof, cfg.params.Mirrored(), req.nonce, Etsi014Key(req.qkdKeyId, cfg.store(req.qkdKeyId)))
  }

  /** The keys for the first `n` requests in a stream. */
  function KeysFrom(cfg: Config, incoming: seq<byte>, n: nat): (keys: seq<Key>)
    requires n <= RequestsIn(incoming)
    ensures |keys| == n
  {
    if n == 0 then []
    else
      var req := ReadRekeyReq(incoming[..REKEY_REQ_LENGTH]);
      [AnsweredKey(cfg, req)] + KeysFrom(cfg, incoming[REKEY_REQ_LENGTH..], n - 1)
  }

  /** What a client depends on besides its stream: answers of the key server, places for keys. */
  datatype Supply = Supply(answers: nat, places: nat)

  /**
   How many keys a client installs, how many requests it acknowledges, and how many the key server
   answers for it. Each of the resources is used up in turn.
   */
  function InstalledCount(incoming: seq<byte>, room: nat, s: Supply): nat {
    Min(Min(RequestsIn(incoming), s.answers), Min(room, s.places))
  }

  function AckedCount(incoming: seq<byte>, room: nat, s: Supply): nat {
    Min(Min(RequestsIn(incoming), s.answers), Min(room, s.places + 1))
  }

  function AnswerCount(incoming: seq<byte>, room: nat, s: Supply): nat {
    Min(Min(RequestsIn(incoming), s.answers), Min(room, s.places) + 1)
  }

  function Acks(n: nat): seq<byte> {
    seq(n, _ => REKEY_ACK)
  }

  /** One round uses up one of everything; where there is not enough for that, only what comes first. */
  lemma CountsStep(incoming: seq<byte>, room: nat, s: Supply)
    ensures var asked := |incoming| >= REKEY_REQ_LENGTH && s.answers > 0;
            if asked && room > 0 && s.places > 0 then
              var rest, s' := incoming[REKEY_REQ_LENGTH..], Supply(s.answers - 1, s.places - 1);
              && InstalledCount(incoming, room, s) == 1 + InstalledCount(rest, room - 1, s')
              && AckedCount(incoming, room, s) == 1 + AckedCount(rest, room - 1, s')
              && AnswerCount(incoming, room, s) == 1 + AnswerCount(rest, room - 1, s')
            else
              && InstalledCount(incoming, room, s) == 0
              && AckedCount(incoming, room, s) == (if asked && room > 0 then 1 else 0)
              && AnswerCount(incoming, room, s) == (if asked then 1 else 0)
  {
  }

  /** Why a client gives a connection up: for the reason that belongs to its phase, and no other. */
  ghost predicate ClientCause(p: ClientPhase, a: ClientAction, incoming: seq<byte>, room: nat, s: Supply) {
    match (p, a)
    case (Reading(_), Broke) => incoming == []
    case (Asking(_), Broke) => s.answers == 0
    case (Acking(_, _), Broke) => room == 0
    case (Installing(_), Broke) => s.places == 0
    case _ => false
  }

  ghost predicate ClosesFor(
    cfg: Config, start: Link, trace: seq<ClientAction>, incoming: seq<byte>, room: nat, s: Supply) {
    && trace != []
    && var n := |trace| - 1;
       var l := ClientReplay(cfg, start, trace[..n]);
       l.Some? && ClientCause(l.value.client, trace[n], incoming, room, s)
  }

  lemma KeysFromAppend(cfg: Config, incoming: seq<byte>, n: nat)
    requires n < RequestsIn(incoming)
    ensures var rest := incoming[REKEY_REQ_LENGTH * n..];
            && |rest| >= REKEY_REQ_LENGTH
            && KeysFrom(cfg, incoming, n + 1) ==
               KeysFrom(cfg, incoming, n) + [AnsweredKey(cfg, ReadRekeyReq(rest[..REKEY_REQ_LENGTH]))]
            && rest[REKEY_REQ_LENGTH..] == incoming[REKEY_REQ_LENGTH * (n + 1)..]
  {
    hide AnsweredKey, ReadRekeyReq;
    if n > 0 {
      KeysFromAppend(cfg, incoming[REKEY_REQ_LENGTH..], n - 1);
      assert incoming[REKEY_REQ_LENGTH..][REKEY_REQ_LENGTH * (n - 1)..] == incoming[REKEY_REQ_LENGTH * n..];
    }
  }

  /** Requests are answered with the keys of their rounds. */
  lemma {:induction false} RequestedKeys(cfg: Config, rounds: seq<Round>, n: nat)
    requires n <= |rounds| && forall r | r in rounds :: r.key.key == cfg.store(r.key.id)
    ensures KeysFrom(cfg, Requests(rounds), n) == RoundKeys(cfg, rounds[..n])
  {
    hide DeriveDaisywayKey, ReadRekeyReq, Requests, KeysFrom;
    if n == 0 {
      assert KeysFrom(cfg, Requests(rounds), 0) == [];
    } else {
      var round := rounds[n - 1];
      RequestedKeys(cfg, rounds, n - 1);
      KeysFromAppend(cfg, Requests(rounds), n - 1);
      RequestAt(rounds, n - 1);
      assert round in rounds && round.key == Etsi014Key(round.Req().qkdKeyId, cfg.store(round.Req().qkdKeyId));
      var rest := Requests(rounds)[REKEY_REQ_LENGTH * (n - 1)..];
      assert rest[..REKEY_REQ_LENGTH] == round.Req().AsBytes();
      RekeyReqRoundTrip(round.Req(), round.Req().AsBytes());
      MirroredHostsDeriveTheSame(cfg.xof, cfg.params, round.nonce, round.key);
      OneMore(cfg, rounds, n - 1);
    }
  }

  /**
   A client that is sent these requests, with room, answers and places for all of them, installs and
   acknowledges exactly their rounds' keys and asks the key server once for each.
   */
  lemma EverythingServed(cfg: Config, rounds: seq<Round>, room: nat, s: Supply)
    requires forall r | r in rounds :: r.key.key == cfg.store(r.key.id)
    requires |rounds| <= room && |rounds| <= s.answers && |rounds| <= s.places
    ensures var incoming, n := Requests(rounds), |rounds|;
            && InstalledCount(incoming, room, s) == AckedCount(incoming, room, s) == AnswerCount(incoming, room, s) == n
            && KeysFrom(cfg, incoming, n) == RoundKeys(cfg, rounds)
  {
    hide RoundKeys, KeysFrom, Requests;
    RequestedKeys(cfg, rounds, |rounds|);
    assert rounds[..|rounds|] == rounds;
  }

  // ---------------------------------------------------------------- the client

  class DaisywayClientProtocol {
    const cfg: Config
    const stream: TcpStream
    const etsiClient: KeyServer
    const oskHandler: ClientOskHandler

    // The steps made so far on this connection, and what the handler had received before it.
    ghost const start: Link
    ghost const earlier: seq<Key>
    ghost var trace: seq<ClientAction>
    ghost var phase: ClientPhase
    ghost var parsed: seq<RekeyReq>
    ghost var derived: seq<Key>

    ghost function View(): Link
      reads this, stream, oskHandler
      requires earlier <= oskHandler.received
    {
      Link(Fetching, phase, stream.incoming, stream.written, [], parsed, [], [], derived,
           oskHandler.received[|earlier|..])
    }

    /** What the client has done to the connection is what its steps do in the model. */
    ghost predicate Valid()
      reads this, stream, oskHandler
    {
      earlier <= oskHandler.received && ClientReplay(cfg, start, trace) == Some(View())
    }

    ghost function Supplies(): Supply
      reads etsiClient, oskHandler
    {
      Supply(etsiClient.answers, oskHandler.room)
    }

    ghost predicate Stopped()
      reads this, stream, etsiClient, oskHandler
    {
      phase.Closed? && ClosesFor(cfg, start, trace, stream.incoming, stream.room, Supplies())
    }

    /** The client runs with the mirrored parameters of the server. */
    constructor (cfg: Config, stream: TcpStream, etsiClient: KeyServer, oskHandler: ClientOskHandler)
      requires stream.written == []
      ensures Valid() && phase == Reading([]) && trace == []
      ensures this.cfg == cfg && this.stream == stream
      ensures this.etsiClient == etsiClient && this.oskHandler == oskHandler
      ensures start == NewLink.(toClient := stream.incoming) && earlier == oskHandler.received
    {
      this.cfg := cfg;
      this.stream := stream;
      this.etsiClient := etsiClient;
      this.oskHandler := oskHandler;
      start := NewLink.(toClient := stream.incoming);
      earlier := oskHandler.received;
      trace, phase, parsed, derived := [], Reading([]), [], [];
      new;
      assert oskHandler.received[|earlier|..] == [];
    }

    /** Records a step whose effects outside this object have just been made. */
    ghost method Record(a: ClientAction, before: Link)
      requires earlier <= oskHandler.received
      requires ClientReplay(cfg, start, trace) == Some(before)
      requires ClientActs(cfg, before, a).Some?
      requires var l := ClientActs(cfg, before, a).value;
               l == View().(client := l.client, parsed := l.parsed, derived := l.derived)
      modifies this`trace, this`phase, this`parsed, this`derived
      ensures Valid() && View() == ClientActs(cfg, before, a).value
      ensures trace == old(trace) + [a]
    {
      var l := ClientActs(cfg, before, a).value;
      ClientReplayAppend(cfg, start, trace, a);
      trace, phase, parsed, derived := trace + [a], l.client, l.parsed, l.derived;
    }

    /** Serves request after request, `n` of them completely, and says exactly what that amounts to. */
    method EventLoop() returns (ghost n: nat)
      requires Valid() && phase == Reading([])
      modifies this, stream, etsiClient, oskHandler
      ensures Valid() && Stopped()
      ensures n == old(InstalledCount(stream.incoming, stream.room, Supplies())) <= RequestsIn(old(stream.incoming))
      ensures oskHandler.received == old(oskHandler.received) + KeysFrom(cfg, old(stream.incoming), n)
      ensures oskHandler.room == old(oskHandler.room) - n
      ensures etsiClient.answers ==
              old(etsiClient.answers) - old(AnswerCount(stream.incoming, stream.room, Supplies()))
      ensures stream.written ==
              old(stream.written) + Acks(old(AckedCount(stream.incoming, stream.room, Supplies())))
    {
      hide ClientReplay, ClientActs, ClosesFor, AnsweredKey, ReadRekeyReq, KeysFrom, InstalledCount, AckedCount, AnswerCount;
      ghost var incoming, room, supply := stream.incoming, stream.room, Supplies();
      n := 0;
      NoKeys(cfg, incoming);
      while true
        invariant Valid() && phase == Reading([])
        invariant n <= RequestsIn(incoming) && stream.incoming == incoming[REKEY_REQ_LENGTH * n..]
        invariant etsiClient.answers + n == supply.answers && oskHandler.room + n == supply.places
        invariant InstalledCount(incoming, room, supply) == n + InstalledCount(stream.incoming, stream.room, Supplies())
        invariant AckedCount(incoming, room, supply) == n + AckedCount(stream.incoming, stream.room, Supplies())
        invariant AnswerCount(incoming, room, supply) == n + AnswerCount(stream.incoming, stream.room, Supplies())
        invariant stream.written == old(stream.written) + Acks(n)
        invariant oskHandler.received == old(oskHandler.received) + KeysFrom(cfg, incoming, n)
        decreases |stream.incoming|
      {
        CountsStep(stream.incoming, stream.room, Supplies());
        if n < RequestsIn(incoming) {
          KeysFromAppend(cfg, incoming, n);
        }
        var ok := Serve();
        if !ok {
          return;
        }
        n := n + 1;
      }
    }

    /** One pass through the loop: wait for a round, install its key. */
    method Serve() returns (ok: bool)
      requires Valid() && phase == Reading([])
      modifies this, stream, etsiClient, oskHandler
      ensures Valid()
      ensures if ok then phase == Reading([]) else Stopped()
      ensures var incoming, room, supply := old(stream.incoming), old(stream.room), old(Supplies());
              var complete := |incoming| >= REKEY_REQ_LENGTH;
              var answered, acked := complete && supply.answers > 0, complete && supply.answers > 0 && room > 0;
              && (ok <==> acked && supply.places > 0)
              && stream.incoming == (if complete then incoming[REKEY_REQ_LENGTH..] else [])
              && etsiClient.answers == supply.answers - (if answered then 1 else 0)
              && stream.room == room - (if acked then 1 else 0)
              && stream.written == old(stream.written) + (if acked then [REKEY_ACK] else [])
              && oskHandler.room == supply.places - (if ok then 1 else 0)
              && oskHandler.received ==
                 old(oskHandler.received) +
                 (if ok then [AnsweredKey(cfg, ReadRekeyReq(incoming[..REKEY_REQ_LENGTH]))] else [])
    {
      hide ClientReplay, ClientActs, ClosesFor, AnsweredKey, ReadRekeyReq;
      var key := WaitForKeyNegotiation();
      if key.None? {
        return false;
      }
      ghost var before := View();
      ok := oskHandler.SetFreshOsk(key.value);
      if !ok {
        BreakStep(cfg, before);
        Record(Broke, before);
        StopsIn(before);
        return;
      }
      InstallStep(cfg, before);
      Record(Installed, before);
    }

    /** The step just recorded was the last one, for the cause of the phase before it. */
    lemma StopsIn(before: Link)
      requires trace != [] && phase.Closed?
      requires ClientReplay(cfg, start, trace[..|trace| - 1]) == Some(before)
      requires ClientCause(before.client, trace[|trace| - 1], stream.incoming, stream.room, Supplies())
      ensures Stopped()
    {
    }

    /**
     One round up to the acknowledgement: a request is read, the key server is asked once, one byte is
     written, and the derived key is returned; each of these only if the one before has succeeded.
     */
    method WaitForKeyNegotiation() returns (osk: Option<Key>)
      requires Valid() && phase == Reading([])
      modifies this, stream, etsiClient
      ensures Valid()
      ensures osk.None? ==> Stopped()
      ensures osk.Some? ==> phase == Installing(osk.value)
      ensures var incoming, answers, room := old(stream.incoming), old(etsiClient.answers), old(stream.room);
              if |incoming| < REKEY_REQ_LENGTH then
                && osk.None? && stream.incoming == [] && etsiClient.answers == answers
                && stream.room == room && stream.written == old(stream.written)
              else
                var answered, acked := answers > 0, answers > 0 && room > 0;
                && stream.incoming == incoming[REKEY_REQ_LENGTH..]
                && etsiClient.answers == answers - (if answered then 1 else 0)
                && stream.room == room - (if acked then 1 else 0)
                && stream.written == old(stream.written) + (if acked then [REKEY_ACK] else [])
                && osk == if acked then Some(AnsweredKey(cfg, ReadRekeyReq(incoming[..REKEY_REQ_LENGTH]))) else None
    {
      hide ClientReplay, ClientActs, DeriveDaisywayKey, ClosesFor;
      var rekeyReq := new byte[REKEY_REQ_LENGTH](_ => 0);
      var ok := ReadExact(rekeyReq);
      if !ok {
        return None;
      }
      osk := AnswerRequest(ReadRekeyReq(rekeyReq[..]));
    }

    /** Asks the key server for the key of a request and acknowledges it. */
    method AnswerRequest(req: RekeyReq) returns (osk: Option<Key>)
      requires Valid() && phase == Asking(req)
      modifies this`trace, this`phase, this`parsed, this`derived
      modifies stream, etsiClient
      ensures Valid() && stream.incoming == old(stream.incoming)
      ensures osk.None? ==> Stopped()
      ensures osk.Some? ==> phase == Installing(osk.value)
      ensures var answers, room := old(etsiClient.answers), old(stream.room);
              var answered, acked := answers > 0, answers > 0 && room > 0;
              && etsiClient.answers == answers - (if answered then 1 else 0)
              && stream.room == room - (if acked then 1 else 0)
              && stream.written == old(stream.written) + (if acked then [REKEY_ACK] else [])
              && osk == if acked then Some(AnsweredKey(cfg, req)) else None
    {
      hide ClientReplay, ClientActs, DeriveDaisywayKey, ClosesFor;
      ghost var before := View();
      var key := etsiClient.FetchSpecific(cfg.store, req.qkdKeyId);
      if key.None? {
        BreakStep(cfg, before);
        Record(Broke, before);
        StopsIn(before);
        return None;
      }
      AnswerStep(cfg, before);
      Record(Answered(key.value), before);

      before := View();
      var n := stream.Write([REKEY_ACK]);
      if n == 0 {
        BreakStep(cfg, before);
        Record(Broke, before);
        StopsIn(before);
        return None;
      }
      AckedStep(cfg, before);
      Record(Acked, before);
      return Some(DeriveDaisywayKey(cfg.xof, cfg.params.Mirrored(), req.nonce, key.value));
    }

    /** Fills the buffer with the next request. On failure the connection is left closed. */
    method ReadExact(buf: array<byte>) returns (ok: bool)
      requires Valid() && phase == Reading([]) && buf.Length == REKEY_REQ_LENGTH
      modifies this`trace, this`phase, this`parsed, this`derived
      modifies stream, buf
      ensures Valid()
      ensures ok <==> REKEY_REQ_LENGTH <= |old(stream.incoming)|
      ensures ok ==> phase == Asking(ReadRekeyReq(buf[..])) && buf[..] + stream.incoming == old(stream.incoming)
      ensures !ok ==> Stopped() && stream.incoming == []
      ensures stream.written == old(stream.written) && stream.room == old(stream.room)
    {
      hide ClientReplay, ReadRekeyReq, ClosesFor;
      var filled := 0;
      while filled < buf.Length
        invariant Valid() && filled <= buf.Length
        invariant phase == if filled == buf.Length then Asking(ReadRekeyReq(buf[..])) else Reading(buf[..filled])
        invariant buf[..filled] + stream.incoming == old(stream.incoming)
        invariant stream.written == old(stream.written) && stream.room == old(stream.room)
      {
        var count := ReadSome(buf, filled);
        if count == 0 {
          return false;
        }
        filled := filled + count;
      }
      assert buf[..filled] == buf[..];
      return true;
    }

    /** One read into the rest of the buffer. */
    method ReadSome(buf: array<byte>, filled: nat) returns (count: nat)
      requires Valid() && filled < buf.Length == REKEY_REQ_LENGTH && phase == Reading(buf[..filled])
      modifies this`trace, this`phase, this`parsed, this`derived
      modifies stream, buf
      ensures Valid() && filled + count <= buf.Length
      ensures buf[..filled + count] + stream.incoming == old(buf[..filled] + stream.incoming)
      ensures stream.written == old(stream.written) && stream.room == old(stream.room)
      ensures count == 0 ==> Stopped() && stream.incoming == []
      ensures count > 0 ==>
                phase == if filled + count == buf.Length then Asking(ReadRekeyReq(buf[..])) else Reading(buf[..filled + count])
    {
      hide ClientReplay, ClientActs, ReadRekeyReq, ClosesFor;
      ghost var before := View();
      var chunk := stream.Read(buf.Length - filled);
      count := |chunk|;
      if count == 0 {
        BreakStep(cfg, before);
        Record(Broke, before);
        StopsIn(before);
        return;
      }
      ReadStep(cfg, before, chunk, stream.incoming);
      forall i | 0 <= i < count {
        buf[filled + i] := chunk[i];
      }
      assert buf[..filled + count] == before.client.buf + chunk;
      Record(Got(chunk), before);
      assert filled + count == buf.Length ==> buf[..filled + count] == buf[..];
    }
  }

  lemma NoKeys(cfg: Config, incoming: seq<byte>)
    ensures KeysFrom(cfg, incoming, 0) == [] && incoming[REKEY_REQ_LENGTH * 0..] == incoming
  {
  }

  // ---------------------------------------------------------------- the reconnecting client

  /** What the key handler has got from each of the client's connections, one after the other. */
  function Concat(parts: seq<seq<Key>>): seq<Key> {
    if parts == [] then [] else Concat(parts[..|parts| - 1]) + parts[|parts| - 1]
  }

  lemma NoParts()
    ensures Concat([]) == []
  {
  }

  lemma {:induction false} ConcatAppend(parts: seq<seq<Key>>, part: seq<Key>)
    ensures Concat(parts + [part]) == Concat(parts) + part
  {
    assert (parts + [part])[..|parts|] == parts;
  }

  /** How one attempt to connect turns out: what the connection will deliver, take, and in which chunks. */
  datatype Attempt = Refused | Connected(incoming: seq<byte>, room: nat, chunks: seq<nat>)

  /** The keys that an attempt leads to, and what it leaves for the next one. */
  function AttemptKeys(cfg: Config, attempt: Attempt, s: Supply): seq<Key> {
    if attempt.Refused? then []
    else KeysFrom(cfg, attempt.incoming, InstalledCount(attempt.incoming, attempt.room, s))
  }

  function AttemptLeaves(attempt: Attempt, s: Supply): Supply {
    if attempt.Refused? then s
    else Supply(s.answers - AnswerCount(attempt.incoming, attempt.room, s),
                s.places - InstalledCount(attempt.incoming, attempt.room, s))
  }

  function AttemptsLeave(attempts: seq<Attempt>, s: Supply): Supply {
    if attempts == [] then s
    else
      var n := |attempts| - 1;
      AttemptLeaves(attempts[n], AttemptsLeave(attempts[..n], s))
  }

  /** The keys of an attempt are those of a run of the model that ends with the connection closed. */
  ghost predicate ClientRun(cfg: Config, attempt: Attempt, keys: seq<Key>) {
    if attempt.Refused? then keys == []
    else exists trace :: ClientRunBy(cfg, attempt, keys, trace)
  }

  ghost predicate ClientRunBy(cfg: Config, attempt: Attempt, keys: seq<Key>, trace: seq<ClientAction>)
    requires attempt.Connected?
  {
    var l := ClientReplay(cfg, NewLink.(toClient := attempt.incoming), trace);
    l.Some? && l.value.client.Closed? && l.value.installed == keys
  }

  /** The reconnecting client. */
  class DaisywayTcpClient {
    const cfg: Config
    const etsiClient: KeyServer
    const oskHandler: ClientOskHandler

    constructor (cfg: Config, etsiClient: KeyServer, oskHandler: ClientOskHandler)
      ensures this.cfg == cfg && this.etsiClient == etsiClient && this.oskHandler == oskHandler
    {
      this.cfg := cfg;
      this.etsiClient := etsiClient;
      this.oskHandler := oskHandler;
    }

    ghost function Supplies(): Supply
      reads etsiClient, oskHandler
    {
      Supply(etsiClient.answers, oskHandler.room)
    }

    /**
     Works on one connection until it fails, and only then makes the next attempt. What the handler
     receives is, connection by connection in the order they were opened, what each of them leads to
     with what the earlier ones have left.
     */
    method EventLoop(attempts: seq<Attempt>) returns (ghost parts: seq<seq<Key>>)
      modifies etsiClient, oskHandler
      ensures |parts| == |attempts|
      ensures oskHandler.received == old(oskHandler.received) + Concat(parts)
      ensures Supplies() == AttemptsLeave(attempts, old(Supplies()))
      ensures forall i | 0 <= i < |attempts| ::
                && parts[i] == AttemptKeys(cfg, attempts[i], AttemptsLeave(attempts[..i], old(Supplies())))
                && ClientRun(cfg, attempts[i], parts[i])
    {
      hide ClientRun, AttemptKeys, AttemptLeaves, Concat;
      parts := [];
      NoParts();
      for i := 0 to |attempts|
        invariant |parts| == i
        invariant oskHandler.received == old(oskHandler.received) + Concat(parts)
        invariant Supplies() == AttemptsLeave(attempts[..i], old(Supplies()))
        invariant forall k | 0 <= k < i ::
                    && parts[k] == AttemptKeys(cfg, attempts[k], AttemptsLeave(attempts[..k], old(Supplies())))
                    && ClientRun(cfg, attempts[k], parts[k])
      {
        ghost var part := EventLoopWithoutErrorHandling(attempts[i]);
        ConcatAppend(parts, part);
        assert attempts[..i + 1][..i] == attempts[..i];
        parts := parts + [part];
      }
      assert attempts[..|attempts|] == attempts;
    }

    method EventLoopWithoutErrorHandling(attempt: Attempt) returns (ghost part: seq<Key>)
      modifies etsiClient, oskHandler
      ensures oskHandler.received == old(oskHandler.received) + part
      ensures part == AttemptKeys(cfg, attempt, old(Supplies()))
      ensures Supplies() == AttemptLeaves(attempt, old(Supplies()))
      ensures ClientRun(cfg, attempt, part)
    {
      hide ClientReplay, KeysFrom;
      part := [];
      if attempt.Connected? {
        var stream := new TcpStream(attempt.incoming, attempt.room, attempt.chunks);
        var handler := new DaisywayClientProtocol(cfg, stream, etsiClient, oskHandler);
        ghost var n := handler.EventLoop();
        part := oskHandler.received[|handler.earlier|..];
        assert ClientRunBy(cfg, attempt, part, handler.trace);
      }
    }
  }
}
