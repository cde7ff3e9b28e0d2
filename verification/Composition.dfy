/**
 Any two objects of Protocol.dfy at the two ends of a TCP connection make a run of the connection as
 Lockstep.dfy models it.

 Protocol.dfy describes each object alone, in front of a stream whose bytes are given in advance. Here
 the bytes that one end reads are a prefix of those that the other end has written, cut anywhere. The
 two runs can then be interleaved step by step, so that what is proved about connections holds for
 the objects.
 */
module Composition {
  import opened Wrappers
  import opened Bytes
  import opened Kdf
  import opened Lockstep
  import opened ManagerModel
  import opened Protocol

  datatype LinkAction = ByServer(server: ServerAction) | ByClient(client: ClientAction)

  function LinkActs(cfg: Config, l: Link, a: LinkAction): Option<Link> {
    match a
    case ByServer(server) => ServerActs(cfg, l, server)
    case ByClient(client) => ClientActs(cfg, l, client)
  }

  ghost function LinkReplay(cfg: Config, l: Link, acts: seq<LinkAction>): Option<Link> {
    if acts == [] then Some(l)
    else
      var n := |acts| - 1;
      var l' := LinkReplay(cfg, l, acts[..n]);
      if l'.None? then None else LinkActs(cfg, l'.value, acts[n])
  }

  /** The actions of each side, in their order. */
  ghost function ServerPart(acts: seq<LinkAction>): seq<ServerAction> {
    if acts == [] then []
    else
      var n := |acts| - 1;
      ServerPart(acts[..n]) + if acts[n].ByServer? then [acts[n].server] else []
  }

  ghost function ClientPart(acts: seq<LinkAction>): seq<ClientAction> {
    if acts == [] then []
    else
      var n := |acts| - 1;
      ClientPart(acts[..n]) + if acts[n].ByClient? then [acts[n].client] else []
  }

  lemma LinkReplayAppend(cfg: Config, l: Link, acts: seq<LinkAction>, a: LinkAction)
    ensures var l' := LinkReplay(cfg, l, acts);
            LinkReplay(cfg, l, acts + [a]) == if l'.None? then None else LinkActs(cfg, l'.value, a)
    ensures ServerPart(acts + [a]) == ServerPart(acts) + if a.ByServer? then [a.server] else []
    ensures ClientPart(acts + [a]) == ClientPart(acts) + if a.ByClient? then [a.client] else []
  {
    hide LinkActs;
    assert (acts + [a])[..|acts|] == acts;
  }

  // ---------------------------------------------------------------- the two ends

  /** The server's end of a connection that will deliver `incoming`, before it has done anything. */
  function ServerEnd(incoming: seq<byte>): Link {
    NewLink.(toServer := incoming)
  }

  function ClientEnd(incoming: seq<byte>): Link {
    NewLink.(toClient := incoming)
  }

  /** While the protocol goes on: `read` acknowledgements, and 48 bytes written for every round. */
  ghost predicate ServerCounts(s: Link, read: nat) {
    var n := REKEY_REQ_LENGTH * |s.agreed|;
    && (s.server.Fetching? || s.server.Forwarding? || s.server.Sleeping? ==>
          read == |s.agreed| && |s.toClient| == n)
    && (s.server.Writing? ==>
          read == |s.agreed| && |s.toClient| + |s.server.rest| == n + REKEY_REQ_LENGTH)
    && (s.server.ReadingAck? ==> read == |s.agreed| && |s.toClient| == n + REKEY_REQ_LENGTH)
  }

  /** While the protocol goes on: an acknowledgement written for every 48 bytes of the `read` ones. */
  ghost predicate ClientCounts(c: Link, read: nat) {
    var n := REKEY_REQ_LENGTH * |c.derived|;
    && (!c.client.Closed? ==> |c.toServer| == |c.derived|)
    && (c.client.Reading? ==> read == n + |c.client.buf|)
    && (c.client.Installing? ==> read == n)
    && (c.client.Asking? || c.client.Acking? ==> read == n + REKEY_REQ_LENGTH)
  }

  ghost predicate Joins(l: Link, s: Link, c: Link, inS: seq<byte>, inC: seq<byte>, readS: nat, readC: nat) {
    && readS <= |inS| && s.toServer == inS[readS..] && readS <= |c.toServer|
    && readC <= |inC| && c.toClient == inC[readC..] && readC <= |s.toClient|
    && l == Link(s.server, c.client, s.toClient[readC..], c.toServer[readS..],
                 s.sent, c.parsed, s.agreed, s.forwarded, c.derived, c.installed)
  }

  /** How many bytes an action takes from the stream. */
  function Takes(a: ServerAction): nat {
    if a.GotAck? then 1 else 0
  }

  function Drinks(a: ClientAction): nat {
    if a.Got? then |a.chunk| else 0
  }

  lemma ServerCountsStep(cfg: Config, s: Link, read: nat, a: ServerAction)
    requires ServerCounts(s, read) && ServerActs(cfg, s, a).Some?
    ensures ServerCounts(ServerActs(cfg, s, a).value, read + Takes(a))
    ensures s.toClient <= ServerActs(cfg, s, a).value.toClient
  {
    hide DeriveDaisywayKey;
  }

  lemma ClientCountsStep(cfg: Config, c: Link, read: nat, a: ClientAction)
    requires ClientCounts(c, read) && ClientActs(cfg, c, a).Some?
    ensures ClientCounts(ClientActs(cfg, c, a).value, read + Drinks(a))
    ensures c.toServer <= ClientActs(cfg, c, a).value.toServer
  {
    hide DeriveDaisywayKey, ReadRekeyReq;
  }

  /** A step of the server's end is a step of the connection, if the byte it reads has been written. */
  lemma ServerStepJoins(
    cfg: Config, l: Link, s: Link, c: Link, inS: seq<byte>, inC: seq<byte>, readS: nat, readC: nat, a: ServerAction)
    requires Joins(l, s, c, inS, inC, readS, readC) && ServerActs(cfg, s, a).Some?
    requires a.GotAck? ==> l.toServer != [] && l.toServer[0] == s.toServer[0]
    ensures ServerActs(cfg, l, a).Some?
    ensures Joins(ServerActs(cfg, l, a).value, ServerActs(cfg, s, a).value, c, inS, inC, readS + Takes(a), readC)
  {
    hide DeriveDaisywayKey;
  }

  lemma ClientStepJoins(
    cfg: Config, l: Link, s: Link, c: Link, inS: seq<byte>, inC: seq<byte>, readS: nat, readC: nat, a: ClientAction)
    requires Joins(l, s, c, inS, inC, readS, readC) && ClientActs(cfg, c, a).Some?
    requires a.Got? ==> a.chunk <= l.toClient
    ensures ClientActs(cfg, l, a).Some?
    ensures Joins(ClientActs(cfg, l, a).value, s, ClientActs(cfg, c, a).value, inS, inC, readS, readC + Drinks(a))
  {
    hide DeriveDaisywayKey, ReadRekeyReq;
  }

  // ---------------------------------------------------------------- interleaving two runs

  /** A run of each object, in front of a stream that will deliver the given bytes. */
  datatype Runs = Runs(inS: seq<byte>, tS: seq<ServerAction>, inC: seq<byte>, tC: seq<ClientAction>)

  ghost predicate Possible(cfg: Config, r: Runs) {
    && ServerReplay(cfg, ServerEnd(r.inS), r.tS).Some?
    && ClientReplay(cfg, ClientEnd(r.inC), r.tC).Some?
  }

  /** TCP: each end is delivered a prefix of what the other end has written. */
  ghost predicate Connected(cfg: Config, r: Runs)
    requires Possible(cfg, r)
  {
    && r.inS <= ClientReplay(cfg, ClientEnd(r.inC), r.tC).value.toServer
    && r.inC <= ServerReplay(cfg, ServerEnd(r.inS), r.tS).value.toClient
  }

  lemma {:induction false} ServerPrefix(cfg: Config, l: Link, t: seq<ServerAction>, i: nat)
    requires i <= |t| && ServerReplay(cfg, l, t).Some?
    ensures ServerReplay(cfg, l, t[..i]).Some?
    ensures ServerReplay(cfg, l, t[..i]).value.toClient <= ServerReplay(cfg, l, t).value.toClient
    ensures i < |t| ==>
              && ServerActs(cfg, ServerReplay(cfg, l, t[..i]).value, t[i]).Some?
              && ServerReplay(cfg, l, t[..i + 1]) == ServerActs(cfg, ServerReplay(cfg, l, t[..i]).value, t[i])
    decreases |t|
  {
    hide ServerActs;
    if i == |t| {
      assert t[..i] == t;
    } else {
      var n := |t| - 1;
      ServerPrefix(cfg, l, t[..n], i);
      ServerWrites(cfg, ServerReplay(cfg, l, t[..n]).value, t[n]);
      assert t[..n][..i] == t[..i];
      assert i < n ==> t[..n][..i + 1] == t[..i + 1];
      assert i == n ==> t[..i + 1] == t;
    }
  }

  lemma ServerWrites(cfg: Config, l: Link, a: ServerAction)
    requires ServerActs(cfg, l, a).Some?
    ensures l.toClient <= ServerActs(cfg, l, a).value.toClient
  {
    hide DeriveDaisywayKey;
  }

  lemma {:induction false} ClientPrefix(cfg: Config, l: Link, t: seq<ClientAction>, j: nat)
    requires j <= |t| && ClientReplay(cfg, l, t).Some?
    ensures ClientReplay(cfg, l, t[..j]).Some?
    ensures ClientReplay(cfg, l, t[..j]).value.toServer <= ClientReplay(cfg, l, t).value.toServer
    ensures j < |t| ==>
              && ClientActs(cfg, ClientReplay(cfg, l, t[..j]).value, t[j]).Some?
              && ClientReplay(cfg, l, t[..j + 1]) == ClientActs(cfg, ClientReplay(cfg, l, t[..j]).value, t[j])
    decreases |t|
  {
    hide ClientActs;
    if j == |t| {
      assert t[..j] == t;
    } else {
      var n := |t| - 1;
      ClientPrefix(cfg, l, t[..n], j);
      ClientWrites(cfg, ClientReplay(cfg, l, t[..n]).value, t[n]);
      assert t[..n][..j] == t[..j];
      assert j < n ==> t[..n][..j + 1] == t[..j + 1];
      assert j == n ==> t[..j + 1] == t;
    }
  }

  lemma ClientWrites(cfg: Config, l: Link, a: ClientAction)
    requires ClientActs(cfg, l, a).Some?
    ensures l.toServer <= ClientActs(cfg, l, a).value.toServer
  {
    hide DeriveDaisywayKey, ReadRekeyReq;
  }

  /** How far the two runs have been interleaved, and the connection that this has led to. */
  datatype Progress = Progress(acts: seq<LinkAction>, i: nat, j: nat, readS: nat, readC: nat, l: Link)

  ghost function ServerAt(cfg: Config, r: Runs, p: Progress): Link
    requires Possible(cfg, r) && p.i <= |r.tS|
  {
    ServerPrefix(cfg, ServerEnd(r.inS), r.tS, p.i);
    ServerReplay(cfg, ServerEnd(r.inS), r.tS[..p.i]).value
  }

  ghost function ClientAt(cfg: Config, r: Runs, p: Progress): Link
    requires Possible(cfg, r) && p.j <= |r.tC|
  {
    ClientPrefix(cfg, ClientEnd(r.inC), r.tC, p.j);
    ClientReplay(cfg, ClientEnd(r.inC), r.tC[..p.j]).value
  }

  ghost predicate Merged(cfg: Config, r: Runs, p: Progress)
    requires Possible(cfg, r)
  {
    && p.i <= |r.tS| && p.j <= |r.tC|
    && LinkReplay(cfg, NewLink, p.acts) == Some(p.l) && InLockstep(cfg, p.l)
    && ServerPart(p.acts) == r.tS[..p.i] && ClientPart(p.acts) == r.tC[..p.j]
    && ServerCounts(ServerAt(cfg, r, p), p.readS) && ClientCounts(ClientAt(cfg, r, p), p.readC)
    && Joins(p.l, ServerAt(cfg, r, p), ClientAt(cfg, r, p), r.inS, r.inC, p.readS, p.readC)
    && forall k | 0 <= k < p.i && r.tS[k].GotAck? :: r.tS[k].ack == REKEY_ACK
  }

  /** The server can go on: it does not wait for a byte that has not been written. */
  predicate ServerCan(r: Runs, p: Progress) {
    p.i < |r.tS| && (r.tS[p.i].GotAck? ==> p.l.toServer != [])
  }

  predicate ClientCan(r: Runs, p: Progress) {
    p.j < |r.tC| && (r.tC[p.j].Got? ==> r.tC[p.j].chunk <= p.l.toClient)
  }

  lemma ServerGoesOn(cfg: Config, r: Runs, p: Progress) returns (p': Progress)
    requires Possible(cfg, r) && Connected(cfg, r) && Merged(cfg, r, p) && ServerCan(r, p)
    ensures Merged(cfg, r, p') && p'.i == p.i + 1 && p'.j == p.j
  {
    hide ServerReplay, ClientReplay, LinkReplay, ServerPart, ClientPart, InLockstep, ServerActs, ServerCounts, ClientCounts;
    var a := r.tS[p.i];
    var s, c := ServerAt(cfg, r, p), ClientAt(cfg, r, p);
    ServerPrefix(cfg, ServerEnd(r.inS), r.tS, p.i);
    ClientPrefix(cfg, ClientEnd(r.inC), r.tC, p.j);
    if a.GotAck? {
      NextByte(cfg, s, a, r.inS, c.toServer, ClientReplay(cfg, ClientEnd(r.inC), r.tC).value.toServer, p.readS);
    }
    ServerStepJoins(cfg, p.l, s, c, r.inS, r.inC, p.readS, p.readC, a);
    ServerCountsStep(cfg, s, p.readS, a);
    ServerKeepsLockstep(cfg, p.l, a);
    if a.GotAck? {
      AckKeepsLockstep(cfg, p.l, a.ack);
    }
    LinkReplayAppend(cfg, NewLink, p.acts, ByServer(a));
    p' := Progress(p.acts + [ByServer(a)], p.i + 1, p.j, p.readS + Takes(a), p.readC, ServerActs(cfg, p.l, a).value);
  }

  /** The byte that the server reads is the one the client has written in that place. */
  lemma NextByte(
    cfg: Config, s: Link, a: ServerAction, inS: seq<byte>, written: seq<byte>, all: seq<byte>, read: nat)
    requires a.GotAck? && ServerActs(cfg, s, a).Some?
    requires read < |written| && read <= |inS| && s.toServer == inS[read..]
    requires inS <= all && written <= all
    ensures s.toServer != [] && written[read..][0] == s.toServer[0]
  {
    hide DeriveDaisywayKey;
  }

  lemma ClientGoesOn(cfg: Config, r: Runs, p: Progress) returns (p': Progress)
    requires Possible(cfg, r) && Merged(cfg, r, p) && ClientCan(r, p)
    ensures Merged(cfg, r, p') && p'.i == p.i && p'.j == p.j + 1
  {
    hide ServerReplay, ClientReplay, LinkReplay, ServerPart, ClientPart, InLockstep, ClientActs, ServerCounts, ClientCounts;
    var a := r.tC[p.j];
    var s, c := ServerAt(cfg, r, p), ClientAt(cfg, r, p);
    ClientPrefix(cfg, ClientEnd(r.inC), r.tC, p.j);
    ClientStepJoins(cfg, p.l, s, c, r.inS, r.inC, p.readS, p.readC, a);
    ClientCountsStep(cfg, c, p.readC, a);
    ClientKeepsLockstep(cfg, p.l, a);
    LinkReplayAppend(cfg, NewLink, p.acts, ByClient(a));
    p' := Progress(p.acts + [ByClient(a)], p.i, p.j + 1, p.readS, p.readC + Drinks(a), ClientActs(cfg, p.l, a).value);
  }

  /** If the server waits for an acknowledgement, what the client reads next has been written. */
  lemma NotBothWait(cfg: Config, s: Link, c: Link, ack: byte, chunk: seq<byte>, readS: nat, readC: nat)
    requires ServerCounts(s, readS) && ServerActs(cfg, s, GotAck(ack)).Some?
    requires ClientCounts(c, readC) && ClientActs(cfg, c, Got(chunk)).Some?
    requires |c.toServer| == readS
    ensures readC + |chunk| <= |s.toClient|
  {
    hide DeriveDaisywayKey, ReadRekeyReq;
  }

  lemma Unread(cfg: Config, s: Link, c: Link, ack: byte, chunk: seq<byte>)
    ensures ServerActs(cfg, s, GotAck(ack)).Some? ==> s.toServer != []
    ensures ClientActs(cfg, c, Got(chunk)).Some? ==> chunk <= c.toClient
  {
    hide DeriveDaisywayKey, ReadRekeyReq;
  }

  lemma SamePlace(chunk: seq<byte>, incoming: seq<byte>, written: seq<byte>, all: seq<byte>, read: nat)
    requires read <= |incoming| && chunk <= incoming[read..] && incoming <= all && written <= all
    requires read + |chunk| <= |written|
    ensures chunk <= written[read..]
  {
  }

  /** Stop and wait never blocks both sides. */
  lemma SomeoneCan(cfg: Config, r: Runs, p: Progress)
    requires Possible(cfg, r) && Connected(cfg, r) && Merged(cfg, r, p)
    requires p.i < |r.tS| || p.j < |r.tC|
    ensures ServerCan(r, p) || ClientCan(r, p)
  {
    hide ServerReplay, ClientReplay, LinkReplay, ServerPart, ClientPart, InLockstep, ServerActs, ClientActs, ServerCounts, ClientCounts;
    var s, c := ServerAt(cfg, r, p), ClientAt(cfg, r, p);
    ServerPrefix(cfg, ServerEnd(r.inS), r.tS, p.i);
    ClientPrefix(cfg, ClientEnd(r.inC), r.tC, p.j);
    assert r.tS[..|r.tS|] == r.tS && r.tC[..|r.tC|] == r.tC;
    if !ServerCan(r, p) {
      var ack := if p.i < |r.tS| then r.tS[p.i].ack else REKEY_ACK;
      var chunk := if p.j < |r.tC| && r.tC[p.j].Got? then r.tC[p.j].chunk else [];
      assert p.i < |r.tS| ==> r.tS[p.i] == GotAck(ack);
      assert p.j < |r.tC| && r.tC[p.j].Got? ==> r.tC[p.j] == Got(chunk);
      Unread(cfg, s, c, ack, chunk);
      if p.j < |r.tC| && r.tC[p.j].Got? {
        if p.i < |r.tS| {
          NotBothWait(cfg, s, c, ack, chunk, p.readS, p.readC);
        }
        SamePlace(chunk, r.inC, s.toClient, ServerReplay(cfg, ServerEnd(r.inS), r.tS).value.toClient, p.readC);
      }
    }
  }

  /**
   The two runs of any two objects that TCP connects are the two sides of one run of the connection:
   the same actions in the same order, ending in the same phases with the same logs. In it the two
   ends stay in lockstep, so no acknowledgement that the server reads is ever wrong.
   */
  lemma RunsCompose(cfg: Config, r: Runs) returns (acts: seq<LinkAction>, l: Link)
    requires Possible(cfg, r) && Connected(cfg, r)
    ensures LinkReplay(cfg, NewLink, acts) == Some(l) && InLockstep(cfg, l)
    ensures ServerPart(acts) == r.tS && ClientPart(acts) == r.tC
    ensures var s := ServerReplay(cfg, ServerEnd(r.inS), r.tS).value;
            && l.server == s.server && l.sent == s.sent && l.agreed == s.agreed && l.forwarded == s.forwarded
    ensures var c := ClientReplay(cfg, ClientEnd(r.inC), r.tC).value;
            && l.client == c.client && l.parsed == c.parsed && l.derived == c.derived && l.installed == c.installed
    ensures forall a | a in r.tS && a.GotAck? :: a.ack == REKEY_ACK
  {
    hide InLockstep, ServerActs, ClientActs, ServerCounts, ClientCounts, LinkReplay, ServerReplay, ClientReplay;
    var p := NothingYet(cfg, r);
    while p.i < |r.tS| || p.j < |r.tC|
      invariant Merged(cfg, r, p)
      decreases |r.tS| - p.i + |r.tC| - p.j
    {
      SomeoneCan(cfg, r, p);
      if ServerCan(r, p) {
        p := ServerGoesOn(cfg, r, p);
      } else {
        p := ClientGoesOn(cfg, r, p);
      }
    }
    assert r.tS[..|r.tS|] == r.tS && r.tC[..|r.tC|] == r.tC;
    acts, l := p.acts, p.l;
  }

  lemma NothingYet(cfg: Config, r: Runs) returns (p: Progress)
    requires Possible(cfg, r)
    ensures Merged(cfg, r, p) && p.i == 0 && p.j == 0
  {
    hide InLockstep;
    p := Progress([], 0, 0, 0, 0, NewLink);
    NewLinkInLockstep(cfg);
    assert r.tS[..0] == [] && r.tC[..0] == [];
  }

  /**
   What the objects' users see: the keys that the server task has sent to the manager and those that
   the client has installed are the same, but for at most one key at the end of either list.
   */
  lemma ObjectsAgree(cfg: Config, r: Runs)
    requires Possible(cfg, r) && Connected(cfg, r)
    ensures var sent := ServerReplay(cfg, ServerEnd(r.inS), r.tS).value.forwarded;
            var installed := ClientReplay(cfg, ClientEnd(r.inC), r.tC).value.installed;
            && (sent <= installed || installed <= sent)
            && -1 <= |sent| - |installed| <= 1
  {
    hide InLockstep, ServerReplay, ClientReplay, LinkReplay, ServerPart, ClientPart;
    var acts, l := RunsCompose(cfg, r);
    SkewAtMostOne(cfg, l);
  }

  /**
   The server's task and the client's protocol object, each run to its end. If the two streams turn
   out to be the two directions of one TCP connection, cut anywhere, then the manager has been sent
   the keys that the client has installed, but for at most one key, and then the task's exit.
   */
  method BothEnds(
    cfg: Config, connectionId: ConnectionId, queue: NotificationQueue, oskHandler: ClientOskHandler,
    serverStream: TcpStream, clientStream: TcpStream, serverKeys: KeyServer, clientKeys: KeyServer)
    returns (reported: bool, ghost sent: seq<Key>, ghost installed: seq<Key>)
    requires serverStream != clientStream && serverKeys != clientKeys
    requires serverStream.written == [] && clientStream.written == []
    requires forall r | r in serverKeys.issues :: r.key.key == cfg.store(r.key.id)
    modifies queue, oskHandler, serverStream, clientStream, serverKeys, clientKeys
    ensures queue.events ==
            old(queue.events) + FreshEvents(connectionId, sent) + if reported then [Exit(connectionId)] else []
    ensures oskHandler.received == old(oskHandler.received) + installed
    ensures old(serverStream.incoming) <= clientStream.written && old(clientStream.incoming) <= serverStream.written ==>
              (sent <= installed || installed <= sent) && -1 <= |sent| - |installed| <= 1
  {
    hide ServerReplay, ClientReplay, KeysFrom, RoundKeys, Requests, StopsFor, ClosesFor;
    ghost var inS, inC := serverStream.incoming, clientStream.incoming;
    ghost var tS;
    reported, sent, tS := InitTask(cfg, connectionId, serverStream, serverKeys, queue);
    var client := new DaisywayClientProtocol(cfg, clientStream, clientKeys, oskHandler);
    ghost var n := client.EventLoop();
    installed := oskHandler.received[|client.earlier|..];
    if inS <= clientStream.written && inC <= serverStream.written {
      ObjectsAgree(cfg, Runs(inS, tS, inC, client.trace));
    }
  }
}
