/**
 The composed system: a client that reconnects for ever, one server task per accepted connection,
 the connection manager, and on both hosts the deadman queue in front of the key sink.

 The manager's state is `Run(history)`, the history being the events it has handled; ConnectionManager.dfy
 proves that the manager object has exactly that state. Keys carry a tag for the sake of the proofs.
 */
module System {
  import opened Wrappers
  import opened Bytes
  import opened Kdf
  import opened ManagerModel
  import opened Lockstep
  import Etsi014
  import Simulator

  const NOTIFICATION_CAPACITY: nat := 16
  const REQUEST_CAPACITY: nat := 8

  /** The request queue of a deadman worker, and the fresh keys it has written to the sink. */
  datatype Deadman = Deadman(requests: seq<TaggedKey>, written: seq<TaggedKey>)

  /**
   `links` are the connections in the order the client opened them; the server accepts them in that
   order. `hand` is the key that the manager is passing on, if any.
   */
  datatype System = System(
    links: seq<Link>, queue: seq<StreamEvent>, history: seq<StreamEvent>, hand: seq<TaggedKey>,
    server: Deadman, client: Deadman)

  const Start: System := System([], [], [], [], Deadman([], []), Deadman([], []))

  datatype Action =
    | Connect
    | AcceptNext
    | Deliver
    | HandOver
    | ServerWrites
    | ClientWrites
    | ServerDoes(connection: ConnectionId, serverAction: ServerAction)
    | ClientDoes(clientAction: ClientAction)

  function Write(d: Deadman): Deadman
    requires d.requests != []
  {
    Deadman(d.requests[1..], d.written + [d.requests[0]])
  }

  function Push(d: Deadman, k: TaggedKey): Deadman {
    d.(requests := d.requests + [k])
  }

  /** The event that a task's action sends to the manager, if any. */
  function Sends(c: ConnectionId, l: Link, a: ServerAction): seq<StreamEvent> {
    if a.Enqueued? && l.server.Forwarding? then [Osk(OskEvent(c, l.server.osk, Fresh))]
    else if a.ExitSent? then [Exit(c)]
    else []
  }

  /** A task acts on its own; it can be cancelled only after its abort handle has been dropped. */
  ghost function ServerTurn(cfg: Config, s: System, c: ConnectionId, a: ServerAction): Option<System> {
    if !(c < |s.links| && c < Run(s.history).next) then None
    else if a.Cancelled? && c in Run(s.history).Registered() then None
    else
      var l' := ServerActs(cfg, s.links[c], a);
      var sends := Sends(c, s.links[c], a);
      if l'.None? || |s.queue + sends| > NOTIFICATION_CAPACITY then None
      else Some(s.(links := s.links[c := l'.value], queue := s.queue + sends))
  }

  /** The client works on its newest connection only. */
  function ClientTurn(cfg: Config, s: System, a: ClientAction): Option<System> {
    if s.links == [] then None
    else
      var c := |s.links| - 1;
      var l := s.links[c];
      var l' := ClientActs(cfg, l, a);
      if l'.None? then None
      else if a.Installed? then
        if |s.client.requests| >= REQUEST_CAPACITY then None
        else Some(s.(links := s.links[c := l'.value],
                     client := Push(s.client, TaggedKey(Tag(c, |l.installed|), l'.value.installed[|l.installed|]))))
      else Some(s.(links := s.links[c := l'.value]))
  }

  ghost function Step(cfg: Config, s: System, act: Action): Option<System> {
    match act
    case Connect =>
      if s.links != [] && !s.links[|s.links| - 1].client.Closed? then None
      else Some(s.(links := s.links + [NewLink]))
    case AcceptNext =>
      if s.hand != [] || Run(s.history).next >= |s.links| then None
      else Some(s.(history := s.history + [Accept]))
    case Deliver =>
      if s.hand != [] || s.queue == [] then None
      else Some(s.(history := s.history + [s.queue[0]], queue := s.queue[1..],
                   hand := DeliveryOf(s.history, s.queue[0])))
    case HandOver =>
      if s.hand == [] || |s.server.requests| >= REQUEST_CAPACITY then None
      else Some(s.(hand := s.hand[1..], server := Push(s.server, s.hand[0])))
    case ServerWrites =>
      if s.server.requests == [] then None else Some(s.(server := Write(s.server)))
    case ClientWrites =>
      if s.client.requests == [] then None else Some(s.(client := Write(s.client)))
    case ServerDoes(c, a) => ServerTurn(cfg, s, c, a)
    case ClientDoes(a) => ClientTurn(cfg, s, a)
  }

  ghost function RunFrom(cfg: Config, s: System, acts: seq<Action>): Option<System> {
    if acts == [] then Some(s)
    else
      var s' := RunFrom(cfg, s, acts[..|acts| - 1]);
      if s'.None? then None else Step(cfg, s'.value, acts[|acts| - 1])
  }

  /** The keys the client has installed, over all its connections. */
  ghost function InstalledKeys(links: seq<Link>): seq<TaggedKey> {
    if links == [] then []
    else
      var c := |links| - 1;
      InstalledKeys(links[..c]) + Tagged(c, links[c].installed)
  }

  function Tagged(c: ConnectionId, keys: seq<Key>): seq<TaggedKey> {
    seq(|keys|, n requires 0 <= n < |keys| => TaggedKey(Tag(c, n), keys[n]))
  }

  // ---------------------------------------------------------------- the invariant

  ghost predicate LinksOk(cfg: Config, s: System) {
    && Run(s.history).next <= |s.links|
    && forall c | 0 <= c < |s.links| :: InLockstep(cfg, s.links[c])
  }

  /** Per connection, the events handled and those still queued are the keys its task has sent. */
  ghost predicate KeysOk(s: System) {
    forall c: ConnectionId :: KeysOf(s.history, c) + KeysOf(s.queue, c) ==
      if c < |s.links| then s.links[c].forwarded else []
  }

  /** Nothing of a connection comes after its exit. */
  ghost predicate ExitsLast(queue: seq<StreamEvent>) {
    && (forall ev | ev in queue :: !ev.Accept?)
    && (forall i, j | 0 <= i < j < |queue| :: queue[i] != Exit(Id(queue[j])))
  }

  /** The exit of a connection is its last event. */
  ghost predicate ExitsOk(s: System) {
    && Sourced(s.history)
    && ExitsLast(s.queue)
    && (forall ev | ev in s.queue :: Id(ev) < Run(s.history).next && Exit(Id(ev)) !in s.history)
    && (forall c: ConnectionId | Exit(c) in s.history || Exit(c) in s.queue ::
          c < |s.links| && s.links[c].server.Ended?)
  }

  ghost predicate PipesOk(s: System) {
    && |s.queue| <= NOTIFICATION_CAPACITY && |s.hand| <= 1
    && |s.server.requests| <= REQUEST_CAPACITY && |s.client.requests| <= REQUEST_CAPACITY
    && s.server.written + s.server.requests + s.hand == Deliveries(s.history)
    && s.client.written + s.client.requests == InstalledKeys(s.links)
  }

  ghost predicate Good(cfg: Config, s: System) {
    LinksOk(cfg, s) && KeysOk(s) && ExitsOk(s) && PipesOk(s)
  }

  // ---------------------------------------------------------------- about projections

  lemma KeysOfOne(ev: StreamEvent, c: ConnectionId)
    ensures KeysOf([ev], c) == KeyOf(ev, c) && KeysOf([], c) == []
  {
    assert [ev][..0] == [];
  }

  lemma {:induction false} KeysConcat(a: seq<StreamEvent>, b: seq<StreamEvent>, c: ConnectionId)
    ensures KeysOf(a + b, c) == KeysOf(a, c) + KeysOf(b, c)
  {
    hide KeysOf, KeyOf, Deliveries, DeliveryOf;
    if b == [] {
      KeysOfOne(Accept, c);
      assert a + b == a;
    } else {
      var n := |b| - 1;
      KeysConcat(a, b[..n], c);
      KeysAppend(a + b[..n], b[n], c);
      KeysAppend(b[..n], b[n], c);
      assert a + b == (a + b[..n]) + [b[n]] && b == b[..n] + [b[n]];
      assert KeysOf(a, c) + (KeysOf(b[..n], c) + KeyOf(b[n], c)) == (KeysOf(a, c) + KeysOf(b[..n], c)) + KeyOf(b[n], c);
    }
  }

  /** Installed keys depend on the installed logs only. */
  lemma {:induction false} SameInstalled(links: seq<Link>, links': seq<Link>)
    requires |links| == |links'| && forall c | 0 <= c < |links| :: links[c].installed == links'[c].installed
    ensures InstalledKeys(links) == InstalledKeys(links')
  {
    if links != [] {
      SameInstalled(links[..|links| - 1], links'[..|links| - 1]);
    }
  }

  lemma {:induction false} InstalledAsLogged(links: seq<Link>)
    ensures forall k | k in InstalledKeys(links) ::
              && k.tag.connection < |links|
              && k.tag.round < |links[k.tag.connection].installed|
              && k.key == links[k.tag.connection].installed[k.tag.round]
    ensures Increasing(InstalledKeys(links))
  {
    if links != [] {
      InstalledAsLogged(links[..|links| - 1]);
    }
  }

  // ---------------------------------------------------------------- server tasks keep it

  /** What a task's action changes, apart from bytes on the wire. */
  lemma ServerEffect(cfg: Config, c: ConnectionId, l: Link, a: ServerAction)
    requires ServerActs(cfg, l, a).Some?
    ensures var l' := ServerActs(cfg, l, a).value;
            && l'.installed == l.installed
            && (l.server.Ended? ==> l'.server.Ended? && Sends(c, l, a) == [])
            && (Exit(c) in Sends(c, l, a) ==> l'.server.Ended?)
            && |Sends(c, l, a)| <= 1
            && (forall ev | ev in Sends(c, l, a) :: !ev.Accept? && Id(ev) == c)
            && l'.forwarded == l.forwarded + (if a.Enqueued? then [l.server.osk] else [])
            && (Sends(c, l, a) == if a.Enqueued? then [Osk(OskEvent(c, l.server.osk, Fresh))]
                                  else if a.ExitSent? then [Exit(c)] else [])
  {
  }

  /** The keys among what a task sends. */
  lemma KeysSent(cfg: Config, c: ConnectionId, l: Link, a: ServerAction, d: ConnectionId)
    requires ServerActs(cfg, l, a).Some?
    ensures KeysOf(Sends(c, l, a), d) ==
            if d == c then ServerActs(cfg, l, a).value.forwarded[|l.forwarded|..] else []
  {
    hide KeysOf, ServerActs;
    ServerEffect(cfg, c, l, a);
    var sends := Sends(c, l, a);
    KeysOfOne(if sends == [] then Accept else sends[0], d);
    assert sends == [] || sends == [sends[0]];
  }

  lemma ServerKeepsKeys(cfg: Config, s: System, c: ConnectionId, a: ServerAction)
    requires KeysOk(s) && ServerTurn(cfg, s, c, a).Some?
    ensures KeysOk(ServerTurn(cfg, s, c, a).value)
  {
    hide Run, KeysOf, ServerActs, Sends;
    var l, s' := s.links[c], ServerTurn(cfg, s, c, a).value;
    ServerEffect(cfg, c, l, a);
    forall d: ConnectionId
      ensures KeysOf(s'.history, d) + KeysOf(s'.queue, d) == if d < |s'.links| then s'.links[d].forwarded else []
    {
      KeysConcat(s.queue, Sends(c, l, a), d);
      KeysSent(cfg, c, l, a, d);
      assert KeysOf(s.history, d) + KeysOf(s.queue, d) == if d < |s.links| then s.links[d].forwarded else [];
    }
  }

  lemma ServerKeepsExits(cfg: Config, s: System, c: ConnectionId, a: ServerAction)
    requires ExitsOk(s) && ServerTurn(cfg, s, c, a).Some?
    ensures ExitsOk(ServerTurn(cfg, s, c, a).value)
  {
    hide Run, Sourced, ServerActs, Sends;
    var l, s' := s.links[c], ServerTurn(cfg, s, c, a).value;
    ServerEffect(cfg, c, l, a);
    forall i, j | 0 <= i < j < |s'.queue|
      ensures s'.queue[i] != Exit(Id(s'.queue[j]))
    {
    }
  }

  lemma ServerKeepsGood(cfg: Config, s: System, c: ConnectionId, a: ServerAction)
    requires Good(cfg, s) && ServerTurn(cfg, s, c, a).Some?
    ensures Good(cfg, ServerTurn(cfg, s, c, a).value)
  {
    hide Run, KeysOk, ExitsOk, InLockstep, Deliveries, ServerActs;
    ServerKeepsKeys(cfg, s, c, a);
    ServerKeepsExits(cfg, s, c, a);
    ServerKeepsLockstep(cfg, s.links[c], a);
    ServerEffect(cfg, c, s.links[c], a);
    SameInstalled(s.links, ServerTurn(cfg, s, c, a).value.links);
  }

  // ---------------------------------------------------------------- the client keeps it

  lemma ClientEffect(cfg: Config, l: Link, a: ClientAction)
    requires ClientActs(cfg, l, a).Some?
    ensures var l' := ClientActs(cfg, l, a).value;
            && l'.forwarded == l.forwarded && l'.server == l.server
            && l'.installed == l.installed + (if a.Installed? then [l.client.osk] else [])
  {
  }

  lemma {:induction false} InstalledGrows(links: seq<Link>, l': Link)
    requires links != []
    requires var l := links[|links| - 1]; l.installed <= l'.installed
    ensures var c := |links| - 1;
            InstalledKeys(links[c := l']) ==
            InstalledKeys(links) + Tagged(c, l'.installed)[|links[c].installed|..]
  {
    var c := |links| - 1;
    assert links[c := l'][..c] == links[..c];
    assert Tagged(c, l'.installed)[..|links[c].installed|] == Tagged(c, links[c].installed);
  }

  lemma ClientKeepsInstalled(cfg: Config, s: System, a: ClientAction)
    requires PipesOk(s) && ClientTurn(cfg, s, a).Some?
    ensures PipesOk(ClientTurn(cfg, s, a).value)
  {
    hide Deliveries, InstalledKeys, ClientActs;
    var c := |s.links| - 1;
    var l' := ClientActs(cfg, s.links[c], a).value;
    ClientEffect(cfg, s.links[c], a);
    InstalledGrows(s.links, l');
  }

  lemma ClientKeepsKeysAndExits(cfg: Config, s: System, a: ClientAction)
    requires KeysOk(s) && ExitsOk(s) && ClientTurn(cfg, s, a).Some?
    ensures KeysOk(ClientTurn(cfg, s, a).value) && ExitsOk(ClientTurn(cfg, s, a).value)
  {
    hide Run, Sourced, ClientActs, KeysOf, ExitsLast;
    ClientEffect(cfg, s.links[|s.links| - 1], a);
    SameForwarded(s, ClientTurn(cfg, s, a).value);
  }

  /** Keys and exits depend on the manager's side of the connections only. */
  lemma SameForwarded(s: System, s': System)
    requires s'.history == s.history && s'.queue == s.queue && |s'.links| == |s.links|
    requires forall c | 0 <= c < |s.links| ::
               s'.links[c].forwarded == s.links[c].forwarded && s'.links[c].server == s.links[c].server
    ensures KeysOk(s) ==> KeysOk(s')
    ensures ExitsOk(s) ==> ExitsOk(s')
  {
    hide Run, Sourced, KeysOf, ExitsLast;
    if KeysOk(s) {
      forall c: ConnectionId
        ensures KeysOf(s'.history, c) + KeysOf(s'.queue, c) == if c < |s'.links| then s'.links[c].forwarded else []
      {
        assert KeysOf(s.history, c) + KeysOf(s.queue, c) == if c < |s.links| then s.links[c].forwarded else [];
      }
    }
  }

  lemma ClientKeepsGood(cfg: Config, s: System, a: ClientAction)
    requires Good(cfg, s) && ClientTurn(cfg, s, a).Some?
    ensures Good(cfg, ClientTurn(cfg, s, a).value)
  {
    hide Run, PipesOk, InLockstep, KeysOk, ExitsOk, ClientActs;
    ClientKeepsInstalled(cfg, s, a);
    ClientKeepsLockstep(cfg, s.links[|s.links| - 1], a);
    ClientKeepsKeysAndExits(cfg, s, a);
  }

  // ---------------------------------------------------------------- the other steps keep it

  lemma ConnectKeepsKeys(s: System)
    requires KeysOk(s)
    ensures KeysOk(s.(links := s.links + [NewLink]))
  {
    hide Run, KeysOf;
    var s' := s.(links := s.links + [NewLink]);
    forall c: ConnectionId
      ensures KeysOf(s'.history, c) + KeysOf(s'.queue, c) == if c < |s'.links| then s'.links[c].forwarded else []
    {
      assert KeysOf(s.history, c) + KeysOf(s.queue, c) == if c < |s.links| then s.links[c].forwarded else [];
    }
  }

  lemma ConnectKeepsExits(s: System)
    requires ExitsOk(s)
    ensures ExitsOk(s.(links := s.links + [NewLink]))
  {
    hide Run, Sourced, ExitsLast;
  }

  lemma {:induction false} ConnectKeepsInstalled(links: seq<Link>)
    ensures InstalledKeys(links + [NewLink]) == InstalledKeys(links)
  {
    assert (links + [NewLink])[..|links|] == links;
    assert Tagged(|links|, []) == [];
  }

  lemma ConnectKeepsGood(cfg: Config, s: System)
    requires Good(cfg, s)
    ensures Good(cfg, s.(links := s.links + [NewLink]))
  {
    hide Run, KeysOk, ExitsOk, InLockstep, Deliveries, InstalledKeys;
    NewLinkInLockstep(cfg);
    ConnectKeepsKeys(s);
    ConnectKeepsExits(s);
    ConnectKeepsInstalled(s.links);
  }

  lemma SourcedAppend(evs: seq<StreamEvent>, ev: StreamEvent)
    requires Sourced(evs)
    requires ev.Accept? || (Id(ev) < Run(evs).next && Exit(Id(ev)) !in evs)
    ensures Sourced(evs + [ev])
  {
    hide Run;
    var all := evs + [ev];
    forall i | 0 <= i < |all| && !all[i].Accept?
      ensures Id(all[i]) < Run(all[..i]).next && Exit(Id(all[i])) !in all[..i]
    {
      assert all[..i] == if i == |evs| then evs else evs[..i];
    }
  }

  /** Accepting moves on to the next connection that the client opened. */
  lemma AcceptKeepsGood(cfg: Config, s: System)
    requires Good(cfg, s) && s.hand == [] && Run(s.history).next < |s.links|
    ensures Good(cfg, s.(history := s.history + [Accept]))
  {
    hide Run, Next, Sourced, Deliveries, KeysOf, InLockstep, InstalledKeys;
    RunAppend(s.history, Accept);
    RegistrationStep(Run(s.history), Accept);
    SourcedAppend(s.history, Accept);
    forall c: ConnectionId
      ensures KeysOf(s.history + [Accept], c) == KeysOf(s.history, c)
    {
      KeysAppend(s.history, Accept, c);
    }
    KeysAppend(s.history, Accept, 0);
  }

  lemma DeliverKeepsKeys(cfg: Config, s: System)
    requires KeysOk(s) && Step(cfg, s, Deliver).Some?
    ensures KeysOk(Step(cfg, s, Deliver).value)
  {
    hide KeysOf, DeliveryOf;
    var s' := Step(cfg, s, Deliver).value;
    forall c: ConnectionId
      ensures KeysOf(s'.history, c) + KeysOf(s'.queue, c) == KeysOf(s.history, c) + KeysOf(s.queue, c)
    {
      KeysConcat(s.history, [s.queue[0]], c);
      KeysConcat([s.queue[0]], s.queue[1..], c);
      assert [s.queue[0]] + s.queue[1..] == s.queue;
    }
  }

  lemma TailOfQueue(queue: seq<StreamEvent>)
    requires queue != [] && ExitsLast(queue)
    ensures ExitsLast(queue[1..]) && queue[0] in queue && !queue[0].Accept?
    ensures forall ev | ev in queue[1..] :: ev in queue && !ev.Accept? && queue[0] != Exit(Id(ev))
  {
    assert queue[0] in queue;
    forall ev | ev in queue[1..]
      ensures ev in queue && queue[0] != Exit(Id(ev))
    {
      var j :| 0 <= j < |queue[1..]| && queue[1..][j] == ev;
      assert queue[j + 1] == ev;
    }
  }

  lemma DeliverKeepsExits(cfg: Config, s: System)
    requires ExitsOk(s) && Step(cfg, s, Deliver).Some?
    ensures ExitsOk(Step(cfg, s, Deliver).value)
  {
    hide Run, Next, Sourced, DeliveryOf, ExitsLast;
    var ev := s.queue[0];
    TailOfQueue(s.queue);
    SourcedAppend(s.history, ev);
    RunAppend(s.history, ev);
    RegistrationStep(Run(s.history), ev);
  }

  lemma DeliverKeepsGood(cfg: Config, s: System)
    requires Good(cfg, s) && Step(cfg, s, Deliver).Some?
    ensures Good(cfg, Step(cfg, s, Deliver).value)
  {
    hide Run, Next, KeysOk, ExitsOk, Deliveries, InLockstep, InstalledKeys, Forwards;
    DeliverKeepsKeys(cfg, s);
    DeliverKeepsExits(cfg, s);
    RunAppend(s.history, s.queue[0]);
    RegistrationStep(Run(s.history), s.queue[0]);
    KeysAppend(s.history, s.queue[0], 0);
    assert s.queue[0] in s.queue;
    NotAccept(s);
  }

  lemma NotAccept(s: System)
    requires ExitsOk(s) && s.queue != []
    ensures !s.queue[0].Accept?
  {
    assert s.queue[0] in s.queue;
  }

  lemma HandOverKeepsPipes(cfg: Config, s: System)
    requires PipesOk(s) && s.hand != [] && |s.server.requests| < REQUEST_CAPACITY
    ensures PipesOk(Step(cfg, s, HandOver).value)
  {
    hide Deliveries, InstalledKeys;
    assert s.hand == [s.hand[0]] && s.hand[1..] == [];
    assert s.server.written + (s.server.requests + [s.hand[0]]) + [] == s.server.written + s.server.requests + s.hand;
  }

  /** A worker's write keeps the total of what it has written and what it has still queued. */
  lemma WriteKeepsAll(d: Deadman)
    requires d.requests != []
    ensures Write(d).written + Write(d).requests == d.written + d.requests
    ensures |Write(d).requests| == |d.requests| - 1
  {
  }

  lemma PipeStepKeepsGood(cfg: Config, s: System, act: Action)
    requires act.HandOver? || act.ServerWrites? || act.ClientWrites?
    requires Good(cfg, s) && Step(cfg, s, act).Some?
    ensures Good(cfg, Step(cfg, s, act).value)
  {
    hide Run, Sourced, Deliveries, KeysOf, InLockstep, InstalledKeys;
    match act
    case HandOver => HandOverKeepsPipes(cfg, s);
    case ServerWrites => WriteKeepsAll(s.server);
    case ClientWrites => WriteKeepsAll(s.client);
  }

  /** Every step of the composed system keeps the invariant. */
  lemma StepKeepsGood(cfg: Config, s: System, act: Action)
    requires Good(cfg, s) && Step(cfg, s, act).Some?
    ensures Good(cfg, Step(cfg, s, act).value)
  {
    hide Good, Run;
    match act
    case Connect => ConnectKeepsGood(cfg, s);
    case AcceptNext => AcceptKeepsGood(cfg, s);
    case Deliver => DeliverKeepsGood(cfg, s);
    case HandOver => PipeStepKeepsGood(cfg, s, act);
    case ServerWrites => PipeStepKeepsGood(cfg, s, act);
    case ClientWrites => PipeStepKeepsGood(cfg, s, act);
    case ServerDoes(c, a) => ServerKeepsGood(cfg, s, c, a);
    case ClientDoes(a) => ClientKeepsGood(cfg, s, a);
  }

  /** The invariant holds in every reachable state. */
  lemma {:induction false} ReachableGood(cfg: Config, acts: seq<Action>)
    requires RunFrom(cfg, Start, acts).Some?
    ensures Good(cfg, RunFrom(cfg, Start, acts).value)
  {
    if acts == [] {
      assert KeysOf([], 0) == [];
    } else {
      var n := |acts| - 1;
      ReachableGood(cfg, acts[..n]);
      StepKeepsGood(cfg, RunFrom(cfg, Start, acts[..n]).value, acts[n]);
    }
  }

  // ---------------------------------------------------------------- what the invariant means

  /** A key handed on by the manager is the one the client derived in the same round. */
  lemma DeliveredIsDerived(cfg: Config, s: System, k: TaggedKey)
    requires Good(cfg, s) && k in Deliveries(s.history)
    ensures k.tag.connection < |s.links|
    ensures var l := s.links[k.tag.connection];
            && k.tag.round < |l.derived| && k.key == l.derived[k.tag.round]
            && k.key == RoundKey(cfg, l.sent[k.tag.round])
  {
    hide Run, Sourced, Deliveries, InstalledKeys, RoundKey;
    NoRollback(s.history);
    var l := s.links[k.tag.connection];
    assert KeysOf(s.history, k.tag.connection) <= l.forwarded;
    SkewAtMostOne(cfg, l);
  }

  /**
   End-to-end agreement, in every reachable state of the composed system.

   Every key the manager has passed on for a connection and a round is byte for byte the key that
   the client derived for them, and so is every fresh key the server's sink has received. Whenever
   both sinks hold keys with the same tag, they hold the same key. Both sinks see their keys in
   strictly increasing order: neither host ever goes back to an older round or connection.
   */
  lemma EndToEndAgreement(cfg: Config, acts: seq<Action>)
    requires RunFrom(cfg, Start, acts).Some?
    ensures var s := RunFrom(cfg, Start, acts).value;
            && s.server.written <= Deliveries(s.history)
            && s.client.written <= InstalledKeys(s.links)
            && Increasing(s.server.written) && Increasing(s.client.written)
            && (forall k | k in Deliveries(s.history) ::
                  && k.tag.connection < |s.links|
                  && k.tag.round < |s.links[k.tag.connection].derived|
                  && k.key == s.links[k.tag.connection].derived[k.tag.round])
            && (forall k, k' | k in s.server.written && k' in s.client.written && k.tag == k'.tag :: k == k')
  {
    hide Run, RunFrom, Good, Deliveries, InstalledKeys, KeysOf;
    var s := RunFrom(cfg, Start, acts).value;
    ReachableGood(cfg, acts);
    GoodPipes(cfg, s);
    NoRollback(s.history);
    InstalledAsLogged(s.links);
    forall k | k in Deliveries(s.history)
      ensures k.tag.connection < |s.links|
      ensures k.tag.round < |s.links[k.tag.connection].derived|
      ensures k.key == s.links[k.tag.connection].derived[k.tag.round]
    {
      DeliveredIsDerived(cfg, s, k);
    }
    forall k, k' | k in s.server.written && k' in s.client.written && k.tag == k'.tag
      ensures k == k'
    {
      assert k in Deliveries(s.history) && k' in InstalledKeys(s.links);
      InstalledIsDerived(cfg, s, k.tag.connection);
    }
  }

  lemma GoodPipes(cfg: Config, s: System)
    requires Good(cfg, s)
    ensures |s.queue| <= 16 && |s.server.requests| <= 8 && |s.client.requests| <= 8
    ensures s.server.written <= Deliveries(s.history)
    ensures s.client.written <= InstalledKeys(s.links)
  {
    hide Run, Sourced, Deliveries, InstalledKeys;
    assert s.server.written + s.server.requests + s.hand == s.server.written + (s.server.requests + s.hand);
  }

  lemma InstalledIsDerived(cfg: Config, s: System, c: ConnectionId)
    requires Good(cfg, s) && c < |s.links|
    ensures s.links[c].installed <= s.links[c].derived
  {
    hide Run, Sourced, Deliveries, InstalledKeys;
  }

  /**
   The simulator is a key server as the composed system assumes it: the key a server task is issued
   is the stored one, and the client is answered with the stored key under the id it asks for.
   */
  lemma SimulatorIsKeyServer(cfg: Config, counter: nat, url: string, sae: string, id: Uuid, k: Etsi014Key)
    requires '?' !in sae && forall u: Uuid :: cfg.store(u) == Simulator.KeyOf(u)
    ensures Simulator.FetchAny(counter, url, sae).0 == Wrappers.Ok(k) ==> k.key == cfg.store(k.id)
    ensures Simulator.FetchSpecific(counter, url, sae, id).0 == Wrappers.Ok(Etsi014Key(id, cfg.store(id)))
  {
    if Simulator.FetchAny(counter, url, sae).0 == Wrappers.Ok(k) {
      Simulator.IssuedKeyIsEchoed(counter, counter, url, sae, url, sae, k);
    }
    Simulator.FetchSpecificEchoes(counter, url, sae, id);
  }

  /**
   On every connection of every reachable state the two hosts have emitted the same keys, up to at
   most one key at the end of either log.
   */
  lemma HostsAtMostOneApart(cfg: Config, acts: seq<Action>, c: ConnectionId)
    requires RunFrom(cfg, Start, acts).Some?
    requires c < |RunFrom(cfg, Start, acts).value.links|
    ensures var l := RunFrom(cfg, Start, acts).value.links[c];
            && (l.forwarded <= l.installed || l.installed <= l.forwarded)
            && -1 <= |l.forwarded| - |l.installed| <= 1
  {
    hide Run, RunFrom, Sourced, Deliveries, InstalledKeys;
    ReachableGood(cfg, acts);
    SkewAtMostOne(cfg, RunFrom(cfg, Start, acts).value.links[c]);
  }

  /** What the manager has handled in a reachable state is a history its tasks can produce. */
  lemma ReachableHistorySourced(cfg: Config, acts: seq<Action>)
    requires RunFrom(cfg, Start, acts).Some?
    ensures Sourced(RunFrom(cfg, Start, acts).value.history)
  {
    hide Sourced, RunFrom;
    ReachableGood(cfg, acts);
  }

  /**
   Exact losses in the composed system: of the keys that reach the manager, exactly those are lost
   whose connection was pruned or overtaken by a newer connection that had already delivered a key.
   */
  lemma ExactLosses(cfg: Config, acts: seq<Action>, i: nat)
    requires RunFrom(cfg, Start, acts).Some?
    requires i < |RunFrom(cfg, Start, acts).value.history|
    requires RunFrom(cfg, Start, acts).value.history[i].Osk?
    ensures var evs := RunFrom(cfg, Start, acts).value.history;
            var c := evs[i].osk.connectionId;
            !Forwarded(evs, i) <==> Pruned(evs[..i], c) || Superseded(evs[..i], c)
  {
    hide Sourced, RunFrom;
    ReachableHistorySourced(cfg, acts);
    LossAccounting(RunFrom(cfg, Start, acts).value.history, i);
  }

  // ---------------------------------------------------------------- draining the queues

  predicate Drains(act: Action) {
    act.Deliver? || act.HandOver? || act.ServerWrites? || act.ClientWrites?
  }

  /** What is still to be moved on: every step below lowers it. */
  function Work(s: System): nat {
    3 * |s.queue| + 2 * |s.hand| + |s.server.requests| + |s.client.requests|
  }

  lemma DrainStep(cfg: Config, s: System, act: Action)
    requires Drains(act) && Step(cfg, s, act).Some?
    ensures var s' := Step(cfg, s, act).value;
            && Work(s') < Work(s)
            && s'.history + s'.queue == s.history + s.queue
            && s'.links == s.links
  {
    hide Run, Forwards, KeysOf;
    if act.Deliver? {
      assert s.history + [s.queue[0]] + s.queue[1..] == s.history + s.queue;
    }
  }

  /** As long as anything is queued, the manager or one of the workers can make a step. */
  lemma DrainProgress(cfg: Config, s: System)
    requires Good(cfg, s) && Work(s) > 0
    ensures exists act :: Drains(act) && Step(cfg, s, act).Some?
  {
    hide Run, Deliveries, InstalledKeys, Sourced, KeysOf;
    if s.server.requests != [] {
      assert Drains(ServerWrites) && Step(cfg, s, ServerWrites).Some?;
    } else if s.client.requests != [] {
      assert Drains(ClientWrites) && Step(cfg, s, ClientWrites).Some?;
    } else if s.hand != [] {
      assert Drains(HandOver) && Step(cfg, s, HandOver).Some?;
    } else {
      assert Drains(Deliver) && Step(cfg, s, Deliver).Some?;
    }
  }

  lemma {:induction false} DrainRun(cfg: Config, s: System, acts: seq<Action>)
    requires Good(cfg, s) && RunFrom(cfg, s, acts).Some?
    requires forall a | a in acts :: Drains(a)
    ensures var s' := RunFrom(cfg, s, acts).value;
            && Good(cfg, s')
            && |acts| + Work(s') <= Work(s)
            && s'.history + s'.queue == s.history + s.queue
            && s'.links == s.links
  {
    hide Good, Step;
    if acts != [] {
      var n := |acts| - 1;
      DrainRun(cfg, s, acts[..n]);
      var mid := RunFrom(cfg, s, acts[..n]).value;
      StepKeepsGood(cfg, mid, acts[n]);
      DrainStep(cfg, mid, acts[n]);
    }
  }

  /**
   Once the producers stop, all queues drain. A run of manager and worker steps alone is never longer
   than `Work(s)`, whatever the scheduling, and a run that cannot be continued has delivered
   everything: the server's sink has received exactly the keys that the manager passes on from the
   handled and the queued events, and the client's sink all keys that the client has installed, each
   in order, nothing lost, reordered or duplicated.
   */
  lemma QueuesDrain(cfg: Config, s: System, acts: seq<Action>)
    requires Good(cfg, s) && RunFrom(cfg, s, acts).Some?
    requires forall a | a in acts :: Drains(a)
    ensures |acts| <= Work(s)
    ensures var s' := RunFrom(cfg, s, acts).value;
            (forall a | Drains(a) :: Step(cfg, s', a).None?) ==>
              && Work(s') == 0
              && s'.history == s.history + s.queue
              && s'.server.written == Deliveries(s.history + s.queue)
              && s'.client.written == InstalledKeys(s.links)
  {
    hide Run, RunFrom, Step, Deliveries, InstalledKeys, Sourced, KeysOf;
    DrainRun(cfg, s, acts);
    var s' := RunFrom(cfg, s, acts).value;
    if forall a | Drains(a) :: Step(cfg, s', a).None? {
      if Work(s') > 0 {
        DrainProgress(cfg, s');
      }
      assert s'.history + [] == s'.history;
      assert s'.client.written + [] == s'.client.written;
    }
  }
}
