/**
 The connection manager of the server as a function of the events it consumes.

 `Next` is the specification that the class in ConnectionManager.dfy is proved against.
 `Ideal` is a much simpler machine that only knows the next id, a floor and the live ids.
 The theorems hold for every finite sequence of events, in any interleaving.
 */
module ManagerModel {
  import opened Wrappers
  import opened Bytes

  type ConnectionId = nat

  const MAX_BUDDING_CONNECTIONS: nat := 2000

  datatype SetOskReason = Fresh | Stale

  datatype OskEvent = OskEvent(connectionId: ConnectionId, key: Key, reason: SetOskReason)

  datatype StreamEvent = Accept | Exit(connectionId: ConnectionId) | Osk(osk: OskEvent)

  /** The id a connection event speaks about. */
  function Id(ev: StreamEvent): ConnectionId
    requires !ev.Accept?
  {
    if ev.Exit? then ev.connectionId else ev.osk.connectionId
  }

  // ---------------------------------------------------------------- least elements

  lemma {:induction false} OldestExists(s: set<ConnectionId>, m: ConnectionId)
    requires m in s
    ensures exists v :: v in s && forall x | x in s :: v <= x
    decreases m
  {
    if x :| x in s && x < m {
      OldestExists(s, x);
    } else {
      assert m in s && forall x | x in s :: m <= x;
    }
  }

  /** The oldest member of a full set of connections: nothing, or exactly one id. */
  ghost function OldestIfFull(s: set<ConnectionId>): set<ConnectionId> {
    set v | v in s && |s| >= MAX_BUDDING_CONNECTIONS && forall x | x in s :: v <= x
  }

  lemma OldestIfFullIs(s: set<ConnectionId>, v: ConnectionId)
    requires |s| >= MAX_BUDDING_CONNECTIONS && v in s && forall x | x in s :: v <= x
    ensures OldestIfFull(s) == {v}
  {
  }

  lemma OldestIfFullIsSingleton(s: set<ConnectionId>)
    requires |s| >= MAX_BUDDING_CONNECTIONS
    ensures exists v :: OldestIfFull(s) == {v} && v in s && forall x | x in s :: v <= x
  {
    var m :| m in s;
    OldestExists(s, m);
    var v :| v in s && forall x | x in s :: v <= x;
    assert OldestIfFull(s) == {v};
  }

  // ---------------------------------------------------------------- the manager

  datatype State = State(next: nat, active: Option<ConnectionId>, budding: set<ConnectionId>)
  {
    function Active(): set<ConnectionId> {
      if active.Some? then {active.value} else {}
    }

    function Registered(): set<ConnectionId> {
      budding + Active()
    }

    /** The active connection is older than every budding one, and all ids have been allocated. */
    predicate Ordered() {
      && (active.Some? ==> active.value < next && forall x | x in budding :: active.value < x)
      && forall x | x in budding :: x < next
    }
  }

  const Init: State := State(0, None, {})

  /** The budding connection that an accept prunes: at most one, the oldest. */
  ghost function Victim(s: State): set<ConnectionId> {
    OldestIfFull(s.budding)
  }

  function Above(ids: set<ConnectionId>, c: ConnectionId): set<ConnectionId> {
    set x | x in ids && x > c
  }

  function Below(ids: set<ConnectionId>, c: ConnectionId): set<ConnectionId> {
    set x | x in ids && x < c
  }

  /** Whether a key of connection `c` is passed on to the output key handler. */
  predicate Delivers(s: State, c: ConnectionId) {
    s.active == Some(c) || (c in s.budding && (s.active.None? || s.active.value < c))
  }

  predicate Forwards(s: State, ev: StreamEvent) {
    ev.Osk? && Delivers(s, ev.osk.connectionId)
  }

  ghost function Next(s: State, ev: StreamEvent): State {
    match ev
    case Accept =>
      State(s.next + 1, s.active, s.budding - Victim(s) + {s.next})
    case Exit(c) =>
      if s.active == Some(c) then s.(active := None) else s.(budding := s.budding - {c})
    case Osk(osk) =>
      var c := osk.connectionId;
      if s.active != Some(c) && Delivers(s, c) then
        State(s.next, Some(c), Above(s.budding, c))
      else s
  }

  ghost function Run(evs: seq<StreamEvent>): State {
    if evs == [] then Init else Next(Run(evs[..|evs| - 1]), evs[|evs| - 1])
  }

  /** The event at position `i` of a run is a key that is passed on. */
  ghost predicate Forwarded(evs: seq<StreamEvent>, i: nat) {
    i < |evs| && Forwards(Run(evs[..i]), evs[i])
  }

  /** The key events passed on in a run, in order. */
  ghost function Outputs(evs: seq<StreamEvent>): seq<OskEvent> {
    if evs == [] then []
    else
      var init, last := evs[..|evs| - 1], evs[|evs| - 1];
      Outputs(init) + if Forwards(Run(init), last) then [last.osk] else []
  }

  lemma RunStep(evs: seq<StreamEvent>, i: nat)
    requires i < |evs|
    ensures Run(evs[..i + 1]) == Next(Run(evs[..i]), evs[i])
  {
    assert evs[..i + 1][..i] == evs[..i];
  }

  /** The connections whose handles are dropped between two states. */
  function Gone(s: State, s': State): set<ConnectionId> {
    s.Registered() - s'.Registered()
  }

  /** Accepting drops exactly the victim's handle. */
  lemma AcceptDropsVictim(s: State)
    requires s.Ordered()
    ensures Next(s, Accept) == State(s.next + 1, s.active, s.budding - Victim(s) + {s.next})
    ensures Gone(s, Next(s, Accept)) == Victim(s)
  {
    hide OldestIfFull;
    VictimsBud(s);
  }

  lemma VictimsBud(s: State)
    ensures Victim(s) <= s.budding
    ensures |s.budding| < MAX_BUDDING_CONNECTIONS ==> Victim(s) == {}
  {
  }

  lemma OtherKeysChangeNothing(s: State, osk: OskEvent)
    requires s.active == Some(osk.connectionId) || !Delivers(s, osk.connectionId)
    ensures Next(s, Osk(osk)) == s && Gone(s, s) == {}
  {
  }

  /** An exit drops the handle of its connection if that is still registered. */
  lemma ExitDropsOne(s: State, c: ConnectionId)
    requires s.Ordered()
    ensures DropsOf(Gone(s, Next(s, Exit(c)))) == if c in s.Registered() then multiset{c} else multiset{}
  {
    assert Gone(s, Next(s, Exit(c))) == if c in s.Registered() then {c} else {};
  }

  /** Promotion drops the previously active handle and those of all older budding connections. */
  lemma PromotionDropsOlder(s: State, osk: OskEvent)
    requires s.Ordered() && osk.connectionId in s.budding
    ensures var c := osk.connectionId;
            && Next(s, Osk(osk)) == State(s.next, Some(c), Above(s.budding, c))
            && DropsOf(Gone(s, Next(s, Osk(osk)))) == DropsOf(s.Active()) + DropsOf(Below(s.budding, c))
  {
    var c := osk.connectionId;
    assert Gone(s, Next(s, Osk(osk))) == s.Active() + Below(s.budding, c);
    DropsOfUnion(s.Active(), Below(s.budding, c));
  }

  lemma DropsOfUnion(a: set<ConnectionId>, b: set<ConnectionId>)
    requires a !! b
    ensures DropsOf(a + b) == DropsOf(a) + DropsOf(b)
  {
  }

  /** One drop of each of these connections' handles. */
  function DropsOf(ids: set<ConnectionId>): multiset<ConnectionId> {
    multiset(ids)
  }

  // ---------------------------------------------------------------- the simple machine

  /** `floor` is the newest connection that ever delivered a key, or -1. */
  datatype Ideal = Ideal(next: nat, floor: int, live: set<ConnectionId>)
  {
    function Young(): set<ConnectionId> {
      set x | x in live && x != floor
    }
  }

  ghost function IdealNext(m: Ideal, ev: StreamEvent): Ideal {
    match ev
    case Accept =>
      Ideal(m.next + 1, m.floor, m.live - OldestIfFull(m.Young()) + {m.next})
    case Exit(c) =>
      m.(live := m.live - {c})
    case Osk(osk) =>
      if osk.connectionId in m.live then
        Ideal(m.next, osk.connectionId, set x | x in m.live && x >= osk.connectionId)
      else m
  }

  ghost function IdealRun(evs: seq<StreamEvent>): Ideal {
    if evs == [] then Ideal(0, -1, {}) else IdealNext(IdealRun(evs[..|evs| - 1]), evs[|evs| - 1])
  }

  lemma RunAppend(evs: seq<StreamEvent>, ev: StreamEvent)
    ensures Run(evs + [ev]) == Next(Run(evs), ev)
    ensures Outputs(evs + [ev]) == Outputs(evs) + if Forwards(Run(evs), ev) then [ev.osk] else []
    ensures Dropped(evs + [ev]) == Dropped(evs) + DropsOf(Gone(Run(evs), Next(Run(evs), ev)))
  {
    hide Next, Forwards, Gone, DropsOf;
    assert (evs + [ev])[..|evs|] == evs;
  }

  /** How a manager state represents a state of the simple machine. */
  ghost predicate Represents(s: State, m: Ideal) {
    && s.next == m.next
    && m.live == s.Registered()
    && s.active == (if m.floor in m.live then Some(m.floor) else None)
    && -1 <= m.floor < m.next
    && (forall x | x in s.budding :: m.floor < x < s.next)
    && |s.budding| <= MAX_BUDDING_CONNECTIONS
  }

  lemma AcceptKeepsBound(s: State)
    requires |s.budding| <= MAX_BUDDING_CONNECTIONS
    ensures |Next(s, Accept).budding| <= MAX_BUDDING_CONNECTIONS
  {
    var rest := s.budding - Victim(s);
    if |s.budding| >= MAX_BUDDING_CONNECTIONS {
      OldestIfFullIsSingleton(s.budding);
      assert |rest| == |s.budding| - 1;
    } else {
      assert rest == s.budding;
    }
  }

  lemma SwapVictim(budding: set<ConnectionId>, active: set<ConnectionId>, victim: set<ConnectionId>, c: ConnectionId)
    requires victim !! active
    ensures (budding + active) - victim + {c} == (budding - victim + {c}) + active
  {
  }

  /** The live ids above the floor are the budding ones. */
  lemma YoungAreBudding(s: State, m: Ideal)
    requires Represents(s, m)
    ensures m.Young() == s.budding && s.budding !! s.Active()
    ensures IdealNext(m, Accept) == Ideal(s.next + 1, m.floor, s.budding + s.Active() - Victim(s) + {s.next})
  {
    hide OldestIfFull;
  }

  /** Taking budding connections away and adding a new one keeps the representation. */
  lemma SwapRepresents(s: State, m: Ideal, budding: set<ConnectionId>, live: set<ConnectionId>)
    requires Represents(s, m)
    requires forall x | x in budding :: x in s.budding || x == s.next
    requires live == budding + s.Active() && |budding| <= MAX_BUDDING_CONNECTIONS
    ensures Represents(State(s.next + 1, s.active, budding), Ideal(s.next + 1, m.floor, live))
  {
    assert m.floor !in budding;
    assert m.floor in m.live <==> m.floor in s.Active();
  }

  lemma RepresentsAccept(s: State, m: Ideal)
    requires Represents(s, m)
    ensures Represents(Next(s, Accept), IdealNext(m, Accept))
  {
    hide OldestIfFull, IdealNext, Ideal.Young, Represents, Victim, State.Active;
    RepresentsWithinBound(s, m);
    AcceptKeepsBound(s);
    VictimsBud(s);
    YoungAreBudding(s, m);
    SwapVictim(s.budding, s.Active(), Victim(s), s.next);
    SwapRepresents(s, m, Next(s, Accept).budding, IdealNext(m, Accept).live);
  }

  lemma RepresentsWithinBound(s: State, m: Ideal)
    requires Represents(s, m)
    ensures |s.budding| <= MAX_BUDDING_CONNECTIONS
  {
  }

  lemma RepresentsExit(s: State, m: Ideal, c: ConnectionId)
    requires Represents(s, m)
    ensures Represents(Next(s, Exit(c)), IdealNext(m, Exit(c)))
  {
    assert IdealNext(m, Exit(c)).live == Next(s, Exit(c)).Registered();
  }

  lemma RepresentsOsk(s: State, m: Ideal, osk: OskEvent)
    requires Represents(s, m)
    ensures Represents(Next(s, Osk(osk)), IdealNext(m, Osk(osk)))
    ensures Delivers(s, osk.connectionId) <==> osk.connectionId in m.live
  {
    var c := osk.connectionId;
    if s.active == Some(c) {
      assert IdealNext(m, Osk(osk)).live == m.live;
    } else if c in s.budding {
      RepresentsPromotion(s, m, osk);
    }
  }

  lemma RepresentsPromotion(s: State, m: Ideal, osk: OskEvent)
    requires Represents(s, m) && osk.connectionId in s.budding
    ensures Represents(Next(s, Osk(osk)), IdealNext(m, Osk(osk)))
  {
    hide Above;
    AboveFacts(s.budding, osk.connectionId);
    LiveFromOn(s.budding, s.Active(), osk.connectionId);
  }

  lemma AboveFacts(ids: set<ConnectionId>, c: ConnectionId)
    ensures |Above(ids, c)| <= |ids|
    ensures forall x :: x in Above(ids, c) <==> x in ids && x > c
  {
    SubsetSize(Above(ids, c), ids);
  }

  lemma LiveFromOn(budding: set<ConnectionId>, active: set<ConnectionId>, c: ConnectionId)
    requires c in budding && forall a | a in active :: a < c
    ensures (set x | x in budding + active && x >= c) == Above(budding, c) + {c}
  {
  }

  lemma RepresentsStep(s: State, m: Ideal, ev: StreamEvent)
    requires Represents(s, m)
    ensures Represents(Next(s, ev), IdealNext(m, ev))
    ensures Forwards(s, ev) <==> ev.Osk? && ev.osk.connectionId in m.live
  {
    match ev
    case Accept => RepresentsAccept(s, m);
    case Exit(c) => RepresentsExit(s, m, c);
    case Osk(osk) => RepresentsOsk(s, m, osk);
  }

  lemma SubsetSize(a: set<ConnectionId>, b: set<ConnectionId>)
    requires a <= b
    ensures |a| <= |b|
  {
    assert b == a + (b - a);
  }

  lemma {:induction false} RunRepresents(evs: seq<StreamEvent>)
    ensures Represents(Run(evs), IdealRun(evs))
  {
    if evs != [] {
      var n := |evs| - 1;
      RunRepresents(evs[..n]);
      RepresentsStep(Run(evs[..n]), IdealRun(evs[..n]), evs[n]);
    }
  }

  lemma ForwardedIffLive(evs: seq<StreamEvent>, i: nat)
    requires i < |evs|
    ensures Forwarded(evs, i) <==> evs[i].Osk? && evs[i].osk.connectionId in IdealRun(evs[..i]).live
  {
    RunRepresents(evs[..i]);
    RepresentsStep(Run(evs[..i]), IdealRun(evs[..i]), evs[i]);
  }

  /** The manager simulates the simple machine, event for event, on every run. */
  lemma Refinement(evs: seq<StreamEvent>)
    ensures Represents(Run(evs), IdealRun(evs))
    ensures forall i | 0 <= i < |evs| ::
              Forwarded(evs, i) <==> evs[i].Osk? && evs[i].osk.connectionId in IdealRun(evs[..i]).live
  {
    RunRepresents(evs);
    forall i | 0 <= i < |evs|
      ensures Forwarded(evs, i) <==> evs[i].Osk? && evs[i].osk.connectionId in IdealRun(evs[..i]).live
    {
      ForwardedIffLive(evs, i);
    }
  }

  // ---------------------------------------------------------------- no rollback

  /** The keys that connection `c` has sent to the manager, in order. */
  ghost function KeysOf(evs: seq<StreamEvent>, c: ConnectionId): seq<Key> {
    if evs == [] then []
    else
      var last := evs[|evs| - 1];
      KeysOf(evs[..|evs| - 1], c) + KeyOf(last, c)
  }

  /** The key that an event carries from connection `c`, if any. */
  function KeyOf(ev: StreamEvent, c: ConnectionId): seq<Key> {
    if ev.Osk? && ev.osk.connectionId == c then [ev.osk.key] else []
  }

  /** Connection and round of a key; the round counts the keys its connection sent before it. */
  datatype Tag = Tag(connection: ConnectionId, round: nat)
  {
    predicate Before(other: Tag) {
      connection < other.connection || (connection == other.connection && round < other.round)
    }
  }

  datatype TaggedKey = TaggedKey(tag: Tag, key: Key)

  /** The keys passed on in a run, in order, each with its tag. */
  ghost function Deliveries(evs: seq<StreamEvent>): seq<TaggedKey> {
    if evs == [] then []
    else
      var init, last := evs[..|evs| - 1], evs[|evs| - 1];
      Deliveries(init) + DeliveryOf(init, last)
  }

  /** What one more event adds to the keys passed on. */
  ghost function DeliveryOf(evs: seq<StreamEvent>, ev: StreamEvent): seq<TaggedKey> {
    if Forwards(Run(evs), ev) then
      [TaggedKey(Tag(ev.osk.connectionId, |KeysOf(evs, ev.osk.connectionId)|), ev.osk.key)]
    else []
  }

  /** Strictly increasing in the lexicographic order of tags. */
  ghost predicate Increasing(ks: seq<TaggedKey>) {
    forall i, j | 0 <= i < j < |ks| :: ks[i].tag.Before(ks[j].tag)
  }

  lemma KeysAppend(evs: seq<StreamEvent>, ev: StreamEvent, c: ConnectionId)
    ensures KeysOf(evs + [ev], c) == KeysOf(evs, c) + KeyOf(ev, c)
    ensures Deliveries(evs + [ev]) == Deliveries(evs) + DeliveryOf(evs, ev)
  {
    hide DeliveryOf;
    assert (evs + [ev])[..|evs|] == evs;
  }

  lemma RunOrdered(evs: seq<StreamEvent>)
    ensures Run(evs).Ordered()
  {
    RunRepresents(evs);
  }

  lemma FloorStep(evs: seq<StreamEvent>, ev: StreamEvent)
    ensures IdealRun(evs).floor <= IdealRun(evs + [ev]).floor
    ensures Forwards(Run(evs), ev) ==> IdealRun(evs + [ev]).floor == ev.osk.connectionId
  {
    hide Run, Next;
    assert (evs + [ev])[..|evs|] == evs;
    assert IdealRun(evs + [ev]) == IdealNext(IdealRun(evs), ev);
    RunRepresents(evs);
    RepresentsStep(Run(evs), IdealRun(evs), ev);
  }

  /** Every delivered key is the key its connection sent in that round, below the floor. */
  ghost predicate DeliveredAsSent(evs: seq<StreamEvent>, k: TaggedKey) {
    var ks := KeysOf(evs, k.tag.connection);
    && k.tag.round < |ks| && k.key == ks[k.tag.round]
    && k.tag.connection <= IdealRun(evs).floor
  }

  lemma DeliveredAsSentStep(evs: seq<StreamEvent>, ev: StreamEvent, k: TaggedKey)
    requires DeliveredAsSent(evs, k) || k in DeliveryOf(evs, ev)
    ensures DeliveredAsSent(evs + [ev], k)
  {
    hide Run, IdealRun;
    KeysAppend(evs, ev, k.tag.connection);
    FloorStep(evs, ev);
  }

  /**
   No rollback: over a whole run the delivered keys are strictly increasing, first by connection,
   then by round. Each is the key that its connection sent in that round.
   */
  lemma {:induction false} NoRollback(evs: seq<StreamEvent>)
    ensures Increasing(Deliveries(evs))
    ensures forall k | k in Deliveries(evs) :: DeliveredAsSent(evs, k)
  {
    hide DeliveredAsSent;
    if evs != [] {
      var init, last := evs[..|evs| - 1], evs[|evs| - 1];
      assert evs == init + [last];
      NoRollback(init);
      KeysAppend(init, last, 0);
      forall k | k in Deliveries(evs)
        ensures DeliveredAsSent(evs, k)
      {
        DeliveredAsSentStep(init, last, k);
      }
      forall k, k' | k in Deliveries(init) && k' in DeliveryOf(init, last)
        ensures k.tag.Before(k'.tag)
      {
        NewestIsLast(init, last, k, k');
      }
    }
  }

  /** The tagged keys are the ones that the output key handler gets. */
  lemma {:induction false} OutputsAreDeliveries(evs: seq<StreamEvent>)
    ensures |Outputs(evs)| == |Deliveries(evs)|
    ensures forall i | 0 <= i < |Outputs(evs)| ::
              && Outputs(evs)[i].key == Deliveries(evs)[i].key
              && Outputs(evs)[i].connectionId == Deliveries(evs)[i].tag.connection
  {
    hide Run, Forwards, KeysOf;
    if evs != [] {
      OutputsAreDeliveries(evs[..|evs| - 1]);
    }
  }

  lemma NewestIsLast(evs: seq<StreamEvent>, ev: StreamEvent, k: TaggedKey, k': TaggedKey)
    requires DeliveredAsSent(evs, k) && k' in DeliveryOf(evs, ev)
    ensures k.tag.Before(k'.tag)
  {
    hide Run, IdealRun, Forwards;
    RunRepresents(evs);
    LiveAboveFloor(evs, ev);
  }

  lemma LiveAboveFloor(evs: seq<StreamEvent>, ev: StreamEvent)
    requires Forwards(Run(evs), ev)
    ensures IdealRun(evs).floor <= ev.osk.connectionId
  {
    RunRepresents(evs);
  }

  // ---------------------------------------------------------------- handles

  /** How often the abort handle of each connection has been dropped in a run. */
  ghost function Dropped(evs: seq<StreamEvent>): multiset<ConnectionId> {
    if evs == [] then multiset{}
    else
      var init := evs[..|evs| - 1];
      Dropped(init) + DropsOf(Gone(Run(init), Run(evs)))
  }

  /** Every id below `next` is registered, or its abort handle has been dropped exactly once. */
  ghost predicate HandlesConserved(s: State, dropped: multiset<ConnectionId>) {
    && s.budding !! s.Active()
    && forall c: ConnectionId :: dropped[c] == if c < s.next && c !in s.Registered() then 1 else 0
  }

  lemma {:induction false} HandleConservation(evs: seq<StreamEvent>)
    ensures HandlesConserved(Run(evs), Dropped(evs))
    ensures |Run(evs).budding| <= 2000
    ensures forall c | c in Run(evs).Registered() :: c < Run(evs).next
  {
    hide Next;
    RunRepresents(evs);
    if evs != [] {
      var n := |evs| - 1;
      HandleConservation(evs[..n]);
      RunRepresents(evs[..n]);
      RegistrationStep(Run(evs[..n]), evs[n]);
      HandlesStep(Run(evs[..n]), Run(evs), evs[n].Accept?, Dropped(evs[..n]));
    }
  }

  lemma HandlesStep(s: State, s': State, accept: bool, dropped: multiset<ConnectionId>)
    requires HandlesConserved(s, dropped)
    requires forall c | c in s.Registered() :: c < s.next
    requires s'.budding !! s'.Active()
    requires s'.next == s.next + if accept then 1 else 0
    requires forall c | c in s'.Registered() :: c in s.Registered() || (accept && c == s.next)
    requires accept ==> s.next in s'.Registered()
    ensures HandlesConserved(s', dropped + DropsOf(Gone(s, s')))
  {
    var gone := Gone(s, s');
    var drops := DropsOf(gone);
    forall c: ConnectionId
      ensures (dropped + drops)[c] == if c < s'.next && c !in s'.Registered() then 1 else 0
    {
      assert drops[c] == if c in gone then 1 else 0;
    }
  }

  /** One event registers at most the connection it allocates. */
  lemma RegistrationStep(s: State, ev: StreamEvent)
    ensures Next(s, ev).next == s.next + if ev.Accept? then 1 else 0
    ensures forall c | c in Next(s, ev).Registered() :: c in s.Registered() || (ev.Accept? && c == s.next)
    ensures ev.Accept? ==> s.next in Next(s, ev).Registered()
  {
  }

  /** A retired connection never becomes registered again. */
  lemma {:induction false} RetiredForever(evs: seq<StreamEvent>, i: nat, j: nat, c: ConnectionId)
    requires i <= j <= |evs|
    requires c < Run(evs[..i]).next && c !in Run(evs[..i]).Registered()
    ensures c < Run(evs[..j]).next && c !in Run(evs[..j]).Registered()
    decreases j
  {
    hide *;
    if i < j {
      RetiredForever(evs, i, j - 1, c);
      RunStep(evs, j - 1);
      RegistrationStep(Run(evs[..j - 1]), evs[j - 1]);
    }
  }

  // ---------------------------------------------------------------- pruning

  /** Connection `c` is pruned by the accept at position `j`. */
  ghost predicate PrunedAt(evs: seq<StreamEvent>, j: nat, c: ConnectionId) {
    j < |evs| && evs[j].Accept? && c in Victim(Run(evs[..j]))
  }

  lemma {:induction false} SpanHoldsDistinct(s: set<ConnectionId>, lo: nat, hi: nat)
    requires forall x | x in s :: lo <= x < hi
    ensures |s| <= if lo <= hi then hi - lo else 0
    decreases hi
  {
    if s != {} {
      var x :| x in s;
      SpanHoldsDistinct(s - {hi - 1}, lo, hi - 1);
      if hi - 1 in s {
        assert |s| == |s - {hi - 1}| + 1;
      } else {
        assert s - {hi - 1} == s;
      }
    }
  }

  /**
   A connection is pruned only when at least 2000 newer ones have been
   accepted, counting the one that is just being accepted. The victim is the oldest budding
   connection, it is retired by that very step, and it is neither active nor the new one.
   Without a full set of budding connections nobody is pruned.
   */
  lemma PruningBound(evs: seq<StreamEvent>, j: nat, c: ConnectionId)
    requires j < |evs| && evs[j].Accept?
    ensures PrunedAt(evs, j, c) ==>
              var s := Run(evs[..j]);
              && s.next >= c + 2000
              && c in s.budding && (forall x | x in s.budding :: c <= x)
              && s.active != Some(c) && c != s.next
              && c !in Run(evs[..j + 1]).Registered()
    ensures (exists v :: PrunedAt(evs, j, v)) <==> |Run(evs[..j]).budding| == 2000
  {
    var s := Run(evs[..j]);
    RunRepresents(evs[..j]);
    RunStep(evs, j);
    if |s.budding| >= MAX_BUDDING_CONNECTIONS {
      OldestIfFullIsSingleton(s.budding);
      var v :| OldestIfFull(s.budding) == {v};
      assert PrunedAt(evs, j, v);
    }
    if PrunedAt(evs, j, c) {
      SpanHoldsDistinct(s.budding, c, s.next);
    }
  }

  // ---------------------------------------------------------------- loss accounting

  /**
   Histories that the connection tasks can produce: events come from accepted connections only,
   and a connection sends nothing after its exit.
   */
  ghost predicate Sourced(evs: seq<StreamEvent>) {
    forall i | 0 <= i < |evs| && !evs[i].Accept? ::
      && Id(evs[i]) < Run(evs[..i]).next
      && Exit(Id(evs[i])) !in evs[..i]
  }

  ghost predicate Pruned(evs: seq<StreamEvent>, c: ConnectionId) {
    exists j: nat :: PrunedAt(evs, j, c)
  }

  /** A connection newer than `c` has delivered a key. */
  ghost predicate Superseded(evs: seq<StreamEvent>, c: ConnectionId) {
    exists j: nat :: Forwarded(evs, j) && evs[j].osk.connectionId > c
  }

  lemma PrunedStep(evs: seq<StreamEvent>, ev: StreamEvent, c: ConnectionId)
    ensures Pruned(evs + [ev], c) <==> Pruned(evs, c) || (ev.Accept? && c in Victim(Run(evs)))
  {
    hide Next, Run;
    var all := evs + [ev];
    assert all[..|evs|] == evs;
    forall j | 0 <= j < |evs|
      ensures PrunedAt(all, j, c) == PrunedAt(evs, j, c)
    {
      assert all[..j] == evs[..j];
    }
    if Pruned(evs, c) {
      var j: nat :| PrunedAt(evs, j, c);
      assert PrunedAt(all, j, c);
    }
    if ev.Accept? && c in Victim(Run(evs)) {
      assert PrunedAt(all, |evs|, c);
    }
  }

  lemma SupersededStep(evs: seq<StreamEvent>, ev: StreamEvent, c: ConnectionId)
    ensures Superseded(evs + [ev], c) <==>
            Superseded(evs, c) || (Forwards(Run(evs), ev) && ev.osk.connectionId > c)
  {
    hide Next, Run;
    var all := evs + [ev];
    assert all[..|evs|] == evs;
    forall j | 0 <= j < |evs|
      ensures Forwarded(all, j) == Forwarded(evs, j)
    {
      assert all[..j] == evs[..j];
    }
    if Superseded(evs, c) {
      var j: nat :| Forwarded(evs, j) && evs[j].osk.connectionId > c;
      assert Forwarded(all, j) && all[j].osk.connectionId > c;
    }
    if Forwards(Run(evs), ev) && ev.osk.connectionId > c {
      assert Forwarded(all, |evs|);
    }
  }

  /** An id that has not been allocated yet has no history. */
  lemma {:induction false} NoHistoryYet(evs: seq<StreamEvent>, c: ConnectionId)
    requires Sourced(evs) && c >= Run(evs).next
    ensures Exit(c) !in evs && !Pruned(evs, c) && !Superseded(evs, c)
  {
    if evs == [] {
    } else {
      var n := |evs| - 1;
      var init := evs[..n];
      assert evs == init + [evs[n]];
      SourcedPrefix(evs, n);
      NoHistoryYet(init, c);
      RunRepresents(init);
      PrunedStep(init, evs[n], c);
      SupersededStep(init, evs[n], c);
      NewcomerIsSafe(init, evs[n]);
    }
  }

  lemma SourcedPrefix(evs: seq<StreamEvent>, n: nat)
    requires Sourced(evs) && n <= |evs|
    ensures Sourced(evs[..n])
  {
    forall i | 0 <= i < n && !evs[i].Accept?
      ensures Id(evs[i]) < Run(evs[..n][..i]).next && Exit(Id(evs[i])) !in evs[..n][..i]
    {
      assert evs[..n][..i] == evs[..i];
    }
  }

  /** The live connections are exactly the accepted ones that neither exited nor lost their place. */
  lemma {:induction false} LiveExactly(evs: seq<StreamEvent>, c: ConnectionId)
    requires Sourced(evs) && c < Run(evs).next
    ensures c in Run(evs).Registered() <==>
            Exit(c) !in evs && !Pruned(evs, c) && !Superseded(evs, c)
  {
    hide Next, Superseded, Pruned, Victim, Forwards;
    var n := |evs| - 1;
    var init, ev := evs[..n], evs[n];
    assert evs == init + [ev];
    SourcedPrefix(evs, n);
    PrunedStep(init, ev, c);
    SupersededStep(init, ev, c);
    RunRepresents(init);
    RegistrationStep(Run(init), ev);
    if c < Run(init).next {
      LiveExactly(init, c);
      LiveStep(Run(init), ev, c);
    } else {
      NoHistoryYet(init, c);
      NewcomerIsSafe(init, ev);
    }
  }

  lemma NewcomerIsSafe(evs: seq<StreamEvent>, ev: StreamEvent)
    ensures Run(evs).next !in Victim(Run(evs))
    ensures Forwards(Run(evs), ev) ==> ev.osk.connectionId < Run(evs).next
  {
    RunRepresents(evs);
  }

  lemma LiveStep(s: State, ev: StreamEvent, c: ConnectionId)
    requires c < s.next
    requires s.active.Some? ==> forall x | x in s.budding :: s.active.value < x
    ensures c in Next(s, ev).Registered() <==>
            && c in s.Registered()
            && ev != Exit(c)
            && !(ev.Accept? && c in Victim(s))
            && !(Forwards(s, ev) && ev.osk.connectionId > c)
  {
    match ev
    case Accept => LiveAccept(s, c);
    case Exit(d) => LiveExit(s, d, c);
    case Osk(osk) => LiveOsk(s, osk, c);
  }

  lemma LiveAccept(s: State, c: ConnectionId)
    requires c < s.next
    requires s.active.Some? ==> forall x | x in s.budding :: s.active.value < x
    ensures c in Next(s, Accept).Registered() <==> c in s.Registered() && c !in Victim(s)
  {
  }

  lemma LiveExit(s: State, d: ConnectionId, c: ConnectionId)
    requires s.active.Some? ==> forall x | x in s.budding :: s.active.value < x
    ensures c in Next(s, Exit(d)).Registered() <==> c in s.Registered() && c != d
  {
  }

  lemma LiveOsk(s: State, osk: OskEvent, c: ConnectionId)
    requires s.active.Some? ==> forall x | x in s.budding :: s.active.value < x
    ensures c in Next(s, Osk(osk)).Registered() <==>
            c in s.Registered() && !(Delivers(s, osk.connectionId) && osk.connectionId > c)
  {
  }

  /**
   Exact loss accounting: a key that reaches the manager is discarded if and only if its
   connection was pruned, or a newer connection had already delivered a key.
   */
  lemma LossAccounting(evs: seq<StreamEvent>, i: nat)
    requires Sourced(evs) && i < |evs| && evs[i].Osk?
    ensures var c := evs[i].osk.connectionId;
            !Forwarded(evs, i) <==> Pruned(evs[..i], c) || Superseded(evs[..i], c)
  {
    SourcedPrefix(evs, i);
    LiveExactly(evs[..i], evs[i].osk.connectionId);
    ForwardedIffLive(evs, i);
    RunRepresents(evs[..i]);
  }

  /** The forwarded keys of one connection are a prefix of the keys it sent: no gaps. */
  lemma ForwardedPrefix(evs: seq<StreamEvent>, i: nat, j: nat)
    requires Sourced(evs) && i < j && Forwarded(evs, j)
    requires evs[i].Osk? && evs[i].osk.connectionId == evs[j].osk.connectionId
    ensures Forwarded(evs, i)
  {
    var c := evs[j].osk.connectionId;
    ForwardedIffLive(evs, i);
    ForwardedIffLive(evs, j);
    RunRepresents(evs[..i]);
    RunRepresents(evs[..j]);
    if c !in Run(evs[..i]).Registered() {
      RetiredForever(evs, i, j, c);
    }
  }
}
