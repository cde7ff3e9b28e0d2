/**
 The deadman worker: a timed loop between the protocol and the key sink that overwrites the output
 key once no fresh one has come for `eraseAfter`.

 A timed run is fixed by when requests reach the queue, when the last sender is dropped, and per
 iteration how late the runtime wakes the worker, how long the sink takes and whether it fails.
 All of these are arbitrary. Times are in nanoseconds.
 */
module Deadman {
  import opened Wrappers
  import opened Bytes
  import opened ManagerModel

  type Time = nat

  const SECOND: Time := 1_000_000_000

  /** The lifetime that a rekey interval in seconds leads to. */
  function EraseAfter(rekeyInterval: nat): Time {
    (rekeyInterval + 30) * SECOND
  }

  /** A request and the time at which it is in the worker's queue. */
  datatype Request = Request(at: Time, key: Key, reason: SetOskReason)

  /** The requests of a run in order of arrival, and when the queue is closed, if ever. */
  datatype Environment = Environment(requests: seq<Request>, closedAt: Option<Time>)
  {
    ghost predicate Ordered() {
      && (forall i, j | 0 <= i < j < |requests| :: requests[i].at <= requests[j].at)
      && (closedAt.Some? ==> forall i | 0 <= i < |requests| :: requests[i].at <= closedAt.value)
    }

    /** By `time`, the queue has something to say to a worker that took `taken` requests already. */
    predicate Ready(taken: nat, time: Time) {
      if taken < |requests| then requests[taken].at <= time
      else closedAt.Some? && closedAt.value <= time
    }
  }

  /** One turn of the loop: wake-up delay, duration of the sink write, random key, sink failure. */
  datatype Turn = Turn(late: Time, busy: Time, randomKey: Key, fails: bool)

  datatype Cause = AtStart | Requested | TimedOut | AtShutdown

  /** One key handed to the sink; `taken` requests had been applied before it. */
  datatype SinkWrite = SinkWrite(
    cause: Cause, key: Key, reason: SetOskReason, begin: Time, end: Time, taken: nat)
  {
    function TakenAfter(): nat {
      if cause.Requested? then taken + 1 else taken
    }
  }

  datatype Status = Running | ShutDown | SinkFailed

  /** Between two turns, `now` is the time at which the latest sink write was complete. */
  datatype Worker = Worker(now: Time, taken: nat, log: seq<SinkWrite>, status: Status)

  // ---------------------------------------------------------------- one turn

  /** When the worker runs again: at the next event or at the deadline, whichever is first. */
  function WakeUp(eraseAfter: Time, env: Environment, w: Worker, turn: Turn): Time {
    var deadline := w.now + eraseAfter;
    var event :=
      if w.taken < |env.requests| then env.requests[w.taken].at
      else if env.closedAt.Some? then env.closedAt.value
      else deadline;
    var due := if event < deadline then event else deadline;
    (if due < w.now then w.now else due) + turn.late
  }

  /** The sink write that this turn comes to. A waiting request is looked at before the timer. */
  function Decide(env: Environment, w: Worker, turn: Turn, at: Time): (Cause, Key, SetOskReason) {
    if !env.Ready(w.taken, at) then (TimedOut, turn.randomKey, Stale)
    else if w.taken < |env.requests| then
      (Requested, env.requests[w.taken].key, env.requests[w.taken].reason)
    else (AtShutdown, turn.randomKey, Stale)
  }

  /** The effect of handing a key to the sink. */
  function WriteOut(w: Worker, cause: Cause, key: Key, reason: SetOskReason, at: Time, turn: Turn): Worker {
    if turn.fails then w.(now := at, status := SinkFailed)
    else Worker(at + turn.busy,
                if cause.Requested? then w.taken + 1 else w.taken,
                w.log + [SinkWrite(cause, key, reason, at, at + turn.busy, w.taken)],
                if cause.AtShutdown? then ShutDown else Running)
  }

  function Iterate(eraseAfter: Time, env: Environment, w: Worker, turn: Turn): Worker {
    if w.status != Running then w
    else
      var at := WakeUp(eraseAfter, env, w, turn);
      var (cause, key, reason) := Decide(env, w, turn, at);
      WriteOut(w, cause, key, reason, at, turn)
  }

  /** The worker after its first erasure and the given turns of the loop. */
  function Loop(eraseAfter: Time, env: Environment, start: Time, first: Turn, turns: seq<Turn>): Worker {
    if turns == [] then WriteOut(Worker(start, 0, [], Running), AtStart, first.randomKey, Stale, start, first)
    else
      var n := |turns| - 1;
      Iterate(eraseAfter, env, Loop(eraseAfter, env, start, first, turns[..n]), turns[n])
  }

  lemma LoopStep(eraseAfter: Time, env: Environment, start: Time, first: Turn, turns: seq<Turn>, n: nat)
    requires n < |turns|
    ensures Loop(eraseAfter, env, start, first, turns[..n + 1]) ==
            Iterate(eraseAfter, env, Loop(eraseAfter, env, start, first, turns[..n]), turns[n])
  {
    hide Iterate, WriteOut;
    assert turns[..n + 1][..n] == turns[..n];
  }

  // ---------------------------------------------------------------- what every run keeps

  /**
   The invariant of a run whose wake-ups are at most `jitter` late: writes follow one another within
   the lifetime, requests are applied in order of arrival, not before they arrive and as soon as the
   worker is free, and a timeout means that no request had come within the lifetime.
   */
  ghost predicate Sound(eraseAfter: Time, jitter: Time, env: Environment, w: Worker) {
    && w.taken <= |env.requests|
    && (w.status == Running ==> w.log != [])
    && (w.log != [] ==> var last := w.log[|w.log| - 1];
                        && w.log[0].cause == AtStart && w.log[0].taken == 0
                        && (w.status != SinkFailed ==> w.now == last.end)
                        && w.taken == last.TakenAfter()
                        && (last.cause == AtShutdown <==> w.status == ShutDown))
    && (w.status == ShutDown ==> w.log != [])
    && (forall i | 0 <= i < |w.log| :: WriteOk(env, w.log[i]))
    && (forall i | 0 < i < |w.log| :: FollowsOk(eraseAfter, jitter, env, w.log[i - 1], w.log[i]))
  }

  /** Erasures write a stale key; a requested write carries the next request, which has arrived. */
  ghost predicate WriteOk(env: Environment, wr: SinkWrite) {
    && wr.begin <= wr.end
    && wr.TakenAfter() <= |env.requests|
    && (!wr.cause.Requested? ==> wr.reason == Stale)
    && (wr.cause.Requested? ==>
          var req := env.requests[wr.taken];
          wr.key == req.key && wr.reason == req.reason && req.at <= wr.begin)
  }

  ghost predicate FollowsOk(
    eraseAfter: Time, jitter: Time, env: Environment, previous: SinkWrite, wr: SinkWrite) {
    && previous.end <= wr.begin
    && wr.begin <= previous.end + eraseAfter + jitter
    && wr.taken == previous.TakenAfter()
    && wr.cause != AtStart && previous.cause != AtShutdown
    && (wr.cause == TimedOut ==>
          wr.begin >= previous.end + eraseAfter && !env.Ready(wr.taken, previous.end + eraseAfter))
    && (wr.cause == AtShutdown ==>
          && wr.taken == |env.requests| && env.closedAt.Some?
          && env.closedAt.value <= wr.begin <= Later(previous.end, env.closedAt.value) + jitter)
    && (wr.cause == Requested ==>
          && wr.taken < |env.requests|
          && wr.begin <= Later(previous.end, env.requests[wr.taken].at) + jitter)
  }

  function Later(a: Time, b: Time): Time {
    if a < b then b else a
  }

  lemma TurnFollows(eraseAfter: Time, jitter: Time, env: Environment, w: Worker, turn: Turn)
    requires Sound(eraseAfter, jitter, env, w) && turn.late <= jitter
    requires w.status == Running && !turn.fails
    ensures var w' := Iterate(eraseAfter, env, w, turn);
            && |w'.log| == |w.log| + 1 && w'.log[..|w.log|] == w.log
            && WriteOk(env, w'.log[|w.log|])
            && FollowsOk(eraseAfter, jitter, env, w.log[|w.log| - 1], w'.log[|w.log|])
  {
  }

  lemma IterateKeepsSound(eraseAfter: Time, jitter: Time, env: Environment, w: Worker, turn: Turn)
    requires Sound(eraseAfter, jitter, env, w) && turn.late <= jitter
    ensures Sound(eraseAfter, jitter, env, Iterate(eraseAfter, env, w, turn))
  {
    if w.status == Running && !turn.fails {
      hide WriteOk, FollowsOk;
      TurnFollows(eraseAfter, jitter, env, w, turn);
    }
  }

  lemma {:induction false} RunSound(
    eraseAfter: Time, jitter: Time, env: Environment, start: Time, first: Turn, turns: seq<Turn>)
    requires forall t | t in turns :: t.late <= jitter
    ensures Sound(eraseAfter, jitter, env, Loop(eraseAfter, env, start, first, turns))
  {
    if turns != [] {
      var n := |turns| - 1;
      RunSound(eraseAfter, jitter, env, start, first, turns[..n]);
      IterateKeepsSound(eraseAfter, jitter, env, Loop(eraseAfter, env, start, first, turns[..n]), turns[n]);
    }
  }

  // ---------------------------------------------------------------- lifetime and shutdown

  /** The requests that a log has applied, in the order of their writes. */
  function Applied(log: seq<SinkWrite>): seq<(Key, SetOskReason)> {
    if log == [] then []
    else
      var last := log[|log| - 1];
      Applied(log[..|log| - 1]) + if last.cause.Requested? then [(last.key, last.reason)] else []
  }

  function Asked(requests: seq<Request>): seq<(Key, SetOskReason)> {
    seq(|requests|, i requires 0 <= i < |requests| => (requests[i].key, requests[i].reason))
  }

  /** Requests go to the sink first in, first out: none lost, reordered or applied twice. */
  lemma {:induction false} AppliedInOrder(
    eraseAfter: Time, jitter: Time, env: Environment, log: seq<SinkWrite>)
    requires log != [] ==> log[0].cause == AtStart && log[0].taken == 0
    requires forall i | 0 <= i < |log| :: WriteOk(env, log[i])
    requires forall i | 0 < i < |log| :: FollowsOk(eraseAfter, jitter, env, log[i - 1], log[i])
    ensures log != [] ==>
              var t := log[|log| - 1].TakenAfter();
              t <= |env.requests| && Applied(log) == Asked(env.requests[..t])
  {
    if |log| > 1 {
      var n := |log| - 1;
      AppliedInOrder(eraseAfter, jitter, env, log[..n]);
      var t, t' := log[n].taken, log[n].TakenAfter();
      assert env.requests[..t'][..t] == env.requests[..t];
      assert Asked(env.requests[..t'])[..t] == Asked(env.requests[..t]);
    } else if |log| == 1 {
      assert log[..0] == [];
    }
  }

  /**
   Deadman lifetime, for every timed run with wake-ups at most `jitter` late: the first write to the
   sink is an erasure; from the end of each write to the beginning of the next passes at most
   `eraseAfter + jitter`, so no key outlives `eraseAfter` under a prompt timer; and a clean shutdown
   has applied every request, in order, and ends with an erasure.
   */
  lemma DeadmanLifetime(
    eraseAfter: Time, jitter: Time, env: Environment, start: Time, first: Turn, turns: seq<Turn>)
    requires forall t | t in turns :: t.late <= jitter
    ensures var w := Loop(eraseAfter, env, start, first, turns);
            && (w.log != [] ==> w.log[0].reason == Stale && w.log[0].begin == start)
            && (forall i | 0 < i < |w.log| ::
                  w.log[i - 1].end <= w.log[i].begin <= w.log[i - 1].end + eraseAfter + jitter)
            && (w.status == Running || w.status == ShutDown ==>
                  w.log != [] && w.taken <= |env.requests| && Applied(w.log) == Asked(env.requests[..w.taken]))
            && (w.status == ShutDown ==>
                  w.log[|w.log| - 1].reason == Stale && Applied(w.log) == Asked(env.requests))
  {
    var w := Loop(eraseAfter, env, start, first, turns);
    RunSound(eraseAfter, jitter, env, start, first, turns);
    AppliedInOrder(eraseAfter, jitter, env, w.log);
    StartsAtStart(eraseAfter, env, start, first, turns);
    assert env.requests[..|env.requests|] == env.requests;
  }

  lemma {:induction false} StartsAtStart(
    eraseAfter: Time, env: Environment, start: Time, first: Turn, turns: seq<Turn>)
    ensures var w := Loop(eraseAfter, env, start, first, turns);
            && (w.log != [] ==> w.log[0].begin == start)
            && (w.log == [] ==> w.status == SinkFailed)
  {
    if turns != [] {
      StartsAtStart(eraseAfter, env, start, first, turns[..|turns| - 1]);
    }
  }

  // ---------------------------------------------------------------- what the sink holds

  /** The turn that made the sink write at position `i`. */
  function TurnAt(first: Turn, turns: seq<Turn>, i: nat): Turn
    requires i <= |turns|
  {
    if i == 0 then first else turns[i - 1]
  }

  /**
   Every sink write is made by a turn of its own, takes as long as that turn says, and, unless a
   request asks for it, carries the random key of that very turn.
   */
  lemma {:induction false} OwnTurns(
    eraseAfter: Time, env: Environment, start: Time, first: Turn, turns: seq<Turn>)
    ensures var w := Loop(eraseAfter, env, start, first, turns);
            && |w.log| <= |turns| + 1 && (w.status == Running ==> |w.log| == |turns| + 1)
            && forall i | 0 <= i < |w.log| :: MadeBy(w.log[i], TurnAt(first, turns, i))
  {
    if turns != [] {
      var n := |turns| - 1;
      hide MadeBy;
      OwnTurns(eraseAfter, env, start, first, turns[..n]);
      var w := Loop(eraseAfter, env, start, first, turns[..n]);
      OwnTurn(eraseAfter, env, w, turns[n]);
      assert forall i | 0 <= i <= n :: TurnAt(first, turns, i) == TurnAt(first, turns[..n], i);
    }
  }

  ghost predicate MadeBy(wr: SinkWrite, turn: Turn) {
    && wr.end == wr.begin + turn.busy
    && (!wr.cause.Requested? ==> wr.key == turn.randomKey && wr.reason == Stale)
  }

  lemma OwnTurn(eraseAfter: Time, env: Environment, w: Worker, turn: Turn)
    ensures var w' := Iterate(eraseAfter, env, w, turn);
            if w.status == Running && !turn.fails then
              |w'.log| == |w.log| + 1 && w'.log[..|w.log|] == w.log && MadeBy(w'.log[|w.log|], turn)
            else w'.log == w.log && w'.status != Running
  {
  }

  /** The key in the sink at a time: that of the last write completed by then. */
  function HeldAt(log: seq<SinkWrite>, time: Time): Option<Key> {
    if log == [] then None
    else
      var last := log[|log| - 1];
      if last.end <= time then Some(last.key) else HeldAt(log[..|log| - 1], time)
  }

  lemma {:induction false} HeldIs(log: seq<SinkWrite>, time: Time, i: nat) returns (m: nat)
    requires i < |log| && log[i].end <= time
    ensures i <= m < |log| && log[m].end <= time && HeldAt(log, time) == Some(log[m].key)
  {
    var n := |log| - 1;
    if log[n].end <= time {
      m := n;
    } else {
      m := HeldIs(log[..n], time, i);
    }
  }

  /** No request has been applied after the write at position `i`, up to `time`. */
  ghost predicate NoneApplied(log: seq<SinkWrite>, i: nat, time: Time) {
    forall k | i < k < |log| && log[k].cause.Requested? :: time < log[k].end
  }

  ghost predicate FreshRandomness(env: Environment, first: Turn, turns: seq<Turn>) {
    forall i, r | 0 <= i <= |turns| && r in env.requests :: TurnAt(first, turns, i).randomKey != r.key
  }

  /**
   An erasure holds: from its completion until the next request is applied the sink holds the random
   key of an erasing turn, and so none of the requested keys.
   */
  lemma ErasedUntilRequested(
    eraseAfter: Time, env: Environment, start: Time, first: Turn, turns: seq<Turn>, i: nat, time: Time)
    returns (m: nat)
    requires var log := Loop(eraseAfter, env, start, first, turns).log;
             i < |log| && !log[i].cause.Requested? && log[i].end <= time && NoneApplied(log, i, time)
    ensures i <= m <= |turns|
    ensures var held := HeldAt(Loop(eraseAfter, env, start, first, turns).log, time);
            && held == Some(TurnAt(first, turns, m).randomKey)
            && (FreshRandomness(env, first, turns) ==> forall r | r in env.requests :: held != Some(r.key))
  {
    hide Loop;
    OwnTurns(eraseAfter, env, start, first, turns);
    m := HeldIs(Loop(eraseAfter, env, start, first, turns).log, time, i);
  }

  /**
   No key outlives its lifetime: once the lifetime, the timer's delay and the duration of one sink
   write have passed since a key was written, and no further request has been applied, the sink holds
   the random key of a later turn.
   */
  lemma KeyIsGone(
    eraseAfter: Time, jitter: Time, busy: Time, env: Environment, start: Time, first: Turn, turns: seq<Turn>,
    i: nat, time: Time) returns (m: nat)
    requires forall t | t in turns :: t.late <= jitter && t.busy <= busy
    requires var w := Loop(eraseAfter, env, start, first, turns);
             && w.status != SinkFailed && i < |w.log| && NoneApplied(w.log, i, time)
             && w.log[i].end + eraseAfter + jitter + busy < time <= w.now
    ensures i < m <= |turns|
    ensures var held := HeldAt(Loop(eraseAfter, env, start, first, turns).log, time);
            && held == Some(TurnAt(first, turns, m).randomKey)
            && (FreshRandomness(env, first, turns) ==> forall r | r in env.requests :: held != Some(r.key))
  {
    hide Loop;
    var w := Loop(eraseAfter, env, start, first, turns);
    RunSound(eraseAfter, jitter, env, start, first, turns);
    OwnTurns(eraseAfter, env, start, first, turns);
    assert i + 1 < |w.log|;
    assert FollowsOk(eraseAfter, jitter, env, w.log[i], w.log[i + 1]);
    assert MadeBy(w.log[i + 1], turns[i]) by {
      assert TurnAt(first, turns, i + 1) == turns[i];
    }
    assert turns[i] in turns;
    m := ErasedUntilRequested(eraseAfter, env, start, first, turns, i + 1, time);
  }

  // ---------------------------------------------------------------- no spurious erasure

  /**
   A turn of the loop erases the key exactly when, at the end of the lifetime plus its own wake-up
   delay, there is neither a request nor a closed queue.
   */
  lemma ErasesIff(eraseAfter: Time, env: Environment, w: Worker, turn: Turn)
    requires w.status == Running && !turn.fails
    ensures var log := Iterate(eraseAfter, env, w, turn).log;
            && log != []
            && (log[|log| - 1].cause == TimedOut <==> !env.Ready(w.taken, w.now + eraseAfter + turn.late))
  {
  }

  lemma {:induction false} TakenRises(
    eraseAfter: Time, jitter: Time, env: Environment, w: Worker, i: nat, j: nat)
    requires Sound(eraseAfter, jitter, env, w) && i < j < |w.log|
    ensures w.log[i].TakenAfter() <= w.log[j].taken
    decreases j
  {
    assert FollowsOk(eraseAfter, jitter, env, w.log[j - 1], w.log[j]);
    if i < j - 1 {
      TakenRises(eraseAfter, jitter, env, w, i, j - 1);
    }
  }

  /**
   If a request arrives no later than one lifetime after the previous one arrived, the sink gets the
   two keys one right after the other, whatever the delays of timer and sink.
   */
  lemma NoErasureBetween(
    eraseAfter: Time, jitter: Time, env: Environment, start: Time, first: Turn, turns: seq<Turn>, i: nat, j: nat)
    requires forall t | t in turns :: t.late <= jitter
    requires i < j < |Loop(eraseAfter, env, start, first, turns).log|
    requires var log := Loop(eraseAfter, env, start, first, turns).log;
             && log[i].cause.Requested? && log[j].cause.Requested? && log[j].taken == log[i].taken + 1
             && log[j].taken < |env.requests|
             && env.requests[log[j].taken].at <= env.requests[log[i].taken].at + eraseAfter
    ensures j == i + 1
  {
    hide Loop;
    var w := Loop(eraseAfter, env, start, first, turns);
    RunSound(eraseAfter, jitter, env, start, first, turns);
    assert WriteOk(env, w.log[i]);
    if j > i + 1 {
      assert FollowsOk(eraseAfter, jitter, env, w.log[i], w.log[i + 1]);
      assert FollowsOk(eraseAfter, jitter, env, w.log[i + 1], w.log[i + 2]);
      TakenRises(eraseAfter, jitter, env, w, i + 1, j);
    }
  }

  ghost predicate Paced(requests: seq<Request>, gap: Time) {
    forall k | 0 < k < |requests| :: requests[k].at <= requests[k - 1].at + gap
  }

  /** In a paced run the sink is never erased between the first and the last key. */
  lemma {:induction false} PacedRunNeverErases(
    eraseAfter: Time, jitter: Time, env: Environment, start: Time, first: Turn, turns: seq<Turn>, i: nat, j: nat, m: nat)
    requires forall t | t in turns :: t.late <= jitter
    requires Paced(env.requests, eraseAfter)
    requires i <= m <= j < |Loop(eraseAfter, env, start, first, turns).log|
    requires var log := Loop(eraseAfter, env, start, first, turns).log;
             log[i].cause.Requested? && log[j].cause.Requested?
    ensures Loop(eraseAfter, env, start, first, turns).log[m].cause.Requested?
    decreases m
  {
    hide Loop;
    var w := Loop(eraseAfter, env, start, first, turns);
    RunSound(eraseAfter, jitter, env, start, first, turns);
    if i < m < j {
      PacedRunNeverErases(eraseAfter, jitter, env, start, first, turns, i, j, m - 1);
      assert FollowsOk(eraseAfter, jitter, env, w.log[m - 1], w.log[m]);
      assert WriteOk(env, w.log[m - 1]) && WriteOk(env, w.log[j]);
      TakenRises(eraseAfter, jitter, env, w, m, j);
      assert w.log[m].taken < |env.requests|;
      assert FollowsOk(eraseAfter, jitter, env, w.log[m], w.log[m + 1]);
    }
  }

  /**
   One round of the protocol as a host sees it: `before` from the end of the server's sleep until the
   key leaves for this host, `transit` until it is in the host's deadman queue, and `after` until the
   server's next sleep begins. Oversleeping counts as `before`.
   */
  datatype Pace = Pace(before: Time, transit: Time, after: Time)

  /** When the key of each round leaves. */
  function Departure(interval: Time, start: Time, paces: seq<Pace>, r: nat): Time
    requires r < |paces|
  {
    if r == 0 then start + paces[0].before
    else Departure(interval, start, paces, r - 1) + paces[r - 1].after + interval + paces[r].before
  }

  /** The requests are the keys of such rounds. */
  ghost predicate FromRounds(requests: seq<Request>, interval: Time, start: Time, paces: seq<Pace>) {
    && |requests| <= |paces|
    && forall r | 0 <= r < |requests| :: requests[r].at == Departure(interval, start, paces, r) + paces[r].transit
  }

  /** Each round loses at most `slack` on top of the interval. */
  ghost predicate Within(paces: seq<Pace>, slack: Time) {
    forall r | 0 < r < |paces| :: paces[r - 1].after + paces[r].before + paces[r].transit <= slack
  }

  /**
   A host with rekey interval `own` never erases a key between two keys of a server that runs with
   interval `server`, as long as negotiation, queueing and transit together fit into the difference
   plus 30 seconds. On the server itself `own == server`, which leaves exactly the 30 seconds.
   */
  lemma ProtocolKeepsKeyAlive(
    own: nat, server: nat, paces: seq<Pace>, from: Time,
    jitter: Time, env: Environment, start: Time, first: Turn, turns: seq<Turn>, i: nat, j: nat, m: nat)
    requires server * SECOND <= EraseAfter(own)
    requires FromRounds(env.requests, server * SECOND, from, paces)
    requires Within(paces, EraseAfter(own) - server * SECOND)
    requires forall t | t in turns :: t.late <= jitter
    requires i <= m <= j < |Loop(EraseAfter(own), env, start, first, turns).log|
    requires var log := Loop(EraseAfter(own), env, start, first, turns).log;
             log[i].cause.Requested? && log[j].cause.Requested?
    ensures own == server ==> EraseAfter(own) - server * SECOND == 30 * SECOND
    ensures Loop(EraseAfter(own), env, start, first, turns).log[m].cause.Requested?
  {
    forall r | 0 < r < |env.requests|
      ensures env.requests[r].at <= env.requests[r - 1].at + EraseAfter(own)
    {
      assert env.requests[r - 1].at == Departure(server * SECOND, from, paces, r - 1) + paces[r - 1].transit;
    }
    PacedRunNeverErases(EraseAfter(own), jitter, env, start, first, turns, i, j, m);
  }

  // ---------------------------------------------------------------- shutdown is prompt

  /**
   Once all senders are gone, a sink that does not fail sees the remaining requests, then the final
   erasure: the loop ends within one turn per remaining request and one more.
   */
  lemma {:induction false} ShutsDown(
    eraseAfter: Time, env: Environment, start: Time, first: Turn, turns: seq<Turn>, n: nat)
    requires env.Ordered() && env.closedAt.Some? && n <= |turns|
    requires var w := Loop(eraseAfter, env, start, first, turns[..n]);
             w.status == Running && env.closedAt.value <= w.now && |env.requests| - w.taken < |turns| - n
    requires forall t | t in turns[n..] :: !t.fails
    ensures Loop(eraseAfter, env, start, first, turns).status == ShutDown
    decreases |turns| - n
  {
    var w := Loop(eraseAfter, env, start, first, turns[..n]);
    RunSound(eraseAfter, Latest(turns[..n]), env, start, first, turns[..n]);
    assert turns[..n + 1][..n] == turns[..n] && turns[n] in turns[n..];
    var w' := Loop(eraseAfter, env, start, first, turns[..n + 1]);
    assert w' == Iterate(eraseAfter, env, w, turns[n]);
    if w.taken < |env.requests| {
      ShutsDown(eraseAfter, env, start, first, turns, n + 1);
    } else {
      StoppedStays(eraseAfter, env, start, first, turns, n + 1);
    }
  }

  /** A worker that has stopped does nothing more. */
  lemma {:induction false} StoppedStays(
    eraseAfter: Time, env: Environment, start: Time, first: Turn, turns: seq<Turn>, n: nat)
    requires n <= |turns|
    requires n < |turns| ==> Loop(eraseAfter, env, start, first, turns[..n]).status != Running
    ensures Loop(eraseAfter, env, start, first, turns) == Loop(eraseAfter, env, start, first, turns[..n])
    decreases |turns|
  {
    if n == |turns| {
      assert turns[..n] == turns;
    } else {
      var init := turns[..|turns| - 1];
      assert init[..n] == turns[..n];
      StoppedStays(eraseAfter, env, start, first, init, n);
    }
  }

  ghost function Latest(turns: seq<Turn>): (jitter: Time)
    ensures forall t | t in turns :: t.late <= jitter
  {
    if turns == [] then 0
    else
      var before := Latest(turns[1..]);
      if turns[0].late > before then turns[0].late else before
  }

  // ---------------------------------------------------------------- the worker object

  class DeadmanWorker {
    const eraseAfter: Time
    // What will happen on the request queue.
    const env: Environment

    var now: Time
    // The requests received so far.
    var taken: nat
    // What the sink behind the broker has seen.
    var sink: seq<SinkWrite>

    constructor (eraseAfter: Time, env: Environment, start: Time)
      ensures this.eraseAfter == eraseAfter && this.env == env
      ensures now == start && taken == 0 && sink == []
    {
      this.eraseAfter := eraseAfter;
      this.env := env;
      now := start;
      taken := 0;
      sink := [];
    }

    method EventLoop(first: Turn, turns: seq<Turn>) returns (status: Status)
      requires taken == 0 && sink == []
      modifies this
      ensures Worker(now, taken, sink, status) == Loop(eraseAfter, env, old(now), first, turns)
    {
      hide Iterate;
      var ok := HandToBroker(AtStart, first.randomKey, Stale, first);
      status := if ok then Running else SinkFailed;
      assert turns[..0] == [];
      var n := 0;
      while n < |turns| && status == Running
        invariant n <= |turns|
        invariant Worker(now, taken, sink, status) == Loop(eraseAfter, env, old(now), first, turns[..n])
      {
        LoopStep(eraseAfter, env, old(now), first, turns, n);
        status := NextTurn(turns[n]);
        n := n + 1;
      }
      StoppedStays(eraseAfter, env, old(now), first, turns, n);
    }

    /** One pass through the loop: wait until the deadline, then update, shut down or erase. */
    method NextTurn(turn: Turn) returns (status: Status)
      modifies this
      ensures Worker(now, taken, sink, status) ==
              Iterate(eraseAfter, env, old(Worker(now, taken, sink, Running)), turn)
    {
      hide WakeUp;
      var nextErase := now + eraseAfter;
      var request := TimeoutAt(nextErase, turn);
      var ok;
      match request
      case Some(Some(req)) =>
        ok := HandToBroker(Requested, req.key, req.reason, turn);
        status := if ok then Running else SinkFailed;
      case Some(None) =>
        ok := HandToBroker(AtShutdown, turn.randomKey, Stale, turn);
        status := if ok then ShutDown else SinkFailed;
      case None =>
        ok := HandToBroker(TimedOut, turn.randomKey, Stale, turn);
        status := if ok then Running else SinkFailed;
    }

    /** `timeout_at(nextErase, requests.recv())`: the inner option is `None` for a closed queue. */
    method TimeoutAt(nextErase: Time, turn: Turn) returns (answer: Option<Option<Request>>)
      requires nextErase == now + eraseAfter
      modifies this`now
      ensures now == old(WakeUp(eraseAfter, env, Worker(now, taken, sink, Running), turn))
      ensures answer == if !env.Ready(taken, now) then None
                        else if taken < |env.requests| then Some(Some(env.requests[taken]))
                        else Some(None)
    {
      var due := nextErase;
      if taken < |env.requests| {
        if env.requests[taken].at < due { due := env.requests[taken].at; }
      } else if env.closedAt.Some? {
        if env.closedAt.value < due { due := env.closedAt.value; }
      }
      now := (if due < now then now else due) + turn.late;
      if taken < |env.requests| && env.requests[taken].at <= now {
        return Some(Some(env.requests[taken]));
      }
      if taken >= |env.requests| && env.closedAt.Some? && env.closedAt.value <= now {
        return Some(None);
      }
      return None;
    }

    /** `broker.set_osk`, or `broker.erase_stale_osk` with a random key. */
    method HandToBroker(cause: Cause, key: Key, reason: SetOskReason, turn: Turn) returns (ok: bool)
      modifies this
      ensures ok <==> !turn.fails
      ensures !ok ==> now == old(now) && taken == old(taken) && sink == old(sink)
      ensures ok ==>
                && now == old(now) + turn.busy
                && taken == old(taken) + (if cause.Requested? then 1 else 0)
                && sink == old(sink) + [SinkWrite(cause, key, reason, old(now), now, old(taken))]
    {
      if turn.fails {
        return false;
      }
      sink := sink + [SinkWrite(cause, key, reason, now, now + turn.busy, taken)];
      taken := if cause.Requested? then taken + 1 else taken;
      now := now + turn.busy;
      return true;
    }
  }
}
