/**
 The connection manager of the TCP server: the object whose fields the event handlers update in
 place, proved against the specification in ManagerModel.dfy.
 */
module TcpServer {
  import opened Wrappers
  import opened Bytes
  import opened ManagerModel

  /** The handle of one connection task; dropping it aborts the task. */
  datatype AbortOnDropHandle = AbortOnDropHandle(task: ConnectionId)

  /** What ended, or did not end, an event handler. */
  datatype LoopError = ListenerFailed | HandlerFailed

  /** One thing the event loop wakes up for. */
  datatype Wakeup = Event(event: StreamEvent) | AcceptError

  /** The output key handler behind the manager. It fails once its budget of calls is used up. */
  class OskHandler {
    var received: seq<OskEvent>
    var budget: nat

    constructor (budget: nat)
      ensures received == [] && this.budget == budget
    {
      received := [];
      this.budget := budget;
    }

    method SetOsk(osk: OskEvent) returns (r: Result<(), LoopError>)
      modifies this
      ensures r.Ok? <==> old(budget) > 0
      ensures received == old(received) + if r.Ok? then [osk] else []
      ensures budget + |received| == old(budget + |received|)
      ensures r.Err? ==> r.error == HandlerFailed
    {
      if budget == 0 {
        return Err(HandlerFailed);
      }
      budget := budget - 1;
      received := received + [osk];
      return Ok(());
    }
  }

  /** `BTreeMap::split_off`: the entries below `key`, and those from `key` on. */
  function SplitOff<V>(m: map<ConnectionId, V>, key: ConnectionId): (parts: (map<ConnectionId, V>, map<ConnectionId, V>))
    ensures parts.0 + parts.1 == m && parts.0.Keys !! parts.1.Keys
    ensures forall k | k in m :: k in parts.0 <==> k < key
  {
    (map k | k in m && k < key :: m[k], map k | k in m && k >= key :: m[k])
  }

  /** The key `BTreeMap::pop_first` removes. */
  method FirstKey(keys: set<ConnectionId>) returns (first: ConnectionId)
    requires keys != {}
    ensures first in keys && forall k | k in keys :: first <= k
  {
    first :| first in keys;
    var seen, rest := {first}, keys - {first};
    while rest != {}
      invariant keys == seen + rest && first in seen
      invariant forall k | k in seen :: first <= k
      decreases |rest|
    {
      var k :| k in rest;
      seen, rest := seen + {k}, rest - {k};
      if k < first {
        first := k;
      }
    }
  }

  class ConnectionManager {
    const oskHandler: OskHandler

    var nextConnectionId: ConnectionId
    var activeConnection: Option<(ConnectionId, AbortOnDropHandle)>
    var buddingConnections: map<ConnectionId, AbortOnDropHandle>

    // The tasks aborted so far by dropping their handles.
    var aborted: multiset<ConnectionId>

    // Every event handled so far.
    ghost var history: seq<StreamEvent>

    ghost function View(): State
      reads this
    {
      State(nextConnectionId,
            if activeConnection.Some? then Some(activeConnection.value.0) else None,
            buddingConnections.Keys)
    }

    /** Every registered handle belongs to the connection it is filed under. */
    ghost predicate OwnHandles()
      reads this
    {
      && (activeConnection.Some? ==> activeConnection.value.1.task == activeConnection.value.0)
      && forall c | c in buddingConnections :: buddingConnections[c].task == c
    }

    ghost predicate Valid()
      reads this
    {
      && OwnHandles()
      && View() == Run(history)
      && aborted == Dropped(history)
    }

    constructor (oskHandler: OskHandler)
      ensures Valid() && history == []
      ensures this.oskHandler == oskHandler
    {
      this.oskHandler := oskHandler;
      nextConnectionId := 0;
      activeConnection := None;
      buddingConnections := map[];
      aborted := multiset{};
      history := [];
    }

    method EventLoop(wakeups: seq<Wakeup>) returns (stopped: Option<LoopError>, n: nat)
      requires Valid()
      requires oskHandler.received == Outputs(history)
      modifies this, oskHandler
      ensures Valid() && n <= |wakeups|
      ensures stopped.None? ==> n == |wakeups|
      ensures stopped == Some(ListenerFailed) ==> n < |wakeups| && wakeups[n].AcceptError?
      ensures |history| == |old(history)| + n && old(history) <= history
      ensures forall k | 0 <= k < n :: wakeups[k] == Event(history[|old(history)| + k])
      ensures stopped != Some(HandlerFailed) ==> oskHandler.received == Outputs(history)
      ensures oskHandler.budget + |oskHandler.received| == old(oskHandler.budget + |oskHandler.received|)
      ensures stopped == Some(HandlerFailed) ==>
                && n > 0 && Forwarded(history, |history| - 1) && oskHandler.budget == 0
                && oskHandler.received == Outputs(history[..|history| - 1])
    {
      hide Next, Run, Dropped, DropsOf, Outputs, Forwards, ConnectionManager.OwnHandles, ConnectionManager.View;
      n := 0;
      while n < |wakeups|
        invariant Valid() && n <= |wakeups|
        invariant |history| == |old(history)| + n && old(history) <= history
        invariant forall k | 0 <= k < n :: wakeups[k] == Event(history[|old(history)| + k])
        invariant oskHandler.received == Outputs(history)
        invariant oskHandler.budget + |oskHandler.received| == old(oskHandler.budget + |oskHandler.received|)
      {
        if wakeups[n].AcceptError? {
          return Some(ListenerFailed), n;
        }
        ghost var before := history;
        var r := OnEvent(wakeups[n].event);
        RunAppend(before, wakeups[n].event);
        assert history[..|history| - 1] == before;
        n := n + 1;
        if r.Err? {
          return Some(r.error), n;
        }
      }
      return None, n;
    }

    method OnEvent(ev: StreamEvent) returns (r: Result<(), LoopError>)
      requires Valid()
      modifies this, oskHandler
      ensures Valid() && history == old(history) + [ev]
      ensures View() == Next(old(View()), ev)
      ensures r.Err? ==> r.error == HandlerFailed
      ensures r.Err? <==> Forwards(old(View()), ev) && old(oskHandler.budget) == 0
      ensures oskHandler.received ==
              old(oskHandler.received) + if Forwards(old(View()), ev) && r.Ok? then [ev.osk] else []
      ensures oskHandler.budget + |oskHandler.received| == old(oskHandler.budget + |oskHandler.received|)
    {
      hide Next, Run, Dropped, DropsOf, Gone, State.Ordered, State.Registered;
      RunOrdered(history);
      match ev {
        case Accept =>
          OnAccept();
          r := Ok(());
        case Exit(c) =>
          OnExit(c);
          r := Ok(());
        case Osk(osk) =>
          r := OnOsk(osk);
      }
      RunAppend(history, ev);
      history := history + [ev];
    }

    method OnAccept()
      requires OwnHandles() && View().Ordered()
      modifies this
      ensures OwnHandles() && history == old(history)
      ensures View() == Next(old(View()), Accept)
      ensures aborted == old(aborted) + DropsOf(Gone(old(View()), View()))
    {
      hide Next, OldestIfFull, Gone, State.Ordered, State.Registered;
      ghost var s := View();
      var connectionId := AllocateConnectionId();

      // Make sure there is space in the budding connections
      if |buddingConnections| >= MAX_BUDDING_CONNECTIONS {
        PruneOldest();
      } else {
        VictimsBud(s);
      }

      // Spawn the protocol handler task and register it as a budding connection
      Register(connectionId);
      AcceptDropsVictim(s);
    }

    method PruneOldest()
      requires OwnHandles() && |buddingConnections| >= MAX_BUDDING_CONNECTIONS
      modifies this`buddingConnections, this`aborted
      ensures OwnHandles()
      ensures buddingConnections.Keys == old(buddingConnections.Keys - OldestIfFull(buddingConnections.Keys))
      ensures aborted == old(aborted) + DropsOf(OldestIfFull(old(buddingConnections.Keys)))
    {
      var prunedId := FirstKey(buddingConnections.Keys);
      OldestIfFullIs(buddingConnections.Keys, prunedId);
      var handle := buddingConnections[prunedId];
      buddingConnections := buddingConnections - {prunedId};
      Drop(handle);
    }

    method Register(connectionId: ConnectionId)
      requires OwnHandles()
      modifies this`buddingConnections
      ensures OwnHandles()
      ensures buddingConnections.Keys == old(buddingConnections.Keys) + {connectionId}
    {
      buddingConnections := buddingConnections[connectionId := AbortOnDropHandle(connectionId)];
    }

    method OnExit(connectionId: ConnectionId)
      requires OwnHandles() && View().Ordered()
      modifies this
      ensures OwnHandles() && history == old(history)
      ensures View() == Next(old(View()), Exit(connectionId))
      ensures aborted == old(aborted) + DropsOf(Gone(old(View()), View()))
    {
      hide Gone, DropsOf, State.Ordered;
      ExitDropsOne(View(), connectionId);
      if ActiveConnectionId() == Some(connectionId) {
        var handle := activeConnection.value.1;
        activeConnection := None;
        Drop(handle);
      } else if connectionId in buddingConnections {
        var handle := buddingConnections[connectionId];
        buddingConnections := buddingConnections - {connectionId};
        Drop(handle);
      }
    }

    method OnOsk(osk: OskEvent) returns (r: Result<(), LoopError>)
      requires OwnHandles() && View().Ordered()
      modifies this, oskHandler
      ensures OwnHandles() && history == old(history)
      ensures View() == Next(old(View()), Osk(osk))
      ensures aborted == old(aborted) + DropsOf(Gone(old(View()), View()))
      ensures r.Err? ==> r.error == HandlerFailed
      ensures r.Err? <==> Forwards(old(View()), Osk(osk)) && old(oskHandler.budget) == 0
      ensures oskHandler.received ==
              old(oskHandler.received) + if Forwards(old(View()), Osk(osk)) && r.Ok? then [osk] else []
      ensures oskHandler.budget + |oskHandler.received| == old(oskHandler.budget + |oskHandler.received|)
    {
      var activeId := ActiveConnectionId();
      if activeId.Some? && osk.connectionId < activeId.value {
        // A stale session that has already been superseded: discard
        r := Ok(());
      } else if activeId.Some? && osk.connectionId == activeId.value {
        r := oskHandler.SetOsk(osk);
      } else {
        r := OnOskFromBudding(osk);
      }
    }

    method OnOskFromBudding(osk: OskEvent) returns (r: Result<(), LoopError>)
      requires OwnHandles() && View().Ordered()
      requires activeConnection.Some? ==> activeConnection.value.0 < osk.connectionId
      modifies this, oskHandler
      ensures OwnHandles() && history == old(history)
      ensures View() == Next(old(View()), Osk(osk))
      ensures aborted == old(aborted) + DropsOf(Gone(old(View()), View()))
      ensures r.Err? ==> r.error == HandlerFailed
      ensures r.Err? <==> Forwards(old(View()), Osk(osk)) && old(oskHandler.budget) == 0
      ensures oskHandler.received ==
              old(oskHandler.received) + if Forwards(old(View()), Osk(osk)) && r.Ok? then [osk] else []
      ensures oskHandler.budget + |oskHandler.received| == old(oskHandler.budget + |oskHandler.received|)
    {
      hide Next, Above, Below, Gone, State.Ordered, State.Registered;
      var newActiveId := osk.connectionId;
      if newActiveId !in buddingConnections {
        OtherKeysChangeNothing(View(), osk);
        return Ok(());
      }
      ghost var s := View();

      // Drop all the now-stale budding connections
      var newActiveHandle, removed := SplitAt(newActiveId);

      // Promote the new connection to active
      Activate(newActiveId, newActiveHandle);
      PromotionDropsOlder(s, osk);

      // Finally, propagate the event
      r := oskHandler.SetOsk(osk);
      DropAll(removed);
    }

    /** Takes the handle of `id` out, leaves only the newer connections and returns the older ones. */
    method SplitAt(id: ConnectionId)
      returns (handle: AbortOnDropHandle, removed: map<ConnectionId, AbortOnDropHandle>)
      requires OwnHandles() && id in buddingConnections
      modifies this`buddingConnections
      ensures OwnHandles() && handle.task == id
      ensures buddingConnections.Keys == Above(old(buddingConnections.Keys), id)
      ensures removed.Keys == Below(old(buddingConnections.Keys), id)
      ensures forall c | c in removed :: removed[c].task == c
    {
      handle := buddingConnections[id];
      buddingConnections := buddingConnections - {id};
      var (kept, splitOff) := SplitOff(buddingConnections, id);
      buddingConnections, removed := kept, splitOff;
      removed, buddingConnections := buddingConnections, removed;
    }

    /** Makes a connection the active one, dropping the handle of the one it replaces. */
    method Activate(id: ConnectionId, handle: AbortOnDropHandle)
      requires OwnHandles() && handle.task == id
      modifies this`activeConnection, this`aborted
      ensures OwnHandles()
      ensures activeConnection == Some((id, handle))
      ensures aborted == old(aborted + DropsOf(View().Active()))
    {
      var replaced := activeConnection;
      activeConnection := Some((id, handle));
      if replaced.Some? {
        Drop(replaced.value.1);
      }
    }

    method Drop(handle: AbortOnDropHandle)
      modifies this`aborted
      ensures aborted == old(aborted) + multiset{handle.task}
    {
      aborted := aborted + multiset{handle.task};
    }

    method DropAll(handles: map<ConnectionId, AbortOnDropHandle>)
      requires forall c | c in handles :: handles[c].task == c
      modifies this`aborted
      ensures aborted == old(aborted) + DropsOf(handles.Keys)
    {
      var rest := handles;
      while rest != map[]
        invariant rest.Keys <= handles.Keys && forall c | c in rest :: rest[c].task == c
        invariant aborted + DropsOf(rest.Keys) == old(aborted) + DropsOf(handles.Keys)
        decreases |rest|
      {
        var c :| c in rest;
        Drop(rest[c]);
        rest := rest - {c};
      }
    }

    function ActiveConnectionId(): (id: Option<ConnectionId>)
      reads this
      ensures id == View().active
    {
      if activeConnection.Some? then Some(activeConnection.value.0) else None
    }

    method AllocateConnectionId() returns (r: ConnectionId)
      modifies this`nextConnectionId
      ensures r == old(nextConnectionId) && nextConnectionId == r + 1
    {
      r := nextConnectionId;
      nextConnectionId := nextConnectionId + 1;
    }
  }
}
