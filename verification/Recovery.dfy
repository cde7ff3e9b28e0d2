/**
 The composed system never gets stuck: from every reachable state the two hosts can be brought to hold
 the same, new key, whatever connections have broken and whatever is still queued.
 */
module Recovery {
  import opened Wrappers
  import opened Bytes
  import opened Kdf
  import opened ManagerModel
  import opened Lockstep
  import opened Protocol
  import opened System

  ghost predicate Reaches(cfg: Config, s: System, s': System) {
    exists acts :: RunFrom(cfg, s, acts) == Some(s')
  }

  lemma ReachesItself(cfg: Config, s: System)
    ensures Reaches(cfg, s, s)
  {
    assert RunFrom(cfg, s, []) == Some(s);
  }

  lemma ReachesOn(cfg: Config, s: System, mid: System, act: Action)
    requires Reaches(cfg, s, mid) && Step(cfg, mid, act).Some?
    ensures Reaches(cfg, s, Step(cfg, mid, act).value)
  {
    hide Step;
    var acts :| RunFrom(cfg, s, acts) == Some(mid);
    assert (acts + [act])[..|acts|] == acts;
    assert RunFrom(cfg, s, acts + [act]) == Step(cfg, mid, act);
  }

  /** What one more step of a run from `s` gives. */
  lemma Go(cfg: Config, s: System, mid: System, act: Action) returns (next: System)
    requires Good(cfg, mid) && Reaches(cfg, s, mid) && Step(cfg, mid, act).Some?
    ensures Some(next) == Step(cfg, mid, act)
    ensures Good(cfg, next) && Reaches(cfg, s, next)
  {
    hide Good, Step, Reaches;
    StepKeepsGood(cfg, mid, act);
    ReachesOn(cfg, s, mid, act);
    next := Step(cfg, mid, act).value;
  }

  lemma NothingToDo(s: System)
    ensures Work(s) == 0 <==> s.queue == [] && s.hand == [] && s.server.requests == [] && s.client.requests == []
  {
  }

  /** All queues can be emptied. */
  lemma DrainAll(cfg: Config, s: System, from: System) returns (s': System)
    requires Good(cfg, from) && Reaches(cfg, s, from)
    ensures Good(cfg, s') && Reaches(cfg, s, s') && Work(s') == 0
    ensures s'.links == from.links && s'.history == from.history + from.queue
  {
    hide Good, Step, Reaches, Drains;
    s' := from;
    while Work(s') > 0
      invariant Good(cfg, s') && Reaches(cfg, s, s')
      invariant s'.links == from.links && s'.history + s'.queue == from.history + from.queue
      decreases Work(s')
    {
      DrainProgress(cfg, s');
      var act :| Drains(act) && Step(cfg, s', act).Some?;
      DrainStep(cfg, s', act);
      s' := Go(cfg, s, s', act);
    }
    NothingToDo(s');
    assert s'.history + [] == s'.history;
  }

  /** A new connection, whatever has become of the last one. */
  lemma Reconnect(cfg: Config, s: System, from: System) returns (s': System)
    requires Good(cfg, from) && Reaches(cfg, s, from) && Work(from) == 0
    ensures Good(cfg, s') && Reaches(cfg, s, s') && Work(s') == 0
    ensures |s'.links| > Run(s'.history).next && s'.links[|s'.links| - 1] == NewLink
  {
    hide Run, Reaches, InLockstep, KeysOk, ExitsOk, PipesOk;
    s' := from;
    if from.links != [] && !from.links[|from.links| - 1].client.Closed? {
      BreakStep(cfg, from.links[|from.links| - 1]);
      s' := Go(cfg, s, s', ClientDoes(Broke));
    }
    s' := Go(cfg, s, s', Connect);
  }

  /** The server works through its backlog and reaches the newest connection. */
  lemma AcceptAll(cfg: Config, s: System, from: System) returns (s': System)
    requires Good(cfg, from) && Reaches(cfg, s, from) && Work(from) == 0
    requires |from.links| > Run(from.history).next && from.links[|from.links| - 1] == NewLink
    ensures Good(cfg, s') && Reaches(cfg, s, s') && Work(s') == 0
    ensures s'.links != [] && s'.links[|s'.links| - 1] == NewLink
    ensures Run(s'.history).next == |s'.links| && |s'.links| - 1 in Run(s'.history).Registered()
  {
    hide Run, Next, Good, Reaches, State.Registered;
    s' := from;
    while Run(s'.history).next < |s'.links|
      invariant Good(cfg, s') && Reaches(cfg, s, s') && Work(s') == 0
      invariant s'.links == from.links && Run(s'.history).next <= |s'.links|
      invariant Run(s'.history).next == |s'.links| ==> |s'.links| - 1 in Run(s'.history).Registered()
      decreases |s'.links| - Run(s'.history).next
    {
      RunAppend(s'.history, Accept);
      RegistrationStep(Run(s'.history), Accept);
      NothingToDo(s');
      s' := Go(cfg, s, s', AcceptNext);
    }
  }

  // ---------------------------------------------------------------- one round on the newest connection

  function Newest(s: System): ConnectionId
    requires s.links != []
  {
    |s.links| - 1
  }

  function NewestLink(s: System): Link
    requires s.links != []
  {
    s.links[Newest(s)]
  }

  /** The newest connection has been accepted, and its events will find room in the queue. */
  ghost predicate Accepted(s: System) {
    s.links != [] && Run(s.history).next == |s.links| && s.queue == []
  }

  lemma ServerGoes(cfg: Config, s: System, from: System, a: ServerAction) returns (s': System)
    requires Good(cfg, from) && Reaches(cfg, s, from) && Accepted(from)
    requires ServerActs(cfg, NewestLink(from), a).Some? && !a.Cancelled?
    ensures Good(cfg, s') && Reaches(cfg, s, s')
    ensures |s'.links| == |from.links| && NewestLink(s') == ServerActs(cfg, NewestLink(from), a).value
    ensures s' == from.(links := s'.links, queue := Sends(Newest(from), NewestLink(from), a))
  {
    hide Run, Good, Reaches, ServerActs;
    s' := Go(cfg, s, from, ServerDoes(Newest(from), a));
  }

  lemma ClientGoes(cfg: Config, s: System, from: System, a: ClientAction) returns (s': System)
    requires Good(cfg, from) && Reaches(cfg, s, from) && from.links != []
    requires ClientActs(cfg, NewestLink(from), a).Some? && !a.Installed?
    ensures Good(cfg, s') && Reaches(cfg, s, s')
    ensures |s'.links| == |from.links| && NewestLink(s') == ClientActs(cfg, NewestLink(from), a).value
    ensures s' == from.(links := s'.links)
  {
    hide Run, Good, Reaches, ClientActs;
    s' := Go(cfg, s, from, ClientDoes(a));
  }

  lemma ClientInstalls(cfg: Config, s: System, from: System) returns (s': System)
    requires Good(cfg, from) && Reaches(cfg, s, from) && from.links != []
    requires NewestLink(from).client.Installing? && from.client.requests == []
    ensures Good(cfg, s') && Reaches(cfg, s, s')
    ensures |s'.links| == |from.links| && s' == from.(links := s'.links, client := s'.client)
    ensures var l := NewestLink(from);
            NewestLink(s') == l.(client := Reading([]), installed := l.installed + [l.client.osk])
  {
    hide Run, Good, Reaches;
    InstallStep(cfg, NewestLink(from));
    s' := Go(cfg, s, from, ClientDoes(Installed));
  }

  /** The client's part of a round: the request is on its way, the acknowledgement comes back. */
  lemma ClientRound(cfg: Config, s: System, from: System, round: Round) returns (s': System)
    requires Good(cfg, from) && Reaches(cfg, s, from) && from.links != [] && from.client.requests == []
    requires round.key.key == cfg.store(round.key.id)
    requires NewestLink(from) ==
             NewLink.(server := ReadingAck(round), toClient := round.Req().AsBytes(), sent := [round])
    ensures Good(cfg, s') && Reaches(cfg, s, s')
    ensures |s'.links| == |from.links| && s' == from.(links := s'.links, client := s'.client)
    ensures var osk := RoundKey(cfg, round);
            NewestLink(s') ==
            NewLink.(server := ReadingAck(round), toServer := [REKEY_ACK], sent := [round],
                     parsed := [round.Req()], derived := [osk], installed := [osk])
  {
    hide Run, Good, Reaches, ClientActs, DeriveDaisywayKey;
    var req := round.Req();
    var bytes := req.AsBytes();
    RekeyReqRoundTrip(req, bytes);
    MirroredHostsDeriveTheSame(cfg.xof, cfg.params, round.nonce, round.key);
    assert [] + bytes == bytes && bytes + [] == bytes;
    ReadStep(cfg, NewestLink(from), bytes, []);
    s' := ClientGoes(cfg, s, from, Got(bytes));
    AnswerStep(cfg, NewestLink(s'));
    s' := ClientGoes(cfg, s, s', Answered(round.key));
    AckedStep(cfg, NewestLink(s'));
    s' := ClientGoes(cfg, s, s', Acked);
    s' := ClientInstalls(cfg, s, s');
  }

  /** A whole round on a new connection, up to the event for the manager. */
  lemma NegotiateRound(cfg: Config, s: System, from: System, round: Round) returns (s': System)
    requires Good(cfg, from) && Reaches(cfg, s, from) && Work(from) == 0 && Accepted(from)
    requires NewestLink(from) == NewLink && round.key.key == cfg.store(round.key.id)
    ensures Good(cfg, s') && Reaches(cfg, s, s')
    ensures |s'.links| == |from.links| && s'.history == from.history
    ensures NewestLink(s').installed == NewestLink(s').forwarded == [RoundKey(cfg, round)]
    ensures s'.queue == [Osk(OskEvent(Newest(from), RoundKey(cfg, round), Fresh))]
  {
    hide Run, Good, Reaches, ServerActs, DeriveDaisywayKey;
    NothingToDo(from);
    var bytes := round.Req().AsBytes();
    FetchStep(cfg, NewLink, round.key, round.nonce);
    s' := ServerGoes(cfg, s, from, Fetched(round.key, round.nonce));
    WriteStep(cfg, NewestLink(s'), |bytes|);
    assert bytes[..|bytes|] == bytes && [] + bytes == bytes;
    s' := ServerGoes(cfg, s, s', Wrote(|bytes|));
    s' := ClientRound(cfg, s, s', round);
    AckStep(cfg, NewestLink(s'), [REKEY_ACK], []);
    s' := ServerGoes(cfg, s, s', GotAck(REKEY_ACK));
    ForwardSteps(cfg, NewestLink(s'));
    s' := ServerGoes(cfg, s, s', Enqueued);
  }

  /** The first key of the newest connection is passed on. */
  lemma LastPassedOn(s: System, key: Key)
    requires KeysOk(s) && s.links != [] && Newest(s) in Run(s.history).Registered()
    requires s.queue == [Osk(OskEvent(Newest(s), key, Fresh))] && NewestLink(s).forwarded == [key]
    ensures Deliveries(s.history + s.queue) == Deliveries(s.history) + [TaggedKey(Tag(Newest(s), 0), key)]
  {
    hide Run, KeysOf, Forwards, Deliveries;
    var c, ev := Newest(s), s.queue[0];
    KeysOfOne(ev, c);
    assert KeysOf(s.history, c) + [key] == [key];
    assert |KeysOf(s.history, c)| == 0;
    RunRepresents(s.history);
    RepresentsStep(Run(s.history), IdealRun(s.history), ev);
    KeysAppend(s.history, ev, c);
  }

  lemma KeysAreOk(cfg: Config, s: System)
    requires Good(cfg, s)
    ensures KeysOk(s)
  {
  }

  lemma {:induction false} LastInstalled(links: seq<Link>, key: Key)
    requires links != [] && links[|links| - 1].installed == [key]
    ensures var c := |links| - 1;
            InstalledKeys(links) == InstalledKeys(links[..c]) + [TaggedKey(Tag(c, 0), key)]
  {
    var c := |links| - 1;
    assert Tagged(c, links[c].installed) == [TaggedKey(Tag(c, 0), key)];
  }

  lemma AllWritten(cfg: Config, s: System)
    requires Good(cfg, s) && Work(s) == 0
    ensures s.server.written == Deliveries(s.history) && s.client.written == InstalledKeys(s.links)
  {
    hide LinksOk, KeysOk, ExitsOk, Deliveries, InstalledKeys;
    NothingToDo(s);
    assert s.server.written + [] + [] == s.server.written && s.client.written + [] == s.client.written;
  }

  /**
   From every reachable state, and for every QKD key that the key server may issue and every nonce,
   there is a way on in which both hosts end up with the key derived from them: both sinks then hold
   the same key with the same tag as their last.
   */
  lemma AlwaysRecoverable(cfg: Config, acts: seq<Action>, round: Round) returns (s': System, k: TaggedKey)
    requires RunFrom(cfg, Start, acts).Some? && round.key.key == cfg.store(round.key.id)
    ensures Reaches(cfg, RunFrom(cfg, Start, acts).value, s')
    ensures k.key == RoundKey(cfg, round)
    ensures s'.server.written != [] && s'.server.written[|s'.server.written| - 1] == k
    ensures s'.client.written != [] && s'.client.written[|s'.client.written| - 1] == k
  {
    hide Run, RunFrom, Good, Reaches, RoundKey, State.Registered, Deliveries, InstalledKeys, KeysOk;
    var s := RunFrom(cfg, Start, acts).value;
    ReachableGood(cfg, acts);
    ReachesItself(cfg, s);
    s' := DrainAll(cfg, s, s);
    s' := Reconnect(cfg, s, s');
    s' := AcceptAll(cfg, s, s');
    NothingToDo(s');
    var before := NegotiateRound(cfg, s, s', round);
    KeysAreOk(cfg, before);
    s' := DrainAll(cfg, s, before);
    LastPassedOn(before, RoundKey(cfg, round));
    LastInstalled(before.links, RoundKey(cfg, round));
    AllWritten(cfg, s');
    k := TaggedKey(Tag(Newest(before), 0), RoundKey(cfg, round));
  }
}
