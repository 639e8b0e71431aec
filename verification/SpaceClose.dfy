/**
 Closing a space: list, refuse the last one, close, then re-point the caller's own relay. The second half lets any number
 of such calls run at once: between the listing and the close the daemon is free to change.
 */
module SpaceClose {
  import opened Common
  import opened RelayInbound
  import opened ControlRouting
  import Daemon

  datatype Space = Space(id: string, active: bool)

  datatype BackendAck = BackendAck(ok: bool, error: string, info: string) | BackendFailed

  datatype CloseResult = ListFailed | Refused | CloseFailed | Answer(ack: Ack)

  function WouldCloseLastSpace(count: nat): bool {
    count <= 1
  }

  /** `connection_current_space`. */
  function CurrentSpaceOf(views: map<ConnId, ViewStateEntry>, session: string, conn: ConnId): Option<string> {
    if conn != "" && conn in views && views[conn].session == session then views[conn].state.currentSpace else None
  }

  function FirstActive(spaces: seq<Space>): Option<string> {
    if spaces == [] then None
    else if spaces[0].active then Some(spaces[0].id)
    else FirstActive(spaces[1..])
  }

  function ActiveOrFirst(spaces: seq<Space>): Option<string> {
    if FirstActive(spaces).Some? then FirstActive(spaces)
    else if spaces == [] then None else Some(spaces[0].id)
  }

  lemma {:induction false} FirstActiveIsListed(spaces: seq<Space>)
    ensures match FirstActive(spaces)
      case Some(id) =>
        exists i | 0 <= i < |spaces| :: spaces[i].active && spaces[i].id == id && forall j | 0 <= j < i :: !spaces[j].active
      case None => forall s | s in spaces :: !s.active
  {
    if spaces != [] && !spaces[0].active {
      var rest := spaces[1..];
      FirstActiveIsListed(rest);
      if FirstActive(rest).Some? {
        var i :| 0 <= i < |rest| && rest[i].active && rest[i].id == FirstActive(rest).value
                 && forall j | 0 <= j < i :: !rest[j].active;
        assert spaces[i + 1] == rest[i];
        assert forall j | 0 <= j < i + 1 :: j == 0 || spaces[j] == rest[j - 1];
      }
    }
  }

  /** The space a relay is moved to is one the daemon lists, active if any is, and there is none only if the list is empty. */
  lemma RepointsToListedSpace(spaces: seq<Space>)
    ensures match ActiveOrFirst(spaces)
      case Some(id) =>
        && (exists s :: s in spaces && s.id == id)
        && ((exists s :: s in spaces && s.active) ==>
              exists i | 0 <= i < |spaces| :: spaces[i].active && spaces[i].id == id && forall j | 0 <= j < i :: !spaces[j].active)
        && ((forall s | s in spaces :: !s.active) ==> id == spaces[0].id)
      case None => spaces == []
  {
    FirstActiveIsListed(spaces);
    if spaces != [] {
      assert spaces[0] in spaces;
    }
  }

  /**
   What counts as viewed when a space is closed. From a connection's attach on and in any interleaving: the space of its
   own latest successful switch, for the session it is attached to; nothing for a read-only one or for another session.
   */
  lemma ViewedSpaceIsLastSwitched(s: Daemon.State, c: ConnId, init: RelayViewState, run: seq<Daemon.Step>, t: Daemon.State,
                                  session: string)
    requires Daemon.Inv(s) && Daemon.MoveEnabled(s, c, Daemon.InsertView(init))
    requires Daemon.Run(Daemon.Lived(s, c, Daemon.InsertView(init)), run, t) && c in t.view && c != ""
    ensures CurrentSpaceOf(t.view, session, c) ==
      if s.relays[c].session == session && !s.relays[c].readOnly then LastSpace(Daemon.EventsOf(run, c)) else None
    ensures CurrentSpaceOf(t.view, session, "") == None
  {
    var u := Daemon.Lived(s, c, Daemon.InsertView(init));
    Daemon.InsertKeepsInv(s, c, init);
    Daemon.ViewOverRuns(s, c, init, run, t);
    Daemon.HandlesOwnQueue(u, run, t, c);
    Daemon.InvRun(u, run, t);
    assert Daemon.EntryOk(t, c);
  }

  class SpaceOps {
    const router: Router
    var views: map<ConnId, ViewStateEntry>

    constructor (router: Router, views: map<ConnId, ViewStateEntry>)
      ensures this.router == router && this.views == views
    {
      this.router, this.views := router, views;
    }

    /** `repoint_caller_after_close`: at most one command, into the caller's own queue. */
    method Repoint(session: string, conn: ConnId, after: Option<seq<Space>>, alive: set<ConnId>)
      modifies router`queues
      ensures var queues := old(router.queues);
        if Exact(router.control, session, conn) && conn in alive && conn in queues
           && after.Some? && after.value != []
        then ActiveOrFirst(after.value).Some?
             && router.queues == queues[conn := queues[conn] + [SwitchSpace(ActiveOrFirst(after.value).value)]]
        else router.queues == queues
    {
      if !Exact(router.control, session, conn) || after.None? {
        return;
      }
      RepointsToListedSpace(after.value);
      var target := ActiveOrFirst(after.value);
      if target.Some? {
        var _ := router.RouteSwitchSpace(session, conn, target.value, alive);
      }
    }

    /**
     `close_space_impl`. The daemon's answers are given: its spaces before, its answer to the close, its spaces after.
     `asked` tells whether the close went out at all.
     */
    method CloseSpace(session: string, conn: ConnId, space: string, before: Option<seq<Space>>,
                      answer: BackendAck, after: Option<seq<Space>>, alive: set<ConnId>)
      returns (r: CloseResult, asked: bool)
      modifies router`queues
      ensures asked <==> before.Some? && |before.value| > 1
      ensures before.None? ==> r == ListFailed
      ensures before.Some? && |before.value| <= 1 ==> r == Refused
      ensures asked && answer.BackendFailed? ==> r == CloseFailed
      ensures asked && answer.BackendAck? && !answer.ok ==> r == Answer(Ack(false, answer.error, answer.info))
      ensures asked && answer.BackendAck? && answer.ok ==> r == Answer(Ack(true, "", ""))
      ensures forall c | c in old(router.queues) && c != conn :: c in router.queues && router.queues[c] == old(router.queues)[c]
      ensures var queues := old(router.queues);
        if r == Answer(Ack(true, "", "")) && CurrentSpaceOf(views, session, conn) == Some(space)
           && Exact(router.control, session, conn) && conn in alive && conn in queues && after.Some? && after.value != []
        then ActiveOrFirst(after.value).Some?
             && router.queues == queues[conn := queues[conn] + [SwitchSpace(ActiveOrFirst(after.value).value)]]
        else router.queues == queues
    {
      if before.None? {
        return ListFailed, false;
      }
      if WouldCloseLastSpace(|before.value|) {
        return Refused, false;
      }
      if answer.BackendFailed? {
        return CloseFailed, true;
      }
      if !answer.ok {
        return Answer(Ack(answer.ok, answer.error, answer.info)), true;
      }
      if CurrentSpaceOf(views, session, conn) == Some(space) {
        Repoint(session, conn, after, alive);
      }
      return Answer(Ack(true, "", "")), true;
    }
  }

  // ─── Many calls at once ──────────────────────────────────────────────────────

  /** A call still has to list, has listed and passed the guard, or is over. */
  datatype Phase = Asked | Passed | Over

  datatype Call = Call(space: string, phase: Phase)

  datatype Calls = Calls(spaces: set<string>, calls: seq<Call>)

  datatype Step = ListSpaces(i: nat) | CloseNow(i: nat) | Create(id: string)

  predicate Enabled(s: Calls, step: Step) {
    match step
    case ListSpaces(i) => i < |s.calls| && s.calls[i].phase == Asked
    case CloseNow(i) => i < |s.calls| && s.calls[i].phase == Passed
    case Create(_) => true
  }

  function Move(s: Calls, i: nat, phase: Phase): Calls
    requires i < |s.calls|
  {
    s.(calls := s.calls[i := s.calls[i].(phase := phase)])
  }

  /** The daemon closes any space it has; it does not look at how many are left. */
  function Apply(s: Calls, step: Step): Calls
    requires Enabled(s, step)
  {
    match step
    case ListSpaces(i) => Move(s, i, if WouldCloseLastSpace(|s.spaces|) then Over else Passed)
    case CloseNow(i) => Move(s, i, Over).(spaces := s.spaces - {s.calls[i].space})
    case Create(id) => s.(spaces := s.spaces + {id})
  }

  predicate Run(from: Calls, steps: seq<Step>, to: Calls)
    decreases |steps|
  {
    if steps == [] then from == to
    else Enabled(from, steps[0]) && Run(Apply(from, steps[0]), steps[1..], to)
  }

  /** The spaces of the calls that have passed the guard and have not closed yet. */
  function Targets(calls: seq<Call>): set<string> {
    set c | c in calls && c.phase == Passed :: c.space
  }

  predicate OnlyCloses(steps: seq<Step>) {
    forall i | 0 <= i < |steps| :: steps[i].CloseNow?
  }

  lemma CloseTargets(s: Calls, i: nat)
    requires Enabled(s, CloseNow(i))
    ensures var next := Apply(s, CloseNow(i)); next.spaces - Targets(next.calls) == s.spaces - Targets(s.calls)
  {
    var next := Apply(s, CloseNow(i));
    assert s.calls[i] in s.calls;
    forall c | c in s.calls && c.phase == Passed ensures c.space in Targets(next.calls) + {s.calls[i].space} {
      var j :| 0 <= j < |s.calls| && s.calls[j] == c;
      if j != i {
        assert next.calls[j] in next.calls;
      }
    }
    forall c | c in next.calls && c.phase == Passed ensures c.space in Targets(s.calls) {
      var j :| 0 <= j < |next.calls| && next.calls[j] == c;
      assert s.calls[j] in s.calls;
    }
  }

  lemma {:induction false} ClosesKeepRest(s: Calls, steps: seq<Step>, t: Calls)
    requires Run(s, steps, t) && OnlyCloses(steps)
    ensures t.spaces - Targets(t.calls) == s.spaces - Targets(s.calls)
    decreases |steps|
  {
    if steps != [] {
      CloseTargets(s, steps[0].i);
      ClosesKeepRest(Apply(s, steps[0]), steps[1..], t);
    }
  }

  function PassedCount(calls: seq<Call>): nat {
    if calls == [] then 0 else (if calls[0].phase == Passed then 1 else 0) + PassedCount(calls[1..])
  }

  lemma {:induction false} MoveCount(calls: seq<Call>, i: nat, phase: Phase)
    requires i < |calls|
    ensures var after := calls[i := calls[i].(phase := phase)];
      PassedCount(after) + (if calls[i].phase == Passed then 1 else 0) == PassedCount(calls) + (if phase == Passed then 1 else 0)
  {
    var after := calls[i := calls[i].(phase := phase)];
    if i > 0 {
      MoveCount(calls[1..], i - 1, phase);
      assert after[1..] == calls[1..][i - 1 := calls[1..][i - 1].(phase := phase)];
    } else {
      assert after[1..] == calls[1..];
    }
  }

  /** Let every call that has passed the guard close. */
  lemma {:induction false} CloseAll(s: Calls) returns (steps: seq<Step>, t: Calls)
    ensures Run(s, steps, t) && OnlyCloses(steps) && Targets(t.calls) == {}
    decreases PassedCount(s.calls)
  {
    if i: nat :| i < |s.calls| && s.calls[i].phase == Passed {
      var next := Apply(s, CloseNow(i));
      MoveCount(s.calls, i, Over);
      var rest;
      rest, t := CloseAll(next);
      steps := [CloseNow(i)] + rest;
      assert steps[1..] == rest;
    } else {
      steps, t := [], s;
      assert forall c | c in s.calls :: c.phase != Passed;
    }
  }

  ghost predicate CanEmpty(s: Calls) {
    exists steps, t :: Run(s, steps, t) && OnlyCloses(steps) && t.spaces == {}
  }

  /**
   The guard is list-then-close: the calls that have already passed it can take the daemon's last space exactly when
   between them they name every space it has.
   */
  lemma LastSpaceLostIffAllNamed(s: Calls)
    ensures CanEmpty(s) <==> s.spaces <= Targets(s.calls)
  {
    if steps, t :| Run(s, steps, t) && OnlyCloses(steps) && t.spaces == {} {
      ClosesKeepRest(s, steps, t);
      var rest := s.spaces - Targets(s.calls);
      assert rest == {};
      forall x | x in s.spaces ensures x in Targets(s.calls) {
        assert x !in rest;
      }
    }
    if s.spaces <= Targets(s.calls) {
      var steps, t := CloseAll(s);
      ClosesKeepRest(s, steps, t);
      assert s.spaces - Targets(s.calls) == {};
      assert t.spaces == t.spaces - Targets(t.calls);
    }
  }

  /** Two calls for two spaces both pass the guard, and the daemon ends with none. */
  lemma TwoCallsLoseTheLastSpace()
    ensures exists steps, t ::
      Run(Calls({"a", "b"}, [Call("a", Asked), Call("b", Asked)]), steps, t) && t.spaces == {}
  {
    var s0 := Calls({"a", "b"}, [Call("a", Asked), Call("b", Asked)]);
    assert |s0.spaces| == 2;
    var s1 := Calls({"a", "b"}, [Call("a", Passed), Call("b", Asked)]);
    var s2 := Calls({"a", "b"}, [Call("a", Passed), Call("b", Passed)]);
    assert Apply(s0, ListSpaces(0)) == s1 && Apply(s1, ListSpaces(1)) == s2;
    assert s2.calls[0] in s2.calls && s2.calls[1] in s2.calls;
    LastSpaceLostIffAllNamed(s2);
    var rest, t :| Run(s2, rest, t) && OnlyCloses(rest) && t.spaces == {};
    var late := [ListSpaces(1)] + rest;
    assert late[1..] == rest;
    assert Run(s1, late, t);
    var steps := [ListSpaces(0)] + late;
    assert steps[1..] == late;
    assert Run(s0, steps, t);
  }

  // ─── One call at a time ──────────────────────────────────────────────────────

  /** No call lists while another stands between its listing and its close. */
  predicate OneAtATime(s: Calls, steps: seq<Step>)
    decreases |steps|
  {
    steps == [] ||
    (Enabled(s, steps[0]) && (steps[0].ListSpaces? ==> PassedCount(s.calls) == 0) && OneAtATime(Apply(s, steps[0]), steps[1..]))
  }

  /** At most one call is past the guard, and while one is, more than one space is there. */
  predicate Guarded(s: Calls) {
    PassedCount(s.calls) <= 1 && |s.spaces| > PassedCount(s.calls)
  }

  lemma GuardedStep(s: Calls, step: Step)
    requires Guarded(s) && Enabled(s, step) && (step.ListSpaces? ==> PassedCount(s.calls) == 0)
    ensures Guarded(Apply(s, step))
  {
    match step {
      case ListSpaces(i) =>
        MoveCount(s.calls, i, if WouldCloseLastSpace(|s.spaces|) then Over else Passed);
      case CloseNow(i) =>
        MoveCount(s.calls, i, Over);
        var gone := s.calls[i].space;
        if gone in s.spaces {
          assert s.spaces == (s.spaces - {gone}) + {gone};
        } else {
          assert s.spaces - {gone} == s.spaces;
        }
      case Create(id) =>
        if id in s.spaces {
          assert s.spaces + {id} == s.spaces;
        }
    }
  }

  /** Without overlapping calls the last space is never closed. */
  lemma {:induction false} OneAtATimeKeepsASpace(s: Calls, steps: seq<Step>, t: Calls)
    requires Run(s, steps, t) && OneAtATime(s, steps) && Guarded(s)
    ensures t.spaces != {}
    decreases |steps|
  {
    if steps != [] {
      GuardedStep(s, steps[0]);
      OneAtATimeKeepsASpace(Apply(s, steps[0]), steps[1..], t);
    }
  }
}
