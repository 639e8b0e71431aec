/** What becomes of every Log that was matched: it serves one reply, or is the current tabs half, or is dropped. */
module RelayLogs {
  import opened Common
  import opened RelayQuery
  import opened RelayInvariants
  import opened RelayHistory
  import opened RelayRuns

  /** The reply `d` was made from the `k`-th Log. */
  predicate Uses(d: Disposal, k: nat) {
    d.fate.Fulfilled? && (k == d.fate.at || k + 1 == d.fate.at)
  }

  predicate IsTabsHalf(l: Loop, k: nat) {
    l.slot.Some? && l.slot.value.tabs.Some? && k + 1 == |l.seen|
  }

  /** Nobody held the slot, or the query that held it ended without a reply. */
  ghost predicate IsDropped(l: Loop, k: nat)
    requires k < |l.seen|
  {
    l.seen[k].holder.None? || exists d :: d in l.disposed && d.query == l.seen[k].holder.value && !d.fate.Fulfilled?
  }

  ghost predicate EndsUnanswered(disposed: seq<Disposal>, q: nat) {
    exists d :: d in disposed && d.query == q && !d.fate.Fulfilled?
  }

  /** The Log that `q` was shown is still its tabs half, or `q` ended, and if by a reply then by one made from this Log. */
  ghost predicate AccountedFor(l: Loop, k: nat, q: nat) {
    || (IsTabsHalf(l, k) && l.slot.value.query == q)
    || exists d :: d in l.disposed && d.query == q && (d.fate.Fulfilled? ==> Uses(d, k))
  }

  ghost predicate AllAccounted(l: Loop) {
    forall k: nat, q | k < |l.seen| && l.seen[k].holder == Some(q) :: AccountedFor(l, k, q)
  }

  // ─── Steps ───────────────────────────────────────────────────────────────────

  lemma EndedStaysAccounted(l: Loop, m: Loop, k: nat, q: nat)
    requires AccountedFor(l, k, q) && l.disposed <= m.disposed
    requires IsTabsHalf(l, k) && l.slot.value.query == q ==> AccountedFor(m, k, q)
    ensures AccountedFor(m, k, q)
  {
    if d :| d in l.disposed && d.query == q && (d.fate.Fulfilled? ==> Uses(d, k)) {
      assert d in m.disposed;
    }
  }

  /** Without a new Log: a tabs half that is given up belongs to a query that ended unanswered. */
  lemma AccountedWithoutLog(l: Loop, m: Loop)
    requires AllAccounted(l) && m.seen == l.seen && l.disposed <= m.disposed
    requires m.slot == l.slot || (l.slot.Some? ==> EndsUnanswered(m.disposed, l.slot.value.query))
    ensures AllAccounted(m)
  {
    forall k: nat, q | k < |m.seen| && m.seen[k].holder == Some(q) ensures AccountedFor(m, k, q) {
      assert AccountedFor(l, k, q);
      EndedStaysAccounted(l, m, k, q);
    }
  }

  lemma UnansweredAppend(a: seq<Disposal>, b: seq<Disposal>, q: nat)
    requires EndsUnanswered(a, q) || EndsUnanswered(b, q)
    ensures EndsUnanswered(a + b, q)
  {
    var d :| (d in a || d in b) && d.query == q && !d.fate.Fulfilled?;
    assert d in a + b;
  }

  lemma EmptiedEnds(slot: Option<InFlight>, fate: Fate)
    requires slot.Some? && !fate.Fulfilled?
    ensures EndsUnanswered(Emptied(slot, fate).disposed, slot.value.query)
  {
    assert Disposal(slot.value.query, fate) in Emptied(slot, fate).disposed;
  }

  /** Arming a non-empty queue ends what was held. */
  lemma {:induction false} ArmingEnds(slot: Option<InFlight>, queue: seq<nat>)
    requires slot.Some? && queue != []
    ensures EndsUnanswered(ArmedAll(slot, queue).disposed, slot.value.query)
  {
    var front := queue[..|queue| - 1];
    var before := ArmedAll(slot, front);
    if front == [] {
      assert before == SlotChange(slot, []);
      EmptiedEnds(slot, Replaced);
    } else {
      ArmingEnds(slot, front);
    }
    UnansweredAppend(before.disposed, Armed(before.slot, queue[|queue| - 1]).disposed, slot.value.query);
  }

  lemma DrainEnds(slot: Option<InFlight>, queue: seq<nat>, closed: set<nat>)
    requires slot.Some? && Drained(slot, queue, closed).slot != slot
    ensures EndsUnanswered(Drained(slot, queue, closed).disposed, slot.value.query)
  {
    var kept := RetiredIfClosed(slot, closed);
    if kept.slot.None? {
      EmptiedEnds(slot, Retired);
    } else {
      ArmingEnds(slot, queue);
    }
    UnansweredAppend(kept.disposed, ArmedAll(kept.slot, queue).disposed, slot.value.query);
  }

  lemma AccountedDrain(l: Loop, queue: seq<nat>, closed: set<nat>, phase: Phase)
    requires AllAccounted(l)
    ensures AllAccounted(DrainStep(l, queue, closed).(phase := phase))
  {
    var m := DrainStep(l, queue, closed).(phase := phase);
    if m.slot != l.slot && l.slot.Some? {
      DrainEnds(l.slot, queue, closed);
      UnansweredAppend(l.disposed, Drained(l.slot, queue, closed).disposed, l.slot.value.query);
    }
    AccountedWithoutLog(l, m);
  }

  lemma AccountedToMatch(l: Loop, queue: seq<nat>, closed: set<nat>, msg: Msg)
    requires AllAccounted(l)
    ensures AllAccounted(DrainToMatch(l, queue, closed, msg))
  {
    AccountedDrain(l, queue, closed, Matching(msg));
    if IsExit(msg) {
      var m := DrainStep(l, queue, closed).(phase := Matching(msg));
      AccountedLeft(m);
      AccountedWithoutLog(Left(m), DrainToMatch(l, queue, closed, msg));
    }
  }

  lemma AccountedLeft(l: Loop)
    requires AllAccounted(l)
    ensures AllAccounted(Left(l))
  {
    if l.slot.Some? {
      EmptiedEnds(l.slot, DroppedAtExit);
      UnansweredAppend(l.disposed, Emptied(l.slot, DroppedAtExit).disposed, l.slot.value.query);
    }
    AccountedWithoutLog(l, Left(l));
  }

  /** The Log in hand itself. */
  lemma NewLogAccounted(l: Loop, log: Log, closed: set<nat>)
    requires l.slot.Some?
    ensures AccountedFor(ReplyStep(l, log, closed), |l.seen|, l.slot.value.query)
  {
    var m := ReplyStep(l, log, closed);
    var c := Captured(l.slot, log, closed, |l.seen|);
    if c.disposed != [] {
      assert c.disposed[0] in m.disposed;
    }
  }

  /** A tabs half in the slot: completed by the Log in hand, or given up with its query. */
  lemma OldHalfAccounted(l: Loop, log: Log, closed: set<nat>, k: nat)
    requires IsTabsHalf(l, k)
    ensures AccountedFor(ReplyStep(l, log, closed), k, l.slot.value.query)
  {
    var m := ReplyStep(l, log, closed);
    var c := Captured(l.slot, log, closed, |l.seen|);
    assert c.disposed[0] in m.disposed;
  }

  lemma AccountedReply(l: Loop, log: Log, closed: set<nat>)
    requires AllAccounted(l)
    ensures AllAccounted(ReplyStep(l, log, closed))
  {
    var m := ReplyStep(l, log, closed);
    forall k: nat, q | k < |m.seen| && m.seen[k].holder == Some(q) ensures AccountedFor(m, k, q) {
      if k == |l.seen| {
        NewLogAccounted(l, log, closed);
      } else {
        assert AccountedFor(l, k, q);
        if IsTabsHalf(l, k) {
          OldHalfAccounted(l, log, closed, k);
        }
        EndedStaysAccounted(l, m, k, q);
      }
    }
  }

  lemma AccountedMatch(l: Loop, msg: Msg, closed: set<nat>, sent: bool)
    requires AllAccounted(l)
    ensures AllAccounted(MatchStep(l, msg, closed, sent))
  {
    var m := l.(matched := l.matched + [msg]);
    AccountedWithoutLog(l, m);
    if msg.Reply? {
      AccountedReply(m, msg.log, closed);
    } else if msg.Other? {
      AccountedWithoutLog(m, m.(phase := AtTop));
    } else {
      AccountedForward(m, msg, sent);
    }
  }

  lemma AccountedForward(m: Loop, msg: Msg, sent: bool)
    requires AllAccounted(m) && FrameOf(msg).Some?
    ensures AllAccounted(ForwardStep(m, msg, sent))
  {
    var out := if sent then m.(frames := m.frames + [FrameOf(msg).value]) else m;
    AccountedWithoutLog(m, out);
    if IsExit(msg) || !sent {
      AccountedLeft(out);
    } else {
      AccountedWithoutLog(out, ForwardStep(m, msg, sent));
    }
  }

  lemma AccountedReader(s: State, sent: bool)
    requires AllAccounted(s.loop) && ReaderEnabled(s)
    ensures AllAccounted(ReaderStep(s, sent).loop)
  {
    var l := s.loop;
    match l.phase
    case BeforeRecv => AccountedDrain(l, s.queue, s.closed, InRecv);
    case BeforeMatch(msg) => AccountedToMatch(l, s.queue, s.closed, msg);
    case Matching(msg) => AccountedMatch(l, msg, s.closed, sent);
    case Leaving => AccountedWithoutLog(l, ReaderStep(s, sent).loop);
    case AtTop => AccountedPlain(s, sent);
    case InRecv => AccountedPlain(s, sent);
    case AfterRecv(_) => AccountedPlain(s, sent);
  }

  lemma AccountedPlain(s: State, sent: bool)
    requires AllAccounted(s.loop) && ReaderEnabled(s)
    requires s.loop.phase.AtTop? || s.loop.phase.InRecv? || s.loop.phase.AfterRecv?
    ensures AllAccounted(ReaderStep(s, sent).loop)
  {
    var m := ReaderStep(s, sent).loop;
    if m.phase.Leaving? {
      AccountedLeft(s.loop);
    } else {
      AccountedWithoutLog(s.loop, m);
    }
  }

  lemma {:induction false} AccountedRun(s: State, run: seq<Step>, t: State)
    requires AllAccounted(s.loop) && Run(s, run, t)
    ensures AllAccounted(t.loop)
    decreases |run|
  {
    if run != [] {
      var u := Apply(s, run[0]);
      if run[0].Reader? {
        AccountedReader(s, run[0].sent);
      } else {
        AccountedWithoutLog(s.loop, u.loop);
      }
      AccountedRun(u, run[1..], t);
    }
  }

  // ─── One fate for every Log ──────────────────────────────────────────────────

  lemma EndedTwice(disposed: seq<Disposal>, i: nat, j: nat, q: nat)
    requires i < j < |disposed| && disposed[i].query == disposed[j].query == q
    ensures Ended(disposed, q) >= 2
  {
    var a, b := disposed[..j], disposed[j..];
    assert disposed == a + b && disposed[i] in a && disposed[j] in b;
    EndedAppend(a, b, q);
    EndedIsMember(a, q);
    EndedIsMember(b, q);
  }

  /** A query that ended did so once, and is not in the slot. */
  lemma OneEnding(s: State, i: nat, j: nat)
    requires OneOwner(s) && i < |s.loop.disposed| && j < |s.loop.disposed|
    requires s.loop.disposed[i].query == s.loop.disposed[j].query
    ensures i == j && Holder(s.loop.slot) != Some(s.loop.disposed[i].query)
  {
    var disposed := s.loop.disposed;
    var q := disposed[i].query;
    assert Owners(s, q) <= 1;
    assert disposed[i] in disposed;
    EndedIsMember(disposed, q);
    if i < j {
      EndedTwice(disposed, i, j, q);
    } else if j < i {
      EndedTwice(disposed, j, i, q);
    }
  }

  /**
   Over every run each Log that was matched has exactly one of three fates: it serves one reply and no other, it is the
   tabs half now held, or it is dropped, which means that nobody held the slot or that its holder ended unanswered.
   */
  lemma EveryLogHasOneFate(run: seq<Step>, t: State, k: nat)
    requires Run(INITIAL, run, t) && k < |t.loop.seen|
    ensures var l := t.loop;
      && ((exists d :: d in l.disposed && Uses(d, k)) || IsTabsHalf(l, k) || IsDropped(l, k))
      && (forall i, j | 0 <= i < |l.disposed| && 0 <= j < |l.disposed| && Uses(l.disposed[i], k) && Uses(l.disposed[j], k) :: i == j)
      && (forall d | d in l.disposed && Uses(d, k) :: !IsTabsHalf(l, k) && !IsDropped(l, k))
      && !(IsTabsHalf(l, k) && IsDropped(l, k))
  {
    var l := t.loop;
    EveryRunKeeps(run, t);
    AccountedRun(INITIAL, run, t);
    forall i, j | 0 <= i < |l.disposed| && 0 <= j < |l.disposed| && Uses(l.disposed[i], k) && Uses(l.disposed[j], k)
      ensures i == j
    {
      UserHolds(l, i, k);
      UserHolds(l, j, k);
      OneEnding(t, i, j);
    }
    forall d | d in l.disposed && Uses(d, k) ensures !IsTabsHalf(l, k) && !IsDropped(l, k) {
      var i :| 0 <= i < |l.disposed| && l.disposed[i] == d;
      UserHolds(l, i, k);
      UsedIsNeither(t, i, k);
    }
    if IsTabsHalf(l, k) && IsDropped(l, k) {
      HalfIsNotDropped(t, k);
    }
    if l.seen[k].holder.Some? {
      assert AccountedFor(l, k, l.seen[k].holder.value);
    }
  }

  lemma UserHolds(l: Loop, i: nat, k: nat)
    requires Paired(l) && i < |l.disposed| && Uses(l.disposed[i], k) && k < |l.seen|
    ensures l.seen[k].holder == Some(l.disposed[i].query)
  {
    assert PairsConsecutive(l.seen, l.disposed[i]);
  }

  lemma UsedIsNeither(s: State, i: nat, k: nat)
    requires OneOwner(s) && Paired(s.loop) && k < |s.loop.seen|
    requires i < |s.loop.disposed| && Uses(s.loop.disposed[i], k)
    ensures !IsTabsHalf(s.loop, k) && !IsDropped(s.loop, k)
  {
    var l := s.loop;
    UserHolds(l, i, k);
    OneEnding(s, i, i);
    if d :| d in l.disposed && d.query == l.seen[k].holder.value && !d.fate.Fulfilled? {
      var j :| 0 <= j < |l.disposed| && l.disposed[j] == d;
      OneEnding(s, i, j);
    }
  }

  lemma HalfIsNotDropped(s: State, k: nat)
    requires OneOwner(s) && Paired(s.loop) && k < |s.loop.seen| && IsTabsHalf(s.loop, k)
    ensures !IsDropped(s.loop, k)
  {
    var l := s.loop;
    assert l.seen[k].holder == Some(l.slot.value.query);
    if d :| d in l.disposed && d.query == l.slot.value.query && !d.fate.Fulfilled? {
      var j :| 0 <= j < |l.disposed| && l.disposed[j] == d;
      OneEnding(s, j, j);
    }
  }
}
