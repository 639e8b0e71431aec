/** What a query is sent: the layout of its two Logs, or the error of the half that is no list; and never after a timeout. */
module RelayReplies {
  import opened Common
  import opened ZellijLayout
  import opened LayoutReply
  import opened RelayQuery
  import opened RelayInvariants
  import opened RelayHistory
  import opened RelayRuns

  // ─── The answer made from two Logs ───────────────────────────────────────────

  /** Two texts that decode as a tab list and a pane list. */
  predicate Decodes(tabs: Log, panes: Log, ts: seq<TabInfo>, ps: seq<PaneEntry>) {
    !tabs.text.isEmpty && !panes.text.isEmpty && tabs.text.asTabs == Some(ts) && panes.text.asPanes == Some(ps)
  }

  /** The first Log is read as tabs and the second as panes, and each tab gets the panes of its id. */
  lemma AnswerIsLayout(tabs: Log, panes: Log, ts: seq<TabInfo>, ps: seq<PaneEntry>)
    requires Decodes(tabs, panes, ts, ps)
    ensures Answer(tabs, panes) == Success(Grouped(ts, ps))
    ensures NoSharedPanes(ts, ps) ==> BuildLayout(Grouped(ts, ps), None) == RawReply(ts, ps)
  {
    if NoSharedPanes(ts, ps) {
      LayoutRefinesFilter(ts, ps, None);
    }
  }

  /** Which half gives which error: an empty text first, then tabs that are no tab list, then panes that are no pane list. */
  lemma AnswerErrorsIff(tabs: Log, panes: Log)
    ensures var a := Answer(tabs, panes);
      && (a == Failure(EmptyTabs) <==> tabs.text.isEmpty)
      && (a == Failure(EmptyPanes) <==> !tabs.text.isEmpty && panes.text.isEmpty)
      && (a == Failure(BadTabsJson) <==> !tabs.text.isEmpty && !panes.text.isEmpty && tabs.text.asTabs.None?)
      && (a == Failure(BadPanesJson) <==>
            !tabs.text.isEmpty && !panes.text.isEmpty && tabs.text.asTabs.Some? && panes.text.asPanes.None?)
      && (a.Success? <==> exists ts, ps :: Decodes(tabs, panes, ts, ps))
  {
    if Answer(tabs, panes).Success? {
      assert Decodes(tabs, panes, tabs.text.asTabs.value, panes.text.asPanes.value);
    }
  }

  // ─── Replies over runs ───────────────────────────────────────────────────────

  function ReplyOf(d: Disposal): seq<Sent> {
    if d.fate.Fulfilled? then [Sent(d.query, Answer(d.fate.tabs, d.fate.panes))] else []
  }

  /** The replies that the endings call for, in order. */
  function RepliesOf(disposed: seq<Disposal>): seq<Sent> {
    if disposed == [] then []
    else RepliesOf(disposed[..|disposed| - 1]) + ReplyOf(disposed[|disposed| - 1])
  }

  lemma {:induction false} RepliesAppend(a: seq<Disposal>, b: seq<Disposal>)
    ensures RepliesOf(a + b) == RepliesOf(a) + RepliesOf(b)
  {
    if b == [] {
      assert a + b == a;
    } else {
      RepliesAppend(a, b[..|b| - 1]);
      assert (a + b)[..|a + b| - 1] == a + b[..|b| - 1];
    }
  }

  lemma {:induction false} UnfulfilledSendNothing(disposed: seq<Disposal>)
    requires NoneFulfilled(disposed)
    ensures RepliesOf(disposed) == []
  {
    if disposed != [] {
      assert disposed[|disposed| - 1] in disposed;
      UnfulfilledSendNothing(disposed[..|disposed| - 1]);
    }
  }

  ghost predicate RepliesMatch(l: Loop) {
    l.replies == RepliesOf(l.disposed)
  }

  lemma MatchWithoutReply(l: Loop, m: Loop, more: seq<Disposal>)
    requires RepliesMatch(l) && m.replies == l.replies && m.disposed == l.disposed + more && NoneFulfilled(more)
    ensures RepliesMatch(m)
  {
    RepliesAppend(l.disposed, more);
    UnfulfilledSendNothing(more);
  }

  lemma ReplyKeepsMatch(l: Loop, log: Log, closed: set<nat>)
    requires RepliesMatch(l)
    ensures RepliesMatch(ReplyStep(l, log, closed))
  {
    var c := Captured(l.slot, log, closed, |l.seen|);
    RepliesAppend(l.disposed, c.disposed);
    if Answers(l.slot, log, closed) != [] {
      assert c.disposed[..0] == [];
    } else {
      UnfulfilledSendNothing(c.disposed);
    }
  }

  lemma MatchKeepsMatch(l: Loop, msg: Msg, closed: set<nat>, sent: bool)
    requires RepliesMatch(l)
    ensures RepliesMatch(MatchStep(l, msg, closed, sent))
  {
    var m := l.(matched := l.matched + [msg]);
    if msg.Reply? {
      ReplyKeepsMatch(m, msg.log, closed);
    } else if !msg.Other? {
      MatchWithoutReply(m, Left(m), Emptied(m.slot, DroppedAtExit).disposed);
    }
  }

  lemma DrainKeepsMatch(l: Loop, queue: seq<nat>, closed: set<nat>)
    requires RepliesMatch(l)
    ensures RepliesMatch(DrainStep(l, queue, closed))
  {
    DrainedFulfilsNone(l.slot, queue, closed);
    MatchWithoutReply(l, DrainStep(l, queue, closed), Drained(l.slot, queue, closed).disposed);
  }

  lemma ReaderKeepsMatch(s: State, sent: bool)
    requires RepliesMatch(s.loop) && ReaderEnabled(s)
    ensures RepliesMatch(ReaderStep(s, sent).loop)
  {
    var l := s.loop;
    match l.phase
    case BeforeRecv => DrainKeepsMatch(l, s.queue, s.closed);
    case BeforeMatch(msg) =>
      var m := DrainStep(l, s.queue, s.closed);
      DrainKeepsMatch(l, s.queue, s.closed);
      MatchWithoutReply(m, Left(m), Emptied(m.slot, DroppedAtExit).disposed);
    case Matching(msg) => MatchKeepsMatch(l, msg, s.closed, sent);
    case Leaving => MatchWithoutReply(l, ReaderStep(s, sent).loop, Dropped(s.queue));
    case AtTop => MatchWithoutReply(l, Left(l), Emptied(l.slot, DroppedAtExit).disposed);
    case InRecv => MatchWithoutReply(l, Left(l), Emptied(l.slot, DroppedAtExit).disposed);
    case AfterRecv(_) => MatchWithoutReply(l, Left(l), Emptied(l.slot, DroppedAtExit).disposed);
  }

  lemma {:induction false} MatchRun(s: State, run: seq<Step>, t: State)
    requires RepliesMatch(s.loop) && Run(s, run, t)
    ensures RepliesMatch(t.loop)
    decreases |run|
  {
    if run != [] {
      match run[0] {
        case Reader(sent) => ReaderKeepsMatch(s, sent);
        case HandOff => MatchWithoutReply(s.loop, s.loop.(disposed := s.loop.disposed + [Disposal(s.next, Returned)]),
                                          [Disposal(s.next, Returned)]);
        case _ =>
      }
      MatchRun(Apply(s, run[0]), run[1..], t);
    }
  }

  lemma {:induction false} RepliesHave(disposed: seq<Disposal>, r: Sent)
    ensures r in RepliesOf(disposed) <==> exists d :: d in disposed && d.fate.Fulfilled? && ReplyOf(d) == [r]
  {
    if disposed != [] {
      var front, last := disposed[..|disposed| - 1], disposed[|disposed| - 1];
      RepliesHave(front, r);
      assert disposed == front + [last];
    }
  }

  /** `q` was answered with a reply made from these two Logs, which it was shown one after the other. */
  ghost predicate MadeFrom(l: Loop, q: nat, tabs: Log, panes: Log) {
    exists d :: d in l.disposed && d.query == q && d.fate.Fulfilled? && d.fate.tabs == tabs && d.fate.panes == panes
                && PairsConsecutive(l.seen, d)
  }

  /**
   Over every run, a query was sent an answer if and only if it ended as fulfilled, and the answer is the one made from
   the two Logs it ended with.
   */
  lemma SentIffFulfilled(run: seq<Step>, t: State, r: Sent)
    requires Run(INITIAL, run, t)
    ensures r in t.loop.replies <==>
            exists tabs, panes :: MadeFrom(t.loop, r.query, tabs, panes) && r.snapshot == Answer(tabs, panes)
  {
    EveryRunKeeps(run, t);
    MatchRun(INITIAL, run, t);
    RepliesHave(t.loop.disposed, r);
    if r in t.loop.replies {
      var d :| d in t.loop.disposed && d.fate.Fulfilled? && ReplyOf(d) == [r];
      assert [Sent(d.query, Answer(d.fate.tabs, d.fate.panes))][0] == r;
      assert MadeFrom(t.loop, r.query, d.fate.tabs, d.fate.panes);
    }
    if tabs, panes :| MadeFrom(t.loop, r.query, tabs, panes) && r.snapshot == Answer(tabs, panes) {
      var d :| d in t.loop.disposed && d.query == r.query && d.fate.Fulfilled? && d.fate.tabs == tabs && d.fate.panes == panes;
      assert ReplyOf(d) == [r];
    }
  }

  /** The lists behind a snapshot sent to `q`: those of two Logs it was shown. */
  ghost predicate SnapshotOf(l: Loop, q: nat, ts: seq<TabInfo>, ps: seq<PaneEntry>) {
    exists tabs, panes :: MadeFrom(l, q, tabs, panes) && Decodes(tabs, panes, ts, ps)
  }

  /** Over every run a snapshot sent to a query groups the panes of its second Log under the tabs of its first. */
  lemma SentSnapshotIsLayout(run: seq<Step>, t: State, q: nat, snapshot: seq<TabSnapshot>)
    requires Run(INITIAL, run, t) && Sent(q, Success(snapshot)) in t.loop.replies
    ensures exists ts, ps :: SnapshotOf(t.loop, q, ts, ps) && snapshot == Grouped(ts, ps)
  {
    SentIffFulfilled(run, t, Sent(q, Success(snapshot)));
    var tabs, panes :| MadeFrom(t.loop, q, tabs, panes) && Success(snapshot) == Answer(tabs, panes);
    AnswerErrorsIff(tabs, panes);
    var ts, ps :| Decodes(tabs, panes, ts, ps);
    AnswerIsLayout(tabs, panes, ts, ps);
    assert SnapshotOf(t.loop, q, ts, ps);
  }

  // ─── After a timeout ─────────────────────────────────────────────────────────

  lemma ReplySentToOpen(s: State, step: Step, r: Sent)
    requires Enabled(s, step) && r in Apply(s, step).loop.replies && r !in s.loop.replies
    ensures r.query !in s.closed
  {
    assert step.Reader? && s.loop.phase.Matching? && s.loop.phase.msg.Reply?;
  }

  lemma RepliesAndTimeOutsStay(s: State, step: Step)
    requires Enabled(s, step)
    ensures s.closed <= Apply(s, step).closed && s.loop.replies <= Apply(s, step).loop.replies
  {
  }

  /** A query whose receiver is gone is never sent an answer afterwards. */
  lemma {:induction false} TimedOutIsNeverAnswered(s: State, run: seq<Step>, t: State, r: Sent)
    requires Run(s, run, t) && r.query in s.closed && r in t.loop.replies
    ensures r in s.loop.replies
    decreases |run|
  {
    if run != [] {
      var u := Apply(s, run[0]);
      RepliesAndTimeOutsStay(s, run[0]);
      TimedOutIsNeverAnswered(u, run[1..], t, r);
      if r !in s.loop.replies {
        ReplySentToOpen(s, run[0], r);
      }
    }
  }

  /** A drain retires the held query if its receiver is gone: what it leaves armed is open, or was handed off just now. */
  lemma DrainRetires(slot: Option<InFlight>, queue: seq<nat>, closed: set<nat>)
    ensures var after := Drained(slot, queue, closed).slot;
      after.Some? && after.value.query in closed ==> queue != [] && after.value.query == queue[|queue| - 1]
    ensures slot.Some? && slot.value.query in closed ==>
              Disposal(slot.value.query, Retired) in Drained(slot, queue, closed).disposed
  {
    ArmedAllKeepsLast(RetiredIfClosed(slot, closed).slot, queue);
    if slot.Some? && slot.value.query in closed {
      assert RetiredIfClosed(slot, closed).disposed == [Disposal(slot.value.query, Retired)];
    }
  }
}
