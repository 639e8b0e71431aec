/**
 What the histories of the relay say about every run: fulfilled replies pair consecutive Logs, and outbound frames are
 the image of the messages received, whatever queries and Logs come between.
 */
module RelayHistory {
  import opened Common
  import opened RelayQuery

  // ─── Pairing over history ────────────────────────────────────────────────────

  /** A tabs half in the slot is the latest Log of all, captured by the query that still holds the slot. */
  ghost predicate TabsHalfIsLatest(l: Loop) {
    l.slot.Some? && l.slot.value.tabs.Some? ==>
      l.seen != [] && l.seen[|l.seen| - 1] == Seen(l.slot.value.tabs.value, Holder(l.slot))
  }

  /** A fulfilled reply uses two consecutive Logs, both matched while that query held the slot. */
  ghost predicate PairsConsecutive(seen: seq<Seen>, d: Disposal) {
    d.fate.Fulfilled? ==>
      && 0 < d.fate.at < |seen|
      && seen[d.fate.at - 1] == Seen(d.fate.tabs, Some(d.query))
      && seen[d.fate.at] == Seen(d.fate.panes, Some(d.query))
  }

  /** Position of the last Log used by a reply so far (-1: none). */
  function LastUsed(disposed: seq<Disposal>): int {
    if disposed == [] then -1
    else
      var last := disposed[|disposed| - 1];
      if last.fate.Fulfilled? then last.fate.at else LastUsed(disposed[..|disposed| - 1])
  }

  /** Replies use their Logs in order and never share one. */
  ghost predicate PairsDisjoint(disposed: seq<Disposal>) {
    forall i | 0 <= i < |disposed| && disposed[i].fate.Fulfilled? :: LastUsed(disposed[..i]) + 1 < disposed[i].fate.at
  }

  ghost predicate Paired(l: Loop) {
    && TabsHalfIsLatest(l)
    && (forall d | d in l.disposed :: PairsConsecutive(l.seen, d))
    && PairsDisjoint(l.disposed)
    && LastUsed(l.disposed) < |l.seen|
    && (l.slot.Some? && l.slot.value.tabs.Some? ==> LastUsed(l.disposed) + 1 < |l.seen|)
  }

  ghost predicate NoneFulfilled(disposed: seq<Disposal>) {
    forall d | d in disposed :: !d.fate.Fulfilled?
  }

  lemma {:induction false} OthersUseNoLog(a: seq<Disposal>, b: seq<Disposal>)
    requires PairsDisjoint(a) && NoneFulfilled(b)
    ensures PairsDisjoint(a + b) && LastUsed(a + b) == LastUsed(a)
  {
    if b == [] {
      assert a + b == a;
    } else {
      var front, last := b[..|b| - 1], b[|b| - 1];
      OthersUseNoLog(a, front);
      assert a + b == (a + front) + [last];
      assert last in b;
      forall i | 0 <= i < |a + b| && (a + b)[i].fate.Fulfilled?
        ensures LastUsed((a + b)[..i]) + 1 < (a + b)[i].fate.at
      {
        assert i < |a + front| && (a + b)[..i] == (a + front)[..i];
      }
      assert (a + b)[..|a + b| - 1] == a + front;
    }
  }

  lemma {:induction false} ArmedAllFulfilsNone(slot: Option<InFlight>, queue: seq<nat>)
    ensures NoneFulfilled(ArmedAll(slot, queue).disposed)
    ensures var c := ArmedAll(slot, queue).slot; c == slot || (c.Some? && c.value.tabs.None?)
  {
    if queue != [] {
      ArmedAllFulfilsNone(slot, queue[..|queue| - 1]);
    }
  }

  lemma DrainedFulfilsNone(slot: Option<InFlight>, queue: seq<nat>, closed: set<nat>)
    ensures NoneFulfilled(Drained(slot, queue, closed).disposed)
    ensures var c := Drained(slot, queue, closed).slot; c == slot || c.None? || c.value.tabs.None?
  {
    ArmedAllFulfilsNone(RetiredIfClosed(slot, closed).slot, queue);
  }

  /** Adding endings other than `Fulfilled`, and capturing nothing, keeps the pairing. */
  lemma PairedWithoutCapture(l: Loop, m: Loop, more: seq<Disposal>)
    requires Paired(l) && m.seen == l.seen && m.disposed == l.disposed + more && NoneFulfilled(more)
    requires m.slot == l.slot || m.slot.None? || m.slot.value.tabs.None?
    ensures Paired(m)
  {
    OthersUseNoLog(l.disposed, more);
  }

  lemma PairedDrain(l: Loop, queue: seq<nat>, closed: set<nat>)
    requires Paired(l)
    ensures Paired(DrainStep(l, queue, closed))
  {
    DrainedFulfilsNone(l.slot, queue, closed);
    PairedWithoutCapture(l, DrainStep(l, queue, closed), Drained(l.slot, queue, closed).disposed);
  }

  lemma PairedToMatch(l: Loop, queue: seq<nat>, closed: set<nat>, msg: Msg)
    requires Paired(l)
    ensures Paired(DrainToMatch(l, queue, closed, msg))
  {
    var m := DrainStep(l, queue, closed);
    PairedDrain(l, queue, closed);
    if IsExit(msg) {
      PairedWithoutCapture(m, DrainToMatch(l, queue, closed, msg), Emptied(m.slot, DroppedAtExit).disposed);
    }
  }

  lemma PairedLeft(l: Loop)
    requires Paired(l)
    ensures Paired(Left(l))
  {
    PairedWithoutCapture(l, Left(l), Emptied(l.slot, DroppedAtExit).disposed);
  }

  lemma PairedReply(l: Loop, log: Log, closed: set<nat>)
    requires Paired(l)
    ensures Paired(ReplyStep(l, log, closed))
  {
    var m := ReplyStep(l, log, closed);
    var c := Captured(l.slot, log, closed, |l.seen|);
    if c.disposed != [] && c.disposed[0].fate.Fulfilled? {
      FulfilsFromLastTwo(l, log);
      PairedFulfilled(l, m, c.disposed[0], Seen(log, Holder(l.slot)));
    } else {
      PairedUnfulfilled(l, m, c.disposed, Seen(log, Holder(l.slot)));
    }
  }

  lemma FulfilsFromLastTwo(l: Loop, log: Log)
    requires Paired(l) && l.slot.Some? && l.slot.value.tabs.Some?
    ensures var x, q := Seen(log, Holder(l.slot)), l.slot.value;
      PairsConsecutive(l.seen + [x], Disposal(q.query, Fulfilled(q.tabs.value, log, |l.seen|)))
  {
  }

  /** One more Log that fulfils nothing: it is dropped, or becomes the tabs half. */
  lemma PairedUnfulfilled(l: Loop, m: Loop, more: seq<Disposal>, x: Seen)
    requires Paired(l) && m.seen == l.seen + [x] && m.disposed == l.disposed + more && NoneFulfilled(more)
    requires m.slot.Some? && m.slot.value.tabs.Some? ==> x == Seen(m.slot.value.tabs.value, Holder(m.slot))
    ensures Paired(m)
  {
    StillConsecutive(l, m.seen);
    OthersUseNoLog(l.disposed, more);
  }

  /** One more Log that completes a reply. */
  lemma PairedFulfilled(l: Loop, m: Loop, d: Disposal, x: Seen)
    requires Paired(l) && m.seen == l.seen + [x] && m.disposed == l.disposed + [d] && m.slot.None?
    requires d.fate.Fulfilled? && PairsConsecutive(m.seen, d) && LastUsed(l.disposed) + 1 < d.fate.at
    ensures Paired(m)
  {
    StillConsecutive(l, m.seen);
    OneMoreUse(l.disposed, d);
  }

  lemma StillConsecutive(l: Loop, seen: seq<Seen>)
    requires Paired(l) && l.seen <= seen
    ensures forall d | d in l.disposed :: PairsConsecutive(seen, d)
  {
    forall d | d in l.disposed
      ensures PairsConsecutive(seen, d)
    {
      assert PairsConsecutive(l.seen, d);
    }
  }

  lemma OneMoreUse(disposed: seq<Disposal>, d: Disposal)
    requires PairsDisjoint(disposed) && d.fate.Fulfilled? && LastUsed(disposed) + 1 < d.fate.at
    ensures PairsDisjoint(disposed + [d]) && LastUsed(disposed + [d]) == d.fate.at
  {
    var more := disposed + [d];
    assert more[..|disposed|] == disposed;
    forall i | 0 <= i < |more| && more[i].fate.Fulfilled?
      ensures LastUsed(more[..i]) + 1 < more[i].fate.at
    {
      assert i < |disposed| ==> more[..i] == disposed[..i];
    }
  }

  lemma PairedMatch(l: Loop, msg: Msg, closed: set<nat>, sent: bool)
    requires Paired(l)
    ensures Paired(MatchStep(l, msg, closed, sent))
  {
    var m := l.(matched := l.matched + [msg]);
    assert Paired(m);
    if msg.Reply? {
      PairedReply(m, msg.log, closed);
    } else if !msg.Other? {
      var out := if sent then m.(frames := m.frames + [FrameOf(msg).value]) else m;
      assert Paired(out);
      PairedLeft(out);
    }
  }

  lemma PairedReader(s: State, sent: bool)
    requires Paired(s.loop) && ReaderEnabled(s)
    ensures Paired(ReaderStep(s, sent).loop)
  {
    var l := s.loop;
    match l.phase
    case BeforeRecv => PairedDrain(l, s.queue, s.closed);
    case BeforeMatch(msg) => PairedToMatch(l, s.queue, s.closed, msg);
    case Matching(msg) => PairedMatch(l, msg, s.closed, sent);
    case Leaving =>
      PairedWithoutCapture(l, l.(phase := Gone, disposed := l.disposed + Dropped(s.queue)), Dropped(s.queue));
    case AtTop => PairedPlain(s, sent);
    case InRecv => PairedPlain(s, sent);
    case AfterRecv(_) => PairedPlain(s, sent);
  }

  lemma PairedPlain(s: State, sent: bool)
    requires Paired(s.loop) && ReaderEnabled(s)
    requires s.loop.phase.AtTop? || s.loop.phase.InRecv? || s.loop.phase.AfterRecv?
    ensures Paired(ReaderStep(s, sent).loop)
  {
    var m := ReaderStep(s, sent).loop;
    if m.phase.Leaving? {
      PairedLeft(s.loop);
    } else {
      assert m == s.loop.(phase := m.phase);
      PairedWithoutCapture(s.loop, m, []);
    }
  }

  lemma PairedStep(s: State, step: Step)
    requires Paired(s.loop) && Enabled(s, step)
    ensures Paired(Apply(s, step).loop)
  {
    match step
    case HandOff =>
      PairedWithoutCapture(s.loop, s.loop.(disposed := s.loop.disposed + [Disposal(s.next, Returned)]),
                           [Disposal(s.next, Returned)]);
    case Reader(sent) => PairedReader(s, sent);
    case _ =>
  }

  // ─── Frames ──────────────────────────────────────────────────────────────────

  /** The frames the messages ask for, in order; Logs and `Other` ask for none. */
  function Image(msgs: seq<Msg>): seq<Frame> {
    if msgs == [] then []
    else
      var front, frame := Image(msgs[..|msgs| - 1]), FrameOf(msgs[|msgs| - 1]);
      if frame.Some? then front + [frame.value] else front
  }

  lemma {:induction false} ImageAppend(a: seq<Msg>, b: seq<Msg>)
    ensures Image(a + b) == Image(a) + Image(b)
  {
    if b == [] {
      assert a + b == a;
    } else {
      ImageAppend(a, b[..|b| - 1]);
      assert (a + b)[..|a + b| - 1] == a + b[..|b| - 1];
    }
  }

  function RenderCount(frames: seq<Frame>): nat {
    if frames == [] then 0
    else RenderCount(frames[..|frames| - 1]) + if frames[|frames| - 1].RenderFrame? then 1 else 0
  }

  function Hand(phase: Phase): seq<Msg> {
    match phase
    case AfterRecv(msg) => [msg]
    case BeforeMatch(msg) => [msg]
    case Matching(msg) => [msg]
    case _ => []
  }

  predicate HasLeft(l: Loop) {
    l.phase.Leaving? || l.phase.Gone?
  }

  /**
   While the loop runs, the frames are the image of all matched messages, no Exit among them. After the loop only the
   frame of the very last message may be missing.
   */
  ghost predicate Forwarded(l: Loop) {
    && l.renders == RenderCount(l.frames)
    && (forall i | 0 <= i < |l.matched| :: IsExit(l.matched[i]) ==> HasLeft(l) && i == |l.matched| - 1)
    && (l.frames == Image(l.matched)
        || (HasLeft(l) && l.matched != [] && l.frames == Image(l.matched[..|l.matched| - 1])))
  }

  /** While the loop runs nothing received is lost, and messages are matched in the order they were sent. */
  ghost predicate InOrder(s: State) {
    && s.loop.matched <= s.served
    && (!HasLeft(s.loop) ==> s.served == s.loop.matched + Hand(s.loop.phase) + s.stream)
  }

  lemma ForwardedMatch(l: Loop, msg: Msg, closed: set<nat>, sent: bool)
    requires Forwarded(l) && l.phase == Matching(msg)
    ensures Forwarded(MatchStep(l, msg, closed, sent))
  {
    var m := MatchStep(l, msg, closed, sent);
    assert l.frames == Image(l.matched) && !HasLeft(l);
    MatchForwards(l, msg, closed, sent);
    SnocImage(l.matched, msg);
    if FrameOf(msg).Some? && sent {
      assert m.frames[..|l.frames|] == l.frames;
    }
  }

  lemma MatchForwards(l: Loop, msg: Msg, closed: set<nat>, sent: bool)
    requires !HasLeft(l)
    ensures var m, frame := MatchStep(l, msg, closed, sent), FrameOf(msg);
      && m.matched == l.matched + [msg]
      && m.frames == (if frame.Some? && sent then l.frames + [frame.value] else l.frames)
      && m.renders == l.renders + (if msg.Render? && sent then 1 else 0)
      && (HasLeft(m) <==> frame.Some? && (IsExit(msg) || !sent))
  {
  }

  lemma SnocImage(msgs: seq<Msg>, msg: Msg)
    ensures Image(msgs + [msg]) == if FrameOf(msg).Some? then Image(msgs) + [FrameOf(msg).value] else Image(msgs)
    ensures (msgs + [msg])[..|msgs|] == msgs
  {
    assert (msgs + [msg])[..|msgs|] == msgs;
  }

  /** Nothing was matched or sent. */
  predicate Idle(l: Loop, m: Loop) {
    m.matched == l.matched && m.frames == l.frames && m.renders == l.renders && (HasLeft(l) ==> HasLeft(m))
  }

  lemma ForwardedIdle(l: Loop, m: Loop)
    requires Forwarded(l) && Idle(l, m)
    ensures Forwarded(m)
  {
  }

  lemma IdleReader(s: State, sent: bool)
    requires ReaderEnabled(s) && !s.loop.phase.Matching?
    ensures Idle(s.loop, ReaderStep(s, sent).loop)
  {
  }

  lemma ForwardedStep(s: State, step: Step)
    requires Forwarded(s.loop) && Enabled(s, step)
    ensures Forwarded(Apply(s, step).loop)
  {
    if step.Reader? && s.loop.phase.Matching? {
      ForwardedMatch(s.loop, s.loop.phase.msg, s.closed, step.sent);
    } else {
      if step.Reader? {
        IdleReader(s, step.sent);
      }
      ForwardedIdle(s.loop, Apply(s, step).loop);
    }
  }

  lemma InOrderReader(s: State, sent: bool)
    requires InOrder(s) && ReaderEnabled(s)
    ensures InOrder(ReaderStep(s, sent))
  {
    if s.loop.phase.InRecv? && s.stream != [] {
      assert s.stream == [s.stream[0]] + s.stream[1..];
    } else if s.loop.phase.Matching? {
      InOrderMatch(s, sent);
    } else {
      IdleReader(s, sent);
    }
  }

  lemma InOrderMatch(s: State, sent: bool)
    requires InOrder(s) && s.loop.phase.Matching?
    ensures InOrder(ReaderStep(s, sent))
  {
    MatchForwards(s.loop, s.loop.phase.msg, s.closed, sent);
  }

  lemma InOrderStep(s: State, step: Step)
    requires InOrder(s) && Enabled(s, step)
    ensures InOrder(Apply(s, step))
  {
    if step.Reader? {
      InOrderReader(s, step.sent);
    }
  }
}
