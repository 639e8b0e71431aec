/**
 The relay over whole runs: the invariants together, frames as a function of the server's messages alone, and the
 bounded reaction to the stop flag.
 */
module RelayRuns {
  import opened Common
  import opened RelayQuery
  import opened RelayInvariants
  import opened RelayHistory

  predicate Bounded(s: State) {
    s.outbound.waiting <= RENDER_CHANNEL_BOUND
  }

  ghost predicate Inv(s: State) {
    && Bounded(s) && OneOwner(s) && ArmedBeforeFired(s) && Paired(s.loop) && Forwarded(s.loop) && InOrder(s)
    && TimeOutsAreOfQueries(s)
  }

  lemma {:induction false} InvRun(s: State, run: seq<Step>, t: State)
    requires Inv(s) && Run(s, run, t)
    ensures Inv(t)
    decreases |run|
  {
    if run != [] {
      InvStep(s, run[0]);
      InvRun(Apply(s, run[0]), run[1..], t);
    }
  }

  lemma InvStep(s: State, step: Step)
    requires Inv(s) && Enabled(s, step)
    ensures Inv(Apply(s, step))
  {
    OneOwnerStep(s, step);
    ArmedBeforeFiredStep(s, step);
    PairedStep(s, step);
    ForwardedStep(s, step);
    InOrderStep(s, step);
    BoundsStep(s, step);
  }

  predicate TimeOutsAreOfQueries(s: State) {
    forall q | q in s.closed :: q < s.next
  }

  lemma BoundsStep(s: State, step: Step)
    requires Bounded(s) && TimeOutsAreOfQueries(s) && Enabled(s, step)
    ensures Bounded(Apply(s, step)) && TimeOutsAreOfQueries(Apply(s, step))
  {
  }

  lemma EveryRunKeeps(run: seq<Step>, t: State)
    requires Run(INITIAL, run, t)
    ensures Inv(t)
  {
    InvRun(INITIAL, run, t);
  }

  // ─── Exactly-once disposal ───────────────────────────────────────────────────

  /**
   Over every run: handed off = queued + in slot + disposed, each query is in exactly one of these places, and once the
   reader is gone every query handed off has been disposed of exactly once.
   */
  lemma ExactlyOnceDisposal(run: seq<Step>, t: State, q: nat)
    requires Run(INITIAL, run, t)
    ensures t.next == |t.queue| + (if t.loop.slot.Some? then 1 else 0) + |t.loop.disposed|
    ensures q < t.next ==> Queued(t.queue, q) + Held(t.loop.slot, q) + Ended(t.loop.disposed, q) == 1
    ensures t.loop.phase.Gone? ==> |t.loop.disposed| == t.next && (q < t.next ==> Ended(t.loop.disposed, q) == 1)
  {
    EveryRunKeeps(run, t);
    assert Owners(t, q) == if q < t.next then 1 else 0;
  }

  /** A disposal is final: later steps only append to the disposals. */
  lemma {:induction false} DisposalsGrow(s: State, run: seq<Step>, t: State)
    requires Run(s, run, t)
    ensures s.loop.disposed <= t.loop.disposed
    decreases |run|
  {
    if run != [] {
      DisposalsGrow(Apply(s, run[0]), run[1..], t);
      DisposalsGrowStep(s, run[0]);
    }
  }

  lemma MatchDisposalsGrow(l: Loop, msg: Msg, closed: set<nat>, sent: bool)
    ensures l.disposed <= MatchStep(l, msg, closed, sent).disposed
  {
  }

  lemma ReaderDisposalsGrow(s: State, sent: bool)
    requires ReaderEnabled(s)
    ensures s.loop.disposed <= ReaderStep(s, sent).loop.disposed
  {
    if s.loop.phase.Matching? {
      MatchDisposalsGrow(s.loop, s.loop.phase.msg, s.closed, sent);
    }
  }

  lemma DisposalsGrowStep(s: State, step: Step)
    requires Enabled(s, step)
    ensures s.loop.disposed <= Apply(s, step).loop.disposed
  {
    if step.Reader? {
      ReaderDisposalsGrow(s, step.sent);
    }
  }

  // ─── Arm before fire, and pairing, over every run ────────────────────────────

  /** Whenever a run stands at matching a Log of query q, q has left the channel and is held, unless it was disposed of. */
  lemma ArmedWhenMatched(run: seq<Step>, t: State)
    requires Run(INITIAL, run, t) && t.loop.phase.Matching? && t.loop.phase.msg.Reply?
    ensures var q := t.loop.phase.msg.log.tag.query;
      q !in t.queue && (Holder(t.loop.slot) == Some(q) || exists d :: d in t.loop.disposed && d.query == q)
  {
    EveryRunKeeps(run, t);
    MatchedQueryIsArmed(t);
  }

  lemma {:induction false} LastUsedCovers(disposed: seq<Disposal>, i: nat, j: nat)
    requires PairsDisjoint(disposed) && i < j <= |disposed| && disposed[i].fate.Fulfilled?
    ensures disposed[i].fate.at <= LastUsed(disposed[..j])
    decreases j
  {
    assert disposed[..j][..j - 1] == disposed[..j - 1];
    if i < j - 1 {
      LastUsedCovers(disposed, i, j - 1);
    }
  }

  /** Over every run, each fulfilled reply is made from two consecutive Logs, tabs half first, both matched while its query held the slot. */
  lemma EveryReplyPairsConsecutiveLogs(run: seq<Step>, t: State, d: Disposal)
    requires Run(INITIAL, run, t) && d in t.loop.disposed
    ensures PairsConsecutive(t.loop.seen, d)
  {
    EveryRunKeeps(run, t);
  }

  /** Of two fulfilled replies the later one uses two later Logs. */
  lemma RepliesUseLogsInOrder(run: seq<Step>, t: State, i: nat, j: nat)
    requires Run(INITIAL, run, t) && i < j < |t.loop.disposed|
    requires t.loop.disposed[i].fate.Fulfilled? && t.loop.disposed[j].fate.Fulfilled?
    ensures t.loop.disposed[i].fate.at < t.loop.disposed[j].fate.at - 1
  {
    EveryRunKeeps(run, t);
    LastUsedCovers(t.loop.disposed, i, j);
  }

  // ─── Frames do not depend on queries ────────────────────────────────────────

  lemma ImagePrefix(a: seq<Msg>, b: seq<Msg>)
    requires a <= b
    ensures Image(a) <= Image(b)
  {
    ImageAppend(a, b[|a|..]);
    assert a + b[|a|..] == b;
  }

  /** The messages that ask for a frame; layout Logs and `Other` are left out. */
  function Visible(msgs: seq<Msg>): seq<Msg> {
    if msgs == [] then []
    else
      var front, last := Visible(msgs[..|msgs| - 1]), msgs[|msgs| - 1];
      if FrameOf(last).Some? then front + [last] else front
  }

  lemma {:induction false} ImageOfVisible(msgs: seq<Msg>)
    ensures Image(Visible(msgs)) == Image(msgs)
  {
    if msgs != [] {
      var front, last := msgs[..|msgs| - 1], msgs[|msgs| - 1];
      ImageOfVisible(front);
      if FrameOf(last).Some? {
        ImageAppend(Visible(front), [last]);
        assert [last][..0] == [];
      }
    }
  }

  /** Why the loop has left: the stop flag, the client gone, the end of the stream, or an Exit matched last. */
  predicate LeftForReason(s: State) {
    HasLeft(s.loop) ==>
      || s.stop || s.outbound.gone || (!s.open && s.stream == [])
      || (s.loop.matched != [] && IsExit(s.loop.matched[|s.loop.matched| - 1]))
  }

  /** No frame is missing unless the client is gone. */
  ghost predicate NoneMissing(s: State) {
    s.loop.frames == Image(s.loop.matched) || s.outbound.gone
  }

  lemma ReasonReader(s: State, sent: bool)
    requires LeftForReason(s) && ReaderEnabled(s) && SendEnabled(s, sent)
    ensures LeftForReason(ReaderStep(s, sent))
  {
    if s.loop.phase.Matching? {
      MatchForwards(s.loop, s.loop.phase.msg, s.closed, sent);
    }
  }

  lemma ReasonStep(s: State, step: Step)
    requires LeftForReason(s) && Enabled(s, step)
    ensures LeftForReason(Apply(s, step))
  {
    if step.Reader? {
      ReasonReader(s, step.sent);
    }
  }

  lemma MissingStep(s: State, step: Step)
    requires NoneMissing(s) && Enabled(s, step)
    ensures NoneMissing(Apply(s, step))
  {
    if step.Reader? {
      if s.loop.phase.Matching? {
        MatchForwards(s.loop, s.loop.phase.msg, s.closed, step.sent);
        SnocImage(s.loop.matched, s.loop.phase.msg);
      } else {
        IdleReader(s, step.sent);
      }
    }
  }

  lemma {:induction false} LeavingRun(s: State, run: seq<Step>, t: State)
    requires LeftForReason(s) && NoneMissing(s) && Run(s, run, t)
    ensures LeftForReason(t) && NoneMissing(t)
    decreases |run|
  {
    if run != [] {
      ReasonStep(s, run[0]);
      MissingStep(s, run[0]);
      LeavingRun(Apply(s, run[0]), run[1..], t);
    }
  }

  /** The frames are those of all matched messages, or of all but the last, which a client that is gone did not get. */
  ghost predicate FramesOfMatched(s: State) {
    || s.loop.frames == Image(s.loop.matched)
    || (s.outbound.gone && HasLeft(s.loop) && s.loop.matched != []
        && s.loop.frames == Image(s.loop.matched[..|s.loop.matched| - 1]))
  }

  /**
   The outbound frames are the image, in order, of the messages matched, which are an initial part of those the server
   sent: all of them while the loop runs, but for the one in hand and those not received. Only the last frame can be
   missing, and only if the client is gone. An Exit is matched last. The loop leaves for one of four reasons only, and
   the returned count is the number of render frames sent.
   */
  lemma FramesAreImage(run: seq<Step>, t: State)
    requires Run(INITIAL, run, t)
    ensures FramesOfMatched(t) && t.loop.matched <= t.served && t.loop.frames <= Image(t.served)
    ensures !HasLeft(t.loop) ==> t.served == t.loop.matched + Hand(t.loop.phase) + t.stream
    ensures !HasLeft(t.loop) && Hand(t.loop.phase) + t.stream == [] ==> t.loop.frames == Image(t.served)
    ensures forall i | 0 <= i < |t.loop.matched| && IsExit(t.loop.matched[i]) :: HasLeft(t.loop) && i == |t.loop.matched| - 1
    ensures LeftForReason(t)
    ensures t.loop.renders == RenderCount(t.loop.frames)
  {
    EveryRunKeeps(run, t);
    LeavingRun(INITIAL, run, t);
    ImagePrefix(t.loop.matched, t.served);
    if t.loop.frames != Image(t.loop.matched) {
      ImagePrefix(t.loop.matched[..|t.loop.matched| - 1], t.served);
    }
    assert t.loop.matched + [] == t.loop.matched;
  }

  /**
   Query non-interference: two runs whose servers emit the same visible messages send the same frames as far as both
   go, whatever queries, Logs, timeouts and interleavings differ between them.
   */
  lemma QueriesDoNotInterfere(run1: seq<Step>, t1: State, run2: seq<Step>, t2: State)
    requires Run(INITIAL, run1, t1) && Run(INITIAL, run2, t2)
    requires Visible(t1.served) == Visible(t2.served)
    ensures t1.loop.frames <= t2.loop.frames || t2.loop.frames <= t1.loop.frames
  {
    FramesAreImage(run1, t1);
    FramesAreImage(run2, t2);
    ImageOfVisible(t1.served);
    ImageOfVisible(t2.served);
  }

  // ─── Stop ────────────────────────────────────────────────────────────────────

  /** How many reader steps are left once the stop flag is set. */
  function StepsLeft(l: Loop): nat {
    match l.phase
    case Gone => 0
    case Leaving => 1
    case AtTop => 2
    case AfterRecv(_) => 2
    case InRecv => 3
    case BeforeRecv => 4
    case Matching(_) => 3
    case BeforeMatch(_) => 4
  }

  /** A message past the second stop check may still be forwarded. */
  function FramesLeft(l: Loop): nat {
    if l.phase.Matching? || l.phase.BeforeMatch? then 1 else 0
  }

  function ReaderSteps(run: seq<Step>): nat {
    if run == [] then 0 else (if run[0].Reader? then 1 else 0) + ReaderSteps(run[1..])
  }

  lemma StopStep(s: State, step: Step)
    requires s.stop && Enabled(s, step)
    ensures var t := Apply(s, step);
      && t.stop
      && StepsLeft(t.loop) + (if step.Reader? then 1 else 0) == StepsLeft(s.loop) - (if StopSkips(s, step) then 1 else 0)
      && |t.loop.frames| + FramesLeft(t.loop) <= |s.loop.frames| + FramesLeft(s.loop)
      && s.loop.frames <= t.loop.frames
  {
    if step.Reader? {
      StopReader(s, step.sent);
    }
  }

  lemma StopReader(s: State, sent: bool)
    requires s.stop && ReaderEnabled(s)
    ensures var t := ReaderStep(s, sent);
      && t.stop
      && StepsLeft(t.loop) + 1 == StepsLeft(s.loop) - (if StopSkips(s, Reader(sent)) then 1 else 0)
      && |t.loop.frames| + FramesLeft(t.loop) <= |s.loop.frames| + FramesLeft(s.loop)
      && s.loop.frames <= t.loop.frames
  {
    if s.loop.phase.Matching? {
      StopMatch(s.loop, s.loop.phase.msg, s.closed, sent);
    } else {
      IdleReader(s, sent);
    }
  }

  lemma StopMatch(l: Loop, msg: Msg, closed: set<nat>, sent: bool)
    ensures var m := MatchStep(l, msg, closed, sent);
      && (if FrameOf(msg).Some? && (IsExit(msg) || !sent) then m.phase.Leaving? else m.phase.AtTop?)
      && |m.frames| <= |l.frames| + 1 && l.frames <= m.frames
  {
  }

  /** The end of the stream, an Exit or a failed send leave the loop one step early. */
  predicate StopSkips(s: State, step: Step) {
    step.Reader? &&
    match s.loop.phase
    case InRecv => s.stream == []
    case Matching(msg) => FrameOf(msg).Some? && (IsExit(msg) || !step.sent)
    case _ => false
  }

  /**
   After the stop flag is set the reader takes at most four more steps, whatever the other parties do meanwhile, and
   sends at most the one frame it had already decided to match.
   */
  lemma {:induction false} StopIsPrompt(s: State, run: seq<Step>, t: State)
    requires s.stop && Run(s, run, t)
    ensures ReaderSteps(run) + StepsLeft(t.loop) <= StepsLeft(s.loop) <= 4
    ensures |t.loop.frames| <= |s.loop.frames| + FramesLeft(s.loop) && s.loop.frames <= t.loop.frames
    ensures HasLeft(s.loop) ==> t.loop.frames == s.loop.frames
    decreases |run|
  {
    if run != [] {
      StopStep(s, run[0]);
      var u := Apply(s, run[0]);
      StopIsPrompt(u, run[1..], t);
      assert |u.loop.frames| + FramesLeft(u.loop) <= |s.loop.frames| + FramesLeft(s.loop);
    }
  }

  /** The reader is about to send a frame, the channel is full, and the client is there and does not read. */
  predicate StuckSending(s: State) {
    && (s.loop.phase.BeforeMatch? || s.loop.phase.Matching?) && FrameOf(s.loop.phase.msg).Some?
    && s.outbound.waiting >= RENDER_CHANNEL_BOUND && !s.outbound.gone
  }

  /** The reader is at `recv` or on its way there, and nothing is there to receive. */
  predicate StuckReceiving(s: State) {
    (s.loop.phase.BeforeRecv? || s.loop.phase.InRecv?) && s.stream == [] && s.open
  }

  ghost predicate OnlyReader(run: seq<Step>) {
    forall step | step in run :: step.Reader?
  }

  /** The reader ends by its own steps. */
  ghost predicate EndsAlone(s: State) {
    exists run, t :: Run(s, run, t) && OnlyReader(run) && t.loop.phase.Gone?
  }

  lemma {:induction false} StuckStays(s: State, run: seq<Step>, t: State)
    requires (StuckSending(s) || StuckReceiving(s)) && Run(s, run, t) && OnlyReader(run)
    ensures !t.loop.phase.Gone?
    decreases |run|
  {
    if run != [] {
      assert run[0] in run;
      var u := Apply(s, run[0]);
      assert StuckSending(u) || StuckReceiving(u);
      assert OnlyReader(run[1..]);
      StuckStays(u, run[1..], t);
    }
  }

  /** With the stop flag up, one step of a reader that is not stuck leaves it not stuck and nearer to its end. */
  lemma UnstuckStep(s: State)
    requires s.stop && !s.loop.phase.Gone? && !StuckSending(s) && !StuckReceiving(s)
    ensures var step := Reader(!s.outbound.gone);
      && Enabled(s, step)
      && var u := Apply(s, step);
        && u.stop && !StuckSending(u) && !StuckReceiving(u) && StepsLeft(u.loop) < StepsLeft(s.loop)
  {
    StopStep(s, Reader(!s.outbound.gone));
  }

  lemma {:induction false} RunToEnd(s: State) returns (run: seq<Step>, t: State)
    requires s.stop && !StuckSending(s) && !StuckReceiving(s)
    ensures Run(s, run, t) && OnlyReader(run) && t.loop.phase.Gone? && |run| <= StepsLeft(s.loop)
    decreases StepsLeft(s.loop)
  {
    if s.loop.phase.Gone? {
      return [], s;
    }
    var step := Reader(!s.outbound.gone);
    UnstuckStep(s);
    var u := Apply(s, step);
    var rest;
    rest, t := RunToEnd(u);
    RunOne(s, step);
    RunAppend(s, [step], u, rest, t);
    run := [step] + rest;
  }

  /**
   Joining the thread. With the stop flag up the reader ends by its own steps, and within four, if and only if it is
   neither waiting for a message that is not there nor about to send into a full channel whose client is there and does
   not read.
   */
  lemma JoinReturnsIff(s: State)
    requires s.stop
    ensures EndsAlone(s) <==> !StuckSending(s) && !StuckReceiving(s)
    ensures EndsAlone(s) ==> exists run, t :: Run(s, run, t) && OnlyReader(run) && t.loop.phase.Gone? && |run| <= 4
  {
    if run, t :| Run(s, run, t) && OnlyReader(run) && t.loop.phase.Gone? {
      if StuckSending(s) || StuckReceiving(s) {
        StuckStays(s, run, t);
      }
    }
    if !StuckSending(s) && !StuckReceiving(s) {
      var run, t := RunToEnd(s);
      assert Run(s, run, t) && OnlyReader(run) && t.loop.phase.Gone?;
    }
  }

  /** Once the receiver is woken, one frame read by the client, or its going away, is enough. */
  lemma ClientUnblocksJoin(s: State)
    requires s.stop && !StuckReceiving(s) && s.outbound.waiting <= RENDER_CHANNEL_BOUND
    ensures Enabled(s, ClientReads) ==> EndsAlone(Apply(s, ClientReads))
    ensures EndsAlone(Apply(s, ClientGoes))
  {
    JoinReturnsIff(Apply(s, ClientGoes));
    if Enabled(s, ClientReads) {
      JoinReturnsIff(Apply(s, ClientReads));
    }
  }

  // ─── Waiting for the client does happen ──────────────────────────────────────

  ghost predicate Reached(s: State) {
    exists run :: Run(INITIAL, run, s)
  }

  lemma ReachedStep(s: State, step: Step)
    requires Reached(s) && Enabled(s, step)
    ensures Reached(Apply(s, step))
  {
    var run :| Run(INITIAL, run, s);
    RunOne(s, step);
    RunAppend(INITIAL, run, s, [step], Apply(s, step));
  }

  /** Nothing is under way, and the channel has `n` frames that the client has not taken. */
  predicate Rests(s: State, n: nat) {
    && s.loop.phase.AtTop? && s.loop.slot.None? && s.stream == [] && s.open && s.queue == [] && !s.stop
    && s.outbound == Outbound(n, false)
  }

  /** The server paints and the reader takes the frame as far as its send. */
  lemma PaintsUpToSend(s: State, n: nat) returns (t: State)
    requires Reached(s) && Rests(s, n)
    ensures Reached(t) && t.loop.phase.Matching? && Rests(t.(loop := t.loop.(phase := AtTop)), n)
    ensures t.loop.phase.msg == Render([])
  {
    t := Apply(s, Emit(Render([])));
    ReachedStep(s, Emit(Render([])));
    for i := 0 to 5
      invariant Reached(t) && t.open && t.queue == [] && !t.stop && t.outbound == Outbound(n, false) && t.loop.slot.None?
      invariant t.stream == if i <= 2 then [Render([])] else []
      invariant t.loop.phase ==
        [AtTop, BeforeRecv, InRecv, AfterRecv(Render([])), BeforeMatch(Render([])), Matching(Render([]))][i]
    {
      ReachedStep(t, Reader(true));
      t := Apply(t, Reader(true));
    }
  }

  lemma {:induction false} ChannelFills(n: nat) returns (s: State)
    requires 1 <= n <= RENDER_CHANNEL_BOUND
    ensures Reached(s) && Rests(s, n)
  {
    if n == 1 {
      s := INITIAL;
      assert Run(INITIAL, [], INITIAL);
    } else {
      s := ChannelFills(n - 1);
      s := PaintsUpToSend(s, n - 1);
      ReachedStep(s, Reader(true));
      s := Apply(s, Reader(true));
    }
  }

  /** A client that stays and does not read holds the join, though the stop flag is up and the receiver was woken. */
  lemma JoinCanWaitForClient()
    ensures exists s :: Reached(s) && s.stop && StuckSending(s) && !EndsAlone(s)
  {
    var s := ChannelFills(RENDER_CHANNEL_BOUND);
    s := PaintsUpToSend(s, RENDER_CHANNEL_BOUND);
    ReachedStep(s, SetStop);
    var t := Apply(s, SetStop);
    JoinReturnsIff(t);
    assert StuckSending(t);
  }
}
