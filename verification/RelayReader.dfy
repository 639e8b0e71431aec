/**
 The reader thread in place: `render_loop` and its helpers over shared fields.

 `schedule` is the rest of the world: between any two operations of the reader the other parties take the steps of the
 next turn. `recv` waits for a message, a send for room in the outbound channel. `Valid` states that everything that
 happened since the relay began is a run of the step system, so every theorem about runs holds of this class.
 */
module RelayReader {
  import opened Common
  import opened ZellijLayout
  import opened RelayQuery
  import opened RelayInvariants
  import opened RelayHistory
  import opened RelayRuns
  import opened RelayFrames

  /** What the other parties do between two operations of the reader. */
  type Turn = seq<Step>

  function Size(schedule: seq<Turn>): nat {
    if schedule == [] then 0 else 1 + |schedule[0]| + Size(schedule[1..])
  }

  /** The states passed through, one more than steps. */
  ghost predicate Passes(states: seq<State>, trace: seq<Step>, s: State) {
    && |states| == |trace| + 1 && states[0] == INITIAL && states[|trace|] == s
    && forall i {:trigger trace[i]} | 0 <= i < |trace| ::
         Enabled(states[i], trace[i]) && states[i + 1] == Apply(states[i], trace[i])
  }

  /** `trace` is a run from the start to `s`; see `RecordedIsRun`. */
  ghost predicate Recorded(trace: seq<Step>, s: State) {
    exists states :: Passes(states, trace, s)
  }

  lemma RecordOne(trace: seq<Step>, s: State, step: Step)
    requires Recorded(trace, s) && Enabled(s, step)
    ensures Recorded(trace + [step], Apply(s, step))
  {
    var states :| Passes(states, trace, s);
    var longer, more := trace + [step], states + [Apply(s, step)];
    forall i | 0 <= i < |longer|
      ensures Enabled(more[i], longer[i]) && more[i + 1] == Apply(more[i], longer[i])
    {
      assert i < |trace| ==> longer[i] == trace[i];
    }
    assert Passes(more, longer, Apply(s, step));
  }

  lemma {:induction false} RunOfPasses(states: seq<State>, trace: seq<Step>, s: State, i: nat)
    requires Passes(states, trace, s) && i <= |trace|
    ensures Run(states[i], trace[i..], s)
    decreases |trace| - i
  {
    if i < |trace| {
      RunOfPasses(states, trace, s, i + 1);
      assert trace[i..][0] == trace[i] && trace[i..][1..] == trace[i + 1..];
    }
  }

  lemma RecordedIsRun(trace: seq<Step>, s: State)
    requires Recorded(trace, s)
    ensures Run(INITIAL, trace, s)
  {
    var states :| Passes(states, trace, s);
    RunOfPasses(states, trace, s, 0);
    assert trace[0..] == trace;
  }

  /** The other parties leave the reader where it is, and extend its stream by one message at most. */
  lemma OthersKeepLoop(s: State, step: Step)
    requires Enabled(s, step) && !step.Reader?
    ensures var t := Apply(s, step);
      && t.loop == s.loop.(disposed := t.loop.disposed)
      && s.stream <= t.stream && |t.stream| <= |s.stream| + 1
  {
  }

  lemma LeavingStep(s: State)
    requires s.loop.phase.Leaving?
    ensures ReaderStep(s, true)
      == s.(queue := [], loop := s.loop.(phase := Gone, disposed := s.loop.disposed + Dropped(s.queue)))
  {
  }

  lemma MatchingStep(s: State, msg: Msg, sent: bool)
    requires s.loop.phase == Matching(msg)
    ensures ReaderStep(s, sent) == s.(loop := MatchStep(s.loop, msg, s.closed, sent), outbound := AfterSend(s, sent))
  {
  }

  lemma ArmedAllSnoc(slot: Option<InFlight>, queue: seq<nat>, query: nat)
    ensures var front := ArmedAll(slot, queue);
      var last := Armed(front.slot, query);
      ArmedAll(slot, queue + [query]) == SlotChange(last.slot, front.disposed + last.disposed)
  {
    assert (queue + [query])[..|queue|] == queue;
  }

  /** What the reader never looks at: the inbound task, the actions on their way, and what the server has sent so far. */
  datatype Others = Others(next: nat, firing: seq<Request>, requests: seq<Request>, served: seq<Msg>)

  /** Histories of the reader. */
  datatype Past = Past(matched: seq<Msg>, seen: seq<Seen>, disposed: seq<Disposal>, replies: seq<Sent>)

  class Reader {
    // Shared with the other parties.
    var others: Others
    var stream: seq<Msg>
    var open: bool
    var queue: seq<nat>
    var closed: set<nat>
    var stop: bool
    var frames: seq<Frame>
    var waiting: nat
    var clientGone: bool

    // Owned by the loop. `phase` is its program point.
    var inFlight: Option<InFlight>
    var renders: nat
    var phase: Phase
    var past: Past

    var schedule: seq<Turn>
    ghost var trace: seq<Step>

    function Whole(): State
      reads this
    {
      State(others.next, others.firing, others.requests, stream, open, others.served, queue, closed, stop,
            Outbound(waiting, clientGone), LoopNow())
    }

    function LoopNow(): Loop
      reads this
    {
      Loop(phase, inFlight, frames, renders, past.matched, past.seen, past.disposed, past.replies)
    }

    ghost predicate Valid()
      reads this
    {
      Recorded(trace, Whole())
    }

    constructor (schedule: seq<Turn>)
      ensures Valid() && Whole() == INITIAL && trace == []
    {
      others, stream, open := Others(0, [], [], []), [], true;
      queue, closed, stop, frames := [], {}, false, [];
      waiting, clientGone := 1, false;
      inFlight, renders, phase, past, trace := None, 0, AtTop, Past([], [], [], []), [];
      this.schedule := schedule;
      new;
      assert Passes([INITIAL], [], INITIAL);
    }

    /** A reply channel ends. */
    method Dispose(query: nat, fate: Fate)
      modifies this`past
      ensures past == old(past).(disposed := old(past).disposed + [Disposal(query, fate)])
    {
      past := past.(disposed := past.disposed + [Disposal(query, fate)]);
    }

    /** Messages received or still to be caused by the schedule: what bounds the loop. */
    ghost function Measure(): nat
      reads this
    {
      |stream| + Size(schedule)
    }

    /** Record a step that was just taken in place. */
    ghost method Note(before: State, step: Step)
      requires Recorded(trace, before) && Enabled(before, step) && Whole() == Apply(before, step)
      modifies this`trace
      ensures Valid() && trace == old(trace) + [step]
    {
      RecordOne(trace, before, step);
      trace := trace + [step];
    }

    ghost method NoteReader(before: State, sent: bool)
      requires Recorded(trace, before) && ReaderEnabled(before) && SendEnabled(before, sent)
      requires Whole() == ReaderStep(before, sent)
      modifies this`trace
      ensures Valid() && trace == old(trace) + [Step.Reader(sent)]
    {
      Note(before, Step.Reader(sent));
    }

    ghost method NoteMatch(before: State, msg: Msg, sent: bool)
      requires Recorded(trace, before) && before.loop.phase == Matching(msg) && SendEnabled(before, sent)
      requires Whole() == before.(loop := MatchStep(before.loop, msg, before.closed, sent), outbound := AfterSend(before, sent))
      modifies this`trace
      ensures Valid() && trace == old(trace) + [Step.Reader(sent)]
    {
      MatchingStep(before, msg, sent);
      NoteReader(before, sent);
    }

    ghost method NoteDrain(before: State)
      requires Recorded(trace, before) && (before.loop.phase.BeforeRecv? || before.loop.phase.BeforeMatch?)
      requires Whole() == before.(
                 queue := [],
                 loop := if before.loop.phase.BeforeRecv?
                         then DrainStep(before.loop, before.queue, before.closed).(phase := InRecv)
                         else DrainToMatch(before.loop, before.queue, before.closed, before.loop.phase.msg))
      modifies this`trace
      ensures Valid() && trace == old(trace) + [Step.Reader(true)]
    {
      NoteReader(before, true);
    }

    // ─── The other parties ─────────────────────────────────────────────────────

    /** One step of another party; a step that is not enabled does nothing. */
    method Interfere(step: Step)
      requires Valid()
      modifies this`others, this`stream, this`open, this`queue, this`closed, this`stop
      modifies this`waiting, this`clientGone, this`past, this`trace
      ensures Valid() && old(stream) <= stream && |stream| <= |old(stream)| + 1
    {
      if !step.Reader? && Enabled(Whole(), step) {
        ghost var before := Whole();
        var t := Apply(Whole(), step);
        OthersKeepLoop(before, step);
        others := Others(t.next, t.firing, t.requests, t.served);
        stream, open, queue, closed, stop := t.stream, t.open, t.queue, t.closed, t.stop;
        waiting, clientGone := t.outbound.waiting, t.outbound.gone;
        past := past.(disposed := t.loop.disposed);
        Note(before, step);
      }
    }

    /** The next turn of the other parties; when the schedule is used up they rest. */
    method Yield()
      requires Valid()
      modifies this`others, this`stream, this`open, this`queue, this`closed, this`stop
      modifies this`waiting, this`clientGone, this`past, this`trace, this`schedule
      ensures Valid()
      ensures Measure() <= old(Measure())
      ensures Size(schedule) < Size(old(schedule)) || schedule == []
    {
      if schedule == [] {
        return;
      }
      var turn := schedule[0];
      schedule := schedule[1..];
      for i := 0 to |turn|
        invariant Valid() && |stream| <= |old(stream)| + i && schedule == old(schedule)[1..]
      {
        Interfere(turn[i]);
      }
    }

    // ─── The reader ────────────────────────────────────────────────────────────

    /** The retire-on-close check at the head of `drain_queries`. */
    method RetireClosed()
      modifies this`inFlight, this`past
      ensures var kept := RetiredIfClosed(old(inFlight), closed);
        inFlight == kept.slot && past == old(past).(disposed := old(past).disposed + kept.disposed)
    {
      if inFlight.Some? && inFlight.value.query in closed {
        Dispose(inFlight.value.query, Retired);
        inFlight := None;
      }
    }

    /** Take one query from the channel: the newest is the one that counts. */
    method ArmNext()
      requires queue != []
      modifies this`inFlight, this`queue, this`past
      ensures queue == old(queue)[1..]
      ensures var armed := Armed(old(inFlight), old(queue)[0]);
        inFlight == armed.slot && past == old(past).(disposed := old(past).disposed + armed.disposed)
    {
      var q := queue[0];
      queue := queue[1..];
      if inFlight.Some? {
        Dispose(inFlight.value.query, Replaced);
      }
      inFlight := Some(InFlight(q, None));
    }

    /** `drain_queries`. */
    method DrainQueries()
      modifies this`inFlight, this`queue, this`past
      ensures var d := Drained(old(inFlight), old(queue), closed);
        inFlight == d.slot && past == old(past).(disposed := old(past).disposed + d.disposed)
      ensures queue == []
    {
      RetireClosed();
      ghost var kept, before := inFlight, past;
      ghost var taken: seq<nat> := [];
      while queue != []
        invariant taken + queue == old(queue)
        invariant inFlight == ArmedAll(kept, taken).slot
        invariant past == before.(disposed := before.disposed + ArmedAll(kept, taken).disposed)
        decreases |queue|
      {
        ArmedAllSnoc(kept, taken, queue[0]);
        Regroup(before.disposed, ArmedAll(kept, taken).disposed, Armed(inFlight, queue[0]).disposed);
        taken := taken + [queue[0]];
        ArmNext();
      }
      assert taken == old(queue);
    }

    /** `capture_query_log`; a completed pair is parsed and sent to the held query. */
    method CaptureQueryLog(log: Log)
      modifies this`inFlight, this`past
      ensures var c := Captured(old(inFlight), log, closed, |old(past).seen|);
        && inFlight == c.slot
        && past == old(past).(seen := old(past).seen + [Seen(log, Holder(old(inFlight)))],
                              disposed := old(past).disposed + c.disposed,
                              replies := old(past).replies + Answers(old(inFlight), log, closed))
    {
      past := past.(seen := past.seen + [Seen(log, Holder(inFlight))]);
      if inFlight.None? {
        return;
      }
      var q := inFlight.value;
      if q.query in closed {
        Dispose(q.query, Retired);
        inFlight := None;
        return;
      }
      if q.tabs.None? {
        inFlight := Some(q.(tabs := Some(log)));
        return;
      }
      inFlight := None;
      var tabs := q.tabs.value;
      var answer: Snapshot;
      if tabs.text.isEmpty {
        answer := Failure(EmptyTabs);
      } else if log.text.isEmpty {
        answer := Failure(EmptyPanes);
      } else {
        answer := ParseZellijLayout(tabs.text, log.text);
      }
      past := past.(replies := past.replies + [Sent(q.query, answer)]);
      Dispose(q.query, Fulfilled(tabs, log, |past.seen| - 1));
    }

    /** Every `break` drops the held query, and with it its reply channel. */
    method DropInFlight()
      modifies this`inFlight, this`past
      ensures inFlight == None
      ensures past == old(past).(disposed := old(past).disposed + Emptied(old(inFlight), DroppedAtExit).disposed)
    {
      if inFlight.Some? {
        Dispose(inFlight.value.query, DroppedAtExit);
        inFlight := None;
      }
    }

    /** One of the two stop checks of an iteration. */
    method CheckStop() returns (stopped: bool)
      requires Valid() && (phase.AtTop? || phase.AfterRecv?)
      modifies this`inFlight, this`past, this`phase, this`trace
      ensures Valid() && trace == old(trace) + [Step.Reader(true)]
      ensures stopped == stop
      ensures phase == if stop then Leaving else if old(phase).AtTop? then BeforeRecv else BeforeMatch(old(phase).msg)
    {
      ghost var before := Whole();
      stopped := stop;
      if stopped {
        DropInFlight();
        phase := Leaving;
      } else {
        phase := if phase.AtTop? then BeforeRecv else BeforeMatch(phase.msg);
      }
      NoteReader(before, true);
    }

    method Drain()
      requires Valid() && (phase.BeforeRecv? || phase.BeforeMatch?)
      modifies this`inFlight, this`queue, this`past, this`phase, this`trace
      ensures Valid() && trace == old(trace) + [Step.Reader(true)]
      ensures phase == if old(phase).BeforeRecv? then InRecv else Matching(old(phase).msg)
    {
      ghost var before := Whole();
      DrainQueries();
      if phase.BeforeRecv? {
        phase := InRecv;
      } else {
        // First in the Exit arm, ahead of its send.
        if IsExit(phase.msg) {
          DropInFlight();
        }
        phase := Matching(phase.msg);
      }
      NoteDrain(before);
    }

    /** `recv()` returning: the next message, or `None` at the end of the stream. */
    method Recv() returns (msg: Option<Msg>)
      requires Valid() && phase.InRecv? && (stream != [] || !open)
      modifies this`inFlight, this`past, this`stream, this`phase, this`trace
      ensures Valid() && trace == old(trace) + [Step.Reader(true)]
      ensures phase == match msg case Some(m) => AfterRecv(m) case None => Leaving
      ensures |stream| == if msg.Some? then |old(stream)| - 1 else |old(stream)|
      ensures msg == if old(stream) == [] then None else Some(old(stream)[0])
    {
      ghost var before := Whole();
      if stream == [] {
        msg := None;
        DropInFlight();
        phase := Leaving;
      } else {
        msg := Some(stream[0]);
        stream := stream[1..];
        phase := AfterRecv(msg.value);
      }
      NoteReader(before, true);
    }

    /** Room for one more frame, or nobody to take it: `blocking_send` would not wait. */
    predicate CanSend()
      reads this
    {
      clientGone || waiting < RENDER_CHANNEL_BOUND
    }

    /** `blocking_send` of one frame, once it need not wait: it fails if the client has gone away. */
    method Forward(msg: Msg) returns (go: bool)
      requires FrameOf(msg).Some? && CanSend()
      modifies this`inFlight, this`past, this`frames, this`waiting, this`renders, this`phase
      ensures LoopNow() == ForwardStep(old(LoopNow()), msg, !clientGone)
      ensures waiting == if clientGone then old(waiting) else old(waiting) + 1
      ensures go <==> !clientGone && !IsExit(msg)
    {
      if !clientGone {
        frames := frames + [FrameOf(msg).value];
        waiting := waiting + 1;
      }
      go := !clientGone && !IsExit(msg);
      if go {
        if msg.Render? {
          renders := renders + 1;
        }
        phase := AtTop;
      } else {
        DropInFlight();
        phase := Leaving;
      }
    }

    /** `match msg`; `go` tells whether the loop continues. */
    method Match(msg: Msg) returns (go: bool)
      requires Valid() && phase == Matching(msg) && (FrameOf(msg).Some? ==> CanSend())
      modifies this`inFlight, this`past, this`frames, this`waiting, this`renders, this`phase, this`trace
      ensures Valid() && trace == old(trace) + [Step.Reader(!clientGone)]
      ensures phase == if go then AtTop else Leaving
    {
      ghost var before := Whole();
      go := Handle(msg);
      NoteMatch(before, msg, !clientGone);
    }

    method Handle(msg: Msg) returns (go: bool)
      requires FrameOf(msg).Some? ==> CanSend()
      modifies this`inFlight, this`past, this`frames, this`waiting, this`renders, this`phase
      ensures LoopNow() == MatchStep(old(LoopNow()), msg, closed, !clientGone)
      ensures waiting == if clientGone || FrameOf(msg).None? then old(waiting) else old(waiting) + 1
      ensures phase == if go then AtTop else Leaving
    {
      past := past.(matched := past.matched + [msg]);
      match msg {
        case Reply(log) =>
          CaptureQueryLog(log);
          phase := AtTop;
          go := true;
        case Other =>
          phase := AtTop;
          go := true;
        case _ =>
          go := Forward(msg);
      }
    }

    /** The thread returns: the query channel goes with it. */
    method Return()
      requires Valid() && phase.Leaving?
      modifies this`queue, this`past, this`phase, this`trace
      ensures Valid() && phase.Gone? && queue == [] && trace == old(trace) + [Step.Reader(true)]
    {
      ghost var before := Whole();
      past := past.(disposed := past.disposed + Dropped(queue));
      queue, phase := [], Gone;
      LeavingStep(before);
      NoteReader(before, true);
    }

    /** Wait for a message; `false` when the receiver would stay parked, everybody else being at rest. */
    method ParkAtRecv() returns (woken: bool)
      requires Valid() && phase.InRecv?
      modifies this`others, this`stream, this`open, this`queue, this`closed, this`stop
      modifies this`waiting, this`clientGone, this`past, this`trace, this`schedule
      ensures Valid()
      ensures Measure() <= old(Measure())
      ensures if woken then stream != [] || !open else schedule == [] && StuckReceiving(Whole())
    {
      Yield();
      while stream == [] && open && schedule != []
        invariant Valid()
        invariant Measure() <= old(Measure())
        decreases Size(schedule)
      {
        Yield();
      }
      woken := stream != [] || !open;
    }

    /** Wait until the message in hand can be matched; `false` when a send would stay parked. */
    method ParkAtSend(msg: Msg) returns (woken: bool)
      requires Valid() && phase == Matching(msg)
      modifies this`others, this`stream, this`open, this`queue, this`closed, this`stop
      modifies this`waiting, this`clientGone, this`past, this`trace, this`schedule
      ensures Valid()
      ensures Measure() <= old(Measure())
      ensures if woken then FrameOf(msg).Some? ==> CanSend() else schedule == [] && StuckSending(Whole())
    {
      Yield();
      while FrameOf(msg).Some? && !CanSend() && schedule != []
        invariant Valid()
        invariant Measure() <= old(Measure())
        decreases Size(schedule)
      {
        Yield();
      }
      woken := FrameOf(msg).None? || CanSend();
    }

    /** The thread is blocked for good unless another party moves: at `recv`, or in a send to a client that does not read. */
    ghost predicate Parked()
      reads this
    {
      && schedule == []
      && ((phase.InRecv? && StuckReceiving(Whole())) || (phase.Matching? && StuckSending(Whole())))
    }

    /** A stop check, the other parties having moved first. */
    method YieldThenCheckStop() returns (stopped: bool)
      requires Valid() && (phase.AtTop? || phase.AfterRecv?)
      modifies this
      ensures Valid() && Measure() <= old(Measure())
      ensures phase == if stopped then Leaving else if old(phase).AtTop? then BeforeRecv else BeforeMatch(old(phase).msg)
    {
      Yield();
      stopped := CheckStop();
    }

    method YieldThenDrain()
      requires Valid() && (phase.BeforeRecv? || phase.BeforeMatch?)
      modifies this
      ensures Valid() && Measure() <= old(Measure())
      ensures phase == if old(phase).BeforeRecv? then InRecv else Matching(old(phase).msg)
    {
      Yield();
      Drain();
    }

    method ParkThenRecv() returns (msg: Option<Msg>, parked: bool)
      requires Valid() && phase.InRecv?
      modifies this
      ensures Valid()
      ensures parked ==> phase.InRecv? && Parked() && msg == None
      ensures !parked ==> phase == match msg case Some(m) => AfterRecv(m) case None => Leaving
      ensures msg.Some? ==> Measure() < old(Measure())
    {
      var woken := ParkAtRecv();
      parked := !woken;
      msg := None;
      if woken {
        msg := Recv();
      }
    }

    method ParkThenMatch(msg: Msg) returns (go: bool, parked: bool)
      requires Valid() && phase == Matching(msg)
      modifies this
      ensures Valid() && Measure() <= old(Measure())
      ensures parked ==> Parked() && !go
      ensures !parked ==> phase == if go then AtTop else Leaving
    {
      var woken := ParkAtSend(msg);
      go, parked := false, !woken;
      if woken {
        go := Match(msg);
      }
    }

    /** One iteration of the loop; `parked` when it waits for a message, or for room, that nobody will bring. */
    method Iterate() returns (go: bool, parked: bool)
      requires Valid() && phase.AtTop?
      modifies this
      ensures Valid()
      ensures parked ==> Parked() && !go
      ensures !parked ==> phase == if go then AtTop else Leaving
      ensures go ==> Measure() < old(Measure())
    {
      go, parked := false, false;
      var stopped := YieldThenCheckStop();
      if stopped {
        return;
      }
      YieldThenDrain();
      var msg;
      msg, parked := ParkThenRecv();
      if msg.None? {
        return;
      }
      stopped := YieldThenCheckStop();
      if stopped {
        return;
      }
      YieldThenDrain();
      go, parked := ParkThenMatch(msg.value);
    }

    /**
     `render_loop`. It ends with every query of the channel disposed of exactly once and the frames those of
     the messages matched; the count is the number of render frames sent.
     */
    method RenderLoop() returns (count: nat, parked: bool)
      requires Valid() && phase.AtTop?
      modifies this
      ensures Valid()
      ensures if parked then Parked() else phase.Gone? && queue == []
      ensures SaysWhatWasMatched(Whole()) && past.matched <= others.served && count == Renders(Decoded(frames))
      ensures FramesOfMatched(Whole()) && count == RenderCount(frames)
      ensures !parked ==> LeftForReason(Whole())
      ensures parked ==> frames == Image(past.matched) && others.served == past.matched + Hand(phase) + stream
      ensures !parked ==> forall q: nat | q < others.next :: Ended(past.disposed, q) == 1
    {
      var go := true;
      parked := false;
      while go
        invariant Valid()
        invariant parked ==> Parked() && !go
        invariant !parked ==> phase == if go then AtTop else Leaving
        decreases go, Measure()
      {
        go, parked := Iterate();
      }
      if !parked {
        Return();
      }
      count := renders;
      RecordedIsRun(trace, Whole());
      FramesAreImage(trace, Whole());
      FramesSayWhatWasMatched(Whole());
      forall q: nat | q < others.next && !parked
        ensures Ended(past.disposed, q) == 1
      {
        ExactlyOnceDisposal(trace, Whole(), q);
      }
      EveryRunKeeps(trace, Whole());
    }
  }
}
