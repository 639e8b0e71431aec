/**
 What every step of the relay keeps: one owner per reply channel, and no Log before its query is armed.
 */
module RelayInvariants {
  import opened Common
  import opened ZellijLayout
  import opened RelayQuery

  // ─── One owner per reply channel ─────────────────────────────────────────────

  function Queued(queue: seq<nat>, q: nat): nat {
    if queue == [] then 0
    else Queued(queue[..|queue| - 1], q) + if queue[|queue| - 1] == q then 1 else 0
  }

  function Held(slot: Option<InFlight>, q: nat): nat {
    if slot.Some? && slot.value.query == q then 1 else 0
  }

  function Ended(disposed: seq<Disposal>, q: nat): nat {
    if disposed == [] then 0
    else Ended(disposed[..|disposed| - 1], q) + if disposed[|disposed| - 1].query == q then 1 else 0
  }

  /** In how many places the reply channel of `q` is. */
  function Owners(s: State, q: nat): nat {
    Queued(s.queue, q) + LoopOwners(s.loop, q)
  }

  function LoopOwners(l: Loop, q: nat): nat {
    Held(l.slot, q) + Ended(l.disposed, q)
  }

  /** How many reply channels there are in all places together. */
  function Places(s: State): nat {
    |s.queue| + LoopPlaces(s.loop)
  }

  function LoopPlaces(l: Loop): nat {
    (if l.slot.Some? then 1 else 0) + |l.disposed|
  }

  lemma {:induction false} EndedAppend(a: seq<Disposal>, b: seq<Disposal>, q: nat)
    ensures Ended(a + b, q) == Ended(a, q) + Ended(b, q)
  {
    if b == [] {
      assert a + b == a;
    } else {
      EndedAppend(a, b[..|b| - 1], q);
      assert (a + b)[..|a + b| - 1] == a + b[..|b| - 1];
    }
  }

  lemma EmptiedConserves(slot: Option<InFlight>, fate: Fate, q: nat)
    ensures var c := Emptied(slot, fate);
            Held(slot, q) == Ended(c.disposed, q) && |c.disposed| == if slot.Some? then 1 else 0
  {
  }

  lemma {:induction false} ArmedAllConserves(slot: Option<InFlight>, queue: seq<nat>, q: nat)
    ensures var c := ArmedAll(slot, queue);
      && Held(slot, q) + Queued(queue, q) == Held(c.slot, q) + Ended(c.disposed, q)
      && (if slot.Some? then 1 else 0) + |queue| == (if c.slot.Some? then 1 else 0) + |c.disposed|
  {
    if queue != [] {
      var front := queue[..|queue| - 1];
      ArmedAllConserves(slot, front, q);
      var c := ArmedAll(slot, front);
      EmptiedConserves(c.slot, Replaced, q);
      EndedAppend(c.disposed, Emptied(c.slot, Replaced).disposed, q);
    }
  }

  lemma DrainedConserves(slot: Option<InFlight>, queue: seq<nat>, closed: set<nat>, q: nat)
    ensures var c := Drained(slot, queue, closed);
      && Held(slot, q) + Queued(queue, q) == Held(c.slot, q) + Ended(c.disposed, q)
      && (if slot.Some? then 1 else 0) + |queue| == (if c.slot.Some? then 1 else 0) + |c.disposed|
  {
    var kept := RetiredIfClosed(slot, closed);
    EmptiedConserves(slot, Retired, q);
    ArmedAllConserves(kept.slot, queue, q);
    EndedAppend(kept.disposed, ArmedAll(kept.slot, queue).disposed, q);
  }

  lemma CapturedConserves(slot: Option<InFlight>, log: Log, closed: set<nat>, at: nat, q: nat)
    ensures var c := Captured(slot, log, closed, at);
      && Held(slot, q) == Held(c.slot, q) + Ended(c.disposed, q)
      && (if slot.Some? then 1 else 0) == (if c.slot.Some? then 1 else 0) + |c.disposed|
  {
    EmptiedConserves(slot, Retired, q);
    if slot.Some? && slot.value.tabs.Some? {
      EmptiedConserves(slot, Fulfilled(slot.value.tabs.value, log, at), q);
    }
  }

  lemma {:induction false} DroppedConserves(queue: seq<nat>, q: nat)
    ensures Ended(Dropped(queue), q) == Queued(queue, q)
  {
    if queue != [] {
      DroppedConserves(queue[..|queue| - 1], q);
      assert Dropped(queue)[..|queue| - 1] == Dropped(queue[..|queue| - 1]);
    }
  }

  lemma LeftConserves(l: Loop, q: nat)
    ensures LoopOwners(Left(l), q) == LoopOwners(l, q) && LoopPlaces(Left(l)) == LoopPlaces(l)
  {
    EmptiedConserves(l.slot, DroppedAtExit, q);
    EndedAppend(l.disposed, Emptied(l.slot, DroppedAtExit).disposed, q);
  }

  lemma DrainStepConserves(l: Loop, queue: seq<nat>, closed: set<nat>, q: nat)
    ensures var m := DrainStep(l, queue, closed);
      LoopOwners(m, q) == LoopOwners(l, q) + Queued(queue, q) && LoopPlaces(m) == LoopPlaces(l) + |queue|
  {
    DrainedConserves(l.slot, queue, closed, q);
    EndedAppend(l.disposed, Drained(l.slot, queue, closed).disposed, q);
  }

  lemma DrainToMatchConserves(l: Loop, queue: seq<nat>, closed: set<nat>, msg: Msg, q: nat)
    ensures var m := DrainToMatch(l, queue, closed, msg);
      LoopOwners(m, q) == LoopOwners(l, q) + Queued(queue, q) && LoopPlaces(m) == LoopPlaces(l) + |queue|
  {
    DrainStepConserves(l, queue, closed, q);
    LeftConserves(DrainStep(l, queue, closed), q);
  }

  lemma MatchConserves(l: Loop, msg: Msg, closed: set<nat>, sent: bool, q: nat)
    ensures var m := MatchStep(l, msg, closed, sent);
      LoopOwners(m, q) == LoopOwners(l, q) && LoopPlaces(m) == LoopPlaces(l)
  {
    var m := l.(matched := l.matched + [msg]);
    if msg.Reply? {
      CapturedConserves(l.slot, msg.log, closed, |l.seen|, q);
      EndedAppend(l.disposed, Captured(l.slot, msg.log, closed, |l.seen|).disposed, q);
    } else if !msg.Other? {
      LeftConserves(if sent then m.(frames := m.frames + [FrameOf(msg).value]) else m, q);
    }
  }

  lemma ReaderConserves(s: State, sent: bool, q: nat)
    requires ReaderEnabled(s)
    ensures Owners(ReaderStep(s, sent), q) == Owners(s, q) && Places(ReaderStep(s, sent)) == Places(s)
  {
    match s.loop.phase
    case BeforeRecv => DrainStepConserves(s.loop, s.queue, s.closed, q);
    case BeforeMatch(msg) => DrainToMatchConserves(s.loop, s.queue, s.closed, msg, q);
    case Matching(msg) => MatchConserves(s.loop, msg, s.closed, sent, q);
    case Leaving =>
      DroppedConserves(s.queue, q);
      EndedAppend(s.loop.disposed, Dropped(s.queue), q);
    case AtTop => PlainConserves(s, sent, q);
    case InRecv => PlainConserves(s, sent, q);
    case AfterRecv(_) => PlainConserves(s, sent, q);
  }

  lemma PlainConserves(s: State, sent: bool, q: nat)
    requires ReaderEnabled(s) && (s.loop.phase.AtTop? || s.loop.phase.InRecv? || s.loop.phase.AfterRecv?)
    ensures Owners(ReaderStep(s, sent), q) == Owners(s, q) && Places(ReaderStep(s, sent)) == Places(s)
  {
    LeftConserves(s.loop, q);
  }

  lemma StepConserves(s: State, step: Step, q: nat)
    requires Enabled(s, step)
    ensures var t := Apply(s, step);
      if step.HandOff? then Owners(t, q) == Owners(s, q) + (if q == s.next then 1 else 0) && Places(t) == Places(s) + 1
      else Owners(t, q) == Owners(s, q) && Places(t) == Places(s)
  {
    match step
    case HandOff => EndedAppend(s.loop.disposed, [Disposal(s.next, Returned)], q);
    case Reader(sent) => ReaderConserves(s, sent, q);
    case _ =>
  }

  /** A reader that left its loop holds no query, and none is queued for a reader that is gone. */
  predicate HoldsNothing(s: State) {
    && (s.loop.phase.Leaving? || s.loop.phase.Gone? ==> s.loop.slot == None)
    && (s.loop.phase.Gone? ==> s.queue == [])
  }

  /** Every query handed off so far has one owner, later ids have none; what is gone holds nothing. */
  ghost predicate OneOwner(s: State) {
    && (forall q: nat :: Owners(s, q) == if q < s.next then 1 else 0)
    && Places(s) == s.next
    && HoldsNothing(s)
  }

  lemma HoldsNothingStep(s: State, step: Step)
    requires HoldsNothing(s) && Enabled(s, step)
    ensures HoldsNothing(Apply(s, step))
  {
  }

  lemma OneOwnerStep(s: State, step: Step)
    requires OneOwner(s) && Enabled(s, step)
    ensures OneOwner(Apply(s, step))
  {
    var t := Apply(s, step);
    assert t.next == s.next + if step.HandOff? then 1 else 0;
    HoldsNothingStep(s, step);
    forall q: nat
      ensures Owners(t, q) == if q < t.next then 1 else 0
    {
      StepConserves(s, step, q);
      assert Owners(s, q) == if q < s.next then 1 else 0;
    }
    StepConserves(s, step, 0);
  }

  /** Reply channels are conserved over every run: one owner each, and none is ever disposed of twice. */
  lemma {:induction false} OneOwnerRun(s: State, run: seq<Step>, t: State)
    requires OneOwner(s) && Run(s, run, t)
    ensures OneOwner(t)
    decreases |run|
  {
    if run != [] {
      OneOwnerStep(s, run[0]);
      OneOwnerRun(Apply(s, run[0]), run[1..], t);
    }
  }

  // ─── Tags on their way to the slot ──────────────────────────────────────────

  function TagOf(msg: Msg): seq<Request> {
    if msg.Reply? then [msg.log.tag] else []
  }

  function TagsOf(msgs: seq<Msg>): seq<Request> {
    if msgs == [] then [] else TagOf(msgs[0]) + TagsOf(msgs[1..])
  }

  lemma Regroup<T>(a: seq<T>, b: seq<T>, c: seq<T>)
    ensures a + b + c == a + (b + c)
  {
  }

  lemma {:induction false} TagsOfSnoc(msgs: seq<Msg>, msg: Msg)
    ensures TagsOf(msgs + [msg]) == TagsOf(msgs) + TagOf(msg)
  {
    if msgs == [] {
      assert [msg][1..] == [];
    } else {
      TagsOfSnoc(msgs[1..], msg);
      var more, rest := msgs + [msg], msgs[1..] + [msg];
      assert more[1..] == rest;
      assert TagsOf(more) == TagOf(msgs[0]) + TagsOf(rest);
      Regroup(TagOf(msgs[0]), TagsOf(msgs[1..]), TagOf(msg));
    }
  }

  /** The tag of a message that was received but not yet shown to the slot. */
  function InHand(phase: Phase): seq<Request> {
    match phase
    case AfterRecv(msg) => TagOf(msg)
    case BeforeMatch(msg) => TagOf(msg)
    case _ => []
  }

  /** The tags of all Logs still owed, in the order in which they will reach the slot. */
  function Ahead(s: State): seq<Request> {
    InHand(s.loop.phase) + Behind(s)
  }

  /** The owed tags whose Logs were not received yet. */
  function Behind(s: State): seq<Request> {
    TagsOf(s.stream) + s.requests + s.firing
  }

  lemma AheadAfterServing(s: State, text: Text)
    requires s.requests != []
    ensures Ahead(Serving(s.(requests := s.requests[1..]), Reply(Log(s.requests[0], text)))) == Ahead(s)
  {
    TagsOfSnoc(s.stream, Reply(Log(s.requests[0], text)));
  }

  lemma AheadAfterEmitting(s: State, msg: Msg)
    requires !msg.Reply?
    ensures Ahead(Serving(s, msg)) == Ahead(s)
  {
    TagsOfSnoc(s.stream, msg);
  }

  /** A tag stops being ahead when the reader goes on to match its message, or stops. */
  predicate TakesTag(s: State) {
    s.loop.phase.BeforeMatch? || (s.loop.phase.AfterRecv? && s.stop)
  }

  lemma AheadAfterReading(s: State, sent: bool)
    requires ReaderEnabled(s)
    ensures Ahead(s) == (if TakesTag(s) then TagOf(s.loop.phase.msg) else []) + Ahead(ReaderStep(s, sent))
  {
    var t := ReaderStep(s, sent);
    if s.loop.phase.InRecv? && s.stream != [] {
      BehindFirst(s);
    } else {
      assert Behind(t) == Behind(s);
    }
  }

  /** The Log received next is the first of those owed. */
  lemma BehindFirst(s: State)
    requires s.stream != []
    ensures Behind(s) == TagOf(s.stream[0]) + Behind(s.(stream := s.stream[1..]))
  {
    var first, rest := TagOf(s.stream[0]), TagsOf(s.stream[1..]);
    Regroup(first, rest, s.requests);
    Regroup(first, rest + s.requests, s.firing);
  }

  /** Logs answer only queries that were handed off; the query of a Log being matched is no longer in the channel. */
  ghost predicate ArmedBeforeFired(s: State) {
    && (forall r | r in Ahead(s) :: r.query < s.next)
    && (s.loop.phase.Matching? && s.loop.phase.msg.Reply? ==>
          var q := s.loop.phase.msg.log.tag.query; q < s.next && q !in s.queue)
  }

  lemma ArmedBeforeFiredReader(s: State, sent: bool)
    requires ArmedBeforeFired(s) && ReaderEnabled(s)
    ensures ArmedBeforeFired(ReaderStep(s, sent))
  {
    AheadAfterReading(s, sent);
    if TakesTag(s) && s.loop.phase.msg.Reply? {
      assert s.loop.phase.msg.log.tag in Ahead(s);
    }
  }

  lemma ArmedBeforeFiredStep(s: State, step: Step)
    requires ArmedBeforeFired(s) && Enabled(s, step)
    ensures ArmedBeforeFired(Apply(s, step))
  {
    match step
    case Reader(sent) => ArmedBeforeFiredReader(s, sent);
    case Serve(text) => AheadAfterServing(s, text);
    case Emit(msg) => AheadAfterEmitting(s, msg);
    case _ =>
  }

  /**
   Arm-before-fire: whenever a Log of query q is matched, q has left the channel, and it is in the slot unless its
   reply channel was already disposed of.
   */
  lemma MatchedQueryIsArmed(s: State)
    requires OneOwner(s) && ArmedBeforeFired(s)
    requires s.loop.phase.Matching? && s.loop.phase.msg.Reply?
    ensures var q := s.loop.phase.msg.log.tag.query;
      q !in s.queue && (Holder(s.loop.slot) == Some(q) || exists d :: d in s.loop.disposed && d.query == q)
  {
    var q := s.loop.phase.msg.log.tag.query;
    assert Owners(s, q) == 1;
    QueuedIsMember(s.queue, q);
    EndedIsMember(s.loop.disposed, q);
  }

  lemma {:induction false} QueuedIsMember(queue: seq<nat>, q: nat)
    ensures Queued(queue, q) > 0 <==> q in queue
  {
    if queue != [] {
      QueuedIsMember(queue[..|queue| - 1], q);
      assert queue == queue[..|queue| - 1] + [queue[|queue| - 1]];
    }
  }

  lemma {:induction false} EndedIsMember(disposed: seq<Disposal>, q: nat)
    ensures Ended(disposed, q) > 0 <==> exists d :: d in disposed && d.query == q
  {
    if disposed != [] {
      var front, last := disposed[..|disposed| - 1], disposed[|disposed| - 1];
      EndedIsMember(front, q);
      assert disposed == front + [last];
      assert forall d :: d in disposed <==> d in front || d == last;
    }
  }
}
