/**
 To which query a Log is attributed.

 Logs are untagged on the wire, so a query can be answered from Logs of an earlier one. The theorems below say exactly
 when: a query handed off while nothing is owed to earlier queries is only ever answered from its own two Logs, and a
 query handed off while something is owed can be answered from a Log that is not its own.
 */
module RelayAttribution {
  import opened Common
  import opened ZellijLayout
  import opened RelayQuery
  import opened RelayInvariants
  import opened RelayRuns

  /** A fulfilled reply of `q` is made from the tabs Log and the panes Log of `q` itself. */
  predicate OwnLogs(q: nat, fate: Fate) {
    fate.Fulfilled? ==> fate.tabs.tag == Request(q, TabsHalf) && fate.panes.tag == Request(q, PanesHalf)
  }

  ghost predicate AnsweredFromOwnLogs(l: Loop, q: nat) {
    forall d | d in l.disposed && d.query == q :: OwnLogs(q, d.fate)
  }

  // ─── Quiescent hand-off ⇒ own Logs ──────────────────────────────────────────

  /** Tags of `q` alone, at most one of each half, tabs first. */
  predicate OwnTags(tags: seq<Request>, q: nat) {
    && |tags| <= 2
    && (forall r | r in tags :: r.query == q)
    && (|tags| == 2 ==> tags[0].half == TabsHalf && tags[1].half == PanesHalf)
  }

  /** The tag in the hand of a reader about to show it to the slot. */
  function Shown(phase: Phase): seq<Request> {
    if phase.Matching? then TagOf(phase.msg) else []
  }

  /** The Logs that may still be shown to a slot held by `q` fit what it captured so far. */
  predicate DueFits(tabs: Option<Log>, due: seq<Request>, q: nat) {
    match tabs
    case None => OwnTags(due, q)
    case Some(log) =>
      if log.tag == Request(q, TabsHalf) then due == [] || due == [Request(q, PanesHalf)] else due == []
  }

  /** Where the last handed-off query `q` stands, and what may still reach the slot. */
  ghost predicate Standing(l: Loop, queue: seq<nat>, ahead: seq<Request>, q: nat) {
    if queue != [] then queue[|queue| - 1] == q && Holder(l.slot) != Some(q) && OwnTags(ahead, q)
    else Holder(l.slot) == Some(q) ==> DueFits(l.slot.value.tabs, Shown(l.phase) + ahead, q)
  }

  ghost predicate Tracked(s: State, q: nat) {
    AnsweredFromOwnLogs(s.loop, q) && Standing(s.loop, s.queue, Ahead(s), q)
  }

  /** Nothing is owed to any earlier query. */
  predicate Quiet(s: State) {
    Ahead(s) == []
  }

  lemma TrackedAtHandOff(s: State)
    requires OneOwner(s) && Enabled(s, HandOff) && Quiet(s)
    ensures Tracked(Apply(s, HandOff), s.next)
  {
    var t, q := Apply(s, HandOff), s.next;
    assert Owners(s, q) == 0;
    EndedIsMember(s.loop.disposed, q);
    assert t.loop.phase.Gone? || Behind(t) == [Request(q, TabsHalf), Request(q, PanesHalf)];
  }

  lemma {:induction false} ArmedAllDisposesOthers(slot: Option<InFlight>, queue: seq<nat>, q: nat)
    ensures forall d | d in ArmedAll(slot, queue).disposed :: OwnLogs(q, d.fate)
    ensures queue != [] ==> ArmedAll(slot, queue).slot == Some(InFlight(queue[|queue| - 1], None))
  {
    if queue != [] {
      ArmedAllDisposesOthers(slot, queue[..|queue| - 1], q);
    }
  }

  lemma TrackedDrain(s: State, sent: bool, q: nat)
    requires Tracked(s, q) && (s.loop.phase.BeforeRecv? || s.loop.phase.BeforeMatch?)
    ensures Tracked(ReaderStep(s, sent), q)
  {
    if s.loop.phase.BeforeRecv? {
      TrackedDrainToRecv(s, sent, q);
    } else {
      TrackedDrainToMatch(s, sent, q);
    }
  }

  lemma TrackedDrainToRecv(s: State, sent: bool, q: nat)
    requires Tracked(s, q) && s.loop.phase.BeforeRecv?
    ensures Tracked(ReaderStep(s, sent), q)
  {
    var t := ReaderStep(s, sent);
    AheadAfterReading(s, sent);
    ArmedAllDisposesOthers(RetiredIfClosed(s.loop.slot, s.closed).slot, s.queue, q);
    assert Shown(t.loop.phase) + Ahead(t) == Ahead(s);
    assert Shown(s.loop.phase) + Ahead(s) == Ahead(s);
  }

  lemma TrackedDrainToMatch(s: State, sent: bool, q: nat)
    requires Tracked(s, q) && s.loop.phase.BeforeMatch?
    ensures Tracked(ReaderStep(s, sent), q)
  {
    var t, msg := ReaderStep(s, sent), s.loop.phase.msg;
    AheadAfterReading(s, sent);
    DrainStands(s.loop, s.queue, s.closed, msg, Ahead(t), q);
    if IsExit(msg) {
      var m := DrainStep(s.loop, s.queue, s.closed).(phase := Matching(msg));
      assert AnsweredFromOwnLogs(m, q);
      ExitStands(m, t.loop, Ahead(t), q);
    }
  }

  lemma DrainStands(l: Loop, queue: seq<nat>, closed: set<nat>, msg: Msg, ahead: seq<Request>, q: nat)
    requires AnsweredFromOwnLogs(l, q) && l.phase == BeforeMatch(msg) && Standing(l, queue, TagOf(msg) + ahead, q)
    ensures var m := DrainStep(l, queue, closed).(phase := Matching(msg));
      AnsweredFromOwnLogs(m, q) && Standing(m, [], ahead, q)
  {
    ArmedAllDisposesOthers(RetiredIfClosed(l.slot, closed).slot, queue, q);
    assert Shown(l.phase) + (TagOf(msg) + ahead) == TagOf(msg) + ahead;
  }

  lemma ExitStands(l: Loop, m: Loop, ahead: seq<Request>, q: nat)
    requires AnsweredFromOwnLogs(l, q) && m.slot == None
    requires m.disposed == l.disposed + Emptied(l.slot, DroppedAtExit).disposed
    ensures AnsweredFromOwnLogs(m, q) && Standing(m, [], ahead, q)
  {
  }

  lemma ReplyStands(l: Loop, log: Log, closed: set<nat>, queue: seq<nat>, ahead: seq<Request>, q: nat)
    requires AnsweredFromOwnLogs(l, q) && l.phase == Matching(Reply(log)) && Standing(l, queue, ahead, q)
    ensures var m := ReplyStep(l, log, closed); AnsweredFromOwnLogs(m, q) && Standing(m, queue, ahead, q)
  {
    var m := ReplyStep(l, log, closed);
    if queue == [] && Holder(l.slot) == Some(q) {
      var due := Shown(l.phase) + ahead;
      assert due[0] == log.tag && due[1..] == ahead == Shown(m.phase) + ahead;
      assert |due| == 1 + |ahead|;
    }
  }

  lemma ForwardStands(l: Loop, msg: Msg, closed: set<nat>, sent: bool, queue: seq<nat>, ahead: seq<Request>, q: nat)
    requires AnsweredFromOwnLogs(l, q) && l.phase == Matching(msg) && !msg.Reply? && Standing(l, queue, ahead, q)
    ensures var m := MatchStep(l, msg, closed, sent); AnsweredFromOwnLogs(m, q) && Standing(m, queue, ahead, q)
  {
    assert Shown(l.phase) == [];
  }

  lemma TrackedMatch(s: State, sent: bool, q: nat)
    requires Tracked(s, q) && s.loop.phase.Matching?
    ensures Tracked(ReaderStep(s, sent), q)
  {
    AheadAfterReading(s, sent);
    var msg := s.loop.phase.msg;
    if msg.Reply? {
      ReplyStands(s.loop.(matched := s.loop.matched + [msg]), msg.log, s.closed, s.queue, Ahead(s), q);
    } else {
      ForwardStands(s.loop, msg, s.closed, sent, s.queue, Ahead(s), q);
    }
  }

  lemma StandingShrinks(l: Loop, queue: seq<nat>, a: seq<Request>, b: seq<Request>, c: seq<Request>, q: nat)
    requires Standing(l, queue, a + b + c, q)
    ensures Standing(l, queue, a + c, q)
  {
    var shown := Shown(l.phase);
    assert shown + (a + b + c) == (shown + a) + b + c;
    assert shown + (a + c) == (shown + a) + c;
    DueShrinks(shown + a, b, c, q);
    DueShrinks(a, b, c, q);
  }

  lemma DueShrinks(a: seq<Request>, b: seq<Request>, c: seq<Request>, q: nat)
    ensures OwnTags(a + b + c, q) ==> OwnTags(a + c, q)
    ensures a + b + c == [] ==> a + c == []
    ensures forall r :: a + b + c == [r] ==> a + c == [] || a + c == [r]
  {
    if OwnTags(a + b + c, q) {
      assert forall r | r in a + c :: r in a + b + c;
      if |a + c| == 2 {
        assert b == [];
        assert a + b + c == a + c;
      }
    }
    forall r | a + b + c == [r]
      ensures a + c == [] || a + c == [r]
    {
      if b == [] {
        assert a + b + c == a + c;
      }
    }
  }

  predicate PlainRead(phase: Phase) {
    phase.AtTop? || phase.InRecv? || phase.AfterRecv? || phase.Leaving? || phase.Gone?
  }

  lemma PlainReadAnswersNone(s: State, sent: bool, q: nat)
    requires ReaderEnabled(s) && PlainRead(s.loop.phase) && AnsweredFromOwnLogs(s.loop, q) && HoldsNothing(s)
    ensures var t := ReaderStep(s, sent);
      && AnsweredFromOwnLogs(t.loop, q)
      && Shown(t.loop.phase) == Shown(s.loop.phase) == []
      && (t.loop.slot == s.loop.slot || t.loop.slot == None)
      && (t.queue == s.queue || (t.queue == [] && s.loop.slot == None))
  {
  }

  lemma StandingPasses(l: Loop, m: Loop, queue: seq<nat>, queue': seq<nat>, ahead: seq<Request>, q: nat)
    requires Standing(l, queue, ahead, q) && Shown(m.phase) == Shown(l.phase)
    requires m.slot == l.slot || m.slot == None
    requires queue' == queue || (queue' == [] && l.slot == None)
    ensures Standing(m, queue', ahead, q)
  {
  }

  lemma StandingLoses(l: Loop, queue: seq<nat>, taken: seq<Request>, ahead: seq<Request>, q: nat)
    requires Standing(l, queue, taken + ahead, q)
    ensures Standing(l, queue, ahead, q)
  {
    assert [] + taken + ahead == taken + ahead;
    StandingShrinks(l, queue, [], taken, ahead, q);
    assert [] + ahead == ahead;
  }

  lemma TrackedRead(s: State, sent: bool, q: nat)
    requires Tracked(s, q) && ReaderEnabled(s) && PlainRead(s.loop.phase) && HoldsNothing(s)
    ensures Tracked(ReaderStep(s, sent), q)
  {
    AheadAfterReading(s, sent);
    PlainReadAnswersNone(s, sent, q);
    var t := ReaderStep(s, sent);
    var taken, ahead := if TakesTag(s) then TagOf(s.loop.phase.msg) else [], Ahead(t);
    StandingLoses(s.loop, s.queue, taken, ahead, q);
    StandingPasses(s.loop, t.loop, s.queue, t.queue, ahead, q);
  }

  lemma TrackedReader(s: State, sent: bool, q: nat)
    requires Tracked(s, q) && ReaderEnabled(s) && HoldsNothing(s)
    ensures Tracked(ReaderStep(s, sent), q)
  {
    match s.loop.phase
    case BeforeRecv => TrackedDrain(s, sent, q);
    case BeforeMatch(_) => TrackedDrain(s, sent, q);
    case Matching(_) => TrackedMatch(s, sent, q);
    case _ => TrackedRead(s, sent, q);
  }

  lemma AheadAround(s: State, hand: seq<Request>, rest: seq<Request>)
    requires s.requests != []
    requires hand == InHand(s.loop.phase) + TagsOf(s.stream) && rest == s.requests[1..] + s.firing
    ensures Ahead(s) == hand + [s.requests[0]] + rest
    ensures Ahead(s.(requests := s.requests[1..])) == hand + rest
  {
    assert s.requests == [s.requests[0]] + s.requests[1..];
  }

  lemma TrackedSkip(s: State, q: nat)
    requires Tracked(s, q) && s.requests != []
    ensures Tracked(s.(requests := s.requests[1..]), q)
  {
    var hand, rest := InHand(s.loop.phase) + TagsOf(s.stream), s.requests[1..] + s.firing;
    AheadAround(s, hand, rest);
    StandingShrinks(s.loop, s.queue, hand, [s.requests[0]], rest, q);
  }

  lemma TrackedFire(s: State, q: nat)
    requires Tracked(s, q) && s.firing != []
    ensures Tracked(s.(firing := s.firing[1..], requests := s.requests + [s.firing[0]]), q)
  {
    FireKeepsAhead(s);
  }

  lemma TrackedMisfire(s: State, q: nat)
    requires Tracked(s, q)
    ensures Tracked(s.(firing := []), q)
  {
    var sent := InHand(s.loop.phase) + TagsOf(s.stream) + s.requests;
    assert Ahead(s) == sent + s.firing + [];
    assert Ahead(s.(firing := [])) == sent + [];
    StandingShrinks(s.loop, s.queue, sent, s.firing, [], q);
  }

  lemma TrackedStep(s: State, step: Step, q: nat)
    requires Tracked(s, q) && HoldsNothing(s) && Enabled(s, step) && !step.HandOff?
    ensures Tracked(Apply(s, step), q)
  {
    match step
    case Reader(sent) => TrackedReader(s, sent, q);
    case Serve(text) => AheadAfterServing(s, text);
    case Emit(msg) => AheadAfterEmitting(s, msg);
    case Skip => TrackedSkip(s, q);
    case Fire(ok) => if ok { TrackedFire(s, q); } else { TrackedMisfire(s, q); }
    case _ =>
  }

  lemma {:induction false} TrackedRun(s: State, run: seq<Step>, t: State, q: nat)
    requires Tracked(s, q) && HoldsNothing(s) && Run(s, run, t) && HandOff !in run
    ensures Tracked(t, q)
    decreases |run|
  {
    if run != [] {
      TrackedStep(s, run[0], q);
      HoldsNothingStep(s, run[0]);
      TrackedRun(Apply(s, run[0]), run[1..], t, q);
    }
  }

  /**
   Per-query attribution. From any state, however misaligned its history: if q is handed off when no Log is owed to an
   earlier query, and no later query is handed off before q is resolved, then q is only ever answered from its own tabs
   Log and its own panes Log.
   */
  lemma QuietHandOffIsAnsweredFromOwnLogs(s: State, run: seq<Step>, m: State, later: seq<Step>, t: State)
    requires OneOwner(s) && Enabled(s, HandOff) && Quiet(s)
    requires Run(Apply(s, HandOff), run, m) && HandOff !in run
    requires Run(m, later, t) && (later == [] || Ended(m.loop.disposed, s.next) > 0)
    ensures AnsweredFromOwnLogs(t.loop, s.next)
  {
    var q, s1 := s.next, Apply(s, HandOff);
    OneOwnerStep(s, HandOff);
    TrackedAtHandOff(s);
    TrackedRun(s1, run, m, q);
    OneOwnerRun(s1, run, m);
    OneOwnerRun(m, later, t);
    DisposalsGrow(m, later, t);
    if later != [] {
      var before, after := m.loop.disposed, t.loop.disposed;
      assert after == before + after[|before|..];
      EndedAppend(before, after[|before|..], q);
      assert Owners(t, q) == 1;
      EndedIsMember(after[|before|..], q);
    }
  }

  // ─── Something owed ⇒ a foreign Log is possible ─────────────────────────────

  predicate PhaseIsLive(phase: Phase) {
    match phase
    case AfterRecv(msg) => !IsExit(msg)
    case BeforeMatch(msg) => !IsExit(msg)
    case Matching(msg) => !IsExit(msg)
    case Leaving => false
    case Gone => false
    case _ => true
  }

  /** The relay is up: no stop, no Exit and no end of stream before what is on the way, and the client is there. */
  predicate Live(s: State) {
    !s.stop && s.open && !s.outbound.gone && PhaseIsLive(s.loop.phase) && forall msg | msg in s.stream :: !IsExit(msg)
  }

  /** `q` was handed off last and is not resolved: at the end of the channel, or in the slot. */
  predicate Waiting(s: State, q: nat) {
    && q !in s.closed
    && (if s.queue != [] then s.queue[|s.queue| - 1] == q && Holder(s.loop.slot) != Some(q)
        else Holder(s.loop.slot) == Some(q))
  }

  /** What the slot will be shown while `q` holds it. */
  function Due(s: State): seq<Request> {
    (if s.queue == [] then Shown(s.loop.phase) else []) + Ahead(s)
  }

  function TabsSoFar(s: State): Option<Log> {
    if s.queue == [] && s.loop.slot.Some? then s.loop.slot.value.tabs else None
  }

  /** The halves that `q` will be answered from once all Logs on the way are received. */
  function FirstHalf(s: State): Option<Request> {
    match TabsSoFar(s)
    case Some(log) => Some(log.tag)
    case None => if Due(s) != [] then Some(Due(s)[0]) else None
  }

  predicate EnoughDue(s: State) {
    |Due(s)| >= if TabsSoFar(s).Some? then 1 else 2
  }

  /** Reader steps to go: messages first, then program points. */
  function Distance(s: State): nat {
    8 * |s.stream| +
    match s.loop.phase
    case AfterRecv(_) => 7
    case BeforeMatch(_) => 6
    case Matching(_) => 5
    case AtTop => 4
    case BeforeRecv => 3
    case InRecv => 2
    case Leaving => 1
    case Gone => 0
  }

  ghost predicate FulfilledFrom(l: Loop, q: nat, first: Request) {
    exists d :: d in l.disposed && d.query == q && d.fate.Fulfilled? && d.fate.tabs.tag == first
  }

  ghost predicate OnCourse(s: State, q: nat, first: Request) {
    && Live(s) && Waiting(s, q) && EnoughDue(s) && FirstHalf(s) == Some(first)
    && s.requests == [] && s.firing == []
  }

  lemma DrainOnCourse(s: State, q: nat, first: Request)
    requires OnCourse(s, q, first) && (s.loop.phase.BeforeRecv? || s.loop.phase.BeforeMatch?)
    ensures OnCourse(ReaderStep(s, true), q, first)
  {
    var t := ReaderStep(s, true);
    AheadAfterReading(s, true);
    ArmedAllDisposesOthers(RetiredIfClosed(s.loop.slot, s.closed).slot, s.queue, q);
    assert Due(t) == Shown(t.loop.phase) + Ahead(t) == Ahead(s) == Due(s);
  }

  lemma MatchOnCourse(s: State, q: nat, first: Request)
    requires OnCourse(s, q, first) && s.loop.phase.Matching?
    ensures var t := ReaderStep(s, true);
      OnCourse(t, q, first) || FulfilledFrom(t.loop, q, first)
  {
    AheadAfterReading(s, true);
    if s.loop.phase.msg.Reply? {
      LogOnCourse(s, q, first, s.loop.phase.msg.log);
    } else {
      var t := ReaderStep(s, true);
      assert Due(t) == Ahead(t) == Ahead(s) == Due(s);
    }
  }

  lemma LogOnCourse(s: State, q: nat, first: Request, log: Log)
    requires OnCourse(s, q, first) && s.loop.phase == Matching(Reply(log)) && Ahead(ReaderStep(s, true)) == Ahead(s)
    ensures var t := ReaderStep(s, true);
      OnCourse(t, q, first) || FulfilledFrom(t.loop, q, first)
  {
    if s.queue == [] && TabsSoFar(s).Some? {
      LogAnswers(s, q, first, log);
    } else if s.queue == [] {
      LogIsTabs(s, q, first, log);
    } else {
      LogIsNotDue(s, q, first, log);
    }
  }

  /** The query is still in the channel: the Log goes to another holder, or to nobody. */
  lemma LogIsNotDue(s: State, q: nat, first: Request, log: Log)
    requires OnCourse(s, q, first) && s.loop.phase == Matching(Reply(log)) && Ahead(ReaderStep(s, true)) == Ahead(s)
    requires s.queue != []
    ensures OnCourse(ReaderStep(s, true), q, first)
  {
    var t := ReaderStep(s, true);
    assert t.queue == s.queue && t.closed == s.closed && t.stream == s.stream;
    assert TabsSoFar(t) == TabsSoFar(s) == None;
    assert Due(t) == Ahead(s) == Due(s);
  }

  lemma LogAnswers(s: State, q: nat, first: Request, log: Log)
    requires OnCourse(s, q, first) && s.loop.phase == Matching(Reply(log)) && s.queue == [] && TabsSoFar(s).Some?
    ensures FulfilledFrom(ReaderStep(s, true).loop, q, first)
  {
    var t := ReaderStep(s, true);
    var d := Disposal(q, Fulfilled(TabsSoFar(s).value, log, |s.loop.seen|));
    assert t.loop.disposed[|t.loop.disposed| - 1] == d;
  }

  lemma LogIsTabs(s: State, q: nat, first: Request, log: Log)
    requires OnCourse(s, q, first) && s.loop.phase == Matching(Reply(log)) && Ahead(ReaderStep(s, true)) == Ahead(s)
    requires s.queue == [] && TabsSoFar(s).None?
    ensures OnCourse(ReaderStep(s, true), q, first)
  {
    var t := ReaderStep(s, true);
    assert t.loop.slot == Some(InFlight(q, Some(log)));
    assert Due(t) == Ahead(t) == Ahead(s);
    assert Due(s) == [log.tag] + Ahead(s);
  }

  lemma ReadOnCourse(s: State, q: nat, first: Request)
    requires OnCourse(s, q, first) && (s.loop.phase.AtTop? || s.loop.phase.InRecv? || s.loop.phase.AfterRecv?)
    ensures ReaderEnabled(s) && OnCourse(ReaderStep(s, true), q, first)
  {
    if s.loop.phase.InRecv? {
      RecvOnCourse(s, q, first);
    } else {
      AheadAfterReading(s, true);
    }
  }

  lemma RecvOnCourse(s: State, q: nat, first: Request)
    requires OnCourse(s, q, first) && s.loop.phase.InRecv?
    ensures ReaderEnabled(s) && OnCourse(ReaderStep(s, true), q, first)
  {
    assert s.stream != [];
    var t := ReaderStep(s, true);
    AheadAfterReading(s, true);
    assert s.stream[0] in s.stream;
    assert forall msg | msg in t.stream :: msg in s.stream;
    assert Due(t) == Ahead(t) == Ahead(s) == Due(s);
  }

  /** From a live relay, the reader and a client that reads bring `q` to an answer made from the first Log due. */
  lemma {:induction false} ReadToAnswer(s: State, q: nat, first: Request) returns (run: seq<Step>, t: State)
    requires OnCourse(s, q, first)
    ensures Run(s, run, t) && HandOff !in run && FulfilledFrom(t.loop, q, first)
    decreases Distance(s), s.outbound.waiting
  {
    if s.outbound.waiting >= RENDER_CHANNEL_BOUND {
      var u := Apply(s, ClientReads);
      RunOne(s, ClientReads);
      var rest;
      rest, t := ReadToAnswer(u, q, first);
      RunAppend(s, [ClientReads], u, rest, t);
      return [ClientReads] + rest, t;
    }
    match s.loop.phase {
      case BeforeRecv => DrainOnCourse(s, q, first);
      case BeforeMatch(_) => DrainOnCourse(s, q, first);
      case Matching(_) => MatchOnCourse(s, q, first);
      case _ => ReadOnCourse(s, q, first);
    }
    var step := Reader(true);
    var u := Apply(s, step);
    RunOne(s, step);
    if FulfilledFrom(u.loop, q, first) {
      return [step], u;
    }
    DistanceFalls(s);
    var rest;
    rest, t := ReadToAnswer(u, q, first);
    RunAppend(s, [step], u, rest, t);
    run := [step] + rest;
  }

  lemma DistanceFalls(s: State)
    requires ReaderEnabled(s)
    ensures Distance(ReaderStep(s, true)) < Distance(s)
  {
  }

  /** The server answers everything that was asked. */
  lemma {:induction false} ServeAll(s: State, q: nat) returns (run: seq<Step>, t: State)
    requires Live(s) && Waiting(s, q) && s.queue != [] && s.firing == []
    ensures Run(s, run, t) && HandOff !in run
    ensures Live(t) && Waiting(t, q) && t.queue != [] && t.firing == [] && t.requests == [] && Ahead(t) == Ahead(s)
    decreases |s.requests|
  {
    if s.requests == [] {
      return [], s;
    }
    var text := Text(true, None, None);
    var u := Apply(s, Serve(text));
    AheadAfterServing(s, text);
    var rest;
    rest, t := ServeAll(u, q);
    RunOne(s, Serve(text));
    RunAppend(s, [Serve(text)], u, rest, t);
    run := [Serve(text)] + rest;
  }

  lemma FireKeepsAhead(s: State)
    requires s.firing != []
    ensures Ahead(s.(firing := s.firing[1..], requests := s.requests + [s.firing[0]])) == Ahead(s)
  {
  }

  /** Hand off and fire both actions. */
  lemma HandOffAndFire(s: State) returns (run: seq<Step>, t: State)
    requires Inv(s) && Live(s) && Enabled(s, HandOff)
    ensures Run(Apply(s, HandOff), run, t) && HandOff !in run
    ensures Live(t) && Waiting(t, s.next) && t.queue != [] && t.firing == []
    ensures Ahead(t) == Ahead(s) + [Request(s.next, TabsHalf), Request(s.next, PanesHalf)]
  {
    var q, s1 := s.next, Apply(s, HandOff);
    var s2 := Apply(s1, Fire(true));
    t := Apply(s2, Fire(true));
    assert Owners(s, q) == 0;
    assert Behind(s1) == Behind(s) + [Request(q, TabsHalf), Request(q, PanesHalf)];
    FireKeepsAhead(s1);
    FireKeepsAhead(s2);
    RunOne(s1, Fire(true));
    RunOne(s2, Fire(true));
    RunAppend(s1, [Fire(true)], s2, [Fire(true)], t);
    run := [Fire(true)] + [Fire(true)];
  }

  /** On a live relay a query handed off now can be answered, from the first Log that is then due. */
  lemma HandOffCanBeAnswered(s: State) returns (run: seq<Step>, t: State)
    requires Inv(s) && Live(s) && Enabled(s, HandOff)
    ensures Run(Apply(s, HandOff), run, t) && HandOff !in run
    ensures FulfilledFrom(t.loop, s.next, (Ahead(s) + [Request(s.next, TabsHalf), Request(s.next, PanesHalf)])[0])
  {
    var q := s.next;
    var due := Ahead(s) + [Request(q, TabsHalf), Request(q, PanesHalf)];
    var first := due[0];
    var fire, s1 := HandOffAndFire(s);
    var serve, s2 := ServeAll(s1, q);
    assert Due(s2) == due;
    var read;
    read, t := ReadToAnswer(s2, q, first);
    RunAppend(s1, serve, s2, read, t);
    RunAppend(Apply(s, HandOff), fire, s1, serve + read, t);
    run := fire + (serve + read);
  }

  /** A query handed off while something is owed can be answered from the first owed Log, which is not its own. */
  lemma OwedHandOffCanMisattribute(s: State) returns (run: seq<Step>, t: State)
    requires Inv(s) && Live(s) && Enabled(s, HandOff) && !Quiet(s)
    ensures Run(Apply(s, HandOff), run, t) && HandOff !in run
    ensures FulfilledFrom(t.loop, s.next, Ahead(s)[0]) && Ahead(s)[0].query < s.next
  {
    run, t := HandOffCanBeAnswered(s);
    assert Ahead(s)[0] in Ahead(s);
  }

  /** A quiet hand-off can be answered, from its own two Logs. */
  lemma QuietHandOffCanBeAnswered(s: State) returns (run: seq<Step>, t: State)
    requires Inv(s) && Live(s) && Enabled(s, HandOff) && Quiet(s)
    ensures Run(Apply(s, HandOff), run, t) && HandOff !in run
    ensures FulfilledFrom(t.loop, s.next, Request(s.next, TabsHalf)) && AnsweredFromOwnLogs(t.loop, s.next)
  {
    run, t := HandOffCanBeAnswered(s);
    QuietHandOffIsAnsweredFromOwnLogs(s, run, t, [], t);
  }

  /** In every continuation without a further hand-off, a query handed off now is answered from its own Logs only. */
  ghost predicate NeverMisattributed(s: State)
    requires Enabled(s, HandOff)
  {
    forall run, t | Run(Apply(s, HandOff), run, t) && HandOff !in run :: AnsweredFromOwnLogs(t.loop, s.next)
  }

  /**
   Exactly when attribution is safe: on a live relay, a query handed off now is answered from its own Logs in every
   continuation if and only if no Log is owed to an earlier query.
   */
  lemma AttributionIffQuiet(s: State)
    requires Inv(s) && Live(s) && Enabled(s, HandOff)
    ensures NeverMisattributed(s) <==> Quiet(s)
  {
    if Quiet(s) {
      forall run, t | Run(Apply(s, HandOff), run, t) && HandOff !in run
        ensures AnsweredFromOwnLogs(t.loop, s.next)
      {
        QuietHandOffIsAnsweredFromOwnLogs(s, run, t, [], t);
      }
    } else {
      var run, t := OwedHandOffCanMisattribute(s);
      assert !AnsweredFromOwnLogs(t.loop, s.next);
    }
  }

  // ─── The documented residual risk, concretely ───────────────────────────────

  const TABS_0 := Log(Request(0, TabsHalf), Text(false, Some([]), Some([])))

  /** Query 0 has its tabs Log, its panes Log is still owed, and its receiver has timed out. */
  const LATE_PANES := State(
    1, [], [Request(0, PanesHalf)], [], true, [Reply(TABS_0)], [], {0}, false, Outbound(1, false),
    Loop(AtTop, Some(InFlight(0, Some(TABS_0))), [], 0, [Reply(TABS_0)], [Seen(TABS_0, Some(0))], [], []))

  /** Query 0 is handed off and fired, and the server has answered its first action. */
  const TABS_SERVED := State(
    1, [], [Request(0, PanesHalf)], [Reply(TABS_0)], true, [Reply(TABS_0)], [0], {}, false, Outbound(1, false),
    Loop(AtTop, None, [], 0, [], [], [], []))

  lemma TabsServedIsReachable()
    ensures exists run :: Run(INITIAL, run, TABS_SERVED)
  {
    var s1 := Apply(INITIAL, HandOff);
    var s2 := Apply(s1, Fire(true));
    var s3 := Apply(s2, Fire(true));
    assert Apply(s3, Serve(TABS_0.text)) == TABS_SERVED;
    RunOne(INITIAL, HandOff);
    RunOne(s1, Fire(true));
    RunOne(s2, Fire(true));
    RunOne(s3, Serve(TABS_0.text));
    RunAppend(s2, [Fire(true)], s3, [Serve(TABS_0.text)], TABS_SERVED);
    RunAppend(s1, [Fire(true)], s2, [Fire(true)] + [Serve(TABS_0.text)], TABS_SERVED);
    RunAppend(INITIAL, [HandOff], s1, [Fire(true)] + ([Fire(true)] + [Serve(TABS_0.text)]), TABS_SERVED);
  }

  /** Query 0 is armed, and the reader has its tabs Log in hand. */
  const TABS_IN_HAND := State(
    1, [], [Request(0, PanesHalf)], [], true, [Reply(TABS_0)], [], {}, false, Outbound(1, false),
    Loop(AfterRecv(Reply(TABS_0)), Some(InFlight(0, None)), [], 0, [], [], [], []))

  /** The reader arms the query and receives that Log. */
  lemma TabsAreReceived()
    ensures exists run :: Run(TABS_SERVED, run, TABS_IN_HAND)
  {
    var a := ReaderStep(TABS_SERVED, true);
    assert [0][..0] == [];
    var b := ReaderStep(a, true);
    assert b.loop.slot == Some(InFlight(0, None)) && b.queue == [] && b.loop.disposed == [];
    assert ReaderStep(b, true) == TABS_IN_HAND;
    RunThree(TABS_SERVED, a, b, TABS_IN_HAND);
  }

  /** It captures the Log; then the receiver of query 0 times out. */
  lemma TabsAreCaptured()
    ensures exists run :: Run(TABS_IN_HAND, run, LATE_PANES)
  {
    var a := ReaderStep(TABS_IN_HAND, true);
    var b := ReaderStep(a, true);
    assert b.loop.slot == Some(InFlight(0, None)) && b.loop.disposed == [];
    var c := ReaderStep(b, true);
    assert Apply(c, TimeOut(0)) == LATE_PANES;
    RunThree(TABS_IN_HAND, a, b, c);
    RunOne(c, TimeOut(0));
    RunAppend(TABS_IN_HAND, [Reader(true), Reader(true), Reader(true)], c, [TimeOut(0)], LATE_PANES);
  }

  lemma RunThree(a: State, b: State, c: State, d: State)
    requires ReaderEnabled(a) && SendEnabled(a, true) && b == ReaderStep(a, true)
    requires ReaderEnabled(b) && SendEnabled(b, true) && c == ReaderStep(b, true)
    requires ReaderEnabled(c) && SendEnabled(c, true) && d == ReaderStep(c, true)
    ensures Run(a, [Reader(true), Reader(true), Reader(true)], d)
  {
    var r := Reader(true);
    RunOne(a, r);
    RunOne(b, r);
    RunOne(c, r);
    RunAppend(b, [r], c, [r], d);
    RunAppend(a, [r], b, [r] + [r], d);
    assert [r] + ([r] + [r]) == [r, r, r];
  }

  /** A timed-out query does cause misattribution: the panes Log of query 0 can become the tabs half of query 1. */
  lemma LatePanesLogCanBeMisattributed()
    ensures exists reach :: Run(INITIAL, reach, LATE_PANES)
    ensures exists run, t ::
      Run(Apply(LATE_PANES, HandOff), run, t) && FulfilledFrom(t.loop, 1, Request(0, PanesHalf))
  {
    TabsServedIsReachable();
    TabsAreReceived();
    TabsAreCaptured();
    var run1 :| Run(INITIAL, run1, TABS_SERVED);
    var run2 :| Run(TABS_SERVED, run2, TABS_IN_HAND);
    var run3 :| Run(TABS_IN_HAND, run3, LATE_PANES);
    RunAppend(INITIAL, run1, TABS_SERVED, run2, TABS_IN_HAND);
    RunAppend(INITIAL, run1 + run2, TABS_IN_HAND, run3, LATE_PANES);
    var reach := run1 + run2 + run3;
    EveryRunKeeps(reach, LATE_PANES);
    assert Ahead(LATE_PANES) == [Request(0, PanesHalf)];
    var run, t := OwedHandOffCanMisattribute(LATE_PANES);
  }
}
