/**
 The attach relay as an interleaved step system.

 Five parties act on one state: the inbound task (hands a query to the reader, then fires the two wire actions, and at
 the end sets the stop flag), the multiplexer server (answers actions in order, or not at all, and emits other
 messages), the `GetLayout` handler (may time out and drop its receiver at any moment), the client (takes frames from
 the bounded outbound channel, or goes away) and the reader thread, the only one to receive.

 Every `Log` carries the query and half it answers. The reader never looks at these two tags (its functions use the
 text alone); they exist so that attribution can be stated. `served`, `matched`, `seen`, `disposed` and `replies` are
 histories.
 */
module RelayQuery {
  import opened Common
  import opened ZellijLayout

  // ─── Data ────────────────────────────────────────────────────────────────────

  datatype Half = TabsHalf | PanesHalf

  /** One wire action of a layout query. */
  datatype Request = Request(query: nat, half: Half)

  datatype Log = Log(tag: Request, text: Text)

  datatype MuxEvent =
    | Exit(reason: string)
    | RenamedSession(name: string)
    | ConfigUpdated
    | SwitchSession(name: string)

  datatype Msg = Render(content: seq<bv8>) | Reply(log: Log) | Event(event: MuxEvent) | Other

  datatype Frame = RenderFrame(content: seq<bv8>) | ControlFrame(kind: string, payload: string)

  datatype InFlight = InFlight(query: nat, tabs: Option<Log>)

  /** How the reply channel of a query ends. `at` is the position of the panes Log among all Logs matched. */
  datatype Fate =
    | Fulfilled(tabs: Log, panes: Log, at: nat)
    | Replaced
    | Retired
    | DroppedAtExit
    | Returned

  datatype Disposal = Disposal(query: nat, fate: Fate)

  /** A matched Log and the query that held the slot at that moment. */
  datatype Seen = Seen(log: Log, holder: Option<nat>)

  /** Program points of the reader loop; the message in hand is part of the point. */
  datatype Phase =
    | AtTop
    | BeforeRecv
    | InRecv
    | AfterRecv(msg: Msg)
    | BeforeMatch(msg: Msg)
    | Matching(msg: Msg)
    | Leaving
    | Gone

  /** An answer sent over the reply channel of a query. */
  datatype Sent = Sent(query: nat, snapshot: Snapshot)

  /** What the reader thread owns, with the histories of what it did. */
  datatype Loop = Loop(
    phase: Phase, slot: Option<InFlight>, frames: seq<Frame>, renders: nat,
    matched: seq<Msg>, seen: seq<Seen>, disposed: seq<Disposal>, replies: seq<Sent>)

  const RENDER_CHANNEL_BOUND: nat := 64

  /** The outbound channel: how many frames wait in it, and whether the client has gone away. */
  datatype Outbound = Outbound(waiting: nat, gone: bool)

  datatype State = State(
    next: nat, firing: seq<Request>, requests: seq<Request>, stream: seq<Msg>, open: bool, served: seq<Msg>,
    queue: seq<nat>, closed: set<nat>, stop: bool, outbound: Outbound, loop: Loop)

  /** The frame that tells the client its connection id waits in the channel before the reader starts. */
  const INITIAL := State(0, [], [], [], true, [], [], {}, false, Outbound(1, false), Loop(AtTop, None, [], 0, [], [], [], []))

  function Holder(slot: Option<InFlight>): Option<nat> {
    match slot
    case None => None
    case Some(q) => Some(q.query)
  }

  // ─── The reader's slot operations ───────────────────────────────────────────

  datatype SlotChange = SlotChange(slot: Option<InFlight>, disposed: seq<Disposal>)

  function Emptied(slot: Option<InFlight>, fate: Fate): SlotChange {
    SlotChange(None, if slot.Some? then [Disposal(slot.value.query, fate)] else [])
  }

  /** Arm a newly handed-off query; a query still held is replaced. */
  function Armed(slot: Option<InFlight>, query: nat): SlotChange {
    SlotChange(Some(InFlight(query, None)), Emptied(slot, Replaced).disposed)
  }

  function ArmedAll(slot: Option<InFlight>, queue: seq<nat>): SlotChange {
    if queue == [] then SlotChange(slot, [])
    else
      var front := ArmedAll(slot, queue[..|queue| - 1]);
      var last := Armed(front.slot, queue[|queue| - 1]);
      SlotChange(last.slot, front.disposed + last.disposed)
  }

  function RetiredIfClosed(slot: Option<InFlight>, closed: set<nat>): SlotChange {
    if slot.Some? && slot.value.query in closed then Emptied(slot, Retired) else SlotChange(slot, [])
  }

  /** `drain_queries`: retire a held query whose receiver is gone, then arm the queued ones, the last wins. */
  function Drained(slot: Option<InFlight>, queue: seq<nat>, closed: set<nat>): SlotChange {
    var kept := RetiredIfClosed(slot, closed);
    var armed := ArmedAll(kept.slot, queue);
    SlotChange(armed.slot, kept.disposed + armed.disposed)
  }

  /** `capture_query_log`: the `at`-th Log goes to the held query, or to nobody. */
  function Captured(slot: Option<InFlight>, log: Log, closed: set<nat>, at: nat): SlotChange {
    if slot.None? then SlotChange(None, [])
    else if slot.value.query in closed then Emptied(slot, Retired)
    else if slot.value.tabs.None? then SlotChange(Some(slot.value.(tabs := Some(log))), [])
    else Emptied(slot, Fulfilled(slot.value.tabs.value, log, at))
  }

  /** What a fulfilled query is sent. */
  function Answer(tabs: Log, panes: Log): Snapshot {
    if tabs.text.isEmpty then Failure(EmptyTabs)
    else if panes.text.isEmpty then Failure(EmptyPanes)
    else ParsedLayout(tabs.text, panes.text)
  }

  /** The answer that a Log shown to this slot completes. */
  function Answers(slot: Option<InFlight>, log: Log, closed: set<nat>): seq<Sent> {
    if slot.None? || slot.value.query in closed || slot.value.tabs.None? then []
    else [Sent(slot.value.query, Answer(slot.value.tabs.value, log))]
  }

  function FrameOf(msg: Msg): Option<Frame> {
    match msg
    case Render(content) => Some(RenderFrame(content))
    case Event(Exit(reason)) => Some(ControlFrame("exit", reason))
    case Event(RenamedSession(name)) => Some(ControlFrame("renamed_session", name))
    case Event(ConfigUpdated) => Some(ControlFrame("config_updated", ""))
    case Event(SwitchSession(name)) => Some(ControlFrame("switch_session", name))
    case Reply(_) => None
    case Other => None
  }

  predicate IsExit(msg: Msg) {
    msg.Event? && msg.event.Exit?
  }

  function Dropped(queue: seq<nat>): seq<Disposal> {
    seq(|queue|, i requires 0 <= i < |queue| => Disposal(queue[i], DroppedAtExit))
  }

  // ─── Reader steps ────────────────────────────────────────────────────────────

  /** Every `break`: the slot is dropped with the loop. */
  function Left(l: Loop): Loop {
    l.(phase := Leaving, slot := None, disposed := l.disposed + Emptied(l.slot, DroppedAtExit).disposed)
  }

  function DrainStep(l: Loop, queue: seq<nat>, closed: set<nat>): Loop {
    var d := Drained(l.slot, queue, closed);
    l.(slot := d.slot, disposed := l.disposed + d.disposed)
  }

  /**
   The drain before the match, and the drop of the held query that comes first in the Exit arm, ahead of its send.
   Nothing can be received or armed between the two, so they are one step.
   */
  function DrainToMatch(l: Loop, queue: seq<nat>, closed: set<nat>, msg: Msg): Loop {
    var m := DrainStep(l, queue, closed);
    if IsExit(msg)
    then m.(phase := Matching(msg), slot := None, disposed := m.disposed + Emptied(m.slot, DroppedAtExit).disposed)
    else m.(phase := Matching(msg))
  }

  function ReplyStep(l: Loop, log: Log, closed: set<nat>): Loop {
    var c := Captured(l.slot, log, closed, |l.seen|);
    l.(phase := AtTop, slot := c.slot, seen := l.seen + [Seen(log, Holder(l.slot))],
       disposed := l.disposed + c.disposed, replies := l.replies + Answers(l.slot, log, closed))
  }

  /** Forward one frame; `sent` tells whether the outbound channel still has its receiver. */
  function ForwardStep(l: Loop, msg: Msg, sent: bool): Loop
    requires FrameOf(msg).Some?
  {
    var out := if sent then l.(frames := l.frames + [FrameOf(msg).value]) else l;
    if IsExit(msg) || !sent then Left(out)
    else out.(phase := AtTop, renders := out.renders + if msg.Render? then 1 else 0)
  }

  /** The `match msg` of the loop. */
  function MatchStep(l: Loop, msg: Msg, closed: set<nat>, sent: bool): Loop {
    var m := l.(matched := l.matched + [msg]);
    match msg
    case Reply(log) => ReplyStep(m, log, closed)
    case Other => m.(phase := AtTop)
    case _ => ForwardStep(m, msg, sent)
  }

  /** `recv` waits for a message or the end of the stream. */
  predicate ReaderEnabled(s: State) {
    && !s.loop.phase.Gone?
    && (s.loop.phase.InRecv? ==> s.stream != [] || !s.open)
  }

  predicate Sends(phase: Phase) {
    phase.Matching? && FrameOf(phase.msg).Some?
  }

  /** `blocking_send` waits for room, succeeds when there is some, and fails once the client has gone away. */
  predicate SendEnabled(s: State, sent: bool) {
    Sends(s.loop.phase) ==> if sent then !s.outbound.gone && s.outbound.waiting < RENDER_CHANNEL_BOUND else s.outbound.gone
  }

  function AfterSend(s: State, sent: bool): Outbound {
    if sent && Sends(s.loop.phase) then s.outbound.(waiting := s.outbound.waiting + 1) else s.outbound
  }

  function ReaderStep(s: State, sent: bool): State
    requires ReaderEnabled(s)
  {
    var l := s.loop;
    match l.phase
    case AtTop => s.(loop := if s.stop then Left(l) else l.(phase := BeforeRecv))
    case BeforeRecv => s.(queue := [], loop := DrainStep(l, s.queue, s.closed).(phase := InRecv))
    case InRecv =>
      if s.stream == [] then s.(loop := Left(l))
      else s.(stream := s.stream[1..], loop := l.(phase := AfterRecv(s.stream[0])))
    case AfterRecv(msg) => s.(loop := if s.stop then Left(l) else l.(phase := BeforeMatch(msg)))
    case BeforeMatch(msg) => s.(queue := [], loop := DrainToMatch(l, s.queue, s.closed, msg))
    case Matching(msg) => s.(loop := MatchStep(l, msg, s.closed, sent), outbound := AfterSend(s, sent))
    case Leaving =>
      // The receiver of the query channel goes last, and with it whatever was queued meanwhile.
      s.(queue := [], loop := l.(phase := Gone, disposed := l.disposed + Dropped(s.queue)))
  }

  // ─── All steps ───────────────────────────────────────────────────────────────

  datatype Step =
    | HandOff
    | Fire(ok: bool)
    | SetStop
    | Serve(text: Text)
    | Skip
    | Emit(msg: Msg)
    | Close
    | TimeOut(query: nat)
    | ClientReads
    | ClientGoes
    | Reader(sent: bool)

  predicate Enabled(s: State, step: Step) {
    match step
    case HandOff => s.firing == [] && !s.stop
    case Fire(_) => s.firing != [] && !s.stop
    case SetStop => true
    case Serve(_) => s.requests != [] && s.open
    case Skip => s.requests != []
    case Emit(msg) => s.open && !msg.Reply?
    case Close => true
    case TimeOut(query) => query < s.next
    case ClientReads => s.outbound.waiting > 0 && !s.outbound.gone
    case ClientGoes => true
    case Reader(sent) => ReaderEnabled(s) && SendEnabled(s, sent)
  }

  function Serving(s: State, msg: Msg): State {
    s.(stream := s.stream + [msg], served := s.served + [msg])
  }

  function Apply(s: State, step: Step): State
    requires Enabled(s, step)
  {
    match step
    case HandOff =>
      // The query is handed over before either action is fired. A reader that is gone returns the query.
      if s.loop.phase.Gone?
      then s.(next := s.next + 1, loop := s.loop.(disposed := s.loop.disposed + [Disposal(s.next, Returned)]))
      else s.(next := s.next + 1, queue := s.queue + [s.next], firing := [Request(s.next, TabsHalf), Request(s.next, PanesHalf)])
    case Fire(ok) =>
      // ListTabs then ListPanes; the first failing send ends the attempt.
      if ok then s.(firing := s.firing[1..], requests := s.requests + [s.firing[0]])
      else s.(firing := [])
    case SetStop => s.(stop := true)
    case Serve(text) => Serving(s.(requests := s.requests[1..]), Reply(Log(s.requests[0], text)))
    case Skip => s.(requests := s.requests[1..])
    case Emit(msg) => Serving(s, msg)
    case Close => s.(open := false)
    case TimeOut(query) => s.(closed := s.closed + {query})
    case ClientReads => s.(outbound := s.outbound.(waiting := s.outbound.waiting - 1))
    case ClientGoes => s.(outbound := s.outbound.(gone := true))
    case Reader(sent) => ReaderStep(s, sent)
  }

  /** `t` is reached from `s` by the steps `run`, one after the other. */
  ghost predicate Run(s: State, run: seq<Step>, t: State)
    decreases |run|
  {
    if run == [] then s == t
    else Enabled(s, run[0]) && Run(Apply(s, run[0]), run[1..], t)
  }

  lemma {:induction false} RunAppend(s: State, run: seq<Step>, t: State, rest: seq<Step>, u: State)
    requires Run(s, run, t) && Run(t, rest, u)
    ensures Run(s, run + rest, u)
    decreases |run|
  {
    if run == [] {
      assert run + rest == rest;
    } else {
      RunAppend(Apply(s, run[0]), run[1..], t, rest, u);
      assert (run + rest)[1..] == run[1..] + rest;
    }
  }

  lemma RunOne(s: State, step: Step)
    requires Enabled(s, step)
    ensures Run(s, [step], Apply(s, step))
  {
    assert Run(Apply(s, step), [step][1..], Apply(s, step));
  }

  // ─── The drain may be taken as one step ─────────────────────────────────────

  /** A hand-off that lands while the drain loop runs gives the slot it would give had it landed before the drain. */
  lemma DrainAbsorbsHandOff(slot: Option<InFlight>, queue: seq<nat>, closed: set<nat>, query: nat)
    ensures var early := Drained(slot, queue + [query], closed);
            var d := Drained(slot, queue, closed);
            var late := Armed(d.slot, query);
            early == SlotChange(late.slot, d.disposed + late.disposed)
  {
    assert (queue + [query])[..|queue|] == queue;
  }

  // ─── What one arming does ────────────────────────────────────────────────────

  /** Draining a non-empty queue leaves exactly its last query armed, with nothing captured yet. */
  lemma ArmedAllKeepsLast(slot: Option<InFlight>, queue: seq<nat>)
    ensures queue != [] ==> ArmedAll(slot, queue).slot == Some(InFlight(queue[|queue| - 1], None))
    ensures queue == [] ==> ArmedAll(slot, queue).slot == slot
  {
  }
}
