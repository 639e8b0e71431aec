/**
 The inbound task of a relay: client frames and control commands in, sender calls and view-state updates out, with the
 read-only gate, token re-checks and the teardown.

 Sender calls, live queries and token checks are answered by the environment; each event carries those answers.
 */
module RelayInbound {
  import opened Common

  datatype PaneRef = PaneRef(id: nat, isPlugin: bool)

  datatype FullscreenHint = FullscreenHint(isFloating: bool, floatingVisible: bool, isFocusedFloating: bool)

  datatype RelayViewState = RelayViewState(
    activeTab: Option<nat>, focusedPane: Option<PaneRef>, currentSpace: Option<string>)

  datatype RelayControl =
    | SwitchTab(tab: nat)
    | FocusPane(pane: PaneRef)
    | SwitchSpace(space: string)
    | ToggleFullscreen(pane: PaneRef, hint: Option<FullscreenHint>)
    | QueryLayout

  /** What the live floating-pane query of a hint-less toggle comes to. */
  datatype FloatQuery = TimedOut | Failed | Answered(isFloating: bool, visible: bool, focused: Option<PaneRef>)

  datatype Event =
    | Recheck(valid: bool)
    | Command(cmd: RelayControl, ok: bool, live: FloatQuery)
    | NoSenders
    | Input(bytes: seq<bv8>, text: Option<string>, ok: bool)
    | Resize(rows: nat, cols: nat, ok: bool)
    | SecondAttach
    | NoKind
    | StreamError
    | StreamEnd

  datatype Call =
    | CallGoToTab(tab: nat)
    | CallFocusPane(pane: PaneRef)
    | CallSwitchSpace(space: string)
    | CallToggleFullscreen(pane: PaneRef, hint: FullscreenHint)
    | CallQueryLayout
    | CallQueryLayoutResult
    | CallInputChars(text: string)
    | CallInputBytes(bytes: seq<bv8>)
    | CallResize(rows: nat, cols: nat)
    | CallClientExited

  /** The reply to a `SwitchSpace`. */
  datatype SpaceReply = Switched | SwitchFailed | RefusedReadOnly

  const MAX_INPUT_FRAME_BYTES: nat := 1024 * 1024
  const RO_FALLBACK_ROWS: nat := 50
  const RO_FALLBACK_COLS: nat := 200
  const U16_MAX: nat := 65535

  function ClampDim(v: nat, default: nat): nat {
    if v == 0 then default else if v < U16_MAX then v else U16_MAX
  }

  /** The attach size: a read-only attach uses the session's own size, or a neutral one. */
  function AttachSize(readOnly: bool, rows: nat, cols: nat, sessionSize: Option<(nat, nat)>): (nat, nat) {
    if !readOnly then (ClampDim(rows, 24), ClampDim(cols, 80))
    else match sessionSize
      case Some(size) => size
      case None => (RO_FALLBACK_ROWS, RO_FALLBACK_COLS)
  }

  // ─── Per-event specification ────────────────────────────────────────────────

  /** Events that end the loop. */
  predicate Breaks(e: Event) {
    e == Recheck(false) || e.StreamError? || e.StreamEnd?
  }

  /** The floating context of a toggle: the client's hint, else the live query; `None` skips the toggle. */
  function ResolvedHint(pane: PaneRef, hint: Option<FullscreenHint>, live: FloatQuery): Option<FullscreenHint> {
    if hint.Some? then hint
    else match live
      case TimedOut => None
      case Failed => Some(FullscreenHint(false, false, false))
      case Answered(f, v, focused) => Some(FullscreenHint(f, v, focused == Some(pane)))
  }

  predicate Hides(hint: FullscreenHint) {
    hint.isFloating && hint.floatingVisible && hint.isFocusedFloating
  }

  /** The view state after one event of a writable relay: only commands whose sender call succeeds count. */
  function ViewAfterEvent(vs: RelayViewState, e: Event): RelayViewState {
    if !e.Command? || !e.ok then vs
    else match e.cmd
      case SwitchTab(tab) => vs.(activeTab := Some(tab), focusedPane := None)
      case FocusPane(pane) => vs.(focusedPane := Some(pane))
      case SwitchSpace(space) => RelayViewState(None, None, Some(space))
      case ToggleFullscreen(pane, hint) =>
        (match ResolvedHint(pane, hint, e.live)
         case None => vs
         case Some(h) => vs.(focusedPane := if Hides(h) then None else Some(pane)))
      case QueryLayout => vs
  }

  function ViewAfter(vs: RelayViewState, readOnly: bool, events: seq<Event>): RelayViewState {
    if events == [] || readOnly then vs
    else ViewAfterEvent(ViewAfter(vs, readOnly, events[..|events| - 1]), events[|events| - 1])
  }

  // ─── The loop ────────────────────────────────────────────────────────────────

  datatype ViewStateEntry = ViewStateEntry(session: string, state: RelayViewState)

  class Inbound {
    const connectionId: string
    const readOnly: bool
    const syncLayout: bool
    const rows: nat
    const cols: nat

    var viewState: map<string, ViewStateEntry>
    var control: set<string>
    var calls: seq<Call>
    var replies: seq<SpaceReply>
    var nextQuerySeq: nat
    var readerStopped: bool

    constructor (connectionId: string, readOnly: bool, syncLayout: bool, rows: nat, cols: nat,
                 viewState: map<string, ViewStateEntry>, control: set<string>)
      ensures this.connectionId == connectionId && this.readOnly == readOnly && this.syncLayout == syncLayout
      ensures this.rows == rows && this.cols == cols && this.viewState == viewState && this.control == control
      ensures calls == [] && replies == [] && nextQuerySeq == 0 && !readerStopped
    {
      this.connectionId, this.readOnly, this.syncLayout := connectionId, readOnly, syncLayout;
      this.rows, this.cols, this.viewState, this.control := rows, cols, viewState, control;
      calls, replies, nextQuerySeq, readerStopped := [], [], 0, false;
    }

    /** `get_mut` on the relay's own entry; an absent entry is left alone. */
    method SetView(state: RelayViewState)
      modifies this`viewState
      ensures viewState == Updated(old(viewState), connectionId, state)
    {
      if connectionId in viewState {
        viewState := viewState[connectionId := viewState[connectionId].(state := state)];
      }
    }

    function View(): RelayViewState
      reads this
    {
      if connectionId in viewState then viewState[connectionId].state else RelayViewState(None, None, None)
    }

    method HandleSwitchSpace(space: string, ok: bool)
      modifies this`viewState, this`calls, this`replies
      ensures var e := Command(SwitchSpace(space), ok, TimedOut);
        && calls == old(calls) + CallsOf(e, readOnly, syncLayout)
        && viewState == Updated(old(viewState), connectionId, ViewAfter(old(View()), readOnly, [e]))
      ensures replies == old(replies) + [if readOnly then RefusedReadOnly else if ok then Switched else SwitchFailed]
    {
      if readOnly {
        replies := replies + [RefusedReadOnly];
      } else {
        calls := calls + [CallSwitchSpace(space)];
        if ok {
          SetView(View().(activeTab := None, focusedPane := None, currentSpace := Some(space)));
        }
        replies := replies + [if ok then Switched else SwitchFailed];
      }
      ViewAfterOne(old(View()), readOnly, Command(SwitchSpace(space), ok, TimedOut));
    }

    method HandleToggle(pane: PaneRef, hint: Option<FullscreenHint>, ok: bool, live: FloatQuery)
      modifies this`viewState, this`calls
      ensures var e := Command(ToggleFullscreen(pane, hint), ok, live);
        && calls == old(calls) + CallsOf(e, readOnly, syncLayout)
        && viewState == Updated(old(viewState), connectionId, ViewAfter(old(View()), readOnly, [e]))
    {
      ViewAfterOne(View(), readOnly, Command(ToggleFullscreen(pane, hint), ok, live));
      if readOnly {
        return;
      }
      var resolved := ResolvedHint(pane, hint, live);
      if resolved.None? {
        return;
      }
      calls := calls + [CallToggleFullscreen(pane, resolved.value)];
      if ok {
        SetView(View().(focusedPane := if Hides(resolved.value) then None else Some(pane)));
      }
    }

    method HandleCommand(cmd: RelayControl, ok: bool, live: FloatQuery)
      modifies this`viewState, this`calls, this`replies, this`nextQuerySeq
      ensures var e := Command(cmd, ok, live);
        && calls == old(calls) + CallsOf(e, readOnly, syncLayout)
        && viewState == Updated(old(viewState), connectionId, ViewAfter(old(View()), readOnly, [e]))
        && replies == old(replies) + RepliesOf(e, readOnly)
      ensures nextQuerySeq == if cmd.QueryLayout? then (old(nextQuerySeq) + 1) % 0x1_0000_0000_0000_0000 else old(nextQuerySeq)
    {
      ViewAfterOne(View(), readOnly, Command(cmd, ok, live));
      match cmd {
        case SwitchTab(tab) =>
          if !readOnly {
            calls := calls + [CallGoToTab(tab)];
            if ok {
              SetView(View().(activeTab := Some(tab), focusedPane := None));
            }
          }
        case FocusPane(pane) =>
          if !readOnly {
            calls := calls + [CallFocusPane(pane)];
            if ok {
              SetView(View().(focusedPane := Some(pane)));
            }
          }
        case SwitchSpace(space) =>
          HandleSwitchSpace(space, ok);
          ViewAfterOne(old(View()), readOnly, Command(cmd, ok, TimedOut));
        case ToggleFullscreen(pane, hint) =>
          HandleToggle(pane, hint, ok, live);
        case QueryLayout =>
          nextQuerySeq := (nextQuerySeq + 1) % 0x1_0000_0000_0000_0000;
          calls := calls + QueryCalls(syncLayout, ok);
      }
    }

    method HandleFrame(e: Event)
      modifies this`calls
      ensures calls == old(calls) + (if e.Command? then [] else CallsOf(e, readOnly, syncLayout))
    {
      if readOnly {
        return;
      }
      match e {
        case Input(bytes, text, _) =>
          if |bytes| <= MAX_INPUT_FRAME_BYTES {
            calls := calls + [match text case Some(t) => CallInputChars(t) case None => CallInputBytes(bytes)];
          }
        case Resize(r, c, _) =>
          calls := calls + [CallResize(ClampDim(r, 24), ClampDim(c, 80))];
        case _ =>
      }
    }

    /** One turn of the select loop. */
    method HandleEvent(e: Event) returns (ended: bool)
      modifies this`viewState, this`calls, this`replies, this`nextQuerySeq
      ensures ended <==> e == Recheck(false) || e == StreamError || e == StreamEnd
      ensures calls == old(calls) + CallsOf(e, readOnly, syncLayout)
      ensures replies == old(replies) + RepliesOf(e, readOnly)
      ensures viewState == Updated(old(viewState), connectionId, ViewAfter(old(View()), readOnly, [e]))
    {
      ended := false;
      ViewAfterOne(View(), readOnly, e);
      match e {
        case Command(cmd, ok, live) => HandleCommand(cmd, ok, live);
        case Recheck(valid) => ended := !valid;
        case StreamError => ended := true;
        case StreamEnd => ended := true;
        case _ => HandleFrame(e);
      }
    }

    method HandleEvents(events: seq<Event>) returns (ended: bool)
      modifies this`viewState, this`calls, this`replies, this`nextQuerySeq
      ensures ended <==> exists e :: e in events && Breaks(e)
      ensures calls == old(calls) + Trace(Handled(events), readOnly, syncLayout)
      ensures replies == old(replies) + SpaceReplies(Handled(events), readOnly)
      ensures viewState == Updated(old(viewState), connectionId, ViewAfter(old(View()), readOnly, Handled(events)))
    {
      ended := false;
      var i := 0;
      while i < |events| && !ended
        invariant i <= |events|
        invariant forall k | 0 <= k < i - (if ended then 1 else 0) :: !Breaks(events[k])
        invariant ended ==> i > 0 && Breaks(events[i - 1])
        invariant calls == old(calls) + Trace(events[..i], readOnly, syncLayout)
        invariant replies == old(replies) + SpaceReplies(events[..i], readOnly)
        invariant viewState == Updated(old(viewState), connectionId, ViewAfter(old(View()), readOnly, events[..i]))
      {
        OneMore(old(calls), old(replies), old(View()), readOnly, syncLayout, events, i);
        UpdatedTwice(old(viewState), connectionId, ViewAfter(old(View()), readOnly, events[..i]), readOnly, events[i]);
        ended := HandleEvent(events[i]);
        i := i + 1;
      }
      HandledUpTo(events, i, ended);
    }

    /** `inbound_loop` over the events that arrive; `ended` tells whether one of them ended it. */
    method InboundLoop(events: seq<Event>) returns (ended: bool)
      modifies this
      ensures ended <==> exists e :: e in events && Breaks(e)
      ensures calls == old(calls) + Trace(Handled(events), readOnly, syncLayout)
                     + if ended then [Nudge(readOnly, rows, cols)] else []
      ensures replies == old(replies) + SpaceReplies(Handled(events), readOnly)
      ensures ended ==> viewState == old(viewState) - {connectionId} && control == old(control) - {connectionId}
      ensures ended ==> readerStopped
      ensures !ended ==> control == old(control) && readerStopped == old(readerStopped)
      ensures !ended ==> viewState == Updated(old(viewState), connectionId,
                                              ViewAfter(old(View()), readOnly, Handled(events)))
    {
      ended := HandleEvents(events);
      if ended {
        control := control - {connectionId};
        viewState := viewState - {connectionId};
        ShutDown();
      }
    }

    /** `ShutdownGuard::drop`: set the stop flag, then wake the reader. */
    method ShutDown()
      modifies this`readerStopped, this`calls
      ensures readerStopped && calls == old(calls) + [Nudge(readOnly, rows, cols)]
    {
      readerStopped := true;
      if readOnly {
        calls := calls + [CallClientExited];
      } else {
        calls := calls + [CallResize(rows, cols)];
      }
    }
  }

  function Updated(views: map<string, ViewStateEntry>, c: string, state: RelayViewState): map<string, ViewStateEntry> {
    if c in views then views[c := views[c].(state := state)] else views
  }

  lemma ViewAfterOne(vs: RelayViewState, readOnly: bool, e: Event)
    ensures ViewAfter(vs, readOnly, [e]) == if readOnly then vs else ViewAfterEvent(vs, e)
  {
    assert [e][..0] == [];
  }

  lemma UpdatedTwice(views: map<string, ViewStateEntry>, c: string, state: RelayViewState, readOnly: bool, e: Event)
    ensures var once := Updated(views, c, state);
      var seen := if c in once then once[c].state else RelayViewState(None, None, None);
      Updated(once, c, ViewAfter(seen, readOnly, [e])) == Updated(views, c, ViewAfter(state, readOnly, [e]))
  {
  }

  lemma OneMore(calls: seq<Call>, replies: seq<SpaceReply>, vs: RelayViewState, readOnly: bool, syncLayout: bool,
                events: seq<Event>, i: nat)
    requires i < |events|
    ensures ViewAfter(vs, readOnly, events[..i + 1]) == ViewAfter(ViewAfter(vs, readOnly, events[..i]), readOnly, [events[i]])
    ensures calls + Trace(events[..i + 1], readOnly, syncLayout)
         == calls + Trace(events[..i], readOnly, syncLayout) + CallsOf(events[i], readOnly, syncLayout)
    ensures replies + SpaceReplies(events[..i + 1], readOnly)
         == replies + SpaceReplies(events[..i], readOnly) + RepliesOf(events[i], readOnly)
  {
    assert events[..i + 1][..i] == events[..i];
    ViewAfterOne(ViewAfter(vs, readOnly, events[..i]), readOnly, events[i]);
    if readOnly {
      assert ViewAfter(vs, readOnly, events[..i + 1]) == vs;
    }
  }

  // ─── Traces ──────────────────────────────────────────────────────────────────

  /** A layout query: on a clone of the sender, or on the wire once the reader has taken the hand-off (`handed`). */
  function QueryCalls(syncLayout: bool, handed: bool): seq<Call> {
    if syncLayout then [CallQueryLayoutResult] else if handed then [CallQueryLayout] else []
  }

  /** The sender calls of one event. */
  function CallsOf(e: Event, readOnly: bool, syncLayout: bool): seq<Call> {
    match e
    case Command(QueryLayout, ok, _) => QueryCalls(syncLayout, ok)
    case Command(cmd, _, live) =>
      if readOnly then []
      else (match cmd
        case SwitchTab(tab) => [CallGoToTab(tab)]
        case FocusPane(pane) => [CallFocusPane(pane)]
        case SwitchSpace(space) => [CallSwitchSpace(space)]
        case ToggleFullscreen(pane, hint) =>
          var h := ResolvedHint(pane, hint, live);
          if h.Some? then [CallToggleFullscreen(pane, h.value)] else []
        case QueryLayout => [])
    case Input(bytes, text, _) =>
      if readOnly || |bytes| > MAX_INPUT_FRAME_BYTES then []
      else [match text case Some(t) => CallInputChars(t) case None => CallInputBytes(bytes)]
    case Resize(r, c, _) => if readOnly then [] else [CallResize(ClampDim(r, 24), ClampDim(c, 80))]
    case _ => []
  }

  function Trace(events: seq<Event>, readOnly: bool, syncLayout: bool): seq<Call> {
    if events == [] then []
    else Trace(events[..|events| - 1], readOnly, syncLayout)
         + CallsOf(events[|events| - 1], readOnly, syncLayout)
  }

  function RepliesOf(e: Event, readOnly: bool): seq<SpaceReply> {
    if e.Command? && e.cmd.SwitchSpace?
    then [if readOnly then RefusedReadOnly else if e.ok then Switched else SwitchFailed]
    else []
  }

  function SpaceReplies(events: seq<Event>, readOnly: bool): seq<SpaceReply> {
    if events == [] then []
    else SpaceReplies(events[..|events| - 1], readOnly) + RepliesOf(events[|events| - 1], readOnly)
  }

  function Nudge(readOnly: bool, rows: nat, cols: nat): Call {
    if readOnly then CallClientExited else CallResize(rows, cols)
  }

  /** The events up to and including the first that ends the loop. */
  function Handled(events: seq<Event>): seq<Event> {
    if events == [] then []
    else if Breaks(events[0]) then [events[0]]
    else [events[0]] + Handled(events[1..])
  }

  lemma {:induction false} HandledUpTo(events: seq<Event>, n: nat, ended: bool)
    requires n <= |events|
    requires ended ==> n > 0 && Breaks(events[n - 1])
    requires !ended ==> n == |events|
    requires forall k | 0 <= k < n - (if ended then 1 else 0) :: !Breaks(events[k])
    ensures Handled(events) == events[..n]
    ensures ended <==> exists e :: e in events && Breaks(e)
  {
    if events != [] {
      if Breaks(events[0]) {
        assert n == 1;
        assert events[0] in events;
      } else {
        HandledUpTo(events[1..], n - 1, ended);
        assert events == [events[0]] + events[1..];
        assert events[..n] == [events[0]] + events[1..][..n - 1];
      }
    }
  }

  // ─── Read-only relays ────────────────────────────────────────────────────────

  predicate IsLayoutQuery(call: Call) {
    call.CallQueryLayout? || call.CallQueryLayoutResult?
  }

  /**
   For every sequence of events, a read-only relay calls nothing but layout queries, its view state never changes, and
   every SwitchSpace it processes is refused; the nudge at its end is `client exited`.
   */
  lemma {:induction false} ReadOnlyRun(events: seq<Event>, syncLayout: bool, vs: RelayViewState, rows: nat, cols: nat)
    ensures forall call | call in Trace(events, true, syncLayout) :: IsLayoutQuery(call)
    ensures ViewAfter(vs, true, events) == vs
    ensures forall reply | reply in SpaceReplies(events, true) :: reply == RefusedReadOnly
    ensures |SpaceReplies(events, true)| == SwitchSpaces(events)
    ensures Nudge(true, rows, cols) == CallClientExited
  {
    if events != [] {
      ReadOnlyRun(events[..|events| - 1], syncLayout, vs, rows, cols);
    }
  }

  function SwitchSpaces(events: seq<Event>): nat {
    if events == [] then 0
    else
      var last := events[|events| - 1];
      SwitchSpaces(events[..|events| - 1]) + if last.Command? && last.cmd.SwitchSpace? then 1 else 0
  }

  /** The outcomes of the SwitchSpaces among the events, in order. */
  function SwitchOutcomes(events: seq<Event>): seq<bool> {
    if events == [] then []
    else
      var last := events[|events| - 1];
      SwitchOutcomes(events[..|events| - 1]) + if last.Command? && last.cmd.SwitchSpace? then [last.ok] else []
  }

  function ReplyFor(ok: bool): SpaceReply {
    if ok then Switched else SwitchFailed
  }

  /**
   A writable relay never sends `client exited`; its nudge asserts the attach size again. It answers every SwitchSpace,
   in order, by what its sender said.
   */
  lemma {:induction false} WritableRun(events: seq<Event>, syncLayout: bool, rows: nat, cols: nat)
    ensures CallClientExited !in Trace(events, false, syncLayout) && Nudge(false, rows, cols) == CallResize(rows, cols)
    ensures RefusedReadOnly !in SpaceReplies(events, false)
    ensures |SpaceReplies(events, false)| == |SwitchOutcomes(events)| == SwitchSpaces(events)
    ensures forall i | 0 <= i < |SwitchOutcomes(events)| :: SpaceReplies(events, false)[i] == ReplyFor(SwitchOutcomes(events)[i])
  {
    if events != [] {
      WritableRun(events[..|events| - 1], syncLayout, rows, cols);
    }
  }

  // ─── What a sender call carries ──────────────────────────────────────────────

  predicate WithinBound(v: nat, default: nat, sent: nat) {
    (v == 0 ==> sent == default) && (1 <= v <= 65535 ==> sent == v) && (v > 65535 ==> sent == 65535)
  }

  /** The hint that goes with a toggle: the client's, or what the live query found about this pane, or nothing known. */
  predicate HintOf(sent: FullscreenHint, pane: PaneRef, hint: Option<FullscreenHint>, live: FloatQuery) {
    match hint
    case Some(h) => sent == h
    case None =>
      (match live
       case Answered(f, v, focused) =>
         sent.isFloating == f && sent.floatingVisible == v && (sent.isFocusedFloating <==> focused == Some(pane))
       case Failed => !sent.isFloating && !sent.floatingVisible && !sent.isFocusedFloating
       case TimedOut => false)
  }

  /** The call carries the very tab, pane, space, text, bytes or size of the event that causes it. */
  predicate Carries(call: Call, e: Event) {
    match call
    case CallGoToTab(tab) => e.Command? && e.cmd == SwitchTab(tab)
    case CallFocusPane(pane) => e.Command? && e.cmd == FocusPane(pane)
    case CallSwitchSpace(space) => e.Command? && e.cmd == SwitchSpace(space)
    case CallToggleFullscreen(pane, h) =>
      e.Command? && e.cmd.ToggleFullscreen? && e.cmd.pane == pane && HintOf(h, pane, e.cmd.hint, e.live)
    case CallQueryLayout => e.Command? && e.cmd == QueryLayout
    case CallQueryLayoutResult => e.Command? && e.cmd == QueryLayout
    case CallInputChars(text) => e.Input? && |e.bytes| <= 1048576 && e.text == Some(text)
    case CallInputBytes(bytes) => e.Input? && |bytes| <= 1048576 && e.bytes == bytes && e.text == None
    case CallResize(r, c) => e.Resize? && WithinBound(e.rows, 24, r) && WithinBound(e.cols, 80, c)
    case CallClientExited => false
  }

  /** Events that make a writable relay call its sender. */
  predicate MakesCall(e: Event, syncLayout: bool) {
    match e
    case Command(cmd, ok, live) =>
      (match cmd
       case QueryLayout => syncLayout || ok
       case ToggleFullscreen(_, hint) => hint.Some? || live != TimedOut
       case _ => true)
    case Input(bytes, _, _) => |bytes| <= 1048576
    case Resize(_, _, _) => true
    case _ => false
  }

  /**
   An event makes at most one call, a writable relay's exactly if it is a command, a bounded input or a resize, and but
   for a toggle whose live query timed out; and the call carries what the event says.
   */
  lemma CallsCarryTheirEvent(e: Event, readOnly: bool, syncLayout: bool)
    ensures |CallsOf(e, readOnly, syncLayout)| <= 1
    ensures forall call | call in CallsOf(e, readOnly, syncLayout) :: Carries(call, e)
    ensures !readOnly ==> (CallsOf(e, readOnly, syncLayout) != [] <==> MakesCall(e, syncLayout))
    ensures forall call | call in CallsOf(e, readOnly, syncLayout) && e.Command? && e.cmd.QueryLayout? ::
              call.CallQueryLayoutResult? <==> syncLayout
  {
  }

  // ─── Attach size ─────────────────────────────────────────────────────────────

  /** A writable attach takes the client's rows and columns within 16 bits, a read-only one the session's size or 50 by 200. */
  lemma AttachSizeIs(rows: nat, cols: nat, sessionSize: Option<(nat, nat)>)
    ensures var size := AttachSize(false, rows, cols, sessionSize);
      WithinBound(rows, 24, size.0) && WithinBound(cols, 80, size.1)
    ensures AttachSize(true, rows, cols, sessionSize) == if sessionSize.Some? then sessionSize.value else (50, 200)
  {
  }

  /** The client's dimensions reach the session exactly on writable attaches. */
  lemma AttachSizeIgnoresClientIff(readOnly: bool, sessionSize: Option<(nat, nat)>)
    ensures readOnly <==>
            forall r1, c1, r2, c2 ::
              AttachSize(readOnly, r1, c1, sessionSize) == AttachSize(readOnly, r2, c2, sessionSize)
  {
    if !readOnly {
      assert AttachSize(readOnly, 1, 1, sessionSize) != AttachSize(readOnly, 2, 1, sessionSize);
    }
  }

  // ─── What the view state remembers ──────────────────────────────────────────

  /** The space of the latest successful SwitchSpace. */
  function LastSpace(events: seq<Event>): Option<string> {
    if events == [] then None
    else
      var last := events[|events| - 1];
      if last.Command? && last.ok && last.cmd.SwitchSpace? then Some(last.cmd.space)
      else LastSpace(events[..|events| - 1])
  }

  /** The connection's current space is the one of its latest successful SwitchSpace, whatever happened in between. */
  lemma {:induction false} CurrentSpaceIsLastSwitched(vs: RelayViewState, events: seq<Event>)
    requires vs.currentSpace == None
    ensures ViewAfter(vs, false, events).currentSpace == LastSpace(events)
  {
    if events != [] {
      CurrentSpaceIsLastSwitched(vs, events[..|events| - 1]);
    }
  }

  /** The tab of the latest successful SwitchTab; a later change of space makes it unknown again. */
  function LastTab(start: Option<nat>, events: seq<Event>): Option<nat> {
    if events == [] then start
    else
      var last := events[|events| - 1];
      if last.Command? && last.ok && last.cmd.SwitchTab? then Some(last.cmd.tab)
      else if last.Command? && last.ok && last.cmd.SwitchSpace? then None
      else LastTab(start, events[..|events| - 1])
  }

  /** What a successful toggle does to the focused pane: the hide path forgets it, the others set it to the pane. */
  function FocusAfterToggle(start: Option<PaneRef>, pane: PaneRef, hint: Option<FullscreenHint>, live: FloatQuery)
    : Option<PaneRef>
  {
    match hint
    case Some(h) => if h == FullscreenHint(true, true, true) then None else Some(pane)
    case None =>
      if live.TimedOut? then start
      else if live == Answered(true, true, Some(pane)) then None
      else Some(pane)
  }

  /** The focused pane as the latest successful command that says anything about it leaves it. */
  function LastFocus(start: Option<PaneRef>, events: seq<Event>): Option<PaneRef> {
    if events == [] then start
    else
      var before, last := LastFocus(start, events[..|events| - 1]), events[|events| - 1];
      if !last.Command? || !last.ok then before
      else match last.cmd
        case SwitchTab(_) => None
        case SwitchSpace(_) => None
        case FocusPane(pane) => Some(pane)
        case ToggleFullscreen(pane, hint) => FocusAfterToggle(before, pane, hint, last.live)
        case QueryLayout => before
  }

  /** The whole view state of a writable relay, told by the latest commands that succeeded. */
  lemma {:induction false} ViewIsLastCommands(vs: RelayViewState, events: seq<Event>)
    ensures ViewAfter(vs, false, events).activeTab == LastTab(vs.activeTab, events)
    ensures ViewAfter(vs, false, events).focusedPane == LastFocus(vs.focusedPane, events)
    ensures vs.currentSpace == None ==> ViewAfter(vs, false, events).currentSpace == LastSpace(events)
  {
    if events != [] {
      ViewIsLastCommands(vs, events[..|events| - 1]);
    }
  }

  /** Events after which the relay does not know its focused pane. */
  predicate ForgetsFocus(e: Event) {
    e.Command? && e.ok &&
    match e.cmd
    case SwitchTab(_) => true
    case SwitchSpace(_) => true
    case ToggleFullscreen(pane, hint) =>
      var h := ResolvedHint(pane, hint, e.live);
      h.Some? && Hides(h.value)
    case _ => false
  }

  /** Events after which the relay knows its focused pane. */
  predicate LearnsFocus(e: Event) {
    e.Command? && e.ok &&
    match e.cmd
    case FocusPane(_) => true
    case ToggleFullscreen(pane, hint) =>
      var h := ResolvedHint(pane, hint, e.live);
      h.Some? && !Hides(h.value)
    case _ => false
  }

  /** After an event that forgets the focus it stays unknown exactly until a later event that learns it. */
  lemma {:induction false} FocusUnknownUntilLearned(vs: RelayViewState, before: seq<Event>, e: Event, after: seq<Event>)
    requires ForgetsFocus(e)
    ensures (forall later | later in after :: !LearnsFocus(later)) ==>
              ViewAfter(vs, false, before + [e] + after).focusedPane == None
    ensures after != [] && LearnsFocus(after[|after| - 1]) ==>
              ViewAfter(vs, false, before + [e] + after).focusedPane == Some(after[|after| - 1].cmd.pane)
  {
    var events := before + [e] + after;
    if after == [] {
      assert events[..|events| - 1] == before;
    } else {
      var front, last := after[..|after| - 1], after[|after| - 1];
      assert events[..|events| - 1] == before + [e] + front && events[|events| - 1] == last;
      assert after == front + [last] && last in after;
      FocusUnknownUntilLearned(vs, before, e, front);
    }
  }
}
