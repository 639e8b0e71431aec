/**
 Any number of relays attaching, being routed to and tearing down, in any interleaving.

 An attach takes its count first, then inserts its view state, then its control entry; a teardown removes control, then
 view state, and gives the count back last. Between taking the count and inserting the view state an attach may be
 cancelled. Connection ids are distinct. `delivered` is the history of what each relay's queue accepted, and `taken` how
 much of it the relay has taken out again: a relay handles the commands of its own queue, in order.
 */
module Daemon {
  import opened Common
  import opened SessionIds
  import opened RelayInbound
  import opened ControlRouting

  datatype Stage = Counted | Viewed | Registered | Unregistered | Unviewed | Ended

  datatype Relay = Relay(session: string, key: string, readOnly: bool, stage: Stage)

  /** A command with the request that carried it. */
  datatype Delivery = Delivery(session: string, conn: ConnId, cmd: RelayControl)

  datatype State = State(
    backends: BackendSet,
    relays: map<ConnId, Relay>,
    counters: map<string, nat>,
    view: map<ConnId, ViewStateEntry>,
    control: map<ConnId, ControlEntry>,
    delivered: map<ConnId, seq<Delivery>>,
    taken: map<ConnId, nat>)

  function Initial(backends: BackendSet): State {
    State(backends, map[], map[], map[], map[], map[], map[])
  }

  datatype Move =
    | TakeCount(id: string, readOnly: bool)
    | Cancel
    | InsertView(init: RelayViewState)
    | InsertControl
    | RemoveControl
    | RemoveView
    | DropCount

  datatype Step =
    | Life(c: ConnId, move: Move)
    | Handle(c: ConnId, event: Event)
    | Route(order: seq<ConnId>, request: Delivery, alive: bool)

  function CountOf(counters: map<string, nat>, key: string): nat {
    if key in counters then counters[key] else 0
  }

  /** `fetch_sub` wraps below zero. */
  function OneLess(n: nat): nat {
    if n == 0 then 0xFFFF_FFFF_FFFF_FFFF else n - 1
  }

  predicate AtStage(s: State, c: ConnId, stage: Stage) {
    c in s.relays && s.relays[c].stage == stage
  }

  predicate MoveEnabled(s: State, c: ConnId, move: Move) {
    match move
    case TakeCount(id, _) => c !in s.relays && c != "" && ResolveSessionKind(s.backends, id).Success?
    case Cancel => AtStage(s, c, Counted)
    case InsertView(init) => AtStage(s, c, Counted) && init.currentSpace == None
    case InsertControl => AtStage(s, c, Viewed)
    case RemoveControl => AtStage(s, c, Registered)
    case RemoveView => AtStage(s, c, Unregistered)
    case DropCount => AtStage(s, c, Unviewed)
  }

  /** `cmd` is at the head of the queue of `c`. */
  predicate IsNext(s: State, c: ConnId, cmd: RelayControl) {
    c in s.delivered && c in s.taken && s.taken[c] < |s.delivered[c]| && s.delivered[c][s.taken[c]].cmd == cmd
  }

  ghost predicate Enabled(s: State, step: Step) {
    match step
    case Life(c, move) => MoveEnabled(s, c, move)
    case Handle(c, event) =>
      AtStage(s, c, Registered) && !Breaks(event) && (event.Command? ==> IsNext(s, c, event.cmd))
    case Route(order, _, _) => Lists(order, s.control)
  }

  function Moved(s: State, c: ConnId, stage: Stage): State
    requires c in s.relays
  {
    s.(relays := s.relays[c := s.relays[c].(stage := stage)])
  }

  /** The guard of `c` is dropped. */
  function GaveBack(s: State, c: ConnId): State
    requires c in s.relays
  {
    var key := s.relays[c].key;
    Moved(s, c, Ended).(counters := s.counters[key := OneLess(CountOf(s.counters, key))])
  }

  function Lived(s: State, c: ConnId, move: Move): State
    requires MoveEnabled(s, c, move)
  {
    match move
    case TakeCount(id, readOnly) =>
      var key := CountKey(s.backends, id);
      s.(relays := s.relays[c := Relay(id, key, readOnly, Counted)],
         counters := s.counters[key := CountOf(s.counters, key) + 1],
         delivered := s.delivered[c := []],
         taken := s.taken[c := 0])
    case Cancel => GaveBack(s, c)
    case InsertView(init) => Moved(s, c, Viewed).(view := s.view[c := ViewStateEntry(s.relays[c].session, init)])
    case InsertControl =>
      Moved(s, c, Registered).(control := s.control[c := ControlEntry(s.relays[c].session, s.relays[c].readOnly)])
    case RemoveControl => Moved(s, c, Unregistered).(control := s.control - {c})
    case RemoveView => Moved(s, c, Unviewed).(view := s.view - {c})
    case DropCount => GaveBack(s, c)
  }

  function HandledBy(s: State, c: ConnId, event: Event): State
    requires c in s.relays
  {
    var t := if event.Command? && c in s.taken then s.(taken := s.taken[c := s.taken[c] + 1]) else s;
    if c in s.view
    then t.(view := Updated(s.view, c, ViewAfter(s.view[c].state, s.relays[c].readOnly, [event])))
    else t
  }

  /** Which routing rule a command follows: its own connection only, any relay of the session, or the steering rule. */
  function RouteTarget(control: map<ConnId, ControlEntry>, order: seq<ConnId>, request: Delivery): Option<ConnId> {
    match request.cmd
    case SwitchSpace(_) => SpaceTarget(control, request.session, request.conn)
    case QueryLayout => QueryTarget(control, order, request.session, request.conn)
    case _ => SteerTarget(control, order, request.session, request.conn)
  }

  /** The send that follows a lookup; it fails when the receiving task is gone by then (`alive` is false). */
  function Delivered(s: State, target: Option<ConnId>, request: Delivery, alive: bool): State {
    if target.Some? && target.value in s.delivered && alive
    then s.(delivered := s.delivered[target.value := s.delivered[target.value] + [request]])
    else s
  }

  ghost function Apply(s: State, step: Step): State
    requires Enabled(s, step)
  {
    match step
    case Life(c, move) => Lived(s, c, move)
    case Handle(c, event) => HandledBy(s, c, event)
    case Route(order, request, alive) => Delivered(s, RouteTarget(s.control, order, request), request, alive)
  }

  ghost predicate Run(s: State, run: seq<Step>, t: State)
    decreases |run|
  {
    if run == [] then s == t
    else Enabled(s, run[0]) && Run(Apply(s, run[0]), run[1..], t)
  }

  // ─── Registries and counts ───────────────────────────────────────────────────

  predicate HasView(stage: Stage) {
    stage.Viewed? || stage.Registered? || stage.Unregistered?
  }

  /** The entries of `c` follow its stage, and both registries store the session id the client sent. */
  predicate EntryOk(s: State, c: ConnId) {
    if c !in s.relays then c !in s.view && c !in s.control && c !in s.delivered && c !in s.taken
    else
      var relay := s.relays[c];
      && c in s.delivered && c in s.taken && s.taken[c] <= |s.delivered[c]|
      && (c in s.view <==> HasView(relay.stage))
      && (c in s.control <==> relay.stage.Registered?)
      && (c in s.view ==> s.view[c].session == relay.session)
      && (c in s.control ==> s.control[c] == ControlEntry(relay.session, relay.readOnly))
      && ResolveSessionKind(s.backends, relay.session).Success?
      && relay.key == CountKey(s.backends, relay.session)
  }

  ghost predicate EntriesFollowStages(s: State) {
    forall c :: EntryOk(s, c)
  }

  lemma LifeEntryOk(s: State, c: ConnId, move: Move, d: ConnId)
    requires EntryOk(s, c) && EntryOk(s, d) && MoveEnabled(s, c, move)
    ensures EntryOk(Lived(s, c, move), d)
  {
  }

  lemma HandleEntryOk(s: State, c: ConnId, event: Event, d: ConnId)
    requires EntryOk(s, d) && c in s.relays && (event.Command? ==> IsNext(s, c, event.cmd))
    ensures EntryOk(HandledBy(s, c, event), d)
  {
  }

  lemma RouteEntryOk(s: State, target: Option<ConnId>, request: Delivery, alive: bool, d: ConnId)
    requires EntryOk(s, d)
    ensures EntryOk(Delivered(s, target, request, alive), d)
  {
  }

  lemma EntriesStep(s: State, step: Step)
    requires EntriesFollowStages(s) && Enabled(s, step)
    ensures EntriesFollowStages(Apply(s, step))
  {
    var t := Apply(s, step);
    forall d
      ensures EntryOk(t, d)
    {
      assert EntryOk(s, d);
      match step
      case Life(c, move) =>
        assert EntryOk(s, c);
        LifeEntryOk(s, c, move, d);
      case Handle(c, event) => HandleEntryOk(s, c, event, d);
      case Route(order, request, alive) =>
        RouteEntryOk(s, RouteTarget(s.control, order, request), request, alive, d);
    }
  }

  /** The relays whose guard for `key` is alive. */
  ghost function Holding(relays: map<ConnId, Relay>, key: string): set<ConnId> {
    set c | c in relays && relays[c].key == key && !relays[c].stage.Ended?
  }

  ghost predicate CountsAreGuards(s: State) {
    forall key :: CountOf(s.counters, key) == |Holding(s.relays, key)|
  }

  lemma TakenHolding(s: State, c: ConnId, relay: Relay, key: string)
    requires c !in s.relays && relay.stage.Counted?
    ensures |Holding(s.relays[c := relay], key)| == |Holding(s.relays, key)| + if relay.key == key then 1 else 0
  {
    var before, after := Holding(s.relays, key), Holding(s.relays[c := relay], key);
    assert c !in before;
    assert after == if relay.key == key then before + {c} else before;
  }

  lemma MovedHolding(s: State, c: ConnId, stage: Stage, key: string)
    requires c in s.relays && !s.relays[c].stage.Ended?
    ensures |Holding(Moved(s, c, stage).relays, key)|
            == |Holding(s.relays, key)| - if stage.Ended? && s.relays[c].key == key then 1 else 0
  {
    var before, after := Holding(s.relays, key), Holding(Moved(s, c, stage).relays, key);
    assert s.relays[c].key == key ==> c in before;
    assert after == if stage.Ended? then before - {c} else before;
  }

  lemma LifeCounts(s: State, c: ConnId, move: Move, key: string)
    requires CountsAreGuards(s) && MoveEnabled(s, c, move)
    ensures CountOf(Lived(s, c, move).counters, key) == |Holding(Lived(s, c, move).relays, key)|
  {
    assert CountOf(s.counters, key) == |Holding(s.relays, key)|;
    match move
    case TakeCount(id, readOnly) => TakenHolding(s, c, Relay(id, CountKey(s.backends, id), readOnly, Counted), key);
    case _ => MovedHolding(s, c, Lived(s, c, move).relays[c].stage, key);
  }

  lemma CountsStep(s: State, step: Step)
    requires CountsAreGuards(s) && Enabled(s, step)
    ensures CountsAreGuards(Apply(s, step))
  {
    var t := Apply(s, step);
    if step.Life? {
      forall key
        ensures CountOf(t.counters, key) == |Holding(t.relays, key)|
      {
        LifeCounts(s, step.c, step.move, key);
      }
    } else {
      assert t.counters == s.counters && t.relays == s.relays;
    }
  }

  // ─── Deliveries ──────────────────────────────────────────────────────────────

  /**
   What a relay may be sent: commands of its own session; steering of a connection it is not only when it is writable
   and the session is not collapsed; space switches only of its own connection.
   */
  predicate MayReceive(c: ConnId, relay: Relay, d: Delivery) {
    && d.session == relay.session
    && (c != d.conn ==>
          d.cmd.QueryLayout?
          || (!d.cmd.SwitchSpace? && !relay.readOnly && !IsCollapsedBackendSession(d.session)))
  }

  ghost predicate DeliveriesIsolated(s: State) {
    forall c | c in s.relays && c in s.delivered :: QueueOk(s, c)
  }

  predicate QueueOk(s: State, c: ConnId)
    requires c in s.relays && c in s.delivered
  {
    forall d | d in s.delivered[c] :: MayReceive(c, s.relays[c], d)
  }

  lemma RouteTargetMayReceive(s: State, order: seq<ConnId>, request: Delivery)
    requires EntriesFollowStages(s) && Lists(order, s.control)
    ensures var target := RouteTarget(s.control, order, request);
      target.Some? ==> target.value in s.relays && MayReceive(target.value, s.relays[target.value], request)
  {
    SteerTargetIsolated(s.control, order, request.session, request.conn);
    QueryTargetIsolated(s.control, order, request.session, request.conn);
    var target := RouteTarget(s.control, order, request);
    assert target.Some? ==> EntryOk(s, target.value);
  }

  lemma DeliveriesStep(s: State, step: Step)
    requires EntriesFollowStages(s) && DeliveriesIsolated(s) && Enabled(s, step)
    ensures DeliveriesIsolated(Apply(s, step))
  {
    match step
    case Life(c, move) => LifeIsolated(s, c, move);
    case Handle(c, event) => HandleIsolated(s, c, event);
    case Route(order, request, alive) =>
      RouteTargetMayReceive(s, order, request);
      RouteIsolated(s, RouteTarget(s.control, order, request), request, alive);
  }

  lemma LifeIsolated(s: State, c: ConnId, move: Move)
    requires EntriesFollowStages(s) && DeliveriesIsolated(s) && MoveEnabled(s, c, move)
    ensures DeliveriesIsolated(Lived(s, c, move))
  {
    var t := Lived(s, c, move);
    forall d | d in t.relays && d in t.delivered ensures QueueOk(t, d) {
      assert EntryOk(s, d);
      if d in s.relays {
        LifeKeepsQueues(s, c, move, d);
        assert QueueOk(s, d);
      }
    }
  }

  lemma HandleIsolated(s: State, c: ConnId, event: Event)
    requires DeliveriesIsolated(s) && c in s.relays
    ensures DeliveriesIsolated(HandledBy(s, c, event))
  {
    var t := HandledBy(s, c, event);
    forall d | d in t.relays && d in t.delivered ensures QueueOk(t, d) {
      assert QueueOk(s, d);
    }
  }

  lemma RouteIsolated(s: State, target: Option<ConnId>, request: Delivery, alive: bool)
    requires DeliveriesIsolated(s)
    requires target.Some? ==> target.value in s.relays && MayReceive(target.value, s.relays[target.value], request)
    ensures DeliveriesIsolated(Delivered(s, target, request, alive))
  {
    var t := Delivered(s, target, request, alive);
    forall d | d in t.relays && d in t.delivered ensures QueueOk(t, d) {
      assert QueueOk(s, d);
    }
  }

  lemma LifeKeepsQueues(s: State, c: ConnId, move: Move, d: ConnId)
    requires MoveEnabled(s, c, move)
    requires d in s.relays && d in s.delivered
    ensures var t := Lived(s, c, move);
      d in t.relays && d in t.delivered && t.delivered[d] == s.delivered[d]
      && t.relays[d].session == s.relays[d].session && t.relays[d].readOnly == s.relays[d].readOnly
  {
  }

  // ─── Over every run ──────────────────────────────────────────────────────────

  ghost predicate Inv(s: State) {
    EntriesFollowStages(s) && CountsAreGuards(s) && DeliveriesIsolated(s)
  }

  lemma {:induction false} InvRun(s: State, run: seq<Step>, t: State)
    requires Inv(s) && Run(s, run, t)
    ensures Inv(t) && t.backends == s.backends
    decreases |run|
  {
    if run != [] {
      EntriesStep(s, run[0]);
      CountsStep(s, run[0]);
      DeliveriesStep(s, run[0]);
      InvRun(Apply(s, run[0]), run[1..], t);
    }
  }

  lemma InitialInv(backends: BackendSet)
    ensures Inv(Initial(backends))
  {
    var s := Initial(backends);
    forall key
      ensures CountOf(s.counters, key) == |Holding(s.relays, key)|
    {
      assert Holding(s.relays, key) == {};
    }
  }

  /** The control entries whose session falls into count bucket `key`. */
  ghost function ControlIn(s: State, key: string): set<ConnId> {
    set c | c in s.control && ResolveSessionKind(s.backends, s.control[c].session).Success?
            && CountKey(s.backends, s.control[c].session) == key
  }

  /**
   Registry and count invariant, over every interleaving: a control entry has a view-state entry with the same session;
   the count of a bucket is its number of live guards and covers its control entries; and once every relay has ended
   both registries are empty and every count is zero.
   */
  lemma RegistriesAndCounts(backends: BackendSet, run: seq<Step>, t: State, key: string)
    requires Run(Initial(backends), run, t)
    ensures forall c | c in t.control :: c in t.view && t.view[c].session == t.control[c].session
    ensures CountOf(t.counters, key) == |Holding(t.relays, key)| && |ControlIn(t, key)| <= CountOf(t.counters, key)
    ensures (forall c | c in t.relays :: t.relays[c].stage.Ended?) ==>
              t.control == map[] && t.view == map[] && CountOf(t.counters, key) == 0
  {
    InitialInv(backends);
    InvRun(Initial(backends), run, t);
    forall c | c in ControlIn(t, key)
      ensures c in Holding(t.relays, key)
    {
      assert EntryOk(t, c);
    }
    SubsetCard(ControlIn(t, key), Holding(t.relays, key));
    assert CountOf(t.counters, key) == |Holding(t.relays, key)|;
    forall c | c in t.control
      ensures c in t.view && t.view[c].session == t.control[c].session
    {
      assert EntryOk(t, c);
    }
    if forall c | c in t.relays :: t.relays[c].stage.Ended? {
      assert Holding(t.relays, key) == {};
      assert forall c | c in t.view || c in t.control :: EntryOk(t, c);
      assert t.view.Keys == {} && t.control.Keys == {};
    }
  }

  /** Counters never underflow: a guard that is dropped was counted. */
  lemma CountsNeverUnderflow(backends: BackendSet, run: seq<Step>, t: State, c: ConnId)
    requires Run(Initial(backends), run, t) && (MoveEnabled(t, c, Cancel) || MoveEnabled(t, c, DropCount))
    ensures CountOf(t.counters, t.relays[c].key) > 0
  {
    InitialInv(backends);
    InvRun(Initial(backends), run, t);
    var key := t.relays[c].key;
    assert c in Holding(t.relays, key);
    assert CountOf(t.counters, key) == |Holding(t.relays, key)|;
  }

  /** Routing isolation over every run. */
  lemma RoutingIsolated(backends: BackendSet, run: seq<Step>, t: State, c: ConnId, d: Delivery)
    requires Run(Initial(backends), run, t) && c in t.delivered && d in t.delivered[c]
    ensures c in t.relays && t.relays[c].session == d.session
    ensures !d.cmd.QueryLayout? && IsCollapsedBackendSession(d.session) ==> c == d.conn
    ensures !d.cmd.QueryLayout? && c != d.conn ==> !t.relays[c].readOnly
    ensures d.cmd.SwitchSpace? ==> c == d.conn
  {
    InitialInv(backends);
    InvRun(Initial(backends), run, t);
    assert EntryOk(t, c);
    assert QueueOk(t, c);
  }

  /** One request reaches at most one queue, and that queue grows by exactly it. */
  lemma RequestReachesOneQueue(s: State, step: Step)
    requires Enabled(s, step) && step.Route?
    ensures var t := Apply(s, step);
      t == s || exists c :: c in s.delivered && t == s.(delivered := s.delivered[c := s.delivered[c] + [step.request]])
  {
  }

  /**
   Where a request goes. Its own connection, if that is attached to the session, takes any command. Without that, a
   SwitchSpace goes nowhere, a layout query to some relay of the session if there is one, and any other command to a
   writable relay of the session if there is one and the session is not collapsed.
   */
  lemma RouteGoesWhere(control: map<ConnId, ControlEntry>, order: seq<ConnId>, request: Delivery)
    requires Lists(order, control)
    ensures var target := RouteTarget(control, order, request);
      if Exact(control, request.session, request.conn) then target == Some(request.conn)
      else match request.cmd
        case SwitchSpace(_) => target == None
        case QueryLayout => target.Some? <==> exists c :: c in control && control[c].session == request.session
        case _ => target.Some? <==>
            !IsCollapsedBackendSession(request.session)
            && exists c :: c in control && control[c].session == request.session && !control[c].readOnly
  {
    FirstOfServes(control, order, request.session, true);
    FirstOfServes(control, order, request.session, false);
  }

  /** A request is accepted exactly if it has a target whose task still receives, at the end of that one queue. */
  lemma RouteDelivers(s: State, order: seq<ConnId>, request: Delivery, alive: bool)
    requires EntriesFollowStages(s) && Lists(order, s.control)
    ensures var target, t := RouteTarget(s.control, order, request), Apply(s, Route(order, request, alive));
      if target.Some? && alive
      then target.value in s.delivered
           && t == s.(delivered := s.delivered[target.value := s.delivered[target.value] + [request]])
      else t == s
  {
    var target := RouteTarget(s.control, order, request);
    SteerTargetIsolated(s.control, order, request.session, request.conn);
    QueryTargetIsolated(s.control, order, request.session, request.conn);
    if target.Some? {
      assert EntryOk(s, target.value);
    }
  }

  /** The places of all queues, one for each command accepted so far. */
  ghost function Places(s: State): set<(ConnId, nat)> {
    set c, i: nat | c in s.delivered && i < |s.delivered[c]| :: (c, i)
  }

  function Requests(run: seq<Step>): nat {
    if run == [] then 0 else (if run[0].Route? then 1 else 0) + Requests(run[1..])
  }

  lemma PlacesStep(s: State, step: Step)
    requires EntriesFollowStages(s) && Enabled(s, step)
    ensures |Places(Apply(s, step))| <= |Places(s)| + if step.Route? then 1 else 0
  {
    var t := Apply(s, step);
    match step
    case Route(_, request, _) =>
      RequestReachesOneQueue(s, step);
      if c :| c in s.delivered && t == s.(delivered := s.delivered[c := s.delivered[c] + [request]]) {
        OnePlaceMore(s, c, request);
      }
    case Life(c, move) =>
      assert EntryOk(s, c);
      LifePlaces(s, c, move);
    case Handle(c, event) => assert HandledBy(s, c, event).delivered == s.delivered;
  }

  lemma OnePlaceMore(s: State, c: ConnId, request: Delivery)
    requires c in s.delivered
    ensures |Places(s.(delivered := s.delivered[c := s.delivered[c] + [request]]))| <= |Places(s)| + 1
  {
    SubsetCard(Places(s.(delivered := s.delivered[c := s.delivered[c] + [request]])), Places(s) + {(c, |s.delivered[c]|)});
  }

  lemma LifePlaces(s: State, c: ConnId, move: Move)
    requires EntryOk(s, c) && MoveEnabled(s, c, move)
    ensures |Places(Lived(s, c, move))| <= |Places(s)|
  {
    SubsetCard(Places(Lived(s, c, move)), Places(s));
  }

  lemma {:induction false} PlacesRun(s: State, run: seq<Step>, t: State)
    requires EntriesFollowStages(s) && Run(s, run, t)
    ensures |Places(t)| <= |Places(s)| + Requests(run)
    decreases |run|
  {
    if run != [] {
      PlacesStep(s, run[0]);
      EntriesStep(s, run[0]);
      PlacesRun(Apply(s, run[0]), run[1..], t);
    }
  }

  /** Over every run all queues together have accepted no more commands than there were requests: none is multiplied. */
  lemma OneQueuePerRequest(backends: BackendSet, run: seq<Step>, t: State)
    requires Run(Initial(backends), run, t)
    ensures |Places(t)| <= Requests(run)
  {
    InitialInv(backends);
    assert Places(Initial(backends)) == {};
    PlacesRun(Initial(backends), run, t);
  }

  // ─── View states do not interfere ───────────────────────────────────────────

  /** The events handled by relay `c` during a run. */
  function EventsOf(run: seq<Step>, c: ConnId): seq<Event> {
    if run == [] then []
    else EventsOf(run[..|run| - 1], c) + OwnEvent(run[|run| - 1], c)
  }

  function OwnEvent(step: Step, c: ConnId): seq<Event> {
    if step.Handle? && step.c == c then [step.event] else []
  }

  /** The view state of `c`, and whether it is over with it for good. */
  predicate Finished(s: State, c: ConnId) {
    c in s.relays && (s.relays[c].stage.Unviewed? || s.relays[c].stage.Ended?)
  }

  lemma LifeView(s: State, c: ConnId, move: Move, d: ConnId)
    requires EntryOk(s, d) && MoveEnabled(s, c, move) && d in s.relays
    ensures var t := Lived(s, c, move);
      && d in t.relays && t.relays[d].readOnly == s.relays[d].readOnly
      && (Finished(s, d) ==> Finished(t, d))
      && (d in s.view && d !in t.view ==> Finished(t, d))
      && (d in s.view && d in t.view ==> t.view[d] == s.view[d])
  {
  }

  /** Whoever acts, the entry of `c` changes only by the events of `c`, and once removed it does not come back. */
  lemma ViewStep(s: State, step: Step, c: ConnId)
    requires EntryOk(s, c) && Enabled(s, step) && c in s.relays
    ensures var t := Apply(s, step);
      && c in t.relays && t.relays[c].readOnly == s.relays[c].readOnly
      && (Finished(s, c) ==> Finished(t, c))
      && (c in s.view && c !in t.view ==> Finished(t, c))
      && (c in s.view && c in t.view ==>
            t.view[c].state == ViewAfter(s.view[c].state, s.relays[c].readOnly, OwnEvent(step, c)))
  {
    if step.Life? {
      LifeView(s, step.c, step.move, c);
    }
  }

  lemma {:induction false} RunSplitLast(s: State, run: seq<Step>, t: State) returns (u: State)
    requires Run(s, run, t) && run != []
    ensures Run(s, run[..|run| - 1], u) && Enabled(u, run[|run| - 1]) && t == Apply(u, run[|run| - 1])
    decreases |run|
  {
    if |run| == 1 {
      u := s;
      assert run[1..] == [];
    } else {
      u := RunSplitLast(Apply(s, run[0]), run[1..], t);
      assert run[..|run| - 1][1..] == run[1..][..|run| - 2];
    }
  }

  /**
   View-state non-interference: whatever the other relays do in between, a connection's view state is its state at the
   start followed by its own events.
   */
  lemma {:induction false} ViewsDoNotInterfere(s: State, run: seq<Step>, t: State, c: ConnId)
    requires Inv(s) && Run(s, run, t) && c in s.view
    ensures c in s.relays && c in t.relays && t.relays[c].readOnly == s.relays[c].readOnly
    ensures if c in t.view
      then t.view[c].state == ViewAfter(s.view[c].state, s.relays[c].readOnly, EventsOf(run, c))
      else Finished(t, c)
    decreases |run|
  {
    assert EntryOk(s, c);
    if run != [] {
      var front, last := run[..|run| - 1], run[|run| - 1];
      var u := RunSplitLast(s, run, t);
      ViewsDoNotInterfere(s, front, u, c);
      InvRun(s, front, u);
      assert EntryOk(u, c);
      ViewStep(u, last, c);
      EntriesStep(u, last);
      assert EntryOk(t, c);
      ViewAfterOwn(s.view[c].state, s.relays[c].readOnly, EventsOf(front, c), OwnEvent(last, c));
    }
  }

  lemma ViewAfterOwn(vs: RelayViewState, readOnly: bool, a: seq<Event>, b: seq<Event>)
    requires |b| <= 1
    ensures ViewAfter(vs, readOnly, a + b) == ViewAfter(ViewAfter(vs, readOnly, a), readOnly, b)
  {
    if b == [] {
      assert a + b == a;
    } else {
      assert b == [b[0]] && (a + b)[..|a + b| - 1] == a;
      ViewAfterOne(ViewAfter(vs, readOnly, a), readOnly, b[0]);
    }
  }

  /** From its attach on, a writable connection's current space is that of its own latest successful SwitchSpace. */
  lemma CurrentSpaceOverRuns(s: State, c: ConnId, init: RelayViewState, run: seq<Step>, t: State)
    requires Inv(s) && MoveEnabled(s, c, InsertView(init)) && Run(Lived(s, c, InsertView(init)), run, t) && c in t.view
    ensures t.view[c].state.currentSpace == if s.relays[c].readOnly then None else LastSpace(EventsOf(run, c))
  {
    var u := Apply(s, Life(c, InsertView(init)));
    EntriesStep(s, Life(c, InsertView(init)));
    CountsStep(s, Life(c, InsertView(init)));
    DeliveriesStep(s, Life(c, InsertView(init)));
    ViewsDoNotInterfere(u, run, t, c);
    CurrentSpaceIsLastSwitched(init, EventsOf(run, c));
  }

  /**
   From its attach on, in any interleaving, a connection's tab, pane and space are those its own latest commands left: a
   read-only one keeps what it started with.
   */
  lemma ViewOverRuns(s: State, c: ConnId, init: RelayViewState, run: seq<Step>, t: State)
    requires Inv(s) && MoveEnabled(s, c, InsertView(init)) && Run(Lived(s, c, InsertView(init)), run, t) && c in t.view
    ensures t.view[c].state ==
      if s.relays[c].readOnly then init
      else RelayViewState(LastTab(init.activeTab, EventsOf(run, c)), LastFocus(init.focusedPane, EventsOf(run, c)),
                          LastSpace(EventsOf(run, c)))
  {
    InsertKeepsInv(s, c, init);
    ViewsDoNotInterfere(Lived(s, c, InsertView(init)), run, t, c);
    ViewIsLastCommands(init, EventsOf(run, c));
  }

  // ─── Commands handled are commands delivered ─────────────────────────────────

  function CommandsIn(events: seq<Event>): seq<RelayControl> {
    if events == [] then []
    else
      var last := events[|events| - 1];
      CommandsIn(events[..|events| - 1]) + if last.Command? then [last.cmd] else []
  }

  function CommandsOf(deliveries: seq<Delivery>): seq<RelayControl> {
    seq(|deliveries|, i requires 0 <= i < |deliveries| => deliveries[i].cmd)
  }

  /** What `c` handled between two states is what its queue held there, in order. */
  predicate HandledFromQueue(s: State, events: seq<Event>, t: State, c: ConnId) {
    && c in s.taken && c in t.taken && c in t.delivered && s.taken[c] <= t.taken[c] <= |t.delivered[c]|
    && CommandsIn(events) == CommandsOf(t.delivered[c][s.taken[c]..t.taken[c]])
  }

  /** The queue of `c` only grows at its end. */
  predicate QueueGrows(s: State, t: State, c: ConnId) {
    && c in s.relays && c in t.relays && t.relays[c].session == s.relays[c].session
    && c in s.delivered && c in t.delivered && s.delivered[c] <= t.delivered[c]
    && c in s.taken && c in t.taken
  }

  lemma LifeQueue(s: State, c: ConnId, move: Move, d: ConnId)
    requires EntryOk(s, d) && MoveEnabled(s, c, move) && d in s.relays
    ensures QueueGrows(s, Lived(s, c, move), d) && Lived(s, c, move).taken[d] == s.taken[d]
  {
  }

  lemma HandleQueue(s: State, c: ConnId, event: Event, d: ConnId)
    requires EntryOk(s, d) && c in s.relays && d in s.relays
    ensures QueueGrows(s, HandledBy(s, c, event), d)
    ensures HandledBy(s, c, event).taken[d] == s.taken[d] + if c == d && event.Command? then 1 else 0
  {
  }

  lemma RouteQueue(s: State, target: Option<ConnId>, request: Delivery, alive: bool, d: ConnId)
    requires EntryOk(s, d) && d in s.relays
    ensures QueueGrows(s, Delivered(s, target, request, alive), d)
    ensures Delivered(s, target, request, alive).taken[d] == s.taken[d]
  {
  }

  /** Whoever acts, the queue of `c` only grows at its end, and `c` takes only its head. */
  lemma QueueStep(s: State, step: Step, c: ConnId)
    requires EntryOk(s, c) && Enabled(s, step) && c in s.relays
    ensures var t, own := Apply(s, step), OwnEvent(step, c);
      && QueueGrows(s, t, c)
      && t.taken[c] == s.taken[c] + (if own != [] && own[0].Command? then 1 else 0)
    ensures var own := OwnEvent(step, c); own != [] && own[0].Command? ==> IsNext(s, c, own[0].cmd)
  {
    match step
    case Life(d, move) => LifeQueue(s, d, move, c);
    case Handle(d, event) => HandleQueue(s, d, event, c);
    case Route(order, request, alive) => RouteQueue(s, RouteTarget(s.control, order, request), request, alive, c);
  }

  lemma HandledOneMore(s: State, events: seq<Event>, u: State, step: Step, c: ConnId)
    requires HandledFromQueue(s, events, u, c) && EntryOk(u, c) && Enabled(u, step) && c in u.relays
    ensures HandledFromQueue(s, events + OwnEvent(step, c), Apply(u, step), c)
  {
    QueueStep(u, step, c);
    var t, own := Apply(u, step), OwnEvent(step, c);
    var was := u.delivered[c][s.taken[c]..u.taken[c]];
    assert t.delivered[c][s.taken[c]..u.taken[c]] == was;
    if own == [] {
      assert events + own == events;
    } else {
      assert (events + own)[..|events|] == events;
      if own[0].Command? {
        var now := t.delivered[c][s.taken[c]..t.taken[c]];
        assert now == was + [t.delivered[c][u.taken[c]]];
        assert CommandsOf(now) == CommandsOf(was) + [own[0].cmd];
      }
    }
  }

  /** Over every run a relay handles exactly what its queue accepted, in order, as far as it has got. */
  lemma {:induction false} HandlesOwnQueue(s: State, run: seq<Step>, t: State, c: ConnId)
    requires Inv(s) && Run(s, run, t) && c in s.relays
    ensures c in t.relays && t.relays[c].session == s.relays[c].session
    ensures HandledFromQueue(s, EventsOf(run, c), t, c)
    decreases |run|
  {
    assert EntryOk(s, c);
    if run == [] {
      assert s.delivered[c][s.taken[c]..s.taken[c]] == [];
    } else {
      var front, last := run[..|run| - 1], run[|run| - 1];
      var u := RunSplitLast(s, run, t);
      HandlesOwnQueue(s, front, u, c);
      InvRun(s, front, u);
      assert EntryOk(u, c);
      HandledOneMore(s, EventsOf(front, c), u, last, c);
      QueueStep(u, last, c);
    }
  }

  // ─── On a collapsed session only the named connection is steered ─────────────

  predicate Steers(e: Event) {
    e.Command? && !e.cmd.QueryLayout?
  }

  function Steering(events: seq<Event>): seq<Event> {
    if events == [] then []
    else
      var last := events[|events| - 1];
      Steering(events[..|events| - 1]) + if Steers(last) then [last] else []
  }

  lemma OthersMoveNothing(vs: RelayViewState, readOnly: bool, e: Event)
    requires !Steers(e)
    ensures ViewAfter(vs, readOnly, [e]) == vs
  {
    ViewAfterOne(vs, readOnly, e);
    assert [e][..0] == [];
  }

  /** Frames, token checks and layout queries do not touch the view state. */
  lemma {:induction false} OnlySteeringMoves(vs: RelayViewState, readOnly: bool, events: seq<Event>)
    ensures ViewAfter(vs, readOnly, events) == ViewAfter(vs, readOnly, Steering(events))
  {
    if events != [] {
      var front, last := events[..|events| - 1], events[|events| - 1];
      OnlySteeringMoves(vs, readOnly, front);
      ViewAfterOwn(vs, readOnly, front, [last]);
      assert front + [last] == events;
      if Steers(last) {
        ViewAfterOwn(vs, readOnly, Steering(front), [last]);
      } else {
        OthersMoveNothing(ViewAfter(vs, readOnly, front), readOnly, last);
        assert Steering(events) == Steering(front);
      }
    }
  }

  lemma {:induction false} SteeringIsCommand(events: seq<Event>, e: Event)
    requires e in Steering(events)
    ensures Steers(e) && e.cmd in CommandsIn(events)
  {
    if events != [] && e in Steering(events[..|events| - 1]) {
      SteeringIsCommand(events[..|events| - 1], e);
    }
  }

  /** A request that names `c` brought the command of `e` to `c`. */
  ghost predicate AskedOf(s: State, c: ConnId, e: Event) {
    e.Command? && c in s.delivered && exists d :: d in s.delivered[c] && d.cmd == e.cmd && d.conn == c
  }

  lemma InsertKeepsInv(s: State, c: ConnId, init: RelayViewState)
    requires Inv(s) && MoveEnabled(s, c, InsertView(init))
    ensures Inv(Lived(s, c, InsertView(init)))
  {
    EntriesStep(s, Life(c, InsertView(init)));
    CountsStep(s, Life(c, InsertView(init)));
    DeliveriesStep(s, Life(c, InsertView(init)));
  }

  /**
   On a collapsed session a connection's view state, from its attach on and in any interleaving, is the outcome of the
   steering commands it handled, and each of these was asked for by a request naming this very connection.
   */
  lemma CollapsedViewIsOwn(s: State, c: ConnId, init: RelayViewState, run: seq<Step>, t: State)
    requires Inv(s) && MoveEnabled(s, c, InsertView(init)) && Run(Lived(s, c, InsertView(init)), run, t) && c in t.view
    requires IsCollapsedBackendSession(s.relays[c].session)
    ensures t.view[c].state == ViewAfter(init, s.relays[c].readOnly, Steering(EventsOf(run, c)))
    ensures forall e | e in Steering(EventsOf(run, c)) :: AskedOf(t, c, e)
  {
    var u := Lived(s, c, InsertView(init));
    InsertKeepsInv(s, c, init);
    ViewsDoNotInterfere(u, run, t, c);
    OnlySteeringMoves(init, s.relays[c].readOnly, EventsOf(run, c));
    SteeringWasAsked(u, run, t, c);
  }

  lemma SteeringWasAsked(s: State, run: seq<Step>, t: State, c: ConnId)
    requires Inv(s) && Run(s, run, t) && c in s.relays && IsCollapsedBackendSession(s.relays[c].session)
    ensures forall e | e in Steering(EventsOf(run, c)) :: AskedOf(t, c, e)
  {
    HandlesOwnQueue(s, run, t, c);
    InvRun(s, run, t);
    forall e | e in Steering(EventsOf(run, c)) ensures AskedOf(t, c, e) {
      SteeringIsCommand(EventsOf(run, c), e);
      HandledWasAsked(s, EventsOf(run, c), t, c, e);
    }
  }

  lemma HandledWasAsked(s: State, events: seq<Event>, t: State, c: ConnId, e: Event)
    requires HandledFromQueue(s, events, t, c) && Steers(e) && e.cmd in CommandsIn(events)
    requires Inv(t) && c in t.relays && IsCollapsedBackendSession(t.relays[c].session)
    ensures AskedOf(t, c, e)
  {
    var part := t.delivered[c][s.taken[c]..t.taken[c]];
    var i :| 0 <= i < |part| && CommandsOf(part)[i] == e.cmd;
    var d := part[i];
    assert d in t.delivered[c];
    assert QueueOk(t, c);
    assert MayReceive(c, t.relays[c], d);
  }
}
