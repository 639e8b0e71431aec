/**
 The `loading` flag of the server as a guard for status reads: when it holds, when it breaks, and which keys and messages
 start a read beside one that is still out.
 */
module CtlGuard {
  import opened Common
  import opened CtlState
  import opened CtlUpdate
  import opened CtlRunner
  import opened CtlLoading
  import opened CtlDrain

  // ─── Status reads that are out ───────────────────────────────────────────────

  /** A task whose result is a server status. */
  function StatusTask(a: Action): nat {
    if a.RefreshStatus? || a.StartServer? || a.StopServer? then 1 else 0
  }

  function StatusMessage(m: Message): nat {
    if m.StatusLoaded? then 1 else 0
  }

  function Reads(s: Ctl): nat {
    Sum(s.tasks, StatusTask) + Sum(s.inbox, StatusMessage)
  }

  function ReadsIn(actions: seq<Action>): nat {
    Sum(actions, StatusTask)
  }

  predicate ReadOut(s: Ctl) {
    Reads(s) > 0
  }

  /** While a read is out the flag is up. */
  predicate Guarded(s: Ctl) {
    ReadOut(s) ==> s.app.server.loading
  }

  /** The message at the head is taken, and nothing else has happened yet. */
  function Rest(s: Ctl): Ctl
    requires s.inbox != []
  {
    s.(inbox := s.inbox[1..])
  }

  /** Takes the server's flag down. */
  predicate Lowers(m: Message) {
    m.StatusLoaded? || m.ActionFailed? || m.ActionOk?
  }

  /** The screen that a message makes the panel enter. */
  function Entered(app: App, m: Message): Option<Screen> {
    match m
    case NavTo(screen) => Some(screen)
    case Key(key) => EnteredByKey(app, key)
    case _ => None
  }

  function EnteredByKey(app: App, key: KeyEvent): Option<Screen> {
    if (key.ctrl && key.code == Char('c')) || app.overlay.Some? then None
    else if key.code == Tab then Some(app.screen.Next())
    else if key.code == BackTab then Some(app.screen.Prev())
    else if app.screen == Dashboard && (key.code == Right || key.code == Down) then Some(app.screen.Next())
    else if app.screen == Dashboard && (key.code == Left || key.code == Up) then Some(app.screen.Prev())
    else None
  }

  predicate Polled(screen: Option<Screen>) {
    screen == Some(Dashboard) || screen == Some(ServerScreen)
  }

  // ─── What one message does to the flag and the reads ─────────────────────────

  lemma ReadsOfOne(a: Action)
    ensures ReadsIn([a]) == StatusTask(a)
  {
    SumOne(a, StatusTask);
  }

  lemma {:induction false} SpawnedReads(actions: seq<Action>)
    ensures ReadsIn(Spawned(actions)) == ReadsIn(actions)
  {
    if actions != [] {
      SpawnedReads(actions[1..]);
      var first := if Spawns(actions[0]) then [actions[0]] else [];
      ReadsOfOne(actions[0]);
      SumAppend(first, Spawned(actions[1..]), StatusTask);
    }
  }

  /** Entering a screen starts a read exactly if the screen shows the status, whatever the flag says. */
  lemma EntryReads(app: App, screen: Screen)
    ensures var turn := TransitionTo(app, screen);
      && ReadsIn(turn.actions) == (if Polled(Some(screen)) then 1 else 0)
      && turn.app.server.loading == (app.server.loading || Polled(Some(screen)))
  {
    var actions := TransitionTo(app, screen).actions;
    if screen == Dashboard {
      assert actions == [RefreshStatus] + ([LoadConfig] + ([LoadTokens] + [LoadCertInfo]));
      DashboardReads();
    } else {
      assert actions == [actions[0]];
      ReadsOfOne(actions[0]);
    }
  }

  lemma DashboardReads()
    ensures ReadsIn([RefreshStatus, LoadConfig, LoadTokens, LoadCertInfo]) == 1
  {
    SumAppend([RefreshStatus], [LoadConfig, LoadTokens, LoadCertInfo], StatusTask);
    SumAppend([LoadConfig], [LoadTokens, LoadCertInfo], StatusTask);
    SumAppend([LoadTokens], [LoadCertInfo], StatusTask);
    assert [RefreshStatus] + [LoadConfig, LoadTokens, LoadCertInfo] == [RefreshStatus, LoadConfig, LoadTokens, LoadCertInfo];
    assert [LoadConfig] + [LoadTokens, LoadCertInfo] == [LoadConfig, LoadTokens, LoadCertInfo];
    assert [LoadTokens] + [LoadCertInfo] == [LoadTokens, LoadCertInfo];
    ReadsOfOne(RefreshStatus);
    ReadsOfOne(LoadConfig);
    ReadsOfOne(LoadTokens);
    ReadsOfOne(LoadCertInfo);
  }

  /** The turn starts a read only with the flag down, and then puts it up; otherwise it leaves the flag alone. */
  predicate Careful(before: App, turn: Turn) {
    && ReadsIn(turn.actions) <= 1
    && (ReadsIn(turn.actions) == 1 ==> !before.server.loading)
    && turn.app.server.loading == (before.server.loading || ReadsIn(turn.actions) == 1)
  }

  lemma ShortTurnReads(turn: Turn)
    requires |turn.actions| <= 1
    ensures ReadsIn(turn.actions) == if turn.actions == [] then 0 else StatusTask(turn.actions[0])
  {
    if turn.actions != [] {
      ReadsOfOne(turn.actions[0]);
      assert turn.actions == [turn.actions[0]];
    }
  }

  lemma FormKeysAreCareful(app: App, key: KeyEvent)
    ensures Careful(app, HandleConfigKey(app, key)) && Careful(app, HandleTokensKey(app, key))
  {
    HandlersAskOnce(app, key);
    ShortTurnReads(HandleConfigKey(app, key));
    ShortTurnReads(HandleTokensKey(app, key));
    ConfigKeyStartsNoRead(app, key);
    TokensKeyStartsNoRead(app, key);
  }

  predicate LeavesServer(before: App, turn: Turn) {
    turn.app.server == before.server && forall a | a in turn.actions :: StatusTask(a) == 0
  }

  lemma ConfigKeyStartsNoRead(app: App, key: KeyEvent)
    ensures LeavesServer(app, HandleConfigKey(app, key))
  {
  }

  lemma TokensKeyStartsNoRead(app: App, key: KeyEvent)
    ensures LeavesServer(app, HandleTokensKey(app, key))
  {
  }

  lemma OtherKeysAreCareful(app: App, key: KeyEvent)
    ensures Careful(app, HandleCertKey(app, key)) && Careful(app, HandleServerKey(app, key))
  {
    HandlersAskOnce(app, key);
    ShortTurnReads(HandleCertKey(app, key));
    ShortTurnReads(HandleServerKey(app, key));
  }

  lemma ScreenKeyIsCareful(app: App, key: KeyEvent)
    requires !(app.screen == Dashboard && (key.code == Right || key.code == Down || key.code == Left || key.code == Up))
    ensures Careful(app, HandleScreenKey(app, key))
  {
    match app.screen {
      case ConfigScreen => FormKeysAreCareful(app, key);
      case TokensScreen => FormKeysAreCareful(app, key);
      case CertScreen => OtherKeysAreCareful(app, key);
      case ServerScreen => OtherKeysAreCareful(app, key);
      case Dashboard =>
    }
  }

  lemma KeyReads(app: App, key: KeyEvent)
    ensures match EnteredByKey(app, key)
      case Some(screen) => HandleKey(app, key) == TransitionTo(app, screen)
      case None => Careful(app, HandleKey(app, key))
  {
    var turn := HandleKey(app, key);
    if EnteredByKey(app, key).None? {
      if turn == HandleScreenKey(app, key) && !KeyIsGlobal(app, key) {
        ScreenKeyIsCareful(app, key);
      } else {
        ShortTurnReads(turn);
      }
    }
  }

  /** Looked at before any screen is asked. */
  predicate KeyIsGlobal(app: App, key: KeyEvent) {
    || (key.ctrl && key.code == Char('c')) || app.overlay.Some?
    || (key.code == Char('q') && !app.IsTextEditing()) || key.code == Tab || key.code == BackTab
  }

  lemma TickIsCareful(app: App)
    ensures Careful(app, HandleTick(app))
  {
    TickIsLight(app);
    ShortTurnReads(HandleTick(app));
  }

  /** Every message either lowers the flag and starts nothing, or enters a screen, or is careful. */
  lemma UpdateReads(app: App, m: Message)
    ensures var turn := Update(app, m);
      if Lowers(m) then ReadsIn(turn.actions) == 0 && !turn.app.server.loading
      else match Entered(app, m)
        case Some(screen) => turn == TransitionTo(app, screen)
        case None => Careful(app, turn)
  {
    match m {
      case Key(key) => KeyReads(app, key);
      case Tick => TickIsCareful(app);
      case NavTo(_) =>
      case _ => ShortTurnReads(Update(app, m));
    }
  }

  // ─── Steps ───────────────────────────────────────────────────────────────────

  lemma DeliverReads(s: Ctl)
    requires s.inbox != []
    ensures Reads(s) == Reads(Rest(s)) + StatusMessage(s.inbox[0])
    ensures Reads(Delivered(s)) == Reads(Rest(s)) + ReadsIn(Update(s.app, s.inbox[0]).actions)
  {
    var actions := Update(s.app, s.inbox[0]).actions;
    SumAppend(s.tasks, Spawned(actions), StatusTask);
    SpawnedReads(actions);
  }

  lemma CompleteReads(s: Ctl, i: nat, m: Message)
    requires Enabled(s, Complete(i, m))
    ensures Reads(Apply(s, Complete(i, m))) <= Reads(s)
  {
    SumWithout(s.tasks, i, StatusTask);
    SumAppend(s.inbox, [m], StatusMessage);
    SumOne(m, StatusMessage);
    assert StatusMessage(m) <= StatusTask(s.tasks[i]);
  }

  lemma PostReads(s: Ctl, m: Message)
    requires Enabled(s, Post(m))
    ensures Reads(Apply(s, Post(m))) == Reads(s)
  {
    SumAppend(s.inbox, [m], StatusMessage);
    SumOne(m, StatusMessage);
  }

  /** Entering a screen that shows the status starts a read beside one that is out. */
  predicate StartsSecondRead(s: Ctl)
    requires s.inbox != []
  {
    ReadsIn(Update(s.app, s.inbox[0]).actions) > 0 && ReadOut(Rest(s))
  }

  /**
   A second read is started exactly when a screen that shows the status is entered while a read is out; every key and
   tick that starts a read looks at the flag.
   */
  lemma SecondReadIffEntry(s: Ctl)
    requires Guarded(s) && s.inbox != []
    ensures StartsSecondRead(s) <==> Polled(Entered(s.app, s.inbox[0])) && ReadOut(Rest(s))
  {
    var m := s.inbox[0];
    UpdateReads(s.app, m);
    DeliverReads(s);
    if Entered(s.app, m).Some? {
      EntryReads(s.app, Entered(s.app, m).value);
    }
  }

  /**
   The guard breaks exactly when a status, a failure or a success is delivered while another read is still out: all of
   them take the flag down, for whichever task they speak.
   */
  lemma GuardBreaksIff(s: Ctl, step: Step)
    requires Guarded(s) && Enabled(s, step)
    ensures !Guarded(Apply(s, step)) <==> step.Deliver? && Lowers(s.inbox[0]) && ReadOut(Rest(s))
  {
    match step {
      case Post(m) => PostReads(s, m);
      case Complete(i, m) => CompleteReads(s, i, m);
      case Deliver =>
        var m := s.inbox[0];
        UpdateReads(s.app, m);
        DeliverReads(s);
        if Entered(s.app, m).Some? {
          EntryReads(s.app, Entered(s.app, m).value);
        }
    }
  }

  // ─── Single flight ───────────────────────────────────────────────────────────

  predicate SingleFlight(s: Ctl) {
    Guarded(s) && Reads(s) <= 1
  }

  /** The two ways out of single flight. */
  predicate Disturbs(s: Ctl, step: Step) {
    && step.Deliver? && s.inbox != [] && ReadOut(Rest(s))
    && (s.inbox[0].ActionFailed? || s.inbox[0].ActionOk? || Polled(Entered(s.app, s.inbox[0])))
  }

  /** At most one read is out, under the flag, until exactly one of two things happens while it is out. */
  lemma SingleFlightBreaksIff(s: Ctl, step: Step)
    requires SingleFlight(s) && Enabled(s, step)
    ensures !SingleFlight(Apply(s, step)) <==> Disturbs(s, step)
  {
    GuardBreaksIff(s, step);
    match step {
      case Post(m) => PostReads(s, m);
      case Complete(i, m) => CompleteReads(s, i, m);
      case Deliver =>
        DeliverReads(s);
        SecondReadIffEntry(s);
        UpdateReads(s.app, s.inbox[0]);
        if Entered(s.app, s.inbox[0]).Some? {
          EntryReads(s.app, Entered(s.app, s.inbox[0]).value);
        }
    }
  }

  ghost predicate Undisturbed(s: Ctl, steps: seq<Step>)
    decreases |steps|
  {
    steps == [] || (Enabled(s, steps[0]) && !Disturbs(s, steps[0]) && Undisturbed(Apply(s, steps[0]), steps[1..]))
  }

  lemma {:induction false} SingleFlightRun(from: Ctl, steps: seq<Step>, to: Ctl)
    requires SingleFlight(from) && Run(from, steps, to) && Undisturbed(from, steps)
    ensures SingleFlight(to)
    decreases |steps|
  {
    if steps != [] {
      SingleFlightBreaksIff(from, steps[0]);
      SingleFlightRun(Apply(from, steps[0]), steps[1..], to);
    }
  }

  /** From the start on, as long as neither happens, at most one status read is out and the flag covers it. */
  lemma UndisturbedIsSingleFlight(from: Ctl, steps: seq<Step>, to: Ctl)
    requires Starts(from) && Run(from, steps, to) && Undisturbed(from, steps)
    ensures SingleFlight(to)
  {
    SingleFlightRun(from, steps, to);
  }

  // ─── Both happen ─────────────────────────────────────────────────────────────

  /** A failure: the configuration does not load while the first status read is out. */
  lemma FailureDropsGuard()
    ensures exists s :: Reachable(s) && !Guarded(s)
  {
    var s := FirstScreen();
    var i: nat :| i < |s.tasks| && s.tasks[i] == LoadConfig;
    var failed := Apply(s, Complete(i, ActionFailed));
    ReachableStep(s, Complete(i, ActionFailed));
    assert failed.inbox == [ActionFailed];
    var j: nat :| j < |s.tasks| && s.tasks[j] == RefreshStatus;
    assert RefreshStatus in failed.tasks;
    SumHas(failed.tasks, RefreshStatus, StatusTask);
    ReachableStep(failed, Deliver);
    DeliverReads(failed);
    UpdateReads(failed.app, ActionFailed);
  }

  /** No failure: the Server screen is entered while the first read is out, and the first of the two reads comes back. */
  lemma EntryDropsGuard()
    ensures exists s :: Reachable(s) && Guarded(s) && Reads(s) >= 2
    ensures exists s :: Reachable(s) && !Guarded(s) && s.app.server.stopped
  {
    var s := FirstScreen();
    SumHas(s.tasks, RefreshStatus, StatusTask);
    var posted := Apply(s, Post(NavTo(ServerScreen)));
    ReachableStep(s, Post(NavTo(ServerScreen)));
    assert posted.inbox == [NavTo(ServerScreen)];
    var twice := Delivered(posted);
    ReachableStep(posted, Deliver);
    DeliverReads(posted);
    EntryReads(posted.app, ServerScreen);
    assert Reads(twice) >= 2 && twice.app.server.loading && twice.inbox == [];
    assert RefreshStatus in twice.tasks;
    var i: nat :| i < |twice.tasks| && twice.tasks[i] == RefreshStatus;
    FirstReadReturns(twice, i);
  }

  lemma FirstReadReturns(s: Ctl, i: nat)
    requires Reachable(s) && s.inbox == [] && Reads(s) >= 2 && i < |s.tasks| && s.tasks[i] == RefreshStatus
    ensures exists t :: Reachable(t) && !Guarded(t) && t.app.server.stopped
  {
    var m := StatusLoaded(None);
    var back := Apply(s, Complete(i, m));
    ReachableStep(s, Complete(i, m));
    assert back.inbox == [m];
    SumWithout(s.tasks, i, StatusTask);
    DeliverReads(back);
    UpdateReads(back.app, m);
    ReachableStep(back, Deliver);
    assert Reads(Delivered(back)) >= 1;
  }

  /** The state after the first screen has been entered. */
  lemma FirstScreen() returns (s: Ctl)
    ensures Reachable(s) && s.inbox == [] && LoadConfig in s.tasks && RefreshStatus in s.tasks
  {
    var start := Ctl(INITIAL, [], [], [], []);
    StartIsReachable(start);
    ReachableStep(start, Post(NavTo(Dashboard)));
    var posted := Apply(start, Post(NavTo(Dashboard)));
    assert posted.inbox == [NavTo(Dashboard)];
    ReachableStep(posted, Deliver);
    EntersDashboard(posted);
    s := Delivered(posted);
  }

  lemma StartIsReachable(start: Ctl)
    requires start == Ctl(INITIAL, [], [], [], [])
    ensures Reachable(start)
  {
    assert INITIAL.(cert := INITIAL.cert.(advertiseTrust := Auto)) == INITIAL;
    assert Starts(start) && Run(start, [], start);
  }

  lemma EntersDashboard(s: Ctl)
    requires s.inbox == [NavTo(Dashboard)]
    ensures Delivered(s).inbox == [] && LoadConfig in Delivered(s).tasks && RefreshStatus in Delivered(s).tasks
  {
    var actions := Update(s.app, NavTo(Dashboard)).actions;
    assert actions[0] == RefreshStatus && actions[1] == LoadConfig;
    SpawnedHas(actions, actions[0]);
    SpawnedHas(actions, actions[1]);
  }
}
