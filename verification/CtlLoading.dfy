/** No wedged loading flag: over every run, each flag that is up has a task or a message that will take it down. */
module CtlLoading {
  import opened CtlState
  import opened CtlUpdate
  import opened CtlRunner

  datatype Flag = ServerFlag | ConfigFlag | CertFlag | TokensFlag

  predicate On(app: App, f: Flag) {
    match f
    case ServerFlag => app.server.loading
    case ConfigFlag => app.config.loading
    case CertFlag => app.cert.loading
    case TokensFlag => app.tokens.loading
  }

  /** Delivering `m` takes the flag down. */
  predicate Clears(m: Message, f: Flag) {
    match m
    case ActionFailed => true
    case ActionOk => true
    case StatusLoaded(_) => f == ServerFlag
    case ConfigLoaded(_) => f == ConfigFlag
    case CertEnsured(_, _) => f == CertFlag
    case CertInfoLoaded(_, _) => f == CertFlag
    case TokensLoaded(_) => f == TokensFlag
    case TokenCreated(_) => f == TokensFlag
    case TokensChanged => f == TokensFlag
    case _ => false
  }

  /** Whatever the task of `a` posts takes the flag down. */
  predicate WillClear(a: Action, f: Flag) {
    match a
    case RefreshStatus => f == ServerFlag
    case StartServer => f == ServerFlag
    case StopServer => f == ServerFlag
    case LoadConfig => f == ConfigFlag
    case SaveBind(_) => f == ConfigFlag
    case EnsureCert => f == CertFlag
    case LoadCertInfo => f == CertFlag
    case LoadTokens => f == TokensFlag
    case CreateToken(_, _) => f == TokensFlag
    case RevokeToken(_) => f == TokensFlag
    case _ => false
  }

  lemma PostClears(a: Action, m: Message, f: Flag)
    requires Posts(a, m) && WillClear(a, f)
    ensures Clears(m, f)
  {
  }

  ghost predicate Covered(actions: seq<Action>, f: Flag) {
    exists a :: a in actions && WillClear(a, f)
  }

  /** A flag is up after a turn only if it was up and not taken down, or the turn started a task for it. */
  ghost predicate RaisesWithTask(before: App, turn: Turn, f: Flag) {
    On(turn.app, f) ==> On(before, f) || Covered(turn.actions, f)
  }

  lemma EnterRaises(app: App, screen: Screen, f: Flag)
    ensures RaisesWithTask(app, TransitionTo(app, screen), f)
  {
    var turn := TransitionTo(app, screen);
    match screen {
      case Dashboard =>
        assert turn.actions[0] == RefreshStatus && turn.actions[1] == LoadConfig;
        assert turn.actions[2] == LoadTokens && turn.actions[3] == LoadCertInfo;
        assert RefreshStatus in turn.actions && LoadConfig in turn.actions;
        assert LoadTokens in turn.actions && LoadCertInfo in turn.actions;
        match f {
          case ServerFlag => assert WillClear(RefreshStatus, f);
          case ConfigFlag => assert WillClear(LoadConfig, f);
          case CertFlag => assert WillClear(LoadCertInfo, f);
          case TokensFlag => assert WillClear(LoadTokens, f);
        }
      case ConfigScreen => assert LoadConfig in turn.actions;
      case CertScreen => assert LoadConfig in turn.actions;
      case TokensScreen => assert LoadTokens in turn.actions;
      case ServerScreen => assert RefreshStatus in turn.actions;
    }
  }

  lemma ConfigKeyRaises(app: App, key: KeyEvent, f: Flag)
    ensures RaisesWithTask(app, HandleConfigKey(app, key), f)
  {
    var turn := HandleConfigKey(app, key);
    if turn.actions != [] {
      assert turn.actions[0] in turn.actions;
    }
  }

  lemma CertKeyRaises(app: App, key: KeyEvent, f: Flag)
    ensures RaisesWithTask(app, HandleCertKey(app, key), f)
  {
    var turn := HandleCertKey(app, key);
    if turn.actions != [] {
      assert turn.actions[0] in turn.actions;
    }
  }

  lemma ServerKeyRaises(app: App, key: KeyEvent, f: Flag)
    ensures RaisesWithTask(app, HandleServerKey(app, key), f)
  {
    var turn := HandleServerKey(app, key);
    if turn.actions != [] {
      assert turn.actions[0] in turn.actions;
    }
  }

  lemma TokensKeyRaises(app: App, key: KeyEvent, f: Flag)
    ensures RaisesWithTask(app, HandleTokensKey(app, key), f)
  {
    var turn := HandleTokensKey(app, key);
    if turn.actions != [] {
      assert turn.actions[0] in turn.actions;
    }
  }

  lemma ScreenKeyRaises(app: App, key: KeyEvent, f: Flag)
    ensures RaisesWithTask(app, HandleScreenKey(app, key), f)
  {
    match app.screen {
      case ConfigScreen => ConfigKeyRaises(app, key, f);
      case CertScreen => CertKeyRaises(app, key, f);
      case ServerScreen => ServerKeyRaises(app, key, f);
      case TokensScreen => TokensKeyRaises(app, key, f);
      case Dashboard => NavKeyRaises(app, key, f);
    }
  }

  lemma KeyRaises(app: App, key: KeyEvent, f: Flag)
    ensures RaisesWithTask(app, HandleKey(app, key), f)
  {
    EnterRaises(app, app.screen.Next(), f);
    EnterRaises(app, app.screen.Prev(), f);
    ScreenKeyRaises(app, key, f);
  }

  lemma NavKeyRaises(app: App, key: KeyEvent, f: Flag)
    ensures RaisesWithTask(app, HandleNavKeys(app, key), f)
  {
    EnterRaises(app, app.screen.Next(), f);
    EnterRaises(app, app.screen.Prev(), f);
  }

  lemma TickRaises(app: App, f: Flag)
    ensures RaisesWithTask(app, HandleTick(app), f)
  {
    var turn := HandleTick(app);
    if turn.actions != [] {
      assert turn.actions[0] == RefreshStatus;
      assert turn.actions[0] in turn.actions;
    }
  }

  lemma UpdateRaises(app: App, m: Message, f: Flag)
    ensures RaisesWithTask(app, Update(app, m), f)
    ensures Clears(m, f) && On(Update(app, m).app, f) ==> Covered(Update(app, m).actions, f)
  {
    match m {
      case Key(key) => KeyRaises(app, key, f);
      case Tick => TickRaises(app, f);
      case NavTo(screen) => EnterRaises(app, screen, f);
      case _ =>
    }
  }

  // ─── Over runs ───────────────────────────────────────────────────────────────

  /** A pending task or an undelivered message takes the flag down. */
  ghost predicate Pending(s: Ctl, f: Flag) {
    (exists a :: a in s.tasks && WillClear(a, f)) || (exists m :: m in s.inbox && Clears(m, f))
  }

  ghost predicate NoWedge(s: Ctl) {
    forall f :: On(s.app, f) ==> Pending(s, f)
  }

  lemma {:induction false} SpawnedHas(actions: seq<Action>, a: Action)
    requires a in actions && Spawns(a)
    ensures a in Spawned(actions)
  {
    if a != actions[0] {
      SpawnedHas(actions[1..], a);
    }
  }

  lemma DeliverKeeps(s: Ctl, f: Flag)
    requires s.inbox != [] && (On(s.app, f) ==> Pending(s, f)) && On(Delivered(s).app, f)
    ensures Pending(Delivered(s), f)
  {
    var m, next := s.inbox[0], Delivered(s);
    var actions := Update(s.app, m).actions;
    UpdateRaises(s.app, m, f);
    if Covered(actions, f) {
      var a :| a in actions && WillClear(a, f);
      SpawnedHas(actions, a);
      assert a in next.tasks;
    } else if a :| a in s.tasks && WillClear(a, f) {
      assert a in next.tasks;
    } else {
      var n :| n in s.inbox && Clears(n, f);
      assert n in next.inbox;
    }
  }

  lemma CompleteKeeps(s: Ctl, i: nat, m: Message, f: Flag)
    requires Enabled(s, Complete(i, m)) && Pending(s, f)
    ensures Pending(Apply(s, Complete(i, m)), f)
  {
    var next := Apply(s, Complete(i, m));
    assert m in next.inbox;
    if a :| a in s.tasks && WillClear(a, f) {
      if a == s.tasks[i] {
        PostClears(a, m, f);
      } else {
        assert a in next.tasks;
      }
    } else {
      var n :| n in s.inbox && Clears(n, f);
      assert n in next.inbox;
    }
  }

  lemma PostKeeps(s: Ctl, m: Message, f: Flag)
    requires Enabled(s, Post(m)) && Pending(s, f)
    ensures Pending(Apply(s, Post(m)), f)
  {
    var next := Apply(s, Post(m));
    if n :| n in s.inbox && Clears(n, f) {
      assert n in next.inbox;
    }
  }

  lemma NoWedgeStep(s: Ctl, step: Step)
    requires NoWedge(s) && Enabled(s, step)
    ensures NoWedge(Apply(s, step))
  {
    var next := Apply(s, step);
    forall f | On(next.app, f) ensures Pending(next, f) {
      match step {
        case Post(m) => PostKeeps(s, m, f);
        case Deliver => DeliverKeeps(s, f);
        case Complete(i, m) => CompleteKeeps(s, i, m, f);
      }
    }
  }

  lemma {:induction false} NoWedgeRun(from: Ctl, steps: seq<Step>, to: Ctl)
    requires NoWedge(from) && Run(from, steps, to)
    ensures NoWedge(to)
    decreases |steps|
  {
    if steps != [] {
      NoWedgeStep(from, steps[0]);
      NoWedgeRun(Apply(from, steps[0]), steps[1..], to);
    }
  }

  /** In every reachable state each flag that is up has a pending task or an undelivered message that takes it down. */
  lemma NoWedgedFlag(s: Ctl)
    requires Reachable(s)
    ensures NoWedge(s)
    ensures s.tasks == [] && s.inbox == [] ==> forall f :: !On(s.app, f)
  {
    var from, steps :| Starts(from) && Run(from, steps, s);
    NoWedgeRun(from, steps, s);
  }
}
