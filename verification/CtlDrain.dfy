/** Left alone, the runner comes to rest: tasks end, messages are taken, and no loading flag stays up. */
module CtlDrain {
  import opened Common
  import opened CtlState
  import opened CtlUpdate
  import opened CtlRunner
  import opened CtlLoading

  // ─── Sums over sequences ─────────────────────────────────────────────────────

  function Sum<T>(s: seq<T>, weight: T -> nat): nat {
    if s == [] then 0 else weight(s[0]) + Sum(s[1..], weight)
  }

  lemma {:induction false} SumAppend<T>(a: seq<T>, b: seq<T>, weight: T -> nat)
    ensures Sum(a + b, weight) == Sum(a, weight) + Sum(b, weight)
  {
    if a == [] {
      assert a + b == b;
    } else {
      assert (a + b)[1..] == a[1..] + b;
      SumAppend(a[1..], b, weight);
    }
  }

  lemma SumOne<T>(x: T, weight: T -> nat)
    ensures Sum([x], weight) == weight(x)
  {
    assert [x][1..] == [];
  }

  lemma SumWithout<T>(s: seq<T>, i: nat, weight: T -> nat)
    requires i < |s|
    ensures Sum(s, weight) == Sum(Without(s, i), weight) + weight(s[i])
  {
    assert s == s[..i] + ([s[i]] + s[i + 1..]);
    SumAppend(s[..i], [s[i]] + s[i + 1..], weight);
    SumAppend([s[i]], s[i + 1..], weight);
    SumOne(s[i], weight);
    SumAppend(s[..i], s[i + 1..], weight);
  }

  lemma {:induction false} SumHas<T>(s: seq<T>, x: T, weight: T -> nat)
    requires x in s
    ensures Sum(s, weight) >= weight(x)
  {
    if s[0] != x {
      SumHas(s[1..], x, weight);
    }
  }

  // ─── How much work is left ───────────────────────────────────────────────────

  /** Creating or revoking a token makes the list load again. */
  function TaskWeight(a: Action): nat {
    if a.CreateToken? || a.RevokeToken? then 4 else 2
  }

  function MessageWeight(m: Message): nat {
    if FromTerminal(m) then 9 else if m.TokenCreated? || m.TokensChanged? then 3 else 1
  }

  function Work(s: Ctl): nat {
    Sum(s.tasks, TaskWeight) + Sum(s.inbox, MessageWeight)
  }

  predicate Light(actions: seq<Action>, bound: nat) {
    Sum(Spawned(actions), TaskWeight) < bound
  }

  lemma OneIsLight(a: Action)
    ensures Sum(Spawned([a]), TaskWeight) <= TaskWeight(a)
  {
    assert [a][1..] == [];
    assert Spawned([a]) == if Spawns(a) then [a] else [];
    SumOne(a, TaskWeight);
  }

  lemma EnterIsLight(app: App, screen: Screen)
    ensures Light(TransitionTo(app, screen).actions, 9)
  {
    var actions := TransitionTo(app, screen).actions;
    if screen == Dashboard {
      assert actions == [RefreshStatus] + ([LoadConfig] + ([LoadTokens] + [LoadCertInfo]));
      DashboardWork();
    } else {
      OneIsLight(actions[0]);
      assert actions == [actions[0]];
    }
  }

  lemma DashboardWork()
    ensures Sum(Spawned([RefreshStatus, LoadConfig, LoadTokens, LoadCertInfo]), TaskWeight) == 8
  {
    SpawnedCons(RefreshStatus, [LoadConfig, LoadTokens, LoadCertInfo]);
    SpawnedCons(LoadConfig, [LoadTokens, LoadCertInfo]);
    SpawnedCons(LoadTokens, [LoadCertInfo]);
    SpawnedCons(LoadCertInfo, []);
  }

  lemma SpawnedCons(a: Action, rest: seq<Action>)
    requires Spawns(a)
    ensures Sum(Spawned([a] + rest), TaskWeight) == TaskWeight(a) + Sum(Spawned(rest), TaskWeight)
  {
    assert ([a] + rest)[1..] == rest;
    assert Spawned([a] + rest) == [a] + Spawned(rest);
    SumAppend([a], Spawned(rest), TaskWeight);
    SumOne(a, TaskWeight);
  }

  /** A turn other than a change of screen asks for one action at most. */
  predicate AtMostOne(turn: Turn) {
    |turn.actions| <= 1
  }

  predicate Enters(app: App, turn: Turn) {
    turn == TransitionTo(app, app.screen.Next()) || turn == TransitionTo(app, app.screen.Prev())
  }

  lemma HandlersAskOnce(app: App, key: KeyEvent)
    ensures AtMostOne(HandleConfigKey(app, key)) && AtMostOne(HandleCertKey(app, key))
    ensures AtMostOne(HandleServerKey(app, key)) && AtMostOne(HandleTokensKey(app, key))
  {
  }

  lemma KeyEntersOrAsksOnce(app: App, key: KeyEvent)
    ensures Enters(app, HandleKey(app, key)) || AtMostOne(HandleKey(app, key))
  {
    HandlersAskOnce(app, key);
  }

  lemma KeyIsLight(app: App, key: KeyEvent)
    ensures Light(HandleKey(app, key).actions, 9)
  {
    KeyEntersOrAsksOnce(app, key);
    EnterIsLight(app, app.screen.Next());
    EnterIsLight(app, app.screen.Prev());
    var actions := HandleKey(app, key).actions;
    if |actions| == 1 {
      OneIsLight(actions[0]);
      assert actions == [actions[0]];
    }
  }

  lemma TickIsLight(app: App)
    ensures Light(HandleTick(app).actions, 9) && |HandleTick(app).actions| <= 1
  {
    var actions := HandleTick(app).actions;
    if |actions| == 1 {
      OneIsLight(actions[0]);
      assert actions == [actions[0]];
    }
  }

  lemma UpdateIsLight(app: App, m: Message)
    ensures Light(Update(app, m).actions, MessageWeight(m))
  {
    match m {
      case Key(key) => KeyIsLight(app, key);
      case Tick => TickIsLight(app);
      case NavTo(screen) => EnterIsLight(app, screen);
      case Quit => OneIsLight(QuitLoop);
      case TokenCreated(_) => OneIsLight(LoadTokens);
      case TokensChanged => OneIsLight(LoadTokens);
      case _ =>
    }
  }

  lemma DeliverWorks(s: Ctl)
    requires s.inbox != []
    ensures Work(Delivered(s)) < Work(s)
  {
    var m := s.inbox[0];
    var actions := Update(s.app, m).actions;
    UpdateIsLight(s.app, m);
    SumAppend(s.tasks, Spawned(actions), TaskWeight);
  }

  lemma CompleteWorks(s: Ctl, i: nat, m: Message)
    requires Enabled(s, Complete(i, m))
    ensures Work(Apply(s, Complete(i, m))) < Work(s)
  {
    SumWithout(s.tasks, i, TaskWeight);
    SumAppend(s.inbox, [m], MessageWeight);
    SumOne(m, MessageWeight);
    assert MessageWeight(m) < TaskWeight(s.tasks[i]);
  }

  // ─── Coming to rest ──────────────────────────────────────────────────────────

  predicate NoInput(steps: seq<Step>) {
    forall i | 0 <= i < |steps| :: !steps[i].Post?
  }

  lemma {:induction false} NoInputRunEnds(s: Ctl, steps: seq<Step>, t: Ctl)
    requires Run(s, steps, t) && NoInput(steps)
    ensures |steps| + Work(t) <= Work(s)
    decreases |steps|
  {
    if steps != [] {
      var next := Apply(s, steps[0]);
      match steps[0] {
        case Deliver => DeliverWorks(s);
        case Complete(i, m) => CompleteWorks(s, i, m);
      }
      NoInputRunEnds(next, steps[1..], t);
    }
  }

  ghost predicate AtRest(s: Ctl) {
    forall step | Enabled(s, step) :: step.Post?
  }

  predicate OnlyTasks(tasks: seq<Action>) {
    forall i | 0 <= i < |tasks| :: Spawns(tasks[i])
  }

  lemma {:induction false} SpawnedAreTasks(actions: seq<Action>)
    ensures OnlyTasks(Spawned(actions))
  {
    if actions != [] {
      SpawnedAreTasks(actions[1..]);
    }
  }

  lemma TasksStep(s: Ctl, step: Step)
    requires OnlyTasks(s.tasks) && Enabled(s, step)
    ensures OnlyTasks(Apply(s, step).tasks)
  {
    if step.Deliver? {
      SpawnedAreTasks(Update(s.app, s.inbox[0]).actions);
    }
  }

  lemma {:induction false} TasksRun(from: Ctl, steps: seq<Step>, to: Ctl)
    requires OnlyTasks(from.tasks) && Run(from, steps, to)
    ensures OnlyTasks(to.tasks)
    decreases |steps|
  {
    if steps != [] {
      TasksStep(from, steps[0]);
      TasksRun(Apply(from, steps[0]), steps[1..], to);
    }
  }

  /** Every task can end. */
  lemma CanPost(a: Action) returns (m: Message)
    requires Spawns(a)
    ensures Posts(a, m)
  {
    match a {
      case RefreshStatus => m := StatusLoaded(None);
      case ShowTokenQr(token, readOnly, serial, trust) =>
        var at := QrSurroundings(false, None, "", Failure(""), None, None);
        m := BuildTokenQr(token, readOnly, serial, trust, at);
      case _ => m := ActionFailed;
    }
  }

  lemma RestMeansEmpty(s: Ctl)
    requires OnlyTasks(s.tasks) && AtRest(s)
    ensures s.tasks == [] && s.inbox == []
  {
    if s.inbox != [] {
      assert Enabled(s, Deliver);
    }
    if s.tasks != [] {
      var m := CanPost(s.tasks[0]);
      assert Enabled(s, Complete(0, m));
    }
  }

  /**
   From any reachable state, a run without input has at most `Work` steps, and where it cannot go on the runner has no
   task and no message left and all four loading flags are down: no screen stays locked.
   */
  lemma NoScreenStaysLocked(s: Ctl, steps: seq<Step>, t: Ctl)
    requires Reachable(s) && Run(s, steps, t) && NoInput(steps)
    ensures |steps| <= Work(s)
    ensures AtRest(t) ==> t.tasks == [] && t.inbox == [] && forall f :: !On(t.app, f)
  {
    NoInputRunEnds(s, steps, t);
    var from, before :| Starts(from) && Run(from, before, s);
    RunThenRun(from, before, s, steps, t);
    assert Reachable(t);
    if AtRest(t) {
      TasksRun(from, before + steps, t);
      RestMeansEmpty(t);
      NoWedgedFlag(t);
    }
  }
}
