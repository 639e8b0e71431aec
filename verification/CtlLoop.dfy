/** The runner's own loop: it takes messages in order, changes the state in place and starts the tasks asked for. */
module CtlLoop {
  import opened CtlState
  import opened CtlUpdate
  import opened CtlRunner
  import opened CtlApp
  import opened CtlLoading
  import opened CtlDrain
  import opened CtlOverlay
  import opened CtlForms

  lemma QuitIsSetAlready(app: App, m: Message)
    requires QuitLoop in Update(app, m).actions
    ensures Update(app, m).app.shouldQuit
  {
    if m.Key? {
      KeyQuits(app, m.key);
    }
  }

  lemma KeyQuits(app: App, key: KeyEvent)
    requires QuitLoop in HandleKey(app, key).actions
    ensures HandleKey(app, key).app.shouldQuit
  {
    ScreenKeysDoNotQuit(app, key);
  }

  lemma ScreenKeysDoNotQuit(app: App, key: KeyEvent)
    ensures QuitLoop !in HandleConfigKey(app, key).actions && QuitLoop !in HandleCertKey(app, key).actions
    ensures QuitLoop !in HandleServerKey(app, key).actions && QuitLoop !in HandleTokensKey(app, key).actions
  {
  }

  /** The task at place `i` ends with `m`; `at` is what a pairing task found. */
  datatype Ending = Ending(i: nat, m: Message, at: QrSurroundings)

  /** No task posts what only the terminal does. */
  lemma GivenIsPosted(a: Action, m: Message, at: QrSurroundings)
    requires PostsGiven(a, m, at)
    ensures Posts(a, m) && !FromTerminal(m)
  {
  }

  /** What holds in place after every message: see `CtlLoading`, `CtlOverlay` and `CtlForms`. */
  ghost predicate Kept(s: Ctl) {
    NoWedge(s) && HasLatestSerial(s.app) && CursorsWithin(s.app) && (Few(s) ==> Sound(s))
  }

  lemma ReachableIsKept(s: Ctl)
    requires Reachable(s)
    ensures Kept(s)
  {
    NoWedgedFlag(s);
    SerialIsLatest(s);
    CursorsStayWithin(s);
    if Few(s) {
      ReachableIsSound(s);
    }
  }

  class Runner {
    const app: AppState
    var tasks: seq<Action>
    var inbox: seq<Message>

    /** The background: which tasks end at each next moment. */
    var endings: seq<seq<Ending>>
    ghost var requests: seq<Request>
    ghost var counts: seq<nat>

    ghost function State(): Ctl
      reads this, app
    {
      Ctl(app.View(), tasks, inbox, requests, counts)
    }

    ghost predicate Valid()
      reads this, app
    {
      Reachable(State())
    }

    /** The state the loop starts from: the trust saved by an earlier process is in place before the first turn. */
    constructor (saved: AdvertiseTrust, endings: seq<seq<Ending>>)
      ensures fresh(app) && Valid() && inbox == [NavTo(Dashboard)]
    {
      app := new AppState();
      tasks, inbox := [], [NavTo(Dashboard)];
      requests, counts := [], [];
      this.endings := endings;
      new;
      app.cert := app.cert.(advertiseTrust := saved);
      ghost var start := Ctl(INITIAL.(cert := INITIAL.cert.(advertiseTrust := saved)), [], [], [], []);
      assert Starts(start) && Run(start, [], start);
      ReachableStep(start, Post(NavTo(Dashboard)));
      assert State() == Apply(start, Post(NavTo(Dashboard)));
    }

    /** `apply_actions`: one task for each action that spawns one. */
    method ApplyActions(actions: seq<Action>)
      modifies this`tasks, app`shouldQuit
      ensures tasks == old(tasks) + Spawned(actions)
      ensures app.shouldQuit == (old(app.shouldQuit) || QuitLoop in actions)
    {
      for i := 0 to |actions|
        invariant tasks + Spawned(actions[i..]) == old(tasks) + Spawned(actions)
        invariant app.shouldQuit == (old(app.shouldQuit) || QuitLoop in actions[..i])
      {
        SpawnedStep(tasks, actions, i);
        match actions[i] {
          case QuitLoop => app.shouldQuit := true;
          case SaveAdvertiseTrust(_) =>
          case _ => tasks := tasks + [actions[i]];
        }
      }
      assert actions[..|actions|] == actions;
    }

    /** One message through `update` and `apply_actions`. */
    method TakeOne()
      requires Valid() && inbox != []
      modifies this`tasks, this`inbox, this`requests, this`counts, app
      ensures Valid() && Kept(State()) && State() == Delivered(old(State()))
    {
      var m := inbox[0];
      inbox := inbox[1..];
      ghost var before := old(State());
      counts := CountsAfter(before, m);
      var actions := app.Update(m);
      requests := requests + Requests(actions);
      if QuitLoop in actions {
        QuitIsSetAlready(before.app, m);
      }
      ApplyActions(actions);
      ReachableStep(before, Deliver);
      ReachableIsKept(State());
    }

    /** A task ends and posts its message. */
    method End(e: Ending)
      requires Valid()
      modifies this`tasks, this`inbox
      ensures Valid() && Goes(old(State()), State()) && Typed(inbox) == Typed(old(inbox))
    {
      ghost var before := State();
      StaysThere(before);
      if e.i < |tasks| && PostsGiven(tasks[e.i], e.m, e.at) {
        GivenIsPosted(tasks[e.i], e.m, e.at);
        TypedSnoc(inbox, e.m);
        inbox := inbox + [e.m];
        tasks := Without(tasks, e.i);
        GoesOne(before, Complete(e.i, e.m));
      }
    }

    /** The background moves on. */
    method Yield()
      requires Valid()
      modifies this`tasks, this`inbox, this`endings
      ensures Valid() && Goes(old(State()), State()) && Typed(inbox) == Typed(old(inbox))
    {
      StaysThere(State());
      if endings != [] {
        var batch := endings[0];
        endings := endings[1..];
        for i := 0 to |batch|
          invariant Valid() && Goes(old(State()), State()) && Typed(inbox) == Typed(old(inbox))
        {
          ghost var before := State();
          End(batch[i]);
          GoesOn(old(State()), before, State());
        }
      }
    }

    /** The inner loop: every message waiting is taken, in order, even once a quit has been asked for. */
    method DrainMessages()
      requires Valid()
      modifies this, app
      ensures Valid() && Kept(State()) && inbox == []
      ensures Goes(old(State()), State())
    {
      StaysThere(State());
      while inbox != []
        invariant Valid() && Goes(old(State()), State())
        decreases Work(State())
      {
        ghost var before := State();
        TakeOne();
        GoesOne(before, Deliver);
        ghost var taken := State();
        Yield();
        GoesOn(before, taken, State());
        GoesOn(old(State()), before, State());
        DeliverWorks(before);
      }
      ReachableIsKept(State());
    }

    /** A key, a tick, or another message of the terminal joins the channel. */
    method Input(m: Message)
      requires Valid()
      modifies this`inbox
      ensures Valid()
      ensures State() == if FromTerminal(m) then Apply(old(State()), Post(m)) else old(State())
    {
      if FromTerminal(m) {
        ghost var before := State();
        inbox := inbox + [m];
        ReachableStep(before, Post(m));
      }
    }

    /**
     The event loop, for as long as the terminal brings input and nobody asks to quit. It takes the input in order, up to
     the quit or to its end, and before each next input every message waiting is delivered: no more than the last input
     is left in the channel, and after a quit none. Whatever the tasks do meanwhile, no loading flag is ever without the
     task or message that takes it down, an open overlay is the latest one and shows only what it was opened for, and
     both cursors are in their lists.
     */
    method EventLoop(inputs: seq<Message>) returns (ghost taken: nat)
      requires Valid()
      modifies this, app
      ensures Valid() && Kept(State())
      ensures taken <= |inputs| && RunsWith(old(State()), Typed(inputs[..taken]), State())
      ensures app.shouldQuit || taken == |inputs|
      ensures old(app.shouldQuit) ==> State() == old(State())
      ensures app.shouldQuit && !old(app.shouldQuit) ==> inbox == []
      ensures !app.shouldQuit && taken > 0 ==> Typed(inbox) == Typed(inputs[taken - 1..taken])
      ensures inbox == [] && tasks == [] ==> forall f :: !On(app.View(), f)
    {
      var i := 0;
      RunsWithNothing(State());
      ghost var start := State();
      while i < |inputs| && !app.shouldQuit
        invariant Valid() && i <= |inputs|
        invariant RunsWith(start, Typed(inputs[..i]), State())
        invariant old(app.shouldQuit) ==> State() == start
        invariant i > 0 ==> Typed(inbox) == Typed(inputs[i - 1..i])
        invariant app.shouldQuit ==> old(app.shouldQuit)
        decreases |inputs| - i
      {
        ghost var before := State();
        DrainMessages();
        RunsOn(start, Typed(inputs[..i]), before, State());
        if app.shouldQuit {
          break;
        }
        ghost var drained := State();
        Input(inputs[i]);
        RunsWithInput(start, inputs, i, drained, State());
        ghost var posted := State();
        Yield();
        RunsOn(start, Typed(inputs[..i + 1]), posted, State());
        i := i + 1;
      }
      taken := i;
      ReachableIsKept(State());
      NoWedgedFlag(State());
    }
  }

  // ─── What a run posted ───────────────────────────────────────────────────────

  /** The messages of the terminal among `messages`. */
  function Typed(messages: seq<Message>): seq<Message> {
    if messages == [] then []
    else
      var last := messages[|messages| - 1];
      Typed(messages[..|messages| - 1]) + if FromTerminal(last) then [last] else []
  }

  lemma TypedSnoc(messages: seq<Message>, m: Message)
    ensures Typed(messages + [m]) == if FromTerminal(m) then Typed(messages) + [m] else Typed(messages)
  {
    assert (messages + [m])[..|messages|] == messages;
  }

  /** The messages posted by the steps of a run, in order. */
  function Posted(steps: seq<Step>): seq<Message> {
    if steps == [] then [] else (if steps[0].Post? then [steps[0].input] else []) + Posted(steps[1..])
  }

  lemma {:induction false} PostedAppend(a: seq<Step>, b: seq<Step>)
    ensures Posted(a + b) == Posted(a) + Posted(b)
  {
    if a == [] {
      assert a + b == b;
    } else {
      assert (a + b)[1..] == a[1..] + b;
      PostedAppend(a[1..], b);
    }
  }

  lemma {:induction false} NoInputPostsNothing(steps: seq<Step>)
    requires NoInput(steps)
    ensures Posted(steps) == []
  {
    if steps != [] {
      NoInputPostsNothing(steps[1..]);
    }
  }

  /** A run leads from `s` to `t` in which the terminal posts exactly `messages`, in order. */
  ghost predicate RunsWith(s: Ctl, messages: seq<Message>, t: Ctl) {
    exists steps :: Run(s, steps, t) && Posted(steps) == messages
  }

  lemma RunsWithNothing(s: Ctl)
    ensures RunsWith(s, [], s)
  {
    assert Run(s, [], s) && Posted([]) == [];
  }

  lemma RunsOn(s: Ctl, messages: seq<Message>, t: Ctl, u: Ctl)
    requires RunsWith(s, messages, t) && Goes(t, u)
    ensures RunsWith(s, messages, u)
  {
    var first :| Run(s, first, t) && Posted(first) == messages;
    var second :| NoInput(second) && Run(t, second, u) && Work(u) <= Work(t);
    RunThenRun(s, first, t, second, u);
    PostedAppend(first, second);
    NoInputPostsNothing(second);
    assert messages + [] == messages;
  }

  lemma RunsWithInput(s: Ctl, inputs: seq<Message>, i: nat, t: Ctl, u: Ctl)
    requires i < |inputs| && RunsWith(s, Typed(inputs[..i]), t)
    requires u == if FromTerminal(inputs[i]) then t.(inbox := t.inbox + [inputs[i]]) else t
    ensures RunsWith(s, Typed(inputs[..i + 1]), u)
    ensures t.inbox == [] ==> Typed(u.inbox) == Typed(inputs[i..i + 1])
  {
    var m := inputs[i];
    assert inputs[..i + 1] == inputs[..i] + [m];
    assert inputs[i..i + 1] == [] + [m];
    TypedSnoc(inputs[..i], m);
    TypedSnoc([], m);
    if FromTerminal(m) {
      RunsAndPosts(s, Typed(inputs[..i]), t, m);
    }
  }

  lemma RunsAndPosts(s: Ctl, messages: seq<Message>, t: Ctl, m: Message)
    requires FromTerminal(m) && RunsWith(s, messages, t)
    ensures RunsWith(s, messages + [m], t.(inbox := t.inbox + [m]))
  {
    var u := t.(inbox := t.inbox + [m]);
    var steps :| Run(s, steps, t) && Posted(steps) == messages;
    assert [Post(m)][1..] == [];
    assert Run(u, [], u);
    assert Run(t, [Post(m)], u);
    RunThenRun(s, steps, t, [Post(m)], u);
    PostedAppend(steps, [Post(m)]);
    assert Posted([]) == [] && Posted([Post(m)]) == [m];
  }

  // ─── From one state to another without input ─────────────────────────────────

  ghost predicate Goes(s: Ctl, t: Ctl) {
    exists steps :: NoInput(steps) && Run(s, steps, t) && Work(t) <= Work(s)
  }

  lemma StaysThere(s: Ctl)
    ensures Goes(s, s)
  {
    assert NoInput([]) && Run(s, [], s);
  }

  lemma GoesOne(s: Ctl, step: Step)
    requires Reachable(s) && Enabled(s, step) && !step.Post?
    ensures Goes(s, Apply(s, step)) && Reachable(Apply(s, step))
  {
    var next := Apply(s, step);
    ReachableStep(s, step);
    assert [step][1..] == [];
    assert Run(next, [], next);
    assert Run(s, [step], next);
    NoInputRunEnds(s, [step], next);
    assert NoInput([step]);
  }

  lemma GoesOn(s: Ctl, t: Ctl, u: Ctl)
    requires Goes(s, t) && Goes(t, u)
    ensures Goes(s, u)
  {
    var first :| NoInput(first) && Run(s, first, t) && Work(t) <= Work(s);
    var second :| NoInput(second) && Run(t, second, u) && Work(u) <= Work(t);
    RunThenRun(s, first, t, second, u);
    assert NoInput(first + second);
  }

  lemma SpawnedStep(tasks: seq<Action>, actions: seq<Action>, i: nat)
    requires i < |actions|
    ensures tasks + Spawned(actions[i..])
      == (if Spawns(actions[i]) then tasks + [actions[i]] else tasks) + Spawned(actions[i + 1..])
  {
    assert actions[i..][1..] == actions[i + 1..];
  }
}
