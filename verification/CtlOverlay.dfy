/** The pairing overlay over whole runs: whose code it shows, how its phases move, and when it reports a connection. */
module CtlOverlay {
  import opened Common
  import opened PairingUri
  import opened CtlState
  import opened CtlUpdate
  import opened CtlRunner
  import opened CtlPairing
  import opened CtlDrain

  // ─── Results that are still to come ──────────────────────────────────────────

  function QrTask(n: nat): Action -> nat {
    (a: Action) => if a.ShowTokenQr? && a.serial == n then 1 else 0
  }

  function QrMessage(n: nat): Message -> nat {
    (m: Message) => if IsQrResult(m) && m.serial == n then 1 else 0
  }

  predicate IsQrResult(m: Message) {
    m.TokenQrReady? || m.TokenQrFailed?
  }

  function Outstanding(s: Ctl, n: nat): nat {
    Sum(s.tasks, QrTask(n)) + Sum(s.inbox, QrMessage(n))
  }

  // ─── The invariant ───────────────────────────────────────────────────────────

  /** The serial number of the overlay has not come round yet. */
  predicate Few(s: Ctl) {
    |s.requests| < 0x1_0000_0000_0000_0000
  }

  function ParamsFor(r: Request, host: string, port: port, trust: PairingTrust): PairingParams {
    PairingParams(host, port, trust, r.token, r.readOnly, SERVER_LABEL)
  }

  /** The URI carries the token and the rights of request `r`, and the rest is what a pairing task for it found. */
  ghost predicate BuiltFor(r: Request, uri: string, host: string, port: port, short: string, baseline: nat) {
    exists at, trust ::
      FoundBy(at, r.trust, trust, host, port, short, baseline) && uri == ToUri(ParamsFor(r, host, port, trust))
  }

  predicate Issued(s: Ctl, n: nat) {
    1 <= n <= |s.requests|
  }

  predicate TaskIsOf(s: Ctl, a: Action) {
    a.ShowTokenQr? ==> Issued(s, a.serial) && s.requests[a.serial - 1] == Request(a.token, a.readOnly, a.trust)
  }

  ghost predicate ResultIsOf(s: Ctl, m: Message) {
    && (IsQrResult(m) ==> Issued(s, m.serial))
    && (m.TokenQrReady? ==> BuiltFor(s.requests[m.serial - 1], m.uri, m.host, m.port, m.fingerprintShort, m.baseline))
  }

  ghost predicate Provenance(s: Ctl) {
    (forall a | a in s.tasks :: TaskIsOf(s, a)) && (forall m | m in s.inbox :: ResultIsOf(s, m))
  }

  predicate OneResult(s: Ctl, n: nat) {
    Outstanding(s, n) <= if Issued(s, n) then 1 else 0
  }

  predicate SomeAbove(counts: seq<nat>, baseline: nat) {
    exists c :: c in counts && c > baseline
  }

  ghost predicate OverlayIsOf(s: Ctl, o: QrOverlay) {
    && o.serial == |s.requests| && Issued(s, o.serial)
    && o.readOnly == s.requests[o.serial - 1].readOnly
    && (o.phase.Generating? <==> Outstanding(s, o.serial) == 1)
    && (o.phase.Showing? ==>
          BuiltFor(s.requests[o.serial - 1], o.phase.uri, o.phase.host, o.phase.port, o.phase.fingerprintShort, o.baseline))
    && (o.phase.Showing? ==> !SomeAbove(s.counts, o.baseline))
    && (o.phase.Connected? ==> SomeAbove(s.counts, o.baseline))
  }

  ghost predicate Sound(s: Ctl) {
    && s.app.qrSeq == |s.requests|
    && Provenance(s)
    && (forall n :: OneResult(s, n))
    && (s.app.overlay.Some? ==> OverlayIsOf(s, s.app.overlay.value))
  }

  // ─── What a message does to the overlay ──────────────────────────────────────

  predicate NoShow(actions: seq<Action>) {
    forall a | a in actions :: !a.ShowTokenQr?
  }

  function Untimed(o: QrOverlay): QrOverlay {
    o.(tickCounter := 0)
  }

  /** The overlay stays as it is, but for its tick counter, or is closed, and none is opened. */
  predicate Calm(app: App, turn: Turn) {
    && NoShow(turn.actions) && turn.app.qrSeq == app.qrSeq
    && (turn.app.overlay.Some? ==>
          app.overlay.Some? && Untimed(turn.app.overlay.value) == Untimed(app.overlay.value))
  }

  /** The key opens an overlay for the token just minted. */
  predicate Opens(app: App, key: KeyEvent) {
    && app.overlay.None? && app.screen == TokensScreen && app.tokens.formPhase == Browsing
    && key.code == Enter && app.tokens.lastMinted.Some?
  }

  lemma EnterIsCalm(app: App, screen: Screen)
    ensures Calm(app, TransitionTo(app, screen))
  {
  }

  lemma ScreenKeysAreCalm(app: App, key: KeyEvent)
    ensures Calm(app, HandleConfigKey(app, key)) && Calm(app, HandleCertKey(app, key))
    ensures Calm(app, HandleServerKey(app, key))
  {
  }

  lemma TokensKeyIsCalmOrOpens(app: App, key: KeyEvent)
    requires app.screen == TokensScreen && app.overlay.None?
    ensures if Opens(app, key) then HandleTokensKey(app, key) == OpenOverlay(app, app.tokens.lastMinted.value)
            else Calm(app, HandleTokensKey(app, key))
  {
  }

  /** An overlay is opened by one key in one situation only, and for the token held at that moment. */
  lemma KeyIsCalmOrOpens(app: App, key: KeyEvent)
    ensures if Opens(app, key) then HandleKey(app, key) == OpenOverlay(app, app.tokens.lastMinted.value)
            else Calm(app, HandleKey(app, key))
  {
    EnterIsCalm(app, app.screen.Next());
    EnterIsCalm(app, app.screen.Prev());
    ScreenKeysAreCalm(app, key);
    if app.screen == TokensScreen && app.overlay.None? {
      TokensKeyIsCalmOrOpens(app, key);
    }
  }

  lemma TickIsCalm(app: App)
    ensures Calm(app, HandleTick(app))
  {
  }

  predicate TouchesOverlay(app: App, m: Message) {
    IsQrResult(m) || m.StatusLoaded? || (m.Key? && Opens(app, m.key))
  }

  lemma OthersAreCalm(app: App, m: Message)
    requires !TouchesOverlay(app, m)
    ensures Calm(app, Update(app, m))
  {
    match m {
      case Key(key) => KeyIsCalmOrOpens(app, key);
      case Tick => TickIsCalm(app);
      case NavTo(screen) => EnterIsCalm(app, screen);
      case _ =>
    }
  }

  lemma {:induction false} NoShowNoRequest(actions: seq<Action>)
    requires NoShow(actions)
    ensures Requests(actions) == [] && NoShow(Spawned(actions))
  {
    if actions != [] {
      NoShowNoRequest(actions[1..]);
    }
  }

  lemma {:induction false} NoShowNoTask(actions: seq<Action>, n: nat)
    requires NoShow(actions)
    ensures Sum(actions, QrTask(n)) == 0
  {
    if actions != [] {
      assert actions[0] in actions;
      NoShowNoTask(actions[1..], n);
    }
  }

  // ─── Outstanding results, step by step ───────────────────────────────────────

  lemma CalmOutstanding(s: Ctl, n: nat)
    requires s.inbox != [] && NoShow(Update(s.app, s.inbox[0]).actions)
    ensures Outstanding(s, n) == Outstanding(Delivered(s), n) + QrMessage(n)(s.inbox[0])
  {
    var actions := Update(s.app, s.inbox[0]).actions;
    NoShowNoRequest(actions);
    NoShowNoTask(Spawned(actions), n);
    SumAppend(s.tasks, Spawned(actions), QrTask(n));
  }

  lemma CompleteOutstanding(s: Ctl, i: nat, m: Message, n: nat)
    requires Enabled(s, Complete(i, m))
    ensures Outstanding(Apply(s, Complete(i, m)), n) == Outstanding(s, n)
  {
    SumWithout(s.tasks, i, QrTask(n));
    SumAppend(s.inbox, [m], QrMessage(n));
    SumOne(m, QrMessage(n));
    assert QrTask(n)(s.tasks[i]) == QrMessage(n)(m);
  }

  lemma PostOutstanding(s: Ctl, m: Message, n: nat)
    requires Enabled(s, Post(m))
    ensures Outstanding(Apply(s, Post(m)), n) == Outstanding(s, n)
  {
    SumAppend(s.inbox, [m], QrMessage(n));
    SumOne(m, QrMessage(n));
  }

  // ─── The invariant is kept ───────────────────────────────────────────────────

  lemma PostKeeps(s: Ctl, m: Message)
    requires Sound(s) && Enabled(s, Post(m))
    ensures Sound(Apply(s, Post(m)))
  {
    var next := Apply(s, Post(m));
    forall n ensures OneResult(next, n) {
      assert OneResult(s, n);
      PostOutstanding(s, m, n);
    }
    forall x | x in next.inbox ensures ResultIsOf(next, x) {
      if x != m {
        assert ResultIsOf(s, x);
      }
    }
    forall a | a in next.tasks ensures TaskIsOf(next, a) {
      assert TaskIsOf(s, a);
    }
    if next.app.overlay.Some? {
      PostOutstanding(s, m, next.app.overlay.value.serial);
    }
  }

  lemma ResultOfTask(s: Ctl, a: Action, m: Message)
    requires TaskIsOf(s, a) && Posts(a, m)
    ensures ResultIsOf(s, m)
  {
    if a.ShowTokenQr? {
      CodeIsBuilt(a, m);
      assert s.requests[a.serial - 1] == Request(a.token, a.readOnly, a.trust);
    } else {
      PlainIsNoResult(a, m);
    }
  }

  lemma PlainIsNoResult(a: Action, m: Message)
    requires PlainPosts(a, m)
    ensures !IsQrResult(m)
  {
  }

  /** What a pairing task posts: a code built for its request, or a failure, under its serial number. */
  lemma CodeIsBuilt(a: Action, m: Message)
    requires a.ShowTokenQr? && Posts(a, m)
    ensures IsQrResult(m) && m.serial == a.serial
    ensures m.TokenQrReady? ==>
              BuiltFor(Request(a.token, a.readOnly, a.trust), m.uri, m.host, m.port, m.fingerprintShort, m.baseline)
  {
    var at :| m == BuildTokenQr(a.token, a.readOnly, a.serial, a.trust, at);
    CodeIff(a.token, a.readOnly, a.serial, a.trust, at);
    if m.TokenQrReady? {
      var trust := CodeIsFound(a.token, a.readOnly, a.serial, a.trust, at);
      var r := Request(a.token, a.readOnly, a.trust);
      assert ParamsFor(r, m.host, m.port, trust) == PairingParams(m.host, m.port, trust, a.token, a.readOnly, SERVER_LABEL);
      assert FoundBy(at, r.trust, trust, m.host, m.port, m.fingerprintShort, m.baseline);
    }
  }

  lemma CompleteKeeps(s: Ctl, i: nat, m: Message)
    requires Sound(s) && Enabled(s, Complete(i, m))
    ensures Sound(Apply(s, Complete(i, m)))
  {
    var next := Apply(s, Complete(i, m));
    forall n ensures OneResult(next, n) {
      assert OneResult(s, n);
      CompleteOutstanding(s, i, m, n);
    }
    assert TaskIsOf(s, s.tasks[i]);
    ResultOfTask(s, s.tasks[i], m);
    forall x | x in next.inbox ensures ResultIsOf(next, x) {
      assert ResultIsOf(s, x);
    }
    forall a | a in next.tasks ensures TaskIsOf(next, a) {
      assert TaskIsOf(s, a);
    }
    if next.app.overlay.Some? {
      CompleteOutstanding(s, i, m, next.app.overlay.value.serial);
    }
  }

  /** Nothing asked for a code: the tasks, messages and requests of before are those of after, without the message taken. */
  lemma CalmProvenance(s: Ctl)
    requires Sound(s) && s.inbox != [] && NoShow(Update(s.app, s.inbox[0]).actions)
    ensures Provenance(Delivered(s)) && Delivered(s).requests == s.requests
  {
    var next := Delivered(s);
    NoShowNoRequest(Update(s.app, s.inbox[0]).actions);
    assert next.requests == s.requests;
    forall m | m in next.inbox ensures ResultIsOf(next, m) {
      assert ResultIsOf(s, m);
    }
    forall a | a in next.tasks ensures TaskIsOf(next, a) {
      if a in s.tasks {
        assert TaskIsOf(s, a);
      }
    }
  }

  lemma CalmOneResult(s: Ctl)
    requires Sound(s) && s.inbox != [] && NoShow(Update(s.app, s.inbox[0]).actions)
    ensures forall n :: OneResult(Delivered(s), n)
  {
    NoShowNoRequest(Update(s.app, s.inbox[0]).actions);
    forall n ensures OneResult(Delivered(s), n) {
      assert OneResult(s, n);
      CalmOutstanding(s, n);
    }
  }

  lemma CalmDeliverKeeps(s: Ctl)
    requires Sound(s) && s.inbox != [] && !TouchesOverlay(s.app, s.inbox[0])
    ensures Sound(Delivered(s))
  {
    OthersAreCalm(s.app, s.inbox[0]);
    CalmProvenance(s);
    CalmOneResult(s);
    if Delivered(s).app.overlay.Some? {
      CalmOutstanding(s, s.app.overlay.value.serial);
    }
  }

  lemma StatusKeeps(s: Ctl)
    requires Sound(s) && s.inbox != [] && s.inbox[0].StatusLoaded?
    ensures Sound(Delivered(s))
  {
    CalmProvenance(s);
    CalmOneResult(s);
    if s.app.overlay.Some? {
      CalmOutstanding(s, s.app.overlay.value.serial);
      StatusOverlay(s, s.inbox[0].info);
    }
  }

  lemma StatusOverlay(s: Ctl, info: Option<ServerInfo>)
    requires s.app.overlay.Some? && s.inbox != [] && s.inbox[0] == StatusLoaded(info)
    requires s.app.overlay.value.phase.Showing? ==> !SomeAbove(s.counts, s.app.overlay.value.baseline)
    requires s.app.overlay.value.phase.Connected? ==> SomeAbove(s.counts, s.app.overlay.value.baseline)
    ensures var o, after := Delivered(s).app.overlay, Delivered(s).counts;
      && o.Some? && o.value.(phase := s.app.overlay.value.phase) == s.app.overlay.value
      && (o.value.phase == s.app.overlay.value.phase || (s.app.overlay.value.phase.Showing? && o.value.phase.Connected?))
      && (o.value.phase.Showing? ==> !SomeAbove(after, o.value.baseline))
      && (o.value.phase.Connected? ==> SomeAbove(after, o.value.baseline))
  {
    var was := s.app.overlay.value;
    if info.Some? {
      var n := info.value.clientCount;
      assert n in s.counts + [n];
      if was.phase.Connected? {
        var c :| c in s.counts && c > was.baseline;
        assert c in s.counts + [n];
      }
    }
  }

  lemma ResultKeeps(s: Ctl)
    requires Sound(s) && s.inbox != [] && IsQrResult(s.inbox[0])
    ensures Sound(Delivered(s))
  {
    CalmProvenance(s);
    CalmOneResult(s);
    if s.app.overlay.Some? {
      ResultOverlay(s);
    }
  }

  lemma ResultOverlay(s: Ctl)
    requires Sound(s) && s.inbox != [] && IsQrResult(s.inbox[0]) && s.app.overlay.Some?
    ensures Delivered(s).app.overlay.Some? && OverlayIsOf(Delivered(s), Delivered(s).app.overlay.value)
  {
    var m, o, next := s.inbox[0], s.app.overlay.value, Delivered(s);
    CalmOutstanding(s, o.serial);
    if m.serial == o.serial {
      assert OneResult(s, o.serial);
      assert m in s.inbox && ResultIsOf(s, m);
      AcceptedResult(s, m);
      AcceptedOverlay(s, next, o, next.app.overlay.value, m);
    } else {
      IgnoredResult(s, m);
      OverlayStays(s, next, o);
    }
  }

  lemma OverlayStays(s: Ctl, next: Ctl, o: QrOverlay)
    requires OverlayIsOf(s, o) && next.requests == s.requests && next.counts == s.counts
    requires Outstanding(next, o.serial) == Outstanding(s, o.serial)
    ensures OverlayIsOf(next, o)
  {
  }

  lemma AcceptedOverlay(s: Ctl, next: Ctl, o: QrOverlay, after: QrOverlay, m: Message)
    requires OverlayIsOf(s, o) && next.requests == s.requests && Outstanding(next, o.serial) == 0
    requires IsQrResult(m) && m.serial == o.serial && ResultIsOf(s, m)
    requires after.serial == o.serial && after.readOnly == o.readOnly && (m.TokenQrReady? ==> after.baseline == m.baseline)
    requires after.phase == if m.TokenQrReady? then Showing(m.uri, m.host, m.port, m.fingerprintShort) else Failed(m.err)
    requires m.TokenQrReady? ==> next.counts == []
    ensures OverlayIsOf(next, after)
  {
  }

  lemma IgnoredResult(s: Ctl, m: Message)
    requires s.inbox != [] && s.inbox[0] == m && IsQrResult(m) && !IsCurrent(s.app, m.serial)
    ensures Delivered(s) == s.(inbox := s.inbox[1..])
  {
    assert s.tasks + [] == s.tasks && s.requests + [] == s.requests;
  }

  lemma AcceptedResult(s: Ctl, m: Message)
    requires s.inbox != [] && s.inbox[0] == m && IsQrResult(m) && IsCurrent(s.app, m.serial)
    ensures var was, next := s.app.overlay.value, Delivered(s);
      && next.requests == s.requests
      && (m.TokenQrReady? ==> next.counts == [])
      && next.app.overlay == Some(
           if m.TokenQrReady? then
             was.(baseline := m.baseline, phase := Showing(m.uri, m.host, m.port, m.fingerprintShort))
           else was.(phase := Failed(m.err)))
  {
  }

  /** Only an overlay whose code is still to come takes a result. */
  lemma CurrentResultIsAwaited(s: Ctl)
    requires Sound(s) && s.inbox != [] && IsQrResult(s.inbox[0]) && IsCurrent(s.app, s.inbox[0].serial)
    ensures s.app.overlay.value.phase.Generating?
  {
    var n := s.inbox[0].serial;
    assert OneResult(s, n);
    CalmOutstanding(s, n);
  }

  lemma OpenStep(s: Ctl, key: KeyEvent)
    requires s.inbox != [] && s.inbox[0] == Key(key) && Opens(s.app, key)
    ensures var minted, next := s.app.tokens.lastMinted.value, Delivered(s);
      var serial := NextSerial(s.app.qrSeq);
      && next.tasks == s.tasks + [ShowTokenQr(minted.token, minted.readOnly, serial, s.app.cert.advertiseTrust)]
      && next.inbox == s.inbox[1..]
      && next.requests == s.requests + [Request(minted.token, minted.readOnly, s.app.cert.advertiseTrust)]
      && next.app.qrSeq == serial
      && next.app.overlay == Some(QrOverlay(Generating, serial, 0, minted.name, minted.readOnly, 0))
  {
    KeyIsCalmOrOpens(s.app, key);
    var a := OpenOverlay(s.app, s.app.tokens.lastMinted.value).actions[0];
    OneRequest(a);
  }

  lemma OneRequest(a: Action)
    requires a.ShowTokenQr?
    ensures Requests([a]) == [Request(a.token, a.readOnly, a.trust)] && Spawned([a]) == [a]
  {
    assert [a][1..] == [];
    assert Requests([]) == [] && Spawned([]) == [];
  }

  lemma OpenOutstanding(s: Ctl, key: KeyEvent, n: nat)
    requires s.inbox != [] && s.inbox[0] == Key(key) && Opens(s.app, key)
    ensures Outstanding(Delivered(s), n) == Outstanding(s, n) + if n == NextSerial(s.app.qrSeq) then 1 else 0
  {
    OpenStep(s, key);
    var a := Delivered(s).tasks[|s.tasks|];
    SumAppend(s.tasks, [a], QrTask(n));
    SumOne(a, QrTask(n));
  }

  lemma OpenProvenance(s: Ctl, key: KeyEvent)
    requires Sound(s) && s.inbox != [] && s.inbox[0] == Key(key) && Opens(s.app, key) && Few(Delivered(s))
    ensures Provenance(Delivered(s))
  {
    var next := Delivered(s);
    OpenStep(s, key);
    forall m | m in next.inbox ensures ResultIsOf(next, m) {
      assert ResultIsOf(s, m);
    }
    forall a | a in next.tasks ensures TaskIsOf(next, a) {
      if a in s.tasks {
        assert TaskIsOf(s, a);
      }
    }
  }

  lemma OpenKeeps(s: Ctl, key: KeyEvent)
    requires Sound(s) && s.inbox != [] && s.inbox[0] == Key(key) && Opens(s.app, key) && Few(Delivered(s))
    ensures Sound(Delivered(s))
  {
    var next := Delivered(s);
    OpenStep(s, key);
    OpenProvenance(s, key);
    forall n ensures OneResult(next, n) {
      assert OneResult(s, n);
      OpenOutstanding(s, key, n);
    }
    var n := next.app.qrSeq;
    assert OneResult(s, n);
    OpenOutstanding(s, key, n);
  }

  lemma SoundStep(s: Ctl, step: Step)
    requires Enabled(s, step) && (Few(s) ==> Sound(s))
    ensures Few(Apply(s, step)) ==> Few(s) && Sound(Apply(s, step))
  {
    match step {
      case Post(m) =>
        if Few(s) {
          PostKeeps(s, m);
        }
      case Complete(i, m) =>
        if Few(s) {
          CompleteKeeps(s, i, m);
        }
      case Deliver =>
        if Few(Delivered(s)) {
          DeliverKeeps(s);
        }
    }
  }

  lemma DeliverKeeps(s: Ctl)
    requires s.inbox != [] && Sound(s) && Few(Delivered(s))
    ensures Sound(Delivered(s))
  {
    var m := s.inbox[0];
    if !TouchesOverlay(s.app, m) {
      CalmDeliverKeeps(s);
    } else if m.StatusLoaded? {
      StatusKeeps(s);
    } else if IsQrResult(m) {
      ResultKeeps(s);
    } else {
      OpenKeeps(s, m.key);
    }
  }

  lemma {:induction false} SoundRun(from: Ctl, steps: seq<Step>, to: Ctl)
    requires Run(from, steps, to) && (Few(from) ==> Sound(from))
    ensures Few(to) ==> Sound(to)
    decreases |steps|
  {
    if steps != [] {
      SoundStep(from, steps[0]);
      SoundRun(Apply(from, steps[0]), steps[1..], to);
    }
  }

  lemma ReachableIsSound(s: Ctl)
    requires Reachable(s) && Few(s)
    ensures Sound(s)
  {
    var from, steps :| Starts(from) && Run(from, steps, s);
    forall n ensures OneResult(from, n) {}
    SoundRun(from, steps, s);
  }

  // ─── Main results ────────────────────────────────────────────────────────────

  /** An open overlay always carries the latest serial number, however often the numbers have come round. */
  lemma SerialIsLatest(s: Ctl)
    requires Reachable(s)
    ensures s.app.overlay.Some? ==> s.app.overlay.value.serial == s.app.qrSeq
  {
    var from, steps :| Starts(from) && Run(from, steps, s);
    SerialRun(from, steps, s);
  }

  predicate HasLatestSerial(app: App) {
    app.overlay.Some? ==> app.overlay.value.serial == app.qrSeq
  }

  lemma SerialStep(app: App, m: Message)
    requires HasLatestSerial(app)
    ensures HasLatestSerial(Update(app, m).app)
  {
    if !TouchesOverlay(app, m) {
      OthersAreCalm(app, m);
    } else if m.Key? {
      KeyIsCalmOrOpens(app, m.key);
    }
  }

  lemma {:induction false} SerialRun(from: Ctl, steps: seq<Step>, to: Ctl)
    requires Run(from, steps, to) && HasLatestSerial(from.app)
    ensures HasLatestSerial(to.app)
    decreases |steps|
  {
    if steps != [] {
      if steps[0].Deliver? {
        SerialStep(from.app, from.inbox[0]);
      }
      SerialRun(Apply(from, steps[0]), steps[1..], to);
    }
  }

  /**
   Scanning the code on show gives the token and the rights that were asked for when this overlay was opened, with the
   host, the port of the bind address, the trust and the fingerprint that the task for it found; and its baseline is the
   client count found.
   */
  lemma ShownCodeIsOwn(s: Ctl)
    requires Reachable(s) && Few(s) && s.app.overlay.Some? && s.app.overlay.value.phase.Showing?
    ensures s.requests != []
    ensures var o, r := s.app.overlay.value, s.requests[|s.requests| - 1];
      exists at, trust :: var p := ParamsFor(r, o.phase.host, o.phase.port, trust);
        && FoundBy(at, r.trust, trust, o.phase.host, o.phase.port, o.phase.fingerprintShort, o.baseline)
        && o.phase.uri == ToUri(p) && o.readOnly == r.readOnly
        && (Unambiguous(p) ==> ParseUri(o.phase.uri) == Some(p))
  {
    ReachableIsSound(s);
    var o, r := s.app.overlay.value, s.requests[|s.requests| - 1];
    var at, trust :|
      && FoundBy(at, r.trust, trust, o.phase.host, o.phase.port, o.phase.fingerprintShort, o.baseline)
      && o.phase.uri == ToUri(ParamsFor(r, o.phase.host, o.phase.port, trust));
    UriRoundTripIff(ParamsFor(r, o.phase.host, o.phase.port, trust));
  }

  /** While a code is up or was taken up, the overlay reports a connection exactly when a count since then beat its baseline. */
  lemma ConnectedIffCountRose(s: Ctl)
    requires Reachable(s) && Few(s) && s.app.overlay.Some?
    requires s.app.overlay.value.phase.Showing? || s.app.overlay.value.phase.Connected?
    ensures s.app.overlay.value.phase.Connected? <==> SomeAbove(s.counts, s.app.overlay.value.baseline)
  {
    ReachableIsSound(s);
  }

  /** A code that is still to come has exactly one task or message bringing it; every other phase has none. */
  lemma GeneratingIffAwaited(s: Ctl)
    requires Reachable(s) && Few(s) && s.app.overlay.Some?
    ensures Outstanding(s, s.app.overlay.value.serial) == if s.app.overlay.value.phase.Generating? then 1 else 0
  {
    ReachableIsSound(s);
    assert OneResult(s, s.app.overlay.value.serial);
  }

  predicate PhaseMoves(from: QrPhase, to: QrPhase) {
    || from == to
    || (from.Generating? && (to.Showing? || to.Failed?))
    || (from.Showing? && to.Connected?)
  }

  /** One overlay's phase only moves from generating to showing or failed, and from showing to connected. */
  lemma PhaseOnlyMovesOn(s: Ctl, step: Step)
    requires Reachable(s) && Enabled(s, step) && Few(Apply(s, step))
    requires s.app.overlay.Some? && Apply(s, step).app.overlay.Some?
    ensures Apply(s, step).app.overlay.value.serial == s.app.overlay.value.serial
    ensures PhaseMoves(s.app.overlay.value.phase, Apply(s, step).app.overlay.value.phase)
  {
    if step.Deliver? {
      var m := s.inbox[0];
      if !TouchesOverlay(s.app, m) {
        OthersAreCalm(s.app, m);
      } else if m.StatusLoaded? {
        assert Few(s);
        ReachableIsSound(s);
        StatusOverlay(s, m.info);
      } else {
        ResultMoves(s);
      }
    }
  }

  lemma ResultMoves(s: Ctl)
    requires Reachable(s) && Few(s) && s.inbox != [] && IsQrResult(s.inbox[0]) && s.app.overlay.Some?
    ensures var next := Delivered(s).app.overlay;
      && next.Some? && next.value.serial == s.app.overlay.value.serial
      && PhaseMoves(s.app.overlay.value.phase, next.value.phase)
  {
    if IsCurrent(s.app, s.inbox[0].serial) {
      ReachableIsSound(s);
      CurrentResultIsAwaited(s);
      AcceptedResult(s, s.inbox[0]);
    }
  }

  /** The request recorded for an overlay holds the token, the rights and the trust in force when the key was taken. */
  lemma RequestIsWhatWasHeld(s: Ctl)
    requires s.inbox != [] && s.inbox[0].Key? && Opens(s.app, s.inbox[0].key)
    ensures var minted, next := s.app.tokens.lastMinted.value, Delivered(s);
      && next.requests == s.requests + [Request(minted.token, minted.readOnly, s.app.cert.advertiseTrust)]
      && next.app.overlay.Some? && next.app.overlay.value.tokenName == minted.name
  {
    OpenStep(s, s.inbox[0].key);
  }
}
