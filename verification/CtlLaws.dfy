/**
 The panel's update told the other way round: for each action, when it is asked for; for each part of the state, what
 changes it and to what. Every law is over all states and all messages.
 */
module CtlLaws {
  import opened Common
  import opened CtlState
  import opened CtlUpdate
  import opened CtlLoading
  import opened CtlGuard

  // ─── Keys that reach a screen ────────────────────────────────────────────────

  /** The key goes to the handler of `screen`. */
  predicate Reaches(app: App, m: Message, screen: Screen) {
    m.Key? && app.screen == screen && !KeyIsGlobal(app, m.key)
  }

  predicate Pressed(app: App, m: Message, screen: Screen, code: KeyCode) {
    Reaches(app, m, screen) && m.key.code == code
  }

  predicate Enters(app: App, m: Message, screens: set<Screen>) {
    Entered(app, m).Some? && Entered(app, m).value in screens
  }

  predicate Browses(app: App, m: Message, code: KeyCode) {
    Pressed(app, m, TokensScreen, code) && app.tokens.formPhase == Browsing
  }

  predicate Writes(app: App, m: Message) {
    Reaches(app, m, TokensScreen) && app.tokens.formPhase == Creating
  }

  predicate Configures(app: App, m: Message, field: ConfigField) {
    Reaches(app, m, ConfigScreen) && app.config.focused == field
  }

  // ─── Each handler touches its own part ───────────────────────────────────────

  lemma ConfigFrame(app: App, key: KeyEvent)
    ensures var t := HandleConfigKey(app, key);
      && t.app == app.(config := t.app.config)
      && forall a | a in t.actions :: a.LoadConfig? || a.SaveBind?
  {
  }

  lemma CertFrame(app: App, key: KeyEvent)
    ensures var t := HandleCertKey(app, key);
      && t.app == app.(cert := t.app.cert)
      && forall a | a in t.actions :: a.EnsureCert? || a.SaveAdvertiseTrust?
  {
  }

  lemma ServerFrame(app: App, key: KeyEvent)
    ensures var t := HandleServerKey(app, key);
      && t.app == app.(server := t.app.server)
      && forall a | a in t.actions :: a.StartServer? || a.StopServer? || a.RefreshStatus?
  {
  }

  lemma TokensFrame(app: App, key: KeyEvent)
    ensures var t := HandleTokensKey(app, key);
      && t.app == app.(tokens := t.app.tokens, overlay := t.app.overlay, qrSeq := t.app.qrSeq)
      && forall a | a in t.actions :: a.LoadTokens? || a.CreateToken? || a.RevokeToken? || a.ShowTokenQr?
  {
  }

  lemma EnterFrame(app: App, screen: Screen)
    ensures var t := TransitionTo(app, screen);
      && t.app.screen == screen && t.app.shouldQuit == app.shouldQuit
      && t.app.overlay == app.overlay && t.app.qrSeq == app.qrSeq
      && t.app.config == app.config.(loading := t.app.config.loading)
      && t.app.cert == app.cert.(loading := t.app.cert.loading)
      && t.app.server.status == app.server.status && t.app.server.stopped == app.server.stopped
      && t.app.tokens.tokens == app.tokens.tokens && t.app.tokens.cursor == app.tokens.cursor
      && t.app.tokens.formReadOnly == app.tokens.formReadOnly
  {
  }

  lemma EnterActions(app: App, screen: Screen, a: Action)
    ensures a in TransitionTo(app, screen).actions <==>
            || (a == RefreshStatus && screen in {Dashboard, ServerScreen})
            || (a == LoadConfig && screen in {Dashboard, ConfigScreen, CertScreen})
            || (a == LoadTokens && screen in {Dashboard, TokensScreen})
            || (a == LoadCertInfo && screen == Dashboard)
  {
  }

  /** A key either is looked at before any screen is asked, or enters a screen, or goes to its screen's handler. */
  lemma KeyGoesWhere(app: App, key: KeyEvent)
    ensures var turn := HandleKey(app, key);
      match EnteredByKey(app, key)
      case Some(screen) => turn == TransitionTo(app, screen)
      case None =>
        if key.ctrl && key.code == Char('c') then turn == Turn(app.(shouldQuit := true), [QuitLoop])
        else if app.overlay.Some? then
          turn == Still(if key.code in {Esc, Char('q')} then app.(overlay := None) else app)
        else if key.code == Char('q') && !app.IsTextEditing() then turn == Turn(app.(shouldQuit := true), [QuitLoop])
        else match app.screen
          case ConfigScreen => turn == HandleConfigKey(app, key)
          case CertScreen => turn == HandleCertKey(app, key)
          case ServerScreen => turn == HandleServerKey(app, key)
          case TokensScreen => turn == HandleTokensKey(app, key)
          case Dashboard => turn == Still(app)
  {
  }

  /** The host or the port of the form, or the name of a new token, has the keyboard. */
  predicate Typing(app: App) {
    || (app.screen == ConfigScreen && app.config.focused in {HostField, PortField})
    || (app.screen == TokensScreen && app.tokens.formPhase == Creating)
  }

  // ─── When each action is asked for ───────────────────────────────────────────

  predicate Asks(app: App, m: Message, a: Action) {
    a in Update(app, m).actions
  }

  /** A poll of the screen or of the overlay is due at this tick. */
  predicate PollDue(app: App) {
    && !app.server.loading
    && (|| (app.screen in {ServerScreen, Dashboard} && (app.server.tickCounter + 1) % 0x1_0000_0000 % 20 == 0)
        || (app.overlay.Some? && app.overlay.value.phase.Showing?
            && (app.overlay.value.tickCounter + 1) % 0x1_0000_0000 % 20 == 0))
  }

  predicate SavePressed(app: App, m: Message) {
    || (Configures(app, m, IpPicker) && m.key.code == Char('s'))
    || ((Configures(app, m, HostField) || Configures(app, m, PortField))
        && (m.key.code == Enter || (m.key.ctrl && m.key.code == Char('s'))))
  }

  predicate ReloadPressed(app: App, m: Message) {
    || (Configures(app, m, IpPicker) && m.key.code == Char('r'))
    || ((Configures(app, m, HostField) || Configures(app, m, PortField)) && m.key.ctrl && m.key.code == Char('r'))
  }

  predicate Revokes(app: App, m: Message) {
    && (Browses(app, m, Char('d')) || Browses(app, m, Char('x')))
    && !app.tokens.loading && app.tokens.cursor < |app.tokens.tokens|
  }

  /** When `m` asks for `a`, one line for each action. */
  predicate Wanted(app: App, m: Message, a: Action) {
    match a
    case QuitLoop =>
      || m.Quit?
      || (m.Key? && m.key.ctrl && m.key.code == Char('c'))
      || (m.Key? && app.overlay.None? && m.key.code == Char('q') && !Typing(app))
    case RefreshStatus =>
      || Enters(app, m, {Dashboard, ServerScreen})
      || (Pressed(app, m, ServerScreen, Char('r')) && !app.server.loading)
      || (m.Tick? && PollDue(app))
    case StartServer => Pressed(app, m, ServerScreen, Char('s')) && !app.server.loading
    case StopServer => Pressed(app, m, ServerScreen, Char('x')) && !app.server.loading
    case LoadConfig =>
      || Enters(app, m, {Dashboard, ConfigScreen, CertScreen})
      || (ReloadPressed(app, m) && !app.config.loading)
    case SaveBind(addr) =>
      && SavePressed(app, m) && !app.config.loading
      && Trim(app.config.host) != "" && ParseU16(Trim(app.config.portText)).Some?
      && addr == app.config.host + ":" + app.config.portText
    case EnsureCert =>
      (Pressed(app, m, CertScreen, Char('g')) || Pressed(app, m, CertScreen, Char('r'))) && !app.cert.loading
    case LoadTokens =>
      || Enters(app, m, {Dashboard, TokensScreen}) || m.TokenCreated? || m.TokensChanged?
      || (Browses(app, m, Char('r')) && !app.tokens.loading)
    case CreateToken(name, readOnly) =>
      && Writes(app, m) && m.key.code == Enter && !app.tokens.loading
      && readOnly == app.tokens.formReadOnly
      && (match name
          case Some(n) => n == Trim(app.tokens.formName) && n != ""
          case None => Trim(app.tokens.formName) == "")
    case RevokeToken(name) => Revokes(app, m) && name == app.tokens.tokens[app.tokens.cursor].name
    case ShowTokenQr(token, readOnly, serial, trust) =>
      && Browses(app, m, Enter) && app.tokens.lastMinted.Some?
      && token == app.tokens.lastMinted.value.token && readOnly == app.tokens.lastMinted.value.readOnly
      && serial == (app.qrSeq + 1) % 0x1_0000_0000_0000_0000 && trust == app.cert.advertiseTrust
    case LoadCertInfo => Enters(app, m, {Dashboard})
    case SaveAdvertiseTrust(trust) => Pressed(app, m, CertScreen, Char('t')) && trust == After(app.cert.advertiseTrust)
  }

  function After(t: AdvertiseTrust): AdvertiseTrust {
    if t == Auto then ForceCa else if t == ForceCa then ForcePin else Auto
  }

  lemma ConfigKeyAsks(app: App, m: Message, a: Action)
    requires Reaches(app, m, ConfigScreen)
    ensures a in HandleConfigKey(app, m.key).actions <==> Wanted(app, m, a)
  {
  }

  lemma CertKeyAsks(app: App, m: Message, a: Action)
    requires Reaches(app, m, CertScreen)
    ensures a in HandleCertKey(app, m.key).actions <==> Wanted(app, m, a)
  {
  }

  lemma ServerKeyAsks(app: App, m: Message, a: Action)
    requires Reaches(app, m, ServerScreen)
    ensures a in HandleServerKey(app, m.key).actions <==> Wanted(app, m, a)
  {
  }

  lemma TokensKeyAsks(app: App, m: Message, a: Action)
    requires Reaches(app, m, TokensScreen)
    ensures a in HandleTokensKey(app, m.key).actions <==> Wanted(app, m, a)
  {
  }

  lemma EnteringAsks(app: App, m: Message, a: Action)
    requires Entered(app, m).Some?
    ensures a in TransitionTo(app, Entered(app, m).value).actions <==> Wanted(app, m, a)
  {
    EnterActions(app, Entered(app, m).value, a);
  }

  lemma KeyAsks(app: App, m: Message, a: Action)
    requires m.Key?
    ensures a in HandleKey(app, m.key).actions <==> Wanted(app, m, a)
  {
    KeyGoesWhere(app, m.key);
    if Entered(app, m).Some? {
      EnteringAsks(app, m, a);
    } else if !KeyIsGlobal(app, m.key) {
      match app.screen {
        case ConfigScreen => ConfigKeyAsks(app, m, a);
        case CertScreen => CertKeyAsks(app, m, a);
        case ServerScreen => ServerKeyAsks(app, m, a);
        case TokensScreen => TokensKeyAsks(app, m, a);
        case Dashboard =>
      }
    }
  }

  lemma TickAsks(app: App, a: Action)
    ensures a in HandleTick(app).actions <==> a == RefreshStatus && PollDue(app)
  {
  }

  /** Each of the thirteen actions is asked for exactly in its own situations, with its own arguments. */
  lemma AsksIffWanted(app: App, m: Message, a: Action)
    ensures Asks(app, m, a) <==> Wanted(app, m, a)
  {
    match m {
      case Key(_) => KeyAsks(app, m, a);
      case NavTo(_) => EnteringAsks(app, m, a);
      case Tick => TickAsks(app, a);
      case _ => ResultAsks(app, m, a);
    }
  }

  lemma ResultAsks(app: App, m: Message, a: Action)
    requires !m.Key? && !m.NavTo? && !m.Tick?
    ensures a in Update(app, m).actions <==>
            (m.Quit? && a == QuitLoop) || ((m.TokenCreated? || m.TokensChanged?) && a == LoadTokens)
  {
  }

  // ─── Where the panel is, and whether it goes on ──────────────────────────────

  /** The screens in their order; going on from the last one comes back to the first. */
  const SCREENS: seq<Screen> := [Dashboard, ConfigScreen, CertScreen, TokensScreen, ServerScreen]

  lemma ScreensGoRound(i: nat)
    requires i < 5
    ensures SCREENS[i].Next() == SCREENS[(i + 1) % 5] && SCREENS[(i + 1) % 5].Prev() == SCREENS[i]
  {
  }

  lemma ScreenAndQuit(app: App, m: Message)
    ensures var after := Update(app, m).app;
      && after.screen == (if Entered(app, m).Some? then Entered(app, m).value else app.screen)
      && (after.shouldQuit <==> app.shouldQuit || Asks(app, m, QuitLoop))
  {
    match m {
      case Key(key) => KeyScreenAndQuit(app, key);
      case NavTo(screen) => EnterFrame(app, screen);
      case _ =>
    }
  }

  lemma KeyScreenAndQuit(app: App, key: KeyEvent)
    ensures var turn := HandleKey(app, key);
      && turn.app.screen == (if EnteredByKey(app, key).Some? then EnteredByKey(app, key).value else app.screen)
      && (turn.app.shouldQuit <==> app.shouldQuit || QuitLoop in turn.actions)
  {
    KeyGoesWhere(app, key);
    ConfigFrame(app, key);
    CertFrame(app, key);
    ServerFrame(app, key);
    TokensFrame(app, key);
    EnterFrame(app, app.screen.Next());
    EnterFrame(app, app.screen.Prev());
  }

  // ─── The overlay ─────────────────────────────────────────────────────────────

  /** An open overlay is closed by Esc or `q`, unless that is part of Ctrl-C, and by nothing else. */
  lemma OverlayClosesIff(app: App, m: Message)
    requires app.overlay.Some?
    ensures Update(app, m).app.overlay.None? <==> m.Key? && m.key.code in {Esc, Char('q')}
  {
    match m {
      case Key(key) => KeyGoesWhere(app, key);
      case NavTo(screen) => EnterFrame(app, screen);
      case _ =>
    }
  }

  /** The overlay's poll counts the ticks while its code is up and no read is out, not even one this tick starts. */
  lemma OverlayTicksAre(app: App)
    requires app.overlay.Some?
    ensures var o := app.overlay.value;
      var screenDue := app.screen in {ServerScreen, Dashboard} && (app.server.tickCounter + 1) % 0x1_0000_0000 % 20 == 0;
      HandleTick(app).app.overlay ==
        Some(if o.phase.Showing? && !app.server.loading && !screenDue
             then o.(tickCounter := (o.tickCounter + 1) % 0x1_0000_0000) else o)
  {
  }

  // ─── The loading flags ───────────────────────────────────────────────────────

  /** A flag is up after a message if and only if the message does not take it down and it was up or a task for it starts. */
  lemma FlagIff(app: App, m: Message, f: Flag)
    ensures On(Update(app, m).app, f) <==> !Clears(m, f) && (On(app, f) || exists a :: Asks(app, m, a) && WillClear(a, f))
  {
    UpdateRaises(app, m, f);
    if a :| Asks(app, m, a) && WillClear(a, f) && !Clears(m, f) {
      StartedTaskRaises(app, m, a, f);
    }
    if On(app, f) && !Clears(m, f) {
      FlagStays(app, m, f);
    }
    if Clears(m, f) {
      ClearedStaysDown(app, m, f);
    }
  }

  lemma ClearedStaysDown(app: App, m: Message, f: Flag)
    requires Clears(m, f)
    ensures !On(Update(app, m).app, f)
  {
  }

  lemma FlagStays(app: App, m: Message, f: Flag)
    requires On(app, f) && !Clears(m, f)
    ensures On(Update(app, m).app, f)
  {
    match m {
      case Key(key) => KeyFlagStays(app, key, f);
      case NavTo(screen) => EnterFlagStays(app, screen, f);
      case _ =>
    }
  }

  lemma EnterFlagStays(app: App, screen: Screen, f: Flag)
    requires On(app, f)
    ensures On(TransitionTo(app, screen).app, f)
  {
  }

  lemma KeyFlagStays(app: App, key: KeyEvent, f: Flag)
    requires On(app, f)
    ensures On(HandleKey(app, key).app, f)
  {
    KeyGoesWhere(app, key);
    match app.screen {
      case ConfigScreen =>
        ConfigFrame(app, key);
        ConfigFlagStays(app, key, f);
      case CertScreen => CertFrame(app, key);
      case ServerScreen => ServerFrame(app, key);
      case TokensScreen =>
        TokensFrame(app, key);
        TokensFlagStays(app, key, f);
      case Dashboard =>
    }
    EnterFlagStays(app, app.screen.Next(), f);
    EnterFlagStays(app, app.screen.Prev(), f);
  }

  lemma ConfigFlagStays(app: App, key: KeyEvent, f: Flag)
    requires On(app, f)
    ensures On(HandleConfigKey(app, key).app, f)
  {
  }

  lemma TokensFlagStays(app: App, key: KeyEvent, f: Flag)
    requires On(app, f)
    ensures On(HandleTokensKey(app, key).app, f)
  {
  }

  lemma StartedTaskRaises(app: App, m: Message, a: Action, f: Flag)
    requires Asks(app, m, a) && WillClear(a, f) && !Clears(m, f)
    ensures On(Update(app, m).app, f)
  {
    AsksIffWanted(app, m, a);
    match m {
      case Key(_) => KeyTaskRaises(app, m, a, f);
      case NavTo(screen) => EnterActions(app, screen, a);
      case _ =>
    }
  }

  lemma KeyTaskRaises(app: App, m: Message, a: Action, f: Flag)
    requires m.Key? && Wanted(app, m, a) && WillClear(a, f)
    ensures On(HandleKey(app, m.key).app, f)
  {
    KeyGoesWhere(app, m.key);
    if Entered(app, m).Some? {
      EnteringAsks(app, m, a);
      EnterActions(app, Entered(app, m).value, a);
    } else if !KeyIsGlobal(app, m.key) {
      match app.screen {
        case ConfigScreen => ConfigTaskRaises(app, m, a, f);
        case TokensScreen => TokensTaskRaises(app, m, a, f);
        case CertScreen =>
        case ServerScreen =>
        case Dashboard =>
      }
    }
  }

  lemma ConfigTaskRaises(app: App, m: Message, a: Action, f: Flag)
    requires Reaches(app, m, ConfigScreen) && Entered(app, m).None? && Wanted(app, m, a) && WillClear(a, f)
    ensures On(HandleConfigKey(app, m.key).app, f)
  {
  }

  lemma TokensTaskRaises(app: App, m: Message, a: Action, f: Flag)
    requires Reaches(app, m, TokensScreen) && Entered(app, m).None? && Wanted(app, m, a) && WillClear(a, f)
    ensures On(HandleTokensKey(app, m.key).app, f)
  {
  }

  // ─── The server panel and the certificate ────────────────────────────────────

  lemma ServerStores(app: App, m: Message)
    ensures var after := Update(app, m).app.server;
      && after.status == (if m.StatusLoaded? then m.info else app.server.status)
      && (after.stopped <==> if m.StatusLoaded? then m.info.None? else app.server.stopped && !Asks(app, m, StartServer))
  {
    AsksIffWanted(app, m, StartServer);
    match m {
      case Key(key) => KeyServerStores(app, key);
      case NavTo(screen) => EnterFrame(app, screen);
      case _ =>
    }
  }

  lemma KeyServerStores(app: App, key: KeyEvent)
    ensures var turn := HandleKey(app, key);
      && turn.app.server.status == app.server.status
      && (turn.app.server.stopped <==> app.server.stopped && StartServer !in turn.actions)
  {
    KeyGoesWhere(app, key);
    if EnteredByKey(app, key).Some? {
      EnterFrame(app, EnteredByKey(app, key).value);
      EnterActions(app, EnteredByKey(app, key).value, StartServer);
    } else if !KeyIsGlobal(app, key) {
      ScreenServerStores(app, key);
    }
  }

  lemma ScreenServerStores(app: App, key: KeyEvent)
    ensures var turn := HandleScreenKey(app, key);
      EnteredByKey(app, key).None? && !KeyIsGlobal(app, key) ==>
        && turn.app.server.status == app.server.status
        && (turn.app.server.stopped <==> app.server.stopped && StartServer !in turn.actions)
  {
    match app.screen {
      case ConfigScreen => ConfigFrame(app, key);
      case CertScreen => CertFrame(app, key);
      case TokensScreen => TokensFrame(app, key);
      case ServerScreen =>
      case Dashboard =>
    }
  }

  /** The screen poll counts ticks on the two polled screens while no read is out, from 0 on entering the Server screen. */
  lemma ScreenTicksAre(app: App, m: Message)
    ensures Update(app, m).app.server.tickCounter ==
      if Enters(app, m, {ServerScreen}) then 0
      else if m.Tick? && app.screen in {ServerScreen, Dashboard} && !app.server.loading
      then (app.server.tickCounter + 1) % 0x1_0000_0000
      else app.server.tickCounter
  {
    match m {
      case Key(key) =>
        KeyGoesWhere(app, key);
        ConfigFrame(app, key);
        CertFrame(app, key);
        TokensFrame(app, key);
      case _ =>
    }
  }

  lemma CertStores(app: App, m: Message)
    ensures var after := Update(app, m).app.cert;
      && after.fingerprint == (match m
           case CertEnsured(fp, _) => fp
           case CertInfoLoaded(Some(fp), _) => fp
           case CertInfoLoaded(None, _) => ""
           case _ => app.cert.fingerprint)
      && after.sans == (match m
           case CertEnsured(_, sans) => sans
           case CertInfoLoaded(_, sans) => sans
           case _ => app.cert.sans)
      && after.advertiseTrust ==
           (if Pressed(app, m, CertScreen, Char('t')) then After(app.cert.advertiseTrust) else app.cert.advertiseTrust)
  {
    match m {
      case Key(key) => KeyCertStores(app, m);
      case NavTo(screen) => EnterFrame(app, screen);
      case _ =>
    }
  }

  lemma KeyCertStores(app: App, m: Message)
    requires m.Key?
    ensures var after := HandleKey(app, m.key).app.cert;
      && after.fingerprint == app.cert.fingerprint && after.sans == app.cert.sans
      && after.advertiseTrust ==
           (if Pressed(app, m, CertScreen, Char('t')) then After(app.cert.advertiseTrust) else app.cert.advertiseTrust)
  {
    KeyGoesWhere(app, m.key);
    if Entered(app, m).Some? {
      EnterFrame(app, Entered(app, m).value);
    } else {
      match app.screen {
        case ConfigScreen => ConfigFrame(app, m.key);
        case ServerScreen => ServerFrame(app, m.key);
        case TokensScreen => TokensFrame(app, m.key);
        case CertScreen =>
        case Dashboard =>
      }
    }
  }

  // ─── The tokens ──────────────────────────────────────────────────────────────

  /** One row down or up in a list, going round. */
  function Row(cursor: nat, length: nat, down: bool): nat {
    if length == 0 then cursor else (cursor + if down then 1 else length - 1) % length
  }

  /** The one-time secret is dropped: the list is entered or changed, a token is revoked, or Esc is pressed. */
  predicate DropsSecret(app: App, m: Message) {
    m.TokensChanged? || Enters(app, m, {TokensScreen}) || Browses(app, m, Esc) || Revokes(app, m)
  }

  lemma TokensStore(app: App, m: Message)
    ensures var after := Update(app, m).app.tokens;
      && after.tokens == (if m.TokensLoaded? then m.records else app.tokens.tokens)
      && after.lastMinted ==
           (if m.TokenCreated? then Some(m.minted) else if DropsSecret(app, m) then None else app.tokens.lastMinted)
  {
    match m {
      case Key(key) => KeyTokensStore(app, m);
      case NavTo(screen) => EnterSecret(app, screen);
      case _ =>
    }
  }

  lemma EnterSecret(app: App, screen: Screen)
    ensures var after := TransitionTo(app, screen).app.tokens;
      && after.tokens == app.tokens.tokens
      && after.lastMinted == if screen == TokensScreen then None else app.tokens.lastMinted
  {
  }

  lemma KeyTokensStore(app: App, m: Message)
    requires m.Key?
    ensures var after := HandleKey(app, m.key).app.tokens;
      && after.tokens == app.tokens.tokens
      && after.lastMinted == if DropsSecret(app, m) then None else app.tokens.lastMinted
  {
    KeyGoesWhere(app, m.key);
    if Entered(app, m).Some? {
      EnterSecret(app, Entered(app, m).value);
    } else if Reaches(app, m, TokensScreen) {
      ScreenTokensStore(app, m);
    } else {
      match app.screen {
        case ConfigScreen => ConfigFrame(app, m.key);
        case CertScreen => CertFrame(app, m.key);
        case ServerScreen => ServerFrame(app, m.key);
        case TokensScreen =>
        case Dashboard =>
      }
    }
  }

  lemma ScreenTokensStore(app: App, m: Message)
    requires Reaches(app, m, TokensScreen)
    ensures var after := HandleTokensKey(app, m.key).app.tokens;
      && after.tokens == app.tokens.tokens
      && after.lastMinted == if Browses(app, m, Esc) || Revokes(app, m) then None else app.tokens.lastMinted
  {
  }

  /** The row pointed at: one down or up by its keys, brought back into a list that got shorter. */
  lemma TokenCursorIs(app: App, m: Message)
    ensures Update(app, m).app.tokens.cursor ==
      if m.TokensLoaded? && app.tokens.cursor >= |m.records| then (if m.records == [] then 0 else |m.records| - 1)
      else if Browses(app, m, Down) || Browses(app, m, Char('j')) then Row(app.tokens.cursor, |app.tokens.tokens|, true)
      else if Browses(app, m, Up) || Browses(app, m, Char('k')) then Row(app.tokens.cursor, |app.tokens.tokens|, false)
      else app.tokens.cursor
  {
    match m {
      case Key(key) =>
        KeyGoesWhere(app, key);
        ConfigFrame(app, key);
        CertFrame(app, key);
        ServerFrame(app, key);
        EnterFrame(app, app.screen.Next());
        EnterFrame(app, app.screen.Prev());
        if Reaches(app, m, TokensScreen) {
          ScreenTokenCursor(app, m);
        }
      case NavTo(screen) => EnterFrame(app, screen);
      case _ =>
    }
  }

  lemma ScreenTokenCursor(app: App, m: Message)
    requires Reaches(app, m, TokensScreen)
    ensures HandleTokensKey(app, m.key).app.tokens.cursor ==
      if Browses(app, m, Down) || Browses(app, m, Char('j')) then Row(app.tokens.cursor, |app.tokens.tokens|, true)
      else if Browses(app, m, Up) || Browses(app, m, Char('k')) then Row(app.tokens.cursor, |app.tokens.tokens|, false)
      else app.tokens.cursor
  {
  }

  /** The create form: opened by `c`; closed by Esc, by a token created, and on entering the screen. */
  lemma FormIs(app: App, m: Message)
    ensures var after := Update(app, m).app.tokens;
      && after.formPhase ==
           (if Browses(app, m, Char('c')) then Creating
            else if m.TokenCreated? || Enters(app, m, {TokensScreen}) || (Writes(app, m) && m.key.code == Esc) then Browsing
            else app.tokens.formPhase)
      && after.formReadOnly ==
           (if Browses(app, m, Char('c')) then false
            else if Writes(app, m) && m.key.ctrl && m.key.code == Char(' ') then !app.tokens.formReadOnly
            else app.tokens.formReadOnly)
      && after.formName ==
           (if Browses(app, m, Char('c')) || m.TokenCreated? || Enters(app, m, {TokensScreen}) then ""
            else if !Writes(app, m) || (m.key.ctrl && m.key.code == Char(' ')) then app.tokens.formName
            else match m.key.code
              case Esc => ""
              case Backspace => Pop(app.tokens.formName)
              case Char(c) => app.tokens.formName + [c]
              case _ => app.tokens.formName)
  {
    match m {
      case Key(key) =>
        KeyGoesWhere(app, key);
        ConfigFrame(app, key);
        CertFrame(app, key);
        ServerFrame(app, key);
        if Reaches(app, m, TokensScreen) {
          ScreenFormIs(app, m);
        } else if Entered(app, m).Some? {
          EnterForm(app, Entered(app, m).value);
        }
      case NavTo(screen) => EnterForm(app, screen);
      case _ =>
    }
  }

  lemma EnterForm(app: App, screen: Screen)
    ensures var after := TransitionTo(app, screen).app.tokens;
      && after.formReadOnly == app.tokens.formReadOnly
      && after.formPhase == (if screen == TokensScreen then Browsing else app.tokens.formPhase)
      && after.formName == (if screen == TokensScreen then "" else app.tokens.formName)
  {
  }

  lemma ScreenFormIs(app: App, m: Message)
    requires Reaches(app, m, TokensScreen)
    ensures var after := HandleTokensKey(app, m.key).app.tokens;
      && after.formPhase ==
           (if Browses(app, m, Char('c')) then Creating
            else if Writes(app, m) && m.key.code == Esc then Browsing else app.tokens.formPhase)
      && after.formReadOnly ==
           (if Browses(app, m, Char('c')) then false
            else if Writes(app, m) && m.key.ctrl && m.key.code == Char(' ') then !app.tokens.formReadOnly
            else app.tokens.formReadOnly)
      && after.formName ==
           (if Browses(app, m, Char('c')) then ""
            else if !Writes(app, m) || (m.key.ctrl && m.key.code == Char(' ')) then app.tokens.formName
            else match m.key.code
              case Esc => ""
              case Backspace => Pop(app.tokens.formName)
              case Char(c) => app.tokens.formName + [c]
              case _ => app.tokens.formName)
  {
  }

  // ─── The configuration form ──────────────────────────────────────────────────

  /** A Ctrl shortcut of a text field: neither is typed. */
  predicate Shortcut(m: Message) {
    m.Key? && m.key.ctrl && m.key.code in {Char('s'), Char('r')}
  }

  /** The row highlighted in the picker is taken into the host. */
  predicate Picks(app: App, m: Message) {
    Configures(app, m, IpPicker) && m.key.code == Enter && app.config.ipCursor < |app.config.reachableIps|
  }

  lemma LoadedConfigIs(app: App, m: Message)
    requires m.ConfigLoaded?
    ensures var after, s := Update(app, m).app.config, m.snapshot;
      && after.certDir == s.certDir && after.reachableIps == s.reachableIps && after.advertiseSans == s.advertiseSans
      && after.focused == app.config.focused
      && after.ipCursor == (if app.config.ipCursor < |s.reachableIps| then app.config.ipCursor else 0)
      && (if ':' in s.bindAddr then s.bindAddr == after.host + [':'] + after.portText && ':' !in after.portText
          else after.host == s.bindAddr && after.portText == "50051")
  {
    var addr := m.snapshot.bindAddr;
    var i := LastIndex(addr, ':');
    if i.Some? {
      assert addr == addr[..i.value] + [':'] + addr[i.value + 1..];
    }
  }

  /** What else changes the form: a key in one of its fields, each its own. */
  lemma ConfigFormIs(app: App, m: Message)
    requires !m.ConfigLoaded?
    ensures FormAfter(app, m, Update(app, m).app.config)
  {
    match m {
      case Key(key) => KeyConfigIs(app, m);
      case NavTo(screen) => EnterFrame(app, screen);
      case _ =>
    }
  }

  lemma KeyConfigIs(app: App, m: Message)
    requires m.Key?
    ensures FormAfter(app, m, HandleKey(app, m.key).app.config)
  {
    KeyGoesWhere(app, m.key);
    if Entered(app, m).Some? {
      EnterFrame(app, Entered(app, m).value);
    } else if Reaches(app, m, ConfigScreen) {
      ScreenConfigIs(app, m);
    } else {
      match app.screen {
        case CertScreen => CertFrame(app, m.key);
        case ServerScreen => ServerFrame(app, m.key);
        case TokensScreen => TokensFrame(app, m.key);
        case ConfigScreen =>
        case Dashboard =>
      }
    }
  }

  function HostAfter(app: App, m: Message): string {
    if Picks(app, m) then app.config.reachableIps[app.config.ipCursor]
    else if !Configures(app, m, HostField) || Shortcut(m) then app.config.host
    else match m.key.code
      case Backspace => Pop(app.config.host)
      case Char(c) => app.config.host + [c]
      case _ => app.config.host
  }

  function PortAfter(app: App, m: Message): string {
    if !Configures(app, m, PortField) then app.config.portText
    else match m.key.code
      case Backspace => Pop(app.config.portText)
      case Char(c) => if '0' <= c <= '9' then app.config.portText + [c] else app.config.portText
      case _ => app.config.portText
  }

  function FocusAfter(app: App, m: Message): ConfigField {
    if Picks(app, m) then PortField
    else if Configures(app, m, HostField) && m.key.code == Down then PortField
    else if Configures(app, m, PortField) && m.key.code == Down && app.config.reachableIps != [] then IpPicker
    else if Configures(app, m, PortField) && m.key.code == Up then HostField
    else app.config.focused
  }

  function PickAfter(app: App, m: Message): nat {
    if Configures(app, m, IpPicker) && m.key.code == Down then Row(app.config.ipCursor, |app.config.reachableIps|, true)
    else if Configures(app, m, IpPicker) && m.key.code == Up then Row(app.config.ipCursor, |app.config.reachableIps|, false)
    else app.config.ipCursor
  }

  lemma ScreenConfigIs(app: App, m: Message)
    requires Reaches(app, m, ConfigScreen)
    ensures FormAfter(app, m, HandleConfigKey(app, m.key).app.config)
  {
    match app.config.focused {
      case HostField => HostKeyIs(app, m);
      case PortField => PortKeyIs(app, m);
      case IpPicker => PickerKeyIs(app, m);
    }
  }

  predicate FormAfter(app: App, m: Message, after: ConfigState) {
    && after.certDir == app.config.certDir && after.reachableIps == app.config.reachableIps
    && after.advertiseSans == app.config.advertiseSans
    && after.host == HostAfter(app, m) && after.portText == PortAfter(app, m)
    && after.focused == FocusAfter(app, m) && after.ipCursor == PickAfter(app, m)
  }

  lemma HostKeyIs(app: App, m: Message)
    requires Configures(app, m, HostField)
    ensures FormAfter(app, m, HandleConfigKey(app, m.key).app.config)
  {
  }

  lemma PortKeyIs(app: App, m: Message)
    requires Configures(app, m, PortField)
    ensures FormAfter(app, m, HandleConfigKey(app, m.key).app.config)
  {
  }

  lemma PickerKeyIs(app: App, m: Message)
    requires Configures(app, m, IpPicker)
    ensures FormAfter(app, m, HandleConfigKey(app, m.key).app.config)
  {
  }
}
