/** What one message does to the control panel's state, and the actions it returns. */
module CtlUpdate {
  import opened Common
  import opened CtlState

  datatype Turn = Turn(app: App, actions: seq<Action>)

  const TICKS_PER_POLL: nat := 20

  function Bump32(n: nat): nat {
    (n + 1) % 0x1_0000_0000
  }

  function NextSerial(n: nat): nat {
    (n + 1) % 0x1_0000_0000_0000_0000
  }

  function Still(app: App): Turn {
    Turn(app, [])
  }

  // ─── The four loading flags ──────────────────────────────────────────────────

  function SetServer(app: App, on: bool): App {
    app.(server := app.server.(loading := on))
  }

  function SetConfig(app: App, on: bool): App {
    app.(config := app.config.(loading := on))
  }

  function SetCert(app: App, on: bool): App {
    app.(cert := app.cert.(loading := on))
  }

  function SetTokens(app: App, on: bool): App {
    app.(tokens := app.tokens.(loading := on))
  }

  function AllIdle(app: App): App {
    SetServer(SetConfig(SetCert(SetTokens(app, false), false), false), false)
  }

  // ─── Messages ────────────────────────────────────────────────────────────────

  function ApplyBindAddr(config: ConfigState, addr: string): ConfigState {
    match LastIndex(addr, ':')
    case Some(i) => config.(host := addr[..i], portText := addr[i + 1..])
    case None => config.(host := addr, portText := "50051")
  }

  function Connects(overlay: Option<QrOverlay>, clients: nat): bool {
    overlay.Some? && overlay.value.phase.Showing? && clients > overlay.value.baseline
  }

  function CheckOverlay(overlay: Option<QrOverlay>, clients: nat): Option<QrOverlay> {
    if Connects(overlay, clients) then Some(overlay.value.(phase := Connected)) else overlay
  }

  function OnStatus(app: App, info: Option<ServerInfo>): App {
    var server := app.server.(status := info, stopped := info.None?, loading := false);
    app.(server := server,
         overlay := if info.Some? then CheckOverlay(app.overlay, info.value.clientCount) else app.overlay)
  }

  function OnConfig(config: ConfigState, s: ConfigSnapshot): ConfigState {
    var filled := ApplyBindAddr(config, s.bindAddr);
    filled.(certDir := s.certDir, reachableIps := s.reachableIps, advertiseSans := s.advertiseSans, loading := false,
            ipCursor := if config.ipCursor >= |s.reachableIps| then 0 else config.ipCursor)
  }

  function OnTokens(tokens: TokensState, records: seq<TokenRecord>): TokensState {
    var last := if records == [] then 0 else |records| - 1;
    tokens.(tokens := records, cursor := if tokens.cursor >= |records| then last else tokens.cursor, loading := false)
  }

  /** A result counts only for the open overlay it was asked for. */
  predicate IsCurrent(app: App, serial: nat) {
    app.overlay.Some? && app.overlay.value.serial == serial
  }

  function Update(app: App, m: Message): Turn {
    match m
    case Key(key) => HandleKey(app, key)
    case Tick => HandleTick(app)
    case Quit => Turn(app.(shouldQuit := true), [QuitLoop])
    case NavTo(screen) => TransitionTo(app, screen)
    case StatusLoaded(info) => Still(OnStatus(app, info))
    case ConfigLoaded(s) => Still(app.(config := OnConfig(app.config, s)))
    case CertEnsured(fingerprint, sans) =>
      Still(app.(cert := app.cert.(fingerprint := fingerprint, sans := sans, loading := false)))
    case CertInfoLoaded(known, sans) =>
      var fingerprint := if known.Some? then known.value else "";
      Still(app.(cert := app.cert.(fingerprint := fingerprint, sans := sans, loading := false)))
    case ActionFailed => Still(AllIdle(app))
    case ActionOk => Still(AllIdle(app))
    case TokensLoaded(records) => Still(app.(tokens := OnTokens(app.tokens, records)))
    case TokenCreated(minted) =>
      Turn(app.(tokens := app.tokens.(lastMinted := Some(minted), loading := false, formPhase := Browsing, formName := "")),
           [LoadTokens])
    case TokensChanged => Turn(app.(tokens := app.tokens.(lastMinted := None, loading := false)), [LoadTokens])
    case TokenQrReady(uri, host, port, short, baseline, serial) =>
      if IsCurrent(app, serial) then
        Still(app.(overlay := Some(app.overlay.value.(baseline := baseline, phase := Showing(uri, host, port, short)))))
      else Still(app)
    case TokenQrFailed(err, serial) =>
      if IsCurrent(app, serial) then Still(app.(overlay := Some(app.overlay.value.(phase := Failed(err))))) else Still(app)
  }

  // ─── Screens ─────────────────────────────────────────────────────────────────

  function OnEnterScreen(app: App, screen: Screen): Turn {
    match screen
    case ConfigScreen => Turn(SetConfig(app, true), [LoadConfig])
    case ServerScreen => Turn(app.(server := app.server.(loading := true, tickCounter := 0)), [RefreshStatus])
    case TokensScreen =>
      Turn(app.(tokens := app.tokens.(loading := true, lastMinted := None, formPhase := Browsing, formName := "")), [LoadTokens])
    case CertScreen => Turn(SetConfig(app, true), [LoadConfig])
    case Dashboard =>
      Turn(SetServer(SetConfig(SetTokens(SetCert(app, true), true), true), true),
           [RefreshStatus, LoadConfig, LoadTokens, LoadCertInfo])
  }

  function TransitionTo(app: App, next: Screen): Turn {
    var turn := OnEnterScreen(app, next);
    turn.(app := turn.app.(screen := next))
  }

  // ─── Ticks ───────────────────────────────────────────────────────────────────

  predicate ScreenPolls(app: App) {
    (app.screen == ServerScreen || app.screen == Dashboard) && !app.server.loading
  }

  predicate OverlayPolls(app: App) {
    !app.server.loading && app.overlay.Some? && app.overlay.value.phase.Showing?
  }

  function ScreenTick(app: App): Turn
    requires ScreenPolls(app)
  {
    var n := Bump32(app.server.tickCounter);
    var due := n % TICKS_PER_POLL == 0;
    Turn(app.(server := app.server.(tickCounter := n, loading := due)), if due then [RefreshStatus] else [])
  }

  function OverlayTick(app: App): Turn
    requires OverlayPolls(app)
  {
    var n := Bump32(app.overlay.value.tickCounter);
    var due := n % TICKS_PER_POLL == 0;
    Turn(SetServer(app, due).(overlay := Some(app.overlay.value.(tickCounter := n))), if due then [RefreshStatus] else [])
  }

  function HandleTick(app: App): Turn {
    var first := if ScreenPolls(app) then ScreenTick(app) else Still(app);
    var second := if OverlayPolls(first.app) then OverlayTick(first.app) else Still(first.app);
    Turn(second.app, first.actions + second.actions)
  }

  // ─── Keys ────────────────────────────────────────────────────────────────────

  function HandleKey(app: App, key: KeyEvent): Turn {
    if key.ctrl && key.code == Char('c') then Turn(app.(shouldQuit := true), [QuitLoop])
    else if app.overlay.Some? then
      Still(if key.code == Esc || key.code == Char('q') then app.(overlay := None) else app)
    else if key.code == Char('q') && !app.IsTextEditing() then Turn(app.(shouldQuit := true), [QuitLoop])
    else if key.code == Tab then TransitionTo(app, app.screen.Next())
    else if key.code == BackTab then TransitionTo(app, app.screen.Prev())
    else HandleScreenKey(app, key)
  }

  function HandleScreenKey(app: App, key: KeyEvent): Turn {
    match app.screen
    case ConfigScreen => HandleConfigKey(app, key)
    case CertScreen => HandleCertKey(app, key)
    case ServerScreen => HandleServerKey(app, key)
    case TokensScreen => HandleTokensKey(app, key)
    case Dashboard => HandleNavKeys(app, key)
  }

  function HandleNavKeys(app: App, key: KeyEvent): Turn {
    match key.code
    case Right => TransitionTo(app, app.screen.Next())
    case Down => TransitionTo(app, app.screen.Next())
    case Left => TransitionTo(app, app.screen.Prev())
    case Up => TransitionTo(app, app.screen.Prev())
    case _ => Still(app)
  }

  function Focus(app: App, field: ConfigField): Turn {
    Still(app.(config := app.config.(focused := field)))
  }

  function HandleConfigKey(app: App, key: KeyEvent): Turn {
    var field := app.config.focused;
    if key.ctrl && field != IpPicker && key.code == Char('s') then ConfigSave(app)
    else if key.ctrl && field != IpPicker && key.code == Char('r') then ConfigReload(app)
    else
      match field
      case HostField => HandleHostKey(app, key.code)
      case PortField => HandlePortKey(app, key.code)
      case IpPicker => HandlePickerKey(app, key.code)
  }

  function HandleHostKey(app: App, code: KeyCode): Turn {
    match code
    case Tab => Focus(app, PortField)
    case Down => Focus(app, PortField)
    case Enter => ConfigSave(app)
    case Backspace => Still(app.(config := app.config.(host := Pop(app.config.host))))
    case Char(c) => Still(app.(config := app.config.(host := app.config.host + [c])))
    case _ => Still(app)
  }

  function HandlePortKey(app: App, code: KeyCode): Turn {
    match code
    case Tab => if app.config.reachableIps != [] then Focus(app, IpPicker) else Still(app)
    case Down => if app.config.reachableIps != [] then Focus(app, IpPicker) else Still(app)
    case Up => Focus(app, HostField)
    case BackTab => Focus(app, HostField)
    case Enter => ConfigSave(app)
    case Backspace => Still(app.(config := app.config.(portText := Pop(app.config.portText))))
    case Char(c) =>
      if '0' <= c <= '9' then Still(app.(config := app.config.(portText := app.config.portText + [c]))) else Still(app)
    case _ => Still(app)
  }

  /** One row down or up in a list, going round at its ends. */
  function Turned(cursor: nat, length: nat, down: bool): nat {
    if length == 0 then cursor else if down then (cursor + 1) % length else (cursor + length - 1) % length
  }

  function HandlePickerKey(app: App, code: KeyCode): Turn {
    var c := app.config;
    match code
    case Down => Still(app.(config := c.(ipCursor := Turned(c.ipCursor, |c.reachableIps|, true))))
    case Up => Still(app.(config := c.(ipCursor := Turned(c.ipCursor, |c.reachableIps|, false))))
    case Tab => Focus(app, HostField)
    case BackTab => Focus(app, PortField)
    case Enter =>
      if c.ipCursor < |c.reachableIps| then
        Still(app.(config := c.(host := c.reachableIps[c.ipCursor], focused := PortField)))
      else Still(app)
    case Char(k) => if k == 's' then ConfigSave(app) else if k == 'r' then ConfigReload(app) else Still(app)
    case _ => Still(app)
  }

  function ConfigSave(app: App): Turn {
    if app.config.loading || Trim(app.config.host) == "" || ParseU16(Trim(app.config.portText)).None? then Still(app)
    else Turn(SetConfig(app, true), [SaveBind(app.config.host + ":" + app.config.portText)])
  }

  function ConfigReload(app: App): Turn {
    if app.config.loading then Still(app) else Turn(SetConfig(app, true), [LoadConfig])
  }

  function HandleCertKey(app: App, key: KeyEvent): Turn {
    if key.code == Char('g') || key.code == Char('r') then
      if app.cert.loading then Still(app) else Turn(SetCert(app, true), [EnsureCert])
    else if key.code == Char('t') then
      var trust := app.cert.advertiseTrust.Cycle();
      Turn(app.(cert := app.cert.(advertiseTrust := trust)), [SaveAdvertiseTrust(trust)])
    else Still(app)
  }

  function HandleServerKey(app: App, key: KeyEvent): Turn {
    if app.server.loading then Still(app)
    else if key.code == Char('s') then
      Turn(app.(server := app.server.(loading := true, stopped := false)), [StartServer])
    else if key.code == Char('x') then Turn(SetServer(app, true), [StopServer])
    else if key.code == Char('r') then Turn(SetServer(app, true), [RefreshStatus])
    else Still(app)
  }

  function HandleTokensKey(app: App, key: KeyEvent): Turn {
    match app.tokens.formPhase
    case Browsing => HandleBrowsingKey(app, key.code)
    case Creating => HandleFormKey(app, key)
  }

  function HandleBrowsingKey(app: App, code: KeyCode): Turn {
    var t := app.tokens;
    if code == Down || code == Char('j') then Still(app.(tokens := t.(cursor := Turned(t.cursor, |t.tokens|, true))))
    else if code == Up || code == Char('k') then Still(app.(tokens := t.(cursor := Turned(t.cursor, |t.tokens|, false))))
    else if code == Char('c') then Still(app.(tokens := t.(formPhase := Creating, formName := "", formReadOnly := false)))
    else if code == Char('d') || code == Char('x') then
      if !t.loading && t.cursor < |t.tokens| then
        Turn(app.(tokens := t.(loading := true, lastMinted := None)), [RevokeToken(t.tokens[t.cursor].name)])
      else Still(app)
    else if code == Char('r') then if t.loading then Still(app) else Turn(SetTokens(app, true), [LoadTokens])
    else if code == Enter then if t.lastMinted.Some? then OpenOverlay(app, t.lastMinted.value) else Still(app)
    else if code == Esc then Still(app.(tokens := t.(lastMinted := None)))
    else Still(app)
  }

  /** Open the overlay for the token just minted, under the next serial number. */
  function OpenOverlay(app: App, minted: Minted): Turn {
    var serial := NextSerial(app.qrSeq);
    Turn(app.(qrSeq := serial, overlay := Some(QrOverlay(Generating, serial, 0, minted.name, minted.readOnly, 0))),
         [ShowTokenQr(minted.token, minted.readOnly, serial, app.cert.advertiseTrust)])
  }

  function HandleFormKey(app: App, key: KeyEvent): Turn {
    var t := app.tokens;
    match key.code
    case Esc => Still(app.(tokens := t.(formPhase := Browsing, formName := "")))
    case Enter =>
      if t.loading then Still(app)
      else
        var name := Trim(t.formName);
        Turn(SetTokens(app, true), [CreateToken(if name == "" then None else Some(name), t.formReadOnly)])
    case Backspace => Still(app.(tokens := t.(formName := Pop(t.formName))))
    case Char(c) =>
      if key.ctrl && c == ' ' then Still(app.(tokens := t.(formReadOnly := !t.formReadOnly)))
      else Still(app.(tokens := t.(formName := t.formName + [c])))
    case _ => Still(app)
  }
}
