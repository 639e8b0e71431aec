/** What the keys of the control panel may and may not do, across the order in which a key is looked at. */
module CtlForms {
  import opened Common
  import opened PairingUri
  import opened CtlState
  import opened CtlUpdate
  import opened CtlRunner
  import opened CtlPairing

  // ─── Typing ──────────────────────────────────────────────────────────────────

  /** The text field that has the keyboard, if one has. */
  function Field(app: App): Option<string> {
    if !app.IsTextEditing() then None
    else if app.screen == TokensScreen then Some(app.tokens.formName)
    else if app.config.focused == HostField then Some(app.config.host)
    else Some(app.config.portText)
  }

  predicate Takes(app: App, c: char) {
    app.screen == ConfigScreen && app.config.focused == PortField ==> '0' <= c <= '9'
  }

  function WithField(app: App, text: string): App
    requires app.IsTextEditing()
  {
    if app.screen == TokensScreen then app.(tokens := app.tokens.(formName := text))
    else if app.config.focused == HostField then app.(config := app.config.(host := text))
    else app.(config := app.config.(portText := text))
  }

  /**
   While a text field has the keyboard, a plain character is text and nothing else, the shortcut letters included:
   nothing quits, saves, reloads, navigates or opens. A port takes digits only.
   */
  lemma TypedCharacterIsText(app: App, c: char)
    requires app.IsTextEditing() && app.overlay.None?
    ensures HandleKey(app, KeyEvent(Char(c), false))
      == Still(if Takes(app, c) then WithField(app, Field(app).value + [c]) else app)
  {
  }

  /** Backspace undoes a character that was taken. */
  lemma BackspaceUndoesTyping(app: App, c: char)
    requires app.IsTextEditing() && app.overlay.None? && Takes(app, c)
    ensures var typed := HandleKey(app, KeyEvent(Char(c), false));
      HandleKey(typed.app, KeyEvent(Backspace, false)) == Still(app)
  {
    TypedCharacterIsText(app, c);
    var text := Field(app).value;
    assert Pop(text + [c]) == text;
  }

  /** With the overlay up every key but Ctrl-C asks for nothing, and at most closes the overlay: no token is revoked. */
  lemma OverlayTakesAllKeys(app: App, key: KeyEvent)
    requires app.overlay.Some? && !(key.ctrl && key.code == Char('c'))
    ensures HandleKey(app, key).actions == []
    ensures HandleKey(app, key).app == app || HandleKey(app, key).app == app.(overlay := None)
  {
  }

  // ─── The bind address ────────────────────────────────────────────────────────

  /** An address made of a host and a port is taken apart into them exactly when the port has no colon. */
  lemma BindAddrRoundTripIff(config: ConfigState)
    ensures ApplyBindAddr(config, config.host + ":" + config.portText) == config <==> ':' !in config.portText
  {
    var addr := config.host + ":" + config.portText;
    if ':' !in config.portText {
      assert addr == config.host + [':'] + config.portText;
      LastIndexAfter(config.host, ':', config.portText);
      assert addr[..|config.host|] == config.host && addr[|config.host| + 1..] == config.portText;
    } else {
      assert addr[|config.host|] == ':';
      var i := LastIndex(addr, ':').value;
      assert ApplyBindAddr(config, addr).portText == addr[i + 1..];
    }
  }

  lemma {:induction false} DigitsOnly(s: string)
    requires ParseDecimal(s).Some?
    ensures forall c | c in s :: '0' <= c <= '9'
  {
    if |s| > 1 {
      DigitsOnly(s[..|s| - 1]);
      assert s == s[..|s| - 1] + [s[|s| - 1]];
    }
  }

  lemma {:induction false} TrimDropsSpaces(s: string, c: char)
    requires !IsSpace(c)
    ensures c in s <==> c in Trim(s)
    decreases |s|
  {
    if s == "" {
    } else if IsSpace(s[0]) {
      assert s == [s[0]] + s[1..];
      TrimDropsSpaces(s[1..], c);
    } else if IsSpace(s[|s| - 1]) {
      assert s == s[..|s| - 1] + [s[|s| - 1]];
      TrimDropsSpaces(s[..|s| - 1], c);
    }
  }

  lemma PortHasNoColon(text: string)
    requires ParseU16(Trim(text)).Some?
    ensures ':' !in text
  {
    ParsedIsDigits(Trim(text));
    TrimDropsSpaces(text, ':');
  }

  lemma ParsedIsDigits(t: string)
    requires ParseU16(t).Some?
    ensures t != "" && forall c | c in t :: '0' <= c <= '9' || c == '+'
  {
    var digits := if t[0] == '+' then t[1..] else t;
    DigitsOnly(digits);
    assert t == digits || t == ['+'] + digits;
  }

  /**
   The form asks for a save exactly when it is idle, its host is not blank and its trimmed port is a 16-bit number; what
   is asked for is the text of both as typed.
   */
  lemma SavesIff(app: App)
    ensures ConfigSave(app).actions != [] <==>
            !app.config.loading && Trim(app.config.host) != "" && ParseU16(Trim(app.config.portText)).Some?
    ensures ConfigSave(app).actions != [] ==>
              && ConfigSave(app) == Turn(SetConfig(app, true), [SaveBind(app.config.host + ":" + app.config.portText)])
  {
  }

  /** A saved port keeps the promise of the error message, 1 to 65535, exactly when it is not zero. */
  lemma SavedPortInRangeIff(app: App)
    requires ConfigSave(app).actions != []
    ensures ParseU16(Trim(app.config.portText)).Some?
    ensures var port := ParseU16(Trim(app.config.portText)).value; 1 <= port <= 65535 <==> port != 0
  {
  }

  /** Every address the form saves reads back into the very form it was saved from. */
  lemma SavedAddressReadsBack(app: App)
    requires ConfigSave(app).actions != []
    ensures exists addr :: ConfigSave(app).actions == [SaveBind(addr)] && ApplyBindAddr(app.config, addr) == app.config
  {
    PortHasNoColon(app.config.portText);
    BindAddrRoundTripIff(app.config);
    assert ConfigSave(app).actions == [SaveBind(app.config.host + ":" + app.config.portText)];
  }

  lemma ParsedNeedsNoTrim(t: string)
    requires ParseU16(t).Some?
    ensures Trim(t) == t
  {
    ParsedIsDigits(t);
    assert t[0] in t && t[|t| - 1] in t;
  }

  /** The port is trimmed to be checked and saved as it stands: the saved text names the checked port if it needs no trim. */
  lemma SavedPortReadsAs(app: App)
    requires ConfigSave(app).actions != []
    ensures ParseU16(Trim(app.config.portText)).Some?
    ensures var text := app.config.portText;
      BindPort(app.config.host + ":" + text) == if Trim(text) == text then ParseU16(Trim(text)).value else 50051
  {
    var text := app.config.portText;
    var addr := app.config.host + ":" + text;
    PortHasNoColon(text);
    assert addr == app.config.host + [':'] + text;
    LastIndexAfter(app.config.host, ':', text);
    assert addr[|app.config.host| + 1..] == text;
    if ParseU16(text).Some? {
      ParsedNeedsNoTrim(text);
    }
  }

  /**
   From the form to the phone. If the pairing task finds the address that the form saved, the code it shows, read back,
   names the port that the form checked exactly if there was nothing to trim, or it is the default port anyway.
   */
  lemma AdvertisesCheckedPortIff(app: App, token: Plaintext, readOnly: bool, serial: nat, asked: AdvertiseTrust,
                                 at: QrSurroundings)
    requires ConfigSave(app).actions != [] && at.bindAddr == Some(app.config.host + ":" + app.config.portText)
    requires var m := BuildTokenQr(token, readOnly, serial, asked, at); m.TokenQrReady? && ParseUri(m.uri).Some?
    requires '&' !in at.advertiseHost
    requires at.fingerprint.Success? && at.fingerprint.value.Some? ==> '&' !in at.fingerprint.value.value
    ensures ParseU16(Trim(app.config.portText)).Some?
    ensures var text, code := app.config.portText, BuildTokenQr(token, readOnly, serial, asked, at).uri;
      var checked := ParseU16(Trim(text)).value;
      ParseUri(code).value.port == checked <==> Trim(text) == text || checked == 50051
  {
    SavedPortReadsAs(app);
    var m := BuildTokenQr(token, readOnly, serial, asked, at);
    var trust := CodeIsFound(token, readOnly, serial, asked, at);
    UriRoundTripIff(PairingParams(m.host, m.port, trust, token, readOnly, SERVER_LABEL));
    BindPortIsNamed(at.bindAddr.value);
  }

  /** Port 0 is saved. */
  lemma PortZeroIsSaved(config: ConfigState)
    requires config.host == "h" && config.portText == "0" && !config.loading
    ensures ConfigSave(INITIAL.(config := config)).actions == [SaveBind("h:0")]
  {
    assert ParseDecimal("0") == Some(0);
    assert "h" + ":" + "0" == "h:0";
  }

  /** A loaded port with a space before it is checked as 80, saved with the space, and advertised as the default. */
  lemma SpacedPortIsNotAdvertised(config: ConfigState)
    requires config.host == "h" && config.portText == " 80" && !config.loading
    ensures ConfigSave(INITIAL.(config := config)).actions == [SaveBind("h: 80")]
    ensures ParseU16(Trim(" 80")) == Some(80) && BindPort("h: 80") == 50051
  {
    var app := INITIAL.(config := config);
    assert " 80"[1..] == "80" && Trim("80") == "80";
    assert "80"[..1] == "8" && ParseDecimal("8") == Some(8) && ParseDecimal("80") == Some(80);
    assert "h" + ":" + " 80" == "h: 80";
    SavedPortReadsAs(app);
    LastIndexAfter("h", ':', " 80");
    assert "h" + [':'] + " 80" == "h: 80";
    assert "h: 80"[2..] == " 80";
    if ParseU16(" 80").Some? {
      ParsedNeedsNoTrim(" 80");
    }
  }

  // ─── Revoking ────────────────────────────────────────────────────────────────

  /** The token that a message asks to revoke. */
  function RevokeAsked(app: App, m: Message): Option<string> {
    if m.Key? && app.overlay.None? && app.screen == TokensScreen && app.tokens.formPhase == Browsing
       && (m.key.code == Char('d') || m.key.code == Char('x'))
       && !app.tokens.loading && app.tokens.cursor < |app.tokens.tokens|
    then Some(app.tokens.tokens[app.tokens.cursor].name)
    else None
  }

  predicate NoRevoke(actions: seq<Action>) {
    forall a | a in actions :: !a.RevokeToken?
  }

  lemma EnterRevokesNothing(app: App, screen: Screen)
    ensures NoRevoke(TransitionTo(app, screen).actions)
  {
  }

  lemma OtherScreensRevokeNothing(app: App, key: KeyEvent)
    ensures NoRevoke(HandleConfigKey(app, key).actions) && NoRevoke(HandleCertKey(app, key).actions)
    ensures NoRevoke(HandleServerKey(app, key).actions)
  {
  }

  lemma TokensKeyRevokesIff(app: App, key: KeyEvent, name: string)
    requires app.screen == TokensScreen && app.overlay.None?
    ensures RevokeToken(name) in HandleTokensKey(app, key).actions <==> RevokeAsked(app, Key(key)) == Some(name)
  {
  }

  lemma KeyRevokesIff(app: App, key: KeyEvent, name: string)
    ensures RevokeToken(name) in HandleKey(app, key).actions <==> RevokeAsked(app, Key(key)) == Some(name)
  {
    if app.overlay.Some? {
      if !(key.ctrl && key.code == Char('c')) {
        OverlayTakesAllKeys(app, key);
      }
    } else {
      EnterRevokesNothing(app, app.screen.Next());
      EnterRevokesNothing(app, app.screen.Prev());
      OtherScreensRevokeNothing(app, key);
      if app.screen == TokensScreen {
        TokensKeyRevokesIff(app, key, name);
      }
    }
  }

  /**
   A token is revoked by one thing only: `d` or `x` on the token list, with no overlay up and the list idle, and then it
   is the token under the cursor. Closing the overlay, in particular, revokes nothing.
   */
  lemma RevokesIff(app: App, m: Message, name: string)
    ensures RevokeToken(name) in Update(app, m).actions <==> RevokeAsked(app, m) == Some(name)
  {
    match m {
      case Key(key) => KeyRevokesIff(app, key, name);
      case NavTo(screen) => EnterRevokesNothing(app, screen);
      case _ =>
    }
  }

  // ─── Cursors ─────────────────────────────────────────────────────────────────

  predicate Within(cursor: nat, length: nat) {
    cursor < length || cursor == 0
  }

  predicate CursorsWithin(app: App) {
    Within(app.tokens.cursor, |app.tokens.tokens|) && Within(app.config.ipCursor, |app.config.reachableIps|)
  }

  lemma TurnedWithin(cursor: nat, length: nat, down: bool)
    requires Within(cursor, length)
    ensures Within(Turned(cursor, length, down), length)
  {
  }

  lemma PickerKeyCursors(app: App, code: KeyCode)
    requires CursorsWithin(app)
    ensures CursorsWithin(HandlePickerKey(app, code).app)
  {
    TurnedWithin(app.config.ipCursor, |app.config.reachableIps|, true);
    TurnedWithin(app.config.ipCursor, |app.config.reachableIps|, false);
  }

  lemma BrowsingKeyCursors(app: App, code: KeyCode)
    requires CursorsWithin(app)
    ensures CursorsWithin(HandleBrowsingKey(app, code).app)
  {
    TurnedWithin(app.tokens.cursor, |app.tokens.tokens|, true);
    TurnedWithin(app.tokens.cursor, |app.tokens.tokens|, false);
  }

  predicate SameLists(app: App, after: App) {
    && after.tokens.cursor == app.tokens.cursor && after.tokens.tokens == app.tokens.tokens
    && after.config.ipCursor == app.config.ipCursor && after.config.reachableIps == app.config.reachableIps
  }

  lemma SaveKeepsLists(app: App)
    ensures SameLists(app, ConfigSave(app).app) && SameLists(app, ConfigReload(app).app)
  {
  }

  lemma HostKeyKeepsLists(app: App, code: KeyCode)
    ensures SameLists(app, HandleHostKey(app, code).app)
  {
  }

  lemma PortKeyKeepsLists(app: App, code: KeyCode)
    ensures SameLists(app, HandlePortKey(app, code).app)
  {
  }

  lemma FormKeyKeepsLists(app: App, key: KeyEvent)
    ensures SameLists(app, HandleFormKey(app, key).app)
  {
  }

  lemma CertKeyKeepsLists(app: App, key: KeyEvent)
    ensures SameLists(app, HandleCertKey(app, key).app)
  {
  }

  lemma ServerKeyKeepsLists(app: App, key: KeyEvent)
    ensures SameLists(app, HandleServerKey(app, key).app)
  {
  }

  lemma EnterKeepsLists(app: App, screen: Screen)
    ensures SameLists(app, TransitionTo(app, screen).app)
  {
  }

  lemma ConfigKeyCursors(app: App, key: KeyEvent)
    requires CursorsWithin(app)
    ensures CursorsWithin(HandleConfigKey(app, key).app)
  {
    PickerKeyCursors(app, key.code);
    SaveKeepsLists(app);
    HostKeyKeepsLists(app, key.code);
    PortKeyKeepsLists(app, key.code);
  }

  lemma ScreenKeyCursors(app: App, key: KeyEvent)
    requires CursorsWithin(app)
    ensures CursorsWithin(HandleScreenKey(app, key).app)
  {
    match app.screen {
      case ConfigScreen => ConfigKeyCursors(app, key);
      case CertScreen => CertKeyKeepsLists(app, key);
      case ServerScreen => ServerKeyKeepsLists(app, key);
      case TokensScreen =>
        BrowsingKeyCursors(app, key.code);
        FormKeyKeepsLists(app, key);
      case Dashboard =>
        EnterKeepsLists(app, app.screen.Next());
        EnterKeepsLists(app, app.screen.Prev());
    }
  }

  lemma KeyCursors(app: App, key: KeyEvent)
    requires CursorsWithin(app)
    ensures CursorsWithin(HandleKey(app, key).app)
  {
    ScreenKeyCursors(app, key);
    EnterKeepsLists(app, app.screen.Next());
    EnterKeepsLists(app, app.screen.Prev());
  }

  lemma TickKeepsLists(app: App)
    ensures SameLists(app, HandleTick(app).app)
  {
  }

  lemma UpdateCursors(app: App, m: Message)
    requires CursorsWithin(app)
    ensures CursorsWithin(Update(app, m).app)
  {
    match m {
      case Key(key) => KeyCursors(app, key);
      case Tick => TickKeepsLists(app);
      case _ =>
    }
  }

  lemma {:induction false} CursorsRun(from: Ctl, steps: seq<Step>, to: Ctl)
    requires Run(from, steps, to) && CursorsWithin(from.app)
    ensures CursorsWithin(to.app)
    decreases |steps|
  {
    if steps != [] {
      if steps[0].Deliver? {
        UpdateCursors(from.app, from.inbox[0]);
      }
      CursorsRun(Apply(from, steps[0]), steps[1..], to);
    }
  }

  /** In every reachable state both cursors point into their lists, or are 0 where the list is empty. */
  lemma CursorsStayWithin(s: Ctl)
    requires Reachable(s)
    ensures CursorsWithin(s.app)
  {
    var from, steps :| Starts(from) && Run(from, steps, s);
    CursorsRun(from, steps, s);
  }
}
