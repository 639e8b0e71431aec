/** The control panel's state object and the handlers that change it in place, each tied to `CtlUpdate`. */
module CtlApp {
  import opened Common
  import opened CtlState
  import opened CtlUpdate

  class AppState {
    var screen: Screen
    var shouldQuit: bool
    var config: ConfigState
    var cert: CertState
    var server: ServerPanel
    var tokens: TokensState
    var overlay: Option<QrOverlay>
    var qrSeq: nat

    function View(): App
      reads this
    {
      App(screen, shouldQuit, config, cert, server, tokens, overlay, qrSeq)
    }

    constructor ()
      ensures View() == INITIAL
    {
      screen, shouldQuit := Dashboard, false;
      config := ConfigState("", "", [], 0, HostField, "", [], false);
      cert := CertState("", [], false, Auto);
      server := ServerPanel(None, false, false, 0);
      tokens := TokensState([], 0, false, None, Browsing, "", false);
      overlay, qrSeq := None, 0;
    }

    /** `update`. */
    method Update(m: Message) returns (actions: seq<Action>)
      modifies this
      ensures Turn(View(), actions) == CtlUpdate.Update(old(View()), m)
    {
      actions := [];
      match m {
        case Key(key) => actions := HandleKey(key);
        case Tick => actions := HandleTick();
        case Quit =>
          shouldQuit := true;
          actions := [QuitLoop];
        case NavTo(to) => actions := TransitionTo(to);
        case TokenQrReady(uri, host, port, short, baseline, serial) =>
          if overlay.Some? && overlay.value.serial == serial {
            overlay := Some(overlay.value.(baseline := baseline));
            overlay := Some(overlay.value.(phase := Showing(uri, host, port, short)));
          }
        case TokenQrFailed(err, serial) =>
          if overlay.Some? && overlay.value.serial == serial {
            overlay := Some(overlay.value.(phase := Failed(err)));
          }
        case _ => actions := TakeResult(m);
      }
    }

    /** The results of background tasks, but for the overlay's. */
    method TakeResult(m: Message) returns (actions: seq<Action>)
      requires !m.Key? && !m.Tick? && !m.Quit? && !m.NavTo? && !m.TokenQrReady? && !m.TokenQrFailed?
      modifies this
      ensures Turn(View(), actions) == CtlUpdate.Update(old(View()), m)
    {
      actions := [];
      match m {
        case StatusLoaded(info) =>
          if info.Some? {
            server := server.(status := info, stopped := false);
          } else {
            server := server.(status := None, stopped := true);
          }
          server := server.(loading := false);
          if info.Some? {
            CheckOverlayConnection(info.value.clientCount);
          }
        case ConfigLoaded(s) => FillConfig(s);
        case CertEnsured(fingerprint, sans) =>
          cert := cert.(fingerprint := fingerprint, sans := sans);
          cert := cert.(loading := false);
        case CertInfoLoaded(known, sans) =>
          cert := cert.(fingerprint := if known.Some? then known.value else "", sans := sans);
          cert := cert.(loading := false);
        case ActionFailed => ClearLoading();
        case ActionOk => ClearLoading();
        case TokensLoaded(records) =>
          tokens := tokens.(tokens := records);
          if tokens.cursor >= |tokens.tokens| {
            tokens := tokens.(cursor := if |tokens.tokens| == 0 then 0 else |tokens.tokens| - 1);
          }
          tokens := tokens.(loading := false);
        case TokenCreated(minted) =>
          tokens := tokens.(lastMinted := Some(minted), loading := false);
          tokens := tokens.(formPhase := Browsing, formName := "");
          actions := [LoadTokens];
        case TokensChanged =>
          tokens := tokens.(loading := false, lastMinted := None);
          actions := [LoadTokens];
        case _ =>
      }
    }

    method ClearLoading()
      modifies this
      ensures View() == AllIdle(old(View()))
    {
      config := config.(loading := false);
      cert := cert.(loading := false);
      server := server.(loading := false);
      tokens := tokens.(loading := false);
    }

    method FillConfig(s: ConfigSnapshot)
      modifies this
      ensures View() == old(View()).(config := OnConfig(old(config), s))
    {
      ApplyBindAddr(s.bindAddr);
      config := config.(certDir := s.certDir, reachableIps := s.reachableIps, advertiseSans := s.advertiseSans);
      if config.ipCursor >= |config.reachableIps| {
        config := config.(ipCursor := 0);
      }
      config := config.(loading := false);
    }

    /** `apply_bind_addr`. */
    method ApplyBindAddr(addr: string)
      modifies this
      ensures View() == old(View()).(config := CtlUpdate.ApplyBindAddr(old(config), addr))
    {
      var colon := LastIndex(addr, ':');
      if colon.Some? {
        config := config.(host := addr[..colon.value], portText := addr[colon.value + 1..]);
      } else {
        config := config.(host := addr, portText := "50051");
      }
    }

    /** `check_overlay_connection`. */
    method CheckOverlayConnection(clients: nat)
      modifies this
      ensures View() == old(View()).(overlay := CheckOverlay(old(overlay), clients))
    {
      if overlay.Some? && overlay.value.phase.Showing? && clients > overlay.value.baseline {
        overlay := Some(overlay.value.(phase := Connected));
      }
    }

    method TransitionTo(next: Screen) returns (actions: seq<Action>)
      modifies this
      ensures Turn(View(), actions) == CtlUpdate.TransitionTo(old(View()), next)
    {
      actions := OnEnterScreen(next);
      screen := next;
    }

    method OnEnterScreen(to: Screen) returns (actions: seq<Action>)
      modifies this
      ensures Turn(View(), actions) == CtlUpdate.OnEnterScreen(old(View()), to)
    {
      match to {
        case ConfigScreen =>
          config := config.(loading := true);
          actions := [LoadConfig];
        case ServerScreen =>
          server := server.(loading := true);
          server := server.(tickCounter := 0);
          actions := [RefreshStatus];
        case TokensScreen =>
          tokens := tokens.(loading := true, lastMinted := None);
          tokens := tokens.(formPhase := Browsing, formName := "");
          actions := [LoadTokens];
        case CertScreen =>
          config := config.(loading := true);
          actions := [LoadConfig];
        case Dashboard =>
          server := server.(loading := true);
          config := config.(loading := true);
          tokens := tokens.(loading := true);
          cert := cert.(loading := true);
          actions := [RefreshStatus, LoadConfig, LoadTokens, LoadCertInfo];
      }
    }

    method HandleTick() returns (actions: seq<Action>)
      modifies this
      ensures Turn(View(), actions) == CtlUpdate.HandleTick(old(View()))
    {
      actions := [];
      if (screen == ServerScreen || screen == Dashboard) && !server.loading {
        server := server.(tickCounter := Bump32(server.tickCounter));
        if server.tickCounter % TICKS_PER_POLL == 0 {
          server := server.(loading := true);
          actions := actions + [RefreshStatus];
        }
      }
      if !server.loading && overlay.Some? && overlay.value.phase.Showing? {
        overlay := Some(overlay.value.(tickCounter := Bump32(overlay.value.tickCounter)));
        if overlay.value.tickCounter % TICKS_PER_POLL == 0 {
          server := server.(loading := true);
          actions := actions + [RefreshStatus];
        }
      }
    }

    method HandleKey(key: KeyEvent) returns (actions: seq<Action>)
      modifies this
      ensures Turn(View(), actions) == CtlUpdate.HandleKey(old(View()), key)
    {
      if key.ctrl && key.code == Char('c') {
        shouldQuit := true;
        return [QuitLoop];
      }
      if overlay.Some? {
        if key.code == Esc || key.code == Char('q') {
          overlay := None;
        }
        return [];
      }
      if key.code == Char('q') && !View().IsTextEditing() {
        shouldQuit := true;
        return [QuitLoop];
      }
      match key.code {
        case Tab =>
          actions := TransitionTo(screen.Next());
          return;
        case BackTab =>
          actions := TransitionTo(screen.Prev());
          return;
        case _ =>
      }
      match screen {
        case ConfigScreen => actions := HandleConfigKey(key);
        case CertScreen => actions := HandleCertKey(key);
        case ServerScreen => actions := HandleServerKey(key);
        case TokensScreen => actions := HandleTokensKey(key);
        case Dashboard => actions := HandleNavKeys(key);
      }
    }

    method HandleNavKeys(key: KeyEvent) returns (actions: seq<Action>)
      modifies this
      ensures Turn(View(), actions) == CtlUpdate.HandleNavKeys(old(View()), key)
    {
      actions := [];
      if key.code == Right || key.code == Down {
        actions := TransitionTo(screen.Next());
      } else if key.code == Left || key.code == Up {
        actions := TransitionTo(screen.Prev());
      }
    }

    method HandleConfigKey(key: KeyEvent) returns (actions: seq<Action>)
      modifies this
      ensures Turn(View(), actions) == CtlUpdate.HandleConfigKey(old(View()), key)
    {
      if key.ctrl && (config.focused == HostField || config.focused == PortField) {
        if key.code == Char('s') {
          actions := ConfigSave();
          return;
        }
        if key.code == Char('r') {
          actions := ConfigReload();
          return;
        }
      }
      match config.focused {
        case HostField => actions := HandleHostKey(key.code);
        case PortField => actions := HandlePortKey(key.code);
        case IpPicker => actions := HandlePickerKey(key.code);
      }
    }

    method HandleHostKey(code: KeyCode) returns (actions: seq<Action>)
      modifies this
      ensures Turn(View(), actions) == CtlUpdate.HandleHostKey(old(View()), code)
    {
      actions := [];
      match code {
        case Tab => config := config.(focused := PortField);
        case Down => config := config.(focused := PortField);
        case Enter => actions := ConfigSave();
        case Backspace => config := config.(host := Pop(config.host));
        case Char(c) => config := config.(host := config.host + [c]);
        case _ =>
      }
    }

    method HandlePortKey(code: KeyCode) returns (actions: seq<Action>)
      modifies this
      ensures Turn(View(), actions) == CtlUpdate.HandlePortKey(old(View()), code)
    {
      actions := [];
      if code == Tab || code == Down {
        if |config.reachableIps| != 0 {
          config := config.(focused := IpPicker);
        }
      } else if code == Up || code == BackTab {
        config := config.(focused := HostField);
      } else if code == Enter {
        actions := ConfigSave();
      } else if code == Backspace {
        config := config.(portText := Pop(config.portText));
      } else if code.Char? && '0' <= code.c <= '9' {
        config := config.(portText := config.portText + [code.c]);
      }
    }

    method MoveIpCursor(down: bool)
      modifies this
      ensures View() == old(View()).(config := old(config).(
                          ipCursor := Turned(old(config).ipCursor, |old(config).reachableIps|, down)))
    {
      var length := |config.reachableIps|;
      if length != 0 {
        if down {
          config := config.(ipCursor := (config.ipCursor + 1) % length);
        } else {
          config := config.(ipCursor := (config.ipCursor + length - 1) % length);
        }
      }
    }

    method HandlePickerKey(code: KeyCode) returns (actions: seq<Action>)
      modifies this
      ensures Turn(View(), actions) == CtlUpdate.HandlePickerKey(old(View()), code)
    {
      actions := [];
      match code {
        case Down => MoveIpCursor(true);
        case Up => MoveIpCursor(false);
        case Tab => config := config.(focused := HostField);
        case BackTab => config := config.(focused := PortField);
        case Enter =>
          if config.ipCursor < |config.reachableIps| {
            config := config.(host := config.reachableIps[config.ipCursor]);
            config := config.(focused := PortField);
          }
        case Char(k) =>
          if k == 's' {
            actions := ConfigSave();
          } else if k == 'r' {
            actions := ConfigReload();
          }
        case _ =>
      }
    }

    method ConfigSave() returns (actions: seq<Action>)
      modifies this
      ensures Turn(View(), actions) == CtlUpdate.ConfigSave(old(View()))
    {
      if config.loading {
        return [];
      }
      if Trim(config.host) == "" {
        return [];
      }
      if ParseU16(Trim(config.portText)).None? {
        return [];
      }
      var addr := config.host + ":" + config.portText;
      config := config.(loading := true);
      return [SaveBind(addr)];
    }

    method ConfigReload() returns (actions: seq<Action>)
      modifies this
      ensures Turn(View(), actions) == CtlUpdate.ConfigReload(old(View()))
    {
      if config.loading {
        return [];
      }
      config := config.(loading := true);
      return [LoadConfig];
    }

    method HandleCertKey(key: KeyEvent) returns (actions: seq<Action>)
      modifies this
      ensures Turn(View(), actions) == CtlUpdate.HandleCertKey(old(View()), key)
    {
      actions := [];
      if key.code == Char('g') || key.code == Char('r') {
        if !cert.loading {
          cert := cert.(loading := true);
          actions := [EnsureCert];
        }
      } else if key.code == Char('t') {
        cert := cert.(advertiseTrust := cert.advertiseTrust.Cycle());
        actions := [SaveAdvertiseTrust(cert.advertiseTrust)];
      }
    }

    method HandleServerKey(key: KeyEvent) returns (actions: seq<Action>)
      modifies this
      ensures Turn(View(), actions) == CtlUpdate.HandleServerKey(old(View()), key)
    {
      actions := [];
      if key.code == Char('s') {
        if !server.loading {
          server := server.(loading := true);
          server := server.(stopped := false);
          actions := [StartServer];
        }
      } else if key.code == Char('x') {
        if !server.loading {
          server := server.(loading := true);
          actions := [StopServer];
        }
      } else if key.code == Char('r') {
        if !server.loading {
          server := server.(loading := true);
          actions := [RefreshStatus];
        }
      }
    }

    method HandleTokensKey(key: KeyEvent) returns (actions: seq<Action>)
      modifies this
      ensures Turn(View(), actions) == CtlUpdate.HandleTokensKey(old(View()), key)
    {
      match tokens.formPhase {
        case Browsing => actions := HandleBrowsingKey(key.code);
        case Creating => actions := HandleFormKey(key);
      }
    }

    method MoveCursor(down: bool)
      modifies this
      ensures View() == old(View()).(tokens := old(tokens).(cursor := Turned(old(tokens).cursor, |old(tokens).tokens|, down)))
    {
      var length := |tokens.tokens|;
      if length != 0 {
        if down {
          tokens := tokens.(cursor := (tokens.cursor + 1) % length);
        } else {
          tokens := tokens.(cursor := (tokens.cursor + length - 1) % length);
        }
      }
    }

    method HandleBrowsingKey(code: KeyCode) returns (actions: seq<Action>)
      modifies this
      ensures Turn(View(), actions) == CtlUpdate.HandleBrowsingKey(old(View()), code)
    {
      actions := [];
      if code == Down || code == Char('j') {
        MoveCursor(true);
      } else if code == Up || code == Char('k') {
        MoveCursor(false);
      } else if code == Char('c') {
        tokens := tokens.(formPhase := Creating);
        tokens := tokens.(formName := "", formReadOnly := false);
      } else if code == Char('d') || code == Char('x') {
        actions := RevokeSelected();
      } else if code == Char('r') {
        if !tokens.loading {
          tokens := tokens.(loading := true);
          actions := [LoadTokens];
        }
      } else if code == Enter {
        actions := ShowMinted();
      } else if code == Esc {
        tokens := tokens.(lastMinted := None);
      }
    }

    method RevokeSelected() returns (actions: seq<Action>)
      modifies this
      ensures actions == if !old(tokens).loading && old(tokens).cursor < |old(tokens).tokens|
                         then [RevokeToken(old(tokens).tokens[old(tokens).cursor].name)] else []
      ensures View() == if actions == [] then old(View())
                        else old(View()).(tokens := old(tokens).(loading := true, lastMinted := None))
    {
      if tokens.loading || tokens.cursor >= |tokens.tokens| {
        return [];
      }
      var name := tokens.tokens[tokens.cursor].name;
      tokens := tokens.(loading := true);
      tokens := tokens.(lastMinted := None);
      return [RevokeToken(name)];
    }

    method ShowMinted() returns (actions: seq<Action>)
      modifies this
      ensures Turn(View(), actions)
        == if old(tokens).lastMinted.Some? then OpenOverlay(old(View()), old(tokens).lastMinted.value) else Still(old(View()))
    {
      if tokens.lastMinted.None? {
        return [];
      }
      var minted := tokens.lastMinted.value;
      qrSeq := NextSerial(qrSeq);
      overlay := Some(QrOverlay(Generating, qrSeq, 0, minted.name, minted.readOnly, 0));
      return [ShowTokenQr(minted.token, minted.readOnly, qrSeq, cert.advertiseTrust)];
    }

    method HandleFormKey(key: KeyEvent) returns (actions: seq<Action>)
      modifies this
      ensures Turn(View(), actions) == CtlUpdate.HandleFormKey(old(View()), key)
    {
      actions := [];
      match key.code {
        case Esc => tokens := tokens.(formPhase := Browsing, formName := "");
        case Enter =>
          if !tokens.loading {
            var name := Trim(tokens.formName);
            tokens := tokens.(loading := true);
            actions := [CreateToken(if name == "" then None else Some(name), tokens.formReadOnly)];
          }
        case Backspace => tokens := tokens.(formName := Pop(tokens.formName));
        case Char(c) =>
          if key.ctrl && c == ' ' {
            tokens := tokens.(formReadOnly := !tokens.formReadOnly);
          } else {
            tokens := tokens.(formName := tokens.formName + [c]);
          }
        case _ =>
      }
    }
  }
}
