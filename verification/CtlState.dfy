/** The control panel's state, its messages and the actions it asks the runner for. Status lines are display only and left out. */
module CtlState {
  import opened Common
  import opened PairingUri

  datatype Screen = Dashboard | ConfigScreen | CertScreen | TokensScreen | ServerScreen {
    function Next(): Screen {
      match this
      case Dashboard => ConfigScreen
      case ConfigScreen => CertScreen
      case CertScreen => TokensScreen
      case TokensScreen => ServerScreen
      case ServerScreen => Dashboard
    }

    function Prev(): Screen {
      match this
      case Dashboard => ServerScreen
      case ConfigScreen => Dashboard
      case CertScreen => ConfigScreen
      case TokensScreen => CertScreen
      case ServerScreen => TokensScreen
    }
  }

  datatype ServerInfo = ServerInfo(version: string, bindAddr: string, pid: nat, uptimeSecs: nat, clientCount: nat)

  datatype ConfigField = HostField | PortField | IpPicker

  /** The addresses of `reachableIps` are given by their text. */
  datatype ConfigState = ConfigState(
    host: string, portText: string, reachableIps: seq<string>, ipCursor: nat, focused: ConfigField,
    certDir: string, advertiseSans: seq<string>, loading: bool)

  datatype AdvertiseTrust = Auto | ForceCa | ForcePin {
    function Cycle(): AdvertiseTrust {
      match this
      case Auto => ForceCa
      case ForceCa => ForcePin
      case ForcePin => Auto
    }
  }

  datatype CertState = CertState(fingerprint: string, sans: seq<string>, loading: bool, advertiseTrust: AdvertiseTrust)

  datatype TokenRecord = TokenRecord(name: string, createdAt: string, readOnly: bool)

  /** A token's plaintext, given by its UTF-8 bytes. */
  type Plaintext = seq<byte>

  datatype Minted = Minted(name: string, token: Plaintext, readOnly: bool)

  datatype FormPhase = Browsing | Creating

  datatype TokensState = TokensState(
    tokens: seq<TokenRecord>, cursor: nat, loading: bool, lastMinted: Option<Minted>,
    formPhase: FormPhase, formName: string, formReadOnly: bool)

  datatype QrPhase =
    | Generating
    | Showing(uri: string, host: string, port: port, fingerprintShort: string)
    | Connected
    | Failed(err: string)

  /** `serial` is the overlay's sequence number. */
  datatype QrOverlay = QrOverlay(
    phase: QrPhase, serial: nat, baseline: nat, tokenName: string, readOnly: bool, tickCounter: nat)

  datatype ServerPanel = ServerPanel(status: Option<ServerInfo>, stopped: bool, loading: bool, tickCounter: nat)

  datatype App = App(
    screen: Screen, shouldQuit: bool, config: ConfigState, cert: CertState, server: ServerPanel,
    tokens: TokensState, overlay: Option<QrOverlay>, qrSeq: nat)
  {
    /** A printable key goes to a text field. */
    predicate IsTextEditing() {
      match screen
      case ConfigScreen => config.focused == HostField || config.focused == PortField
      case TokensScreen => tokens.formPhase == Creating
      case _ => false
    }
  }

  const INITIAL: App :=
    App(Dashboard, false,
        ConfigState("", "", [], 0, HostField, "", [], false),
        CertState("", [], false, Auto),
        ServerPanel(None, false, false, 0),
        TokensState([], 0, false, None, Browsing, "", false),
        None, 0)

  datatype KeyCode =
    | Char(c: char) | Enter | Esc | Backspace | Tab | BackTab | Up | Down | Left | Right | OtherKey

  datatype KeyEvent = KeyEvent(code: KeyCode, ctrl: bool)

  datatype ConfigSnapshot = ConfigSnapshot(
    bindAddr: string, certDir: string, reachableIps: seq<string>, advertiseSans: seq<string>)

  datatype Message =
    | Key(key: KeyEvent)
    | Tick
    | Quit
    | NavTo(to: Screen)
    | StatusLoaded(info: Option<ServerInfo>)
    | ConfigLoaded(snapshot: ConfigSnapshot)
    | CertEnsured(fingerprint: string, sans: seq<string>)
    | CertInfoLoaded(known: Option<string>, sans: seq<string>)
    | ActionFailed
    | ActionOk
    | TokensLoaded(records: seq<TokenRecord>)
    | TokenCreated(minted: Minted)
    | TokensChanged
    | TokenQrReady(uri: string, host: string, port: port, fingerprintShort: string, baseline: nat, serial: nat)
    | TokenQrFailed(err: string, serial: nat)

  datatype Action =
    | QuitLoop
    | RefreshStatus
    | StartServer
    | StopServer
    | LoadConfig
    | SaveBind(addr: string)
    | EnsureCert
    | LoadTokens
    | CreateToken(name: Option<string>, readOnly: bool)
    | RevokeToken(tokenName: string)
    | ShowTokenQr(token: Plaintext, readOnly: bool, serial: nat, trust: AdvertiseTrust)
    | LoadCertInfo
    | SaveAdvertiseTrust(trust: AdvertiseTrust)

  // ─── Text ────────────────────────────────────────────────────────────────────

  predicate IsSpace(c: char) {
    var n := c as int;
    || 9 <= n <= 13 || n == 32 || n == 0x85 || n == 0xA0 || n == 0x1680 || 0x2000 <= n <= 0x200A
    || n == 0x2028 || n == 0x2029 || n == 0x202F || n == 0x205F || n == 0x3000
  }

  function Trim(s: string): string {
    if s == "" then ""
    else if IsSpace(s[0]) then Trim(s[1..])
    else if IsSpace(s[|s| - 1]) then Trim(s[..|s| - 1])
    else s
  }

  /** Rust's `parse::<u16>`: an optional plus sign, then digits, below 65536. */
  function ParseU16(s: string): Option<port> {
    PortOf(if s != "" && s[0] == '+' then s[1..] else s)
  }

  function Pop(s: string): string {
    if s == "" then "" else s[..|s| - 1]
  }

  /** The last place of `c` in `s`. */
  function LastIndex(s: string, c: char): (i: Option<nat>)
    ensures i.None? ==> c !in s
    ensures i.Some? ==> i.value < |s| && s[i.value] == c && c !in s[i.value + 1..]
  {
    if s == "" then None
    else if s[|s| - 1] == c then Some(|s| - 1)
    else
      assert s == s[..|s| - 1] + [s[|s| - 1]];
      LastIndex(s[..|s| - 1], c)
  }

  lemma {:induction false} LastIndexAfter(a: string, c: char, b: string)
    requires c !in b
    ensures LastIndex(a + [c] + b, c) == Some(|a|)
    decreases |b|
  {
    var s := a + [c] + b;
    if b == "" {
      assert s[|s| - 1] == c;
    } else {
      var front := b[..|b| - 1];
      assert s[..|s| - 1] == a + [c] + front;
      assert s[|s| - 1] == b[|b| - 1] && b[|b| - 1] in b;
      LastIndexAfter(a, c, front);
    }
  }

  /** Trimming takes spaces off both ends and nothing else. */
  lemma {:induction false} TrimmedIs(s: string) returns (before: string, after: string)
    ensures s == before + Trim(s) + after
    ensures (forall c | c in before :: IsSpace(c)) && (forall c | c in after :: IsSpace(c))
    ensures Trim(s) != "" ==> !IsSpace(Trim(s)[0]) && !IsSpace(Trim(s)[|Trim(s)| - 1])
    decreases |s|
  {
    before, after := "", "";
    if s == "" {
    } else if IsSpace(s[0]) {
      before, after := TrimmedIs(s[1..]);
      assert s == [s[0]] + s[1..];
      before := [s[0]] + before;
    } else if IsSpace(s[|s| - 1]) {
      before, after := TrimmedIs(s[..|s| - 1]);
      assert s == s[..|s| - 1] + [s[|s| - 1]];
      after := after + [s[|s| - 1]];
    }
  }

  /** A 16-bit number reads as itself, with or without a plus sign; a larger one does not read. */
  lemma ParseU16Is(n: nat)
    ensures ParseU16(Decimal(n)) == (if n <= 65535 then Some(n) else None)
    ensures ParseU16("+" + Decimal(n)) == (if n <= 65535 then Some(n) else None)
  {
    DecimalRoundTrip(n);
    assert Decimal(n)[0] in Decimal(n);
    assert ("+" + Decimal(n))[1..] == Decimal(n);
  }
}
