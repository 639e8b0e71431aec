/** The runner around `update`: background tasks, the message channel, and the result each task posts. */
module CtlRunner {
  import opened Common
  import opened PairingUri
  import opened CtlState
  import opened CtlUpdate

  // ─── What a task posts ───────────────────────────────────────────────────────

  datatype CertMode = SelfSigned | External | H2c

  /** What the pairing task finds out: the server, its configuration, its certificate and its clients. */
  datatype QrSurroundings = QrSurroundings(
    running: bool, bindAddr: Option<string>, advertiseHost: string,
    fingerprint: Result<Option<string>, string>, certMode: Option<CertMode>, clients: Option<nat>)

  const SERVER_LABEL: seq<byte> := [109, 117, 120, 114, 100]

  function BindPort(addr: string): port {
    match LastIndex(addr, ':')
    case Some(i) => (match ParseU16(addr[i + 1..]) case Some(port) => port case None => 50051)
    case None => 50051
  }

  function ResolveAutoTrust(mode: Option<CertMode>): bool {
    mode == None || mode == Some(SelfSigned)
  }

  /** The trust to write into the URI; a pin needs a certificate on disk. */
  function ResolveTrust(asked: AdvertiseTrust, at: QrSurroundings): Result<PairingTrust, string> {
    if asked == ForceCa || (asked == Auto && !ResolveAutoTrust(at.certMode)) then Success(Ca)
    else
      match at.fingerprint
      case Success(Some(fp)) => Success(Pin(fp))
      case Success(None) => Failure("No certificate yet")
      case Failure(e) => Failure(e)
  }

  function ShortFingerprint(trust: PairingTrust): string {
    match trust
    case Ca => "CA trust (no pin)"
    case Pin(fp) => if |fp| > 16 then fp[..16] + "\U{2026}" else fp
  }

  function BuildTokenQr(token: Plaintext, readOnly: bool, serial: nat, asked: AdvertiseTrust, at: QrSurroundings): Message {
    if !at.running then TokenQrFailed("Start the server first.", serial)
    else if at.bindAddr.None? then TokenQrFailed("config", serial)
    else
      match ResolveTrust(asked, at)
      case Failure(e) => TokenQrFailed(e, serial)
      case Success(trust) =>
        var port := BindPort(at.bindAddr.value);
        TokenQrReady(ToUri(PairingParams(at.advertiseHost, port, trust, token, readOnly, SERVER_LABEL)),
                     at.advertiseHost, port, ShortFingerprint(trust),
                     if at.clients.Some? then at.clients.value else 0, serial)
  }

  /** The runner starts a task for the action; the others are done on the spot and post nothing. */
  predicate Spawns(a: Action) {
    !a.QuitLoop? && !a.SaveAdvertiseTrust?
  }

  /** `m` is a message the task of `a` can post, the pairing task left out. */
  predicate PlainPosts(a: Action, m: Message) {
    match a
    case QuitLoop => false
    case SaveAdvertiseTrust(_) => false
    case RefreshStatus => m.StatusLoaded?
    case StartServer => m.StatusLoaded? || m.ActionFailed?
    case StopServer => m == StatusLoaded(None) || m.ActionFailed?
    case LoadConfig => m.ConfigLoaded? || m.ActionFailed?
    case SaveBind(_) => m.ActionOk? || m.ActionFailed?
    case EnsureCert => m.CertEnsured? || m.ActionFailed?
    case LoadTokens => m.TokensLoaded? || m.ActionFailed?
    case CreateToken(_, readOnly) => (m.TokenCreated? && m.minted.readOnly == readOnly) || m.ActionFailed?
    case RevokeToken(_) => m.TokensChanged? || m.ActionFailed?
    case LoadCertInfo => m.CertInfoLoaded? || m.ActionFailed?
    case ShowTokenQr(_, _, _, _) => false
  }

  /** The pairing task posts what it builds from its surroundings. */
  predicate PostsGiven(a: Action, m: Message, at: QrSurroundings) {
    if a.ShowTokenQr? then m == BuildTokenQr(a.token, a.readOnly, a.serial, a.trust, at) else PlainPosts(a, m)
  }

  /** `m` is a message the task of `a` can post. Each task posts one. */
  ghost predicate Posts(a: Action, m: Message) {
    if a.ShowTokenQr? then exists at :: m == BuildTokenQr(a.token, a.readOnly, a.serial, a.trust, at) else PlainPosts(a, m)
  }

  // ─── The composed system ─────────────────────────────────────────────────────

  /** What an overlay was opened for. */
  datatype Request = Request(token: Plaintext, readOnly: bool, trust: AdvertiseTrust)

  /**
   `tasks` and `inbox` are the pending tasks and the channel. Two histories: `requests` holds the request of each overlay
   opened so far, and `counts` the client counts reported since the code on show came up.
   */
  datatype Ctl = Ctl(app: App, tasks: seq<Action>, inbox: seq<Message>, requests: seq<Request>, counts: seq<nat>)

  /** The terminal posts a message, the loop takes one, or the task at place `i` ends with `m`. */
  datatype Step = Post(input: Message) | Deliver | Complete(i: nat, m: Message)

  predicate FromTerminal(m: Message) {
    m.Key? || m.Tick? || m.Quit? || m.NavTo?
  }

  ghost predicate Enabled(s: Ctl, step: Step) {
    match step
    case Post(m) => FromTerminal(m)
    case Deliver => s.inbox != []
    case Complete(i, m) => i < |s.tasks| && Posts(s.tasks[i], m)
  }

  function Without<T>(s: seq<T>, i: nat): seq<T>
    requires i < |s|
  {
    s[..i] + s[i + 1..]
  }

  function Spawned(actions: seq<Action>): seq<Action> {
    if actions == [] then []
    else (if Spawns(actions[0]) then [actions[0]] else []) + Spawned(actions[1..])
  }

  function Requests(actions: seq<Action>): seq<Request> {
    if actions == [] then []
    else
      (match actions[0]
       case ShowTokenQr(token, readOnly, _, trust) => [Request(token, readOnly, trust)]
       case _ => [])
      + Requests(actions[1..])
  }

  function CountsAfter(s: Ctl, m: Message): seq<nat> {
    match m
    case TokenQrReady(_, _, _, _, _, serial) => if IsCurrent(s.app, serial) then [] else s.counts
    case StatusLoaded(Some(info)) => s.counts + [info.clientCount]
    case _ => s.counts
  }

  function Delivered(s: Ctl): Ctl
    requires s.inbox != []
  {
    var m := s.inbox[0];
    var turn := Update(s.app, m);
    Ctl(turn.app, s.tasks + Spawned(turn.actions), s.inbox[1..], s.requests + Requests(turn.actions), CountsAfter(s, m))
  }

  ghost function Apply(s: Ctl, step: Step): Ctl
    requires Enabled(s, step)
  {
    match step
    case Post(m) => s.(inbox := s.inbox + [m])
    case Deliver => Delivered(s)
    case Complete(i, m) => s.(tasks := Without(s.tasks, i), inbox := s.inbox + [m])
  }

  /** Any trust mode may have been saved by an earlier process. */
  ghost predicate Starts(s: Ctl) {
    exists trust :: s == Ctl(INITIAL.(cert := INITIAL.cert.(advertiseTrust := trust)), [], [], [], [])
  }

  ghost predicate Run(from: Ctl, steps: seq<Step>, to: Ctl)
    decreases |steps|
  {
    if steps == [] then from == to
    else Enabled(from, steps[0]) && Run(Apply(from, steps[0]), steps[1..], to)
  }

  ghost predicate Reachable(s: Ctl) {
    exists from, steps :: Starts(from) && Run(from, steps, s)
  }

  lemma {:induction false} RunThenRun(a: Ctl, first: seq<Step>, b: Ctl, second: seq<Step>, c: Ctl)
    requires Run(a, first, b) && Run(b, second, c)
    ensures Run(a, first + second, c)
    decreases |first|
  {
    if first == [] {
      assert first + second == second;
    } else {
      RunThenRun(Apply(a, first[0]), first[1..], b, second, c);
      assert (first + second)[1..] == first[1..] + second;
    }
  }

  lemma ReachableStep(s: Ctl, step: Step)
    requires Reachable(s) && Enabled(s, step)
    ensures Reachable(Apply(s, step))
  {
    var next := Apply(s, step);
    var from, steps :| Starts(from) && Run(from, steps, s);
    assert [step][1..] == [];
    assert Run(next, [], next);
    assert Run(s, [step], next);
    RunThenRun(from, steps, s, [step], next);
  }
}
