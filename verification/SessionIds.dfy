/** Backend-qualified session ids: minting, resolving and the collapsed-backend test. */
module SessionIds {
  import opened Common

  datatype BackendKind = Zellij | Herdr

  /** The backends a server drives, in detection order; never empty. */
  type BackendSet = s: seq<BackendKind> | s != [] witness [Zellij]

  datatype IdError = InvalidArgument | NotFound

  datatype Target = Target(kind: BackendKind, bare: string)

  function KindName(kind: BackendKind): string {
    match kind
    case Zellij => "zellij"
    case Herdr => "herdr"
  }

  function ParseKind(s: string): Option<BackendKind> {
    if s == "zellij" then Some(Zellij)
    else if s == "herdr" then Some(Herdr)
    else None
  }

  /** Split at the first `sep`. */
  function SplitOnce(s: string, sep: char): (r: Option<(string, string)>)
    ensures r.None? <==> sep !in s
    ensures r.Some? ==> s == r.value.0 + [sep] + r.value.1 && sep !in r.value.0
  {
    if s == [] then None
    else if s[0] == sep then
      assert s == [] + [sep] + s[1..];
      Some(([], s[1..]))
    else
      match SplitOnce(s[1..], sep)
      case None => None
      case Some((a, b)) => Some(([s[0]] + a, b))
  }

  function MakeId(kind: BackendKind, bare: string): string {
    KindName(kind) + ":" + bare
  }

  predicate IsNameChar(c: char) {
    'A' <= c <= 'Z' || 'a' <= c <= 'z' || '0' <= c <= '9' || c == '_' || c == '-'
  }

  /** The session-name allowlist; it subsumes the check for empty, `.`, `..` and `/`. */
  predicate ValidName(name: string) {
    name != [] && forall c | c in name :: IsNameChar(c)
  }

  function ResolveSessionKind(backends: BackendSet, id: string): Result<Target, IdError> {
    var target :=
      match SplitOnce(id, ':')
      case Some((name, bare)) =>
        (match ParseKind(name)
         case None => Failure(InvalidArgument)
         case Some(kind) => if kind in backends then Success(Target(kind, bare)) else Failure(NotFound))
      case None =>
        if |backends| == 1 then Success(Target(backends[0], id)) else Failure(InvalidArgument);
    if target.Success? && !ValidName(target.value.bare) then Failure(InvalidArgument) else target
  }

  predicate IsCollapsedBackendSession(id: string) {
    var split := SplitOnce(id, ':');
    split.Some? && split.value.0 == "herdr"
  }

  // ─── Properties ──────────────────────────────────────────────────────────────

  /** A string splits in one way only into a part without `sep`, `sep`, and the rest. */
  lemma {:induction false} SplitOnceUnique(a: string, sep: char, b: string)
    requires sep !in a
    ensures SplitOnce(a + [sep] + b, sep) == Some((a, b))
  {
    var s := a + [sep] + b;
    if a == [] {
      assert s == [sep] + b;
    } else {
      assert s[1..] == a[1..] + [sep] + b && [a[0]] + a[1..] == a;
      SplitOnceUnique(a[1..], sep, b);
    }
  }

  lemma SplitMakeId(kind: BackendKind, bare: string)
    ensures SplitOnce(MakeId(kind, bare), ':') == Some((KindName(kind), bare))
  {
    SplitOnceUnique(KindName(kind), ':', bare);
  }

  /**
   Id routing inverse. Resolving succeeds with (k, b) exactly when b is a valid name and the id is the minted id of a
   running backend, or the bare name itself on a one-backend server.
   */
  lemma ResolveInvertsMakeId(backends: BackendSet, id: string, kind: BackendKind, bare: string)
    ensures ResolveSessionKind(backends, id) == Success(Target(kind, bare)) <==>
            && ValidName(bare)
            && ((kind in backends && id == MakeId(kind, bare))
                || (|backends| == 1 && backends[0] == kind && id == bare && ':' !in id))
  {
    SplitMakeId(kind, bare);
    var split := SplitOnce(id, ':');
    if split.Some? && ParseKind(split.value.0).Some? {
      assert id == MakeId(ParseKind(split.value.0).value, split.value.1);
    }
  }

  /** A minted id of a backend that is not running is `NotFound`, whatever its bare name. */
  lemma ResolveMintedId(backends: BackendSet, kind: BackendKind, bare: string)
    ensures ResolveSessionKind(backends, MakeId(kind, bare)) ==
            if kind !in backends then Failure(NotFound)
            else if ValidName(bare) then Success(Target(kind, bare))
            else Failure(InvalidArgument)
  {
    SplitMakeId(kind, bare);
  }

  /** No other id is `NotFound`. */
  lemma NotFoundIsMinted(backends: BackendSet, id: string) returns (kind: BackendKind, bare: string)
    requires ResolveSessionKind(backends, id) == Failure(NotFound)
    ensures kind !in backends && id == MakeId(kind, bare)
  {
    var split := SplitOnce(id, ':').value;
    kind, bare := ParseKind(split.0).value, split.1;
  }

  lemma MakeIdInjective(k1: BackendKind, b1: string, k2: BackendKind, b2: string)
    requires MakeId(k1, b1) == MakeId(k2, b2)
    ensures k1 == k2 && b1 == b2
  {
    SplitMakeId(k1, b1);
    SplitMakeId(k2, b2);
  }

  lemma CollapsedIffHerdr(kind: BackendKind, bare: string)
    ensures IsCollapsedBackendSession(MakeId(kind, bare)) <==> kind == Herdr
  {
    SplitMakeId(kind, bare);
  }

  /**
   Among the ids that resolve to herdr, the minted ones are classified as collapsed and the legacy bare ones are not.
   */
  lemma HerdrIdCollapsedIff(backends: BackendSet, id: string)
    requires var r := ResolveSessionKind(backends, id); r.Success? && r.value.kind == Herdr
    ensures IsCollapsedBackendSession(id) <==> ':' in id
  {
    var r := ResolveSessionKind(backends, id).value;
    ResolveInvertsMakeId(backends, id, Herdr, r.bare);
    CollapsedIffHerdr(Herdr, r.bare);
  }

  /** The client-count bucket of an id: the minted id of what it resolves to. */
  function CountKey(backends: BackendSet, id: string): string
    requires ResolveSessionKind(backends, id).Success?
  {
    var target := ResolveSessionKind(backends, id).value;
    MakeId(target.kind, target.bare)
  }

  /** A bare name and its qualified form share a bucket, and different sessions never do. */
  lemma CountKeysAgreeIff(backends: BackendSet, id1: string, id2: string)
    requires ResolveSessionKind(backends, id1).Success? && ResolveSessionKind(backends, id2).Success?
    ensures CountKey(backends, id1) == CountKey(backends, id2) <==>
            ResolveSessionKind(backends, id1) == ResolveSessionKind(backends, id2)
    ensures ResolveSessionKind(backends, CountKey(backends, id1)) == ResolveSessionKind(backends, id1)
  {
    var t1, t2 := ResolveSessionKind(backends, id1).value, ResolveSessionKind(backends, id2).value;
    if CountKey(backends, id1) == CountKey(backends, id2) {
      MakeIdInjective(t1.kind, t1.bare, t2.kind, t2.bare);
    }
    ResolveInvertsMakeId(backends, id1, t1.kind, t1.bare);
    ResolveInvertsMakeId(backends, CountKey(backends, id1), t1.kind, t1.bare);
  }

  /** The characters of a session name. */
  const NAME_CHARS: string := UPPER + LOWER + DIGITS + "_-"

  lemma NameCharIff(c: char)
    ensures IsNameChar(c) <==> c in NAME_CHARS
  {
    AlphabetIs(c);
    assert c in NAME_CHARS <==> c in UPPER || c in LOWER || c in DIGITS || c in "_-";
  }

  /** A name reaches a backend exactly if it is of the allowed characters, one at least: no separator, dot or colon among them. */
  lemma ResolvedNameIsSafe(backends: BackendSet, id: string)
    requires ResolveSessionKind(backends, id).Success?
    ensures var bare := ResolveSessionKind(backends, id).value.bare;
      && bare != "" && (forall c | c in bare :: c in NAME_CHARS)
      && '/' !in bare && '.' !in bare && ':' !in bare && '\\' !in bare
  {
    var bare := ResolveSessionKind(backends, id).value.bare;
    forall c | c in bare ensures c in NAME_CHARS {
      NameCharIff(c);
    }
  }

  /** Conversely every such name does, under its minted id. */
  lemma SafeNameResolves(backends: BackendSet, kind: BackendKind, bare: string)
    requires kind in backends && bare != "" && forall c | c in bare :: c in NAME_CHARS
    ensures ResolveSessionKind(backends, MakeId(kind, bare)) == Success(Target(kind, bare))
  {
    forall c | c in bare ensures IsNameChar(c) {
      NameCharIff(c);
    }
    ResolveMintedId(backends, kind, bare);
  }

  /** The written form of an id. */
  lemma IdForm(bare: string)
    ensures MakeId(Zellij, bare) == "zellij:" + bare && MakeId(Herdr, bare) == "herdr:" + bare
  {
    assert "zellij" + ":" == "zellij:" && "herdr" + ":" == "herdr:";
  }
}
