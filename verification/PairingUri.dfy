/**
 The pairing URI: base64url without padding (section 5 of RFC 4648), percent-encoding (sections 2.1 and 2.3 of RFC 3986)
 and `to_uri`, with the reader that splits at `?` and `&` and undoes both encodings.
 */
module PairingUri {
  import opened Common
  import opened SessionIds

  type byte = x: int | 0 <= x < 256

  type sextet = x: int | 0 <= x < 64

  datatype PairingTrust = Pin(fingerprint: string) | Ca

  type port = x: int | 0 <= x < 65536

  /** The token and the server's name are given by their UTF-8 bytes. */
  datatype PairingParams = PairingParams(
    host: string, port: port, trust: PairingTrust, token: seq<byte>, readOnly: bool, name: seq<byte>)

  // ─── base64url ───────────────────────────────────────────────────────────────

  function B64Char(n: sextet): (c: char) {
    if n < 26 then 'A' + n as char
    else if n < 52 then 'a' + (n - 26) as char
    else if n < 62 then '0' + (n - 52) as char
    else if n == 62 then '-' else '_'
  }

  function B64Value(c: char): Option<sextet> {
    if 'A' <= c <= 'Z' then Some((c - 'A') as int)
    else if 'a' <= c <= 'z' then Some((c - 'a') as int + 26)
    else if '0' <= c <= '9' then Some((c - '0') as int + 52)
    else if c == '-' then Some(62)
    else if c == '_' then Some(63)
    else None
  }

  /** The high bits of a byte are the low bits of one digit, its low bits the high bits of the next. */
  function Digit0(b0: byte): sextet { b0 / 4 }
  function Digit1(b0: byte, b1: byte): sextet { b0 % 4 * 16 + b1 / 16 }
  function Digit2(b1: byte, b2: byte): sextet { b1 % 16 * 4 + b2 / 64 }
  function Digit3(b2: byte): sextet { b2 % 64 }

  function Byte0(v0: sextet, v1: sextet): byte { (v0 as int) * 4 + v1 / 16 }
  function Byte1(v1: sextet, v2: sextet): byte { (v1 as int) % 16 * 16 + v2 / 4 }
  function Byte2(v2: sextet, v3: sextet): byte { (v2 as int) % 4 * 64 + v3 }

  /** Three bytes become four digits; a last group of one or two bytes becomes two or three, with zero bits added. */
  function Sextets(bytes: seq<byte>): seq<sextet> {
    if bytes == [] then []
    else if |bytes| == 1 then [Digit0(bytes[0]), Digit1(bytes[0], 0)]
    else if |bytes| == 2 then [Digit0(bytes[0]), Digit1(bytes[0], bytes[1]), Digit2(bytes[1], 0)]
    else
      [Digit0(bytes[0]), Digit1(bytes[0], bytes[1]), Digit2(bytes[1], bytes[2]), Digit3(bytes[2])] + Sextets(bytes[3..])
  }

  /** The reverse: unused bits must be zero, and one digit alone is no group. */
  function BytesOf(v: seq<sextet>): Option<seq<byte>> {
    if v == [] then Some([])
    else if |v| == 1 then None
    else if |v| == 2 then if v[1] % 16 == 0 then Some([Byte0(v[0], v[1])]) else None
    else if |v| == 3 then if v[2] % 4 == 0 then Some([Byte0(v[0], v[1]), Byte1(v[1], v[2])]) else None
    else
      match BytesOf(v[4..])
      case None => None
      case Some(rest) => Some([Byte0(v[0], v[1]), Byte1(v[1], v[2]), Byte2(v[2], v[3])] + rest)
  }

  function B64Encode(bytes: seq<byte>): string {
    var v := Sextets(bytes);
    seq(|v|, i requires 0 <= i < |v| => B64Char(v[i]))
  }

  function B64Values(s: string): Option<seq<sextet>> {
    if s == "" then Some([])
    else
      match (B64Value(s[0]), B64Values(s[1..]))
      case (Some(v), Some(vs)) => Some([v] + vs)
      case _ => None
  }

  function B64Decode(s: string): Option<seq<byte>> {
    match B64Values(s)
    case None => None
    case Some(v) => BytesOf(v)
  }

  lemma {:induction false} ValuesOfDigits(s: string, v: seq<sextet>)
    requires |s| == |v| && forall i | 0 <= i < |v| :: s[i] == B64Char(v[i])
    ensures B64Values(s) == Some(v)
  {
    if v != [] {
      ValuesOfDigits(s[1..], v[1..]);
      assert v == [v[0]] + v[1..];
    }
  }

  lemma Repack(b0: byte, b1: byte, b2: byte)
    ensures Byte0(Digit0(b0), Digit1(b0, b1)) == b0
    ensures Byte1(Digit1(b0, b1), Digit2(b1, b2)) == b1
    ensures Byte2(Digit2(b1, b2), Digit3(b2)) == b2
  {
  }

  lemma GroupOfSextets(v0: sextet, v1: sextet, v2: sextet, v3: sextet, rest: seq<sextet>)
    requires BytesOf(rest).Some?
    ensures BytesOf([v0, v1, v2, v3] + rest) == Some([Byte0(v0, v1), Byte1(v1, v2), Byte2(v2, v3)] + BytesOf(rest).value)
  {
    assert ([v0, v1, v2, v3] + rest)[4..] == rest;
  }

  lemma LastOne(b0: byte)
    ensures BytesOf([Digit0(b0), Digit1(b0, 0)]) == Some([b0])
  {
  }

  lemma LastTwo(b0: byte, b1: byte)
    ensures BytesOf([Digit0(b0), Digit1(b0, b1), Digit2(b1, 0)]) == Some([b0, b1])
  {
    Repack(b0, b1, 0);
  }

  lemma SextetsOfGroup(bytes: seq<byte>)
    requires |bytes| > 2
    ensures var b0, b1, b2 := bytes[0], bytes[1], bytes[2];
      Sextets(bytes) == [Digit0(b0), Digit1(b0, b1), Digit2(b1, b2), Digit3(b2)] + Sextets(bytes[3..])
  {
  }

  lemma {:induction false} BytesOfSextets(bytes: seq<byte>)
    ensures BytesOf(Sextets(bytes)) == Some(bytes)
  {
    if |bytes| > 2 {
      var b0, b1, b2, rest := bytes[0], bytes[1], bytes[2], bytes[3..];
      BytesOfSextets(rest);
      SextetsOfGroup(bytes);
      Repack(b0, b1, b2);
      GroupOfSextets(Digit0(b0), Digit1(b0, b1), Digit2(b1, b2), Digit3(b2), Sextets(rest));
      assert bytes == [b0, b1, b2] + rest;
    } else if |bytes| == 2 {
      LastTwo(bytes[0], bytes[1]);
      assert bytes == [bytes[0], bytes[1]];
    } else if |bytes| == 1 {
      LastOne(bytes[0]);
      assert bytes == [bytes[0]];
    }
  }

  lemma B64RoundTrip(bytes: seq<byte>)
    ensures B64Decode(B64Encode(bytes)) == Some(bytes)
  {
    ValuesOfDigits(B64Encode(bytes), Sextets(bytes));
    BytesOfSextets(bytes);
  }

  // ─── Percent-encoding ────────────────────────────────────────────────────────

  predicate IsUnreserved(b: byte) {
    0x41 <= b <= 0x5A || 0x61 <= b <= 0x7A || 0x30 <= b <= 0x39 || b == 0x2D || b == 0x5F || b == 0x2E || b == 0x7E
  }

  function HexChar(n: nat): char
    requires n < 16
  {
    if n < 10 then '0' + n as char else 'A' + (n - 10) as char
  }

  function HexValue(c: char): (n: Option<nat>)
    ensures n.Some? ==> n.value < 16
  {
    if '0' <= c <= '9' then Some((c - '0') as int)
    else if 'A' <= c <= 'F' then Some((c - 'A') as int + 10)
    else if 'a' <= c <= 'f' then Some((c - 'a') as int + 10)
    else None
  }

  function PctByte(b: byte): string {
    if IsUnreserved(b) then [b as char] else ['%', HexChar(b / 16), HexChar(b % 16)]
  }

  function PctEncoded(bytes: seq<byte>): string {
    if bytes == [] then "" else PctByte(bytes[0]) + PctEncoded(bytes[1..])
  }

  lemma EncodedStep(bytes: seq<byte>, i: nat, out: string)
    requires i < |bytes|
    ensures out + PctEncoded(bytes[i..]) == out + PctByte(bytes[i]) + PctEncoded(bytes[i + 1..])
  {
    assert bytes[i..][1..] == bytes[i + 1..];
  }

  /** `percent_encode`. */
  method PercentEncode(bytes: seq<byte>) returns (out: string)
    ensures out == PctEncoded(bytes)
  {
    out := "";
    for i := 0 to |bytes|
      invariant out + PctEncoded(bytes[i..]) == PctEncoded(bytes)
    {
      var b := bytes[i];
      ghost var was := out;
      EncodedStep(bytes, i, out);
      if IsUnreserved(b) {
        out := out + [b as char];
      } else {
        out := out + ['%', HexChar(b / 16), HexChar(b % 16)];
      }
      assert out == was + PctByte(b);
    }
  }

  function PctDecode(s: string): Option<seq<byte>> {
    if s == "" then Some([])
    else if s[0] != '%' then
      if s[0] as int >= 256 then None
      else match PctDecode(s[1..]) case Some(rest) => Some([s[0] as int] + rest) case None => None
    else if |s| < 3 then None
    else
      match (HexValue(s[1]), HexValue(s[2]), PctDecode(s[3..]))
      case (Some(h), Some(l), Some(rest)) => Some([h * 16 + l] + rest)
      case _ => None
  }

  lemma {:induction false} PctRoundTrip(bytes: seq<byte>)
    ensures PctDecode(PctEncoded(bytes)) == Some(bytes)
  {
    if bytes != [] {
      PctRoundTrip(bytes[1..]);
      var b, rest := bytes[0], PctEncoded(bytes[1..]);
      var t := PctByte(b) + rest;
      assert bytes == [b] + bytes[1..];
      if IsUnreserved(b) {
        assert t[1..] == rest;
      } else {
        assert t[3..] == rest;
      }
    }
  }

  // ─── Decimal ports ───────────────────────────────────────────────────────────

  function Decimal(n: nat): string {
    if n < 10 then ['0' + n as char] else Decimal(n / 10) + ['0' + (n % 10) as char]
  }

  function ParseDecimal(s: string): Option<nat> {
    if s == "" then None
    else
      var c := s[|s| - 1];
      if !('0' <= c <= '9') then None
      else if |s| == 1 then Some((c - '0') as int)
      else match ParseDecimal(s[..|s| - 1])
        case None => None
        case Some(n) => Some(n * 10 + (c - '0') as int)
  }

  lemma {:induction false} DecimalRoundTrip(n: nat)
    ensures ParseDecimal(Decimal(n)) == Some(n) && Decimal(n) != ""
    ensures forall c | c in Decimal(n) :: '0' <= c <= '9'
  {
    if n >= 10 {
      DecimalRoundTrip(n / 10);
      var s := Decimal(n);
      assert s[..|s| - 1] == Decimal(n / 10);
    }
  }

  // ─── The URI ─────────────────────────────────────────────────────────────────

  const SCHEME: string := "muxr://pair"

  function Flag(b: bool): string {
    if b then "1" else "0"
  }

  function TrustSuffix(trust: PairingTrust): string {
    match trust
    case Pin(fp) => "tm=pin&fp=" + fp
    case Ca => "tm=ca"
  }

  /** `PairingParams::to_uri`. */
  function ToUri(p: PairingParams): string {
    SCHEME + "?v=2&h=" + p.host + "&p=" + Decimal(p.port) + "&t=" + B64Encode(p.token) + "&ro=" + Flag(p.readOnly)
    + "&n=" + PctEncoded(p.name) + "&" + TrustSuffix(p.trust)
  }

  // ─── The reader ──────────────────────────────────────────────────────────────

  type Field = (string, string)

  function Split(s: string, sep: char): (parts: seq<string>)
    ensures parts != []
    decreases |s|
  {
    match SplitOnce(s, sep)
    case None => [s]
    case Some((first, rest)) => [first] + Split(rest, sep)
  }

  /** A part without `=` is a key without a value. */
  function FieldOf(part: string): Field {
    match SplitOnce(part, '=')
    case None => (part, "")
    case Some(f) => f
  }

  function FieldsOf(parts: seq<string>): seq<Field> {
    seq(|parts|, i requires 0 <= i < |parts| => FieldOf(parts[i]))
  }

  function Lookup(fields: seq<Field>, key: string): Option<string> {
    if fields == [] then None
    else if fields[0].0 == key then Some(fields[0].1)
    else Lookup(fields[1..], key)
  }

  function TrustOf(fields: seq<Field>): Option<PairingTrust> {
    match (Lookup(fields, "tm"), Lookup(fields, "fp"))
    case (Some(tm), fp) =>
      if tm == "ca" then Some(Ca)
      else if tm == "pin" && fp.Some? then Some(Pin(fp.value))
      else None
    case _ => None
  }

  function FlagOf(s: string): Option<bool> {
    if s == "1" then Some(true) else if s == "0" then Some(false) else None
  }

  function PortOf(s: string): Option<port> {
    match ParseDecimal(s)
    case Some(n) => if n < 65536 then Some(n) else None
    case None => None
  }

  /** The parameters in the fields of a version 2 URI. */
  function ParamsOf(fields: seq<Field>): Option<PairingParams> {
    if Lookup(fields, "v") != Some("2") then None
    else
      match (Lookup(fields, "h"), Lookup(fields, "p"), Lookup(fields, "t"), Lookup(fields, "ro"), Lookup(fields, "n"))
      case (Some(h), Some(p), Some(t), Some(ro), Some(n)) =>
        (match (PortOf(p), TrustOf(fields), B64Decode(t), FlagOf(ro), PctDecode(n))
         case (Some(port), Some(trust), Some(token), Some(readOnly), Some(name)) =>
           Some(PairingParams(h, port, trust, token, readOnly, name))
         case _ => None)
      case _ => None
  }

  function QueryFields(uri: string): Option<seq<Field>> {
    match SplitOnce(uri, '?')
    case Some((scheme, query)) => if scheme == SCHEME then Some(FieldsOf(Split(query, '&'))) else None
    case None => None
  }

  function ParseUri(uri: string): Option<PairingParams> {
    match QueryFields(uri)
    case Some(fields) => ParamsOf(fields)
    case None => None
  }

  // ─── Splitting undoes joining ────────────────────────────────────────────────

  function Rendered(f: Field): string {
    f.0 + "=" + f.1
  }

  function Joined(fields: seq<Field>): string
    requires fields != []
  {
    if |fields| == 1 then Rendered(fields[0]) else Rendered(fields[0]) + "&" + Joined(fields[1..])
  }

  predicate Plain(f: Field) {
    '=' !in f.0 && '&' !in f.0 && '&' !in f.1
  }

  lemma PlainIsOnePart(f: Field)
    requires Plain(f)
    ensures '&' !in Rendered(f) && FieldOf(Rendered(f)) == f
  {
    SplitOnceUnique(f.0, '=', f.1);
    assert Rendered(f) == f.0 + ['='] + f.1;
  }

  lemma {:induction false} SplitUndoesJoin(fields: seq<Field>)
    requires fields != [] && forall f | f in fields :: Plain(f)
    ensures FieldsOf(Split(Joined(fields), '&')) == fields
  {
    var first := Rendered(fields[0]);
    assert Plain(fields[0]);
    PlainIsOnePart(fields[0]);
    if |fields| == 1 {
      assert Split(first, '&') == [first];
      assert fields == [fields[0]];
    } else {
      SplitUndoesJoin(fields[1..]);
      SplitsOffFirst(first, Joined(fields[1..]));
      assert fields == [fields[0]] + fields[1..];
    }
  }

  lemma SplitsOffFirst(first: string, rest: string)
    requires '&' !in first
    ensures FieldsOf(Split(first + "&" + rest, '&')) == [FieldOf(first)] + FieldsOf(Split(rest, '&'))
  {
    SplitOnceUnique(first, '&', rest);
    assert first + "&" + rest == first + ['&'] + rest;
    FieldsOfCons(first, Split(rest, '&'));
  }

  lemma FieldsOfCons(part: string, parts: seq<string>)
    ensures FieldsOf([part] + parts) == [FieldOf(part)] + FieldsOf(parts)
  {
  }

  function TrustFields(trust: PairingTrust): seq<Field> {
    match trust
    case Pin(fp) => [("tm", "pin"), ("fp", fp)]
    case Ca => [("tm", "ca")]
  }

  function UriFields(p: PairingParams): seq<Field> {
    [("v", "2"), ("h", p.host), ("p", Decimal(p.port)), ("t", B64Encode(p.token)), ("ro", Flag(p.readOnly)),
     ("n", PctEncoded(p.name))] + TrustFields(p.trust)
  }

  predicate Unambiguous(p: PairingParams) {
    '&' !in p.host && (p.trust.Pin? ==> '&' !in p.trust.fingerprint)
  }

  lemma B64NoSeparator(bytes: seq<byte>)
    ensures '&' !in B64Encode(bytes)
  {
    var v := Sextets(bytes);
    assert forall i | 0 <= i < |v| :: B64Char(v[i]) != '&';
  }

  lemma {:induction false} PctNoSeparator(bytes: seq<byte>)
    ensures '&' !in PctEncoded(bytes)
  {
    if bytes != [] {
      PctNoSeparator(bytes[1..]);
    }
  }

  lemma UriFieldsPlain(p: PairingParams)
    requires Unambiguous(p)
    ensures forall f | f in UriFields(p) :: Plain(f)
  {
    B64NoSeparator(p.token);
    PctNoSeparator(p.name);
    DecimalRoundTrip(p.port);
  }

  lemma JoinedTrust(trust: PairingTrust)
    ensures Joined(TrustFields(trust)) == TrustSuffix(trust)
  {
    if trust.Pin? {
      var fp := ("fp", trust.fingerprint);
      assert TrustFields(trust)[1..] == [fp];
      assert Joined([fp]) == "fp" + "=" + trust.fingerprint;
      assert "tm" + "=" + "pin" == "tm=pin";
      assert "tm=pin" + "&" + ("fp=" + trust.fingerprint) == "tm=pin&fp=" + trust.fingerprint;
    }
  }

  /** Take one more field, written with its separator as a literal, into a joined list. */
  lemma TakeIn(s: string, key: string, v: string, rest: seq<Field>)
    requires rest != []
    ensures s + ("&" + key + "=") + v + "&" + Joined(rest) == s + "&" + Joined([(key, v)] + rest)
  {
    assert ([(key, v)] + rest)[1..] == rest;
    assert Joined([(key, v)] + rest) == Rendered((key, v)) + "&" + Joined(rest);
    assert ("&" + key + "=") + v == "&" + Rendered((key, v));
  }

  /** The URI is its fields joined by `&`. */
  lemma UriIsJoined(p: PairingParams)
    ensures ToUri(p) == SCHEME + "?" + Joined(UriFields(p))
  {
    var s0 := SCHEME + "?v=2";
    var s1 := s0 + "&h=" + p.host;
    var s2 := s1 + "&p=" + Decimal(p.port);
    var s3 := s2 + "&t=" + B64Encode(p.token);
    var s4 := s3 + "&ro=" + Flag(p.readOnly);
    var f6 := TrustFields(p.trust);
    JoinedTrust(p.trust);
    var f5 := [("n", PctEncoded(p.name))] + f6;
    TakeIn(s4, "n", PctEncoded(p.name), f6);
    var f4 := [("ro", Flag(p.readOnly))] + f5;
    TakeIn(s3, "ro", Flag(p.readOnly), f5);
    var f3 := [("t", B64Encode(p.token))] + f4;
    TakeIn(s2, "t", B64Encode(p.token), f4);
    var f2 := [("p", Decimal(p.port))] + f3;
    TakeIn(s1, "p", Decimal(p.port), f3);
    var f1 := [("h", p.host)] + f2;
    TakeIn(s0, "h", p.host, f2);
    LiteralKeys();
    assert [("v", "2")] + f1 == UriFields(p);
    LeadingField(f1);
    LeadingHost(p.host);
  }

  lemma LiteralKeys()
    ensures "&" + "n" + "=" == "&n=" && "&" + "ro" + "=" == "&ro=" && "&" + "t" + "=" == "&t="
    ensures "&" + "p" + "=" == "&p=" && "&" + "h" + "=" == "&h="
  {}

  lemma LeadingField(rest: seq<Field>)
    requires rest != []
    ensures SCHEME + "?v=2" + "&" + Joined(rest) == SCHEME + "?" + Joined([("v", "2")] + rest)
  {
    assert ([("v", "2")] + rest)[1..] == rest;
    assert "v" + "=" + "2" == "v=2";
    assert SCHEME + "?v=2" == SCHEME + "?" + Rendered(("v", "2"));
  }

  lemma LeadingHost(host: string)
    ensures SCHEME + "?v=2&h=" + host == SCHEME + "?v=2" + "&h=" + host
  {
    assert SCHEME + "?v=2&h=" == SCHEME + "?v=2" + "&h=";
  }

  lemma FieldsOfUri(p: PairingParams)
    requires Unambiguous(p)
    ensures QueryFields(ToUri(p)) == Some(UriFields(p))
  {
    UriIsJoined(p);
    UriFieldsPlain(p);
    SplitUndoesJoin(UriFields(p));
    SplitOnceUnique(SCHEME, '?', Joined(UriFields(p)));
    assert SCHEME + "?" + Joined(UriFields(p)) == SCHEME + ['?'] + Joined(UriFields(p));
  }

  lemma LookupSkips(f: Field, rest: seq<Field>, key: string)
    ensures Lookup([f] + rest, key) == if f.0 == key then Some(f.1) else Lookup(rest, key)
  {
    assert ([f] + rest)[1..] == rest;
  }

  lemma LookupInUri(p: PairingParams, key: string)
    ensures Lookup(UriFields(p), key) ==
      if key == "v" then Some("2")
      else if key == "h" then Some(p.host)
      else if key == "p" then Some(Decimal(p.port))
      else if key == "t" then Some(B64Encode(p.token))
      else if key == "ro" then Some(Flag(p.readOnly))
      else if key == "n" then Some(PctEncoded(p.name))
      else Lookup(TrustFields(p.trust), key)
  {
    var f6 := TrustFields(p.trust);
    var f5 := [("n", PctEncoded(p.name))] + f6;
    var f4 := [("ro", Flag(p.readOnly))] + f5;
    var f3 := [("t", B64Encode(p.token))] + f4;
    var f2 := [("p", Decimal(p.port))] + f3;
    var f1 := [("h", p.host)] + f2;
    assert UriFields(p) == [("v", "2")] + f1;
    LookupSkips(("v", "2"), f1, key);
    LookupSkips(("h", p.host), f2, key);
    LookupSkips(("p", Decimal(p.port)), f3, key);
    LookupSkips(("t", B64Encode(p.token)), f4, key);
    LookupSkips(("ro", Flag(p.readOnly)), f5, key);
    LookupSkips(("n", PctEncoded(p.name)), f6, key);
  }

  lemma LookupTrust(trust: PairingTrust)
    ensures Lookup(TrustFields(trust), "tm") == Some(if trust.Pin? then "pin" else "ca")
    ensures Lookup(TrustFields(trust), "fp") == if trust.Pin? then Some(trust.fingerprint) else None
  {
    if trust.Pin? {
      assert TrustFields(trust)[1..] == [("fp", trust.fingerprint)];
    }
  }

  lemma ParamsOfUriFields(p: PairingParams)
    ensures ParamsOf(UriFields(p)) == Some(p)
  {
    LookupInUri(p, "v");
    LookupInUri(p, "h");
    LookupInUri(p, "p");
    LookupInUri(p, "t");
    LookupInUri(p, "ro");
    LookupInUri(p, "n");
    LookupInUri(p, "tm");
    LookupInUri(p, "fp");
    LookupTrust(p.trust);
    DecimalRoundTrip(p.port);
    B64RoundTrip(p.token);
    PctRoundTrip(p.name);
    assert TrustOf(UriFields(p)) == Some(p.trust);
  }

  // ─── What the reader returns never holds a separator ─────────────────────────

  lemma {:induction false} SplitHasNoSeparator(s: string, sep: char)
    ensures forall part | part in Split(s, sep) :: sep !in part
    decreases |s|
  {
    var split := SplitOnce(s, sep);
    if split.Some? {
      SplitHasNoSeparator(split.value.1, sep);
    }
  }

  lemma FieldInPart(part: string)
    ensures forall c | c in FieldOf(part).1 :: c in part
  {
  }

  lemma {:induction false} LookupIn(fields: seq<Field>, key: string)
    ensures Lookup(fields, key).Some? ==> exists i | 0 <= i < |fields| :: fields[i].1 == Lookup(fields, key).value
  {
    if fields != [] && fields[0].0 != key {
      LookupIn(fields[1..], key);
      if Lookup(fields, key).Some? {
        var i :| 0 <= i < |fields[1..]| && fields[1..][i].1 == Lookup(fields, key).value;
        assert fields[i + 1].1 == Lookup(fields, key).value;
      }
    }
  }

  lemma LookupHasNoSeparator(query: string, key: string)
    ensures var v := Lookup(FieldsOf(Split(query, '&')), key); v.Some? ==> '&' !in v.value
  {
    var parts := Split(query, '&');
    SplitHasNoSeparator(query, '&');
    LookupIn(FieldsOf(parts), key);
    forall part | part in parts ensures '&' !in FieldOf(part).1 {
      FieldInPart(part);
    }
  }

  lemma ParsedIsUnambiguous(uri: string)
    ensures ParseUri(uri).Some? ==> Unambiguous(ParseUri(uri).value)
  {
    var split := SplitOnce(uri, '?');
    if split.Some? {
      LookupHasNoSeparator(split.value.1, "h");
      LookupHasNoSeparator(split.value.1, "fp");
    }
  }

  // ─── Main results ────────────────────────────────────────────────────────────

  /** The URI gives every parameter back exactly when neither text written into it as it stands holds a separator. */
  lemma UriRoundTripIff(p: PairingParams)
    ensures ParseUri(ToUri(p)) == Some(p) <==> Unambiguous(p)
  {
    ParsedIsUnambiguous(ToUri(p));
    if Unambiguous(p) {
      FieldsOfUri(p);
      ParamsOfUriFields(p);
    }
  }

  lemma UriInjective(p: PairingParams, q: PairingParams)
    requires Unambiguous(p) && Unambiguous(q) && ToUri(p) == ToUri(q)
    ensures p == q
  {
    UriRoundTripIff(p);
    UriRoundTripIff(q);
  }

  /** The fingerprint field is there in the pinned trust mode only, and then holds the fingerprint. */
  lemma FingerprintIffPinned(p: PairingParams)
    requires Unambiguous(p)
    ensures QueryFields(ToUri(p)).Some?
    ensures var fields := QueryFields(ToUri(p)).value;
      && (Lookup(fields, "fp").Some? <==> Lookup(fields, "tm") == Some("pin"))
      && Lookup(fields, "fp") == (if p.trust.Pin? then Some(p.trust.fingerprint) else None)
  {
    FieldsOfUri(p);
    LookupInUri(p, "tm");
    LookupInUri(p, "fp");
    LookupTrust(p.trust);
  }

  /** A host with a separator in it is read back cut short. */
  lemma HostWithSeparatorIsCut()
    ensures var p := PairingParams("a&b", 1, Ca, [], false, []); ParseUri(ToUri(p)) != Some(p)
  {
    var p := PairingParams("a&b", 1, Ca, [], false, []);
    assert p.host[1] == '&';
    UriRoundTripIff(p);
  }

  // ─── The alphabets ───────────────────────────────────────────────────────────

  const BASE64URL: string := UPPER + LOWER + DIGITS + "-_"

  /** The digits are those of table 2 in section 5 of RFC 4648, without padding. */
  lemma B64Alphabet(bytes: seq<byte>)
    ensures forall i | 0 <= i < |B64Encode(bytes)| :: B64Encode(bytes)[i] == BASE64URL[Sextets(bytes)[i]]
  {
    forall n: sextet ensures B64Char(n) == BASE64URL[n] {
      B64CharIs(n);
    }
  }

  lemma B64CharIs(n: sextet)
    ensures B64Char(n) == BASE64URL[n]
  {
    if n < 26 {
      UpperAt(n);
    } else if n < 52 {
      LowerAt(n - 26);
    } else if n < 62 {
      DigitAt(n - 52);
    }
  }

  const HEX: string := "0123456789ABCDEF"

  /** Section 2.3 of RFC 3986: letters, digits, and these four stand for themselves; all else is `%` and two capital digits. */
  lemma PctByteIs(b: byte)
    ensures var letter := 65 <= b <= 90 || 97 <= b <= 122;
      var digit := 48 <= b <= 57;
      PctByte(b) == if letter || digit || (b as char) in "-._~" then [b as char] else ['%', HEX[b / 16], HEX[b % 16]]
  {
    var h, l := b / 16, b % 16;
    assert h < 10 ==> HEX[h] == '0' + h as char;
    assert h >= 10 ==> HEX[h] == 'A' + (h - 10) as char;
    assert l < 10 ==> HEX[l] == '0' + l as char;
    assert l >= 10 ==> HEX[l] == 'A' + (l - 10) as char;
  }

  /** A number is written without leading zeros. */
  lemma {:induction false} DecimalIsShort(n: nat)
    ensures Decimal(n) != "" && (n > 0 ==> Decimal(n)[0] != '0') && (n == 0 ==> Decimal(n) == "0")
  {
    if n >= 10 {
      DecimalIsShort(n / 10);
    }
  }
}
