/** The framing of the control socket: a 32-bit little-endian length, then that many bytes. */
module Framing {
  import opened Common

  type byte = x: int | 0 <= x < 256

  const MAX_CONTROL_MSG: nat := 65536

  datatype FrameError = TooLarge | Truncated | Oversized(length: nat)

  // ─── The byte form ───────────────────────────────────────────────────────────

  function Le32(n: nat): seq<byte>
    requires n < 0x1_0000_0000
  {
    [n % 256, n / 256 % 256, n / 65536 % 256, n / 16777216]
  }

  function FromLe32(b: seq<byte>): nat
    requires |b| == 4
  {
    var (b0: int, b1: int, b2: int, b3: int) := (b[0], b[1], b[2], b[3]);
    b0 + 256 * b1 + 65536 * b2 + 16777216 * b3
  }

  function FrameOf(body: seq<byte>): seq<byte>
    requires |body| < 0x1_0000_0000
  {
    Le32(|body|) + body
  }

  lemma Le32RoundTrip(n: nat)
    requires n < 0x1_0000_0000
    ensures FromLe32(Le32(n)) == n
  {
    var a, b := n / 256, n / 65536;
    assert n == 256 * a + n % 256 && a == 256 * (a / 256) + a % 256 && a / 256 == b;
    assert b == 256 * (b / 256) + b % 256 && b / 256 == n / 16777216;
  }

  /** The bytes of a list of frames. */
  function Wire(bodies: seq<seq<byte>>): seq<byte>
    requires forall b | b in bodies :: |b| <= MAX_CONTROL_MSG
  {
    if bodies == [] then [] else FrameOf(bodies[0]) + Wire(bodies[1..])
  }

  /** What one read makes of the bytes in front of it: the result, and how many bytes it takes. */
  function Parse(s: seq<byte>): (r: (Result<seq<byte>, FrameError>, nat))
    ensures r.1 <= |s|
    ensures r.0.Success? ==> r.1 == 4 + |r.0.value| && |r.0.value| <= MAX_CONTROL_MSG
  {
    if |s| < 4 then (Failure(Truncated), |s|)
    else
      var n := FromLe32(s[..4]);
      if n > MAX_CONTROL_MSG then (Failure(Oversized(n)), 4)
      else if |s| < 4 + n then (Failure(Truncated), |s|)
      else (Success(s[4..4 + n]), 4 + n)
  }

  // ─── The stream ──────────────────────────────────────────────────────────────

  /** A byte stream: what has been written, and how much of it has been read. */
  class Stream {
    var data: seq<byte>
    var pos: nat

    ghost predicate Valid() reads this {
      pos <= |data|
    }

    ghost function Unread(): seq<byte>
      reads this
      requires Valid()
    {
      data[pos..]
    }

    constructor (bytes: seq<byte>)
      ensures Valid() && data == bytes && pos == 0
    {
      data, pos := bytes, 0;
    }

    method WriteAll(bytes: seq<byte>)
      modifies this`data
      ensures data == old(data) + bytes
    {
      data := data + bytes;
    }

    /** `read_exact`: all of the bytes asked for, or an error with the stream used up. */
    method ReadExact(n: nat) returns (r: Option<seq<byte>>)
      requires Valid()
      modifies this`pos
      ensures Valid()
      ensures |old(Unread())| >= n ==> r == Some(old(Unread())[..n]) && pos == old(pos) + n
      ensures |old(Unread())| < n ==> r == None && pos == |data|
    {
      if |data| - pos < n {
        pos := |data|;
        return None;
      }
      r := Some(data[pos..pos + n]);
      assert data[pos..][..n] == data[pos..pos + n];
      pos := pos + n;
    }

    /** `write_msg` after serialization; the 64 KiB bound is not applied here. */
    method WriteMsg(body: seq<byte>) returns (r: Result<(), FrameError>)
      modifies this`data
      ensures |body| < 0x1_0000_0000 ==> r == Success(()) && data == old(data) + FrameOf(body)
      ensures |body| >= 0x1_0000_0000 ==> r == Failure(TooLarge) && data == old(data)
    {
      if |body| >= 0x1_0000_0000 {
        return Failure(TooLarge);
      }
      WriteAll(Le32(|body|));
      WriteAll(body);
      return Success(());
    }

    /** `read_msg` before deserialization. */
    method ReadMsg() returns (r: Result<seq<byte>, FrameError>)
      requires Valid()
      modifies this`pos
      ensures Valid()
      ensures r == Parse(old(Unread())).0 && pos == old(pos) + Parse(old(Unread())).1
    {
      ghost var s := Unread();
      var prefix := ReadExact(4);
      if prefix.None? {
        return Failure(Truncated);
      }
      var n := FromLe32(prefix.value);
      if n > MAX_CONTROL_MSG {
        return Failure(Oversized(n));
      }
      assert Unread() == s[4..];
      var body := ReadExact(n);
      if body.None? {
        return Failure(Truncated);
      }
      assert body.value == s[4..4 + n];
      return Success(body.value);
    }
  }

  // ─── Properties ──────────────────────────────────────────────────────────────

  /** The length comes first, its lowest byte first. */
  lemma FrameForm(body: seq<byte>)
    requires |body| < 0x1_0000_0000
    ensures var f := FrameOf(body);
      && |f| == 4 + |body| && f[4..] == body
      && var b0: int, b1: int, b2: int, b3: int := f[0], f[1], f[2], f[3];
        |body| == b0 + 256 * b1 + 65536 * b2 + 16777216 * b3
  {
    Le32RoundTrip(|body|);
  }

  lemma ParseFrame(body: seq<byte>, rest: seq<byte>)
    requires |body| < 0x1_0000_0000
    ensures |body| <= 65536 ==> Parse(FrameOf(body) + rest) == (Success(body), 4 + |body|)
    ensures |body| > 65536 ==> Parse(FrameOf(body) + rest) == (Failure(Oversized(|body|)), 4)
  {
    var s := FrameOf(body) + rest;
    assert s[..4] == Le32(|body|);
    Le32RoundTrip(|body|);
    if |body| <= MAX_CONTROL_MSG {
      assert s[4..4 + |body|] == body;
    }
  }

  type Reading = (Result<seq<seq<byte>>, FrameError>, nat)

  function Prepend(body: seq<byte>, used: nat, later: Reading): Reading {
    if later.0.Failure? then (Failure(later.0.error), used + later.1)
    else (Success([body] + later.0.value), used + later.1)
  }

  /** Reading a whole list of frames, one after the other. */
  function ParseAll(s: seq<byte>): Reading
    decreases |s|
  {
    if s == [] then (Success([]), 0)
    else
      var read := Parse(s);
      if read.0.Failure? then (Failure(read.0.error), read.1)
      else Prepend(read.0.value, read.1, ParseAll(s[read.1..]))
  }

  /** Every list of bodies up to 64 KiB comes back as it was written, and every byte is used. */
  lemma {:induction false} FramesRoundTrip(bodies: seq<seq<byte>>)
    requires forall b | b in bodies :: |b| <= MAX_CONTROL_MSG
    ensures ParseAll(Wire(bodies)) == (Success(bodies), |Wire(bodies)|)
  {
    if bodies != [] {
      FramesRoundTrip(bodies[1..]);
      assert bodies == [bodies[0]] + bodies[1..];
      FirstFrame(bodies[0], bodies[1..]);
    }
  }

  lemma FirstFrame(first: seq<byte>, others: seq<seq<byte>>)
    requires |first| <= MAX_CONTROL_MSG && forall b | b in others :: |b| <= MAX_CONTROL_MSG
    requires ParseAll(Wire(others)) == (Success(others), |Wire(others)|)
    ensures ParseAll(FrameOf(first) + Wire(others)) == (Success([first] + others), |FrameOf(first) + Wire(others)|)
  {
    var s := FrameOf(first) + Wire(others);
    ParseFrame(first, Wire(others));
    assert s[4 + |first|..] == Wire(others);
    ReadThenRest(s);
    Prepended(first, 4 + |first|, others, |Wire(others)|);
  }

  lemma ReadThenRest(s: seq<byte>)
    requires Parse(s).0.Success?
    ensures ParseAll(s) == Prepend(Parse(s).0.value, Parse(s).1, ParseAll(s[Parse(s).1..]))
  {
  }

  lemma Prepended(body: seq<byte>, used: nat, others: seq<seq<byte>>, n: nat)
    ensures Prepend(body, used, (Success(others), n)) == (Success([body] + others), used + n)
  {
  }

  /** A frame cut short is an error, never a message. */
  lemma CutFrameIsTruncated(body: seq<byte>, n: nat)
    requires |body| <= MAX_CONTROL_MSG && n < |FrameOf(body)|
    ensures Parse(FrameOf(body)[..n]) == (Failure(Truncated), n)
  {
    var s := FrameOf(body)[..n];
    if 4 <= n {
      assert s[..4] == Le32(|body|);
      Le32RoundTrip(|body|);
    }
  }

  /** A message is read exactly when the stream starts with the frame of a body within the bound, and it is that body. */
  lemma ReadsOnlyFrames(s: seq<byte>, body: seq<byte>)
    ensures Parse(s).0 == Success(body)
      <==> |body| <= MAX_CONTROL_MSG && |FrameOf(body)| <= |s| && FrameOf(body) == s[..|FrameOf(body)|]
  {
    if Parse(s).0 == Success(body) {
      FromLe32RoundTrip(s[..4]);
      assert s[..4 + |body|] == s[..4] + s[4..4 + |body|];
    }
    if |body| <= MAX_CONTROL_MSG && 4 + |body| <= |s| && FrameOf(body) == s[..4 + |body|] {
      ParseFrame(body, s[4 + |body|..]);
      assert s == FrameOf(body) + s[4 + |body|..];
    }
  }

  lemma FromLe32RoundTrip(b: seq<byte>)
    requires |b| == 4
    ensures FromLe32(b) < 0x1_0000_0000 && Le32(FromLe32(b)) == b
  {
    var n := FromLe32(b);
    var b0: int, b1: int, b2: int, b3: int := b[0], b[1], b[2], b[3];
    var c := b2 + 256 * b3;
    var a := b1 + 256 * c;
    assert n == 256 * a + b0;
    assert n % 256 == b0 && n / 256 == a;
    assert a % 256 == b1 && a / 256 == c;
    assert n / 65536 == c;
  }
}
