/** Strings as bytes (RFC 3629), whose number is what Go's len gives. */
module Utf8 {
  import opened Options

  function EncodeChar(c: char): (b: seq<nat>)
    ensures 1 <= |b| <= 4 && forall i :: 0 <= i < |b| ==> b[i] < 0x100
  {
    var n := c as int;
    if n < 0x80 then [n]
    else if n < 0x800 then [0xC0 + n / 0x40, 0x80 + n % 0x40]
    else if n < 0x10000 then [0xE0 + n / 0x1000, 0x80 + n / 0x40 % 0x40, 0x80 + n % 0x40]
    else [0xF0 + n / 0x40000, 0x80 + n / 0x1000 % 0x40, 0x80 + n / 0x40 % 0x40, 0x80 + n % 0x40]
  }

  function Encode(s: string): (b: seq<nat>)
    ensures |s| <= |b| <= 4 * |s|
  {
    if s == "" then [] else EncodeChar(s[0]) + Encode(s[1..])
  }

  /** The payload of a continuation byte. */
  function Continuation(b: seq<nat>, i: nat): Option<nat> {
    if i < |b| && 0x80 <= b[i] < 0xC0 then Some(b[i] - 0x80) else None
  }

  /** The first code point of b and how many bytes it takes, as the table of section 4 has them. */
  function DecodeFirst(b: seq<nat>): (r: Option<(char, nat)>)
    ensures r.Some? ==> 0 < r.value.1 <= |b|
  {
    var x, y, z := Continuation(b, 1), Continuation(b, 2), Continuation(b, 3);
    if b == [] then None
    else if b[0] < 0x80 then Some((b[0] as char, 1))
    else if x.None? then None
    else if 0xC2 <= b[0] < 0xE0 then Scalar((b[0] - 0xC0) * 0x40 + x.value, 0x80, 2)
    else if y.None? then None
    else if 0xE0 <= b[0] < 0xF0 then Scalar((b[0] - 0xE0) * 0x1000 + x.value * 0x40 + y.value, 0x800, 3)
    else if z.None? then None
    else if 0xF0 <= b[0] < 0xF5 then Scalar((b[0] - 0xF0) * 0x40000 + x.value * 0x1000 + y.value * 0x40 + z.value, 0x10000, 4)
    else None
  }

  /** A code point in the range its length is for. */
  function Scalar(n: nat, least: nat, length: nat): (r: Option<(char, nat)>)
    ensures r.Some? ==> r.value.1 == length
  {
    if least <= n < 0xD800 || (least <= n && 0xE000 <= n < 0x11_0000) then Some((n as char, length)) else None
  }

  function Decode(b: seq<nat>): Option<string>
    decreases |b|
  {
    if b == [] then Some("")
    else
      match DecodeFirst(b)
      case None => None
      case Some((c, k)) =>
        match Decode(b[k..])
        case None => None
        case Some(s) => Some([c] + s)
  }

  lemma FirstRoundTrip(c: char, rest: seq<nat>)
    ensures DecodeFirst(EncodeChar(c) + rest) == Some((c, |EncodeChar(c)|))
  {
    var n := c as int;
    assert n == n / 0x40 * 0x40 + n % 0x40;
    assert n / 0x40 == n / 0x1000 * 0x40 + n / 0x40 % 0x40;
    assert n / 0x1000 == n / 0x40000 * 0x40 + n / 0x1000 % 0x40;
  }

  /** Decoding the bytes of a string gives the string. */
  lemma {:induction false} DecodeEncode(s: string)
    ensures Decode(Encode(s)) == Some(s)
  {
    if s != "" {
      var head, tail := EncodeChar(s[0]), Encode(s[1..]);
      FirstRoundTrip(s[0], tail);
      assert (head + tail)[|head|..] == tail;
      DecodeEncode(s[1..]);
      assert [s[0]] + s[1..] == s;
      hide EncodeChar, DecodeFirst;
    }
  }
}
