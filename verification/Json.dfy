/**
  The part of JSON the stream writers print: string literals as Go's
  encoding/json escapes them, and integers, with readers for both
  (sections 6 and 7 of RFC 8259).
 */
module Json {
  import opened Options

  function HexDigit(n: nat): char
    requires n < 16
  {
    if n < 10 then '0' + n as char else 'a' + (n - 10) as char
  }

  function HexValue(c: char): Option<nat> {
    if '0' <= c <= '9' then Some(c as int - '0' as int)
    else if 'a' <= c <= 'f' then Some(c as int - 'a' as int + 10)
    else if 'A' <= c <= 'F' then Some(c as int - 'A' as int + 10)
    else None
  }

  lemma HexRoundTrip(n: nat)
    requires n < 16
    ensures HexValue(HexDigit(n)) == Some(n)
  {
  }

  function UnicodeEscape(n: nat): string
    requires n < 0x10000
  {
    ['\\', 'u', HexDigit(n / 0x1000), HexDigit(n / 0x100 % 16), HexDigit(n / 16 % 16), HexDigit(n % 16)]
  }

  /** No control character, nothing that could end a line or open HTML markup. */
  predicate Plain(c: char) {
    var n := c as int;
    n >= 0x20 && c != '<' && c != '>' && c != '&' && n != 0x2028 && n != 0x2029
  }

  /** Quotes, backslashes and control characters, and what would be unsafe in HTML or JavaScript. */
  function EscapeChar(c: char): (e: string)
    ensures e != "" && '\n' !in e
  {
    var n := c as int;
    if c == '"' then ['\\', '"']
    else if c == '\\' then ['\\', '\\']
    else if n == 8 then ['\\', 'b']
    else if n == 12 then ['\\', 'f']
    else if c == '\n' then ['\\', 'n']
    else if c == '\r' then ['\\', 'r']
    else if c == '\t' then ['\\', 't']
    else if n < 0x20 || c == '<' || c == '>' || c == '&' || n == 0x2028 || n == 0x2029 then UnicodeEscape(n)
    else [c]
  }

  function Escape(s: string): (e: string)
    ensures '\n' !in e
  {
    if s == "" then "" else EscapeChar(s[0]) + Escape(s[1..])
  }

  lemma EscapeCharIsPlain(c: char)
    ensures forall d :: d in EscapeChar(c) ==> Plain(d)
  {
  }

  /** A printed literal is plain from end to end. */
  lemma {:induction false} EscapeIsPlain(s: string)
    ensures forall d :: d in Escape(s) ==> Plain(d)
  {
    if s != "" {
      EscapeCharIsPlain(s[0]);
      EscapeIsPlain(s[1..]);
      hide EscapeChar, Plain;
    }
  }

  function Hex4(s: string, i: nat): Option<nat> {
    if |s| < i + 4 then None
    else
      match (HexValue(s[i]), HexValue(s[i + 1]), HexValue(s[i + 2]), HexValue(s[i + 3]))
      case (Some(a), Some(b), Some(c), Some(d)) => Some(a * 0x1000 + b * 0x100 + c * 16 + d)
      case _ => None
  }

  const REPLACEMENT: char := 0xFFFD as char

  /** A \u escape at the start of s: the character and how much of s it takes; lone surrogates are replaced. */
  function ScanUnicode(s: string): (r: Option<(char, nat)>)
    requires |s| >= 2
    ensures r.Some? ==> 0 < r.value.1 <= |s|
  {
    match Hex4(s, 2)
    case None => None
    case Some(v) =>
      if 0xD800 <= v < 0xDC00 then
        var low := if |s| >= 12 && s[6] == '\\' && s[7] == 'u' then Hex4(s, 8) else None;
        if low.Some? && 0xDC00 <= low.value < 0xE000
        then Some(((0x10000 + (v - 0xD800) * 0x400 + (low.value - 0xDC00)) as char, 12))
        else Some((REPLACEMENT, 6))
      else if 0xDC00 <= v < 0xE000 || v >= 0x10000 then Some((REPLACEMENT, 6))
      else Some((v as char, 6))
  }

  /** An escape sequence at the start of s. */
  function ScanEscape(s: string): (r: Option<(char, nat)>)
    ensures r.Some? ==> 0 < r.value.1 <= |s|
  {
    if |s| < 2 then None
    else
      match s[1]
      case '"' => Some(('"', 2))
      case '\\' => Some(('\\', 2))
      case '/' => Some(('/', 2))
      case 'b' => Some((8 as char, 2))
      case 'f' => Some((12 as char, 2))
      case 'n' => Some(('\n', 2))
      case 'r' => Some(('\r', 2))
      case 't' => Some(('\t', 2))
      case 'u' => ScanUnicode(s)
      case _ => None
  }

  /** The rest of a string literal after its opening quote: its text, and what follows the closing quote. */
  function ScanString(s: string): (r: Option<(string, string)>)
    ensures r.Some? ==> |r.value.1| < |s|
    decreases |s|
  {
    if s == "" then None
    else if s[0] == '"' then Some(("", s[1..]))
    else if s[0] == '\\' then
      match ScanEscape(s)
      case None => None
      case Some((c, k)) => Prepend(c, ScanString(s[k..]))
    else if s[0] as int < 0x20 then None
    else Prepend(s[0], ScanString(s[1..]))
  }

  function Prepend(c: char, r: Option<(string, string)>): Option<(string, string)> {
    match r
    case None => None
    case Some((text, rest)) => Some(([c] + text, rest))
  }

  lemma ScanUnicodeEscape(n: nat, tail: string)
    requires n < 0xD800
    ensures ScanEscape(UnicodeEscape(n) + tail) == Some((n as char, 6))
  {
    HexRoundTrip(n / 0x1000);
    HexRoundTrip(n / 0x100 % 16);
    HexRoundTrip(n / 16 % 16);
    HexRoundTrip(n % 16);
    var s := UnicodeEscape(n) + tail;
    hide HexDigit, HexValue;
    assert Hex4(s, 2) == Some(n) by {
      HexSum(n);
    }
  }

  lemma HexSum(n: nat)
    requires n < 0x10000
    ensures n / 0x1000 * 0x1000 + n / 0x100 % 16 * 0x100 + n / 16 % 16 * 16 + n % 16 == n
  {
    var a, b, c := n / 16, n / 0x100, n / 0x1000;
    assert n == a * 16 + n % 16;
    assert b == a / 16 && a == b * 16 + a % 16;
    assert c == b / 16 && b == c * 16 + b % 16;
  }

  /** Scanning an escaped character yields the character. */
  lemma ScanChar(c: char, tail: string)
    ensures ScanString(EscapeChar(c) + tail) == Prepend(c, ScanString(tail))
  {
    var e := EscapeChar(c);
    var s := e + tail;
    assert s[|e|..] == tail;
    if |e| == 6 {
      ScanUnicodeEscape(c as int, tail);
    }
    hide ScanUnicode, UnicodeEscape;
  }

  /** Reading back a printed string literal yields its text, whatever follows it. */
  lemma {:induction false} StringRoundTrip(text: string, rest: string)
    ensures ScanString(Escape(text) + "\"" + rest) == Some((text, rest))
  {
    if text == "" {
      assert "" + "\"" + rest == ['"'] + rest;
      assert (['"'] + rest)[1..] == rest;
    } else {
      var tail := Escape(text[1..]) + "\"" + rest;
      assert Escape(text) + "\"" + rest == EscapeChar(text[0]) + tail;
      ScanChar(text[0], tail);
      StringRoundTrip(text[1..], rest);
      assert [text[0]] + text[1..] == text;
    }
  }

  // ---- Integers ----

  function Digit(n: nat): char
    requires n < 10
  {
    '0' + n as char
  }

  function Digits(n: nat): (s: string)
    ensures s != "" && forall c :: c in s ==> '0' <= c <= '9'
  {
    if n < 10 then [Digit(n)] else Digits(n / 10) + [Digit(n % 10)]
  }

  function PrintInt(n: int): string {
    if n < 0 then "-" + Digits(-n) else Digits(n)
  }

  function ReadDigits(s: string, acc: nat): (r: (nat, string))
    ensures |r.1| <= |s|
    decreases |s|
  {
    if s == "" || !('0' <= s[0] <= '9') then (acc, s)
    else ReadDigits(s[1..], acc * 10 + (s[0] as int - '0' as int))
  }

  /** An optional minus sign and digits, of which the first is not a superfluous zero. */
  function ReadInt(s: string): (r: Option<(int, string)>)
    ensures r.Some? ==> |r.value.1| < |s|
  {
    var digits := if s != "" && s[0] == '-' then s[1..] else s;
    if digits == "" || !('0' <= digits[0] <= '9') then None
    else if digits[0] == '0' && |digits| > 1 && '0' <= digits[1] <= '9' then None
    else
      var (m, rest) := ReadDigits(digits, 0);
      var n: int := if s[0] == '-' then -(m as int) else m;
      Some((n, rest))
  }

  lemma {:induction false} NoLeadingZero(n: nat)
    ensures Digits(n)[0] == '0' <==> n == 0
    ensures n == 0 ==> |Digits(n)| == 1
  {
    if n >= 10 {
      NoLeadingZero(n / 10);
    }
  }

  lemma {:induction false} DigitsRoundTrip(n: nat, rest: string)
    ensures ReadDigits(Digits(n) + rest, 0) == ReadDigits(rest, n)
  {
    if n < 10 {
      assert ([Digit(n)] + rest)[1..] == rest;
    } else {
      var last := [Digit(n % 10)] + rest;
      assert Digits(n) + rest == Digits(n / 10) + last;
      DigitsRoundTrip(n / 10, last);
      assert last[1..] == rest;
      assert ReadDigits(last, n / 10) == ReadDigits(rest, n / 10 * 10 + n % 10);
    }
  }

  /** Reading back a printed integer yields it, when no digit follows. */
  lemma IntRoundTrip(n: int, rest: string)
    requires rest == "" || !('0' <= rest[0] <= '9')
    ensures ReadInt(PrintInt(n) + rest) == Some((n, rest))
  {
    var m: nat := if n < 0 then -n else n;
    DigitsRoundTrip(m, rest);
    assert n < 0 ==> PrintInt(n) + rest == "-" + (Digits(m) + rest);
    assert ("-" + (Digits(m) + rest))[1..] == Digits(m) + rest;
    assert Digits(m)[0] in Digits(m);
    NoLeadingZero(m);
  }
}
