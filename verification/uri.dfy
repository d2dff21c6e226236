/**
 * `encodeURIComponent`, as the denylist handlers use it to put a profile id
 * and a domain into a request path: characters outside the unreserved set
 * are written as the UTF-8 bytes of their code point, each as `%XY` with
 * upper-case hexadecimal digits.
 *
 * A `char` here is a Unicode scalar value, so the lone surrogates for which
 * the JavaScript function throws a URIError cannot occur.
 */
module Uri {
  import opened Wrappers

  type Byte = b: nat | b < 256

  /** The characters `encodeURIComponent` leaves as they are. */
  predicate IsUnreserved(c: char) {
    || 'A' <= c <= 'Z'
    || 'a' <= c <= 'z'
    || '0' <= c <= '9'
    || c == '-' || c == '_' || c == '.' || c == '!' || c == '~'
    || c == '*' || c == '\'' || c == '(' || c == ')'
  }

  predicate IsUpperHex(c: char) {
    '0' <= c <= '9' || 'A' <= c <= 'F'
  }

  /** A character that can appear in the output of `encodeURIComponent`. */
  predicate IsEncodedChar(c: char) {
    IsUnreserved(c) || c == '%' || IsUpperHex(c)
  }

  function HexDigit(d: nat): (c: char)
    requires d < 16
    ensures IsUpperHex(c)
  {
    if d < 10 then ('0' as int + d) as char else ('A' as int + d - 10) as char
  }

  function HexValue(c: char): (d: nat)
    requires IsUpperHex(c)
    ensures d < 16
  {
    if c <= '9' then c as int - '0' as int else c as int - 'A' as int + 10
  }

  /** The UTF-8 encoding of one code point: one to four bytes. */
  function Utf8(c: char): (bs: seq<Byte>)
    ensures 1 <= |bs| <= 4
    ensures |bs| == 1 <==> c as int < 0x80
    ensures |bs| == 1 ==> bs[0] == c as int
  {
    var n := c as int;
    if n < 0x80 then [n]
    else if n < 0x800 then [0xC0 + n / 0x40, 0x80 + n % 0x40]
    else if n < 0x10000 then [0xE0 + n / 0x1000, 0x80 + (n / 0x40) % 0x40, 0x80 + n % 0x40]
    else [0xF0 + n / 0x40000, 0x80 + (n / 0x1000) % 0x40, 0x80 + (n / 0x40) % 0x40, 0x80 + n % 0x40]
  }

  /** The UTF-8 encoding of a string. */
  function Utf8String(s: string): seq<Byte> {
    if s == [] then [] else Utf8(s[0]) + Utf8String(s[1..])
  }

  function PercentBytes(bs: seq<Byte>): (r: string)
    ensures |r| == 3 * |bs|
    ensures forall i :: 0 <= i < |r| ==> r[i] == '%' || IsUpperHex(r[i])
  {
    if bs == [] then [] else ['%', HexDigit(bs[0] / 16), HexDigit(bs[0] % 16)] + PercentBytes(bs[1..])
  }

  function EncodeChar(c: char): string {
    if IsUnreserved(c) then [c] else PercentBytes(Utf8(c))
  }

  /**
   * `encodeURIComponent(s)`. Its output never holds a path separator, a
   * query or fragment delimiter, or anything outside the encoded alphabet,
   * and a string made only of unreserved characters passes through unchanged.
   */
  function EncodeURIComponent(s: string): (r: string)
    ensures forall i :: 0 <= i < |r| ==> IsEncodedChar(r[i])
    ensures '/' !in r && '?' !in r && '#' !in r && '&' !in r
    ensures (forall i :: 0 <= i < |s| ==> IsUnreserved(s[i])) ==> r == s
  {
    if s == [] then [] else EncodeChar(s[0]) + EncodeURIComponent(s[1..])
  }

  /**
   * The reference reading of an encoded component: each `%XY` is the byte
   * XY, any other ASCII character is its own code, and anything else is
   * rejected.
   */
  function PercentDecode(s: string): Option<seq<Byte>>
    decreases |s|
  {
    if s == [] then Some([])
    else if s[0] == '%' then
      if |s| >= 3 && IsUpperHex(s[1]) && IsUpperHex(s[2]) then
        match PercentDecode(s[3..])
        case Some(rest) => Some([HexValue(s[1]) * 16 + HexValue(s[2])] + rest)
        case None => None
      else None
    else if s[0] as int < 0x80 then
      match PercentDecode(s[1..])
      case Some(rest) => Some([s[0] as int] + rest)
      case None => None
    else None
  }

  lemma {:induction false} DecodePercentBytes(bs: seq<Byte>, rest: string)
    ensures PercentDecode(PercentBytes(bs) + rest) ==
      match PercentDecode(rest)
      case Some(tail) => Some(bs + tail)
      case None => None
  {
    if bs != [] {
      var b := bs[0];
      var hi, lo := HexDigit(b / 16), HexDigit(b % 16);
      var s := PercentBytes(bs) + rest;
      assert s == ['%', hi, lo] + (PercentBytes(bs[1..]) + rest);
      assert s[3..] == PercentBytes(bs[1..]) + rest;
      assert HexValue(hi) * 16 + HexValue(lo) == b;
      DecodePercentBytes(bs[1..], rest);
      match PercentDecode(rest)
      case Some(tail) => assert bs + tail == [b] + (bs[1..] + tail);
      case None =>
    } else {
      assert PercentBytes(bs) + rest == rest;
      match PercentDecode(rest)
      case Some(tail) => assert bs + tail == tail;
      case None =>
    }
  }

  lemma DecodeEncodeChar(c: char, rest: string)
    ensures PercentDecode(EncodeChar(c) + rest) ==
      match PercentDecode(rest)
      case Some(tail) => Some(Utf8(c) + tail)
      case None => None
  {
    if IsUnreserved(c) {
      assert ([c] + rest)[1..] == rest;
    } else {
      DecodePercentBytes(Utf8(c), rest);
    }
  }

  /**
   * Decoding an encoded component gives back the UTF-8 bytes of the
   * original string: `encodeURIComponent` loses nothing.
   */
  lemma {:induction false} DecodeEncode(s: string)
    ensures PercentDecode(EncodeURIComponent(s)) == Some(Utf8String(s))
  {
    if s != [] {
      DecodeEncode(s[1..]);
      DecodeEncodeChar(s[0], EncodeURIComponent(s[1..]));
    }
  }

  /** The first byte of an encoding tells how many bytes it has. */
  lemma Utf8LeadByte(c: char)
    ensures var bs := Utf8(c);
      && (|bs| == 1 <==> bs[0] < 0x80)
      && (|bs| == 2 <==> 0xC0 <= bs[0] < 0xE0)
      && (|bs| == 3 <==> 0xE0 <= bs[0] < 0xF0)
      && (|bs| == 4 <==> 0xF0 <= bs[0])
  {
  }

  /** Different code points have different encodings. */
  lemma Utf8Injective(a: char, b: char)
    requires Utf8(a) == Utf8(b)
    ensures a == b
  {
    var m, n := a as int, b as int;
    assert m / 0x40 / 0x40 == m / 0x1000 && n / 0x40 / 0x40 == n / 0x1000;
    assert m / 0x1000 / 0x40 == m / 0x40000 && n / 0x1000 / 0x40 == n / 0x40000;
  }

  /** UTF-8 loses nothing: different strings have different encodings. */
  lemma {:induction false} Utf8StringInjective(s: string, t: string)
    requires Utf8String(s) == Utf8String(t)
    ensures s == t
  {
    if s != [] && t != [] {
      var a, b := Utf8(s[0]), Utf8(t[0]);
      Utf8LeadByte(s[0]);
      Utf8LeadByte(t[0]);
      assert a[0] == Utf8String(s)[0] && b[0] == Utf8String(t)[0];
      assert |a| == |b|;
      assert a == Utf8String(s)[..|a|] && b == Utf8String(t)[..|b|];
      Utf8Injective(s[0], t[0]);
      assert Utf8String(s[1..]) == Utf8String(s)[|a|..];
      assert Utf8String(t[1..]) == Utf8String(t)[|b|..];
      Utf8StringInjective(s[1..], t[1..]);
      assert s == [s[0]] + s[1..] && t == [t[0]] + t[1..];
    }
  }

  /** Different components encode differently. */
  lemma EncodeInjective(s: string, t: string)
    requires EncodeURIComponent(s) == EncodeURIComponent(t)
    ensures s == t
  {
    DecodeEncode(s);
    DecodeEncode(t);
    Utf8StringInjective(s, t);
  }
}
