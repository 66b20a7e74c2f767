/**
 * Character encodings behind three JavaScript behaviours in the components:
 * `string.length` counts UTF-16 code units, `encodeURIComponent` escapes the
 * UTF-8 bytes of a character, and text saved as UTF-8 but read back as
 * Windows-1252 turns each emoji into several Latin characters.
 */
module Unicode {
  import opened Wrappers

  newtype byte = x: int | 0 <= x < 256

  // ---------------------------------------------------------------------------
  // UTF-16 length

  /** Code units of one character: two for characters outside the Basic Multilingual Plane. */
  function Utf16Units(c: char): (n: nat)
    ensures n == 1 || n == 2
  {
    if c as int > 0xFFFF then 2 else 1
  }

  /** JavaScript's `s.length`. */
  function Utf16Length(s: string): (n: nat)
    ensures |s| <= n <= 2 * |s|
    ensures (forall k :: 0 <= k < |s| ==> s[k] as int <= 0xFFFF) ==> n == |s|
  {
    if s == [] then 0 else Utf16Units(s[0]) + Utf16Length(s[1..])
  }

  /** Lengths add up over concatenation. */
  lemma {:induction false} Utf16LengthAppend(a: string, b: string)
    ensures Utf16Length(a + b) == Utf16Length(a) + Utf16Length(b)
    decreases |a|
  {
    if a != [] {
      assert (a + b)[0] == a[0];
      assert (a + b)[1..] == a[1..] + b;
      Utf16LengthAppend(a[1..], b);
    } else {
      assert a + b == b;
    }
  }

  // ---------------------------------------------------------------------------
  // UTF-8

  predicate IsContinuation(b: byte) {
    0x80 <= b < 0xC0
  }

  /** The UTF-8 bytes of one character (RFC 3629, section 3). */
  function Utf8Encode(c: char): (r: seq<byte>)
    ensures 1 <= |r| <= 4
    ensures (|r| == 1) == (c as int < 0x80)
    ensures r[0] < 0x80 || 0xC0 <= r[0] < 0xF5
    ensures forall k :: 1 <= k < |r| ==> IsContinuation(r[k])
  {
    var n := c as int;
    if n < 0x80 then [n as byte]
    else if n < 0x800 then [(0xC0 + n / 64) as byte, (0x80 + n % 64) as byte]
    else if n < 0x10000 then
      [(0xE0 + n / 4096) as byte, (0x80 + (n / 64) % 64) as byte, (0x80 + n % 64) as byte]
    else
      [(0xF0 + n / 262144) as byte, (0x80 + (n / 4096) % 64) as byte,
       (0x80 + (n / 64) % 64) as byte, (0x80 + n % 64) as byte]
  }

  /** The UTF-8 bytes of a string. */
  function Utf8EncodeString(s: string): (r: seq<byte>)
    ensures |s| <= |r| <= 4 * |s|
  {
    if s == [] then [] else Utf8Encode(s[0]) + Utf8EncodeString(s[1..])
  }

  predicate IsScalar(n: int) {
    (0 <= n < 0xD800) || (0xE000 <= n < 0x11_0000)
  }

  /** Decodes the first character of `b`, returning it and the number of bytes it used. */
  function Utf8DecodeFirst(b: seq<byte>): (r: Option<(char, nat)>)
    ensures r.Some? ==> 1 <= r.value.1 <= |b|
  {
    if b == [] then None
    else if b[0] < 0x80 then Some((b[0] as int as char, 1))
    else if 0xC0 <= b[0] < 0xE0 && |b| >= 2 && IsContinuation(b[1]) then
      var n := (b[0] as int - 0xC0) * 64 + (b[1] as int - 0x80);
      if 0x80 <= n then Some((n as char, 2)) else None
    else if 0xE0 <= b[0] < 0xF0 && |b| >= 3 && IsContinuation(b[1]) && IsContinuation(b[2]) then
      var n := (b[0] as int - 0xE0) * 4096 + (b[1] as int - 0x80) * 64 + (b[2] as int - 0x80);
      if 0x800 <= n && IsScalar(n) then Some((n as char, 3)) else None
    else if 0xF0 <= b[0] < 0xF8 && |b| >= 4
            && IsContinuation(b[1]) && IsContinuation(b[2]) && IsContinuation(b[3]) then
      var n := (b[0] as int - 0xF0) * 262144 + (b[1] as int - 0x80) * 4096
               + (b[2] as int - 0x80) * 64 + (b[3] as int - 0x80);
      if 0x1_0000 <= n < 0x11_0000 then Some((n as char, 4)) else None
    else None
  }

  /** Decodes a whole byte sequence, or `None` if it is not well-formed UTF-8. */
  function Utf8Decode(b: seq<byte>): Option<string>
    decreases |b|
  {
    if b == [] then Some("")
    else match Utf8DecodeFirst(b)
      case None => None
      case Some((c, k)) =>
        match Utf8Decode(b[k..])
        case None => None
        case Some(rest) => Some([c] + rest)
  }

  /** Arithmetic behind the two-, three- and four-byte forms. */
  lemma Split64(n: int)
    requires 0 <= n
    ensures (n / 64) * 64 + n % 64 == n
    ensures ((n / 64) % 64) * 64 + (n / 4096) * 4096 + n % 64 == n
    ensures (n / 262144) * 262144 + ((n / 4096) % 64) * 4096 + ((n / 64) % 64) * 64 + n % 64 == n
  {
    Div4096(n);
    Div262144(n);
    var q, r := n / 64, n / 4096;
    assert q == (q / 64) * 64 + q % 64;
    assert r == (r / 64) * 64 + r % 64;
  }

  /** Dividing by 64 twice is dividing by 4096. */
  lemma Div4096(n: int)
    requires 0 <= n
    ensures (n / 64) / 64 == n / 4096
  {
    var q := n / 64;
    var p := q / 64;
    assert 64 * q <= n < 64 * q + 64;
    assert 64 * p <= q < 64 * p + 64;
    assert 4096 * p <= n < 4096 * p + 4096;
  }

  /** Dividing by 4096 and then by 64 is dividing by 262144. */
  lemma Div262144(n: int)
    requires 0 <= n
    ensures (n / 4096) / 64 == n / 262144
  {
    var q := n / 4096;
    var p := q / 64;
    assert 4096 * q <= n < 4096 * q + 4096;
    assert 64 * p <= q < 64 * p + 64;
    assert 262144 * p <= n < 262144 * p + 262144;
  }

  /** Decoding a character's encoding, whatever follows it, gives back that character. */
  lemma Utf8DecodeFirstOfEncode(c: char, rest: seq<byte>)
    ensures Utf8DecodeFirst(Utf8Encode(c) + rest) == Some((c, |Utf8Encode(c)|))
  {
    var n := c as int;
    var e := Utf8Encode(c);
    var b := e + rest;
    assert b[..|e|] == e;
    if n < 0x80 {
      assert b[0] == e[0];
    } else if n < 0x800 {
      TwoBytesDecode(n, b);
    } else if n < 0x10000 {
      ThreeBytesDecode(n, b);
    } else {
      FourBytesDecode(n, b);
    }
  }

  lemma TwoBytesDecode(n: int, b: seq<byte>)
    requires 0x80 <= n < 0x800 && |b| >= 2
    requires b[0] as int == 0xC0 + n / 64 && b[1] as int == 0x80 + n % 64
    ensures Utf8DecodeFirst(b) == Some((n as char, 2))
  {
    Split64(n);
  }

  lemma ThreeBytesDecode(n: int, b: seq<byte>)
    requires 0x800 <= n < 0x10000 && IsScalar(n) && |b| >= 3
    requires b[0] as int == 0xE0 + n / 4096
    requires b[1] as int == 0x80 + (n / 64) % 64 && b[2] as int == 0x80 + n % 64
    ensures Utf8DecodeFirst(b) == Some((n as char, 3))
  {
    Split64(n);
  }

  lemma FourBytesDecode(n: int, b: seq<byte>)
    requires 0x10000 <= n < 0x11_0000 && |b| >= 4
    requires b[0] as int == 0xF0 + n / 262144 && b[1] as int == 0x80 + (n / 4096) % 64
    requires b[2] as int == 0x80 + (n / 64) % 64 && b[3] as int == 0x80 + n % 64
    ensures Utf8DecodeFirst(b) == Some((n as char, 4))
  {
    Split64(n);
  }

  /** UTF-8 round trip: decoding the encoding of any string gives the string back. */
  lemma {:induction false} Utf8RoundTrip(s: string)
    ensures Utf8Decode(Utf8EncodeString(s)) == Some(s)
    decreases |s|
  {
    if s != [] {
      var e := Utf8Encode(s[0]);
      var tail := Utf8EncodeString(s[1..]);
      Utf8DecodeFirstOfEncode(s[0], tail);
      assert (e + tail)[|e|..] == tail;
      Utf8RoundTrip(s[1..]);
      assert [s[0]] + s[1..] == s;
    }
  }

  // ---------------------------------------------------------------------------
  // Windows-1252 misreading of UTF-8 text

  /**
   * The character Windows-1252 assigns to a byte; `None` for the five bytes
   * it leaves undefined (0x81, 0x8D, 0x8F, 0x90, 0x9D).
   */
  function Cp1252Char(b: byte): Option<char> {
    if b < 0x80 || b >= 0xA0 then Some(b as int as char)
    else match b
      case 0x80 => Some('\U{20AC}')
      case 0x82 => Some('\U{201A}')
      case 0x83 => Some('\U{0192}')
      case 0x84 => Some('\U{201E}')
      case 0x85 => Some('\U{2026}')
      case 0x86 => Some('\U{2020}')
      case 0x87 => Some('\U{2021}')
      case 0x88 => Some('\U{02C6}')
      case 0x89 => Some('\U{2030}')
      case 0x8A => Some('\U{0160}')
      case 0x8B => Some('\U{2039}')
      case 0x8C => Some('\U{0152}')
      case 0x8E => Some('\U{017D}')
      case 0x91 => Some('\U{2018}')
      case 0x92 => Some('\U{2019}')
      case 0x93 => Some('\U{201C}')
      case 0x94 => Some('\U{201D}')
      case 0x95 => Some('\U{2022}')
      case 0x96 => Some('\U{2013}')
      case 0x97 => Some('\U{2014}')
      case 0x98 => Some('\U{02DC}')
      case 0x99 => Some('\U{2122}')
      case 0x9A => Some('\U{0161}')
      case 0x9B => Some('\U{203A}')
      case 0x9C => Some('\U{0153}')
      case 0x9E => Some('\U{017E}')
      case 0x9F => Some('\U{0178}')
      case _ => None
  }

  /** Bytes read as Windows-1252 text, undefined bytes being dropped. */
  function Cp1252Misread(b: seq<byte>): (r: string)
    ensures |r| <= |b|
  {
    if b == [] then ""
    else
      var rest := Cp1252Misread(b[1..]);
      match Cp1252Char(b[0])
      case Some(c) => [c] + rest
      case None => rest
  }

  /** The mojibake a string turns into when its UTF-8 bytes are read as Windows-1252. */
  function Mojibake(s: string): string {
    Cp1252Misread(Utf8EncodeString(s))
  }
}
