/**
 * JavaScript's `encodeURIComponent` (ECMAScript, section 19.2.6.5 of
 * ECMA-262): every character outside the unreserved set is written as its
 * UTF-8 bytes, each as `%` and two upper-case hex digits. A decoder that
 * reads the escapes back gives the round trip the search route relies on.
 */
module Uri {
  import opened Wrappers
  import opened Unicode

  /** The characters `encodeURIComponent` leaves as they are: ASCII letters, digits and `-_.!~*'()`. */
  predicate IsUnreserved(c: char) {
    ('A' <= c <= 'Z') || ('a' <= c <= 'z') || ('0' <= c <= '9')
    || c == '-' || c == '_' || c == '.' || c == '!' || c == '~' || c == '*' || c == '\'' || c == '(' || c == ')'
  }

  /** Upper-case hex digit of a value below 16. */
  function HexDigit(d: nat): (c: char)
    requires d < 16
    ensures ('0' <= c <= '9') || ('A' <= c <= 'F')
  {
    if d < 10 then ('0' as int + d) as char else ('A' as int + d - 10) as char
  }

  /** The value of a hex digit of either case. */
  function HexValue(c: char): (r: Option<nat>)
    ensures r.Some? ==> r.value < 16
  {
    if '0' <= c <= '9' then Some(c as int - '0' as int)
    else if 'A' <= c <= 'F' then Some(c as int - 'A' as int + 10)
    else if 'a' <= c <= 'f' then Some(c as int - 'a' as int + 10)
    else None
  }

  lemma HexDigitValue(d: nat)
    requires d < 16
    ensures HexValue(HexDigit(d)) == Some(d)
  {
  }

  /** One byte of the output: the character itself when it is unreserved ASCII, else its escape. */
  function EncodeByte(b: byte): (r: string)
    ensures |r| == 1 || |r| == 3
    ensures |r| == 1 <==> IsUnreserved(b as int as char)
    ensures |r| == 1 ==> r[0] as int == b as int
    ensures |r| == 3 ==> r[0] == '%'
  {
    var c := b as int as char;
    if IsUnreserved(c) then [c]
    else ['%', HexDigit(b as int / 16), HexDigit(b as int % 16)]
  }

  function EncodeBytes(bs: seq<byte>): (r: string)
    ensures forall k :: 0 <= k < |r| ==> IsUnreserved(r[k]) || r[k] == '%' || ('0' <= r[k] <= '9') || ('A' <= r[k] <= 'F')
  {
    if bs == [] then "" else EncodeByte(bs[0]) + EncodeBytes(bs[1..])
  }

  /**
   * `encodeURIComponent`. An unreserved character is ASCII, so its single
   * UTF-8 byte is the character itself; every other character comes out as
   * the escapes of its UTF-8 bytes.
   */
  function EncodeURIComponent(s: string): (r: string)
    ensures |s| <= |r| <= 12 * |s|
  {
    EncodeBytesLength(Utf8EncodeString(s));
    EncodeBytes(Utf8EncodeString(s))
  }

  lemma {:induction false} EncodeBytesLength(bs: seq<byte>)
    ensures |bs| <= |EncodeBytes(bs)| <= 3 * |bs|
  {
    if bs != [] {
      EncodeBytesLength(bs[1..]);
    }
  }

  /**
   * The bytes a component stands for: an escape is one byte, any other
   * character its UTF-8 bytes; `None` for a `%` not followed by two hex
   * digits, where `decodeURIComponent` throws.
   */
  function DecodeBytes(s: string): (r: Option<seq<byte>>)
    decreases |s|
  {
    if s == [] then Some([])
    else if s[0] == '%' then
      if |s| < 3 || HexValue(s[1]).None? || HexValue(s[2]).None? then None
      else match DecodeBytes(s[3..])
        case None => None
        case Some(rest) => Some([(HexValue(s[1]).value * 16 + HexValue(s[2]).value) as byte] + rest)
    else match DecodeBytes(s[1..])
      case None => None
      case Some(rest) => Some(Utf8Encode(s[0]) + rest)
  }

  /** `decodeURIComponent`: the bytes the escapes stand for, read as UTF-8. */
  function DecodeURIComponent(s: string): Option<string> {
    match DecodeBytes(s)
    case None => None
    case Some(bs) => Utf8Decode(bs)
  }

  lemma DecodeEncodedByte(b: byte, rest: string)
    ensures DecodeBytes(EncodeByte(b) + rest) ==
      match DecodeBytes(rest)
      case None => None
      case Some(t) => Some([b] + t)
  {
    var e := EncodeByte(b);
    var s := e + rest;
    if |e| == 1 {
      assert s[0] == b as int as char;
      assert s[1..] == rest;
    } else {
      HexDigitValue(b as int / 16);
      HexDigitValue(b as int % 16);
      assert s[0] == '%' && s[1] == e[1] && s[2] == e[2];
      assert s[3..] == rest;
    }
  }

  lemma {:induction false} DecodeEncodedBytes(bs: seq<byte>)
    ensures DecodeBytes(EncodeBytes(bs)) == Some(bs)
  {
    if bs != [] {
      var rest := EncodeBytes(bs[1..]);
      assert EncodeBytes(bs) == EncodeByte(bs[0]) + rest;
      DecodeEncodedByte(bs[0], rest);
      DecodeEncodedBytes(bs[1..]);
      assert [bs[0]] + bs[1..] == bs;
    }
  }

  /** Round trip: decoding the encoding of any string gives the string back. */
  lemma EncodeRoundTrip(s: string)
    ensures DecodeURIComponent(EncodeURIComponent(s)) == Some(s)
  {
    DecodeEncodedBytes(Utf8EncodeString(s));
    Utf8RoundTrip(s);
  }

  /**
   * The encoding never holds a character that ends or splits a query
   * parameter, nor a space: `&`, `=`, `#`, `?`, `+` and ` ` all come out
   * escaped.
   */
  lemma EncodedIsQuerySafe(s: string)
    ensures forall k :: 0 <= k < |EncodeURIComponent(s)| ==>
      EncodeURIComponent(s)[k] !in {'&', '=', '#', '?', '+', ' '}
  {
  }
}
