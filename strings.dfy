/**
 * The few JavaScript string operations the components rely on:
 * `String.prototype.trim`, number-to-string conversion in template
 * literals, `toLowerCase` (ASCII letters only) and `replace` with a
 * string pattern (first occurrence only).
 */
module Strings {

  // ---------------------------------------------------------------------------
  // trim()

  /** The characters `trim()` removes: ECMAScript WhiteSpace and LineTerminator. */
  predicate IsWhitespace(c: char) {
    || c == '\t' || c == '\n' || c == '\U{000B}' || c == '\U{000C}' || c == '\r'
    || c == ' ' || c == '\U{00A0}' || c == '\U{1680}'
    || ('\U{2000}' <= c <= '\U{200A}')
    || c == '\U{2028}' || c == '\U{2029}' || c == '\U{202F}' || c == '\U{205F}'
    || c == '\U{3000}' || c == '\U{FEFF}'
  }

  /** `s` without its leading whitespace. */
  function TrimStart(s: string): (r: string)
    ensures |r| <= |s| && r == s[|s| - |r|..]
    ensures forall k :: 0 <= k < |s| - |r| ==> IsWhitespace(s[k])
    ensures r == [] || !IsWhitespace(r[0])
  {
    if s != [] && IsWhitespace(s[0]) then
      var r := TrimStart(s[1..]);
      DropFrontStep(s, s[1..], r);
      r
    else s
  }

  /** Whitespace dropped from the front of `s[1..]`, after whitespace `s[0]`, was dropped from the front of `s`. */
  lemma DropFrontStep(s: string, rest: string, r: string)
    requires s != [] && IsWhitespace(s[0]) && rest == s[1..]
    requires |r| <= |rest| && r == rest[|rest| - |r|..]
    requires forall k :: 0 <= k < |rest| - |r| ==> IsWhitespace(rest[k])
    ensures r == s[|s| - |r|..]
    ensures forall k :: 0 <= k < |s| - |r| ==> IsWhitespace(s[k])
  {
    forall k | 0 < k < |s| - |r|
      ensures IsWhitespace(s[k])
    {
      assert s[k] == rest[k - 1];
    }
  }

  /** `s` without its trailing whitespace. */
  function TrimEnd(s: string): (r: string)
    ensures |r| <= |s| && r == s[..|r|]
    ensures forall k :: |r| <= k < |s| ==> IsWhitespace(s[k])
    ensures r == [] || !IsWhitespace(r[|r| - 1])
  {
    if s != [] && IsWhitespace(s[|s| - 1]) then
      var r := TrimEnd(s[..|s| - 1]);
      DropBackStep(s, s[..|s| - 1], r);
      r
    else s
  }

  /** Whitespace dropped from the back of all but the last character, itself whitespace, was dropped from the back of `s`. */
  lemma DropBackStep(s: string, init: string, r: string)
    requires s != [] && IsWhitespace(s[|s| - 1]) && init == s[..|s| - 1]
    requires |r| <= |init| && r == init[..|r|]
    requires forall k :: |r| <= k < |init| ==> IsWhitespace(init[k])
    ensures r == s[..|r|]
    ensures forall k :: |r| <= k < |s| ==> IsWhitespace(s[k])
  {
    forall k | |r| <= k < |s| - 1
      ensures IsWhitespace(s[k])
    {
      assert s[k] == init[k];
    }
  }

  /**
   * `s.trim()`: what is left is a contiguous part of `s`, everything before
   * and after it is whitespace, and it neither starts nor ends with any.
   */
  function Trim(s: string): (r: string)
    ensures |r| <= |s|
    ensures exists i :: TrimmedAt(s, r, i)
    ensures r == [] || (!IsWhitespace(r[0]) && !IsWhitespace(r[|r| - 1]))
  {
    var t := TrimStart(s);
    var r := TrimEnd(t);
    assert r != [] ==> r[0] == t[0];
    TrimmedBetween(s, t, r);
    r
  }

  /** Cutting whitespace off the front and then off the back leaves a part of `s` framed by whitespace. */
  lemma TrimmedBetween(s: string, t: string, r: string)
    requires |t| <= |s| && t == s[|s| - |t|..]
    requires forall k :: 0 <= k < |s| - |t| ==> IsWhitespace(s[k])
    requires |r| <= |t| && r == t[..|r|]
    requires forall k :: |r| <= k < |t| ==> IsWhitespace(t[k])
    ensures TrimmedAt(s, r, |s| - |t|)
  {
    var i := |s| - |t|;
    assert r == s[i..i + |r|];
    forall k | i + |r| <= k < |s|
      ensures IsWhitespace(s[k])
    {
      assert s[k] == t[k - i];
    }
  }

  /** `r` is the part of `s` from `i` on, with only whitespace before and after it. */
  predicate TrimmedAt(s: string, r: string, i: int) {
    0 <= i <= |s| - |r| && r == s[i..i + |r|]
    && (forall k :: 0 <= k < i ==> IsWhitespace(s[k]))
    && (forall k :: i + |r| <= k < |s| ==> IsWhitespace(s[k]))
  }

  /**
   * `!s.trim()`: every character is whitespace, so that nothing is left
   * after trimming (`BlankIffTrimEmpty`).
   */
  predicate IsBlank(s: string)
    decreases |s|
  {
    s == [] || (IsWhitespace(s[0]) && IsBlank(s[1..]))
  }

  lemma {:induction false} BlankIffAllWhitespace(s: string)
    ensures IsBlank(s) <==> forall k :: 0 <= k < |s| ==> IsWhitespace(s[k])
    decreases |s|
  {
    if s != [] {
      BlankIffAllWhitespace(s[1..]);
      assert forall k :: 1 <= k < |s| ==> s[k] == s[1..][k - 1];
    }
  }

  /** Leading whitespace is all there is exactly when the string is blank. */
  lemma {:induction false} BlankIffTrimStartEmpty(s: string)
    ensures IsBlank(s) <==> TrimStart(s) == ""
    decreases |s|
  {
    if s != [] && IsWhitespace(s[0]) {
      BlankIffTrimStartEmpty(s[1..]);
    }
  }

  /** A string is blank exactly when trimming leaves nothing. */
  lemma BlankIffTrimEmpty(s: string)
    ensures IsBlank(s) <==> Trim(s) == ""
  {
    BlankIffTrimStartEmpty(s);
    var t := TrimStart(s);
    if t != [] {
      assert !IsWhitespace(t[0]);
      assert TrimEnd(t) != [];
    }
  }

  // ---------------------------------------------------------------------------
  // Numbers in template literals (`${n}` for an integer n)

  predicate IsDigit(c: char) {
    '0' <= c <= '9'
  }

  function DigitChar(d: nat): (c: char)
    requires d < 10
    ensures IsDigit(c) && DigitValue(c) == d
  {
    (48 + d) as char
  }

  function DigitValue(c: char): (d: nat)
    requires IsDigit(c)
    ensures d < 10
  {
    c as int - 48
  }

  predicate AllDigits(s: string) {
    forall k :: 0 <= k < |s| ==> IsDigit(s[k])
  }

  /** Decimal notation of a natural number, without leading zeros. */
  function NatToString(n: nat): (r: string)
    ensures |r| >= 1 && AllDigits(r)
    ensures r[0] == '0' ==> n == 0
    decreases n
  {
    if n < 10 then [DigitChar(n)] else NatToString(n / 10) + [DigitChar(n % 10)]
  }

  /** The number a string of decimal digits denotes. */
  function DigitsValue(s: string): nat
    requires AllDigits(s)
  {
    if s == [] then 0 else DigitsValue(s[..|s| - 1]) * 10 + DigitValue(s[|s| - 1])
  }

  /** Reading back the decimal notation gives the number. */
  lemma {:induction false} NatToStringRoundTrip(n: nat)
    ensures DigitsValue(NatToString(n)) == n
    decreases n
  {
    if n >= 10 {
      NatToStringRoundTrip(n / 10);
      var s := NatToString(n);
      assert s[..|s| - 1] == NatToString(n / 10);
    }
  }

  /** Distinct numbers are written differently. */
  lemma NatToStringInjective(m: nat, n: nat)
    ensures NatToString(m) == NatToString(n) ==> m == n
  {
    NatToStringRoundTrip(m);
    NatToStringRoundTrip(n);
  }

  /** `${i}` for an integer: a minus sign before negative numbers. */
  function IntToString(i: int): (r: string)
    ensures |r| >= 1
    ensures (r[0] == '-') == (i < 0)
  {
    if i < 0 then "-" + NatToString(-i) else NatToString(i)
  }

  /** Length of the run of decimal digits at the start of `s`. */
  function DigitPrefixLength(s: string): (k: nat)
    ensures k <= |s| && AllDigits(s[..k])
    ensures k < |s| ==> !IsDigit(s[k])
  {
    if s != [] && IsDigit(s[0]) then
      var k := 1 + DigitPrefixLength(s[1..]);
      assert s[..k] == [s[0]] + s[1..][..k - 1];
      k
    else 0
  }

  /** The digit run at the front of a number's notation ends where the notation ends. */
  lemma {:induction false} DigitPrefixOfNumber(d: string, t: string)
    requires AllDigits(d)
    requires t == [] || !IsDigit(t[0])
    ensures DigitPrefixLength(d + t) == |d|
    decreases |d|
  {
    if d != [] {
      assert (d + t)[1..] == d[1..] + t;
      DigitPrefixOfNumber(d[1..], t);
    }
  }

  /**
   * Reads an optionally signed integer from the front of `s`: whether there
   * is one, its value, and how many characters it takes up.
   */
  function ReadInt(s: string): (r: (bool, int, nat))
    ensures r.0 ==> r.2 <= |s|
  {
    var neg := s != [] && s[0] == '-';
    var start := if neg then 1 else 0;
    var k := DigitPrefixLength(s[start..]);
    if k == 0 then (false, 0, 0)
    else
      var v := DigitsValue(s[start..][..k]);
      var value: int := if neg then -(v as int) else v;
      (true, value, start + k)
  }

  /** An integer's notation is read back whole, whatever non-digit text follows it. */
  lemma ReadIntOfIntToString(i: int, t: string)
    requires t == [] || !IsDigit(t[0])
    ensures ReadInt(IntToString(i) + t) == (true, i, |IntToString(i)|)
  {
    var n: nat := if i < 0 then -i else i;
    var d := NatToString(n);
    var dt := d + t;
    DigitPrefixOfNumber(d, t);
    NatToStringRoundTrip(n);
    assert dt[..|d|] == d;
    assert IsDigit(dt[0]);
    if i < 0 {
      var s := "-" + dt;
      assert IntToString(i) + t == s;
      assert s[1..] == dt;
    } else {
      assert IntToString(i) + t == dt;
      assert dt[0..] == dt;
    }
  }

  /**
   * `s.padStart(width, fill)` with a one-character filler: the filler
   * repeated in front until the string is `width` long; a string already
   * that long is left as it is.
   */
  function PadStart(s: string, width: nat, fill: char): (r: string)
    ensures |r| == if |s| >= width then |s| else width
    ensures r[|r| - |s|..] == s
    ensures forall k :: 0 <= k < |r| - |s| ==> r[k] == fill
  {
    if |s| >= width then s else seq(width - |s|, _ => fill) + s
  }

  // ---------------------------------------------------------------------------
  // toLowerCase() on ASCII letters

  function AsciiLowerChar(c: char): (r: char)
    ensures !('A' <= r <= 'Z')
    ensures 'a' <= c <= 'z' ==> r == c
  {
    if 'A' <= c <= 'Z' then (c as int + 32) as char else c
  }

  /** `s.toLowerCase()` for strings whose letters are ASCII. */
  function AsciiLower(s: string): (r: string)
    ensures |r| == |s|
    ensures forall k :: 0 <= k < |s| ==> r[k] == AsciiLowerChar(s[k])
  {
    if s == [] then [] else [AsciiLowerChar(s[0])] + AsciiLower(s[1..])
  }

  /** Lower-casing twice is lower-casing once. */
  lemma AsciiLowerIdempotent(s: string)
    ensures AsciiLower(AsciiLower(s)) == AsciiLower(s)
  {
  }

  // ---------------------------------------------------------------------------
  // indexOf / replace with a one-character pattern

  /** `s.indexOf(c)`: the first position of `c`, or -1. */
  function IndexOf(s: string, c: char): (i: int)
    ensures -1 <= i < |s|
    ensures i == -1 <==> c !in s
    ensures 0 <= i ==> s[i] == c && c !in s[..i]
  {
    if s == [] then -1
    else if s[0] == c then 0
    else
      var j := IndexOf(s[1..], c);
      if j == -1 then -1
      else
        assert s[..j + 1] == [s[0]] + s[1..][..j];
        j + 1
  }

  /** `s.replace(a, b)` with one-character strings: only the first `a` is replaced. */
  function ReplaceFirst(s: string, a: char, b: char): (r: string)
  {
    var i := IndexOf(s, a);
    if i == -1 then s else s[..i] + [b] + s[i + 1..]
  }

  /** Number of occurrences of `c` in `s`. */
  function CountChar(s: string, c: char): nat {
    multiset(s)[c]
  }

  /** Changing the character at `i` from `a` into `b` removes one `a` when they differ. */
  lemma CountAfterChange(s: string, i: nat, a: char, b: char)
    requires i < |s| && s[i] == a && a != b
    ensures CountChar(s[..i] + [b] + s[i + 1..], a) == CountChar(s, a) - 1
  {
    var pre, post := s[..i], s[i + 1..];
    assert s == pre + [a] + post;
    assert multiset(s) == multiset(pre) + multiset{a} + multiset(post);
    assert multiset(pre + [b] + post) == multiset(pre) + multiset{b} + multiset(post);
  }

  /** Writing `b` at position `i` changes that position only. */
  lemma ChangeAtKeepsOthers(s: string, i: nat, b: char)
    requires i < |s|
    ensures var r := s[..i] + [b] + s[i + 1..];
            |r| == |s| && r[i] == b && forall k :: 0 <= k < |s| && k != i ==> r[k] == s[k]
  {
    var r := s[..i] + [b] + s[i + 1..];
    forall k | 0 <= k < |s| && k != i
      ensures r[k] == s[k]
    {
      if k < i {
        assert r[k] == s[..i][k];
      } else {
        assert r[k] == s[i + 1..][k - i - 1];
      }
    }
  }

  /**
   * `replace` leaves a string without `a` alone; otherwise it changes exactly
   * the first `a` into `b`, so for `a != b` one `a` fewer remains.
   */
  lemma ReplaceFirstSpec(s: string, a: char, b: char)
    ensures |ReplaceFirst(s, a, b)| == |s|
    ensures a !in s ==> ReplaceFirst(s, a, b) == s
    ensures a in s ==> var i := IndexOf(s, a);
                       ReplaceFirst(s, a, b)[i] == b
                       && (forall k :: 0 <= k < |s| && k != i ==> ReplaceFirst(s, a, b)[k] == s[k])
                       && (a != b ==> CountChar(ReplaceFirst(s, a, b), a) == CountChar(s, a) - 1)
  {
    var i := IndexOf(s, a);
    if i != -1 {
      ChangeAtKeepsOthers(s, i, b);
      if a != b {
        CountAfterChange(s, i, a, b);
      }
    }
  }
}
