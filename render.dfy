/** How the JavaScript runtime turns the generator's numbers into text, and
    ASCII `String.prototype.toLowerCase`.

    Every number the generator interpolates into CSS has gone through
    `round`, so it is an integer number of hundredths `k / 100`. JavaScript
    prints such a number as its shortest round-tripping decimal: the integer
    part, then a point and one or two fraction digits only when the fraction
    is non-zero, with a leading `-` for negative values (`-0` prints as `0`).
    `HundredthsStr` renders exactly that, and `ParseHundredths` reads it back. */
module Render {
  import opened Results

  predicate IsDigit(c: char) {
    '0' <= c <= '9'
  }

  predicate AllDigits(s: string) {
    forall i :: 0 <= i < |s| ==> IsDigit(s[i])
  }

  function Digit(d: nat): char
    requires d < 10
  {
    "0123456789"[d]
  }

  lemma DigitValueOf(d: nat)
    requires d < 10
    ensures IsDigit(Digit(d)) && DigitValue(Digit(d)) == d
  {
  }

  function DigitValue(c: char): nat
    requires IsDigit(c)
  {
    c as int - '0' as int
  }

  /** The decimal digits of `n`, without leading zeros. */
  function NatStr(n: nat): string {
    if n < 10 then [Digit(n)] else NatStr(n / 10) + [Digit(n % 10)]
  }

  /** `NatStr` prints digits only, with no leading zero. */
  lemma {:induction false} NatStrDigits(n: nat)
    ensures |NatStr(n)| > 0 && AllDigits(NatStr(n))
    ensures |NatStr(n)| > 1 ==> NatStr(n)[0] != '0'
  {
    DigitValueOf(n % 10);
    if n >= 10 {
      NatStrDigits(n / 10);
    }
  }

  /** The value of a non-empty string of decimal digits. */
  function ParseDigits(s: string): nat
    requires |s| > 0 && AllDigits(s)
  {
    if |s| == 1 then DigitValue(s[0])
    else 10 * ParseDigits(s[..|s| - 1]) + DigitValue(s[|s| - 1])
  }

  lemma {:induction false} ParseNatStr(n: nat)
    requires |NatStr(n)| > 0 && AllDigits(NatStr(n))
    ensures ParseDigits(NatStr(n)) == n
  {
    DigitValueOf(n % 10);
    if n >= 10 {
      NatStrDigits(n / 10);
      var s := NatStr(n);
      assert s[..|s| - 1] == NatStr(n / 10);
      ParseNatStr(n / 10);
    }
  }

  /** `${k}` for an integer `k`. */
  function IntStr(k: int): string {
    if k < 0 then "-" + NatStr(-k) else NatStr(k)
  }

  /** Reads back an optionally signed integer. */
  function ParseInt(s: string): Option<int> {
    if |s| > 0 && s[0] == '-' then
      (if |s| > 1 && AllDigits(s[1..]) then var n: int := ParseDigits(s[1..]); Some(-n) else None)
    else if |s| > 0 && AllDigits(s) then Some(ParseDigits(s))
    else None
  }

  /** Printing an integer loses nothing: it can be read back. */
  lemma ParseIntStr(k: int)
    ensures ParseInt(IntStr(k)).Some? && ParseInt(IntStr(k)).value == k
  {
    if k < 0 {
      NatStrDigits(-k);
      assert IntStr(k)[1..] == NatStr(-k);
      ParseNatStr(-k);
    } else {
      NatStrDigits(k);
      ParseNatStr(k);
    }
  }

  /** The fraction part of a number of hundredths `f` (`0 <= f < 100`):
      nothing when it is zero, otherwise a point and its digits without a
      trailing zero. */
  function FractionStr(f: nat): string
    requires f < 100
  {
    if f == 0 then []
    else if f % 10 == 0 then ['.', Digit(f / 10)]
    else ['.', Digit(f / 10), Digit(f % 10)]
  }

  /** The fraction part is empty for a whole number, and otherwise a point
      followed by one or two digits, the last of them not a zero. */
  lemma FractionStrShape(f: nat)
    requires f < 100
    ensures var s := FractionStr(f);
      && (s == [] <==> f == 0)
      && (s != [] ==> s[0] == '.' && (|s| == 2 || |s| == 3) && AllDigits(s[1..]))
      && (|s| > 0 ==> s[|s| - 1] != '0')
  {
    DigitValueOf(f / 10);
    DigitValueOf(f % 10);
  }

  /** `${k / 100}`: how JavaScript prints the number `k / 100`. */
  function HundredthsStr(k: int): string {
    var a := if k < 0 then -k else k;
    (if k < 0 then "-" else "") + NatStr(a / 100) + FractionStr(a % 100)
  }

  /** How many digits `s` starts with. */
  function DigitPrefix(s: string): (n: nat)
    ensures n <= |s| && AllDigits(s[..n])
    ensures n < |s| ==> !IsDigit(s[n])
  {
    if |s| > 0 && IsDigit(s[0]) then 1 + DigitPrefix(s[1..]) else 0
  }

  lemma {:induction false} DigitPrefixOf(d: string, rest: string)
    requires AllDigits(d)
    requires rest == [] || !IsDigit(rest[0])
    ensures DigitPrefix(d + rest) == |d|
  {
    if |d| > 0 {
      assert (d + rest)[1..] == d[1..] + rest;
      DigitPrefixOf(d[1..], rest);
    }
  }

  /** Reads back a fraction part (nothing, or a point and one or two
      digits) as a number of hundredths. */
  function ParseFraction(rest: string): Option<nat> {
    if rest == [] then Some(0)
    else if |rest| == 2 && rest[0] == '.' && IsDigit(rest[1]) then
      Some(10 * DigitValue(rest[1]))
    else if |rest| == 3 && rest[0] == '.' && IsDigit(rest[1]) && IsDigit(rest[2]) then
      Some(10 * DigitValue(rest[1]) + DigitValue(rest[2]))
    else None
  }

  /** Reads back an unsigned decimal with at most two fraction digits, as a
      number of hundredths. */
  function ParseUnsignedHundredths(s: string): Option<nat> {
    var n := DigitPrefix(s);
    if n == 0 then None
    else
      var fraction := ParseFraction(s[n..]);
      if fraction.None? then None else Some(100 * ParseDigits(s[..n]) + fraction.value)
  }

  /** Reads back an optionally signed decimal as a number of hundredths. */
  function ParseHundredths(s: string): Option<int> {
    if |s| > 0 && s[0] == '-' then
      match ParseUnsignedHundredths(s[1..])
      case Some(a) => var n: int := a; Some(-n)
      case None => None
    else
      match ParseUnsignedHundredths(s)
      case Some(a) => Some(a)
      case None => None
  }

  /** A fraction part reads back as its number of hundredths. */
  lemma FractionRoundTrip(h: nat)
    requires h < 100
    ensures ParseFraction(FractionStr(h)) == Some(h)
  {
    DigitValueOf(h / 10);
    DigitValueOf(h % 10);
  }

  /** Digits followed by a readable fraction part read back as the whole
      number of hundredths they print. */
  lemma ParseWholeAndFraction(d: string, f: string, h: nat)
    requires |d| > 0 && AllDigits(d)
    requires ParseFraction(f) == Some(h)
    ensures ParseUnsignedHundredths(d + f).Some?
    ensures ParseUnsignedHundredths(d + f).value == 100 * ParseDigits(d) + h
  {
    var s := d + f;
    assert f == [] || f[0] == '.';
    DigitPrefixOf(d, f);
    assert s[..|d|] == d && s[|d|..] == f;
  }

  lemma UnsignedRoundTrip(a: nat)
    ensures ParseUnsignedHundredths(NatStr(a / 100) + FractionStr(a % 100)).Some?
    ensures ParseUnsignedHundredths(NatStr(a / 100) + FractionStr(a % 100)).value == a
  {
    NatStrDigits(a / 100);
    ParseNatStr(a / 100);
    FractionRoundTrip(a % 100);
    ParseWholeAndFraction(NatStr(a / 100), FractionStr(a % 100), a % 100);
  }

  /** Printing a number of hundredths loses nothing: it can be read back. */
  lemma ParseHundredthsStr(k: int)
    ensures ParseHundredths(HundredthsStr(k)) == Some(k)
  {
    var a := if k < 0 then -k else k;
    var u := NatStr(a / 100) + FractionStr(a % 100);
    NatStrDigits(a / 100);
    UnsignedRoundTrip(a);
    assert IsDigit(u[0]);
    if k < 0 {
      var s := "-" + u;
      assert HundredthsStr(k) == s;
      assert s[1..] == u;
    } else {
      assert HundredthsStr(k) == u;
    }
  }

  /** A character that can occur in a printed number. */
  predicate IsNumChar(c: char) {
    IsDigit(c) || c == '-' || c == '.'
  }

  /** How many characters of a printed number `s` starts with. */
  function NumPrefix(s: string): (n: nat)
    ensures n <= |s|
  {
    if |s| > 0 && IsNumChar(s[0]) then 1 + NumPrefix(s[1..]) else 0
  }

  /** A printed number is made of number characters only. */
  lemma HundredthsStrChars(k: int)
    ensures |HundredthsStr(k)| > 0
    ensures forall i :: 0 <= i < |HundredthsStr(k)| ==> IsNumChar(HundredthsStr(k)[i])
  {
    var a := if k < 0 then -k else k;
    NatStrDigits(a / 100);
    FractionStrShape(a % 100);
    var sign, d, f := (if k < 0 then "-" else ""), NatStr(a / 100), FractionStr(a % 100);
    assert HundredthsStr(k) == sign + d + f;
    forall i | 0 <= i < |sign + d + f| ensures IsNumChar((sign + d + f)[i]) {
      if i < |sign| {
      } else if i < |sign| + |d| {
        assert (sign + d + f)[i] == d[i - |sign|];
      } else if i == |sign| + |d| {
        assert (sign + d + f)[i] == f[0];
      } else {
        assert (sign + d + f)[i] == f[1..][i - |sign| - |d| - 1];
      }
    }
  }

  lemma {:induction false} NumPrefixOf(d: string, rest: string)
    requires forall i :: 0 <= i < |d| ==> IsNumChar(d[i])
    requires rest == [] || !IsNumChar(rest[0])
    ensures NumPrefix(d + rest) == |d|
  {
    if |d| > 0 {
      assert (d + rest)[1..] == d[1..] + rest;
      NumPrefixOf(d[1..], rest);
    }
  }

  /** Reads a printed number off the front of `s`, as a number of hundredths,
      and returns it with the text that follows it. */
  function ReadNum(s: string): Option<(int, string)> {
    var n := NumPrefix(s);
    var k :- ParseHundredths(s[..n]);
    Some((k, s[n..]))
  }

  lemma ReadNumStr(k: int, rest: string)
    requires rest == [] || !IsNumChar(rest[0])
    ensures ReadNum(HundredthsStr(k) + rest) == Some((k, rest))
  {
    var d := HundredthsStr(k);
    HundredthsStrChars(k);
    NumPrefixOf(d, rest);
    assert (d + rest)[..|d|] == d;
    assert (d + rest)[|d|..] == rest;
    ParseHundredthsStr(k);
  }

  /** Strips the literal `lit` off the front of `s`. */
  function Expect(lit: string, s: string): Option<string> {
    if |lit| <= |s| && s[..|lit|] == lit then Some(s[|lit|..]) else None
  }

  lemma ExpectLiteral(lit: string, rest: string)
    ensures Expect(lit, lit + rest) == Some(rest)
  {
    assert (lit + rest)[..|lit|] == lit;
    assert (lit + rest)[|lit|..] == rest;
  }

  /** The number of hundredths in `v`, exact when `v` is a multiple of 1/100. */
  function FloorHundredths(v: real): int {
    (100.0 * v).Floor
  }

  /** `${v}` for a number `v` that `round` produced. */
  function NumStr(v: real): string {
    HundredthsStr(FloorHundredths(v))
  }

  lemma NumStrOfHundredths(k: int)
    ensures NumStr(k as real / 100.0) == HundredthsStr(k)
  {
    assert 100.0 * (k as real / 100.0) == k as real;
  }

  /** Two multiples of 1/100 print the same only when they are equal. */
  lemma NumStrInjective(j: int, k: int)
    requires NumStr(j as real / 100.0) == NumStr(k as real / 100.0)
    ensures j == k
  {
    NumStrOfHundredths(j);
    NumStrOfHundredths(k);
    ParseHundredthsStr(j);
    ParseHundredthsStr(k);
  }

  /** ASCII part of `toLowerCase`. */
  function LowerChar(c: char): char {
    if 'A' <= c <= 'Z' then (c as int + 32) as char else c
  }

  /** `s.toLowerCase()` on the ASCII letters of `s`. */
  function ToLower(s: string): string {
    if s == [] then [] else [LowerChar(s[0])] + ToLower(s[1..])
  }

  /** Lower-casing keeps the length, leaves no ASCII capital and changes
      nothing but ASCII capitals. */
  lemma {:induction false} ToLowerSpec(s: string)
    ensures |ToLower(s)| == |s|
    ensures forall i :: 0 <= i < |s| ==> !('A' <= ToLower(s)[i] <= 'Z')
    ensures forall i :: 0 <= i < |s| && !('A' <= s[i] <= 'Z') ==> ToLower(s)[i] == s[i]
    ensures forall i :: 0 <= i < |s| && 'A' <= s[i] <= 'Z' ==> ToLower(s)[i] as int == s[i] as int + 32
  {
    if s != [] {
      ToLowerSpec(s[1..]);
      assert forall i :: 1 <= i < |s| ==> ToLower(s)[i] == ToLower(s[1..])[i - 1];
    }
  }
}
