/** Decimal digit strings: the two regular expressions the forms test
    (`^\d*$` while typing, `^\d+$` on submit), the number a digit string
    denotes (what `Number(...)` yields once `^\d+$` has passed) and the
    decimal rendering of an integer (what `toString()` yields). */
module Digits {

  /** JavaScript's `\d`: the ASCII digits only. */
  predicate IsDigit(c: char) {
    '0' <= c <= '9'
  }

  /** `^\d*$`: every character is a digit; the empty string passes. */
  predicate AllDigits(s: string) {
    forall i :: 0 <= i < |s| ==> IsDigit(s[i])
  }

  /** `^\d+$`: at least one character, all of them digits. */
  predicate NonEmptyDigits(s: string) {
    |s| > 0 && AllDigits(s)
  }

  /** A digit string without superfluous leading zeros, as `toString()` of a
      non-negative integer produces it. */
  predicate Canonical(s: string) {
    NonEmptyDigits(s) && (s[0] == '0' ==> |s| == 1)
  }

  function DigitValue(c: char): (d: nat)
    requires IsDigit(c)
    ensures d < 10
  {
    c as int - '0' as int
  }

  function DigitChar(d: nat): (c: char)
    requires d < 10
    ensures IsDigit(c) && DigitValue(c) == d
  {
    ('0' as int + d) as char
  }

  /** The natural number a digit string denotes, most significant digit
      first (leading zeros do not change it: ParseLeadingZero). */
  function ParseDigits(s: string): (r: nat)
    requires AllDigits(s)
    ensures r == 0 <==> forall i :: 0 <= i < |s| ==> s[i] == '0'
  {
    if s == [] then 0
    else 10 * ParseDigits(s[..|s| - 1]) + DigitValue(s[|s| - 1])
  }

  /** Decimal rendering of a natural number. */
  function NatToString(n: nat): (r: string)
    ensures Canonical(r)
    ensures r[0] == '0' <==> n == 0
  {
    if n < 10 then [DigitChar(n)]
    else NatToString(n / 10) + [DigitChar(n % 10)]
  }

  /** Decimal rendering of an integer: a minus sign in front of negative
      values, which therefore never pass `^\d+$`. */
  function IntToString(i: int): (r: string)
    ensures NonEmptyDigits(r) <==> i >= 0
    ensures i >= 0 ==> Canonical(r)
  {
    if i < 0 then
      var r := "-" + NatToString(-i);
      assert !IsDigit(r[0]);
      r
    else NatToString(i)
  }

  /** Reading back a rendered natural number gives the number. */
  lemma {:induction false} ParseNatToString(n: nat)
    ensures ParseDigits(NatToString(n)) == n
  {
    var s := NatToString(n);
    if n >= 10 {
      ParseNatToString(n / 10);
      assert s[..|s| - 1] == NatToString(n / 10);
    }
  }

  /** Rendering the value of a canonical digit string gives the string back. */
  lemma {:induction false} NatToStringParse(s: string)
    requires Canonical(s)
    ensures NatToString(ParseDigits(s)) == s
  {
    if |s| > 1 {
      var p := s[..|s| - 1];
      assert p[0] == s[0];
      NatToStringParse(p);
      var v := ParseDigits(s);
      assert v / 10 == ParseDigits(p) && v % 10 == DigitValue(s[|s| - 1]);
      assert s == p + [s[|s| - 1]];
    }
  }

  /** A zero in front of a digit string does not change its value. */
  lemma {:induction false} ParseLeadingZero(s: string)
    requires AllDigits(s)
    ensures AllDigits("0" + s) && ParseDigits("0" + s) == ParseDigits(s)
  {
    var z := "0" + s;
    if s != [] {
      assert z[..|z| - 1] == "0" + s[..|s| - 1];
      ParseLeadingZero(s[..|s| - 1]);
    }
  }

  /** A digit string with its superfluous leading zeros removed. */
  function StripLeadingZeros(s: string): (r: string)
    requires NonEmptyDigits(s)
    ensures Canonical(r)
    ensures ParseDigits(r) == ParseDigits(s)
  {
    if |s| > 1 && s[0] == '0' then
      ParseLeadingZero(s[1..]);
      assert s == "0" + s[1..];
      StripLeadingZeros(s[1..])
    else s
  }

  /** The value of any digit string, rendered again, is that string without
      its superfluous leading zeros: `Number("007")` is 7. */
  lemma RenderParsed(s: string)
    requires NonEmptyDigits(s)
    ensures NatToString(ParseDigits(s)) == StripLeadingZeros(s)
  {
    NatToStringParse(StripLeadingZeros(s));
  }
}
