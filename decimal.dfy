/**
 * The two conversions that turn a clock reading into a timestamp string:
 * Float#to_i (truncation toward zero) and Integer#to_s (base-ten text with a
 * leading '-' for negative numbers), with the parser that undoes the latter.
 */
module Decimal {

  predicate IsDigit(c: char) {
    '0' <= c <= '9'
  }

  /** A character that can occur in the text of an integer. */
  predicate IsIntegerChar(c: char) {
    c == '-' || IsDigit(c)
  }

  predicate AllDigits(s: string) {
    forall i :: 0 <= i < |s| ==> IsDigit(s[i])
  }

  function DigitChar(d: nat): (c: char)
    requires d < 10
    ensures IsDigit(c) && c as int - '0' as int == d
  {
    ('0' as int + d) as char
  }

  /** Integer#to_s on a non-negative integer: its base-ten digits, without leading zeros. */
  function NatToDecimal(n: nat): (r: string)
    ensures |r| > 0 && AllDigits(r)
    ensures |r| > 1 ==> r[0] != '0'
    decreases n
  {
    if n < 10 then [DigitChar(n)] else NatToDecimal(n / 10) + [DigitChar(n % 10)]
  }

  /** The number a string of digits denotes. */
  function DigitsValue(s: string): nat
    requires AllDigits(s)
  {
    if |s| == 0 then 0 else DigitsValue(s[..|s| - 1]) * 10 + (s[|s| - 1] as int - '0' as int)
  }

  lemma {:induction false} NatRoundTrip(n: nat)
    ensures DigitsValue(NatToDecimal(n)) == n
    decreases n
  {
    if n >= 10 {
      var r := NatToDecimal(n);
      assert r[..|r| - 1] == NatToDecimal(n / 10);
      NatRoundTrip(n / 10);
    }
  }

  /** Integer#to_s: base ten, with a leading '-' for a negative number. */
  function IntToDecimal(i: int): string
  {
    if i < 0 then "-" + NatToDecimal(-i) else NatToDecimal(i)
  }

  /** The integer that Integer#to_s text denotes: the inverse of IntToDecimal. */
  function ParseInteger(s: string): int
  {
    if |s| > 0 && s[0] == '-' && AllDigits(s[1..]) then -(DigitsValue(s[1..]) as int)
    else if AllDigits(s) then DigitsValue(s)
    else 0
  }

  lemma {:induction false} IntRoundTrip(i: int)
    ensures ParseInteger(IntToDecimal(i)) == i
  {
    if i < 0 {
      assert IntToDecimal(i)[1..] == NatToDecimal(-i);
      NatRoundTrip(-i);
    } else {
      NatRoundTrip(i);
    }
  }

  lemma {:induction false} IntToDecimalInjective(i: int, j: int)
    requires IntToDecimal(i) == IntToDecimal(j)
    ensures i == j
  {
    IntRoundTrip(i);
    IntRoundTrip(j);
  }

  lemma IntToDecimalChars(i: int)
    ensures |IntToDecimal(i)| > 0
    ensures forall k :: 0 <= k < |IntToDecimal(i)| ==> IsIntegerChar(IntToDecimal(i)[k])
  {
  }

  /** Float#to_i: the real rounded toward zero. */
  function Truncate(x: real): (r: int)
    ensures 0.0 <= x ==> r as real <= x < r as real + 1.0
    ensures x < 0.0 ==> r as real - 1.0 < x <= r as real
  {
    if 0.0 <= x then x.Floor else -((-x).Floor)
  }

  /** Time#to_i: the real rounded down to the whole number below it. */
  function Floor(x: real): (r: int)
    ensures r as real <= x < r as real + 1.0
  {
    x.Floor
  }

  /** The longest prefix of `s` made of integer characters. */
  function LeadingInteger(s: string): (r: string)
    ensures r <= s
    decreases |s|
  {
    if |s| > 0 && IsIntegerChar(s[0]) then [s[0]] + LeadingInteger(s[1..]) else ""
  }

  /** The integer text at the head of `p + rest` is `p` when `rest` does not continue it. */
  lemma {:induction false} LeadingIntegerOf(p: string, rest: string)
    requires forall k :: 0 <= k < |p| ==> IsIntegerChar(p[k])
    requires |rest| > 0 && !IsIntegerChar(rest[0])
    ensures LeadingInteger(p + rest) == p
    decreases |p|
  {
    if |p| == 0 {
      assert p + rest == rest;
    } else {
      assert (p + rest)[1..] == p[1..] + rest;
      LeadingIntegerOf(p[1..], rest);
      assert [p[0]] + p[1..] == p;
    }
  }
}
