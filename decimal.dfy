/**
 * How a JavaScript template literal prints an integer Number:
 * an optional minus sign followed by decimal digits without leading zeros.
 * The result card interpolates the book id, page count, release year and
 * shelf size this way.
 */
module Decimal {

  /** The digit character for `d`. */
  function DigitChar(d: nat): (c: char)
    requires d < 10
    ensures '0' <= c <= '9'
    ensures c as int - '0' as int == d
  {
    ('0' as int + d) as char
  }

  predicate IsDigits(s: string) {
    forall i :: 0 <= i < |s| ==> '0' <= s[i] <= '9'
  }

  /** `String(n)` for a non-negative integer `n`. */
  function NatText(n: nat): (s: string)
    ensures |s| > 0 && IsDigits(s)
    ensures s[0] == '0' ==> s == "0"
    decreases n
  {
    if n < 10 then [DigitChar(n)] else NatText(n / 10) + [DigitChar(n % 10)]
  }

  /** The number a string of decimal digits denotes. */
  function DigitsValue(s: string): nat
    requires IsDigits(s)
  {
    if s == [] then 0 else 10 * DigitsValue(s[..|s| - 1]) + (s[|s| - 1] as int - '0' as int)
  }

  /** Reading the printed digits back gives the number. */
  lemma {:induction false} NatTextRoundTrip(n: nat)
    ensures DigitsValue(NatText(n)) == n
  {
    if n >= 10 {
      var s := NatText(n / 10);
      var t := s + [DigitChar(n % 10)];
      assert t[..|t| - 1] == s;
      NatTextRoundTrip(n / 10);
    }
  }

  lemma NatTextInjective(a: nat, b: nat)
    requires NatText(a) == NatText(b)
    ensures a == b
  {
    NatTextRoundTrip(a);
    NatTextRoundTrip(b);
  }

  /** `String(i)` for any integer `i`. */
  function IntText(i: int): (s: string)
    ensures |s| > 0
    ensures s[0] == '-' <==> i < 0
    ensures i >= 0 ==> s == NatText(i)
    ensures i < 0 ==> s[1..] == NatText(-i)
  {
    if i < 0 then "-" + NatText(-i) else NatText(i)
  }

  /** Text of the form `String(i)` produces: digits, or "-" followed by digits. */
  predicate IsIntText(s: string) {
    IsDigits(s) || (|s| > 1 && s[0] == '-' && IsDigits(s[1..]))
  }

  /** The integer a signed decimal text denotes. */
  function IntValue(s: string): int
    requires IsIntText(s)
  {
    if IsDigits(s) then DigitsValue(s) else -(DigitsValue(s[1..]) as int)
  }

  /** Reading the printed text back, sign included, gives the integer. */
  lemma {:induction false} IntTextRoundTrip(i: int)
    ensures IsIntText(IntText(i)) && IntValue(IntText(i)) == i
  {
    if i < 0 {
      NatTextRoundTrip(-i);
    } else {
      NatTextRoundTrip(i);
    }
  }

  /** Distinct integers print differently. */
  lemma IntTextInjective(a: int, b: int)
    requires IntText(a) == IntText(b)
    ensures a == b
  {
    IntTextRoundTrip(a);
    IntTextRoundTrip(b);
  }
}
