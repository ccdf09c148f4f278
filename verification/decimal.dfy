/** Decimal digit strings: the rendering of a non-negative integer that a
    JavaScript template literal produces, and the value of a digit string. */
module Decimal {

  predicate IsDigit(c: char) {
    '0' <= c <= '9'
  }

  predicate AllDigits(s: string) {
    forall i :: 0 <= i < |s| ==> IsDigit(s[i])
  }

  /** A canonical numeral: at least one digit and no superfluous leading zero. */
  predicate IsCanonical(s: string) {
    && |s| >= 1
    && AllDigits(s)
    && (|s| > 1 ==> s[0] != '0')
  }

  function DigitChar(d: nat): (c: char)
    requires d < 10
    ensures IsDigit(c)
  {
    ('0' as int + d) as char
  }

  function DigitValue(c: char): (d: nat)
    requires IsDigit(c)
    ensures d < 10
    ensures DigitChar(d) == c
  {
    c as int - '0' as int
  }

  /** The value of a digit string read most-significant digit first; the empty string is 0. */
  function FromDigits(ds: string): nat
    requires AllDigits(ds)
    decreases |ds|
  {
    if ds == [] then 0
    else FromDigits(ds[..|ds| - 1]) * 10 + DigitValue(ds[|ds| - 1])
  }

  /** The decimal numeral of `n`, as `String(n)` renders a non-negative integer below 10^21
      (above that, JavaScript switches to exponent notation). */
  function ToDigits(n: nat): (s: string)
    ensures IsCanonical(s)
    decreases n
  {
    if n < 10 then [DigitChar(n)]
    else ToDigits(n / 10) + [DigitChar(n % 10)]
  }

  /** Reading back a rendered numeral gives the number rendered. */
  lemma {:induction false} FromToDigits(n: nat)
    ensures FromDigits(ToDigits(n)) == n
  {
    if n >= 10 {
      var s := ToDigits(n / 10);
      var t := s + [DigitChar(n % 10)];
      assert t[..|t| - 1] == s;
      FromToDigits(n / 10);
    }
  }

  /** A digit string that starts with a non-zero digit has a positive value. */
  lemma {:induction false} LeadingDigitPositive(ds: string)
    requires |ds| >= 1 && AllDigits(ds) && ds[0] != '0'
    ensures FromDigits(ds) >= 1
  {
    if |ds| > 1 {
      var init := ds[..|ds| - 1];
      assert init[0] == ds[0];
      LeadingDigitPositive(init);
    }
  }

  /** Every canonical numeral is the rendering of its own value: the two
      functions are mutually inverse on canonical numerals. */
  lemma {:induction false} ToFromDigits(ds: string)
    requires IsCanonical(ds)
    ensures ToDigits(FromDigits(ds)) == ds
  {
    if |ds| > 1 {
      var init := ds[..|ds| - 1];
      var d := DigitValue(ds[|ds| - 1]);
      assert init[0] == ds[0];
      LeadingDigitPositive(init);
      ToFromDigits(init);
      var n := FromDigits(ds);
      assert n == FromDigits(init) * 10 + d;
      assert n / 10 == FromDigits(init) && n % 10 == d;
      assert ds == init + [ds[|ds| - 1]];
    }
  }
}
