/**
 * Decimal rendering and reading of integers, as the front end does it when it
 * builds `Question #7`, `/polls/7/edit`, or reads the value of a radio button
 * back with `Number(value)`.
 */
module Decimal {
  import opened Wrappers

  predicate IsDigit(c: char) {
    '0' <= c <= '9'
  }

  predicate AllDigits(s: string) {
    forall i :: 0 <= i < |s| ==> IsDigit(s[i])
  }

  function DigitChar(d: nat): (c: char)
    requires d < 10
    ensures IsDigit(c) && c as int - '0' as int == d
  {
    (('0' as int) + d) as char
  }

  /** The decimal digits of `n`, most significant first, without leading zeros. */
  function NatString(n: nat): (s: string)
    ensures |s| > 0 && AllDigits(s)
    ensures |s| > 1 ==> s[0] != '0'
  {
    if n < 10 then [DigitChar(n)] else NatString(n / 10) + [DigitChar(n % 10)]
  }

  /** JavaScript's `String(n)` / template interpolation of an integer. */
  function IntString(n: int): (s: string)
    ensures |s| > 0
    ensures s[0] == '-' <==> n < 0
  {
    if n < 0 then "-" + NatString(-n) else NatString(n)
  }

  /** The value of a string of decimal digits. */
  function DigitsValue(s: string): nat
    requires AllDigits(s)
  {
    if s == [] then 0 else DigitsValue(s[..|s| - 1]) * 10 + (s[|s| - 1] as int - '0' as int)
  }

  /**
   * JavaScript's `Number(s)` on the strings the pages pass it: the empty string
   * is 0, an optional minus sign followed by decimal digits is that integer, and
   * every other string is `NaN` (here `None`; JSON serialises `NaN` as `null`).
   */
  function ParseNumber(s: string): (r: Option<int>)
    ensures AllDigits(s) && s != [] ==> r == Some(DigitsValue(s))
  {
    if s == [] then Some(0)
    else if AllDigits(s) then Some(DigitsValue(s))
    else if s[0] == '-' && |s| > 1 && AllDigits(s[1..]) then (var v: int := DigitsValue(s[1..]); Some(-v))
    else None
  }

  lemma {:induction false} NatStringValue(n: nat)
    ensures DigitsValue(NatString(n)) == n
  {
    if n >= 10 {
      var s := NatString(n);
      NatStringValue(n / 10);
      assert s[..|s| - 1] == NatString(n / 10);
    }
  }

  /** Reading back what `IntString` renders gives the same integer. */
  lemma IntStringRoundTrip(n: int)
    ensures ParseNumber(IntString(n)) == Some(n)
  {
    if n < 0 {
      var s := IntString(n);
      assert s[1..] == NatString(-n);
      NatStringValue(-n);
      assert !IsDigit(s[0]);
    } else {
      NatStringValue(n);
    }
  }
}
