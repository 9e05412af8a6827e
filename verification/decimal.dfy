/**
 * Decimal rendering of unsigned integers, as std::to_string produces it for an
 * unsigned int, together with the reading back of such a rendering.
 */
module Decimal {
  import opened Wrappers

  predicate IsDigit(c: char) {
    '0' <= c <= '9'
  }

  predicate IsDigits(s: string) {
    forall i :: 0 <= i < |s| ==> IsDigit(s[i])
  }

  function DigitChar(d: nat): (c: char)
    requires d < 10
    ensures IsDigit(c)
  {
    ('0' as int + d) as char
  }

  function DigitValue(c: char): nat
    requires IsDigit(c)
  {
    c as int - '0' as int
  }

  /**
   * The shortest decimal rendering of n: no sign, no leading zero except for
   * the single digit of zero itself.
   */
  function ToDecimal(n: nat): (s: string)
    ensures 0 < |s|
    ensures IsDigits(s)
    ensures s[0] == '0' <==> n == 0
    ensures n == 0 ==> s == "0"
  {
    if n < 10 then [DigitChar(n)]
    else ToDecimal(n / 10) + [DigitChar(n % 10)]
  }

  /** The number a non-empty digit string denotes. */
  function Value(s: string): nat
    requires IsDigits(s)
  {
    if |s| == 0 then 0
    else Value(s[..|s| - 1]) * 10 + DigitValue(s[|s| - 1])
  }

  /** Reads a decimal numeral back: None unless s is a non-empty string of digits. */
  function Parse(s: string): Option<nat> {
    if 0 < |s| && IsDigits(s) then Some(Value(s)) else None
  }

  /** Reading a rendering back yields the rendered number. */
  lemma {:induction false} ValueOfToDecimal(n: nat)
    ensures Value(ToDecimal(n)) == n
  {
    if n >= 10 {
      var s := ToDecimal(n);
      ValueOfToDecimal(n / 10);
      assert s[..|s| - 1] == ToDecimal(n / 10);
    }
  }

  lemma ParseToDecimal(n: nat)
    ensures Parse(ToDecimal(n)) == Some(n)
  {
    ValueOfToDecimal(n);
  }

  /** Distinct numbers have distinct renderings. */
  lemma ToDecimalInjective(m: nat, n: nat)
    ensures ToDecimal(m) == ToDecimal(n) <==> m == n
  {
    ParseToDecimal(m);
    ParseToDecimal(n);
  }
}
