/**
 * Decimal text of 32-bit integers, as Kotlin writes it (`Int.toString()`, also used
 * by string concatenation `"prefix" + id`) and reads it back (`String.toIntOrNull()`).
 */
module Decimal {
  import opened Wrappers

  const INT_MIN: int := -0x8000_0000
  const INT_MAX: int := 0x7fff_ffff

  /** Kotlin's `Int`. */
  type Int32 = x: int | INT_MIN <= x <= INT_MAX

  predicate IsDigit(c: char) {
    '0' <= c <= '9'
  }

  predicate AllDigits(s: string) {
    forall i :: 0 <= i < |s| ==> IsDigit(s[i])
  }

  function DigitValue(c: char): (v: nat)
    requires IsDigit(c)
  {
    (c as int) - ('0' as int)
  }

  function DigitChar(d: nat): (c: char)
    requires d < 10
    ensures IsDigit(c) && DigitValue(c) == d
  {
    (('0' as int) + d) as char
  }

  /** The number a string of decimal digits denotes, most significant digit first. */
  function DigitsValue(s: string): (v: nat)
    requires AllDigits(s)
  {
    if s == [] then 0 else DigitsValue(s[..|s| - 1]) * 10 + DigitValue(s[|s| - 1])
  }

  /** The decimal digits of `n`, without leading zeros. */
  function NatToDigits(n: nat): (digits: string) {
    if n < 10 then [DigitChar(n)] else NatToDigits(n / 10) + [DigitChar(n % 10)]
  }

  /** The digits of `n` are a non-empty digit string without a leading zero that denotes `n`. */
  lemma {:induction false} NatToDigitsValue(n: nat)
    ensures var s := NatToDigits(n);
      |s| > 0 && AllDigits(s) && DigitsValue(s) == n && (|s| > 1 ==> s[0] != '0')
  {
    if n >= 10 {
      NatToDigitsValue(n / 10);
      var s := NatToDigits(n);
      assert s[..|s| - 1] == NatToDigits(n / 10);
    }
  }

  /** `Int.toString()`: a minus sign for negative numbers, then the digits of the magnitude. */
  function IntToString(n: int): (text: string) {
    if n < 0 then "-" + NatToDigits(-n) else NatToDigits(n)
  }

  /**
   * `String.toIntOrNull()` in radix 10: an optional '-' or '+', then at least one
   * digit, and the value must fit in an `Int`; anything else gives null.
   */
  function ParseInt(s: string): (r: Option<Int32>)
    ensures r.Some? ==> |s| > 0 && (IsDigit(s[0]) || s[0] == '-' || s[0] == '+')
  {
    if |s| == 0 then None
    else if s[0] == '-' || s[0] == '+' then
      if |s| == 1 || !AllDigits(s[1..]) then None
      else
        var m: int := DigitsValue(s[1..]);
        var v: int := if s[0] == '-' then -m else m;
        if INT_MIN <= v <= INT_MAX then Some(v) else None
    else if AllDigits(s) then
      var v := DigitsValue(s);
      if v <= INT_MAX then Some(v) else None
    else None
  }

  /** Reading back what `Int.toString()` wrote gives the same number. */
  lemma ParseIntRoundTrip(n: Int32)
    ensures ParseInt(IntToString(n)) == Some(n)
  {
    var d := NatToDigits(if n < 0 then -(n as int) else n);
    NatToDigitsValue(if n < 0 then -(n as int) else n);
    if n < 0 {
      assert ("-" + d)[1..] == d;
    }
  }

  /** Different numbers have different decimal text. */
  lemma IntToStringInjective(a: int, b: int)
    requires IntToString(a) == IntToString(b)
    ensures a == b
  {
    var da := NatToDigits(if a < 0 then -a else a);
    var db := NatToDigits(if b < 0 then -b else b);
    NatToDigitsValue(if a < 0 then -a else a);
    NatToDigitsValue(if b < 0 then -b else b);
    if a < 0 {
      assert IntToString(a)[0] == '-' && da == IntToString(a)[1..];
    }
    if b < 0 {
      assert IntToString(b)[0] == '-' && db == IntToString(b)[1..];
    }
  }
}
