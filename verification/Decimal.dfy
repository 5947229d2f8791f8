/** Decimal notation of natural numbers. */
module Decimal {
  /** How many digits a number has. */
  function Digits(n: nat): (d: nat)
    ensures d >= 1
  {
    if n < 10 then 1 else 1 + Digits(n / 10)
  }

  lemma {:induction false} DigitsMonotone(a: nat, b: nat)
    requires a <= b
    ensures Digits(a) <= Digits(b)
  {
    if a >= 10 { DigitsMonotone(a / 10, b / 10); }
  }

  /** A number below ten times another (and a bit) has at most one digit more. */
  lemma DigitsTenfold(a: nat, b: nat)
    requires a <= 10 * b + 9
    ensures Digits(a) <= Digits(b) + 1
  {
    if a >= 10 { DigitsMonotone(a / 10, b); }
  }

  predicate IsDigit(c: char) {
    '0' <= c <= '9'
  }

  function DigitChar(d: nat): (c: char)
    requires d < 10
    ensures IsDigit(c)
  {
    '0' + d as char
  }

  function DigitValue(c: char): (d: nat)
    requires IsDigit(c)
    ensures d < 10
  {
    (c - '0') as nat
  }

  predicate AllDigits(s: string) {
    forall i :: 0 <= i < |s| ==> IsDigit(s[i])
  }

  function ToString(n: nat): (s: string)
    ensures |s| == Digits(n) && AllDigits(s)
  {
    if n < 10 then [DigitChar(n)] else ToString(n / 10) + [DigitChar(n % 10)]
  }

  /** The number a digit string denotes; leading zeros are allowed. */
  function ToNat(s: string): nat
    requires AllDigits(s)
  {
    if s == [] then 0 else 10 * ToNat(s[..|s| - 1]) + DigitValue(s[|s| - 1])
  }

  lemma DigitBack(d: nat)
    requires d < 10
    ensures DigitValue(DigitChar(d)) == d
  {
  }

  lemma {:induction false} ReadBack(n: nat)
    ensures ToNat(ToString(n)) == n
  {
    var s := ToString(n);
    DigitBack(n % 10);
    if n < 10 {
      assert s[..0] == [];
    } else {
      ReadBack(n / 10);
      assert s[..|s| - 1] == ToString(n / 10);
    }
  }
}
