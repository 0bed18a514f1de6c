/** Decimal numerals, as strconv.FormatInt prints them and fmt.Sscanf's %d reads them. */
module Decimal {
  predicate IsDigit(c: char) {
    '0' <= c <= '9'
  }

  function DigitChar(d: nat): (c: char)
    requires d < 10
    ensures IsDigit(c) && DigitValue(c) == d
  {
    (d + 48) as char
  }

  function DigitValue(c: char): (d: nat)
    requires IsDigit(c)
    ensures d < 10
  {
    (c as int) - 48
  }

  function FormatNat(n: nat): (s: string)
    ensures |s| > 0 && forall i :: 0 <= i < |s| ==> IsDigit(s[i])
  {
    if n < 10 then [DigitChar(n)] else FormatNat(n / 10) + [DigitChar(n % 10)]
  }

  function FormatInt(z: int): (s: string) {
    if z < 0 then "-" + FormatNat(-z) else FormatNat(z)
  }

  /** The value of a non-empty numeral. */
  function Value(s: string): nat
    requires forall i :: 0 <= i < |s| ==> IsDigit(s[i])
  {
    if s == [] then 0 else 10 * Value(s[..|s| - 1]) + DigitValue(s[|s| - 1])
  }

  lemma {:induction false} ValueOfFormat(n: nat)
    ensures Value(FormatNat(n)) == n
  {
    if n >= 10 {
      ValueOfFormat(n / 10);
      var s := FormatNat(n);
      assert s[..|s| - 1] == FormatNat(n / 10);
    } else {
      assert FormatNat(n)[..0] == [];
    }
  }

  lemma Sign(z: int)
    ensures FormatInt(z) != [] && (FormatInt(z)[0] == '-' <==> z < 0)
    ensures z >= 0 ==> IsDigit(FormatInt(z)[0])
  {
  }

  /** Different integers print differently. */
  lemma FormatIntInjective(x: int, y: int)
    requires FormatInt(x) == FormatInt(y)
    ensures x == y
  {
    Sign(x);
    Sign(y);
    if x < 0 {
      assert FormatInt(x)[1..] == FormatNat(-x) && FormatInt(y)[1..] == FormatNat(-y);
      ValueOfFormat(-x);
      ValueOfFormat(-y);
    } else {
      ValueOfFormat(x);
      ValueOfFormat(y);
    }
  }
}
