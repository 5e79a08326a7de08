/** Decimal printing of indices, the %d verb used for volume names. */
module Decimal {
  const DIGITS := "0123456789"

  function Print(n: nat): (s: string)
    ensures |s| > 0
  {
    if n < 10 then [DIGITS[n]] else Print(n / 10) + [DIGITS[n % 10]]
  }

  lemma DigitInjective(a: nat, b: nat)
    requires a < 10 && b < 10 && DIGITS[a] == DIGITS[b]
    ensures a == b
  {
  }

  lemma {:induction false} PrintInjective(m: nat, n: nat)
    requires Print(m) == Print(n)
    ensures m == n
    decreases m
  {
    var a, b := Print(m), Print(n);
    assert a[|a| - 1] == DIGITS[m % 10] && b[|b| - 1] == DIGITS[n % 10];
    DigitInjective(m % 10, n % 10);
    if m < 10 || n < 10 {
      assert |a| == 1 && |b| == 1;
    } else {
      assert a[..|a| - 1] == Print(m / 10) && b[..|b| - 1] == Print(n / 10);
      PrintInjective(m / 10, n / 10);
    }
  }
}
