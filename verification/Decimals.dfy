/** Decimal numerals of natural numbers, as Number() reads and String() writes them below 10^21. */
module Decimals {
  import opened Base

  predicate AllDigits(t: Text) { forall i :: 0 <= i < |t| ==> Digit(t[i]) }

  function Dec(n: nat): (t: Text)
    ensures t != [] && AllDigits(t)
  {
    if n < 10 then [48 + n] else Dec(n / 10) + [48 + n % 10]
  }

  function Val(t: Text): (n: nat)
    requires AllDigits(t)
  {
    if t == [] then 0 else Val(t[..|t| - 1]) * 10 + (t[|t| - 1] - 48)
  }

  lemma {:induction false} ValDec(n: nat)
    ensures Val(Dec(n)) == n
  {
    if n >= 10 {
      ValDec(n / 10);
      assert Dec(n)[..|Dec(n)| - 1] == Dec(n / 10);
    }
  }

  /** Only zero is written with a leading zero. */
  lemma {:induction false} LeadingDigit(n: nat)
    ensures n == 0 ==> Dec(n) == [48]
    ensures n > 0 ==> 49 <= Dec(n)[0] <= 57
  {
    if n >= 10 {
      LeadingDigit(n / 10);
      assert Dec(n)[0] == Dec(n / 10)[0];
    }
  }

  function Pow10(k: nat): (p: nat)
    ensures p >= 1
  {
    if k == 0 then 1 else 10 * Pow10(k - 1)
  }

  lemma {:induction false} PowerOfOne()
    ensures Pow10(1) == 10
  {
    assert Pow10(0) == 1;
  }

  lemma {:induction false} DecLength(n: nat, k: nat)
    requires k >= 1 && n < Pow10(k)
    ensures |Dec(n)| <= k
  {
    if n >= 10 {
      PowerOfOne();
      DecLength(n / 10, k - 1);
    }
  }
}
