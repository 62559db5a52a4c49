/**
 * Monetary amounts of `BankAccount` and the `isAmountValid` check.
 *
 * The source stores amounts in a `float` and accepts an amount when its value
 * scaled by 100 is (up to a tolerance of 0.0001) a whole number. Here amounts
 * are exact `real`s and the comparison is an equality, so the valid amounts are
 * exactly the non-negative whole numbers of cents.
 */
module Amounts {

  /**
   * Java's `Math.round(float)` on arguments within the range of `int`: round
   * half up, `floor(x + 0.5)`. The saturation at `Integer.MAX_VALUE` is not
   * modelled.
   */
  function Round(x: real): (k: int)
    ensures x - 0.5 < k as real <= x + 0.5
  {
    (x + 0.5).Floor
  }

  /**
   * `isAmountValid`: the amount is non-negative and, scaled to cents, is
   * its own rounding, that is, it has at most two decimal places.
   */
  predicate IsAmountValid(amount: real)
    ensures IsAmountValid(amount) ==> amount >= 0.0 && FromCents(Round(amount * 100.0)) == amount
  {
    if amount < 0.0 then false
    else
      var scaled := amount * 100.0;
      scaled == Round(scaled) as real
  }

  /** The amount of `c` cents. */
  function FromCents(c: int): (x: real)
    ensures x * 100.0 == c as real
  {
    c as real / 100.0
  }

  /** The number of cents in a valid amount; inverse of `FromCents`. */
  function ToCents(amount: real): (c: nat)
    requires IsAmountValid(amount)
    ensures FromCents(c) == amount
  {
    Round(amount * 100.0)
  }

  /** Every non-negative whole number of cents is a valid amount, and no negative one is. */
  lemma CentsAreValid(c: int)
    ensures IsAmountValid(FromCents(c)) <==> c >= 0
  {
    var x := FromCents(c);
    if c >= 0 {
      assert Round(x * 100.0) == c;
    }
  }

  /** A valid amount is exactly a non-negative whole number of cents. */
  lemma ValidIsWholeCents(amount: real)
    ensures IsAmountValid(amount) <==> amount >= 0.0 && (amount * 100.0).Floor as real == amount * 100.0
  {
    if amount >= 0.0 && (amount * 100.0).Floor as real == amount * 100.0 {
      assert Round(amount * 100.0) == (amount * 100.0).Floor;
    }
  }

  /** Adding two valid amounts gives a valid amount (used by `deposit`). */
  lemma SumIsValid(a: real, b: real)
    requires IsAmountValid(a) && IsAmountValid(b)
    ensures IsAmountValid(a + b)
    ensures ToCents(a + b) == ToCents(a) + ToCents(b)
  {
    var ca, cb := ToCents(a), ToCents(b);
    assert a + b == FromCents(ca + cb);
    CentsAreValid(ca + cb);
  }

  /** Taking a valid amount from a valid amount no smaller than it gives a valid amount (used by `withdraw`). */
  lemma DifferenceIsValid(a: real, b: real)
    requires IsAmountValid(a) && IsAmountValid(b) && b <= a
    ensures IsAmountValid(a - b)
    ensures ToCents(a - b) == ToCents(a) - ToCents(b)
  {
    var ca, cb := ToCents(a), ToCents(b);
    assert a - b == FromCents(ca - cb);
    CentsAreValid(ca - cb);
  }
}
