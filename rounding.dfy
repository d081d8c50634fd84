/** Rounding of an exact fraction n / d to an integer the way Unity's Mathf.RoundToInt
    rounds: to the nearest integer, and to the even neighbour when n / d lies exactly
    halfway between two integers (banker's rounding). */
module Rounding {

  /** r is a correct rounding of n / d: it lies within one half of n / d, and when it
      lies exactly one half away (a tie) it is even.  Both sides are scaled by 2 * d
      so that the statement stays in integers. */
  ghost predicate IsRoundedHalfToEven(n: int, d: int, r: int)
    requires d > 0
  {
    var twiceError := 2 * (n - r * d);
    -d <= twiceError <= d && (twiceError == d || twiceError == -d ==> r % 2 == 0)
  }

  /** Mathf.RoundToInt applied to the exact value n / d. */
  function RoundHalfToEven(n: int, d: int): (r: int)
    requires d > 0
    ensures IsRoundedHalfToEven(n, d, r)
  {
    var q, m := n / d, n % d;
    assert n == q * d + m;
    assert (q + 1) * d == q * d + d;
    if 2 * m < d then q
    else if 2 * m > d then q + 1
    else if q % 2 == 0 then q
    else q + 1
  }

  /** (hi - lo) * d is at least 2 * d when hi exceeds lo by two or more. */
  lemma ScaledGap(k: int, d: int)
    requires d > 0 && k >= 2
    ensures k * d >= 2 * d
  {
  }

  /** Two correct roundings lo <= hi of the same fraction coincide. */
  lemma RoundedHalfToEvenUniqueOrdered(n: int, d: int, lo: int, hi: int)
    requires d > 0 && lo <= hi
    requires IsRoundedHalfToEven(n, d, lo) && IsRoundedHalfToEven(n, d, hi)
    ensures lo == hi
  {
    if lo < hi {
      var k := hi - lo;
      assert hi * d == lo * d + k * d;
      if k >= 2 {
        ScaledGap(k, d);
        assert false;
      }
      // Now hi == lo + 1: the two errors are 2 * d apart inside [-d, d], so both
      // are ties, and two integers one apart cannot both be even.
      assert false;
    }
  }

  /** There is only one correct rounding of n / d, so RoundHalfToEven is fully
      determined by IsRoundedHalfToEven. */
  lemma RoundedHalfToEvenUnique(n: int, d: int, r1: int, r2: int)
    requires d > 0
    requires IsRoundedHalfToEven(n, d, r1) && IsRoundedHalfToEven(n, d, r2)
    ensures r1 == r2
  {
    if r1 <= r2 {
      RoundedHalfToEvenUniqueOrdered(n, d, r1, r2);
    } else {
      RoundedHalfToEvenUniqueOrdered(n, d, r2, r1);
    }
  }

  /** An exact quotient is returned unchanged. */
  lemma RoundExactQuotient(k: int, d: int)
    requires d > 0
    ensures RoundHalfToEven(k * d, d) == k
  {
    assert IsRoundedHalfToEven(k * d, d, k);
    RoundedHalfToEvenUnique(k * d, d, k, RoundHalfToEven(k * d, d));
  }
}
