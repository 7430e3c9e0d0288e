/**
 * Exact decimal numbers in the shape of `java.math.BigDecimal`: an unscaled
 * integer and a scale, standing for `unscaled / 10^scale`.  Two decimals are
 * equal only when both parts agree, as with `BigDecimal.equals`, so `0` and
 * `0.00` are different values.
 *
 * `Round2HalfUp` is `setScale(2, ROUND_HALF_UP)` applied to an exact rational.
 */
module Decimals {

  datatype Decimal = Decimal(unscaled: int, scale: nat) {

    /** The rational number this decimal stands for. */
    function Value(): real {
      unscaled as real / Pow10(scale) as real
    }
  }

  function Pow10(n: nat): (p: nat)
    ensures p >= 1
  {
    if n == 0 then 1 else 10 * Pow10(n - 1)
  }

  function Abs(x: real): real {
    if x < 0.0 then -x else x
  }

  /**
   * The number of hundredths nearest to `x`, a tie going away from zero:
   * the magnitude is rounded half-up and the sign put back.
   */
  function HalfUpCents(x: real): int {
    if x >= 0.0 then (x * 100.0 + 0.5).Floor else -((0.5 - x * 100.0).Floor)
  }

  /**
   * `x` rounded to exactly two fractional digits, half-up
   * (`BigDecimal.ROUND_HALF_UP`): its hundredths are within one half of
   * `100 * x`.
   */
  function Round2HalfUp(x: real): (d: Decimal)
    ensures d.scale == 2
    ensures Abs(d.unscaled as real - x * 100.0) <= 0.5
  {
    RoundedCentsClose(x);
    Decimal(HalfUpCents(x), 2)
  }

  /** The rounded value is within 0.005 of `x`. */
  lemma RoundWithinHalfCent(x: real)
    ensures Abs(Round2HalfUp(x).Value() - x) <= 0.005
  {
  }

  /** The rounded hundredths are at most half a hundredth away from `100 * x`. */
  lemma RoundedCentsClose(x: real)
    ensures Abs(HalfUpCents(x) as real - x * 100.0) <= 0.5
  {
  }

  /** Off a tie, the rounded hundredths are the only integer within half a hundredth of `100 * x`. */
  lemma RoundIsNearest(x: real, c: int)
    requires Abs(c as real - x * 100.0) < 0.5
    ensures HalfUpCents(x) == c
  {
  }

  /** A tie `100 * x == k + 1/2` goes away from zero. */
  lemma RoundTiesAwayFromZero(x: real, k: int)
    requires x * 100.0 == k as real + 0.5
    ensures HalfUpCents(x) == if k >= 0 then k + 1 else k
    ensures Abs(HalfUpCents(x) as real) > Abs(x * 100.0)
  {
  }

  /** A value that already has at most two fractional digits is kept as it is. */
  lemma RoundExact(x: real, n: int)
    requires x * 100.0 == n as real
    ensures Round2HalfUp(x) == Decimal(n, 2)
  {
  }

  /** Rounding twice is rounding once. */
  lemma RoundIdempotent(x: real)
    ensures Round2HalfUp(Round2HalfUp(x).Value()) == Round2HalfUp(x)
  {
  }

  /** Rounding never reverses the order of two values. */
  lemma RoundMonotone(x: real, y: real)
    requires x <= y
    ensures Round2HalfUp(x).unscaled <= Round2HalfUp(y).unscaled
  {
  }
}
