/**
 * The statistics snapshot and the builder that assembles it.  Each setter of
 * the builder rounds what it is given to two fractional digits, half-up; the
 * optional aggregates (average, maximum, minimum) become `0.00` when absent.
 * A builder whose setters are never called holds the unscaled zero `0` in
 * every decimal field.
 */
module Statistics {
  import opened Wrappers
  import opened Decimals

  /** An immutable snapshot: four decimals and a count. */
  datatype Statistic = Statistic(sum: Decimal, avg: Decimal, max: Decimal, min: Decimal, count: int)

  /** `new BigDecimal(0)`: zero with scale 0. */
  const UnscaledZero := Decimal(0, 0)

  /** What an optional aggregate is stored as: rounded when present, `0.00` when absent. */
  function ScaledOrZero(o: Option<real>): (d: Decimal)
    ensures d.scale == 2
    ensures o.None? ==> d == Decimal(0, 2)
    ensures o.Some? ==> Abs(d.unscaled as real - o.value * 100.0) <= 0.5
  {
    Round2HalfUp(o.GetOr(0.0))
  }

  /** An absent aggregate and a present zero are stored alike, as `0.00`. */
  lemma AbsentIsZero()
    ensures ScaledOrZero(None) == ScaledOrZero(Some(0.0)) == Decimal(0, 2)
  {
  }

  class StatisticBuilder {
    var nestedSum: Decimal
    var nestedAvg: Decimal
    var nestedMax: Decimal
    var nestedMin: Decimal
    var nestedCount: int

    /** A fresh builder: every decimal is the unscaled zero and the count is 0. */
    constructor ()
      ensures nestedSum == nestedAvg == nestedMax == nestedMin == UnscaledZero
      ensures nestedCount == 0
    {
      nestedSum, nestedAvg, nestedMax, nestedMin := UnscaledZero, UnscaledZero, UnscaledZero, UnscaledZero;
      nestedCount := 0;
    }

    /** Stores `sum` rounded to two digits, half-up. */
    method Sum(sum: real)
      modifies this
      ensures nestedSum == Round2HalfUp(sum)
      ensures nestedAvg == old(nestedAvg) && nestedMax == old(nestedMax)
      ensures nestedMin == old(nestedMin) && nestedCount == old(nestedCount)
    {
      nestedSum := Round2HalfUp(sum);
    }

    /** Stores the average rounded to two digits, or `0.00` when there is none. */
    method Avg(avg: Option<real>)
      modifies this
      ensures nestedAvg == ScaledOrZero(avg)
      ensures nestedSum == old(nestedSum) && nestedMax == old(nestedMax)
      ensures nestedMin == old(nestedMin) && nestedCount == old(nestedCount)
    {
      if avg.Some? {
        nestedAvg := Round2HalfUp(avg.value);
      } else {
        nestedAvg := Round2HalfUp(0.0);
      }
    }

    /** Stores the maximum rounded to two digits, or `0.00` when there is none. */
    method Max(max: Option<real>)
      modifies this
      ensures nestedMax == ScaledOrZero(max)
      ensures nestedSum == old(nestedSum) && nestedAvg == old(nestedAvg)
      ensures nestedMin == old(nestedMin) && nestedCount == old(nestedCount)
    {
      if max.Some? {
        nestedMax := Round2HalfUp(max.value);
      } else {
        nestedMax := Round2HalfUp(0.0);
      }
    }

    /** Stores the minimum rounded to two digits, or `0.00` when there is none. */
    method Min(min: Option<real>)
      modifies this
      ensures nestedMin == ScaledOrZero(min)
      ensures nestedSum == old(nestedSum) && nestedAvg == old(nestedAvg)
      ensures nestedMax == old(nestedMax) && nestedCount == old(nestedCount)
    {
      if min.Some? {
        nestedMin := Round2HalfUp(min.value);
      } else {
        nestedMin := Round2HalfUp(0.0);
      }
    }

    /** Stores the count as given, unrounded. */
    method Count(count: int)
      modifies this
      ensures nestedCount == count
      ensures nestedSum == old(nestedSum) && nestedAvg == old(nestedAvg)
      ensures nestedMax == old(nestedMax) && nestedMin == old(nestedMin)
    {
      nestedCount := count;
    }

    /** The snapshot holding exactly the builder's five fields. */
    method Build() returns (s: Statistic)
      ensures s.sum == nestedSum && s.avg == nestedAvg && s.max == nestedMax
      ensures s.min == nestedMin && s.count == nestedCount
    {
      s := Statistic(nestedSum, nestedAvg, nestedMax, nestedMin, nestedCount);
    }
  }

  /** A builder on which no setter is called builds zeros of scale 0 and count 0. */
  method BuildDefault() returns (s: Statistic)
    ensures s == Statistic(UnscaledZero, UnscaledZero, UnscaledZero, UnscaledZero, 0)
    ensures s.sum.Value() == 0.0 && s.sum.scale == 0
  {
    var b := new StatisticBuilder();
    s := b.Build();
  }
}
