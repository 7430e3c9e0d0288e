/**
 * The in-memory transaction store and the sliding-window statistics it runs.
 *
 * Time is an integer count of nanoseconds since the epoch (UTC), and the
 * current instant `now` is passed in explicitly.  Two windows are in play:
 *  - on insertion, timestamps are compared in whole epoch milliseconds
 *    (truncated toward negative infinity) and a record is accepted iff
 *    `ms(now) - 60000 <= ms(ts) <= ms(now)`;
 *  - on a statistics query, a record is kept iff the whole seconds between
 *    `now` and its timestamp (again floored) are less than 60 in magnitude,
 *    which is the half-open interval `-59 s <= ts - now < +60 s`.
 */
module Transactions {
  import opened Wrappers
  import opened Decimals
  import opened Statistics

  /** A monetary amount (exact) and the instant it happened at, in nanoseconds since the epoch. */
  datatype Transaction = Transaction(amount: real, timestamp: int)

  /** What an insertion attempt comes to: stored, or rejected as too old or as in the future. */
  datatype Outcome = Ok | TooOld | TooFuture

  const NanosPerMilli: int := 1_000_000
  const NanosPerSecond: int := 1_000_000_000
  const WindowMillis: int := 60_000
  const WindowSeconds: int := 60

  // ---------------------------------------------------------------------------
  // Time
  // ---------------------------------------------------------------------------

  /** `Instant.toEpochMilli`: the whole milliseconds, rounded toward negative infinity. */
  function EpochMilli(t: int): (ms: int)
    ensures ms * NanosPerMilli <= t < (ms + 1) * NanosPerMilli
  {
    t / NanosPerMilli
  }

  /** `Duration.between(from, to).getSeconds()`: the whole seconds, rounded toward negative infinity. */
  function SecondsBetween(from: int, to: int): (s: int)
    ensures s * NanosPerSecond <= to - from < (s + 1) * NanosPerSecond
  {
    (to - from) / NanosPerSecond
  }

  function AbsInt(x: int): nat {
    if x < 0 then -x else x
  }

  // ---------------------------------------------------------------------------
  // Insertion check
  // ---------------------------------------------------------------------------

  /** The timestamp is more than 60000 ms before now, counted in whole milliseconds. */
  predicate IsBeforeMinimumTimestamp(timestamp: int, now: int): (b: bool)
    ensures b <==> timestamp < (EpochMilli(now) - WindowMillis) * NanosPerMilli
  {
    EpochMilli(timestamp) < EpochMilli(now) - WindowMillis
  }

  /** The timestamp is after now, counted in whole milliseconds. */
  predicate IsAfterMaximumTimestamp(timestamp: int, now: int): (b: bool)
    ensures b <==> (EpochMilli(now) + 1) * NanosPerMilli <= timestamp
  {
    EpochMilli(timestamp) > EpochMilli(now)
  }

  /** The outcome of validating a timestamp: the too-old test comes first. */
  function ValidateTimestamp(timestamp: int, now: int): (o: Outcome)
    ensures o == Ok <==> EpochMilli(now) - WindowMillis <= EpochMilli(timestamp) <= EpochMilli(now)
    ensures o == TooOld <==> EpochMilli(timestamp) < EpochMilli(now) - WindowMillis
    ensures o == TooFuture <==> EpochMilli(now) < EpochMilli(timestamp)
  {
    if IsBeforeMinimumTimestamp(timestamp, now) then TooOld
    else if IsAfterMaximumTimestamp(timestamp, now) then TooFuture
    else Ok
  }

  /**
   * The accepted timestamps, in nanoseconds: from the start of the
   * millisecond 60000 ms before now's millisecond up to the end of now's
   * millisecond.  A timestamp later than `now` within the same millisecond
   * is accepted.
   */
  lemma AcceptedInterval(timestamp: int, now: int)
    ensures ValidateTimestamp(timestamp, now) == Ok <==>
      (EpochMilli(now) - WindowMillis) * NanosPerMilli <= timestamp < (EpochMilli(now) + 1) * NanosPerMilli
  {
  }

  // ---------------------------------------------------------------------------
  // Query window
  // ---------------------------------------------------------------------------

  /**
   * The record counts towards statistics run at `now`: fewer than 60 whole
   * seconds apart.  In nanoseconds that is from 59 s before now (inclusive)
   * to 60 s after now (exclusive).
   */
  predicate InWindow(timestamp: int, now: int): (b: bool)
    ensures b <==> -(WindowSeconds - 1) * NanosPerSecond <= timestamp - now < WindowSeconds * NanosPerSecond
  {
    AbsInt(SecondsBetween(now, timestamp)) < WindowSeconds
  }

  /**
   * For an accepted timestamp the query window is exactly "at most 59 s old":
   * accepted records older than that are already left out of statistics.
   */
  lemma AcceptedInWindow(timestamp: int, now: int)
    requires ValidateTimestamp(timestamp, now) == Ok
    ensures InWindow(timestamp, now) <==> now - timestamp <= (WindowSeconds - 1) * NanosPerSecond
  {
  }

  /** A record 59.5 s old is accepted on insertion but is outside the statistics window. */
  lemma AcceptedYetOutsideWindow(now: int)
    ensures ValidateTimestamp(now - 59_500_000_000, now) == Ok
    ensures !InWindow(now - 59_500_000_000, now)
  {
  }

  /** A record 61 s old is rejected as too old. */
  lemma SixtyOneSecondsOldIsTooOld(now: int)
    ensures ValidateTimestamp(now - 61 * NanosPerSecond, now) == TooOld
  {
  }

  /** A record two minutes ahead is rejected as in the future. */
  lemma TwoMinutesAheadIsTooFuture(now: int)
    ensures ValidateTimestamp(now + 120 * NanosPerSecond, now) == TooFuture
  {
  }

  // ---------------------------------------------------------------------------
  // Aggregates over the window
  // ---------------------------------------------------------------------------

  /** The records of `ts` inside the window at `now`, in their stored order. */
  function Window(ts: seq<Transaction>, now: int): (w: seq<Transaction>)
    ensures |w| <= |ts|
  {
    if ts == [] then []
    else
      var last := ts[|ts| - 1];
      Window(ts[..|ts| - 1], now) + if InWindow(last.timestamp, now) then [last] else []
  }

  /** The window keeps every in-window record as often as it is stored and drops every other. */
  lemma {:induction false} WindowExact(ts: seq<Transaction>, now: int)
    ensures forall t ::
      multiset(Window(ts, now))[t] == (if InWindow(t.timestamp, now) then multiset(ts)[t] else 0)
  {
    if ts != [] {
      var init, last := ts[..|ts| - 1], ts[|ts| - 1];
      WindowExact(init, now);
      assert ts == init + [last];
    }
  }

  /** The window is empty exactly when no stored record is in it. */
  lemma {:induction false} WindowEmpty(ts: seq<Transaction>, now: int)
    ensures Window(ts, now) == [] <==> forall i :: 0 <= i < |ts| ==> !InWindow(ts[i].timestamp, now)
  {
    if ts != [] {
      var init := ts[..|ts| - 1];
      assert forall i :: 0 <= i < |init| ==> init[i] == ts[i];
      WindowEmpty(init, now);
    }
  }

  /** A sequence whose every record is in the window is its own window. */
  lemma {:induction false} WindowAllIn(ts: seq<Transaction>, now: int)
    requires forall i :: 0 <= i < |ts| ==> InWindow(ts[i].timestamp, now)
    ensures Window(ts, now) == ts
  {
    if ts != [] {
      var init := ts[..|ts| - 1];
      assert forall i :: 0 <= i < |init| ==> init[i] == ts[i];
      WindowAllIn(init, now);
      assert init + [ts[|ts| - 1]] == ts;
    }
  }

  /** Appending a record extends the window by that record exactly when it is in the window. */
  lemma WindowAppend(ts: seq<Transaction>, t: Transaction, now: int)
    ensures Window(ts + [t], now) == Window(ts, now) + if InWindow(t.timestamp, now) then [t] else []
  {
  }

  /** Statistics are computed over the window only: a stored record outside it has no effect. */
  lemma AppendOutsideWindow(ts: seq<Transaction>, t: Transaction, now: int)
    requires !InWindow(t.timestamp, now)
    ensures StatisticsOf(ts + [t], now) == StatisticsOf(ts, now)
  {
    WindowAppend(ts, t, now);
    assert Window(ts, now) + [] == Window(ts, now);
    assert Window(ts + [t], now) == Window(ts, now);
  }

  /** The amounts of a sequence of records. */
  function Amounts(ts: seq<Transaction>): (a: seq<real>)
    ensures |a| == |ts|
    ensures forall i :: 0 <= i < |ts| ==> a[i] == ts[i].amount
  {
    seq(|ts|, i requires 0 <= i < |ts| => ts[i].amount)
  }

  /**
   * `DoubleStream.sum`: 0 for no elements, the element itself for one; with
   * `SumOfAppend` this fixes the sum of every sequence.
   */
  function SumOf(a: seq<real>): (r: real)
    ensures a == [] ==> r == 0.0
    ensures |a| == 1 ==> r == a[0]
  {
    if a == [] then 0.0 else SumOf(a[..|a| - 1]) + a[|a| - 1]
  }

  lemma {:induction false} SumOfAppend(a: seq<real>, b: seq<real>)
    ensures SumOf(a + b) == SumOf(a) + SumOf(b)
  {
    if b == [] {
      assert a + b == a;
    } else {
      SumOfAppend(a, b[..|b| - 1]);
      assert a + b[..|b| - 1] == (a + b)[..|a + b| - 1];
    }
  }

  /** Bounds on every element bound the sum: `n * lo <= sum <= n * hi`. */
  lemma {:induction false} SumOfBounds(a: seq<real>, lo: real, hi: real)
    requires forall i :: 0 <= i < |a| ==> lo <= a[i] <= hi
    ensures |a| as real * lo <= SumOf(a) <= |a| as real * hi
  {
    if a != [] {
      SumOfBounds(a[..|a| - 1], lo, hi);
      assert |a| as real * lo == (|a| - 1) as real * lo + lo;
      assert |a| as real * hi == (|a| - 1) as real * hi + hi;
    }
  }

  /** `DoubleStream.max`: absent on an empty stream, else the largest element. */
  function MaxOf(a: seq<real>): (m: Option<real>)
    ensures m.None? <==> a == []
    ensures m.Some? ==> m.value in a && forall i :: 0 <= i < |a| ==> a[i] <= m.value
  {
    if a == [] then None
    else
      var rest := MaxOf(a[1..]);
      if rest.None? || a[0] >= rest.value then Some(a[0]) else rest
  }

  /** `DoubleStream.min`: absent on an empty stream, else the smallest element. */
  function MinOf(a: seq<real>): (m: Option<real>)
    ensures m.None? <==> a == []
    ensures m.Some? ==> m.value in a && forall i :: 0 <= i < |a| ==> m.value <= a[i]
  {
    if a == [] then None
    else
      var rest := MinOf(a[1..]);
      if rest.None? || a[0] <= rest.value then Some(a[0]) else rest
  }

  /** `DoubleStream.average`: absent on an empty stream, else the sum over the count. */
  function AverageOf(a: seq<real>): (m: Option<real>)
    ensures m.None? <==> a == []
  {
    if a == [] then None else Some(SumOf(a) / |a| as real)
  }

  /** A present average times the count gives back the sum. */
  lemma AverageTimesCount(a: seq<real>)
    requires a != []
    ensures AverageOf(a).value * |a| as real == SumOf(a)
  {
  }

  /** A non-empty average lies between the minimum and the maximum. */
  lemma AverageBetween(a: seq<real>)
    requires a != []
    ensures MinOf(a).value <= AverageOf(a).value <= MaxOf(a).value
  {
    AverageWithinBounds(a, MinOf(a).value, MaxOf(a).value);
  }

  /** Bounds on every element bound a non-empty average. */
  lemma AverageWithinBounds(a: seq<real>, lo: real, hi: real)
    requires a != []
    requires forall i :: 0 <= i < |a| ==> lo <= a[i] <= hi
    ensures lo <= AverageOf(a).value <= hi
  {
    var n := |a| as real;
    SumOfBounds(a, lo, hi);
    QuotientBetween(SumOf(a), n, lo, hi);
  }

  /** `n * lo <= s <= n * hi` with `n > 0` puts `s / n` between `lo` and `hi`. */
  lemma QuotientBetween(s: real, n: real, lo: real, hi: real)
    requires n > 0.0 && n * lo <= s <= n * hi
    ensures lo <= s / n <= hi
  {
  }

  /** The statistics `runStatistics` reports over the records `ts` at `now`. */
  function StatisticsOf(ts: seq<Transaction>, now: int): (s: Statistic)
    ensures s.sum.scale == 2 && s.avg.scale == 2 && s.max.scale == 2 && s.min.scale == 2
    ensures 0 <= s.count == |Window(ts, now)| <= |ts|
  {
    var a := Amounts(Window(ts, now));
    Statistic(Round2HalfUp(SumOf(a)), ScaledOrZero(AverageOf(a)), ScaledOrZero(MaxOf(a)),
              ScaledOrZero(MinOf(a)), |a|)
  }

  /** With no record in the window every figure is `0.00` and the count is 0. */
  lemma EmptyWindowStatistics(ts: seq<Transaction>, now: int)
    requires forall i :: 0 <= i < |ts| ==> !InWindow(ts[i].timestamp, now)
    ensures StatisticsOf(ts, now) == Statistic(Decimal(0, 2), Decimal(0, 2), Decimal(0, 2), Decimal(0, 2), 0)
  {
    WindowEmpty(ts, now);
  }

  /**
   * The sum is the exact sum of the in-window amounts rounded to two
   * digits half-up, so its hundredths are within one half of 100 times it.
   */
  lemma StatisticsSum(ts: seq<Transaction>, now: int)
    ensures StatisticsOf(ts, now).sum == Round2HalfUp(SumOf(Amounts(Window(ts, now))))
    ensures Abs(StatisticsOf(ts, now).sum.unscaled as real - SumOf(Amounts(Window(ts, now))) * 100.0) <= 0.5
  {
    var x := SumOf(Amounts(Window(ts, now)));
    assert StatisticsOf(ts, now).sum == Round2HalfUp(x);
  }

  /** No record of `w` has a larger amount than `w[i]`. */
  ghost predicate IsLargest(w: seq<Transaction>, i: int)
    requires 0 <= i < |w|
  {
    forall j :: 0 <= j < |w| ==> w[j].amount <= w[i].amount
  }

  /** No record of `w` has a smaller amount than `w[i]`. */
  ghost predicate IsSmallest(w: seq<Transaction>, i: int)
    requires 0 <= i < |w|
  {
    forall j :: 0 <= j < |w| ==> w[i].amount <= w[j].amount
  }

  /**
   * With records in the window, the maximum and the minimum are the amounts
   * of an in-window record that no other in-window amount exceeds (resp.
   * undercuts), rounded to two digits half-up.
   */
  lemma StatisticsMaxMin(ts: seq<Transaction>, now: int)
    requires Window(ts, now) != []
    ensures exists i ::
      0 <= i < |Window(ts, now)| && IsLargest(Window(ts, now), i) && StatisticsOf(ts, now).max == Round2HalfUp(Window(ts, now)[i].amount)
    ensures exists i ::
      0 <= i < |Window(ts, now)| && IsSmallest(Window(ts, now), i) && StatisticsOf(ts, now).min == Round2HalfUp(Window(ts, now)[i].amount)
  {
    var w := Window(ts, now);
    var a := Amounts(w);
    var i :| 0 <= i < |a| && a[i] == MaxOf(a).value;
    var k :| 0 <= k < |a| && a[k] == MinOf(a).value;
    assert StatisticsOf(ts, now).max == Round2HalfUp(w[i].amount);
    assert StatisticsOf(ts, now).min == Round2HalfUp(w[k].amount);
  }

  /**
   * With records in the window, the average is sum / count rounded to two
   * digits half-up, so it is within half a hundredth of sum / count.
   */
  lemma StatisticsAverage(ts: seq<Transaction>, now: int)
    requires Window(ts, now) != []
    ensures StatisticsOf(ts, now).avg == Round2HalfUp(SumOf(Amounts(Window(ts, now))) / |Window(ts, now)| as real)
    ensures Abs(StatisticsOf(ts, now).avg.unscaled as real - SumOf(Amounts(Window(ts, now))) / |Amounts(Window(ts, now))| as real * 100.0) <= 0.5
  {
  }

  /** With records in the window, the rounded figures keep min <= avg <= max. */
  lemma StatisticsOrdered(ts: seq<Transaction>, now: int)
    requires Window(ts, now) != []
    ensures StatisticsOf(ts, now).min.unscaled <= StatisticsOf(ts, now).avg.unscaled <= StatisticsOf(ts, now).max.unscaled
  {
    var a := Amounts(Window(ts, now));
    var s := StatisticsOf(ts, now);
    assert s.avg == ScaledOrZero(AverageOf(a)) && s.min == ScaledOrZero(MinOf(a)) && s.max == ScaledOrZero(MaxOf(a));
    RoundedAggregatesOrdered(a);
  }

  lemma RoundedAggregatesOrdered(a: seq<real>)
    requires a != []
    ensures ScaledOrZero(MinOf(a)).unscaled <= ScaledOrZero(AverageOf(a)).unscaled <= ScaledOrZero(MaxOf(a)).unscaled
  {
    AverageBetween(a);
    RoundMonotone(MinOf(a).value, AverageOf(a).value);
    RoundMonotone(AverageOf(a).value, MaxOf(a).value);
  }

  /** One record of 123.21 now: every figure is 123.21 and the count is 1. */
  lemma OneTransactionStatistics(now: int)
    ensures StatisticsOf([Transaction(123.21, now)], now)
      == Statistic(Decimal(12321, 2), Decimal(12321, 2), Decimal(12321, 2), Decimal(12321, 2), 1)
  {
    var w := [Transaction(123.21, now)];
    assert InWindow(now, now);
    WindowAllIn(w, now);
    assert Amounts(w) == [123.21];
    assert [123.21][1..] == [];
    RoundExact(123.21, 12321);
  }

  /** Three records now, of 50.00, 100.50 and 12.21: sum 162.71, avg 54.24, max 100.50, min 12.21. */
  lemma ThreeTransactionsStatistics(now: int)
    ensures StatisticsOf([Transaction(50.0, now), Transaction(100.5, now), Transaction(12.21, now)], now)
      == Statistic(Decimal(16271, 2), Decimal(5424, 2), Decimal(10050, 2), Decimal(1221, 2), 3)
  {
    var ts := [Transaction(50.0, now), Transaction(100.5, now), Transaction(12.21, now)];
    var a := [50.0, 100.5, 12.21];
    assert InWindow(now, now);
    WindowAllIn(ts, now);
    assert Amounts(ts) == a;
    ThreeAmountsAggregates();
    RoundExact(162.71, 16271);
    RoundIsNearest(162.71 / 3.0, 5424);
    RoundExact(100.5, 10050);
    RoundExact(12.21, 1221);
  }

  lemma ThreeAmountsAggregates()
    ensures SumOf([50.0, 100.5, 12.21]) == 162.71
    ensures MaxOf([50.0, 100.5, 12.21]) == Some(100.5)
    ensures MinOf([50.0, 100.5, 12.21]) == Some(12.21)
  {
    var a := [50.0, 100.5, 12.21];
    assert a[..2] == [50.0, 100.5] && a[..2][..1] == [50.0] && a[..2][..1][..0] == [];
    assert SumOf([50.0]) == 50.0;
    assert SumOf([50.0, 100.5]) == 150.5;
    assert a[1..] == [100.5, 12.21] && a[1..][1..] == [12.21] && a[1..][1..][1..] == [];
  }

  /**
   * A record 80 s old, stored without validation, beside two fresh records of
   * 115.80 and 12.21: only the fresh two count.  The exact average 64.005
   * rounds half-up to 64.01.
   */
  lemma StaleRecordIgnored(now: int)
    ensures StatisticsOf([Transaction(50.0, now - 80 * NanosPerSecond), Transaction(115.8, now), Transaction(12.21, now)], now)
      == Statistic(Decimal(12801, 2), Decimal(6401, 2), Decimal(11580, 2), Decimal(1221, 2), 2)
  {
    var ts := [Transaction(50.0, now - 80 * NanosPerSecond), Transaction(115.8, now), Transaction(12.21, now)];
    StaleWindow(now);
    assert Amounts(ts[1..]) == [115.8, 12.21];
    TwoAmountsAggregates();
    RoundExact(128.01, 12801);
    RoundTiesAwayFromZero(128.01 / 2.0, 6400);
    RoundExact(115.8, 11580);
    RoundExact(12.21, 1221);
  }

  lemma StaleWindow(now: int)
    ensures Window([Transaction(50.0, now - 80 * NanosPerSecond), Transaction(115.8, now), Transaction(12.21, now)], now)
      == [Transaction(115.8, now), Transaction(12.21, now)]
  {
    var ts := [Transaction(50.0, now - 80 * NanosPerSecond), Transaction(115.8, now), Transaction(12.21, now)];
    assert InWindow(now, now);
    WindowAppend([], ts[0], now);
    assert [] + [ts[0]] == [ts[0]];
    WindowAppend([ts[0]], ts[1], now);
    WindowAppend([ts[0], ts[1]], ts[2], now);
    assert [ts[0], ts[1]] + [ts[2]] == ts;
  }

  lemma TwoAmountsAggregates()
    ensures SumOf([115.8, 12.21]) == 128.01
    ensures MaxOf([115.8, 12.21]) == Some(115.8)
    ensures MinOf([115.8, 12.21]) == Some(12.21)
  {
    var a := [115.8, 12.21];
    assert a[..1] == [115.8] && a[..1][..0] == [];
    assert a[1..] == [12.21] && a[1..][1..] == [];
  }

  // ---------------------------------------------------------------------------
  // The store
  // ---------------------------------------------------------------------------

  class TransactionService {
    var transactionsList: seq<Transaction>

    constructor ()
      ensures transactionsList == []
    {
      transactionsList := [];
    }

    /** Starts over with an empty list. */
    method Init()
      modifies this
      ensures transactionsList == []
    {
      transactionsList := [];
    }

    /**
     * Validates the timestamp against `now` and, when it is accepted, appends
     * the record; a rejected record leaves the list as it was.
     */
    method AddTransaction(transaction: Transaction, now: int) returns (outcome: Outcome)
      modifies this
      ensures outcome == ValidateTimestamp(transaction.timestamp, now)
      ensures outcome == Ok ==> transactionsList == old(transactionsList) + [transaction]
      ensures outcome != Ok ==> transactionsList == old(transactionsList)
    {
      outcome := ValidateTimestamp(transaction.timestamp, now);
      if outcome == Ok {
        transactionsList := transactionsList + [transaction];
      }
    }

    /** Empties the list, whatever it held. */
    method DeleteTransactions()
      modifies this
      ensures transactionsList == []
    {
      transactionsList := [];
    }

    /** Computes the statistics of the stored records at `now`, through the builder. */
    method RunStatistics(now: int) returns (s: Statistic)
      ensures s == StatisticsOf(transactionsList, now)
    {
      var amounts := Amounts(Window(transactionsList, now));
      var builder := new StatisticBuilder();
      builder.Sum(SumOf(amounts));
      builder.Avg(AverageOf(amounts));
      builder.Max(MaxOf(amounts));
      builder.Min(MinOf(amounts));
      builder.Count(|amounts|);
      s := builder.Build();
    }

    /** The stored records (a copy: the model does not hand out the live list). */
    function TransactionsList(): (ts: seq<Transaction>)
      reads this
      ensures ts == transactionsList
    {
      transactionsList
    }
  }

  /**
   * What a caller can conclude from the contracts alone: four fresh records
   * are all kept, a record 61 s old or 2 minutes ahead is refused and leaves
   * the list alone, and after deleting (twice), the statistics are all zero.
   */
  method ServiceScenario(now: int) returns (size: int, stale: Outcome, ahead: Outcome, remaining: seq<Transaction>, s: Statistic)
    ensures size == 4 && stale == TooOld && ahead == TooFuture
    ensures remaining == []
    ensures s == Statistic(Decimal(0, 2), Decimal(0, 2), Decimal(0, 2), Decimal(0, 2), 0)
  {
    var service := new TransactionService();
    var t := Transaction(123.21, now);
    var o1 := service.AddTransaction(t, now);
    var o2 := service.AddTransaction(t, now);
    var o3 := service.AddTransaction(t, now);
    var o4 := service.AddTransaction(t, now);
    assert o1 == o2 == o3 == o4 == Ok by {
      AcceptedInterval(now, now);
    }
    assert service.TransactionsList() == [t, t, t, t];

    SixtyOneSecondsOldIsTooOld(now);
    stale := service.AddTransaction(Transaction(123.21, now - 61 * NanosPerSecond), now);
    assert stale == TooOld && |service.TransactionsList()| == 4;

    TwoMinutesAheadIsTooFuture(now);
    ahead := service.AddTransaction(Transaction(123.21, now + 120 * NanosPerSecond), now);
    assert ahead == TooFuture && |service.TransactionsList()| == 4;

    size := |service.TransactionsList()|;
    service.DeleteTransactions();
    service.DeleteTransactions();
    remaining := service.TransactionsList();
    s := service.RunStatistics(now);
    assert s == Statistic(Decimal(0, 2), Decimal(0, 2), Decimal(0, 2), Decimal(0, 2), 0);
  }
}
