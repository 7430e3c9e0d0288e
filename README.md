# Sliding-window transaction statistics, in Dafny

This project models the core of a small Spring Boot service that records
monetary transactions and reports statistics over the last minute:

- `TransactionService` holds a list of `(amount, timestamp)` records. Its
  `addTransaction` validates the timestamp against the current instant and
  appends. `deleteTransactions` empties the list. `runStatistics` filters the
  list to a window around "now" and reports sum, average, maximum, minimum and
  count.
- `Statistic.StatisticBuilder` takes those raw aggregates. It rounds each
  decimal one to two fractional digits, half-up, and stores `0.00` for an
  absent aggregate. `build` then copies its fields into an immutable
  `Statistic`.

Files:

- `wrappers.dfy` (module `Wrappers`): `Option`, which stands for `OptionalDouble`.
- `decimals.dfy` (module `Decimals`): `Decimal` is an unscaled integer and a
  scale, as in `BigDecimal`. It also holds `Round2HalfUp`, which is
  `setScale(2, ROUND_HALF_UP)` on an exact rational, and its laws.
- `statistic.dfy` (module `Statistics`): the `Statistic` value and the
  `StatisticBuilder` class. The builder's fields are overwritten by its setter
  methods.
- `transaction_service.dfy` (module `Transactions`): the `Transaction` value,
  the outcome of an insertion (`Ok | TooOld | TooFuture`, standing for the two
  exceptions) and both time windows. It also holds the stream pipeline of
  `runStatistics` as functions (`Window`, `Amounts`, `SumOf`, `AverageOf`,
  `MaxOf`, `MinOf`, `StatisticsOf`) and the `TransactionService` class.

Representation choices:

- Timestamps are integers: nanoseconds since the epoch, UTC.
- The current instant `now` is a parameter of every operation that reads the
  clock.
- Amounts are exact rationals (`real`).
- `Instant.toEpochMilli` and `Duration.getSeconds` both round toward negative
  infinity. Dafny's `/` by a positive constant does the same, so the model
  uses it for both.

The two time windows:

- On insertion a record is accepted iff
  `ms(now) - 60000 <= ms(ts) <= ms(now)`, in whole milliseconds. The too-old
  test runs first. In nanoseconds this is the interval
  `[(ms(now) - 60000) * 10^6, (ms(now) + 1) * 10^6)` (`AcceptedInterval`).
- On a statistics query a record is kept iff
  `|floor((ts - now) / 1 s)| < 60`. In nanoseconds this is
  `-59 s <= ts - now < +60 s` (`InWindow`).
- So an accepted record that is more than 59 s old is already outside the
  statistics window (`AcceptedInWindow`, `AcceptedYetOutsideWindow`).

The query window is not symmetric: `getSeconds` floors, so a record up to
59.999... s in the future is kept while one 59.5 s in the past is not.

## Model

| member | source | states |
|---|---|---|
| `Decimals.Round2HalfUp` | src/main/java/com/n26/entities/Statistic.java:45 | the result has scale 2 and its hundredths lie within 1/2 of 100·x |
| `Decimals.RoundWithinHalfCent` | src/main/java/com/n26/entities/Statistic.java:45 | the rounded value lies within 0.005 of the input |
| `Decimals.RoundIsNearest` | src/main/java/com/n26/entities/Statistic.java:45 | any integer strictly within half a hundredth of 100·x (off a tie) is the rounded number of hundredths, so rounding is to the nearest hundredth |
| `Decimals.RoundTiesAwayFromZero` | src/main/java/com/n26/entities/Statistic.java:45 | a tie 100·x = k + 1/2 rounds to k + 1 when k ≥ 0 and to k when k < 0, i.e. away from zero |
| `Decimals.RoundExact` | src/main/java/com/n26/entities/Statistic.java:45 | a value with at most two fractional digits is kept exactly |
| `Decimals.RoundIdempotent` | src/main/java/com/n26/entities/Statistic.java:45 | rounding a rounded value changes nothing |
| `Decimals.RoundMonotone` | src/main/java/com/n26/entities/Statistic.java:45 | rounding preserves the order of two values (`x <= y` gives rounded hundredths in the same order) |
| `Statistics.ScaledOrZero` | src/main/java/com/n26/entities/Statistic.java:49-56 | an optional aggregate is stored with scale 2: `0.00` when absent, hundredths within 1/2 of 100·value when present |
| `Statistics.AbsentIsZero` | src/main/java/com/n26/entities/Statistic.java:52-53 | an absent aggregate is stored as `0.00`, the same as a present zero |
| `Statistics.StatisticBuilder.constructor` | src/main/java/com/n26/entities/Statistic.java:36-42 | a new builder holds the unscaled zero `0` in all four decimals and count 0 |
| `Statistics.StatisticBuilder.Sum` | src/main/java/com/n26/entities/Statistic.java:44-47 | stores the sum rounded to two digits half-up; the other fields are unchanged |
| `Statistics.StatisticBuilder.Avg` | src/main/java/com/n26/entities/Statistic.java:49-56 | stores the average rounded, or `0.00` when absent; the other fields are unchanged |
| `Statistics.StatisticBuilder.Max` | src/main/java/com/n26/entities/Statistic.java:58-65 | stores the maximum rounded, or `0.00` when absent; the other fields are unchanged |
| `Statistics.StatisticBuilder.Min` | src/main/java/com/n26/entities/Statistic.java:67-74 | stores the minimum rounded, or `0.00` when absent; the other fields are unchanged |
| `Statistics.StatisticBuilder.Count` | src/main/java/com/n26/entities/Statistic.java:76-79 | stores the count verbatim, unrounded; the other fields are unchanged |
| `Statistics.StatisticBuilder.Build` | src/main/java/com/n26/entities/Statistic.java:81-83 | the snapshot carries exactly the builder's five fields |
| `Statistics.BuildDefault` | src/main/java/com/n26/entities/Statistic.java:36-40 | a builder with no setter called builds four unscaled zeros (value 0, scale 0) and count 0 |
| `Transactions.EpochMilli` | src/main/java/com/n26/services/TransactionService.java:64 | whole epoch milliseconds, floored: `ms·10^6 <= t < (ms+1)·10^6` |
| `Transactions.SecondsBetween` | src/main/java/com/n26/services/TransactionService.java:36 | whole seconds between two instants, floored toward negative infinity |
| `Transactions.IsAfterMaximumTimestamp` | src/main/java/com/n26/services/TransactionService.java:63-65 | true iff the timestamp is at or past the end of millisecond `ms(now)`, i.e. `ms(ts) > ms(now)` |
| `Transactions.IsBeforeMinimumTimestamp` | src/main/java/com/n26/services/TransactionService.java:67-69 | true iff the timestamp is before the start of millisecond `ms(now) - 60000`, i.e. `ms(ts) < ms(now) - 60000` |
| `Transactions.ValidateTimestamp` | src/main/java/com/n26/services/TransactionService.java:53-69 | Ok iff `ms(now)-60000 <= ms(ts) <= ms(now)`; TooOld iff `ms(ts) < ms(now)-60000`; TooFuture iff `ms(ts) > ms(now)` |
| `Transactions.AcceptedInterval` | src/main/java/com/n26/services/TransactionService.java:63-69 | the accepted timestamps are exactly the nanoseconds from the start of millisecond `ms(now)-60000` to the end of millisecond `ms(now)` |
| `Transactions.InWindow` | src/main/java/com/n26/services/TransactionService.java:36 | a record is in the statistics window iff `-59 s <= ts - now < 60 s` |
| `Transactions.AcceptedInWindow` | src/main/java/com/n26/services/TransactionService.java:36-68 | for an accepted timestamp, being in the statistics window is the same as being at most 59 s old |
| `Transactions.AcceptedYetOutsideWindow` | src/main/java/com/n26/services/TransactionService.java:36-68 | a record 59.5 s old is accepted on insertion but left out of statistics |
| `Transactions.SixtyOneSecondsOldIsTooOld` | src/test/java/com/n26/services/TransactionServiceTest.java:63-68 | a timestamp 61 s before now is rejected as too old |
| `Transactions.TwoMinutesAheadIsTooFuture` | src/test/java/com/n26/services/TransactionServiceTest.java:70-75 | a timestamp 2 minutes after now is rejected as in the future |
| `Transactions.Window` | src/main/java/com/n26/services/TransactionService.java:35-36 | the filtered list is never longer than the stored list (its exact contents are `WindowExact`) |
| `Transactions.WindowExact` | src/main/java/com/n26/services/TransactionService.java:35-36 | the window keeps every in-window record exactly as often as it is stored and no other record |
| `Transactions.WindowEmpty` | src/main/java/com/n26/services/TransactionService.java:35-36 | the window is empty iff no stored record is in the window |
| `Transactions.WindowAllIn` | src/main/java/com/n26/services/TransactionService.java:35-36 | when every stored record is in the window, the window is the whole list, in order |
| `Transactions.WindowAppend` | src/main/java/com/n26/services/TransactionService.java:29-36 | appending a record extends the window by that record iff it is in the window |
| `Transactions.AppendOutsideWindow` | src/main/java/com/n26/services/TransactionService.java:35-36 | a stored record outside the window does not change the statistics |
| `Transactions.Amounts` | src/main/java/com/n26/services/TransactionService.java:37-38 | the amounts stream has one entry per record, the i-th being the i-th record's amount |
| `Transactions.SumOf` | src/main/java/com/n26/services/TransactionService.java:41 | the empty stream sums to 0 and a one-element stream to its element (with `SumOfAppend` this fixes every sum) |
| `Transactions.SumOfAppend` | src/main/java/com/n26/services/TransactionService.java:41 | the sum of a concatenation is the sum of the sums |
| `Transactions.SumOfBounds` | src/main/java/com/n26/services/TransactionService.java:41 | element bounds `lo..hi` bound the sum of n elements by `n·lo..n·hi` |
| `Transactions.AverageOf` | src/main/java/com/n26/services/TransactionService.java:42 | the average is absent iff the stream is empty |
| `Transactions.AverageTimesCount` | src/main/java/com/n26/services/TransactionService.java:42 | a present average times the count is the sum |
| `Transactions.MaxOf` | src/main/java/com/n26/services/TransactionService.java:43 | absent iff the stream is empty; otherwise an element that no element exceeds |
| `Transactions.MinOf` | src/main/java/com/n26/services/TransactionService.java:44 | absent iff the stream is empty; otherwise an element that no element undercuts |
| `Transactions.AverageWithinBounds` | src/main/java/com/n26/services/TransactionService.java:42 | bounds on every element bound a non-empty average |
| `Transactions.AverageBetween` | src/main/java/com/n26/services/TransactionService.java:42-44 | a non-empty average lies between the minimum and the maximum |
| `Transactions.StatisticsOf` | src/main/java/com/n26/services/TransactionService.java:34-47 | the four decimals have scale 2 and the count is the number of in-window records, never more than the stored list |
| `Transactions.EmptyWindowStatistics` | src/main/java/com/n26/services/TransactionService.java:34-47 | with no record in the window, sum = avg = max = min = `0.00` and count = 0 |
| `Transactions.StatisticsSum` | src/main/java/com/n26/services/TransactionService.java:41 | sum is the exact sum of the in-window amounts rounded to two digits half-up, so its hundredths lie within 1/2 of 100 × that sum |
| `Transactions.StatisticsMaxMin` | src/main/java/com/n26/services/TransactionService.java:43-44 | max (min) is the rounded amount of an in-window record that no in-window amount exceeds (undercuts) |
| `Transactions.StatisticsAverage` | src/main/java/com/n26/services/TransactionService.java:42 | with records in the window, avg is (sum / count) of the in-window amounts rounded to two digits half-up, so its hundredths lie within 1/2 of 100 × that quotient |
| `Transactions.StatisticsOrdered` | src/main/java/com/n26/services/TransactionService.java:42-44 | with records in the window, the rounded figures keep min <= avg <= max |
| `Transactions.OneTransactionStatistics` | src/test/java/com/n26/services/TransactionServiceTest.java:90-103 | one record of 123.21 gives 123.21 for every figure and count 1 |
| `Transactions.ThreeTransactionsStatistics` | src/test/java/com/n26/services/TransactionServiceTest.java:105-120 | records of 50.00, 100.50 and 12.21 give sum 162.71, avg 54.24, max 100.50, min 12.21, count 3 |
| `Transactions.StaleRecordIgnored` | src/test/java/com/n26/services/TransactionServiceTest.java:122-138 | a record 80 s old beside fresh records of 115.80 and 12.21 is ignored: sum 128.01, avg 64.01, max 115.80, min 12.21, count 2 |
| `Transactions.TransactionService.constructor` | src/main/java/com/n26/services/TransactionService.java:22-27 | a new service holds no records |
| `Transactions.TransactionService.Init` | src/main/java/com/n26/services/TransactionService.java:24-27 | after `init` the list is empty |
| `Transactions.TransactionService.AddTransaction` | src/main/java/com/n26/services/TransactionService.java:29-32 | the outcome is the timestamp's validation; on Ok the record is appended at the end, otherwise the list is unchanged |
| `Transactions.TransactionService.DeleteTransactions` | src/main/java/com/n26/services/TransactionService.java:49-51 | the list is empty afterwards, whatever it held, so deleting is idempotent |
| `Transactions.TransactionService.RunStatistics` | src/main/java/com/n26/services/TransactionService.java:34-47 | building through the builder yields `StatisticsOf` the stored records at now; the list is not modified |
| `Transactions.ServiceScenario` | src/test/java/com/n26/services/TransactionServiceTest.java:45-75 | four fresh records are all stored, a 61 s old one is TooOld, a 2 min ahead one is TooFuture, and after deleting (twice) the returned list is empty and the statistics are four `0.00` and count 0 |
| `Transactions.TransactionService.TransactionsList` | src/main/java/com/n26/services/TransactionService.java:71-73 | returns the stored records |

## Left out

- Floating point: the service turns amounts into `double` before it aggregates them, and the builder builds from `new BigDecimal(double)`. The model uses exact rationals. Binary rounding error is therefore not modelled. For the stale-record case the exact average 64.005 rounds to 64.01. The repository's own expectation of 64.00 (src/test/java/com/n26/services/TransactionServiceTest.java:133) holds only through `double` error.
- Transactions.TransactionService.RunStatistics: an amount beyond the `double` range becomes an infinite `doubleValue()`, and a sum of finite amounts can overflow to infinity. `new BigDecimal(double)` then throws `NumberFormatException` (src/main/java/com/n26/entities/Statistic.java:45, 51, 60, 69), so `runStatistics` fails. The model's exact rationals never overflow, so it always returns a statistic.
- Wall clock: every `Instant.now()` call is replaced by a single `now` parameter. The source reads the clock separately in each check and each stream pass.
- Concurrency: the backing `ArrayList` has no locking, so there is nothing to model.
- Aliasing: `getTransactionsList` returns the live list, and tests use it to store records without validation. The model returns the value of the list. The statistics lemmas hold for any list, including records that never passed validation.
- Statistics.StatisticBuilder.Sum: like the other setters, it does not return `this` for chaining. The setters are called one after another on the same object instead.
- Transactions.TransactionService.RunStatistics: `count` is a Java `long`; the model uses an unbounded integer, because the list cannot exceed `Integer.MAX_VALUE` entries.
- Transactions.TransactionService.constructor: the Java field is `null` until the `@PostConstruct` method `init` runs. The model starts with an empty list.
- The HTTP controller, request validation and the exception-to-status mapping are not modelled. The two exceptions become the `TooOld` and `TooFuture` outcomes.
- JSON serialisation of `Statistic` (`ToStringSerializer`), Lombok accessors and the date pattern of `Transaction` are not modelled. The scale of each decimal is kept, so the model still tells `0` from `0.00`.
- Transactions.EpochMilli: `toEpochMilli` (src/main/java/com/n26/services/TransactionService.java:64, 68) throws `ArithmeticException` when the instant's milliseconds overflow a `long`, which the `yyyy` date pattern allows (years up to 999999999). The model's integers do not overflow, so such a record gets `TooFuture` or `TooOld` instead of that exception.
- `LocalDateTime` interpreted at UTC is modelled as an integer count of nanoseconds.
