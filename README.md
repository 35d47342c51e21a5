# Synthetic access-log generator: a Dafny model

This project models the core of a generator of synthetic DNS access logs. The
generator takes a list of domains ranked by Open PageRank and a pool of client
IP addresses. It writes a long, time-ordered log of `{ "@timestamp", "clientIp",
"domain" }` lines and keeps statistics about which ranks it picked. Four parts
are modelled:

- **Rank-biased domain choice.** `getNext` maps a uniform draw `r` to the index
  `floor(N - (1 - r³)·N)`, so popular domains come up far more often. With
  probability `percentUnknownSites` the generator uses a made-up domain instead
  and leaves the statistics alone (`computeDomain`).
- **Client choice.** A uniform position in the client pool (`computeClientIp`).
- **Arrival clock.** The next event time is the current time plus a delay. The
  delay's rate comes from an hour-of-day / weekend table (`makeUpMean`,
  `computeNextTime`).
- **Statistics.** `Stats.registerPick` keeps bucket counters (top 10/100/1000,
  first quartile, first half). `humanReadableByteCountSI` scales byte counts
  for the report.

The modules follow the two Java classes. `Sampling`, `Arrival` and `EventStream`
hold the parts of `Main`. `Statistics` holds `Stats`. `JavaLang` holds the Java
semantics that the model relies on: the `long` range, truncating division, and
the two unchecked exceptions.

Randomness is modelled as explicit draws. Each loop iteration gets one `Draw`
record: the client position, the unknown-site draw, the rank draw, the
inter-arrival draw and the faker's domain name. A `LocalDateTime` is a count of
milliseconds since 1970-01-01T00:00. Because the type has no time zone, its
hour and day of the week are exact integer arithmetic on that count. Two things
are passed in as function parameters because they are floating-point or
library code:

- the delay formula `(long)(ln(1 - d) / -L)`. Its only known property is that
  it is non-negative for a positive rate and a draw in `[0, 1)`
  (`Arrival.DelayOfRate`);
- the ISO text of a timestamp.

Reals are exact, so IEEE-754 rounding is not modelled.

The class `Statistics.Stats` has the Java fields and updates them in place. The
class `EventStream.Generator` holds the shared `Stats` object, the same way
`Main` does. Its `Run` method is lines 74-99; the loop itself (lines 84-96) is `EmitEvents`, and one pass of its body is `Iteration`. `Run` is proved equal
to the pure specification `Generate`, and the run-level properties are proved
as lemmas about `Generate`.

Facts about the code that the model makes precise:

- **No clamp in `getNext`.** A draw `r = 0` gives index 0, and as `r → 1`
  the index approaches `N`. In exact arithmetic the result is `floor(N·r³)`,
  which always lies in `[0, N)`, so the code needs no clamp and has none
  (`Sampling.NextIndex`).
- **A worked example.** With three domains, the draws 0.0, 0.5 and 0.99 give
  the indices 0, 0 and 2 (`Sampling.NextIndexSmallExample`).
- **The two bucket families are independent.** An index below 10 is not
  necessarily counted in the quartile or the half. With fewer than 40
  domains an index can be in the top ten but not in the quartile
  (`Statistics.BucketsNotNested`).
- **"All counters equal k".** After `k` picks of index 0, every counter is
  `k` only when there are at least four domains. With two or three domains
  the quartile threshold `options / 4` is 0 (`Statistics.AllTopPicks`).
- **Rate versus mean.** The table's value is passed to the delay as a rate, so
  a larger value gives a shorter gap. The largest factor, 1.2, applies in
  weekday business hours, so those hours get the densest traffic
  (`Arrival.BusinessHoursShortestGaps`). The formula is kept as written.
- **Unknown sites and `picks`.** An unknown-site event does not increase
  `picks`, so the report's percentages leave unknown sites out of the
  denominator (`EventStream.Generator.ComputeDomain`,
  `EventStream.GenerateTallies`).

## Model

| member | source | states |
|---|---|---|
| `JavaLang.TruncDiv` | src/main/java/dev/bischoff/es/enrich/testset/Stats.java:50-55 | Java's integer `/` with a positive divisor: the remainder has the sign of the dividend and is smaller than the divisor, so the quotient is rounded toward zero |
| `JavaLang.TruncDivTwice` | src/main/java/dev/bischoff/es/enrich/testset/Stats.java:63-66 | dividing by 1000 again and again with truncation is one truncating division by the product of the divisors |
| `Statistics.Tally` | src/main/java/dev/bischoff/es/enrich/testset/Stats.java:39-56 | a pick adds exactly one to `picks`, and keeps the bucket order (`top10 ≤ top100 ≤ top1000 ≤ picks`, `quartile ≤ half ≤ picks`) whenever the pick or the option count is non-negative |
| `Statistics.TallyBuckets` | src/main/java/dev/bischoff/es/enrich/testset/Stats.java:41-55 | each bucket grows by one exactly when the pick is below 10, 100, 1000, `options/4` or `options/2`, and otherwise stays the same |
| `Statistics.BucketsNotNested` | src/main/java/dev/bischoff/es/enrich/testset/Stats.java:41-55 | with fewer than 40 options, a pick in `[options/4, 10)` counts toward top10 but not toward quartile |
| `Statistics.QuartileAboveHalfWhenBothNegative` | src/main/java/dev/bischoff/es/enrich/testset/Stats.java:50-55 | `registerPick(-2, -5)` breaks `quartile ≤ half`, so the order needs a non-negative pick or option count |
| `Statistics.TallyAllCounts` | src/main/java/dev/bischoff/es/enrich/testset/Stats.java:39-56 | after a sequence of picks, `picks` went up by its length and each bucket went up by the number of picks below the bucket's threshold |
| `Statistics.AllTopPicks` | src/main/java/dev/bischoff/es/enrich/testset/Stats.java:39-56 | after `k` picks of index 0 from zero, every counter is `k` when there are at least 4 options; with 2 or 3 options the quartile stays 0 |
| `Statistics.Stats.constructor` | src/main/java/dev/bischoff/es/enrich/testset/Stats.java:7-21 | every counter and size starts at zero and both timestamps start at null |
| `Statistics.Stats.RegisterPick` | src/main/java/dev/bischoff/es/enrich/testset/Stats.java:39-56 | the new counters are the `Tally` of the old ones, the bucket order is kept, and the frame allows only the six counters to change |
| `Statistics.Stats.HumanReadableByteCountSI` | src/main/java/dev/bischoff/es/enrich/testset/Stats.java:58-68 | a count in `(-1000, 1000)` is returned plain without entering the loop. Otherwise the result is the count truncated by `1000^k` into `(-999950, 999950)`, where `k` is the first exponent that gets there and `k ≤ 5` for every `long`, so the prefix cursor stops at 'E' at the latest. A magnitude in `[1000, 999950)` gives the count itself with prefix 'k' |
| `Sampling.NextIndex` | src/main/java/dev/bischoff/es/enrich/testset/Main.java:224-227 | for a draw in `[0, 1)`, the index is `floor(N·r³)`. It lies in `[0, N)` for `N ≥ 1` with no clamp, and is 0 for `N = 0` |
| `Sampling.NextIndexMonotone` | src/main/java/dev/bischoff/es/enrich/testset/Main.java:224-227 | a larger draw never gives a smaller index |
| `Sampling.NextIndexRankBiased` | src/main/java/dev/bischoff/es/enrich/testset/Main.java:224-227 | the index never exceeds `floor(N·r)`, the index a uniform choice would make from the same draw |
| `Sampling.NextIndexBelowUniform` | src/main/java/dev/bischoff/es/enrich/testset/Main.java:224-227 | at the draw `k/N` a uniform choice gives `k`, but this index is below `k`, so the bias toward top ranks is strict |
| `Sampling.NextIndexSmallExample` | src/main/java/dev/bischoff/es/enrich/testset/Main.java:224-227 | with three domains, the draws 0.0, 0.5 and 0.99 give the indices 0, 0 and 2 |
| `Sampling.ComputeClientIp` | src/main/java/dev/bischoff/es/enrich/testset/Main.java:164-166 | an empty pool throws IllegalArgumentException and nothing else fails; the result is a member of the pool, the one at the drawn position |
| `Sampling.EveryClientReachable` | src/main/java/dev/bischoff/es/enrich/testset/Main.java:164-166 | every client in the pool is chosen by some draw in `[0, size)` |
| `Sampling.ChooseDomain` | src/main/java/dev/bischoff/es/enrich/testset/Main.java:168-172 | the unknown branch is taken exactly when `u < percentUnknownSites` and returns the faker's name; the ranked branch gives an index that is valid exactly when the list is non-empty |
| `EventStream.DomainOutcome` | src/main/java/dev/bischoff/es/enrich/testset/Main.java:168-176 | `computeDomain` fails, with IndexOutOfBounds, exactly when the ranked branch meets an empty list. Otherwise the result is the fake domain, or the domain of some ranked entry |
| `EventStream.Generator.ComputeDomain` | src/main/java/dev/bischoff/es/enrich/testset/Main.java:168-176 | below the share, the fake domain is returned and the statistics are untouched. Otherwise there is exactly one `registerPick(pick, options.size())`, then the domain at `pick` or IndexOutOfBounds. Only the six counters may change |
| `Arrival.HourOf` | src/main/java/dev/bischoff/es/enrich/testset/Main.java:124 | the hour of day is in `[0, 24)`, so the switch label 24 can never be reached |
| `Arrival.EpochAnchors` | src/main/java/dev/bischoff/es/enrich/testset/Main.java:123-124 | the day-of-week and hour encoding of `DayOfWeekOf`, `HourOf` and `IsWeekend` matches java.time: the epoch is Thursday at hour 0 and not a weekend day, the millisecond before it is Wednesday at hour 23, and two days later is a Saturday, which is a weekend day |
| `Arrival.DayOfWeekOneDayLater` | src/main/java/dev/bischoff/es/enrich/testset/Main.java:123-124 | 24 hours later the day of the week is the next one and the hour is the same. Together with the epoch anchors this fixes the day of every instant, before or after 1970 |
| `Arrival.MeanFactor` | src/main/java/dev/bischoff/es/enrich/testset/Main.java:129-142 | the factor lies between 0.15 and 1.2 and is at most 0.25 on a weekend. For a real hour of day it is 1.2 exactly on weekdays at hours 9, 10 and 14-17 |
| `Arrival.MakeUpMean` | src/main/java/dev/bischoff/es/enrich/testset/Main.java:128-143 | for a positive baseline the value lies between 0.15 and 1.2 times the baseline, so it is positive; on a weekend it is at most 0.25 times the baseline |
| `Arrival.WeekendTable` | src/main/java/dev/bischoff/es/enrich/testset/Main.java:129-134 | weekend hours 17-23 and 0-8 give 0.15 times the baseline; hours 9-16 give 0.25 times it |
| `Arrival.WeekdayTable` | src/main/java/dev/bischoff/es/enrich/testset/Main.java:136-142 | weekday hours 19-23 and 0-7 give ×0.15, 12 gives ×0.8, 11 and 13 give ×0.95, 8 and 18 give ×0.35, and 9, 10 and 14-17 give ×1.2 |
| `Arrival.ComputeNextTime` | src/main/java/dev/bischoff/es/enrich/testset/Main.java:122-126 | for a positive baseline, a draw in `[0, 1)` and a delay that is non-negative at positive rates, the next event time is never earlier than the current one. A negative baseline can move the clock backwards, and the contract does not exclude that |
| `Arrival.BusinessHoursShortestGaps` | src/main/java/dev/bischoff/es/enrich/testset/Main.java:122-126 | for any delay that treats its argument as a rate, weekday business hours give a delay no longer than any other hour's for the same draw |
| `EventStream.FormatLine` | src/main/java/dev/bischoff/es/enrich/testset/Main.java:89-95 | the record line starts with `{ "@timestamp": "` and ends with `" }` and a newline |
| `EventStream.Step` | src/main/java/dev/bischoff/es/enrich/testset/Main.java:86-95 | one iteration throws IllegalArgumentException exactly when the pool is empty. It throws IndexOutOfBounds exactly when the pool is non-empty, the draw takes the ranked branch and the ranking is empty. A throw leaves the events and the clock unchanged. Otherwise exactly one event is appended, carrying the new clock. With a valid configuration the clock does not go back |
| `EventStream.Generate` | src/main/java/dev/bischoff/es/enrich/testset/Main.java:84-96 | a run over `n` draws writes at most `n` events, and exactly `n` when nothing was thrown; with no draws it is the start state |
| `EventStream.GenerateShape` | src/main/java/dev/bischoff/es/enrich/testset/Main.java:84-96 | a run writes one event per draw unless an exception stops it. For a valid configuration (positive baseline, delay non-negative at positive rates) the timestamps are non-decreasing and lie between the start time and the final clock, and the last event carries the final clock |
| `EventStream.GenerateStops` | src/main/java/dev/bischoff/es/enrich/testset/Main.java:84-96 | after the first exception, later draws change nothing |
| `EventStream.GenerateFailures` | src/main/java/dev/bischoff/es/enrich/testset/Main.java:84-96 | with a non-empty pool and ranking, a run never fails. An empty pool fails at the first iteration with nothing written or counted. IndexOutOfBounds happens only with an empty ranking |
| `EventStream.GenerateFollowsDraws` | src/main/java/dev/bischoff/es/enrich/testset/Main.java:84-96 | event `k` has the client that draw `k` selects and the domain that `computeDomain` returns for draw `k` |
| `EventStream.StepCounts` | src/main/java/dev/bischoff/es/enrich/testset/Main.java:86-87 | within one iteration, a ranked pick is registered once the client has been chosen; an unknown site registers nothing |
| `EventStream.GenerateTallies` | src/main/java/dev/bischoff/es/enrich/testset/Main.java:84-96 | the counters of a run that does not fail are those of registering its ranked picks in order; the bucket order is kept even when the run fails |
| `EventStream.RankedPicksExtremes` | src/main/java/dev/bischoff/es/enrich/testset/Main.java:168-175 | with `percentUnknownSites ≤ 0` every iteration registers a pick; with a share of at least 1, none does |
| `EventStream.FormatLineOneNewline` | src/main/java/dev/bischoff/es/enrich/testset/Main.java:89-95 | a record line ends in its only newline when its fields contain none |
| `EventStream.LogLineCount` | src/main/java/dev/bischoff/es/enrich/testset/Main.java:84-96 | the log text has exactly one newline per event |
| `EventStream.Generator.constructor` | src/main/java/dev/bischoff/es/enrich/testset/Main.java:46 | the generator owns a fresh statistics object with zero counters |
| `EventStream.Generator.Iteration` | src/main/java/dev/bischoff/es/enrich/testset/Main.java:86-88 | one iteration in place: it returns an event exactly when nothing was thrown, and the counters, the clock, the exception and the event are those of `Step` |
| `EventStream.Generator.EmitEvents` | src/main/java/dev/bischoff/es/enrich/testset/Main.java:84-96 | the loop writes one line per draw, in order, until the iterations are used up or a draw throws. Its lines, its exception, the counters it leaves and the last event time equal those of `Generate` over the first `iterations` draws. Only the six counters change |
| `EventStream.Generator.Run` | src/main/java/dev/bischoff/es/enrich/testset/Main.java:74-99 | the share and the start time are always recorded. If the log exists, nothing is written or counted and the end time equals the start time. Otherwise the lines, the exception, the counters and the end time are those of `Generate` over the first `iterations` draws. A run that does not fail writes exactly `iterations` lines and records an end time. With a valid configuration that end time is not before the start |

## Left out

- Downloading and unzipping the ranking, CSV parsing, JSON conversion, bzip2
  compression, and file writes and sizes (`run` apart from lines 74-99,
  `writeCsvAsJson`, `extractZip`, `parseLine`, `toJson`, `consume`). This is
  I/O and third-party libraries. Whether the log already exists is a boolean
  input to `Run`, and the written file is the list of lines `Run` returns.
- Building the client pool with the faker (lines 67-72), and the faker's domain
  and country names: these are third-party calls. The pool is an input, and
  each iteration's fake domain is an opaque string in its draw.
- `ThreadLocalRandom`: replaced by the explicit draws, which satisfy the
  documented ranges of `nextInt(n)` and `nextDouble()`. The random source is
  one stream in Java. In the model each iteration gets its own record, and the
  rank draw is used only on the ranked branch.
- `Math.log` in `poissonRandomInterarrivalDelay`: floating-point
  transcendental maths. The delay is a parameter `(rate, draw) -> int`. The
  one property assumed of it, `Arrival.DelayOfRate`, is the one
  `(long)(ln(1 - d) / -L)` has: it is at least 0 for `L > 0` and `d` in `[0, 1)`.
  The time-ordering results are stated for a positive baseline, as the code's
  constant 20 is; the model accepts any baseline as an input.
- IEEE-754 rounding in `getNext` and in the `makeUpMean` products: the model
  uses exact reals. Whether rounding could ever push `getNext` to `N` is not
  examined. The `(int)` cast is left out because the exact result already
  lies in `[0, N)`.
- `java.time`: only the hour and day of week of a zone-less `LocalDateTime`
  are modelled, as a millisecond count. The ISO text of `String.valueOf` is an
  opaque function, and the calendar's year limits are not modelled.
- `Stats.asString` and the `%.1f` rendering: float formatting.
- `Statistics.Stats.HumanReadableByteCountSI`: returns the scaled integer, the
  number of divisions and the prefix, not the `%.1f` text. It is the same loop,
  without the final formatting.
- `Statistics.Stats.RegisterPick`: the counters are unbounded naturals. The
  Java `double` counters stop being exact above 2^53 picks, and the `long`
  `picks` would wrap at 2^63.
- `PageRankEntry`: only a record of rank, domain and score; parsing its fields
  from text is not modelled.
- `IOException` from the writer, and the writer closing when the run aborts:
  the lines written before an exception are the ones returned.
