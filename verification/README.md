# Benchmark analysis core of pg-flight-recorder, in Dafny

pg-flight-recorder ships benchmark scripts that measure how much the flight
recorder slows the database down. Each comparison puts "baseline" runs next to
recorder-enabled runs. This project models the pure decision and arithmetic
layer of three of those scripts. That is the layer that turns already-parsed
numbers into statistics, deltas and verdict tiers:

- `benchmark2/lib/statistical_analysis.py` is module `StatisticalAnalysis`.
  It covers percentile summaries of latency samples and confidence intervals
  of mean throughput. It also covers the latency-impact loop of
  `analyze_workload` and the OK/WARNING/CRITICAL gate of `assess_results`,
  with its PASS/WARNING/FAIL overall verdict.
- `benchmark/lib/compare.py` is module `Compare`. It covers
  `calculate_impact`, the throughput, latency and database-counter
  comparisons, and the five-tier `assess_impact` verdict.
- `benchmark/lib/ddl_analyzer.py` is module `DdlAnalyzer`. It covers the
  `blocked_by_flight_recorder` test, duration statistics, blocking counts,
  the per-DDL-type breakdown, the collision projection and the risk tier.

Three shared modules support them:
- `SampleStats` holds sorting, sum, mean, minimum, maximum and median over
  `seq<real>`. Python's `sorted`, `min`, `max`, `statistics.mean` and
  `statistics.median` are modelled exactly there.
- `Text` holds ASCII lower-casing and substring search.
- `Wrappers` holds `Option`, which models the nullable fields.

Measurements are `real`, so arithmetic is exact. Counters are `int`. Dict
results become records, and dicts keyed by metric name become `map`s over an
enumeration of the metric names. The library numerics that are not exact
arithmetic are passed in by the caller in a `SampleStats.Numerics` record and
are otherwise unconstrained:
- `statistics.stdev`;
- `statistics.stdev(xs) / math.sqrt(len(xs))`;
- the `statistics.quantiles(..., n=100)` cut point.

The index `int(n * 0.95)` is modelled as `n * 95 / 100` on naturals, and the
same goes for the 0.50 and 0.99 indices.

`delta` (compare.py:74-75) is a plain subtraction, so a counter reset gives
a negative delta. `Compare.Delta` does the same.

## Model

| member | source | states |
|---|---|---|
| StatisticalAnalysis.PercentileIndex | benchmark2/lib/statistical_analysis.py:107-109 | the index is the floor of n*p/100 and lies inside a non-empty sample |
| StatisticalAnalysis.PercentileIndexMonotone | benchmark2/lib/statistical_analysis.py:107-109 | a higher percentile never reads a lower index |
| StatisticalAnalysis.PercentileIndexLadder | benchmark2/lib/statistical_analysis.py:101-110 | for n >= 1, the indices satisfy n*50/100 <= n*95/100 <= n*99/100 <= n-1, so every access is in range |
| StatisticalAnalysis.ComputePercentiles | benchmark2/lib/statistical_analysis.py:96-111 | all zeros on empty input; otherwise p50, p95 and p99 are the sorted sample read at index floor(n*p/100), max is the last sorted value (the largest input), the mean is the sample mean, p50 <= p95 <= p99 <= max, stddev is the library stdev for n > 1 and 0 for a single value |
| StatisticalAnalysis.ComputePercentilesConstant | benchmark2/lib/statistical_analysis.py:105-110 | n identical values give that value as mean, p50, p95, p99 and max; one value gives stddev 0 |
| StatisticalAnalysis.CriticalValue | benchmark2/lib/statistical_analysis.py:126 | the critical value is 1.96 iff n > 30, and 2.0 otherwise |
| StatisticalAnalysis.ComputeConfidenceInterval | benchmark2/lib/statistical_analysis.py:114-129 | (0,0,0) when empty and (v,v,0) for one value; for two or more, margin = critical value times standard error, high - mean = mean - low = margin, and low <= mean <= high whenever the standard error is non-negative |
| StatisticalAnalysis.TpsStatus | benchmark2/lib/statistical_analysis.py:248-252 | CRITICAL iff tps < -3, WARNING iff -3 <= tps < -1, OK iff tps >= -1 |
| StatisticalAnalysis.P99Status | benchmark2/lib/statistical_analysis.py:256-260 | CRITICAL iff pct > 15 and ms > 5; WARNING iff pct > 5 and ms > 2 but not critical; OK whenever ms <= 2 or pct <= 5 |
| StatisticalAnalysis.Worst | benchmark2/lib/statistical_analysis.py:262-266 | the worse of two statuses is one of them and ranks at least as high as both |
| StatisticalAnalysis.VerdictOf | benchmark2/lib/statistical_analysis.py:262-266 | PASS iff the status is OK, WARNING iff it is WARNING, FAIL iff it is CRITICAL |
| StatisticalAnalysis.AssessResults | benchmark2/lib/statistical_analysis.py:245-272 | the overall verdict is the worst of the two statuses under OK < WARNING < CRITICAL, mapped to PASS/WARNING/FAIL |
| StatisticalAnalysis.AssessResultsMonotone | benchmark2/lib/statistical_analysis.py:248-266 | lower throughput or a larger p99 increase never improves either status, and FAIL stays FAIL |
| StatisticalAnalysis.AssessResultsExamples | benchmark2/lib/statistical_analysis.py:248-266 | (-4, 20, 10) gives CRITICAL/CRITICAL/FAIL; (-0.5, 20, 1) gives OK for p99 despite a 20% rise |
| StatisticalAnalysis.TpsOf | benchmark2/lib/statistical_analysis.py:185-186 | the throughput list has one entry per run, in run order |
| StatisticalAnalysis.SummarizeTps | benchmark2/lib/statistical_analysis.py:188-193 | the sample count is the number of runs, the mean is the sample mean of the tps values (between the smallest and largest), stddev is the library stdev for more than one run, ci_low and ci_high are those of `compute_confidence_interval`, and one run gives stddev 0 and a zero-width interval |
| StatisticalAnalysis.ComputeLatencyImpact | benchmark2/lib/statistical_analysis.py:202-216 | both impacts are 0 over a non-positive baseline; otherwise baseline + impact_ms = enabled and impact_pct is impact_ms as a percentage of the baseline |
| StatisticalAnalysis.LatencyImpactVersusCalculateImpact | benchmark2/lib/statistical_analysis.py:204-209 | the loop's percentage equals `calculate_impact` exactly when the baseline is >= 0 or the values coincide |
| StatisticalAnalysis.LatencyStats | benchmark2/lib/statistical_analysis.py:196-197 | absent iff the latency sample is empty; otherwise `compute_percentiles` of the sample |
| StatisticalAnalysis.LatencyImpacts | benchmark2/lib/statistical_analysis.py:199-216 | all five metrics are present, each reads its own value from the two summaries (0 when a summary is absent), and each entry is the impact computed from those two values: no impact over a non-positive baseline, otherwise baseline + impact_ms = enabled and impact_pct * baseline = impact_ms * 100 |
| StatisticalAnalysis.AnalyzeWorkload | benchmark2/lib/statistical_analysis.py:174-242 | "Insufficient data" iff either run list is empty; the division by a zero baseline mean is its own outcome; otherwise each side summarises its runs' tps, the tps impact is `calculate_impact` of the two means, each latency entry compares the `compute_percentiles` value of that metric on both sides (0 for an empty sample), and the assessment is `assess_results` of the tps impact and the p99 entry |
| Compare.CalculateImpact | benchmark/lib/compare.py:20-24 | 0 when the baseline is 0; otherwise impact * baseline = (test - baseline) * 100 |
| Compare.ImpactRoundTrip | benchmark/lib/compare.py:20-24 | over a non-zero baseline, applying the impact to the baseline gives back the test value |
| Compare.ImpactSign | benchmark/lib/compare.py:24 | over a positive baseline, the impact is positive, zero or negative exactly as test - baseline is |
| Compare.ImpactExamples | benchmark/lib/compare.py:22-24 | calculate_impact(0, t) = 0, calculate_impact(b, b) = 0, calculate_impact(100, 110) = 10 |
| Compare.ComparePair | benchmark/lib/compare.py:37-44 | the pair is copied through, and its impact leads from baseline to test (0 over a zero baseline) |
| Compare.CompareThroughput | benchmark/lib/compare.py:33-44 | the tps values are copied through, the impact is `calculate_impact` of them, and over a positive baseline the impact is negative iff throughput dropped |
| Compare.CompareLatency | benchmark/lib/compare.py:47-63 | exactly the five metrics mean/p50/p95/p99/max are compared, each with its baseline and test values copied through and `calculate_impact` of them |
| Compare.Delta | benchmark/lib/compare.py:74-75 | start + delta = end, with no sign check |
| Compare.CompareDatabaseStats | benchmark/lib/compare.py:66-91 | every one of the eight counters is compared: each side's delta takes its start snapshot to its end snapshot, and the impact is `calculate_impact` of the two deltas |
| Compare.SignalRankTable | benchmark/lib/compare.py:99-108 | the thresholds a magnitude reaches among {2, 5, 10, 20} give its single-signal tier, all bounds strict `<` |
| Compare.AssessImpact | benchmark/lib/compare.py:94-108 | the tier is the worse of the two single-signal tiers, each the number of thresholds {2, 5, 10, 20} that signal's magnitude reaches |
| Compare.AssessImpactSignInsensitive | benchmark/lib/compare.py:99-108 | negating either impact leaves the tier unchanged |
| Compare.AssessImpactMonotone | benchmark/lib/compare.py:99-108 | a larger magnitude on either signal never lowers the tier |
| Compare.AssessImpactExamples | benchmark/lib/compare.py:99-108 | (1,1) NEGLIGIBLE, (3,3) LOW, (15,15) HIGH, (25,1) SEVERE, exactly 2 is LOW, -20 is SEVERE |
| Compare.Severity.Label | benchmark/lib/compare.py:100-108 | the text starts with a check mark iff the tier is NEGLIGIBLE or LOW, with a warning sign iff MODERATE or HIGH, and with a cross iff SEVERE |
| Text.Lower | benchmark/lib/ddl_analyzer.py:33 | the length is kept, each upper-case ASCII letter becomes the letter 32 code points higher, no upper-case ASCII letter remains, and every other character is unchanged |
| Text.Contains | benchmark/lib/ddl_analyzer.py:33 | true iff the pattern occurs at some position of the text |
| DdlAnalyzer.BlockedByFlightRecorder | benchmark/lib/ddl_analyzer.py:28-33 | false when the operation was not blocked or `blocked_by` is absent or empty; otherwise true iff the lower-cased agent contains "flight_recorder" |
| DdlAnalyzer.BlockedByFlightRecorderExamples | benchmark/lib/ddl_analyzer.py:31-33 | "Flight_Recorder" matches case-insensitively but only on a blocked operation; "autovacuum" never matches |
| DdlAnalyzer.Filter | benchmark/lib/ddl_analyzer.py:73-74 | a list comprehension with a condition keeps each passing operation as often as it occurs and no other, and keeps as many as there are positions holding one |
| DdlAnalyzer.BlockedOps | benchmark/lib/ddl_analyzer.py:73 | the blocked operations, each as often as it occurs in the input and no other; their number is the number of positions holding a blocked operation |
| DdlAnalyzer.FrBlockedOps | benchmark/lib/ddl_analyzer.py:74 | the recorder-blocked operations, each as often as it occurs in the input and no other; their number is the number of positions holding one |
| DdlAnalyzer.OfType | benchmark/lib/ddl_analyzer.py:88-95 | the operations of the given DDL type, each as often as it occurs in the input and no other; their number is the number of positions holding that type |
| DdlAnalyzer.FrBlockedWithinBlocked | benchmark/lib/ddl_analyzer.py:73-74 | there are never more recorder-blocked operations than blocked ones |
| DdlAnalyzer.Percentile | benchmark/lib/ddl_analyzer.py:43-47 | 0.0 on an empty sample and the only value of a singleton; larger samples defer to the quantile routine on the sorted sample |
| DdlAnalyzer.ComputeDurationStats | benchmark/lib/ddl_analyzer.py:49-69 | all zeros with count 0 when empty; otherwise count = length, min, max, mean and median are those of the durations, p95 and p99 are `percentile` of them, stddev is the library stdev for more than one operation, min <= median <= max and min <= mean <= max; one operation gives all statistics equal to its duration and stddev 0 |
| DdlAnalyzer.Percent | benchmark/lib/ddl_analyzer.py:78-80 | 0 for an empty whole; otherwise r * whole = part * 100, and it lies in [0, 100] when part <= whole |
| DdlAnalyzer.PercentMonotone | benchmark/lib/ddl_analyzer.py:78-80 | percentages of one whole follow the order of their parts |
| DdlAnalyzer.FrBlockedPct | benchmark/lib/ddl_analyzer.py:116-117 | the recorder-blocked rate is the percentage of positions holding a recorder-blocked operation among all operations; it lies in [0, 100] and is 0 when nothing (or nothing recorder-blocked) was measured |
| DdlAnalyzer.BlockingAnalysis | benchmark/lib/ddl_analyzer.py:71-83 | total_blocked and fr_blocked are the numbers of positions holding a blocked and a recorder-blocked operation, the percentages are those counts over total_count (0 with no operations), the nested stats are `duration_stats` of the blocked and recorder-blocked lists, fr_blocked <= total_blocked <= total_count and 0 <= fr_blocked_pct <= total_blocked_pct <= 100 |
| DdlAnalyzer.DistinctTypes | benchmark/lib/ddl_analyzer.py:87-99 | the breakdown keys list each DDL type once, cover every operation's type, and name only types that occur |
| DdlAnalyzer.TypeStatsOf | benchmark/lib/ddl_analyzer.py:103-111 | count is the number of operations; blocked_count and fr_blocked_count count the positions holding blocked and recorder-blocked ones; the percentages are those counts over count; duration_stats is `duration_stats` of the operations, and blocked_duration_stats is that of the blocked ones, absent iff there are none; fr_blocked_count <= blocked_count <= count |
| DdlAnalyzer.Entries | benchmark/lib/ddl_analyzer.py:101-111 | one entry per key, in key order, each holding the statistics of exactly the operations of its type, and its count is the number of those operations |
| DdlAnalyzer.BreakdownCovers | benchmark/lib/ddl_analyzer.py:88-95 | the breakdown names every operation's type exactly once |
| DdlAnalyzer.BreakdownCounts | benchmark/lib/ddl_analyzer.py:87-111 | each entry counts its type's operations (at least one), and the per-type counts sum to total_count |
| DdlAnalyzer.OfTypeCount | benchmark/lib/ddl_analyzer.py:88-95 | the operations of a type number exactly its occurrences, counted one operation at a time |
| DdlAnalyzer.BlockedOfType | benchmark/lib/ddl_analyzer.py:95-97 | the blocked operations among those of a type are the positions of the whole list holding a blocked operation of that type |
| DdlAnalyzer.FrBlockedOfType | benchmark/lib/ddl_analyzer.py:95-99 | the recorder-blocked operations among those of a type are the positions of the whole list holding a recorder-blocked operation of that type |
| DdlAnalyzer.BreakdownBlockedCounts | benchmark/lib/ddl_analyzer.py:95-107 | each entry's blocked and recorder-blocked counts are the positions of the whole list holding such an operation of its type |
| DdlAnalyzer.DdlTypeBreakdown | benchmark/lib/ddl_analyzer.py:85-112 | every type appears once and every operation's type appears; each entry holds the statistics of exactly its type's operations (at least one); its blocked and recorder-blocked counts are the positions of the whole list holding such an operation of that type; the per-type counts sum to total_count |
| DdlAnalyzer.FloorDiv | benchmark/lib/ddl_analyzer.py:120 | the quotient is Python's floor division for either sign of a non-zero divisor |
| DdlAnalyzer.Project | benchmark/lib/ddl_analyzer.py:119-131 | collections per day is the number of whole intervals in 86400 s; expected per hour times 24 is expected per day; expected per hour is collections times pct/100 times ops per hour; and the result is non-negative for non-negative inputs |
| DdlAnalyzer.CollisionProbability | benchmark/lib/ddl_analyzer.py:114-132 | absent iff the interval is 0 (where Python's `//` raises); otherwise the projection of the recorder-blocked rate that `blocking_analysis` reports, at the given interval and rate, and no recorder-blocked operation means no expected collisions |
| DdlAnalyzer.ProjectExample | benchmark/lib/ddl_analyzer.py:120-131 | 2% at the default 180 s with the default 100 ops/hour gives 480 collections, 23040 expected per day and 960 per hour |
| DdlAnalyzer.TierFor | benchmark/lib/ddl_analyzer.py:142-153 | LOW iff pct < 1, MODERATE iff 1 <= pct < 3, MODERATE-HIGH iff 3 <= pct < 5, HIGH iff pct >= 5 |
| DdlAnalyzer.TierMonotone | benchmark/lib/ddl_analyzer.py:142-153 | a higher blocked rate never gives a lower tier |
| DdlAnalyzer.RiskTier.Recommendation | benchmark/lib/ddl_analyzer.py:142-153 | LOW and MODERATE recommend that the recorder is "Safe"; MODERATE-HIGH and HIGH both name emergency mode (300s) |
| DdlAnalyzer.AverageDelay | benchmark/lib/ddl_analyzer.py:139-140 | 0 when no operation is recorder-blocked, else the mean of the recorder-blocked durations, which lies between the shortest and the longest of them |
| DdlAnalyzer.RiskAssessment | benchmark/lib/ddl_analyzer.py:134-160 | the tier follows the recorder-blocked rate; the high-delay qualifier applies iff the average delay exceeds 100 ms; with nothing recorder-blocked the level is plain LOW |
| DdlAnalyzer.NoHighDelayWhenShort | benchmark/lib/ddl_analyzer.py:139-140 | if no recorder-blocked operation took longer than 100 ms, the high-delay qualifier is never added |
| DdlAnalyzer.Risk.Label | benchmark/lib/ddl_analyzer.py:156-157 | the level text is the tier name, followed by " (HIGH DELAY)" exactly when the qualifier applies |
| SampleStats.Sort | benchmark2/lib/statistical_analysis.py:101 | the result is sorted ascending and is a permutation of the input |
| SampleStats.Minimum | benchmark/lib/ddl_analyzer.py:62 | an element of the sample that is no larger than any element |
| SampleStats.Maximum | benchmark/lib/ddl_analyzer.py:63 | an element of the sample that is no smaller than any element |
| SampleStats.Average | benchmark/lib/ddl_analyzer.py:64 | mean * n = sum of the sample |
| SampleStats.AverageBounds | benchmark/lib/ddl_analyzer.py:64 | the mean lies between the minimum and the maximum |
| SampleStats.Median | benchmark/lib/ddl_analyzer.py:65 | the middle sorted value for odd n and the mean of the two middle sorted values for even n; it lies between the minimum and the maximum |

## Left out

- File and log input are left out: summary and transaction-log parsing, result loading, directory traversal and command-line handling. They only produce the typed numbers the model takes as input.
- Report rendering is left out, because it only formats results. This covers the JSON and markdown reports, the printed summary and the `impact_formatted` strings of `format_impact`. It also covers the `datetime.now()` timestamp and the ad-hoc collision tables inside the DDL markdown report.
- The recommendation text that `risk_assessment` appends on high delay embeds the average formatted to one decimal, so it is rendering. The model keeps the base recommendation of each tier and the high-delay flag.
- `statistics.stdev`, `math.sqrt` and the interpolating `statistics.quantiles` are floating-point library routines. They are caller-supplied functions in `SampleStats.Numerics` and are not constrained.
- StatisticalAnalysis.ComputePercentilesConstant: does not state that n > 1 identical values have standard deviation 0, because the standard deviation is a caller-supplied function.
- StatisticalAnalysis.ComputeConfidenceInterval: assumes the caller's standard error is non-negative for the ordering low <= mean <= high, because it is not computed in the model.
- DdlAnalyzer.Percentile: for more than one value it states only that it defers to the quantile routine, because the routine is not modelled.
- IEEE double rounding is out of scope. This covers any gap between `int(n * 0.95)` and `n * 95 / 100`, and between float and exact real arithmetic in the means and percentages.
- Text.Lower: folds only ASCII letters, unlike Python's Unicode `str.lower`. This cannot change whether the ASCII token "flight_recorder" is found, except through exotic Unicode case mappings.
- The `ZeroDivisionError` that `analyze_workload` raises on a zero baseline mean throughput is the `ZeroBaselineThroughput` outcome, and the one `collision_probability` raises on a zero interval is `None`; no exception type is modelled.
- Building `DDLOperation` records from dicts in the analyzer's constructor is left out: operations are given as records.
- `duration_stats` defaulting to all operations when no list is passed is left out: the caller passes the list explicitly.
- The unused `interval_seconds` parameter of `risk_assessment` is left out.
- The default arguments `interval_seconds=180` and `operations_per_hour=100` of `collision_probability` are the constants `DefaultIntervalSeconds` and `DefaultOperationsPerHour`; callers pass them explicitly.
- The `confidence=0.95` argument of `compute_confidence_interval` is left out, because the function never reads it.
