/**
 * Statistical comparison of baseline and recorder-enabled benchmark runs
 * (benchmark2/lib/statistical_analysis.py): percentile summaries, confidence
 * intervals of mean throughput, latency impact and the pass/warn/fail gate.
 */
module StatisticalAnalysis {
  import opened SampleStats
  import opened Wrappers
  import Compare

  /** `compute_percentiles` result: the latency summary plus the sample standard deviation. */
  datatype Percentiles = Percentiles(latency: LatencySummary, stddev: real)

  /** Position of the p-th percentile in a sorted sample of n values, i.e.
      `int(n * p/100)` computed on naturals: the floor of n*p/100. */
  function PercentileIndex(n: nat, p: nat): (i: nat)
    requires p < 100
    ensures i * 100 <= n * p < i * 100 + 100
    ensures n > 0 ==> i < n
  {
    if n > 0 then
      assert n * p < n * 100;
      n * p / 100
    else
      0
  }

  /** A higher percentile never sits at a lower index. */
  lemma PercentileIndexMonotone(n: nat, p: nat, q: nat)
    requires p <= q < 100
    ensures PercentileIndex(n, p) <= PercentileIndex(n, q)
  {
    assert n * p <= n * q;
  }

  /** For n >= 1 the three indices read by `compute_percentiles` are ordered and in range. */
  lemma PercentileIndexLadder(n: nat)
    requires n >= 1
    ensures PercentileIndex(n, 50) <= PercentileIndex(n, 95) <= PercentileIndex(n, 99) <= n - 1
  {
    PercentileIndexMonotone(n, 50, 95);
    PercentileIndexMonotone(n, 95, 99);
  }

  /** `compute_percentiles`: all zeros on an empty sample; otherwise p50, p95
      and p99 are the elements of the sorted sample at the floor of n*p/100, max
      is its last element, and mean is the exact mean. */
  function ComputePercentiles(values: seq<real>, num: Numerics): (r: Percentiles)
    ensures values == [] ==> r == Percentiles(ZeroLatency, 0.0)
    ensures values != [] ==>
      var sorted, n := Sort(values), |values|;
      && r.latency.p50 == sorted[PercentileIndex(n, 50)]
      && r.latency.p95 == sorted[PercentileIndex(n, 95)]
      && r.latency.p99 == sorted[PercentileIndex(n, 99)]
      && r.latency.max == sorted[n - 1]
    ensures values != [] ==> r.latency.mean == Average(values)
    ensures values != [] ==>
      r.latency.p50 <= r.latency.p95 <= r.latency.p99 <= r.latency.max
    ensures values != [] ==>
      r.latency.p50 in values && r.latency.p95 in values && r.latency.p99 in values
    ensures values != [] ==> r.latency.max == Maximum(values)
    ensures values != [] ==> Minimum(values) <= r.latency.mean <= Maximum(values)
    ensures |values| <= 1 ==> r.stddev == 0.0
    ensures |values| > 1 ==> r.stddev == num.stdev(values)
  {
    if values == [] then Percentiles(ZeroLatency, 0.0)
    else
      var s := Sort(values);
      var n := |s|;
      PercentileIndexLadder(n);
      SortSameElements(values);
      AverageBounds(values);
      assert s[n - 1] in values;
      assert Maximum(values) in s;
      var lat := LatencySummary(
        Average(values),
        s[PercentileIndex(n, 50)],
        s[PercentileIndex(n, 95)],
        s[PercentileIndex(n, 99)],
        s[n - 1]);
      Percentiles(lat, if n > 1 then num.stdev(values) else 0.0)
  }

  /** A sample of n identical values has that value as mean and every percentile;
      a single value has standard deviation 0. */
  lemma ComputePercentilesConstant(values: seq<real>, v: real, num: Numerics)
    requires |values| > 0 && AllEqual(values, v)
    ensures ComputePercentiles(values, num).latency == LatencySummary(v, v, v, v, v)
    ensures |values| == 1 ==> ComputePercentiles(values, num).stddev == 0.0
  {
    ConstantSample(values, v);
  }

  /** `compute_confidence_interval` result: (low, high, margin). */
  datatype Interval = Interval(low: real, high: real, margin: real)

  /** The critical value: the normal 1.96 for more than 30 samples, else 2.0. */
  function CriticalValue(n: nat): (t: real)
    ensures t == 1.96 <==> n > 30
    ensures t == 2.0 <==> n <= 30
  {
    if n > 30 then 1.96 else 2.0
  }

  /** `compute_confidence_interval`: degenerate for fewer than two values;
      otherwise symmetric around the mean with margin critical value times
      standard error. */
  function ComputeConfidenceInterval(values: seq<real>, num: Numerics): (r: Interval)
    ensures values == [] ==> r == Interval(0.0, 0.0, 0.0)
    ensures |values| == 1 ==> r == Interval(values[0], values[0], 0.0)
    ensures |values| >= 2 ==> r.margin == CriticalValue(|values|) * num.stdErr(values)
    ensures |values| >= 2 ==>
      r.high - Average(values) == r.margin && Average(values) - r.low == r.margin
    ensures values != [] && num.stdErr(values) >= 0.0 ==> r.low <= Average(values) <= r.high
  {
    if |values| < 2 then
      var mean := if values != [] then values[0] else 0.0;
      assert |values| == 1 ==> Average(values) == mean by {
        if |values| == 1 {
          AverageBounds(values);
        }
      }
      Interval(mean, mean, 0.0)
    else
      var n := |values|;
      var mean := Average(values);
      var margin := CriticalValue(n) * num.stdErr(values);
      Interval(mean - margin, mean + margin, margin)
  }

  /** Three-state status of one signal, least severe first. */
  datatype Status = Ok | Warning | Critical {
    function Rank(): nat {
      match this
      case Ok => 0
      case Warning => 1
      case Critical => 2
    }
  }

  /** The overall verdict: PASS, WARNING or FAIL. */
  datatype Verdict = Pass | Warn | Fail

  /** The verdict a worst status stands for: OK is PASS, WARNING is WARNING and
      CRITICAL is FAIL, one verdict per status. */
  function VerdictOf(s: Status): (r: Verdict)
    ensures r == Pass <==> s == Ok
    ensures r == Warn <==> s == Warning
    ensures r == Fail <==> s == Critical
  {
    match s
    case Ok => Pass
    case Warning => Warn
    case Critical => Fail
  }

  /** The more severe of two statuses. */
  function Worst(a: Status, b: Status): (w: Status)
    ensures w == a || w == b
    ensures w.Rank() >= a.Rank() && w.Rank() >= b.Rank()
  {
    if a.Rank() >= b.Rank() then a else b
  }

  /** Throughput status: critical below -3%, warning below -1%. */
  function TpsStatus(tpsImpactPct: real): (s: Status)
    ensures s == Critical <==> tpsImpactPct < -3.0
    ensures s == Warning <==> -3.0 <= tpsImpactPct < -1.0
    ensures s == Ok <==> tpsImpactPct >= -1.0
  {
    if tpsImpactPct < -3.0 then Critical
    else if tpsImpactPct < -1.0 then Warning
    else Ok
  }

  /** p99 status: each tier needs both a relative and an absolute increase. */
  function P99Status(p99ImpactPct: real, p99ImpactMs: real): (s: Status)
    ensures s == Critical <==> p99ImpactPct > 15.0 && p99ImpactMs > 5.0
    ensures s == Warning <==>
      p99ImpactPct > 5.0 && p99ImpactMs > 2.0 && !(p99ImpactPct > 15.0 && p99ImpactMs > 5.0)
    ensures p99ImpactMs <= 2.0 ==> s == Ok
    ensures p99ImpactPct <= 5.0 ==> s == Ok
  {
    if p99ImpactPct > 15.0 && p99ImpactMs > 5.0 then Critical
    else if p99ImpactPct > 5.0 && p99ImpactMs > 2.0 then Warning
    else Ok
  }

  /** `assess_results` result. */
  datatype Assessment = Assessment(tpsStatus: Status, p99Status: Status, overall: Verdict)

  /** `assess_results`: the overall verdict is the worse of the two statuses. */
  function AssessResults(tpsImpactPct: real, p99ImpactPct: real, p99ImpactMs: real): (r: Assessment)
    ensures r.tpsStatus == TpsStatus(tpsImpactPct)
    ensures r.p99Status == P99Status(p99ImpactPct, p99ImpactMs)
    ensures r.overall == VerdictOf(Worst(r.tpsStatus, r.p99Status))
  {
    var tps := TpsStatus(tpsImpactPct);
    var p99 := P99Status(p99ImpactPct, p99ImpactMs);
    var overall :=
      if tps == Critical || p99 == Critical then Fail
      else if tps == Warning || p99 == Warning then Warn
      else Pass;
    Assessment(tps, p99, overall)
  }

  /** Worse inputs (lower throughput, larger p99 increase) never improve any status. */
  lemma AssessResultsMonotone(tps1: real, pct1: real, ms1: real, tps2: real, pct2: real, ms2: real)
    requires tps2 <= tps1 && pct1 <= pct2 && ms1 <= ms2
    ensures AssessResults(tps1, pct1, ms1).tpsStatus.Rank() <= AssessResults(tps2, pct2, ms2).tpsStatus.Rank()
    ensures AssessResults(tps1, pct1, ms1).p99Status.Rank() <= AssessResults(tps2, pct2, ms2).p99Status.Rank()
    ensures AssessResults(tps1, pct1, ms1).overall == Fail ==> AssessResults(tps2, pct2, ms2).overall == Fail
  {
  }

  /** Worked values of `assess_results`. */
  lemma AssessResultsExamples()
    ensures AssessResults(-4.0, 20.0, 10.0) == Assessment(Critical, Critical, Fail)
    ensures AssessResults(-0.5, 20.0, 1.0) == Assessment(Ok, Ok, Pass)
    ensures AssessResults(-2.0, 10.0, 3.0) == Assessment(Warning, Warning, Warn)
  {
  }

  /** One benchmark run's parsed summary. */
  datatype RunStats = RunStats(
    tps: real, tpsStddev: real,
    latencyMean: real, latencyP50: real, latencyP95: real, latencyP99: real, latencyMax: real,
    transactions: int, duration: real)

  /** The runs and latency samples collected for one workload. */
  datatype WorkloadData = WorkloadData(
    baselineRuns: seq<RunStats>, enabledRuns: seq<RunStats>,
    baselineLatencies: seq<real>, enabledLatencies: seq<real>)

  /** The throughput of each run, in run order. */
  function TpsOf(runs: seq<RunStats>): (r: seq<real>)
    ensures |r| == |runs|
    ensures forall i :: 0 <= i < |runs| ==> r[i] == runs[i].tps
  {
    seq(|runs|, i requires 0 <= i < |runs| => runs[i].tps)
  }

  /** Throughput summary of one side of the comparison. */
  datatype TpsSide = TpsSide(mean: real, stddev: real, ciLow: real, ciHigh: real, samples: nat)

  /** The throughput summary of one side: exact mean, sample standard deviation
      (0 for one run), and the confidence interval of the mean. */
  function SummarizeTps(tps: seq<real>, num: Numerics): (r: TpsSide)
    requires |tps| > 0
    ensures r.samples == |tps|
    ensures r.mean == Average(tps)
    ensures Minimum(tps) <= r.mean <= Maximum(tps)
    ensures |tps| > 1 ==> r.stddev == num.stdev(tps)
    ensures r.ciLow == ComputeConfidenceInterval(tps, num).low
    ensures r.ciHigh == ComputeConfidenceInterval(tps, num).high
    ensures num.stdErr(tps) >= 0.0 ==> r.ciLow <= r.mean <= r.ciHigh
    ensures |tps| == 1 ==> r.stddev == 0.0 && r.ciLow == r.mean == r.ciHigh
  {
    AverageBounds(tps);
    var ci := ComputeConfidenceInterval(tps, num);
    TpsSide(Average(tps), if |tps| > 1 then num.stdev(tps) else 0.0, ci.low, ci.high, |tps|)
  }

  /** One latency metric's baseline, enabled value and impact. */
  datatype LatencyImpact = LatencyImpact(baselineMs: real, enabledMs: real, impactPct: real, impactMs: real)

  /** How an impact relates to its two values: none over a non-positive baseline;
      otherwise the increase in ms and that increase as a percentage of the baseline. */
  predicate ImpactRule(x: LatencyImpact) {
    && (x.baselineMs <= 0.0 ==> x.impactPct == 0.0 && x.impactMs == 0.0)
    && (x.baselineMs > 0.0 ==>
          x.baselineMs + x.impactMs == x.enabledMs &&
          x.impactPct * x.baselineMs == x.impactMs * 100.0)
  }

  /** The latency-impact step: no impact is reported over a non-positive baseline. */
  function ComputeLatencyImpact(baselineVal: real, enabledVal: real): (r: LatencyImpact)
    ensures r.baselineMs == baselineVal && r.enabledMs == enabledVal
    ensures ImpactRule(r)
    ensures baselineVal <= 0.0 ==> r.impactPct == 0.0 && r.impactMs == 0.0
    ensures baselineVal > 0.0 ==>
      r.baselineMs + r.impactMs == r.enabledMs &&
      r.impactPct * r.baselineMs == r.impactMs * 100.0
  {
    if baselineVal > 0.0 then
      LatencyImpact(baselineVal, enabledVal,
                    ((enabledVal - baselineVal) / baselineVal) * 100.0, enabledVal - baselineVal)
    else
      LatencyImpact(baselineVal, enabledVal, 0.0, 0.0)
  }

  /** The latency-impact percentage agrees with `calculate_impact` exactly
      when the baseline is non-negative or the two values coincide. */
  lemma LatencyImpactVersusCalculateImpact(baselineVal: real, enabledVal: real)
    ensures ComputeLatencyImpact(baselineVal, enabledVal).impactPct
              == Compare.CalculateImpact(baselineVal, enabledVal)
            <==> baselineVal >= 0.0 || enabledVal == baselineVal
  {
  }

  /** A metric looked up in an optional percentile summary, 0 when absent. */
  function Lookup(stats: Option<Percentiles>, m: Metric): real {
    match stats
    case None => 0.0
    case Some(p) => p.latency.Get(m)
  }

  /** Percentile summary of a latency sample, absent when the sample is empty. */
  function LatencyStats(latencies: seq<real>, num: Numerics): (r: Option<Percentiles>)
    ensures r.None? <==> latencies == []
    ensures r.Some? ==> r.value == ComputePercentiles(latencies, num)
  {
    if latencies != [] then Some(ComputePercentiles(latencies, num)) else None
  }

  /** The latency-impact loop over the five metrics. */
  function LatencyImpacts(baselineStats: Option<Percentiles>, enabledStats: Option<Percentiles>)
    : (r: map<Metric, LatencyImpact>)
    ensures forall m: Metric :: m in r
    ensures forall m :: m in r ==>
      r[m].baselineMs == Lookup(baselineStats, m) && r[m].enabledMs == Lookup(enabledStats, m)
    ensures forall m :: m in r ==> r[m] == ComputeLatencyImpact(r[m].baselineMs, r[m].enabledMs)
    ensures forall m :: m in r ==> ImpactRule(r[m])
  {
    LatencyMetricsComplete();
    map m | m in LatencyMetrics ::
      ComputeLatencyImpact(Lookup(baselineStats, m), Lookup(enabledStats, m))
  }

  /** `analyze_workload` result. A zero baseline mean throughput, where the
      source's division raises, is reported as its own outcome. */
  datatype Analysis =
    | InsufficientData
    | ZeroBaselineThroughput
    | Analyzed(baseline: TpsSide, enabled: TpsSide, tpsImpactPct: real,
               latency: map<Metric, LatencyImpact>, assessment: Assessment)

  /** `analyze_workload` on already-loaded data. */
  function AnalyzeWorkload(data: WorkloadData, num: Numerics): (r: Analysis)
    ensures r.InsufficientData? <==> data.baselineRuns == [] || data.enabledRuns == []
    ensures r.ZeroBaselineThroughput? <==>
      data.baselineRuns != [] && data.enabledRuns != [] && Average(TpsOf(data.baselineRuns)) == 0.0
    ensures r.Analyzed? ==>
      && data.baselineRuns != [] && data.enabledRuns != []
      && r.baseline == SummarizeTps(TpsOf(data.baselineRuns), num)
      && r.enabled == SummarizeTps(TpsOf(data.enabledRuns), num)
    ensures r.Analyzed? ==> r.tpsImpactPct == Compare.CalculateImpact(r.baseline.mean, r.enabled.mean)
    ensures r.Analyzed? ==> Compare.ApplyImpact(r.baseline.mean, r.tpsImpactPct) == r.enabled.mean
    ensures r.Analyzed? ==> forall m: Metric :: m in r.latency
    ensures r.Analyzed? ==> forall m :: m in r.latency ==>
      r.latency[m] == ComputeLatencyImpact(r.latency[m].baselineMs, r.latency[m].enabledMs)
    ensures r.Analyzed? && data.baselineLatencies != [] ==> forall m :: m in r.latency ==>
      r.latency[m].baselineMs == ComputePercentiles(data.baselineLatencies, num).latency.Get(m)
    ensures r.Analyzed? && data.enabledLatencies != [] ==> forall m :: m in r.latency ==>
      r.latency[m].enabledMs == ComputePercentiles(data.enabledLatencies, num).latency.Get(m)
    ensures r.Analyzed? && data.baselineLatencies == [] ==> forall m :: m in r.latency ==>
      r.latency[m].baselineMs == 0.0 && r.latency[m].impactPct == 0.0
    ensures r.Analyzed? && data.enabledLatencies == [] ==> forall m :: m in r.latency ==>
      r.latency[m].enabledMs == 0.0
    ensures r.Analyzed? && P99 in r.latency ==>
      r.assessment == AssessResults(r.tpsImpactPct, r.latency[P99].impactPct, r.latency[P99].impactMs)
  {
    if data.baselineRuns == [] || data.enabledRuns == [] then InsufficientData
    else
      var baselineTps := TpsOf(data.baselineRuns);
      var enabledTps := TpsOf(data.enabledRuns);
      var baselineMean := Average(baselineTps);
      var enabledMean := Average(enabledTps);
      if baselineMean == 0.0 then ZeroBaselineThroughput
      else
        var tpsImpactPct := ((enabledMean - baselineMean) / baselineMean) * 100.0;
        assert tpsImpactPct == Compare.CalculateImpact(baselineMean, enabledMean);
        Compare.ImpactRoundTrip(baselineMean, enabledMean);
        var latency := LatencyImpacts(LatencyStats(data.baselineLatencies, num),
                                      LatencyStats(data.enabledLatencies, num));
        var assessment := AssessResults(tpsImpactPct, latency[P99].impactPct, latency[P99].impactMs);
        Analyzed(SummarizeTps(baselineTps, num), SummarizeTps(enabledTps, num),
                 tpsImpactPct, latency, assessment)
  }
}
