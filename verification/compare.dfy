/**
 * Baseline-versus-test comparison of one benchmark scenario
 * (benchmark/lib/compare.py): percentage impact of every paired metric and the
 * five-tier overhead verdict.
 */
module Compare {
  import opened SampleStats

  /** `calculate_impact`: relative change from baseline to test, in percent,
      with 0 by convention when the baseline is 0. */
  function CalculateImpact(baseline: real, test: real): (r: real)
    ensures baseline == 0.0 ==> r == 0.0
    ensures baseline != 0.0 ==> r * baseline == (test - baseline) * 100.0
  {
    if baseline == 0.0 then 0.0 else ((test - baseline) / baseline) * 100.0
  }

  /** The value an impact percentage leads to from its baseline. */
  function ApplyImpact(baseline: real, impactPct: real): real {
    baseline + baseline * impactPct / 100.0
  }

  /** Applying the computed impact to a non-zero baseline recovers the test value. */
  lemma ImpactRoundTrip(baseline: real, test: real)
    requires baseline != 0.0
    ensures ApplyImpact(baseline, CalculateImpact(baseline, test)) == test
  {
  }

  /** Over a positive baseline the impact has the sign of test - baseline. */
  lemma ImpactSign(baseline: real, test: real)
    requires baseline > 0.0
    ensures CalculateImpact(baseline, test) > 0.0 <==> test > baseline
    ensures CalculateImpact(baseline, test) == 0.0 <==> test == baseline
    ensures CalculateImpact(baseline, test) < 0.0 <==> test < baseline
  {
  }

  /** Worked values of `calculate_impact`. */
  lemma ImpactExamples(t: real, b: real)
    ensures CalculateImpact(0.0, t) == 0.0
    ensures CalculateImpact(b, b) == 0.0
    ensures CalculateImpact(100.0, 110.0) == 10.0
  {
  }

  /** One paired metric: baseline value, test value and impact percentage. */
  datatype Comparison = Comparison(baseline: real, test: real, impactPct: real)

  /** The impact record of one baseline/test pair. */
  function ComparePair(baseline: real, test: real): (r: Comparison)
    ensures r.baseline == baseline && r.test == test
    ensures baseline != 0.0 ==> ApplyImpact(r.baseline, r.impactPct) == r.test
    ensures baseline == 0.0 ==> r.impactPct == 0.0
  {
    Comparison(baseline, test, CalculateImpact(baseline, test))
  }

  /** `compare_throughput`. */
  function CompareThroughput(baselineTps: real, testTps: real): (r: Comparison)
    ensures r.baseline == baselineTps && r.test == testTps
    ensures r.impactPct == CalculateImpact(baselineTps, testTps)
    ensures baselineTps > 0.0 ==> (r.impactPct < 0.0 <==> testTps < baselineTps)
  {
    if baselineTps > 0.0 then
      ImpactSign(baselineTps, testTps);
      ComparePair(baselineTps, testTps)
    else
      ComparePair(baselineTps, testTps)
  }

  /** `compare_latency`: every one of the five metrics, and only those, compared. */
  function CompareLatency(baseline: LatencySummary, test: LatencySummary): (r: map<Metric, Comparison>)
    ensures forall m: Metric :: m in r
    ensures forall m :: m in r ==> r[m].baseline == baseline.Get(m) && r[m].test == test.Get(m)
    ensures forall m :: m in r ==> r[m].impactPct == CalculateImpact(baseline.Get(m), test.Get(m))
  {
    LatencyMetricsComplete();
    map m | m in LatencyMetrics :: ComparePair(baseline.Get(m), test.Get(m))
  }

  /** The eight database counters compared, in the script's order. */
  datatype CounterKey =
    | XactCommit | XactRollback | BlksRead | BlksHit
    | TupReturned | TupFetched | TupInserted | TupUpdated

  const CounterKeys: seq<CounterKey> :=
    [XactCommit, XactRollback, BlksRead, BlksHit, TupReturned, TupFetched, TupInserted, TupUpdated]

  lemma CounterKeysComplete()
    ensures forall k: CounterKey :: k in CounterKeys
  {
    forall k: CounterKey ensures k in CounterKeys {
      match k
      case XactCommit => assert CounterKeys[0] == k;
      case XactRollback => assert CounterKeys[1] == k;
      case BlksRead => assert CounterKeys[2] == k;
      case BlksHit => assert CounterKeys[3] == k;
      case TupReturned => assert CounterKeys[4] == k;
      case TupFetched => assert CounterKeys[5] == k;
      case TupInserted => assert CounterKeys[6] == k;
      case TupUpdated => assert CounterKeys[7] == k;
    }
  }

  /** One database statistics snapshot, restricted to the compared counters. */
  datatype DbSnapshot = DbSnapshot(
    xactCommit: int, xactRollback: int, blksRead: int, blksHit: int,
    tupReturned: int, tupFetched: int, tupInserted: int, tupUpdated: int)
  {
    function Get(k: CounterKey): int {
      match k
      case XactCommit => xactCommit
      case XactRollback => xactRollback
      case BlksRead => blksRead
      case BlksHit => blksHit
      case TupReturned => tupReturned
      case TupFetched => tupFetched
      case TupInserted => tupInserted
      case TupUpdated => tupUpdated
    }
  }

  /** The inner `delta`: growth of one counter between two snapshots, which
      may be negative (no reset detection). */
  function Delta(start: DbSnapshot, end: DbSnapshot, key: CounterKey): (r: int)
    ensures start.Get(key) + r == end.Get(key)
  {
    end.Get(key) - start.Get(key)
  }

  /** The deltas of one counter in both runs and the impact between them. */
  datatype CounterComparison = CounterComparison(baseline: int, test: int, impactPct: real)

  /** `compare_database_stats`. */
  function CompareDatabaseStats(
    baselineStart: DbSnapshot, baselineEnd: DbSnapshot,
    testStart: DbSnapshot, testEnd: DbSnapshot): (r: map<CounterKey, CounterComparison>)
    ensures forall k: CounterKey :: k in r
    ensures forall k :: k in r ==>
      baselineStart.Get(k) + r[k].baseline == baselineEnd.Get(k) &&
      testStart.Get(k) + r[k].test == testEnd.Get(k)
    ensures forall k :: k in r ==>
      r[k].impactPct == CalculateImpact(r[k].baseline as real, r[k].test as real)
  {
    CounterKeysComplete();
    map k | k in CounterKeys ::
      var b := Delta(baselineStart, baselineEnd, k);
      var t := Delta(testStart, testEnd, k);
      CounterComparison(b, t, CalculateImpact(b as real, t as real))
  }

  /** The five overhead tiers of `assess_impact`, least severe first. */
  datatype Severity = Negligible | Low | Moderate | High | Severe {
    function Rank(): nat {
      match this
      case Negligible => 0
      case Low => 1
      case Moderate => 2
      case High => 3
      case Severe => 4
    }

    /** The text `assess_impact` returns for the tier: a check mark for the two
        acceptable tiers, a warning sign for the middle two, a cross for SEVERE. */
    function Label(): (s: string)
      ensures |s| > 0
      ensures s[0] == '\U{2713}' <==> Rank() <= 1
      ensures s[0] == '\U{26A0}' <==> 2 <= Rank() <= 3
      ensures s[0] == '\U{2717}' <==> Rank() == 4
    {
      match this
      case Negligible => "\U{2713} NEGLIGIBLE (<2% impact)"
      case Low => "\U{2713} LOW (<5% impact)"
      case Moderate => "\U{26A0} MODERATE (<10% impact)"
      case High => "\U{26A0} HIGH (<20% impact)"
      case Severe => "\U{2717} SEVERE (>20% impact)"
    }
  }

  function Abs(x: real): real {
    if x < 0.0 then -x else x
  }

  /** The tier bounds, each an exclusive upper limit of one tier. */
  const Thresholds: seq<real> := [2.0, 5.0, 10.0, 20.0]

  /** How many of `bounds` the magnitude `x` reaches. */
  function Reached(x: real, bounds: seq<real>): (r: nat)
    ensures r <= |bounds|
  {
    if bounds == [] then 0
    else (if bounds[0] <= x then 1 else 0) + Reached(x, bounds[1..])
  }

  /** The tier rank one signal alone calls for: the number of thresholds it reaches. */
  function SignalRank(impactPct: real): nat {
    Reached(Abs(impactPct), Thresholds)
  }

  /** The rank a magnitude calls for, threshold by threshold. */
  lemma {:induction false} SignalRankTable(impactPct: real)
    ensures var x := Abs(impactPct);
      SignalRank(impactPct) ==
        if x < 2.0 then 0 else if x < 5.0 then 1 else if x < 10.0 then 2 else if x < 20.0 then 3 else 4
  {
    var x := Abs(impactPct);
    var t1, t2, t3: seq<real> := [5.0, 10.0, 20.0], [10.0, 20.0], [20.0];
    assert Thresholds[1..] == t1 && t1[1..] == t2 && t2[1..] == t3 && t3[1..] == [];
    assert Reached(x, t3) == if 20.0 <= x then 1 else 0;
    assert Reached(x, t2) == (if 10.0 <= x then 1 else 0) + Reached(x, t3);
    assert Reached(x, t1) == (if 5.0 <= x then 1 else 0) + Reached(x, t2);
    assert Reached(x, Thresholds) == (if 2.0 <= x then 1 else 0) + Reached(x, t1);
  }

  function MaxNat(a: nat, b: nat): nat {
    if a >= b then a else b
  }

  /** `assess_impact`: the tier is the worse of the two single-signal tiers. */
  function AssessImpact(throughputImpact: real, latencyP95Impact: real): (r: Severity)
    ensures r.Rank() == MaxNat(SignalRank(throughputImpact), SignalRank(latencyP95Impact))
  {
    SignalRankTable(throughputImpact);
    SignalRankTable(latencyP95Impact);
    var t := Abs(throughputImpact);
    var l := Abs(latencyP95Impact);
    if t < 2.0 && l < 2.0 then Negligible
    else if t < 5.0 && l < 5.0 then Low
    else if t < 10.0 && l < 10.0 then Moderate
    else if t < 20.0 && l < 20.0 then High
    else Severe
  }

  /** Only magnitudes matter: negating either impact leaves the tier unchanged. */
  lemma AssessImpactSignInsensitive(throughputImpact: real, latencyP95Impact: real)
    ensures AssessImpact(-throughputImpact, latencyP95Impact) == AssessImpact(throughputImpact, latencyP95Impact)
    ensures AssessImpact(throughputImpact, -latencyP95Impact) == AssessImpact(throughputImpact, latencyP95Impact)
  {
  }

  /** A larger magnitude on either signal never lowers the tier. */
  lemma AssessImpactMonotone(t1: real, l1: real, t2: real, l2: real)
    requires Abs(t1) <= Abs(t2) && Abs(l1) <= Abs(l2)
    ensures AssessImpact(t1, l1).Rank() <= AssessImpact(t2, l2).Rank()
  {
  }

  /** Worked values of `assess_impact`. */
  lemma AssessImpactExamples()
    ensures AssessImpact(1.0, 1.0) == Negligible
    ensures AssessImpact(3.0, 3.0) == Low
    ensures AssessImpact(15.0, 15.0) == High
    ensures AssessImpact(25.0, 1.0) == Severe
    ensures AssessImpact(2.0, 0.0) == Low
    ensures AssessImpact(-20.0, 0.0) == Severe
  {
  }
}
