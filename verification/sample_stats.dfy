/**
 * Order statistics and moments over finite samples of real numbers, shared by
 * both analysis scripts: sorting, sum and mean, minimum and maximum, median.
 *
 * Library numerics the scripts call but that are not exact arithmetic (the
 * sample standard deviation, its square-root scaling, interpolated quantiles)
 * are supplied by the caller in a `Numerics` record.
 */
module SampleStats {

  /** The five latency metrics both scripts compare, in the scripts' order. */
  datatype Metric = Mean | P50 | P95 | P99 | Max

  const LatencyMetrics: seq<Metric> := [Mean, P50, P95, P99, Max]

  lemma LatencyMetricsComplete()
    ensures forall m: Metric :: m in LatencyMetrics
  {
    forall m: Metric ensures m in LatencyMetrics {
      match m
      case Mean => assert LatencyMetrics[0] == m;
      case P50 => assert LatencyMetrics[1] == m;
      case P95 => assert LatencyMetrics[2] == m;
      case P99 => assert LatencyMetrics[3] == m;
      case Max => assert LatencyMetrics[4] == m;
    }
  }

  /** A latency summary keyed by `Metric`. */
  datatype LatencySummary = LatencySummary(mean: real, p50: real, p95: real, p99: real, max: real) {
    function Get(m: Metric): real {
      match m
      case Mean => mean
      case P50 => p50
      case P95 => p95
      case P99 => p99
      case Max => max
    }
  }

  const ZeroLatency := LatencySummary(0.0, 0.0, 0.0, 0.0, 0.0)

  /**
   * Floating-point library routines, taken as given:
   *  - stdev(xs): the sample standard deviation of xs (used only when |xs| > 1);
   *  - stdErr(xs): stdev(xs) divided by the square root of |xs|;
   *  - quantile(sorted, p): the p-th of the 99 cut points that splits the
   *    sorted sample into 100 groups (used only when |sorted| > 1).
   */
  datatype Numerics = Numerics(
    stdev: seq<real> -> real,
    stdErr: seq<real> -> real,
    quantile: (seq<real>, nat) -> real)

  /** Ascending order. */
  predicate Sorted(s: seq<real>) {
    forall i, j :: 0 <= i <= j < |s| ==> s[i] <= s[j]
  }

  /** Inserts `x` into a sorted sequence, keeping it sorted. */
  function Insert(x: real, s: seq<real>): (r: seq<real>)
    requires Sorted(s)
    ensures Sorted(r)
    ensures multiset(r) == multiset(s) + multiset{x}
    ensures forall k :: 0 <= k < |r| ==> r[k] == x || r[k] in s
  {
    if s == [] then [x]
    else if x <= s[0] then [x] + s
    else
      var rest := Insert(x, s[1..]);
      assert s == [s[0]] + s[1..];
      assert forall k :: 0 <= k < |rest| ==> s[0] <= rest[k];
      [s[0]] + rest
  }

  /** `sorted(values)`: an ascending permutation of `s`. */
  function Sort(s: seq<real>): (r: seq<real>)
    ensures Sorted(r)
    ensures multiset(r) == multiset(s)
    ensures |r| == |s|
  {
    if s == [] then []
    else
      assert s == [s[0]] + s[1..];
      Insert(s[0], Sort(s[1..]))
  }

  /** Every element of the sorted sequence comes from the input and vice versa. */
  lemma SortSameElements(s: seq<real>)
    ensures forall i :: 0 <= i < |Sort(s)| ==> Sort(s)[i] in s
    ensures forall x :: x in s ==> x in Sort(s)
  {
    var r := Sort(s);
    forall i | 0 <= i < |r| ensures r[i] in s {
      assert r[i] in multiset(r);
    }
    forall x | x in s ensures x in r {
      assert x in multiset(s);
    }
  }

  function Sum(s: seq<real>): real {
    if s == [] then 0.0 else s[0] + Sum(s[1..])
  }

  /** A sum of values within [lo, hi] lies within [n*lo, n*hi]. */
  lemma {:induction false} SumBounds(s: seq<real>, lo: real, hi: real)
    requires forall i :: 0 <= i < |s| ==> lo <= s[i] <= hi
    ensures |s| as real * lo <= Sum(s) <= |s| as real * hi
  {
    if s != [] {
      SumBounds(s[1..], lo, hi);
    }
  }

  /** The smallest element (Python's `min`). */
  function Minimum(s: seq<real>): (r: real)
    requires |s| > 0
    ensures r in s
    ensures forall i :: 0 <= i < |s| ==> r <= s[i]
  {
    if |s| == 1 then s[0]
    else
      var m := Minimum(s[1..]);
      assert forall i :: 1 <= i < |s| ==> s[i] == s[1..][i - 1];
      if s[0] <= m then s[0] else m
  }

  /** The largest element (Python's `max`). */
  function Maximum(s: seq<real>): (r: real)
    requires |s| > 0
    ensures r in s
    ensures forall i :: 0 <= i < |s| ==> s[i] <= r
  {
    if |s| == 1 then s[0]
    else
      var m := Maximum(s[1..]);
      assert forall i :: 1 <= i < |s| ==> s[i] == s[1..][i - 1];
      if s[0] >= m then s[0] else m
  }

  /** The arithmetic mean (`statistics.mean`), exact on reals: the value that,
      taken |s| times, gives the sum. */
  function Average(s: seq<real>): (r: real)
    requires |s| > 0
    ensures r * |s| as real == Sum(s)
  {
    QuotientTimes(Sum(s), |s| as real);
    Sum(s) / |s| as real
  }

  /** The mean lies between the smallest and the largest element. */
  lemma AverageBounds(s: seq<real>)
    requires |s| > 0
    ensures Minimum(s) <= Average(s) <= Maximum(s)
  {
    MeanBetween(s, Minimum(s), Maximum(s));
  }

  /** The sum divided by the size lies within any bounds of the elements. */
  lemma MeanBetween(s: seq<real>, lo: real, hi: real)
    requires |s| > 0
    requires forall i :: 0 <= i < |s| ==> lo <= s[i] <= hi
    ensures lo <= Sum(s) / |s| as real <= hi
  {
    var n, total := |s| as real, Sum(s);
    SumBounds(s, lo, hi);
    QuotientAtLeast(total, n, lo);
    QuotientAtMost(total, n, hi);
  }

  lemma QuotientAtLeast(total: real, n: real, lo: real)
    requires n > 0.0 && n * lo <= total
    ensures lo <= total / n
  {
  }

  lemma QuotientAtMost(total: real, n: real, hi: real)
    requires n > 0.0 && total <= n * hi
    ensures total / n <= hi
  {
  }

  lemma QuotientTimes(total: real, n: real)
    requires n > 0.0
    ensures total / n * n == total
  {
  }

  /** The median (`statistics.median`): the middle of the sorted sample, or the
      midpoint of the two middle elements when the size is even. */
  function Median(s: seq<real>): (r: real)
    requires |s| > 0
    ensures |s| % 2 == 1 ==> r == Sort(s)[|s| / 2]
    ensures |s| % 2 == 0 ==> r == (Sort(s)[|s| / 2 - 1] + Sort(s)[|s| / 2]) / 2.0
    ensures Minimum(s) <= r <= Maximum(s)
  {
    var t := Sort(s);
    var n := |t|;
    SortSameElements(s);
    assert t[n / 2] in s;
    if n % 2 == 1 then t[n / 2]
    else
      assert t[n / 2 - 1] in s;
      (t[n / 2 - 1] + t[n / 2]) / 2.0
  }

  /** Every element of a sample equals `v`. */
  predicate AllEqual(s: seq<real>, v: real) {
    forall i :: 0 <= i < |s| ==> s[i] == v
  }

  /** A sample of identical values has that value as minimum, maximum, mean and median. */
  lemma ConstantSample(s: seq<real>, v: real)
    requires |s| > 0 && AllEqual(s, v)
    ensures Minimum(s) == v && Maximum(s) == v
    ensures Average(s) == v && Median(s) == v
    ensures forall i :: 0 <= i < |Sort(s)| ==> Sort(s)[i] == v
  {
    AverageBounds(s);
  }
}
