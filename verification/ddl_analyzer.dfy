/**
 * DDL blocking analysis (benchmark/lib/ddl_analyzer.py): which timed DDL
 * operations the flight recorder blocked, duration statistics overall and per
 * DDL type, a projection of daily collisions, and a risk tier.
 */
module DdlAnalyzer {
  import opened SampleStats
  import opened Wrappers
  import Text
  import Sets

  /** One timed DDL operation; `blockedBy` and `lockWaitMs` are optional. */
  datatype DdlOp = DdlOp(
    operationId: int, ddlType: string, startTime: string, endTime: string,
    durationMs: real, wasBlocked: bool, blockedBy: Option<string>, lockWaitMs: Option<real>)

  /** The name by which the recorder shows up as a blocking agent. */
  const RecorderToken: string := "flight_recorder"

  /** `blocked_by_flight_recorder`: the operation was blocked and its (lower-cased)
      blocking agent names the recorder. */
  function BlockedByFlightRecorder(op: DdlOp): (r: bool)
    ensures r ==> op.wasBlocked
    ensures !op.wasBlocked || op.blockedBy == None || op.blockedBy == Some("") ==> !r
    ensures r <==>
      op.wasBlocked && op.blockedBy.Some? &&
      exists i: nat :: Text.OccursAt(Text.Lower(op.blockedBy.value), RecorderToken, i)
  {
    if !op.wasBlocked || op.blockedBy == None || op.blockedBy.value == "" then false
    else Text.Contains(Text.Lower(op.blockedBy.value), RecorderToken)
  }

  /** Worked values: the agent is matched case-insensitively, and only on blocked operations. */
  lemma BlockedByFlightRecorderExamples(op: DdlOp)
    ensures op.blockedBy == Some("Flight_Recorder") ==>
      BlockedByFlightRecorder(op) == op.wasBlocked
    ensures op.blockedBy == Some("autovacuum") ==> !BlockedByFlightRecorder(op)
  {
  }

  /** The conditions the analyzer's list comprehensions filter on. */
  datatype Criterion =
    | Blocked
    | RecorderBlocked
    | TypeIs(t: string)
    | BlockedOfTypeIs(t: string)
    | RecorderBlockedOfTypeIs(t: string)

  /** Whether an operation passes the condition. */
  predicate Keeps(c: Criterion, op: DdlOp) {
    match c
    case Blocked => op.wasBlocked
    case RecorderBlocked => BlockedByFlightRecorder(op)
    case TypeIs(t) => op.ddlType == t
    case BlockedOfTypeIs(t) => op.ddlType == t && op.wasBlocked
    case RecorderBlockedOfTypeIs(t) => op.ddlType == t && BlockedByFlightRecorder(op)
  }

  /** The operations that pass `keep`, in order (a list comprehension with a
      condition): each kept operation as often as it occurs, and as many as there
      are positions holding one. */
  function Filter(ops: seq<DdlOp>, keep: Criterion): (r: seq<DdlOp>)
    ensures |r| <= |ops|
    ensures forall i :: 0 <= i < |r| ==> Keeps(keep, r[i]) && r[i] in ops
    ensures forall x :: multiset(r)[x] == if Keeps(keep, x) then multiset(ops)[x] else 0
    ensures |r| == |set i | 0 <= i < |ops| && Keeps(keep, ops[i])|
    decreases |ops|
  {
    if ops == [] then []
    else
      var n := |ops| - 1;
      assert ops == ops[..n] + [ops[n]];
      PositionsSnoc(ops, keep);
      Filter(ops[..n], keep) + (if Keeps(keep, ops[n]) then [ops[n]] else [])
  }

  /** Positions satisfying `keep` in a sequence: those in all but the last
      element, plus the last one when it qualifies. */
  lemma PositionsSnoc(ops: seq<DdlOp>, keep: Criterion)
    requires ops != []
    ensures var n := |ops| - 1;
      |set i | 0 <= i < |ops| && Keeps(keep, ops[i])|
        == |set i | 0 <= i < n && Keeps(keep, ops[..n][i])| + (if Keeps(keep, ops[n]) then 1 else 0)
  {
    var n := |ops| - 1;
    var before := set i | 0 <= i < n && Keeps(keep, ops[..n][i]);
    var all := set i | 0 <= i < |ops| && Keeps(keep, ops[i]);
    assert n !in before;
    if Keeps(keep, ops[n]) {
      assert all == before + {n};
    } else {
      assert all == before;
    }
  }

  /** The blocked operations, in order. */
  function BlockedOps(ops: seq<DdlOp>): (r: seq<DdlOp>)
    ensures forall i :: 0 <= i < |r| ==> r[i].wasBlocked && r[i] in ops
    ensures forall x :: multiset(r)[x] == if x.wasBlocked then multiset(ops)[x] else 0
    ensures |r| == |set i | 0 <= i < |ops| && ops[i].wasBlocked|
  {
    var r := Filter(ops, Blocked);
    assert (set i | 0 <= i < |ops| && ops[i].wasBlocked)
        == (set i | 0 <= i < |ops| && Keeps(Blocked, ops[i]));
    r
  }

  /** The operations blocked by the recorder, in order. */
  function FrBlockedOps(ops: seq<DdlOp>): (r: seq<DdlOp>)
    ensures forall i :: 0 <= i < |r| ==> BlockedByFlightRecorder(r[i]) && r[i] in ops
    ensures forall x :: multiset(r)[x] == if BlockedByFlightRecorder(x) then multiset(ops)[x] else 0
    ensures |r| == |set i | 0 <= i < |ops| && BlockedByFlightRecorder(ops[i])|
  {
    var r := Filter(ops, RecorderBlocked);
    assert (set i | 0 <= i < |ops| && BlockedByFlightRecorder(ops[i]))
        == (set i | 0 <= i < |ops| && Keeps(RecorderBlocked, ops[i]));
    r
  }

  /** The operations of one DDL type, in order. */
  function OfType(ops: seq<DdlOp>, t: string): (r: seq<DdlOp>)
    ensures forall i :: 0 <= i < |r| ==> r[i].ddlType == t && r[i] in ops
    ensures forall x :: multiset(r)[x] == if x.ddlType == t then multiset(ops)[x] else 0
    ensures |r| == |set i | 0 <= i < |ops| && ops[i].ddlType == t|
  {
    var r := Filter(ops, TypeIs(t));
    assert (set i | 0 <= i < |ops| && ops[i].ddlType == t)
        == (set i | 0 <= i < |ops| && Keeps(TypeIs(t), ops[i]));
    r
  }

  /** Every recorder-blocked operation is a blocked one, so there are no more of them. */
  lemma FrBlockedWithinBlocked(ops: seq<DdlOp>)
    ensures |FrBlockedOps(ops)| <= |BlockedOps(ops)|
  {
    Sets.SubsetCard(set i | 0 <= i < |ops| && BlockedByFlightRecorder(ops[i]),
               set i | 0 <= i < |ops| && ops[i].wasBlocked);
  }

  /** Durations of the operations, in order. */
  function Durations(ops: seq<DdlOp>): (r: seq<real>)
    ensures |r| == |ops|
    ensures forall i :: 0 <= i < |ops| ==> r[i] == ops[i].durationMs
  {
    seq(|ops|, i requires 0 <= i < |ops| => ops[i].durationMs)
  }

  /** `percentile`: 0 on an empty sample, the only value of a singleton, and
      otherwise the library's interpolated cut point on the sorted sample. */
  function Percentile(values: seq<real>, p: nat, num: Numerics): (r: real)
    ensures values == [] ==> r == 0.0
    ensures |values| == 1 ==> r == values[0]
    ensures |values| > 1 ==> r == num.quantile(Sort(values), p)
  {
    if values == [] then 0.0
    else if |values| > 1 then num.quantile(Sort(values), p)
    else values[0]
  }

  /** `duration_stats` result. */
  datatype DurationStats = DurationStats(
    count: nat, min: real, max: real, mean: real, median: real,
    p95: real, p99: real, stddev: real)

  const EmptyStats := DurationStats(0, 0.0, 0.0, 0.0, 0.0, 0.0, 0.0, 0.0)

  /** `duration_stats`: all zeros for no operations; otherwise the count,
      minimum, maximum, exact mean, median, the two library percentiles and the
      sample standard deviation (0 for one operation) of the durations. */
  function ComputeDurationStats(ops: seq<DdlOp>, num: Numerics): (r: DurationStats)
    ensures ops == [] ==> r == EmptyStats
    ensures ops != [] ==> r.count == |ops|
    ensures ops != [] ==>
      var ds := Durations(ops);
      && r.min == Minimum(ds) && r.max == Maximum(ds)
      && r.mean == Average(ds) && r.median == Median(ds)
      && r.p95 == Percentile(ds, 95, num) && r.p99 == Percentile(ds, 99, num)
    ensures |ops| > 1 ==> r.stddev == num.stdev(Durations(ops))
    ensures ops != [] ==> r.min in Durations(ops) && r.max in Durations(ops)
    ensures forall i :: 0 <= i < |ops| ==> r.min <= ops[i].durationMs <= r.max
    ensures ops != [] ==> r.min <= r.median <= r.max && r.min <= r.mean <= r.max
    ensures |ops| == 1 ==>
      var d := ops[0].durationMs;
      r == DurationStats(1, d, d, d, d, d, d, 0.0)
  {
    if ops == [] then EmptyStats
    else
      var ds := Durations(ops);
      assert forall i :: 0 <= i < |ops| ==> ds[i] == ops[i].durationMs;
      AverageBounds(ds);
      assert |ds| == 1 ==> Minimum(ds) == Maximum(ds) == Average(ds) == Median(ds) == ds[0] by {
        if |ds| == 1 {
          ConstantSample(ds, ds[0]);
        }
      }
      DurationStats(
        |ds|, Minimum(ds), Maximum(ds), Average(ds), Median(ds),
        Percentile(ds, 95, num), Percentile(ds, 99, num),
        if |ds| > 1 then num.stdev(ds) else 0.0)
  }

  /** `part / whole * 100`, or 0 when there is nothing to divide by. */
  function Percent(part: nat, whole: nat): (r: real)
    ensures whole == 0 ==> r == 0.0
    ensures whole > 0 ==> r * whole as real == part as real * 100.0
    ensures part <= whole ==> 0.0 <= r <= 100.0
  {
    if whole > 0 then (part as real / whole as real) * 100.0 else 0.0
  }

  /** Percentages of one whole follow the order of their parts. */
  lemma PercentMonotone(a: nat, b: nat, whole: nat)
    requires a <= b
    ensures Percent(a, whole) <= Percent(b, whole)
  {
    if whole > 0 {
      var w := whole as real;
      var pa, pb := Percent(a, whole), Percent(b, whole);
      assert (pb - pa) * w == (b - a) as real * 100.0;
      ProductSign(pb - pa, w);
    }
  }

  lemma ProductSign(x: real, w: real)
    requires w > 0.0 && x * w >= 0.0
    ensures x >= 0.0
  {
  }

  /** `blocking_analysis` result. */
  datatype Blocking = Blocking(
    totalBlocked: nat, totalBlockedPct: real, frBlocked: nat, frBlockedPct: real,
    blockedStats: DurationStats, frBlockedStats: DurationStats)

  /** The share of operations the recorder blocked, in percent. */
  function FrBlockedPct(ops: seq<DdlOp>): (r: real)
    ensures ops == [] ==> r == 0.0
    ensures r == Percent(|set i | 0 <= i < |ops| && BlockedByFlightRecorder(ops[i])|, |ops|)
    ensures 0.0 <= r <= 100.0
    ensures FrBlockedOps(ops) == [] ==> r == 0.0
  {
    Percent(|FrBlockedOps(ops)|, |ops|)
  }

  /** `blocking_analysis`: how many operations were blocked, and by the
      recorder, as counts and as percentages of all operations, with the
      duration statistics of each group; recorder-blocked within blocked within all. */
  function BlockingAnalysis(ops: seq<DdlOp>, num: Numerics): (r: Blocking)
    ensures r.totalBlocked == |set i | 0 <= i < |ops| && ops[i].wasBlocked|
    ensures r.frBlocked == |set i | 0 <= i < |ops| && BlockedByFlightRecorder(ops[i])|
    ensures r.totalBlockedPct == Percent(r.totalBlocked, |ops|)
    ensures r.blockedStats == ComputeDurationStats(BlockedOps(ops), num)
    ensures r.frBlockedStats == ComputeDurationStats(FrBlockedOps(ops), num)
    ensures r.frBlocked <= r.totalBlocked <= |ops|
    ensures ops == [] ==> r.totalBlockedPct == 0.0 && r.frBlockedPct == 0.0
    ensures 0.0 <= r.frBlockedPct <= r.totalBlockedPct <= 100.0
    ensures r.frBlockedPct == FrBlockedPct(ops)
    ensures r.blockedStats.count == r.totalBlocked && r.frBlockedStats.count == r.frBlocked
  {
    var blocked := BlockedOps(ops);
    var frBlocked := FrBlockedOps(ops);
    FrBlockedWithinBlocked(ops);
    PercentMonotone(|frBlocked|, |blocked|, |ops|);
    Blocking(
      |blocked|, Percent(|blocked|, |ops|),
      |frBlocked|, Percent(|frBlocked|, |ops|),
      ComputeDurationStats(blocked, num), ComputeDurationStats(frBlocked, num))
  }

  /** The DDL types present, each once, in order of first appearance (the key
      order of the breakdown). */
  function DistinctTypes(ops: seq<DdlOp>): (r: seq<string>)
    ensures forall i, j :: 0 <= i < j < |r| ==> r[i] != r[j]
    ensures forall k :: 0 <= k < |ops| ==> ops[k].ddlType in r
    ensures forall j :: 0 <= j < |r| ==> exists k :: 0 <= k < |ops| && ops[k].ddlType == r[j]
    decreases |ops|
  {
    if ops == [] then []
    else
      var prev := DistinctTypes(ops[..|ops| - 1]);
      var t := ops[|ops| - 1].ddlType;
      assert forall k :: 0 <= k < |ops| - 1 ==> ops[..|ops| - 1][k] == ops[k];
      if t in prev then prev else prev + [t]
  }

  /** Per-type statistics of the breakdown. */
  datatype TypeStats = TypeStats(
    count: nat, blockedCount: nat, blockedPct: real,
    frBlockedCount: nat, frBlockedPct: real,
    durationStats: DurationStats, blockedDurationStats: Option<DurationStats>)

  datatype TypeEntry = TypeEntry(ddlType: string, stats: TypeStats)

  /** Statistics of the operations of one type: how many there are, how many
      were blocked and blocked by the recorder (as counts and as percentages of
      the type), and the duration statistics of all of them and of the blocked ones. */
  function TypeStatsOf(typed: seq<DdlOp>, num: Numerics): (r: TypeStats)
    ensures r.count == |typed|
    ensures r.blockedCount == |set i | 0 <= i < |typed| && typed[i].wasBlocked|
    ensures r.frBlockedCount == |set i | 0 <= i < |typed| && BlockedByFlightRecorder(typed[i])|
    ensures r.blockedPct == Percent(r.blockedCount, r.count)
    ensures r.frBlockedPct == Percent(r.frBlockedCount, r.count)
    ensures r.durationStats == ComputeDurationStats(typed, num)
    ensures r.blockedDurationStats.Some? ==>
      r.blockedDurationStats.value == ComputeDurationStats(BlockedOps(typed), num)
    ensures r.frBlockedCount <= r.blockedCount <= r.count
    ensures r.blockedDurationStats.None? <==> r.blockedCount == 0
    ensures r.blockedDurationStats.Some? ==> r.blockedDurationStats.value.count == r.blockedCount
    ensures 0.0 <= r.frBlockedPct <= r.blockedPct <= 100.0
  {
    var blocked := BlockedOps(typed);
    var frBlocked := FrBlockedOps(typed);
    FrBlockedWithinBlocked(typed);
    PercentMonotone(|frBlocked|, |blocked|, |typed|);
    TypeStats(
      |typed|, |blocked|, Percent(|blocked|, |typed|),
      |frBlocked|, Percent(|frBlocked|, |typed|),
      ComputeDurationStats(typed, num),
      if blocked != [] then Some(ComputeDurationStats(blocked, num)) else None)
  }

  /** Sum of the per-type counts. */
  function TotalCount(entries: seq<TypeEntry>): nat {
    if entries == [] then 0 else entries[0].stats.count + TotalCount(entries[1..])
  }

  /** How many operations have type `t`, counted one by one. */
  function CountOfType(ops: seq<DdlOp>, t: string): nat {
    if ops == [] then 0 else (if ops[0].ddlType == t then 1 else 0) + CountOfType(ops[1..], t)
  }

  /** Filtering by type keeps as many operations as there are of that type. */
  lemma {:induction false} OfTypeCount(ops: seq<DdlOp>, t: string)
    ensures |OfType(ops, t)| == CountOfType(ops, t)
  {
    if ops != [] {
      OfTypeCons(ops, t);
      OfTypeCount(ops[1..], t);
    }
  }

  /** Number of operations of each listed type, summed over the list. */
  function CountOver(types: seq<string>, ops: seq<DdlOp>): nat {
    if types == [] then 0 else CountOfType(ops, types[0]) + CountOver(types[1..], ops)
  }

  /** How often `t` is listed. */
  function Occurrences(types: seq<string>, t: string): nat {
    if types == [] then 0 else (if types[0] == t then 1 else 0) + Occurrences(types[1..], t)
  }

  lemma {:induction false} OccurrencesOfDistinct(types: seq<string>, t: string)
    requires forall i, j :: 0 <= i < j < |types| ==> types[i] != types[j]
    requires t in types
    ensures Occurrences(types, t) == 1
  {
    if types[0] == t {
      OccurrencesAbsent(types[1..], t);
    } else {
      OccurrencesOfDistinct(types[1..], t);
    }
  }

  lemma {:induction false} OccurrencesAbsent(types: seq<string>, t: string)
    requires t !in types
    ensures Occurrences(types, t) == 0
  {
    if types != [] {
      OccurrencesAbsent(types[1..], t);
    }
  }

  lemma {:induction false} CountOverEmpty(types: seq<string>)
    ensures CountOver(types, []) == 0
  {
    if types != [] {
      CountOverEmpty(types[1..]);
    }
  }

  /** One more operation adds one to each listed type equal to its own. */
  lemma {:induction false} CountOverCons(types: seq<string>, ops: seq<DdlOp>)
    requires ops != []
    ensures CountOver(types, ops) == CountOver(types, ops[1..]) + Occurrences(types, ops[0].ddlType)
  {
    if types != [] {
      CountOverCons(types[1..], ops);
    }
  }

  /** The first operation counts once under its own type and nowhere else. */
  lemma OfTypeCons(ops: seq<DdlOp>, t: string)
    requires ops != []
    ensures |OfType(ops, t)| == |OfType(ops[1..], t)| + (if ops[0].ddlType == t then 1 else 0)
  {
    assert ops == [ops[0]] + ops[1..];
    var extra := if ops[0].ddlType == t then multiset{ops[0]} else multiset{};
    assert multiset(OfType(ops, t)) == multiset(OfType(ops[1..], t)) + extra;
  }

  /** Counting each operation under its type, over a list that names every type
      once, counts every operation once. */
  lemma {:induction false} CountOverPartition(types: seq<string>, ops: seq<DdlOp>)
    requires forall i, j :: 0 <= i < j < |types| ==> types[i] != types[j]
    requires forall k :: 0 <= k < |ops| ==> ops[k].ddlType in types
    ensures CountOver(types, ops) == |ops|
  {
    if ops == [] {
      CountOverEmpty(types);
    } else {
      CountOverCons(types, ops);
      OccurrencesOfDistinct(types, ops[0].ddlType);
      assert forall k :: 0 <= k < |ops[1..]| ==> ops[1..][k] == ops[k + 1];
      CountOverPartition(types, ops[1..]);
    }
  }

  lemma {:induction false} TotalCountIsCountOver(entries: seq<TypeEntry>, types: seq<string>, ops: seq<DdlOp>)
    requires |entries| == |types|
    requires forall i :: 0 <= i < |entries| ==> entries[i].stats.count == CountOfType(ops, types[i])
    ensures TotalCount(entries) == CountOver(types, ops)
  {
    if entries != [] {
      TotalCountIsCountOver(entries[1..], types[1..], ops);
    }
  }

  /** Every listed type has at least one operation. */
  lemma DistinctTypesPresent(ops: seq<DdlOp>)
    ensures forall j :: 0 <= j < |DistinctTypes(ops)| ==> |OfType(ops, DistinctTypes(ops)[j])| > 0
  {
  }

  /** The types of the entries, in order. */
  function TypesOf(entries: seq<TypeEntry>): (r: seq<string>)
    ensures |r| == |entries|
    ensures forall i :: 0 <= i < |entries| ==> r[i] == entries[i].ddlType
  {
    seq(|entries|, i requires 0 <= i < |entries| => entries[i].ddlType)
  }

  /** One entry per listed type, in list order. */
  function Entries(types: seq<string>, ops: seq<DdlOp>, num: Numerics): (r: seq<TypeEntry>)
    ensures |r| == |types|
    ensures TypesOf(r) == types
    ensures forall i :: 0 <= i < |r| ==> r[i].ddlType == types[i]
    ensures forall i :: 0 <= i < |r| ==> r[i].stats == TypeStatsOf(OfType(ops, types[i]), num)
    ensures forall i :: 0 <= i < |r| ==> r[i].stats.count == |OfType(ops, types[i])|
  {
    seq(|types|, i requires 0 <= i < |types| =>
      TypeEntry(types[i], TypeStatsOf(OfType(ops, types[i]), num)))
  }

  /** The entries name each type of the operations exactly once. */
  lemma BreakdownCovers(ops: seq<DdlOp>, num: Numerics)
    ensures var r := Entries(DistinctTypes(ops), ops, num);
      && (forall i, j :: 0 <= i < j < |r| ==> r[i].ddlType != r[j].ddlType)
      && (forall k :: 0 <= k < |ops| ==> ops[k].ddlType in TypesOf(r))
  {
  }

  /** Each entry counts the operations of its type, at least one, and together
      they count every operation. */
  lemma BreakdownCounts(ops: seq<DdlOp>, num: Numerics)
    ensures var r := Entries(DistinctTypes(ops), ops, num);
      && (forall i :: 0 <= i < |r| ==> r[i].stats.count == |OfType(ops, r[i].ddlType)| > 0)
      && TotalCount(r) == |ops|
  {
    var types := DistinctTypes(ops);
    var r := Entries(types, ops, num);
    DistinctTypesPresent(ops);
    forall i | 0 <= i < |r| ensures r[i].stats.count == CountOfType(ops, types[i]) {
      OfTypeCount(ops, types[i]);
    }
    TotalCountIsCountOver(r, types, ops);
    CountOverPartition(types, ops);
  }

  /** The operations of type `t` that were blocked, in one pass. */
  function BlockedOfKind(ops: seq<DdlOp>, t: string): (r: seq<DdlOp>)
    ensures forall x :: multiset(r)[x] == if x.ddlType == t && x.wasBlocked then multiset(ops)[x] else 0
    ensures |r| == |set k | 0 <= k < |ops| && ops[k].ddlType == t && ops[k].wasBlocked|
  {
    var r := Filter(ops, BlockedOfTypeIs(t));
    assert (set k | 0 <= k < |ops| && ops[k].ddlType == t && ops[k].wasBlocked)
        == (set k | 0 <= k < |ops| && Keeps(BlockedOfTypeIs(t), ops[k]));
    r
  }

  /** The operations of type `t` that the recorder blocked, in one pass. */
  function FrBlockedOfKind(ops: seq<DdlOp>, t: string): (r: seq<DdlOp>)
    ensures forall x :: multiset(r)[x]
                        == if x.ddlType == t && BlockedByFlightRecorder(x) then multiset(ops)[x] else 0
    ensures |r| == |set k | 0 <= k < |ops| && ops[k].ddlType == t && BlockedByFlightRecorder(ops[k])|
  {
    var r := Filter(ops, RecorderBlockedOfTypeIs(t));
    assert (set k | 0 <= k < |ops| && ops[k].ddlType == t && BlockedByFlightRecorder(ops[k]))
        == (set k | 0 <= k < |ops| && Keeps(RecorderBlockedOfTypeIs(t), ops[k]));
    r
  }

  /** Filtering the operations of type `t` for blocked ones finds exactly the
      positions of the whole list holding a blocked operation of type `t`. */
  lemma BlockedOfType(ops: seq<DdlOp>, t: string)
    ensures |BlockedOps(OfType(ops, t))|
              == |set k | 0 <= k < |ops| && ops[k].ddlType == t && ops[k].wasBlocked|
  {
    assert multiset(BlockedOps(OfType(ops, t))) == multiset(BlockedOfKind(ops, t));
  }

  /** Filtering the operations of type `t` for recorder-blocked ones finds
      exactly the positions of the whole list holding one of type `t`. */
  lemma FrBlockedOfType(ops: seq<DdlOp>, t: string)
    ensures |FrBlockedOps(OfType(ops, t))|
              == |set k | 0 <= k < |ops| && ops[k].ddlType == t && BlockedByFlightRecorder(ops[k])|
  {
    assert multiset(FrBlockedOps(OfType(ops, t))) == multiset(FrBlockedOfKind(ops, t));
  }

  /** Each entry's blocked and recorder-blocked counts are those of its type
      in the whole list of operations. */
  lemma BreakdownBlockedCounts(ops: seq<DdlOp>, num: Numerics)
    ensures var r := Entries(DistinctTypes(ops), ops, num);
      forall i :: 0 <= i < |r| ==>
        && r[i].stats.blockedCount
             == |set k | 0 <= k < |ops| && ops[k].ddlType == r[i].ddlType && ops[k].wasBlocked|
        && r[i].stats.frBlockedCount
             == |set k | 0 <= k < |ops| && ops[k].ddlType == r[i].ddlType && BlockedByFlightRecorder(ops[k])|
  {
    var r := Entries(DistinctTypes(ops), ops, num);
    forall i | 0 <= i < |r|
      ensures r[i].stats.blockedCount
                == |set k | 0 <= k < |ops| && ops[k].ddlType == r[i].ddlType && ops[k].wasBlocked|
      ensures r[i].stats.frBlockedCount
                == |set k | 0 <= k < |ops| && ops[k].ddlType == r[i].ddlType && BlockedByFlightRecorder(ops[k])|
    {
      BlockedOfType(ops, r[i].ddlType);
      FrBlockedOfType(ops, r[i].ddlType);
    }
  }

  /** The facts `DdlTypeBreakdown` promises, gathered on its entries. */
  lemma BreakdownFacts(ops: seq<DdlOp>, num: Numerics)
    ensures var r := Entries(DistinctTypes(ops), ops, num);
      && (forall i, j :: 0 <= i < j < |r| ==> r[i].ddlType != r[j].ddlType)
      && (forall k :: 0 <= k < |ops| ==> ops[k].ddlType in TypesOf(r))
      && (forall i :: 0 <= i < |r| ==> r[i].stats == TypeStatsOf(OfType(ops, r[i].ddlType), num))
      && (forall i :: 0 <= i < |r| ==> r[i].stats.count == |OfType(ops, r[i].ddlType)| > 0)
      && (forall i :: 0 <= i < |r| ==>
            r[i].stats.blockedCount
              == |set k | 0 <= k < |ops| && ops[k].ddlType == r[i].ddlType && ops[k].wasBlocked|)
      && (forall i :: 0 <= i < |r| ==>
            r[i].stats.frBlockedCount
              == |set k | 0 <= k < |ops| && ops[k].ddlType == r[i].ddlType && BlockedByFlightRecorder(ops[k])|)
      && TotalCount(r) == |ops|
  {
    BreakdownCovers(ops, num);
    BreakdownCounts(ops, num);
    BreakdownBlockedCounts(ops, num);
  }

  /** `ddl_type_breakdown`: one entry per DDL type, in order of first
      appearance, holding the statistics of that type's operations; the
      per-type counts partition the operations, and each type's blocked and
      recorder-blocked counts are those of its operations in the whole list. */
  function DdlTypeBreakdown(ops: seq<DdlOp>, num: Numerics): (r: seq<TypeEntry>)
    ensures forall i, j :: 0 <= i < j < |r| ==> r[i].ddlType != r[j].ddlType
    ensures forall k :: 0 <= k < |ops| ==> ops[k].ddlType in TypesOf(r)
    ensures forall i :: 0 <= i < |r| ==> r[i].stats == TypeStatsOf(OfType(ops, r[i].ddlType), num)
    ensures forall i :: 0 <= i < |r| ==> r[i].stats.count == |OfType(ops, r[i].ddlType)| > 0
    ensures forall i :: 0 <= i < |r| ==>
      r[i].stats.blockedCount
        == |set k | 0 <= k < |ops| && ops[k].ddlType == r[i].ddlType && ops[k].wasBlocked|
    ensures forall i :: 0 <= i < |r| ==>
      r[i].stats.frBlockedCount
        == |set k | 0 <= k < |ops| && ops[k].ddlType == r[i].ddlType && BlockedByFlightRecorder(ops[k])|
    ensures TotalCount(r) == |ops|
  {
    BreakdownFacts(ops, num);
    Entries(DistinctTypes(ops), ops, num)
  }

  /** Python's `//` on integers: the floor of the quotient. */
  function FloorDiv(a: int, b: int): (q: int)
    requires b != 0
    ensures b > 0 ==> q * b <= a < q * b + b
    ensures b < 0 ==> q * b >= a > q * b + b
  {
    if b > 0 then a / b else (-a) / (-b)
  }

  const SecondsPerDay: int := 86400

  /** `collision_probability` result. */
  datatype CollisionProjection = CollisionProjection(
    intervalSeconds: int, collectionsPerDay: int, operationsPerHour: int,
    collisionProbabilityPct: real, expectedCollisionsPerDay: real, expectedCollisionsPerHour: real)

  /** The projection itself, from a measured collision rate in percent: whole
      recorder collections per day, times the share of operations that
      collide, times the day's operations. */
  function Project(pct: real, intervalSeconds: int, operationsPerHour: int): (r: CollisionProjection)
    requires intervalSeconds != 0
    ensures r.intervalSeconds == intervalSeconds && r.operationsPerHour == operationsPerHour
    ensures r.collisionProbabilityPct == pct
    ensures intervalSeconds > 0 ==>
      r.collectionsPerDay * intervalSeconds <= SecondsPerDay < (r.collectionsPerDay + 1) * intervalSeconds
    ensures r.expectedCollisionsPerHour * 24.0 == r.expectedCollisionsPerDay
    ensures r.expectedCollisionsPerHour * 100.0
              == r.collectionsPerDay as real * pct * operationsPerHour as real
    ensures intervalSeconds > 0 && pct >= 0.0 && operationsPerHour >= 0 ==> r.expectedCollisionsPerDay >= 0.0
  {
    var collections := FloorDiv(SecondsPerDay, intervalSeconds);
    var perDay := collections as real * (pct / 100.0) * (operationsPerHour * 24) as real;
    assert intervalSeconds > 0 && pct >= 0.0 && operationsPerHour >= 0 ==> perDay >= 0.0 by {
      if intervalSeconds > 0 && pct >= 0.0 && operationsPerHour >= 0 {
        assert collections >= 0;
        var share := collections as real * (pct / 100.0);
        assert share >= 0.0;
      }
    }
    CollisionProjection(intervalSeconds, collections, operationsPerHour, pct, perDay, perDay / 24.0)
  }

  /** The default collection interval of `collision_probability`, in seconds. */
  const DefaultIntervalSeconds: int := 180

  /** The default DDL rate of `collision_probability`, in operations per hour. */
  const DefaultOperationsPerHour: int := 100

  /** `collision_probability`: the projection at the measured recorder-blocked
      rate; a zero interval, on which the source's integer division raises, has
      no projection. */
  function CollisionProbability(ops: seq<DdlOp>, intervalSeconds: int, operationsPerHour: int)
    : (r: Option<CollisionProjection>)
    ensures r.None? <==> intervalSeconds == 0
    ensures r.Some? ==> r.value == Project(FrBlockedPct(ops), intervalSeconds, operationsPerHour)
    ensures r.Some? ==> r.value.collisionProbabilityPct == FrBlockedPct(ops)
    ensures r.Some? && FrBlockedOps(ops) == [] ==> r.value.expectedCollisionsPerDay == 0.0
  {
    if intervalSeconds == 0 then None
    else Some(Project(FrBlockedPct(ops), intervalSeconds, operationsPerHour))
  }

  /** The worked projection: 2% at the default 180 s with the default 100 operations an hour. */
  lemma ProjectExample()
    ensures Project(2.0, DefaultIntervalSeconds, DefaultOperationsPerHour).collectionsPerDay == 480
    ensures Project(2.0, DefaultIntervalSeconds, DefaultOperationsPerHour).expectedCollisionsPerDay == 23040.0
    ensures Project(2.0, DefaultIntervalSeconds, DefaultOperationsPerHour).expectedCollisionsPerHour == 960.0
  {
  }

  /** How the recommendation of an acceptable tier begins. */
  const SafePrefix: string := "Safe"

  /** The mitigation the recommendation of a risky tier names. */
  const EmergencyMode: string := "emergency mode (300s)"

  /** The four base risk tiers, least severe first. */
  datatype RiskTier = LowRisk | ModerateRisk | ModerateHighRisk | HighRisk {
    function Rank(): nat {
      match this
      case LowRisk => 0
      case ModerateRisk => 1
      case ModerateHighRisk => 2
      case HighRisk => 3
    }

    function Name(): string {
      match this
      case LowRisk => "LOW"
      case ModerateRisk => "MODERATE"
      case ModerateHighRisk => "MODERATE-HIGH"
      case HighRisk => "HIGH"
    }

    /** The base recommendation of the tier: the two lower tiers call the
        recorder safe, the two upper ones recommend its emergency mode. */
    function Recommendation(): (r: string)
      ensures Rank() <= 1 ==> |r| >= |SafePrefix| && r[..|SafePrefix|] == SafePrefix
      ensures Rank() >= 2 ==> exists i: nat :: Text.OccursAt(r, EmergencyMode, i)
    {
      match this
      case LowRisk => SafePrefix + " for production use with high DDL workloads"
      case ModerateRisk => SafePrefix + " for typical workloads. Monitor if >50 DDL ops/hour"
      case ModerateHighRisk =>
        var lead := "Consider ";
        var r := lead + EmergencyMode + " during DDL-heavy periods";
        assert Text.OccursAt(r, EmergencyMode, |lead|);
        r
      case HighRisk =>
        var lead := "Use ";
        var r := lead + EmergencyMode + " or schedule DDL during low-traffic windows";
        assert Text.OccursAt(r, EmergencyMode, |lead|);
        r
    }
  }

  /** The qualifier appended to the risk level when the average delay is high. */
  const HighDelaySuffix: string := " (HIGH DELAY)"

  /** The risk level: a base tier and whether the high-delay qualifier applies. */
  datatype Risk = Risk(tier: RiskTier, highDelay: bool) {
    /** The level as `risk_assessment` spells it. */
    function Label(): (s: string)
      ensures highDelay ==> s == tier.Name() + HighDelaySuffix
      ensures !highDelay ==> s == tier.Name()
    {
      tier.Name() + (if highDelay then HighDelaySuffix else "")
    }
  }

  /** Base tier from the recorder-blocked rate: thresholds 1, 3 and 5 percent. */
  function TierFor(frBlockedPct: real): (t: RiskTier)
    ensures t == LowRisk <==> frBlockedPct < 1.0
    ensures t == ModerateRisk <==> 1.0 <= frBlockedPct < 3.0
    ensures t == ModerateHighRisk <==> 3.0 <= frBlockedPct < 5.0
    ensures t == HighRisk <==> 5.0 <= frBlockedPct
  {
    if frBlockedPct < 1.0 then LowRisk
    else if frBlockedPct < 3.0 then ModerateRisk
    else if frBlockedPct < 5.0 then ModerateHighRisk
    else HighRisk
  }

  /** A higher blocked rate never gives a lower tier. */
  lemma TierMonotone(p: real, q: real)
    requires p <= q
    ensures TierFor(p).Rank() <= TierFor(q).Rank()
  {
  }

  /** Mean duration of the recorder-blocked operations, 0 when there are none. */
  function AverageDelay(ops: seq<DdlOp>): (r: real)
    ensures FrBlockedOps(ops) == [] ==> r == 0.0
    ensures FrBlockedOps(ops) != [] ==> r == Average(Durations(FrBlockedOps(ops)))
    ensures FrBlockedOps(ops) != [] ==>
      Minimum(Durations(FrBlockedOps(ops))) <= r <= Maximum(Durations(FrBlockedOps(ops)))
  {
    var frBlocked := FrBlockedOps(ops);
    if frBlocked == [] then 0.0
    else
      var ds := Durations(frBlocked);
      AverageBounds(ds);
      Average(ds)
  }

  /** `risk_assessment`: the rate tier, qualified when the average delay exceeds 100 ms. */
  function RiskAssessment(ops: seq<DdlOp>): (r: Risk)
    ensures r.tier == TierFor(FrBlockedPct(ops))
    ensures r.highDelay <==> AverageDelay(ops) > 100.0
    ensures FrBlockedOps(ops) == [] ==> r == Risk(LowRisk, false)
  {
    Risk(TierFor(FrBlockedPct(ops)), AverageDelay(ops) > 100.0)
  }

  /** No recorder-blocked operation longer than 100 ms means no high-delay qualifier. */
  lemma NoHighDelayWhenShort(ops: seq<DdlOp>)
    requires forall i :: 0 <= i < |ops| ==> BlockedByFlightRecorder(ops[i]) ==> ops[i].durationMs <= 100.0
    ensures !RiskAssessment(ops).highDelay
  {
    var frBlocked := FrBlockedOps(ops);
    if frBlocked != [] {
      var ds := Durations(frBlocked);
      var j :| 0 <= j < |ds| && ds[j] == Maximum(ds);
      assert frBlocked[j] in ops;
    }
  }
}
