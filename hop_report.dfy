/**
 * The older `Reporting` (src/nl2graph/analytics/report.py): accuracy
 * statistics of (record, run) pairs of the in-memory records, the same
 * statistics per hop count in ascending order, and the number of failed
 * executions. The counting rules are those of the newer report, read
 * through `HopOutcome`.
 */
module HopReport {
  import opened Wrappers
  import opened OrderedMaps
  import opened Groups
  import opened RunEntity
  import opened Reporting

  /** A pair of the report: a record and one of its runs. */
  type HopPair = (Record, RunResult)

  function HopOutcome(p: HopPair): Outcome
  {
    Outcome(p.1.exec, p.1.eval)
  }

  /** `GroupStats` of the older report: no generation statistics. */
  datatype HopStats = HopStats(count: nat, errorCount: nat, accuracy: real, avgF1: real, avgPrecision: real, avgRecall: real)

  /** What `_compute_stats` returns: accuracy and metric averages over the non-error pairs. */
  function HopStatsOf(pairs: seq<HopPair>): (g: HopStats)
    ensures g.count == |pairs| && g.errorCount == ErrorCount(pairs, HopOutcome)
  {
    var valid := |pairs| - ErrorCount(pairs, HopOutcome);
    HopStats(
      |pairs|, ErrorCount(pairs, HopOutcome),
      Ratio(CorrectCount(pairs, HopOutcome) as real, valid),
      Ratio(Sum(pairs, HopOutcome, F1), valid),
      Ratio(Sum(pairs, HopOutcome, Precision), valid),
      Ratio(Sum(pairs, HopOutcome, Recall), valid))
  }

  /**
   * Accuracy is the share of correct pairs among the valid ones and every
   * average lies in [0, 1] when the metrics do; all are 0 when no pair is
   * valid.
   */
  lemma HopStatsBounds(pairs: seq<HopPair>)
    ensures 0.0 <= HopStatsOf(pairs).accuracy <= 1.0
    ensures UnitScores(pairs, HopOutcome, F1) ==> 0.0 <= HopStatsOf(pairs).avgF1 <= 1.0
    ensures UnitScores(pairs, HopOutcome, Precision) ==> 0.0 <= HopStatsOf(pairs).avgPrecision <= 1.0
    ensures UnitScores(pairs, HopOutcome, Recall) ==> 0.0 <= HopStatsOf(pairs).avgRecall <= 1.0
    ensures |pairs| == ErrorCount(pairs, HopOutcome) ==>
      HopStatsOf(pairs).accuracy == 0.0 && HopStatsOf(pairs).avgF1 == 0.0
      && HopStatsOf(pairs).avgPrecision == 0.0 && HopStatsOf(pairs).avgRecall == 0.0
  {
    var valid := |pairs| - ErrorCount(pairs, HopOutcome);
    var correct := CorrectCount(pairs, HopOutcome);
    var scored := ScoredCount(pairs, HopOutcome);
    var g := HopStatsOf(pairs);
    assert g.accuracy == Ratio(correct as real, valid);
    assert correct as real <= valid as real;
    assert scored as real <= valid as real;
    assert g.avgF1 == Ratio(Sum(pairs, HopOutcome, F1), valid);
    assert g.avgPrecision == Ratio(Sum(pairs, HopOutcome, Precision), valid);
    assert g.avgRecall == Ratio(Sum(pairs, HopOutcome, Recall), valid);
  }

  /** `_compute_stats`: one pass over the pairs, accumulating counters and sums. */
  method ComputeHopStats(pairs: seq<HopPair>) returns (g: HopStats)
    ensures g == HopStatsOf(pairs)
  {
    var total := 0;
    var errorCount := 0;
    var correct := 0;
    var sumF1, sumPrecision, sumRecall := 0.0, 0.0, 0.0;
    var i := 0;
    while i < |pairs|
      invariant 0 <= i <= |pairs| && total == i
      invariant errorCount == ErrorCount(pairs[..i], HopOutcome)
      invariant correct == CorrectCount(pairs[..i], HopOutcome)
      invariant sumF1 == Sum(pairs[..i], HopOutcome, F1)
      invariant sumPrecision == Sum(pairs[..i], HopOutcome, Precision)
      invariant sumRecall == Sum(pairs[..i], HopOutcome, Recall)
    {
      assert pairs[..i + 1][..i] == pairs[..i];
      var o := HopOutcome(pairs[i]);
      total := total + 1;
      if IsError(o) {
        errorCount := errorCount + 1;
      } else if o.eval.Some? {
        var v := o.eval.value;
        if v.exactMatch == Some(1.0) {
          correct := correct + 1;
        }
        sumF1 := sumF1 + OrZero(v.f1);
        sumPrecision := sumPrecision + OrZero(v.precision);
        sumRecall := sumRecall + OrZero(v.recall);
      }
      i := i + 1;
    }
    assert pairs[..|pairs|] == pairs;
    var valid := total - errorCount;
    g := HopStats(total, errorCount, Ratio(correct as real, valid),
                  Ratio(sumF1, valid), Ratio(sumPrecision, valid), Ratio(sumRecall, valid));
  }

  /** The pairs whose record has hop count `h`, in order. */
  function HopMembers(pairs: seq<HopPair>, h: int): (ms: seq<HopPair>)
    ensures forall p :: p in ms ==> p in pairs && p.0.hop == Some(h)
    decreases |pairs|
  {
    if pairs == [] then []
    else
      var p := pairs[|pairs| - 1];
      HopMembers(pairs[..|pairs| - 1], h) + if p.0.hop == Some(h) then [p] else []
  }

  /** The `grouped` dictionary after the first loop of `_compute_by_hop`: records without a hop are dropped. */
  function GroupedByHop(pairs: seq<HopPair>): (g: OrderedMap<int, seq<HopPair>>)
    ensures Valid(g)
    ensures forall h :: h in g.values <==> HopMembers(pairs, h) != []
    ensures forall h :: h in g.values ==> g.values[h] == HopMembers(pairs, h)
    decreases |pairs|
  {
    if pairs == [] then Empty()
    else
      var g := GroupedByHop(pairs[..|pairs| - 1]);
      var p := pairs[|pairs| - 1];
      if p.0.hop.None? then g
      else
        var h := p.0.hop.value;
        Put(g, h, (if h in g.values then g.values[h] else []) + [p])
  }

  predicate Ascending(xs: seq<int>)
  {
    forall i, j :: 0 <= i < j < |xs| ==> xs[i] <= xs[j]
  }

  /** An element not above the head of an ascending list can go in front of it. */
  lemma AscendingCons(a: int, rest: seq<int>)
    requires Ascending(rest) && (rest != [] ==> a <= rest[0])
    ensures Ascending([a] + rest)
  {
    var r := [a] + rest;
    forall i, j | 0 <= i < j < |r|
      ensures r[i] <= r[j]
    {
      if i == 0 {
        assert r[j] == rest[j - 1] && rest[0] <= rest[j - 1];
      } else {
        assert r[i] == rest[i - 1] && r[j] == rest[j - 1];
      }
    }
  }

  /** Inserts `x` before the first element not below it. */
  function InsertInt(xs: seq<int>, x: int): (r: seq<int>)
    ensures multiset(r) == multiset(xs) + multiset{x}
    ensures |r| == |xs| + 1 && (r[0] == x || (xs != [] && r[0] == xs[0]))
    decreases |xs|
  {
    if xs == [] then [x]
    else if x <= xs[0] then [x] + xs
    else
      assert xs == [xs[0]] + xs[1..];
      [xs[0]] + InsertInt(xs[1..], x)
  }

  /** Inserting into an ascending list keeps it ascending. */
  lemma {:induction false} InsertAscending(xs: seq<int>, x: int)
    requires Ascending(xs)
    ensures Ascending(InsertInt(xs, x))
    decreases |xs|
  {
    if xs == [] {
    } else if x <= xs[0] {
      AscendingCons(x, xs);
    } else {
      var rest := InsertInt(xs[1..], x);
      assert Ascending(xs[1..]);
      InsertAscending(xs[1..], x);
      assert xs[0] <= rest[0] by {
        if rest[0] != x {
          assert xs[1..][0] == xs[1];
        }
      }
      AscendingCons(xs[0], rest);
    }
  }

  /** `sorted` on integers. */
  function SortInts(xs: seq<int>): (r: seq<int>)
    ensures Ascending(r) && multiset(r) == multiset(xs)
    decreases |xs|
  {
    if xs == [] then []
    else
      var n := |xs| - 1;
      assert xs == xs[..n] + [xs[n]];
      InsertAscending(SortInts(xs[..n]), xs[n]);
      InsertInt(SortInts(xs[..n]), xs[n])
  }

  /** A list without repeats occurs at most once per value in its multiset. */
  lemma {:induction false} DistinctOnce(xs: seq<int>, v: int)
    requires forall i, j :: 0 <= i < j < |xs| ==> xs[i] != xs[j]
    ensures multiset(xs)[v] <= 1
    decreases |xs|
  {
    if xs != [] {
      var n := |xs| - 1;
      var init := xs[..n];
      assert forall i :: 0 <= i < n ==> init[i] == xs[i];
      DistinctOnce(init, v);
      assert xs == init + [xs[n]];
      if v == xs[n] {
        assert v !in init;
      }
    }
  }

  /** A value at two positions of a list occurs at least twice in its multiset. */
  lemma TwiceCounted(r: seq<int>, i: int, j: int)
    requires 0 <= i < j < |r| && r[i] == r[j]
    ensures multiset(r)[r[i]] >= 2
  {
    var front, back := r[..j], r[j..];
    assert r == front + back;
    assert front[i] == r[i] && back[0] == r[j];
    assert multiset(front)[r[i]] >= 1 && multiset(back)[r[i]] >= 1;
    assert multiset(r) == multiset(front) + multiset(back);
  }

  /** Sorting a list without repeats gives a strictly ascending one. */
  lemma SortDistinct(xs: seq<int>)
    requires forall i, j :: 0 <= i < j < |xs| ==> xs[i] != xs[j]
    ensures forall i, j :: 0 <= i < j < |SortInts(xs)| ==> SortInts(xs)[i] < SortInts(xs)[j]
  {
    var r := SortInts(xs);
    forall i, j | 0 <= i < j < |r|
      ensures r[i] < r[j]
    {
      if r[i] == r[j] {
        TwiceCounted(r, i, j);
        DistinctOnce(xs, r[i]);
        assert false;
      }
    }
  }

  /** The statistics of the pairs with one hop count. */
  function HopGroupStats(pairs: seq<HopPair>): int -> HopStats
  {
    h => HopStatsOf(HopMembers(pairs, h))
  }

  /** What `_compute_by_hop` returns: one entry per hop count that occurs, in ascending order. */
  function ByHop(pairs: seq<HopPair>): OrderedMap<int, HopStats>
  {
    Keyed(SortInts(GroupedByHop(pairs).keys), HopGroupStats(pairs))
  }

  /**
   * The hops of `_compute_by_hop` are exactly those of records with a hop,
   * strictly ascending, each with the statistics of the pairs with that hop.
   */
  lemma ByHopEntries(pairs: seq<HopPair>, h: int)
    ensures forall i, j :: 0 <= i < j < |ByHop(pairs).keys| ==> ByHop(pairs).keys[i] < ByHop(pairs).keys[j]
    ensures h in ByHop(pairs).values <==> HopMembers(pairs, h) != []
    ensures h in ByHop(pairs).values ==> ByHop(pairs).values[h] == HopStatsOf(HopMembers(pairs, h))
  {
    var g := GroupedByHop(pairs);
    var sorted := SortInts(g.keys);
    SortDistinct(g.keys);
    KeyedKeys(sorted, HopGroupStats(pairs));
    KeyedEntry(sorted, HopGroupStats(pairs), h);
    assert h in sorted <==> h in multiset(sorted);
    assert h in g.keys <==> h in multiset(g.keys);
  }

  /** The first loop of `_compute_by_hop`. */
  method GroupByHop(pairs: seq<HopPair>) returns (grouped: OrderedMap<int, seq<HopPair>>)
    ensures grouped == GroupedByHop(pairs)
  {
    grouped := Empty();
    var i := 0;
    while i < |pairs|
      invariant 0 <= i <= |pairs|
      invariant grouped == GroupedByHop(pairs[..i])
    {
      assert pairs[..i + 1][..i] == pairs[..i];
      var record := pairs[i].0;
      if record.hop.Some? {
        var h := record.hop.value;
        var group := if h in grouped.values then grouped.values[h] else [];
        grouped := Put(grouped, h, group + [pairs[i]]);
      }
      i := i + 1;
    }
    assert pairs[..|pairs|] == pairs;
  }

  /** Each key of the sorted hop list is a group of `grouped`, the pairs with that hop. */
  lemma SortedHopsGrouped(pairs: seq<HopPair>, k: int)
    requires 0 <= k < |SortInts(GroupedByHop(pairs).keys)|
    ensures var h := SortInts(GroupedByHop(pairs).keys)[k];
      h in GroupedByHop(pairs).values && GroupedByHop(pairs).values[h] == HopMembers(pairs, h)
  {
    var g := GroupedByHop(pairs);
    var h := SortInts(g.keys)[k];
    assert h in multiset(SortInts(g.keys));
    assert h in multiset(g.keys);
  }

  /** The second loop of `_compute_by_hop`: the statistics of each group, in the order of `hops`. */
  method StatsPerHop(grouped: OrderedMap<int, seq<HopPair>>, hops: seq<int>, pairs: seq<HopPair>) returns (out: OrderedMap<int, HopStats>)
    requires forall k :: 0 <= k < |hops| ==> hops[k] in grouped.values && grouped.values[hops[k]] == HopMembers(pairs, hops[k])
    ensures out == Keyed(hops, HopGroupStats(pairs))
  {
    out := Empty();
    var j := 0;
    while j < |hops|
      invariant 0 <= j <= |hops|
      invariant out == Keyed(hops[..j], HopGroupStats(pairs))
    {
      assert hops[..j + 1][..j] == hops[..j];
      var h := hops[j];
      var stats := ComputeHopStats(grouped.values[h]);
      out := Put(out, h, stats);
      j := j + 1;
    }
    assert hops[..|hops|] == hops;
  }

  /** `_compute_by_hop`: the groups in ascending hop order, each with its statistics. */
  method ComputeByHop(pairs: seq<HopPair>) returns (out: OrderedMap<int, HopStats>)
    ensures out == ByHop(pairs)
  {
    var grouped := GroupByHop(pairs);
    var hops := SortInts(grouped.keys);
    forall k | 0 <= k < |hops|
      ensures hops[k] in grouped.values && grouped.values[hops[k]] == HopMembers(pairs, hops[k])
    {
      SortedHopsGrouped(pairs, k);
    }
    out := StatsPerHop(grouped, hops, pairs);
  }

  /** The number of runs whose execution is present and failed. */
  function FailedRuns(pairs: seq<HopPair>): (n: nat)
    ensures n <= ErrorCount(pairs, HopOutcome)
    decreases |pairs|
  {
    if pairs == [] then 0
    else
      var r := pairs[|pairs| - 1].1;
      FailedRuns(pairs[..|pairs| - 1]) + if r.exec.Some? && !r.exec.value.success then 1 else 0
  }

  /** An error of the statistics that is not a failed execution is a run never executed. */
  lemma {:induction false} ErrorsSplit(pairs: seq<HopPair>)
    ensures ErrorCount(pairs, HopOutcome) == FailedRuns(pairs) + Unexecuted(pairs)
    decreases |pairs|
  {
    if pairs != [] {
      ErrorsSplit(pairs[..|pairs| - 1]);
    }
  }

  /** The number of runs without an execution. */
  function Unexecuted(pairs: seq<HopPair>): nat
    decreases |pairs|
  {
    if pairs == [] then 0
    else Unexecuted(pairs[..|pairs| - 1]) + if pairs[|pairs| - 1].1.exec.None? then 1 else 0
  }

  /** The counting loop of `_compute_errors` over the runs of the pairs. */
  method ComputeTotalErrors(pairs: seq<HopPair>) returns (errorCount: nat)
    ensures errorCount == FailedRuns(pairs)
  {
    errorCount := 0;
    var i := 0;
    while i < |pairs|
      invariant 0 <= i <= |pairs|
      invariant errorCount == FailedRuns(pairs[..i])
    {
      assert pairs[..i + 1][..i] == pairs[..i];
      var result := pairs[i].1;
      if result.exec.Some? && !result.exec.value.success {
        errorCount := errorCount + 1;
      }
      i := i + 1;
    }
    assert pairs[..|pairs|] == pairs;
  }

  /** `Report` of the older report, with the error analysis reduced to its count; the metadata is left out. */
  datatype HopReportData = HopReportData(
    runId: string, total: nat, summary: HopStats, byHop: OrderedMap<int, HopStats>, totalErrors: nat)

  /** `generate`: the summary, the groups by hop, and the number of failed executions. */
  method Generate(pairs: seq<HopPair>, configId: string) returns (report: HopReportData)
    ensures report.runId == configId && report.total == |pairs|
    ensures report.summary == HopStatsOf(pairs)
    ensures report.byHop == ByHop(pairs)
    ensures report.totalErrors == FailedRuns(pairs)
    ensures report.totalErrors <= report.summary.errorCount
  {
    var summary := ComputeHopStats(pairs);
    var byHop := ComputeByHop(pairs);
    var totalErrors := ComputeTotalErrors(pairs);
    report := HopReportData(configId, |pairs|, summary, byHop, totalErrors);
  }
}
