/**
 * `PipelineService` (src/nl2graph/pipeline/service.py): the data-file
 * lookup in the configuration and the metric aggregation over the
 * prompt-and-run records. Loading and saving record files, loading the
 * schema and building a runner are left out.
 */
module PipelineService {
  import opened Wrappers
  import opened Json
  import opened PipelineEntity
  import Configs
  import Metrics

  /** `str(Path(base) / subset / f"{split}.json")` for a base without trailing separators. */
  function DataPath(base: string, subset: string, split: string): (p: string)
    ensures |p| == |base| + |subset| + |split| + 7
    ensures p[..|base|] == base && p[|base|] == '/'
    ensures p[|p| - 5..] == ".json"
  {
    base + "/" + subset + "/" + split + ".json"
  }

  /** The message of the `KeyError` for a missing data directory. */
  function MissingPath(dataset: string, stage: string): string
  {
    "data path not found: data." + dataset + "." + stage
  }

  /** `Path(base)` on a value that is not text. */
  const NotAPath := "expected str, bytes or os.PathLike object"

  /** The counters and sums of the aggregation loop. */
  datatype Sums = Sums(
    genSuccess: nat, execSuccess: nat, evalCount: nat,
    exactMatch: real, f1: real, precision: real, recall: real, hitsAt1: real)

  const NoSums := Sums(0, 0, 0, 0.0, 0.0, 0.0, 0.0, 0.0)

  /** `x or 0.0`. */
  function OrZero(x: Option<real>): real
  {
    if x.Some? then x.value else 0.0
  }

  /** The generation produced a non-empty processed query. */
  predicate GenSucceeded(run: RunResult)
  {
    run.gen.Some? && run.gen.value.queryProcessed.Some? && run.gen.value.queryProcessed.value != ""
  }

  /** Every metric of a stored evaluation lies in [0, 1] when present. */
  predicate UnitEval(v: EvaluationResult)
  {
    && (v.exactMatch.Some? ==> 0.0 <= v.exactMatch.value <= 1.0)
    && (v.f1.Some? ==> 0.0 <= v.f1.value <= 1.0)
    && (v.precision.Some? ==> 0.0 <= v.precision.value <= 1.0)
    && (v.recall.Some? ==> 0.0 <= v.recall.value <= 1.0)
    && (v.hitsAt1.Some? ==> 0.0 <= v.hitsAt1.value <= 1.0)
  }

  /** Every record's run, where it has an evaluation, holds metrics in [0, 1]. */
  predicate UnitEvals(records: seq<Record>, runId: string)
    reads records
  {
    forall i :: 0 <= i < |records| && runId in records[i].runs && records[i].runs[runId].eval.Some? ==>
      UnitEval(records[i].runs[runId].eval.value)
  }

  /** What the loop keeps: each counter at most the records visited, and all sums 0 while nothing was evaluated. */
  predicate Counted(s: Sums, n: nat)
  {
    && s.genSuccess <= n && s.execSuccess <= n && s.evalCount <= n
    && (s.evalCount == 0 ==> s.exactMatch == 0.0 && s.f1 == 0.0 && s.precision == 0.0 && s.recall == 0.0 && s.hitsAt1 == 0.0)
  }

  /** Each sum lies between 0 and `eval_count`, as it does when every summed metric lies in [0, 1]. */
  predicate SumsInRange(s: Sums)
  {
    && 0.0 <= s.exactMatch <= s.evalCount as real && 0.0 <= s.f1 <= s.evalCount as real
    && 0.0 <= s.precision <= s.evalCount as real && 0.0 <= s.recall <= s.evalCount as real
    && 0.0 <= s.hitsAt1 <= s.evalCount as real
  }

  /** One iteration: a record without the run adds nothing. */
  function Step(s: Sums, runs: map<string, RunResult>, runId: string): (u: Sums)
    ensures runId !in runs ==> u == s
  {
    if runId !in runs then s
    else
      var run := runs[runId];
      var s1 := if GenSucceeded(run) then s.(genSuccess := s.genSuccess + 1) else s;
      var s2 := if run.exec.Some? && run.exec.value.success then s1.(execSuccess := s1.execSuccess + 1) else s1;
      if run.eval.None? then s2
      else
        var v := run.eval.value;
        s2.(evalCount := s2.evalCount + 1,
            exactMatch := s2.exactMatch + OrZero(v.exactMatch), f1 := s2.f1 + OrZero(v.f1),
            precision := s2.precision + OrZero(v.precision), recall := s2.recall + OrZero(v.recall),
            hitsAt1 := s2.hitsAt1 + OrZero(v.hitsAt1))
  }

  /** One iteration adds at most one to each counter, adds nothing while nothing is evaluated, and adds a metric in [0, 1] to each sum when it evaluates. */
  lemma StepBounds(s: Sums, runs: map<string, RunResult>, runId: string)
    ensures var u := Step(s, runs, runId);
      && u.genSuccess <= s.genSuccess + 1 && u.execSuccess <= s.execSuccess + 1 && u.evalCount <= s.evalCount + 1
      && (u.evalCount == 0 && s.evalCount == 0 ==>
            u.exactMatch == s.exactMatch && u.f1 == s.f1 && u.precision == s.precision && u.recall == s.recall && u.hitsAt1 == s.hitsAt1)
      && (SumsInRange(s) && (runId in runs && runs[runId].eval.Some? ==> UnitEval(runs[runId].eval.value)) ==> SumsInRange(u))
  {
  }

  /** The execution of the run succeeded. */
  predicate ExecSucceeded(run: RunResult)
  {
    run.exec.Some? && run.exec.value.success
  }

  /** The five metrics `aggregate_metrics` averages. */
  datatype Metric = ExactMatch | F1 | Precision | Recall | HitsAt1

  function Score(v: EvaluationResult, m: Metric): Option<real>
  {
    match m
    case ExactMatch => v.exactMatch
    case F1 => v.f1
    case Precision => v.precision
    case Recall => v.recall
    case HitsAt1 => v.hitsAt1
  }

  /** What one record's runs add to the sum of a metric: its score, None as 0, when the run holds an evaluation, else nothing. */
  function Contribution(runs: map<string, RunResult>, runId: string, m: Metric): real
  {
    if runId in runs && runs[runId].eval.Some? then OrZero(Score(runs[runId].eval.value, m)) else 0.0
  }

  /** The running sum of a metric. */
  function SumOf(s: Sums, m: Metric): real
  {
    match m
    case ExactMatch => s.exactMatch
    case F1 => s.f1
    case Precision => s.precision
    case Recall => s.recall
    case HitsAt1 => s.hitsAt1
  }

  /**
   * One iteration adds one to `gen_success` exactly when the record holds the
   * run with a non-empty processed query, to `exec_success` exactly when its
   * execution succeeded, to `eval_count` exactly when it holds an
   * evaluation, and adds that evaluation's scores to the sums.
   */
  lemma StepCounts(s: Sums, runs: map<string, RunResult>, runId: string)
    ensures Step(s, runs, runId).genSuccess == s.genSuccess + (if runId in runs && GenSucceeded(runs[runId]) then 1 else 0)
    ensures Step(s, runs, runId).execSuccess == s.execSuccess + (if runId in runs && ExecSucceeded(runs[runId]) then 1 else 0)
    ensures Step(s, runs, runId).evalCount == s.evalCount + (if runId in runs && runs[runId].eval.Some? then 1 else 0)
    ensures forall m :: SumOf(Step(s, runs, runId), m) == SumOf(s, m) + Contribution(runs, runId, m)
  {
  }

  /** The body of the loop of `aggregate_metrics` for one record's runs. */
  method Tally(s: Sums, runs: map<string, RunResult>, runId: string) returns (u: Sums)
    ensures u == Step(s, runs, runId)
  {
    u := s;
    if runId in runs {
      var run := runs[runId];
      if GenSucceeded(run) {
        u := u.(genSuccess := u.genSuccess + 1);
      }
      if run.exec.Some? && run.exec.value.success {
        u := u.(execSuccess := u.execSuccess + 1);
      }
      if run.eval.Some? {
        var v := run.eval.value;
        u := u.(evalCount := u.evalCount + 1,
                exactMatch := u.exactMatch + OrZero(v.exactMatch), f1 := u.f1 + OrZero(v.f1),
                precision := u.precision + OrZero(v.precision), recall := u.recall + OrZero(v.recall),
                hitsAt1 := u.hitsAt1 + OrZero(v.hitsAt1));
      }
    }
  }

  /** The sums after the loop has visited `records`. */
  function SumsOf(records: seq<Record>, runId: string): (s: Sums)
    reads records
    ensures Counted(s, |records|)
    ensures UnitEvals(records, runId) ==> SumsInRange(s)
    decreases |records|
  {
    if records == [] then NoSums
    else
      var n := |records| - 1;
      assert UnitEvals(records, runId) ==> UnitEvals(records[..n], runId) by {
        forall i | 0 <= i < n
          ensures records[..n][i] == records[i]
        {
        }
      }
      StepBounds(SumsOf(records[..n], runId), records[n].runs, runId);
      Step(SumsOf(records[..n], runId), records[n].runs, runId)
  }

  /** The indices of the records whose run counts in `gen_success`, `exec_success` and `eval_count`. */
  ghost function GenAt(records: seq<Record>, runId: string): set<int>
    reads records
  {
    set i | 0 <= i < |records| && runId in records[i].runs && GenSucceeded(records[i].runs[runId])
  }

  ghost function ExecAt(records: seq<Record>, runId: string): set<int>
    reads records
  {
    set i | 0 <= i < |records| && runId in records[i].runs && ExecSucceeded(records[i].runs[runId])
  }

  ghost function EvalAt(records: seq<Record>, runId: string): set<int>
    reads records
  {
    set i | 0 <= i < |records| && runId in records[i].runs && records[i].runs[runId].eval.Some?
  }

  /** The sum of a metric over the evaluated runs of the records, None as 0. */
  ghost function MetricSum(records: seq<Record>, runId: string, m: Metric): real
    reads records
    decreases |records|
  {
    if records == [] then 0.0
    else MetricSum(records[..|records| - 1], runId, m) + Contribution(records[|records| - 1].runs, runId, m)
  }

  /** Extending the records by one adds at most its own index to each index set. */
  lemma CountedSnoc(records: seq<Record>, runId: string)
    requires records != []
    ensures var n := |records| - 1; var runs := records[n].runs;
      && GenAt(records, runId) == GenAt(records[..n], runId) + (if runId in runs && GenSucceeded(runs[runId]) then {n} else {})
      && ExecAt(records, runId) == ExecAt(records[..n], runId) + (if runId in runs && ExecSucceeded(runs[runId]) then {n} else {})
      && EvalAt(records, runId) == EvalAt(records[..n], runId) + (if runId in runs && runs[runId].eval.Some? then {n} else {})
  {
    var n := |records| - 1;
    forall i | 0 <= i < n
      ensures records[..n][i] == records[i]
    {
    }
  }

  /**
   * After the loop `gen_success` is the number of records holding the run
   * with a non-empty processed query, `exec_success` the number whose
   * execution succeeded and `eval_count` the number holding an evaluation.
   */
  lemma {:induction false} SumsCounts(records: seq<Record>, runId: string)
    ensures SumsOf(records, runId).genSuccess == |GenAt(records, runId)|
    ensures SumsOf(records, runId).execSuccess == |ExecAt(records, runId)|
    ensures SumsOf(records, runId).evalCount == |EvalAt(records, runId)|
    decreases |records|
  {
    if records != [] {
      var n := |records| - 1;
      SumsCounts(records[..n], runId);
      StepCounts(SumsOf(records[..n], runId), records[n].runs, runId);
      CountedSnoc(records, runId);
    } else {
      assert GenAt(records, runId) == {} && ExecAt(records, runId) == {} && EvalAt(records, runId) == {};
    }
  }

  /** After the loop each sum is its metric summed over the evaluated runs, None as 0. */
  lemma {:induction false} SumsMetrics(records: seq<Record>, runId: string, m: Metric)
    ensures SumOf(SumsOf(records, runId), m) == MetricSum(records, runId, m)
    decreases |records|
  {
    if records != [] {
      var n := |records| - 1;
      SumsMetrics(records[..n], runId, m);
      StepCounts(SumsOf(records[..n], runId), records[n].runs, runId);
    }
  }

  /** The dictionary `aggregate_metrics` returns. */
  datatype Aggregate = Aggregate(
    total: nat, genSuccess: nat, execSuccess: nat,
    exactMatch: real, f1: real, precision: real, recall: real, hitsAt1: real)

  /** `sum / eval_count` when something was evaluated, the sum itself otherwise. */
  function Mean(sum: real, count: nat): (m: real)
    ensures count > 0 ==> m * count as real == sum
    ensures count == 0 ==> m == sum
    ensures count > 0 && 0.0 <= sum <= count as real ==> 0.0 <= m <= 1.0
  {
    if count > 0 then
      assert 0.0 <= sum <= count as real ==> 0.0 <= sum / count as real <= 1.0 by {
        if 0.0 <= sum <= count as real {
          Metrics.QuotientBounds(sum, count as real);
        }
      }
      sum / count as real
    else sum
  }

  /** The final division by `eval_count`, skipped when nothing was evaluated. */
  function Averaged(total: nat, s: Sums): (a: Aggregate)
    ensures a.total == total && a.genSuccess == s.genSuccess && a.execSuccess == s.execSuccess
    ensures a.exactMatch == Mean(s.exactMatch, s.evalCount) && a.f1 == Mean(s.f1, s.evalCount)
    ensures a.precision == Mean(s.precision, s.evalCount) && a.recall == Mean(s.recall, s.evalCount)
    ensures a.hitsAt1 == Mean(s.hitsAt1, s.evalCount)
  {
    Aggregate(total, s.genSuccess, s.execSuccess, Mean(s.exactMatch, s.evalCount), Mean(s.f1, s.evalCount),
              Mean(s.precision, s.evalCount), Mean(s.recall, s.evalCount), Mean(s.hitsAt1, s.evalCount))
  }

  /**
   * What `aggregate_metrics` reports: `total` is the number of records and
   * the counters are at most that; every mean is 0 when nothing was
   * evaluated, and lies in [0, 1] when every evaluated metric does.
   */
  lemma AggregateBounds(records: seq<Record>, runId: string)
    ensures var a := Averaged(|records|, SumsOf(records, runId));
      && a.total == |records| && a.genSuccess <= |records| && a.execSuccess <= |records|
      && (SumsOf(records, runId).evalCount == 0 ==>
            a.exactMatch == 0.0 && a.f1 == 0.0 && a.precision == 0.0 && a.recall == 0.0 && a.hitsAt1 == 0.0)
      && (UnitEvals(records, runId) ==>
            && 0.0 <= a.exactMatch <= 1.0 && 0.0 <= a.f1 <= 1.0 && 0.0 <= a.precision <= 1.0
            && 0.0 <= a.recall <= 1.0 && 0.0 <= a.hitsAt1 <= 1.0)
  {
  }

  /**
   * The dictionary `aggregate_metrics` returns counts the qualifying runs:
   * `gen_success` the non-empty processed queries, `exec_success` the
   * successful executions, and each metric is its sum over the evaluated
   * runs divided by their number.
   */
  lemma AggregateCounts(records: seq<Record>, runId: string)
    ensures var a := Averaged(|records|, SumsOf(records, runId)); var k := |EvalAt(records, runId)|;
      && a.genSuccess == |GenAt(records, runId)| && a.execSuccess == |ExecAt(records, runId)|
      && a.exactMatch == Mean(MetricSum(records, runId, ExactMatch), k) && a.f1 == Mean(MetricSum(records, runId, F1), k)
      && a.precision == Mean(MetricSum(records, runId, Precision), k) && a.recall == Mean(MetricSum(records, runId, Recall), k)
      && a.hitsAt1 == Mean(MetricSum(records, runId, HitsAt1), k)
  {
    SumsCounts(records, runId);
    SumsMetrics(records, runId, ExactMatch);
    SumsMetrics(records, runId, F1);
    SumsMetrics(records, runId, Precision);
    SumsMetrics(records, runId, Recall);
    SumsMetrics(records, runId, HitsAt1);
  }

  class PipelineService {
    const config: Configs.ConfigService

    constructor (config: Configs.ConfigService)
      ensures this.config == config
    {
      this.config := config;
    }

    /** `get_data_path`: a `KeyError` when the configured base is missing or empty, the joined path otherwise. */
    method GetDataPath(dataset: string, stage: string, subset: string, split: string) returns (r: Result<string, string>)
      ensures var base := Configs.Walk(JObj(config.configs), Strs.Split("data." + dataset + "." + stage, '.'), JNull);
        && (Falsy(base) ==> r == Err(MissingPath(dataset, stage)))
        && (base.JStr? && base.s != "" ==> r == Ok(DataPath(base.s, subset, split)))
        && (!Falsy(base) && !base.JStr? ==> r == Err(NotAPath))
    {
      var base := config.Get("data." + dataset + "." + stage, JNull);
      if Falsy(base) {
        return Err(MissingPath(dataset, stage));
      }
      if !base.JStr? {
        return Err(NotAPath);
      }
      r := Ok(DataPath(base.s, subset, split));
    }

    /**
     * `aggregate_metrics`: `total` is the number of records; the counters
     * and sums cover the records holding the run; the sums are divided by
     * the number of evaluated runs, and stay 0 when there is none.
     */
    method AggregateMetrics(records: seq<Record>, runId: string) returns (a: Aggregate)
      ensures a == Averaged(|records|, SumsOf(records, runId))
      ensures a.total == |records| && a.genSuccess == |GenAt(records, runId)| && a.execSuccess == |ExecAt(records, runId)|
    {
      var s := NoSums;
      var i := 0;
      while i < |records|
        invariant 0 <= i <= |records|
        invariant s == SumsOf(records[..i], runId)
      {
        assert records[..i + 1][..i] == records[..i];
        assert SumsOf(records[..i + 1], runId) == Step(s, records[i].runs, runId);
        s := Tally(s, records[i].runs, runId);
        i := i + 1;
      }
      assert records[..|records|] == records;
      a := Averaged(|records|, s);
      AggregateCounts(records, runId);
    }
  }
}
