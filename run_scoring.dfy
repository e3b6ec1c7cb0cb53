/**
 * `Scoring` of the older evaluation pipelines (src/nl2graph/eval/scoring.py):
 * the metrics of one run of one record, and the aggregate over a batch of
 * records for one run id.
 */
module RunScoring {
  import opened Wrappers
  import opened Json
  import DataEntity
  import opened Metrics
  import Scoring
  import opened RunEntity

  /** The four metrics of normalised gold answers against normalised predictions. */
  function ScoreSets(gold: set<string>, pred: set<string>): (v: DataEntity.EvaluationResult)
    ensures v.exactMatch.Some? && v.f1.Some? && v.precision.Some? && v.recall.Some?
    ensures v.exactMatch == Some(1.0) <==> gold == pred
    ensures v.exactMatch == Some(0.0) <==> gold != pred
    ensures 0.0 <= v.f1.value <= 1.0 && 0.0 <= v.precision.value <= 1.0 && 0.0 <= v.recall.value <= 1.0
  {
    var prf := PrecisionRecallF1(gold, pred);
    DataEntity.EvaluationResult(Some(ExactMatch(gold, pred)), Some(prf.2), Some(prf.0), Some(prf.1))
  }

  /** The run carries a successful execution. */
  predicate Succeeded(runs: map<string, RunResult>, runId: string)
  {
    runId in runs && runs[runId].exec.Some? && runs[runId].exec.value.success
  }

  /** The scores of one run: none unless its execution succeeded. */
  function RunScore(answer: seq<Json>, run: RunResult): (v: DataEntity.EvaluationResult)
    ensures (run.exec.None? || !run.exec.value.success) ==> v == DataEntity.EmptyEvaluation
    ensures run.exec.Some? && run.exec.value.success ==> v == ScoreSets(Normalized(answer), Scoring.Pred(run.exec.value))
  {
    if run.exec.None? || !run.exec.value.success then DataEntity.EmptyEvaluation
    else ScoreSets(Normalized(answer), Scoring.Pred(run.exec.value))
  }

  /** `evaluate_record`: no scores unless the run exists and its execution succeeded. */
  function EvaluateRecord(record: Record, runId: string): (v: DataEntity.EvaluationResult)
    reads record
    ensures runId !in record.runs ==> v == DataEntity.EmptyEvaluation
    ensures runId in record.runs ==> v == RunScore(record.answer, record.runs[runId])
    ensures !Succeeded(record.runs, runId) ==> v == DataEntity.EmptyEvaluation
    ensures Succeeded(record.runs, runId) ==>
      v == ScoreSets(Normalized(record.answer), Scoring.Pred(record.runs[runId].exec.value))
  {
    if runId !in record.runs then DataEntity.EmptyEvaluation
    else RunScore(record.answer, record.runs[runId])
  }

  /** A run's scores are the result store's scores of a row holding the same execution for a record with the same answer. */
  lemma EvaluateRecordIsStoreScoring(record: Record, runId: string, id: string, approach: DataEntity.Method)
    requires runId in record.runs
    ensures var run := record.runs[runId];
      EvaluateRecord(record, runId) ==
        Scoring.Evaluate(
          DataEntity.Record(id, record.question, record.answer, record.extra),
          DataEntity.Result(id, approach, run.lang, run.model, None, run.exec, run.eval))
  {
  }

  /** The counters and sums of `evaluate_batch`. */
  datatype Tally = Tally(total: nat, correct: nat, errors: nat, sumF1: real, sumPrecision: real, sumRecall: real)

  /** What one pass of the loop keeps: correct and failed runs are among the counted ones, and each sum is at most the number of scored runs. */
  predicate Bounded(t: Tally)
  {
    && t.correct + t.errors <= t.total
    && 0.0 <= t.sumF1 <= (t.total - t.errors) as real
    && 0.0 <= t.sumPrecision <= (t.total - t.errors) as real
    && 0.0 <= t.sumRecall <= (t.total - t.errors) as real
  }

  /** `x or 0.0`. */
  function OrZero(x: Option<real>): real
  {
    if x.Some? then x.value else 0.0
  }

  /** One iteration of the batch loop. */
  function Step(t: Tally, record: Record, runId: string): (u: Tally)
    reads record
    ensures Bounded(t) ==> Bounded(u)
  {
    if runId !in record.runs then t
    else if !Succeeded(record.runs, runId) then t.(total := t.total + 1, errors := t.errors + 1)
    else
      var v := EvaluateRecord(record, runId);
      Tally(t.total + 1, if v.exactMatch == Some(1.0) then t.correct + 1 else t.correct, t.errors,
        t.sumF1 + OrZero(v.f1), t.sumPrecision + OrZero(v.precision), t.sumRecall + OrZero(v.recall))
  }

  /** The tally after the loop has visited `records`. */
  function TallyOf(records: seq<Record>, runId: string): (t: Tally)
    reads records
    ensures Bounded(t)
    decreases |records|
  {
    if records == [] then Tally(0, 0, 0, 0.0, 0.0, 0.0)
    else Step(TallyOf(records[..|records| - 1], runId), records[|records| - 1], runId)
  }

  /** The dictionary `evaluate_batch` returns. */
  datatype BatchSummary = BatchSummary(
    total: nat, correct: nat, errorCount: nat,
    accuracy: real, avgF1: real, avgPrecision: real, avgRecall: real)

  /** The averages over the runs that were scored, 0 when none was. */
  function Summarize(t: Tally): (s: BatchSummary)
    ensures s.total == t.total && s.correct == t.correct && s.errorCount == t.errors
    ensures s.accuracy == Accuracy(t.correct, t.total - t.errors)
    ensures t.total - t.errors > 0 ==>
      && s.avgF1 * (t.total - t.errors) as real == t.sumF1
      && s.avgPrecision * (t.total - t.errors) as real == t.sumPrecision
      && s.avgRecall * (t.total - t.errors) as real == t.sumRecall
    ensures t.total - t.errors <= 0 ==> s.accuracy == 0.0 && s.avgF1 == 0.0 && s.avgPrecision == 0.0 && s.avgRecall == 0.0
    ensures Bounded(t) ==>
      && 0.0 <= s.accuracy <= 1.0 && 0.0 <= s.avgF1 <= 1.0
      && 0.0 <= s.avgPrecision <= 1.0 && 0.0 <= s.avgRecall <= 1.0
  {
    var valid := t.total - t.errors;
    if valid > 0 then
      assert Bounded(t) ==>
        && 0.0 <= t.sumF1 / valid as real <= 1.0
        && 0.0 <= t.sumPrecision / valid as real <= 1.0
        && 0.0 <= t.sumRecall / valid as real <= 1.0 by {
        if Bounded(t) {
          QuotientBounds(t.sumF1, valid as real);
          QuotientBounds(t.sumPrecision, valid as real);
          QuotientBounds(t.sumRecall, valid as real);
        }
      }
      BatchSummary(t.total, t.correct, t.errors, Accuracy(t.correct, valid),
        t.sumF1 / valid as real, t.sumPrecision / valid as real, t.sumRecall / valid as real)
    else
      BatchSummary(t.total, t.correct, t.errors, Accuracy(t.correct, valid), 0.0, 0.0, 0.0)
  }

  /** `evaluate_batch`. */
  method EvaluateBatch(records: seq<Record>, runId: string) returns (s: BatchSummary)
    ensures s == Summarize(TallyOf(records, runId))
    ensures s.correct + s.errorCount <= s.total
    ensures 0.0 <= s.accuracy <= 1.0 && 0.0 <= s.avgF1 <= 1.0
    ensures 0.0 <= s.avgPrecision <= 1.0 && 0.0 <= s.avgRecall <= 1.0
  {
    var total, correct, errors := 0, 0, 0;
    var sumF1, sumPrecision, sumRecall := 0.0, 0.0, 0.0;
    var i := 0;
    while i < |records|
      invariant 0 <= i <= |records|
      invariant Tally(total, correct, errors, sumF1, sumPrecision, sumRecall) == TallyOf(records[..i], runId)
    {
      assert records[..i + 1][..i] == records[..i];
      var record := records[i];
      if runId in record.runs {
        total := total + 1;
        var run := record.runs[runId];
        if run.exec.None? || !run.exec.value.success {
          errors := errors + 1;
        } else {
          var v := EvaluateRecord(record, runId);
          if v.exactMatch == Some(1.0) {
            correct := correct + 1;
          }
          sumF1 := sumF1 + OrZero(v.f1);
          sumPrecision := sumPrecision + OrZero(v.precision);
          sumRecall := sumRecall + OrZero(v.recall);
        }
      }
      i := i + 1;
    }
    assert records[..|records|] == records;
    s := Summarize(Tally(total, correct, errors, sumF1, sumPrecision, sumRecall));
  }

  /** The record holds the run but its execution is missing or failed. */
  predicate Failed(record: Record, runId: string)
    reads record
  {
    runId in record.runs && !Succeeded(record.runs, runId)
  }

  /** The run succeeded and its normalised answers equal the gold ones. */
  predicate Correct(record: Record, runId: string)
    reads record
  {
    Succeeded(record.runs, runId) && Normalized(record.answer) == Scoring.Pred(record.runs[runId].exec.value)
  }

  /** One iteration counts a record holding the run once in `total`, once more in `error_count` when its run failed, and in `correct` when it was answered exactly. */
  lemma StepCounts(t: Tally, record: Record, runId: string)
    ensures Step(t, record, runId).total == t.total + (if runId in record.runs then 1 else 0)
    ensures Step(t, record, runId).errors == t.errors + (if Failed(record, runId) then 1 else 0)
    ensures Step(t, record, runId).correct == t.correct + (if Correct(record, runId) then 1 else 0)
  {
  }

  /** The indices of `records` whose record satisfies each of the three counted conditions. */
  ghost function Holding(records: seq<Record>, runId: string): set<int>
    reads records
  {
    set i | 0 <= i < |records| && runId in records[i].runs
  }

  ghost function FailedAt(records: seq<Record>, runId: string): set<int>
    reads records
  {
    set i | 0 <= i < |records| && Failed(records[i], runId)
  }

  ghost function CorrectAt(records: seq<Record>, runId: string): set<int>
    reads records
  {
    set i | 0 <= i < |records| && Correct(records[i], runId)
  }

  /** Extending the records by one adds at most its own index to each index set. */
  lemma HoldingSnoc(records: seq<Record>, runId: string)
    requires records != []
    ensures var n := |records| - 1;
      Holding(records, runId) == Holding(records[..n], runId) + (if runId in records[n].runs then {n} else {})
  {
    var n := |records| - 1;
    forall i | 0 <= i < n
      ensures records[..n][i] == records[i]
    {
    }
  }

  lemma FailedSnoc(records: seq<Record>, runId: string)
    requires records != []
    ensures var n := |records| - 1;
      FailedAt(records, runId) == FailedAt(records[..n], runId) + (if Failed(records[n], runId) then {n} else {})
  {
    var n := |records| - 1;
    forall i | 0 <= i < n
      ensures records[..n][i] == records[i]
    {
    }
  }

  lemma CorrectSnoc(records: seq<Record>, runId: string)
    requires records != []
    ensures var n := |records| - 1;
      CorrectAt(records, runId) == CorrectAt(records[..n], runId) + (if Correct(records[n], runId) then {n} else {})
  {
    var n := |records| - 1;
    forall i | 0 <= i < n
      ensures records[..n][i] == records[i]
    {
    }
  }

  /** `total` counts the records holding the run, `error_count` those whose run failed, `correct` those answered exactly. */
  lemma {:induction false} TallyCounts(records: seq<Record>, runId: string)
    ensures TallyOf(records, runId).total == |Holding(records, runId)|
    ensures TallyOf(records, runId).errors == |FailedAt(records, runId)|
    ensures TallyOf(records, runId).correct == |CorrectAt(records, runId)|
    decreases |records|
  {
    if records != [] {
      var n := |records| - 1;
      TallyCounts(records[..n], runId);
      StepCounts(TallyOf(records[..n], runId), records[n], runId);
      HoldingSnoc(records, runId);
      FailedSnoc(records, runId);
      CorrectSnoc(records, runId);
    } else {
      assert Holding(records, runId) == {} && FailedAt(records, runId) == {} && CorrectAt(records, runId) == {};
    }
  }
}
