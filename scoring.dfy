/**
 * `Scoring.evaluate` of the result store: the metrics of one record
 * against the stored execution of one row.
 */
module Scoring {
  import opened Wrappers
  import opened Json
  import opened DataEntity
  import opened Metrics

  /** The normalised gold answers of a record. */
  function Gold(record: Record): set<string>
  {
    Normalized(record.answer)
  }

  /** The normalised predicted answers: `exec.result or []`. */
  function Pred(e: ExecutionResult): set<string>
  {
    Normalized(if e.result.Some? then e.result.value else [])
  }

  /** `Scoring.evaluate`. */
  function Evaluate(record: Record, result: DataEntity.Result): (v: EvaluationResult)
    ensures result.exec.None? || !result.exec.value.success ==> v == EmptyEvaluation
    ensures result.exec.Some? && result.exec.value.success ==>
      v.exactMatch.Some? && v.f1.Some? && v.precision.Some? && v.recall.Some?
  {
    if result.exec.None? || !result.exec.value.success then EmptyEvaluation
    else
      var gold := Gold(record);
      var pred := Pred(result.exec.value);
      var prf := PrecisionRecallF1(gold, pred);
      EvaluationResult(Some(ExactMatch(gold, pred)), Some(prf.2), Some(prf.0), Some(prf.1))
  }

  /** A successful execution scores exact match against the normalised sets, and every score lies in [0, 1]. */
  lemma EvaluateScores(record: Record, result: DataEntity.Result)
    requires result.exec.Some? && result.exec.value.success
    ensures var v := Evaluate(record, result);
      && (v.exactMatch == Some(1.0) <==> Gold(record) == Pred(result.exec.value))
      && 0.0 <= v.f1.value <= 1.0 && 0.0 <= v.precision.value <= 1.0 && 0.0 <= v.recall.value <= 1.0
  {
  }

  /** A success whose result is None scores like an empty prediction: precision, recall and F1 are 0. */
  lemma NoResultScoresZero(record: Record, result: DataEntity.Result)
    requires result.exec.Some? && result.exec.value.success && result.exec.value.result.None?
    ensures var v := Evaluate(record, result);
      v.precision == Some(0.0) && v.recall == Some(0.0) && v.f1 == Some(0.0)
  {
  }

  /** Scores read off the normalised gold and predicted sets. */
  lemma EvaluateIsMetrics(record: Record, result: DataEntity.Result)
    requires result.exec.Some? && result.exec.value.success
    ensures var v := Evaluate(record, result);
      var prf := PrecisionRecallF1(Gold(record), Pred(result.exec.value));
      v == EvaluationResult(Some(ExactMatch(Gold(record), Pred(result.exec.value))), Some(prf.2), Some(prf.0), Some(prf.1))
  {
  }

  /** Equal non-empty answer sets score 1 on every measure. */
  lemma EqualSetsScorePerfect(record: Record, result: DataEntity.Result)
    requires result.exec.Some? && result.exec.value.success
    requires Gold(record) == Pred(result.exec.value) != {}
    ensures Evaluate(record, result) == EvaluationResult(Some(1.0), Some(1.0), Some(1.0), Some(1.0))
  {
    PerfectIffEqual(Gold(record), Pred(result.exec.value));
    EvaluateIsMetrics(record, result);
  }

  /** Disjoint answer sets: exact match 0 unless both are empty, and precision, recall and F1 0. */
  lemma DisjointSetsScoreZero(record: Record, result: DataEntity.Result)
    requires result.exec.Some? && result.exec.value.success
    requires Gold(record) * Pred(result.exec.value) == {} && Gold(record) != {}
    ensures Evaluate(record, result) == EvaluationResult(Some(0.0), Some(0.0), Some(0.0), Some(0.0))
  {
    DisjointScoresZero(Gold(record), Pred(result.exec.value));
    EvaluateIsMetrics(record, result);
  }

  /** A single gold answer and a single predicted answer that differ only in letter case are an exact match. */
  lemma FullMatchExample(record: Record, result: DataEntity.Result, gold: string, predicted: string)
    requires record.answer == [JStr(gold)]
    requires result.exec == Some(ExecutionResult(Some([JStr(predicted)]), true, None))
    requires Strs.Lower(gold) == Strs.Lower(predicted)
    ensures Evaluate(record, result) == EvaluationResult(Some(1.0), Some(1.0), Some(1.0), Some(1.0))
  {
    assert NormalizeOne(JStr(gold)) == NormalizeOne(JStr(predicted)) by {
      CaseOnlyDifference(gold, predicted);
    }
    NormalizedSingle(JStr(gold));
    NormalizedSingle(JStr(predicted));
    EqualSetsScorePerfect(record, result);
  }

  /** Strings equal up to letter case normalise alike. */
  lemma CaseOnlyDifference(a: string, b: string)
    requires Strs.Lower(a) == Strs.Lower(b)
    ensures NormalizeOne(JStr(a)) == NormalizeOne(JStr(b))
  {
    calc {
      NormalizeOne(JStr(a));
      Strs.Lower(Strs.Strip(a));
      { Strs.StripLower(a); }
      Strs.Strip(Strs.Lower(a));
      Strs.Strip(Strs.Lower(b));
      { Strs.StripLower(b); }
      Strs.Lower(Strs.Strip(b));
      NormalizeOne(JStr(b));
    }
  }

  /** Two single answers that normalise differently: everything scores 0. */
  lemma NoMatchExample(record: Record, result: DataEntity.Result, gold: string, predicted: string)
    requires record.answer == [JStr(gold)]
    requires result.exec == Some(ExecutionResult(Some([JStr(predicted)]), true, None))
    requires NormalizeOne(JStr(gold)) != NormalizeOne(JStr(predicted))
    ensures Evaluate(record, result) == EvaluationResult(Some(0.0), Some(0.0), Some(0.0), Some(0.0))
  {
    assert Gold(record) * Pred(result.exec.value) == {} && Gold(record) != {} by {
      NormalizedSingle(JStr(gold));
      NormalizedSingle(JStr(predicted));
    }
    DisjointSetsScoreZero(record, result);
  }
}
