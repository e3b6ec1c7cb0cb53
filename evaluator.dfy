/**
 * `Evaluator` (src/nl2graph/pipeline/evaluator.py): the metrics of one run
 * of a pipeline record. Its normalisation, exact match and
 * precision/recall/F1 helpers repeat those of the metrics module line for
 * line and are modelled by them; hits@1 looks at whichever predicted
 * answer the set yields first, an iteration order that is a parameter here.
 */
module Evaluators {
  import opened Wrappers
  import opened Json
  import opened Metrics
  import RunScoring
  import opened PipelineEntity

  /** `next(iter(s))`: some element of a non-empty set, chosen by the set's iteration order. */
  type First = set<string> -> string

  ghost predicate Chooses(first: First) {
    forall s: set<string> :: s != {} ==> first(s) in s
  }

  /** `_hits_at_1`: whether the first predicted answer is a gold one; 0 with no prediction. */
  function HitsAt1(gold: set<string>, pred: set<string>, first: First): (h: real)
    ensures h == 1.0 || h == 0.0
    ensures pred == {} ==> h == 0.0
    ensures pred != {} ==> (h == 1.0 <==> first(pred) in gold)
  {
    if pred == {} then 0.0 else if first(pred) in gold then 1.0 else 0.0
  }

  /** Whatever the iteration order, hits@1 is 1 when every prediction is gold, and 0 when none is. */
  lemma HitsAt1OrderFree(gold: set<string>, pred: set<string>, first: First)
    requires Chooses(first)
    ensures pred != {} && pred <= gold ==> HitsAt1(gold, pred, first) == 1.0
    ensures pred * gold == {} ==> HitsAt1(gold, pred, first) == 0.0
  {
    if pred != {} {
      var x := first(pred);
      assert x in pred;
      assert x in gold ==> x in pred * gold;
    }
  }

  /** The execution of the run succeeded. */
  predicate Succeeded(run: RunResult) {
    run.exec.Some? && run.exec.value.success
  }

  /** `exec.answer or []`, normalised. */
  function Pred(e: ExecutionResult): set<string>
  {
    Normalized(if e.answer.Some? then e.answer.value else [])
  }

  /** The five scores of one run: none unless its execution succeeded. */
  function RunScore(answer: seq<Json>, run: RunResult, first: First): (v: EvaluationResult)
    ensures !Succeeded(run) ==> v == EmptyEvaluation
    ensures Succeeded(run) ==>
      var s := RunScoring.ScoreSets(Normalized(answer), Pred(run.exec.value));
      && v.exactMatch == s.exactMatch && v.f1 == s.f1 && v.precision == s.precision && v.recall == s.recall
      && v.hitsAt1 == Some(HitsAt1(Normalized(answer), Pred(run.exec.value), first))
  {
    if !Succeeded(run) then EmptyEvaluation
    else
      var gold := Normalized(answer);
      var pred := Pred(run.exec.value);
      var prf := PrecisionRecallF1(gold, pred);
      EvaluationResult(Some(ExactMatch(gold, pred)), Some(prf.2), Some(prf.0), Some(prf.1), Some(HitsAt1(gold, pred, first)))
  }

  /** `evaluate`: no scores unless the record holds the run and its execution succeeded. */
  function Evaluate(record: Record, runId: string, first: First): (v: EvaluationResult)
    reads record
    ensures runId !in record.runs ==> v == EmptyEvaluation
    ensures runId in record.runs ==> v == RunScore(record.answer, record.runs[runId], first)
  {
    if runId !in record.runs then EmptyEvaluation else RunScore(record.answer, record.runs[runId], first)
  }

  /** A successful run with no prediction scores 0 on precision, recall, F1 and hits@1. */
  lemma EmptyPredictionScoresZero(answer: seq<Json>, run: RunResult, first: First)
    requires Succeeded(run) && Pred(run.exec.value) == {}
    ensures var v := RunScore(answer, run, first);
      v.precision == Some(0.0) && v.recall == Some(0.0) && v.f1 == Some(0.0) && v.hitsAt1 == Some(0.0)
  {
  }

  /** A successful run whose predictions are all gold has hits@1 of 1, and one that predicts the gold set exactly scores 1 throughout. */
  lemma GoldPredictionsHit(answer: seq<Json>, run: RunResult, first: First)
    requires Chooses(first) && Succeeded(run)
    requires Pred(run.exec.value) != {} && Pred(run.exec.value) <= Normalized(answer)
    ensures RunScore(answer, run, first).hitsAt1 == Some(1.0)
    ensures Pred(run.exec.value) == Normalized(answer) ==>
      RunScore(answer, run, first) == EvaluationResult(Some(1.0), Some(1.0), Some(1.0), Some(1.0), Some(1.0))
  {
    HitsAt1OrderFree(Normalized(answer), Pred(run.exec.value), first);
    PerfectIffEqual(Normalized(answer), Pred(run.exec.value));
  }
}
