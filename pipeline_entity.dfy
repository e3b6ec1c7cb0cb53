/**
 * The records of the prompt-and-run pipeline (src/nl2graph/pipeline/entity.py):
 * like the evaluation records, a question with its gold answer and one run
 * per (lang, model) pair, but the generation keeps the processed query,
 * the execution calls its rows `answer`, and the evaluation adds hits@1.
 */
module PipelineEntity {
  import opened Wrappers
  import opened Json

  /** The `gen` output: raw model text and the query extracted from it. */
  datatype GenerationResult = GenerationResult(queryRaw: Option<string>, queryProcessed: Option<string>)

  /** The `exec` output. */
  datatype ExecutionResult = ExecutionResult(answer: Option<seq<Json>>, success: bool, error: Option<string>)

  /** The `eval` output. */
  datatype EvaluationResult = EvaluationResult(
    exactMatch: Option<real>, f1: Option<real>, precision: Option<real>, recall: Option<real>, hitsAt1: Option<real>)

  const EmptyGeneration := GenerationResult(None, None)
  const EmptyExecution := ExecutionResult(None, false, None)
  const EmptyEvaluation := EvaluationResult(None, None, None, None, None)

  /** One run of one record. */
  datatype RunResult = RunResult(
    lang: string, model: string,
    gen: Option<GenerationResult>, exec: Option<ExecutionResult>, eval: Option<EvaluationResult>)

  /** `RunResult(lang=…, model=…)`: the three stage outputs default to None. */
  function NewRun(lang: string, model: string): (r: RunResult)
    ensures r.lang == lang && r.model == model && r.gen.None? && r.exec.None? && r.eval.None?
  {
    RunResult(lang, model, None, None, None)
  }

  /** A record of a dataset, with its runs; only `runs` is ever written. */
  class Record {
    const question: string
    const answer: seq<Json>
    const hop: Option<int>
    /** The undeclared fields `extra = "allow"` keeps. */
    const extra: Dict
    var runs: map<string, RunResult>

    /** A freshly loaded record has no runs. */
    constructor (question: string, answer: seq<Json>, hop: Option<int>, extra: Dict)
      ensures this.question == question && this.answer == answer && this.hop == hop && this.extra == extra
      ensures runs == map[]
    {
      this.question := question;
      this.answer := answer;
      this.hop := hop;
      this.extra := extra;
      runs := map[];
    }
  }
}
