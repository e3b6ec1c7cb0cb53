/**
 * The in-memory records of the older evaluation pipelines
 * (src/nl2graph/eval/entity.py): a question with its gold answer and a
 * dictionary of runs, one per (lang, model) pair, each holding the three
 * nullable stage outputs. The execution and evaluation outputs have the
 * same fields as those of the result store and reuse its datatypes.
 */
module RunEntity {
  import opened Wrappers
  import opened Json
  import opened DataEntity

  /** The `gen` output of a run: raw model text, the query taken from it, and the intermediate representation. */
  datatype RunGeneration = RunGeneration(queryRaw: Option<string>, query: Option<string>, ir: Option<string>)

  /** `GenerationResult()`: every field None. */
  const EmptyRunGeneration := RunGeneration(None, None, None)

  /** One run of one record. */
  datatype RunResult = RunResult(
    approach: Method, lang: string, model: string,
    gen: Option<RunGeneration>, exec: Option<ExecutionResult>, eval: Option<EvaluationResult>)

  /** `RunResult(method=…, lang=…, model=…)`: the three stage outputs default to None. */
  function NewRun(approach: Method, lang: string, model: string): (r: RunResult)
    ensures r.approach == approach && r.lang == lang && r.model == model
    ensures r.gen.None? && r.exec.None? && r.eval.None?
  {
    RunResult(approach, lang, model, None, None, None)
  }

  /** `get_run_id`: the language, two dashes, then the model. */
  function RunId(lang: string, model: string): (id: string)
    ensures |id| == |lang| + 2 + |model|
    ensures id[..|lang|] == lang && id[|lang|..|lang| + 2] == "--" && id[|lang| + 2..] == model
  {
    lang + "--" + model
  }

  /** Every character of the language part of an id sits before its first dash when the language has none. */
  lemma DashFreePrefix(lang: string, model: string)
    requires '-' !in lang
    ensures forall i :: 0 <= i < |lang| ==> RunId(lang, model)[i] != '-'
    ensures RunId(lang, model)[|lang|] == '-'
  {
    forall i | 0 <= i < |lang|
      ensures RunId(lang, model)[i] != '-'
    {
      assert RunId(lang, model)[i] == lang[i];
    }
  }

  /** Ids of languages without a dash determine their language and model. */
  lemma RunIdInjective(lang1: string, model1: string, lang2: string, model2: string)
    requires '-' !in lang1 && '-' !in lang2
    requires RunId(lang1, model1) == RunId(lang2, model2)
    ensures lang1 == lang2 && model1 == model2
  {
    DashFreePrefix(lang1, model1);
    DashFreePrefix(lang2, model2);
    assert |lang1| == |lang2|;
    var id := RunId(lang1, model1);
    assert lang1 == id[..|lang1|] && lang2 == id[..|lang2|];
    assert model1 == id[|lang1| + 2..] && model2 == id[|lang2| + 2..];
  }

  /** Two different dashed pairs share one id, so the id alone cannot tell them apart. */
  lemma RunIdAmbiguous()
    ensures RunId("a-", "b") == RunId("a", "-b")
  {
    assert RunId("a-", "b") == "a---b" == RunId("a", "-b");
  }

  /** A record of a dataset, with its runs; `question`, `answer` and `hop` are never reassigned. */
  class Record {
    const question: string
    const answer: seq<Json>
    const hop: Option<int>
    /** The undeclared fields `extra="allow"` keeps. */
    const extra: Dict
    var runs: map<string, RunResult>

    /** A freshly loaded record has no runs. */
    constructor (question: string, answer: seq<Json>, hop: Option<int>, extra: Dict)
      ensures this.question == question && this.answer == answer && this.hop == hop && this.extra == extra
      ensures runs == map[]
    {
      this.question := question;
      this.answer := answer;
      this.hop := hop;
      this.extra := extra;
      runs := map[];
    }

    /** `add_run`: store the run under its id, replacing a run already there, and return the id. */
    method AddRun(run: RunResult) returns (id: string)
      modifies this
      ensures id == RunId(run.lang, run.model)
      ensures runs == old(runs)[id := run]
    {
      id := RunId(run.lang, run.model);
      runs := runs[id := run];
    }
  }
}
