/**
 * `LLMPipeline` (src/nl2graph/llm/pipeline.py): generation, execution and
 * scoring of one (lang, model) run over in-memory records. The generation
 * and the execution are collaborators passed in (`None` when absent); the
 * scoring is `evaluate_record` of the default `Scoring`, the one used when
 * no `scoring` is passed (a caller-supplied scorer is not modelled). With more
 * than one worker, generation and execution write in the order the worker
 * pool completes them, which is the parameter `order`.
 */
module LlmPipeline {
  import opened Wrappers
  import DataEntity
  import opened RunEntity
  import RunScoring
  import opened RunStages

  const NoGeneration := "'NoneType' object has no attribute 'generate'"
  const NoExecution := "'NoneType' object has no attribute 'execute'"
  /** `ThreadPoolExecutor(max_workers=n)` with `n <= 0`. */
  const NoWorkers := "max_workers must be greater than 0"

  /** `Generation.generate(record, schema)` on the record's question and the schema's prompt text. */
  type LlmGeneration = (string, string) -> Result<RunGeneration, string>

  class LLMPipeline {
    const generation: Option<LlmGeneration>
    const execution: Option<RunExecution>
    const lang: string
    const model: string
    const runId: string
    const workers: int

    constructor (generation: Option<LlmGeneration>, execution: Option<RunExecution>, lang: string, model: string, workers: int)
      ensures this.generation == generation && this.execution == execution
      ensures this.lang == lang && this.model == model && this.workers == workers
      ensures runId == RunId(lang, model)
    {
      this.generation := generation;
      this.execution := execution;
      this.lang := lang;
      this.model := model;
      this.runId := RunId(lang, model);
      this.workers := workers;
    }

    /** `order` is the order a stage visits `visited` in: the list itself for one worker, a rearrangement of it otherwise. */
    predicate Schedules(visited: seq<Record>, order: seq<Record>)
    {
      if workers == 1 then order == visited else multiset(order) == multiset(visited)
    }

    /** `_generate_one` with the given schema, as a function of the question. */
    function Generation(schemaText: string): (gen: GenFn)
      requires generation.Some?
      ensures forall q :: gen(q) == generation.value(q, schemaText)
    {
      q => generation.value(q, schemaText)
    }

    /**
     * `generate`: every record gets an "llm" run; then, visiting `order`,
     * each record's `gen` is overwritten with its generation until one
     * raises. There is no skip policy, and `exec` and `eval` keep their values.
     */
    method Generate(records: seq<Record>, schemaText: string, order: seq<Record>) returns (failure: Option<string>)
      requires Schedules(records, order)
      modifies records
      ensures workers < 1 ==>
        && failure == Some(NoWorkers)
        && forall r :: r in records ==> r.runs == Ensured(old(r.runs), runId, DataEntity.Llm, lang, model)
      ensures workers >= 1 && generation.None? ==>
        && failure == (if records == [] then None else Some(NoGeneration))
        && forall r :: r in records ==> r.runs == Ensured(old(r.runs), runId, DataEntity.Llm, lang, model)
      ensures workers >= 1 && generation.Some? ==>
        var gen := Generation(schemaText);
        var k := StopAt(order, gen);
        && failure == (if k < |order| then Some(gen(order[k].question).error) else None)
        && forall r :: r in records ==>
             var ensured := Ensured(old(r.runs), runId, DataEntity.Llm, lang, model);
             r.runs == if r in order[..k] then WithGen(ensured, runId, gen(r.question).value) else ensured
    {
      EnsureRuns(records, runId, DataEntity.Llm, lang, model);
      if workers < 1 {
        return Some(NoWorkers);
      }
      if generation.None? {
        if |records| > 0 {
          return Some(NoGeneration);
        }
        return None;
      }
      forall r | r in order
        ensures r in records
      {
        assert r in multiset(order);
      }
      failure := SaveGenerations(records, runId, Generation(schemaText), order);
    }

    /** When no generation raises, both branches save a generation for every record. */
    lemma NoFailureGeneratesAll(records: seq<Record>, schemaText: string, order: seq<Record>)
      requires generation.Some?
      requires Schedules(records, order)
      requires forall r :: r in records ==> generation.value(r.question, schemaText).Ok?
      ensures StopAt(order, Generation(schemaText)) == |order|
      ensures forall r :: r in order[..StopAt(order, Generation(schemaText))] <==> r in records
    {
      var gen := Generation(schemaText);
      forall r | r in records
        ensures gen(r.question).Ok?
      {
      }
      ShuffledSavesAll(records, order, gen);
    }

    /**
     * `execute`: each record holding the run gets the execution of its
     * current generation as `exec`; the others are untouched. The worker
     * pool is built even when no record holds the run.
     */
    method Execute(records: seq<Record>, order: seq<Record>) returns (failure: Option<string>)
      requires Schedules(Holding(records, runId), order)
      modifies records
      ensures workers < 1 ==> failure == Some(NoWorkers) && forall r :: r in records ==> r.runs == old(r.runs)
      ensures workers >= 1 && execution.None? ==>
        && failure == (if old(Holding(records, runId)) == [] then None else Some(NoExecution))
        && forall r :: r in records ==> r.runs == old(r.runs)
      ensures workers >= 1 && execution.Some? ==>
        && failure == None
        && forall r :: r in records ==> r.runs == WithExec(old(r.runs), runId, execution.value(GenOf(old(r.runs), runId)))
    {
      var valid := CollectHolding(records, runId);
      if workers < 1 {
        return Some(NoWorkers);
      }
      if valid == [] {
        return None;
      }
      if execution.None? {
        return Some(NoExecution);
      }
      ExecuteAll(records, runId, execution.value, order);
      failure := None;
    }

    /** `evaluate`: sequential; each record holding the run gets its scores as `eval`; the others are untouched. */
    method Evaluate(records: seq<Record>)
      modifies records
      ensures forall r :: r in records ==> r.runs == WithEval(old(r.runs), runId, old(RunScoring.EvaluateRecord(r, runId)))
    {
      EvaluateAll(records, runId);
    }
  }
}
