/**
 * `PipelineRunner` (src/nl2graph/pipeline/runner.py): the three stages of
 * the prompt-and-run pipeline, each writing one field of every record's run
 * in place. With more than one worker the writes happen in the order the
 * worker pool completes them; that order is the parameter `order`, any
 * rearrangement of the records the stage visits. A stage whose
 * collaborator is missing raises on its first record; `failure` carries
 * the message of the exception that ends a stage.
 */
module Runner {
  import opened Wrappers
  import opened Json
  import opened PipelineEntity
  import opened QueryGenerators
  import opened QueryExecutors
  import opened Evaluators
  import RunEntity

  const NoGenerator := "'NoneType' object has no attribute 'generate'"
  const NoExecutor := "'NoneType' object has no attribute 'execute'"
  /** `ThreadPoolExecutor(max_workers=n)` with `n <= 0`. */
  const NoWorkers := "max_workers must be greater than 0"

  /** `_ensure_run` on a record's runs: add an empty run under the id unless one is there. */
  function Ensured(runs: map<string, RunResult>, runId: string, lang: string, model: string): (m: map<string, RunResult>)
    ensures runId in m
    ensures runId in runs ==> m == runs
    ensures runId !in runs ==> m == runs[runId := NewRun(lang, model)]
  {
    if runId in runs then runs else runs[runId := NewRun(lang, model)]
  }

  /** The run's `gen` after a successful generation; nothing changes after a failed one. */
  function AfterGen(runs: map<string, RunResult>, runId: string, g: Result<GenerationResult, string>): (m: map<string, RunResult>)
    requires runId in runs
    ensures g.Err? ==> m == runs
    ensures g.Ok? ==> m == runs[runId := runs[runId].(gen := Some(g.value))]
  {
    if g.Ok? then runs[runId := runs[runId].(gen := Some(g.value))] else runs
  }

  /** The run's `exec` replaced, when the record holds the run. */
  function WithExec(runs: map<string, RunResult>, runId: string, e: ExecutionResult): (m: map<string, RunResult>)
    ensures runId !in runs ==> m == runs
    ensures runId in runs ==> m == runs[runId := runs[runId].(exec := Some(e))]
  {
    if runId in runs then runs[runId := runs[runId].(exec := Some(e))] else runs
  }

  /** The run's `eval` replaced, when the record holds the run. */
  function WithEval(runs: map<string, RunResult>, runId: string, v: EvaluationResult): (m: map<string, RunResult>)
    ensures runId !in runs ==> m == runs
    ensures runId in runs ==> m == runs[runId := runs[runId].(eval := Some(v))]
  {
    if runId in runs then runs[runId := runs[runId].(eval := Some(v))] else runs
  }

  /** `[r for r in records if run_id in r.runs]`. */
  function Holding(records: seq<Record>, runId: string): (valid: seq<Record>)
    reads records
    ensures forall r :: r in valid ==> r in records && runId in r.runs
    ensures forall r :: r in records && runId in r.runs ==> r in valid
    decreases |records|
  {
    if records == [] then []
    else
      var init := Holding(records[..|records| - 1], runId);
      var r := records[|records| - 1];
      if runId in r.runs then init + [r] else init
  }

  /** A record's generation as a function of its question; `Err` is a raised exception. */
  type GenFn = string -> Result<GenerationResult, string>

  /** How many records the saving loop of `generate` gets through before the first one whose generation raises. */
  function StopAt(order: seq<Record>, gen: GenFn): (k: nat)
    ensures k <= |order|
    ensures forall i :: 0 <= i < k ==> gen(order[i].question).Ok?
    ensures k < |order| ==> gen(order[k].question).Err?
    decreases |order|
  {
    if order == [] then 0
    else if gen(order[0].question).Err? then 0
    else 1 + StopAt(order[1..], gen)
  }

  /** With no failing record the saving loop gets through every record it visits. */
  lemma {:induction false} NoFailureSavesAll(order: seq<Record>, gen: GenFn)
    requires forall i :: 0 <= i < |order| ==> gen(order[i].question).Ok?
    ensures StopAt(order, gen) == |order|
    decreases |order|
  {
    if order != [] {
      assert forall i :: 0 <= i < |order[1..]| ==> order[1..][i] == order[i + 1];
      NoFailureSavesAll(order[1..], gen);
    }
  }

  /** A loop visiting a reordering of the records, none of which fails, gets through all of them. */
  lemma ShuffledSavesAll(records: seq<Record>, order: seq<Record>, gen: GenFn)
    requires multiset(order) == multiset(records)
    requires forall r :: r in records ==> gen(r.question).Ok?
    ensures StopAt(order, gen) == |order|
    ensures forall r :: r in order[..StopAt(order, gen)] <==> r in records
  {
    forall i | 0 <= i < |order|
      ensures gen(order[i].question).Ok?
    {
      assert order[i] in multiset(records);
    }
    NoFailureSavesAll(order, gen);
    assert order[..|order|] == order;
    forall r
      ensures r in order <==> r in records
    {
      assert r in order <==> r in multiset(order);
      assert r in records <==> r in multiset(records);
    }
  }

  /** A rearrangement has the same members. */
  lemma SameMembers<T>(order: seq<T>, visited: seq<T>)
    requires multiset(order) == multiset(visited)
    ensures forall r :: r in order <==> r in visited
  {
    forall r
      ensures r in order <==> r in visited
    {
      assert r in order <==> r in multiset(order);
      assert r in visited <==> r in multiset(visited);
    }
  }

  /** A record listed twice is executed again on its own result, with the same outcome. */
  lemma ExecOutcomeStable(c: Execution.Connector, before: map<string, RunResult>, now: map<string, RunResult>, runId: string)
    requires runId in before
    requires now == before || now == WithExec(before, runId, Outcome(c, before, runId))
    ensures runId in now && Outcome(c, now, runId) == Outcome(c, before, runId)
  {
    OutcomeIgnoresLaterStages(c, before, runId, Some(Outcome(c, before, runId)), before[runId].eval);
  }

  /** A record listed twice is scored again on its own result, with the same scores. */
  lemma EvalScoreStable(answer: seq<Json>, before: map<string, RunResult>, now: map<string, RunResult>, runId: string, first: First)
    requires runId in before
    requires now == before || now == WithEval(before, runId, RunScore(answer, before[runId], first))
    ensures runId in now && RunScore(answer, now[runId], first) == RunScore(answer, before[runId], first)
  {
  }

  /** Saving a record's generation a second time leaves the run as the first save did. */
  lemma AfterGenAgain(before: map<string, RunResult>, now: map<string, RunResult>, runId: string, g: Result<GenerationResult, string>)
    requires runId in before && g.Ok?
    requires now == before || now == AfterGen(before, runId, g)
    ensures runId in now && AfterGen(now, runId, g) == AfterGen(before, runId, g)
  {
  }

  /** Storing a record's execution in its run. */
  method SaveExec(record: Record, runId: string, e: ExecutionResult)
    requires runId in record.runs
    modifies record
    ensures record.runs == WithExec(old(record.runs), runId, e)
  {
    record.runs := record.runs[runId := record.runs[runId].(exec := Some(e))];
  }

  /** Storing a record's scores in its run. */
  method SaveEval(record: Record, runId: string, v: EvaluationResult)
    requires runId in record.runs
    modifies record
    ensures record.runs == WithEval(old(record.runs), runId, v)
  {
    record.runs := record.runs[runId := record.runs[runId].(eval := Some(v))];
  }

  /** Storing a record's generation in its run. */
  method SaveGen(record: Record, runId: string, g: GenerationResult)
    requires runId in record.runs
    modifies record
    ensures record.runs == AfterGen(old(record.runs), runId, Ok(g))
  {
    record.runs := record.runs[runId := record.runs[runId].(gen := Some(g))];
  }

  /** The loop of `execute`, over records that all hold the run; a record listed twice keeps its first outcome. */
  method ExecuteAll(records: seq<Record>, runId: string, exec: QueryExecutor, order: seq<Record>)
    requires forall r :: r in order ==> r in records && runId in r.runs
    modifies records
    ensures forall r :: r in records ==>
      r.runs == if r in order then WithExec(old(r.runs), runId, Outcome(exec.connector, old(r.runs), runId)) else old(r.runs)
  {
    var k := 0;
    while k < |order|
      invariant 0 <= k <= |order|
      invariant forall r :: r in records ==>
        r.runs == if r in order[..k] then WithExec(old(r.runs), runId, Outcome(exec.connector, old(r.runs), runId))
                  else old(r.runs)
    {
      assert order[..k + 1] == order[..k] + [order[k]];
      var record := order[k];
      ExecOutcomeStable(exec.connector, old(record.runs), record.runs, runId);
      var e := exec.Execute(record, runId);
      SaveExec(record, runId, e);
      k := k + 1;
    }
    assert order[..|order|] == order;
  }

  /** The loop of `evaluate`, over records that all hold the run; a record listed twice keeps its first scores. */
  method EvaluateAll(records: seq<Record>, runId: string, first: First, order: seq<Record>)
    requires forall r :: r in order ==> r in records && runId in r.runs
    modifies records
    ensures forall r :: r in records ==>
      r.runs == if r in order then WithEval(old(r.runs), runId, old(Evaluators.Evaluate(r, runId, first))) else old(r.runs)
  {
    ghost var scores := map r | r in order :: RunScore(r.answer, r.runs[runId], first);
    var k := 0;
    while k < |order|
      invariant 0 <= k <= |order|
      invariant forall r :: r in records ==>
        r.runs == if r in order[..k] then WithEval(old(r.runs), runId, scores[r]) else old(r.runs)
    {
      assert order[..k + 1] == order[..k] + [order[k]];
      var record := order[k];
      EvalScoreStable(record.answer, old(record.runs), record.runs, runId, first);
      var v := Evaluators.Evaluate(record, runId, first);
      SaveEval(record, runId, v);
      k := k + 1;
    }
    assert order[..|order|] == order;
  }

  /** The saving loop of `generate`, over records that all hold the run. */
  method SaveGenerations(records: seq<Record>, runId: string, gen: GenFn, order: seq<Record>) returns (failure: Option<string>)
    requires forall r :: r in order ==> r in records
    requires forall r :: r in records ==> runId in r.runs
    modifies records
    ensures var k := StopAt(order, gen);
      && failure == (if k < |order| then Some(gen(order[k].question).error) else None)
      && (forall r :: r in order[..k] ==> gen(r.question).Ok?)
      && forall r :: r in records ==>
           r.runs == if r in order[..k] then AfterGen(old(r.runs), runId, gen(r.question)) else old(r.runs)
  {
    var k := 0;
    while k < |order|
      invariant 0 <= k <= StopAt(order, gen)
      invariant forall r :: r in records ==> runId in old(r.runs)
      invariant forall r :: r in records ==>
        r.runs == if r in order[..k] then AfterGen(old(r.runs), runId, gen(r.question)) else old(r.runs)
    {
      assert order[..k + 1] == order[..k] + [order[k]];
      var record := order[k];
      assert record in records;
      var g := gen(record.question);
      if g.Err? {
        return Some(g.error);
      }
      AfterGenAgain(old(record.runs), record.runs, runId, g);
      SaveGen(record, runId, g.value);
      k := k + 1;
    }
    assert order[..|order|] == order;
    failure := None;
  }

  class PipelineRunner {
    const generator: Option<QueryGenerator>
    const executor: Option<QueryExecutor>
    /** The evaluator's hits@1 choice of a first prediction. */
    const first: First
    const lang: string
    const model: string
    const runId: string
    const workers: int

    constructor (generator: Option<QueryGenerator>, executor: Option<QueryExecutor>, first: First,
                 lang: string, model: string, workers: int)
      ensures this.generator == generator && this.executor == executor && this.first == first
      ensures this.lang == lang && this.model == model && this.workers == workers
      ensures runId == RunEntity.RunId(lang, model)
    {
      this.generator := generator;
      this.executor := executor;
      this.first := first;
      this.lang := lang;
      this.model := model;
      this.runId := RunEntity.RunId(lang, model);
      this.workers := workers;
    }

    /** `order` is the order the stage visits `visited` in: the list itself for one worker, a rearrangement of it otherwise. */
    predicate Schedules(visited: seq<Record>, order: seq<Record>)
    {
      if workers == 1 then order == visited else multiset(order) == multiset(visited)
    }

    /** `_generate_one` with the given schema text, as a function of the question. */
    function Generation(schemaText: string): (gen: GenFn)
      requires generator.Some?
      ensures forall q :: gen(q) == generator.value.Generate(q, schemaText)
    {
      q => generator.value.Generate(q, schemaText)
    }

    /**
     * `generate`: every record gets a run; then, visiting `order`, each
     * record's `gen` is overwritten with its generation until one raises.
     * `exec` and `eval` keep their values.
     */
    method Generate(records: seq<Record>, schemaText: string, order: seq<Record>) returns (failure: Option<string>)
      requires Schedules(records, order)
      modifies records
      ensures workers < 1 ==>
        && failure == Some(NoWorkers)
        && forall r :: r in records ==> r.runs == Ensured(old(r.runs), runId, lang, model)
      ensures workers >= 1 && generator.None? ==>
        && failure == (if records == [] then None else Some(NoGenerator))
        && forall r :: r in records ==> r.runs == Ensured(old(r.runs), runId, lang, model)
      ensures workers >= 1 && generator.Some? ==>
        var gen := Generation(schemaText);
        var k := StopAt(order, gen);
        && failure == (if k < |order| then Some(gen(order[k].question).error) else None)
        && (forall r :: r in order[..k] ==> gen(r.question).Ok?)
        && forall r :: r in records ==>
             r.runs == if r in order[..k] then AfterGen(Ensured(old(r.runs), runId, lang, model), runId, gen(r.question))
                       else Ensured(old(r.runs), runId, lang, model)
    {
      EnsureRuns(records);
      if workers < 1 {
        return Some(NoWorkers);
      }
      if generator.None? {
        if |records| > 0 {
          return Some(NoGenerator);
        }
        return None;
      }
      forall r | r in order
        ensures r in records
      {
        assert r in multiset(order);
      }
      failure := SaveGenerations(records, runId, Generation(schemaText), order);
    }

    /** The `_ensure_run` loop. */
    method EnsureRuns(records: seq<Record>)
      modifies records
      ensures forall r :: r in records ==> r.runs == Ensured(old(r.runs), runId, lang, model)
    {
      var i := 0;
      while i < |records|
        invariant 0 <= i <= |records|
        invariant forall r :: r in records ==>
          r.runs == if r in records[..i] then Ensured(old(r.runs), runId, lang, model) else old(r.runs)
      {
        assert records[..i + 1] == records[..i] + [records[i]];
        var record := records[i];
        if runId !in record.runs {
          record.runs := record.runs[runId := NewRun(lang, model)];
        }
        i := i + 1;
      }
      assert records[..|records|] == records;
    }

    /** Without failures, every record ends with its generation saved, in either branch. */
    lemma ParallelGenerateMatchesSequential(records: seq<Record>, schemaText: string, order: seq<Record>)
      requires generator.Some?
      requires multiset(order) == multiset(records)
      requires forall r :: r in records ==> generator.value.Generate(r.question, schemaText).Ok?
      ensures StopAt(order, Generation(schemaText)) == |order|
      ensures forall r :: r in order[..StopAt(order, Generation(schemaText))] <==> r in records
    {
      var gen := Generation(schemaText);
      forall r | r in records
        ensures gen(r.question).Ok?
      {
      }
      ShuffledSavesAll(records, order, gen);
    }

    /** The records a stage after generation visits: those holding the run, in list order. */
    method CollectHolding(records: seq<Record>) returns (valid: seq<Record>)
      ensures valid == Holding(records, runId)
    {
      valid := [];
      var i := 0;
      while i < |records|
        invariant 0 <= i <= |records|
        invariant valid == Holding(records[..i], runId)
      {
        assert records[..i + 1][..i] == records[..i];
        if runId in records[i].runs {
          valid := valid + [records[i]];
        }
        i := i + 1;
      }
      assert records[..|records|] == records;
    }

    /**
     * `execute`: each record holding the run gets the executor's outcome for
     * its current generation as `exec`; the others are untouched. The
     * outcome does not depend on the visiting order.
     */
    method Execute(records: seq<Record>, order: seq<Record>) returns (failure: Option<string>)
      requires Schedules(Holding(records, runId), order)
      modifies records
      ensures workers < 1 ==> failure == Some(NoWorkers) && forall r :: r in records ==> r.runs == old(r.runs)
      ensures workers >= 1 && executor.None? ==>
        && failure == (if old(Holding(records, runId)) == [] then None else Some(NoExecutor))
        && forall r :: r in records ==> r.runs == old(r.runs)
      ensures workers >= 1 && executor.Some? ==>
        && failure == None
        && forall r :: r in records ==>
             r.runs == WithExec(old(r.runs), runId, Outcome(executor.value.connector, old(r.runs), runId))
    {
      if workers < 1 {
        return Some(NoWorkers);
      }
      var valid := CollectHolding(records);
      if valid == [] {
        return None;
      }
      if executor.None? {
        return Some(NoExecutor);
      }
      SameMembers(order, valid);
      ExecuteAll(records, runId, executor.value, order);
      failure := None;
    }

    /**
     * `evaluate`: each record holding the run gets the evaluator's scores of
     * its current execution as `eval`; the others are untouched.
     */
    method Evaluate(records: seq<Record>, order: seq<Record>) returns (failure: Option<string>)
      requires Schedules(Holding(records, runId), order)
      modifies records
      ensures workers < 1 ==> failure == Some(NoWorkers) && forall r :: r in records ==> r.runs == old(r.runs)
      ensures workers >= 1 ==>
        && failure == None
        && forall r :: r in records ==>
             r.runs == WithEval(old(r.runs), runId, old(Evaluators.Evaluate(r, runId, first)))
    {
      if workers < 1 {
        return Some(NoWorkers);
      }
      var valid := CollectHolding(records);
      SameMembers(order, valid);
      EvaluateAll(records, runId, first, order);
      failure := None;
    }
  }
}
