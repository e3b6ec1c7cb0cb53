/**
 * The loops the in-memory pipelines over `RunEntity` records share
 * (src/nl2graph/llm/pipeline.py, src/nl2graph/seq2seq/pipeline.py,
 * scripts/run_metaqa.py): adding a missing run, picking the records that
 * hold a run, and writing one stage output of every such record in place.
 * A loop over `order` visits the records in the order a worker pool
 * completes them; for one worker `order` is the list itself.
 */
module RunStages {
  import opened Wrappers
  import DataEntity
  import opened RunEntity
  import RunScoring
  import Json

  /** `_ensure_run` on a record's runs: add an empty run under the id unless one is there. */
  function Ensured(runs: map<string, RunResult>, runId: string, approach: DataEntity.Method, lang: string, model: string)
    : (m: map<string, RunResult>)
    ensures runId in m
    ensures runId in runs ==> m == runs
    ensures runId !in runs ==> m == runs[runId := NewRun(approach, lang, model)]
  {
    if runId in runs then runs else runs[runId := NewRun(approach, lang, model)]
  }

  /** The run's `gen` replaced, when the record holds the run. */
  function WithGen(runs: map<string, RunResult>, runId: string, g: RunGeneration): (m: map<string, RunResult>)
    ensures runId !in runs ==> m == runs
    ensures runId in runs ==> m == runs[runId := runs[runId].(gen := Some(g))]
  {
    if runId in runs then runs[runId := runs[runId].(gen := Some(g))] else runs
  }

  /** The run's `exec` replaced, when the record holds the run. */
  function WithExec(runs: map<string, RunResult>, runId: string, e: DataEntity.ExecutionResult): (m: map<string, RunResult>)
    ensures runId !in runs ==> m == runs
    ensures runId in runs ==> m == runs[runId := runs[runId].(exec := Some(e))]
  {
    if runId in runs then runs[runId := runs[runId].(exec := Some(e))] else runs
  }

  /** The run's `eval` replaced, when the record holds the run. */
  function WithEval(runs: map<string, RunResult>, runId: string, v: DataEntity.EvaluationResult): (m: map<string, RunResult>)
    ensures runId !in runs ==> m == runs
    ensures runId in runs ==> m == runs[runId := runs[runId].(eval := Some(v))]
  {
    if runId in runs then runs[runId := runs[runId].(eval := Some(v))] else runs
  }

  /** Storing a record's generation in its run. */
  method StoreGen(record: Record, runId: string, g: RunGeneration)
    requires runId in record.runs
    modifies record
    ensures record.runs == WithGen(old(record.runs), runId, g)
  {
    record.runs := record.runs[runId := record.runs[runId].(gen := Some(g))];
  }

  /** Storing a record's execution in its run. */
  method StoreExec(record: Record, runId: string, e: DataEntity.ExecutionResult)
    requires runId in record.runs
    modifies record
    ensures record.runs == WithExec(old(record.runs), runId, e)
  {
    record.runs := record.runs[runId := record.runs[runId].(exec := Some(e))];
  }

  /** Storing a record's scores in its run. */
  method StoreEval(record: Record, runId: string, v: DataEntity.EvaluationResult)
    requires runId in record.runs
    modifies record
    ensures record.runs == WithEval(old(record.runs), runId, v)
  {
    record.runs := record.runs[runId := record.runs[runId].(eval := Some(v))];
  }

  /** `[r for r in records if run_id in r.runs]`. */
  function Holding(records: seq<Record>, runId: string): (valid: seq<Record>)
    reads records
    ensures forall r :: r in valid ==> r in records && runId in r.runs
    ensures forall r :: r in records && runId in r.runs ==> r in valid
    decreases |records|
  {
    if records == [] then []
    else
      var init := Holding(records[..|records| - 1], runId);
      var r := records[|records| - 1];
      if runId in r.runs then init + [r] else init
  }

  /** The list comprehension picking the records that hold the run. */
  method CollectHolding(records: seq<Record>, runId: string) returns (valid: seq<Record>)
    ensures valid == Holding(records, runId)
  {
    valid := [];
    var i := 0;
    while i < |records|
      invariant 0 <= i <= |records|
      invariant valid == Holding(records[..i], runId)
    {
      assert records[..i + 1][..i] == records[..i];
      if runId in records[i].runs {
        valid := valid + [records[i]];
      }
      i := i + 1;
    }
    assert records[..|records|] == records;
  }

  /** The `_ensure_run` loop. */
  method EnsureRuns(records: seq<Record>, runId: string, approach: DataEntity.Method, lang: string, model: string)
    modifies records
    ensures forall r :: r in records ==> r.runs == Ensured(old(r.runs), runId, approach, lang, model)
  {
    var i := 0;
    while i < |records|
      invariant 0 <= i <= |records|
      invariant forall r :: r in records ==>
        r.runs == if r in records[..i] then Ensured(old(r.runs), runId, approach, lang, model) else old(r.runs)
    {
      assert records[..i + 1] == records[..i] + [records[i]];
      var record := records[i];
      if runId !in record.runs {
        record.runs := record.runs[runId := NewRun(approach, lang, model)];
      }
      i := i + 1;
    }
    assert records[..|records|] == records;
  }

  /** A record's generation as a function of its question; `Err` is a raised exception. */
  type GenFn = string -> Result<RunGeneration, string>

  /** The `exec` that `Execution.execute` gives a run, as a function of the run's generation. */
  type RunExecution = Option<RunGeneration> -> DataEntity.ExecutionResult

  /** The run's generation; none when the record does not hold the run. */
  function GenOf(runs: map<string, RunResult>, runId: string): (g: Option<RunGeneration>)
    ensures runId !in runs ==> g == None
    ensures runId in runs ==> g == runs[runId].gen
  {
    if runId in runs then runs[runId].gen else None
  }

  /** How many records a generation loop gets through before the first one whose generation raises. */
  function StopAt(order: seq<Record>, gen: GenFn): (k: nat)
    ensures k <= |order|
    ensures forall i :: 0 <= i < k ==> gen(order[i].question).Ok?
    ensures k < |order| ==> gen(order[k].question).Err?
    decreases |order|
  {
    if order == [] then 0
    else if gen(order[0].question).Err? then 0
    else 1 + StopAt(order[1..], gen)
  }

  /** With no failing record a generation loop gets through every record it visits. */
  lemma {:induction false} NoFailureSavesAll(order: seq<Record>, gen: GenFn)
    requires forall i :: 0 <= i < |order| ==> gen(order[i].question).Ok?
    ensures StopAt(order, gen) == |order|
    decreases |order|
  {
    if order != [] {
      assert forall i :: 0 <= i < |order[1..]| ==> order[1..][i] == order[i + 1];
      NoFailureSavesAll(order[1..], gen);
    }
  }

  /** A loop visiting a reordering of the records, none of which fails, gets through all of them. */
  lemma ShuffledSavesAll(records: seq<Record>, order: seq<Record>, gen: GenFn)
    requires multiset(order) == multiset(records)
    requires forall r :: r in records ==> gen(r.question).Ok?
    ensures StopAt(order, gen) == |order|
    ensures forall r :: r in order[..StopAt(order, gen)] <==> r in records
  {
    forall i | 0 <= i < |order|
      ensures gen(order[i].question).Ok?
    {
      assert order[i] in multiset(records);
    }
    NoFailureSavesAll(order, gen);
    assert order[..|order|] == order;
    forall r
      ensures r in order <==> r in records
    {
      assert r in order <==> r in multiset(order);
      assert r in records <==> r in multiset(records);
    }
  }

  /** A generation loop over records that all hold the run: each visited record's `gen` is overwritten until one raises. */
  method SaveGenerations(records: seq<Record>, runId: string, gen: GenFn, order: seq<Record>) returns (failure: Option<string>)
    requires forall r :: r in order ==> r in records
    requires forall r :: r in records ==> runId in r.runs
    modifies records
    ensures var k := StopAt(order, gen);
      && failure == (if k < |order| then Some(gen(order[k].question).error) else None)
      && forall r :: r in records ==>
           r.runs == if r in order[..k] then WithGen(old(r.runs), runId, gen(r.question).value) else old(r.runs)
  {
    var k := 0;
    while k < |order|
      invariant 0 <= k <= StopAt(order, gen)
      invariant forall r :: r in records ==>
        r.runs == if r in order[..k] then WithGen(old(r.runs), runId, gen(r.question).value) else old(r.runs)
    {
      assert order[..k + 1] == order[..k] + [order[k]];
      var record := order[k];
      assert record in records;
      var g := gen(record.question);
      if g.Err? {
        return Some(g.error);
      }
      GenAgain(old(record.runs), record.runs, runId, g.value);
      StoreGen(record, runId, g.value);
      k := k + 1;
    }
    assert order[..|order|] == order;
    failure := None;
  }

  /** A rearrangement has the same members. */
  lemma SameMembers<T>(order: seq<T>, visited: seq<T>)
    requires multiset(order) == multiset(visited)
    ensures forall r :: r in order <==> r in visited
  {
    forall r
      ensures r in order <==> r in visited
    {
      assert r in order <==> r in multiset(order);
      assert r in visited <==> r in multiset(visited);
    }
  }

  /** A record listed twice is executed again on its own, unchanged, generation. */
  lemma ExecGenStable(before: map<string, RunResult>, now: map<string, RunResult>, runId: string, execution: RunExecution)
    requires runId in before
    requires now == before || now == WithExec(before, runId, execution(GenOf(before, runId)))
    ensures runId in now && now[runId].gen == GenOf(before, runId)
  {
  }

  /** Storing a generation a second time leaves the run as the first store did. */
  lemma GenAgain(before: map<string, RunResult>, now: map<string, RunResult>, runId: string, g: RunGeneration)
    requires runId in before
    requires now == before || now == WithGen(before, runId, g)
    ensures runId in now && WithGen(now, runId, g) == WithGen(before, runId, g)
  {
  }

  /** A record listed twice is scored again on its own result, with the same scores. */
  lemma EvalScoreStable(answer: seq<Json.Json>, before: map<string, RunResult>, now: map<string, RunResult>, runId: string)
    requires runId in before
    requires now == before || now == WithEval(before, runId, RunScoring.RunScore(answer, before[runId]))
    ensures runId in now && RunScoring.RunScore(answer, now[runId]) == RunScoring.RunScore(answer, before[runId])
  {
  }

  /** An execution loop over `order`, a rearrangement of the records holding the run: each gets the execution of its own generation. */
  method ExecuteAll(records: seq<Record>, runId: string, execution: RunExecution, order: seq<Record>)
    requires multiset(order) == multiset(Holding(records, runId))
    modifies records
    ensures forall r :: r in records ==>
      r.runs == WithExec(old(r.runs), runId, execution(GenOf(old(r.runs), runId)))
  {
    ghost var valid := Holding(records, runId);
    SameMembers(order, valid);
    var k := 0;
    while k < |order|
      invariant 0 <= k <= |order|
      invariant forall r :: r in records ==>
        r.runs == if r in order[..k] then WithExec(old(r.runs), runId, execution(GenOf(old(r.runs), runId))) else old(r.runs)
    {
      assert order[..k + 1] == order[..k] + [order[k]];
      var record := order[k];
      ExecGenStable(old(record.runs), record.runs, runId, execution);
      StoreExec(record, runId, execution(record.runs[runId].gen));
      k := k + 1;
    }
    assert order[..|order|] == order;
  }

  /** The evaluation loop over the records holding the run, in list order: each gets `evaluate_record`'s scores of its own execution. */
  method EvaluateAll(records: seq<Record>, runId: string)
    modifies records
    ensures forall r :: r in records ==> r.runs == WithEval(old(r.runs), runId, old(RunScoring.EvaluateRecord(r, runId)))
  {
    var valid := CollectHolding(records, runId);
    var k := 0;
    while k < |valid|
      invariant 0 <= k <= |valid|
      invariant forall r :: r in records ==>
        r.runs == if r in valid[..k] then WithEval(old(r.runs), runId, old(RunScoring.EvaluateRecord(r, runId))) else old(r.runs)
    {
      assert valid[..k + 1] == valid[..k] + [valid[k]];
      var record := valid[k];
      assert record in records;
      EvalScoreStable(record.answer, old(record.runs), record.runs, runId);
      var v := RunScoring.EvaluateRecord(record, runId);
      StoreEval(record, runId, v);
      k := k + 1;
    }
    assert valid[..|valid|] == valid;
  }
}
