/**
 * The MetaQA driver script (scripts/run_metaqa.py): one stage of the
 * prompt-and-run pipeline per (subset, split) file, clearing by hand the
 * stage outputs downstream of the one just run, over every subset and
 * split unless one is named. Loading and saving the record files is left
 * to the caller; the records given here are the ones loaded.
 */
module MetaQa {
  import opened Wrappers
  import opened PipelineEntity
  import opened Runner

  const Dataset := "metaqa"
  const AllSubsets := ["1-hop", "2-hop", "3-hop"]
  const AllSplits := ["train", "dev", "test"]

  /** The `--mode` choices. */
  datatype Mode = GenerateMode | ExecuteMode | EvaluateMode

  /** The stage outputs the script clears after a stage: both later ones after generation, the evaluation after execution. */
  function Cleared(runs: map<string, RunResult>, runId: string, mode: Mode): (m: map<string, RunResult>)
    ensures runId !in runs ==> m == runs
    ensures runId in runs && mode == GenerateMode ==> m == runs[runId := runs[runId].(exec := None, eval := None)]
    ensures runId in runs && mode == ExecuteMode ==> m == runs[runId := runs[runId].(eval := None)]
    ensures mode == EvaluateMode ==> m == runs
  {
    if runId !in runs then runs
    else match mode
      case GenerateMode => runs[runId := runs[runId].(exec := None, eval := None)]
      case ExecuteMode => runs[runId := runs[runId].(eval := None)]
      case EvaluateMode => runs
  }

  /** The clearing loop that follows a stage. */
  method ClearDownstream(records: seq<Record>, runId: string, mode: Mode)
    modifies records
    ensures forall r :: r in records ==> r.runs == Cleared(old(r.runs), runId, mode)
  {
    if mode == EvaluateMode {
      return;
    }
    var i := 0;
    while i < |records|
      invariant 0 <= i <= |records|
      invariant forall r :: r in records ==>
        r.runs == if r in records[..i] then Cleared(old(r.runs), runId, mode) else old(r.runs)
    {
      assert records[..i + 1] == records[..i] + [records[i]];
      var record := records[i];
      if runId in record.runs {
        if mode == GenerateMode {
          record.runs := record.runs[runId := record.runs[runId].(exec := None, eval := None)];
        } else {
          record.runs := record.runs[runId := record.runs[runId].(eval := None)];
        }
      }
      i := i + 1;
    }
    assert records[..|records|] == records;
  }

  /** Clearing after a stage is idempotent. */
  lemma ClearedIdempotent(runs: map<string, RunResult>, runId: string, mode: Mode)
    ensures Cleared(Cleared(runs, runId, mode), runId, mode) == Cleared(runs, runId, mode)
  {
  }

  /** After clearing, no record holding the run keeps a stage output downstream of the stage. */
  lemma ClearedDownstream(runs: map<string, RunResult>, runId: string, mode: Mode)
    requires mode != EvaluateMode && runId in Cleared(runs, runId, mode)
    ensures Cleared(runs, runId, mode)[runId].eval.None?
    ensures mode == GenerateMode ==> Cleared(runs, runId, mode)[runId].exec.None?
  {
  }

  /** A schedule with the records' multiset visits every record. */
  lemma ScheduleCovers(records: seq<Record>, order: seq<Record>)
    requires multiset(order) == multiset(records)
    ensures forall r :: r in records ==> r in order
  {
    forall r | r in records
      ensures r in order
    {
      assert r in multiset(records);
    }
  }

  /** The generation stage of `run_single`: when it completes, every record has the run's generation. */
  method GenerateCompleted(runner: PipelineRunner, records: seq<Record>, schemaText: string, order: seq<Record>)
    returns (failure: Option<string>)
    requires runner.Schedules(records, order)
    modifies records
    ensures failure.None? && runner.workers >= 1 && runner.generator.Some? ==>
      forall r :: r in records ==>
        r.runs == AfterGen(Ensured(old(r.runs), runner.runId, runner.lang, runner.model), runner.runId,
                           runner.Generation(schemaText)(r.question))
  {
    failure := runner.Generate(records, schemaText, order);
    if failure.None? && runner.workers >= 1 && runner.generator.Some? {
      var gen := runner.Generation(schemaText);
      assert StopAt(order, gen) == |order|;
      assert order[..|order|] == order;
      ScheduleCovers(records, order);
    }
  }

  /** The generation branch of `run_single`: the stage, then the clearing when it completes. */
  method GenerateThenClear(runner: PipelineRunner, records: seq<Record>, schemaText: string, order: seq<Record>)
    returns (failure: Option<string>)
    requires runner.Schedules(records, order)
    modifies records
    ensures failure.None? && runner.workers >= 1 && runner.generator.Some? ==>
      forall r :: r in records ==>
        r.runs == Cleared(AfterGen(Ensured(old(r.runs), runner.runId, runner.lang, runner.model), runner.runId,
                                   runner.Generation(schemaText)(r.question)), runner.runId, GenerateMode)
    ensures failure.None? ==>
      forall r :: r in records && runner.runId in r.runs ==> r.runs[runner.runId].eval.None? && r.runs[runner.runId].exec.None?
  {
    failure := GenerateCompleted(runner, records, schemaText, order);
    if failure.Some? {
      return;
    }
    label staged:
    ClearDownstream(records, runner.runId, GenerateMode);
    forall r | r in records && runner.runId in r.runs
      ensures r.runs[runner.runId].eval.None? && r.runs[runner.runId].exec.None?
    {
      ClearedDownstream(old@staged(r.runs), runner.runId, GenerateMode);
    }
  }

  /** The execution branch of `run_single`: the stage, then the clearing. */
  method ExecuteThenClear(runner: PipelineRunner, records: seq<Record>, order: seq<Record>)
    returns (failure: Option<string>)
    requires runner.Schedules(Holding(records, runner.runId), order)
    modifies records
    ensures runner.workers >= 1 && runner.executor.Some? ==>
      && failure.None?
      && forall r :: r in records ==>
           r.runs == Cleared(WithExec(old(r.runs), runner.runId,
                                      QueryExecutors.Outcome(runner.executor.value.connector, old(r.runs), runner.runId)),
                             runner.runId, ExecuteMode)
    ensures failure.None? ==>
      forall r :: r in records && runner.runId in r.runs ==> r.runs[runner.runId].eval.None?
  {
    failure := runner.Execute(records, order);
    if failure.Some? {
      return;
    }
    label staged:
    ClearDownstream(records, runner.runId, ExecuteMode);
    forall r | r in records && runner.runId in r.runs
      ensures r.runs[runner.runId].eval.None?
    {
      ClearedDownstream(old@staged(r.runs), runner.runId, ExecuteMode);
    }
  }

  /**
   * `run_single` on loaded records: the stage, then the clearing. When the
   * stage completes, every record holding the run ends with no stage
   * output downstream of the one just run.
   */
  method RunSingle(runner: PipelineRunner, records: seq<Record>, schemaText: string, order: seq<Record>, mode: Mode)
    returns (failure: Option<string>)
    requires mode == GenerateMode ==> runner.Schedules(records, order)
    requires mode != GenerateMode ==> runner.Schedules(Holding(records, runner.runId), order)
    modifies records
    ensures mode == GenerateMode && failure.None? && runner.workers >= 1 && runner.generator.Some? ==>
      forall r :: r in records ==>
        r.runs == Cleared(AfterGen(Ensured(old(r.runs), runner.runId, runner.lang, runner.model), runner.runId,
                                   runner.Generation(schemaText)(r.question)), runner.runId, GenerateMode)
    ensures mode == ExecuteMode && runner.workers >= 1 && runner.executor.Some? ==>
      && failure.None?
      && forall r :: r in records ==>
           r.runs == Cleared(WithExec(old(r.runs), runner.runId,
                                      QueryExecutors.Outcome(runner.executor.value.connector, old(r.runs), runner.runId)),
                             runner.runId, ExecuteMode)
    ensures mode == EvaluateMode && runner.workers >= 1 ==>
      && failure.None?
      && forall r :: r in records ==>
           r.runs == WithEval(old(r.runs), runner.runId, old(Evaluators.Evaluate(r, runner.runId, runner.first)))
    ensures failure.None? && mode != EvaluateMode ==>
      forall r :: r in records && runner.runId in r.runs ==>
        r.runs[runner.runId].eval.None? && (mode == GenerateMode ==> r.runs[runner.runId].exec.None?)
  {
    match mode
    case GenerateMode =>
      failure := GenerateThenClear(runner, records, schemaText, order);
    case ExecuteMode =>
      failure := ExecuteThenClear(runner, records, order);
    case EvaluateMode =>
      failure := runner.Evaluate(records, order);
  }

  /** `[x] if x else everything`: a named subset or split, or all of them. */
  function Selected(choice: Option<string>, all: seq<string>): (s: seq<string>)
    ensures choice.Some? && choice.value != "" ==> s == [choice.value]
    ensures choice.None? || choice.value == "" ==> s == all
  {
    if choice.Some? && choice.value != "" then [choice.value] else all
  }

  /** The (subset, split) pairs the nested loops of `main` visit: subset-major. */
  function Pairs(subsets: seq<string>, splits: seq<string>): (p: seq<(string, string)>)
    decreases |subsets|
  {
    if subsets == [] then []
    else Pairs(subsets[..|subsets| - 1], splits) + seq(|splits|, j requires 0 <= j < |splits| => (subsets[|subsets| - 1], splits[j]))
  }

  /** There is one pair per subset and split. */
  lemma {:induction false} PairsLength(subsets: seq<string>, splits: seq<string>)
    ensures |Pairs(subsets, splits)| == |subsets| * |splits|
    decreases |subsets|
  {
    if subsets != [] {
      var n := |subsets| - 1;
      PairsLength(subsets[..n], splits);
      MulSucc(n, |splits|);
    }
  }

  /** The pair at position `i * |splits| + j` is the i-th subset with the j-th split. */
  lemma {:induction false} PairsAt(subsets: seq<string>, splits: seq<string>, i: nat, j: nat)
    requires i < |subsets| && j < |splits|
    ensures i * |splits| + j < |Pairs(subsets, splits)|
    ensures Pairs(subsets, splits)[i * |splits| + j] == (subsets[i], splits[j])
    decreases |subsets|
  {
    var n := |subsets| - 1;
    var init := subsets[..n];
    PairsLength(init, splits);
    var last := seq(|splits|, k requires 0 <= k < |splits| => (subsets[n], splits[k]));
    assert Pairs(subsets, splits) == Pairs(init, splits) + last;
    if i < n {
      PairsAt(init, splits, i, j);
      MulSucc(i, |splits|);
      MulMonotone(i + 1, n, |splits|);
      assert init[i] == subsets[i];
    } else {
      assert last[j] == (subsets[n], splits[j]);
    }
  }

  /** `(a + 1) * c == a * c + c`. */
  lemma MulSucc(a: nat, c: nat)
    ensures (a + 1) * c == a * c + c
  {
  }

  /** Multiplication by a natural number keeps the order of its left factor. */
  lemma MulMonotone(a: nat, b: nat, c: nat)
    requires a <= b
    ensures a * c <= b * c
  {
  }

  /** Without a subset or split argument, all nine pairs are visited, subset-major. */
  lemma FullPlan()
    ensures Pairs(Selected(None, AllSubsets), Selected(None, AllSplits)) ==
      [("1-hop", "train"), ("1-hop", "dev"), ("1-hop", "test"),
       ("2-hop", "train"), ("2-hop", "dev"), ("2-hop", "test"),
       ("3-hop", "train"), ("3-hop", "dev"), ("3-hop", "test")]
  {
    PairsLength(AllSubsets, AllSplits);
    for i := 0 to 3
      invariant forall k :: 0 <= k < 3 * i ==> Pairs(AllSubsets, AllSplits)[k] == (AllSubsets[k / 3], AllSplits[k % 3])
    {
      PairsAt(AllSubsets, AllSplits, i, 0);
      PairsAt(AllSubsets, AllSplits, i, 1);
      PairsAt(AllSubsets, AllSplits, i, 2);
    }
  }

  /** The nested loops of `main`, listing the (subset, split) pairs in the order `run_single` is called on them. */
  method Plan(subset: Option<string>, split: Option<string>) returns (pairs: seq<(string, string)>)
    ensures pairs == Pairs(Selected(subset, AllSubsets), Selected(split, AllSplits))
  {
    var subsets := Selected(subset, AllSubsets);
    var splits := Selected(split, AllSplits);
    pairs := [];
    var i := 0;
    while i < |subsets|
      invariant 0 <= i <= |subsets|
      invariant pairs == Pairs(subsets[..i], splits)
    {
      var j := 0;
      ghost var before := pairs;
      while j < |splits|
        invariant 0 <= j <= |splits|
        invariant pairs == before + seq(j, k requires 0 <= k < j => (subsets[i], splits[k]))
      {
        pairs := pairs + [(subsets[i], splits[j])];
        j := j + 1;
      }
      assert subsets[..i + 1][..i] == subsets[..i];
      i := i + 1;
    }
    assert subsets[..|subsets|] == subsets;
  }
}
