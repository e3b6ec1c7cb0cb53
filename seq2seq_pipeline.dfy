/**
 * `Seq2SeqPipeline` (src/nl2graph/seq2seq/pipeline.py): one batch
 * generation call for all questions, predictions paired with records by
 * position, then sequential execution and scoring of the records holding
 * the run. The generator's `generate_batch` and the execution are
 * collaborators passed in (`None` when absent).
 */
module Seq2SeqPipeline {
  import opened Wrappers
  import DataEntity
  import opened RunEntity
  import RunScoring
  import opened RunStages
  import opened Translation

  const NoGenerateBatch := "'NoneType' object has no attribute 'generate_batch'"
  const NoExecution := "'NoneType' object has no attribute 'execute'"

  /** `generate_batch`: the predictions the model decodes for the questions, or the message of the exception it raises. */
  type BatchGeneration = seq<string> -> Result<seq<string>, string>

  /** `[r.question for r in records]`. */
  function Questions(records: seq<Record>): (qs: seq<string>)
    ensures |qs| == |records|
    ensures forall i :: 0 <= i < |records| ==> qs[i] == records[i].question
  {
    seq(|records|, i requires 0 <= i < |records| => records[i].question)
  }

  /** The last position of `r` in `xs`, -1 when it does not occur. */
  function LastIndex(xs: seq<Record>, r: Record): (i: int)
    ensures -1 <= i < |xs|
    ensures i == -1 <==> r !in xs
    ensures i >= 0 ==> xs[i] == r && forall j :: i < j < |xs| ==> xs[j] != r
    decreases |xs|
  {
    if xs == [] then -1
    else if xs[|xs| - 1] == r then |xs| - 1
    else LastIndex(xs[..|xs| - 1], r)
  }

  /** Appending a record makes it its own last position and leaves every other record's. */
  lemma LastIndexSnoc(xs: seq<Record>, x: Record, r: Record)
    ensures LastIndex(xs + [x], r) == if x == r then |xs| else LastIndex(xs, r)
  {
    assert (xs + [x])[..|xs|] == xs;
  }

  /** The smaller of two lengths: `zip` stops at the shorter list. */
  function Min(a: nat, b: nat): (m: nat)
    ensures m <= a && m <= b && (m == a || m == b)
  {
    if a <= b then a else b
  }

  /** Among distinct records, each paired record's last position is its own. */
  lemma DistinctRecordsPairByPosition(records: seq<Record>, n: nat)
    requires n <= |records|
    requires forall i, j :: 0 <= i < j < |records| ==> records[i] != records[j]
    ensures forall i :: 0 <= i < n ==> LastIndex(records[..n], records[i]) == i
  {
    forall i | 0 <= i < n
      ensures LastIndex(records[..n], records[i]) == i
    {
      assert records[..n][i] == records[i];
      var k := LastIndex(records[..n], records[i]);
      assert records[..n][k] == records[k];
    }
  }

  /** A record's runs after the `zip` loop paired it last at position `j` (never, when `j` is -1). */
  function Zipped(runs: map<string, RunResult>, runId: string, gens: seq<RunGeneration>, j: int): (m: map<string, RunResult>)
    requires j < |gens|
    ensures runId in runs ==> runId in m
  {
    if j < 0 then runs else WithGen(runs, runId, gens[j])
  }

  /** The `zip` loop, with the generations already built from the predictions. */
  method ZipGenerations(records: seq<Record>, runId: string, gens: seq<RunGeneration>)
    requires forall r :: r in records ==> runId in r.runs
    modifies records
    ensures var paired := records[..Min(|records|, |gens|)];
      forall r :: r in records ==>
        r.runs == if r in paired then WithGen(old(r.runs), runId, gens[LastIndex(paired, r)]) else old(r.runs)
  {
    var n := Min(|records|, |gens|);
    var i := 0;
    while i < n
      invariant 0 <= i <= n
      invariant forall r :: r in records ==> r.runs == Zipped(old(r.runs), runId, gens, LastIndex(records[..i], r))
    {
      assert records[..i + 1] == records[..i] + [records[i]];
      forall r | r in records
        ensures LastIndex(records[..i + 1], r) == if records[i] == r then i else LastIndex(records[..i], r)
      {
        LastIndexSnoc(records[..i], records[i], r);
      }
      var record := records[i];
      StoreGen(record, runId, gens[i]);
      i := i + 1;
    }
  }

  class Seq2SeqPipeline {
    const generation: Option<BatchGeneration>
    const execution: Option<RunExecution>
    const lang: string
    const model: string
    const irMode: Option<string>
    const irTranslator: Option<Translator>
    const runId: string

    /** `ir_mode` defaults to None. */
    constructor (generation: Option<BatchGeneration>, execution: Option<RunExecution>, lang: string, model: string,
                 irMode: Option<string>, irTranslator: Option<Translator>)
      ensures this.generation == generation && this.execution == execution
      ensures this.lang == lang && this.model == model
      ensures this.irMode == irMode && this.irTranslator == irTranslator
      ensures runId == RunId(lang, model)
    {
      this.generation := generation;
      this.execution := execution;
      this.lang := lang;
      this.model := model;
      this.irMode := irMode;
      this.irTranslator := irTranslator;
      this.runId := RunId(lang, model);
    }

    /** `ir_mode` is truthy: set and not the empty string. */
    predicate IrOn()
    {
      irMode.Some? && irMode.value != ""
    }

    /** `_translate_ir`: the translation when a translator is set and `ir_mode` is on, the input itself otherwise. */
    function TranslateIr(ir: string): (q: string)
      ensures irTranslator.None? || !IrOn() ==> q == ir
      ensures irTranslator.Some? && IrOn() ==> q == Translation.TranslateIr(irTranslator.value, lang, ir)
      ensures lang !in {"cypher", "sparql", "kopl"} ==> q == ir
    {
      if irTranslator.None? || !IrOn() then ir else Translation.TranslateIr(irTranslator.value, lang, ir)
    }

    /** The `GenerationResult` built from one prediction. */
    function Made(pred: string): (g: RunGeneration)
      ensures g.queryRaw == Some(pred)
      ensures IrOn() ==> g.ir == Some(pred) && g.query == Some(TranslateIr(pred))
      ensures !IrOn() ==> g.ir == None && g.query == Some(pred)
    {
      RunGeneration(Some(pred), Some(if IrOn() then TranslateIr(pred) else pred), if IrOn() then Some(pred) else None)
    }

    /**
     * `generate`: every record gets a "seq2seq" run; `generate_batch` is
     * called once with all the questions in record order; the `zip` loop
     * then writes the generation of the i-th prediction into the i-th
     * record, so a record listed twice keeps its last pairing and records
     * beyond the predictions keep their `gen`. An exception from
     * `generate_batch` propagates with the new runs already in place.
     */
    method Generate(records: seq<Record>) returns (failure: Option<string>)
      modifies records
      ensures generation.None? ==>
        && failure == Some(NoGenerateBatch)
        && forall r :: r in records ==> r.runs == Ensured(old(r.runs), runId, DataEntity.Seq2Seq, lang, model)
      ensures generation.Some? && generation.value(Questions(records)).Err? ==>
        && failure == Some(generation.value(Questions(records)).error)
        && forall r :: r in records ==> r.runs == Ensured(old(r.runs), runId, DataEntity.Seq2Seq, lang, model)
      ensures generation.Some? && generation.value(Questions(records)).Ok? ==>
        var preds := generation.value(Questions(records)).value;
        var paired := records[..Min(|records|, |preds|)];
        && failure == None
        && forall r :: r in records ==>
             var ensured := Ensured(old(r.runs), runId, DataEntity.Seq2Seq, lang, model);
             r.runs == if r in paired then WithGen(ensured, runId, Made(preds[LastIndex(paired, r)])) else ensured
    {
      EnsureRuns(records, runId, DataEntity.Seq2Seq, lang, model);
      if generation.None? {
        return Some(NoGenerateBatch);
      }
      var questions := QuestionsOf(records);
      var preds := generation.value(questions);
      if preds.Err? {
        return Some(preds.error);
      }
      SavePredictions(records, preds.value);
      failure := None;
    }

    /** The list comprehension of the questions. */
    method QuestionsOf(records: seq<Record>) returns (qs: seq<string>)
      ensures qs == Questions(records)
    {
      qs := [];
      var i := 0;
      while i < |records|
        invariant 0 <= i <= |records|
        invariant |qs| == i && forall j :: 0 <= j < i ==> qs[j] == records[j].question
      {
        qs := qs + [records[i].question];
        i := i + 1;
      }
    }

    /** The `zip` loop over records that all hold the run. */
    method SavePredictions(records: seq<Record>, preds: seq<string>)
      requires forall r :: r in records ==> runId in r.runs
      modifies records
      ensures var paired := records[..Min(|records|, |preds|)];
        forall r :: r in records ==>
          r.runs == if r in paired then WithGen(old(r.runs), runId, Made(preds[LastIndex(paired, r)])) else old(r.runs)
    {
      var gens := seq(|preds|, i requires 0 <= i < |preds| => Made(preds[i]));
      ZipGenerations(records, runId, gens);
    }

    /** `execute`: sequential; each record holding the run gets the execution of its current generation as `exec`. */
    method Execute(records: seq<Record>) returns (failure: Option<string>)
      modifies records
      ensures execution.None? ==>
        && failure == (if old(Holding(records, runId)) == [] then None else Some(NoExecution))
        && forall r :: r in records ==> r.runs == old(r.runs)
      ensures execution.Some? ==>
        && failure == None
        && forall r :: r in records ==> r.runs == WithExec(old(r.runs), runId, execution.value(GenOf(old(r.runs), runId)))
    {
      var valid := CollectHolding(records, runId);
      if valid == [] {
        return None;
      }
      if execution.None? {
        return Some(NoExecution);
      }
      ExecuteAll(records, runId, execution.value, valid);
      failure := None;
    }

    /** `evaluate`: sequential; each record holding the run gets its scores as `eval`. */
    method Evaluate(records: seq<Record>)
      modifies records
      ensures forall r :: r in records ==> r.runs == WithEval(old(r.runs), runId, old(RunScoring.EvaluateRecord(r, runId)))
    {
      EvaluateAll(records, runId);
    }
  }
}
