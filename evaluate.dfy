/**
 * `EvaluatePipeline` (src/nl2graph/pipeline/evaluate.py): scores every
 * record whose row holds an execution and saves the scores with
 * `save_evaluation`. There is no worker pool: the loop is sequential.
 */
module EvaluateStage {
  import opened Wrappers
  import opened DataEntity
  import opened Repository
  import opened Batch
  import Scoring

  /** `has_exec`'s test: the row exists and holds an execution. */
  predicate Executed(o: Option<Stages>) {
    o.Some? && o.value.exec.Some?
  }

  /** The skip test: the row exists and has no `eval` (an all-None evaluation counts as present). */
  predicate NotEvaluated(o: Option<Stages>) {
    o.Some? && o.value.eval.None?
  }

  /** `pending`: the records with an executed row, under skip only those not yet evaluated. */
  function EvalPending(rows: Rows, cfg: RunConfig, records: seq<Record>, ifExists: IfExists): seq<Record>
  {
    var hasExec := Where(rows, cfg, records, Executed);
    match ifExists
    case Skip => Where(rows, cfg, hasExec, NotEvaluated)
    case Override => hasExec
  }

  /** One record's step: score the record against its current row, then `save_evaluation`. */
  function EvalWrite(cfg: RunConfig): Update
  {
    (x: Record, prior: Option<Stages>) =>
      var s := Current(prior);
      s.(eval := Some(Scoring.Evaluate(x, ResultOf(KeyOf(x.id, cfg), s))))
  }

  /** `run`: the rows after the stage. */
  function EvaluateRun(rows: Rows, cfg: RunConfig, records: seq<Record>, ifExists: IfExists): Rows
  {
    var pending := EvalPending(rows, cfg, records, ifExists);
    if pending == [] then rows
    else Apply(rows, cfg, pending, EvalWrite(cfg))
  }

  /** A record is pending exactly when its row holds an execution, and under skip no evaluation. */
  lemma EvalPendingMembership(rows: Rows, cfg: RunConfig, records: seq<Record>, ifExists: IfExists, x: Record)
    ensures x in EvalPending(rows, cfg, records, ifExists) <==>
      x in records && KeyOf(x.id, cfg) in rows && rows[KeyOf(x.id, cfg)].exec.Some?
      && (ifExists == Skip ==> rows[KeyOf(x.id, cfg)].eval.None?)
  {
    var hasExec := Where(rows, cfg, records, Executed);
    WhereMembership(rows, cfg, records, Executed, x);
    WhereMembership(rows, cfg, hasExec, NotEvaluated, x);
  }

  /** The evaluation loop changes no row's `gen` or `exec`, and removes no row. */
  lemma {:induction false} EvalLoopKeepsUpstream(rows: Rows, cfg: RunConfig, xs: seq<Record>)
    ensures forall k :: k in rows ==> (k in Apply(rows, cfg, xs, EvalWrite(cfg))
      && Apply(rows, cfg, xs, EvalWrite(cfg))[k].gen == rows[k].gen
      && Apply(rows, cfg, xs, EvalWrite(cfg))[k].exec == rows[k].exec)
    decreases |xs|
  {
    if xs != [] {
      var k := KeyOf(xs[0].id, cfg);
      EvalLoopKeepsUpstream(rows[k := EvalWrite(cfg)(xs[0], Lookup(rows, k))], cfg, xs[1..]);
    }
  }

  /**
   * The stage writes only `eval`: it creates no row, keeps every row's
   * `gen` and `exec`, leaves rows outside the pending set alone (rows
   * without an execution always, and under skip rows already evaluated).
   */
  lemma EvaluateFrame(rows: Rows, cfg: RunConfig, records: seq<Record>, ifExists: IfExists)
    ensures var r := EvaluateRun(rows, cfg, records, ifExists);
      && r.Keys == rows.Keys
      && (forall k :: k in rows ==> r[k].gen == rows[k].gen && r[k].exec == rows[k].exec)
      && (forall k :: k in rows && k !in KeysOf(EvalPending(rows, cfg, records, ifExists), cfg) ==> r[k] == rows[k])
      && (forall k :: k in rows && rows[k].exec.None? ==> r[k] == rows[k])
      && (ifExists == Skip ==> forall k :: k in rows && rows[k].eval.Some? ==> r[k] == rows[k])
  {
    var pending := EvalPending(rows, cfg, records, ifExists);
    assert KeysOf(pending, cfg) <= rows.Keys by {
      forall x | x in pending
        ensures KeyOf(x.id, cfg) in rows
      {
        EvalPendingMembership(rows, cfg, records, ifExists, x);
      }
    }
    ApplyFrame(rows, cfg, pending, EvalWrite(cfg));
    EvalLoopKeepsUpstream(rows, cfg, pending);
    forall k | k in rows && (rows[k].exec.None? || (ifExists == Skip && rows[k].eval.Some?))
      ensures k !in KeysOf(pending, cfg)
    {
      forall x | x in pending
        ensures KeyOf(x.id, cfg) != k
      {
        EvalPendingMembership(rows, cfg, records, ifExists, x);
      }
    }
  }

  /** With distinct ids, each pending record's `eval` is the score of the record against its row as it was before the stage. */
  lemma EvaluateWrites(rows: Rows, cfg: RunConfig, records: seq<Record>, ifExists: IfExists)
    requires DistinctIds(records)
    ensures var r := EvaluateRun(rows, cfg, records, ifExists);
      forall x :: x in EvalPending(rows, cfg, records, ifExists) ==>
        var k := KeyOf(x.id, cfg);
        && k in rows && k in r
        && r[k] == rows[k].(eval := Some(Scoring.Evaluate(x, ResultOf(k, rows[k]))))
  {
    var pending := EvalPending(rows, cfg, records, ifExists);
    WhereDistinct(rows, cfg, records, Executed);
    WhereDistinct(rows, cfg, Where(rows, cfg, records, Executed), NotEvaluated);
    ApplyClosedForm(rows, cfg, pending, EvalWrite(cfg));
    forall x | x in pending
      ensures KeyOf(x.id, cfg) in rows
    {
      EvalPendingMembership(rows, cfg, records, ifExists, x);
    }
  }

  /** `has_exec`: the records whose row exists in `dst` and holds an execution. */
  method WithExec(dst: ResultRepository, cfg: RunConfig, records: seq<Record>) returns (hasExec: seq<Record>)
    ensures hasExec == Where(dst.rows, cfg, records, Executed)
  {
    ghost var rows := dst.rows;
    hasExec := [];
    var i := 0;
    while i < |records|
      invariant 0 <= i <= |records|
      invariant hasExec + Where(rows, cfg, records[i..], Executed) == Where(rows, cfg, records, Executed)
    {
      var present := dst.Exists(records[i].id, cfg);
      var executed := false;
      if present {
        var result := dst.Get(records[i].id, cfg);
        executed := result.value.exec.Some?;
      }
      assert executed == Executed(Lookup(rows, KeyOf(records[i].id, cfg)));
      var piece := if executed then [records[i]] else [];
      WhereStep(rows, cfg, records, Executed, i, hasExec, piece);
      hasExec := hasExec + piece;
      i := i + 1;
    }
  }

  /** The skip pass: the records whose row has no `eval` yet. */
  method Unevaluated(dst: ResultRepository, cfg: RunConfig, hasExec: seq<Record>) returns (pending: seq<Record>)
    ensures pending == Where(dst.rows, cfg, hasExec, NotEvaluated)
  {
    ghost var rows := dst.rows;
    pending := [];
    var i := 0;
    while i < |hasExec|
      invariant 0 <= i <= |hasExec|
      invariant pending + Where(rows, cfg, hasExec[i..], NotEvaluated) == Where(rows, cfg, hasExec, NotEvaluated)
    {
      var result := dst.Get(hasExec[i].id, cfg);
      var unevaluated := result.Some? && result.value.eval.None?;
      assert unevaluated == NotEvaluated(Lookup(rows, KeyOf(hasExec[i].id, cfg)));
      var piece := if unevaluated then [hasExec[i]] else [];
      WhereStep(rows, cfg, hasExec, NotEvaluated, i, pending, piece);
      pending := pending + piece;
      i := i + 1;
    }
  }

  /** The pending list of an evaluate stage over `dst`. */
  method CollectPending(dst: ResultRepository, cfg: RunConfig, records: seq<Record>, ifExists: IfExists)
    returns (pending: seq<Record>)
    ensures pending == EvalPending(dst.rows, cfg, records, ifExists)
  {
    var hasExec := WithExec(dst, cfg, records);
    if ifExists == Override {
      return hasExec;
    }
    pending := Unevaluated(dst, cfg, hasExec);
  }

  /** The scoring loop: each pending record is scored against its current row and saved with `save_evaluation`. */
  method EvaluateAll(dst: ResultRepository, cfg: RunConfig, pending: seq<Record>)
    requires forall x :: x in pending ==> KeyOf(x.id, cfg) in dst.rows
    modifies dst
    ensures dst.rows == Apply(old(dst.rows), cfg, pending, EvalWrite(cfg))
  {
    ghost var start := dst.rows;
    var i := 0;
    while i < |pending|
      invariant 0 <= i <= |pending|
      invariant start.Keys <= dst.rows.Keys
      invariant Apply(dst.rows, cfg, pending[i..], EvalWrite(cfg)) == Apply(start, cfg, pending, EvalWrite(cfg))
    {
      assert pending[i..][1..] == pending[i + 1..];
      assert pending[i] in pending;
      var result := dst.Get(pending[i].id, cfg);
      var v := Scoring.Evaluate(pending[i], result.value);
      dst.SaveEvaluation(pending[i].id, cfg, v);
      i := i + 1;
    }
  }

  /** The pending records all name existing rows. */
  lemma PendingKeysExist(rows: Rows, cfg: RunConfig, records: seq<Record>, ifExists: IfExists)
    ensures forall x :: x in EvalPending(rows, cfg, records, ifExists) ==> KeyOf(x.id, cfg) in rows
  {
    forall x | x in EvalPending(rows, cfg, records, ifExists)
      ensures KeyOf(x.id, cfg) in rows
    {
      EvalPendingMembership(rows, cfg, records, ifExists, x);
    }
  }

  /** `EvaluatePipeline`: the result store and the run's configuration; the scorer is the default `Scoring`, `Scoring.Evaluate`. */
  class EvaluatePipeline {
    const dst: ResultRepository
    const cfg: RunConfig
    const ifExists: IfExists

    constructor (dst: ResultRepository, approach: Method, lang: string, model: string, ifExists: IfExists)
      ensures this.dst == dst && cfg == RunConfig(approach, lang, model) && this.ifExists == ifExists
    {
      this.dst := dst;
      this.cfg := RunConfig(approach, lang, model);
      this.ifExists := ifExists;
    }

    /** `run`: returns the input list; the store ends as `EvaluateRun` says. */
    method Run(records: seq<Record>) returns (out: seq<Record>)
      modifies dst
      ensures out == records
      ensures dst.rows == EvaluateRun(old(dst.rows), cfg, records, ifExists)
    {
      out := records;
      var pending := CollectPending(dst, cfg, records, ifExists);
      if pending == [] {
        return;
      }
      PendingKeysExist(dst.rows, cfg, records, ifExists);
      EvaluateAll(dst, cfg, pending);
    }
  }
}
