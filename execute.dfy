/**
 * `ExecutePipeline` (src/nl2graph/pipeline/execute.py): runs the stored
 * query of every record that already has a row, and saves the outcome with
 * `save_execution`, which clears `eval`. `Execution.execute` catches the
 * connector's exceptions itself, so this stage has no error exit.
 */
module ExecuteStage {
  import opened Wrappers
  import opened DataEntity
  import opened Repository
  import opened Batch
  import opened Execution

  /** `has_gen`'s test: the row exists (whatever its `gen` holds). */
  predicate HasRow(o: Option<Stages>) {
    o.Some?
  }

  /** The skip test: the row exists and has not been executed. */
  predicate NotExecuted(o: Option<Stages>) {
    o.Some? && o.value.exec.None?
  }

  /** `pending`: the records with a row, under skip only those whose `exec` is still empty. */
  function ExecPending(rows: Rows, cfg: RunConfig, records: seq<Record>, ifExists: IfExists): seq<Record>
  {
    var hasGen := Where(rows, cfg, records, HasRow);
    match ifExists
    case Skip => Where(rows, cfg, hasGen, NotExecuted)
    case Override => hasGen
  }

  /** One record's step: execute its current row, then `save_execution`. */
  function ExecWrite(connector: Connector, cfg: RunConfig): Update
  {
    (x: Record, prior: Option<Stages>) =>
      var s := Current(prior);
      s.(exec := Some(Outcome(connector, ResultOf(KeyOf(x.id, cfg), s))), eval := None)
  }

  /** `run`: the rows after the stage. */
  function ExecuteRun(rows: Rows, cfg: RunConfig, records: seq<Record>, connector: Connector, ifExists: IfExists,
                      workers: int, schedule: Schedule): Rows
  {
    var pending := ExecPending(rows, cfg, records, ifExists);
    if pending == [] then rows
    else Apply(rows, cfg, Order(pending, workers, schedule), ExecWrite(connector, cfg))
  }

  /** A record is pending exactly when it has a row, and under skip an unexecuted one. */
  lemma ExecPendingMembership(rows: Rows, cfg: RunConfig, records: seq<Record>, ifExists: IfExists, x: Record)
    ensures x in ExecPending(rows, cfg, records, ifExists) <==>
      x in records && KeyOf(x.id, cfg) in rows && (ifExists == Skip ==> rows[KeyOf(x.id, cfg)].exec.None?)
  {
    var hasGen := Where(rows, cfg, records, HasRow);
    WhereMembership(rows, cfg, records, HasRow, x);
    WhereMembership(rows, cfg, hasGen, NotExecuted, x);
  }

  lemma ExecPendingDistinct(rows: Rows, cfg: RunConfig, records: seq<Record>, ifExists: IfExists)
    requires DistinctIds(records)
    ensures DistinctIds(ExecPending(rows, cfg, records, ifExists))
  {
    WhereDistinct(rows, cfg, records, HasRow);
    WhereDistinct(rows, cfg, Where(rows, cfg, records, HasRow), NotExecuted);
  }

  /** The keys of the pending records all name existing rows. */
  lemma PendingKeysExist(rows: Rows, cfg: RunConfig, records: seq<Record>, ifExists: IfExists)
    ensures KeysOf(ExecPending(rows, cfg, records, ifExists), cfg) <= rows.Keys
  {
    forall x | x in ExecPending(rows, cfg, records, ifExists)
      ensures KeyOf(x.id, cfg) in rows
    {
      ExecPendingMembership(rows, cfg, records, ifExists, x);
    }
  }

  /**
   * The stage creates no row (a record without one is never executed), and
   * every row outside the pending set, in particular under skip every row
   * already executed, keeps its contents.
   */
  lemma ExecuteFrame(rows: Rows, cfg: RunConfig, records: seq<Record>, connector: Connector, ifExists: IfExists,
                     workers: int, schedule: Schedule)
    requires ValidSchedule(schedule)
    ensures var r := ExecuteRun(rows, cfg, records, connector, ifExists, workers, schedule);
      var pending := ExecPending(rows, cfg, records, ifExists);
      && r.Keys == rows.Keys
      && (forall k :: k in rows && k !in KeysOf(pending, cfg) ==> r[k] == rows[k])
      && (ifExists == Skip ==> forall k :: k in rows && rows[k].exec.Some? ==> r[k] == rows[k])
  {
    var pending := ExecPending(rows, cfg, records, ifExists);
    var order := Order(pending, workers, schedule);
    assert multiset(order) == multiset(pending);
    KeysOfSameElements(order, pending, cfg);
    PendingKeysExist(rows, cfg, records, ifExists);
    ApplyFrame(rows, cfg, order, ExecWrite(connector, cfg));
    if ifExists == Skip {
      forall k | k in rows && rows[k].exec.Some?
        ensures k !in KeysOf(pending, cfg)
      {
        forall x | x in pending
          ensures KeyOf(x.id, cfg) != k
        {
          ExecPendingMembership(rows, cfg, records, ifExists, x);
        }
      }
    }
  }

  /**
   * With distinct ids, each pending record's row keeps its `gen`, gets the
   * outcome of executing the row as it was before the stage, and loses its `eval`.
   */
  lemma ExecuteWrites(rows: Rows, cfg: RunConfig, records: seq<Record>, connector: Connector, ifExists: IfExists,
                      workers: int, schedule: Schedule)
    requires ValidSchedule(schedule) && DistinctIds(records)
    ensures var r := ExecuteRun(rows, cfg, records, connector, ifExists, workers, schedule);
      forall x :: x in ExecPending(rows, cfg, records, ifExists) ==>
        var k := KeyOf(x.id, cfg);
        && k in rows && k in r
        && r[k] == Stages(rows[k].gen, Some(Outcome(connector, ResultOf(k, rows[k]))), None)
  {
    var pending := ExecPending(rows, cfg, records, ifExists);
    var order := Order(pending, workers, schedule);
    ExecPendingDistinct(rows, cfg, records, ifExists);
    PendingKeysExist(rows, cfg, records, ifExists);
    assert multiset(order) == multiset(pending);
    assert forall x :: x in order <==> x in pending by {
      forall x
        ensures x in order <==> x in pending
      {
        assert x in order <==> x in multiset(order);
      }
    }
    ApplyPermutation(rows, cfg, pending, order, ExecWrite(connector, cfg));
    ApplyClosedForm(rows, cfg, pending, ExecWrite(connector, cfg));
    forall x | x in pending
      ensures KeyOf(x.id, cfg) in rows
    {
      assert KeyOf(x.id, cfg) in KeysOf(pending, cfg);
    }
  }

  /** The gate is the row's existence: a pending row without `gen` is passed to the executor and fails with "no query to execute". */
  lemma GenlessRowFails(rows: Rows, cfg: RunConfig, records: seq<Record>, connector: Connector, ifExists: IfExists,
                        workers: int, schedule: Schedule, x: Record)
    requires ValidSchedule(schedule) && DistinctIds(records)
    requires x in records && KeyOf(x.id, cfg) in rows && rows[KeyOf(x.id, cfg)].gen.None?
    requires ifExists == Override || rows[KeyOf(x.id, cfg)].exec.None?
    ensures var r := ExecuteRun(rows, cfg, records, connector, ifExists, workers, schedule);
      KeyOf(x.id, cfg) in r && r[KeyOf(x.id, cfg)].exec == Some(ExecutionResult(None, false, Some(NoQuery)))
  {
    ExecPendingMembership(rows, cfg, records, ifExists, x);
    ExecuteWrites(rows, cfg, records, connector, ifExists, workers, schedule);
  }

  /** With distinct ids the worker-pool branch leaves the same rows as the sequential loop. */
  lemma ParallelMatchesSequential(rows: Rows, cfg: RunConfig, records: seq<Record>, connector: Connector, ifExists: IfExists,
                                  workers: int, schedule: Schedule)
    requires ValidSchedule(schedule) && DistinctIds(records)
    ensures ExecuteRun(rows, cfg, records, connector, ifExists, workers, schedule)
         == ExecuteRun(rows, cfg, records, connector, ifExists, 1, schedule)
  {
    var pending := ExecPending(rows, cfg, records, ifExists);
    ExecPendingDistinct(rows, cfg, records, ifExists);
    assert multiset(Order(pending, workers, schedule)) == multiset(pending);
    ApplyPermutation(rows, cfg, pending, Order(pending, workers, schedule), ExecWrite(connector, cfg));
  }

  /** One iteration of the loop is one `Apply` step, provided the record's row exists. */
  lemma ExecStep(rows: Rows, cfg: RunConfig, connector: Connector, x: Record)
    requires KeyOf(x.id, cfg) in rows
    ensures SaveExec(rows, KeyOf(x.id, cfg), Outcome(connector, ResultOf(KeyOf(x.id, cfg), rows[KeyOf(x.id, cfg)])))
         == rows[KeyOf(x.id, cfg) := ExecWrite(connector, cfg)(x, Lookup(rows, KeyOf(x.id, cfg)))]
  {
  }

  /** `has_gen`: the records whose row exists in `dst`. */
  method WithRow(dst: ResultRepository, cfg: RunConfig, records: seq<Record>) returns (hasGen: seq<Record>)
    ensures hasGen == Where(dst.rows, cfg, records, HasRow)
  {
    hasGen := [];
    var i := 0;
    while i < |records|
      invariant 0 <= i <= |records|
      invariant hasGen + Where(dst.rows, cfg, records[i..], HasRow) == Where(dst.rows, cfg, records, HasRow)
    {
      var present := dst.Exists(records[i].id, cfg);
      var piece := if present then [records[i]] else [];
      WhereStep(dst.rows, cfg, records, HasRow, i, hasGen, piece);
      hasGen := hasGen + piece;
      i := i + 1;
    }
  }

  /** The skip pass: the records whose row has no `exec` yet. */
  method Unexecuted(dst: ResultRepository, cfg: RunConfig, hasGen: seq<Record>) returns (pending: seq<Record>)
    ensures pending == Where(dst.rows, cfg, hasGen, NotExecuted)
  {
    ghost var rows := dst.rows;
    pending := [];
    var i := 0;
    while i < |hasGen|
      invariant 0 <= i <= |hasGen|
      invariant pending + Where(rows, cfg, hasGen[i..], NotExecuted) == Where(rows, cfg, hasGen, NotExecuted)
    {
      var result := dst.Get(hasGen[i].id, cfg);
      var unexecuted := result.Some? && result.value.exec.None?;
      assert unexecuted == NotExecuted(Lookup(rows, KeyOf(hasGen[i].id, cfg)));
      var piece := if unexecuted then [hasGen[i]] else [];
      WhereStep(rows, cfg, hasGen, NotExecuted, i, pending, piece);
      pending := pending + piece;
      i := i + 1;
    }
  }

  /** The pending list of an execute stage over `dst`. */
  method CollectPending(dst: ResultRepository, cfg: RunConfig, records: seq<Record>, ifExists: IfExists)
    returns (pending: seq<Record>)
    ensures pending == ExecPending(dst.rows, cfg, records, ifExists)
  {
    var hasGen := WithRow(dst, cfg, records);
    if ifExists == Override {
      return hasGen;
    }
    pending := Unexecuted(dst, cfg, hasGen);
  }

  /**
   * The execution loop over the pending records in the order given:
   * each record's current row is executed and saved with `save_execution`.
   */
  method ExecuteAll(dst: ResultRepository, cfg: RunConfig, execution: Execution, order: seq<Record>)
    requires forall x :: x in order ==> KeyOf(x.id, cfg) in dst.rows
    modifies dst
    ensures dst.rows == Apply(old(dst.rows), cfg, order, ExecWrite(execution.connector, cfg))
  {
    ghost var start := dst.rows;
    var i := 0;
    while i < |order|
      invariant 0 <= i <= |order|
      invariant start.Keys <= dst.rows.Keys
      invariant Apply(dst.rows, cfg, order[i..], ExecWrite(execution.connector, cfg))
             == Apply(start, cfg, order, ExecWrite(execution.connector, cfg))
    {
      assert order[i..][1..] == order[i + 1..];
      assert order[i] in order;
      var result := dst.Get(order[i].id, cfg);
      var e := execution.Execute(result.value);
      ExecStep(dst.rows, cfg, execution.connector, order[i]);
      dst.SaveExecution(order[i].id, cfg, e);
      i := i + 1;
    }
  }

  /** The pending records, in the order the loop or the futures deliver them, all name existing rows. */
  lemma OrderKeysExist(rows: Rows, cfg: RunConfig, records: seq<Record>, ifExists: IfExists,
                       workers: int, schedule: Schedule)
    requires ValidSchedule(schedule)
    ensures forall x :: x in Order(ExecPending(rows, cfg, records, ifExists), workers, schedule) ==> KeyOf(x.id, cfg) in rows
  {
    var pending := ExecPending(rows, cfg, records, ifExists);
    var order := Order(pending, workers, schedule);
    PendingKeysExist(rows, cfg, records, ifExists);
    assert multiset(order) == multiset(pending);
    forall x | x in order
      ensures KeyOf(x.id, cfg) in rows
    {
      assert x in multiset(order);
      assert KeyOf(x.id, cfg) in KeysOf(pending, cfg);
    }
  }

  /** `ExecutePipeline`: the executor, the result store and the run's configuration. */
  class ExecutePipeline {
    const execution: Execution
    const dst: ResultRepository
    const cfg: RunConfig
    const workers: int
    const ifExists: IfExists

    constructor (execution: Execution, dst: ResultRepository, approach: Method, lang: string, model: string,
                 workers: int, ifExists: IfExists)
      ensures this.execution == execution && this.dst == dst && cfg == RunConfig(approach, lang, model)
      ensures this.workers == workers && this.ifExists == ifExists
    {
      this.execution := execution;
      this.dst := dst;
      this.cfg := RunConfig(approach, lang, model);
      this.workers := workers;
      this.ifExists := ifExists;
    }

    /** `run`: returns the input list; the store ends as `ExecuteRun` says. */
    method Run(records: seq<Record>, schedule: Schedule) returns (out: seq<Record>)
      requires ValidSchedule(schedule)
      modifies dst
      ensures out == records
      ensures dst.rows == ExecuteRun(old(dst.rows), cfg, records, execution.connector, ifExists, workers, schedule)
    {
      out := records;
      var pending := CollectPending(dst, cfg, records, ifExists);
      if pending == [] {
        return;
      }
      OrderKeysExist(dst.rows, cfg, records, ifExists, workers, schedule);
      var order := Order(pending, workers, schedule);
      ExecuteAll(dst, cfg, execution, order);
    }
  }
}
