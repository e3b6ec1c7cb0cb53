/**
 * `GeneratePipeline` (src/nl2graph/pipeline/generate.py): picks the pending
 * records under the skip/override policy, asks the generator for each
 * record's query and saves it with `save_generation`. A generator error is
 * an exception that leaves the loop: the rows saved before it stay saved.
 */
module GenerateStage {
  import opened Wrappers
  import opened DataEntity
  import opened Repository
  import opened Batch

  /** `generator.generate(question, schema)` with the run's schema fixed; `Err` is a raised exception. */
  type Generator = string -> Wrappers.Result<GenerationOutput, string>

  /** One record's generation step: the result to save, or the error that stops the run. */
  type GenStep = Record -> Wrappers.Result<GenerationResult, string>

  /** The value saved for a record whose step succeeds. */
  function Generated(step: GenStep, x: Record): GenerationResult
  {
    if step(x).Ok? then step(x).value else EmptyGeneration
  }

  /** A successful step rewrites the whole row, as `save_generation` does. */
  function GenWrite(step: GenStep): Update
  {
    (x: Record, prior: Option<Stages>) => Stages(Some(Generated(step, x)), None, None)
  }

  predicate AllOk(xs: seq<Record>, step: GenStep) {
    forall x :: x in xs ==> step(x).Ok?
  }

  /** The generation loop: save record after record until a step fails. */
  function GenFold(rows: Rows, cfg: RunConfig, xs: seq<Record>, step: GenStep): (Rows, Option<string>)
    decreases |xs|
  {
    if xs == [] then (rows, None)
    else
      match step(xs[0])
      case Err(e) => (rows, Some(e))
      case Ok(g) => GenFold(SaveGen(rows, KeyOf(xs[0].id, cfg), g), cfg, xs[1..], step)
  }

  /** The loop finishes without error exactly when every step succeeds, and then it is the plain write loop. */
  lemma {:induction false} GenFoldOk(rows: Rows, cfg: RunConfig, xs: seq<Record>, step: GenStep)
    ensures GenFold(rows, cfg, xs, step).1.None? <==> AllOk(xs, step)
    ensures AllOk(xs, step) ==> GenFold(rows, cfg, xs, step).0 == Apply(rows, cfg, xs, GenWrite(step))
    decreases |xs|
  {
    if xs != [] {
      var k := KeyOf(xs[0].id, cfg);
      if step(xs[0]).Ok? {
        GenFoldOk(SaveGen(rows, k, step(xs[0]).value), cfg, xs[1..], step);
        assert SaveGen(rows, k, step(xs[0]).value) == rows[k := GenWrite(step)(xs[0], Lookup(rows, k))];
        assert AllOk(xs, step) <==> AllOk(xs[1..], step) by {
          assert xs == [xs[0]] + xs[1..];
        }
      } else {
        assert xs[0] in xs;
      }
    }
  }

  /** The index of the first record whose step fails, `|xs|` when none does. */
  function FirstFail(xs: seq<Record>, step: GenStep): (i: nat)
    ensures i <= |xs|
    ensures forall j :: 0 <= j < i ==> step(xs[j]).Ok?
    ensures i < |xs| ==> step(xs[i]).Err?
    ensures i == |xs| <==> AllOk(xs, step)
    decreases |xs|
  {
    if xs == [] then 0
    else if step(xs[0]).Err? then 0
    else
      var i := 1 + FirstFail(xs[1..], step);
      assert forall j :: 1 <= j < |xs| ==> xs[j] == xs[1..][j - 1];
      assert forall x :: x in xs ==> x == xs[0] || x in xs[1..] by {
        assert xs == [xs[0]] + xs[1..];
      }
      i
  }

  /**
   * When a step fails, the loop reports the first failing record's error
   * and keeps exactly the writes of the records before it.
   */
  lemma {:induction false} GenFoldFails(rows: Rows, cfg: RunConfig, xs: seq<Record>, step: GenStep)
    requires !AllOk(xs, step)
    ensures var i := FirstFail(xs, step);
      i < |xs| && GenFold(rows, cfg, xs, step) == (Apply(rows, cfg, xs[..i], GenWrite(step)), Some(step(xs[i]).error))
    decreases |xs|
  {
    if step(xs[0]).Ok? {
      var k := KeyOf(xs[0].id, cfg);
      var next := SaveGen(rows, k, step(xs[0]).value);
      var i := FirstFail(xs[1..], step);
      GenFoldFails(next, cfg, xs[1..], step);
      assert next == rows[k := GenWrite(step)(xs[0], Lookup(rows, k))];
      assert xs[..i + 1][1..] == xs[1..][..i];
    }
  }

  /** Whatever the outcome, the loop only writes the keys of the records it visits, and removes no row. */
  lemma {:induction false} GenFoldFrame(rows: Rows, cfg: RunConfig, xs: seq<Record>, step: GenStep)
    ensures rows.Keys <= GenFold(rows, cfg, xs, step).0.Keys <= rows.Keys + KeysOf(xs, cfg)
    ensures forall k :: k in rows && k !in KeysOf(xs, cfg) ==> GenFold(rows, cfg, xs, step).0[k] == rows[k]
    decreases |xs|
  {
    if xs != [] && step(xs[0]).Ok? {
      var k := KeyOf(xs[0].id, cfg);
      GenFoldFrame(SaveGen(rows, k, step(xs[0]).value), cfg, xs[1..], step);
      assert xs == [xs[0]] + xs[1..];
      assert KeysOf(xs, cfg) == {k} + KeysOf(xs[1..], cfg);
    }
  }

  // ---- The run ---------------------------------------------------------------

  /** The skip test: no row yet for this configuration. */
  predicate NoRow(o: Option<Stages>) {
    o.None?
  }

  /** `pending`: under skip the records without a row, under override all of them. */
  function GenPending(rows: Rows, cfg: RunConfig, records: seq<Record>, ifExists: IfExists): seq<Record>
  {
    match ifExists
    case Skip => Where(rows, cfg, records, NoRow)
    case Override => records
  }

  /** `_save`: the query is the generator's content and the stats are its stats. */
  function StepOf(gen: Generator): GenStep
  {
    (x: Record) =>
      match gen(x.question)
      case Ok(out) => Wrappers.Ok(GenerationResult(Some(out.content), out.stats))
      case Err(e) => Wrappers.Err(e)
  }

  /**
   * A generation run with a given per-record step: nothing happens when
   * nothing is pending; otherwise the pending records are visited in the
   * order the loop (one worker) or the futures (several) deliver them.
   */
  function StageRun(rows: Rows, cfg: RunConfig, records: seq<Record>, step: GenStep, ifExists: IfExists,
                    workers: int, schedule: Schedule): (Rows, Option<string>)
  {
    var pending := GenPending(rows, cfg, records, ifExists);
    if pending == [] then (rows, None)
    else GenFold(rows, cfg, Order(pending, workers, schedule), step)
  }

  /** `run`: the final rows and the error that stopped the run, if any. */
  function GenerateRun(rows: Rows, cfg: RunConfig, records: seq<Record>, gen: Generator, ifExists: IfExists,
                       workers: int, schedule: Schedule): (Rows, Option<string>)
  {
    StageRun(rows, cfg, records, StepOf(gen), ifExists, workers, schedule)
  }

  /** Under skip a record is pending exactly when it has no row; under override every record is. */
  lemma GenPendingMembership(rows: Rows, cfg: RunConfig, records: seq<Record>, ifExists: IfExists, x: Record)
    ensures x in GenPending(rows, cfg, records, ifExists) <==>
      x in records && (ifExists == Skip ==> KeyOf(x.id, cfg) !in rows)
  {
    WhereMembership(rows, cfg, records, NoRow, x);
  }

  /**
   * Only the pending records' keys are written: every other row, and under
   * skip every row that already existed, keeps its contents.
   */
  lemma GenerateFrame(rows: Rows, cfg: RunConfig, records: seq<Record>, step: GenStep, ifExists: IfExists,
                      workers: int, schedule: Schedule)
    requires ValidSchedule(schedule)
    ensures var r := StageRun(rows, cfg, records, step, ifExists, workers, schedule).0;
      var pending := GenPending(rows, cfg, records, ifExists);
      && rows.Keys <= r.Keys <= rows.Keys + KeysOf(pending, cfg)
      && (forall k :: k in rows && k !in KeysOf(pending, cfg) ==> r[k] == rows[k])
      && (ifExists == Skip ==> forall k :: k in rows ==> r[k] == rows[k])
  {
    var pending := GenPending(rows, cfg, records, ifExists);
    var order := Order(pending, workers, schedule);
    assert multiset(order) == multiset(pending);
    KeysOfSameElements(order, pending, cfg);
    GenFoldFrame(rows, cfg, order, step);
    if ifExists == Skip {
      forall k | k in rows
        ensures k !in KeysOf(pending, cfg)
      {
        forall x | x in pending
          ensures KeyOf(x.id, cfg) != k
        {
          GenPendingMembership(rows, cfg, records, ifExists, x);
        }
      }
    }
  }

  /**
   * With distinct ids and a step that succeeds on every pending record,
   * the run finishes without error and each pending record's row is its
   * fresh generation with `exec` and `eval` cleared.
   */
  lemma GenerateWrites(rows: Rows, cfg: RunConfig, records: seq<Record>, step: GenStep, ifExists: IfExists,
                       workers: int, schedule: Schedule)
    requires ValidSchedule(schedule) && DistinctIds(records)
    requires forall x :: x in GenPending(rows, cfg, records, ifExists) ==> step(x).Ok?
    ensures var (r, failure) := StageRun(rows, cfg, records, step, ifExists, workers, schedule);
      && failure.None?
      && (forall x :: x in GenPending(rows, cfg, records, ifExists) ==>
            KeyOf(x.id, cfg) in r
            && r[KeyOf(x.id, cfg)] == Stages(Some(step(x).value), None, None))
  {
    var pending := GenPending(rows, cfg, records, ifExists);
    var order := Order(pending, workers, schedule);
    if ifExists == Skip {
      WhereDistinct(rows, cfg, records, NoRow);
    }
    assert multiset(order) == multiset(pending);
    assert forall x :: x in order <==> x in pending by {
      forall x
        ensures x in order <==> x in pending
      {
        assert x in order <==> x in multiset(order);
      }
    }
    ApplyPermutation(rows, cfg, pending, order, GenWrite(step));
    GenFoldOk(rows, cfg, order, step);
    ApplyClosedForm(rows, cfg, order, GenWrite(step));
  }

  /** Override takes every record, so with distinct ids and no error each record's row is regenerated from scratch. */
  lemma OverrideRegeneratesAll(rows: Rows, cfg: RunConfig, records: seq<Record>, step: GenStep, workers: int, schedule: Schedule)
    requires ValidSchedule(schedule) && DistinctIds(records)
    requires forall x :: x in records ==> step(x).Ok?
    ensures var (r, failure) := StageRun(rows, cfg, records, step, Override, workers, schedule);
      && failure.None?
      && (forall x :: x in records ==>
            KeyOf(x.id, cfg) in r && r[KeyOf(x.id, cfg)].gen.Some?
            && r[KeyOf(x.id, cfg)].exec.None? && r[KeyOf(x.id, cfg)].eval.None?)
  {
    GenerateWrites(rows, cfg, records, step, Override, workers, schedule);
  }

  /** After a run that ended without error, a second skip run over the same records finds nothing to do. */
  lemma SecondSkipRunWritesNothing(rows: Rows, cfg: RunConfig, records: seq<Record>, step: GenStep, ifExists: IfExists,
                                   workers: int, schedule: Schedule)
    requires ValidSchedule(schedule)
    requires StageRun(rows, cfg, records, step, ifExists, workers, schedule).1.None?
    ensures var r := StageRun(rows, cfg, records, step, ifExists, workers, schedule).0;
      && GenPending(r, cfg, records, Skip) == []
      && StageRun(r, cfg, records, step, Skip, workers, schedule) == (r, None)
  {
    var pending := GenPending(rows, cfg, records, ifExists);
    var order := Order(pending, workers, schedule);
    var r := StageRun(rows, cfg, records, step, ifExists, workers, schedule).0;
    assert multiset(order) == multiset(pending);
    KeysOfSameElements(order, pending, cfg);
    GenFoldFrame(rows, cfg, order, step);
    if pending != [] {
      GenFoldOk(rows, cfg, order, step);
      ApplyFrame(rows, cfg, order, GenWrite(step));
    }
    forall x | x in records
      ensures !NoRow(Lookup(r, KeyOf(x.id, cfg)))
    {
      GenPendingMembership(rows, cfg, records, ifExists, x);
      if x in pending {
        assert KeyOf(x.id, cfg) in KeysOf(pending, cfg);
      }
    }
    WhereNone(r, cfg, records, NoRow);
  }

  /**
   * With distinct ids and no failing step, the worker-pool branch leaves
   * the same rows as the sequential loop, whatever order the futures complete in.
   */
  lemma ParallelMatchesSequential(rows: Rows, cfg: RunConfig, records: seq<Record>, step: GenStep, ifExists: IfExists,
                                  workers: int, schedule: Schedule)
    requires ValidSchedule(schedule) && DistinctIds(records)
    requires forall x :: x in records ==> step(x).Ok?
    ensures StageRun(rows, cfg, records, step, ifExists, workers, schedule)
         == StageRun(rows, cfg, records, step, ifExists, 1, schedule)
  {
    var pending := GenPending(rows, cfg, records, ifExists);
    if ifExists == Skip {
      WhereDistinct(rows, cfg, records, NoRow);
      WhereSub(rows, cfg, records, NoRow);
    }
    assert AllOk(pending, step) by {
      forall x | x in pending
        ensures step(x).Ok?
      {
        GenPendingMembership(rows, cfg, records, ifExists, x);
      }
    }
    var order := Order(pending, workers, schedule);
    assert multiset(order) == multiset(pending);
    assert AllOk(order, step) by {
      forall x | x in order
        ensures step(x).Ok?
      {
        assert x in multiset(order);
      }
    }
    GenFoldOk(rows, cfg, order, step);
    GenFoldOk(rows, cfg, pending, step);
    ApplyPermutation(rows, cfg, pending, order, GenWrite(step));
  }

  /** The pending list, built by asking the store whether each record's row exists. */
  method CollectPending(dst: ResultRepository, cfg: RunConfig, records: seq<Record>, ifExists: IfExists)
    returns (pending: seq<Record>)
    ensures pending == GenPending(dst.rows, cfg, records, ifExists)
  {
    if ifExists == Override {
      return records;
    }
    pending := [];
    var i := 0;
    while i < |records|
      invariant 0 <= i <= |records|
      invariant pending + Where(dst.rows, cfg, records[i..], NoRow) == Where(dst.rows, cfg, records, NoRow)
    {
      var present := dst.Exists(records[i].id, cfg);
      var piece := if present then [] else [records[i]];
      WhereStep(dst.rows, cfg, records, NoRow, i, pending, piece);
      pending := pending + piece;
      i := i + 1;
    }
  }

  /** `GeneratePipeline`: the generator, the result store and the run's configuration. */
  class GeneratePipeline {
    const generator: Generator
    const dst: ResultRepository
    const cfg: RunConfig
    const workers: int
    const ifExists: IfExists

    constructor (generator: Generator, dst: ResultRepository, approach: Method, lang: string, model: string,
                 workers: int, ifExists: IfExists)
      ensures this.generator == generator && this.dst == dst && cfg == RunConfig(approach, lang, model)
      ensures this.workers == workers && this.ifExists == ifExists
    {
      this.generator := generator;
      this.dst := dst;
      this.cfg := RunConfig(approach, lang, model);
      this.workers := workers;
      this.ifExists := ifExists;
    }

    /**
     * `run`: returns the input list and, when the generator raised, its
     * error; the store ends as `GenerateRun` says.
     */
    method Run(records: seq<Record>, schedule: Schedule) returns (out: seq<Record>, failure: Option<string>)
      modifies dst
      ensures out == records
      ensures (dst.rows, failure) == GenerateRun(old(dst.rows), cfg, records, generator, ifExists, workers, schedule)
    {
      out := records;
      failure := None;
      var pending := CollectPending(dst, cfg, records, ifExists);
      if pending == [] {
        return;
      }
      var order := Order(pending, workers, schedule);
      ghost var start := dst.rows;
      var i := 0;
      while i < |order|
        invariant 0 <= i <= |order|
        invariant GenFold(dst.rows, cfg, order[i..], StepOf(generator)) == GenFold(start, cfg, order, StepOf(generator))
      {
        assert order[i..][1..] == order[i + 1..];
        var output := generator(order[i].question);
        match output {
          case Err(e) =>
            failure := Some(e);
            return;
          case Ok(o) =>
            var g := GenerationResult(Some(o.content), o.stats);
            dst.SaveGeneration(order[i].id, cfg, g);
        }
        i := i + 1;
      }
    }
  }
}
