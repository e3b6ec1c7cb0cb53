/**
 * `InferencePipeline` (src/nl2graph/pipeline/inference.py): the three
 * stages in one object. Generation differs from `GeneratePipeline`: the
 * prompt may be a rendered template, the model's raw text is shaped
 * (translated from an intermediate representation, or cut out of a
 * Markdown reply) before it is saved, and no stats are kept. Execution
 * and evaluation are the stand-alone stages' loops over the same store.
 */
module InferenceStage {
  import opened Wrappers
  import opened DataEntity
  import opened Repository
  import opened Batch
  import opened Templates
  import opened QueryExtraction
  import opened Execution
  import opened Translation
  import GenerateStage
  import ExecuteStage
  import EvaluateStage

  /** `generator.generate(text)`; `Err` is a raised exception. */
  type TextGenerator = string -> Wrappers.Result<string, string>

  /** The constructor's options that decide the prompt and the saved query. */
  datatype Settings = Settings(
    lang: string,
    irMode: bool,
    extractQuery: bool,
    translator: Option<Translator>,
    templates: Option<(CategoryTable, Engine)>,
    templateName: Option<string>)

  /** The error `self.execution.execute` raises when no execution was given. */
  const NoExecution := "'NoneType' object has no attribute 'execute'"

  /**
   * `_save_one`'s choice of query: translation takes precedence; else the
   * query cut out of the reply, which never starts or ends with
   * whitespace; else the raw text.
   */
  function Shape(s: Settings, raw: string): (q: string)
    ensures s.translator.Some? && s.irMode ==> q == TranslateIr(s.translator.value, s.lang, raw)
    ensures !(s.translator.Some? && s.irMode) && s.extractQuery ==>
      q == [] || (!Strs.IsSpace(q[0]) && !Strs.IsSpace(q[|q| - 1]))
    ensures !(s.translator.Some? && s.irMode) && !s.extractQuery ==> q == raw
  {
    if s.translator.Some? && s.irMode then TranslateIr(s.translator.value, s.lang, raw)
    else if s.extractQuery then ExtractQuery(raw)
    else raw
  }

  /** The template is used only when a service, a non-empty template name and a schema are all given. */
  predicate UsesTemplate(s: Settings, schema: Option<string>) {
    s.templates.Some? && s.templateName.Some? && s.templateName.value != "" && schema.Some?
  }

  /** The prompt of one question: the rendered "prompts" template, or the question itself. */
  function PromptFor(s: Settings, schema: Option<string>, question: string): (r: Wrappers.Result<string, string>)
    ensures !UsesTemplate(s, schema) ==> r == Wrappers.Ok(question)
    ensures UsesTemplate(s, schema) ==>
      r == RenderFrom(s.templates.value.0, s.templates.value.1, "prompts", s.templateName.value,
                      map["question" := question, "schema" := schema.value, "lang" := s.lang])
  {
    if UsesTemplate(s, schema) then
      RenderFrom(s.templates.value.0, s.templates.value.1, "prompts", s.templateName.value,
                 map["question" := question, "schema" := schema.value, "lang" := s.lang])
    else Wrappers.Ok(question)
  }

  /** The error of the first pending record whose prompt cannot be built; the prompts are all built before any generation. */
  function PromptError(s: Settings, schema: Option<string>, xs: seq<Record>): Option<string>
    decreases |xs|
  {
    if xs == [] then None
    else if PromptFor(s, schema, xs[0].question).Err? then Some(PromptFor(s, schema, xs[0].question).error)
    else PromptError(s, schema, xs[1..])
  }

  /** One record's generation: its prompt, the model's reply, the shaped query; stats are not kept. */
  function StepFor(gen: TextGenerator, s: Settings, schema: Option<string>): GenerateStage.GenStep
  {
    (x: Record) =>
      match PromptFor(s, schema, x.question)
      case Err(e) => Wrappers.Err(e)
      case Ok(prompt) =>
        match gen(prompt)
        case Err(e) => Wrappers.Err(e)
        case Ok(raw) => Wrappers.Ok(GenerationResult(Some(Shape(s, raw)), None))
  }

  /** `generate`: the final rows and the error that stopped the stage, if any. */
  function InferGenerateRun(rows: Rows, cfg: RunConfig, records: seq<Record>, gen: TextGenerator, s: Settings,
                            schema: Option<string>, ifExists: IfExists, workers: int, schedule: Schedule)
    : (Rows, Option<string>)
  {
    var pending := GenerateStage.GenPending(rows, cfg, records, ifExists);
    if pending == [] then (rows, None)
    else
      match PromptError(s, schema, pending)
      case Some(e) => (rows, Some(e))
      case None => GenerateStage.StageRun(rows, cfg, records, StepFor(gen, s, schema), ifExists, workers, schedule)
  }

  /** `execute`: the final rows and, when no execution was given but a record is pending, the resulting error. */
  function InferExecuteRun(rows: Rows, cfg: RunConfig, records: seq<Record>, connector: Option<Connector>,
                           ifExists: IfExists, workers: int, schedule: Schedule): (Rows, Option<string>)
  {
    var pending := ExecuteStage.ExecPending(rows, cfg, records, ifExists);
    if pending == [] then (rows, None)
    else if connector.None? then (rows, Some(NoExecution))
    else (ExecuteStage.ExecuteRun(rows, cfg, records, connector.value, ifExists, workers, schedule), None)
  }

  // ---- Properties ------------------------------------------------------------

  /** The prompts all build exactly when no pending record's prompt fails. */
  lemma {:induction false} PromptErrorNone(s: Settings, schema: Option<string>, xs: seq<Record>)
    ensures PromptError(s, schema, xs).None? <==> forall x :: x in xs ==> PromptFor(s, schema, x.question).Ok?
    decreases |xs|
  {
    if xs != [] {
      PromptErrorNone(s, schema, xs[1..]);
      assert forall x :: x in xs <==> x == xs[0] || x in xs[1..] by {
        assert xs == [xs[0]] + xs[1..];
      }
    }
  }

  /** A prompt that cannot be rendered stops the stage before the model is asked anything: no row changes. */
  lemma PromptFailureWritesNothing(rows: Rows, cfg: RunConfig, records: seq<Record>, gen: TextGenerator, s: Settings,
                                   schema: Option<string>, ifExists: IfExists, workers: int, schedule: Schedule, x: Record)
    requires x in GenerateStage.GenPending(rows, cfg, records, ifExists)
    requires PromptFor(s, schema, x.question).Err?
    ensures var (r, failure) := InferGenerateRun(rows, cfg, records, gen, s, schema, ifExists, workers, schedule);
      r == rows && failure.Some?
  {
    PromptErrorNone(s, schema, GenerateStage.GenPending(rows, cfg, records, ifExists));
  }

  /**
   * With distinct ids and a model that answers every pending prompt, each
   * pending record's row becomes the shaped reply with no stats, and
   * `exec` and `eval` cleared; no other row changes, and under skip no
   * existing row changes.
   */
  lemma InferGenerateWrites(rows: Rows, cfg: RunConfig, records: seq<Record>, gen: TextGenerator, s: Settings,
                            schema: Option<string>, ifExists: IfExists, workers: int, schedule: Schedule)
    requires ValidSchedule(schedule) && DistinctIds(records)
    requires forall x :: x in GenerateStage.GenPending(rows, cfg, records, ifExists) ==>
      PromptFor(s, schema, x.question).Ok? && gen(PromptFor(s, schema, x.question).value).Ok?
    ensures var (r, failure) := InferGenerateRun(rows, cfg, records, gen, s, schema, ifExists, workers, schedule);
      var pending := GenerateStage.GenPending(rows, cfg, records, ifExists);
      && failure.None?
      && (forall x :: x in pending ==>
            KeyOf(x.id, cfg) in r
            && r[KeyOf(x.id, cfg)] == Stages(Some(GenerationResult(
                 Some(Shape(s, gen(PromptFor(s, schema, x.question).value).value)), None)), None, None))
      && (forall k :: k in rows && k !in KeysOf(pending, cfg) ==> k in r && r[k] == rows[k])
      && (ifExists == Skip ==> forall k :: k in rows ==> k in r && r[k] == rows[k])
  {
    var pending := GenerateStage.GenPending(rows, cfg, records, ifExists);
    var step := StepFor(gen, s, schema);
    PromptErrorNone(s, schema, pending);
    if pending != [] {
      GenerateStage.GenerateWrites(rows, cfg, records, step, ifExists, workers, schedule);
      GenerateStage.GenerateFrame(rows, cfg, records, step, ifExists, workers, schedule);
    }
  }

  /** With distinct ids and a model that never fails, the worker pool leaves the same rows as the sequential loop. */
  lemma InferParallelMatchesSequential(rows: Rows, cfg: RunConfig, records: seq<Record>, gen: TextGenerator, s: Settings,
                                       schema: Option<string>, ifExists: IfExists, workers: int, schedule: Schedule)
    requires ValidSchedule(schedule) && DistinctIds(records)
    requires forall x :: x in records ==> PromptFor(s, schema, x.question).Ok? && gen(PromptFor(s, schema, x.question).value).Ok?
    ensures InferGenerateRun(rows, cfg, records, gen, s, schema, ifExists, workers, schedule)
         == InferGenerateRun(rows, cfg, records, gen, s, schema, ifExists, 1, schedule)
  {
    GenerateStage.ParallelMatchesSequential(rows, cfg, records, StepFor(gen, s, schema), ifExists, workers, schedule);
  }

  /** `execute` is `ExecutePipeline.run` whenever an execution is given, and otherwise fails only when something is pending. */
  lemma InferExecuteIsExecuteStage(rows: Rows, cfg: RunConfig, records: seq<Record>, connector: Option<Connector>,
                                   ifExists: IfExists, workers: int, schedule: Schedule)
    requires ValidSchedule(schedule)
    ensures var (r, failure) := InferExecuteRun(rows, cfg, records, connector, ifExists, workers, schedule);
      && (connector.Some? ==> failure.None? && r == ExecuteStage.ExecuteRun(rows, cfg, records, connector.value, ifExists, workers, schedule))
      && (failure.Some? <==> connector.None? && ExecuteStage.ExecPending(rows, cfg, records, ifExists) != [])
      && r.Keys == rows.Keys
  {
    if connector.Some? {
      ExecuteStage.ExecuteFrame(rows, cfg, records, connector.value, ifExists, workers, schedule);
    }
  }

  /** `InferencePipeline`: the generator, the store, and the options that shape each stage. */
  class InferencePipeline {
    const generator: TextGenerator
    const dst: ResultRepository
    const templateService: Option<TemplateService>
    const templateName: Option<string>
    const translator: Option<Translator>
    const execution: Option<Execution>
    const cfg: RunConfig
    const irMode: bool
    const extractQuery: bool
    const workers: int
    const ifExists: IfExists

    constructor (generator: TextGenerator, dst: ResultRepository, templateService: Option<TemplateService>,
                 templateName: Option<string>, translator: Option<Translator>, execution: Option<Execution>,
                 approach: Method, lang: string, model: string, irMode: bool, extractQuery: bool,
                 workers: int, ifExists: IfExists)
      ensures this.generator == generator && this.dst == dst && this.templateService == templateService
      ensures this.templateName == templateName && this.translator == translator && this.execution == execution
      ensures cfg == RunConfig(approach, lang, model) && this.irMode == irMode && this.extractQuery == extractQuery
      ensures this.workers == workers && this.ifExists == ifExists
    {
      this.generator := generator;
      this.dst := dst;
      this.templateService := templateService;
      this.templateName := templateName;
      this.translator := translator;
      this.execution := execution;
      this.cfg := RunConfig(approach, lang, model);
      this.irMode := irMode;
      this.extractQuery := extractQuery;
      this.workers := workers;
      this.ifExists := ifExists;
    }

    /** The options as the spec functions see them, with the template service's catalog. */
    function Options(): Settings
    {
      Settings(cfg.lang, irMode, extractQuery, translator,
               if templateService.Some? then Some((templateService.value.categories, templateService.value.engine)) else None,
               templateName)
    }

    /** `generate`: returns the input list; the store and the error are as `InferGenerateRun` says. */
    method Generate(records: seq<Record>, schema: Option<string>, schedule: Schedule)
      returns (out: seq<Record>, failure: Option<string>)
      requires ValidSchedule(schedule)
      modifies dst
      ensures out == records
      ensures (dst.rows, failure) == InferGenerateRun(old(dst.rows), cfg, records, generator, Options(), schema,
                                                      ifExists, workers, schedule)
    {
      out := records;
      failure := None;
      var s := Options();
      var pending := GenerateStage.CollectPending(dst, cfg, records, ifExists);
      if pending == [] {
        return;
      }
      // `inputs`: every prompt is built before the model is called.
      var i := 0;
      while i < |pending|
        invariant 0 <= i <= |pending|
        invariant PromptError(s, schema, pending[i..]) == PromptError(s, schema, pending)
      {
        assert pending[i..][1..] == pending[i + 1..];
        var prompt := PromptFor(s, schema, pending[i].question);
        if prompt.Err? {
          failure := Some(prompt.error);
          return;
        }
        i := i + 1;
      }
      PromptErrorNone(s, schema, pending);
      var order := Order(pending, workers, schedule);
      assert multiset(order) == multiset(pending);
      var step := StepFor(generator, s, schema);
      ghost var start := dst.rows;
      i := 0;
      while i < |order|
        invariant 0 <= i <= |order|
        invariant GenerateStage.GenFold(dst.rows, cfg, order[i..], step) == GenerateStage.GenFold(start, cfg, order, step)
      {
        assert order[i..][1..] == order[i + 1..];
        assert order[i] in multiset(order);
        var prompt := PromptFor(s, schema, order[i].question);
        var raw := generator(prompt.value);
        match raw {
          case Err(e) =>
            failure := Some(e);
            return;
          case Ok(text) =>
            var query := Shape(s, text);
            dst.SaveGeneration(order[i].id, cfg, GenerationResult(Some(query), None));
        }
        i := i + 1;
      }
    }

    /** `execute`: returns the input list; the store and the error are as `InferExecuteRun` says. */
    method Execute(records: seq<Record>, schedule: Schedule) returns (out: seq<Record>, failure: Option<string>)
      requires ValidSchedule(schedule)
      modifies dst
      ensures out == records
      ensures (dst.rows, failure)
           == InferExecuteRun(old(dst.rows), cfg, records, if execution.Some? then Some(execution.value.connector) else None,
                              ifExists, workers, schedule)
    {
      out := records;
      failure := None;
      var pending := ExecuteStage.CollectPending(dst, cfg, records, ifExists);
      if pending == [] {
        return;
      }
      if execution.None? {
        failure := Some(NoExecution);
        return;
      }
      ExecuteStage.OrderKeysExist(dst.rows, cfg, records, ifExists, workers, schedule);
      ExecuteStage.ExecuteAll(dst, cfg, execution.value, Order(pending, workers, schedule));
    }

    /** `evaluate`: returns the input list; the store ends as `EvaluatePipeline.run` leaves it. */
    method Evaluate(records: seq<Record>) returns (out: seq<Record>)
      modifies dst
      ensures out == records
      ensures dst.rows == EvaluateStage.EvaluateRun(old(dst.rows), cfg, records, ifExists)
    {
      out := records;
      var pending := EvaluateStage.CollectPending(dst, cfg, records, ifExists);
      if pending == [] {
        return;
      }
      EvaluateStage.PendingKeysExist(dst.rows, cfg, records, ifExists);
      EvaluateStage.EvaluateAll(dst, cfg, pending);
    }
  }
}
