/**
 * The result store: one row per (record id, method, lang, model) holding
 * the nullable `gen`, `exec` and `eval` sub-documents, with the cascade
 * rule that rewriting a stage invalidates every later stage. Also the
 * source-record store's filtered scan.
 */
module Repository {
  import opened Wrappers
  import opened Json
  import opened DataEntity
  import Storage

  /** The run configuration a row belongs to: (method, lang, model). */
  datatype RunConfig = RunConfig(approach: Method, lang: string, model: string)

  /** The composite key `(record_id, method, lang, model)`. */
  datatype ResultKey = ResultKey(recordId: string, config: RunConfig)

  function KeyOf(recordId: string, cfg: RunConfig): ResultKey
  {
    ResultKey(recordId, cfg)
  }

  function ResultKeyOf(r: DataEntity.Result): ResultKey
  {
    ResultKey(r.recordId, RunConfig(r.approach, r.lang, r.model))
  }

  /** The three stage outputs of one row. */
  datatype Stages = Stages(gen: Option<GenerationResult>, exec: Option<ExecutionResult>, eval: Option<EvaluationResult>)

  type Rows = map<ResultKey, Stages>

  function ResultOf(k: ResultKey, s: Stages): (r: DataEntity.Result)
    ensures ResultKeyOf(r) == k
  {
    Result(k.recordId, k.config.approach, k.config.lang, k.config.model, s.gen, s.exec, s.eval)
  }

  /** `save_generation`: the row is replaced by the new `gen` with `exec` and `eval` null. */
  function SaveGen(rows: Rows, k: ResultKey, g: GenerationResult): Rows
  {
    rows[k := Stages(Some(g), None, None)]
  }

  /** `save_execution`: an update that sets `exec` and nulls `eval`. */
  function SaveExec(rows: Rows, k: ResultKey, e: ExecutionResult): Rows
  {
    rows[k := if k in rows then rows[k].(exec := Some(e), eval := None) else Stages(None, Some(e), None)]
  }

  /** `save_evaluation`: an update that sets only `eval`. */
  function SaveEval(rows: Rows, k: ResultKey, v: EvaluationResult): Rows
  {
    rows[k := if k in rows then rows[k].(eval := Some(v)) else Stages(None, None, Some(v))]
  }

  /** Whatever the row held before, `save_generation` leaves exactly `gen` set. */
  lemma SaveGenCascade(rows: Rows, k: ResultKey, g: GenerationResult)
    ensures k in SaveGen(rows, k, g)
    ensures SaveGen(rows, k, g)[k] == Stages(Some(g), None, None)
  {
  }

  /** `save_execution` keeps `gen`, replaces `exec` and nulls `eval`. */
  lemma SaveExecCascade(rows: Rows, k: ResultKey, e: ExecutionResult)
    ensures k in SaveExec(rows, k, e)
    ensures SaveExec(rows, k, e)[k].gen == (if k in rows then rows[k].gen else None)
    ensures SaveExec(rows, k, e)[k].exec == Some(e) && SaveExec(rows, k, e)[k].eval == None
  {
  }

  /** `save_evaluation` changes `eval` and nothing else. */
  lemma SaveEvalOnlyEval(rows: Rows, k: ResultKey, v: EvaluationResult)
    requires k in rows
    ensures SaveEval(rows, k, v)[k] == rows[k].(eval := Some(v))
  {
  }

  /** A write under one composite key never alters a row under another, even one sharing the record id or the config. */
  lemma WritesAreKeyLocal(rows: Rows, k: ResultKey, other: ResultKey, g: GenerationResult, e: ExecutionResult, v: EvaluationResult)
    requires other != k
    ensures other in SaveGen(rows, k, g) <==> other in rows
    ensures other in SaveExec(rows, k, e) <==> other in rows
    ensures other in SaveEval(rows, k, v) <==> other in rows
    ensures other in rows ==>
      SaveGen(rows, k, g)[other] == rows[other] && SaveExec(rows, k, e)[other] == rows[other]
      && SaveEval(rows, k, v)[other] == rows[other]
  {
  }

  /** The stage named to `clear_stage`. */
  datatype Stage = GenStage | ExecStage | EvalStage

  /** A row with the named stage and every stage after it set to null. */
  function Cleared(s: Stages, stage: Stage): Stages
  {
    match stage
    case GenStage => Stages(None, None, None)
    case ExecStage => s.(exec := None, eval := None)
    case EvalStage => s.(eval := None)
  }

  /** `clear_stage`: the cascade applied to every row of the configuration; rows stay in place. */
  function ClearRows(rows: Rows, cfg: RunConfig, stage: Stage): (r: Rows)
    ensures r.Keys == rows.Keys
  {
    map k | k in rows :: if k.config == cfg then Cleared(rows[k], stage) else rows[k]
  }

  /** The rows `clear_stage` reports: those of the configuration that had a non-null cascaded field. */
  function ClearedKeys(rows: Rows, cfg: RunConfig, stage: Stage): set<ResultKey>
  {
    set k | k in rows && k.config == cfg && Cleared(rows[k], stage) != rows[k]
  }

  /** Clearing cascades downstream and keeps the upstream stages of every row. */
  lemma ClearCascade(rows: Rows, cfg: RunConfig, stage: Stage, k: ResultKey)
    requires k in rows && k.config == cfg
    ensures var c := ClearRows(rows, cfg, stage)[k];
      && c.eval == None
      && (stage != EvalStage ==> c.exec == None)
      && (stage == EvalStage ==> c.exec == rows[k].exec)
      && (stage == GenStage ==> c.gen == None)
      && (stage != GenStage ==> c.gen == rows[k].gen)
  {
  }

  /** Rows of other configurations are not touched, and clearing twice is clearing once. */
  lemma ClearScopedAndIdempotent(rows: Rows, cfg: RunConfig, stage: Stage)
    ensures forall k :: k in rows && k.config != cfg ==> ClearRows(rows, cfg, stage)[k] == rows[k]
    ensures ClearRows(ClearRows(rows, cfg, stage), cfg, stage) == ClearRows(rows, cfg, stage)
    ensures ClearedKeys(ClearRows(rows, cfg, stage), cfg, stage) == {}
  {
  }

  /** `iter_pending`: the source records, in source order, that have no row or whose row has no `eval`. */
  function PendingRecords(rows: Rows, src: seq<Record>, cfg: RunConfig): (r: seq<Record>)
    ensures |r| <= |src|
  {
    if src == [] then [] else PendingOne(rows, src[0], cfg) + PendingRecords(rows, src[1..], cfg)
  }

  lemma AppendAssoc<T>(a: seq<T>, b: seq<T>, c: seq<T>)
    ensures (a + b) + c == a + (b + c)
  {
  }

  /** One record's contribution to `iter_pending`: itself when it has no row or an unevaluated one. */
  function PendingOne(rows: Rows, x: Record, cfg: RunConfig): seq<Record>
  {
    var k := KeyOf(x.id, cfg);
    if k !in rows || rows[k].eval.None? then [x] else []
  }

  /** A record is pending exactly when it has no row or an unevaluated one. */
  lemma {:induction false} PendingMembership(rows: Rows, src: seq<Record>, cfg: RunConfig, x: Record)
    ensures x in PendingRecords(rows, src, cfg) <==>
      x in src && (KeyOf(x.id, cfg) !in rows || rows[KeyOf(x.id, cfg)].eval.None?)
  {
    if src != [] {
      PendingMembership(rows, src[1..], cfg, x);
      assert src == [src[0]] + src[1..];
    }
  }

  // ---- Reading a row back, as written ------------------------------------------------

  /**
   * `Result.from_dict(data)`: `Result` (a pydantic model) declares no such
   * class method, so every call raises AttributeError.
   */
  const NoFromDict := "type object 'Result' has no attribute 'from_dict'"

  /** `get` as written: None for a key without a row, the AttributeError of `Result.from_dict` for a stored row. */
  function GetAsWritten(rows: Rows, k: ResultKey): (r: Wrappers.Result<Option<DataEntity.Result>, string>)
    ensures r.Ok? ==> r.value.None?
  {
    if k !in rows then Ok(None) else Err(NoFromDict)
  }

  /** `get` as written never returns a stored row: it raises exactly where the intended read returns `ResultOf`. */
  lemma StoredRowRaises(rows: Rows, k: ResultKey)
    ensures GetAsWritten(rows, k).Err? <==> k in rows
    ensures k in rows ==> GetAsWritten(rows, k) == Err(NoFromDict) && ResultKeyOf(ResultOf(k, rows[k])) == k
  {
  }

  /**
   * `iter_pending` as written, drained into a list: records without a row
   * are yielded until the first record that has one, where `get` raises.
   */
  function PendingAsWritten(rows: Rows, src: seq<Record>, cfg: RunConfig): (r: Wrappers.Result<seq<Record>, string>)
  {
    if src == [] then Ok([])
    else
      match GetAsWritten(rows, KeyOf(src[0].id, cfg))
      case Err(e) => Err(e)
      case Ok(_) =>
        match PendingAsWritten(rows, src[1..], cfg)
        case Err(e) => Err(e)
        case Ok(rest) => Ok([src[0]] + rest)
  }

  /**
   * As written, `iter_pending` completes only when no source record has a
   * row, and then agrees with the intended `PendingRecords` (every record is
   * pending); one stored row makes it raise.
   */
  lemma {:induction false} PendingAsWrittenRaises(rows: Rows, src: seq<Record>, cfg: RunConfig)
    ensures PendingAsWritten(rows, src, cfg).Ok? <==> forall i :: 0 <= i < |src| ==> KeyOf(src[i].id, cfg) !in rows
    ensures PendingAsWritten(rows, src, cfg).Err? ==> PendingAsWritten(rows, src, cfg) == Err(NoFromDict)
    ensures PendingAsWritten(rows, src, cfg).Ok? ==>
      PendingAsWritten(rows, src, cfg).value == src == PendingRecords(rows, src, cfg)
  {
    if src != [] {
      PendingAsWrittenRaises(rows, src[1..], cfg);
      assert forall i :: 1 <= i < |src| ==> src[i] == src[1..][i - 1];
      assert src == [src[0]] + src[1..];
    }
  }

  /** A record with an unevaluated row: `iter_pending` as written raises where the intended scan yields the record. */
  lemma UnevaluatedRowRaises(rows: Rows, x: Record, cfg: RunConfig)
    requires KeyOf(x.id, cfg) in rows && rows[KeyOf(x.id, cfg)].eval.None?
    ensures PendingAsWritten(rows, [x], cfg) == Err(NoFromDict)
    ensures PendingRecords(rows, [x], cfg) == [x]
  {
  }

  // ---- The rows as the key-value store keeps them --------------------------------

  function OptStr(o: Option<string>): Json
  {
    if o.Some? then JStr(o.value) else JNull
  }

  function OptReal(o: Option<real>): Json
  {
    if o.Some? then JReal(o.value) else JNull
  }

  /** `gen.model_dump()`. */
  function EncodeGen(g: GenerationResult): Json
  {
    JObj(map["query" := OptStr(g.query), "stats" := if g.stats.Some? then JObj(g.stats.value) else JNull])
  }

  /** `exec.model_dump()`. */
  function EncodeExec(e: ExecutionResult): Json
  {
    JObj(map["result" := if e.result.Some? then JArr(e.result.value) else JNull,
             "success" := JBool(e.success), "error" := OptStr(e.error)])
  }

  /** `eval.model_dump()`. */
  function EncodeEval(v: EvaluationResult): Json
  {
    JObj(map["exact_match" := OptReal(v.exactMatch), "f1" := OptReal(v.f1),
             "precision" := OptReal(v.precision), "recall" := OptReal(v.recall)])
  }

  function EncodeOpt<T>(o: Option<T>, enc: T -> Json): Json
  {
    if o.Some? then enc(o.value) else JNull
  }

  /** The stored JSON row: the key fields and the three sub-documents. */
  function EncodeRow(k: ResultKey, s: Stages): Dict
  {
    map["record_id" := JStr(k.recordId), "method" := JStr(MethodName(k.config.approach)),
        "lang" := JStr(k.config.lang), "model" := JStr(k.config.model),
        "gen" := EncodeOpt(s.gen, EncodeGen), "exec" := EncodeOpt(s.exec, EncodeExec),
        "eval" := EncodeOpt(s.eval, EncodeEval)]
  }

  function Field(d: Dict, name: string): Json
  {
    if name in d then d[name] else JNull
  }

  function DecodeStr(j: Json): Option<string>
  {
    if j.JStr? then Some(j.s) else None
  }

  function DecodeReal(j: Json): Option<real>
  {
    if j.JReal? then Some(j.r) else None
  }

  function DecodeGen(j: Json): Option<GenerationResult>
  {
    if !j.JObj? then None
    else
      var st := Field(j.fields, "stats");
      Some(GenerationResult(DecodeStr(Field(j.fields, "query")), if st.JObj? then Some(st.fields) else None))
  }

  function DecodeExec(j: Json): Option<ExecutionResult>
  {
    if !j.JObj? then None
    else
      var res := Field(j.fields, "result");
      var ok := Field(j.fields, "success");
      Some(ExecutionResult(if res.JArr? then Some(res.items) else None, ok.JBool? && ok.b, DecodeStr(Field(j.fields, "error"))))
  }

  function DecodeEval(j: Json): Option<EvaluationResult>
  {
    if !j.JObj? then None
    else
      Some(EvaluationResult(DecodeReal(Field(j.fields, "exact_match")), DecodeReal(Field(j.fields, "f1")),
        DecodeReal(Field(j.fields, "precision")), DecodeReal(Field(j.fields, "recall"))))
  }

  /** `Result.from_dict` on a stored row: missing sub-documents read as None. */
  function DecodeStages(d: Dict): Stages
  {
    Stages(DecodeGen(Field(d, "gen")), DecodeExec(Field(d, "exec")), DecodeEval(Field(d, "eval")))
  }

  /** Reading back a stored row gives the stage outputs that were written. */
  lemma DecodeEncode(k: ResultKey, s: Stages)
    ensures DecodeStages(EncodeRow(k, s)) == s
  {
    var d := EncodeRow(k, s);
    if s.gen.Some? {
      var g := s.gen.value;
      assert Field(EncodeGen(g).fields, "stats") == (if g.stats.Some? then JObj(g.stats.value) else JNull);
    }
  }

  /** The partial dict `save_execution` passes to the store's update. */
  function ExecPartial(e: ExecutionResult): Dict
  {
    map["exec" := EncodeExec(e), "eval" := JNull]
  }

  /** The partial dict `save_evaluation` passes to the store's update. */
  function EvalPartial(v: EvaluationResult): Dict
  {
    map["eval" := EncodeEval(v)]
  }

  /**
   * `save_execution` is the store's deep-merge update of the encoded row:
   * on an existing row the merge yields the encoding of the new row; on an
   * absent key the stored partial reads back as the new row.
   */
  lemma SaveExecIsStoreUpdate(rows: Rows, k: ResultKey, e: ExecutionResult)
    ensures k in rows ==> Storage.Merged(EncodeRow(k, rows[k]), ExecPartial(e)) == EncodeRow(k, SaveExec(rows, k, e)[k])
    ensures k !in rows ==> DecodeStages(ExecPartial(e)) == SaveExec(rows, k, e)[k]
  {
    if k in rows {
      ExecRowMerge(k, rows[k], e);
    } else {
      assert Field(EncodeExec(e).fields, "result") == (if e.result.Some? then JArr(e.result.value) else JNull);
    }
  }

  /** Merging an execution's encoding into a stored one, or putting it in place of none, gives that encoding. */
  lemma ExecFieldMerge(prev: Option<ExecutionResult>, e: ExecutionResult)
    ensures var b := EncodeOpt(prev, EncodeExec);
      (if b.JObj? then JObj(Storage.Merged(b.fields, EncodeExec(e).fields)) else EncodeExec(e)) == EncodeExec(e)
  {
    if prev.Some? {
      Storage.FlatMergeReplaces(EncodeExec(prev.value).fields, EncodeExec(e).fields);
    }
  }

  /** The deep merge of `save_execution`'s partial into one encoded row. */
  lemma ExecRowMerge(k: ResultKey, s: Stages, e: ExecutionResult)
    ensures Storage.Merged(EncodeRow(k, s), ExecPartial(e)) == EncodeRow(k, s.(exec := Some(e), eval := None))
  {
    var prev := EncodeRow(k, s);
    var upd := ExecPartial(e);
    var want := EncodeRow(k, s.(exec := Some(e), eval := None));
    var m := Storage.Merged(prev, upd);
    Storage.MergeRules(prev, upd);
    ExecFieldMerge(s.exec, e);
    assert m["exec"] == want["exec"];
    assert m["eval"] == want["eval"];
    assert m.Keys == want.Keys;
  }

  /** `save_evaluation` is likewise the store's deep-merge update of the encoded row. */
  lemma SaveEvalIsStoreUpdate(rows: Rows, k: ResultKey, v: EvaluationResult)
    ensures k in rows ==> Storage.Merged(EncodeRow(k, rows[k]), EvalPartial(v)) == EncodeRow(k, SaveEval(rows, k, v)[k])
    ensures k !in rows ==> DecodeStages(EvalPartial(v)) == SaveEval(rows, k, v)[k]
  {
    if k in rows {
      EvalRowMerge(k, rows[k], v);
    }
  }

  /** Merging an evaluation's encoding into a stored one, or putting it in place of none, gives that encoding. */
  lemma EvalFieldMerge(prev: Option<EvaluationResult>, v: EvaluationResult)
    ensures var b := EncodeOpt(prev, EncodeEval);
      (if b.JObj? then JObj(Storage.Merged(b.fields, EncodeEval(v).fields)) else EncodeEval(v)) == EncodeEval(v)
  {
    if prev.Some? {
      Storage.FlatMergeReplaces(EncodeEval(prev.value).fields, EncodeEval(v).fields);
    }
  }

  /** The deep merge of `save_evaluation`'s partial into one encoded row. */
  lemma EvalRowMerge(k: ResultKey, s: Stages, v: EvaluationResult)
    ensures Storage.Merged(EncodeRow(k, s), EvalPartial(v)) == EncodeRow(k, s.(eval := Some(v)))
  {
    var prev := EncodeRow(k, s);
    var upd := EvalPartial(v);
    var want := EncodeRow(k, s.(eval := Some(v)));
    var m := Storage.Merged(prev, upd);
    Storage.MergeRules(prev, upd);
    EvalFieldMerge(s.eval, v);
    assert m["eval"] == want["eval"];
    assert m.Keys == want.Keys;
  }

  // ---- The repository object ---------------------------------------------

  /** The state of `clear_stage`'s scan after the keys in `done` were visited. */
  ghost predicate ClearProgress(before: Rows, rows: Rows, cfg: RunConfig, stage: Stage, done: set<ResultKey>, count: nat) {
    && done <= before.Keys
    && rows.Keys == before.Keys
    && (forall k :: k in rows ==> rows[k] == if k in done && k.config == cfg then Cleared(before[k], stage) else before[k])
    && count == |ClearedKeys(before, cfg, stage) * done|
  }

  /** One visited key of `clear_stage`'s scan: the row after the visit. */
  function ClearOne(rows: Rows, cfg: RunConfig, stage: Stage, k: ResultKey): Rows
    requires k in rows
  {
    if k.config == cfg then rows[k := Cleared(rows[k], stage)] else rows
  }

  /** One visited key of `clear_stage`'s scan: what it adds to the count. */
  function ClearTally(rows: Rows, cfg: RunConfig, stage: Stage, k: ResultKey): nat
    requires k in rows
  {
    if k.config == cfg && Cleared(rows[k], stage) != rows[k] then 1 else 0
  }

  lemma ClearStep(before: Rows, rows: Rows, cfg: RunConfig, stage: Stage, done: set<ResultKey>, count: nat, k: ResultKey)
    requires ClearProgress(before, rows, cfg, stage, done, count)
    requires k in before && k !in done
    ensures k in rows
    ensures ClearProgress(before, ClearOne(rows, cfg, stage, k), cfg, stage, done + {k}, count + ClearTally(rows, cfg, stage, k))
  {
    assert rows[k] == before[k];
    ClearCount(before, cfg, stage, done, k);
  }

  /** Visiting one more key adds one to the count exactly when clearing changes that key's row. */
  lemma ClearCount(before: Rows, cfg: RunConfig, stage: Stage, done: set<ResultKey>, k: ResultKey)
    requires k in before && k !in done
    ensures |ClearedKeys(before, cfg, stage) * (done + {k})| ==
      |ClearedKeys(before, cfg, stage) * done| + (if k.config == cfg && Cleared(before[k], stage) != before[k] then 1 else 0)
  {
    var ck := ClearedKeys(before, cfg, stage);
    if k in ck {
      assert ck * (done + {k}) == (ck * done) + {k};
    } else {
      assert ck * (done + {k}) == ck * done;
    }
  }

  lemma ClearFinished(before: Rows, rows: Rows, cfg: RunConfig, stage: Stage, count: nat)
    requires ClearProgress(before, rows, cfg, stage, before.Keys, count)
    ensures rows == ClearRows(before, cfg, stage)
    ensures count == |ClearedKeys(before, cfg, stage)|
  {
    assert ClearedKeys(before, cfg, stage) * before.Keys == ClearedKeys(before, cfg, stage);
  }

  class ResultRepository {
    var rows: Rows

    constructor ()
      ensures rows == map[]
    {
      rows := map[];
    }

    method Get(recordId: string, cfg: RunConfig) returns (r: Option<DataEntity.Result>)
      ensures r.Some? <==> KeyOf(recordId, cfg) in rows
      ensures r.Some? ==> r.value == ResultOf(KeyOf(recordId, cfg), rows[KeyOf(recordId, cfg)])
    {
      var k := KeyOf(recordId, cfg);
      r := if k in rows then Some(ResultOf(k, rows[k])) else None;
    }

    method Exists(recordId: string, cfg: RunConfig) returns (b: bool)
      ensures b <==> KeyOf(recordId, cfg) in rows
    {
      b := KeyOf(recordId, cfg) in rows;
    }

    method SaveGeneration(recordId: string, cfg: RunConfig, g: GenerationResult)
      modifies this
      ensures rows == SaveGen(old(rows), KeyOf(recordId, cfg), g)
    {
      rows := SaveGen(rows, KeyOf(recordId, cfg), g);
    }

    method SaveExecution(recordId: string, cfg: RunConfig, e: ExecutionResult)
      modifies this
      ensures rows == SaveExec(old(rows), KeyOf(recordId, cfg), e)
    {
      rows := SaveExec(rows, KeyOf(recordId, cfg), e);
    }

    method SaveEvaluation(recordId: string, cfg: RunConfig, v: EvaluationResult)
      modifies this
      ensures rows == SaveEval(old(rows), KeyOf(recordId, cfg), v)
    {
      rows := SaveEval(rows, KeyOf(recordId, cfg), v);
    }

    method Count() returns (n: nat)
      ensures n == |rows.Keys|
    {
      n := |rows.Keys|;
    }

    /** A table scan keeping the rows whose key satisfies `want`, each once, in scan order. */
    method Select(want: ResultKey -> bool) returns (rs: seq<DataEntity.Result>)
      ensures forall i :: 0 <= i < |rs| ==> (ResultKeyOf(rs[i]) in rows && want(ResultKeyOf(rs[i]))
        && rs[i] == ResultOf(ResultKeyOf(rs[i]), rows[ResultKeyOf(rs[i])]))
      ensures forall k :: k in rows && want(k) ==> ResultOf(k, rows[k]) in rs
      ensures forall i, j :: 0 <= i < j < |rs| ==> ResultKeyOf(rs[i]) != ResultKeyOf(rs[j])
    {
      var todo := rows.Keys;
      rs := [];
      while todo != {}
        invariant todo <= rows.Keys
        invariant forall i :: 0 <= i < |rs| ==> (ResultKeyOf(rs[i]) in rows.Keys - todo && want(ResultKeyOf(rs[i]))
          && rs[i] == ResultOf(ResultKeyOf(rs[i]), rows[ResultKeyOf(rs[i])]))
        invariant forall k :: k in rows.Keys - todo && want(k) ==> ResultOf(k, rows[k]) in rs
        invariant forall i, j :: 0 <= i < j < |rs| ==> ResultKeyOf(rs[i]) != ResultKeyOf(rs[j])
        decreases |todo|
      {
        var k :| k in todo;
        if want(k) {
          rs := rs + [ResultOf(k, rows[k])];
        }
        todo := todo - {k};
      }
    }

    /** `iter_all`: every row once. */
    method IterAll() returns (rs: seq<DataEntity.Result>)
      ensures forall i :: 0 <= i < |rs| ==> (ResultKeyOf(rs[i]) in rows
        && rs[i] == ResultOf(ResultKeyOf(rs[i]), rows[ResultKeyOf(rs[i])]))
      ensures forall k :: k in rows ==> ResultOf(k, rows[k]) in rs
      ensures forall i, j :: 0 <= i < j < |rs| ==> ResultKeyOf(rs[i]) != ResultKeyOf(rs[j])
    {
      rs := Select(k => true);
    }

    /** `iter_by_record`: exactly the rows of one record id, across all configurations. */
    method IterByRecord(recordId: string) returns (rs: seq<DataEntity.Result>)
      ensures forall i :: 0 <= i < |rs| ==> (ResultKeyOf(rs[i]) in rows && rs[i].recordId == recordId
        && rs[i] == ResultOf(ResultKeyOf(rs[i]), rows[ResultKeyOf(rs[i])]))
      ensures forall k :: k in rows && k.recordId == recordId ==> ResultOf(k, rows[k]) in rs
      ensures forall i, j :: 0 <= i < j < |rs| ==> ResultKeyOf(rs[i]) != ResultKeyOf(rs[j])
    {
      rs := Select((k: ResultKey) => k.recordId == recordId);
    }

    /** `iter_by_config`: exactly the rows whose (method, lang, model) match. */
    method IterByConfig(cfg: RunConfig) returns (rs: seq<DataEntity.Result>)
      ensures forall i :: 0 <= i < |rs| ==> (ResultKeyOf(rs[i]) in rows && ResultKeyOf(rs[i]).config == cfg
        && rs[i] == ResultOf(ResultKeyOf(rs[i]), rows[ResultKeyOf(rs[i])]))
      ensures forall k :: k in rows && k.config == cfg ==> ResultOf(k, rows[k]) in rs
      ensures forall i, j :: 0 <= i < j < |rs| ==> ResultKeyOf(rs[i]) != ResultKeyOf(rs[j])
    {
      rs := Select((k: ResultKey) => k.config == cfg);
    }

    /** `iter_pending` over the source store's records in scan order. */
    method IterPending(src: seq<Record>, cfg: RunConfig) returns (pending: seq<Record>)
      ensures pending == PendingRecords(rows, src, cfg)
    {
      ghost var rs := rows;
      pending := [];
      var i := 0;
      while i < |src|
        invariant 0 <= i <= |src|
        invariant pending + PendingRecords(rs, src[i..], cfg) == PendingRecords(rs, src, cfg)
      {
        assert PendingRecords(rs, src[i..], cfg) == PendingOne(rs, src[i], cfg) + PendingRecords(rs, src[i + 1..], cfg) by {
          assert src[i..][1..] == src[i + 1..];
        }
        var present := Exists(src[i].id, cfg);
        var keep := true;
        if present {
          var result := Get(src[i].id, cfg);
          keep := result.value.eval.None?;
        }
        var piece := if keep then [src[i]] else [];
        assert piece == PendingOne(rs, src[i], cfg);
        AppendAssoc(pending, piece, PendingRecords(rs, src[i + 1..], cfg));
        pending := pending + piece;
        i := i + 1;
      }
    }

    /** `clear_stage`: applies the cascade to every row of the configuration and reports how many rows it changed. */
    method ClearStage(cfg: RunConfig, stage: Stage) returns (count: nat)
      modifies this
      ensures rows == ClearRows(old(rows), cfg, stage)
      ensures count == |ClearedKeys(old(rows), cfg, stage)|
    {
      var before := rows;
      var r := rows;
      var done: set<ResultKey> := {};
      count := 0;
      while done != before.Keys
        invariant ClearProgress(before, r, cfg, stage, done, count)
        decreases |before.Keys - done|
      {
        var k :| k in before.Keys - done;
        ClearStep(before, r, cfg, stage, done, count, k);
        count := count + ClearTally(r, cfg, stage, k);
        r := ClearOne(r, cfg, stage, k);
        done := done + {k};
      }
      ClearFinished(before, r, cfg, stage, count);
      rows := r;
    }
  }

  /** Python's `all(data.get(k) == v for k, v in filters.items() if v is not None)`. */
  predicate MatchesFilters(d: Dict, filters: map<string, Json>)
  {
    forall k :: k in filters && !filters[k].JNull? ==> k in d && PyEq(d[k], filters[k])
  }

  /** `iter_by_filter`: the records, in scan order, whose dumped dict matches every non-None filter. */
  function FilterRecords(records: seq<Record>, filters: map<string, Json>): seq<Record>
  {
    if records == [] then [] else Kept(records[0], filters) + FilterRecords(records[1..], filters)
  }

  /** One record's contribution to `iter_by_filter`. */
  function Kept(x: Record, filters: map<string, Json>): seq<Record>
  {
    if MatchesFilters(ToDict(x), filters) then [x] else []
  }

  /** None-valued filters are ignored, so with no effective filter every record passes. */
  lemma {:induction false} FilterIgnoresNone(records: seq<Record>, filters: map<string, Json>)
    requires forall k :: k in filters ==> filters[k].JNull?
    ensures FilterRecords(records, filters) == records
  {
    if records != [] {
      FilterIgnoresNone(records[1..], filters);
      assert records == [records[0]] + records[1..];
    }
  }

  /** A record passes exactly when every non-None filter equals its field. */
  lemma {:induction false} FilterMembership(records: seq<Record>, filters: map<string, Json>, x: Record)
    ensures x in FilterRecords(records, filters) <==> x in records && MatchesFilters(ToDict(x), filters)
  {
    if records != [] {
      FilterMembership(records[1..], filters, x);
      assert records == [records[0]] + records[1..];
    }
  }

  /** The source record store: its records in table-scan order. */
  class SourceRepository {
    var records: seq<Record>

    constructor (records: seq<Record>)
      ensures this.records == records
    {
      this.records := records;
    }

    /** `iter_all`: every record, in scan order. */
    method IterAll() returns (out: seq<Record>)
      ensures out == records
    {
      out := [];
      var i := 0;
      while i < |records|
        invariant 0 <= i <= |records|
        invariant out == records[..i]
      {
        out := out + [records[i]];
        i := i + 1;
      }
    }

    method IterByFilter(filters: map<string, Json>) returns (out: seq<Record>)
      ensures out == FilterRecords(records, filters)
    {
      var rs := records;
      out := [];
      var i := 0;
      while i < |rs|
        invariant 0 <= i <= |rs|
        invariant out + FilterRecords(rs[i..], filters) == FilterRecords(rs, filters)
      {
        assert FilterRecords(rs[i..], filters) == Kept(rs[i], filters) + FilterRecords(rs[i + 1..], filters) by {
          assert rs[i..][1..] == rs[i + 1..];
        }
        out := out + Kept(rs[i], filters);
        i := i + 1;
      }
    }
  }
}
