/**
 * The records and results the three-stage store holds: one source record
 * per question, and per (record, method, lang, model) a result with three
 * independently nullable stage outputs.
 */
module DataEntity {
  import opened Wrappers
  import opened Json

  /** What a generator hands back: the generated text and optional usage statistics. */
  datatype GenerationOutput = GenerationOutput(content: string, stats: Option<Dict>)

  /** The `gen` stage output. */
  datatype GenerationResult = GenerationResult(query: Option<string>, stats: Option<Dict>)

  /** The `exec` stage output. */
  datatype ExecutionResult = ExecutionResult(result: Option<seq<Json>>, success: bool, error: Option<string>)

  /** The `eval` stage output; ratios are exact rationals. */
  datatype EvaluationResult = EvaluationResult(
    exactMatch: Option<real>, f1: Option<real>, precision: Option<real>, recall: Option<real>)

  /** `GenerationResult()`: no query, no statistics. */
  const EmptyGeneration := GenerationResult(None, None)
  /** `ExecutionResult()`: no result, success False, no error. */
  const EmptyExecution := ExecutionResult(None, false, None)
  /** `EvaluationResult()`: all four metrics None. */
  const EmptyEvaluation := EvaluationResult(None, None, None, None)

  /** `Literal["llm", "seq2seq"]`. */
  datatype Method = Llm | Seq2Seq

  function MethodName(m: Method): string
  {
    match m
    case Llm => "llm"
    case Seq2Seq => "seq2seq"
  }

  /** Validation of the `method` field: only "llm" and "seq2seq" are accepted. */
  function ParseMethod(s: string): (r: Option<Method>)
    ensures r.Some? <==> s == "llm" || s == "seq2seq"
    ensures r.Some? ==> MethodName(r.value) == s
  {
    if s == "llm" then Some(Llm) else if s == "seq2seq" then Some(Seq2Seq) else None
  }

  lemma MethodRoundTrip(m: Method)
    ensures ParseMethod(MethodName(m)) == Some(m)
  {
  }

  /** A source record: the declared fields and whatever extra fields the dataset carries (hop, split, ...). */
  datatype Record = Record(id: string, question: string, answer: seq<Json>, extra: Dict)

  predicate Declared(field: string) {
    field == "id" || field == "question" || field == "answer"
  }

  /** Pydantic keeps declared fields out of `model_extra`. */
  predicate ValidRecord(r: Record) {
    forall f :: f in r.extra ==> !Declared(f)
  }

  /** `model_dump()`: declared fields plus the extra ones. */
  function ToDict(r: Record): Dict
  {
    r.extra["id" := JStr(r.id)]["question" := JStr(r.question)]["answer" := JArr(r.answer)]
  }

  /** `Record.model_validate(d)`: the declared fields must be present with the right types. */
  function FromDict(d: Dict): (r: Wrappers.Result<Record, string>)
    ensures r.Ok? ==> ValidRecord(r.value) && ToDict(r.value) == d
  {
    if "id" in d && d["id"].JStr? && "question" in d && d["question"].JStr? && "answer" in d && d["answer"].JArr? then
      var rec := Record(d["id"].s, d["question"].s, d["answer"].items, map f | f in d && !Declared(f) :: d[f]);
      assert ToDict(rec) == d;
      Ok(rec)
    else
      Err("validation error")
  }

  /** Dumping a record and validating the dump gives the record back. */
  lemma RecordRoundTrip(r: Record)
    requires ValidRecord(r)
    ensures FromDict(ToDict(r)) == Ok(r)
  {
    var d := ToDict(r);
    assert (map f | f in d && !Declared(f) :: d[f]) == r.extra;
  }

  /** `get_field`: a declared attribute if there is one, else the extra field, else the default. */
  function GetField(r: Record, field: string, default: Json): Json
  {
    if field == "id" then JStr(r.id)
    else if field == "question" then JStr(r.question)
    else if field == "answer" then JArr(r.answer)
    else if field in r.extra then r.extra[field]
    else default
  }

  /** `get_field` on a record reads the same value as a lookup in its dumped dict. */
  lemma GetFieldIsDictLookup(r: Record, field: string, default: Json)
    requires ValidRecord(r)
    ensures GetField(r, field, default) == if field in ToDict(r) then ToDict(r)[field] else default
  {
  }

  /** A stored result: the composite key fields (`approach` is the `method` field) and the three stage outputs. */
  datatype Result = Result(
    recordId: string, approach: Method, lang: string, model: string,
    gen: Option<GenerationResult>, exec: Option<ExecutionResult>, eval: Option<EvaluationResult>)
}
