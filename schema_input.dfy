/**
 * Reading the JSON dictionaries that the schema classes' `from_dict`
 * methods receive: `d[k]`, `d.get(k, default)`, iteration over a list,
 * and pydantic's checks of the declared field types.
 */
module SchemaInput {
  import opened Wrappers
  import opened Json

  /** `str(KeyError(key))`. */
  function KeyError(key: string): string
  {
    "'" + key + "'"
  }

  /** Calling `.get` on a value that is not a dict. */
  const NoGet := "object has no attribute 'get'"

  /** `Model(**p)` on a value that is not a dict. */
  const NotAMapping := "argument after ** must be a mapping"

  /** Iterating over a value that is neither a list nor empty. */
  const NotAList := "object is not iterable as a list"

  /** pydantic's rejection of a field's value. */
  function Invalid(field: string): string
  {
    "validation error for field " + field
  }

  /** `d[k]`. */
  function Index(d: Dict, k: string): (r: Result<Json, string>)
    ensures r.Ok? <==> k in d
    ensures r.Ok? ==> r.value == d[k]
    ensures r.Err? ==> r.error == KeyError(k)
  {
    if k in d then Ok(d[k]) else Err(KeyError(k))
  }

  /** `d.get(k, default)`; `d.get(k)` is `GetOr(d, k, JNull)`. */
  function GetOr(d: Dict, k: string, default: Json): (j: Json)
    ensures k in d ==> j == d[k]
    ensures k !in d ==> j == default
  {
    if k in d then d[k] else default
  }

  /** `d.get(k1, []) or d.get(k2, [])`. */
  function Either(d: Dict, k1: string, k2: string): (j: Json)
    ensures !Falsy(GetOr(d, k1, JArr([]))) ==> j == GetOr(d, k1, JArr([]))
    ensures Falsy(GetOr(d, k1, JArr([]))) ==> j == GetOr(d, k2, JArr([]))
  {
    var a := GetOr(d, k1, JArr([]));
    if Falsy(a) then GetOr(d, k2, JArr([])) else a
  }

  /** `for x in j`: the items of a list; an empty dict or string gives nothing, anything else fails. */
  function Items(j: Json): (r: Result<seq<Json>, string>)
    ensures j.JArr? ==> r == Ok(j.items)
    ensures r.Ok? && !j.JArr? ==> r.value == []
  {
    match j
    case JArr(xs) => Ok(xs)
    case JObj(m) => if m == map[] then Ok([]) else Err(NotAList)
    case JStr(s) => if s == "" then Ok([]) else Err(NotAList)
    case _ => Err(NotAList)
  }

  /** The value as a dict that `.get` can be called on. */
  function AsDict(j: Json): (r: Result<Dict, string>)
    ensures r.Ok? <==> j.JObj?
    ensures r.Ok? ==> r.value == j.fields
  {
    if j.JObj? then Ok(j.fields) else Err(NoGet)
  }

  /** The value as keyword arguments, `**j`. */
  function AsKwargs(j: Json): (r: Result<Dict, string>)
    ensures r.Ok? <==> j.JObj?
    ensures r.Ok? ==> r.value == j.fields
  {
    if j.JObj? then Ok(j.fields) else Err(NotAMapping)
  }

  /** A `str` field. */
  function AsStr(j: Json, field: string): (r: Result<string, string>)
    ensures r.Ok? <==> j.JStr?
    ensures r.Ok? ==> r.value == j.s
  {
    if j.JStr? then Ok(j.s) else Err(Invalid(field))
  }

  /** A required `str` field given as a keyword argument. */
  function StrField(d: Dict, field: string): (r: Result<string, string>)
    ensures r.Ok? <==> field in d && d[field].JStr?
    ensures r.Ok? ==> r.value == d[field].s
  {
    AsStr(GetOr(d, field, JNull), field)
  }

  /** An `Optional[str] = None` field given as a keyword argument: absent or null is None. */
  function OptStrField(d: Dict, field: string): (r: Result<Option<string>, string>)
    ensures r.Ok? <==> field !in d || d[field].JNull? || d[field].JStr?
    ensures r.Ok? && field in d && d[field].JStr? ==> r.value == Some(d[field].s)
    ensures r.Ok? && (field !in d || d[field].JNull?) ==> r.value == None
  {
    match GetOr(d, field, JNull)
    case JNull => Ok(None)
    case JStr(s) => Ok(Some(s))
    case _ => Err(Invalid(field))
  }

  /** A `bool = False` field given as a keyword argument. */
  function BoolField(d: Dict, field: string): (r: Result<bool, string>)
    ensures r.Ok? <==> field !in d || d[field].JBool?
    ensures r.Ok? ==> r.value == (field in d && d[field].b)
  {
    if field !in d then Ok(false)
    else if d[field].JBool? then Ok(d[field].b)
    else Err(Invalid(field))
  }

  /** The strings of a list of strings. */
  function StrItems(xs: seq<Json>, field: string): (r: Result<seq<string>, string>)
    ensures r.Ok? <==> forall i :: 0 <= i < |xs| ==> xs[i].JStr?
    ensures r.Ok? ==> |r.value| == |xs| && forall i :: 0 <= i < |xs| ==> r.value[i] == xs[i].s
    decreases |xs|
  {
    if xs == [] then Ok([])
    else
      var n := |xs| - 1;
      match StrItems(xs[..n], field)
      case Err(e) => Err(e)
      case Ok(ss) =>
        if xs[n].JStr? then Ok(ss + [xs[n].s]) else Err(Invalid(field))
  }

  /** A `List[str]` value. */
  function AsStrList(j: Json, field: string): (r: Result<seq<string>, string>)
    ensures !j.JArr? ==> r == Err(Invalid(field))
    ensures j.JArr? ==> r == StrItems(j.items, field)
  {
    if j.JArr? then StrItems(j.items, field) else Err(Invalid(field))
  }

  /** A `Dict[str, str]` value. */
  function AsStrMap(j: Json, field: string): (r: Result<map<string, string>, string>)
    ensures r.Ok? <==> j.JObj? && forall k :: k in j.fields ==> j.fields[k].JStr?
    ensures r.Ok? ==> r.value.Keys == j.fields.Keys && forall k :: k in r.value ==> r.value[k] == j.fields[k].s
  {
    if j.JObj? && forall k :: k in j.fields ==> j.fields[k].JStr? then
      Ok(map k | k in j.fields :: j.fields[k].s)
    else Err(Invalid(field))
  }

  /** The JSON list of a list of strings, as `model_dump` writes it. */
  function StrsJson(xs: seq<string>): (j: Json)
    ensures j.JArr? && |j.items| == |xs|
    ensures forall i :: 0 <= i < |xs| ==> j.items[i] == JStr(xs[i])
  {
    JArr(seq(|xs|, i requires 0 <= i < |xs| => JStr(xs[i])))
  }

  /** A list of strings written out is read back. */
  lemma {:induction false} StrItemsOfStrs(xs: seq<string>, field: string)
    ensures StrItems(StrsJson(xs).items, field) == Ok(xs)
  {
    var r := StrItems(StrsJson(xs).items, field);
    assert r.Ok?;
    assert r.value == xs;
  }

  /** An `Optional[str]` as `model_dump` writes it. */
  function OptJson(o: Option<string>): (j: Json)
    ensures o.None? ==> j == JNull
    ensures o.Some? ==> j == JStr(o.value)
  {
    if o.Some? then JStr(o.value) else JNull
  }

  /** A `Dict[str, str]` as `model_dump` writes it. */
  function StrMapJson(m: map<string, string>): (j: Json)
    ensures j.JObj? && j.fields.Keys == m.Keys
    ensures forall k :: k in m ==> j.fields[k] == JStr(m[k])
  {
    JObj(map k | k in m :: JStr(m[k]))
  }

  /** A dict of strings written out is read back. */
  lemma StrMapOfJson(m: map<string, string>, field: string)
    ensures AsStrMap(StrMapJson(m), field) == Ok(m)
  {
    var r := AsStrMap(StrMapJson(m), field);
    assert r.Ok?;
    assert r.value == m;
  }
}
