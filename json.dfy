/**
 * JSON-shaped Python values, as the store keeps them (`json.dumps` /
 * `json.loads`), with Python's `==` on them and a rendering close to
 * `str()`: dict keys come out sorted, floats are exact reals, and a string
 * inside a container is quoted without escapes.
 */
module Json {
  import opened Wrappers
  import opened Strs

  /** A value `json.loads` can return. A dict is a map: Python's dict equality ignores key order. */
  datatype Json =
    | JNull
    | JBool(b: bool)
    | JInt(i: int)
    | JReal(r: real)
    | JStr(s: string)
    | JArr(items: seq<Json>)
    | JObj(fields: map<string, Json>)

  /** A JSON object: one stored row, or a nested sub-document of one. */
  type Dict = map<string, Json>

  /** The numeric value Python's `==` sees: `True == 1 == 1.0`. */
  function Num(j: Json): (r: Option<real>)
    ensures r.Some? <==> j.JBool? || j.JInt? || j.JReal?
  {
    match j
    case JBool(b) => Some(if b then 1.0 else 0.0)
    case JInt(i) => Some(i as real)
    case JReal(r) => Some(r)
    case _ => None
  }

  /** Python's `a == b` on JSON values: numbers by value, containers element-wise. */
  predicate PyEq(a: Json, b: Json)
    decreases a
  {
    if Num(a).Some? || Num(b).Some? then Num(a) == Num(b)
    else match a
      case JNull => b.JNull?
      case JStr(s) => b.JStr? && b.s == s
      case JArr(xs) =>
        b.JArr? && |xs| == |b.items| && forall i :: 0 <= i < |xs| ==> PyEq(xs[i], b.items[i])
      case JObj(m) =>
        b.JObj? && m.Keys == b.fields.Keys && forall k :: k in m ==> PyEq(m[k], b.fields[k])
      case _ => false
  }

  lemma {:induction false} PyEqReflexive(a: Json)
    ensures PyEq(a, a)
    decreases a
  {
    match a
    case JArr(xs) =>
      forall i | 0 <= i < |xs| ensures PyEq(xs[i], xs[i]) { PyEqReflexive(xs[i]); }
    case JObj(m) =>
      forall k | k in m ensures PyEq(m[k], m[k]) { PyEqReflexive(m[k]); }
    case _ =>
  }

  /** Python's `not x` on a JSON value. */
  predicate Falsy(j: Json)
  {
    match j
    case JNull => true
    case JBool(b) => !b
    case JInt(i) => i == 0
    case JReal(r) => r == 0.0
    case JStr(s) => s == ""
    case JArr(xs) => xs == []
    case JObj(m) => m == map[]
  }

  /** Digits after the decimal point, at most `n` of them, without trailing zeros. */
  function FractionDigits(f: real, n: nat): string
    requires 0.0 <= f < 1.0
    decreases n
  {
    if n == 0 || f == 0.0 then ""
    else
      var d := (f * 10.0).Floor;
      [DigitChar(d)] + FractionDigits(f * 10.0 - d as real, n - 1)
  }

  /**
   * The text of a float: agrees with `str(x)` for integral values below
   * 10^16 ("3.0") and short decimals ("0.5"); never uses the exponent form.
   */
  function RealStr(x: real): string
  {
    var a := if x < 0.0 then -x else x;
    var whole := a.Floor;
    var frac := a - whole as real;
    (if x < 0.0 then "-" else "")
      + NatStr(whole) + "." + (if frac == 0.0 then "0" else FractionDigits(frac, 17))
  }

  /**
   * `str(j)`, except that a dict's keys are listed in sorted order (a map
   * has no insertion order), a float is its exact decimal expansion cut at
   * 17 fraction digits, and strings inside lists and dicts are not escaped.
   */
  function Render(j: Json): string
    decreases j, 0
  {
    match j
    case JNull => "None"
    case JBool(b) => if b then "True" else "False"
    case JInt(i) => IntStr(i)
    case JReal(x) => RealStr(x)
    case JStr(s) => s
    case JArr(xs) =>
      "[" + Join(", ", seq(|xs|, i requires 0 <= i < |xs| => Repr(xs[i]))) + "]"
    case JObj(m) =>
      var keys := SortedSet(m.Keys);
      "{" + Join(", ", seq(|keys|, i requires 0 <= i < |keys| => "'" + keys[i] + "': " + Repr(m[keys[i]]))) + "}"
  }

  /** Python's `repr(j)` as it appears inside a container's `str()`. */
  function Repr(j: Json): string
    decreases j, 1
  {
    if j.JStr? then "'" + j.s + "'" else Render(j)
  }
}
