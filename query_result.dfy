/**
 * The rows a graph connector returns: each row is a dict from column name
 * to value, kept as its (column, value) pairs in insertion order so that
 * both `row.values()` order and `row.get(col)` lookup are available.
 * One module stands for both copies of these entities,
 * src/nl2graph/execution/result/entity.py and
 * src/nl2graph/graph/result/entity.py, which differ only in their
 * pydantic configuration.
 */
module QueryResults {
  import opened Json

  type Row = seq<(string, Json)>

  /** A row's column names are distinct, as in a Python dict. */
  predicate WellFormedRow(row: Row) {
    forall i, j :: 0 <= i < j < |row| ==> row[i].0 != row[j].0
  }

  /** `row.values()` in insertion order. */
  function Values(row: Row): (r: seq<Json>)
    ensures |r| == |row|
    ensures forall i :: 0 <= i < |row| ==> r[i] == row[i].1
  {
    if row == [] then [] else [row[0].1] + Values(row[1..])
  }

  /** `row.get(col)`: the value under `col`, or None when the row lacks it. */
  function RowGet(row: Row, col: string): (r: Json)
    ensures (forall i :: 0 <= i < |row| ==> row[i].0 != col) ==> r == JNull
    ensures WellFormedRow(row) ==> forall i :: 0 <= i < |row| && row[i].0 == col ==> r == row[i].1
  {
    if row == [] then JNull
    else if row[0].0 == col then row[0].1
    else RowGet(row[1..], col)
  }

  /** The columns of a row, in order: `list(row.keys())`. */
  function Cols(row: Row): (cs: seq<string>)
    ensures |cs| == |row| && forall i :: 0 <= i < |row| ==> cs[i] == row[i].0
  {
    if row == [] then [] else [row[0].0] + Cols(row[1..])
  }

  /** `row[col] = v`: a present column keeps its place and takes the new value; a new one goes last. */
  function RowSet(row: Row, col: string, v: Json): (r: Row)
    ensures forall c :: c in Cols(r) <==> c == col || c in Cols(row)
    decreases |row|
  {
    if row == [] then [(col, v)]
    else if row[0].0 == col then
      assert Cols([(col, v)] + row[1..]) == Cols(row);
      [(col, v)] + row[1..]
    else
      var rest := RowSet(row[1..], col, v);
      assert Cols(row) == [row[0].0] + Cols(row[1..]);
      assert Cols([row[0]] + rest) == [row[0].0] + Cols(rest);
      [row[0]] + rest
  }

  /** A column name occurs in a well-formed row at most once, so `row.get` finds that occurrence. */
  lemma WellFormedTail(row: Row)
    requires WellFormedRow(row) && row != []
    ensures WellFormedRow(row[1..]) && row[0].0 !in Cols(row[1..])
  {
    assert forall i :: 0 <= i < |row[1..]| ==> row[1..][i] == row[i + 1];
  }

  /** After `row[col] = v` the row is still a dict, `col` reads `v`, and every other column reads as before. */
  lemma {:induction false} RowSetGet(row: Row, col: string, v: Json)
    requires WellFormedRow(row)
    ensures WellFormedRow(RowSet(row, col, v)) && RowGet(RowSet(row, col, v), col) == v
    ensures forall c :: c != col ==> RowGet(RowSet(row, col, v), c) == RowGet(row, c)
    decreases |row|
  {
    if row != [] && row[0].0 != col {
      WellFormedTail(row);
      RowSetGet(row[1..], col, v);
      var rest := RowSet(row[1..], col, v);
      var r := [row[0]] + rest;
      assert r[1..] == rest;
      forall i, j | 0 <= i < j < |r|
        ensures r[i].0 != r[j].0
      {
        if i == 0 {
          assert r[j].0 == Cols(rest)[j - 1];
        } else {
          assert r[i] == rest[i - 1] && r[j] == rest[j - 1];
        }
      }
    } else if row != [] {
      WellFormedTail(row);
      var r := [(col, v)] + row[1..];
      forall i, j | 0 <= i < j < |r|
        ensures r[i].0 != r[j].0
      {
        if i == 0 {
          assert r[j] == row[j];
        } else {
          assert r[i] == row[i] && r[j] == row[j];
        }
      }
      forall c | c != col
        ensures RowGet(r, c) == RowGet(row, c)
      {
        assert r[1..] == row[1..];
      }
    }
  }

  /** The result of one query: its column names and its rows. */
  datatype QueryResult = QueryResult(columns: seq<string>, rows: seq<Row>)

  /** `is_empty`: true exactly when there are no rows. */
  predicate IsEmpty(q: QueryResult) {
    |q.rows| == 0
  }

  function RowCount(q: QueryResult): (n: nat)
    ensures n == 0 <==> IsEmpty(q)
  {
    |q.rows|
  }

  /** `to_list` returns the rows as they are. */
  function ToList(q: QueryResult): (r: seq<Row>)
    ensures |r| == RowCount(q)
    ensures forall i :: 0 <= i < |r| ==> r[i] == q.rows[i]
  {
    q.rows
  }

  /** `to_values`: one list per row, holding each column's value in column order, None where the row lacks the column. */
  function ToValues(q: QueryResult): (r: seq<seq<Json>>)
    ensures |r| == |q.rows|
    ensures forall i :: 0 <= i < |r| ==>
      |r[i]| == |q.columns| && forall j :: 0 <= j < |q.columns| ==> r[i][j] == RowGet(q.rows[i], q.columns[j])
  {
    seq(|q.rows|, i requires 0 <= i < |q.rows| =>
      seq(|q.columns|, j requires 0 <= j < |q.columns| => RowGet(q.rows[i], q.columns[j])))
  }

  /** When every row lists exactly the columns, in column order, `to_values` is each row's `values()`. */
  lemma ToValuesOfAlignedRows(q: QueryResult)
    requires forall i :: 0 <= i < |q.rows| ==>
      WellFormedRow(q.rows[i]) && |q.rows[i]| == |q.columns| && forall j :: 0 <= j < |q.columns| ==> q.rows[i][j].0 == q.columns[j]
    ensures forall i :: 0 <= i < |q.rows| ==> ToValues(q)[i] == Values(q.rows[i])
  {
  }

  /** Columns a row lacks read as None. */
  lemma MissingColumnIsNone(q: QueryResult, i: nat, j: nat)
    requires i < |q.rows| && j < |q.columns|
    requires forall k :: 0 <= k < |q.rows[i]| ==> q.rows[i][k].0 != q.columns[j]
    ensures ToValues(q)[i][j] == JNull
  {
  }
}
