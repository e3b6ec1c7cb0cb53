/**
 * Running a stored generation's query through a graph connector and
 * turning the returned rows into an answer list. The connector is an
 * oracle: it yields the query's rows, or the text of the exception it
 * raised.
 */
module Execution {
  import opened Wrappers
  import opened Json
  import opened DataEntity
  import opened QueryResults

  type Connector = string -> Wrappers.Result<QueryResult, string>

  const NoQuery := "no query to execute"

  /** The answer one row contributes: its only value, or the list of all its values. */
  function AnswerOf(row: Row): Json
  {
    if |row| == 1 then row[0].1 else JArr(Values(row))
  }

  /** `_extract_answer` as a function of the rows. */
  function Answers(rows: seq<Row>): (r: seq<Json>)
    ensures |r| == |rows|
  {
    if rows == [] then [] else [AnswerOf(rows[0])] + Answers(rows[1..])
  }

  /** Element `i` of the answer list comes from row `i`. */
  lemma {:induction false} AnswersPointwise(rows: seq<Row>, i: nat)
    requires i < |rows|
    ensures Answers(rows)[i] == AnswerOf(rows[i])
  {
    if i > 0 {
      AnswersPointwise(rows[1..], i - 1);
    }
  }

  /** `_extract_answer`: one element per row, in row order. */
  method ExtractAnswer(rows: seq<Row>) returns (answers: seq<Json>)
    ensures answers == Answers(rows)
    ensures |answers| == |rows|
  {
    if |rows| == 0 {
      return [];
    }
    answers := [];
    var i := 0;
    while i < |rows|
      invariant 0 <= i <= |rows|
      invariant answers + Answers(rows[i..]) == Answers(rows)
    {
      assert rows[i..][1..] == rows[i + 1..];
      var values := Values(rows[i]);
      if |values| == 1 {
        answers := answers + [values[0]];
      } else {
        answers := answers + [JArr(values)];
      }
      i := i + 1;
    }
  }

  /** Whether the row carries a query worth running: `gen` present and `gen.query` non-empty. */
  predicate HasQuery(result: DataEntity.Result) {
    result.gen.Some? && result.gen.value.query.Some? && result.gen.value.query.value != ""
  }

  /** What `Execution.execute` returns for one result row. */
  function Outcome(connector: Connector, result: DataEntity.Result): (e: ExecutionResult)
    ensures !HasQuery(result) ==> e == ExecutionResult(None, false, Some(NoQuery))
    ensures e.success <==> HasQuery(result) && connector(result.gen.value.query.value).Ok?
  {
    if !HasQuery(result) then ExecutionResult(None, false, Some(NoQuery))
    else
      match connector(result.gen.value.query.value)
      case Err(msg) => ExecutionResult(None, false, Some(msg))
      case Ok(q) => ExecutionResult(Some(Answers(q.rows)), true, None)
  }

  /** Every outcome is either a success with a result and no error, or a failure with an error and no result. */
  lemma OutcomeShape(connector: Connector, result: DataEntity.Result)
    ensures var e := Outcome(connector, result);
      (e.success ==> e.result.Some? && e.error.None?) && (!e.success ==> e.result.None? && e.error.Some?)
  {
  }

  /** A success answers with one element per returned row; a failure carries the connector's message. */
  lemma OutcomeContents(connector: Connector, result: DataEntity.Result)
    requires HasQuery(result)
    ensures var e := Outcome(connector, result);
      var reply := connector(result.gen.value.query.value);
      (reply.Ok? ==> e.result == Some(Answers(reply.value.rows)) && |e.result.value| == |reply.value.rows|)
      && (reply.Err? ==> e.error == Some(reply.error))
  {
  }

  /** `Execution`: a connector and the `execute` step. */
  class Execution {
    const connector: Connector

    constructor (connector: Connector)
      ensures this.connector == connector
    {
      this.connector := connector;
    }

    /** `execute`: the connector is only consulted when there is a query. */
    method Execute(result: DataEntity.Result) returns (e: ExecutionResult)
      ensures e == Outcome(connector, result)
    {
      if !HasQuery(result) {
        return ExecutionResult(None, false, Some(NoQuery));
      }
      var reply := connector(result.gen.value.query.value);
      match reply
      case Err(msg) =>
        e := ExecutionResult(None, false, Some(msg));
      case Ok(q) =>
        var answer := ExtractAnswer(q.rows);
        e := ExecutionResult(Some(answer), true, None);
    }
  }
}
