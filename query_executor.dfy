/**
 * `QueryExecutor` (src/nl2graph/pipeline/executor.py): runs the processed
 * query of a record's run through a graph connector. The connector is an
 * oracle yielding rows or the text of the exception it raised; the rows
 * become answers exactly as in the result store's execution step.
 */
module QueryExecutors {
  import opened Wrappers
  import opened Json
  import opened QueryResults
  import Execution
  import opened PipelineEntity

  /** The run exists, has a generation, and its processed query is a non-empty string. */
  predicate HasQuery(runs: map<string, RunResult>, runId: string)
  {
    runId in runs && runs[runId].gen.Some? && runs[runId].gen.value.queryProcessed.Some?
    && runs[runId].gen.value.queryProcessed.value != ""
  }

  /** What `execute` returns for a record with these runs. */
  function Outcome(connector: Execution.Connector, runs: map<string, RunResult>, runId: string): (e: ExecutionResult)
    ensures !HasQuery(runs, runId) ==> e == ExecutionResult(None, false, Some(Execution.NoQuery))
    ensures HasQuery(runs, runId) ==>
      var reply := connector(runs[runId].gen.value.queryProcessed.value);
      && (reply.Ok? ==> e == ExecutionResult(Some(Execution.Answers(reply.value.rows)), true, None))
      && (reply.Err? ==> e == ExecutionResult(None, false, Some(reply.error)))
    ensures e.success ==> |e.answer.value| == |connector(runs[runId].gen.value.queryProcessed.value).value.rows|
  {
    if !HasQuery(runs, runId) then ExecutionResult(None, false, Some(Execution.NoQuery))
    else
      match connector(runs[runId].gen.value.queryProcessed.value)
      case Err(msg) => ExecutionResult(None, false, Some(msg))
      case Ok(q) => ExecutionResult(Some(Execution.Answers(q.rows)), true, None)
  }

  /** The outcome depends only on the run's generation: rewriting its execution or evaluation leaves it unchanged. */
  lemma OutcomeIgnoresLaterStages(connector: Execution.Connector, runs: map<string, RunResult>, runId: string,
                                  exec: Option<ExecutionResult>, eval: Option<EvaluationResult>)
    requires runId in runs
    ensures Outcome(connector, runs[runId := runs[runId].(exec := exec, eval := eval)], runId) == Outcome(connector, runs, runId)
  {
  }

  class QueryExecutor {
    const connector: Execution.Connector

    constructor (connector: Execution.Connector)
      ensures this.connector == connector
    {
      this.connector := connector;
    }

    /** `execute`: the connector is consulted only when there is a processed query. */
    method Execute(record: Record, runId: string) returns (e: ExecutionResult)
      ensures e == Outcome(connector, record.runs, runId)
    {
      if !HasQuery(record.runs, runId) {
        return ExecutionResult(None, false, Some(Execution.NoQuery));
      }
      var reply := connector(record.runs[runId].gen.value.queryProcessed.value);
      match reply
      case Err(msg) =>
        e := ExecutionResult(None, false, Some(msg));
      case Ok(q) =>
        var answer := Execution.ExtractAnswer(q.rows);
        e := ExecutionResult(Some(answer), true, None);
    }
  }
}
