# nl2graph, modelled in Dafny

nl2graph turns natural-language questions into graph queries (Cypher, SPARQL, Gremlin, KoPL),
runs them against a graph database and scores the answers. This project models the part of it
that decides what is stored, what is recomputed and how answers are scored:

- **Storage and repository.** A keyed JSON store with a deep-merge `update` (`Storage`).
  On top of it, the composite-key result repository (`Repository`): rows keyed by
  record, method, language and model, holding nullable generation, execution and evaluation documents.
  Saving a stage invalidates the stages after it; `clear_stage` cascades the same way.
- **Stage runners.** Generate, execute and evaluate (`GenerateStage`, `ExecuteStage`, `EvaluateStage`)
  and the combined inference pipeline (`InferenceStage`). Each one picks its pending records from
  the store under a skip or override policy, gates on the earlier stage and writes record by record.
  Their thread-pool branches are the same loop run over an arbitrary permutation of the pending list.
- **The older in-memory pipelines.** `Runner`, `LlmPipeline`, `Seq2SeqPipeline` and the MetaQA driver
  script (`MetaQa`) change `record.runs[run_id]` in place.
- **Execution and scoring.** Row-to-answer extraction with error capture (`Execution`, `QueryExecutors`);
  normalised set metrics, with ratios as exact rationals (`Metrics`); record scoring and batch
  aggregation (`Scoring`, `RunScoring`, `Evaluators`, `PipelineService`); run reports with error
  classification (`Analysis`, `Reporting`, `HopReport`).
- **String transforms.** Prompt serialisers and dict readers for the Cypher, RDF and SPARQL schemas
  (`CypherSchemas`, `RdfSchemas`, `SparqlSchemas`, `SchemaInput`); LLM-output query extraction
  (`QueryExtraction`); Neo4j relationship lowercasing and schema row shaping (`Neo4jExecution`,
  `Neo4jGraph`); query results (`QueryResults`).
- **Lookup services.** Dotted-path configuration (`Configs`); the template and model registries
  (`Templates`, `ModelsService`); the two connector caches (`ExecutionConnections`, `GraphConnections`);
  the CLI helpers (`CliHelpers`); the vocabulary utilities (`Vocab`).

The model treats the language model, database drivers, translators, the seq2seq decoder and the
template engine as oracles: each is a function parameter, assumed deterministic.
JSON values are the `Json.Json` datatype. A Python dict whose order is observable is an
`OrderedMaps.OrderedMap` (keys in insertion order); any other dict is a Dafny `map`.

## Model

The table lists the members that carry a contract. A definition without one is specified through
the rows of the members whose contracts use it: `CypherSchemas.ToDict`, `CypherSchemas.Parse` and
`SparqlSchemas.Parse` through the `RoundTrip`, `FromDict` and other lemma rows of their modules;
`DataEntity.ToDict` and `DataEntity.GetField` through `DataEntity.RecordRoundTrip` and
`DataEntity.GetFieldIsDictLookup`; `Json.Render` and `Strs.Lower` through `Metrics.NormalizedMembership`
and `Strs.LowerIdempotent`; `Reporting.KeyName` through `Reporting.RepresentativeEq`.

| member | source | states |
|---|---|---|
| Storage.MergeRules | src/nl2graph/base/storage.py:49-54 | a deep merge keeps the keys of both dicts; a key absent from the partial keeps its value, dict-against-dict merges recursively, any other value (None included) overwrites |
| Storage.MergeEmpty | src/nl2graph/base/storage.py:49-54 | merging an empty partial leaves the row unchanged |
| Storage.MergeSelf | src/nl2graph/base/storage.py:49-54 | merging a row into itself changes nothing |
| Storage.MergeIdempotent | src/nl2graph/base/storage.py:49-54 | merging the same partial twice equals merging it once |
| Storage.FlatMergeReplaces | src/nl2graph/base/storage.py:49-54 | a partial of non-dict values covering every key of the row replaces the row |
| Storage.MergeDict | src/nl2graph/base/storage.py:49-54 | the in-place loop of `_merge_dict` over the update's keys, recursing on nested dicts, yields exactly the merged dict |
| Storage.MergeEntry | src/nl2graph/base/storage.py:51-54 | one iteration of the merge loop gives `base[k]` its merged value |
| Storage.GetNeverPut | src/nl2graph/base/storage.py:23-31 | a key never put reads as None |
| Storage.PutGet | src/nl2graph/base/storage.py:33-39 | after `put` the row reads back exactly; a second `put` to the key replaces the row wholesale |
| Storage.UpdateGet | src/nl2graph/base/storage.py:41-47 | `update` of an absent key stores the partial as the whole row; of a present key it stores the deep merge |
| Storage.DeleteGet | src/nl2graph/base/storage.py:56-59 | after `delete` the key reads as None and every other key reads as before |
| Storage.TablesIndependent | src/nl2graph/base/storage.py:14-21 | put, update and delete on one table leave every other table unchanged |
| Storage.BindKey | src/nl2graph/base/storage.py:84-91 | a key field binds as the TEXT key column stores it: a string as itself, a number or bool as its text, None as NULL; a list or dict cannot be bound |
| Storage.LoadErrorOf | src/nl2graph/base/storage.py:90-91 | a record that cannot be loaded raises KeyError exactly when it lacks the key field, otherwise the binding error of its key's type |
| Storage.InitGet | src/nl2graph/base/storage.py:84-91 | after `init_from_json` on records whose keys all bind, the load raises nothing and every text-keyed record reads back under its key, the last record with a key winning |
| Storage.InitUntouched | src/nl2graph/base/storage.py:84-91 | loading records none of which binds to a key leaves that key's row as it was |
| Storage.InitLoadsAll | src/nl2graph/base/storage.py:84-91 | records that all carry a bindable key field load without an exception |
| Storage.InitNullRows | src/nl2graph/base/storage.py:84-91 | each record whose key field is None is stored as one more NULL-keyed row, in list order, and the load goes on |
| Storage.InitOtherNullRows | src/nl2graph/base/storage.py:84-91 | loading into one table leaves every other table's NULL-keyed rows as they were |
| Storage.InitFirstError | src/nl2graph/base/storage.py:84-91 | the first record that lacks the key field or has a list or dict key raises, and the store is exactly that of loading the records before it |
| Storage.NullKeyThenText | src/nl2graph/base/storage.py:84-91 | `[{"id": None}, {"id": "b"}]` loads without error: one NULL-keyed row, and "b" reads back |
| Storage.ScanItems | src/nl2graph/base/storage.py:78-82 | pairing a scan's keys with their rows gives each text key once with its row |
| Storage.StorageService.constructor | src/nl2graph/base/storage.py:8-12 | a new store holds no tables and no NULL-keyed rows |
| Storage.StorageService.Get | src/nl2graph/base/storage.py:23-31 | the stored row of the key, or None exactly when the key has no row |
| Storage.StorageService.Put | src/nl2graph/base/storage.py:33-39 | the key's row becomes the given dict, nothing else changes, NULL-keyed rows included |
| Storage.StorageService.Update | src/nl2graph/base/storage.py:41-47 | the store after `update` is the read-modify-write `UpdateRow`: the partial when the key is absent, the deep merge when present; NULL-keyed rows unchanged |
| Storage.StorageService.Delete | src/nl2graph/base/storage.py:56-59 | the key's row is removed, nothing else changes, NULL-keyed rows included |
| Storage.StorageService.Exists | src/nl2graph/base/storage.py:61-66 | true exactly when the key has a row |
| Storage.StorageService.Count | src/nl2graph/base/storage.py:68-71 | the number of distinct text keys of the table plus its NULL-keyed rows |
| Storage.StorageService.Keys | src/nl2graph/base/storage.py:73-76 | lists every text key of the table exactly once and nothing else, then None once per NULL-keyed row |
| Storage.StorageService.IterAll | src/nl2graph/base/storage.py:78-82 | yields each text key once with its row, then (None, row) for each NULL-keyed row, oldest first |
| Storage.StorageService.InitFromJson | src/nl2graph/base/storage.py:84-91 | the store and the exception after the loop are those of `InitRows`: each record put under its bound key in list order, a None key adding a NULL-keyed row, a missing field (KeyError) or a list or dict key (binding error) stopping the load after the earlier puts |
| DataEntity.ParseMethod | src/nl2graph/data/entity.py:51-53 | the `method` literal accepts exactly "llm" and "seq2seq" |
| DataEntity.MethodRoundTrip | src/nl2graph/data/entity.py:53 | every method value survives printing and re-validation |
| DataEntity.FromDict | src/nl2graph/data/entity.py:31-43 | `Record.from_dict` succeeds only on dicts whose dump gives them back, with the declared fields well typed |
| DataEntity.RecordRoundTrip | src/nl2graph/data/entity.py:38-43 | validating the dump of a record gives the record back |
| DataEntity.GetFieldIsDictLookup | src/nl2graph/data/entity.py:45-48 | `get_field` reads the declared attribute, else the extra field, else the default: the same value as a lookup in the dumped dict |
| Repository.ResultOf | src/nl2graph/data/repository.py:63-68 | the `Result` the code evidently intends to read back from a row carries that row's composite key (as written the read raises; see Findings) |
| Repository.SaveGenCascade | src/nl2graph/data/repository.py:74-89 | after `save_generation` the row exists with the new `gen`, and `exec` and `eval` are None, whatever it held before |
| Repository.SaveExecCascade | src/nl2graph/data/repository.py:91-103 | after `save_execution` the row exists, keeps its `gen` (None for a new row), holds the new `exec` and a None `eval` |
| Repository.SaveEvalOnlyEval | src/nl2graph/data/repository.py:105-116 | `save_evaluation` replaces `eval` and keeps `gen` and `exec` |
| Repository.WritesAreKeyLocal | src/nl2graph/data/repository.py:55-61 | a write under one (record id, method, lang, model) key neither creates, removes nor alters the row of any other key |
| Repository.ClearRows | tests/test_cli/test_init.py:137-229 | `clear_stage` keeps every row in place |
| Repository.ClearCascade | tests/test_cli/test_init.py:137-229 | clearing "gen" nulls all three stages, "exec" nulls exec and eval and keeps gen, "eval" nulls only eval, on every row of the configuration |
| Repository.ClearScopedAndIdempotent | tests/test_cli/test_init.py:137-229 | rows of other configurations are untouched, clearing twice equals clearing once, and nothing is left to clear |
| Repository.PendingRecords | src/nl2graph/data/repository.py:134-147 | the pending records are a subsequence of the source records |
| Repository.PendingMembership | src/nl2graph/data/repository.py:134-147 | a source record is pending exactly when it has no row or its row has a None `eval` |
| Repository.DecodeEncode | src/nl2graph/data/repository.py:63-68 | reading back the JSON of a stored row gives the three stage outputs that were written |
| Repository.SaveExecIsStoreUpdate | src/nl2graph/data/repository.py:91-103 | `save_execution` is the store's deep-merge update with `{exec, eval: None}`: merging into an existing encoded row gives the encoding of the new row, and the partial stored as a new row reads back as that row |
| Repository.ExecRowMerge | src/nl2graph/data/repository.py:100-103 | the deep merge of the execution partial into one encoded row is the encoding of the row with the new exec and no eval |
| Repository.ExecFieldMerge | src/nl2graph/data/repository.py:100-103 | merging a dumped execution into a stored one, or in place of None, gives the new dump |
| Repository.SaveEvalIsStoreUpdate | src/nl2graph/data/repository.py:105-116 | `save_evaluation` is the store's deep-merge update with `{eval}`, on an existing or an absent row |
| Repository.EvalRowMerge | src/nl2graph/data/repository.py:114-116 | the deep merge of the evaluation partial into one encoded row is the encoding of the row with the new eval |
| Repository.EvalFieldMerge | src/nl2graph/data/repository.py:114-116 | merging a dumped evaluation into a stored one, or in place of None, gives the new dump |
| Repository.ClearCount | tests/test_cli/test_init.py:137-161 | visiting one more row adds one to the count exactly when clearing changes that row |
| Repository.ResultRepository.constructor | src/nl2graph/data/repository.py:51-53 | a new repository holds no rows |
| Repository.GetAsWritten | src/nl2graph/data/repository.py:63-68 | as written, `get` returns None for a missing row and otherwise raises, never returning a `Result` |
| Repository.StoredRowRaises | src/nl2graph/data/repository.py:63-68 | as written, `get` raises exactly for a stored row, which the intended read returns as the `Result` of its key |
| Repository.PendingAsWrittenRaises | src/nl2graph/data/repository.py:134-147 | as written, `iter_pending` completes exactly when no source record has a row, and then yields every record, as the intended scan does; otherwise it raises the AttributeError |
| Repository.UnevaluatedRowRaises | src/nl2graph/data/repository.py:134-147 | a record whose row has no `eval` makes `iter_pending` as written raise, where the intended scan yields it |
| Repository.ResultRepository.Get | src/nl2graph/data/repository.py:63-68 | the read the code evidently intends: the result of the key's row, or None exactly when the key has no row (as written a stored row raises; see Findings) |
| Repository.ResultRepository.Exists | src/nl2graph/data/repository.py:70-72 | true exactly when the composite key has a row |
| Repository.ResultRepository.SaveGeneration | src/nl2graph/data/repository.py:74-89 | the rows become the `save_generation` cascade of the old rows |
| Repository.ResultRepository.SaveExecution | src/nl2graph/data/repository.py:91-103 | the rows become the `save_execution` cascade of the old rows |
| Repository.ResultRepository.SaveEvaluation | src/nl2graph/data/repository.py:105-116 | the rows become the `save_evaluation` update of the old rows |
| Repository.ResultRepository.Count | src/nl2graph/data/repository.py:118-119 | the number of rows |
| Repository.ResultRepository.Select | src/nl2graph/data/repository.py:121-132 | a table scan returns exactly the rows whose key passes the test, each once |
| Repository.ResultRepository.IterAll | src/nl2graph/data/repository.py:121-123 | every row exactly once |
| Repository.ResultRepository.IterByRecord | src/nl2graph/data/repository.py:125-127 | exactly the rows of one record id, across all configurations, each once |
| Repository.ResultRepository.IterByConfig | src/nl2graph/data/repository.py:129-132 | exactly the rows whose method, lang and model match, each once |
| Repository.ResultRepository.IterPending | src/nl2graph/data/repository.py:134-147 | the pending records of the source in source order |
| Repository.ResultRepository.ClearStage | tests/test_cli/test_init.py:137-229 | the rows become the cascade-cleared rows of the configuration, and the count returned is the number of rows the clearing changed |
| Repository.FilterIgnoresNone | src/nl2graph/data/repository.py:32-35 | with only None-valued filters every record passes |
| Repository.FilterMembership | src/nl2graph/data/repository.py:32-35 | a record passes exactly when every non-None filter equals its field |
| Repository.SourceRepository.constructor | src/nl2graph/data/repository.py:8-10 | a source repository over the loaded records |
| Repository.SourceRepository.IterAll | src/nl2graph/data/repository.py:28-30 | every record in scan order |
| Repository.SourceRepository.IterByFilter | src/nl2graph/data/repository.py:32-35 | exactly the filtered records, in scan order |
| Batch.ApplyFrame | src/nl2graph/pipeline/generate.py:54-56 | a stage's write loop writes exactly the keys of its batch: every other row keeps its contents and no row is removed |
| Batch.ApplyClosedForm | src/nl2graph/pipeline/execute.py:56-59 | with distinct ids, each record's row after the loop is its update applied to the row as it was before the batch |
| Batch.ApplyPermutation | src/nl2graph/pipeline/execute.py:63-74 | two orders of the same distinct-id batch, such as those in which worker-pool futures complete, leave the same rows |
| Batch.DistinctSub | src/nl2graph/pipeline/generate.py:41-46 | a sub-list of a batch with distinct ids has distinct ids |
| Batch.Where | src/nl2graph/pipeline/execute.py:35 | a pending-list comprehension is no longer than its input |
| Batch.WhereMembership | src/nl2graph/pipeline/execute.py:35 | a record is selected exactly when it is in the list and its current row passes the test |
| Batch.WhereSub | src/nl2graph/pipeline/execute.py:35 | the selection takes each record at most as often as the list holds it |
| Batch.WhereDistinct | src/nl2graph/pipeline/execute.py:35 | selecting from a list with distinct ids gives a list with distinct ids |
| Batch.WhereNone | src/nl2graph/pipeline/execute.py:50-51 | when no row passes the test the pending list is empty |
| Batch.KeysOfSameElements | src/nl2graph/pipeline/execute.py:63-74 | two orders of the same records write the same keys |
| GenerateStage.GenFoldOk | src/nl2graph/pipeline/generate.py:54-56 | the generation loop ends without error exactly when every generator call succeeds, and is then the write loop of `_save` |
| GenerateStage.FirstFail | src/nl2graph/pipeline/generate.py:54-56 | the first record whose generator call raises: every earlier call succeeded |
| GenerateStage.GenFoldFails | src/nl2graph/pipeline/generate.py:54-56 | when a generator call raises, the loop reports that error and keeps exactly the writes of the records before it |
| GenerateStage.GenFoldFrame | src/nl2graph/pipeline/generate.py:54-56 | whatever the outcome, the loop writes only the keys of the records it visits and removes no row |
| GenerateStage.GenPendingMembership | src/nl2graph/pipeline/generate.py:41-46 | under skip a record is pending exactly when it has no row; under override every record is |
| GenerateStage.GenerateFrame | src/nl2graph/pipeline/generate.py:41-58 | only pending records' keys are written: every other row, and under skip every row that already existed, keeps its contents; an empty pending list writes nothing |
| GenerateStage.GenerateWrites | src/nl2graph/pipeline/generate.py:53-62 | with distinct ids and no failing call, each pending record's row holds query = content and stats = stats with `exec` and `eval` None |
| GenerateStage.OverrideRegeneratesAll | src/nl2graph/pipeline/generate.py:45-46 | under override every record's row is regenerated from scratch |
| GenerateStage.SecondSkipRunWritesNothing | src/nl2graph/pipeline/generate.py:41-44 | after a run that ended without error, a skip run over the same records writes nothing |
| GenerateStage.ParallelMatchesSequential | src/nl2graph/pipeline/generate.py:51-56 | with distinct ids and no failing call, the worker-pool branch leaves the same rows as the sequential loop, whatever order the futures complete in |
| GenerateStage.CollectPending | src/nl2graph/pipeline/generate.py:41-46 | the pending list is the skip/override selection over the store |
| GenerateStage.GeneratePipeline.constructor | src/nl2graph/pipeline/generate.py:22-38 | the stage keeps its generator, store, configuration, worker count and policy |
| GenerateStage.GeneratePipeline.Run | src/nl2graph/pipeline/generate.py:40-74 | `run` returns its input list, and the store and the error raised are those of the stage's specification |
| ExecuteStage.ExecPendingMembership | src/nl2graph/pipeline/execute.py:35-48 | a record is pending exactly when it has a row and, under skip, the row has no `exec` |
| ExecuteStage.ExecPendingDistinct | src/nl2graph/pipeline/execute.py:35-48 | pending records of a batch with distinct ids have distinct ids |
| ExecuteStage.PendingKeysExist | src/nl2graph/pipeline/execute.py:35 | every pending record names an existing row |
| ExecuteStage.ExecuteFrame | src/nl2graph/pipeline/execute.py:34-61 | the stage creates no row, and every row outside the pending set, under skip every row already executed, keeps its contents |
| ExecuteStage.ExecuteWrites | src/nl2graph/pipeline/execute.py:55-59 | with distinct ids each pending row keeps its `gen`, gets the execution of the row as it was before the stage, and loses its `eval` |
| ExecuteStage.GenlessRowFails | src/nl2graph/pipeline/execute.py:35 | a pending row without `gen` is executed and stored as success False with "no query to execute" |
| ExecuteStage.ParallelMatchesSequential | src/nl2graph/pipeline/execute.py:53-74 | with distinct ids the worker-pool branch leaves the same rows as the sequential loop |
| ExecuteStage.ExecStep | src/nl2graph/pipeline/execute.py:57-59 | one iteration of the loop is one write step on an existing row |
| ExecuteStage.WithRow | src/nl2graph/pipeline/execute.py:35 | `has_gen` is the records whose row exists |
| ExecuteStage.Unexecuted | src/nl2graph/pipeline/execute.py:39-46 | the skip pass keeps the records whose row has no `exec` |
| ExecuteStage.CollectPending | src/nl2graph/pipeline/execute.py:35-48 | the pending list is the stage's selection over the store |
| ExecuteStage.ExecuteAll | src/nl2graph/pipeline/execute.py:56-59 | the store after the loop is the write loop's result for the order given |
| ExecuteStage.OrderKeysExist | src/nl2graph/pipeline/execute.py:63-74 | the pending records, in whatever order the futures deliver them, all name existing rows |
| ExecuteStage.ExecutePipeline.constructor | src/nl2graph/pipeline/execute.py:16-32 | the stage keeps its execution, store, configuration, worker count and policy |
| ExecuteStage.ExecutePipeline.Run | src/nl2graph/pipeline/execute.py:34-74 | `run` returns its input list, and the store ends as the stage's specification says |
| EvaluateStage.EvalPendingMembership | src/nl2graph/pipeline/evaluate.py:32-51 | a record is pending exactly when its row exists with an `exec` and, under skip, without an `eval` (an all-None evaluation counts as present) |
| EvaluateStage.EvalLoopKeepsUpstream | src/nl2graph/pipeline/evaluate.py:56-59 | the scoring loop removes no row and changes no row's `gen` or `exec` |
| EvaluateStage.EvaluateFrame | src/nl2graph/pipeline/evaluate.py:31-61 | the stage writes only `eval`: no row is created, `gen` and `exec` are kept, rows outside the pending set are unchanged |
| EvaluateStage.EvaluateWrites | src/nl2graph/pipeline/evaluate.py:56-59 | with distinct ids each pending record's `eval` is the score of the record against its row as it was before the stage |
| EvaluateStage.WithExec | src/nl2graph/pipeline/evaluate.py:32-38 | `has_exec` is the records whose row exists and holds an `exec` |
| EvaluateStage.Unevaluated | src/nl2graph/pipeline/evaluate.py:42-49 | the skip pass keeps the records whose row has no `eval` |
| EvaluateStage.CollectPending | src/nl2graph/pipeline/evaluate.py:32-51 | the pending list is the stage's selection over the store |
| EvaluateStage.EvaluateAll | src/nl2graph/pipeline/evaluate.py:56-59 | the store after the sequential loop is the write loop's result over the pending records |
| EvaluateStage.PendingKeysExist | src/nl2graph/pipeline/evaluate.py:32-38 | every pending record names an existing row |
| EvaluateStage.EvaluatePipeline.constructor | src/nl2graph/pipeline/evaluate.py:15-29 | the stage keeps its store, configuration and policy; its scorer is the default `Scoring` |
| EvaluateStage.EvaluatePipeline.Run | src/nl2graph/pipeline/evaluate.py:31-61 | `run` returns its input list, and the store ends as the stage's specification says |
| Translation.TranslateIr | src/nl2graph/pipeline/inference.py:77-87 | cypher, sparql and kopl go to their translator entry point; a raising translator or any other language gives the input back unchanged |
| QueryExtraction.FindFence | src/nl2graph/pipeline/inference.py:68 | the first "```" at or after a position, or none |
| QueryExtraction.FindTick | src/nl2graph/pipeline/inference.py:69 | the first backtick at or after a position, or none |
| QueryExtraction.TagLen | src/nl2graph/pipeline/inference.py:68 | the optional cypher/sparql/gremlin tag (ASCII letters in either case) after the opening fence holds no backtick |
| QueryExtraction.SkipSpace | src/nl2graph/pipeline/inference.py:68 | `\s*` stops at the first non-whitespace character |
| QueryExtraction.GroupStart | src/nl2graph/pipeline/inference.py:68 | skipping the tag and the whitespace after it does not move the closing fence |
| QueryExtraction.ExtractQuery | src/nl2graph/pipeline/inference.py:66-75 | the extracted query never starts or ends with whitespace |
| QueryExtraction.FencedBlockMatches | src/nl2graph/pipeline/inference.py:68-74 | the fenced pattern matches exactly when the reply holds two fences that do not overlap |
| QueryExtraction.InlineMatches | src/nl2graph/pipeline/inference.py:69-74 | the inline pattern matches exactly when a backtick is followed by a non-backtick and, later, another backtick |
| QueryExtraction.InlineOnly | src/nl2graph/pipeline/inference.py:69-74 | with exactly two backticks and something between them, the reply yields what lies between, stripped |
| QueryExtraction.TagAtExactly | src/nl2graph/pipeline/inference.py:68 | a tag followed by whitespace or a backtick is read as exactly that tag |
| QueryExtraction.PickFenced | src/nl2graph/pipeline/inference.py:71-74 | when the fenced pattern's group is the body less some leading whitespace, the query is the body stripped |
| QueryExtractionFacts.ExtractPlain | src/nl2graph/pipeline/inference.py:75 | a reply with no backtick is returned stripped |
| QueryExtractionFacts.ExtractInline | src/nl2graph/pipeline/generator.py:52-57 | inline code between the only two backticks of a reply is returned stripped |
| QueryExtractionFacts.ExtractFenced | src/nl2graph/pipeline/generator.py:50-57 | the first fenced block, with no tag or a cypher/sparql/gremlin tag, yields its body stripped, whatever follows it, inline backticks included |
| InferenceStage.Shape | src/nl2graph/pipeline/inference.py:114-122 | translation when a translator is set and ir_mode is on; else the extracted query when extract_query is on; else the raw reply |
| InferenceStage.PromptFor | src/nl2graph/pipeline/inference.py:57-103 | the rendered "prompts" template with question, schema text and lang when a template service, a non-empty template name and a schema are all given; otherwise the question itself |
| InferenceStage.PromptErrorNone | src/nl2graph/pipeline/inference.py:100-101 | building the prompts fails exactly when some pending record's prompt cannot be rendered |
| InferenceStage.PromptFailureWritesNothing | src/nl2graph/pipeline/inference.py:100-101 | a prompt that cannot be rendered stops `generate` before any model call, with no row changed |
| InferenceStage.InferGenerateWrites | src/nl2graph/pipeline/inference.py:89-123 | with distinct ids and a model that answers every pending prompt, each pending row becomes the shaped reply with no stats and no `exec`/`eval`, and no other row changes |
| InferenceStage.InferParallelMatchesSequential | src/nl2graph/pipeline/inference.py:105-134 | with distinct ids and no failure the worker pool leaves the same rows as the sequential loop |
| InferenceStage.InferExecuteIsExecuteStage | src/nl2graph/pipeline/inference.py:136-176 | `execute` behaves as `ExecutePipeline.run` when an execution is set, and without one fails only when something is pending |
| InferenceStage.InferencePipeline.constructor | src/nl2graph/pipeline/inference.py:25-55 | the pipeline keeps every collaborator and option it is given except `scoring`, which is the default `Scoring` |
| InferenceStage.InferencePipeline.Generate | src/nl2graph/pipeline/inference.py:89-134 | `generate` returns its input list; the store and any error are those of the stage's specification |
| InferenceStage.InferencePipeline.Execute | src/nl2graph/pipeline/inference.py:136-176 | `execute` returns its input list; the store and any error are those of the stage's specification |
| InferenceStage.InferencePipeline.Evaluate | src/nl2graph/pipeline/inference.py:178-208 | `evaluate` returns its input list, and the store ends exactly as `EvaluatePipeline.run` leaves it |
| Execution.Answers | src/nl2graph/execution/execution.py:34-46 | one answer per row |
| Execution.AnswersPointwise | src/nl2graph/execution/execution.py:39-44 | answer i comes from row i: its single value for a one-column row, else the list of its values in column order (empty for a zero-column row) |
| Execution.ExtractAnswer | src/nl2graph/execution/execution.py:34-46 | the loop of `_extract_answer` computes the answer list, one element per row in row order, [] for no rows |
| Execution.Outcome | src/nl2graph/execution/execution.py:12-32 | a missing `gen` or an empty or None query gives success False with "no query to execute"; success exactly when there is a query and the connector returns rows |
| Execution.OutcomeShape | src/nl2graph/execution/execution.py:12-32 | every outcome is a success with a result and no error, or a failure with an error and no result |
| Execution.OutcomeContents | src/nl2graph/execution/execution.py:21-32 | a success holds the extracted answers of the connector's rows; a failure holds the connector's message |
| Execution.Execution.constructor | src/nl2graph/execution/execution.py:9-10 | the execution keeps its connector |
| Execution.Execution.Execute | src/nl2graph/execution/execution.py:12-32 | `execute` returns the outcome of the result row |
| QueryExecutors.Outcome | src/nl2graph/pipeline/executor.py:11-32 | a missing run, missing gen or empty processed query gives "no query to execute"; otherwise success with one answer per returned row, or the connector's error |
| QueryExecutors.OutcomeIgnoresLaterStages | src/nl2graph/pipeline/executor.py:12-19 | the outcome depends only on the run's generation, not on its `exec` or `eval` |
| QueryExecutors.QueryExecutor.constructor | src/nl2graph/pipeline/executor.py:8-9 | the executor keeps its connector |
| QueryExecutors.QueryExecutor.Execute | src/nl2graph/pipeline/executor.py:11-46 | `execute` returns the outcome of the record's run |
| Metrics.Normalized | src/nl2graph/eval/metrics.py:6-13 | the normalised set is no larger than the answer list |
| Metrics.NormalizedMembership | src/nl2graph/eval/metrics.py:6-13 | a string is in the set exactly when some non-None answer's `str`, stripped and lower-cased, is that string |
| Metrics.NormalizedSingle | src/nl2graph/eval/metrics.py:6-13 | one non-None answer gives a one-element set |
| Metrics.NormalizeAnswers | src/nl2graph/eval/metrics.py:6-13 | the set-building loop computes the normalised set |
| Metrics.NormalizeIdempotent | src/nl2graph/eval/metrics.py:12 | normalising a normalised answer changes nothing |
| Metrics.NormalizeIgnoresCase | src/nl2graph/eval/metrics.py:12 | normalisation ignores letter case |
| Metrics.ExactMatch | src/nl2graph/eval/metrics.py:15-17 | 1.0 exactly when the sets are equal (empty equals empty), else 0.0 |
| Metrics.IntersectionSize | src/nl2graph/eval/metrics.py:26-28 | the overlap is no larger than either set, and equals the first only when it is a subset |
| Metrics.PrecisionRecallF1 | src/nl2graph/eval/metrics.py:20-35 | (0, 0, 0) when either set is empty; precision = overlap / pred, recall = overlap / gold; F1 = 2PR/(P+R), 0 when P+R = 0; all three in [0, 1] |
| Metrics.F1IsDice | src/nl2graph/eval/metrics.py:26-33 | over exact reals, F1 equals 2 × overlap / (gold + pred) |
| Metrics.PerfectIffEqual | src/nl2graph/eval/metrics.py:26-33 | on non-empty sets precision, recall and F1 are all 1 exactly when the sets are equal |
| Metrics.DisjointScoresZero | src/nl2graph/eval/metrics.py:20-33 | disjoint sets score 0 on every measure |
| Metrics.PartialMatchExample | src/nl2graph/eval/metrics.py:15-35 | two of three gold answers predicted: exact match 0, precision 1, recall 2/3, F1 4/5 |
| Metrics.Accuracy | src/nl2graph/eval/metrics.py:37-39 | correct / total when total > 0, else 0; in [0, 1] when 0 ≤ correct ≤ total |
| Metrics.StringMatchLaws | src/nl2graph/eval/metrics.py:41-43 | `string_match` is an equivalence that ignores surrounding whitespace |
| Scoring.Evaluate | src/nl2graph/evaluation/scoring.py:7-22 | a missing or unsuccessful exec gives the all-None evaluation; a success gives all four scores from the normalised gold and `result or []` |
| Scoring.EvaluateScores | src/nl2graph/evaluation/scoring.py:11-22 | after a success exact match is 1 exactly when the normalised sets are equal, and every score lies in [0, 1] |
| Scoring.NoResultScoresZero | src/nl2graph/evaluation/scoring.py:12-15 | a success whose result is None scores precision, recall and F1 0 |
| Scoring.EvaluateIsMetrics | src/nl2graph/evaluation/scoring.py:11-22 | the four scores are the metric functions applied to the normalised gold and predicted sets |
| Scoring.EqualSetsScorePerfect | src/nl2graph/evaluation/scoring.py:14-22 | equal non-empty answer sets score 1 on every measure |
| Scoring.DisjointSetsScoreZero | src/nl2graph/evaluation/scoring.py:14-22 | disjoint answer sets with a non-empty gold score 0 on every measure |
| Scoring.FullMatchExample | src/nl2graph/evaluation/scoring.py:11-22 | a gold and a predicted answer differing only in letter case score 1/1/1/1 |
| Scoring.CaseOnlyDifference | src/nl2graph/evaluation/scoring.py:11-12 | strings equal up to letter case normalise alike |
| Scoring.NoMatchExample | src/nl2graph/evaluation/scoring.py:11-22 | single answers that normalise differently score 0 on every measure |
| RunEntity.NewRun | src/nl2graph/eval/entity.py:25-31 | a new run has its method, lang and model, and None gen, exec and eval |
| RunEntity.RunId | src/nl2graph/eval/entity.py:42-43 | the run id is the language, two dashes, then the model |
| RunEntity.DashFreePrefix | src/nl2graph/eval/entity.py:42-43 | a dash-free language fills the id up to its first dash |
| RunEntity.RunIdInjective | src/nl2graph/eval/entity.py:42-43 | for dash-free languages the id determines the language and the model |
| RunEntity.RunIdAmbiguous | src/nl2graph/eval/entity.py:42-43 | ("a-", "b") and ("a", "-b") share an id, so with dashed languages the id is ambiguous |
| RunEntity.Record.constructor | src/nl2graph/eval/entity.py:34-40 | a loaded record keeps its question, answer, hop and extra fields, and has no runs |
| RunEntity.Record.AddRun | src/nl2graph/eval/entity.py:45-48 | the run is stored under `get_run_id(run.lang, run.model)`, replacing any run with that id, and the id is returned |
| PipelineEntity.NewRun | src/nl2graph/pipeline/entity.py:25-30 | a new run has its lang and model, and None gen, exec and eval |
| PipelineEntity.Record.constructor | src/nl2graph/pipeline/entity.py:33-40 | a loaded record keeps its fields and has no runs |
| RunScoring.ScoreSets | src/nl2graph/eval/scoring.py:17-28 | all four scores are present; exact match is 1 exactly when the sets are equal, else 0; the others lie in [0, 1] |
| RunScoring.RunScore | src/nl2graph/eval/scoring.py:14-28 | a run without a successful exec scores all-None; otherwise the set scores of the normalised gold and `result or []` |
| RunScoring.EvaluateRecord | src/nl2graph/eval/scoring.py:12-28 | `evaluate_record` is all-None when the run is missing or its exec is missing or failed, and otherwise the run's set scores |
| RunScoring.EvaluateRecordIsStoreScoring | src/nl2graph/eval/scoring.py:12-28 | a run's scores equal the result store's scoring of a row holding the same execution |
| RunScoring.Step | src/nl2graph/eval/scoring.py:40-56 | one iteration of the batch loop keeps the tally's bounds |
| RunScoring.StepCounts | src/nl2graph/eval/scoring.py:40-53 | one iteration counts a record holding the run once in `total`, once in `error_count` when its exec is missing or failed, and in `correct` when it is answered exactly |
| RunScoring.TallyOf | src/nl2graph/eval/scoring.py:33-56 | the tally after the loop is bounded: correct + errors ≤ total and each sum at most the number scored |
| RunScoring.TallyCounts | src/nl2graph/eval/scoring.py:40-53 | `total` is the number of records holding the run, `error_count` those whose run failed, `correct` those answered exactly |
| RunScoring.Summarize | src/nl2graph/eval/scoring.py:58-67 | accuracy and averages divide by valid_count = total − error_count and are 0 when it is 0 |
| RunScoring.EvaluateBatch | src/nl2graph/eval/scoring.py:30-67 | the batch loop computes the summary of the tally; correct + error_count ≤ total; accuracy and averages lie in [0, 1] |
| Evaluators.HitsAt1 | src/nl2graph/pipeline/evaluator.py:55-59 | 0 for no prediction; otherwise 1 exactly when the first prediction in iteration order is gold |
| Evaluators.HitsAt1OrderFree | src/nl2graph/pipeline/evaluator.py:55-59 | whatever the iteration order, hits@1 is 1 when every prediction is gold and 0 when none is |
| Evaluators.RunScore | src/nl2graph/pipeline/evaluator.py:9-25 | no scores unless the run's exec succeeded; then the set scores and hits@1 of the normalised gold and `answer or []` |
| Evaluators.Evaluate | src/nl2graph/pipeline/evaluator.py:7-25 | all-None when the record does not hold the run, else the run's scores |
| Evaluators.EmptyPredictionScoresZero | src/nl2graph/pipeline/evaluator.py:39-57 | a successful run with no prediction scores 0 on precision, recall, F1 and hits@1 |
| Evaluators.GoldPredictionsHit | src/nl2graph/pipeline/evaluator.py:35-59 | predictions that are all gold have hits@1 1, and predicting the gold set exactly scores 1 throughout |
| Runner.Ensured | src/nl2graph/pipeline/runner.py:31-33 | `_ensure_run` adds an empty run under the id only when the record has none; an existing run is untouched |
| Runner.AfterGen | src/nl2graph/pipeline/runner.py:50 | a successful generation replaces the run's `gen` and nothing else; a raising one changes nothing |
| Runner.WithExec | src/nl2graph/pipeline/runner.py:68 | the run's `exec` is replaced, and nothing else, when the record holds the run |
| Runner.WithEval | src/nl2graph/pipeline/runner.py:86 | the run's `eval` is replaced, and nothing else, when the record holds the run |
| Runner.Holding | src/nl2graph/pipeline/runner.py:64 | `valid_records` holds exactly the records that hold the run |
| Runner.StopAt | src/nl2graph/pipeline/runner.py:48-59 | the saving loop gets through exactly the records before the first whose generation raises |
| Runner.ShuffledSavesAll | src/nl2graph/pipeline/runner.py:52-59 | a loop visiting any completion order of the records, none of which raises, saves every record |
| Runner.SaveExec | src/nl2graph/pipeline/runner.py:68 | storing a record's execution changes only its run's `exec` |
| Runner.SaveEval | src/nl2graph/pipeline/runner.py:86 | storing a record's scores changes only its run's `eval` |
| Runner.SaveGen | src/nl2graph/pipeline/runner.py:50 | storing a record's generation changes only its run's `gen` |
| Runner.ExecOutcomeStable | src/nl2graph/pipeline/runner.py:66-77 | a record reached twice is executed again with the same outcome |
| Runner.EvalScoreStable | src/nl2graph/pipeline/runner.py:84-95 | a record reached twice is scored again with the same scores |
| Runner.ExecuteAll | src/nl2graph/pipeline/runner.py:66-77 | whatever the order, each visited record's run gets the outcome of its own generation as `exec`, the others are unchanged |
| Runner.EvaluateAll | src/nl2graph/pipeline/runner.py:84-95 | whatever the order, each visited record's run gets the scores of its own execution as `eval`, the others are unchanged |
| Runner.SaveGenerations | src/nl2graph/pipeline/runner.py:48-59 | each record visited before the first raising generation gets its generation as `gen`; every other record is unchanged |
| Runner.PipelineRunner.constructor | src/nl2graph/pipeline/runner.py:14-29 | the run id is lang + "--" + model, the generator and executor are kept, and the evaluator is the default `Evaluator` with its hits@1 choice `first` |
| Runner.PipelineRunner.Generation | src/nl2graph/pipeline/runner.py:35-36 | `_generate_one` is the generator's answer for the question and schema |
| Runner.PipelineRunner.Generate | src/nl2graph/pipeline/runner.py:44-61 | every record gets a run, then each visited record's `gen` is overwritten until a generation raises; `exec` and `eval` keep their values; a missing generator or a worker count below one fails |
| Runner.PipelineRunner.EnsureRuns | src/nl2graph/pipeline/runner.py:45-46 | after the loop every record holds the run and runs already there are untouched |
| Runner.PipelineRunner.ParallelGenerateMatchesSequential | src/nl2graph/pipeline/runner.py:48-59 | without failures both branches save a generation for every record |
| Runner.PipelineRunner.CollectHolding | src/nl2graph/pipeline/runner.py:64 | the list comprehension is `Holding` in list order |
| Runner.PipelineRunner.Execute | src/nl2graph/pipeline/runner.py:63-79 | each record holding the run gets its execution outcome as `exec`, the others are untouched, whatever the completion order |
| Runner.PipelineRunner.Evaluate | src/nl2graph/pipeline/runner.py:81-97 | each record holding the run gets its scores as `eval`, the others are untouched, whatever the completion order |
| RunStages.Ensured | src/nl2graph/llm/pipeline.py:30-36 | `_ensure_run` adds a run with the method, lang and model only when absent |
| RunStages.WithGen | src/nl2graph/llm/pipeline.py:53 | the run's `gen` is replaced, and nothing else, when the record holds the run |
| RunStages.WithExec | src/nl2graph/llm/pipeline.py:71 | the run's `exec` is replaced, and nothing else, when the record holds the run |
| RunStages.WithEval | src/nl2graph/llm/pipeline.py:88 | the run's `eval` is replaced, and nothing else, when the record holds the run |
| RunStages.StoreGen | src/nl2graph/llm/pipeline.py:53 | storing a generation changes only the run's `gen` |
| RunStages.StoreExec | src/nl2graph/llm/pipeline.py:71 | storing an execution changes only the run's `exec` |
| RunStages.StoreEval | src/nl2graph/llm/pipeline.py:88 | storing scores changes only the run's `eval` |
| RunStages.Holding | src/nl2graph/llm/pipeline.py:67 | `valid_records` holds exactly the records that hold the run |
| RunStages.CollectHolding | src/nl2graph/llm/pipeline.py:67 | the comprehension loop computes `Holding` in list order |
| RunStages.EnsureRuns | src/nl2graph/llm/pipeline.py:48-49 | after the loop every record holds the run and existing runs are untouched |
| RunStages.GenOf | src/nl2graph/llm/pipeline.py:41-42 | the generation an execution reads: the run's `gen`, none when the record does not hold the run |
| RunStages.StopAt | src/nl2graph/llm/pipeline.py:51-62 | the loop gets through exactly the records before the first whose generation raises |
| RunStages.ShuffledSavesAll | src/nl2graph/llm/pipeline.py:55-62 | a loop over any completion order of the records, none of which raises, saves every record |
| RunStages.SaveGenerations | src/nl2graph/llm/pipeline.py:51-62 | each record visited before the first raising generation gets its generation as `gen`; the others are unchanged |
| RunStages.ExecGenStable | src/nl2graph/llm/pipeline.py:69-80 | a record run twice is executed again on the same generation |
| RunStages.EvalScoreStable | src/nl2graph/llm/pipeline.py:87-88 | a record visited twice gets the same scores again |
| RunStages.ExecuteAll | src/nl2graph/llm/pipeline.py:69-80 | over any completion order, each record holding the run gets the execution of its own generation as `exec`, the others are unchanged |
| RunStages.EvaluateAll | src/nl2graph/llm/pipeline.py:84-90 | each record holding the run gets `evaluate_record`'s scores as `eval`, the others are unchanged |
| LlmPipeline.LLMPipeline.constructor | src/nl2graph/llm/pipeline.py:13-28 | the run id is lang + "--" + model, the generation and execution are kept, and the scorer is the default `Scoring` |
| LlmPipeline.LLMPipeline.Generation | src/nl2graph/llm/pipeline.py:38-39 | `_generate_one` is the generation oracle's answer for the question and schema |
| LlmPipeline.LLMPipeline.Generate | src/nl2graph/llm/pipeline.py:47-64 | every record gets an "llm" run, then each visited record's `gen` is overwritten until one raises; there is no skip policy; a missing generation or a worker count below one fails |
| LlmPipeline.LLMPipeline.NoFailureGeneratesAll | src/nl2graph/llm/pipeline.py:51-62 | with no raising generation both branches save a generation for every record |
| LlmPipeline.LLMPipeline.Execute | src/nl2graph/llm/pipeline.py:66-82 | each record holding the run gets the execution of its generation as `exec`; the others are untouched |
| LlmPipeline.LLMPipeline.Evaluate | src/nl2graph/llm/pipeline.py:84-90 | sequentially, each record holding the run gets `evaluate_record`'s scores as `eval`; the others are untouched |
| Seq2SeqGeneration.Generation.constructor | src/nl2graph/generation/seq2seq/generation.py:14-47 | the generation keeps its decoder, translator and language |
| Seq2SeqGeneration.Generation.Generate | src/nl2graph/generation/seq2seq/generation.py:68-77 | the decoded text, run through `_translate_ir` only when a translator is set, with no stats |
| Seq2SeqGeneration.OtherLanguageKeepsDecoded | src/nl2graph/generation/seq2seq/generation.py:79-89 | a language other than cypher, sparql or kopl keeps the decoded text, translator or not |
| Seq2SeqGeneration.FailingTranslatorKeepsDecoded | src/nl2graph/generation/seq2seq/generation.py:87-88 | a translator that raises leaves the decoded text |
| Seq2SeqPipeline.Questions | src/nl2graph/seq2seq/pipeline.py:58 | the questions of the records, one per record in record order |
| Seq2SeqPipeline.LastIndex | src/nl2graph/seq2seq/pipeline.py:61 | the last position of a record in the paired prefix, -1 when it is not there |
| Seq2SeqPipeline.Min | src/nl2graph/seq2seq/pipeline.py:61 | `zip` stops at the shorter of the two lists |
| Seq2SeqPipeline.DistinctRecordsPairByPosition | src/nl2graph/seq2seq/pipeline.py:61 | among distinct records each paired record is paired with the prediction at its own position |
| Seq2SeqPipeline.Seq2SeqPipeline.constructor | src/nl2graph/seq2seq/pipeline.py:11-28 | the run id is lang + "--" + model, ir_mode defaults to None, the generation, execution and translator are kept, and the scorer is the default `Scoring` |
| Seq2SeqPipeline.Seq2SeqPipeline.TranslateIr | src/nl2graph/seq2seq/pipeline.py:38-52 | the input itself without a translator or without ir_mode, or for a language without a translation; otherwise the dispatched translation, falling back to the input when it raises |
| Seq2SeqPipeline.Seq2SeqPipeline.Made | src/nl2graph/seq2seq/pipeline.py:62-69 | query_raw = the prediction; with ir_mode, ir = the prediction and query = its translation; without, ir = None and query = the prediction |
| Seq2SeqPipeline.Seq2SeqPipeline.Generate | src/nl2graph/seq2seq/pipeline.py:54-71 | every record gets a "seq2seq" run; `generate_batch` is called once with all the questions in record order; records paired with a prediction get its generation, surplus records keep their previous `gen`; an exception from `generate_batch` is returned as the failure, with the new runs kept |
| Seq2SeqPipeline.Seq2SeqPipeline.QuestionsOf | src/nl2graph/seq2seq/pipeline.py:58 | the comprehension loop computes the question list |
| Seq2SeqPipeline.Zipped | src/nl2graph/seq2seq/pipeline.py:61-69 | a record's runs after the `zip` loop keep the run |
| Seq2SeqPipeline.ZipGenerations | src/nl2graph/seq2seq/pipeline.py:61-69 | the `zip` loop stops at the shorter list; a record paired last at position j gets generation j, an unpaired record is unchanged |
| Seq2SeqPipeline.Seq2SeqPipeline.SavePredictions | src/nl2graph/seq2seq/pipeline.py:61-69 | a record paired last at position j gets prediction j's generation; an unpaired record is unchanged |
| Seq2SeqPipeline.Seq2SeqPipeline.Execute | src/nl2graph/seq2seq/pipeline.py:73-79 | sequentially, each record holding the run gets the execution of its generation as `exec`; a missing execution fails only when a record holds the run |
| Seq2SeqPipeline.Seq2SeqPipeline.Evaluate | src/nl2graph/seq2seq/pipeline.py:81-87 | sequentially, each record holding the run gets its scores as `eval`; the others are untouched |
| MetaQa.Cleared | scripts/run_metaqa.py:21-33 | after generation a held run loses `exec` and `eval`, after execution its `eval`; evaluation clears nothing |
| MetaQa.ClearDownstream | scripts/run_metaqa.py:23-31 | the clearing loop applies the mode's clearing to every record |
| MetaQa.ClearedIdempotent | scripts/run_metaqa.py:21-33 | clearing twice is clearing once |
| MetaQa.GenerateCompleted | scripts/run_metaqa.py:21-22 | when generation completes, every record holds the run with the generation of its question |
| MetaQa.GenerateThenClear | scripts/run_metaqa.py:21-26 | after generation and clearing, every record holding the run has None `exec` and `eval`, the generation kept |
| MetaQa.ExecuteThenClear | scripts/run_metaqa.py:27-31 | after execution and clearing, every record holding the run has the new `exec` and a None `eval` |
| MetaQa.RunSingle | scripts/run_metaqa.py:11-35 | the stage runs, then the clearing; when the stage completes every record holding the run has a None `eval`, and after generation also a None `exec` |
| MetaQa.Selected | scripts/run_metaqa.py:64-65 | a named subset or split alone, or all of them when none is named |
| MetaQa.PairsLength | scripts/run_metaqa.py:67-69 | one call per subset and split |
| MetaQa.PairsAt | scripts/run_metaqa.py:67-69 | call i × (number of splits) + j is on the i-th subset with the j-th split: subset-major order |
| MetaQa.FullPlan | scripts/run_metaqa.py:7-69 | with no subset or split argument all nine (subset, split) pairs are visited, subset-major |
| MetaQa.Plan | scripts/run_metaqa.py:64-69 | the nested loops list the pairs in the order `run_single` is called on them |
| PipelineService.DataPath | src/nl2graph/pipeline/service.py:88 | the path is base, "/", subset, "/", split, ".json" |
| PipelineService.Step | src/nl2graph/pipeline/service.py:117-120 | a record without the run adds nothing |
| PipelineService.StepBounds | src/nl2graph/pipeline/service.py:121-131 | one record adds at most one to each counter and nothing to the sums while nothing is evaluated, and keeps each sum within [0, eval_count] when its metrics lie in [0, 1] |
| PipelineService.StepCounts | src/nl2graph/pipeline/service.py:118-131 | one record adds 1 to gen_success exactly when it holds the run with a non-empty processed query, 1 to exec_success exactly when its exec succeeded, 1 to eval_count exactly when it holds an eval, and that eval's metrics (None as 0) to the sums |
| PipelineService.Tally | src/nl2graph/pipeline/service.py:118-131 | the loop body computes one step of the tally |
| PipelineService.SumsOf | src/nl2graph/pipeline/service.py:116-131 | after the loop no counter exceeds the number of records, and with evaluations whose metrics lie in [0, 1] each sum is at most eval_count |
| PipelineService.SumsCounts | src/nl2graph/pipeline/service.py:116-131 | after the loop gen_success, exec_success and eval_count are the numbers of records whose run has a non-empty processed query, a successful exec, an eval |
| PipelineService.SumsMetrics | src/nl2graph/pipeline/service.py:125-131 | after the loop each sum is its metric summed over the evaluated runs, None as 0 |
| PipelineService.Mean | src/nl2graph/pipeline/service.py:133-138 | sum / eval_count when eval_count > 0, else the sum itself, which is then 0 |
| PipelineService.Averaged | src/nl2graph/pipeline/service.py:105-138 | total is passed through, the counters are copied and every metric is its mean over eval_count |
| PipelineService.AggregateBounds | src/nl2graph/pipeline/service.py:104-140 | total = number of records, each counter at most that; each mean is 0 when nothing was evaluated and lies in [0, 1] when the stored metrics do |
| PipelineService.AggregateCounts | src/nl2graph/pipeline/service.py:104-140 | gen_success and exec_success count the qualifying runs; each metric is its sum over the evaluated runs divided by their number, and that sum itself (0) when there is none |
| PipelineService.PipelineService.constructor | src/nl2graph/pipeline/service.py:84-85 | the service keeps its configuration |
| PipelineService.PipelineService.GetDataPath | src/nl2graph/pipeline/service.py:84-88 | a KeyError naming data.dataset.stage when the configured base is missing or empty, else base/subset/split.json |
| PipelineService.PipelineService.AggregateMetrics | src/nl2graph/pipeline/service.py:104-140 | the loop computes the averaged tally of the records: total is the number of records, gen_success the number of runs with a non-empty processed query, exec_success the number with a successful exec |
| Analysis.KindNameInjective | src/nl2graph/analysis/analysis.py:39-55 | distinct error categories have distinct names |
| Analysis.ClassifyError | src/nl2graph/analysis/analysis.py:39-55 | the first keyword of the lower-cased message in the order timeout, connection, syntax, relationship/rel_type, label/node, property, "no query"; other when none occurs |
| Analysis.ClassifyIgnoresCase | src/nl2graph/analysis/analysis.py:40 | the category does not depend on the message's letter case |
| Analysis.TimeoutBeforeConnection | src/nl2graph/analysis/analysis.py:41-44 | a message containing both "timeout" and "connection" is a timeout |
| Analysis.FailedCount | src/nl2graph/analysis/analysis.py:31-33 | at most one failure per result |
| Analysis.KindCount | src/nl2graph/analysis/analysis.py:35-36 | a category holds at most the failed results |
| Analysis.CategorizeErrors | src/nl2graph/analysis/analysis.py:29-37 | the counting loop computes the per-category counts |
| Analysis.CountedByKind | src/nl2graph/analysis/analysis.py:29-37 | each category's entry is the number of present-and-failed results in it; it occurs only when that is positive; only category names occur |
| Analysis.CountsSumToFailures | src/nl2graph/analysis/analysis.py:29-37 | the counts add up to the number of present-and-failed results |
| Analysis.TotalBump | src/nl2graph/analysis/analysis.py:36 | counting one more failure adds one to the total |
| Analysis.QuoteFrom | src/nl2graph/analysis/analysis.py:11 | `[^']+` runs to the next quote |
| Analysis.MatchAt | src/nl2graph/analysis/analysis.py:11-24 | a match at a position reads "Unknown relationship type '" with ASCII letters in either case, then a non-empty quote-free capture, then a quote |
| Analysis.SearchFrom | src/nl2graph/analysis/analysis.py:24 | `re.search` finds a position where the pattern matches |
| Analysis.SearchFromFirst | src/nl2graph/analysis/analysis.py:24 | the pattern matches nowhere before the position found, and nowhere at all when none is found |
| Analysis.UnknownRelation | src/nl2graph/analysis/analysis.py:11-26 | the capture comes from a position where the pattern matches |
| Analysis.MissingSetMembers | src/nl2graph/analysis/analysis.py:18-26 | a relationship type is collected exactly when some present-and-failed result's message yields it |
| Analysis.ExtractMissingRelations | src/nl2graph/analysis/analysis.py:17-27 | the loop returns the collected types sorted and each once; successful or absent executions are ignored |
| Analysis.NoFailureNoMissing | src/nl2graph/analysis/analysis.py:19-21 | without failed executions nothing is reported |
| Reporting.ErrorCount | src/nl2graph/analysis/reporting.py:60-62 | a pair whose execution is absent or failed is an error; at most one per pair |
| Reporting.ScoredCount | src/nl2graph/analysis/reporting.py:60-64 | a scored pair has a successful execution and an evaluation; scored and error pairs are disjoint |
| Reporting.CorrectCount | src/nl2graph/analysis/reporting.py:64-66 | a correct pair has exact match 1.0 and is scored |
| Reporting.Sum | src/nl2graph/analysis/reporting.py:67-69 | the sum of a metric over the scored pairs, None as 0, lies in [0, scored count] when the metrics lie in [0, 1] |
| Reporting.Ratio | src/nl2graph/analysis/reporting.py:75-86 | x / n when n > 0, 0.0 otherwise, and in [0, 1] when 0 <= x <= n |
| Reporting.GenCount | src/nl2graph/analysis/reporting.py:52-58 | at most one generation with statistics per pair |
| Reporting.StatsOf | src/nl2graph/analysis/reporting.py:35-87 | statistics come back only when every duration and token count present is a number and the token totals are whole; their count is the number of pairs and each int token total is the Python sum of that count |
| Reporting.Summary | src/nl2graph/analysis/reporting.py:35-87 | count is the number of pairs and error_count the number of error pairs |
| Reporting.IntegerTotal | src/nl2graph/analysis/reporting.py:54-57 | integer token counts sum to a whole total |
| Reporting.IntegerTokensAccepted | src/nl2graph/analysis/reporting.py:54-87 | numeric statistics with integer token counts give the statistics and never raise |
| Reporting.StatsErrors | src/nl2graph/analysis/reporting.py:54-87 | a duration or token count that is not a number raises the TypeError of `+=`; numeric stats whose input-token total has a fractional part fail validation of total_input_tokens |
| Reporting.ValidCount | src/nl2graph/analysis/reporting.py:71 | correct <= scored <= valid |
| Reporting.AccuracyBounds | src/nl2graph/analysis/reporting.py:71-75 | the summary's accuracy is correct / valid when some pair is valid, 0 otherwise, always in [0, 1] |
| Reporting.AverageBounds | src/nl2graph/analysis/reporting.py:76-78 | the summary's f1, precision and recall averages lie in [0, 1] when the metrics do and are 0 when no pair is valid |
| Reporting.GenerationAverages | src/nl2graph/analysis/reporting.py:79-86 | the summary's duration and token averages divide the totals by the pairs with generation statistics, 0 when there are none |
| Reporting.EmptyStats | src/nl2graph/analysis/reporting.py:35-87 | no pairs give all-zero statistics and no error |
| Reporting.TallyOutcomes | src/nl2graph/analysis/reporting.py:49-69 | the single pass's error, correct and metric totals equal their separate definitions |
| Reporting.TallyGenerations | src/nl2graph/analysis/reporting.py:52-58 | the single pass's duration, token and generation totals equal their separate definitions |
| Reporting.ComputeStats | src/nl2graph/analysis/reporting.py:35-87 | the loop returns `StatsOf`: the TypeError of the first non-numeric statistic, the validation error of a fractional token total, or the summary |
| Reporting.HashOf | src/nl2graph/analysis/reporting.py:91-94 | a list or dict cannot be a dict key; None has its own key |
| Reporting.HashOfPyEq | src/nl2graph/analysis/reporting.py:91-94 | two hashable values are the same `grouped` key exactly when they are `==` in Python, so `1`, `1.0` and `True` share one key |
| Reporting.MembersOfOneKey | src/nl2graph/analysis/reporting.py:91-94 | pairs that all have one key are exactly that key's members, and no other key has any |
| Reporting.EqualValuesShareAGroup | src/nl2graph/analysis/reporting.py:91-94 | values `1`, `1.0` and `True` form a single group of all three pairs, whose key object is the first value inserted, `1` |
| Reporting.ListValueRaises | src/nl2graph/analysis/reporting.py:91-94 | grouping on `answer`, a list, raises the unhashable-type error for `list` |
| Reporting.Members | src/nl2graph/analysis/reporting.py:91-94 | the members of a key all come from the pairs and have a value with that key |
| Reporting.Grouped | src/nl2graph/analysis/reporting.py:90-94 | succeeds exactly when every value is hashable; then one group per key other than None's that occurs, holding exactly the pairs with that key in order |
| Reporting.GroupedFirstError | src/nl2graph/analysis/reporting.py:91-94 | the first unhashable value raises, naming its type |
| Reporting.RepresentativeEq | src/nl2graph/analysis/reporting.py:91-94 | a group's key object has the group's key and is `==` to the value of each of its members |
| Reporting.EveryGroup | src/nl2graph/analysis/reporting.py:96-98 | a property holds of every group exactly when it holds of the members of every key other than None's |
| Reporting.ByFieldOk | src/nl2graph/analysis/reporting.py:89-99 | `_compute_by_field` returns exactly when every value is hashable and no group's statistics raise |
| Reporting.ByFieldAccepted | src/nl2graph/analysis/reporting.py:89-99 | hashable values with numeric statistics and integer token counts never make it raise |
| Reporting.SortedGroupsSummary | src/nl2graph/analysis/reporting.py:96-98 | on success, every sorted group is the members of one key and its statistics are their summary |
| Reporting.ByFieldSorted | src/nl2graph/analysis/reporting.py:96-98 | on success the output keys are strictly increasing |
| Reporting.ByFieldKeys | src/nl2graph/analysis/reporting.py:92-98 | on success a key occurs exactly when it is `str` of the key object of some group |
| Reporting.ByFieldValue | src/nl2graph/analysis/reporting.py:92-98 | on success a group whose key object prints unlike every other's has under that text the summary of exactly its members |
| Reporting.GroupPairs | src/nl2graph/analysis/reporting.py:90-94 | the grouping loop returns `Grouped`, raising at the first unhashable value |
| Reporting.StatsPerGroup | src/nl2graph/analysis/reporting.py:96-98 | the second loop writes each sorted group's statistics under its key until one raises, as `Groups.Collect` |
| Reporting.ComputeByField | src/nl2graph/analysis/reporting.py:89-99 | the method returns `ByField`: the grouping's error, the first group's statistics error, or the sorted grouped statistics |
| Reporting.ResultsOf | src/nl2graph/analysis/reporting.py:24 | the results are the second components of the pairs, in order |
| Reporting.ComputeErrors | src/nl2graph/analysis/reporting.py:101-114 | total_errors counts the failed executions, missing_relations and error_types come from the analysis, and the categories add up to total_errors |
| Reporting.FailuresAreErrors | src/nl2graph/analysis/reporting.py:60-105 | the failed executions are among the errors of the statistics |
| Reporting.FieldsKeyed | src/nl2graph/analysis/reporting.py:21-23 | the loop over the fields returns exactly when no field raises, and then assigns each field its groups in turn |
| Reporting.ByFieldsEntry | src/nl2graph/analysis/reporting.py:21-23 | when no field raises, by_field has exactly the requested fields, each with its grouped statistics |
| Reporting.ComputeFields | src/nl2graph/analysis/reporting.py:21-23 | the loop builds by_field, or raises the error of the first field that raises |
| Reporting.Generate | src/nl2graph/analysis/reporting.py:14-33 | raises the summary's error first, then the first field's; otherwise run_id, total, the summary, by_field and the error analysis of the results |
| HopReport.HopStatsOf | src/nl2graph/analytics/report.py:28-58 | count is the number of pairs and error_count the number of error pairs |
| HopReport.HopStatsBounds | src/nl2graph/analytics/report.py:50-58 | accuracy and the averages lie in [0, 1] (the averages when the metrics do) and are 0 when no pair is valid |
| HopReport.ComputeHopStats | src/nl2graph/analytics/report.py:28-58 | the loop computes the statistics of the pairs |
| HopReport.HopMembers | src/nl2graph/analytics/report.py:62-64 | the members of a hop group come from the pairs and carry that hop |
| HopReport.GroupedByHop | src/nl2graph/analytics/report.py:61-64 | one group per hop that occurs, holding exactly the pairs with that hop; records without a hop are dropped |
| HopReport.InsertInt | src/nl2graph/analytics/report.py:67 | insertion adds the element to the multiset |
| HopReport.InsertAscending | src/nl2graph/analytics/report.py:67 | insertion keeps a list ascending |
| HopReport.SortInts | src/nl2graph/analytics/report.py:67 | sorted gives an ascending permutation |
| HopReport.SortDistinct | src/nl2graph/analytics/report.py:67 | sorting distinct keys gives a strictly ascending list |
| HopReport.ByHopEntries | src/nl2graph/analytics/report.py:60-69 | the hops are those of records with a hop, strictly ascending, each with the statistics of its pairs |
| HopReport.GroupByHop | src/nl2graph/analytics/report.py:61-64 | the grouping loop builds the grouped dictionary |
| HopReport.SortedHopsGrouped | src/nl2graph/analytics/report.py:67 | each sorted hop is a group key holding the pairs with that hop |
| HopReport.StatsPerHop | src/nl2graph/analytics/report.py:66-68 | the second loop writes each hop's statistics in order |
| HopReport.ComputeByHop | src/nl2graph/analytics/report.py:60-69 | the method computes the by-hop statistics |
| HopReport.FailedRuns | src/nl2graph/analytics/report.py:72-75 | the failed executions are among the errors of the statistics |
| HopReport.ErrorsSplit | src/nl2graph/analytics/report.py:39-75 | the errors are the failed executions plus the runs never executed |
| HopReport.ComputeTotalErrors | src/nl2graph/analytics/report.py:71-75 | the loop counts the failed executions |
| HopReport.Generate | src/nl2graph/analytics/report.py:14-26 | run_id, total, the summary, by_hop and the failed-execution count, which is at most the summary's error count |
| Groups.Collect | src/nl2graph/analysis/reporting.py:96-98 | the second loop finishes exactly when every item's statistics succeed |
| Groups.CollectOk | src/nl2graph/analysis/reporting.py:96-98 | when no item's statistics raise, the loop writes the output dictionary of their values |
| Groups.CollectFirstError | src/nl2graph/analysis/reporting.py:96-98 | otherwise the first item whose statistics raise decides the error |
| Groups.SortedCollectOk | src/nl2graph/analysis/reporting.py:96-98 | over the sorted items of a grouped dictionary, the loop finishes exactly when every group's statistics succeed |
| Groups.KeyedOrError | src/nl2graph/analysis/reporting.py:21-23 | the loop over the fields finishes exactly when no field raises |
| Groups.KeyedOrErrorOk | src/nl2graph/analysis/reporting.py:21-23 | when no field raises, it builds the keyed dictionary of their values |
| Groups.KeyedFirstError | src/nl2graph/analysis/reporting.py:21-23 | the first field that raises decides the error |
| Groups.Outputs | src/nl2graph/analysis/reporting.py:96-98 | the output dictionary of the second loop is well formed |
| Groups.OutputsHas | src/nl2graph/analysis/reporting.py:97-98 | every item's key is an output key |
| Groups.OutputsFrom | src/nl2graph/analysis/reporting.py:97-98 | every output key is some item's key |
| Groups.PutKeepsSorted | src/nl2graph/analysis/reporting.py:98 | writing a key not below the last keeps the keys strictly increasing |
| Groups.OutputsSorted | src/nl2graph/analysis/reporting.py:97-98 | over items sorted by key each key appears once, in strictly increasing order |
| Groups.OutputsValue | src/nl2graph/analysis/reporting.py:97-98 | an item equal to every item sharing its key gives its own group's statistics |
| Groups.SortedSame | src/nl2graph/analysis/reporting.py:97 | sorting keeps the same items |
| Groups.SortedItemsFrom | src/nl2graph/analysis/reporting.py:97-98 | every output key names a key of the grouped dictionary |
| Groups.SortedItemsHas | src/nl2graph/analysis/reporting.py:97-98 | the name of every group key is an output key |
| Groups.SortedItemsValue | src/nl2graph/analysis/reporting.py:97-98 | a key no other prints like keeps its own group's statistics |
| Groups.KeyedEntry | src/nl2graph/analysis/reporting.py:21-23 | each assigned key is present with f of itself, nothing else is |
| Groups.KeyedKeys | src/nl2graph/analysis/reporting.py:21-23 | distinct keys keep the order in which they were assigned |
| QueryResults.Values | src/nl2graph/execution/result/entity.py:10 | a row's values in column insertion order |
| QueryResults.RowGet | src/nl2graph/execution/result/entity.py:25 | row.get gives None for a column the row lacks and the column's value otherwise |
| QueryResults.Cols | src/nl2graph/execution/result/entity.py:10 | a row's column names in insertion order |
| QueryResults.RowSet | src/nl2graph/execution/connectors/neo4j.py:53 | after row[col] = v the columns are the old ones plus col |
| QueryResults.WellFormedTail | src/nl2graph/execution/result/entity.py:10 | a column occurs at most once in a dict row |
| QueryResults.RowSetGet | src/nl2graph/execution/connectors/neo4j.py:53 | after row[col] = v col reads v and every other column reads as before |
| QueryResults.RowCount | src/nl2graph/execution/result/entity.py:13-19 | row_count is 0 exactly when is_empty |
| QueryResults.ToList | src/nl2graph/execution/result/entity.py:21-22 | to_list returns the rows unchanged |
| QueryResults.ToValues | src/nl2graph/execution/result/entity.py:24-25 | one list per row, holding row.get of each column in column order |
| QueryResults.ToValuesOfAlignedRows | src/nl2graph/execution/result/entity.py:24-25 | rows listing exactly the columns in order give their values() |
| QueryResults.MissingColumnIsNone | src/nl2graph/execution/result/entity.py:25 | a column a row lacks reads as None |
| Neo4jExecution.Scan | src/nl2graph/execution/connectors/neo4j.py:66 | a greedy character-class run stops at the end or at the first character outside the class |
| Neo4jExecution.ScanAll | src/nl2graph/execution/connectors/neo4j.py:66 | every character a run covers is in its class |
| Neo4jExecution.ScanAppend | src/nl2graph/execution/connectors/neo4j.py:66 | a run over a concatenation stops in the first part unless it covers it |
| Neo4jExecution.RunStart | src/nl2graph/execution/connectors/neo4j.py:66 | the capture group starts after the first `\s*` |
| Neo4jExecution.RunEnd | src/nl2graph/execution/connectors/neo4j.py:66 | the capture group `([A-Z_]+)` ends at or after its start |
| Neo4jExecution.CloseAt | src/nl2graph/execution/connectors/neo4j.py:66 | the lookahead's bracket is expected after the second `\s*` |
| Neo4jExecution.LowercaseRelationships | src/nl2graph/execution/connectors/neo4j.py:65-67 | a leading colon is kept |
| Neo4jExecution.ColonMatch | src/nl2graph/execution/connectors/neo4j.py:66-67 | a colon where the pattern matches is followed by the lower-cased capture and the scan resumes after the match |
| Neo4jExecution.ColonNoMatch | src/nl2graph/execution/connectors/neo4j.py:66-67 | a colon where the pattern does not match is copied |
| Neo4jExecution.CopyPrefix | src/nl2graph/execution/connectors/neo4j.py:67 | text without a colon is copied through |
| Neo4jExecution.CopyChar | src/nl2graph/execution/connectors/neo4j.py:67 | a character other than a colon is copied |
| Neo4jExecution.MatchPrefix | src/nl2graph/execution/connectors/neo4j.py:66 | a match never reaches past the next colon |
| Neo4jExecution.NoMatchAfterLetter | src/nl2graph/execution/connectors/neo4j.py:66 | a lowered capture that reaches a lower-case letter cannot match again |
| Neo4jExecution.MatchAfterUnderscores | src/nl2graph/execution/connectors/neo4j.py:66 | a lowered capture of underscores only matches again, with the same extent |
| Neo4jExecution.RewriteLetter | src/nl2graph/execution/connectors/neo4j.py:66-67 | a lowered capture holding a letter is copied on a second pass |
| Neo4jExecution.RewriteUnderscores | src/nl2graph/execution/connectors/neo4j.py:66-67 | a lowered capture of underscores is lowered to itself on a second pass |
| Neo4jExecution.RewriteStable | src/nl2graph/execution/connectors/neo4j.py:66-67 | a rewritten match is left as it is by a second pass |
| Neo4jExecution.IdempotentAtMatch | src/nl2graph/execution/connectors/neo4j.py:65-67 | idempotence at a matching colon, given idempotence after the match |
| Neo4jExecution.IdempotentNoMatch | src/nl2graph/execution/connectors/neo4j.py:65-67 | idempotence at a non-matching colon, given idempotence after it |
| Neo4jExecution.LowercaseIdempotent | src/nl2graph/execution/connectors/neo4j.py:65-67 | lower-casing relationship types twice is the same as once |
| Neo4jExecution.MatchLayout | src/nl2graph/execution/connectors/neo4j.py:66 | spaces, a label of capitals and underscores, spaces and `]` or `{` after a colon are a match with the label as its capture |
| Neo4jExecution.MatchThenCopy | src/nl2graph/execution/connectors/neo4j.py:66-67 | a match is replaced and its colon-free tail copied |
| Neo4jExecution.MatchRewritten | src/nl2graph/execution/connectors/neo4j.py:66-67 | a colon, spaces, an `[A-Z_]+` label, spaces and `]` or `{` become the colon, the lowered label and the rest unchanged, spaces before the label dropped |
| Neo4jExecution.MixedCaseKept | src/nl2graph/execution/connectors/neo4j.py:66-67 | capitals followed by a lower-case letter (a node label such as `:Person)`) are not rewritten |
| Neo4jExecution.Sanitized | src/nl2graph/execution/connectors/neo4j.py:58-63 | without any known handler name the query is unchanged |
| Neo4jExecution.SanitizedOnce | src/nl2graph/execution/connectors/neo4j.py:13-63 | however often lowercase_relationships is listed the query is lower-cased once, and without it not at all |
| Neo4jExecution.ShapedRowWellFormed | src/nl2graph/execution/connectors/neo4j.py:51-53 | the shaped row names each column once |
| Neo4jExecution.ShapedRowCols | src/nl2graph/execution/connectors/neo4j.py:51-53 | the shaped row has exactly the result's columns |
| Neo4jExecution.ShapedRowGet | src/nl2graph/execution/connectors/neo4j.py:53 | each column holds the converted value of the record's field |
| Neo4jExecution.Columns | src/nl2graph/execution/connectors/neo4j.py:47 | the driver's keys when there are records, none otherwise |
| Neo4jExecution.ShapedValues | src/nl2graph/execution/connectors/neo4j.py:46-56 | one row per record, and to_values reads the converted fields column by column |
| Neo4jExecution.ShapeRows | src/nl2graph/execution/connectors/neo4j.py:49-54 | the two loops shape the records |
| Neo4jExecution.TimeoutMs | src/nl2graph/execution/connectors/neo4j.py:41 | the given timeout when it is truthy, else the connector's, times 1000 |
| Neo4jExecution.DatabaseOf | src/nl2graph/execution/connectors/neo4j.py:42 | the configured database when truthy, else "neo4j" |
| Neo4jExecution.Neo4jConnector.constructor | src/nl2graph/execution/connectors/neo4j.py:17-20 | the keyword arguments as given, timeout 30 and sanity [] by default, no driver |
| Neo4jExecution.Neo4jConnector.Connect | src/nl2graph/execution/connectors/neo4j.py:22-32 | a driver is present afterwards |
| Neo4jExecution.Neo4jConnector.Close | src/nl2graph/execution/connectors/neo4j.py:34-37 | no driver afterwards |
| Neo4jExecution.Neo4jConnector.ApplySanity | src/nl2graph/execution/connectors/neo4j.py:58-63 | the loop applies the known handlers, which is lower-casing once exactly when lowercase_relationships is listed |
| Neo4jExecution.Neo4jConnector.Execute | src/nl2graph/execution/connectors/neo4j.py:39-56 | an error without a driver; otherwise the sanitised query on the chosen database with the timeout in milliseconds, and its records shaped |
| Neo4jGraph.LookupIsGet | src/nl2graph/graph/connectors/neo4j.py:97 | column presence and lookup are the row's columns and row.get |
| Neo4jGraph.FieldReads | src/nl2graph/graph/connectors/neo4j.py:97 | row[col] reads the value, or fails with KeyError exactly when the column is missing |
| Neo4jGraph.NodeEntryReads | src/nl2graph/graph/connectors/neo4j.py:96-103 | a node row is read when it has label, property and type, which are looked up in that order |
| Neo4jGraph.EdgeEntryReads | src/nl2graph/graph/connectors/neo4j.py:108-113 | a relationship row is read when it has rel_type, source_label and target_label, looked up in that order |
| Neo4jGraph.NodeEntries | src/nl2graph/graph/connectors/neo4j.py:96-103 | the rows read in order; success gives one entry per row |
| Neo4jGraph.NodeEntriesOk | src/nl2graph/graph/connectors/neo4j.py:96-103 | reading succeeds only when every row can be read, and gives each row's reading in order |
| Neo4jGraph.NodeEntriesFirstError | src/nl2graph/graph/connectors/neo4j.py:96-103 | the error is that of the first unreadable row |
| Neo4jGraph.EdgeEntries | src/nl2graph/graph/connectors/neo4j.py:108-113 | the rows read in order; success gives one entry per row |
| Neo4jGraph.EdgeEntriesOk | src/nl2graph/graph/connectors/neo4j.py:108-113 | reading succeeds only when every row can be read, and gives each row's reading in order |
| Neo4jGraph.EdgeEntriesFirstError | src/nl2graph/graph/connectors/neo4j.py:108-113 | the error is that of the first unreadable row |
| Neo4jGraph.Labels | src/nl2graph/graph/connectors/neo4j.py:97 | the labels of the node rows in order |
| Neo4jGraph.PropsOf | src/nl2graph/graph/connectors/neo4j.py:98-103 | the properties of a label come from its rows |
| Neo4jGraph.GroupedValid | src/nl2graph/graph/connectors/neo4j.py:95-103 | nodes_map lists each label once |
| Neo4jGraph.GroupedValues | src/nl2graph/graph/connectors/neo4j.py:95-103 | a label is in nodes_map exactly when some row has it, with the properties of its rows in row order |
| Neo4jGraph.DedupSnoc | src/nl2graph/graph/connectors/neo4j.py:135-143 | an edge is appended exactly when it was not seen |
| Neo4jGraph.DedupDistinct | src/nl2graph/graph/connectors/neo4j.py:133-143 | no edge is listed twice |
| Neo4jGraph.SeenDedup | src/nl2graph/graph/connectors/neo4j.py:133-143 | edges_set and edges hold the same edges |
| Neo4jGraph.DedupMembers | src/nl2graph/graph/connectors/neo4j.py:133-143 | nothing is lost and nothing added |
| Neo4jGraph.DedupOrder | src/nl2graph/graph/connectors/neo4j.py:133-143 | edges come in first-appearance order |
| Neo4jGraph.GroupedKeys | src/nl2graph/graph/connectors/neo4j.py:95-105 | the labels of nodes_map are the distinct row labels in first-appearance order |
| Neo4jGraph.PropsOfLabels | src/nl2graph/graph/connectors/neo4j.py:98-103 | a label has properties exactly when some row has it |
| Neo4jGraph.NodesOf | src/nl2graph/graph/connectors/neo4j.py:105 | one NodeSchema per entry of nodes_map, in its order |
| Neo4jGraph.PropertyCount | src/nl2graph/graph/connectors/neo4j.py:95-105 | the nodes' properties add up to the number of node rows |
| Neo4jGraph.NodesFromRows | src/nl2graph/graph/connectors/neo4j.py:95-105 | one node per distinct label in first-appearance order, each with the properties of its rows in order, their total the number of rows |
| Neo4jGraph.SchemaFrom | src/nl2graph/graph/connectors/neo4j.py:91-145 | a failing node query or then relationship query gives its error; otherwise the named schema of the nodes and edges |
| Neo4jGraph.CollectNodes | src/nl2graph/graph/connectors/neo4j.py:95-105 | the nodes_map loop computes the nodes |
| Neo4jGraph.ApocEdges | src/nl2graph/graph/connectors/neo4j.py:107-113 | the APOC loop gives one edge per row |
| Neo4jGraph.DirectEdges | src/nl2graph/graph/connectors/neo4j.py:133-143 | the direct loop skips an edge seen before |
| Neo4jGraph.GraphConnector.constructor | src/nl2graph/graph/connectors/neo4j.py:50-52 | the constructor the code evidently intends: the configuration is kept as `config`, which `connect` and `execute` read, and there is no driver (as written it raises first; see Findings) |
| Neo4jGraph.GraphConnector.Connect | src/nl2graph/graph/connectors/neo4j.py:54-61 | a driver is present afterwards |
| Neo4jGraph.GraphConnector.Close | src/nl2graph/graph/connectors/neo4j.py:63-66 | no driver afterwards |
| Neo4jGraph.GraphConnector.Run | src/nl2graph/graph/connectors/neo4j.py:68-84 | an error without a driver; the driver's error when the query fails; its records shaped otherwise |
| Neo4jGraph.GraphConnector.Execute | src/nl2graph/graph/connectors/neo4j.py:68-84 | the loops compute the run's result |
| Neo4jGraph.GraphConnector.ReadSchema | src/nl2graph/graph/connectors/neo4j.py:91-145 | the node query, then the relationship query, then the two loops |
| Neo4jGraph.GraphConnector.GetSchema | src/nl2graph/graph/connectors/neo4j.py:86-89 | the APOC queries for the mode "apoc", the direct queries with edge de-duplication for any other mode |
| QueryGenerators.QueryGenerator.constructor | src/nl2graph/pipeline/generator.py:10-24 | the services and settings are kept |
| QueryGenerators.QueryGenerator.Generate | src/nl2graph/pipeline/generator.py:26-47 | a failing render or chat propagates; otherwise the raw reply and the extracted query, which has no surrounding white space |
| CypherSchemas.PropsText | src/nl2graph/execution/schema/cypher.py:36-42 | the joined property text is empty exactly when there are no properties |
| CypherSchemas.NodeLines | src/nl2graph/execution/schema/cypher.py:35-37 | one line per node |
| CypherSchemas.EdgeLines | src/nl2graph/execution/schema/cypher.py:41-46 | one line per edge |
| CypherSchemas.NodeLinesAt | src/nl2graph/execution/schema/cypher.py:35-37 | line i is the line of node i |
| CypherSchemas.EdgeLinesAt | src/nl2graph/execution/schema/cypher.py:41-46 | line i is the line of edge i |
| CypherSchemas.LinesShape | src/nl2graph/execution/schema/cypher.py:34-46 | three header lines, one per node, a blank line and "Edges:", one per edge |
| CypherSchemas.LinesNode | src/nl2graph/execution/schema/cypher.py:34-37 | line 3 + i is the line of node i |
| CypherSchemas.LinesEdge | src/nl2graph/execution/schema/cypher.py:39-46 | line 5 + number of nodes + i is the line of edge i |
| CypherSchemas.PromptShape | src/nl2graph/execution/schema/cypher.py:34-40 | the prompt opens with "Graph: name", a blank line and "Nodes:" and has a blank line and "Edges:" after the nodes |
| CypherSchemas.PromptListsNode | src/nl2graph/execution/schema/cypher.py:35-37 | every node of the schema has its line among the node lines |
| CypherSchemas.PromptListsEdge | src/nl2graph/execution/schema/cypher.py:41-46 | every edge of the schema has its line among the edge lines |
| CypherSchemas.PromptNodeAt | src/nl2graph/execution/schema/cypher.py:35-37 | line 3 + i is the line of the i-th node by label, a node of the schema |
| CypherSchemas.PromptEdgeAt | src/nl2graph/execution/schema/cypher.py:41-46 | the i-th edge line is that of the i-th edge by label, an edge of the schema |
| CypherSchemas.PromptNodesSorted | src/nl2graph/execution/schema/cypher.py:35 | the nodes are listed in label order |
| CypherSchemas.PromptEdgesSorted | src/nl2graph/execution/schema/cypher.py:41 | the edges are listed in label order |
| CypherSchemas.AppendNodeLines | src/nl2graph/execution/schema/cypher.py:35-37 | the node loop appends the node lines |
| CypherSchemas.AppendEdgeLines | src/nl2graph/execution/schema/cypher.py:41-46 | the edge loop appends the edge lines |
| CypherSchemas.ToPromptString | src/nl2graph/execution/schema/cypher.py:33-48 | the text is the prompt lines joined with newlines |
| CypherSchemas.PromptLinesSingle | src/nl2graph/execution/schema/cypher.py:33-48 | no prompt line holds a line break when no name does |
| CypherSchemas.PromptSplits | src/nl2graph/execution/schema/cypher.py:48 | splitting the prompt at newlines gives back its lines |
| CypherSchemas.PropOf | src/nl2graph/execution/schema/cypher.py:8-59 | a property reads from a dict with string name and data_type |
| CypherSchemas.PropList | src/nl2graph/execution/schema/cypher.py:59 | a list of properties reads item by item, one property per item |
| CypherSchemas.DictPropsKeys | src/nl2graph/execution/schema/cypher.py:57 | a dict of properties gives one property per key, named by it and typed by str of its value |
| CypherSchemas.PropsFrom | src/nl2graph/execution/schema/cypher.py:55-59 | a dict always reads; anything but a dict or a list gives no properties |
| CypherSchemas.PropsFromDict | src/nl2graph/execution/schema/cypher.py:56-57 | a dict gives one property per key, typed by str of its value |
| CypherSchemas.OrGet | src/nl2graph/execution/schema/cypher.py:72-73 | the first key's value unless it is falsy, then the second key's |
| CypherSchemas.EdgeEndpoints | src/nl2graph/execution/schema/cypher.py:70-75 | a read edge's label is the dict's, its source is source_label unless that is falsy, then subj_label, and likewise for the target |
| CypherSchemas.NodesUpTo | src/nl2graph/execution/schema/cypher.py:53-60 | the nodes read from the first k items, one per item |
| CypherSchemas.EdgesUpTo | src/nl2graph/execution/schema/cypher.py:63-75 | the edges read from the first k items, one per item |
| CypherSchemas.NodesUpToAt | src/nl2graph/execution/schema/cypher.py:53-60 | node i is read from item i |
| CypherSchemas.EdgesUpToAt | src/nl2graph/execution/schema/cypher.py:63-75 | edge i is read from item i |
| CypherSchemas.ParseNodes | src/nl2graph/execution/schema/cypher.py:53 | the nodes come from the nodes list when it is non-empty, from the entities list otherwise |
| CypherSchemas.ParseEdges | src/nl2graph/execution/schema/cypher.py:63 | the edges come from the edges list when it is non-empty, from the relations list otherwise |
| CypherSchemas.CollectNodes | src/nl2graph/execution/schema/cypher.py:52-60 | the node loop computes the nodes read from the items |
| CypherSchemas.CollectEdges | src/nl2graph/execution/schema/cypher.py:62-75 | the edge loop computes the edges read from the items |
| CypherSchemas.FromDict | src/nl2graph/execution/schema/cypher.py:50-77 | the two loops and the constructor compute the parsed schema |
| CypherSchemas.DumpedNodes | src/nl2graph/execution/schema/cypher.py:30-53 | the node list of a dump is found under "nodes" |
| CypherSchemas.DumpedEdges | src/nl2graph/execution/schema/cypher.py:30-63 | the edge list of a dump is found under "edges" |
| CypherSchemas.EdgeOfJson | src/nl2graph/execution/schema/cypher.py:63-75 | a dumped edge with non-empty endpoints reads back as itself |
| CypherSchemas.EdgeEmptySource | src/nl2graph/execution/schema/cypher.py:72 | a dumped edge with an empty source label does not read back |
| CypherSchemas.NodesOfJson | src/nl2graph/execution/schema/cypher.py:52-60 | a dumped node list reads back as itself |
| CypherSchemas.EdgesOfJson | src/nl2graph/execution/schema/cypher.py:62-75 | a dumped edge list with non-empty endpoints reads back as itself |
| CypherSchemas.RoundTrip | src/nl2graph/execution/schema/cypher.py:30-77 | from_dict(to_dict(s)) is s when no edge endpoint is empty |
| RdfSchemas.PrefixLines | src/nl2graph/execution/schema/rdf.py:36-37 | one line per prefix, in the given key order |
| RdfSchemas.PrefixLinesAt | src/nl2graph/execution/schema/rdf.py:36-37 | line i shows the i-th prefix and its URI |
| RdfSchemas.PrefixOrder | src/nl2graph/execution/schema/rdf.py:36 | sorted(prefixes.items()) lists every prefix, each once |
| RdfSchemas.PropLineKind | src/nl2graph/execution/schema/rdf.py:52-53 | a property line ends in [ObjectProperty] exactly for object properties, else in [DatatypeProperty] |
| RdfSchemas.PrefixSection | src/nl2graph/execution/schema/rdf.py:34-38 | the prefixes section has a header, one line per prefix and a blank line, and is absent without prefixes |
| RdfSchemas.LinesShape | src/nl2graph/execution/schema/rdf.py:32-47 | the title, a blank line, the prefixes section, "Classes:", the class lines, a blank line and "Properties:" |
| RdfSchemas.LinesPre | src/nl2graph/execution/schema/rdf.py:34-38 | line 2 + i is line i of the prefixes section |
| RdfSchemas.LinesClass | src/nl2graph/execution/schema/rdf.py:40-44 | the class lines follow the Classes header |
| RdfSchemas.LinesProp | src/nl2graph/execution/schema/rdf.py:46-53 | the property lines follow the Properties header |
| RdfSchemas.SectionShape | src/nl2graph/execution/schema/rdf.py:35-38 | the prefixes section opens with "Prefixes:" and closes with a blank line |
| RdfSchemas.SectionPrefix | src/nl2graph/execution/schema/rdf.py:36-37 | line 1 + i of the section is the i-th prefix's in sorted order |
| RdfSchemas.PromptShape | src/nl2graph/execution/schema/rdf.py:32-47 | the prompt opens with "RDF Graph: name" and a blank line, and the headers follow the prefixes section |
| RdfSchemas.PromptPrefixHeader | src/nl2graph/execution/schema/rdf.py:34-38 | with prefixes, "Prefixes:" is line 2 and a blank line follows the prefix lines |
| RdfSchemas.PromptPrefixAt | src/nl2graph/execution/schema/rdf.py:36-37 | prefix line i shows the i-th prefix by name, and the prefixes strictly ascend |
| RdfSchemas.PromptListsPrefix | src/nl2graph/execution/schema/rdf.py:36-37 | every prefix has its line |
| RdfSchemas.SortedClassIn | src/nl2graph/execution/schema/rdf.py:41 | the sorted classes are the schema's |
| RdfSchemas.SortedPropIn | src/nl2graph/execution/schema/rdf.py:48 | the sorted properties are the schema's |
| RdfSchemas.PromptClassAt | src/nl2graph/execution/schema/rdf.py:40-44 | class line i is the line of the i-th class by URI, a class of the schema |
| RdfSchemas.PromptPropAt | src/nl2graph/execution/schema/rdf.py:46-53 | property line i is the line of the i-th property by URI, a property of the schema |
| RdfSchemas.PromptClassesSorted | src/nl2graph/execution/schema/rdf.py:41 | the classes are listed by URI |
| RdfSchemas.PromptPropertiesSorted | src/nl2graph/execution/schema/rdf.py:48 | the properties are listed by URI |
| RdfSchemas.AppendPrefixLines | src/nl2graph/execution/schema/rdf.py:36-37 | the prefix loop appends the prefix lines |
| RdfSchemas.FormatClass | src/nl2graph/execution/schema/rdf.py:42-44 | the loop body formats a class line |
| RdfSchemas.AppendClassLines | src/nl2graph/execution/schema/rdf.py:41-44 | the class loop appends the class lines |
| RdfSchemas.FormatProp | src/nl2graph/execution/schema/rdf.py:49-53 | the loop body formats a property line |
| RdfSchemas.AppendPropLines | src/nl2graph/execution/schema/rdf.py:48-53 | the property loop appends the property lines |
| RdfSchemas.AppendBody | src/nl2graph/execution/schema/rdf.py:40-53 | the classes and properties sections are appended |
| RdfSchemas.ToPromptString | src/nl2graph/execution/schema/rdf.py:31-55 | the text is the prompt lines joined with newlines |
| RdfSchemas.ClassOf | src/nl2graph/execution/schema/rdf.py:8-59 | a class reads from a dict with a string uri and optional label and parent |
| RdfSchemas.PropOf | src/nl2graph/execution/schema/rdf.py:14-60 | a property reads from a dict with a string uri, optional label, domain and range, and a flag that defaults to False |
| RdfSchemas.ClassesUpTo | src/nl2graph/execution/schema/rdf.py:59 | one class per item read |
| RdfSchemas.PropsUpTo | src/nl2graph/execution/schema/rdf.py:60 | one property per item read |
| RdfSchemas.ClassesUpToAt | src/nl2graph/execution/schema/rdf.py:59 | class i is read from item i |
| RdfSchemas.PropsUpToAt | src/nl2graph/execution/schema/rdf.py:60 | property i is read from item i |
| RdfSchemas.ClassesFirstError | src/nl2graph/execution/schema/rdf.py:59 | the first item that is no class ends the list with its error |
| RdfSchemas.ParseDefaults | src/nl2graph/execution/schema/rdf.py:23-66 | a dict holding only a name reads as a schema with no prefixes, classes or properties |
| RdfSchemas.ParseNeedsName | src/nl2graph/execution/schema/rdf.py:62 | an empty dict fails with KeyError("name") |
| RdfSchemas.ParseItems | src/nl2graph/execution/schema/rdf.py:58-66 | the classes and properties come from their lists item by item, and the name from "name" |
| RdfSchemas.ClassOfJson | src/nl2graph/execution/schema/rdf.py:8-29 | a dumped class reads back as itself |
| RdfSchemas.PropOfJson | src/nl2graph/execution/schema/rdf.py:14-29 | a dumped property reads back as itself |
| RdfSchemas.ClassesOfJson | src/nl2graph/execution/schema/rdf.py:59 | a dumped class list reads back as itself |
| RdfSchemas.PropsOfJson | src/nl2graph/execution/schema/rdf.py:60 | a dumped property list reads back as itself |
| RdfSchemas.RoundTrip | src/nl2graph/execution/schema/rdf.py:28-66 | from_dict(to_dict(s)) is s |
| SparqlSchemas.PropLineKind | src/nl2graph/data/schema/sparql.py:63-64 | a property line ends in [ObjectProperty] exactly for object properties, else in [DatatypeProperty] |
| SparqlSchemas.ListTaggedShown | src/nl2graph/data/schema/sparql.py:61-62 | a domain or range suffix is printed exactly when its list is non-empty, and starts with its tag |
| SparqlSchemas.HintSection | src/nl2graph/data/schema/sparql.py:36-42 | a hint adds its line and a blank line when it is set and non-empty, nothing otherwise |
| SparqlSchemas.ClassSection | src/nl2graph/data/schema/sparql.py:50-56 | the classes section has a header, one line per class and a blank line, and is absent without classes |
| SparqlSchemas.LinesRet | src/nl2graph/data/schema/sparql.py:36-38 | the return-hint lines follow the title |
| SparqlSchemas.LinesEnt | src/nl2graph/data/schema/sparql.py:40-42 | the entity-rule lines follow the return hint |
| SparqlSchemas.LinesPre | src/nl2graph/data/schema/sparql.py:44-48 | the prefixes section follows the hints |
| SparqlSchemas.LinesCls | src/nl2graph/data/schema/sparql.py:50-56 | the classes section follows the prefixes |
| SparqlSchemas.LinesProp | src/nl2graph/data/schema/sparql.py:58-64 | the property lines follow the Properties header |
| SparqlSchemas.PromptShape | src/nl2graph/data/schema/sparql.py:34-58 | the prompt opens with "RDF Graph: name" and a blank line, and "Properties:" follows the optional sections |
| SparqlSchemas.PromptReturn | src/nl2graph/data/schema/sparql.py:36-38 | a set return hint is line 2, followed by a blank line |
| SparqlSchemas.PromptEntityRule | src/nl2graph/data/schema/sparql.py:40-42 | a set entity rule follows the return hint, followed by a blank line |
| SparqlSchemas.PromptPrefixSection | src/nl2graph/data/schema/sparql.py:44-48 | the prefixes section's lines follow the hints |
| SparqlSchemas.PromptPrefixHeader | src/nl2graph/data/schema/sparql.py:44-46 | with prefixes, "Prefixes:" follows the hints, and the prefixes strictly ascend |
| SparqlSchemas.PromptPrefixAt | src/nl2graph/data/schema/sparql.py:46-47 | prefix line i shows the i-th prefix by name |
| SparqlSchemas.PromptClassSection | src/nl2graph/data/schema/sparql.py:50-56 | the classes section's lines follow the hints and prefixes |
| SparqlSchemas.PromptClassHeader | src/nl2graph/data/schema/sparql.py:50-51 | with classes, the section opens with "Classes:" |
| SparqlSchemas.PromptClassEnd | src/nl2graph/data/schema/sparql.py:56 | with classes, the section closes with a blank line |
| SparqlSchemas.PromptClassAt | src/nl2graph/data/schema/sparql.py:52-55 | class line i is the line of the i-th class by URI, a class of the schema |
| SparqlSchemas.PromptPropAt | src/nl2graph/data/schema/sparql.py:58-64 | property line i is the line of the i-th property by URI, a property of the schema |
| SparqlSchemas.PromptPropertiesSorted | src/nl2graph/data/schema/sparql.py:59 | the properties are listed by URI |
| SparqlSchemas.FormatProp | src/nl2graph/data/schema/sparql.py:60-64 | the loop body formats a property line |
| SparqlSchemas.AppendPropLines | src/nl2graph/data/schema/sparql.py:59-64 | the property loop appends the property lines |
| SparqlSchemas.AppendHint | src/nl2graph/data/schema/sparql.py:36-42 | the hint lines are appended |
| SparqlSchemas.AppendPrefixes | src/nl2graph/data/schema/sparql.py:44-48 | the prefixes section is appended |
| SparqlSchemas.AppendClasses | src/nl2graph/data/schema/sparql.py:50-56 | the classes section is appended |
| SparqlSchemas.ToPromptString | src/nl2graph/data/schema/sparql.py:33-66 | the text is the prompt lines joined with newlines |
| SparqlSchemas.ListField | src/nl2graph/data/schema/sparql.py:17-18 | an absent list field is [], a present one must be a list of strings |
| SparqlSchemas.AsOptStr | src/nl2graph/data/schema/sparql.py:76-95 | null reads as None and a string as itself; anything else fails |
| SparqlSchemas.TypedProp | src/nl2graph/data/schema/sparql.py:73-88 | a typed item needs a uri, which it keeps, and takes the list's flag |
| SparqlSchemas.GenericProp | src/nl2graph/data/schema/sparql.py:89-90 | a generic item reads uri and is_object_property, which defaults to False |
| SparqlSchemas.PropsUpTo | src/nl2graph/data/schema/sparql.py:73-90 | one property per item read |
| SparqlSchemas.PropsUpToAt | src/nl2graph/data/schema/sparql.py:73-90 | property i is read from item i |
| SparqlSchemas.PropsFirstError | src/nl2graph/data/schema/sparql.py:73-90 | the first unreadable item ends the list with its error |
| SparqlSchemas.Extend | src/nl2graph/data/schema/sparql.py:73-90 | a list's properties follow those already collected, or its first error is returned |
| SparqlSchemas.Finish | src/nl2graph/data/schema/sparql.py:92-99 | a missing name is KeyError("name"); the classes and properties are those read |
| SparqlSchemas.AppendProps | src/nl2graph/data/schema/sparql.py:73-90 | one appending loop extends the collected properties |
| SparqlSchemas.FromDict | src/nl2graph/data/schema/sparql.py:68-99 | the classes, then each property list read and looped in turn, then the constructor: the parsed schema, or the first error in that order |
| SparqlSchemas.AllPropsOrder | src/nl2graph/data/schema/sparql.py:72-90 | object properties first, then datatype properties, then the generic list; the typed lists set the flag |
| SparqlSchemas.ObjectLoopFirst | src/nl2graph/data/schema/sparql.py:72-90 | an object property without `uri` fails with KeyError 'uri' even when the datatype list after it is not a list: each loop ends before the next list is read |
| SparqlSchemas.ParseDefaults | src/nl2graph/data/schema/sparql.py:22-99 | a dict holding only a name reads as a schema with every optional field empty |
| SparqlSchemas.FinishOfJson | src/nl2graph/data/schema/sparql.py:30-99 | the dumped name, hints and prefixes read back |
| SparqlSchemas.AllPropsGeneric | src/nl2graph/data/schema/sparql.py:72-90 | without typed lists the properties are the generic list's |
| SparqlSchemas.AllPropsOfJson | src/nl2graph/data/schema/sparql.py:89-90 | dumped properties read back through the generic list |
| SparqlSchemas.DumpedLists | src/nl2graph/data/schema/sparql.py:30-31 | a dump holds the classes and the generic property list and no typed lists |
| SparqlSchemas.RoundTrip | src/nl2graph/data/schema/sparql.py:30-99 | from_dict(to_dict(s)) is s, the properties coming back through the generic list with their flags |
| SchemaInput.Index | src/nl2graph/execution/schema/rdf.py:62 | d[k] is the value when k is present and KeyError(k) otherwise |
| SchemaInput.GetOr | src/nl2graph/execution/schema/rdf.py:59-63 | d.get(k, default) is the value when present and the default otherwise |
| SchemaInput.Either | src/nl2graph/execution/schema/cypher.py:53-63 | the first list unless it is falsy, then the second |
| SchemaInput.Items | src/nl2graph/execution/schema/rdf.py:59-60 | iterating a list gives its items, an empty dict or string gives nothing, anything else fails |
| SchemaInput.AsDict | src/nl2graph/execution/schema/cypher.py:55 | .get works exactly on dicts |
| SchemaInput.AsKwargs | src/nl2graph/execution/schema/rdf.py:59-60 | ** unpacking works exactly on dicts |
| SchemaInput.StrField | src/nl2graph/execution/schema/rdf.py:9-15 | a required str field reads exactly when present and a string |
| SchemaInput.OptStrField | src/nl2graph/execution/schema/rdf.py:10-18 | an Optional[str] field reads as None when absent or null and as the string when a string |
| SchemaInput.BoolField | src/nl2graph/execution/schema/rdf.py:19 | a bool field with default False reads when absent or a bool |
| SchemaInput.StrItems | src/nl2graph/data/schema/sparql.py:17-18 | a list of strings reads exactly when every item is a string |
| SchemaInput.AsStrList | src/nl2graph/data/schema/sparql.py:17-18 | a List[str] value must be a list, read item by item |
| SchemaInput.AsStrMap | src/nl2graph/execution/schema/rdf.py:24-63 | a Dict[str, str] reads exactly when every value is a string, keeping the keys |
| SchemaInput.StrItemsOfStrs | src/nl2graph/data/schema/sparql.py:17-31 | a dumped list of strings reads back |
| SchemaInput.StrMapOfJson | src/nl2graph/execution/schema/rdf.py:24-63 | a dumped dict of strings reads back |
| CliHelpers.FiltersOf | src/nl2graph/cli/_helpers.py:8-12 | hop and split are filter keys exactly when given, holding the given values, and nothing else is |
| CliHelpers.LoadRecords | src/nl2graph/cli/_helpers.py:7-16 | the source records that pass the filters, in scan order; all of them without options |
| CliHelpers.FiltersSelect | src/nl2graph/cli/_helpers.py:8-15 | a record passes the filters exactly when it has the hop and split asked for |
| CliHelpers.LoadMembership | src/nl2graph/cli/_helpers.py:7-16 | a record is loaded exactly when it is a source record matching the options |
| CliHelpers.DetectProvider | src/nl2graph/cli/_helpers.py:19-24 | "openai" exactly for names starting with gpt, "deepseek" exactly for names starting with deepseek, None otherwise |
| CliHelpers.PrefixesExclusive | src/nl2graph/cli/_helpers.py:20-22 | no name has both prefixes |
| CliHelpers.ProviderOfExtension | src/nl2graph/cli/_helpers.py:19-24 | extending a recognised name keeps its provider |
| CliHelpers.ProviderExamples | src/nl2graph/cli/_helpers.py:19-24 | gpt-4o-mini is openai, deepseek-chat is deepseek, unknown-model is None |
| Configs.Child | src/nl2graph/base/configs.py:30 | value.get(key) is the key's value, or None when missing |
| Configs.Walk | src/nl2graph/base/configs.py:25-31 | an empty path gives the value itself, and the default once a step lands on a non-dict |
| Configs.WalkIgnoresDefault | src/nl2graph/base/configs.py:27-31 | a walk that never lands on a non-dict does not depend on the default |
| Configs.WalkAppend | src/nl2graph/base/configs.py:27-31 | walking a longer path is walking its prefix and then the rest |
| Configs.MissingLastKeyIsNone | src/nl2graph/base/configs.py:30-31 | a key missing from the dict reached gives None, not the default |
| Configs.MergedHas | src/nl2graph/base/configs.py:13-16 | a top-level key is configured exactly when some file has it |
| Configs.MergedLast | src/nl2graph/base/configs.py:16 | a top-level key's value comes whole from the last file that has it |
| Configs.MergedValue | src/nl2graph/base/configs.py:13-16 | a key is configured exactly when some file has it, with the value of the last such file |
| Configs.EnvKey | src/nl2graph/base/configs.py:20 | the variable name has the key's length, no lower-case ASCII letter and no '-': '-' becomes '_' and every other character keeps its letter |
| Configs.ConfigService.constructor | src/nl2graph/base/configs.py:9-17 | the files merged in order by shallow update |
| Configs.ConfigService.GetEnv | src/nl2graph/base/configs.py:19-22 | the variable's value, None when unset |
| Configs.ConfigService.Get | src/nl2graph/base/configs.py:24-31 | the walk along the dot-separated keys |
| Templates.Stem | src/nl2graph/base/templates/service.py:29 | a file name is its stem plus ".jinja2", a bare ".jinja2" being its own stem |
| Templates.CatalogNames | src/nl2graph/base/templates/service.py:28-34 | a category's templates are named after the template files of its directory, each once |
| Templates.CategoryLoaded | src/nl2graph/base/templates/service.py:15-26 | a category is loaded exactly when it is configured with an existing directory |
| Templates.LoadCatalog | src/nl2graph/base/templates/service.py:28-34 | the file loop builds the category's catalogue |
| Templates.RenderFrom | src/nl2graph/base/templates/service.py:42-49 | KeyError for an unknown category and for an unknown template (after removing a trailing ".jinja2"); otherwise the renderer's output for name.jinja2 |
| Templates.TemplateService.constructor | src/nl2graph/base/templates/service.py:10-13 | the categories loaded from the configuration |
| Templates.TemplateService.LsCategories | src/nl2graph/base/templates/service.py:36-37 | exactly the loaded categories |
| Templates.TemplateService.LsTemplates | src/nl2graph/base/templates/service.py:39-40 | a category's template names, nothing for an unknown category |
| Templates.TemplateService.Render | src/nl2graph/base/templates/service.py:42-49 | rendering with this service's categories |
| Templates.SuffixIsOptional | src/nl2graph/base/templates/service.py:45-49 | a known name renders the same with or without ".jinja2" |
| ModelsService.ConfigFrom | src/nl2graph/base/models/service.py:20-28 | an entry reads when its fields have the declared types; path defaults to models/pretrained/name, an empty tokenizer_path is None, max_length defaults to 512 and special_tokens to [] |
| ModelsService.ConfigDefaults | src/nl2graph/base/models/service.py:21-28 | an empty entry takes every default |
| ModelsService.EntryOrder | src/nl2graph/base/models/service.py:20 | every entry is visited |
| ModelsService.LoadModels | src/nl2graph/base/models/service.py:15-18 | a missing or empty section gives no models; a non-dict one fails |
| ModelsService.LoadFromFails | src/nl2graph/base/models/service.py:20-28 | the loop fails exactly when some remaining entry is rejected |
| ModelsService.LoadFromValid | src/nl2graph/base/models/service.py:20-28 | a successful loop files every model under its own name |
| ModelsService.LoadFromEntries | src/nl2graph/base/models/service.py:20-28 | a successful loop adds the model each remaining entry describes and keeps the rest |
| ModelsService.LoadedValid | src/nl2graph/base/models/service.py:15-28 | a loaded table files each model under its own name |
| ModelsService.LoadedModels | src/nl2graph/base/models/service.py:15-28 | one model per entry, under its name, as that entry says |
| ModelsService.LoadEntriesFail | src/nl2graph/base/models/service.py:20-28 | the loop fails exactly when some entry is rejected |
| ModelsService.LoadFails | src/nl2graph/base/models/service.py:15-28 | loading fails exactly for a non-dict section or one with a rejected entry |
| ModelsService.LoadTable | src/nl2graph/base/models/service.py:15-28 | the loop computes the loaded table |
| ModelsService.CheckpointPathOf | src/nl2graph/base/models/service.py:38 | None for a missing or empty path, the path otherwise |
| ModelsService.CheckpointNames | src/nl2graph/base/models/service.py:44-45 | the names of the checkpoints section, which must be a dict |
| ModelsService.SplitCheckpointPathKey | src/nl2graph/base/models/service.py:37 | the path key of a dot-free name splits into seq2seq, checkpoints, the name and path |
| ModelsService.CheckpointPathLookup | src/nl2graph/base/models/service.py:37-41 | the path lookup is the path entry of the checkpoint's section |
| ModelsService.CheckpointPathAbsent | src/nl2graph/base/models/service.py:36-38 | a checkpoint whose section names no path has none |
| ModelsService.ModelService.constructor | src/nl2graph/base/models/service.py:10-13 | the configuration is kept and the models loaded |
| ModelsService.ModelService.LsModels | src/nl2graph/base/models/service.py:30-31 | the model names, each once |
| ModelsService.ModelService.GetModelConfig | src/nl2graph/base/models/service.py:33-34 | the configuration of a registered name, filed under that name; None for an unknown one |
| ModelsService.ModelService.RegisterModel | src/nl2graph/base/models/service.py:47-48 | the model is filed under its name, replacing one of the same name in place; nothing else changes |
| ModelsService.ModelService.GetCheckpointPath | src/nl2graph/base/models/service.py:36-38 | the configured checkpoint path, None when missing or empty |
| ModelsService.ModelService.GetCheckpointConfig | src/nl2graph/base/models/service.py:40-41 | the checkpoint's section as configured |
| ModelsService.ModelService.LsCheckpoints | src/nl2graph/base/models/service.py:43-45 | the names of the checkpoints section |
| Connectors.BackendOf | src/nl2graph/execution/service.py:32-39 | Neo4j exactly for cypher, rdflib exactly for sparql, Gremlin exactly for gremlin, none otherwise |
| Connectors.LastSlash | src/nl2graph/execution/service.py:16 | in dataset/lang the language follows the last slash |
| Connectors.CacheKeyInjective | src/nl2graph/execution/service.py:16 | distinct (dataset, language) pairs, with slash-free languages, have distinct cache keys |
| Connectors.Connector.constructor | src/nl2graph/execution/service.py:24 | a new connector of a back end with its settings, neither connected nor closed |
| Connectors.Connector.Connect | src/nl2graph/execution/service.py:25 | one more connect |
| Connectors.Connector.Close | src/nl2graph/execution/service.py:43 | one more close |
| ExecutionConnections.CreateSettings | src/nl2graph/execution/service.py:29-39 | a non-dict configuration fails; an unknown language is a ValueError; otherwise the configuration with name set to the language, for the language's back end |
| ExecutionConnections.Resolve | src/nl2graph/execution/service.py:20-24 | a falsy configuration is KeyError("connection not found: data.dataset.connection.lang"); otherwise the connector settings created from it |
| ExecutionConnections.ResolveKnown | src/nl2graph/execution/service.py:20-39 | a non-empty configured dict for a known language always gives a connector named after it |
| ExecutionConnections.GraphService.constructor | src/nl2graph/execution/service.py:11-13 | the configuration is kept and the cache is empty |
| ExecutionConnections.GraphService.GetConnector | src/nl2graph/execution/service.py:15-27 | a cached connector is returned untouched; otherwise a new connector connected once and cached, or the error with nothing cached |
| ExecutionConnections.GraphService.CloseAll | src/nl2graph/execution/service.py:41-44 | every cached connector is closed once and the cache emptied |
| GraphConnections.OptIntField | src/nl2graph/graph/service.py:35 | an Optional[int] field reads as None when absent or null and as the integer otherwise |
| GraphConnections.SettingsOf | src/nl2graph/graph/service.py:31-40 | the settings read exactly when every field has its declared type, named after the language, with timeout 30 by default; otherwise the first ill-typed field's error |
| GraphConnections.CreateConfig | src/nl2graph/graph/service.py:30-49 | an unknown language fails first with its ValueError, then a non-dict configuration; otherwise the settings and the language's back end |
| GraphConnections.NeverUnsupported | src/nl2graph/graph/service.py:44-49 | the final "unsupported query language" error is never raised |
| GraphConnections.TimeoutDefault | src/nl2graph/graph/service.py:39 | a configuration without a timeout connects with 30 seconds |
| GraphConnections.BaseInit | src/nl2graph/graph/connectors/base.py:12-19 | `BaseConnector.__init__` takes keyword arguments only: a positional argument raises TypeError |
| GraphConnections.Construct | src/nl2graph/graph/service.py:42-47 | as written, constructing the Neo4j or rdflib connector raises that TypeError, and constructing the Gremlin one does not |
| GraphConnections.Built | src/nl2graph/graph/service.py:21-26 | a cache miss as written: the missing-configuration KeyError, else the settings' error, else the constructor's TypeError for Neo4j and rdflib |
| GraphConnections.CypherSparqlNeverBuilt | src/nl2graph/graph/service.py:42-45 | as written, a Cypher or SPARQL connection is never built; a configured one fails with the TypeError |
| GraphConnections.Resolve | src/nl2graph/graph/service.py:21-25 | a falsy configuration is KeyError("connection not found: data.dataset.connections.lang"); otherwise the settings created from it |
| GraphConnections.GraphService.constructor | src/nl2graph/graph/service.py:12-14 | the configuration is kept and the cache is empty |
| GraphConnections.GraphService.GetConnector | src/nl2graph/graph/service.py:16-28 | as written: a cached connector is returned untouched; a Cypher or SPARQL miss always fails, with nothing connected or cached; a Gremlin miss is connected once and cached, or fails with nothing cached |
| GraphConnections.GraphService.GetIntendedConnector | src/nl2graph/graph/service.py:16-28 | the cache the code evidently intends: a cached connector is returned untouched; otherwise a new connector for the configured connection, connected once and cached, or the error with nothing cached |
| GraphConnections.GraphService.CloseAll | src/nl2graph/graph/service.py:51-54 | every cached connector is closed once and the cache emptied |
| GraphEntity.LangValue | src/nl2graph/graph/entity.py:7-10 | each member has a non-empty value |
| GraphEntity.ParseLang | src/nl2graph/graph/entity.py:7-10 | QueryLanguage(s) is the member whose value is s, else a ValueError |
| GraphEntity.ParseLangValue | src/nl2graph/graph/entity.py:7-10 | every member parses back from its value |
| GraphEntity.DefaultConfig | src/nl2graph/graph/entity.py:13-21 | only the required fields given: the optional ones are None and the timeout is 30 |
| Vocab.FromPairs | src/nl2graph/seq2seq/train/utils.py:18 | the dict built from pairs is well formed |
| Vocab.Pairs | src/nl2graph/seq2seq/train/utils.py:18 | d.items() lists each key with its value, in insertion order |
| Vocab.Swap | src/nl2graph/seq2seq/train/utils.py:18 | each pair is turned round |
| Vocab.InvertDict | src/nl2graph/seq2seq/train/utils.py:17-18 | the inverted dict is well formed |
| Vocab.InitVocab | src/nl2graph/seq2seq/train/utils.py:8-14 | the four special tokens with indices below four |
| Vocab.FromPairsHas | src/nl2graph/seq2seq/train/utils.py:18 | a key is present exactly when some pair has it |
| Vocab.FromPairsLast | src/nl2graph/seq2seq/train/utils.py:18 | a key takes the value of the last pair that has it |
| Vocab.FromPairsOrder | src/nl2graph/seq2seq/train/utils.py:18 | with distinct keys the dict lists them in pair order |
| Vocab.FromOwnPairs | src/nl2graph/seq2seq/train/utils.py:18 | a dict is rebuilt from its own items |
| Vocab.InvertKeys | src/nl2graph/seq2seq/train/utils.py:17-18 | the inverse's keys are exactly the dict's values |
| Vocab.InvertLastWins | src/nl2graph/seq2seq/train/utils.py:17-18 | a value maps back to the last key that has it |
| Vocab.InvertInvolution | src/nl2graph/seq2seq/train/utils.py:17-18 | inverting an injective dict twice gives it back, order included |
| Vocab.InitVocabInjective | src/nl2graph/seq2seq/train/utils.py:8-14 | each special token has its own index |
| Vocab.InvertInjective | src/nl2graph/seq2seq/train/utils.py:17-18 | the inverse of an injective dict lists its values in key order, each mapping back to its key |
| Vocab.InitVocabIndex | src/nl2graph/seq2seq/train/utils.py:9-14 | the i-th special token has index i |
| Vocab.InitVocabInvertedKeys | src/nl2graph/seq2seq/train/utils.py:8-18 | the inverted initial vocabulary lists the indices 0 to 3 in order |
| Vocab.InitVocabInverted | src/nl2graph/seq2seq/train/utils.py:8-18 | in the inverted initial vocabulary index i gives the i-th special token |
| OrderedMaps.Put | src/nl2graph/data/repository.py:30 | d[k] = v keeps a present key's place, appends a new one, and maps k to v |
| OrderedMaps.Get | src/nl2graph/base/models/service.py:34 | d.get(k) is the value of a present key, None otherwise |
| OrderedMaps.PutGet | src/nl2graph/base/models/service.py:34-48 | after d[k] = v, k reads v and every other key reads as before |
| OrderedMaps.CountIsSize | src/nl2graph/base/models/service.py:31 | a dict lists each key once |
| Strs.LowerIdempotent | src/nl2graph/execution/connectors/neo4j.py:67 | lower() twice is lower() once |
| Strs.StripClean | src/nl2graph/pipeline/generator.py:57-58 | strip() leaves no white space at either end |
| Strs.StripIdempotent | src/nl2graph/pipeline/generator.py:57-58 | strip() twice is strip() once |
| Strs.StripLower | src/nl2graph/analysis/analysis.py:40 | strip() and lower() commute |
| Strs.RemoveSuffix | src/nl2graph/base/templates/service.py:45 | removesuffix drops the suffix when the text ends with a non-empty one, and changes nothing otherwise |
| Strs.Insert | src/nl2graph/analysis/analysis.py:27 | inserting into a strictly sorted list keeps it strictly sorted, adding exactly the element |
| Strs.SortedSet | src/nl2graph/analysis/analysis.py:27 | sorted(set) lists each member once, in strictly ascending order |
| Strs.SortBy | src/nl2graph/execution/schema/cypher.py:35-41 | sorted(xs, key=...) is a permutation of xs ordered by the key |
| Strs.Split | src/nl2graph/base/configs.py:25 | split gives at least one piece, none holding the separator |
| Strs.SplitJoin | src/nl2graph/base/configs.py:25 | joining the pieces with the separator gives back the text |
| Strs.JoinSplit | src/nl2graph/execution/schema/cypher.py:48 | pieces free of the separator are found again by splitting their join |
| Strs.Find | src/nl2graph/analysis/analysis.py:24 | the first occurrence at or after the start, or none at all |
| QueryExtraction.FencedReply | src/nl2graph/pipeline/inference.py:68-74 | after the first fence, a tag, a backtick-free body that starts on white space and the closing fence, the extracted query is the body stripped |
| QueryExtraction.FencedBlockIs | src/nl2graph/pipeline/inference.py:68 | once both fences and the group's start are known, the group is the text between them |
| RunStages.NoFailureSavesAll | src/nl2graph/llm/pipeline.py:51-62 | with no raising generation the loop gets through every record |
| RunStages.GenAgain | src/nl2graph/llm/pipeline.py:53 | storing the same generation twice leaves the run as one store does |
| Runner.NoFailureSavesAll | src/nl2graph/pipeline/runner.py:48-59 | with no raising generation the saving loop gets through every record |
| Runner.AfterGenAgain | src/nl2graph/pipeline/runner.py:50-59 | saving the same generation twice leaves the run as one save does |
| Metrics.HarmonicBounds | src/nl2graph/eval/metrics.py:30-33 | 2pr / (p + r) lies in [0, 1] when p and r do and are not both 0 |

## Left out

- SQLite, file reading and writing, JSON (de)serialisation, logging and tqdm progress output: the store is an in-memory map, and records come in and go out as values.
- Thread-pool concurrency: a parallel branch is modelled as the sequential loop over an arbitrary permutation of the pending records.
- Oracles: the LLM, translators, the seq2seq `generate_batch` and decoder, query connectors, the evaluation `Execution`, the template engine, the Neo4j driver session and `convert_neo4j_value` are function parameters. Their exceptions are modelled as an error result.
- A result row's key is `Repository.ResultKey` (record id plus configuration). The repository writes the id as `record_id` but `Result` declares `question_id`; the model follows neither field name.
- `clear_stage` is not defined in src/nl2graph/data/repository.py. Its cascade follows tests/test_cli/test_init.py:137-229. The count it returns is the number of matching rows that had any of the cleared fields set.
- The `*_composite` storage methods are not in src/nl2graph/base/storage.py. They are modelled as put = replace and update = the deep merge of `update`.
- src/nl2graph/execution/connectors/base.py is not part of this model. Its timeout default is taken to be 30 seconds, as in src/nl2graph/graph/connectors/base.py.
- src/nl2graph/evaluation/metrics.py is not part of this model. The metrics of src/nl2graph/eval/metrics.py stand in for it.
- Connector I/O: connectors only count their `connect` and `close` calls. Drivers and sessions are not modelled beyond the fields that are read.
- src/nl2graph/graph/connectors/gremlin.py is not part of this model. Its connector is taken to construct and connect, so `GraphConnections.GraphService.GetConnector` caches a Gremlin connection.
- The secondary regular expressions of src/nl2graph/analysis/analysis.py:12-14 are the abstract function type `Analysis.Secondary`: what they extract from a message is a parameter.
- Cypher schema dict properties, model-configuration listings and checkpoint listings come out in ascending key order: the model's maps carry no order of their own.
- Strs.SortBy: states that the result is ordered by the key and is a permutation of the input, not that equal keys keep their input order (Python's `sorted` is stable).
- Pydantic validation: only exact types are checked, and validation messages are simplified to name the field.
- `TypeError` messages, and the message for iterating the items of a value that is not a list or dict, are simplified to fixed strings.
- Python `repr` escaping in SPARQL domain and range lists is not modelled: the list is rendered with plain quotes.
- `to_dict` key order is immaterial, since dict equality ignores order.
- Path normalisation (`pathlib`) is not modelled: paths are strings joined with "/".
- The template directory's existence check and glob are the `listing` parameter of the template service.
- The RDF and SPARQL schema modules define identical class records; `SparqlSchemas` reuses `RdfSchemas.ClassSchema`, `ClassLine` and `PrefixSection`.
- ModelsService.ModelService.constructor: requires that the models section of the configuration parses, instead of modelling the exception thrown for a malformed file.
- `seed_everything` in src/nl2graph/seq2seq/train/utils.py is left out: it only seeds random number generators and torch.
- scripts/run_metaqa.py loading and saving of record files, including the fallback to `processed_path` after a `FileNotFoundError`, is left to the caller of `MetaQa`.
- Storage.StorageService.Keys: SQLite's table-scan order is unspecified; the model lists the text keys first, in no promised order, then one None per NULL-keyed row, oldest first. Storage.StorageService.IterAll follows the same order.
- Storage.BindKey: a float key is stored as the text `Json.RealStr` gives, not SQLite's own REAL-to-TEXT conversion (which can use the exponent form); the binding error of a list or dict key is reduced to the name of its type. An integer key outside the signed 64-bit range is bound as its text, where sqlite3 raises `OverflowError`.
- Strs.Lower: lower-cases the ASCII letters only; Python's `str.lower()` also maps non-ASCII capitals ("É" to "é"). `Strs.Strip` and `Strs.IsSpace` do cover Python's full Unicode whitespace set.
- Configs.EnvKey: upper-cases the ASCII letters only; Python's `str.upper()` also maps non-ASCII letters ("é" to "É") and can change the length ("ß" to "SS").
- Neo4jExecution.Neo4jConnector.constructor: `sanity` is an `Option`, and an explicit `sanity=None` reads as the default `[]`; the source keeps None, and `_apply_sanity` then fails with TypeError when it iterates it.
- Json.Render: differs from `str()` in three ways. A dict's keys come out sorted, because a map has no insertion order. A string inside a list or dict is quoted without `repr` escaping. A float is printed by `Json.RealStr` as its exact decimal expansion cut at 17 fraction digits, with no exponent form and no shortest round-trip digits (Python prints `1e+16` and `0.30000000000000004`).
- Metrics.NormalizedMembership: an answer's `str` is `Json.Render` and its `lower()` is `Strs.Lower`, so the normalised text of an answer is Python's only where those agree; for example, two dict answers whose keys differ in order normalise alike in the model.
- Reporting.StatsOf: floats are exact reals, so the rounding of Python's float sums and divisions is not modelled. The TypeError of a non-numeric statistic is one fixed kind, and the validation error names only the first fractional token total.
- Reporting.KeyName: the group key text is `Json.Render` of the key object, with the differences listed for `Json.Render`.
- HopReport.Generate: the report's error analysis is reduced to `total_errors`, the count of failed executions; the categories and missing relations of `ErrorAnalysis` are not computed there.
- DataEntity.GetField: only declared fields, extra fields and the default are looked up; Python's `hasattr` also finds pydantic's own methods and properties (`get_field("json")` returns a bound method), which the model does not have.
- Repository.ResultOf: models the `Result` that `Result.from_dict` is evidently meant to build; as written the call raises AttributeError (see Findings and `Repository.GetAsWritten`).
- Repository.ResultRepository.Get: returns the intended `Result` of a stored row; as written `get` raises AttributeError for every stored row, because `Result` declares no `from_dict` (see Findings).
- Repository.ResultRepository.IterAll: yields the intended `Result` of each row; as written the first row yielded raises AttributeError through `Result.from_dict`.
- Repository.ResultRepository.IterByRecord: yields the intended `Result` of each matching row; as written the first row yielded raises AttributeError through `Result.from_dict`.
- Repository.ResultRepository.IterByConfig: yields the intended `Result` of each matching row; as written the first row yielded raises AttributeError through `Result.from_dict`.
- Repository.ResultRepository.IterPending: the intended scan; as written it raises at the first source record that has a row (see `Repository.PendingAsWrittenRaises` and Findings).
- Repository.PendingRecords: the intended pending list; as written `iter_pending` raises at the first source record that has a row.
- Repository.PendingMembership: states membership in the intended pending list; as written a record with a row raises instead of being tested for `eval`.
- The execute, evaluate and inference stages read rows through `get` (src/nl2graph/pipeline/execute.py:57,65, src/nl2graph/pipeline/evaluate.py:36,45,57, src/nl2graph/pipeline/inference.py:159,167); they are modelled on the intended read, so as written each would raise at its first stored row.
- EvaluateStage.EvaluatePipeline.constructor: the optional `scoring` argument is not modelled; the scorer is always the default `Scoring`. A caller-supplied scorer would change every `eval` written.
- EvaluateStage.EvaluatePipeline.Run: scores with the default `Scoring` only, not a caller-supplied `scoring`.
- InferenceStage.InferencePipeline.constructor: the optional `scoring` argument is not modelled; the scorer is always the default `Scoring`.
- InferenceStage.InferencePipeline.Evaluate: scores with the default `Scoring` only, not a caller-supplied `scoring`.
- Runner.PipelineRunner.constructor: the optional `evaluator` is not modelled beyond the default `Evaluator`, whose only free choice, the hits@1 first prediction, is the parameter `first`.
- Runner.PipelineRunner.Evaluate: scores with the default `Evaluator` only, not a caller-supplied one.
- LlmPipeline.LLMPipeline.constructor: the optional `scoring` argument is not modelled; the scorer is always the default `Scoring`.
- LlmPipeline.LLMPipeline.Evaluate: scores with the default `Scoring`'s `evaluate_record` only, not a caller-supplied `scoring`.
- Seq2SeqPipeline.Seq2SeqPipeline.constructor: the optional `scoring` argument is not modelled; the scorer is always the default `Scoring`.
- Seq2SeqPipeline.Seq2SeqPipeline.Evaluate: scores with the default `Scoring`'s `evaluate_record` only, not a caller-supplied `scoring`.
- ExecuteStage.ParallelMatchesSequential: states the intended outcome of the worker pool. The store's single sqlite3 connection (src/nl2graph/base/storage.py:11) is opened with the default `check_same_thread=True`, and `_execute_one` calls `dst.get` on worker threads (src/nl2graph/pipeline/execute.py:65), so as written the first future would plausibly fail with `ProgrammingError`. Threads and connections are not modelled.
- InferenceStage.InferParallelMatchesSequential: states the intended outcome of the worker pool; as for `ExecuteStage.ParallelMatchesSequential`, `dst.get` on a worker thread (src/nl2graph/pipeline/inference.py:167) would plausibly raise sqlite3's `ProgrammingError`, which is not modelled.
- QueryExtraction.TagLen: the tag is compared after ASCII lower-casing. Python's `re.IGNORECASE` also matches some non-ASCII characters against ASCII letters, such as 'ſ' (U+017F) against s, 'ı' (U+0131) against i and the Kelvin sign (U+212A) against k, so "```ſparql" is read as a tag in Python and as body text in the model.
- Analysis.MatchAt: the fixed text of the pattern is compared after ASCII lower-casing; Python's `re.IGNORECASE` also matches 'ſ', 'ı' and the Kelvin sign against s, i and k, so "Unknown relationſhip type 'X'" yields X in Python and nothing in the model.
- Metrics.PrecisionRecallF1: Python floats are exact reals in the model, so float rounding is not modelled. This applies to every score and average: `Metrics.PrecisionRecallF1`, `Metrics.ExactMatch`, `Metrics.Accuracy`, `Scoring.Evaluate`, `RunScoring.ScoreSets`, `RunScoring.Summarize`, `Evaluators.RunScore`, `PipelineService.Mean`, `PipelineService.Averaged` and `HopReport.HopStatsOf`. For example, gold {a} and five predictions including a give F1 0.33333333333333337 in Python and exactly 1/3 in the model.
- Metrics.F1IsDice: holds over exact reals only; the float F1 can differ from the Dice value in the last place.

## Findings

| source | as written | input that shows it | evidently intended | confidence | as-written member | corrected member |
|---|---|---|---|---|---|---|
| src/nl2graph/graph/connectors/neo4j.py:50-51 | `super().__init__(config)` passes the configuration positionally to `BaseConnector.__init__(self, **kwargs)` (src/nl2graph/graph/connectors/base.py:12), which raises TypeError; src/nl2graph/graph/connectors/rdflib.py:18-19 does the same, so `get_connector` never connects a Cypher or SPARQL connection | `get_connector("ds", "cypher")` with `data.ds.connections.cypher` set to `{"host": "h"}` | the connector keeps the configuration as `self.config`, which `connect` and `execute` read, and is connected once and cached | not executed | GraphConnections.GraphService.GetConnector | GraphConnections.GraphService.GetIntendedConnector |
| src/nl2graph/data/repository.py:63-68 | `Result.from_dict(data)` is called, but `Result` (src/nl2graph/data/entity.py:51-58) is a pydantic model that declares no `from_dict`, so `get` raises AttributeError for every stored row; `iter_all`, `iter_by_record` and `iter_by_config` (src/nl2graph/data/repository.py:121-132) make the same call on every row they yield | `get("q1", "llm", "cypher", "m")` after `save_generation` for that key | the stored row is read back as a `Result` carrying its key and its three stage outputs | not executed | Repository.StoredRowRaises | Repository.ResultRepository.Get |
| src/nl2graph/data/repository.py:134-147 | `iter_pending` calls `get` for every source record that has a row, so it raises AttributeError at the first such record instead of testing the row's `eval` | a source record "q1" whose row holds a `gen` and no `eval` | "q1" is yielded as pending; a record whose row holds an `eval` is skipped | not executed | Repository.UnevaluatedRowRaises | Repository.ResultRepository.IterPending |
