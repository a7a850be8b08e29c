# Stored-procedure calls, bulk staging and intent extraction — a Dafny model

This project models the small amount of logic that the chat-agent backend owns:

- **TransactSQL** (`src/services/TransactSQL.js`): the generic stored-procedure
  service. It builds the statement `CALL <procedure>(:k1, :k2, …)` from a procedure
  name and the keys of a parameter object. The values travel separately as named
  replacements. It then shapes the store's answer: `singleQuery` gives the first row
  or null, `listQuery` the rows or `[]`, and `singleQueryAsync` the affected-row
  count or 0. `singleQueryAsync` swallows every failure. The other methods rethrow.
- **BulkStaging**, **ProductService**, **DatasheetService**
  (`src/services/product.service.js`, `src/services/Datasheet.service.js`): the
  dispatch rule for bulk writes into the staging tables `ProductTemp` and
  `DatasheetTemp`. The canonical upsert into `Product`. The reconciliation calls
  `DebbugProductos` and `DebbugDatasheets`.
- **Llm** (`src/llm/index.js`): the strict entry point `extractIntent` and the
  non-throwing entry point `extractIntentSafe`.

Everything is pure. The store (`sequelize.query`), the bulk helpers of `bulk.utils.js`,
the retrying model call and the schema validator are parameters: functions that
resolve to a value or throw (`Result`).

Files: `wrappers.dfy` (Option, Error, Result), `store.dfy` (the store interface:
parameters, queries, answers), `transact_sql.dfy`, `bulk_staging.dfy`,
`product_service.dfy`, `datasheet_service.dfy`, `llm.dfy`.

The builder is written once (`TransactSQL.CallStatement`). The source has three
textual copies of it, and `TransactSQL.SharedStatement` shows that all three
methods send that one statement. Its partner is a decoder, `TransactSQL.ParseCall`.
`TransactSQL.CallRoundTrip` proves that the decoder reads back the procedure and
exactly the keys, in order. It assumes the procedure name holds no `(` and no key
holds a `,`.

Behaviour of the code worth knowing:

- Reconciliation (`syncProductosFromTemp`, `syncDatasheetsFromTemp`) goes through
  `singleQuery` and returns the first row of the procedure's answer, or null. The
  affected-row count ("Número de filas afectadas", src/services/TransactSQL.js:49)
  is what `singleQueryAsync` returns, and reconciliation does not use it.
- The `try` of `extractIntentSafe` (src/llm/index.js:34-37) covers the call to
  `validateIntent` as well as the extraction, so an error thrown by the validator is
  also turned into the failure record. The validator is therefore modelled as
  possibly throwing.
- Nothing guards `chunkSize`. With `useChunks` true and a negative chunk size,
  even an empty batch goes to the chunked helper
  (`BulkStaging.NegativeChunkSizeChunksEmptyBatch`).

## Model

| member | source | states |
|---|---|---|
| `TransactSQL.Placeholders` | src/services/TransactSQL.js:19-21 | the placeholder text is empty exactly when the parameter object has no keys |
| `TransactSQL.CallStatement` | src/services/TransactSQL.js:23-25 | the statement is `CALL proc(` + placeholders + `)` in both branches of the conditional; with no keys it is exactly `CALL proc()` |
| `TransactSQL.NamesRoundTrip` | src/services/TransactSQL.js:19-21 | the placeholder list reads back as the keys: one `:key` per key, in key order |
| `TransactSQL.CallRoundTrip` | src/services/TransactSQL.js:19-25 | decoding the statement recovers the procedure name and exactly the parameter keys in order; no value appears in it |
| `TransactSQL.SharedStatement` | src/services/TransactSQL.js:17-117 | `singleQuery`, `listQuery` and `executeQuery` send the same built statement; each passes the parameter object as replacements; the first two send identical requests |
| `TransactSQL.StatementIgnoresValues` | src/services/TransactSQL.js:19-33 | parameter objects with equal keys yield equal statements, whatever their values |
| `TransactSQL.NoParametersRequest` | src/services/TransactSQL.js:17-33 | with the default `{}` parameters the request is `CALL proc()` with empty replacements, SELECT, raw |
| `TransactSQL.AsyncStatement` | src/services/TransactSQL.js:53 | `singleQueryAsync` sends the statement the builder makes for no keys |
| `TransactSQL.SingleQuery` | src/services/TransactSQL.js:17-44 | fails exactly when the store fails, with the same error; otherwise gives row 0 when rows are present, and null exactly when they are absent or empty |
| `TransactSQL.ListQuery` | src/services/TransactSQL.js:70-91 | fails exactly when the store fails, with the same error; otherwise gives the store's rows, or `[]` when absent |
| `TransactSQL.ExecuteQuery` | src/services/TransactSQL.js:99-117 | fails exactly when the store fails, with the same error |
| `TransactSQL.SingleQueryAsync` | src/services/TransactSQL.js:51-62 | never throws; 0 on any store failure; a nonzero result is the reported `affectedRows`; a reported count is returned |
| `TransactSQL.RawQuery` | src/services/TransactSQL.js:126-139 | fails exactly when the store fails, with the same error; otherwise gives element 0 of the answer unchanged |
| `TransactSQL.RawQueryDefaults` | src/services/TransactSQL.js:126-132 | `rawQuery(query)` with its defaults sends the caller's text unchanged, as a raw SELECT with empty replacements |
| `TransactSQL.SingleIsHeadOfList` | src/services/TransactSQL.js:17-91 | `singleQuery` fails exactly when `listQuery` does, with the same error, and otherwise returns the head of `listQuery`'s rows, or null for an empty list |
| `BulkStaging.StagingWrite` | src/services/product.service.js:20-30 | chunked if and only if `useChunks` and length > `chunkSize`, with that chunk size; otherwise a direct insert with `validate: true`; always the given table and records |
| `BulkStaging.DefaultsAreDirect` | src/services/product.service.js:20-22 | with the defaults (`useChunks = false`, `chunkSize = 500`) the direct validated insert is taken |
| `BulkStaging.SmallBatchIsDirect` | src/services/product.service.js:22-29 | a batch no larger than `chunkSize` is inserted directly, whatever `useChunks` says |
| `BulkStaging.EmptyBatchIsDirect` | src/services/Datasheet.service.js:18-25 | an empty batch is inserted directly when the chunk size is not negative |
| `BulkStaging.NegativeChunkSizeChunksEmptyBatch` | src/services/Datasheet.service.js:16-20 | with `useChunks` true and chunk size -1 an empty batch takes the chunked path |
| `BulkStaging.PerformReturnsHelperResult` | src/services/product.service.js:22-30 | the service returns, or rethrows, exactly what the chosen helper gives |
| `ProductService.BulkCreateProducts` | src/services/product.service.js:18-32 | under the dispatch condition the result is `bulkCreateInChunks(ProductTemp, productos, chunkSize)`; otherwise `bulkCreate(ProductTemp, productos, {validate: true})` |
| `ProductService.ProductsAreStaged` | src/services/product.service.js:22-30 | the result of `bulkCreateProducts` depends on the helpers only through their calls on the staging table `ProductTemp` with the caller's batch |
| `ProductService.BulkUpsertProducts` | src/services/product.service.js:40-45 | one `bulkCreate` into `Product` with `updateOnDuplicate = updateFields` and `validate: true` |
| `ProductService.UpsertTargetsCanonical` | src/services/product.service.js:41-44 | the result of `bulkUpsertProducts` depends on the helpers only through the direct `bulkCreate` on the canonical `Product` table with the caller's batch: never chunked, never staged |
| `ProductService.SyncProductosFromTemp` | src/services/product.service.js:55-57 | sends `CALL DebbugProductos()` as a parameterless SELECT; the result is the first row or null; a store failure is rethrown |
| `DatasheetService.BulkCreateDatasheets` | src/services/Datasheet.service.js:14-28 | under the dispatch condition the result is `bulkCreateInChunks(DatasheetTemp, datasheets, chunkSize)`; otherwise `bulkCreate(DatasheetTemp, datasheets, {validate: true})` |
| `DatasheetService.DatasheetsAreStaged` | src/services/Datasheet.service.js:18-26 | the result of `bulkCreateDatasheets` depends on the helpers only through their calls on the staging table `DatasheetTemp` with the caller's batch |
| `DatasheetService.SyncDatasheetsFromTemp` | src/services/Datasheet.service.js:38-40 | sends `CALL DebbugDatasheets()` as a parameterless SELECT; the result is the first row or null; a store failure is rethrown |
| `Llm.ExtractIntent` | src/llm/index.js:17-25 | an extraction failure propagates unchanged; otherwise the result is `validateOrThrow` of the extracted value, success or failure |
| `Llm.ExtractIntentSafe` | src/llm/index.js:33-45 | never throws; a failure of either step gives `valid = false`, `data = null` and a single `{field: "system", message}` error; otherwise the validator's report unchanged |
| `Llm.ExtractionFailureSkipsValidation` | src/llm/index.js:19-22 | when extraction fails, the outcome does not depend on the validator in either entry point |
| `Llm.QuestionPassedUnchanged` | src/llm/index.js:17-36 | both entry points consult the extraction only at the caller's question |
| `Llm.SystemFailureIsWellFormed` | src/llm/index.js:38-44 | the failure record satisfies the report invariant: invalid, no data, non-empty errors |
| `Llm.SafeIsWellFormed` | src/llm/index.js:33-45 | if the validator's reports satisfy the report invariant (valid: data present and errors empty or null; invalid: no data and non-empty errors), every result of `extractIntentSafe` does |
| `Llm.SafeAgreesWithStrict` | src/llm/index.js:17-45 | with validators that agree, the safe report is valid if and only if the strict call succeeds, and it carries the same intent; an extraction failure carries the strict call's message |

## Left out

- The store itself (Sequelize over MySQL). It is the parameter `db`. The answer is read by position: element 0 is the rows and element 1 the metadata. Sequelize's own reshaping of `CALL` results for each query type is not modelled. Neither is the substitution of replacements into the text.
- The logger calls. They only write diagnostics.
- Async/await. Each awaited call is an ordinary call that returns a `Result`.
- A `parameters` argument of `null`. `Object.keys(null)` throws a `TypeError` in `singleQuery`, `listQuery` and `executeQuery`, and the `catch` rethrows it. `rawQuery` never calls `Object.keys`, so `rawQuery(sql, null)` sends `replacements: null` to the store. The model's `Parameters` type cannot express a `null` parameter object.
- An answer that is not an array. Destructuring it throws a `TypeError`. `singleQuery`, `listQuery` and `rawQuery` rethrow it, and `singleQueryAsync` turns it into 0. `executeQuery` does not destructure the answer, so it still resolves to `undefined`. The model's `Answer` type is always an array.
- `Object.keys` puts integer-like keys first. The model takes the keys in the order given.
- `useChunks` and `chunkSize` are modelled as a boolean and an integer. JavaScript truthiness for other values, and comparison with non-numbers, are not modelled.
- `TransactSQL.SingleQueryAsync`: `affectedRows` is modelled as a natural number, or absent.
- Chunk splitting, per-record validation and the actual inserts of `bulk.utils.js`. Only the dispatch to `bulkCreate` and `bulkCreateInChunks` is modelled. `bulk.utils.js` is not part of this model.
- The retry loop, backoff, timeout and sampling options of `ollama.service.js`. That file is not part of this model. The extraction with retry is the parameter `extractWithRetry`.
- The schema validator. `intent.validator.js` is not part of this model. `validateIntent` is taken to be synchronous. Its result is returned from inside the `try` without `await` (src/llm/index.js:36-37), so a promise that an asynchronous validator rejects would escape the `catch`. The "never throws" contract of `Llm.ExtractIntentSafe` holds only under this assumption. `validateOrThrow` and `validateIntent` are parameters, so the shape of a successful report is only known under the hypotheses of `Llm.SafeIsWellFormed` and `Llm.SafeAgreesWithStrict`.
- HTTP routes and the controller, and environment configuration. They hold transport marshalling and static defaults only.
- The store has no state. `Connection` is a pure function of the request, so two calls with the same request get the same answer. `TransactSQL.SingleIsHeadOfList` compares `singleQuery` and `listQuery` against one store state. The insert, update and clear-staging effects of the `DebbugProductos` and `DebbugDatasheets` routines are not modelled.
- `QueryType` has only `Select` and `Raw`, the two types the core uses. `rawQuery` accepts any Sequelize query type. The others are not modelled.
- `Llm.ExtractIntentSafe`: every thrown value is modelled as an Error object with a string `message`. In the source, a thrown primitive, or a thrown object without a `message` property, gives a failure record whose message is `undefined`. A thrown plain object that has a `message` gives that message, as the model does. A thrown `null` or `undefined` makes the `catch` block read `error.message` and throw a TypeError, so `extractIntentSafe` rejects. The "never throws" contract, and `Llm.SafeIsWellFormed`, hold for Error-like thrown values only.
- `TransactSQL.SingleQuery`: its "same error" clause assumes an Error-like failure. The `catch` at src/services/TransactSQL.js:37-41 reads `error.message`, `error.sql` and `error.parameters` before rethrowing, so a store that rejects with `null` or `undefined` yields a TypeError instead of the original value. `ListQuery`, `ExecuteQuery` and `RawQuery` only hand the error to the logger and rethrow it (src/services/TransactSQL.js:88-89, 114-115, 136-137), so a `null` rejection is rethrown as it is, unless the logger fails. The model's `Error` cannot represent such a value.
- `ProductService.BulkCreateProducts` and `DatasheetService.BulkCreateDatasheets`: an `options` argument of `null` makes the destructuring throw a TypeError. With `useChunks` truthy, a `null` or `undefined` batch makes reading `.length` throw a TypeError. A batch object without `.length` compares `undefined > chunkSize`, which is false, and goes to the direct insert. Both cases are ruled out by the model's types: options are a record and the batch is a sequence.
