# Freewill core, modelled in Dafny

This project models the stateful core of the Freewill assistant, across client and server.

On the client:
- the bounded log store (`Logger`);
- the two React reducers for loading flags and model state;
- the API error classifier;
- the list-editing handlers of the `App` component.

On the server:
- the token batcher;
- the status lifecycle and response cache of the llama.cpp engine;
- the SQLite memory table with its AUTOINCREMENT ids;
- the keyed upsert store with expiry;
- the field bounds of the request schemas.

Each source file is one module:

| module | file | source |
|---|---|---|
| `ClientLogger` | `client_logger.dfy` | `client/src/services/logger.ts` |
| `TokenBatching` | `token_processor.dfy` | `server/src/data/token_processor.py` |
| `LlmEngine` | `llm_engine.dfy` | `server/src/llm/engine.py` |
| `MemoryTable` | `memory_manager.dfy` | `server/src/data/memory_manager.py` |
| `KeyedMemories` | `database_ops.dfy` | `server/src/data/database/operations.py` |
| `LoadingFlags` | `loading_context.dfy` | `client/src/context/LoadingContext.tsx` |
| `ModelState` | `model_context.dfy` | `client/src/context/ModelContext.tsx` |
| `ApiErrors` | `error_handler.dfy` | `client/src/services/errorHandler.ts` |
| `ChatApp` | `app_state.dfy` | `client/src/App.tsx` |
| `Schemas` | `schemas.dfy` | `server/src/api/schemas.py` |

Shared modules:
- Wrappers: `Option`, `Result`.
- Constants: the error codes, model statuses and memory types of `server/src/core/constants.py`.
- PyText: Python's `str.strip()` and `str()` of an `int`.
- Seqs: an order-keeping filter.

Code that updates state in place is a `class` whose methods change its fields. Examples are the logger's buffer, the processor's counters, the engine's status, the table's rows, the provider's state and the component state of `App`. Each such method states its new state, either directly or through a specification function. What the source promises is then proved about those functions as lemmas.

Pure code is modelled as functions, with lemmas relating them. This covers the reducers, the error classifier, the list edits and the schemas.

Anything that reads a clock, the file system, the network, llama.cpp or the cache becomes a parameter, and the model states what happens for either outcome.

Scenario methods work through concrete examples and have no contract of their own:
- `ClientLogger.BootThenFailScenario`;
- `LlmEngine.CachedRequestScenario`, the cached round trip of the engine tests;
- `MemoryTable.StoreDeleteClearScenario`;
- `KeyedMemories.StoreThenGetScenario` and `KeyedMemories.ExpiryScenario`;
- `ChatApp.MemoryEditScenario` and `ChatApp.ChatScenario`.

Where the code departs from its description, the model follows the code:
- `addLog` removes one entry when the buffer goes over `maxLogs`; it does not remove entries until the size is back to `maxLogs`. The model does the same. Because the store never holds more than `maxLogs` entries (the `Logger.Valid` invariant), the two readings agree.
- `maxLogs` is the constant 1000, not a construction parameter. `Push` and `Retained` take the capacity as an argument, so the capacity-3 boundary scenario can be stated.
- `generate_response` raises on an unready model with `ErrorCodes.MODEL_NOT_READY`. `constants.py` does not define that code. Python therefore raises an `AttributeError` first, which is caught and re-raised as `MODEL_RESPONSE_FAILED`. The model returns that code.

## Model

| member | source | states |
|---|---|---|
| `ClientLogger.Push` | client/src/services/logger.ts:72-76 | a buffer within capacity stays within it; below capacity the entry is appended; at capacity exactly the oldest entry is evicted; the new entry is always last |
| `ClientLogger.PushRetains` | client/src/services/logger.ts:72-76 | one append to the last `cap` entries of a history gives the last `cap` entries of the extended history |
| `ClientLogger.ReplayRetains` | client/src/services/logger.ts:72-76 | any sequence of appends keeps exactly the most recent `cap` entries of everything appended, in insertion order |
| `ClientLogger.ReplayFromEmpty` | client/src/services/logger.ts:72-76 | from an empty store, n appends leave the last min(n, cap) entries, and exactly that many |
| `ClientLogger.CapacityBoundaryScenario` | client/src/services/logger.ts:72-76 | with capacity 3, appending "a", "b", "c", "d" leaves "b", "c", "d" |
| `ClientLogger.Messages` | client/src/services/logger.ts:117-119 | the messages of a list of entries, position by position |
| `ClientLogger.FormatMessage` | client/src/services/logger.ts:46-54 | the entry carries the given level, message and data, the clock's time stamp and the captured trace |
| `ClientLogger.Logger.constructor` | client/src/services/logger.ts:14-18 | an empty store; console mirroring exactly in development, remote mirroring exactly in production |
| `ClientLogger.Logger.SendToRemote` | client/src/services/logger.ts:56-70 | the entry is handed to the remote sink only when remote mirroring is on |
| `ClientLogger.Logger.AddLog` | client/src/services/logger.ts:72-89 | the buffer stays the most recent 1000 appended entries; below capacity the entry is appended, at capacity the oldest is dropped; the entry is mirrored remotely when enabled |
| `ClientLogger.Logger.Log` | client/src/services/logger.ts:101-115 | appends one formatted entry with the given level, message, data, time and trace, and it is the newest entry |
| `ClientLogger.Logger.LogDebug` | client/src/services/logger.ts:101-103 | appends one entry of level debug with the given message and data |
| `ClientLogger.Logger.LogInfo` | client/src/services/logger.ts:105-107 | appends one entry of level info with the given message and data |
| `ClientLogger.Logger.LogWarn` | client/src/services/logger.ts:109-111 | appends one entry of level warn with the given message and data |
| `ClientLogger.Logger.LogError` | client/src/services/logger.ts:113-115 | appends one entry of level error with the given message and data |
| `ClientLogger.Logger.GetLogs` | client/src/services/logger.ts:117-119 | returns a copy equal to the buffer, which is the last 1000 entries appended, and changes nothing |
| `ClientLogger.Logger.ClearLogs` | client/src/services/logger.ts:121-123 | the buffer is empty afterwards, whatever it held, so clearing twice is clearing once |
| `ClientLogger.MirroringExclusive` | client/src/services/logger.ts:17-18 | console and remote mirroring are never both on |
| `PyText.TrimLeft` | server/src/data/token_processor.py:59 | removes exactly a white-space prefix, leaving a text that does not start with white space |
| `PyText.TrimRight` | server/src/data/token_processor.py:59 | removes exactly a white-space suffix, leaving a text that does not end with white space |
| `PyText.Strip` | server/src/data/token_processor.py:59 | the result neither starts nor ends with white space, is no longer than the input, and is empty exactly when the input is all white space |
| `PyText.StripIdempotent` | server/src/data/token_processor.py:59 | stripping twice is stripping once |
| `PyText.DigitChar` | server/src/llm/engine.py:79 | a decimal digit character |
| `PyText.NatText` | server/src/llm/engine.py:79 | non-empty decimal digits, at least two for numbers of 10 and above |
| `PyText.IntText` | server/src/llm/engine.py:79 | the text of an integer never holds a colon |
| `PyText.NatTextInjective` | server/src/llm/engine.py:79 | different naturals have different decimal texts |
| `PyText.IntTextSign` | server/src/llm/engine.py:79 | the text starts with a minus sign exactly for negative integers |
| `PyText.IntTextInjective` | server/src/llm/engine.py:79 | different integers have different texts |
| `TokenBatching.EffectiveSize` | server/src/data/token_processor.py:36 | the batch length at which `len(batch) >= batch_size` first holds: the batch size, or 1 when that is below 1 |
| `TokenBatching.Kept` | server/src/data/token_processor.py:59 | a token survives cleaning, as its stripped text, exactly when it is not all white space |
| `TokenBatching.Cleaned` | server/src/data/token_processor.py:59 | the cleaned batch is no longer than the batch and holds no empty token |
| `TokenBatching.CleanedConcat` | server/src/data/token_processor.py:59 | cleaning distributes over concatenation, so it keeps token order |
| `TokenBatching.CleanedSingle` | server/src/data/token_processor.py:59 | one token is dropped if all white space, else kept stripped |
| `TokenBatching.FlattenAppend` | server/src/data/token_processor.py:36-44 | joining batches distributes over concatenation |
| `TokenBatching.Chunks` | server/src/data/token_processor.py:36-44 | the batches joined give back the stream; every batch but the last holds exactly `batch_size` tokens, the last between 1 and `batch_size`; no batch for an empty stream |
| `TokenBatching.SplitFirstBatch` | server/src/data/token_processor.py:36-39 | the first `batch_size` tokens of full batches and a remainder are the first batch |
| `TokenBatching.ChunksOfFull` | server/src/data/token_processor.py:36-44 | full batches followed by a short remainder are cut back into the same batches |
| `TokenBatching.MapCleaned` | server/src/data/token_processor.py:37-44 | each yielded batch is its raw batch cleaned |
| `TokenBatching.FlattenMapCleaned` | server/src/data/token_processor.py:36-59 | cleaning batch by batch and joining equals cleaning the joined stream |
| `TokenBatching.Allowance` | server/src/data/token_processor.py:26-27 | the number of tokens accepted before the limit error: `max_tokens`, or none for a negative limit |
| `TokenBatching.FullPart` | server/src/data/token_processor.py:36-39 | the tokens that fill whole batches: a multiple of the batch size at most the count, short of it by less than one batch |
| `TokenBatching.FullPartIdempotent` | server/src/data/token_processor.py:36-39 | the whole-batch part of a whole-batch count is itself |
| `TokenBatching.FullPartOfBatches` | server/src/data/token_processor.py:36-39 | full batches plus a short remainder: the whole-batch part is the full batches |
| `TokenBatching.ChunksOfFullPart` | server/src/data/token_processor.py:36-39 | a stream whose length fills whole batches is cut into full batches only |
| `TokenBatching.TakeToken` | server/src/data/token_processor.py:34 | accepting a token extends the open batch by that token |
| `TokenBatching.StopAtLimit` | server/src/data/token_processor.py:25-32 | when token number `max_tokens + 1` arrives, the batches closed so far are exactly what the stream yields |
| `TokenBatching.EndOfStream` | server/src/data/token_processor.py:41-44 | at the end of a stream within the limit, the closed batches and the remainder are exactly what the stream yields |
| `TokenBatching.FlattenSnoc` | server/src/data/token_processor.py:36-44 | appending one batch appends its tokens |
| `TokenBatching.CloseBatch` | server/src/data/token_processor.py:36-39 | closing a full batch keeps the loop's invariant |
| `TokenBatching.MapCleanedSnoc` | server/src/data/token_processor.py:37-38 | cleaning one more batch appends its cleaned form |
| `TokenBatching.TokenProcessor.constructor` | server/src/data/token_processor.py:7-13 | the given batch size (32 by default) and all counters at 0 |
| `TokenBatching.TokenProcessor.ProcessBatch` | server/src/data/token_processor.py:55-66 | returns the cleaned batch; `processed` grows by its length, `dropped` by the tokens removed, `total_batches` by one |
| `TokenBatching.TokenProcessor.ProcessStream` | server/src/data/token_processor.py:15-44 | the batches yielded are the cleaned batches of the stream, or only those closed before the limit was broken; the limit error, with limit and received count, is raised exactly when the stream exceeds `max_tokens`; each counter grows by what the yielded batches account for |
| `TokenBatching.TokenProcessor.GetMetrics` | server/src/data/token_processor.py:75-83 | the counters as they are, and an average of 0 with no batch, else `processed / total_batches` |
| `TokenBatching.WithinLimitYieldsCleanedStream` | server/src/data/token_processor.py:25-44 | within the limit, the yielded batches joined are exactly the stripped non-empty tokens of the stream, in order |
| `TokenBatching.OverLimitYieldsOnlyFullBatches` | server/src/data/token_processor.py:25-39 | over the limit, only full batches are yielded, all taken from tokens before the one that broke the limit |
| `LlmEngine.DefaultSettings` | server/src/llm/engine.py:22-29 | the six settings and their initial values |
| `LlmEngine.SplitAtLastColon` | server/src/llm/engine.py:79 | a text joined by a colon to a colon-free text splits back at the last colon |
| `LlmEngine.CacheKeyInjective` | server/src/llm/engine.py:79 | the cache key determines prompt, token limit and temperature, so requests differing in any of them never share an entry |
| `LlmEngine.CacheKey` | server/src/llm/engine.py:79 | the f-string key `llm_response:{prompt}:{max_tokens}:{temperature}`; the reference definition `CacheKeyInjective` is about |
| `LlmEngine.ReplyOf` | server/src/llm/engine.py:102-107 | the reply text is the completion text stripped, empty exactly when the completion is all white space; token usage and finish reason are carried over |
| `LlmEngine.ErrorSticky` | server/src/llm/engine.py:32-127 | once in ERROR, the engine stays in ERROR through any calls but `initialize` |
| `LlmEngine.Step` | server/src/llm/engine.py:32-131 | the status and loaded-model transition of one call (`initialize`, a generation, a settings update); the reference definition `ErrorSticky`, `ReadyNeedsInitialize`, `ReadyServesRepeatedly` and `Engine`'s methods are stated against |
| `LlmEngine.Run` | server/src/llm/engine.py:32-131 | the transitions of a run of calls, one after another; the reference definition `ErrorSticky`, `ReadyNeedsInitialize` and `ReadyServesRepeatedly` are about |
| `LlmEngine.ReadyNeedsInitialize` | server/src/llm/engine.py:32-127 | the engine ends READY only if it started READY or some `initialize` in the run found the file and loaded the model |
| `LlmEngine.ReadyServesRepeatedly` | server/src/llm/engine.py:62-131 | a ready engine stays ready through any run of answered generations and settings updates |
| `LlmEngine.Engine.constructor` | server/src/llm/engine.py:17-29 | status INITIALIZING, no model, the default settings |
| `LlmEngine.Engine.Initialize` | server/src/llm/engine.py:32-60 | READY when the file exists and the model loads; else ERROR and a `MODEL_LOAD_FAILED` error whose detail is "Model file not found" or the load failure's text |
| `LlmEngine.Engine.GenerateResponse` | server/src/llm/engine.py:62-127 | an unready engine goes to ERROR with `MODEL_RESPONSE_FAILED`; a cache hit is returned without a status change; otherwise the stripped completion is returned and cached when caching is on, and a failed completion leaves ERROR and the error's text |
| `LlmEngine.Engine.UpdateSettings` | server/src/llm/engine.py:129-131 | the given keys take the given values, every other key keeps its value |
| `LlmEngine.Engine.GetStatus` | server/src/llm/engine.py:134-161 | status and path always; `ready` exactly when the metrics can be read and the status is READY; settings and context size (2048 with a model, else 0) only when the metrics can be read |
| `MemoryTable.InsertNewestFirst` | server/src/data/memory_manager.py:99 | inserting into a newest-first list keeps it newest first and adds exactly that row |
| `MemoryTable.SortNewestFirst` | server/src/data/memory_manager.py:99 | `ORDER BY created_at DESC`: newest first and a permutation of its input |
| `MemoryTable.Limit` | server/src/data/memory_manager.py:99-100 | `LIMIT n` keeps a prefix of length n, or everything when n is negative or large enough |
| `MemoryTable.ConditionsMeanRetrievable` | server/src/data/memory_manager.py:85-97 | the assembled `WHERE` clause holds of a row exactly when it is unexpired, of the type if given, and important enough when `min_importance` is positive |
| `MemoryTable.PrefixIsNewest` | server/src/data/memory_manager.py:99-100 | a prefix of a newest-first list is newest first, taken from the list, and no row left out is newer than one kept |
| `MemoryTable.ConsIdsIncreasing` | server/src/data/memory_manager.py:24 | a row with a smaller id can go in front of rows with increasing ids |
| `MemoryTable.FirstBelowFilteredRest` | server/src/data/memory_manager.py:24 | with increasing ids, the first row's id is below every id a filter keeps of the rest |
| `MemoryTable.FilterKeepsIdsIncreasing` | server/src/data/memory_manager.py:123-153 | deleting rows keeps the others in insertion order |
| `MemoryTable.MemoryManager.constructor` | server/src/data/memory_manager.py:18-32 | `CREATE TABLE IF NOT EXISTS`: the rows and AUTOINCREMENT counter the file already holds, kept as they are; an empty table with counter 0 for a new file |
| `MemoryTable.MemoryManager.Store` | server/src/data/memory_manager.py:41-71 | appends one row stamped now under a fresh id one above any id handed out before; missing metadata is stored as `{}` and importance defaults to 0 |
| `MemoryTable.MemoryManager.Retrieve` | server/src/data/memory_manager.py:77-117 | returns only retrievable rows of the table, newest first, no row twice, as many as match up to the limit (all for a negative limit), and no matching row left out is newer than one returned |
| `MemoryTable.MemoryManager.Delete` | server/src/data/memory_manager.py:123-133 | true exactly when a row had the id; afterwards none has it and the others stay in order |
| `MemoryTable.MemoryManager.Clear` | server/src/data/memory_manager.py:139-153 | with a type, removes exactly the rows of that type; without, empties the table; returns how many rows went |
| `MemoryTable.Matching` | server/src/data/memory_manager.py:85-97 | exactly the retrievable rows of the table |
| `MemoryTable.SelectIsMatching` | server/src/data/memory_manager.py:85-100 | the assembled query sorts and limits exactly the retrievable rows |
| `MemoryTable.Select` | server/src/data/memory_manager.py:85-104 | the assembled query: filter by all conditions, `ORDER BY created_at DESC`, `LIMIT`; the reference definition `SelectIsMatching`, `SelectRetrieves` and `MemoryManager.Retrieve` are about |
| `MemoryTable.SelectRetrieves` | server/src/data/memory_manager.py:85-104 | the assembled query returns the newest retrievable rows, at most `limit` of them |
| `MemoryTable.NewestOf` | server/src/data/memory_manager.py:99-100 | sorting newest first and limiting returns rows of the input, newest first, as many as the limit allows, none newer left behind |
| `MemoryTable.StoredRowIsRetrievable` | server/src/data/memory_manager.py:87-97 | an unexpired row that is important enough is retrievable by its own type |
| `KeyedMemories.StoredMetadata` | server/src/data/database/operations.py:33-67 | metadata left out reads back as `{}`, an explicit `None` as `None`, a dictionary as itself |
| `KeyedMemories.StoreAllConcat` | server/src/data/database/operations.py:17-35 | two runs of stores one after the other are one run |
| `KeyedMemories.StoreAllOtherKeys` | server/src/data/database/operations.py:23-35 | stores of other keys leave a key's record, or its absence, as it was |
| `KeyedMemories.LastStoreWins` | server/src/data/database/operations.py:23-35 | after any run of stores, a key holds the record of its last store |
| `KeyedMemories.DatabaseOperations.constructor` | server/src/data/database/schema.py:22-32 | `CREATE TABLE IF NOT EXISTS`: the entries the file already holds, kept as they are; no entries for a new file |
| `KeyedMemories.DatabaseOperations.StoreMemory` | server/src/data/database/operations.py:17-35 | `INSERT OR REPLACE`: the key's record is replaced by the new one, no other key changes |
| `KeyedMemories.DatabaseOperations.GetMemory` | server/src/data/database/operations.py:45-68 | nothing exactly when the key is missing or expired, else the stored fields |
| `LoadingFlags.Reduce` | client/src/context/LoadingContext.tsx:20-29 | START sets the operation's flag true, STOP false, any other action leaves the state; no other key changes and the keys grow by at most the payload |
| `LoadingFlags.ReduceIdempotent` | client/src/context/LoadingContext.tsx:20-29 | dispatching the same action twice is dispatching it once |
| `LoadingFlags.ReduceAllConcat` | client/src/context/LoadingContext.tsx:20-29 | dispatching two runs of actions is dispatching their concatenation |
| `LoadingFlags.OtherKeysUntouched` | client/src/context/LoadingContext.tsx:20-29 | actions on other keys leave a key's flag, or its absence, as it was |
| `LoadingFlags.LastActionWins` | client/src/context/LoadingContext.tsx:20-29 | the last action naming a key decides its flag: START true, STOP false |
| `LoadingFlags.KeysOnlyGrow` | client/src/context/LoadingContext.tsx:20-29 | the keys afterwards are the keys before plus the payloads of the actions |
| `ModelState.Initial` | client/src/context/ModelContext.tsx:20-32 | STOPPED, not initialized, no error, the default settings |
| `ModelState.Reduce` | client/src/context/ModelContext.tsx:45-60 | each action sets its own field and leaves the other three alone; an unknown action changes nothing |
| `ModelState.ReduceTwo` | client/src/context/ModelContext.tsx:45-60 | dispatching two actions is reducing by one then the other |
| `ModelState.UpdateSettingsActions` | client/src/context/ModelContext.tsx:62-70 | the actions `updateSettings` dispatches for an answer or a failure; the reference definition `UpdateSettingsOutcome` and `ModelProvider.UpdateSettingsCall` are about |
| `ModelState.RefreshStatusActions` | client/src/context/ModelContext.tsx:72-83 | the actions `refreshStatus` dispatches for an answer, with or without settings, or a failure; the reference definition `RefreshStatusOutcome`, `RefreshStatusAsWritten` and `ModelProvider.RefreshStatus` are about |
| `ModelState.UpdateSettingsOutcome` | client/src/context/ModelContext.tsx:62-70 | success leaves no error and the answer's settings; failure leaves the failure message and the old settings; status and flag never change |
| `ModelState.RefreshStatusOutcome` | client/src/context/ModelContext.tsx:72-83 | success sets the status, and the settings only when the answer has them, with no error; failure records the message and keeps status and settings |
| `ModelState.ModelProvider.constructor` | client/src/context/ModelContext.tsx:44-60 | the provider starts in the initial state |
| `ModelState.ModelProvider.Dispatch` | client/src/context/ModelContext.tsx:45-60 | the state becomes the reducer's result |
| `ModelState.ModelProvider.UpdateSettingsCall` | client/src/context/ModelContext.tsx:62-70 | the same outcome as `UpdateSettingsOutcome`, reached by dispatching one action at a time |
| `ModelState.RefreshStatusAsWritten` | client/src/context/ModelContext.tsx:72-83 | with `getModelStatus` missing from `ApiService`, every refresh ends with the failure message and keeps status, settings and the initialized flag |
| `ModelState.AsWrittenNeverAdoptsStatus` | client/src/context/ModelContext.tsx:72-88 | as written, no server answer with a different status is adopted, and the check on mount leaves the provider STOPPED with the failure message |
| `ModelState.ModelProvider.RefreshStatus` | client/src/context/ModelContext.tsx:72-83 | with a working `getModelStatus`: the same outcome as `RefreshStatusOutcome`, reached by dispatching one action at a time |
| `ApiErrors.Get` | client/src/services/errorHandler.ts:20-27 | a property of a primitive reads as `undefined` |
| `ApiErrors.DefaultError` | client/src/services/errorHandler.ts:25-29 | exactly the three fields; the input's truthy message or the generic text |
| `ApiErrors.IsApiErrorAsWritten` | client/src/services/errorHandler.ts:10-12 | false for a falsy input; throws exactly for a truthy primitive |
| `ApiErrors.HandleErrorAsWritten` | client/src/services/errorHandler.ts:14-30 | `handleError` as written: `null` and `undefined` throw, an object never does; `AsWrittenThrowsExactly` and `CorrectedAgreesWhereAsWrittenReturns` complete it |
| `ApiErrors.AsWrittenThrowsExactly` | client/src/services/errorHandler.ts:14-30 | the classifier as written throws exactly for `null`, `undefined` and truthy primitives |
| `ApiErrors.AsWrittenThrowsOnNull` | client/src/services/errorHandler.ts:14-22 | `handleError(null)`, `handleError(undefined)` and `handleError("timeout")` throw |
| `ApiErrors.IsApiError` | client/src/services/errorHandler.ts:10-12 | agrees with `isApiError` as written wherever that returns, and is false wherever that throws; never true of `null` or `undefined` |
| `ApiErrors.HandleError` | client/src/services/errorHandler.ts:14-30 | an API error is returned as it is, else a truthy `response.data`, else the default error; the default for `null` and `undefined` |
| `ApiErrors.CorrectedAgreesWhereAsWrittenReturns` | client/src/services/errorHandler.ts:14-30 | wherever the as-written classifier returns, the corrected one returns the same |
| `ApiErrors.ApiErrorTakesPriority` | client/src/services/errorHandler.ts:15-22 | an object with `code` and `message` is returned unchanged even when it carries `response.data` |
| `ApiErrors.ResponseDataScenario` | client/src/services/errorHandler.ts:20-22 | an axios-style error without `code` yields its truthy `response.data` |
| `ChatApp.SaveMemoryIn` | client/src/App.tsx:122-127 | only memories with the id change; an empty draft title or content keeps the old one; ids, time stamps and positions stay |
| `ChatApp.DeleteMemoryIn` | client/src/App.tsx:133-135 | no memory with the id remains, every other memory does, nothing new appears, and nothing changes when the id is absent |
| `ChatApp.SaveEmptyDraftIsIdentity` | client/src/App.tsx:122-127 | saving with both drafts empty changes nothing |
| `ChatApp.SaveMemoryIdempotent` | client/src/App.tsx:122-127 | saving the same drafts twice is saving them once |
| `ChatApp.DeleteMemoryConcat` | client/src/App.tsx:133-135 | deletion works piece by piece, so the survivors keep their original order |
| `ChatApp.DeleteAfterSave` | client/src/App.tsx:122-135 | saving and then deleting the same id is deleting it |
| `ChatApp.SaveChatIn` | client/src/App.tsx:148-153 | only chats with the id change, and only their title, which an empty draft keeps |
| `ChatApp.NewChat` | client/src/App.tsx:138-143 | the chat `handleAddChat` appends: the given id and time stamp, title "New Chat", no messages; the reference definition `DeleteAddedChat` and `App.HandleAddChat` are about |
| `ChatApp.DeleteChatIn` | client/src/App.tsx:158-159 | no chat with the id remains and every other chat does |
| `ChatApp.SelectionAfterDelete` | client/src/App.tsx:160-162 | the selection is cleared exactly when it was the deleted id |
| `ChatApp.DeleteAddedChat` | client/src/App.tsx:137-159 | deleting the chat just added gives the chats from before, less that id |
| `ChatApp.EditMessages` | client/src/App.tsx:170-174 | only the message at the given position takes the new text; the count is unchanged |
| `ChatApp.EditMessagesIsUpdate` | client/src/App.tsx:170-174 | the edit is a single update of message `messageIndex`, and no change when no message sits there |
| `ChatApp.EditChatsIn` | client/src/App.tsx:165-178 | only chat `chatId` has its messages edited; message counts and all other chats are unchanged |
| `ChatApp.AppendExchange` | client/src/App.tsx:240-258 | the selected chat gains the user's message and then the assistant's reply; every other chat is unchanged |
| `ChatApp.SendIn` | client/src/App.tsx:224-263 | no selection, an empty selection or a failed request leave the chats unchanged; a success appends exactly two messages, user then assistant, to the selected chat |
| `ChatApp.App.constructor` | client/src/App.tsx:39-84 | the two sample memories and chats, nothing selected or being edited, empty drafts |
| `ChatApp.App.HandleSaveMemory` | client/src/App.tsx:122-131 | the drafts are saved into memory `id`, then the editing id is null and both drafts are empty |
| `ChatApp.App.HandleDeleteMemory` | client/src/App.tsx:133-135 | the memories become the filtered list |
| `ChatApp.App.HandleAddChat` | client/src/App.tsx:137-146 | exactly one chat titled "New Chat" with no messages is appended and marked as being edited |
| `ChatApp.App.HandleSaveChat` | client/src/App.tsx:148-156 | the title draft is saved into chat `id`, then the editing id is null and the title draft is empty |
| `ChatApp.App.HandleDeleteChat` | client/src/App.tsx:158-163 | the chat is filtered out and the selection cleared exactly when it was that chat |
| `ChatApp.App.HandleMessageEdit` | client/src/App.tsx:165-178 | the chats become the edited list |
| `ChatApp.App.HandleMessageSend` | client/src/App.tsx:224-263 | the chats become the result of `SendIn` for the current selection |
| `Schemas.Flag` | server/src/api/schemas.py:6-27 | a field's name is reported exactly when it failed |
| `Schemas.ParseMessageRequest` | server/src/api/schemas.py:6-9 | accepted exactly when content is non-empty and a given `max_tokens` lies in 1 to 2048 and a given temperature in 0 to 2; a given `max_tokens` or temperature is kept, a left-out one defaults to 512 or 0.7, `null` stays `None`; each failing field is named |
| `Schemas.MessageRequestRoundTrip` | server/src/api/schemas.py:6-9 | a request survives being sent and validated again exactly when it meets the constraints |
| `Schemas.MessageRequestRejects` | server/src/api/schemas.py:7-8 | an empty content, or a `max_tokens` outside 1 to 2048, is refused and named |
| `Schemas.ParseModelSettings` | server/src/api/schemas.py:16-21 | accepted exactly when temperature lies in 0 to 2, `top_p` in 0 to 1, `max_tokens` in 1 to 2048 and both penalties in -2 to 2; `null` is refused; given fields are kept, left-out fields take 0.7, 0.9, 512, 0 and 0; each of the five fields is named in the errors exactly when it fails |
| `Schemas.DefaultsValid` | server/src/api/schemas.py:16-21 | the defaults meet their own bounds, and an empty body validates to them |
| `Schemas.ModelSettingsRoundTrip` | server/src/api/schemas.py:16-21 | settings sent in full validate to themselves exactly when they meet the bounds |
| `Schemas.ParseMemory` | server/src/api/schemas.py:23-28 | accepted exactly when `type` is given and a given importance lies in 0 to 10; given fields are kept; left out, importance defaults to 0, metadata to `{}`, content and timestamp to `None`; `null` gives `None` for each optional field; `type` and importance are named in the errors exactly when they fail |
| `Schemas.MemoryDefaults` | server/src/api/schemas.py:23-28 | a body with only a type validates to the defaults |
| `Seqs.Filter` | server/src/data/memory_manager.py:123-149 | keeps exactly the elements that satisfy the predicate, no more of them than there were |
| `Seqs.FilterKeepsAll` | client/src/App.tsx:133-135 | filtering by a predicate every element meets changes nothing |
| `Seqs.FilterDropsAll` | server/src/data/memory_manager.py:149 | filtering by a predicate no element meets leaves nothing |
| `Seqs.FilterEquivalent` | server/src/data/memory_manager.py:85-97 | predicates that agree on every element filter alike |
| `Seqs.FilterSubMultiset` | server/src/data/memory_manager.py:123-149 | filtering never adds or repeats an element |
| `Seqs.FilterConcat` | client/src/App.tsx:133-135 | filtering distributes over concatenation, so order is kept |
| `Seqs.FilterIdempotent` | client/src/App.tsx:133-135 | filtering twice is filtering once |

## Left out

- I/O is not modelled. This covers SQLite itself, JSON encoding and decoding, `fetch`, `console` output, the Blob download in `downloadLogs`, and the `window.onerror` and `onunhandledrejection` hooks. The model keeps what these calls store and return.
- Clocks and the captured stack trace are parameters. Time stamps are integers, or opaque text on the client. The generation time of `generate_response` and the uptime, memory and CPU figures of `get_status` are left out.
- llama.cpp, `psutil`, `os.path.exists` and the response cache are parameters whose outcome the caller chooses. Cache reads are a map snapshot. The 300-second cache expiry and a failing cache write are left out.
- LlmEngine.Engine.GenerateResponse: the detail text of the not-ready error is not stated. Python raises an `AttributeError` there, and its wording depends on the interpreter.
- LlmEngine.Engine.Initialize: the load parameters (`n_ctx`, threads, GPU layers) are not modelled. The error detail is `str()` of the inner exception: "Model file not found" for a missing file, and for a load failure `str()` of the llama.cpp exception, taken as a parameter.
- TokenBatching.TokenProcessor.ProcessStream: the stream is a finite sequence. The `TOKEN_PROCESS_FAILED` re-wrapping of failures inside the source generator is left out, and so is a consumer that stops early.
- MemoryTable.MemoryManager.Retrieve: rows with equal `created_at` come back in some newest-first order, as SQLite allows, so the model fixes one order. The stored `content` is the JSON text. The `sqlite3.Error` paths that re-raise as `MemoryError` are left out.
- KeyedMemories.DatabaseOperations.StoreMemory: a dictionary without `key`, `value` or `type` raises `KeyError` in Python. This model requires those fields. The `DB_WRITE_FAILED` and `DB_READ_FAILED` paths are left out, and so is `save_token_stats`, which is outside this core.
- Schemas: type coercion is not modelled (for example a string `"5"` accepted as an `int`). Values of `metadata` and `content` are text, not arbitrary JSON. `content: Any` on `Memory` is read as optional with default `None`, as the `class Config`-style model does.
- ChatApp: the JSX rendering is left out, and so are the handlers that only log (retry, rate, speak, training) and React's batching of state updates. The id of a new chat, `Date.now()`, is a parameter.
- ChatApp: four handlers change component state after an awaited server call and lie outside the modelled handlers. `handleMemoryAdd` (App.tsx:95-120) and `handleAddMemory` (App.tsx:277-305), the one the Memory Bank's add button is bound to, append a memory carrying the server's id and clear both drafts. `handleSystemToggle` (App.tsx:207-222) flips `systemRunning` after starting or stopping the model. `handleModelSettingsChange` (App.tsx:265-275) sets `modelSettings` after the update call.
- Concurrency is not modelled: interleaved `await`s, stale closures over `chats`, and the logger singleton's sharing across modules.

- ClientLogger: the `data?: any` payload of an entry is a map from text to text, and the console colour of each level is left out.
- MemoryTable.MemoryManager.constructor: an existing file is taken to be one this code wrote, so its rows are in id order and its AUTOINCREMENT counter is at least every id, as SQLite keeps it. A file edited by hand is not modelled.

## Findings

| source | as written | input that shows it | evidently intended | confidence | as-written member | corrected member |
|---|---|---|---|---|---|---|
| client/src/services/errorHandler.ts:11-20 | `isApiError` of a falsy value is falsy, and `handleError` then reads `error.response`, which throws a `TypeError` for `null` and `undefined`. For a truthy string or number, `'code' in error` throws first. | `handleError(null)`, `handleError(undefined)`, `handleError("timeout")` | every input yields an `ApiError`: the default error when nothing better is known | not executed | `ApiErrors.HandleErrorAsWritten` (exhibited by `ApiErrors.AsWrittenThrowsOnNull`, `ApiErrors.AsWrittenThrowsExactly`) | `ApiErrors.HandleError` (agreement elsewhere: `ApiErrors.CorrectedAgreesWhereAsWrittenReturns`) |
| client/src/context/ModelContext.tsx:75 | `refreshStatus` calls `ApiService.getModelStatus()`, but `ApiService` in `client/src/services/api.ts` has no such member. The call throws a `TypeError` inside the `try`, so every refresh, the one on mount included, ends in "Failed to fetch model status". | any `refreshStatus()` call, starting with the mount effect of `ModelProvider` | fetch `GET /model/status` and adopt its status and settings | not executed | `ModelState.RefreshStatusAsWritten` (exhibited by `ModelState.AsWrittenNeverAdoptsStatus`) | `ModelState.ModelProvider.RefreshStatus` (outcome: `ModelState.RefreshStatusOutcome`) |
