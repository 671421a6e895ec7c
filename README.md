# logbook-back: the logs resource, modelled in Dafny

This project models the write path of the logs resource of the logbook-back
service, together with the small state machines around it:

- the three routes of the logs router (`GET /getList`, `POST /insertTask`,
  `DELETE /:id`), each an ordered list of middleware followed by a controller
  action, where the first middleware that answers ends the request;
- the fixed-window rate limiter, with its process-wide table of
  `{ count, windowStart }` entries and its housekeeping sweep;
- the write-token guard: it resolves the credential (`x-write-token` first,
  then `Authorization: Bearer …`) and reports failures in a fixed order;
- the request validators for the list query, the create body and the delete id;
- `buildLogEntity`, and the get, create and soft-delete use cases with their
  construction-time repository checks;
- session verification;
- the logs collection behind `MongoLogRepository`, held in memory as a
  sequence of documents:
  - `findPaginated` filters, sorts newest first, skips and limits;
  - `create` appends under a fresh identifier;
  - `softDeleteById` marks the first live match deleted;
- the retention job, a single-flight purge of old soft-deleted documents;
- `AppError`, the response envelopes, the controller's mapping of results and
  errors to responses, and the application's final error handler.

Pure code is written as functions with contracts, and lemmas relate them.
Code that updates state is a class whose methods are proved against those
functions:

- the rate-limit table (`RateLimiting.RateLimitTable`);
- the collection (`LogStorage.LogStore`);
- the cleanup job's flag (`Cleanup.CleanupJob`);
- the application that wires one table and one collection under the router
  (`LogsRoutes.LogsApp`).

`LogsRoutes.Serve` is the whole router as a function of the request and the
state. `LogsRoutes.LogsApp.Handle` is proved to compute exactly what `Serve`
says.

The environment is passed in as parameters:

- `Date.now()` / `new Date()` is `now`;
- the process environment is `Env` or `Option<string>` settings;
- the search match is a function parameter `matches(term, text)`;
- a user lookup is a function parameter `findById`;
- a reachable database is a boolean `reachable`.

In `app/logs.js` the write-token guard runs first on both write routes:

- a request without a valid token never reaches the rate-limit table;
- a delete without a credential gets TOKEN_MISSING even when its id is
  malformed.

`LogsRoutes.RoutePipeline`, `LogsRoutes.TokenRefusalChangesNothing` and
`LogsRoutes.DeleteWithoutCredentialIsTokenMissing` state this order.

## Model

| member | source | states |
|---|---|---|
| Errors.NewAppError | src/shared/errors/AppError.js:4-9 | the name is "AppError" and the message is kept; a status or code left undefined becomes 500 or INTERNAL_ERROR, and a given one is stored unchanged |
| Responses.OkReply | src/shared/http/response.js:3-9 | status 200, a success body carrying the data; meta is included exactly when it is a non-null object (or array), and then unchanged |
| Responses.CreatedReply | src/shared/http/response.js:11-17 | status 201 with the same body `ok` would build for the same data and meta |
| Responses.FailReply | src/shared/http/response.js:19-30 | the error envelope with the given status, code and message; absent options become 500, INTERNAL_ERROR and "Erro interno do servidor." |
| Responses.ErrorReply | api.js:70-83 | the final error handler answers with the error's status and code and its message; a zero status or empty message falls back to the defaults |
| JsValues.TrimEmptyIffBlank | src/modules/logs/interfaces/http/validateLogsRequest.js:35-51 | `!s.trim()` holds exactly when every character of `s` is whitespace |
| JsValues.TrimSpec | src/modules/logs/domain/buildLogEntity.js:22-23 | trimmed text that is not empty starts and ends with a non-whitespace character |
| JsValues.TrimIsInfix | src/modules/logs/domain/buildLogEntity.js:22-23 | trimmed text is a contiguous piece of the original |
| JsValues.TrimIdempotent | src/modules/logs/domain/buildLogEntity.js:22-23 | trimming an already trimmed title or content changes nothing |
| JsValues.NonBlankWitness | src/modules/logs/interfaces/http/validateLogsRequest.js:35-51 | one non-whitespace character makes the trimmed text non-empty |
| JsValues.ParseIntOfIntString | src/modules/logs/application/useCases/getLogsUseCase.js:15 | `parseInt(String(n), 10) === n` for every integer `n` |
| JsValues.ToNumberOfIntString | jobs/cleanupLogs.js:2-3 | `Number(String(n)) === n` for every integer `n` |
| JsValues.DecimalStringValue | src/modules/logs/application/useCases/getLogsUseCase.js:15 | the decimal numeral of `n` reads back as `n` |
| JsValues.CeilDiv | src/modules/logs/infra/MongoLogRepository.js:39 | `Math.ceil(a / b)` for `b > 0`: the least `q` with `a <= q * b` |
| ObjectIds.ParseObjectId | src/modules/logs/infra/MongoLogRepository.js:49-58 | text is accepted as an identifier exactly when it is 24 hexadecimal digits in either case |
| ObjectIds.ParseObjectIdString | src/modules/logs/infra/MongoLogRepository.js:43-46 | an identifier written as its 24-digit form parses back to itself |
| ObjectIds.FixedHexValue | src/modules/logs/infra/MongoLogRepository.js:52 | a number below 16^width reads back from its fixed-width hexadecimal numeral |
| Contracts.MissingMethods | src/shared/contracts/assertRepositoryContract.js:17 | a name is reported missing exactly when it is asked for and the dependency has no such function |
| Contracts.MissingMethodsAppend | src/shared/contracts/assertRepositoryContract.js:17 | the filter distributes over concatenation, so missing names keep the order they were asked for in |
| Contracts.AssertRepositoryContract | src/shared/contracts/assertRepositoryContract.js:4-28 | a non-object fails first; an object passes exactly when it offers every method, else fails naming the missing ones; every failure is 500 DEPENDENCY_CONTRACT_ERROR |
| Contracts.MissingMethodsMessagePrefix | src/shared/contracts/assertRepositoryContract.js:20-21 | every missing-methods message starts with "Contrato inválido" |
| RateLimiting.MakeOptions | middlewares/rateLimiter.js:3 | a window of 60000 ms and a maximum of 5 unless given |
| RateLimiting.FirstField | middlewares/rateLimiter.js:11 | `split(",")[0]`: the longest comma-free prefix, ending at the first comma or at the end |
| RateLimiting.ClientIdentity | middlewares/rateLimiter.js:10-12 | the first X-Forwarded-For entry, trimmed, when non-empty; the socket address otherwise |
| RateLimiting.Step | middlewares/rateLimiter.js:15-44 | unseen identity: admit with `{1, now}`; expired window: admit and restart; full window: deny with Retry-After `ceil((windowStart + windowMs - now) / 1000) >= 1`, table unchanged; otherwise admit and count one more; other identities untouched; counts stay in 1..max |
| RateLimiting.Swept | middlewares/rateLimiter.js:51-55 | exactly the entries whose window started at most two hours ago remain, unchanged |
| RateLimiting.AdmissionsWithinWindow | middlewares/rateLimiter.js:25-44 | within one window an entry at count `c` admits exactly the next `max - c` requests, and its window does not move |
| RateLimiting.AtMostMaxPerWindow | middlewares/rateLimiter.js:15-44 | from a fresh or expired entry, of `k` requests within one window exactly `min(k, max)` are admitted |
| RateLimiting.SweepUnobservable | middlewares/rateLimiter.js:48-56 | with a window no longer than two hours, a sweep never changes the limiter's decision or the entry it leaves |
| RateLimiting.RateLimitTable.constructor | middlewares/rateLimiter.js:1 | the process starts with an empty table |
| RateLimiting.RateLimitTable.Handle | middlewares/rateLimiter.js:4-45 | in development nothing is counted and every request is admitted; otherwise the decision and the new table are those `Step` gives |
| RateLimiting.RateLimitTable.Sweep | middlewares/rateLimiter.js:48-56 | the key-by-key deletion loop leaves exactly `Swept` of the old table |
| WriteToken.ResolveCredential | src/modules/logs/interfaces/http/requireWriteToken.js:10-17 | a non-empty `x-write-token` wins; else a header starting with the case-sensitive "Bearer " gives its trimmed rest; else the write-token header as sent |
| WriteToken.TimingSafeEqual | src/modules/logs/interfaces/http/requireWriteToken.js:40-43 | for equally long buffers, the comparison holds exactly when they are equal |
| WriteToken.RequireWriteToken | src/modules/logs/interfaces/http/requireWriteToken.js:5-53 | passes exactly when a secret is configured and the credential equals it; otherwise 500 WRITE_TOKEN_MISSING, then 401 TOKEN_MISSING, then 401 TOKEN_INVALID, in that order |
| WriteToken.HeaderTokenTakesPrecedence | src/modules/logs/interfaces/http/requireWriteToken.js:10-12 | with a non-empty write-token header the Authorization header makes no difference |
| WriteToken.EmptyHeaderIsInvalidNotMissing | src/modules/logs/interfaces/http/requireWriteToken.js:10-50 | an empty write-token header without a bearer header is TOKEN_INVALID, not TOKEN_MISSING |
| WriteToken.LowerCaseBearerIsIgnored | src/modules/logs/interfaces/http/requireWriteToken.js:12-17 | "bearer x" is not read, so the credential is missing |
| LogsValidation.ValidateGetList | src/modules/logs/interfaces/http/validateLogsRequest.js:4-29 | passes exactly when the page is absent or parses to at least 1 and the search is absent or a string; failures are 400 INVALID_QUERY; a bad page is reported with the page message before the search is looked at, and a bad search with the search message |
| LogsValidation.NumericPageAccepted | src/modules/logs/interfaces/http/validateLogsRequest.js:7-9 | any page number of at least 1 is accepted |
| LogsValidation.ZeroPageRejected | src/modules/logs/interfaces/http/validateLogsRequest.js:7-17 | `page=0` is refused with the page message and INVALID_QUERY |
| LogsValidation.ZeroPageNotAccepted | src/modules/logs/interfaces/http/validateLogsRequest.js:8-9 | "0" parses, to 0, which is not a valid page |
| LogsValidation.ValidateCreateLog | src/modules/logs/interfaces/http/validateLogsRequest.js:31-72 | passes exactly when title and content are non-blank strings and tags are absent or an array of strings; failures are 400 VALIDATION_ERROR; only the first failure is reported, in the order title, content, tags not an array, a tag not a string, each with its own message |
| LogsValidation.NonArrayTagsRejected | src/modules/logs/interfaces/http/validateLogsRequest.js:53-60 | tags present but not an array get the "Tags deve ser um array." error |
| LogsValidation.ValidateDeleteLog | src/modules/logs/interfaces/http/validateLogsRequest.js:74-87 | passes exactly when the id is a string of 24 hexadecimal digits; otherwise 400 INVALID_ID |
| LogEntities.TagStrings | src/modules/logs/domain/buildLogEntity.js:24 | same length and order, each tag converted by `String` |
| LogEntities.BuildLogEntity | src/modules/logs/domain/buildLogEntity.js:4-30 | fails with 400 VALIDATION_ERROR exactly when title or content is not a non-blank string; otherwise trimmed non-empty title and content, tags stringified (or none), both timestamps `now`, not deleted |
| LogEntities.MixedTagsBecomeStrings | src/modules/logs/domain/buildLogEntity.js:24 | tags `["a", 2]` are stored as `["a", "2"]` |
| LogStorage.Matching | src/modules/logs/infra/MongoLogRepository.js:14-26 | a document is selected exactly when it is live and the term is empty or matches its title, content or a tag |
| LogStorage.SortNewestFirst | src/modules/logs/infra/MongoLogRepository.js:31 | a permutation of the input ordered by `createdAt`, newest first |
| LogStorage.Window | src/modules/logs/infra/MongoLogRepository.js:32-33 | the `k`-th document is the `skip + k`-th of the input; a window starting inside the input holds `min(limit, remaining)` documents, one starting past the end is empty |
| LogStorage.FindPaginated | src/modules/logs/infra/MongoLogRepository.js:12-41 | the page number given, the window of the sorted selection at `(page - 1) * limit`, and `ceil(matching / limit)` pages |
| LogStorage.InListing | src/modules/logs/infra/MongoLogRepository.js:14-31 | the sorted listing holds exactly the live documents the search selects |
| LogStorage.PageIsNewestFirst | src/modules/logs/infra/MongoLogRepository.js:29-34 | a page holds at most `limit` documents, newest first |
| LogStorage.PageHoldsOnlySelected | src/modules/logs/infra/MongoLogRepository.js:14-34 | every document on a page is a live document of the collection that the search selects |
| LogStorage.PageBeyondLastIsEmpty | src/modules/logs/infra/MongoLogRepository.js:36-40 | a page past the page count has no documents |
| LogStorage.RankDeterminesPage | src/modules/logs/infra/MongoLogRepository.js:13-34 | the document of rank `k` is entry `k % limit` of page `k / limit + 1` |
| LogStorage.EveryMatchIsOnAPage | src/modules/logs/infra/MongoLogRepository.js:12-41 | every selected document appears on some page |
| LogStorage.MarkDeleted | src/modules/logs/infra/MongoLogRepository.js:62-68 | deleted flag set, deletion and update time `now`, every other field kept |
| LogStorage.SoftDeleted | src/modules/logs/infra/MongoLogRepository.js:60-71 | the answer is whether a live document with the id exists; when one does, the first such document is replaced by its marked copy and nothing else changes; when none does, nothing changes |
| LogStorage.SoftDeleteAppended | src/modules/logs/infra/MongoLogRepository.js:60-71 | a live document appended under an identifier above every other is the one a soft delete of that identifier marks, and the answer is true |
| LogStorage.SoftDeleteTwiceFindsNothing | src/modules/logs/infra/MongoLogRepository.js:60-71 | with unique ids, a second soft delete of the same id answers false and changes nothing |
| LogStorage.SoftDeletedIsNotListed | src/modules/logs/infra/MongoLogRepository.js:14-26 | after a soft delete, no listing shows a document with that id |
| LogStorage.Purged | jobs/cleanupLogs.js:14-17 | a document remains exactly when it is not soft-deleted at or before the cutoff |
| LogStorage.PurgeKeepsListing | jobs/cleanupLogs.js:14-17 | a purge removes only deleted documents, so no listing changes |
| LogStorage.PurgedDistinct | jobs/cleanupLogs.js:14-17 | a purge keeps identifiers unique |
| LogStorage.SoftDeletedIsPurged | jobs/cleanupLogs.js:12-17 | a document soft-deleted at `t` is gone after a purge with a cutoff of at least `t` |
| LogStorage.Unexpired | jobs/cleanupLogs.js:14-17 | the back-to-front collection loop keeps exactly `Purged` |
| LogStorage.LogStore.constructor | src/modules/logs/infra/MongoLogRepository.js:7-10 | an empty collection whose first identifier is the one given |
| LogStorage.LogStore.Create | src/modules/logs/infra/MongoLogRepository.js:43-46 | the entity is appended unchanged under the next identifier and returned with it; identifiers stay unique |
| LogStorage.LogStore.SoftDeleteById | src/modules/logs/infra/MongoLogRepository.js:48-72 | a malformed id is 400 INVALID_ID with nothing changed; otherwise the collection and answer are those of `SoftDeleted` |
| LogStorage.LogStore.PurgeDeleted | jobs/cleanupLogs.js:14-17 | the collection becomes `Purged` of the old one, and the count is how many went |
| LogUseCases.GetLogsRepositoryCheck | src/modules/logs/application/useCases/getLogsUseCase.js:4-12 | construction succeeds exactly when the repository offers `findPaginated` |
| LogUseCases.CreateLogRepositoryCheck | src/modules/logs/application/useCases/createLogUseCase.js:5-13 | construction succeeds exactly when the repository offers `create` |
| LogUseCases.SoftDeleteLogRepositoryCheck | src/modules/logs/application/useCases/softDeleteLogUseCase.js:6-14 | construction succeeds exactly when the repository offers `softDeleteById` |
| LogUseCases.MissingCreateIsNamed | src/modules/logs/application/useCases/createLogUseCase.js:6-10 | a repository lacking `create` is refused with the contract message naming it |
| LogUseCases.GetLogsQuery | src/modules/logs/application/useCases/getLogsUseCase.js:14-22 | the page parsed when it is at least 1, else 1; a limit of 5; the search string when truthy, else "" |
| LogUseCases.PositivePageIsKept | src/modules/logs/application/useCases/getLogsUseCase.js:15-16 | a positive page, given as a number or a numeral, is kept |
| LogUseCases.UnreadablePageIsFirst | src/modules/logs/application/useCases/getLogsUseCase.js:15-16 | "abc" and an absent page become page 1 |
| LogUseCases.GetLogs | src/modules/logs/application/useCases/getLogsUseCase.js:18-22 | the repository's answer for the normalised query, unchanged |
| LogUseCases.GetLogsAnswer | src/modules/logs/application/useCases/getLogsUseCase.js:14-23 | a listing is at most five live documents of the collection, newest first, on a page of at least 1 |
| LogUseCases.CreateLog | src/modules/logs/application/useCases/createLogUseCase.js:15-18 | a failed build is passed on as is; a built entity is stored under the next identifier |
| LogUseCases.CreatedLogIsFresh | src/modules/logs/application/useCases/createLogUseCase.js:15-18 | a created document is live, with trimmed non-empty text, created and updated at `now` |
| LogUseCases.ExecuteCreate | src/modules/logs/application/useCases/createLogUseCase.js:15-18 | answers `CreateLog`; the collection grows by that document on success and is untouched on failure |
| LogUseCases.DeleteAnswer | src/modules/logs/application/useCases/softDeleteLogUseCase.js:24-33 | true gives `{ success: true }`, false gives 404 LOG_NOT_FOUND, an error is passed on |
| LogUseCases.SoftDeleteLog | src/modules/logs/application/useCases/softDeleteLogUseCase.js:16-34 | a blank or non-string id, or one that is not an identifier, is 400 INVALID_ID with nothing changed; otherwise the repository's soft delete and its answer |
| LogUseCases.SecondDeleteIsNotFound | src/modules/logs/application/useCases/softDeleteLogUseCase.js:24-31 | deleting the same log again answers LOG_NOT_FOUND and changes nothing |
| LogUseCases.FailedDeleteChangesNothing | src/modules/logs/application/useCases/softDeleteLogUseCase.js:16-31 | a failed delete leaves the collection as it was |
| LogUseCases.ExecuteSoftDelete | src/modules/logs/application/useCases/softDeleteLogUseCase.js:16-34 | the answer and new collection are those `SoftDeleteLog` gives |
| LogUseCases.ObjectIdStringAccepted | src/modules/logs/application/useCases/softDeleteLogUseCase.js:17-22 | the 24-digit text of an identifier passes the use case's id check and reads back as that identifier |
| LogUseCases.CreatedLogIsDeletableById | src/modules/logs/infra/MongoLogRepository.js:43-71 | a created document deleted by its 24-digit identifier: the delete answers success and marks exactly that document, leaving the earlier ones as they were |
| Sessions.SessionRepositoryCheck | src/modules/auth/application/useCases/verifySessionUseCase.js:6-11 | construction succeeds exactly when the repository offers `findById`; else 500 DEPENDENCY_CONTRACT_ERROR |
| Sessions.VerifySession | src/modules/auth/application/useCases/verifySessionUseCase.js:16-47 | no user id or no user: 401 INVALID_SESSION; status not exactly "active": 403 USER_INACTIVE; otherwise the user with the payload's id and role |
| Sessions.NoLookupWithoutUserId | src/modules/auth/application/useCases/verifySessionUseCase.js:17-24 | without a user id the repository is never consulted |
| Sessions.OnlyTheNamedUserMatters | src/modules/auth/application/useCases/verifySessionUseCase.js:26 | the answer depends on the repository only through the user named in the token |
| Sessions.StatusIsCaseSensitive | src/modules/auth/application/useCases/verifySessionUseCase.js:35-40 | a status of "Active" is refused as inactive |
| LogsController.GetList | src/modules/logs/interfaces/http/logsController.js:5-19 | status 200 with the use case's page as data and `{ currentPage, totalPages }` as meta |
| LogsController.ListingMetaIsAPageNumber | src/modules/logs/interfaces/http/logsController.js:12-15 | the listing's meta carries a current page of at least 1 |
| LogsController.Create | src/modules/logs/interfaces/http/logsController.js:21-28 | success is 201 with the stored document and no meta; an error is passed to `next` unchanged |
| LogsController.Remove | src/modules/logs/interfaces/http/logsController.js:30-40 | success is 200 with the acknowledgement and no meta; an error is passed to `next` unchanged |
| LogsController.Render | src/modules/logs/interfaces/http/logsController.js:16-18 | a handler's response reaches the client as written; an error passed on is rendered by the error handler |
| LogsController.ErrorsKeepStatusAndCode | src/modules/logs/interfaces/http/logsController.js:26-39 | a use-case error reaches the client with its own status and code |
| Cleanup.ConfiguredOr | jobs/cleanupLogs.js:2-3 | `Number(v) \|\| fallback`: the fallback when the setting is unset, zero or not a number, else its value |
| Cleanup.ConfiguredNumeralIsUsed | jobs/cleanupLogs.js:2-3 | a non-zero integer setting is used as written |
| Cleanup.ZeroOrEmptySettingFallsBack | jobs/cleanupLogs.js:2-3 | "0" and "" fall back to the default |
| Cleanup.Cutoff | jobs/cleanupLogs.js:12 | the cutoff lies exactly the retention period of days before `now` |
| Cleanup.PurgedOnceRetentionElapsed | jobs/cleanupLogs.js:12-17 | a document deleted at `t` is purged exactly when the full retention period has passed since `t` |
| Cleanup.CleanupJob.constructor | jobs/cleanupLogs.js:2-4 | not running; interval and retention are the settings or the defaults of one hour and 30 days |
| Cleanup.CleanupJob.Cleanup | jobs/cleanupLogs.js:6-27 | a run that finds one in progress changes nothing; otherwise the expired documents are purged (or, unreachable, nothing changes) and the flag is lowered whatever happened |
| LogsRoutes.MatchRoute | app/logs.js:25-39 | exactly GET or HEAD /getList (the list route), POST /insertTask and DELETE of one non-empty path segment are routed |
| LogsRoutes.RoutePipeline | app/logs.js:25-39 | each route's middleware in the order registered: list runs only the query validator; insert runs the token check, the limiter (60000 ms, 5) and the body validator; delete runs the token check and the id validator; only insert is rate limited; each route ends in its own action |
| LogsRoutes.LimitStep | app/logs.js:32 | the limiter as middleware: bypassed in development; otherwise the table `Step` gives, with a 429 and Retry-After on denial; the collection is never touched |
| LogsRoutes.RunGuard | app/logs.js:25-39 | only the limiter changes anything, and only the rate-limit table |
| LogsRoutes.RunGuards | app/logs.js:25-39 | middleware never touches the collection |
| LogsRoutes.ListStep | src/modules/logs/interfaces/http/logsController.js:5-19 | the list action answers 200 and changes nothing |
| LogsRoutes.CreateStep | src/modules/logs/interfaces/http/logsController.js:21-28 | the create action never touches the rate-limit table |
| LogsRoutes.RemoveStep | src/modules/logs/interfaces/http/logsController.js:30-40 | the delete action touches neither the table nor the next identifier |
| LogsRoutes.RunHandler | app/logs.js:25-39 | no action touches the rate-limit table; listing changes nothing |
| LogsRoutes.Serve | app/logs.js:15-42 | a request gets an answer exactly when a route matches; an unmatched one changes nothing |
| LogsRoutes.GuardsCompose | app/logs.js:29-35 | running two lists of middleware in turn is running their concatenation: the second runs only if the first lets the request through |
| LogsRoutes.GuardLetsThrough | app/logs.js:29-35 | a middleware that calls `next()` hands the request and the new state to the rest |
| LogsRoutes.ListingChangesNothing | app/logs.js:25-27 | a listing changes neither the rate-limit table nor the collection |
| LogsRoutes.ListQueryIsChecked | app/logs.js:25-27 | a listing request whose query the validator refuses is answered with the validator's error; any other gets the list action's reply; neither changes anything |
| LogsRoutes.ZeroPageListingIsRefused | app/logs.js:25-27 | `GET /getList?page=0` is answered 400 INVALID_QUERY with the page message and changes nothing |
| LogsRoutes.TokenRefusalChangesNothing | app/logs.js:29-39 | on insert and delete a refused token is answered with its error and changes nothing |
| LogsRoutes.DeleteWithoutCredentialIsTokenMissing | app/logs.js:37-39 | a delete with no credential is 401 TOKEN_MISSING whatever its id, and changes nothing |
| LogsRoutes.DeletePassesToken | app/logs.js:37-39 | past the token check, a delete meets only the id validator |
| LogsRoutes.MalformedIdFailsValidation | src/modules/logs/interfaces/http/validateLogsRequest.js:74-87 | a path segment that is not 24 hexadecimal digits fails the id check |
| LogsRoutes.MalformedIdIsRefused | app/logs.js:37-39 | a delete with a good token and a malformed id is 400 INVALID_ID and changes nothing |
| LogsRoutes.LimitsKeptWithoutRateLimit | app/logs.js:25-39 | middleware without a limiter leaves the rate-limit table as it was |
| LogsRoutes.OnlyInsertsAreCounted | app/logs.js:25-39 | every request other than an insert leaves the rate-limit table as it was |
| LogsRoutes.InsertPassesToken | app/logs.js:29-35 | past the token check, an insert meets the limiter and then the body check |
| LogsRoutes.LimiterLetsThrough | app/logs.js:32 | a limiter that admits hands the request on with the updated table |
| LogsRoutes.BodyCheckLetsThrough | app/logs.js:33 | a body the validator accepts goes on unchanged |
| LogsRoutes.InsertReachesHandler | app/logs.js:29-35 | an admitted insert with a valid body reaches the create action with the limiter's new table |
| LogsRoutes.RateLimitedInsertWritesNothing | app/logs.js:29-35 | an insert the limiter refuses is answered 429 with its Retry-After and leaves the collection alone |
| LogsRoutes.ValidatedBodyBuilds | src/modules/logs/interfaces/http/validateLogsRequest.js:31-72 | a body the validator accepts always builds an entity |
| LogsRoutes.ValidBodyIsCreated | src/modules/logs/interfaces/http/logsController.js:21-28 | a valid body is answered 201 with the document appended under the next identifier |
| LogsRoutes.ServeInsert | app/logs.js:29-35 | an insert is its middleware followed, if they let it through, by the create action |
| LogsRoutes.AcceptedInsertIsStored | app/logs.js:29-35 | an insert the token and limiter admit with a valid body is answered 201 and appends exactly that document under the next identifier |
| LogsRoutes.LogsApp.constructor | app/logs.js:18-23 | one empty collection and one empty rate-limit table serve every route |
| LogsRoutes.LogsApp.PerformGuard | app/logs.js:25-39 | one middleware on the objects does what `RunGuard` says: it answers (and the request stops) exactly when `RunGuard` does, with the same reply and state |
| LogsRoutes.LogsApp.PerformList | src/modules/logs/interfaces/http/logsController.js:5-19 | the list action on the objects does what `ListStep` says |
| LogsRoutes.LogsApp.PerformCreate | src/modules/logs/interfaces/http/logsController.js:21-28 | the create action on the store does what `CreateStep` says |
| LogsRoutes.LogsApp.PerformRemove | src/modules/logs/interfaces/http/logsController.js:30-40 | the delete action on the store does what `RemoveStep` says |
| LogsRoutes.LogsApp.PerformHandler | app/logs.js:25-39 | the route's action on the objects does what `RunHandler` says |
| LogsRoutes.LogsApp.Handle | app/logs.js:15-42 | one request on the objects: the answer and the new state are exactly those `Serve` gives |

## Left out

- Timers: the 15-minute sweep, the cleanup interval, the startup run and `unref` are explicit calls to `RateLimitTable.Sweep` and `CleanupJob.Cleanup`.
- Clocks: `Date.now()` and `new Date()` are the parameter `now`.
- Asynchrony: requests are served one at a time. The interleaving that `isRunning` guards against, and the atomicity of `updateOne`, are not modelled. The `Skipped` branch of `CleanupJob.Cleanup` is reachable only through a state in which the flag is already raised.
- Search: the regular-expression semantics of the search term are not modelled. The term and the text are compared through the parameter `matches`.
- Routing: Express's case-insensitive and non-strict path matching, URL decoding, and the 404 that api.js gives an unmatched request are not modelled. `Serve` answers `None` for a request no route matches.
- LogsRoutes.Serve: a `HEAD /getList` gets the same status and reply as the GET; the service sends only the status and headers of that reply, without its body.
- Numbers are integers only. `parseInt` and `Number` read an optional sign and decimal digits; fractions, exponents, hexadecimal literals, `Infinity` and numbers beyond the safe range are not modelled.
- Cleanup.ConfiguredOr: a setting such as `CLEANUP_RETENTION_DAYS="7.5"`, `"1e3"` or `"0x10"` reads as not-a-number in the model, so the fallback is used where `Number(v) || fallback` would use the value.
- `String(v)` covers the values modelled: no functions, symbols or custom `toString`.
- Query values that are arrays or objects are not modelled.
- `LogStorage.SortNewestFirst` keeps ties in collection order. MongoDB gives no order for equal `createdAt` values.
- Identifiers: ObjectIds are serial numbers written as 24 hexadecimal digits. The 12-byte string form accepted by `new ObjectId` is not modelled, and neither is the timestamp inside a generated id.
- LogsController.GetList: an invalid search pattern is not modelled. `new RegExp(searchTerm, "i")` throws on a term such as `(`, and the service then answers 500 INTERNAL_ERROR through the error handler. The model matches every term through `matches`, so it answers 200 for such a term.
- Database failures: a failure inside `findPaginated`, `create` or `updateOne` is not modelled. The cleanup job's unreachable database is the parameter `reachable`.
- Logging: the `console` lines are not modelled: those of the cleanup job, and the `[ERRO GLOBAL]` line the error handler in api.js writes for every error before it answers.
- WriteToken.TimingSafeEqual: only the result of `crypto.timingSafeEqual` is modelled, not its constant-time behaviour. Comparing UTF-8 buffers is taken to be comparing the strings.
- Out of scope: the JWT middleware, the user repository, api.js apart from its error handler, and db/db.js. The user lookup is the parameter `findById` of `Sessions.VerifySession`.
- errorCodes.js is not part of this model. The codes are an enumeration named by the strings the service sends.
