# auto-message-sender, modelled in Dafny

auto-message-sender is a Go service that stores short outbound text
messages and dispatches them on a timer. While the scheduler is running,
every tick fetches a bounded batch of pending messages, oldest first, and
launches one job per message. Each job posts the message to a webhook,
retrying with linear backoff. It records the outcome on the message
(`sent` with the webhook's message id, or `failed` with the error text) and,
after a recorded success, caches the delivery in a key-value store for 24
hours. Around this pipeline sit several rule sets, all modelled here:

- E.164 phone and 160-byte content validation;
- a sliding-window rate limiter per client address;
- an append-only scheduler log whose newest entry says whether the scheduler is active;
- the listing endpoint, with its page normalisation;
- a document-store filter builder with a whitelist of field/operation pairs;
- pagination arithmetic.

The model is one Dafny module per concern:

| module | file | models |
|---|---|---|
| `Wrappers` | wrappers.dfy | `Option` and `Result` |
| `Text` | text.dfy | decimal parsing (`strconv.Atoi`), `strings.Join`, UTF-8 byte length |
| `Models` | models.dfy | message and scheduler records and their constructors |
| `Validation` | validation.dfy | the phone, content and webhook-request validators |
| `DocumentQuery` | document_query.dfy | the document store's find semantics: filter, stable sort, skip, limit, insert with a unique `_id` |
| `MessageOperations` | message_operations.dfy | the message collection: pending batch, status update, sent page, insert |
| `SchedulerOperations` | scheduler_operations.dfy | the scheduler log and the active query |
| `CacheOperations` | cache_operations.dfy | cache keys and the TTL cache |
| `DataOps` | data_operations.dfy | the `DataOperations` object holding messages, logs and cache |
| `Webhook` | webhook.dfy | one send and the retry loop |
| `Scheduler` | scheduler.dfy | the scheduler handler's state machine, ticks and jobs |
| `RateLimiting` | rate_limiting.dfy | the `RateLimiter` object |
| `Options` | find_options.dfy | the find-options object that paging and sorting set |
| `Pagination` | pagination.dfy | page normalisation, page count, paging and sorting options |
| `Filtering` | filter_builder.dfy | filter whitelisting, filter-to-query mapping, find options, date ranges |
| `MessageHandling` | message_handler.dfy | the create and list endpoints |

Time is nanoseconds. An instant (`Time`) is a `nat` and a `Duration` is an
`int`. Every clock read is a parameter (`now`). A store call that can fail
gets an `Option<string>` parameter, where `Some(e)` means the call reports
error `e`. The webhook becomes a function from the HTTP request sent and
the attempt number to the exchange of that attempt; every send passes it
the request built from the configured URL and auth key and the payload.
Cancellation becomes a function from attempt number to an optional
cancellation error.

Behaviour of the code that its names and messages might not suggest:

- A delivery that fails marks the message `failed`, and the pending query
  selects only `pending` messages. A failed message is therefore never fetched
  again, and the retry ceiling only filters pending messages, whose retry count
  the scheduler never raises (`MessageOperations.FailedMessageLeavesQueue`).
- Starting and stopping the scheduler call `UpdateSchedulerStatus`, whose
  body is not part of this model, rather than the scheduler log operations.
- The jobs run with a context that is never cancelled. A stop therefore does
  not cut short the backoff waits of jobs in flight
  (`Scheduler.NeverCancelled`, and `Webhook.NeverCancelledRun`).
- The content rule's error text says "characters", but the check counts UTF-8
  bytes. For ASCII text the two agree (`Validation.AsciiContentBounds`).
- `MESSAGES_PER_INTERVAL` is not checked to be positive. A value of 0 is
  the store's "no limit", so a tick fetches every eligible message; a
  negative value -n fetches up to n (`MessageOperations.PendingBatch`).
- A message still pending while its job is in flight can be fetched again by
  the next tick. The model launches it again, as the code does.

## Model

| member | source | states |
|---|---|---|
| Text.Atoi | internal/handlers/message_handler.go:97-105 | a parsed value lies in the signed 64-bit range and comes from a non-empty text |
| Text.AtoiOfDecimal | internal/handlers/message_handler.go:97-105 | parsing the decimal rendering of any 64-bit integer gives that integer back |
| Text.JoinEmpty | internal/validation/validator.go:20-26 | joining non-empty items gives the empty string exactly when there are no items |
| Text.JoinLength | internal/validation/validator.go:25 | a join is as long as its items plus one separator between each pair |
| Text.Utf8LenAscii | internal/validation/validator.go:45 | the byte length equals the character count exactly for ASCII text |
| Models.StatusTextInjective | internal/models/message.go:9-13 | the three statuses have three distinct stored texts |
| Models.NewMessage | internal/models/message.go:50-58 | a new message is pending with retry count 0, copies recipient and content, takes the creation instant, and has no sent time, delivery id or error |
| Models.NewSchedulerStatus | internal/models/scheduler.go:25-42 | the record has the fixed id and the given flag; exactly one of started/stopped is set, started iff active, and it equals the update time |
| Validation.MatchDigitRunExactly | internal/validation/validator.go:10 | the matcher for a run of digits accepts exactly the all-digit texts within the length bounds |
| Validation.PhonePatternIsE164 | internal/validation/validator.go:10 | the phone pattern accepts exactly `+`, a digit 1-9 and 1 to 14 further digits (ITU-T E.164: at most 15 digits) |
| Validation.ValidatePhoneNumber | internal/validation/validator.go:28-38 | no error iff E.164; an empty number reports "required", any other rejected one the format error |
| Validation.ValidateMessageContent | internal/validation/validator.go:40-50 | no error iff the content is non-empty and at most 160 UTF-8 bytes; which error for each rejection |
| Validation.AsciiContentBounds | internal/validation/validator.go:45-49 | for ASCII content, acceptance is exactly a length from 1 to 160 |
| Validation.ValidateWebhookRequest | internal/validation/validator.go:52-70 | at most two errors, the recipient's first; none iff both fields are valid; one per invalid field |
| Validation.FormatAll | internal/validation/validator.go:21-24 | one `field: message` item per error, in order |
| Validation.ErrorText | internal/validation/validator.go:20-26 | the loop's text is the items joined by `; `, and it is empty iff there are no errors |
| Validation.BothInvalidRendering | internal/validation/validator.go:20-26 | with both fields invalid the text is the recipient's error, `; `, then the content's error |
| DocumentQuery.Select | internal/dataOperations/message_operations.go:19-22 | a filtered result is no longer than its input and every record in it passes the filter |
| DocumentQuery.SelectCount | internal/dataOperations/message_operations.go:19-22 | a filter keeps every occurrence of a record that passes and none of one that fails |
| DocumentQuery.SelectSubset | internal/dataOperations/message_operations.go:19-22 | the filtered records are drawn from the input |
| DocumentQuery.SelectMembers | internal/dataOperations/message_operations.go:19-22 | every input record that passes is in the result |
| DocumentQuery.SelectAppend | internal/middleware/rate_limiting.go:59-64 | filtering an extended list extends the filtered list by the new element exactly when it passes |
| DocumentQuery.SortAsc | internal/dataOperations/message_operations.go:24-25 | the ascending sort is sorted by its key and is a permutation of its input |
| DocumentQuery.SortDesc | internal/dataOperations/message_operations.go:41 | the descending sort is sorted by its key and is a permutation of its input |
| DocumentQuery.SortAscStable | internal/dataOperations/message_operations.go:24-25 | the ascending sort keeps, for every key, the records with that key in their input order |
| DocumentQuery.SortDescStable | internal/dataOperations/message_operations.go:41 | the descending sort keeps, for every key, the records with that key in their input order |
| DocumentQuery.ApplyLimit | internal/dataOperations/message_operations.go:26 | limit 0 keeps everything, any other limit keeps the first abs(limit) records |
| DocumentQuery.ApplySkip | internal/dataOperations/message_operations.go:42 | a skip drops the first `skip` records, or all of them |
| DocumentQuery.Window | internal/dataOperations/message_operations.go:39-43 | skip then limit is the slice from the skip to skip plus abs(limit), clipped to the input |
| DocumentQuery.InsertOne | internal/dataOperations/message_operations.go:14-16 | success iff no fault and the id is new, and then the record is appended; otherwise the fault or the duplicate-key error |
| MessageOperations.PendingBatch | internal/dataOperations/message_operations.go:18-29 | every record is pending and under the retry ceiling, oldest first, taken from the collection; the batch holds min(abs(limit), number eligible) messages, or every eligible one for limit 0 |
| MessageOperations.PendingOrderEligible | internal/dataOperations/message_operations.go:19-25 | the sorted candidates are all eligible and drawn from the collection |
| MessageOperations.PendingOrderStable | internal/dataOperations/message_operations.go:24-25 | eligible messages with the same creation time are fetched in the collection's natural order |
| MessageOperations.PendingBatchOldestFirst | internal/dataOperations/message_operations.go:24-26 | no eligible message left out of the batch is older than one in it |
| MessageOperations.PendingBatchComplete | internal/dataOperations/message_operations.go:19-26 | when the limit does not bind, every eligible message is in the batch |
| MessageOperations.UpdatedRecord | internal/dataOperations/message_operations.go:53-71 | status and update time always set; sent time and delivery id only for `sent` with an id; `failed` adds exactly 1 to the retry count and sets the error only when one is given; nothing else changes |
| MessageOperations.UpdateMessageStatus | internal/dataOperations/message_operations.go:53-87 | the record with the id is updated as above, every other record is unchanged, and ids stay in place |
| MessageOperations.FailedMessageLeavesQueue | internal/dataOperations/message_operations.go:19-22 | after a `failed` update, no pending batch contains the message |
| MessageOperations.SentOrderAllSent | internal/dataOperations/message_operations.go:32 | the sent ordering holds only sent messages |
| MessageOperations.SentPage | internal/dataOperations/message_operations.go:39-43 | a page is the slice of the sent ordering after the skip: at most `perPage` long for a positive `perPage`, at most `-perPage` long for a negative one, and the whole rest of the ordering for 0 |
| MessageOperations.SentPageAllSent | internal/dataOperations/message_operations.go:32-45 | every row of a page is a sent message |
| MessageOperations.SentPageNewestFirst | internal/dataOperations/message_operations.go:41 | a page runs by sent time, newest first |
| MessageOperations.GetSentMessages | internal/dataOperations/message_operations.go:31-51 | a count failure returns its error, then a negative skip the skip error, then a page-query failure its error; success iff none of these; then the total is the number of sent messages and the rows are the page at `(page-1)*perPage` |
| MessageOperations.InsertMessage | internal/dataOperations/message_operations.go:14-16 | insertion succeeds iff no fault and the id is new, appends the message, and keeps ids unique |
| MessageOperations.UpdateKeepsIdsUnique | internal/dataOperations/message_operations.go:73 | a status update keeps ids unique |
| MessageOperations.NewMessageIsEligible | internal/models/message.go:54-56 | a new message is eligible for the next batch whenever the retry ceiling is positive |
| SchedulerOperations.IsSchedulerActive | internal/dataOperations/scheduler_operations.go:23-36 | a query failure gives false and the error; an empty log gives false; otherwise the answer is whether a newest entry is a start |
| SchedulerOperations.NewestOfSorted | internal/dataOperations/scheduler_operations.go:24 | the first entry by descending timestamp is a newest entry of the log |
| SchedulerOperations.ActiveIffNewestIsStart | internal/dataOperations/scheduler_operations.go:23-36 | when the newest entries agree, active iff the newest entry is a start |
| SchedulerOperations.StartLog | internal/dataOperations/scheduler_operations.go:12-16 | a start entry with the given id and instant and no start id |
| SchedulerOperations.StopLog | internal/dataOperations/scheduler_operations.go:18-21 | a stop entry carrying the given start id |
| SchedulerOperations.AppendLog | internal/dataOperations/scheduler_operations.go:14-15 | appending succeeds iff no fault and the id is new, and then adds exactly that entry |
| SchedulerOperations.NewerStartActivates | internal/dataOperations/scheduler_operations.go:23-36 | a start newer than every entry makes the scheduler active |
| SchedulerOperations.NewerStopDeactivates | internal/dataOperations/scheduler_operations.go:23-36 | a stop newer than every entry makes it inactive |
| SchedulerOperations.NewerEntryDecides | internal/dataOperations/scheduler_operations.go:23-36 | an entry newer than every other decides the answer by its action |
| CacheOperations.CacheKey | internal/dataOperations/cache_operations.go:12 | the key is the prefix `message_sent:` followed by the id |
| CacheOperations.IdOfKey | internal/dataOperations/cache_operations.go:22 | an id is recovered exactly from keys with the prefix |
| CacheOperations.IdOfCacheKey | internal/dataOperations/cache_operations.go:12 | the id is recovered from its key |
| CacheOperations.CacheKeyOfId | internal/dataOperations/cache_operations.go:34 | every prefixed key is the key of the id recovered from it |
| CacheOperations.CacheKeyInjective | internal/dataOperations/cache_operations.go:12 | distinct ids give distinct keys |
| CacheOperations.StoreEntry | internal/dataOperations/cache_operations.go:13-18 | the key holds `{id, sentAt}` expiring 24 hours after now; other keys are unchanged |
| CacheOperations.CacheMessage | internal/dataOperations/cache_operations.go:11-19 | the store's error is returned, and the entry is written only when there is none |
| CacheOperations.GetCachedMessage | internal/dataOperations/cache_operations.go:21-31 | the store's error, else the live entry under the key, else the missing-key error |
| CacheOperations.IsCachedMessage | internal/dataOperations/cache_operations.go:33-36 | true exactly when the key is live and the store reports no error |
| CacheOperations.CachedThenRead | internal/dataOperations/cache_operations.go:11-36 | within 24 hours of caching, the entry is read back and reported cached |
| CacheOperations.CachedEntryExpires | internal/dataOperations/cache_operations.go:18 | from 24 hours on, the entry is gone |
| CacheOperations.CachingIsolated | internal/dataOperations/cache_operations.go:11-36 | caching one id changes no read of another |
| DataOps.DataOperations.CreateMessage | internal/dataOperations/message_operations.go:14-16 | the collection becomes the insertion's result, the error is reported, nothing else changes |
| DataOps.DataOperations.GetPendingMessages | internal/dataOperations/message_operations.go:18-29 | the pending batch of the current collection, or the query's error |
| DataOps.DataOperations.GetSentMessages | internal/dataOperations/message_operations.go:31-51 | the sent-page query over the current collection |
| DataOps.DataOperations.UpdateMessageStatus | internal/dataOperations/message_operations.go:53-87 | the update applied when the store reports no error; an id with no record is not an error |
| DataOps.DataOperations.CacheMessage | internal/dataOperations/cache_operations.go:11-19 | the cache becomes the write's result |
| DataOps.DataOperations.GetCachedMessage | internal/dataOperations/cache_operations.go:21-31 | the read over the current cache |
| DataOps.DataOperations.IsCachedMessage | internal/dataOperations/cache_operations.go:33-36 | key existence over the current cache |
| DataOps.DataOperations.CreateSchedulerStartLog | internal/dataOperations/scheduler_operations.go:12-16 | a start entry is appended, and its id is returned even when the insert fails |
| DataOps.DataOperations.CreateSchedulerStopLog | internal/dataOperations/scheduler_operations.go:18-21 | a stop entry with the start id is appended |
| DataOps.DataOperations.IsSchedulerActive | internal/dataOperations/scheduler_operations.go:23-36 | the active query over the current log |
| DataOps.DataOperations.StartScheduler | internal/dataOperations/scheduler_operations.go:38-40 | the same as creating a start entry |
| DataOps.DataOperations.StopScheduler | internal/dataOperations/scheduler_operations.go:42-44 | the same as creating a stop entry |
| Webhook.BuildRequest | internal/handlers/webhook_handler.go:46-53 | a POST of the payload to the configured URL with exactly two headers: the JSON content type and the configured auth key under `X-Ins-Auth-Key` |
| Webhook.ErrorTextNonEmpty | internal/handlers/webhook_handler.go:43-91 | every send or exhaustion error renders as a non-empty text |
| Webhook.SendMessage | internal/handlers/webhook_handler.go:33-97 | the exchange judged is the endpoint's answer to `BuildRequest(config, request)`; success iff its status is 200 or 202 and its body decodes, and the success is the decoded reply; each earlier failure gives its own error |
| Webhook.SendMessageWithRetry | internal/handlers/webhook_handler.go:99-138 | the loop's result, number of sends, list of waits and list of requests sent are those of the retry definition |
| Webhook.RequestsAreBuilt | internal/handlers/webhook_handler.go:46-53 | a run sends one request per send, each the POST of the one payload with both headers to the configured URL |
| Webhook.WaitsAreLinear | internal/handlers/webhook_handler.go:120-121 | the wait after attempt a lasts a times 5 seconds |
| Webhook.WaitsIncrease | internal/handlers/webhook_handler.go:121 | the waits are 5 s, 10 s, 15 s, ..., strictly increasing |
| Webhook.RetryBounds | internal/handlers/webhook_handler.go:102-129 | at most maxRetries sends and at most maxRetries-1 waits; a run that sends waits either one time fewer than it sends or, when a cancellation cut the last wait short, as often as it sends |
| Webhook.SuccessAtAttempt | internal/handlers/webhook_handler.go:102-115 | success first at attempt k gives that response after exactly k sends and k-1 waits |
| Webhook.WaitsBetween | internal/handlers/webhook_handler.go:120-128 | the waits from one attempt to another, one per attempt, each its backoff |
| Webhook.AllAttemptsFail | internal/handlers/webhook_handler.go:102-137 | when every attempt fails and no wait is cancelled: maxRetries sends, maxRetries-1 waits, and the exhaustion error with the count and the last error |
| Webhook.CancelledDuringWait | internal/handlers/webhook_handler.go:124-126 | a cancellation during the wait after attempt k returns it at once, with no further sends |
| Webhook.NoAttempts | internal/handlers/webhook_handler.go:102-137 | with maxRetries <= 0 there are no sends and the error still names the count |
| Webhook.NeverCancelledRun | internal/handlers/webhook_handler.go:124-126 | without cancellation the result is never a cancellation |
| Webhook.SuccessIsSomeReply | internal/handlers/webhook_handler.go:109-115 | a success is the reply of the last attempt made |
| Scheduler.JobFailureMarksFailed | internal/handlers/scheduler_handler.go:200-208 | a failed delivery marks the message failed with one more retry and a non-empty error text, and caches nothing |
| Scheduler.DeliveryErrorIsNamed | internal/handlers/scheduler_handler.go:200-204 | a job's delivery never fails by cancellation |
| Scheduler.JobSuccessMarksSent | internal/handlers/scheduler_handler.go:211-220 | a delivery marks the message sent with the webhook's id at the recording instant; the cache gets that id, stamped with the caching instant, unless the cache fails, and a cache failure changes nothing else |
| Scheduler.JobRequestsCarryMessage | internal/handlers/scheduler_handler.go:194-200 | every request a job sends is a POST to the configured URL with both headers, carrying the message's recipient and content |
| Scheduler.CacheOnlyAfterRecordedSuccess | internal/handlers/scheduler_handler.go:213-220 | the cache changes only after a delivered and recorded success |
| Scheduler.JobAttemptBound | internal/handlers/scheduler_handler.go:200 | a job makes at most 3 sends and 2 waits |
| Scheduler.RunJobsKeepIds | internal/handlers/scheduler_handler.go:177-183 | running jobs keeps the collection's length and ids |
| Scheduler.SchedulerHandler.constructor | internal/handlers/scheduler_handler.go:28-36 | a new handler is stopped with no ticker and no jobs |
| Scheduler.SchedulerHandler.StartScheduler | internal/handlers/scheduler_handler.go:52-83 | 400 while running and 500 on a persistence failure, both changing nothing; otherwise running, ticker armed, a fresh stop signal, and the success response |
| Scheduler.SchedulerHandler.StartLoop | internal/handlers/scheduler_handler.go:128-131 | running, ticker armed, a fresh open stop signal |
| Scheduler.SchedulerHandler.StopScheduler | internal/handlers/scheduler_handler.go:95-126 | 400 while stopped and 500 on a persistence failure, both changing nothing; otherwise every job in flight has run, the counter is 0, the ticker is stopped, and the success response |
| Scheduler.SchedulerHandler.StopLoop | internal/handlers/scheduler_handler.go:148-159 | disarm and signal, run the in-flight jobs to their end, and only then clear `isRunning` |
| Scheduler.SchedulerHandler.Tick | internal/handlers/scheduler_handler.go:136-139 | a tick with no armed ticker changes nothing; otherwise it processes a batch |
| Scheduler.SchedulerHandler.ProcessMessages | internal/handlers/scheduler_handler.go:161-184 | a failed fetch or an empty batch launches nothing; otherwise one job per message of the pending batch at limit `MessagesPerInterval`: at most `MessagesPerInterval` jobs when it is positive, every eligible message when it is 0, and at most n when it is -n |
| Scheduler.SchedulerHandler.LaunchJobs | internal/handlers/scheduler_handler.go:177-183 | one job and one count per message, in order |
| Scheduler.SchedulerHandler.CompleteJob | internal/handlers/scheduler_handler.go:179-181 | the job's effect is applied and it leaves the counter |
| Scheduler.SchedulerHandler.ProcessSingleMessage | internal/handlers/scheduler_handler.go:186-221 | every request sent is `BuildRequest` of the configured webhook and `WebhookRequest(msg.to, msg.content)`; the message and cache become the job's outcome, and the log is untouched |
| RateLimiting.RecentExactly | internal/middleware/rate_limiting.go:59-64 | pruning keeps exactly the requests within the window, each as often as it occurred |
| RateLimiting.RecentIdempotent | internal/middleware/rate_limiting.go:59-65 | pruning again at the same instant removes nothing |
| RateLimiting.RecentEmpty | internal/middleware/rate_limiting.go:82-92 | pruning leaves something iff some request is within the window |
| RateLimiting.RateLimiter.constructor | internal/middleware/rate_limiting.go:22-27 | a new limiter has no clients |
| RateLimiting.RateLimiter.PruneRequests | internal/middleware/rate_limiting.go:59-65 | the loop keeps exactly the requests within the window, in order |
| RateLimiting.RateLimiter.Allow | internal/middleware/rate_limiting.go:40-73 | allowed iff fewer than `limit` requests remain after pruning; the record is pruned, `now` is added only when allowed; other clients are untouched; no record exceeds max(limit, 0) |
| RateLimiting.RateLimiter.HasRecentRequests | internal/middleware/rate_limiting.go:82-88 | true iff some request lies within the window |
| RateLimiting.RateLimiter.Cleanup | internal/middleware/rate_limiting.go:75-95 | exactly the clients with no request within the window are removed; the others keep their records |
| Options.SortOrder | pkg/mongodb/pagination.go:48-51 | `desc` gives -1 and anything else 1 |
| Pagination.NormalizedPageSize | pkg/mongodb/pagination.go:13-15 | 0 becomes 50 and any other size is kept |
| Pagination.NormalizedPage | pkg/mongodb/pagination.go:17-19 | 0 becomes 1 and any other page is kept |
| Pagination.CeilDivIsCeiling | pkg/mongodb/pagination.go:25 | the integer quotient is the ceiling of total / pageSize, for either sign of the divisor |
| Pagination.PagesCoverTotal | pkg/mongodb/pagination.go:25 | for a positive size the pages hold every item, one page fewer would not, and no items means no pages |
| Pagination.CalculatePaginationInfo | pkg/mongodb/pagination.go:12-27 | echoes the total and the normalised page and size; the page count is the ceiling of total / size, for a positive and for a negative size |
| Pagination.ApplyPagination | pkg/mongodb/pagination.go:29-41 | skip `(page-1)*pageSize` and limit `pageSize` after normalisation; the sort is unchanged |
| Pagination.ApplySorting | pkg/mongodb/pagination.go:43-54 | no sort key leaves the sort alone; otherwise it sorts by the key in the requested direction; paging is unchanged |
| Filtering.IsValidFilter | pkg/mongodb/filtering/builder.go:118-129 | the search succeeds iff some filterable field with that name lists that operation |
| Filtering.GetFilters | pkg/mongodb/filtering/types.go:54-61 | no filter text means no filters; otherwise the decoder's result |
| Filtering.ParseDate | pkg/mongodb/filtering/builder.go:87-96 | success iff the value is a text in the day-month-year layout; otherwise which error |
| Filtering.Condition | pkg/mongodb/filtering/builder.go:40-78 | unknown operations add nothing; `equals`, `contains`, `gt`, `lt` and `between` build their conditions; a `between` on two date texts bounds `$gte`/`$lte` by the parsed instants, one whose lower bound is not a date text bounds them by the raw values; the only error is a date-text `between` whose upper bound is not a date text |
| Filtering.ApplyFilter | pkg/mongodb/filtering/builder.go:40-78 | a known operation sets its field's condition, an unknown one changes nothing, no other field changes |
| Filtering.BuildFilter | pkg/mongodb/filtering/builder.go:15-38 | the loop's result is the ordered application of the decoded filters; no filter text gives the empty query |
| Filtering.BuiltOnlyFromAllowed | pkg/mongodb/filtering/builder.go:27-30 | a query is built only when every filter is whitelisted |
| Filtering.DisallowedFilterFails | pkg/mongodb/filtering/builder.go:27-30 | any filter that is not whitelisted makes the build fail |
| Filtering.LastFilterWins | pkg/mongodb/filtering/builder.go:27-35 | a field's condition is the one of the last filter on it with a known operation |
| Filtering.ConditionKept | pkg/mongodb/filtering/builder.go:40-77 | a field no remaining filter sets keeps its condition, or stays absent |
| Filtering.BuildFindOptions | pkg/mongodb/filtering/builder.go:98-116 | paging only when page and size are both positive; sorting only with a sort key, `desc` descending |
| Filtering.EndOfDayIsLastInstant | pkg/mongodb/filtering/builder.go:156 | the end bound moves to 23:59:59.999999999 of its own day, never earlier |
| Filtering.RangeLayout | pkg/mongodb/filtering/builder.go:136-139 | the caller's layout when given and non-empty, else day-month-year |
| Filtering.ApplyDateRangeFilter | pkg/mongodb/filtering/builder.go:131-165 | no bounds leaves the query unchanged; a begin bound that does not parse gives the begin-date error, otherwise an end bound that does not parse gives the end-date error; otherwise the field gets exactly the given bounds, the end at the end of its day, and no other field changes |
| MessageHandling.QueryOrDefault | internal/handlers/message_handler.go:97-102 | a parameter the request leaves out takes its default |
| MessageHandling.NormalizePage | internal/handlers/message_handler.go:97-100 | a parsed page of at least 1 is kept, anything else is 1 |
| MessageHandling.NormalizePerPage | internal/handlers/message_handler.go:102-105 | a parsed size from 1 to 100 is kept, anything else is 10 |
| MessageHandling.PageRoundTrip | internal/handlers/message_handler.go:97-100 | a page written in decimal is the page used; no parameter is page 1 |
| MessageHandling.PerPageRoundTrip | internal/handlers/message_handler.go:102-105 | a size from 1 to 100 written in decimal is the size used; no parameter is 10 |
| MessageHandling.Offset | internal/dataOperations/message_operations.go:39 | the skip of a normalised page is non-negative |
| MessageHandling.SentMessagesReply | internal/handlers/message_handler.go:96-133 | a 500 iff a store call fails; otherwise the page of sent messages at the normalised page and size, the sent total, the echoed page and size, and the ceiling page count |
| MessageHandling.ListedMessagesAreSentNewestFirst | internal/handlers/message_handler.go:107 | the listed messages are all sent, newest first |
| MessageHandling.ListPagesCoverTotal | internal/handlers/message_handler.go:116 | the listing's page count is the least number of pages holding every sent message |
| MessageHandling.MessageHandler.CreateMessage | internal/handlers/message_handler.go:44-82 | a body that does not bind or validate is a 400 and stores nothing; otherwise a pending message with the fresh id is stored and returned with 201, or a store failure is a 500 |
| MessageHandling.MessageHandler.GetSentMessages | internal/handlers/message_handler.go:96-133 | the endpoint answers the listing reply for the current collection |

## Left out

- DocumentQuery.SortAsc: records with equal keys keep their natural order (proved as `SortAscStable`, and for the descending sort as `SortDescStable`); a real document store promises no order among equal sort keys, so this tie-break is the model's choice. The same holds for `MessageOperations.SentPage`: messages with equal `sent_at` (BSON stores milliseconds, so ties are plausible) keep their collection order, which the real store does not promise.
- Concurrency: goroutines, the ticker, the stop channel, the `WaitGroup` and the mutexes are a job list, a counter and flags. Ticks and job completions are explicit method calls run one at a time, and the drain on stop finishes jobs in launch order. Interleavings are not modelled.
- Scheduler.SchedulerHandler.StopScheduler: once draining begins, no tick can run in the model. A tick racing with a stop in the real code is not captured.
- Real HTTP, JSON encoding and decoding, request timeouts and `time.After`: each attempt's outcome is the input `Endpoint`'s `Exchange` for the request sent. The JSON encoding of a request cannot fail, so its error path is not modelled.
- The webhook handler's logging and the time it measures for an HTTP call are not modelled.
- Webhook.SendMessageWithRetry: a wait is recorded in full even when a cancellation ends it early. The model records the wait's planned duration, not the part that elapsed.
- `time.Now` and `time.Parse`: clock reads are parameters and date parsing is a parser function given as a parameter. Time zones are left out, so the end of day is taken in UTC.
- Models.Time: instants are `nat` nanoseconds from the Unix epoch, so the date parser given as a parameter cannot return the pre-1970 instants `time.Parse` yields for dates such as 01-01-1900; filters and ranges on such dates are not modelled.
- Float arithmetic: the page count uses integer ceiling division, not `math.Ceil` over `float64`. The two agree while the operands are below 2^53.
- Filtering.Value: JSON numbers are integers and JSON arrays are not represented, because neither appears in the filter conditions' logic.
- Integer width: 64-bit overflow of `(page-1)*pageSize` and of `int64` conversions is not modelled. `strconv.Atoi`'s 64-bit range is modelled.
- The go-playground struct validator behind `CreateMessage` (the `required`, `e164` and `max=160` tags) is an input verdict: its own rules are not part of this model.
- The JSON body binding and the uuid generator of `CreateMessage` are inputs.
- `UpdateSchedulerStatus` is not part of this model; the handler's call to it is a success/failure input.
- Scheduler.SchedulerHandler.StartScheduler / StopScheduler: the scheduler log is assumed unchanged by the call to `UpdateSchedulerStatus`, whose body is not part of this model.
- Scheduler.JobMessages: `UpdateMessageStatus` reads the clock twice, for `updated_at` and for `sent_at`; the model uses one instant (`JobEnv.now`) for both. The caching instant (`JobEnv.cacheNow`, read later by the handler) is separate, and the cache's TTL is counted from it.
- Webhook.BuildRequest: headers are keyed by their canonical form, as `Header.Set` stores them (`x-ins-auth-key` becomes `X-Ins-Auth-Key`); header names are otherwise case-insensitive in HTTP, which a map of strings does not capture.
- `models.SchedulerLog`, `NewSchedulerStartLog` and `NewSchedulerStopLog` are not part of this model. A log entry has the fields the log operations use, and the new entry's id is an input.
- `updated_at` is kept as a `Message` field although the Go struct does not declare it, because the status update stores it.
- pkg/mongodb/mongodb.go and pkg/mongodb/client.go (driver plumbing, connection retries, cursor decoding) are replaced by the in-memory `DocumentQuery` semantics, with a MongoDB-style stable sort, limit and skip.
- pkg/redisdb/redisdb.go is replaced by a map from key to value and expiry. `Exists` reports false together with any store error.
- `GetMessageByID` is not modelled: it is a plain lookup with no logic of its own.
- The database and cache clients that `DataOperations` is built from, configuration loading, logging, `main`, the router, CORS and the router's wiring mismatches are not modelled.
- The rate limiter's background cleanup goroutine is left out: `Cleanup` is a method called explicitly.
- `FilterRequest.GetFilters`' JSON decoding is a decoder function given as a parameter.
