# Promptmeter: a verified model

Promptmeter carries LLM-call events from an SDK queue through a durable NATS work queue into batching
workers, which write them to ClickHouse; rollup tables answer cost questions from there. This project models
the parts whose correctness spans functions, machines or whole runs, and proves what they keep.

| file | models |
|---|---|
| `BatchWriter.dfy` | the batching writer as critical sections that overlap freely, and as the class itself |
| `Delivery.dfy`, `Worker.dfy` | stream, deduplication, workers, acks, crashes; `handleMessage` and the fetch loop as methods |
| `EventsTable.dfy`, `Calendar.dfy` | the `ReplacingMergeTree` table: parts, partitions, inserts, merges, FINAL |
| `Aggregation.dfy`, `Warehouse.dfy` | incremental views into `SummingMergeTree` targets; rollups against FINAL |
| `CostQuery.dfy`, `CostRanking.dfy` | three physical sources of the cost breakdown by model; its order and limit |
| `Timeseries.dfy` | the top-five-plus-`_other` fold |
| `RefreshTokens.dfy`, `RefreshRaces.dfy` | rotation with reuse detection, one handler at a time and with handlers that overlap |
| `ApiClient.dfy` | the browser's single-flight refresh, composed with the rotation |
| `RateLimiter.dfy`, `ApiKeyCache.dfy` | the Redis limiter and the API-key cache |
| `SdkFlusher.dfy` | the Python SDK's queue and flush worker |
| `S3Status.dfy` | uploads, status rows and the reconciler |
| `Prices.dfy`, `Domain.dfy`, `Csv.dfy` | effective-dated prices, object keys and decimal text, CSV quoting |
| `Sequences.dfy` | filters, concatenation and sums of bags over sequences |

`dafny verify dfyconfig.toml` checks everything.

## Conventions

Concurrent code is a state machine whose steps are the sections between two external calls (or awaits, or lock
operations), and theorems quantify over all runs or reachable states. The methods of `BatchWriter`, `Worker`,
`AuthHandler`, `ApiClient`, `Limiter` and `AuthMiddleware` and the SDK's drain and send loops are proved to take
these steps; `S3Uploader` is proved against its own contract (no status update before its object, one for each
upload that succeeded). Calls into other systems become parameters: what the clock read, whether a write
succeeded, which replies arrived. Failures are always possible. Redelivery is freer than in NATS (any un-acked
message, any number of times), a failing insert may have stored any of its rows, and rows of stored messages and
failed status updates may land at any later time, so the safety results also hold for the narrower behaviour of the real systems. Money is
`real`. `uint32` and `uint64` columns wrap as in the code. Strings stand for byte strings. Histories (rows ever
inserted, acks called, operations served) are kept only to state properties.

## Behaviour worth knowing

- `Delivery`: the stream deduplicates by event id alone, so of two organisations using one id within ten minutes
  the second is told success and its event is dropped (`OtherOrgDropped`, `PublishStoresIff`).
- `BatchWriting`: one event whose id is not a UUID makes every batch containing it fail; while flushes do not
  overlap nothing behind it is stored (`MalformedBlocks`). The ingestion API rejects such ids.
- `RefreshTokens`: a failed revocation write is only logged, and then the same token can be refreshed twice
  (`OldTokenLiveIff`, `FailedRevocationAllowsSecondRefresh`).
- `RefreshRaces`: check and revocation are separate statements, so calls that check one token before either revokes it
  all succeed (`OverlappingCallsBothSucceed`; the exact condition is `AnotherSuccessIff`).
- `ApiClient`: a lost answer, or a delivered refusal that keeps the cookie, leaves the token in the jar, and the next
  refresh of the page presents it again (`PresentedTwiceIff`); if the server had revoked it, that is taken for reuse
  (`RefusedRefreshStrandsToken`; the exact condition is `ReuseFiresIff` with `RevokesIff`).
- `RateLimiter`: the comments at `server/internal/storage/redis.go:108` and `:114` speak of a sliding window; every
  call, refused ones included, restarts the expiry, so the limiter counts bursts (`AllowedIff`,
  `SteadyCallerStarves`).
- `SdkFlusher`: when `stop` flushes beside the worker thread, a post can start after a 401, namely in a flusher
  that is in its send loop and has an attempt left beyond those started (`PostAfter401Iff`,
  `SecondFlusherPostsAfter401`); with one flusher it cannot. A `Retry-After` value such as `nan` or `inf` makes the
  pause raise, which the loop does not catch: the batch is lost and the thread ends.
- `S3Status`: the status update picks a row by event id alone and can give one organisation's row another's key:
  exactly when rows of another organisation are stored under that id (`StatusOwnIff`, `ForeignKeyNextIff`,
  `ForeignKeyReachable`). The key still names an existing object.
- `Timeseries`: a top group named `_other` is returned twice (`ConservesIff`).
- `Prices`: the generator's textual key confuses providers containing a slash (`LookupsAgreeIff`,
  `SlashConfusesTable`).
- `Domain`: object keys determine organisation, calendar day and event id, for all years and ids, slashes
  included (`S3KeyInjective`).

## Model

| member | source | states |
|---|---|---|
| Delivery.NoLoss | server/internal/worker/batchwriter.go:73-112 | in every state reachable by publishing (with lost answers), delivering, redelivering, overlapping flushes, failed, partial and late inserts, lost acks and worker crashes, each message the stream ever stored is un-acked or FINAL holds a row of its organisation, day and event id, only one, and only rows of published messages |
| Delivery.TokensAsPublished | server/internal/worker/worker.go:112-125 | if publishes that reuse a key carry the same token counts, the one row FINAL reads carries those counts and their sum modulo 2^32, whatever was redelivered, retried, re-inserted or merged |
| Delivery.StoredColumns | server/internal/worker/worker.go:112-134 | in every reachable state each row ever stored carries, in every column, what handling a published event gives: payload columns, wrapped token sum, cost and tags of pricing it under some prices, and as S3 columns pending and its object key (text), none (no text), or what a status update of its id asked for |
| Delivery.FinalColumns | server/internal/storage/clickhouse.go:62-97 | the same of every row FINAL reads |
| Delivery.SentNotLost | server/internal/nats/publisher.go:30-42 | when event ids identify the events published, every event whose publish reached the server is in the stream, whether or not the caller was told, so `NoLoss` covers it |
| Delivery.SentStoredIff | server/internal/nats/publisher.go:30-42 | in every reachable state an event is in the stream exactly when one of its publishes met a stream that did not remember its id |
| Delivery.PublishStoresIff | server/internal/nats/setup.go:47-58 | a publish leaves its event in the stream exactly when no message of that id was stored in the last ten minutes, or that very event was there |
| Delivery.OtherOrgDropped | server/internal/nats/publisher.go:36-37 | the message id ignores the organisation: a run in which the second organisation using an id is told success and has no message |
| Delivery.NoMessageNoRow | server/internal/worker/worker.go:112-145 | a key that no stored message carries has no row: the pipeline invents nothing |
| Delivery.RunKeepsInv | server/internal/nats/consumer.go:36-76 | the invariant behind these, kept by every step: acks follow rows, batch items stand for stored messages, rows come from published messages |
| Delivery.AckedHasRow | server/internal/worker/batchwriter.go:101-108 | the message an ack is about to remove from the work queue already has its row |
| Delivery.AckRemoves | server/internal/worker/batchwriter.go:101-108 | an ack that reaches the server takes its message, and no other, out of the work queue |
| Delivery.EnrichedRow | server/internal/worker/worker.go:113-125 | the enriched event becomes a row under the key of the published event with the published token counts |
| Delivery.StatusKeepsInv | server/internal/storage/clickhouse.go:141-155 | a status re-insert copies a row of a published event and keeps the invariant |
| Workers.Worker.EnrichEvent | server/internal/worker/worker.go:113-125 | the in-place field assignments change price columns, tags, wrapped token total and S3 columns only: pending with the object key exactly when there is text |
| Workers.Worker.HandleMessage | server/internal/worker/worker.go:112-145 | adds exactly the enriched event with its ack to the writer, calls no ack, offers an event with text to the uploader, and starts a flush exactly when the buffer has reached the batch size or 50 MiB, or its clock has run for the flush interval |
| Workers.Worker.Consume | server/internal/nats/consumer.go:53-76 | one fetch: the n-th message that does not decode is the n-th NAK and nothing else is NAKed, all others are added in order, nothing is acked, and for each message whether a flush is due after it |
| Workers.NaksInOrder | server/internal/nats/consumer.go:53-76 | the NAKed ids are those of the messages that do not decode, in fetch order |
| Workers.AfterIsAddAll | server/internal/nats/consumer.go:53-76 | message by message, the writer stands where adding the items of the messages so far puts it |
| Workers.ConsumeDelivers | server/internal/nats/consumer.go:53-76 | adding the items of a fetch to a worker is a path of the pipeline's deliver steps |
| BatchWriting.RunKeepsInv | server/internal/worker/batchwriter.go:57-112 | under any interleaving of `Add` and overlapping flushes: added = buffered + in flight + stored as multisets of (event, ack) pairs, acks called = acks of stored events minus those waiting, byte counter = size of the buffer |
| BatchWriting.ReachesKeepsInv | server/internal/worker/batchwriter.go:57-112 | whatever takes only steps of the writer keeps the conservation and ack laws |
| BatchWriting.NextConserves | server/internal/worker/batchwriter.go:73-98 | every critical section keeps the conservation law and the index pairing, through put-back too |
| BatchWriting.NextKeepsAcks | server/internal/worker/batchwriter.go:101-108 | every step keeps: acks of stored events are those called and those waiting |
| BatchWriting.AcksFollowInserts | server/internal/worker/batchwriter.go:101-108 | an ack is called at most as often as an event carrying it was stored, and that at most as often as one was added: once, after its own insert, when acks are distinct |
| BatchWriting.HeldWasAdded | server/internal/worker/batchwriter.go:80-89 | what a flush is inserting was added, with its own ack |
| BatchWriting.WaitingWasStored | server/internal/worker/batchwriter.go:101-104 | the ack about to be called belongs to a stored event |
| BatchWriting.SequentialInOrder | server/internal/worker/batchwriter.go:73-99 | if flushes do not overlap, the stored events are a prefix of the added ones, in `Add` order, whatever inserts fail |
| BatchWriting.MalformedBlocks | server/internal/storage/clickhouse.go:63-67 | then one event whose id does not parse keeps everything added behind it from ever being stored |
| BatchWriting.BatchWriter.Add | server/internal/worker/batchwriter.go:57-70 | appends event and ack, adds the size, starts the age clock on an empty buffer; asks for a flush exactly by count, bytes or age |
| BatchWriting.BatchWriter.ShouldFlush | server/internal/worker/batchwriter.go:142-153 | the three triggers |
| BatchWriting.EventSizeCounts | server/internal/worker/batchwriter.go:155-162 | the size of an event is the struct and every byte of the seven counted texts |
| BatchWriting.TagSizeCounts | server/internal/worker/batchwriter.go:158-160 | and every byte of tag keys and values |
| BatchWriting.BatchWriter.TakeBatch | server/internal/worker/batchwriter.go:74-85 | the snapshot step: takes the whole buffer, or does nothing when it is empty |
| BatchWriting.BatchWriter.PutBackBatch | server/internal/worker/batchwriter.go:89-99 | the put-back step: the snapshot goes in front of what was added meanwhile, and its bytes are counted again |
| BatchWriting.BatchWriter.AddSizes | server/internal/worker/batchwriter.go:94-96 | the loop adds the size sum |
| BatchWriting.BatchWriter.NoteStored | server/internal/worker/batchwriter.go:89 | the insert-succeeded step |
| BatchWriting.BatchWriter.CallAck | server/internal/worker/batchwriter.go:102-107 | one round of the ack loop is the ack step: a nil ack is skipped |
| BatchWriting.FlushedReaches | server/internal/worker/batchwriter.go:73-112 | a `Flush` call that runs alone is a path: snapshot, insert, then the put-back or one ack step after the other |
| BatchWriting.FlushedMeaning | server/internal/worker/batchwriter.go:73-112 | its failing path changes nothing but the history, its succeeding one stores the buffer in order, empties it and acks in order |
| BatchWriting.BatchWriter.RunAcks | server/internal/worker/batchwriter.go:101-108 | the ack loop is one ack step after the other and calls the non-nil acks in order |
| BatchWriting.BatchWriter.Flush | server/internal/worker/batchwriter.go:73-112 | a whole call is a path of the step system and keeps its laws; it fails exactly on a malformed id or a store error and then leaves the writer as it was, else stores the buffer in order, empties it and acks in order |
| EventsTable.EqualKeysSharePartition | server/internal/migrate/sql/clickhouse/20260401120000_create_events.up.sql:29-31 | rows with equal sort keys share a partition |
| EventsTable.PartitionIsMonth | server/internal/migrate/sql/clickhouse/20260401120000_create_events.up.sql:30 | two timestamps share a partition exactly when calendar year and month agree |
| EventsTable.MergeKeepsInv | server/internal/migrate/sql/clickhouse/20260401120000_create_events.up.sql:29-31 | a background merge changes no key's surviving version |
| EventsTable.InsertKeepsInv | server/internal/migrate/sql/clickhouse/20260401120000_create_events.up.sql:29-31 | an insert block, split by partition, makes each key read as the latest of old and new versions |
| EventsTable.FinalIsHistoryCollapse | server/internal/migrate/sql/clickhouse/20260401120000_create_events.up.sql:29-31 | FINAL is a function of the insert history alone: one row for each key, whatever merges ran |
| EventsTable.FinalReadsNewest | server/internal/migrate/sql/clickhouse/20260401120000_create_events.up.sql:29-31 | FINAL reads one row for each sort key ever inserted: the one with the greatest inserted_at among all inserted rows of the key, on a tie the one inserted last |
| EventsTable.CollapseUnique | server/internal/migrate/sql/clickhouse/20260401120000_create_events.up.sql:29-31 | any two reads of the same rows agree up to order |
| EventsTable.CollapseSplitsHistory | server/internal/migrate/sql/clickhouse/20260401120000_create_events.up.sql:29-31 | history = surviving rows + replaced rows, as multisets |
| EventsTable.SupersededEmpty | server/internal/migrate/sql/clickhouse/20260401120000_create_events.up.sql:29-31 | nothing was replaced exactly when no key was inserted twice |
| Calendar.CivilRoundTrip | server/internal/migrate/sql/clickhouse/20260401120000_create_events.up.sql:30-31 | the calendar date of a day determines the day, for all days |
| Calendar.GregorianCalendar | server/internal/migrate/sql/clickhouse/20260401120000_create_events.up.sql:30-31 | day 0 is 1 January 1970 and the date of each day is the Gregorian successor of the date of the day before, for all days |
| Warehouse.BuildBatch | server/internal/storage/clickhouse.go:62-97 | the batch loop yields one row for each event in order, each column that of the event and inserted_at the time of the call, and nothing at all exactly when one id does not parse |
| Warehouse.RunKeepsInv | server/internal/migrate/sql/clickhouse/20260401120002_create_mv_cost_by_model_daily_view.up.sql:4-13 | over every run of insert blocks and merges in the five tables: FINAL is the collapse of the history and each target holds its direct aggregate, key by key |
| Warehouse.ModelRollupIsDirect | server/internal/migrate/sql/clickhouse/20260401120002_create_mv_cost_by_model_daily_view.up.sql:4-13 | sum-with-filter over the model target equals the same sum over all rows ever inserted |
| Warehouse.ProjectRollupIsDirect | server/internal/migrate/sql/clickhouse/20260402120002_create_mv_cost_by_model_daily_v2_view.up.sql:4-14 | the same for the project rollup |
| Warehouse.ModelRollupSums | server/internal/migrate/sql/clickhouse/20260401120002_create_mv_cost_by_model_daily_view.up.sql:4-13 | for each organisation, day, model and provider the target adds up the costs, tokens and number of exactly the inserted rows of these (counters modulo 2^64), in every reachable state |
| Warehouse.ProjectRollupSums | server/internal/migrate/sql/clickhouse/20260402120002_create_mv_cost_by_model_daily_v2_view.up.sql:4-14 | the same for each project |
| Warehouse.TagRollupSums | server/internal/migrate/sql/clickhouse/20260401120004_create_mv_cost_by_tag_daily_view.up.sql:4-15 | for each tag key and value the tag target adds up cost and number of exactly the inserted rows whose tag reads that value |
| Warehouse.ProjectTagRollupSums | server/internal/migrate/sql/clickhouse/20260402120004_create_mv_cost_by_tag_daily_v2_view.up.sql:4-16 | the same for each project |
| Warehouse.V2SumsToV1 | server/internal/migrate/sql/clickhouse/20260402120001_create_mv_cost_by_model_daily_v2_table.up.sql:15-18 | summing the project rollup over projects gives the organisation rollup, for every filter |
| Warehouse.TagV2SumsToV1 | server/internal/migrate/sql/clickhouse/20260402120004_create_mv_cost_by_tag_daily_v2_view.up.sql:4-16 | the same for the tag rollups |
| Warehouse.TagValuesSumToCarriers | server/internal/migrate/sql/clickhouse/20260401120004_create_mv_cost_by_tag_daily_view.up.sql:4-15 | for one tag key the rollup summed over values is the total over rows carrying the key |
| Warehouse.RollupGap | server/internal/migrate/sql/clickhouse/20260401120002_create_mv_cost_by_model_daily_view.up.sql:9-13 | rollup = FINAL + contribution of replaced rows, in every reachable state and for every filter |
| Warehouse.ProjectRollupGap | server/internal/migrate/sql/clickhouse/20260402120002_create_mv_cost_by_model_daily_v2_view.up.sql:10-14 | the same for the project rollup |
| Warehouse.CountsAgreeIff | server/internal/storage/clickhouse.go:141-155 | under a filter, request counts agree exactly when the replaced rows number 0 modulo 2^64 |
| Warehouse.AllCountsAgreeIff | server/internal/storage/clickhouse.go:141-155 | without a filter and below 2^64 inserts: exactly when no key was inserted twice |
| Aggregation.ViewInsertKeepsInv | server/internal/migrate/sql/clickhouse/20260401120004_create_mv_cost_by_tag_daily_view.up.sql:4-15 | aggregating block by block keeps a target equal to the direct aggregate, for any splitting of inserts |
| Aggregation.ViewMergeKeepsInv | server/internal/migrate/sql/clickhouse/20260401120001_create_mv_cost_by_model_daily_table.up.sql:11-13 | so does any SummingMergeTree merge, dropping of all-zero rows included |
| Aggregation.TargetAnswers | server/internal/migrate/sql/clickhouse/20260401120003_create_mv_cost_by_tag_daily_table.up.sql:10-12 | every sum-with-filter over a target is that sum over the source rows |
| Aggregation.GroupByTotal | server/internal/migrate/sql/clickhouse/20260401120002_create_mv_cost_by_model_daily_view.up.sql:13 | GROUP BY keeps every filtered sum and leaves one entry for each key |
| Aggregation.GroupHolds | server/internal/migrate/sql/clickhouse/20260401120002_create_mv_cost_by_model_daily_view.up.sql:11 | each group holds the sum of the entries of its key, which occurs |
| CostQuery.CostByModelMeaning | server/internal/storage/clickhouse.go:280-320 | an uncut by-model answer, from whichever target is selected, sums all rows ever inserted that pass the day filter |
| CostQuery.CostRawMeaning | server/internal/storage/clickhouse.go:577-637 | an uncut raw answer sums the FINAL rows that pass the time filter |
| CostQuery.RollupAnswerDecomposes | server/internal/storage/clickhouse.go:291-303 | rollup answer = raw answer + rows of the first and last day outside the time range + replaced rows |
| CostQuery.BreakdownIsDirect | server/internal/storage/clickhouse.go:264-278 | the dispatch as a whole: for every filter combination, on a day-aligned range, when no key was inserted twice and the limit cuts nothing, the sum of the breakdown for each model is the aggregate of the matching FINAL rows (`CostRanking.BreakdownTop` has order and limit) |
| CostRanking.BreakdownTop | server/internal/storage/clickhouse.go:264-278 | the whole dispatch for every limit: a feature filter asks the events table, everything else a rollup; the answer holds at most `limit` different groups in non-increasing cost, each with the cost and count of its FINAL rows, and a group left out means the limit is used up by groups that cost at least as much (rollups: on a day-aligned range, when no key was inserted twice) |
| CostRanking.RawTop | server/internal/storage/clickhouse.go:577-637 | the raw answer ranks the models of the FINAL rows that pass the filters in this sense, for every time range and limit |
| CostRanking.RollupTop | server/internal/storage/clickhouse.go:280-320 | in every reachable state, for every time range and limit, the rollup answer ranks the model-provider groups of the inserted rows of its days, with their tokens, whichever target is read |
| CostRanking.RollupTopFinal | server/internal/storage/clickhouse.go:280-320 | on a day-aligned range, when no key was inserted twice, these are the groups of the FINAL rows of the time range, with cost, tokens and count |
| CostRanking.InTimesMeaning | server/internal/storage/clickhouse.go:609-620 | which rows the raw query asks for, filter by filter |
| CostQuery.SelectsV2Iff | server/internal/storage/clickhouse.go:166-171 | the project-keyed target is read exactly when there is a project filter |
| CostQuery.RoutesAgree | server/internal/storage/clickhouse.go:250-320 | on a day-aligned range with no re-inserted key, every route gives every model the same cost and requests |
| CostQuery.RoutesAgreeOnRequestsIff | server/internal/storage/clickhouse.go:609-620 | for every range, request counts agree exactly when boundary and replaced rows cancel modulo 2^64 |
| CostQuery.TimesWithinDays | server/internal/storage/clickhouse.go:297-299 | the day range a rollup query derives from 32-bit seconds covers the time range |
| Timeseries.CollectSeries | server/internal/storage/clickhouse.go:529-561 | the series map after the detail loop: one entry for each top group and `_other`, each with its merged points |
| Timeseries.FoldSeries | server/internal/storage/clickhouse.go:529-573 | the whole fold: non-empty series in order, `_other` last |
| Timeseries.SeriesShape | server/internal/storage/clickhouse.go:550-560 | series are non-empty with strictly increasing timestamps, and no series with points is missing |
| Timeseries.AtMostSix | server/internal/storage/clickhouse.go:563-571 | at most six series |
| Timeseries.TopSeriesIsOwnRows | server/internal/storage/clickhouse.go:545-560 | a top group's series is exactly its own rows |
| Timeseries.SeriesConserve | server/internal/storage/clickhouse.go:714-755 | at every timestamp, cost and requests over the series = over the rows + what an `_other` top group counts twice |
| Timeseries.ConservesIff | server/internal/storage/clickhouse.go:729-755 | it conserves exactly when no top group is named `_other` or nothing else falls into that series |
| RefreshTokens.AuthHandler.HandleRefresh | server/internal/dashboard/handlers/auth.go:161-230 | the handler with its early returns computes the refresh transition: store, response and cookie change |
| RefreshTokens.AuthHandler.HandleLogout | server/internal/dashboard/handlers/auth.go:233-248 | the same for logout |
| RefreshTokens.AuthHandler.IssueTokenPair | server/internal/dashboard/handlers/auth.go:286-313 | stores one new unrevoked token of the user that expires seven days after the call and leaves every other token alone, or changes nothing when signing or storing fails |
| RefreshTokens.AuthHandler.RevokeRefreshToken | server/internal/storage/postgres.go:175-184 | marks one token |
| RefreshTokens.AuthHandler.RevokeAllUserTokens | server/internal/storage/postgres.go:187-196 | marks all unrevoked tokens of one user |
| RefreshTokens.RevocationPermanent | server/internal/storage/postgres.go:175-196 | over every run a revoked token stays revoked |
| RefreshTokens.AtMostOneSuccess | server/internal/dashboard/handlers/auth.go:184-205 | no token is refreshed twice |
| RefreshTokens.LiveTokensBounded | server/internal/dashboard/handlers/auth.go:202-228 | a user never has more live tokens than logins |
| RefreshTokens.ReuseRevokesOwnerOnly | server/internal/dashboard/handlers/auth.go:185-194 | a revoked token ends all sessions of its owner and touches no other user |
| RefreshTokens.ReuseIff | server/internal/dashboard/handlers/auth.go:178-194 | reuse is reported exactly for a known, revoked token whose query succeeds |
| RefreshTokens.RevokesIff | server/internal/dashboard/handlers/auth.go:184-248 | a live token is revoked exactly by its logout, its refresh before expiry (whatever is answered then) or the reuse of a revoked token of the same user, with working query and write |
| RefreshTokens.RefreshedIff | server/internal/dashboard/handlers/auth.go:161-230 | a refresh succeeds exactly when its token is known, unrevoked and unexpired and the lookups and the issuing succeed |
| RefreshTokens.NewTokensLive | server/internal/dashboard/handlers/auth.go:286-313 | a token appears only with the answer and cookie that carry it, live for seven days, for the user who signed in or whose live unexpired token was presented |
| RefreshTokens.OldTokenLiveIff | server/internal/dashboard/handlers/auth.go:203-205 | after a successful refresh the old token is live exactly when its revocation write failed |
| RefreshTokens.FailedRevocationAllowsSecondRefresh | server/internal/dashboard/handlers/auth.go:203-205 | a run in which one token is refreshed twice because of that |
| RefreshRaces.AnotherSuccessIff | server/internal/dashboard/handlers/auth.go:169-226 | with overlapping calls: once a token is revoked, another success with it can follow exactly when some call that checked it before is still unanswered |
| RefreshRaces.OverlappingCallsBothSucceed | server/internal/dashboard/handlers/auth.go:184-205 | a run from the empty store in which two calls check one token before either revokes it and both succeed, although every write does |
| RefreshRaces.RefreshIsAPath | server/internal/dashboard/handlers/auth.go:161-230 | a call with nothing in between check, write and issue is the sequential handler |
| ApiClient.ApiClient.BeginRequest | dashboard/lib/api/client.ts:46-50 | a request starts with one fetch of its URL |
| ApiClient.ApiClient.JoinOrStartRefresh | dashboard/lib/api/client.ts:89-113 | joins the refresh under way or starts the only one |
| ApiClient.ApiClient.OnFirstResponse | dashboard/lib/api/client.ts:53-54 | a 401 waits for a refresh, any other answer settles the request |
| ApiClient.ApiClient.OnRefreshSettled | dashboard/lib/api/client.ts:104-109 | settles one refresh and clears the field |
| ApiClient.ApiClient.OnResume | dashboard/lib/api/client.ts:55-66 | one retry after a successful refresh, none otherwise |
| ApiClient.SingleFlight | dashboard/lib/api/client.ts:46-113 | over every run: at most one refresh in flight, at most two fetches for each request, one verdict for all waiters of a refresh |
| ApiClient.ReuseFiresIff | server/internal/dashboard/handlers/auth.go:184-206 | over every run, with refreshes handled after the page gave them up, failing writes and any operations of other sessions: reuse detection answers a refresh (whose token query succeeds) exactly when the token it presented was revoked at load or by an earlier operation of the server |
| ApiClient.PresentedTwiceIff | dashboard/lib/api/client.ts:89-113 | over every run some token is presented twice exactly when some refresh before the last presented a token and left it in the jar: its answer was lost, or kept the cookie |
| ApiClient.ServeKeepsLog | server/internal/dashboard/handlers/auth.go:161-248 | a token known to the page is revoked exactly when some logged operation revoked it |
| ApiClient.NeverTwice | dashboard/lib/api/client.ts:89-113 | while all refreshes are delivered and successful no token is presented twice, and reuse detection does not fire unless a presented token was revoked at load or by another session |
| ApiClient.RefusedRefreshStrandsToken | server/internal/dashboard/handlers/auth.go:202-212 | delivered but refused is not enough: a run from the loaded page in which a failed user lookup leads to reuse detection |
| RateLimiter.Limiter.CheckRateLimit | server/internal/storage/redis.go:120-138 | one call: count, verdict, remaining, and the time to live restarted |
| RateLimiter.AllowedIff | server/internal/storage/redis.go:130-137 | a call is allowed exactly when its position in the current burst is within its own limit |
| RateLimiter.CounterIsBurstPosition | server/internal/storage/redis.go:122-123 | the counter is the position in the burst |
| RateLimiter.WindowBound | server/internal/storage/redis.go:109-118 | any interval shorter than the window holds at most L allowed calls of limit at most L, with limits varying per call |
| RateLimiter.GapResets | server/internal/storage/redis.go:122-123 | after a silent window a call is allowed exactly when its limit is positive |
| RateLimiter.RefusedUntilGap | server/internal/storage/redis.go:122-137 | with one limit, refused means refused until such a silence |
| RateLimiter.SteadyCallerStarves | server/internal/storage/redis.go:108 | a steady caller with a period below the window gets its first `limit` calls and no other: not the sliding window the comment names |
| ApiKeyCache.AuthMiddleware.Handle | server/internal/ingestion/middleware.go:153-188 | the handler computes the cache-then-store decision and fills the cache on a miss |
| ApiKeyCache.BoundedStaleness | server/internal/ingestion/middleware.go:127-188 | over every run: the key of an accepted request has the write scope; if it is revoked at r, the request was judged by a value read by r, and comes before r + 300 seconds + the longest read-to-write delay (0 for an atomic decision) |
| ApiKeyCache.HitsNeverExtend | server/internal/ingestion/middleware.go:159-176 | entries are written on a miss alone, for five minutes; a hit does not extend them |
| ApiKeyCache.VerdictIff | server/internal/ingestion/middleware.go:153-188 | accepted exactly when the key that counts (cached while it lives, else stored) is unrevoked and has the write scope, forbidden exactly when it lacks the scope alone, server error exactly on a miss with a failing store |
| ApiKeyCache.AtomicDecisionIsAPath | server/internal/ingestion/middleware.go:153-188 | the atomic decision is a zero-delay path of the step system |
| SdkFlusher.EventQueue.Put | sdk/python/promptmeter/_queue.py:23-34 | accepts exactly when there is room, at the end |
| SdkFlusher.EventQueue.Drain | sdk/python/promptmeter/_queue.py:36-44 | takes the longest prefix allowed, by get steps of its flusher |
| SdkFlusher.SendBatch | sdk/python/promptmeter/_flusher.py:95-174 | against any replies: accepted exactly when the last reply is 202, otherwise dropped, the 401 flag raised exactly when the last reply is 401, the thread dead exactly when an exception escaped; posts and pauses; all as a path of the flusher's steps |
| SdkFlusher.SendAttempts | sdk/python/promptmeter/_flusher.py:100-174 | the attempt loop alone: stops at the first reply that is no retry or after max_retries + 1 posts, with the pauses in between |
| SdkFlusher.EndsIff | sdk/python/promptmeter/_flusher.py:114-159 | which replies end a batch and how: 202 is accepted, 401 disables, other statuses but 429 and 5xx reject, other exceptions escape |
| SdkFlusher.PauseCovers | sdk/python/promptmeter/_flusher.py:134-157 | a pause is the backoff, after 429 the longer of backoff and Retry-After |
| SdkFlusher.PauseSumIsBackoff | sdk/python/promptmeter/_flusher.py:142-167 | against server and network errors alone the pauses are the backoffs |
| SdkFlusher.BackoffTotal | sdk/python/promptmeter/_flusher.py:181-183 | R + 1 backoffs sum to 2^(R+1) - 1 up to R = 4 and to 31 + 30(R - 4) from there |
| SdkFlusher.EventsConserved | sdk/python/promptmeter/_flusher.py:84-174 | with any number of flushers: each accepted event is queued, held by one flusher, accepted or dropped; none enters two batches; a batch is posted at most max_retries + 1 times, the post under way included |
| SdkFlusher.OneFlusherKeepsOrder | sdk/python/promptmeter/_flusher.py:84-93 | with one flusher the batches spell out the put order |
| SdkFlusher.NoNewBatchAfter401 | sdk/python/promptmeter/_flusher.py:97-98 | after a 401 no batch enters its send loop |
| SdkFlusher.OneFlusherSilentAfter401 | sdk/python/promptmeter/_flusher.py:119-125 | with one flusher no post starts after a 401 |
| SdkFlusher.PostAfter401Iff | sdk/python/promptmeter/_flusher.py:97-174 | after a 401, a flusher can still start a post exactly when it is in its send loop with an attempt left beyond those started |
| SdkFlusher.SecondFlusherPostsAfter401 | sdk/python/promptmeter/_flusher.py:64-71 | a post after a 401 is reachable from the start exactly with two flushers or more, batches of at least one event and at least one attempt |
| S3Status.UploadedHasObject | server/internal/worker/s3uploader.go:104-135 | in every reachable state every row with status uploaded, in a part or through FINAL, names a key at which an object exists |
| S3Status.RunKeepsInv | server/internal/worker/s3uploader.go:73-176 | the invariant behind it, over queueing, drops, failures, status updates that land late, reconciler passes, restarts and merges |
| S3Status.UploadedRowIsOwn | server/internal/worker/s3uploader.go:119-126 | when no other organisation's event of that id was uploaded, the key is one of the row's own organisation and id |
| S3Status.KeyNamesOrgIff | server/internal/domain/event.go:45-53 | an event's object key names an object of an organisation exactly when it is the event's own |
| S3Status.StatusOwnIff | server/internal/storage/clickhouse.go:141-155 | the update selects by event id alone and takes any one row: every row it can write names an object of its own organisation exactly when all stored rows of that id are of the event's organisation |
| S3Status.ForeignKeyNextIff | server/internal/worker/s3uploader.go:119-132 | as long as all uploaded rows name their own organisation's objects, one step can change that exactly when a status update is outstanding for an event while another organisation's row of its id is stored |
| S3Status.NoClashOwnKeys | server/internal/worker/s3uploader.go:119-132 | over every run without such a state, every uploaded row names its own organisation's object |
| S3Status.ForeignKeyReachable | server/internal/storage/clickhouse.go:141-155 | a run from the empty state after which FINAL reads a row that names another organisation's object |
| S3Status.S3Uploader.Enqueue | server/internal/worker/s3uploader.go:50-58 | appends below 1000, drops at 1000 |
| S3Status.S3Uploader.UploadEvent | server/internal/worker/s3uploader.go:104-135 | no status update before the object exists; a failed upload changes nothing |
| S3Status.S3Uploader.Reconcile | server/internal/worker/s3uploader.go:151-176 | one failing upload does not stop the others: exactly the stored ones are announced, in order |
| Prices.PriceCache.Refresh | server/internal/worker/cost.go:63-81 | groups the list by key in list order; an error leaves the cache alone |
| Prices.PriceCache.CalculateCost | server/internal/worker/cost.go:85-121 | when a price is in force for the event, 1,000,000 times the cost is prompt tokens times its input price plus completion tokens times its output price and the tags stay; when none is, cost 0 and the warning tag |
| Prices.CachedIsInForce | server/internal/worker/cost.go:100-108 | that price is the unique one of greatest start not after the event, and there is none exactly when all start later |
| Prices.CostUsesPriceInForce | server/internal/worker/cost.go:110-120 | the price in force decides the cost by that formula; warning tag and cost 0 exactly when there is none |
| Prices.PricedMeaning | server/internal/worker/cost.go:85-121 | both cases of pricing, for every list the cache can have been loaded from |
| Prices.SetTagReads | server/internal/worker/cost.go:93-96 | setting the warning tag leaves every other tag as it was |
| Prices.BuildPriceTable | server/internal/datagen/datagen.go:218-225 | groups the entries by textual key in list order |
| Prices.LookupsAgreeIff | server/internal/datagen/event.go:45-56 | table and cache agree at every time exactly when no price filed under the same text can be reached before an own one |
| Prices.LookupsAgreeWithoutSlash | server/internal/datagen/event.go:39-41 | they agree on every request when no provider contains a slash |
| Prices.KeysCollideIff | server/internal/datagen/event.go:39-41 | two providers can share a text key exactly when equal or one followed by a slash begins the other |
| Prices.SlashConfusesTable | server/internal/datagen/event.go:39-56 | a price of `a/b`, model `c`, answers for `a`, model `b/c`, in the table and not in the cache |
| Domain.UintToStr | server/internal/domain/event.go:55-69 | digit loop and reversal print the number: reading it back gives it, in at most 20 digits |
| Domain.ReversePrefix | server/internal/domain/event.go:65-67 | the swap loop reverses the prefix in place |
| Domain.DecimalTextReads | server/internal/domain/event.go:55-69 | decimal text reads back as its number, without a superfluous leading zero |
| Domain.S3KeyInjective | server/internal/domain/event.go:45-53 | two events share an object key exactly when organisation, calendar day and event id agree: for all years and ids, slashes included |
| Domain.S3KeyReads | server/internal/domain/event.go:45-53 | a key reads v1/organisation/year/month/day/id.zst, with the organisation in decimal and the calendar date of the day the timestamp has in its own offset, month and day in two digits |
| Csv.ExportRoundTrip | dashboard/lib/utils/csv.ts:10-19 | a reader for the quoting rules recovers the header and the five fields of every item, whatever the groups contain |
| Csv.DocumentReads | dashboard/lib/utils/csv.ts:19 | every document of non-empty records of arbitrary texts reads back as itself |
| Csv.RecordReads | dashboard/lib/utils/csv.ts:30-35 | so does every record |
| Csv.FieldReads | dashboard/lib/utils/csv.ts:30-35 | and every escaped field, quoted or not |

## Left out

- Drivers and transports (pgx, clickhouse-go, go-redis, the NATS client, MinIO, zstd, HTTP, JSON), configuration, migrations, the React UI, demo seeding and the traffic generator.
- Hourly rollups: their targets are `AggregatingMergeTree` with plain numeric columns, which merges do not sum.
- The dashboard cache: its keys omit or run together parameters, so it is not transparent.
- The 202 answer of the batch endpoint, which also covers rejected events: no-loss starts at a publish that returned without error.
- Eviction from the stream by age or size, the 90-day TTL of `events`, and expiry of bucket objects.
- The bounds on redelivery (ack wait, at most five deliveries): messages stay un-acked in the stream either way, and the model allows more.
- Columns no property reads (latency, status code, prompt hash in rows, schema version).
- Overflow of the 64-bit byte counter of the batch writer, and `firstAt` after a failed flush beyond what `Add` states.
- ClickHouse's server time zone is taken to be UTC and dates to lie in the range of its `Date` type; how the driver formats time arguments is not part of this model.
- The order of rows inside a part and inside answers with equal cost: reads and merges are relations that leave it open.
- Rollup merges may take any parts, not only those of one partition: more behaviour than the engine has.
- Breakdowns by tag and by project, overview, comparison, and filters that some queries ignore.
- Redis failures in the rate limiter: the two commands of one call are one step that succeeds.
- The IP and organisation keys of the limiter: one key at a time, since keys do not share state.
- Header parsing and key format checks before the API-key lookup; cache invalidation on revocation (`Evict` stands for any deletion and no bound relies on it).
- Other tabs of the same browser, and a sign-in or sign-out there: they would share the page's cookie jar. Other sessions do anything to the tokens in the model, but not to this jar, which at load holds nothing or a token the server knows.
- ApiClient.NeverTwice: states one direction; `ApiClient.PresentedTwiceIff` and `ApiClient.ReuseFiresIff` give the exact conditions.
- Overlapping refresh handlers in the composition with the browser: there one handler runs at a time.
- Cryptography: token hashes are injective and drawn tokens new, nothing is proved about them.
- The content of uploaded objects (the reconciler's rows carry no text) and the direction of status changes.
- Carriage returns in CSV fields: the reader treats them as ordinary text, as the export does, with LF as the only line end.
- CostQuery.RoutesAgree: states one direction, for query bounds whose seconds fit 32 bits (years 1970 to 2106) and a limit that cuts nothing; `CostQuery.RoutesAgreeOnRequestsIff` gives the exact condition for request counts, `CostQuery.RollupAnswerDecomposes` the exact difference.
- CostRanking.RollupTopFinal: states one direction, for day-aligned ranges without a re-inserted key; `CostRanking.RollupTop` says for every range and state which rows the rollup answer ranks.
- CostRanking.RollupTop: says nothing of a group whose request counter has wrapped around to exactly zero, because a merge may drop such a row.
- Delivery.SentNotLost: states one direction, from event ids that identify events; `Delivery.SentStoredIff` gives the exact condition.
- S3Status.UploadedRowIsOwn: states one direction; `S3Status.StatusOwnIff` gives the exact condition for an update, `S3Status.ForeignKeyNextIff` for a step of the whole system.
- S3Uploader: its methods are not tied to the steps of `S3Status`, because the outcome of the status update is the store's.
