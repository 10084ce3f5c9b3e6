# Ranking, outbox and gacha services: a model and its proofs

This project models the concurrent core of a game API and proves what it is built for.

- **The outbox pipeline.** A score request writes user points and an event in one transaction. Any number of
  worker processes apply events to the guild scores and their history, in batches or one by one, with row locks
  that skip locked rows, retry counts and a dead-letter limit, and reflect the points into two Redis rankings
  after COMMIT. A GC removes old processed rows and rebuilds write Redis anew, row by row and at any time.
  `Pipeline` is a machine over these steps, with rollbacks, crashes, lost COMMIT acknowledgements, partly executed
  Redis pipelines and a Redis that loses everything; `PipelineTables`, `PipelineRedis`, `PipelineRetry` and
  `PipelineBarren` are its invariants, `PipelineSafety` and `PipelineReports` the theorems about every run;
  `PipelinePaths`, `PipelineExcess`, `PipelineCatchUp`, `PipelineRebuild` and `PipelineSyncAll` say what a rebuild
  leaves and exactly when Redis can come to exceed MySQL after it. `BatchWork`, `Worker`, `WorkerProgress` and
  `WorkerLoop` are the worker's own loops as methods over a store, `BatchInPipeline` connects the two views,
  `Dispatch` is the goroutine fan-out of one window, `Locks` the row locks of all transactions together,
  `ScoreRequest` and `Maintenance` the request and the two batches as methods.
- **The ranking watcher.** `Watcher` has the hub and its one-slot channels as classes; `WatcherRuns` lets
  registration, first reads, broadcasts, receivers, cancellation and shutdown interleave, and `WatcherOrder`
  says how old a subscriber's values can be, `WatcherValues` that each is a ranking as it was once read.
- **Ranking reads.** `ZSet` is the order of a sorted set, `RankingReads` the pages and ranks read from it.
- **The gacha.** `Gacha` has the weighted draw and the aggregation, `GachaLedger` the transaction and all
  interleavings of it.
- **The site index.** `SiteText`, `SiteBlocks`, `SiteIds` and `SiteIndex` split documents into chunks with unique ids.

A step of a machine is one statement under its row lock, one lock-protected block, or one commit. Everything
outside the program (the clock, randomness, failures of the database and of Redis, cancellation) is a parameter or
a free choice, so the theorems hold for all of it.

Some expectations one might have, or that a comment states, are false of the code. Each is shown by an input or a reachable
state, and the exact condition under which the code does meet it is proved for all inputs.

- Running a rebuild while workers run only ever omits points for a while (`ranking_sync.go`, line 29). It can also
  count them twice: exactly if an event with points is counted in MySQL and can still reach Redis when its row is SET
  (`PipelineRebuild`, `PipelineSyncAll`). What a rebuild overwrote is indeed repaired by the next one.
- The sentinel disappears with the data, so it stands for complete rankings. A flush between the SETs of a rebuild and
  its last step leaves it standing over missing rows: a row is there exactly if it was SET after the last flush.
- A dead-letter report names an unprocessed event: exactly if at most one process works, or none can list anything
  (`PipelineReports`).
- Every registered subscriber ends up with the newest ranking. Those are left behind, and only those, that register
  between the snapshot and the read of the broadcast that last changed the ranking and read before it (`WatcherOrder`).
- A stream never goes back in time. Its second value can, and only that one: exactly if its broadcast read the ranking
  before the subscriber's first read did.
- Once the watcher's loop has returned nobody is registered: exactly if it could subscribe (`WatcherRuns`).
- Only a single line exceeds 1200 runes (`chunk.go`, line 244). Parts of up to 1202 do as well, because the size is
  tested before the separator is added: exactly if some unit fits without its separator and not with it (`SiteBlocks`).

## Model

| member | source | states |
|---|---|---|
| PipelineSafety.ExactlyOnce | internal/driver/worker/outbox/worker.go:387-433 | In every reachable state, whatever mix of batch and per-event transactions, rollbacks, crashes and lost COMMIT acknowledgements led there: each guild score is its start plus the points of its processed events once each, the guild history is exactly one row per processed event, the processed mark and "applied" agree, and no unprocessed event has disappeared. |
| PipelineSafety.AppliedByOneCommit | internal/driver/worker/outbox/worker.go:602-646 | Over a whole run an event is applied by one commit only, whichever workers and paths compete for it. |
| PipelineSafety.SentOnceAfterCommit | internal/driver/worker/outbox/worker.go:332-375 | Over a whole run an event is sent to Redis at most once, and only after its transaction is committed. |
| PipelineSafety.FateIsFinal | internal/driver/worker/outbox/worker.go:354-375 | Every step leaves processed events processed, and an event whose Redis pipeline has run or was lost never becomes pending for Redis again. |
| PipelineSafety.FateLasts | internal/driver/worker/outbox/worker.go:354-375 | The same from any earlier to any later state of a run. |
| PipelineSafety.RedisCountsOnce | internal/infrastructure/redis/ranking_store.go:129-157 | A ZSet score is what was last SET plus each reflected event once, and what was SET is MySQL's starting value plus the events settled in it; only processed events are reflected, none of them still in flight. |
| PipelineSafety.RedisAgainstMySql | internal/driver/batch/ranking_sync.go:20-31 | In every reachable state, rebuilds at any time included, Redis minus MySQL is exactly the points of events that are settled and reflected, minus those of counted events that are neither (in flight, not yet processed, or lost), minus a starting value never SET; a sentinel that no flush undermined rules the last part out. |
| PipelineSyncAll.GroundedIffSet | internal/usecase/ranking/usecase.go:97-106 | Over any run, Redis has MySQL's starting value of a row exactly if the row was SET after the last flush. |
| PipelineSyncAll.FlushDuringRebuild | internal/driver/batch/ranking_sync.go:128-135 | From every reachable state: a flush after the SETs and before MarkInitialized leaves the sentinel standing over an empty Redis, whatever MySQL holds. |
| PipelineSafety.Conservation | internal/usecase/ranking/usecase.go:209-269 | user_points is its start plus the user's history rows, and also its start plus all inserted events; guild_scores plus the unprocessed points (pending or dead-lettered) is its start plus all inserted points; events removed by the GC still count. |
| PipelineSafety.HistoryAddsUp | internal/usecase/ranking/usecase.go:225-233 | A history that records each event once, read row by row, adds up to what the events are worth for a user or a guild, and within a guild for each member. |
| PipelineSafety.GuildHistoryAddsUp | internal/driver/worker/outbox/worker.go:455-477 | In every reachable state the points of a guild's history rows are what its score has gained since the start, and those of one user are the points of that user's processed events for the guild. |
| PipelineSafety.AnswerIsCommitted | internal/usecase/ranking/usecase.go:235-267 | The totals a request answers are the committed ones before and after it, although other requests run at the same time, and the event it leaves decodes to what was scored. |
| PipelineSyncAll.SyncAllSteps | internal/driver/batch/ranking_sync.go:57-141 | The steps of one SyncAll (snapshot, guild SETs, user SETs, sentinel), taken one after the other with any set of them failing, lead to the rebuilt state. |
| PipelineSyncAll.FullRebuild | internal/driver/batch/ranking_sync.go:57-141 | In whatever reachable state it runs, an uninterrupted rebuild that returns nil leaves every row's Redis score equal to MySQL, sets the sentinel, and no processed event is lost to either ranking any more. |
| PipelineSyncAll.PartialRebuild | internal/driver/batch/ranking_sync.go:102-126 | A rebuild with failing SETs raises no sentinel, corrects what it did SET and leaves the rest alone. |
| PipelineRebuild.WhenRedisExceeds | internal/driver/batch/ranking_sync.go:29-31 | From any reachable state, some run without another SET of the row shows more than MySQL exactly if its score, or zero after a flush, plus the counted points whose increments may still come exceeds MySQL's. |
| PipelineRebuild.AfterSet | internal/driver/batch/ranking_sync.go:102-119 | For any SET, however old its snapshot: the row can be exceeded exactly if the snapshot's events still to come are worth more than the later ones that will not come any more (or if even an emptied score can exceed it). |
| PipelineRebuild.AfterFreshSet | internal/driver/batch/ranking_sync.go:29-31 | If the value was up to date when it was SET: exactly if an event of the row with points is counted and eligible, open or in flight at that step, or MySQL's own value is negative. |
| PipelineSyncAll.WhenRebuiltExceeds | internal/driver/batch/ranking_sync.go:29-31 | The same for every row an uninterrupted rebuild SET, in whatever state it ran. |
| PipelineSyncAll.QuietRebuildHolds | internal/driver/batch/ranking_sync.go:31-31 | After a rebuild in a quiet state no run exceeds MySQL (a row that is not negative there). |
| PipelineSyncAll.BusyRebuildExceeds | internal/driver/batch/ranking_sync.go:29-31 | From every reachable state a rebuild and the workers after it reach a state under the sentinel in which a row exceeds MySQL by exactly the counted points that were still to come. |
| PipelineSyncAll.OneRequestCountsTwice | internal/driver/batch/ranking_sync.go:29-31 | So for every configuration with a working worker, one request that commits before a rebuild and is processed after it leaves its user with its points counted twice, under the sentinel. |
| PipelineCatchUp.CatchUp | internal/driver/worker/outbox/worker.go:222-312 | From every reachable state the workers alone can bring every increment that may still come to Redis, losing none. |
| PipelineExcess.PeakFalls | internal/driver/worker/outbox/worker.go:332-375 | No step but a SET of the row or a flush raises the score that Redis can still reach over MySQL. |
| PipelineSafety.RetriesBounded | internal/driver/worker/outbox/worker.go:648-703 | With W worker processes no retry_count exceeds maxRetry - 1 + W; with one it never exceeds maxRetry. |
| PipelineReports.RetriesReachBound | internal/driver/worker/outbox/worker.go:648-703 | For every number W of processes that list anything, a reachable state has a retry_count of exactly maxRetry - 1 + W. |
| PipelineSafety.DeadLetteredOnce | internal/infrastructure/mysql/repository/outbox_repository.go:149-169 | At most one dead-letter report per event over a run; an event has reached maxRetry exactly if the transition was reported or its acknowledgement was lost, never both. |
| PipelineReports.ReportsAreTrue | internal/driver/worker/outbox/worker.go:656-663 | In every reachable state every reported event is present and unprocessed, exactly if at most one process works or the batch size is 0. |
| PipelineReports.OneProcessReportsTruly | internal/driver/worker/outbox/worker.go:656-663 | With one worker process a reported event is present and unprocessed in every reachable state. |
| PipelineReports.TwoProcessesMayReportLate | internal/infrastructure/mysql/sqlc/outbox.sql.go:108-113 | With two or more processes, for every positive batch size and maxRetry, a reachable state has a report naming a processed event: the UPDATE of a retry does not look at processed_at. |
| PipelineTables.StepKeepsMySql | internal/driver/worker/outbox/worker.go:387-433 | Every step keeps: row locks exclusive, no update of guild_scores lost between read and commit, marks and log in agreement, tables balanced. |
| PipelineRedis.StepKeepsRedis | internal/driver/worker/outbox/worker.go:332-375 | Every step, those of rebuilds and flushes included, keeps each ZSet's account and every rebuild's snapshot in order. |
| PipelineRetry.StepKeepsRetry | internal/driver/worker/outbox/worker.go:648-703 | Every step keeps: within a process one goroutine per event, the bound on retry_count plus retries still owed, and one report per crossing. |
| PipelineTables.CommittedBase | internal/driver/worker/outbox/worker.go:410-418 | A commit of a batch or of a single event keeps the marks and every other transaction's view right. |
| PipelineTables.RequestedBase | internal/usecase/ranking/usecase.go:249-259 | Committing a request adds an event no other transaction knows and disturbs none of them. |
| PipelineTables.CollectedBase | internal/infrastructure/mysql/sqlc/outbox.sql.go:57-63 | A GC chunk removes processed rows only and disturbs no open transaction. |
| PipelineRedis.ArrivedLedger | internal/infrastructure/redis/ranking_store.go:146-156 | A pipeline of which an arbitrary part arrives adds exactly the points of the events it reached. |
| Tables.ListPending | internal/infrastructure/mysql/sqlc/outbox.sql.go:143-151 | The listed rows are unlocked, unprocessed, below maxRetry, in ascending id order and at most `limit`; any other such row has a greater id than all of them, and then the limit is used up. |
| Tables.Scan | internal/infrastructure/mysql/sqlc/outbox.sql.go:143-151 | Unlocked eligible rows of an id range, all of them, in ascending id order. |
| BatchWork.BuildBatchWork | internal/driver/worker/outbox/worker.go:438-479 | ids, histories and undecodable events in list order, one history row per decodable event with its guild, its user and its points, one delta per guild and per user with exactly its total, the errors matching the refused events. |
| BatchWork.Spill | internal/driver/worker/outbox/worker.go:468-477 | Ranging over the map yields every key once with its sum, in any order. |
| BatchWork.BatchIsOneByOne | internal/driver/worker/outbox/worker.go:435-479 | For any order of the map's totals and any permutation of the events, adding the totals and adding the events one by one give the same table. |
| BatchWork.GoodCarry | internal/driver/worker/outbox/worker.go:450-460 | The decodable events are exactly those of type ranking_score_added whose payload unmarshals, and the n-th of them carries the n-th score. |
| Domain.DecodeIs | internal/driver/worker/outbox/worker.go:451-455 | Decoding succeeds exactly for that type with such a payload; any other type is refused as unknown whatever its payload, a broken payload as malformed. |
| BatchWork.TotalPermutes | internal/driver/worker/outbox/worker.go:447-466 | A total does not depend on the order of the events. |
| BatchWork.SortAscends | internal/infrastructure/mysql/repository/ranking_repository.go:110-114 | Deltas with distinct guilds come out strictly ascending and otherwise unchanged. |
| BatchWork.SortedTotals | internal/infrastructure/mysql/repository/ranking_repository.go:98-122 | Sorting a copy keeps one delta per guild with its total, now in ascending order. |
| BatchWork.AddDeltasTotals | internal/infrastructure/mysql/sqlc/ranking.sql.go:77-81 | The upsert adds to each named row exactly its deltas and touches no other. |
| BatchWork.TotalsFit | internal/domain/ranking/constants.go:12-16 | While batchSize * MaxScore stays below 2^63 no total of valid scores overflows int64. |
| BatchInPipeline.WindowIsOpened | internal/driver/worker/outbox/worker.go:395-407 | What the batch transaction of the pipeline holds is what buildBatchWork collects from the listed window: its decodable events, and the refused ones apart. |
| BatchInPipeline.UpsertIsCommit | internal/infrastructure/mysql/repository/ranking_repository.go:101-127 | The bulk upsert of the batch's totals leaves guild_scores as the pipeline's commit step does. |
| BatchInPipeline.IncrementsAreReflection | internal/infrastructure/redis/ranking_store.go:137-157 | The batch's ZINCRBYs, all arriving, leave the ZSet as the pipeline's reflection step does. |
| Worker.EachIsBatch | internal/driver/worker/outbox/worker.go:377-433 | Applying events one by one, each in its transaction with its own Redis increments, leaves the same MySQL rows and ZSets as the batch. |
| Worker.GoodThenBad | internal/driver/worker/outbox/worker.go:424-431 | Committing the decodable events as a batch and then recording retries for the rest equals handling the window in list order. |
| WorkerProgress.PotentialFalls | internal/driver/worker/outbox/worker.go:250-257 | Handling a listed window lowers the sum of maxRetry - retry_count over eligible events by at least its size. |
| WorkerProgress.CaughtUp | internal/driver/worker/outbox/worker.go:297-300 | After a short window every event that was eligible and can be applied is processed. |
| WorkerProgress.WorkedEach | internal/driver/worker/outbox/worker.go:481-498 | Over a window each row is processed at most once or has its failures counted, and the totals, histories and reports are those of the newly processed rows. |
| WorkerProgress.NothingEligibleSettles | internal/infrastructure/mysql/sqlc/outbox.sql.go:167-169 | With nothing eligible left, every event that can be applied is processed and every other one has exactly maxRetry failures. |
| WorkerProgress.WindowCosts | internal/driver/worker/outbox/worker.go:299-307 | Of a window's rows each is either processed or has exactly one failure recorded. |
| WorkerLoop.OutboxWorker.constructor | internal/driver/worker/outbox/worker.go:122-147 | MaxRetry and concurrency below 1 become 1 and are otherwise taken as they are. |
| WorkerLoop.OutboxWorker.ListPendingEvents | internal/infrastructure/mysql/repository/outbox_repository.go:52-74 | The event list is the listed rows, field by field, in order. |
| WorkerLoop.OutboxWorker.BulkIncrementGuildScores | internal/infrastructure/mysql/repository/ranking_repository.go:101-127 | Succeeds exactly if every guild exists; then guild_scores is the sorted upsert-add of the deltas. |
| WorkerLoop.OutboxWorker.BulkInsertGuildScoreHistories | internal/infrastructure/mysql/repository/ranking_repository.go:132-151 | Succeeds exactly if every guild and user exists; then the rows are appended in order. |
| WorkerLoop.OutboxWorker.ApplyScoreDeltas | internal/infrastructure/redis/ranking_store.go:137-157 | Both ZSets gain every delta, users and guilds alike. |
| WorkerLoop.OutboxWorker.RecordRetry | internal/driver/worker/outbox/worker.go:665-703 | One failure more on the row, and a dead-letter entry exactly when the new count equals maxRetry. |
| WorkerLoop.OutboxWorker.RecordRetries | internal/driver/worker/outbox/worker.go:427-431 | Each refused event of a batch gets its failure recorded. |
| WorkerLoop.OutboxWorker.ApplyBatch | internal/driver/worker/outbox/worker.go:387-433 | Succeeds exactly if every decodable event of the window can be applied, and then equals handling the window event by event, each guild gaining the points that listed events of type ranking_score_added carry for it and nothing for any other type; otherwise nothing changed. |
| WorkerLoop.OutboxWorker.ApplyEventInTx | internal/driver/worker/outbox/worker.go:709-730 | Applies an event exactly if it is of type ranking_score_added with a payload that decodes and its guild and user exist, adding its points and one history row with its guild, its user and its points. |
| WorkerLoop.OutboxWorker.ProcessOne | internal/driver/worker/outbox/worker.go:602-646 | A claim that finds nothing changes nothing and counts as progress; otherwise the event is processed or, rolled back, has a failure recorded. |
| WorkerLoop.OutboxWorker.ApplyPerEvent | internal/driver/worker/outbox/worker.go:485-498 | Leaves the same store as the batch path would event by event, and counts the events that progressed. |
| WorkerLoop.OutboxWorker.RunOnce | internal/driver/worker/outbox/worker.go:266-312 | Ends with every applicable event caught up, or stalled on a full window of events that cannot be applied, or unfinished with a smaller potential.  If the window at entry is full and nothing in it applies, it is stalled after that one window, each of whose rows has exactly one failure more; in all no more failures are recorded than batchSize for each event processed, and once more. |
| WorkerLoop.OutboxWorker.DrainNow | internal/driver/worker/outbox/worker.go:222-235 | Terminates; not stalled means every event that was eligible and applicable is processed; on a full window of events that do not apply it stalls after one failure each; the same bound on failures. |
| WorkerLoop.OutboxWorker.Run | internal/driver/worker/outbox/worker.go:158-202 | It drains before any trigger, at every tick, and at a notification exactly if the last drain did not stall and the channel is open.  After as many ticks as the potential every applicable event is processed and every other one has used up its retries. |
| WorkerLoop.StatementsSucceed | internal/driver/worker/outbox/worker.go:409-418 | The statements of the batch go through exactly if each decodable event on its own would. |
| WorkerLoop.BatchOutcome | internal/driver/worker/outbox/worker.go:404-432 | The batch transaction, its Redis pipeline and its retries together are the event-by-event handling of the window. |
| Dispatch.DispatchIsExact | internal/driver/worker/outbox/worker.go:532-594 | In every interleaving: ids is closed at most once with no send after it; a nil error means each candidate had exactly one outcome, none an error, and the count is the number that progressed; the error is the first one exactly if some goroutine failed. |
| Dispatch.NeverStuck | internal/driver/worker/outbox/worker.go:570-586 | With at least one goroutine, a run that has not returned always has an enabled step that does not need the parent. |
| Dispatch.RunsAreShort | internal/driver/worker/outbox/worker.go:544-594 | Every interleaving ends within 3 * candidates + concurrency + 3 steps. |
| Dispatch.StepKeepsInv | internal/driver/worker/outbox/worker.go:544-586 | Every step keeps each handed-out candidate in one goroutine's hands or with one outcome. |
| Locks.NoCircle | internal/infrastructure/mysql/repository/ranking_repository.go:98-114 | No chain of batch, listing, per-event, retry, score-request, GC and gacha transactions waiting for each other's row locks comes back to its start. |
| Locks.SomeoneMoves | internal/usecase/gacha/usecase.go:103-114 | As long as transactions are open, one of them can take its next lock, run its INSERT or commit, without any rollback. |
| Locks.PlanClimbs | internal/infrastructure/mysql/sqlc/outbox.sql.go:143-151 | Each transaction's statements ask for rows in one common order: claims that skip locked rows first, guild and item rows ascending, old rows in index order. |
| Locks.PlanAsks | internal/infrastructure/mysql/sqlc/outbox.sql.go:143-151 | Each transaction asks for exactly the rows its statements name. |
| Locks.StepKeepsInv | internal/usecase/gacha/usecase.go:58-62 | Every step keeps locks exclusive and every wanted row after all rows held. |
| Maintenance.RankingSyncer.SyncAll | internal/driver/batch/ranking_sync.go:57-141 | Every row is tried, highest score first, whatever fails; exactly the failing members keep their old score; the error is nil exactly if nothing failed, and only then the sentinel is newly set; the counts are right and the failure reported is that of the first failing row, guilds before users. |
| Maintenance.RankingSyncer.SetAll | internal/driver/batch/ranking_sync.go:102-119 | One pass over the rows: what was written, how many failed, and the failing row with the least index. |
| Maintenance.SyncIsRebuild | internal/driver/batch/ranking_sync.go:82-135 | What SyncAll writes is what the rebuild's steps of the pipeline do one after the other, in any state. |
| Maintenance.OutboxGC.DeleteProcessedBefore | internal/infrastructure/mysql/sqlc/outbox.sql.go:57-63 | Removes only rows with processed_at before the cutoff, the oldest of them, as many as the limit or all; every row unprocessed or processed at or after the cutoff stays as it is. |
| Maintenance.OutboxGC.Run | internal/driver/batch/outbox_gc.go:69-103 | Terminates; only rows with processed_at before the last cutoff go, all are counted; after success no row with processed_at before it is left; an interruption or failure happens after full chunks of 1000 only. |
| ScoreRequest.RankingUsecase.AddUserPoints | internal/usecase/ranking/usecase.go:199-283 | Points are refused exactly outside 0 to 999999999999, and a missing user or guild exactly when the earlier checks passed; history row, points and an event with the same user, guild and points are committed together or not at all; the answered totals are the committed ones. |
| ScoreRequest.RankingUsecase.InTx | internal/usecase/ranking/usecase.go:209-269 | The statements of the transaction on its own view, with the total read back after the addition. |
| ScoreRequest.RequestIsPipelineStep | internal/usecase/ranking/usecase.go:209-269 | The method is the pipeline's two request steps run back to back. |
| Watcher.SubStaysOk | internal/usecase/ranking/watcher.go:322-365 | Under the subscriber's lock no order of push, first push, close and receive blocks, hits a closed channel or closes twice; the newest value is in the channel afterwards. |
| Watcher.WatchSubscriber.Push | internal/usecase/ranking/watcher.go:323-340 | A closed subscriber gets nothing; otherwise an unread value is dropped, reported so, and replaced. |
| Watcher.WatchSubscriber.PushInitial | internal/usecase/ranking/watcher.go:344-353 | Sends only if nothing was sent before and the channel is open. |
| Watcher.WatchSubscriber.Close | internal/usecase/ranking/watcher.go:356-365 | Closes once. |
| Watcher.RankingWatcher.Register | internal/usecase/ranking/watcher.go:137-152 | Refused once stopped; otherwise a new id and an open, empty subscriber, the others untouched. |
| Watcher.RankingWatcher.Remove | internal/usecase/ranking/watcher.go:155-166 | Takes off and closes that subscriber; unknown ids change nothing. |
| Watcher.RankingWatcher.Shutdown | internal/usecase/ranking/watcher.go:169-183 | Stops registration and closes everyone who was registered. |
| Watcher.RankingWatcher.Snapshot | internal/usecase/ranking/watcher.go:217-230 | Every registered subscriber once, and their greatest limit. |
| Watcher.RankingWatcher.CommitIfChanged | internal/usecase/ranking/watcher.go:233-247 | Remembers the keys and says whether they differ. |
| Watcher.RankingWatcher.Broadcast | internal/usecase/ranking/watcher.go:190-214 | One read at the greatest limit; a failed or unchanged one sends nothing; after a changed one each open subscriber's channel holds the first entries fetched, as many as its limit, names included, and the fetched total. |
| Watcher.RankingWatcher.WatchUserRankings | internal/usecase/ranking/watcher.go:117-133 | Registers first and reads afterwards; a failed read takes the registration back; success delivers the first value, cut like a broadcast. |
| Watcher.RankingWatcher.Run | internal/usecase/ranking/watcher.go:85-109 | Leaves through shutdown, with everybody closed, on cancellation and on a lost subscription; not when it could not subscribe. |
| WatcherRuns.ChannelsAreSafe | internal/usecase/ranking/watcher.go:322-365 | In every interleaving no send blocks or meets a closed channel, no channel is closed twice, the first read is only ever the first value, and broadcasts arrive in the order they read. |
| WatcherRuns.ClosedStaysQuiet | internal/usecase/ranking/watcher.go:323-365 | After its close nothing is sent to a subscriber. |
| WatcherValues.ValuesAreReads | internal/usecase/ranking/watcher.go:190-214 | In every interleaving each value a subscriber was sent is the ranking as it stood at the read it came from: its first entries, names included, as many as the subscriber's limit, with its total. |
| WatcherRuns.Convergence | internal/usecase/ranking/watcher.go:190-247 | Between broadcasts, an open subscriber from the snapshot of the broadcast that last changed `last` was last sent the first `limit` entries of `last`, whatever failed or was suppressed since. |
| WatcherRuns.UpToDate | internal/usecase/ranking/watcher.go:190-247 | And if it is still registered, that is the ranking as the latest successful broadcast read it, down to its limit. |
| WatcherRuns.OutsidersWait | internal/usecase/ranking/watcher.go:114-132 | A registered subscriber outside that snapshot has been sent nothing but its own first read. |
| WatcherRuns.ShutdownClosesAll | internal/usecase/ranking/watcher.go:169-183 | Once Run, past Subscribe, has returned, nobody is registered and every subscriber ever made is closed or about to be closed by its remover. |
| WatcherOrder.OnlyLateAreLeftBehind | internal/usecase/ranking/watcher.go:190-214 | Between broadcasts, a registered subscriber that was sent anything was last sent something read before the broadcast that last changed `last` exactly if it registered between that broadcast's snapshot and its read, and its own first read came before the broadcast's. |
| WatcherRuns.OutsiderCanBeStale | internal/usecase/ranking/watcher.go:190-214 | That does happen: such a subscriber can stay on an older ranking that later broadcasts do not correct. |
| WatcherOrder.OnlySecondCanBeOlder | internal/usecase/ranking/watcher.go:342-353 | In every interleaving every value from the third on is newer than the first, and from the second on the values are in the order they were read: only the second can go back in time. |
| WatcherOrder.SecondIsOlder | internal/usecase/ranking/watcher.go:342-353 | It does exactly if its broadcast read the ranking before the subscriber's first read did. |
| WatcherRuns.FirstValueCanBeNewer | internal/usecase/ranking/watcher.go:342-353 | That does happen: a first read can be followed by the older ranking of a broadcast in flight. |
| WatcherRuns.OpenAfterRun | internal/usecase/ranking/watcher.go:85-109 | Once Run has returned, a subscriber can still become or stay registered exactly if Run could not subscribe. |
| WatcherRuns.FailedSubscribeStaysOpen | internal/usecase/ranking/watcher.go:86-89 | A reachable state in which Run has failed to subscribe and an open subscriber is registered. |
| Rankings.TruncateTwice | internal/usecase/ranking/watcher.go:185-214 | Reading at the greatest limit and cutting down is reading at one's own. |
| Rankings.KeysOfTruncated | internal/usecase/ranking/watcher.go:264-270 | Cutting a result cuts its comparison keys at the same place. |
| Rankings.Truncate | internal/usecase/ranking/watcher.go:264-270 | The first entries as they are, names included, as many as the limit or all, and the same total. |
| Rankings.Keys | internal/usecase/ranking/watcher.go:233-237 | Id, rank and score of each entry, in order. |
| Rankings.NormalizeLimit | internal/domain/ranking/constants.go:55-63 | Below 1 becomes 10, above 100 becomes 100, anything else stays. |
| Rankings.NormalizeOffset | internal/domain/ranking/constants.go:66-71 | Negative becomes 0, anything else stays. |
| Decimal.ParseFormat | internal/infrastructure/redis/ranking_store.go:160-161 | A member reads back as the id it was made from. |
| Decimal.FormatShape | internal/infrastructure/redis/ranking_store.go:160-161 | A member has a minus sign exactly for a negative id, no plus sign, and no leading zero. |
| Decimal.ParseShape | internal/infrastructure/redis/ranking_store.go:212-216 | Only digits after at most one sign are taken for an id, and only in range. |
| ZSet.RankedLists | internal/infrastructure/redis/ranking_store.go:202-202 | The listing has every member once, by score and then by member, both descending. |
| ZSet.RankedDescends | internal/infrastructure/redis/ranking_store.go:202-202 | A later member has a smaller score, or the same score and is the smaller string. |
| ZSet.LexLessIs | internal/infrastructure/redis/ranking_store.go:202-202 | Of two strings the first differing rune decides; with none, the shorter one is smaller. |
| ZSet.OneListing | internal/infrastructure/redis/ranking_store.go:202-202 | That order leaves no choice. |
| ZSet.PositionCounts | internal/infrastructure/redis/ranking_store.go:172-182 | A member's position is the number of members above it. |
| RankingReads.PageIs | internal/infrastructure/redis/ranking_store.go:198-224 | With canonical members an entry of a page is its position in the listing, rank included, and the page has the length it should. |
| RankingReads.PagesJoin | internal/infrastructure/redis/ranking_store.go:198-224 | Two pages in a row are one longer page. |
| RankingReads.PagesShowEveryone | internal/infrastructure/redis/ranking_store.go:198-224 | Enough consecutive pages show every member exactly once with ranks 1 to n and its score. |
| RankingReads.RankAgrees | internal/infrastructure/redis/ranking_store.go:172-182 | The rank read alone is 0 for nobody, else one more than the number above, and the one shown in the page. |
| RankingReads.LongestPageServesAll | internal/usecase/ranking/watcher.go:187-213 | Reading the longest page and truncating gives what each limit would have read. |
| RankingReads.NamesDoNotCount | internal/usecase/ranking/watcher.go:57-66 | Filling in names changes no comparison key. |
| RankingReads.RankingStore.GetUserRankings | internal/infrastructure/redis/ranking_store.go:198-224 | The loop gives the page, skipping members that are not numbers without shifting ranks. |
| RankingReads.RankingStore.GetUserRank | internal/infrastructure/redis/ranking_store.go:172-182 | One-based rank, 0 if absent. |
| RankingReads.RankingStore.SetUserPoints | internal/infrastructure/redis/ranking_store.go:160-169 | Afterwards that user has that score and the rank of one more than the members ahead of it, every other id keeps its score, and canonical members stay canonical. |
| RankingReads.RankingStore.SetGuildScore | internal/infrastructure/redis/ranking_store.go:54-63 | The same for a guild. |
| RankingReads.RankingStore.ApplyScoreDeltas | internal/infrastructure/redis/ranking_store.go:137-157 | Whatever part of the pipeline is executed, each id gains exactly the deltas that arrived for it, nobody else moves, members stay canonical; nil exactly if all arrived. |
| RankingReads.RankingStore.Increment | internal/infrastructure/redis/ranking_store.go:146-152 | The commands of one ZSet, of which any may be missing. |
| RankingReads.RankingUsecase.GetUserRankings | internal/usecase/ranking/usecase.go:286-325 | Which reads are made in which order and what each failing one answers; unavailable without the sentinel; otherwise the normalized page with names and the total count. |
| RankingReads.RankingUsecase.GetUserRank | internal/usecase/ranking/usecase.go:328-363 | The errors of the reads and of missing data in order, else points, total and a rank that is one more than the number of users above. |
| Gacha.ExactWeights | internal/usecase/gacha/usecase.go:138-166 | Of all rolls in [0, total), exactly max(weight, 0) select a position. |
| Gacha.SelectsOne | internal/usecase/gacha/usecase.go:151-164 | Every roll selects exactly one position, and one with a positive weight. |
| Gacha.Draw | internal/usecase/gacha/usecase.go:139-166 | No positive weight is an error; otherwise exactly `count` items, each the one its roll selects. |
| Gacha.AggregateById | internal/usecase/gacha/usecase.go:169-175 | Each drawn id with the number of times it was drawn. |
| Gacha.SortedKeys | internal/usecase/gacha/usecase.go:179-181 | The keys, strictly ascending. |
| Gacha.AggregationIsFaithful | internal/infrastructure/mysql/repository/gacha_repository.go:100-119 | One upsert row per distinct item writes what one grant per draw would have. |
| GachaLedger.UpsertRows | internal/usecase/gacha/usecase.go:106-111 | Strictly ascending by item, one row per drawn item, quantities summing to the number of pulls. |
| GachaLedger.GachaUsecase.Multi | internal/usecase/gacha/usecase.go:65-136 | Each error exactly under its own condition; a pull of 1 to 10 draws is committed whole or not at all and reported as success only then, costing 100 gems a draw, granting one item a draw and recording one history row a draw. |
| GachaLedger.GachaUsecase.InTx | internal/usecase/gacha/usecase.go:84-131 | The transaction's statements on its own view of the tables. |
| GachaLedger.LedgerBalances | internal/usecase/gacha/usecase.go:57-62 | In every interleaving of pulls: gems + 100 per recorded pull never changes, gems stay non-negative, and what a user owns grew by exactly what the histories say was drawn. |
| SiteText.JoinSplit | scripts/sitegen/chunk.go:276-281 | Splitting and joining give the text back. |
| SiteText.BodyIsNormal | scripts/sitegen/chunk.go:297-301 | A normalized body is empty or has no run of three line breaks and none at its ends. |
| SiteText.BodyKeepsInk | scripts/sitegen/chunk.go:297-301 | And it has all the runes of the lines that are not space, in order. |
| SiteText.CollapseRun | scripts/sitegen/chunk.go:299-299 | A run of one or two line breaks between text stays, a longer one becomes exactly two, and what is around it is collapsed by itself. |
| SiteText.CollapseLeavesNormal | scripts/sitegen/chunk.go:299-299 | A text without a run of three is left as it is. |
| SiteText.TrimKeepsInk | scripts/sitegen/chunk.go:300-300 | Trimming cuts off space only. |
| SiteBlocks.SplitBlocks | scripts/sitegen/chunk.go:249-293 | The loops over paragraphs and lines compute the packing that the following lemmas are about. |
| SiteBlocks.Add | scripts/sitegen/chunk.go:261-274 | The closure is one packing step: a unit that does not fit closes the part, and only its separator is dropped. |
| SiteBlocks.BlocksRestore | scripts/sitegen/chunk.go:240-248 | For a normalized text the parts, with the dropped line breaks put back between them, are the text. |
| SiteBlocks.BlocksFit | scripts/sitegen/chunk.go:240-248 | For any text no part exceeds 1202 runes unless it is a single line. |
| SiteBlocks.BoundIsKept | scripts/sitegen/chunk.go:240-248 | For any text: every part has at most 1200 runes or is a single line, exactly if no unit is added to a part that it fits without its separator and not with it. |
| SiteBlocks.TwoLinesOverflow | scripts/sitegen/chunk.go:261-274 | Every text of two lines with a blank line between them whose sizes add up to at most 1200, but not with the separator, is one part over the bound. |
| SiteBlocks.BoundIsReached | scripts/sitegen/chunk.go:261-274 | A text of two paragraphs of 600 runes is one part of 1202. |
| SiteBlocks.BlocksTight | scripts/sitegen/chunk.go:259-267 | A part is only closed because the next paragraph or line did not fit. |
| SiteIds.Slugify | scripts/sitegen/chunk.go:311-324 | Rune by rune of the lowered title: a space becomes a dash, dashes, underscores, a-z, 0-9 and runes above 127 stay, the latter but for U+3000-303F, U+30FB and U+FF01-FF60, everything else goes; then the dashes at the ends, and only they, are cut off. |
| SiteIds.Pigeonhole | scripts/sitegen/chunk.go:208-210 | As many numbered candidates as have been tried are different anchors in use. |
| SiteIds.FreeAnchor | scripts/sitegen/chunk.go:207-210 | The numbering loop terminates with the first candidate not in use. |
| SiteIds.AssignIds | scripts/sitegen/chunk.go:200-216 | In place: each anchor is the first numbering of its heading's slug (of nothing for a preamble) that no earlier chunk has, without `#` or `@`; ids are made of path and anchor, nothing else changes. |
| SiteIds.AnchorsDiffer | scripts/sitegen/chunk.go:197-199 | So no two chunks of a file share an anchor. |
| SiteIds.SplitChunk | scripts/sitegen/chunk.go:223-235 | The pieces of one chunk: its parts in order, ids numbered from the second on. |
| SiteIds.SplitLong | scripts/sitegen/chunk.go:220-238 | All pieces in order, each traced to its chunk and part; the parts of a normalized chunk make up its text and respect the bound. |
| SiteIds.IdsDetermine | scripts/sitegen/chunk.go:213-232 | Equal ids mean the same path, anchor and part, whatever characters the path has. |
| SiteIndex.Sections | scripts/sitegen/chunk.go:97-157 | The chunks are, in order, the sections that have text, where a new section begins at every heading outside fences; each has its section's text, the title of the section's own heading and, as breadcrumbs, the headings it is under; the runes of the kept lines that are not space are all there, section by section and in order. |
| SiteIndex.SectionsCover | scripts/sitegen/chunk.go:112-143 | There is one section more than headings, and together they are the kept lines: fences verbatim, diagrams and headings not, prose cleaned. |
| SiteIndex.SectionsStand | scripts/sitegen/chunk.go:145-155 | A line belongs to the section of the last heading before it: later lines change no earlier section and only extend the current one. |
| SiteIndex.FilledAre | scripts/sitegen/chunk.go:102-110 | The sections numbered are exactly those with text, in order. |
| SiteIndex.BuildTrail | scripts/sitegen/chunk.go:184-192 | The file and the non-empty titles, joined. |
| SiteIndex.Descend | scripts/sitegen/chunk.go:149-154 | Setting a level and clearing those below leaves, at every level, the heading a position is under. |
| SiteIndex.ChunkDocument | scripts/sitegen/chunk.go:97-160 | A document's chunks respect the bound and have pairwise different ids; each is a part of one section, with that section's title and breadcrumbs; the parts of a section make its text up again, and no rune of the kept lines that is not space is lost or moved. |
| SiteIndex.IndexIdsUnique | scripts/sitegen/chunk.go:14-16 | No two chunks of an index over documents with different paths share an id. |

## Left out

- Timeouts and the tick deadline: a deadline is a free choice after a window that made progress; durations are not modelled.
- NOW(6): one value per drain in `WorkerLoop`, an arbitrary value per commit in `Pipeline`.
- Foreign keys beyond "the guild and the user exist", gap locks and index locks: `Locks` has row locks only, and takes a GC chunk's rows along the (processed_at, id) index.
- float64 scores in Redis: exact integers here; scores beyond 2^53 would round.
- JSON: decoding is a partial function on payloads. Undecodable rows enter the pipeline as an insert by some other writer.
- WorkerLoop.OutboxWorker.Run: one process without failing infrastructure, over a finite history of triggers; failures and other processes are in `Pipeline`.
- WorkerLoop.OutboxWorker.RecordRetry: never fails here; that it is best effort, and what a failing one leaves, is in `Pipeline`.
- WorkerLoop.OutboxWorker.RecordRetries: never fails here, as RecordRetry.
- WorkerLoop.OutboxWorker.ApplyBatch: only a missing guild or user fails it; failing statements, commits and Redis are steps of `Pipeline`.
- WorkerLoop.OutboxWorker.ProcessOne: claims, marks and commits do not fail; the same.
- WorkerLoop.OutboxWorker.RunOnce: no failing infrastructure, and the tick deadline strikes only after a window that made progress.
- WorkerLoop.OutboxWorker.DrainNow: no failing infrastructure and no cancellation by the parent.
- WorkerLoop.OutboxWorker.ApplyPerEvent: takes the candidates in list order; their interleaving over goroutines is in `Dispatch` and `Pipeline`.
- WorkerLoop.OutboxWorker.ApplyScoreDeltas: all increments arrive; partial arrival is in `Pipeline` and RankingReads.RankingStore.ApplyScoreDeltas.
- Watcher.RankingWatcher.Broadcast: nothing else runs meanwhile; what may is in `WatcherRuns`.
- Watcher.RankingWatcher.WatchUserRankings: nothing runs between registration and first value; what may is in `WatcherRuns`.
- Watcher.RankingWatcher.Run: nobody registers or leaves between the signals; who may is in `WatcherRuns`.
- WatcherRuns: the deregistration of cancellation callbacks; a remover may run at any time and any number of times.
- Logging, log sampling, the notifications that wake workers and watchers, and the health check.
- ScoreRequest.RankingUsecase.AddUserPoints: the `reason` column and the notification after the commit.
- The guild rankings' read paths, which are the users' with another key.
- RankingReads.PageIs: pages over members that are not numbers skip them; the theorems about whole rankings are for canonical members, which every write of the store keeps.
- GachaLedger.GachaUsecase.Multi: int32 columns; a balance only falls and quantities are at most ten per pull.
- SiteIndex.Sections: the regular expressions, lower-casing and the Unicode space table are functions of a line or a rune, with nothing assumed of them but that a line break is a space and heading levels are 1 to 6.
- HTTP and gRPC handlers, configuration, the seeder, the checking scripts, the web client and its proxy.
