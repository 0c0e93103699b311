# Notification system: a verified model

The system accepts notification requests, keeps them as rows in PostgreSQL, carries their jobs
through nine Redis lists (three channels, three priorities) and one Redis sorted set, and delivers
them with concurrent workers that retry a failed send at most three times. No function owns a
notification: creators, workers, schedulers, cancellations and recounts each do a few separate
statements and commands, some guarded by the row's status and some not. This project models those
statements and commands one by one and proves what holds in every interleaving of them.

## How the model is built

**State and steps.** `Model` holds the tables, the Redis structures, what every goroutine is in the
middle of, and the histories the properties speak of (sends, accepted sends, pushes, pops, answers).
`Machine` defines the events: one SQL statement, one Redis command, or one local move each. Any
goroutine may crash at any point; any call may fail without effect (`Lost`) or take effect and report
an error (`Late`); the clock advances and cache entries expire at any moment. A run is a sequence of
enabled events from empty stores (`Runs`, `After`, `Reachable`). `Clean` events are those in which
nothing fails.

**Invariants.** `Copies` ties every list slot, every member of the sorted set and every goroutine's
hand to one place per notification. `Delivery` relates, for each notification, row, history and the
stage of its copy. Both are proved step by step and lifted to runs in `Guarantees`. `Idempotency`,
`Fifo`, `Batches`, `Settlement` and `Metering` do the same for the cache, the order of the lists, the
batch counters and the process counters. `Laws` says in figures what single commands do to the stores
and to the histories. `Completion` shows that work can always be finished, `Fate` how it ends;
`StaleCounters` holds complete runs that end with a wrong counter.

**Code.** `Worlds.World` is the running system as an object: before every command of the goroutine
under study, a script gives the other goroutines, the clock and the failures their turn. `Workers`
(worker pool), `Queues` (queue manager and scheduler) and `Handlers` (creation, batches,
cancellation) are the methods of the source, command by command over a `World`. Every method
continues the run of the machine, whatever the script does, so all theorems about reachable states
and about runs hold for it (`OutcomesSurvive` spells two of them out); and in a calm world, where
nobody interferes and nothing fails, it has the effect its contract spells out.

**Smaller parts.** `Backoff` (int64 retry delay), `Metrics` (latency window, exchange sort,
percentile), `Migrations` (concurrent migration runners) and `Listing` (filters to parametrised SQL,
and paging) stand beside the machine.

## What turned out not to hold

- A cancellation can be lost: the scheduler reads `scheduled`, the cancellation commits, and the
  scheduler's unguarded write puts the row back to `queued` (internal/worker/pool.go:86-100). The API
  describes a cancelled notification as cancelled. `CancelIsFinal` gives the exact condition,
  `CancelCanBeLost` a run.
- The counters of a batch need not be right when all work is done: CreateBatch's final UPDATE
  (internal/api/handlers/notifications.go:108-113) may overwrite a recount, and nothing recounts
  afterwards. `FinalCounters` gives the exact condition, `CountersCanStayWrong` a run.
- A batch whose requests all carry idempotency keys of existing notifications gets no row, counts
  every request as created, and keeps that number as `pending` for ever, without any race or failure
  (internal/api/handlers/notifications.go:94-113). `OverwriteFirst` gives the exact condition,
  `AnsweredRequestsStayPending` a run.
- The int64 retry delay differs from the documented one for the 31st retry and most later ones.
  `DelayIsIdeal` says for which; `FourSends` that only the first three are ever used.
- A page number so large that the int64 offset wraps around to a number within the selection shows
  rows of another page. `ListIsRight` gives the exact condition, `WrappedPage` a page.
- A list query that breaks while its rows are read is answered as a success with the rows read so
  far, because the error is not looked at after the loop (internal/api/handlers/notifications.go:251-276).
  `BrokenListIsRight` says exactly when the answer is right all the same.

## Assumptions

- A statement or command takes effect at most once and atomically; client libraries do not resend.
- All processes read one clock that never goes back. New UUIDs are new.
- Both stores start empty, and only this program writes to them.
- An error that PostgreSQL finds while it executes a query, such as a negative OFFSET, reaches the
  program only when it reads the rows, as version 5 of the pgx driver documents.

## Model

| member | source | states |
|---|---|---|
| Guarantees.AtMostOneCopy | internal/worker/pool.go:78-144 | In every reachable state a notification has at most one job copy among all list positions, members of the sorted set and positions in goroutines' hands |
| Copies.HasCopy | internal/worker/pool.go:78-144 | A copy exists in some slot exactly when the recorded place of the notification is a place |
| Copies.LegalKeeps | internal/worker/pool.go:78-107 | Every command that moves a copy takes it from exactly one place, so the one-copy invariant survives it |
| Delivery.DeliveryStep | internal/worker/pool.go:146-237 | Each event, with any fault or crash, keeps the per-notification invariant and advances every notification legitimately |
| Guarantees.SendBudget | internal/worker/pool.go:157-227 | Exact numbers of sends and accepted sends for every status: retry_count for queued, scheduled and cancelled, at most one more while processing, max_retries + 1 for failed, one accepted for delivered and none for failed or cancelled; published at most once, put back from cancelled at most once |
| Guarantees.FourSends | internal/worker/pool.go:351-361 | Every row has max_retries 3, no notification is sent more than four times, and a failed one was sent exactly four times without acceptance |
| Guarantees.OutcomesAreFinal | internal/worker/pool.go:199-296 | A delivered or failed row never changes again, although two statements have no status guard |
| Guarantees.StatusDiagram | internal/worker/pool.go:85-296 | The only changes of status that ever occur, in every reachable state and event: failed and delivered only from processing, queued only from scheduled, processing or cancelled, processing only from queued |
| Guarantees.UnguardedWrites | internal/worker/pool.go:202-205 | The unguarded write to failed always finds the row processing, and the scheduler's unguarded write to queued finds it scheduled or cancelled |
| Guarantees.AcceptedOnce | internal/worker/pool.go:176-193 | After the provider accepts a send there is no further send in any continuation, even if the row is never marked delivered |
| Guarantees.CancelHolds | internal/api/handlers/notifications.go:292-304 | A cancelled row that no scheduler is about to overwrite stays cancelled and is never sent again |
| Guarantees.CancelIsFinal | internal/worker/pool.go:86-100 | A cancelled notification stays cancelled in every continuation if and only if no scheduler has already read its status as scheduled |
| Guarantees.CancelCanBeLost | internal/worker/pool.go:86-100 | There is a reachable cancelled notification that some continuation puts back to queued |
| Guarantees.NoSendDuringCancel | internal/api/handlers/notifications.go:292-304 | When a cancellation takes effect no worker is sending the notification or deciding about its outcome |
| Guarantees.SendsAreDue | internal/worker/pool.go:217-236 | A send starts only on a processing row without an accepted send, less than a second early, and after a failure later than that failure plus the delay less one second |
| Guarantees.RetriesArePaced | internal/worker/pool.go:211-236 | The first, second and third retry come more than 9, 19 and 39 seconds after the failure before them, which is the documented 10, 20 and 40 seconds less one |
| Guarantees.ScheduledSendIsNotEarly | internal/worker/pool.go:370-409 | A notification created for an instant has its first send less than a second before it at the earliest, over any run |
| Guarantees.MovesBurnFuel | internal/worker/pool.go:78-237 | Along any run the moves of a copy plus the remaining fuel never exceed the initial fuel |
| Guarantees.MovesAreBounded | internal/worker/pool.go:78-237 | Whatever fails and whatever the provider answers, a copy changes stage at most 16 * (max_retries + 1 - sends) + 13 times |
| Guarantees.NoLostWork | internal/worker/pool.go:78-237 | In runs without crash or failed call every unfinished notification has a copy somewhere |
| Guarantees.ScheduledIsNotLive | internal/worker/pool.go:370-409 | A scheduled notification is never in a live list nor with a worker |
| Idempotency.CacheIsTransparent | internal/worker/pool.go:334-399 | For any number of creators with one key and any expiry or failure of the cache: one row per key, published at most once, and every successful answer and every cache entry names that row |
| Idempotency.KeyIsSetOnce | internal/queue/manager.go:164-191 | Only a storing CheckIdempotency sets a key, to the id it carries, and the entry stays until it expires |
| Idempotency.OneWinner | internal/queue/manager.go:173-183 | Within one lifetime of an entry exactly one storing call wins, and the entry keeps its id |
| Fifo.FirstInFirstOut | internal/queue/manager.go:30-33 | For every list, pops followed by contents equal pushes, in order |
| Fifo.UrgentFirst | internal/queue/manager.go:71-98 | When DequeueNext takes a job, every more urgent job of the channel waiting when the call began has been popped, whatever others push and pop meanwhile |
| Batches.RecountConserves | internal/worker/pool.go:322-329 | A batch never has more rows than total, so GREATEST never acts; a recount's delivered and pending count exactly its delivered and its unfinished rows, and delivered + failed + pending + cancelled rows equal total |
| Batches.DeliveredNeverOverstated | internal/worker/pool.go:322-329 | The stored delivered is never more than the delivered rows, whatever goes wrong |
| Settlement.DeliveredIsExact | internal/worker/pool.go:278-330 | Without failures the stored delivered is right whenever no worker is between its own delivered write and the recount that follows it, whoever else is about to recount the batch |
| Settlement.AllFinished | internal/worker/pool.go:146-237 | Without failures every notification is in a terminal status once nobody is busy and nothing waits |
| Fate.FateIsDecided | internal/worker/pool.go:146-237 | In a system left to itself without failures, a notification not yet sent is delivered by the first of four sends that the provider accepts, and fails after exactly four if there is none, for every sequence of answers and every interleaving |
| Fate.DeliveredByTheFourth | internal/worker/pool.go:199-237 | There is a run in which a notification is rejected three times and delivered by its fourth send |
| Completion.WorkCanFinish | internal/worker/pool.go:78-237 | Every reachable state, whatever failed before, has a continuation without failures, new requests or cancellations after which nobody is busy and nothing waits, whatever the provider answers to each send and however each remaining request of an open batch is judged |
| Completion.EveryoneCanFinish | internal/worker/pool.go:78-237 | As long as nothing has failed, there is such a continuation in which every notification reaches a terminal status, for every sequence of answers and judgements |
| Completion.Finish | internal/worker/pool.go:146-237 | Any goroutine can finish what it is doing, in at most the given number of moves, while the others stand still |
| Completion.Drain | internal/worker/pool.go:78-144 | With nobody busy, rounds of workers and of the scheduler empty the queues, each using up fuel of the notifications, for every sequence of answers |
| Settlement.FinalCounters | internal/api/handlers/notifications.go:84-113 | When all work is done the counters equal a recount if and only if a recount came after CreateBatch's overwrite or CreateBatch created nothing |
| Settlement.OverwriteFirst | internal/api/handlers/notifications.go:108-113 | If the overwrite comes before any member ends, then once all work is done the counters equal a recount, with pending 0, if and only if the batch has a row or CreateBatch counted none as created |
| Settlement.MemberlessStaysPending | internal/api/handlers/notifications.go:100-113 | A batch without rows keeps the count of its answered requests as pending in every continuation without failures, and its counters equal a recount only if that count is 0 |
| StaleCounters.CountersCanStayWrong | internal/api/handlers/notifications.go:108-113 | A run without failures ends with pending = 1 for a batch whose only row is cancelled |
| StaleCounters.AnsweredRequestsStayPending | internal/api/handlers/notifications.go:94-113 | A run without failures ends with pending = 1 for a batch that has no rows, its one request having found an existing notification |
| Metering.CountersConserve | internal/worker/pool.go:176-211 | For one process with no worker in mid-step: sent + failed = sends, failed = retried + given up, sent >= rows it marked delivered, over any interleaving |
| Metering.Balance | internal/worker/pool.go:176-211 | For each stage of a delivery, workers that began it are those that ended it and those still in it |
| Worlds.World.Step | internal/worker/pool.go:146-237 | One command by a goroutine: the others' turn, then exactly the machine's move from the state met |
| Worlds.RunGoesOn | internal/worker/pool.go:146-237 | What a method adds to the log is a run from the state it found |
| Worlds.OutcomesSurvive | internal/worker/pool.go:146-296 | Over any method call and any interference, delivered and failed rows stay as they are, and what was accepted is not sent again |
| Worlds.World.Insert | internal/worker/pool.go:376-385 | The INSERT of a row under an id no row has |
| Laws.FaultsAreHonest | internal/worker/pool.go:146-237 | A command lost changes neither store; one whose error comes late changes both stores exactly as a successful one |
| Laws.AnythingMayFail | internal/worker/pool.go:59-144 | Any goroutine may crash, any cache entry expire and any command meet any fault in every state; a crash loses what is in hand and nothing else |
| Laws.StatusSets | internal/worker/pool.go:91 | The statuses named in the statements: claimable pending and queued (pool.go:265), cancellable also scheduled (notifications.go:294), final cancelled, delivered and failed; pending counts all others (pool.go:327) |
| Laws.FirstFullIs | internal/queue/manager.go:89-97 | The blocking pop serves the most urgent non-empty list of the channel, and nothing exactly if all are empty |
| Laws.SweepFinds | internal/queue/manager.go:131-139 | A scheduler finds exactly the members whose score is at most the Unix second of its clock reading, once each, by ascending score |
| Laws.InsertDecides | internal/worker/pool.go:370-385 | Every INSERT that takes effect makes a row that is scheduled exactly if its instant is later than the clock reading, else queued, with retry_count 0 and max_retries 3, and its creator is to publish it accordingly |
| Laws.PublishDecides | internal/worker/pool.go:401-409 | Publishing puts a timed job into the sorted set under its Unix second, any other at the end of its list |
| Laws.PublicationsAreCounted | internal/worker/pool.go:401-409 | The history counts a publication exactly when a created job reaches a queue |
| Laws.SuccessIsAnswered | internal/worker/pool.go:334-411 | A keyed call of CreateBatch that succeeds has its answer recorded under its key |
| Laws.RevivalsAreCounted | internal/worker/pool.go:95-100 | The history counts every write that puts a cancelled notification back to queued |
| Workers.Process | internal/worker/pool.go:146-196 | One delivery attempt: in a calm world it sends exactly a claimable row, which gets the outcome the answer calls for and a final outcome has its batch recounted; a rejected one is queued with one more retry and its job waits 10, 20 or 40 seconds, or it fails after three retries; exactly the sends are counted |
| Workers.RejectedSend | internal/worker/pool.go:199-236 | In figures: fewer than three retries queue the row with one more and its job for 10, 20 or 40 seconds later, three make it fail |
| Workers.MarkAndSend | internal/worker/pool.go:170-196 | From the compare-and-set on: in a calm world a row that is not claimable changes nothing, a claimable one is sent |
| Workers.Attempt | internal/worker/pool.go:176-196 | A send with its latency, its counters, its outcome and the recount of its batch |
| Workers.Conclude | internal/worker/pool.go:180-193 | The answer to a send is counted and leads to markDelivered or handleFailure |
| Workers.HandleFailure | internal/worker/pool.go:199-237 | The last failure makes the row failed and recounts the batch; any other queues the row with the next retry_count and schedules the job after the delay |
| Workers.GiveUp | internal/worker/pool.go:202-209 | updateStatus to failed, then the recount of its batch |
| Workers.CurrentDeliveryState | internal/worker/pool.go:304-311 | Status, retry_count and max_retries as read from the row |
| Workers.MarkProcessing | internal/worker/pool.go:261-276 | Succeeds exactly on a queued or pending row, which becomes processing |
| Workers.Reject | internal/worker/pool.go:199-217 | The failed send leads to giving up or to a job set for the clock reading plus the delay |
| Workers.UpdateRetry | internal/worker/pool.go:221-228 | Only a processing row becomes queued with the new retry_count; the job is rescheduled even if the statement fails |
| Workers.UpdateToFailed | internal/worker/pool.go:239-259 | The row becomes failed whatever its status |
| Workers.MarkDelivered | internal/worker/pool.go:278-296 | Exactly a processing row becomes delivered, and its batch is recounted; otherwise it fails and nothing changes |
| Workers.UpdateBatchCounters | internal/worker/pool.go:313-330 | The batch of the notification, if any, gets the counters of a recount; nothing else changes |
| Workers.EnqueueScheduled | internal/queue/manager.go:40-52 | The job joins the sorted set with the second of scheduled_at as score |
| Queues.Probe | internal/queue/manager.go:79-86 | RPOP takes the oldest job of the list, if there is one |
| Queues.Block | internal/queue/manager.go:89-97 | BRPOP takes the head of the first non-empty list, or returns nothing |
| Queues.DequeueNext | internal/queue/manager.go:71-98 | Without interference the head of the first non-empty list in order high, normal, low is taken |
| Queues.DueJobs | internal/queue/manager.go:131-139 | Exactly the members with a score up to now, each once, by ascending score |
| Queues.Claim | internal/queue/manager.go:147-150 | A member is claimed exactly when its removal succeeds |
| Queues.ClaimAll | internal/queue/manager.go:145-157 | Without interference all members found are claimed and removed |
| Queues.PopDueScheduled | internal/queue/manager.go:130-160 | Without interference exactly the due members are returned, by ascending score, and removed; in any case no notification is returned twice |
| Queues.CurrentStatus | internal/worker/pool.go:298-302 | The status of the row; a missing or terminal row gives the job up |
| Queues.UpdateToQueued | internal/worker/pool.go:250-258 | The row becomes queued whatever its status |
| Queues.PushBack | internal/queue/manager.go:22-36 | The job joins the end of the list of its channel and priority |
| Queues.Release | internal/worker/pool.go:85-106 | A due job of an open row goes back to its list, a scheduled row becomes queued, a terminal row's job is dropped |
| Queues.ReleasedRows | internal/worker/pool.go:85-106 | Releasing due jobs turns exactly their rows that were scheduled into queued, and changes no other row |
| Queues.ReleasedLists | internal/worker/pool.go:102-105 | Releasing due jobs appends to every list exactly those of its jobs whose row is not in a final status |
| Queues.ProcessScheduled | internal/worker/pool.go:78-107 | Without interference exactly the due jobs leave the sorted set, each once; exactly their scheduled rows become queued, every list gains exactly its jobs of unfinished rows, those due earlier first, and nothing else changes |
| Queues.Wait | internal/worker/pool.go:135-140 | The limiter lets the job pass, or the job is given up |
| Queues.WorkOnce | internal/worker/pool.go:112-143 | One round of a worker serves the most urgent job, or only takes it off its list if the limiter gives it up; it counts exactly a send |
| Handlers.Lookup | internal/queue/manager.go:164-171 | The id cached for the key, if the call succeeds |
| Handlers.FetchById | internal/worker/pool.go:414-416 | A cached id always finds its row, which holds the key |
| Handlers.InsertRow | internal/worker/pool.go:370-385 | The row is scheduled exactly for a future instant, else queued; a taken key makes the INSERT fail |
| Handlers.FetchByKey | internal/worker/pool.go:386-389 | The row that holds the key |
| Handlers.GetKey | internal/queue/manager.go:167-170 | The key is absent, or names the row the caller carries |
| Handlers.SetKeyOnce | internal/queue/manager.go:173-177 | SETNX stores the id for an absent key and leaves a present one alone |
| Handlers.StoreKey | internal/queue/manager.go:164-191 | A storing call that loses is answered the very id it carries |
| Handlers.PublishJob | internal/worker/pool.go:401-409 | The new job goes to the sorted set or to its list |
| Handlers.PublishNew | internal/worker/pool.go:397-409 | After its INSERT the call caches the key and publishes the one job |
| Handlers.Create | internal/worker/pool.go:376-411 | Without interference one row and one job, or the row that already holds the key |
| Handlers.EnqueueNotification | internal/worker/pool.go:333-412 | In any interleaving a keyed call that succeeds answers the row holding its key; without interference it creates nothing if some row holds its key, else one row and one job: scheduled and in the sorted set exactly for a later instant, queued and last in its list otherwise |
| Handlers.MadeMeans | internal/worker/pool.go:370-409 | What a creation makes of rows, lists and sorted set, by whether its instant is later than now |
| Handlers.CreateOne | internal/api/handlers/notifications.go:94-106 | A request is counted as created or as failed; without failures it is counted as created exactly when it passes validation, and makes a row and a job exactly when moreover no row holds its key |
| Handlers.OverwriteCounters | internal/api/handlers/notifications.go:108-113 | pending and failed are set to the two counts, delivered and total stay |
| Handlers.CreateBatch | internal/api/handlers/notifications.go:68-124 | Refused exactly for 0 or more than 1000 requests; created + failed = requests; without failures the rows and jobs are those of its requests taken one after the other, and the new batch row holds the two counts |
| Handlers.UpdateToCancelled | internal/api/handlers/notifications.go:292-300 | Only a pending, queued or scheduled row becomes cancelled |
| Handlers.Cancel | internal/api/handlers/notifications.go:286-310 | Without interference an open notification is cancelled and its batch recounted, any other call is refused and changes nothing |
| Backoff.OneWrap | internal/worker/pool.go:213 | The three int64 wrap-arounds of the delay expression amount to one at the end |
| Backoff.ExactProduct | internal/worker/pool.go:213 | Up to the thirtieth retry nothing wraps around |
| Backoff.Vanishes | internal/worker/pool.go:213 | From the 55th retry on the int64 product is 0 |
| Backoff.DelayIsIdeal | internal/worker/pool.go:213-216 | The int64 delay equals min(5 * 2^k, 300) seconds if and only if k <= 30 or k is one of thirteen later values |
| Backoff.DelaysInNanoseconds | internal/worker/pool.go:213-216 | The delays before the three retries are 10, 20 and 40 seconds; from the 6th to the 30th they would be five minutes |
| Backoff.WholeSeconds | internal/queue/manager.go:46 | A score is the Unix second of its instant, rounded down |
| Backoff.WrapsInto64Bits | internal/worker/pool.go:213 | Wrapping yields the int64 that differs by a multiple of 2^64 |
| Backoff.IdealGrows | internal/worker/pool.go:213-216 | The documented delays grow and stay between five seconds and five minutes |
| Metrics.Collector.RecordLatency | internal/metrics/collector.go:34-42 | The window is the last of all latencies recorded, in their order: all of them up to 1000, then the newest 1000 |
| Metrics.NewestOf | internal/metrics/collector.go:38-41 | The window ends with the newest sample and reaches back at most 1000 |
| Metrics.Collector.TakeSnapshot | internal/metrics/collector.go:53-78 | Counters, success rate, average and percentile of the window, which is left alone |
| Metrics.CalcLatencyStats | internal/metrics/collector.go:80-108 | Zero for no samples; else the quotient of the int64 sum and the 95th percentile |
| Metrics.Total | internal/metrics/collector.go:85-88 | The wrapping sum of the samples |
| Metrics.SumLaws | internal/metrics/collector.go:85-88 | The sum of nothing, of one sample, and of two stretches of samples |
| Metrics.WholeMillis | internal/metrics/collector.go:89 | Milliseconds are nanoseconds over a million, rounded towards zero |
| Metrics.SumFits | internal/metrics/collector.go:85-88 | A thousand latencies below a hundred days each do not wrap around |
| Metrics.ExchangeSort | internal/metrics/collector.go:93-99 | The array is sorted in place, a permutation of what it was |
| Metrics.Percentile | internal/metrics/collector.go:91-105 | The value picked is the 95th percentile of the samples |
| Metrics.PickIsP95 | internal/metrics/collector.go:101-105 | Index 19n/20 is in range, more than 95 per cent of the samples are at most the element there, and at least 5 per cent at least |
| Metrics.P95IsUnique | internal/metrics/collector.go:101-105 | Only one value has that property |
| Metrics.CountPermuted | internal/metrics/collector.go:91-99 | Sorting does not change how many samples lie on either side of a value |
| Metrics.FloatIndex | internal/metrics/collector.go:101 | The truncated float64 product of n and 0.95 is 19n/20 rounded down, for every n up to the window size |
| Migrations.OnceInOrder | internal/db/migrations.go:41-77 | For any concurrent, failing and dying runners the committed migrations are a prefix of the sorted names, each once with its record, and a runner that returned success saw all committed |
| Migrations.NothingUndone | internal/db/migrations.go:41-77 | A committed migration stays where it is |
| Migrations.Unblocked | internal/db/migrations.go:66-71 | The waiting INSERT goes on when the transaction that held the name ends, by COMMIT or death |
| Migrations.WaitDecides | internal/db/migrations.go:66-71 | The waiting INSERT then succeeds if the other transaction was rolled back or its runner died, and fails if it was committed |
| Migrations.Database.Record | internal/db/migrations.go:66-71 | After waiting for another's transaction, whatever became of it, the INSERT succeeds exactly if the name is not recorded by then |
| Migrations.Database.Migrate | internal/db/migrations.go:42-74 | A successful round leaves the migration committed, by this runner or another |
| Migrations.Database.RunMigrations | internal/db/migrations.go:16-78 | Success means all migrations are committed; alone and without failures it succeeds |
| Listing.AddFilter | internal/api/handlers/notifications.go:198-202 | An absent filter adds nothing, a present one its condition, its argument and the next number |
| Listing.BuildWhere | internal/api/handlers/notifications.go:194-224 | For every choice and value of the five filters the generated condition, evaluated with its arguments, selects exactly the rows that meet them |
| Listing.FilterByFilter | internal/api/handlers/notifications.go:198-222 | Each filter acts by itself, an absent one not at all, and the bounds of the dates belong to the range |
| Listing.SelectionCount | internal/api/handlers/notifications.go:226-263 | The selection contains every row that meets the filters as often as the table does, and no other |
| Listing.SelectionConcat | internal/api/handlers/notifications.go:241-263 | The selection keeps the order of the table |
| Listing.SelectionSize | internal/api/handlers/notifications.go:226-231 | Its size is the number of places in the table whose row meets the filters |
| Listing.PageOf | internal/api/handlers/notifications.go:185-192 | Page number and size are the values strconv.Atoi reads if these are at least 1, and 1 to 100; else they are 1 and 20 |
| Listing.AtoiOfDigits | internal/api/handlers/notifications.go:185-186 | Digits with or without a sign are read as their number or the nearest int64 |
| Listing.AtoiOfOneDigit | internal/api/handlers/notifications.go:185-186 | Every digit is read as its number, and the bounds are those of int64 |
| Listing.AtoiOfOther | internal/api/handlers/notifications.go:185-186 | Digits followed by anything else are read as 0, unless the digits alone leave the uint64 range: then the greatest int64 is read |
| Listing.List | internal/api/handlers/notifications.go:184-276 | Fails exactly on an unreadable filter, a failing count query or an unsent data query; else total is the number of rows that meet the filters, and data the rows sent for the int64 offset, none if it is negative; a data query that breaks midway gives a prefix of them as a success; LIMIT and OFFSET bind the last two arguments |
| Listing.ListIsRight | internal/api/handlers/notifications.go:233-269 | The answer is the documented page if and only if the offset does not wrap around, or wraps to a number that is negative or not below the size of the selection |
| Listing.BrokenListIsRight | internal/api/handlers/notifications.go:251-276 | If the data query breaks after n rows, the answer is the documented page if and only if the page has at most n rows, or, for an offset that wraps around into the selection, n is 0 |
| Listing.ExistingPagesAreRight | internal/api/handlers/notifications.go:233-269 | Pages 1 to Pages are always right |
| Listing.WrappedPage | internal/api/handlers/notifications.go:233 | A page number past the end whose answer is the first page |
| Listing.PagesCover | internal/api/handlers/notifications.go:233-269 | Pages 1 to Pages put together are the selection without gap or repetition, none is empty or too long, and all later pages are empty |

## Left out

- Workers, Queues, Handlers: what a method does under interference is the machine's run it makes, which the theorems constrain; its own contract spells out the effect for the calm world only.
- Listing.List: the table is one fixed sequence in created_at order during the request; rows that change between the two queries or share a created_at are not modelled.
- Listing.BuildWhere: conditions are data, not SQL text; reading a UUID or an instant from text is a parameter of the table.
- Metrics.CalcLatencyStats: average and success rate are exact quotients; only the float64 product behind the percentile index is modelled with its rounding.
- Metrics.Collector.TakeSnapshot: the counters are unbounded integers and the mutex is implicit, one method call being one step.
- Queues.DueJobs: members with equal scores may come in any order; Redis would order them by their text.
- Migrations.Database.RunMigrations: the sorted file names are given; listing and sorting the embedded directory is not part of this model.
- Handlers.CreateOne: validation and template rendering are a yes or no per request; contents, recipients and length limits are not modelled.
- HTTP routing, JSON, the realtime hub, tracing, logging and configuration: plumbing without state of its own. A job travels through Redis unchanged.
- The provider: a send is answered by acceptance or error; a lost answer is an error.
- The rate limiter: a step that lets a job pass or gives it up.
- Waiting times: ticker, blocking pop timeout and the pause after a failed dequeue have no bearing on safety.
- Batch and notification reads (Get, GetBatch), template storage, QueueDepth and the single-list Dequeue: simple reads.
- `pending` and `failed` of a batch while work is under way: they may be stale by design of the source; only the conditional forms above hold.
- Delivery in the presence of crashes: a crash after a pop loses the copy and the notification stays where it is, so completion is stated for runs without failures.
