# Verified model of the event worker

The worker reads events from Kafka, runs them in keyed lanes, and commits offsets behind the work. Events that fail go
through retry topics and a Redis schedule back to their topic, until they succeed or reach a dead-letter queue. This
project models the five stateful parts that make this work and proves what they promise together.

## How the model is laid out

| file | what it models |
|---|---|
| `Offsets.dfy`, `Sessions.dfy` | the bookkeeping of one partition as values, and what holds over any sequence of its critical sections |
| `OffsetManager.dfy` | the offset manager and the rebalance handler as classes that update their state in place, each method tied to the value functions |
| `Worker.dfy` | logs, committed positions, and any number of worker processes (poll loop, lanes, offset manager) as one transition system |
| `WorkerSafety.dfy`, `WorkerStarts.dfy`, `WorkerOrder.dfy`, `WorkerEntities.dfy`, `WorkerAccounting.dfy`, `WorkerPressure.dfy`, `WorkerHandoff.dfy` | at-least-once handling, exactly which first Tracks endanger it, order per key and per tenant and case, balanced accounting, back-pressure and clean hand-off over its runs |
| `WorkerPool.dfy`, `Consumer.dfy` | the lane pool and the consumer as classes: the same routes and lanes as in the transition system |
| `Envelope.dfy`, `Retry.dfy` | envelopes at field level, the retry publisher, what a retry round preserves, the backoff |
| `Scheduler.dfy`, `SchedulerRaces.dfy` | the retry scheduler over its sorted set and payload keys; many schedulers interleaving at single Redis commands |
| `Middleware.dfy` | the idempotency store and one run of the pipeline |
| `Flow.dfy`, `FlowClaims.dfy`, `Lineage.dfy` | events across topics, jobs, retries and Redis as a second transition system; claim exclusion; the life of one event |
| `FlowRuns.dfy`, `EventLoss.dfy`, `EarlyClaims.dfy` | runs of that system built step by step; that no event is lost, whatever its copies, and which faults lose one; retries that come before their time |

A step of a transition system is one critical section, one channel operation, one Redis command or one call, so every
interleaving of goroutines and processes is a sequence of steps. A theorem over "any run" quantifies over all of them.
A crash, a drain timeout, a late or repeated commit, a Redis error are steps that may be taken at any time. A Redis
command that fails either lost its request or lost its reply.

The assumptions are named predicates: `CleanRun` (a session's first Track is where the assignment starts reading) and
the weaker `SafeRun`, `TidyRun` (the manager's current state of a partition is used, and a partition is forgotten only
when nothing of it is in flight), `GaplessRun` (and its offsets are consecutive), `QuietRun` (no entry is rescheduled in
the middle of its own claim), `AllClean` and `FaultFree` (no Redis error, crash or expiry), `PublishedOnce` (one copy of
the event). A first Track outside `CleanRun`, a reschedule outside `QuietRun` and each fault outside `AllClean` are taken
up again: the step keeps the property in every continuation if and only if a condition on the state holds. For `TidyRun`,
`GaplessRun` and `PublishedOnce` there is no such theorem about a run that leaves them; what a gap in the log does to the
cursor is `CursorPassesIff`, and what holds for any number of copies is `ClaimExclusion` and `NoEventLost`.

## Where the code does less than its documentation says

- A completion that arrives after `Forget` leaves a state behind whose `lastCommitted` can hold back commits of the next
  session: `LateCompletionsSuppressIff` says exactly when, `LateCompletionExample` is the shortest run.
- A record that is polled before a revocation but tracked after `Forget` can open a session above unhandled records, and
  these can then be skipped for good. `FirstTrackSafeIff` says exactly when: unless everything below is handled, or is
  ahead of the record in its own lane while no completion of it has been seen. `LeftoverLosesRecord` is a run.
- The cursor moves one by one, so it stalls at the first offset that the log skips (`CursorPassesIff`); the flush after a
  drain then hands out the last offset tracked exactly when none was skipped (`CleanHandoffIff`).
- A record tracked between the moment when a drain has nothing left to wait for and its return lets `Drain` return nil
  with work in flight (`TrackWakesEarlyIff`, with the run `TrackDuringDrainWakesEarly`). A second drain that starts with
  work in flight takes the first one's wakeup (`SecondDrainStrandsIff`, `SecondDrainStrandsFirst`); this worker never
  drains one state twice, since `Drain` is called only from `OnPartitionsRevoked`, where `Forget` follows.
- The delete that ends a claim removes the payload of a retry that was scheduled, or claimed, since. `DeleteHarmlessIff`
  and `ScheduleHarmlessIff` say exactly when that loses a retry, `SlowDeleteLosesRetry` is a run. Apart from that race a
  claim is lost exactly when a fault ends it after its ZREM (`QuietLosesOnlyToFaults`).
- A retry that is handed off can be republished before its time exactly when its id is still on a due list that was read
  in an earlier round and its time is to come (`EarlyClaimIff`); `EarlyClaimRun` is a run with a single copy of the event.
- A crash in a job can lose its event for good exactly when the key of the event is set: the redelivered record is then
  skipped as a duplicate (`CrashLosesIff`). A release that fails can lose it exactly when the key is set and the failure
  is to be retried (`ReleaseFailureLosesIff`). No other step of Flow can lose one (`NoEventLost`).
- `Stop` waits for the pools only; its comment also promises a drain and a final flush, which `main` makes afterwards.
- A retry envelope without `nextRetryAfter` is accepted and stored but never falls due (`MissingDueTimeIsNeverDue`);
  with a negative `retryCount` the retry publisher panics (`Publisher.Publish`).
- Going on after a failed acquire keeps claims exclusive exactly where the key was free and the request arrived
  (`FailOpenKeepsExclusionIff`); the expiry of a key that is set always endangers it (`ExpiryKeepsExclusionIff`).
  A key that is set and held by nobody, as a crash between acquire and release or a failed
  release leaves it, keeps the event from being processed until the key expires or an acquire fails open (`CanRunIff`,
  `UnblockedIff`, `RedeliveryRunsIff`, `FailedReleaseBlocksId`).

## Model

| member | source | states |
|---|---|---|
| Offsets.LeastMissing | internal/offsetmanager/manager.go:127-135 | the cursor's specification: the result is not completed, and everything from the start up to it is |
| Offsets.LeastMissingUnique | internal/offsetmanager/manager.go:127-135 | there is only one such offset, so the specification determines the cursor |
| Sessions.CursorHolds | internal/offsetmanager/manager.go:89-146 | at every moment of a session: all below the cursor is done, nothing done at or above it is lost, and `lastCommitted` is the offset below a cursor that has moved |
| Sessions.CursorRefinement | internal/offsetmanager/manager.go:121-146 | after a flush the cursor is the least offset, from the first tracked on, that never completed, for any order of completions and any earlier flushes |
| Sessions.Confluence | internal/offsetmanager/manager.go:104-146 | two sessions that completed the same offsets in any order, with flushes anywhere, end with the same cursor, the same `lastCommitted` and the same last commit |
| Sessions.CommitsIncreaseAndAreSafe | internal/offsetmanager/manager.go:121-146 | offsets handed to CommitRecords strictly increase, and each lies below an unbroken run of completed offsets |
| Sessions.GuardNeverSuppresses | internal/offsetmanager/manager.go:137-145 | within a session the guard `committable <= lastCommitted` never holds back a commit of an advanced cursor |
| Sessions.EpochIsLast | internal/offsetmanager/manager.go:92-93 | at every moment the state holds the leader epoch of the record tracked last, not of the first |
| Sessions.FlushHandsOutOwed | internal/offsetmanager/manager.go:121-146 | what a flush returns, from the history of the session alone: the offset below the least one that never completed, with the leader epoch tracked last, or nothing if the cursor is at its start or that offset was handed out before |
| Sessions.CommitsAreSafe | internal/offsetmanager/manager.go:121-146 | every commit of a session, offset and epoch, lies below an unbroken run of completed offsets |
| Sessions.LateCompletionsSuppressIff | internal/offsetmanager/manager.go:76-83 | with a state left by completions after Forget, no flush of the next session is ever held back if and only if the left-over `lastCommitted` lies below the end of the run that the first tracked offset would close |
| Sessions.LateCompletionExample | internal/offsetmanager/manager.go:76-83 | a late completion and a flush make `inFlight` -1 and hold back the commit of the redelivered record |
| Sessions.InFlightCountsOutstanding | internal/offsetmanager/manager.go:100-111 | with one Complete for one Track, `inFlight` is the number of offsets tracked and not completed |
| Sessions.Conservation | internal/offsetmanager/manager.go:89-135 | with consecutive offsets, `completed` and `inFlight` together are the distance from the cursor to the next offset to track, and `completed` lies in that window |
| Sessions.CleanHandoff | internal/offsetmanager/manager.go:148-183 | once nothing is in flight, a flush leaves the last tracked offset as the last and highest one ever handed to CommitRecords |
| Sessions.CleanHandoffIff | internal/offsetmanager/manager.go:121-146 | for offsets tracked in log order, gaps or not: once nothing is in flight, the flush hands out the last offset tracked if and only if no offset from the first to the last tracked was skipped |
| Sessions.CursorPassesIff | internal/offsetmanager/manager.go:127-135 | some continuation moves the cursor beyond an offset if and only if it and every one from the first on were tracked: at a gap the cursor stalls for good |
| Sessions.NoLostWakeup | internal/offsetmanager/manager.go:112-117 | without a Track or second drain meanwhile, the drainer's token is in its channel or already taken exactly when nothing is in flight |
| Sessions.DrainReturnsExactlyWhenAllDone | internal/offsetmanager/manager.go:151-170 | Drain can return nil if and only if every tracked offset has completed |
| Sessions.DrainReturnsWhenBalanced | internal/offsetmanager/manager.go:151-170 | in any history, late completions included, Drain can return nil if and only if the state has seen at least as many completions as Tracks |
| Sessions.TokensWakeOnce | internal/offsetmanager/manager.go:112-117 | each receive that goes ahead, and each token still there, has a Complete of its own |
| Sessions.CompleteSignals | internal/offsetmanager/manager.go:109-117 | a Complete that leaves nothing in flight, or less, while a drain waits leaves that drain's token |
| Sessions.SafeTracksNeverEarly | internal/offsetmanager/manager.go:100-117 | along any run with one drain in which every Track falls outside that gap, the drain never returns with work in flight |
| Sessions.TrackWakesEarlyIff | internal/offsetmanager/manager.go:100-117 | after any Tracks that did no harm, one more lets some later receive wake the drain with work in flight if and only if nothing is in flight at that moment and the drain has not returned |
| Sessions.SecondDrainStrandsIff | internal/offsetmanager/manager.go:154-161 | when a second drain starts, the first can still return, whatever follows, if and only if nothing is in flight |
| OffsetManager.PartitionState.constructor | internal/offsetmanager/manager.go:78-81 | a new state is the fresh one: nothing completed or in flight, `lastCommitted` -1 |
| OffsetManager.PartitionState.Track | internal/offsetmanager/manager.go:92-101 | the new state is the value function's: only the first Track sets the cursor |
| OffsetManager.PartitionState.Complete | internal/offsetmanager/manager.go:109-118 | the new state is the value function's, with the token sent when a drain waits and nothing is left in flight |
| OffsetManager.PartitionState.CommittableOffset | internal/offsetmanager/manager.go:123-146 | the loop ends with the cursor at the least offset not completed and what it passed deleted; an offset is returned exactly when the cursor moved beyond what was last committed |
| OffsetManager.PartitionState.Drain | internal/offsetmanager/manager.go:154-162 | nothing to wait for when nothing is in flight; else a channel of its own to wait on |
| OffsetManager.Manager.constructor | internal/offsetmanager/manager.go:51-60 | the manager starts without partitions or requests |
| OffsetManager.Manager.State | internal/offsetmanager/manager.go:71-85 | finds the partition's own state, or adds a fresh one that no other partition shares, and changes no other |
| OffsetManager.Manager.Track | internal/offsetmanager/manager.go:89-102 | the table changes at this partition only, as Track does |
| OffsetManager.Manager.Complete | internal/offsetmanager/manager.go:106-119 | the table changes at this partition only, as Complete does, also when there was no state |
| OffsetManager.Manager.DrainStart | internal/offsetmanager/manager.go:151-162 | the table changes at this partition only; the channel to wait on is the one the state now signals |
| OffsetManager.Manager.FlushPartition | internal/offsetmanager/manager.go:175-183 | the table changes at this partition only, and at most one commit is requested: the offset the flush returned |
| OffsetManager.Manager.Forget | internal/offsetmanager/manager.go:187-191 | exactly this partition's state leaves the map |
| OffsetManager.Manager.FlushAll | internal/offsetmanager/manager.go:215-244 | every partition is flushed once, and the request holds exactly one record for each that moved and none for any other |
| OffsetManager.Manager.CollectRecords | internal/offsetmanager/manager.go:225-237 | the loop gathers exactly the commits the flushes return, one per partition, whatever the order of the map |
| OffsetManager.RebalanceHandler.OnPartitionsRevoked | internal/consumer/rebalance.go:42-63 | the table and the requests become those of draining, flushing and forgetting each partition in turn, with any Track, Complete and flush of any partition that other goroutines call during each wait |
| OffsetManager.RebalanceHandler.Revoke | internal/consumer/rebalance.go:48-59 | one partition is drained, flushed and forgotten, with whatever is called for it or for others during the wait |
| OffsetManager.RebalanceHandler.OnPartitionsLost | internal/consumer/rebalance.go:65-73 | the lost partitions leave the table and nothing is committed |
| OffsetManager.CallsAreRun | internal/offsetmanager/manager.go:71-85 | through any calls about any partitions, the state of one partition is the run of the sections called for it: partitions do not interfere |
| OffsetManager.RevokedFate | internal/consumer/rebalance.go:42-63 | a revocation forgets each revoked partition at its turn, a later call about it finds a fresh state, and a partition that is not revoked has seen the calls about it and nothing else |
| OffsetManager.ReleasedRequests | internal/consumer/rebalance.go:48-59 | the commits requested while one partition is released: for it exactly those of its drain, the calls about it and the flush, for any other those of the calls about that one |
| OffsetManager.RevokedRequests | internal/consumer/rebalance.go:42-63 | a whole revocation requests for each partition exactly what the sections it goes through hand out, and nothing else |
| OffsetManager.RevokeCommitsOwed | internal/consumer/rebalance.go:48-59 | the last commit a revocation requests for a partition is the one its history owes at the end of the wait, whenever one is owed |
| OffsetManager.FlushAllRequestsOwed | internal/offsetmanager/manager.go:215-244 | the request of FlushAll holds a commit of a partition if and only if its history owes it, with that offset and leader epoch |
| OffsetManager.RevokeCommitsOnlyDone | internal/consumer/rebalance.go:48-58 | every commit that a revocation requests for the partition lies below an unbroken run of completed offsets, also when the drain timed out, and whatever was tracked or flushed meanwhile |
| OffsetManager.RevokeHandsOverAll | internal/consumer/rebalance.go:48-59 | if the drain emptied the partition, its last tracked offset was handed out before, or is the last commit the revocation requests, with the last leader epoch |
| WorkerSafety.AtLeastOnce | internal/consumer/consumer.go:114-127 | in every run, every record below a committed position has had its path reach Complete: over all interleavings of polling, lanes, completions, flushes, late and reordered commits, rebalances and crashes |
| WorkerSafety.InvAfter | internal/offsetmanager/manager.go:89-146 | the same for every run in which each first Track finds all below it handled, or ahead of it in its own lane, from any state on the way |
| WorkerSafety.FlushSafe | internal/offsetmanager/manager.go:123-146 | a flush keeps a partition state safe, and what it returns covers only handled records |
| WorkerStarts.FirstTrackSafeIff | internal/consumer/consumer.go:114-127 | opening a session with a record is harmless in every continuation if and only if every unhandled record below it is ahead of every copy of it in its lane, and, if there is one, no completion of the record has been seen |
| WorkerStarts.LeftoverLosesRecord | internal/consumer/rebalance.go:48-60 | a run from the empty system, clean up to one Track after Forget, after which a record lies below the committed position, unhandled, with no process holding it |
| WorkerOrder.PerKeyOrder | internal/workerpool/pool.go:54-84 | in every run, per process, pool and key: records started are a prefix of those polled, finished ones a prefix of those and at most one behind, and no two records of the key run at once |
| WorkerOrder.OrderAfter | internal/workerpool/pool.go:54-84 | the lane invariant holds along every run: what a lane was given is what it started, its queue, and the record being dispatched to it |
| WorkerOrder.OnKeyOfLane | internal/workerpool/pool.go:69-74 | all records of a key go through one lane, for any fixed hash |
| Envelope.KeyIsCase | internal/event/affinity.go:11-29 | events of one tenant have the same key if and only if they name the same case, or none |
| Envelope.KeyNamesTenant | internal/event/affinity.go:11-29 | events of tenants without a colon in their names have the same key only within one tenant |
| Worker.SameEntitySameLane | internal/consumer/consumer.go:180-191 | two records for the pools with one topic and tenant, and the same case or none, go to the same lane |
| WorkerEntities.PerEntityOrder | internal/workerpool/pool.go:54-84 | per-key order in terms of the message: in every run, records of one topic, tenant and case are started in poll order, each after the one before has finished, and no two run at once |
| WorkerAccounting.TracksEqualCompletesPlusPending | internal/consumer/consumer.go:134-236 | in every run and along every dispatch route, the records a process tracked are those it completed once each, and those it still holds |
| WorkerAccounting.PendingMoves | internal/consumer/consumer.go:114-198 | a step adds the record it tracks to the pending ones, removes the one it completes, and otherwise only moves records |
| WorkerAccounting.CompletedWhenRun | internal/consumer/consumer.go:191-198 | in every run, the completed records that need a worker are exactly those a lane has run to the end, in that order; no lane ever holds another |
| WorkerPressure.InFlightIsPending | internal/offsetmanager/manager.go:89-119 | in every tidy run `inFlight` of each partition is the number of its records being dispatched, queued or running, offset by offset, so it is never negative |
| WorkerPressure.CapacityAfter | internal/workerpool/pool.go:76-84 | in every run no lane's queue outgrows its buffer |
| WorkerPressure.BuffersAsConfigured | internal/workerpool/pool.go:36-52 | in every run each lane of each pool holds at most the buffer configured for that pool |
| WorkerPressure.BackPressure | internal/consumer/consumer.go:114-127 | in every tidy run the in-flight counters of any distinct partitions sum to at most what all lanes buffer and run, plus one |
| WorkerHandoff.HandoffInvariants | internal/offsetmanager/manager.go:89-146 | in every gapless run each live state is fresh or in a session whose last tracked offset is the last polled, and all it handed out was requested |
| WorkerHandoff.DrainThenFlushLeavesNothing | internal/consumer/rebalance.go:55-58 | after any gapless run, a flush of a partition with nothing in flight requests the commit of the last record polled, and nothing later was ever requested in the session |
| WorkerHandoff.DrainReturnedThenFlushLeavesNothing | internal/consumer/rebalance.go:48-59 | in any gapless run, if Drain on the state has returned nil, at once or on its token, with no Track on the state and no second drain of it meanwhile, the flush leaves nothing behind |
| WorkerHandoff.HandoffResumesBehind | internal/offsetmanager/manager.go:175-183 | once the last commit of a clean hand-off takes effect, whoever is assigned the partition starts right behind the last record polled |
| WorkerHandoff.StopReturns | internal/consumer/consumer.go:264-281 | once the poll loop is done, every schedule of Stop ends: the lanes take exactly one step for each start and end of a job they hold, whatever else runs meanwhile, and they are never blocked before every one is empty |
| WorkerHandoff.StopThenFlushAllLeavesNothing | internal/offsetmanager/manager.go:215-244 | in any state of a gapless run in which the lanes are empty and nothing is being dispatched, flushing all partitions in any order requests, for each, the commit of the last record polled |
| WorkerHandoff.ShutdownLeavesNothing | cmd/worker/main.go:192-201 | the whole shutdown: after any gapless run, any schedule of Stop until the lanes take no more steps, and a flush of all partitions, the commit of the last record polled has been requested for each |
| WorkerPool.Pool.constructor | internal/workerpool/pool.go:36-52 | at least one lane and a buffer of at least one, all lanes empty |
| WorkerPool.Pool.Submit | internal/workerpool/pool.go:80-84 | the job becomes the last of its key's lane and no other lane changes, or the send blocks on a full lane, or panics on a stopped pool |
| WorkerPool.Pool.IsLaneFull | internal/workerpool/pool.go:87-90 | true exactly when the key's lane is at capacity |
| WorkerPool.Pool.QueueDepth | internal/workerpool/pool.go:93-99 | the sum of all queue lengths, at most lanes times capacity |
| WorkerPool.TotalOfChangedLane | internal/workerpool/pool.go:93-99 | the depth follows every change of one lane by exactly that change |
| WorkerPool.Pool.DrainLane | internal/workerpool/pool.go:54-67 | a closed lane runs all it held, in order of submission, and empties |
| WorkerPool.Pool.Stop | internal/workerpool/pool.go:102-108 | afterwards the pool is closed and empty, and each lane has run exactly what it held, in order |
| WorkerPool.PoolCapacity | internal/consumer/consumer.go:55-68 | with a positive lane count, the lanes together buffer at most the configured size or 50 a lane, whichever is more, and lose less than one job a lane of a sufficient size to rounding |
| WorkerPool.PoolsAsConfigured | internal/consumer/consumer.go:63-68 | exactly the four topics have a pool, each with the lanes configured for it |
| WorkerPool.ConfiguredBackPressure | internal/consumer/consumer.go:55-68 | with the four configured pools, the in-flight total is at most the sum of max(size, 50 lanes) + lanes over the pools, plus one |
| Worker.FindPoolFinds | internal/consumer/consumer.go:172-178 | a pool of the topic if there is one, and none only if there is none |
| Worker.RoutedIff | internal/consumer/consumer.go:134-198 | a record goes to a pool, that of its topic, if and only if it is in no retry topic, has all mandatory fields, a registered type and version, and a topic with a pool |
| Worker.RetryTopicIff | internal/consumer/consumer.go:134-145 | the retry topics are exactly the topics that end in the suffix |
| Consumer.HandledInSession | internal/consumer/consumer.go:114-127 | tracking and completing a record are the Track, with its leader epoch, and the Complete of its offset in its partition's session, and of no other partition |
| Consumer.Consumer.Handle | internal/consumer/consumer.go:114-127 | a polled record is tracked and then, exactly when it needs no worker, completed once; otherwise its job is at the end of the lane the configuration gives its key, and it is in the DLQ exactly for the dead-letter routes |
| Consumer.Consumer.Dispatch | internal/consumer/consumer.go:134-198 | completes the record exactly when no pool is to run it, and else sends its job to the lane the transition system names |
| Consumer.Consumer.DispatchRetry | internal/consumer/consumer.go:203-237 | the record is completed on every path, and in the DLQ exactly when it is no retry envelope or all three attempts fail |
| Consumer.Consumer.Execute | internal/consumer/consumer.go:191-258 | a job completes its record however it ends; an error other than the two validation errors, or a panic, goes to the retry topic while budget is left, any other failure to the DLQ; success and duplicates go to neither; the key is released on failure only and else kept for 48 hours; it panics exactly for a retriable failure with a negative retry count |
| Consumer.Consumer.ProcessWithFallback | internal/consumer/consumer.go:240-258 | the same without the Complete: Process ran exactly unless skipped, and the key's fate follows the outcome and the faults |
| Retry.Publisher.Publish | internal/retry/retry.go:73-136 | panics if and only if the retry count is negative; otherwise exactly one record goes to the event's retry topic, with the event's content, one more failure, this failure's time, the first one kept, and due exactly after the backoff for that failure |
| Retry.RetryIsDueAfterBackoff | internal/retry/retry.go:77-102 | what is published carries every field of the event and is due at the time of this failure plus the backoff of its number |
| Retry.EnvelopeParsesIff | internal/retry/retry.go:46-55 | a body is a retry envelope if and only if it names its event and topic and no time in it is malformed; each field is then what the body says |
| Retry.RepublishedIsPlain | internal/retry/scheduler.go:132-155 | a republished message says what the envelope says of the event and its failures, without the fields of a retry envelope, and is none |
| Retry.ParsedIsWellFormed | internal/event/envelope.go:27-91 | an event that parses has version, ids, type and tenant set |
| Envelope.ParsedIff | internal/event/envelope.go:27-91 | a body parses if and only if no mandatory field is missing and its timestamp is one; the event then holds its fields and place, and a rejection names something that is wrong |
| Retry.EnvelopeRoundTrip | internal/retry/retry.go:46-55 | an envelope survives encoding and parsing unchanged, but for absent data, which becomes null |
| Retry.MetadataSurvivesRound | internal/retry/scheduler.go:144-155 | fail, publish, parse, schedule, republish, parse returns the same event with one more retry, the new reason and the first failure time kept or set |
| Retry.MetadataAfterRounds | internal/retry/retry.go:77-102 | after any number of rounds the count is the number of failures, the first failure time that of the first, and all else what the producer sent |
| Retry.TotalBackoffClosedForm | internal/retry/retry.go:35-41 | the first k waits sum to 30, 90, 390, 1290, 3090 seconds and from the fifth on to 3090 + 1800 (k - 5) |
| Scheduler.Scheduler.Schedule | internal/retry/scheduler.go:50-64 | payload and score are stored together, also when only the reply is lost; success is reported exactly without a fault |
| Scheduler.Scheduler.Claim | internal/retry/scheduler.go:101-127 | an entry is removed and its payload republished and deleted; a failing ZREM, GET or DEL, or a payload that cannot be read, ends it where the code does |
| Scheduler.Scheduler.ZRangeByScore | internal/retry/scheduler.go:86-91 | the list holds the earliest due entries, each once, in order of score, at most 500 |
| Scheduler.Scheduler.Tick | internal/retry/scheduler.go:86-99 | one poll claims each entry of its due list once, in order, each claim with its own faults; a failing poll does nothing |
| Scheduler.Scheduler.OnRepublishFailed | internal/retry/scheduler.go:164-176 | a failed republish is due again fifteen seconds later and will be republished with the same body |
| Scheduler.Scheduler.DispatchRetry | internal/consumer/consumer.go:212-236 | the loop gives up exactly when all three attempts fail; the retry is stored exactly when the request of some attempt arrived |
| Scheduler.ClaimAllRemoves | internal/retry/scheduler.go:97-109 | claiming a list removes exactly those of its entries whose ZREM arrived |
| Scheduler.TickTakesEarliest | internal/retry/scheduler.go:86-99 | of the entries due at any earlier time a poll claims all, or 500 |
| Scheduler.BacklogDrains | internal/retry/scheduler.go:86-109 | of n entries due at the start exactly max(0, n - 500 m) are left after m polls, whatever else falls due meanwhile |
| Scheduler.ClaimableIff | internal/retry/scheduler.go:88-91 | an entry falls due at some time if and only if its score is not negative |
| Scheduler.DueIff | internal/retry/scheduler.go:50-64 | a scheduled retry is found by a poll exactly from the second of its due time on |
| Scheduler.RoundThroughRedis | internal/retry/scheduler.go:101-155 | a failed event that is scheduled and claimed goes back to its own topic once, parses to the same event with one more retry, and leaves nothing in Redis |
| Scheduler.MissingDueTimeIsNeverDue | internal/retry/scheduler.go:56-61 | an envelope without nextRetryAfter is stored but is due at no time |
| SchedulerRaces.ClaimOnce | internal/retry/scheduler.go:66-109 | in any interleaving with stale lists, an id is claimed at most once per Schedule, so two claims have a Schedule between them; schedules less pending, superseded and claimed never changes |
| SchedulerRaces.EveryScheduleAccountedFor | internal/retry/scheduler.go:101-127 | in every run, with whatever races and faults, each Schedule is pending, superseded, republished once, lost by its claim, or being claimed |
| SchedulerRaces.QuietLosesOnlyToFaults | internal/retry/scheduler.go:101-127 | in every quiet run the claims lost are exactly those that a lost ZREM reply, a failing GET or a crash ends, and every entry keeps its payload and score |
| SchedulerRaces.AgreementHolds | internal/retry/scheduler.go:50-64 | in every quiet run without faults each entry has its payload, scored by its due time, every other payload belongs to one claim in progress, and nothing is lost |
| SchedulerRaces.EverySchedulePendingSupersededOrRepublished | internal/retry/scheduler.go:101-127 | in every quiet run without faults, each Schedule is pending, superseded by a later one of its id, or republished once, now or by the claim in progress |
| SchedulerRaces.DeleteHarmlessIff | internal/retry/scheduler.go:125-127 | after the delete that ends a claim, no quiet continuation without faults loses a claim of the id if and only if the id is no claimable entry and no claim of it is between ZREM and GET |
| SchedulerRaces.ScheduleHarmlessIff | internal/retry/scheduler.go:50-64 | scheduling an id lets no such continuation lose a claim of it if and only if no claim works on the id, or the new entry can never be claimed |
| SchedulerRaces.SlowDeleteLosesRetry | internal/retry/scheduler.go:112-127 | a run of single commands in which an id scheduled twice is republished once and the second retry is gone |
| SchedulerRaces.ClaimRefined | internal/retry/scheduler.go:101-127 | the single commands of a claim, each with its own fault, leave in Redis and hand to Kafka exactly what the claim as a whole does |
| Middleware.KeysDiffer | internal/idempotency/store.go:50-52 | different events have different keys |
| Middleware.IdempotencyStore.TryAcquire | internal/idempotency/store.go:42-44 | a key that is not held is set for 48 hours and the reply says whether it was held; a lost reply still sets it, and a held key keeps its time |
| Middleware.IdempotencyStore.Release | internal/idempotency/store.go:46-48 | the key is gone unless the request was lost |
| Middleware.Pipeline.Execute | internal/middleware/pipeline.go:33-117 | Process runs exactly unless the reply says the key was held; without faults the key is afterwards held exactly when the event is now processed or was; no other key changes |
| FlowClaims.ClaimExclusion | internal/middleware/pipeline.go:60-116 | in every clean run at most one job is between acquire and release of an id, an id succeeds at most once, and its key is set exactly while owned or after success |
| FlowClaims.FailOpenKeepsExclusionIff | internal/middleware/pipeline.go:60-64 | going on after a failed acquire keeps exclusion in every clean continuation if and only if the key was not set and the request arrived |
| FlowClaims.ExpiryKeepsExclusionIff | internal/idempotency/store.go:29-44 | the expiry of a key keeps exclusion in every clean continuation if and only if the key was not set: otherwise a second job can run, beside its owner or after a success |
| FlowClaims.CanRunIff | internal/middleware/pipeline.go:60-110 | some clean continuation processes the event again if and only if its key is free or some job owns it |
| FlowClaims.BlockedAfter | internal/middleware/pipeline.go:60-70 | an event whose key is set with no owner is processed in no run, with whatever faults, before the key expires or an acquire of it fails |
| FlowClaims.UnblockedIff | internal/middleware/pipeline.go:60-70 | of all steps on such an event, exactly these two let Process run again |
| FlowClaims.RedeliveryRunsIff | internal/middleware/pipeline.go:60-76 | after a crash some clean continuation processes the event again if and only if the job was not between acquire and release and the event had not succeeded; redelivered at once, it runs if and only if its key was not set |
| FlowClaims.FailedReleaseBlocksId | internal/middleware/pipeline.go:96-110 | after a failed release the key is set with no owner and no success: the event is processed in no run before the key expires or an acquire fails, and the next job of the id is dropped |
| EarlyClaims.EarlyClaimIff | internal/retry/scheduler.go:86-109 | a retry that is handed off is claimed before its time in some continuation without another hand-off of it if and only if its id is on a due list read before and its time is still to come |
| EarlyClaims.EarlyClaimRun | internal/retry/scheduler.go:86-109 | a run from the empty system, without faults and with one copy of the event, in which its second retry is claimed before its time |
| EventLoss.NoEventLost | internal/middleware/pipeline.go:60-110 | in every run without crashes and failing releases, with any number of copies of any event, failing acquires and expiring keys included, each event published is in some copy, in the schedule, processed or dead |
| EventLoss.NothingLost | internal/middleware/pipeline.go:60-110 | the same from any state on the way: what is somewhere stays somewhere, keys stay justified by an owner or a success, and entries readable |
| EventLoss.CrashLosesIff | internal/middleware/pipeline.go:60-70 | a crash in the only copy of an event can lose it, in a continuation without further such faults or a new copy, if and only if its key is set |
| EventLoss.ReleaseFailureLosesIff | internal/middleware/pipeline.go:96-110 | a failing release can lose the only copy of an event if and only if the key is set and the failure is to be retried |
| Lineage.RetryLineage | internal/consumer/consumer.go:240-258 | in every clean run, claims from old due lists included, an event published once is in exactly one place with its own content; Process runs at most maxRetries + 1 times; it is never skipped, ends at most once, and takes at most 8 maxRetries + 6 steps |
| Lineage.EndsExactlyOnce | internal/consumer/consumer.go:240-258 | the event has succeeded or died exactly once if it has no step left, and not yet if it has one |
| Lineage.NeverStuck | internal/retry/scheduler.go:86-127 | until it has ended, the event has a step to take, at once or when its retry falls due |
| Lineage.NoRetrySwallowed | internal/middleware/pipeline.go:96-110 | every job of the event, in whatever round, finds its key free and reaches Process |
| Lineage.RepublishNotEarly | internal/retry/scheduler.go:56-61 | the k-th republish is later than first failure + the first k backoffs - k seconds, in closed form from the fifth on, unless a claim of the event came before its time |
| Lineage.JobCarriesMetadata | internal/retry/retry.go:77-102 | in every run a job of the event carries what was published, the number of its failures and the time of the first |
| Lineage.RetryDueExactly | internal/retry/retry.go:77-102 | in every lineage run a waiting retry is scored by exactly the time of its last failure plus the backoff of the number of its failures |
| Lineage.DiesIff | internal/consumer/consumer.go:240-258 | a failed job dies if and only if its failure is a validation error or Process has run more often than retries are allowed; otherwise it goes to the retry topic |
| Lineage.LineageStep | internal/retry/retry.go:68-102 | each step on the event lowers the measure (budget left, stage), and every other step leaves the measure and the event's place unchanged |
| Lineage.LineageRun | internal/retry/retry.go:68-102 | along any run the steps taken on the event and the measure left are together at most the measure at its start |

## Left out

- OffsetManager.RebalanceHandler.OnPartitionsRevoked: the calls during a wait come one at a time, as the partition's mutex
  orders them; that commit requests are sent outside the mutex, and so may overtake each other, is in the Worker model.
- Lineage.RetryLineage: assumes one copy of the event, a retry count that starts at 0, and no Redis error, crash or expiry;
  a claim is one step there, and its races are in SchedulerRaces.
- EventLoss.ReleaseFailureLosesIff: for an event with a named topic and a retry count that is not negative, and a clock
  after 1970; with a negative count the retry publisher panics.
- SchedulerRaces.EveryScheduleAccountedFor: counts a retry as republished when it is handed to the Kafka client; a produce
  that fails later is a new Schedule, by the produce callback.
- WorkerPool.ConfiguredBackPressure: assumes positive lane counts; a count of zero makes the division in New panic, and a
  negative one is raised to one lane.
- WorkerHandoff.ShutdownLeavesNothing: `Stop` does not join the poll loop; that nothing is tracked, dispatched or submitted
  once it has begun is an assumption (`IsStopping`).
- Delivery: produce calls are asynchronous and Complete does not wait for them, so "handled" means that the record's path
  reached Complete, not that its retry or DLQ record is in Kafka.
- A commit that fails is not sent again until the cursor moves; here a requested commit may take effect late, again, out
  of order or never, and nothing is proved about when it does.
- The time limit of a drain and the timeout of Process are choices of a run; no real time is modelled for them.
- Offsets, retry counts and times are unbounded integers; 64-bit wrap-around and encodable year ranges are not modelled.
- JSON bytes and the text form of times: bodies are records of fields, and an empty time text that is present counts as
  invalid, as any other text that is no time.
- The FNV hash: any fixed function of the key.
- The 24-hour expiry of payloads; the 48-hour expiry of idempotency keys is a step that may come at any time in Flow.
- Contents of DLQ records and failures to encode them: only that the DLQ publisher was called.
- The poll loop's fetch errors and the loop over a fetch: a run of Track steps in any order of partitions.
- Leader epochs in the Worker model (they do not affect any decision there); the partition states, sessions and classes
  carry them.
- The Kafka keys and headers of the records that the publishers produce.
- Logging, metrics, health server, configuration, TLS and SASL, the registry's contents and the processors themselves.
