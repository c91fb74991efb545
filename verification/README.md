# GopherQueue: the job lifecycle, modelled and proved in Dafny

GopherQueue is a job queue: a store, a scheduler, a worker pool and a recovery manager share one table
of jobs and two bounded channels, and a server streams job events to its clients. This project models
those parts and proves what they keep, over every interleaving, every run or every input.

Run `dafny verify dfyconfig.toml` to check it.

## How it is organised

| modules | what they hold |
|---|---|
| `Core`, `Lifecycle`, `Errors`, `Float64Math`, `NearestEven`, `BackoffDelay`, `SlantedDelay` | jobs and options; the records the scheduler writes over a job; error chains and their category; float64 arithmetic and rounding to nearest; the retry delay |
| `JobStore`, `Listing`, `BoltStore`, `MemoryStore`, `StoreAgreement` | the store as one map with an index; filtering and sorting; the two implementations as classes; both driven side by side |
| `Actions`, `Scheduler`, `RecoveryPass`, `Drain` | scheduler and recovery actions that run uninterrupted: as functions, as classes over a `BoltStore`, as whole passes and rounds |
| `Protocol`, `ClaimBudget`, `ProtocolClaims`, `ProtocolRecords`, `ClaimHistory`, `LateWrites`, `EarlyClaims`, `RunAgain`, `SettledIff`, `Hints`, `ProtocolCalls`, `SubmissionRace`, `History`, `Uninterrupted` | the fine-grained system, one store call per step, in-flight calls holding the records they have read; its invariants, bounds, exact conditions, simulation and store calls; what the store holds of a run; that its loops and calls, left alone, are the methods of `Scheduler` |
| `Runs`, `Walks`, `TightBound`, `LateRuns` | building runs: what the loops and workers carry out by themselves, the bound on claims is reached, natural promises fail |
| `Coarse` | the same system with each action on one job as one step: live executions and terminal states |
| `Metrics`, `MetricsRace` | the collector as a class, and any number of calls racing on its compare-and-swap maximum |
| `Sse`, `EventBus` | the event stream from the server's printer to the JavaScript client; the bus that feeds it |

Two granularities are needed because every scheduler operation reads a record and writes the whole of it
back later. In `Protocol` a cancel, a retry, a finished execution and a recovery may all hold old copies
of the same job, the channels may hold entries for it that are stale or repeated, and a crash may come at
any step.

Assumptions: one Bolt transaction, or one section under the memory store's lock, is one atomic step; the
record encoding has an inverse; ids are fresh; store I/O does not fail; the clock never goes backwards
and is never the zero time. Times and durations are integers, counters of jobs are unbounded, and int64
wrap-around is modelled where the proofs meet it (the duration sum of the collector, the fit of a
backoff). `sort.Slice` is replaced by a verified sort whose contract leaves ties in any order.

Range and order of a retry delay hold for any rounding of the reals that keeps the order and leaves float64s
alone, and any math.Pow that does not decrease with its exponent for a base of at least one and is exact where
the power is a float64. Its exact value is about rounding to the nearest float64, ties to even, as IEEE 754
prescribes for a conversion and a product; module `NearestEven` says what that gives and that there is such a
rounding. If the power is a float64, as at the first two attempts, a delay is the truncated real value exactly
under the condition of `BackoffDelay.TruncatesExactlyIff`. With one second and a multiplier written 1.7 the second
delay violates it and is a nanosecond more (`SlantedDelay.RoundingShows`).

## What the code does differently from what its documents and names suggest

- `Enqueue` edits only the caller's record, after the store has its copy, so a submitted job is stored
  Pending whatever delay it asks for. A job may be claimed before its time exactly if it is stored Pending
  (`EarlyClaims.EarlyIffStoredPending`); one stored Delayed always waits.
- docs/JOB_MODEL.md:100 says that a Retrying job becomes Scheduled when its backoff has expired. The code
  has no such write. A Retrying job becomes claimable only by a mark or a release from a batch that read it
  before it was claimed, or by Retry (`LateWrites.WhatPromotesARetryingJob`). If no such batch is in hand it
  waits for a Retry, whatever else is called (`RunAgain.NoOneRunsIt`); if one is, it can be run again without
  any (`RunAgain.RunsAgainIff`), which happens (`LateRuns.RetryingJobIsMarked`).
- A job that Cancel has ended may still run, because the schedule loop sets a job back to Scheduled without
  looking at what has become of it (`LateRuns.CancelledJobRuns`); `RunAgain.RunsAgainIff` says exactly when.
  `Complete` and `Fail` look at neither state nor owner either. `LateWrites.WhatMovesATerminalJob` gives every
  way out of a terminal state, and `SettledIff.KeepsIffSettled` the exact condition under which there is none
  left but Retry and removal.
- One Retry may lead to two executions, if an entry for the job is still around when it lands
  (`ProtocolClaims.ClaimsAreBounded`); `TightBound.BoundIsReached` has the runs. Without Retry no
  interleaving, crash or recovery leads to a second one.
- That bound needs the channels: a claim is made only for an entry in hand. In the system of module `Hints`,
  where any claimable job may be claimed at any moment, a job is claimed twice without any Retry
  (`LateRuns.HintFreeClaimsTwice`).
- A submission whose key is held is answered with the holder, but the lookup is a second store call: if the
  holder has been removed by then, the answer is a conflict with no job behind it
  (`SubmissionRace.HolderRemoved`).
- `IsRetriable` calls a rate limit retriable; `Fail` does not retry it (`Errors.RateLimitsAreNotRetried`).
- The memory store records a key before it looks for the id, tests for a missing start time nowhere, and
  never sweeps Cancelled jobs; the lemmas of `MemoryStore` say exactly when that shows, and
  `ProtocolCalls.MemoryStandsIn` exactly when it shows in a run.
- `Stats` has no counter for Retrying, so its counters add up to the total only together with those jobs.
- Something published under the id `*` would reach each subscriber to everything twice
  (`EventBus.StarIsHeardTwice`). Every call of Publish in the repository passes a job's UUID
  (api/handlers.go:296, 524, 615, 650 and 693), so `*` could only come from a foreign caller.

## Model

| member | source | states |
|---|---|---|
| ProtocolClaims.ClaimsAreBounded | persistence/bolt_store.go:354-391 | in every fine-grained run, crashes, recoveries, cancels, deletes and duplicate entries included, a job is claimed at most once, plus once per Retry written to it, plus once more per Retry that landed while an entry for the job was in hand; so at most 1 + 2 per Retry |
| ProtocolClaims.StepKeeps | scheduler/scheduler.go:184-235 | every single step of the protocol keeps the accounting behind that bound |
| TightBound.BoundIsReached | scheduler/scheduler.go:201-216 | for every number of retries and every number of them that found an entry in hand, a run of submissions, scheduling, work and Retry alone with so many and exactly as many claims of one job as the bound allows |
| ClaimHistory.LiveWorkersAreBounded | worker/simple_pool.go:196-271 | at no moment of any fine-grained run are more workers executing a job than that bound; without Retry never two |
| ClaimHistory.BegunJobsWereClaimed | worker/simple_pool.go:196-271 | in every run a job is Running, Retrying, Completed, Failed or DeadLetter only after it has been claimed |
| ClaimHistory.RetryingJobsWaitForRetry | scheduler/scheduler.go:303-315 | in a run that never writes a Retry to it, before or after, a job that is once Retrying is never made claimable and never claimed again: the one claim it has had stays the only one |
| RunAgain.RunsAgainIff | scheduler/scheduler.go:184-235 | from any reachable state some further run claims the job without writing a Retry to it iff it is stored and claimable, Delayed, read as Pending by the schedule loop and not yet marked, or in the delayed loop's batch; then the loops and workers do it by themselves, without any call, removal or crash |
| RunAgain.NoOneRunsIt | scheduler/scheduler.go:303-315 | so a Retrying or terminal job that neither loop has in hand, however often it was retried before, is not made claimable nor claimed in any further run that writes no Retry to it |
| LateWrites.WhatPromotesARetryingJob | persistence/bolt_store.go:285-327 | in every reachable state a step makes a Retrying job claimable iff it is the schedule loop's mark or the delayed loop's release from a batch that holds the job, or the write of a Retry that has read it |
| LateRuns.RetryingJobIsMarked | scheduler/scheduler.go:201-206 | such a mark happens: a reachable state with the job Retrying in which the schedule loop's next write makes it Scheduled |
| LateWrites.WhatMovesATerminalJob | scheduler/scheduler.go:184-406 | in every reachable state a step changes the state of a stored terminal job iff it is a mark or release of a batch that holds it, a recovery or a write of a call that has read it and makes something else of it, its removal, or a sweep that finds it expired |
| LateWrites.SettledJobsStay | core/job.go:156-161 | a terminal job that no batch, no call and no execution has in hand keeps its whole record in every further run, crashes included, until a Retry of it is accepted or it is removed, and stays so |
| SettledIff.KeepsIffSettled | core/job.go:156-161 | a terminal job of a reachable state keeps its record in every such run iff no batch, no call and no execution has it in hand: each of these leads to a run that changes it without any call, removal or crash |
| LateRuns.CancelledJobRuns | scheduler/scheduler.go:202-206 | a job that Cancel has made Cancelled is marked, pushed and claimed, in a run without forced cancel, retry, recovery, removal or crash |
| LateRuns.HintFreeClaimsTwice | worker/simple_pool.go:162-174 | if a claim needed no channel entry, a job could be claimed twice without any Retry |
| EarlyClaims.DelayedJobsWait | scheduler/scheduler.go:226-235 | in every run, whatever is called, a job stored Delayed is not claimed before the ScheduledAt it was stored with |
| EarlyClaims.EarlyIffStoredPending | api/handlers.go:496-514 | a job with a future ScheduledAt can be claimed before it if and only if it is stored Pending |
| EarlyClaims.DelayedSubmissionMayRunEarly | api/handlers.go:480-514 | whatever options a submission gives, the record NewJob makes of them can be claimed before the time it asks for |
| ProtocolCalls.MemoryStandsIn | persistence/store.go:14-76 | to the store calls of a protocol run a memory store gives the Bolt store's answers and ends with its contents iff no cleanup of the run meets an old Cancelled job; then those are the contents of the run |
| TightBound.MarkedWhileRunning | scheduler/scheduler.go:201-206 | after a Retry the schedule loop can set the job back to Scheduled while an execution of it runs |
| ProtocolRecords.RecordsStayConsistent | scheduler/scheduler.go:270-406 | in every run, stale writes included: Retrying or Failed has attempts left, DeadLetter has none, a terminal job ended no earlier than it started, a Running job has a start time and an attempt |
| ProtocolRecords.EditedRecord | scheduler/scheduler.go:273-406 | what any scheduler call writes from any record it may have read is consistent at the time of writing and keeps the job's identity; only Retry makes it Pending |
| ProtocolRecords.IndexStaysExact | persistence/bolt_store.go:70-108 | after any interleaving the index maps a key to an id exactly if that id is stored with that key, so no two stored jobs share one |
| ProtocolRecords.JobsAreConserved | persistence/bolt_store.go:441-484 | in every run the total is the eight counters plus the Retrying jobs, and is creates less deletes less what Cleanup reported |
| ProtocolRecords.StepKeeps | worker/simple_pool.go:152-271 | every step of scheduler, pool, recovery and API keeps those three invariants |
| Hints.ChannelsAreOnlyHints | worker/simple_pool.go:152-193 | every run with both channels, seen without them, is a run of the system in which a worker may claim any stored Pending or Scheduled job |
| Hints.ChannelStep | worker/simple_pool.go:207-212 | channel steps are simulated one by one; a step with no counterpart, such as a failed claim, changes nothing in the store |
| Coarse.LiveExecutions | worker/simple_pool.go:196-271 | with each action on a job uninterrupted: live executions of a job number at most one if it is Running plus its forced cancels, recoveries and deletes; with none of these and no crash, exactly one iff it is Running |
| Coarse.TerminalIsAbsorbing | core/job.go:156-161 | with each action uninterrupted, a terminal job that was never force-cancelled, recovered or deleted leaves its state by Retry, Delete or Cleanup only |
| Coarse.RetryingIsLeftAlone | persistence/bolt_store.go:285-327 | with each action uninterrupted, a Retrying job that was never force-cancelled, recovered or deleted changes its state iff it is cancelled or deleted |
| Coarse.WhatLeavesATerminalState | scheduler/scheduler.go:270-406 | with each action uninterrupted, the exact guard, action by action, under which a terminal job's state changes in any store |
| Coarse.LateOutcomeOverwritesCancelled | scheduler/scheduler.go:361-383 | after a forced cancel of a Running job its execution can still report and make it Completed |
| Actions.CyclePushesTheTop | scheduler/scheduler.go:184-223 | one schedule cycle pushes distinct jobs by priority, lowest number first, then by creation, as many as channel, batch and queue allow, and every Pending or Scheduled job left out has a larger priority number than each job pushed, or the same and no earlier creation |
| Actions.CycleInFields | scheduler/scheduler.go:201-216 | field by field: every entry is the stored record made Scheduled; the only writes are marks of Pending jobs, which set the state and the stamp; at most one job that is not pushed is marked |
| Actions.ScheduleStores | scheduler/scheduler.go:201-216 | a cycle marks exactly the jobs it pushes and at most one more, and changes nothing else in the store |
| Actions.ScheduleKeepsClaimable | scheduler/scheduler.go:201-216 | even a cycle that stops at a full channel leaves the same jobs claimable |
| Actions.SchedulePushes | scheduler/scheduler.go:208-216 | the pushed entries are the batch's first ones, as many as there is room for |
| Actions.OutcomeStates | scheduler/scheduler.go:270-336 | an outcome touches one job: Completed, or DeadLetter iff no attempt is left, Retrying iff one is left and the error is temporary, Failed otherwise |
| Actions.ReleaseInFields | scheduler/scheduler.go:226-235 | the delayed loop sets the state of exactly the jobs of its batch to Scheduled, stamps them, and changes nothing else |
| Actions.CyclesAreSingleActions | scheduler/scheduler.go:184-235 | a cycle of either loop stores what its actions on single jobs, as Coarse has them, store one after the other |
| Drain.QueueDrains | scheduler/scheduler.go:184-216 | k claimable jobs and no arrivals: after k over batch-size rounds, rounded up, each was claimed exactly once, over the whole run by priority, lowest number first, then by creation, and none is left |
| Drain.RoundsClaimInOrder | worker/simple_pool.go:180-212 | after any number of rounds the claimed jobs are the first of the queue by priority number and creation, as many as the rounds can hold, and no claimable job left outranks one of them |
| Drain.RoundClaimsTheTop | persistence/bolt_store.go:285-304 | one round claims a full batch from the top of the queue, by priority number and creation, and leaves the rest as it was |
| RecoveryPass.PassMovesTheStuck | recovery/manager.go:127-163 | a pass moves exactly the jobs Running since before its cutoff, to Retrying or DeadLetter by their attempts, reports how many, and leaves none and every other job as it was |
| RecoveryPass.PassInFields | recovery/manager.go:133-147 | field by field: a stuck job with attempts left loses its worker and waits ten seconds an attempt, one without is DeadLetter, ended now; every other record is as it was |
| RecoveryPass.PassIsIdempotent | recovery/manager.go:127-163 | a second pass at the same instant changes nothing and reports zero |
| RecoveryPass.LatePassClearsTheCrash | recovery/manager.go:127-163 | after a crash and any further run, one pass that starts late enough leaves no job Running that was claimed before the crash |
| RecoveryPass.RunningAtTheCrash | persistence/bolt_store.go:370-387 | every job Running at a crash was claimed by then, so that pass covers all of them |
| JobStore.CreateKeepsIndex | persistence/bolt_store.go:70-108 | Create keeps the index exact, and succeeds iff neither the id nor the key is held |
| JobStore.UpdateKeepsIndex | persistence/bolt_store.go:147-163 | a full-record write keeps the index exact if and only if it keeps the record's key |
| JobStore.RemoveKeepsIndex | persistence/bolt_store.go:193-222 | removing jobs keeps the index exact and frees exactly their keys |
| JobStore.KeyHeldOnce | persistence/bolt_store.go:126-144 | at most one stored job holds a key, and looking the key up finds it |
| JobStore.StatsAddUp | persistence/store.go:118-137 | the total is the eight counters plus the Retrying jobs |
| JobStore.StatsInFields | persistence/bolt_store.go:456-473 | each of the eight counters is the number of stored jobs in its state, and the total is the number of stored jobs |
| JobStore.ListingInFields | persistence/bolt_store.go:566-588 | what the four orders mean in the dates and priorities of the records, between two listed and between a listed record and one left out |
| JobStore.PendingInFields | persistence/bolt_store.go:285-304 | the same for the queue: stored Pending or Scheduled records, by priority number, then creation, a hundred of them if the limit is not positive |
| JobStore.CleanupInFields | persistence/bolt_store.go:487-525 | the jobs that go are the Completed, Failed and Cancelled ones with an end before the cutoff; their results, checkpoints and keys go with them and nothing else does |
| JobStore.DeleteInFields | persistence/bolt_store.go:193-222 | deleting a stored job takes it, its result, its checkpoint and its key, and nothing else |
| Listing.MatchesFilter | persistence/store.go:140-207 | the filter's loops accept a job iff it meets every criterion given, a missing tag counting as empty and both ends of a time span included |
| Listing.SortJobs | persistence/bolt_store.go:566-588 | a permutation of the jobs, sorted by the dates or by the priority number and creation, as asked for |
| Listing.TruncatedIsTop | persistence/bolt_store.go:250-259 | sorting and truncating a full listing leaves out no job that precedes one kept |
| Listing.PermutedSnapshot | persistence/bolt_store.go:566-588 | sorting keeps a listing a listing of the same stored records |
| BoltStore.BoltStore.Create | persistence/bolt_store.go:70-108 | over encoded buckets: the abstract Create, a held key or id leaving everything unchanged |
| BoltStore.BoltStore.Get | persistence/bolt_store.go:111-123 | the stored record, or none |
| BoltStore.BoltStore.GetByIdempotencyKey | persistence/bolt_store.go:126-144 | the record the index names, if it is stored |
| BoltStore.BoltStore.Update | persistence/bolt_store.go:147-163 | the caller's whole record, stamped, over a stored one |
| BoltStore.BoltStore.UpdateState | persistence/bolt_store.go:166-190 | state and stamp change, nothing else does |
| BoltStore.BoltStore.Delete | persistence/bolt_store.go:193-222 | job, result, checkpoint and key are gone, all else is unchanged |
| BoltStore.BoltStore.List | persistence/bolt_store.go:225-261 | a listing of matching jobs of length min(limit, matches), in the order asked for, that leaves out no record which should stand before one listed, in the fields of the records |
| BoltStore.BoltStore.Count | persistence/bolt_store.go:264-282 | the number of matching jobs |
| BoltStore.BoltStore.GetPending | persistence/bolt_store.go:285-304 | the top of the claimable jobs: the lower priority number first, then the earlier creation, and no claimable job left out outranks one returned |
| BoltStore.BoltStore.GetDelayed | persistence/bolt_store.go:307-327 | the due Delayed jobs with the smallest ids, up to the limit |
| BoltStore.FirstDueInFields | persistence/bolt_store.go:307-327 | they are Delayed with a ScheduledAt not after now; one that is due and not listed has a larger id than all listed, of which there are limit many |
| BoltStore.BoltStore.GetStuck | persistence/bolt_store.go:330-351 | exactly the Running jobs with a start time before the cutoff |
| BoltStore.BoltStore.ClaimJob | persistence/bolt_store.go:354-391 | claims iff the job is stored and Pending or Scheduled: then it is Running for the caller's worker, started and stamped now whenever it may have started before, with one attempt more, and all else is as it was; otherwise nothing changes |
| BoltStore.BoltStore.SaveResult | persistence/bolt_store.go:394-402 | the result is what GetResult then finds for its job; every other id is answered as before, and nothing else changes |
| BoltStore.BoltStore.GetResult | persistence/bolt_store.go:405-417 | the decoded result, or none |
| BoltStore.BoltStore.SaveCheckpoint | persistence/bolt_store.go:420-424 | the data is what GetCheckpoint then finds; every other id is answered as before, and nothing else changes |
| BoltStore.BoltStore.GetCheckpoint | persistence/bolt_store.go:427-438 | the data, or empty data |
| BoltStore.BoltStore.Stats | persistence/bolt_store.go:441-484 | each counter is the number of stored jobs in its state |
| BoltStore.BoltStore.CollectExpired | persistence/bolt_store.go:497-512 | Cleanup's first loop finds exactly the expired jobs and frees exactly their keys |
| BoltStore.BoltStore.DeleteAll | persistence/bolt_store.go:514-519 | its second loop drops exactly those jobs with their results and checkpoints, and counts them |
| BoltStore.BoltStore.Cleanup | persistence/bolt_store.go:487-525 | both loops together remove the Completed, Failed and Cancelled jobs older than the cutoff, no other, and report how many |
| MemoryStore.MemoryStore.Create | persistence/memory_store.go:34-55 | the key is recorded before the id is looked for |
| MemoryStore.MemoryStore.Get | persistence/memory_store.go:58-70 | the stored record, or none |
| MemoryStore.MemoryStore.GetByIdempotencyKey | persistence/memory_store.go:73-89 | the record the index names, if it is stored |
| MemoryStore.MemoryStore.Update | persistence/memory_store.go:92-104 | as the abstract store |
| MemoryStore.MemoryStore.UpdateState | persistence/memory_store.go:107-119 | as the abstract store |
| MemoryStore.MemoryStore.Delete | persistence/memory_store.go:122-140 | as the abstract store, bucket by bucket |
| MemoryStore.MemoryStore.List | persistence/memory_store.go:143-164 | matching jobs in any order, as many as the limit allows |
| MemoryStore.MemoryStore.Count | persistence/memory_store.go:167-179 | the number of matching jobs |
| MemoryStore.MemoryStore.GetPending | persistence/memory_store.go:182-188 | claimable jobs in any order, as many as the limit allows |
| MemoryStore.MemoryStore.GetDelayed | persistence/memory_store.go:191-207 | due Delayed jobs; with a limit below one, still one job if the first visited is due |
| MemoryStore.SomeDueInFields | persistence/memory_store.go:191-207 | they are Delayed with a ScheduledAt not after now, and as many as the limit if one that is due is not listed |
| MemoryStore.MemoryStore.GetStuck | persistence/memory_store.go:210-225 | exactly the Running jobs started before the cutoff, those without a start time included |
| MemoryStore.MemoryStore.ClaimJob | persistence/memory_store.go:228-248 | as on the Bolt store, field by field |
| MemoryStore.MemoryStore.SaveResult | persistence/memory_store.go:251-258 | the result is what GetResult then finds for its job; every other id is answered as before, and nothing else changes |
| MemoryStore.MemoryStore.GetResult | persistence/memory_store.go:261-272 | as the abstract store |
| MemoryStore.MemoryStore.SaveCheckpoint | persistence/memory_store.go:275-283 | the data is what GetCheckpoint then finds; every other id is answered as before, and nothing else changes |
| MemoryStore.MemoryStore.GetCheckpoint | persistence/memory_store.go:286-298 | as the abstract store |
| MemoryStore.MemoryStore.Stats | persistence/memory_store.go:301-332 | each counter is the number of stored jobs in its state |
| MemoryStore.MemoryStore.Cleanup | persistence/memory_store.go:335-356 | removes the Completed and Failed jobs that ended before the cutoff, frees their keys, and reports how many |
| MemoryStore.CleanupInFields | persistence/memory_store.go:335-356 | field by field, with the results, checkpoints and keys of those jobs and nothing else |
| MemoryStore.SweptIsRemove | persistence/memory_store.go:340-353 | deleting while iterating, in any order of keys, is removing the set of ended jobs at once |
| MemoryStore.CreateAgrees | persistence/memory_store.go:39-49 | the two Creates agree iff it is not a stored id coming with a new key |
| MemoryStore.StuckAgrees | persistence/memory_store.go:218-221 | the two GetStucks agree iff no Running job lacks a start time (or the cutoff is not after the zero time) |
| MemoryStore.CleanupAgrees | persistence/memory_store.go:343-346 | the two Cleanups leave the same store and report the same number iff no Cancelled job is old enough and no ended job lacks its time |
| StoreAgreement.StoresAgree | persistence/store.go:14-76 | on every sequence of calls with fresh ids, no full write of a Running job, and a Cleanup only where the two agree, both specifications give the same answers and end with the same contents |
| StoreAgreement.DriveBoth | persistence/store.go:14-76 | a BoltStore object and a MemoryStore object driven by such a sequence give the same answers all the way, listings by length and, where the limit does not cut, by content, and end with the same contents |
| StoreAgreement.CallBolt | persistence/bolt_store.go:70-525 | every call of the interface on a BoltStore object answers as the specification says |
| StoreAgreement.CallMemory | persistence/memory_store.go:34-356 | every call of the interface on a MemoryStore object answers as its specification says |
| StoreAgreement.ListingsHaveTheSameLength | persistence/store.go:80-105 | the two listings of one filter have the length min(limit, count), and name the same jobs when the limit does not cut |
| Scheduler.PriorityScheduler.SendToWorkers | scheduler/scheduler.go:201-216 | the loop of scheduleJobs over a BoltStore is the batch transformation of Actions |
| Scheduler.PriorityScheduler.ScheduleJobs | scheduler/scheduler.go:184-223 | read, sort again, mark and push: the pushed entries are the top of the queue by priority number and creation, and the claimable jobs stay the same |
| Scheduler.PriorityScheduler.ProcessDelayedJobs | scheduler/scheduler.go:226-235 | exactly the first due jobs, up to the batch size, become Scheduled, and nothing else changes |
| Scheduler.PriorityScheduler.Enqueue | scheduler/scheduler.go:238-252 | decides Delayed or Pending and the ScheduledAt on the caller's record, and leaves the store unchanged |
| Scheduler.PriorityScheduler.GetNextJob | scheduler/scheduler.go:260-267 | takes the oldest entry |
| Scheduler.PriorityScheduler.Complete | scheduler/scheduler.go:270-287 | the counter goes up in any case; a stored job becomes Completed, ended and stamped now, with every other field kept, and its result is stored |
| Scheduler.PriorityScheduler.Fail | scheduler/scheduler.go:290-336 | the result is stored, and the job takes its error and category (System if it has none) and becomes Retrying, scheduled after the backoff, DeadLetter or Failed, ended now, with every other field kept |
| Scheduler.PriorityScheduler.Cancel | scheduler/scheduler.go:361-383 | a terminal job is refused and left alone; a Running one without force is answered with success and left alone; every other stored job becomes Cancelled, ended now, with the reason, all other fields kept |
| Scheduler.PriorityScheduler.Retry | scheduler/scheduler.go:386-407 | a Failed or DeadLetter job becomes Pending with end, error and category cleared, and its attempts if asked; any other job is refused and left alone |
| Scheduler.SimpleRecoveryManager.RecoverEach | recovery/manager.go:133-157 | the recovery loop is the batch transformation of Actions, and its counters count the updates that succeeded |
| Scheduler.SimpleRecoveryManager.RecoverStuckJobs | recovery/manager.go:127-163 | over a BoltStore, moves exactly the stuck jobs, field by field as in RecoveryPass.PassInFields, leaves none and reports how many there were |
| Scheduler.SubmitJob | api/handlers.go:449-511 | alone: the key asked for is that of the last option that gives one; accepts iff neither id nor that key is held; a held key creates nothing and is answered with its holder; an accepted job is stored Pending, as its options and the defaults say, under its key, though the answer calls it Delayed if it has a delay or a later time |
| SubmissionRace.AnswerOfARefusal | api/handlers.go:496-508 | whatever run comes between Create and the lookup: a submission is refused iff its key is held at the first, and answered with the job that holds it at the second, or with a bare conflict iff none does |
| SubmissionRace.HolderRemoved | api/handlers.go:496-508 | that happens: the holder is removed between the two calls |
| History.RunningSinceLastClaim | persistence/bolt_store.go:375-379 | in every run a Running job has started, and was last written, at the clock of its last claim, whenever it was claimed before |
| History.FreshClaimsAreNotStuck | recovery/manager.go:130 | so in every run the recovery loop lists a job only if its last claim is older than the cutoff |
| History.LastResultIsFound | persistence/bolt_store.go:394-417 | in every run, stale reports included, the result found under an id is the last one that a Complete or a Fail has saved for it since a job of that id was removed, and there is none if none was |
| History.LastCheckpointIsFound | persistence/bolt_store.go:420-438 | and so is the checkpoint |
| History.FirstPushedFirstReceived | worker/simple_pool.go:152-193 | in every run what the schedule loop has pushed since the last crash is what the workers have received, in that order, followed by what is on its way in the pool's channel, the fetcher's hand and the scheduler's channel |
| Uninterrupted.ScheduleCycle | scheduler/scheduler.go:184-223 | every run of the schedule loop alone, from its listing to the end of its batch, is one cycle of ScheduleJobs on the same batch |
| Uninterrupted.ReleaseCycle | scheduler/scheduler.go:226-235 | and so for the delayed loop |
| Uninterrupted.RecoverCycle | recovery/manager.go:127-163 | and so for the recovery loop |
| Uninterrupted.CompleteCall | scheduler/scheduler.go:270-287 | a worker's steps after a success, one after the other, are Complete |
| Uninterrupted.FailCall | scheduler/scheduler.go:290-336 | its steps after a failure are Fail |
| Uninterrupted.CancelCall | scheduler/scheduler.go:361-383 | the read and the write of a Cancel are Cancel, and one that is refused, ignored or finds no job ends with its read |
| Uninterrupted.RetryCall | scheduler/scheduler.go:386-407 | and so for Retry |
| BackoffDelay.BackoffInRange | scheduler/scheduler.go:339-358 | for ordinary settings and every attempt from 0 on, however the floating-point arithmetic rounds, the delay lies between zero and the maximum |
| BackoffDelay.BackoffNeverDecreases | scheduler/scheduler.go:339-358 | however it rounds, the delay never decreases with the attempt, from 0 on, and stays at the cap once there |
| BackoffDelay.DelayByStrategy | scheduler/scheduler.go:339-358 | constant, linear and exponential delays, the last to the attempt less one and to the base two for an unknown strategy, each cut at the maximum |
| Float64Math.TruncateBrackets | scheduler/scheduler.go:347-350 | the conversion of a delay drops the fraction, towards zero |
| NearestEven.IntegerPartKeptIff | scheduler/scheduler.go:347-350 | rounding a value to the nearest float64, ties to even, leaves its integer part alone iff the next integer is more than half a last bit away (or exactly half of one, and odd in its last bit), and beyond 2^53 iff the integer part is a float64; otherwise, below 2^53, it gives the next integer |
| BackoffDelay.TruncatesExactlyIff | scheduler/scheduler.go:347-350 | with an initial duration and a power that are float64s, as at the first two attempts, the delay before the cap is the truncated real value iff that condition holds of the real value |
| SlantedDelay.RoundingShows | scheduler/scheduler.go:347-350 | one second times the float64 written 1.7 violates it: the real value truncates to 1699999999, and rounding to nearest always gives 1700000000 |
| SlantedDelay.RoundingDoesNotShow | scheduler/scheduler.go:347-350 | one second times the float64 just below that written 1.1 meets it: 1099999999, though the next integer is less than a last bit away |
| BackoffDelay.DoublingFits | core/job.go:138-141 | one second doubled, or halved at attempt 0, is computed without rounding in every admissible arithmetic, and fits int64 exactly up to attempt 34 |
| Errors.CategoryByTypes | core/errors.go:111-147 | over error chains of any length and shape, the category is decided by which of the six error types occur in the chain: deadline, cancel, temporary, permanent, timeout, rate limit, in this precedence, and temporary if none does |
| Errors.PartsOfWrappers | core/errors.go:31-72 | a temporary, a permanent and a plain wrapper have themselves and the chain they wrap in their chain, a join itself and all it joins, and none has anything else |
| Errors.AloneCategories | core/errors.go:111-147 | the category of each type of error standing alone |
| Errors.NestingDoesNotMatter | core/errors.go:111-147 | two errors with the same types in their chains, nested in any order, have the same category |
| Errors.WrappingKeepsTheCategory | core/errors.go:31-72 | wrapping an error in a plain one never changes its category |
| Errors.ErrorDecidesTheState | worker/simple_pool.go:248-257 | from a handler's error to the job: Retrying iff attempts are left and no context error is in the chain, and a temporary error is or none of the other types; DeadLetter iff none is left, Failed otherwise |
| Errors.RateLimitsAreNotRetried | core/errors.go:149-153 | IsRetriable and Fail differ exactly on chains with a rate limit and none of the other types |
| Core.NewJob | core/job.go:131-153 | a new job is Pending and untouched, and each field is what the last option that writes it says, or its default |
| Core.LastOptionWins | core/options.go:11-109 | field by field, tags one by one: the last option that writes a field decides it; a field that none writes has its default: priority 2, three attempts, exponential backoff from a second to an hour doubling, no delay, time, timeout, key, tag, dependency or metadata |
| Core.OptionsLeaveExecutionAlone | core/options.go:11-109 | no option reaches the state, the attempts or the execution times |
| Metrics.SimpleMetrics.RecordJobCompleted | observability/metrics.go:91-110 | alone, one call counts once, adds its duration and raises the maximum to it |
| Metrics.SimpleMetrics.RecordJobEnqueued | observability/metrics.go:83-88 | counts in total and by type |
| Metrics.SimpleMetrics.GetMetrics | observability/metrics.go:118-143 | in terms of the calls recorded so far: the numbers that succeeded and failed, a maximum that no duration exceeds and that one of them reaches, and an average that is the int64 total by their number, rounded towards zero; for non-negative durations whose sum fits int64 that is their mean rounded down, and at most the maximum |
| MetricsRace.RaceIsShort | observability/metrics.go:102-109 | n racing calls fail at most n(n-1)/2 swaps between them and take at most n(n+4) atomic operations, in every schedule |
| MetricsRace.MaximumOnlyGrows | observability/metrics.go:102-109 | in every schedule the maximum never goes down |
| MetricsRace.RaceEndsAsSequential | observability/metrics.go:91-110 | once every call has returned, whatever the interleaving, the counters are as if the calls had come one after the other |
| Metrics.MaximumOfAll | observability/metrics.go:102-109 | that maximum is the largest of the starting value and all durations |
| Metrics.WrapIsInt64 | observability/metrics.go:100 | the total an addition leaves is an int64 and differs from the sum by a multiple of 2^64 |
| MetricsRace.AverageIsAtMostMaximum | observability/metrics.go:118-143 | at quiescence every job is counted once, as completed or failed, and for non-negative durations whose sum fits int64 the average is at most the maximum |
| Sse.ChunksDoNotMatter | sdks/javascript/src/client.ts:312-335 | however the stream is cut, the client has yielded what the text so far yields, and its buffer is exactly what follows the last newline |
| Sse.Events | sdks/javascript/src/client.ts:312-335 | the client's two loops, stopping at the first text that does not parse |
| Sse.DataIsYieldedAtOnce | sdks/javascript/src/client.ts:325-332 | each data line is yielded when it is read, under the last name read before it, which stays; one that does not parse ends the reading |
| Sse.PrintWake | api/handlers.go:417-438 | a keepalive is a comment and a blank line; an event is its name, its data, its id if it has one, and a blank line |
| Sse.YieldedSurvive | sdks/javascript/src/client.ts:320-334 | whatever the server sends, the client yields only trimmed one-line names and trimmed one-line texts that parse |
| Sse.HandleEvents | api/handlers.go:417-438 | the server's loop prints the lines of the greeting and of every wake-up, each ended by a newline |
| Sse.RoundTrip | api/handlers.go:417-438 | parsing the server's output, cut anywhere, with keepalives and ids in between, gives the connected event and exactly the delivered list, if and only if every event has a trimmed one-line name and a trimmed one-line text that parses |
| Sse.ClientMeetsTheStandard | sdks/javascript/src/client.ts:320-334 | on that output the client and the event-stream interpretation of the WHATWG HTML standard (sections 9.2.5 and 9.2.6), which dispatches at blank lines and also ends lines at carriage returns, read the same events iff no event lacks a name and none has a carriage return in its name or text |
| EventBus.EventBus.Subscribe | api/handlers.go:115-122 | a new open channel is listed last under its topic and starts with what is published from now on |
| EventBus.EventBus.Unsubscribe | api/handlers.go:125-137 | removes and closes that channel, keeping the others in order; a channel not listed there is left alone, so none is closed twice |
| EventBus.EventBus.Publish | api/handlers.go:140-160 | never sends on a closed channel; under a job's id each channel listed for that id or for everything takes the event if it has fewer than 100 in its queue, and no other channel changes; each keeps delivering a subsequence of what was published for it, all of it if it never was full |
| EventBus.EventBus.Consume | api/handlers.go:430-432 | taking an event from a queue keeps that, in order |
| EventBus.DeliveryStep | api/handlers.go:140-160 | one more event, offered as often as it should be, keeps consumed and queued events a subsequence of those published, or all of them |
| EventBus.StarIsHeardTwice | api/handlers.go:144-159 | for a subscriber that has missed nothing, what it holds stays part of what was published iff the event is offered to it once or it has no room for a second copy; offered twice is only an event under `*` to a subscriber to everything |

## Left out

- HTTP routing, JSON bodies, middleware, the CLI, the Python SDK, the rest of the JavaScript client: I/O and thin wrappers.
- Encoding and decoding errors and store I/O errors: the codec is any inverse pair, and a store call returns what the store says.
- BoltDB's files, UUID generation, TextDecoder and JSON.parse: transactions are atomic, ids are fresh, chunks are decoded text, and what parses is a parameter.
- Start and Stop, tickers, shutdown, logging and health checks: a tick is a step that may come at any time.
- worker/dispatcher.go: it is not wired into the server.
- Batch submission: its per-index results say little beyond a sum.
- Payload and progress of a job: no decision rests on them; metadata values are strings here.
- Calls of Schedule and Submit from outside the pool and the scheduler's loops: both would put an entry into a channel without the store.
- The size of the pool: any number of workers may be waiting, executing or reporting.
- processingIDs, activeCount and the pool's statistics: they decide nothing, and a worker that loses a claim race deletes the winner's entry in processingIDs.
- A channel without capacity: the scheduler's batch size and the pool's concurrency are at least one.
- The clock reading of Update and of the listings: a listing may be for an earlier time than its transaction, but Update stamps updatedAt in its transaction, where the code does so just before; nothing decides on that field but filters and orders of listings.
- Which due jobs GetDelayed takes when there are more than the batch size: `Protocol` allows any of them, as the memory store does; `BoltStore.BoltStore.GetDelayed` has the Bolt store's order.
- The retry delay in `Protocol` and `Coarse` is any value, since only the ScheduledAt of Retrying jobs depends on it and nothing reads that.
- Aliasing of tags and payload between copies of a record: the stores copy shallowly, the model's records are values.
- Wrap-around of the job counters and of a backoff beyond the stated fit: the conversion to int64 is then up to the implementation.
- The bounds of float64 exponents, infinities and NaN: delays in range do not come near them.
- BackoffDelay.TruncatesExactlyIff: says nothing of powers that are no float64, where the error of math.Pow, which is not part of this model, comes in; NearestEven.IntegerPartKeptIff then holds of the product of what math.Pow gives, and range and order hold for any math.Pow that does not decrease with its exponent.
- RunAgain.RunsAgainIff: where the run it builds needs a listing, it takes one that begins with the job, as the memory store may give; under the Bolt store the jobs that rank before it have to be run first.
- Coarse.LiveExecutions: holds for actions that nothing interrupts; under interleaving, ClaimHistory.LiveWorkersAreBounded is the bound.
- Coarse.TerminalIsAbsorbing: holds for actions that nothing interrupts; under interleaving, SettledIff.KeepsIffSettled gives the condition.
- Coarse.RetryingIsLeftAlone: holds for actions that nothing interrupts; under interleaving, RunAgain.RunsAgainIff and LateWrites.WhatPromotesARetryingJob say when not.
- Scheduler.SubmitJob: runs alone; SubmissionRace.AnswerOfARefusal says what its two store calls answer when others come between them.
- Coarse.WhatLeavesATerminalState: holds for actions that nothing interrupts; LateWrites.WhatMovesATerminalJob has the late writes too.
- StoreAgreement.DriveBoth: the limit of GetDelayed is at least one, as the scheduler's batch size is; below that the memory store may still give one job.
- Recovery's BatchSize, which the code never uses, and StorageBytes and Timestamp of the statistics.
- Two calls of Publish at the same time: they hold a read lock only, and are modelled as one step each.
- What a subscriber finds in its channel after it has unsubscribed.
- Job dependencies, priority inheritance, jitter, rate limits and circuit breakers of the documents: they are not implemented.
- Scheduler.PriorityScheduler.Fail: outside the fit of CalculateBackoff the delay is any value, because the conversion there is not defined by the language.
