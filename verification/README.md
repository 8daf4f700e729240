# Maqistor: a verified model of the executor's core

Maqistor is a durable job executor. A job's state is split over two SQLite databases with one writer
each, a coalescing scheduler decides which queues to look at, and a dispatcher hands jobs to workers
over reserved slots. This project models those parts in Dafny and proves what they promise over every
interleaving, every run and every input.

| files | part of the system |
|---|---|
| `Types.dfy` | records shared by all parts, and the job a client sees |
| `ResultsTable.dfy`, `ResultsConn.dfy` | the results database: what each transaction does, and the chunked loops that do it |
| `IngestTable.dfy` | the ingest database, likewise (modules `IngestTable` and `IngestConn`) |
| `BatchOrder.dfy` | when a completion batch does what its items would do one by one |
| `Store.dfy` | the store's calls over both databases, one call at a time |
| `AttemptProtocol.dfy`, `AttemptInvariant.dfy`, `AttemptRuns.dfy`, `AttemptRetries.dfy`, `AttemptRelease.dfy`, `AttemptQueues.dfy`, `AttemptProgress.dfy` | all store calls interleaved step by step, with crashes: the phase invariant and what follows over whole runs |
| `Lanes.dfy`, `Writers.dfy` | the lane controller and the two writer loops |
| `Scheduler.dfy`, `SchedulerRuns.dfy` | the scheduler's locked state and its runs beside callers, timers, passes and probes |
| `DrainPass.dfy` | one scheduling pass against an arbitrary dispatcher, store and delivery pump |
| `Registry.dfy` | the dispatcher's slot accounting and choice of worker |
| `Session.dfy`, `SessionDrain.dfy` | one dispatcher session composed with the worker SDK, and the end of its shutdown |

Code that changes state in place is a class or a method with loops, proved against a function or
relation on values; the state machines use the same functions and relations, so what is proved of a
transaction as a value holds of the loop that performs it and inside every interleaving.
`dafny verify dfyconfig.toml` checks everything.

## Assumptions

- A SQLite transaction is atomic, each database has one writer, and a committed write survives a process crash.
- Dispatch ids are fresh when generated; a new row id is one more than the largest; records are not cleaned up.
- A repend or abandon that is issued succeeds, unless the process dies first.
- A frame whose write failed was never received: `release_claim` is called only for an attempt no worker
  reports on. For failed writes `DroppedIsNeverReported` proves it of the session; what goes wrong otherwise is
  in `ReleaseFreesLiveJobIffCompleted`, `FreedCompletedJobIsStuck` and `ReleaseClaim`.
- Worker instance ids are not reused while permits of the old session are still out.
- Frames are atomic messages on FIFO connections.

Where an `UPDATE … FROM` may use any of several matching items, the model is a relation that allows each of
them. Where a loop waits, whatever other tasks may do meanwhile is an arbitrary choice.

## Findings

- Fairness of the results lanes holds exactly where a preference exists or the lane is completion
  (`FairExactlyWithPreference`). Before the first preference, equal pressure on two active lanes keeps the
  dispatch lane waiting for ever; with a preference the bound of 33 turns holds, and it is reached.
- A completion batch does what its items would do one by one exactly if every repeated report of a running
  attempt yields to the first (`BatchIsOneByOneIff`). Two families break this: a report repeated within one
  statement is answered twice as effective (`RepeatedReportIsAnsweredTwice`), and a failure followed by a success
  of the same attempt ends completed instead of failed, so that the tables differ (`LateSuccessCompletes`).
- A turn of the results writer serves nothing, although requests are queued, exactly if only dispatch requests
  without rows remain (`TurnServesNothingIff`, `RunResults`). The store never sends such a request.
- A crash between the two writes of a queue upsert leaves a queue that takes jobs and dispatches none of them until it
  is upserted again (`UnknownQueueRefuses`); without crashes this cannot last (`QueuesReachResults`).
- Between the two lock sections of a probe a known queue may be neither scheduled nor in the idle set
  (`ProbeHoldsQueue`); it is then in the probe's hand (`QueuesAreTracked`).

## Model

| member | source | states |
|---|---|---|
| `Types.FromAccepted` | crates/engine/src/types.rs:67-97 | the merged job keeps the accepted row's id and payload, shows Completed exactly if the execution does, and never shows Failed for a job that is free again |
| `ResultsTable.DispatchTxPointwise` | crates/persistence/src/sqlite/results.rs:158-231 | a committed dispatch over distinct dispatchable jobs moves exactly those rows to running with one more attempt and leaves every other row alone |
| `ResultsTable.DispatchCommitsIff` | crates/persistence/src/sqlite/results.rs:158-231 | a dispatch of distinct dispatchable jobs commits if and only if every new job's queue is known, every counter has room, no id occurs twice and no id is held when its row comes |
| `BatchOrder.BatchIsOneByOneIff` | crates/persistence/src/sqlite/results.rs:248-401 | for every batch: the partitioned, chunked form equals completing one by one in arrival order, in table and answers, if and only if every repeated report of a running attempt yields to the first (never a success after a failure, and one of the same kind only in a later 256-row statement) |
| `BatchOrder.BatchIsOneByOne` | crates/persistence/src/sqlite/results.rs:248-401 | in particular for every batch with distinct (job, dispatch id) keys |
| `BatchOrder.OneByOneAnswers` | crates/persistence/src/sqlite/results.rs:248-401 | one by one, the first report of a key gets its own answer and every later one is ignored |
| `BatchOrder.RepeatedReportIsAnsweredTwice` | crates/persistence/src/sqlite/results.rs:298-305 | a report that appears twice in one batch is answered twice as effective, which one-by-one completion never does |
| `BatchOrder.LateSuccessCompletes` | crates/persistence/src/sqlite/results.rs:271-306 | a failure followed by a success of the same attempt ends completed in a batch and failed one by one, so even the tables differ |
| `ResultsTable.SuccessBeatsFailure` | crates/persistence/src/sqlite/results.rs:248-401 | in any batch, a key reported both succeeded and failed ends completed and the failure is ignored |
| `ResultsTable.CompletedRow` | crates/persistence/src/sqlite/results.rs:248-401 | in any batch a row leaves running at most once, under its own id, by an item that was answered accordingly |
| `ResultsTable.RependedRow` | crates/persistence/src/sqlite/results.rs:365-377 | an item answered Repend belongs to a row that was running under its id, is now failed, and was attempted no more often than its queue's retry limit |
| `ResultsTable.FinalRow` | crates/persistence/src/sqlite/results.rs:365-377 | an item answered as a final failure belongs to a running row attempted more often than its queue's retry limit |
| `ResultsConn.Conn.DispatchBatch` | crates/persistence/src/sqlite/results.rs:158-245 | the chunk loop is the dispatch transaction; once committed it answers row for row exactly if every row could be dispatched, and otherwise reports the error raised after the commit |
| `ResultsConn.Conn.RunPass` | crates/persistence/src/sqlite/results.rs:271-378 | one pass of 256-row statements over the successes, or over the failures, does what the pass does as a whole |
| `ResultsConn.Conn.CompleteBatch` | crates/persistence/src/sqlite/results.rs:248-401 | the two passes together are the completion transaction, in table and dispositions |
| `ResultsConn.BeatenIffEarlier` | crates/persistence/src/sqlite/results.rs:271-378 | an item is beaten by an earlier statement exactly if an item of its kind and key lies in an earlier chunk |
| `ResultsConn.TwoPasses` | crates/persistence/src/sqlite/results.rs:271-378 | a pass over the successes followed by one over the failures amounts to the whole transaction |
| `ResultsConn.Conn.AbandonAttempt` | crates/persistence/src/sqlite/results.rs:403-413 | only a row running under that dispatch id is failed |
| `ResultsConn.Conn.RecoverStale` | crates/persistence/src/sqlite/results.rs:415-490 | exactly the running rows whose lease ended before now are failed, each reported once with its id; it is to be repended if its count is at most its queue's retry limit |
| `IngestTable.SelectionIsUnique` | crates/persistence/src/sqlite/ingest.rs:221-244 | a claim has one possible selection: the oldest free rows of the queue, ties by id |
| `IngestTable.OldestFirst` | crates/persistence/src/sqlite/ingest.rs:221-244 | a claim takes free rows in order of creation time, ties by id, and leaves a free row behind only if it is full and the row comes after all it took |
| `IngestConn.SelectFree` | crates/persistence/src/sqlite/ingest.rs:221-244 | the rows taken are that selection |
| `IngestConn.ClaimRows` | crates/persistence/src/sqlite/ingest.rs:245-287 | the chunked updates give each selected row its own fresh id, touch nothing else and describe each row as it now stands, with its queue's timeout |
| `IngestConn.ClampClaim` | crates/persistence/src/sqlite/ingest.rs:209-209 | the limit used is the one in 1..=1048576 nearest to the limit asked for |
| `IngestConn.EveryCallerGetsItsRow` | crates/persistence/src/sqlite/ingest.rs:125-198 | consecutive ids handed out by position give each request for a known queue the id of the row that holds its own job, in arrival order |
| `IngestConn.Conn.EnqueueBatch` | crates/persistence/src/sqlite/ingest.rs:125-198 | each caller with a known queue gets the id of its own row, ids grow in arrival order, the table gains exactly those rows; unknown queues and a failed transaction are answered with errors and add nothing |
| `IngestConn.Conn.InsertRows` | crates/persistence/src/sqlite/ingest.rs:157-184 | working ids back from the last row id of each 256-row statement yields the ids of the inserted rows |
| `IngestConn.Conn.ClaimBatch` | crates/persistence/src/sqlite/ingest.rs:200-288 | an unknown queue is an error and changes nothing; otherwise the oldest free rows are bound to fresh ids and reported with the queue's timeout |
| `IngestConn.Conn.RependClaim` | crates/persistence/src/sqlite/ingest.rs:290-318 | a row is freed only if it still carries that dispatch id |
| `IngestConn.Conn.HealOrphanClaims` | crates/persistence/src/sqlite/common.rs:481-514 | exactly the claims no execution records are freed |
| `IngestConn.HealedRows` | crates/persistence/src/sqlite/common.rs:481-514 | after the repair a row is as it was if it was free or some execution records its id, and free otherwise |
| `Store.SqliteStore.constructor` | crates/persistence/src/sqlite/store.rs:33-58 | opening keeps the phases and leaves no claim without a recorded execution |
| `Store.SqliteStore.ClaimBatch` | crates/persistence/src/sqlite/store.rs:82-117 | on success the oldest free jobs come back, each running under the id both databases hold, with one more attempt and leased for the queue's timeout from the claim on; on any error both databases are as before |
| `Store.LeaseLasts` | crates/persistence/src/sqlite/store.rs:91-99 | a lease lasts for the queue's timeout in milliseconds from the claim on, up to the largest 64-bit time |
| `Store.SqliteStore.DispatchClaim` | crates/persistence/src/sqlite/store.rs:92-117 | a refused dispatch is compensated exactly: every claimed row is as it was before the claim |
| `Store.SqliteStore.Report` | crates/persistence/src/sqlite/store.rs:189-201 | a result takes effect as one completion, and the claim is given back exactly for a retry |
| `Store.SqliteStore.Complete` | crates/persistence/src/sqlite/store.rs:173-187 | a report under the running attempt returns the whole job: completed with its payload, or with its error message pending again if its count is at most the retry limit and failed otherwise; any other report returns nothing and changes nothing |
| `Store.SqliteStore.CompleteWorkerResult` | crates/persistence/src/sqlite/store.rs:189-201 | true exactly for a failure of the running attempt whose count is at most the retry limit, and then the job is free |
| `Store.SqliteStore.ReleaseClaim` | crates/persistence/src/sqlite/store.rs:203-211 | unknown jobs are errors, other attempts are left alone, a running attempt is failed as abandoned and its claim freed, and the phases survive exactly if that attempt had not completed |
| `Store.SqliteStore.RecoverStaleLeases` | crates/persistence/src/sqlite/store.rs:213-225 | field by field: every attempt whose lease ended before now is failed, those counted at most the retry limit free their jobs, nothing else changes, and each such job is returned once as a client then reads it |
| `AttemptInvariant.Keeps` | crates/persistence/src/sqlite/store.rs:82-225 | the phase invariant is inductive under every step of every call, in any interleaving, crash and reopen included |
| `AttemptInvariant.ClaimIsDispatchable` | crates/persistence/src/sqlite/results.rs:192-199 | whenever the dispatch half of a claim runs, its jobs have no live execution and its ids are unused |
| `AttemptInvariant.PoliciesAreFree` | crates/persistence/src/sqlite/store.rs:139-143 | the phase invariant does not depend on the queue policies, so either half of an upsert may land at any time |
| `AttemptRuns.EveryJobIsInPhase` | crates/persistence/src/sqlite/store.rs:82-225 | in every reachable state a live execution has its job bound to its id; a free job has no execution or a failed one |
| `AttemptRuns.DispatchAnswersEveryRow` | crates/persistence/src/sqlite/results.rs:232-245 | in every reachable state a pending dispatch never fails after its commit, commits exactly if queues and counters allow, and its rows carry the ids ingest holds |
| `AttemptQueues.QueuesReachResults` | crates/persistence/src/sqlite/store.rs:139-143 | in every run without crashes each queue ingest knows is known to results, or the second write of its upsert is in flight |
| `AttemptQueues.OnlyFullCountersRefuse` | crates/persistence/src/sqlite/results.rs:158-245 | when no such write is in flight, the databases refuse a dispatch exactly if an attempt counter is full |
| `AttemptQueues.UnknownQueueRefuses` | crates/persistence/src/sqlite/store.rs:139-143 | while results does not know a queue, as after a crash between the two writes, every claim that takes a new job of it is refused |
| `AttemptRuns.CrashesFreeOrphansOnly` | crates/persistence/src/sqlite/common.rs:481-514 | however often healing is itself interrupted, only claims no execution records are freed |
| `AttemptRuns.ReopeningRestoresThePhases` | crates/persistence/src/sqlite/store.rs:33-58 | from a crash at any step of any run, reopening restores the invariant, changes no execution, keeps exactly the recorded claims and frees all others |
| `AttemptRuns.OrphanIffUnrecorded` | crates/persistence/src/sqlite/common.rs:496-503 | a claim looks orphaned to the repair exactly if its own job's execution does not carry its id |
| `AttemptRuns.RunAccountsForFailures` | crates/persistence/src/sqlite/store.rs:173-225 | in every run a job still bound to a failed attempt has its repend in flight, has used up its retries, or lost its repend to a crash |
| `AttemptRetries.NoJobIsLost` | crates/persistence/src/sqlite/store.rs:173-225 | in every run without crashes whose queues allow m retries or more: when nothing is in flight each job is free, running, completed, or failed after more than m attempts |
| `AttemptProgress.OldestJobCanComplete` | crates/persistence/src/sqlite/store.rs:82-201 | from every reachable state with the store open, the oldest free job of a queue can be claimed, dispatched, and then released or completed with any payload, unless results does not know its queue or its attempt counter is full |
| `AttemptRetries.GivingUpTakesEveryRetry` | crates/persistence/src/sqlite/results.rs:365-377 | crashes included: a job still bound to a failed attempt has its repend in flight, lost it to a crash, or was attempted more than m times |
| `AttemptRetries.RunIsPatient` | crates/persistence/src/sqlite/results.rs:476-485 | the inductive form: an id given up on is never dispatched again, and its execution had used more than m attempts |
| `AttemptRuns.AttemptsAreBounded` | crates/persistence/src/sqlite/results.rs:365-377 | over every run, crashes included, attempts are at most 1 + the largest retry limit + the claims handed back by release; heals and refused dispatches use up none |
| `AttemptRuns.RunKeepsBounded` | crates/persistence/src/sqlite/results.rs:476-485 | the inductive form: a job that may be dispatched again is one below that bound |
| `AttemptRuns.AttemptEndsOnce` | crates/persistence/src/sqlite/results.rs:283-293 | once nothing runs under a dispatch id any more, nothing ever does again, so it ends at most once among complete, abandon and recover |
| `AttemptRuns.SpentForever` | crates/persistence/src/sqlite/results.rs:403-413 | an id whose attempt is over is never dispatched again |
| `AttemptRelease.ReleaseEndsTheAttempt` | crates/persistence/src/sqlite/store.rs:203-211 | in every run, a release that gets to its end without a crash leaves its job unbound from the released attempt, which neither runs nor completed |
| `AttemptRelease.KeepsFreeing` | crates/persistence/src/sqlite/store.rs:203-211 | the inductive form: while a released job is still bound, the abandon or the repend of its release is in flight |
| `AttemptRuns.CompletedForever` | crates/persistence/src/sqlite/results.rs:283-293 | a completed execution never changes, payload included |
| `AttemptRuns.CompletedReadsStay` | crates/persistence/src/sqlite/store.rs:60-64 | once any read of the two databases shows Completed, every read finishing later does, with the same payload, although no read sees both at once |
| `AttemptRuns.ReleaseFreesLiveJobIffCompleted` | crates/persistence/src/sqlite/store.rs:203-211 | a release run to its end frees a job with a live execution exactly if the attempt had completed |
| `AttemptRuns.FreedCompletedJobIsStuck` | crates/persistence/src/sqlite/results.rs:192-199 | from any state, however it goes on: a completed row never changes, and every dispatch that takes its job again fails after its commit |
| `Lanes.ConfirmsEveryThird` | crates/engine/src/adaptive.rs:36-55 | a direction is confirmed exactly on every third sample of an unbroken run of equal nonzero samples |
| `Lanes.StreakCountsTheRun` | crates/engine/src/adaptive.rs:36-55 | after any history the streak holds the last direction and the run's length modulo three |
| `Lanes.DirectionStreak.ConfirmSample` | crates/engine/src/adaptive.rs:36-55 | the fields updated in place follow that streak |
| `Lanes.ResultsLaneController.SelectLane` | crates/persistence/src/sqlite/adaptive.rs:68-135 | the controller's fields and its choice follow the selection function |
| `Lanes.ResultsLaneController.RecordLaneTurn` | crates/persistence/src/sqlite/adaptive.rs:157-163 | a preferred turn is counted, any other resets the count |
| `Lanes.LaneIsServed` | crates/persistence/src/sqlite/adaptive.rs:68-163 | from any state with a preference, an active lane is passed over at most as long as its remaining patience, at most 33 turns, against any pressure |
| `Lanes.FairExactlyWithPreference` | crates/persistence/src/sqlite/adaptive.rs:68-163 | from any point of any run, an active lane is passed over at most 33 times in a row, against any pressure, if and only if a preference exists or the lane is completion |
| `Lanes.CompletionIsServed` | crates/persistence/src/sqlite/adaptive.rs:122-127 | completion is never starved, even before a preference: at most 32 turns |
| `Lanes.DispatchStarvesWithoutPreference` | crates/persistence/src/sqlite/adaptive.rs:122-127 | from any controller without a preference, equal pressure passes dispatch over any number of times |
| `Lanes.LaneIsServedInEveryRun` | crates/persistence/src/sqlite/adaptive.rs:68-163 | the same over every run of the writer from the start |
| `Lanes.ThirtyThreeIsReached` | crates/persistence/src/sqlite/adaptive.rs:68-163 | some run does pass an active lane over 33 times in a row |
| `Lanes.PreferenceNeedsThreeSamples` | crates/persistence/src/sqlite/adaptive.rs:96-121 | over every run the preference changes only when the last three weighed directions are equal, and then to the lane they point to |
| `Writers.Writer.RunResults` | crates/persistence/src/sqlite/results.rs:726-935 | whatever arrives when, including on disconnect: the loop ends with every request answered exactly once, in FIFO order within its class, or turns for ever with nothing left but dispatch requests without rows; it always ends if every dispatch request has rows; and any 34 lane turns in a row answer a request of a lane that stays active, once a preference exists or if the lane is completion |
| `Writers.Writer.LaneTurn` | crates/persistence/src/sqlite/results.rs:755-800 | the lane served is the one the controller gives for what is queued, the turn is recorded, and the oldest request of that lane is answered; nothing is served exactly if only dispatch requests without rows are queued |
| `Writers.TurnsAreFair` | crates/persistence/src/sqlite/results.rs:894-913 | lane turns taken by the controller's rules serve an active lane within 34 of them |
| `Writers.Writer.RunIngest` | crates/persistence/src/sqlite/ingest.rs:529-690 | the ingest loop ends with every request answered exactly once, in FIFO order within its class |
| `Writers.Writer.IngestTurn` | crates/persistence/src/sqlite/ingest.rs:550-590 | queue upserts before claims before enqueues, each class from its oldest request on |
| `Writers.Writer.BatchTurn` | crates/persistence/src/sqlite/results.rs:806-896 | a batch is what was queued of its class, up to the target, and then what arrives of it until the batch is full, time is up, a request preempts it or the channel closes; what else arrives is queued under its class, nothing after a preempting request is taken, and the whole batch is answered |
| `Writers.Writer.Drain` | crates/persistence/src/sqlite/results.rs:787-804 | when the channel has closed, everything still queued is answered |
| `Writers.SameWithinKindsIsPermutation` | crates/persistence/src/sqlite/results.rs:726-935 | FIFO within each class means every request is answered exactly as often as it was sent |
| `Writers.TurnServesNothingIff` | crates/persistence/src/sqlite/results.rs:713-716 | a turn serves nothing exactly if only dispatch requests without rows are queued |
| `Scheduler.QueueScheduler.ScheduleQueue` | crates/engine/src/lib.rs:397-418 | field by field: a scheduled queue gets its rerun flag, any other becomes scheduled, leaves the idle set and sends one token |
| `Scheduler.QueueScheduler.FinishPass` | crates/engine/src/lib.rs:604-652 | field by field: Active, or a rerun flag without Retry, keeps the queue scheduled and sends a token; Retry counts up to 7 and starts a timer; otherwise the queue is unscheduled and enters set and deque once |
| `Scheduler.QueueScheduler.SeedIdleQueues` | crates/engine/src/lib.rs:450-464 | the listed queues enter the set, and those it did not have enter the back of the deque, once each |
| `Scheduler.QueueScheduler.PopIdle` | crates/engine/src/lib.rs:466-483 | a probe takes entries off the front until it has a batch of unscheduled ones or the deque is empty |
| `Scheduler.QueueScheduler.ProbeIdleQueues` | crates/engine/src/lib.rs:466-488 | what was found is scheduled, and repeated entries send one token |
| `Scheduler.ReachFindsBatch` | crates/engine/src/lib.rs:474-481 | the number of entries a probe takes is the least that yields its batch, or all, and at least a batch if there are so many |
| `Scheduler.ReachIsOnly` | crates/engine/src/lib.rs:474-481 | and no other number fits that description |
| `Scheduler.BackoffDoubles` | crates/engine/src/lib.rs:632-638 | the k-th retry in a row waits min(10 * 2^k, 1000) ms for every k, so capping the count at 7 never shortens a wait |
| `Scheduler.Delays` | crates/engine/src/lib.rs:632-638 | the waits are 20, 40, 80, 160, 320, 640 and 1000 milliseconds |
| `SchedulerRuns.RunKeepsInvariant` | crates/engine/src/lib.rs:397-488 | the scheduler's invariant holds in every state of every run |
| `SchedulerRuns.QueuesAreTracked` | crates/engine/src/lib.rs:397-488 | always: exactly one token (send under way, channel, pass or timer) if scheduled and none otherwise; the idle set lies within the deque; every known queue is scheduled, idle or in the probe's hand, and outside a probe scheduled or idle |
| `SchedulerRuns.ProbeHoldsQueue` | crates/engine/src/lib.rs:466-488 | seeding a queue and probing it reaches a state in which the queue is known and in the probe's hand, but neither scheduled nor idle |
| `SchedulerRuns.KeepsToken` | crates/engine/src/lib.rs:604-666 | every step moves a queue's one token or leaves it: a send, a pass taken or finished, and a retry timer that fires |
| `SchedulerRuns.NoWakeUpIsLost` | crates/engine/src/lib.rs:397-418 | after any schedule call a token outside the current pass or a set rerun flag remains until a later pass of that queue starts |
| `SchedulerRuns.ActivePassRunsAgain` | crates/engine/src/lib.rs:616-620 | after a pass that found as many jobs as slots, a wake-up remains until a later pass of the queue starts, and the queue leaves the schedule only after that |
| `SchedulerRuns.QuietPassParks` | crates/engine/src/lib.rs:621-633 | a pass that found fewer and during which nobody asked again unschedules its queue and makes it idle, with no token left |
| `SchedulerRuns.IdleOnlyAfterALaterPass` | crates/engine/src/lib.rs:604-652 | a queue leaves the schedule only after a pass that started after the last call to schedule it |
| `SchedulerRuns.IdleEntryIsProbed` | crates/engine/src/lib.rs:466-488 | an entry k places behind the front is scheduled within k / batch + 1 probes, despite stale and repeated entries |
| `SchedulerRuns.EntryAdvances` | crates/engine/src/lib.rs:466-488 | after p probes an entry is at least p batches nearer the front, or a probe has taken it |
| `DrainPass.Pass.Run` | crates/engine/src/lib.rs:517-602 | whatever the surroundings do: with headroom the dispatcher is asked once, for equal shares, and if that fails every queue is to be retried; of the permits granted all are kept, or at least the headroom; each queue makes one claim for as many jobs as permits were kept for it and its outcome fits the answer; every claimed job goes to the pump unless the pump has stopped, and then its claim is released and its queue woken; each granted permit is released or handed over once, each queue finished once, the budget conserved, the channel never full |
| `DrainPass.Pass.ReserveShares` | crates/engine/src/lib.rs:530-538 | one request for each queue, all for the same count of at least one and at most a batch, and either a batch or the most the headroom allows each queue |
| `DrainPass.SharesAreEqual` | crates/engine/src/lib.rs:530-538 | the share is the largest count that fits: one more for each queue would exceed the headroom, unless it is a whole batch already |
| `DrainPass.Pass.ServeQueue` | crates/engine/src/lib.rs:558-600 | one queue: a single claim for as many jobs as it has permits, never more; Active exactly for as many jobs as permits, Idle for fewer, Retry for a failed claim |
| `DrainPass.Pass.ServeAll` | crates/engine/src/lib.rs:557-601 | every queue is finished once, in order; the claims made are those the kept permits allow, queue by queue, and a queue is capacity-blocked exactly if no permit was kept for it |
| `DrainPass.Pass.KeepWithinBudget` | crates/engine/src/lib.rs:545-556 | each permit is paired with a budget permit and collected under its own queue, or released; all are kept, or at least as many as the budget had |
| `DrainPass.Pass.KeepOrRelease` | crates/engine/src/lib.rs:547-555 | a permit is kept exactly if the budget has a permit left |
| `DrainPass.Pass.Deliver` | crates/engine/src/lib.rs:576-596 | with a budget permit in hand the send succeeds unless the pump has stopped; then slot, claim and wake-up are given back |
| `DrainPass.Pass.TrySend` | crates/engine/src/lib.rs:585-588 | the bounded channel: full exactly at its capacity, and a refused work item changes nothing in it |
| `DrainPass.Pass.FinishAll` | crates/engine/src/lib.rs:524-544 | a pass that stops early finishes each of its queues once with that outcome |
| `DrainPass.SharesFit` | crates/engine/src/lib.rs:530-538 | equal shares ask for no more than the headroom, unless one slot per queue is already more, and never for more than a batch each |
| `DrainPass.FlatAdd` | crates/engine/src/lib.rs:545-556 | a permit collected under its queue is counted for exactly one queue of the pass |
| `Registry.FindIdealWorker` | crates/dispatcher/src/lib.rs:138-170 | finds the worker of the queue with a free slot whose share of capacity taken, (reserved + max(running, in flight)) / capacity, is least, ties by id, or none if none has a free slot |
| `Registry.IdealIsLeastLoaded` | crates/dispatcher/src/lib.rs:138-170 | least in the registry's order means least by that share as a real number, then by id |
| `Registry.FreeSlotsAreExact` | crates/dispatcher/src/lib.rs:224-233 | saturating 32-bit arithmetic gives the true number of free slots, whatever the worker reports |
| `Registry.LoadsCompare` | crates/dispatcher/src/lib.rs:172-176 | cross-multiplying compares the shares themselves |
| `Registry.IdealIsUnique` | crates/dispatcher/src/lib.rs:138-170 | there is only one such worker, so the map's order does not matter |
| `Registry.PrecedesTransitive` | crates/dispatcher/src/lib.rs:172-176 | comparing loads by cross-multiplication, then ids, is transitive |
| `Registry.ProductsFit` | crates/dispatcher/src/lib.rs:172-176 | the products of 32-bit slot counts fit 64 bits |
| `Registry.ReserveFor` | crates/dispatcher/src/lib.rs:58-72 | grants min(requested, available) slots, and evenly: before its last slot a chosen worker's share of capacity was at most the final share of every worker that had room |
| `Registry.BalanceIsEven` | crates/dispatcher/src/lib.rs:58-72 | the balance kept by the greedy loop, as an inequality of shares |
| `Registry.GrantKeepsBalance` | crates/dispatcher/src/lib.rs:58-72 | one more slot for the ideal worker keeps that balance |
| `Registry.BooksAlwaysBalance` | crates/dispatcher/src/lib.rs:49-132 | in every reachable registry reserved slots equal the permits out and reserved + in flight fits the capacity, whatever workers report, so no counter saturates |
| `Registry.KeepsBalance` | crates/dispatcher/src/lib.rs:212-258 | every registry step keeps the books |
| `Registry.WorkerRegistry.RegisterWorker` | crates/dispatcher/src/lib.rs:708-731 | a known instance id is refused; a new one starts with nothing reserved or in flight and a capacity of running plus free slots, at most 2^32 - 1 |
| `Registry.WorkerRegistry.ReserveSlots` | crates/dispatcher/src/lib.rs:49-75 | request by request, slots come evenly from workers of the queue with room; with distinct queues each is granted exactly what it asked for or what its queue had; only reservations change, and permits grow by exactly the grants |
| `Registry.WorkerRegistry.DispatchJob` | crates/dispatcher/src/lib.rs:93-118 | uses up one reservation on every path and goes in flight exactly if the worker is known, not draining, new to the id and its channel open |
| `Registry.WorkerRegistry.ReleaseDispatched` | crates/dispatcher/src/lib.rs:218-222 | a failed write takes its id out of flight and changes nothing else |
| `Registry.WorkerRegistry.Release` | crates/dispatcher/src/lib.rs:212-216 | takes exactly one reservation off the counter, which is never zero then |
| `Registry.WorkerRegistry.RecordWorkerResult` | crates/dispatcher/src/lib.rs:235-244 | stores the snapshot, takes its own id out of flight and changes nothing else |
| `Registry.WorkerRegistry.BeginDrain` | crates/dispatcher/src/lib.rs:246-258 | marks the worker draining and keeps the books |
| `Registry.WorkerRegistry.DisconnectWorker` | crates/dispatcher/src/lib.rs:802-802 | removes the worker and no other |
| `Session.Keeps` | crates/worker-sdk/src/lib.rs:163-234 | every step of either end keeps the session invariant |
| `Session.WorkerIsNeverOverloaded` | crates/worker-sdk/src/lib.rs:278-345 | in every reachable state live jobs fit the concurrency, a task wanting a slot finds one, every report says how many slots are free, at least one, and that the others run, and an idle worker that is not draining is eligible however snapshots are reordered |
| `Session.SlotsComeBack` | crates/dispatcher/src/lib.rs:235-244 | in every reachable state a dispatch that was sent is in flight exactly until its result is read, so every slot comes back |
| `Session.FailedWriteComesBack` | crates/dispatcher/src/lib.rs:119-126 | over all runs, a dispatch whose write failed is out of flight for good once it has been released |
| `Session.ReportsWereTrue` | crates/worker-sdk/src/lib.rs:303-345 | over all runs, every result reports as running the tasks that held a slot at one earlier moment, and as free all other slots |
| `Session.SlotsNeverRunOut` | crates/worker-sdk/src/lib.rs:303-331 | a task that does not hold a slot always finds one free |
| `Session.LiveJobsFit` | crates/dispatcher/src/lib.rs:224-244 | every job live at the worker is in flight at the dispatcher, and they fit the concurrency |
| `Session.IdleWorkerIsEligible` | crates/dispatcher/src/lib.rs:224-233 | nothing reserved, nothing in flight and not draining means available |
| `Session.DrainLosesNothing` | crates/worker-sdk/src/lib.rs:181-233 | over all interleavings no dispatch follows Draining, the SDK refuses no frame of this server, and when `serve` returns every dispatch ever queued to the session has had its result written |
| `SessionDrain.ShutdownFinishes` | crates/worker-sdk/src/lib.rs:181-233 | over all interleavings, once a shutdown was asked for and while neither end fails: until `serve` returns some step of the handshake, a task or a report can be taken, and such steps are at most those left at the start, ten for each further dispatch and two for each heartbeat |
| `SessionDrain.NeverStuck` | crates/worker-sdk/src/lib.rs:195-233 | no reachable state of a shutdown is a deadlock: frames, tasks, reports and the handshake always leave one step to take |
| `SessionDrain.StepCounts` | crates/worker-sdk/src/lib.rs:195-345 | each such step uses up at least one of the steps left |
| `Session.DroppedIsNeverReported` | crates/dispatcher/src/lib.rs:119-126 | a dispatch whose write failed never starts a task and never gets a result, in any later state |
| `Session.NothingAfterDraining` | crates/dispatcher/src/lib.rs:246-258 | nothing is dispatched behind the drain acknowledgement |
| `Session.DrainIsReadOnce` | crates/dispatcher/src/lib.rs:788-791 | a drain request meets a worker that is not draining and not yet acknowledged |
| `Session.ReturnMeansAllReported` | crates/worker-sdk/src/lib.rs:181-184 | a session that returned has written a result for every dispatch queued to it |

## Left out

- Cleanup and vacuum: with reused row ids an old execution can meet a new job, so the invariant is stated for runs without them.
- The repend of a retry that a crash cuts off is not restored by healing; such attempts are the `stranded` ones, and no claim is made that they are retried.
- Failure as a final state: a late release can free an attempt that recovery had given up on, so the retry bound is stated instead.
- `updated_at` columns, row ids of executions and wall-clock time; leases use abstract integers.
- Rate averages, batch-size and batch-wait tuning and the pressure value: the lane controller meets any sequence of directions, a batch any target size.
- SQL text, schema migration, the read pool, TLS, Docker supervision, the HTTP interface, client SDK, configuration and benchmarks.
- Byte-level framing and CBOR encoding, and the identity check of the `Registered` frame.
- `repend_batch` with several pairs at once: the store only ever sends one.
- Which rows share a statement in `recover_stale`: its result does not depend on it.
- The delivery pump's own dispatch and release, apart from their effect on budget and channel; the wake-up that follows a delivery is one of the callers in `SchedulerRuns`.
- Store.SqliteStore.ClaimBatch: one call on its own; what other calls do between its two steps is in `AttemptRuns`. The same holds of the other calls of `Store.SqliteStore`.
- Store.SqliteStore.Complete: read errors of a job that is known to exist are not modelled.
- Store.SqliteStore.RecoverStaleLeases: read errors of a job that is known to exist are not modelled.
- Registry.WorkerRegistry.RegisterWorker: the registration timeout and the unknown-queue error frame are not modelled.
- Termination of the scheduler loop, and of a session that nobody shuts down.
