# getitdone: verified model of the task queue

`getitdone` lets callers and workers talk through atomic updates of single
documents in one MongoDB collection. This project models that protocol, the
worker's scheduler and its expiry tracker in Dafny 4.11, and proves what they
guarantee over every interleaving and every run.
`dafny verify dfyconfig.toml` checks it.

| file | contents |
|---|---|
| `Prelude.dfy` | `Option`, `Result`, 64-bit saturation and truncation |
| `Documents.dfy` | the task document; the three computations of a running document's lease |
| `Store.dfy` | the atomic operations as functions on the collection, claim filters, change events |
| `Lifecycle.dfy` | the simple machine one task should follow, and what every legal history has |
| `Protocol.dfy` | callers, workers, claims and late writes as one state machine; its invariant |
| `Guarantees.dfy` | output/input agreement, fencing, conservation, one verdict per claim, over all runs |
| `BeatOrder.dfy` | a claim's heartbeats reach the database in the order of their times |
| `LeaseTime.dfy` | when a running task can change hands, and that beating in time keeps it |
| `Executions.dfy` | how often one accepted enqueue is executed |
| `Heartbeats.dfy` | the heartbeat loop and when it aborts the handler |
| `Progress.dfy` | what claims can do in every reachable state, and that no task is beyond finishing |
| `CallerWait.dfy` | how a caller reads results, and that it is told the truth |
| `Expiry.dfy` | class `ExpiryTracker`, refined to a plain map |
| `Feed.dfy` | scans, change events, own claims and pops feeding the tracker; what it can be trusted for; incremental equals rescan |
| `Scheduler.dfy` | the worker loop, pumps, permits, registry and wakeups as an interleaved state machine |
| `SchedulerProgress.dfy` | what the worker loop can always do: pumps end, and find and start what there is |
| `Collection.dfy` | the database commands as methods of a collection object, with the faults they meet as its input |
| `Processing.dfy` | `process_task` for one claimed document, with interference between its commands |
| `Pump.dfy` | the two pumps as loops over collection, tracker and permits |

How the parts fit together. `Store` defines each operation once, as a function
`Apply` on the collection with a condition `Enabled`; the methods of
`Collection` and both state machines use it. `Protocol` shows that the history
of accepted enqueues, claims, terminal writes and removals is a legal history
of `Lifecycle` and that every document is the replay of that history;
`Guarantees` and `CallerWait` read their theorems off this. A write that was
sent stays in the state and may land at any later time, any number of times, or
never, so delays, retries and lost answers are all covered; only a heartbeat that
was answered is through. In
`Scheduler` the loop is cut at every point where another caller, worker or
handler can run in between; the collection there changes by arbitrary
operations of anyone.

## Assumptions

- Each find-and-update or update is one atomic step on one document; `task_id`
  is present and unique; object ids of inserted documents are not in use.
- Which database commands are not answered, with or without their effect, is an
  input of the collection object.
- A claim token is one that was never issued before (a UUID).
- One clock, starting at 0 and never going back; every timestamp a process
  writes was read from it earlier.
- A claim sends its heartbeats one at a time, as its loop does: the next one, with
  a time read afterwards, only after an answer that the last one matched, and none
  after an unanswered one, which may still land. An answered heartbeat does not
  land again. A claim that has exited may send one more before its loop notices.
- The user's handler is an arbitrary relation from task and stored input to a
  serialized output or an error text, together with a set of inputs that
  deserialize.
- A sort document ranks documents by a real number. The change event of a claim
  carries the whole `worker_state`; a write that changes nothing has no event.
- Identifiers are compared for equality only. Requested timeouts are whole
  milliseconds and may be any natural number, zero included; storing one truncates
  it to 64 bits as the code does. The heartbeat loop's interval is in nanoseconds,
  like the `Duration` it is.
- `time::interval` panics on a period of zero, as its documentation says.

## Where the code and what is said about it differ

- The comments on heartbeat outcomes (src/worker.rs:1351-1371) say that only a
  superseded claim may abort the handler. The select arm fires on a closed channel
  as well, and two things close it: a transient error, which ends the heartbeat
  loop, and a timeout of zero, with which the loop panics before its first tick.
  `TransientErrorAborts` and `ZeroTimeoutAborts` are witnesses, `AbortsExactly` says
  exactly when the rule holds.
- `defer` alone would leave an id in two buckets if the id were still tracked.
  Its contract says exactly when the index survives; `NextIsAbsent` shows that
  the only caller is safe.
- The deadline that an event gives is the deadline of a rescan only when the
  timeout carried by the event gives the same as the task's own.
  `HeartbeatEventMisleads` is a witness, `DeadlineIsExactIff` gives the exact
  condition. Which documents are tracked does not depend on it.
- When the stream is reopened and the scan's query fails, events in between are
  lost and the tracker keeps what it had: the one case in which a tracked document
  need not be running. `LostEventMisleads` is a witness; `CaughtUpIsTrue` says that
  the document is running exactly if the last event about it, which
  `LostEventIsTheLast` shows to be a lost one, was a claim or a heartbeat.
- A timeout whose low 64 bits have the top bit set, as from 2^63 ms to 2^64 - 1 ms,
  turns negative when stored, and then the database and the worker disagree about
  the lease; a multiple of 2^64 ms is stored as zero: `TimeoutsAgreeExactly`,
  `TimeoutsCanDisagree`, `RequestedTimeoutIsKept`.
- The repository's README (README.md:182) promises that each claimed task runs
  exactly once. It can run twice: `FailedOutputIsExecutedTwice` has a run in which an
  output does not serialize and the same worker takes the task again, and
  `ExpiredLeaseIsExecutedTwice` one in which two handlers run side by side. For an
  accepted enqueue its handler is started at most once exactly if no claim made on
  it while it is running falls between two starts (`StartedOnceIff`), and it is
  claimed at most once exactly if there is no such claim (`ClaimedOnceIff`). Such a
  claim is open exactly to the worker id that holds the task and, once the lease has
  run out, to anyone (`ReclaimIsOpenIff`). What always holds is one terminal write per claim
  (`OneTerminalWritePerClaim`) and one accepted terminal write per accepted enqueue
  (`EnqueuesAreConserved`).

## Model

| member | source | states |
|---|---|---|
| `Documents.TimeoutsAgreeExactly` | src/worker.rs:632-652 | the timeout in the database filter equals the worker's and the tracker's exactly if the deciding stored timeout is not negative, or, with none stored, the default fits in 64 bits |
| `Documents.TimeoutsCanDisagree` | src/worker.rs:1451-1461 | a stored -1 makes the filter use -1 ms and the worker its own default |
| `Documents.DueIffStale` | src/worker/expiry.rs:56-57 | with agreeing timeouts a tracked deadline is due exactly when the database accepts a stale claim; the deadline is heartbeat plus timeout, or the largest 64-bit number |
| `Store.EnqueueContract` | src/caller.rs:313-443 | an accepted enqueue leaves a fresh pending document with the caller's input and timeout under its old identity, a rejected one changes nothing; a stored task is reset exactly if it is finished and the caller's predicate, or without one the configuration flag, allows it, and is a duplicate otherwise |
| `Store.ClaimContract` | src/worker.rs:598-620 | a claim makes the document running for the claimant and its token, with start and heartbeat at the time of the claim, and leaves the caller's input and timeout and every other document alone |
| `Store.WriteContract` | src/worker.rs:1220-1256 | a write is accepted exactly if the task runs for its worker and token; a heartbeat then sets the heartbeat alone, a terminal write stores its outcome, any other write changes nothing |
| `Store.QueriesFind` | src/worker.rs:533-562 | which documents each claim query finds, in terms of their fields |
| `Store.EveryOperationIsReported` | src/worker.rs:691-728 | every operation has an event about its own document |
| `Store.RequestedTimeoutIsKept` | src/caller.rs:377-377 | database and worker read the same stored timeout exactly if its low 64 bits are not negative, it is the requested one exactly if that fits in 64 bits, and the heartbeat interval is zero exactly if the low 64 bits are zero, or negative with a fallback below 3 ns |
| `Store.EveryPendingDocumentIsAnnounced` | src/worker.rs:691-728 | no event of the program's own operations is dropped by the stream's pipeline, and every document that becomes pending has an event that announces it |
| `Lifecycle.Conservation` | src/caller.rs:416-431 | in every legal history of a task, accepted enqueues equal terminal writes plus cancellations plus one while it is unfinished, and insertions equal removals plus one while it exists |
| `Lifecycle.AcceptedEnqueuesAlternate` | src/caller.rs:350-368 | between two accepted enqueues the task finished or was removed |
| `Lifecycle.OneInsertion` | src/caller.rs:418-423 | without removals there is at most one insertion, and exactly one once the task exists |
| `Lifecycle.PresentWasInserted` | src/caller.rs:409-431 | whatever exists was inserted before, so insertions precede resets and claims |
| `Lifecycle.LostTokenStaysLost` | src/worker.rs:531-531 | an issued token that does not hold the task never holds it again |
| `Lifecycle.FinisherIsLatestClaim` | src/worker.rs:1220-1233 | a terminal write carries the token of the task's most recent claim |
| `Lifecycle.ReplayShowsTheLatest` | src/worker.rs:1041-1257 | a task shows its last accepted input, its last claim, its last outcome, and a success that is a handler result for that input |
| `Protocol.StepKeepsInv` | src/worker.rs:1041-1349 | every step of callers, workers, claims and landing writes keeps: documents have the fields of their status, replay a legal history, and match the copy of the claim that holds them |
| `Protocol.RunKeepsInv` | src/worker.rs:1041-1349 | the invariant holds in every state of every run; histories, claims and the clock only grow |
| `Guarantees.HistoryIsLegal` | src/caller.rs:397-407 | in every reachable state each document has exactly the fields of its status and is the replay of a legal history |
| `Guarantees.OutputMatchesInput` | src/worker.rs:1213-1258 | a succeeded document's output is a handler result for the input stored in it, which is the last accepted one, despite resets, steals and late writes |
| `Guarantees.CurrentIsTheLatestClaim` | src/worker.rs:1078-1083 | a claim holds something only if it holds its own task's document, and then it is that task's latest claim |
| `Guarantees.Fencing` | src/worker.rs:1286-1299 | once an issued claim does not hold its task, no heartbeat, completion or failure write with its token changes any document, however late |
| `Guarantees.OnlyTheLatestClaimWrites` | src/worker.rs:1335-1348 | a write that changes a document carries the token of the task's most recent claim |
| `Guarantees.EnqueuesAreConserved` | src/caller.rs:409-442 | conservation of enqueues per task in every reachable state |
| `Guarantees.ResetsNeedATerminalWrite` | src/caller.rs:352-358 | without removals, a terminal write lies between any two accepted enqueues of a task |
| `Guarantees.OneTerminalWritePerClaim` | src/worker.rs:1123-1272 | a claim sends at most one terminal write over any run, and none after it has exited |
| `Guarantees.FailedOutputIsAbandoned` | src/worker.rs:1216-1219 | a claim whose output does not serialize exits with its document unchanged and no terminal write that could still land |
| `Guarantees.AbandonedStaysRunning` | src/worker.rs:1216-1219 | a claim that exits without a terminal write leaves its task running, and held by it, for as long as nobody claims or removes the task |
| `LeaseTime.ReachableLeasesAgree` | src/worker/expiry.rs:344-354 | on reachable running documents the three lease computations agree exactly if the stored timeout is not negative, and then deadline and stale filter agree |
| `LeaseTime.LoopBeatsEveryThird` | src/worker.rs:1465-1467 | the heartbeat loop of a reachable running task has an interval of a third of the task's lease, to the nanosecond |
| `Progress.ClaimStartsTheLease` | src/worker.rs:598-620 | in every run a claim starts a lease that ends the task's own timeout after the claim, and leaves input and timeout alone |
| `Progress.NoStealDuringTheLease` | src/worker.rs:622-654 | after a claim nobody can take the task as stale with a time before that |
| `Progress.RequestIsKept` | src/caller.rs:372-378 | from an accepted enqueue until the next, or a removal, the task has that enqueue's input and timeout |
| `Progress.LeaseIsTheRequested` | src/caller.rs:377-377 | so a claim cannot be stolen before the timeout its caller asked for is over |
| `Progress.AnythingCanHappen` | src/caller.rs:331-443 | in any state the clock can go on, callers can enqueue, documents can be removed, processes can crash and sent writes can land |
| `Progress.HolderStarts` | src/worker.rs:1114-1119 | a new claim whose input decodes can send its first heartbeat, which starts the handler exactly if it still holds its task |
| `Progress.HandlingClaimCanBeat` | src/worker.rs:1393-1445 | a claim at its handler can beat, and go on beating exactly if it still holds its task, which renews the lease |
| `Progress.EndingIsStored` | src/worker.rs:1213-1272 | every ending of a claim, with its reason text, sends one terminal write that can land, and is stored if the claim still holds its task |
| `Progress.EveryTaskCanSucceed` | README.md:182-182 | from every reachable state every unfinished task whose input decodes can still succeed, with any result of the handler for the input it has |
| `LeaseTime.StealableIffExpired` | src/worker.rs:1011-1031 | a stale claim is possible exactly when heartbeat plus the task's timeout has passed, whatever the claimant's default; a `now` read earlier never makes it possible sooner |
| `BeatOrder.RunKeepsOrder` | src/worker.rs:1393-1445 | in every reachable state each claim has at most one heartbeat that can still land, and the stored heartbeat is no later than it |
| `BeatOrder.BeatsAreInOrder` | src/worker.rs:1329-1349 | a heartbeat that matches is never older than the stored one, so while a claim holds its task the heartbeat never goes back |
| `LeaseTime.BeatRenewsTheLease` | src/worker.rs:1329-1349 | a matched heartbeat moves the end of the lease to its own time plus the task's timeout and keeps the owner |
| `LeaseTime.StepKeepsTheClaim` | src/worker.rs:1011-1031 | while the lease holds, no step but the claim's own terminal write, a removal or a reclaim by its own worker id takes the task from it, and only its own beats touch the heartbeat |
| `LeaseTime.LeaseSafety` | src/worker.rs:622-654 | while a running task's lease has not run out in any state, it never passes to a worker with another id |
| `LeaseTime.BeatingKeepsTheTask` | src/worker.rs:1390-1467 | in any run where a claim's beats are timed a third of the timeout plus a jitter apart and land within a latency, the two together below two thirds of the timeout, the lease never runs out, nobody else takes the task and the claim keeps it until it gives it up |
| `Executions.TakesAreTallied` | src/worker.rs:518-579 | after an accepted enqueue and before the next one, claims are the first one plus the claims of a running task |
| `Executions.ClaimedOnceIff` | src/worker.rs:533-562 | for an accepted enqueue a task is claimed at most once exactly if no claim is made on it while it is running |
| `Executions.StartedOnceIff` | README.md:182-182 | for an accepted enqueue the handler is started at most once exactly if every claim made on the running task comes before any start or is followed by none |
| `Executions.ReclaimIsOpenIff` | src/worker.rs:543-562 | a running task is open exactly to a claim by the worker id that holds it, and to anyone once the lease has run out |
| `Executions.BeatenTaskRunsOnce` | README.md:182-182 | a task whose first claim beats in time and does not give up is claimed once and its handler started at most once |
| `Executions.BeatsCanBeInTime` | src/worker.rs:1390-1396 | a run in which a claim's beats are in time, for every positive timeout |
| `Executions.FailedOutputIsExecutedTwice` | src/worker.rs:1213-1219 | whenever the handler can return an output that does not serialize, a run in which one accepted enqueue gets to it twice with the same input |
| `Executions.ExpiredLeaseIsExecutedTwice` | src/worker.rs:622-654 | whatever the handler, and for every timeout, a run in which two claims of one accepted enqueue are at it at the same time |
| `Processing.ProcessTask` | src/worker.rs:1041-1273 | in terms of the database's answers: a bad input is rejected with one failure write; a first heartbeat that matched starts the handler, one that did not ends the claim without another write, an unanswered one with one failure write; the handler is given up exactly if the channel fires first, otherwise its result is stored with one write whose answer decides the end; every write carries the claim's token |
| `Processing.RunHandler` | src/worker.rs:1151-1258 | the handler is given up exactly if the channel, which is what the answers to its heartbeats make it, fires before the handler's result is taken; a success ends completed exactly if its write matched |
| `Processing.SetUp` | src/worker.rs:1083-1121 | the setup fails exactly if the input is missing or does not decode, the claim does not hold its task, or the first heartbeat is not answered |
| `Processing.AnswersTellTheTruth` | src/worker.rs:1220-1256 | a matched answer means that the claim held its task when the write arrived, and after a terminal write that its outcome is stored |
| `Processing.MarkTaskFailed` | src/worker.rs:1276-1326 | one fenced failure write with the given reason, which takes effect unless it did not reach the database |
| `Heartbeats.RunLoop` | src/worker.rs:1379-1448 | the loop beats until the first answer that is not "matched"; it leaves a message only for a claim that has lost its task, and a closed channel for an error or an interval of zero, in which case it sends nothing |
| `Heartbeats.TransientErrorAborts` | src/worker.rs:1435-1443 | one unanswered heartbeat aborts the handler, against the documented rule |
| `Heartbeats.ZeroTimeoutAborts` | src/worker.rs:1390-1392 | with a timeout of zero the handler is aborted before any heartbeat, against the documented rule |
| `Heartbeats.AbortsExactly` | src/worker.rs:1203-1211 | the select arm that aborts the handler is ready exactly if the interval is zero or some heartbeat was not answered "matched"; the documented rule holds exactly if the timeout is at least 3 ns and no heartbeat the loop gets an answer for ends in an error |
| `Heartbeats.ZeroIntervalIff` | src/worker.rs:1451-1467 | a stored timeout that is not negative gives a zero interval exactly if it is zero |
| `CallerWait.WatchForResult` | src/caller.rs:478-505 | reports the first event's document that has come to an end, and is a database error exactly if the stream fails or closes before one |
| `CallerWait.WaitForResult` | src/caller.rs:445-476 | reports the inspected document if it has come to an end, else the first one of the stream that has; a missing document is a failure; a database error exactly if the inspection failed, or saw an undecided document and the stream failed or closed first |
| `CallerWait.EvaluateReports` | src/caller.rs:507-543 | a document has an answer exactly if it has come to an end, and the answer reports its output or its error |
| `CallerWait.StreamAnswerIsFirstVerdict` | src/caller.rs:495-503 | the stream's answer is the verdict of its first decisive event |
| `CallerWait.EvaluateIsTruthful` | src/caller.rs:507-543 | on every reachable document: no answer exactly while pending or running; otherwise the recorded outcome; never a missing status or output |
| `CallerWait.WaitIsTruthful` | src/caller.rs:445-505 | whatever reachable versions the inspection and the event lookups read, the wait reports an outcome the task reached, and otherwise, only if none of them had come to an end, that the stream failed |
| `Expiry.BucketsAreDetermined` | src/worker/expiry.rs:29-33 | the plain map determines the deadline buckets, and no id is in two buckets |
| `Expiry.ExpiryTracker.Upsert` | src/worker/expiry.rs:49-68 | refines an update of the plain map, keeping a known task id, and keeps both directions inverse |
| `Expiry.ExpiryTracker.Remove` | src/worker/expiry.rs:76-88 | refines removal from the plain map |
| `Expiry.ExpiryTracker.ClearRunning` | src/worker/expiry.rs:40-43 | leaves an empty index |
| `Expiry.ExpiryTracker.Defer` | src/worker/expiry.rs:116-127 | refines an update of the plain map; the index stays consistent exactly if the id was absent or had this deadline |
| `Expiry.ExpiryTracker.NextDelay` | src/worker/expiry.rs:90-98 | nothing exactly if nothing is tracked; otherwise the least wait after which something is due |
| `Expiry.ExpiryTracker.PopDue` | src/worker/expiry.rs:100-114 | returns each due entry once, in order of deadline, and leaves exactly the others |
| `Feed.ScheduleExpirationFromTask` | src/worker/expiry.rs:233-257 | what a document does to the tracker |
| `Feed.ApplyChangeEvent` | src/worker/expiry.rs:266-315 | what an event does to the tracker; ready exactly if it announces pending work |
| `Feed.RefreshRunningExpirations` | src/worker/expiry.rs:135-187 | for a cursor that reads documents at different times: after a complete scan every entry and every absence is what one of those versions shows, after a broken one every entry is and everything read is tracked; a failed query changes nothing |
| `Feed.QuietScanAgrees` | src/worker/expiry.rs:172-185 | after any history one complete scan that nothing interferes with makes the tracker agree exactly with the running documents that have a heartbeat |
| `Feed.EventSettlesItsDocument` | src/worker/expiry.rs:277-301 | an event that does not announce pending work makes its document's entry true: tracked exactly while running, with the timeout the event carries |
| `Feed.OtherEntriesStayTrue` | src/worker/expiry.rs:287-297 | an operation leaves the truth of every other entry, and of an announced one, as it was |
| `Feed.EventKeepsTheTaskId` | src/worker/expiry.rs:58-58 | later events without a task id do not make the tracker forget it |
| `Feed.DroppedEventsDoNotMatter` | src/worker.rs:691-728 | the stream's pipeline drops exactly the updates that touch none of its fields, and these would change nothing |
| `Feed.KnownIdIsRight` | src/worker/expiry.rs:233-257 | in every run the task id that the tracker knows for an object id is that of its document, if object ids are never used twice |
| `Feed.PromisesAreKept` | src/worker.rs:276-460 | in every run of changes, late, replayed and lost events, whole and broken scans, own claims, pops and deferrals, each id's entry is what a version no older than the last event read shows, as far as the last step that concerned the id warrants |
| `Feed.CaughtUpIsTrue` | src/worker/expiry.rs:266-315 | when every event has been read or lost, a tracked document is running unless an event about it was lost, a settled id that is not tracked is not running, and the document of a lost event is running exactly if the last event about it was a claim or a heartbeat |
| `Feed.LastEventDecides` | src/worker.rs:691-728 | after the last event about an id its document is running with a heartbeat exactly if that event was a claim or a heartbeat |
| `Feed.LostEventIsTheLast` | src/worker.rs:276-322 | if an event about an id was lost and nothing has settled the id since, the lost event is the last one about it |
| `Feed.LostEventMisleads` | src/worker/expiry.rs:160-170 | a run in which a success is lost when the stream is reopened and the query fails, and the caught-up tracker has a finished document |
| `Feed.ExpiredIsDue` | src/worker.rs:323-345 | when the lease of a running document is over, a caught-up tracker has its entry due, or the entry was popped, deferred or not scanned, or an event about it was lost or carried a longer timeout |
| `Feed.AbsentHasCause` | src/worker.rs:860-881 | a running document that a caught-up tracker lacks was popped, not reached by a scan, or the subject of a lost event, or there was no scan yet, and no scan, event or own claim has settled it since |
| `Feed.IncrementalEqualsRescan` | src/worker/expiry.rs:172-185 | after a complete scan and any mixture of changes, late or replayed events, further scans and own claims, without pops, lost events or broken scans, a tracker that has read every event tracks exactly what a scan would, with the scan's deadlines if one timeout is used |
| `Feed.CaughtUpIsRescanned` | src/worker/expiry.rs:172-185 | with one timeout, a caught-up tracker and one fresh from a scan have the same deadlines |
| `Feed.EventCarries` | src/worker/expiry.rs:317-342 | the event of a claim carries the claimant's default timeout, the event of a heartbeat none, so that the tracker's own is used |
| `Feed.DeadlineIsExactIff` | src/worker/expiry.rs:332-341 | a caught-up tracker has a running task's scan deadline whenever a scan or own claim settled it last, and if an event did exactly when the carried timeout equals the task's or both deadlines saturate |
| `Feed.CarriedHasCause` | src/worker/expiry.rs:297-301 | a carried timeout is that of the last step that concerned the id, an event the worker read |
| `Feed.HeartbeatEventMisleads` | src/worker/expiry.rs:332-341 | a heartbeat of a task with a minute's timeout gives a tracker with a ten second default a deadline 50 seconds early |
| `Scheduler.MoveKeepsInv` | src/worker.rs:276-460 | every step of the loop, the pumps, exiting handlers and everyone else keeps permits, registry, snapshot and wakeup invariants |
| `Scheduler.NoLostWakeup` | src/worker.rs:276-460 | parked with an open stream and a free permit, every pending document not in flight has an unread announcement or a future about to be joined, unless the last lookup of pending documents failed |
| `Scheduler.QuiescentMeansBusy` | src/worker.rs:401-422 | with all events read and all futures joined, pending work is left only when every permit has a running handler |
| `Scheduler.PermitsAreConserved` | src/worker.rs:754-757 | free permits, the loop's permit and the futures' permits add up to the capacity; registered tasks never exceed permits held |
| `Scheduler.OneHandlerPerTask` | src/worker.rs:1056-1060 | no task has two running handlers in one process, and each running handler's task is registered |
| `Scheduler.NeverAlreadyInFlight` | src/worker.rs:968-976 | a claimed task is never already in flight, on any of the claim paths |
| `SchedulerProgress.OthersCanAct` | src/worker.rs:276-460 | callers and other workers can do any operation at any step of the loop |
| `SchedulerProgress.OnlyErrorsFailLookups` | src/worker.rs:816-832 | only an error of the lookup of pending documents makes a lookup count as failed, and a new Ready pump forgets it |
| `SchedulerProgress.PumpStepsDescend` | src/worker.rs:750-840 | every step of a pump, an error included, brings it nearer to its end, in permits or due entries that are left |
| `SchedulerProgress.EveryPumpEnds` | src/worker.rs:750-840 | a pump always has a step of its own that is not an error, and comes to its end within its distance |
| `SchedulerProgress.LookupClaims` | src/worker.rs:518-579 | a lookup can claim every document it is looking for, in terms of the document's fields, and cannot come back empty-handed while there is one |
| `SchedulerProgress.LookupClaimsOnlyWanted` | src/worker.rs:518-579 | what a lookup claims is a document it was looking for |
| `SchedulerProgress.ClaimedTaskIsStarted` | src/worker.rs:953-988 | a claimed task gets a running handler, with the loop's permit, and is registered |
| `SchedulerProgress.WakeupsStartPumps` | src/worker.rs:332-460 | a parked loop can read its next event, join a finished future and answer its tickers, and each starts its pump |
| `SchedulerProgress.WaitingTaskCanBeStarted` | src/worker.rs:276-460 | from every reachable parked state with an open stream and a free permit, a pending task not in flight can get its handler by this worker's steps alone, unless the last lookup of pending documents failed |
| `SchedulerProgress.AbandonedTaskCanBeStarted` | src/worker.rs:543-556 | a Ready pump that finds nothing pending can start a task that runs under its own id and is not in flight |
| `SchedulerProgress.StaleTaskCanBeStarted` | src/worker.rs:346-387 | the rare tick can start any task whose lease is over and that is not in flight |
| `SchedulerProgress.DueTaskCanBeStarted` | src/worker.rs:842-931 | the expiry timer can start a due entry's task whose lease is over and that is not in flight |
| `Collection.TaskCollection.UpsertTask` | src/caller.rs:331-443 | inserts, resets or reports a duplicate; a database error exactly if the command was not answered, with or without its effect |
| `Collection.TaskCollection.UpdateOne` | src/worker.rs:1329-1349 | one fenced write; its answer is whether the claim still held the task |
| `Collection.TaskCollection.ClaimWithFilter` | src/worker.rs:581-596 | an answered claim takes a first match in sort order with the given token, or is empty exactly if nothing matches; a lost answer leaves that claim behind, an unreached command nothing |
| `Collection.TaskCollection.ClaimNextTask` | src/worker.rs:518-579 | tries the mode's filters in order, sorting only the first, answers none only if none matches, and an error exactly if a command was not answered |
| `Collection.TaskCollection.ClaimExpiredTaskById` | src/worker.rs:990-1032 | claims only the targeted stale document, and never a task in the exclusion list |
| `Collection.ClaimsAreProtocolSteps` | src/worker.rs:598-620 | from every system state with this collection, a fresh token and a time read from the clock, a claim that changed the collection is an enabled claim step of the protocol and leads to the state with its collection, record and history |
| `Pump.InFlightRegistry.Insert` | src/worker.rs:77-82 | adds the task and tells whether it was new |
| `Pump.InFlightRegistry.Remove` | src/worker.rs:84-89 | takes the task out |
| `Pump.WorkerProcess.SpawnClaimedTask` | src/worker.rs:953-988 | registers the task and hands its document to a handler, or gives the permit back if it is in flight |
| `Pump.WorkerProcess.PumpAvailableTasks` | src/worker.rs:734-840 | claims exactly as many documents as the lesser of free permits and documents eligible when it last read the clock, and fails exactly if one of its commands was not answered; its claims are a chain of best choices, each at its own time |
| `Pump.ClaimsAreInOrder` | src/worker.rs:533-556 | claims are distinct, in sort order, pending ones before the worker's own abandoned ones, and those only once no eligible pending one is left, as of the time of the earlier claim |
| `Pump.LeftBehindIsNotBetter` | src/worker.rs:533-536 | a primary match at the time of a claim that is left behind ranks no better than what was claimed |
| `Pump.ChainIsAccounted` | src/worker.rs:784-814 | each claim costs one permit, registers its task and hands its document over, in order |
| `Pump.ChainKeepsOthers` | src/worker.rs:784-814 | documents that were not claimed are unchanged |
| `Pump.WorkerProcess.PumpExpiredTasks` | src/worker.rs:842-951 | pops exactly the due entries and visits them in turn until one is deferred; an entry is forgotten with an error exactly if its command was not answered |
| `Pump.NextIsAbsent` | src/worker.rs:878-881 | the popped id about to be visited is not in the tracker, so deferring it is safe |
| `Pump.StaleIsReclaimed` | src/worker.rs:882-930 | with a free permit, a popped entry whose document is stale and not in flight is reclaimed, unless the database fails |
| `Pump.FateDecides` | src/worker.rs:909-944 | a reclaimed entry is tracked with the new claim's deadline, a deferred one is due a second later, every other popped one is no longer tracked |
| `Pump.OthersAreKept` | src/worker.rs:860-881 | entries that were not due are unchanged |
| `Pump.VisitsAccount` | src/worker.rs:878-945 | the tracker afterwards is what the fates say, and each reclaim costs one permit |

## Left out

- The MongoDB driver, cursors, BSON encoding and network: only atomic document operations, an event log and database errors remain.
- Tracing, metrics, pool gauges, index warnings, connection setup and the configuration builder: they do not affect task state.
- `Processing.ProcessTask`: runs the heartbeat loop to its end before the handler's result, and does not list a beat that is sent while the result is written; `Protocol` has beats and terminal writes in any order.
- The order inside one pump of due entries, in `Feed`: `Pop` puts the deferred entry back before the reclaims of the same pump, which concern other ids.
- The two readings of the clock in a claim: one instant is both the `now` of the filter and the start of the claim.
- `worker_loop` as running code: `Scheduler` has its steps; the due entries are there an arbitrary list, and `Feed.ExpiredIsDue`, `ExpiryTracker.NextDelay` and `Pump.StaleIsReclaimed` say which are due and what happens to them.
- Liveness of a caller's wait: the inspection precedes the opening of the stream, so an outcome in between can be missed; only safety is claimed.
- `pending_may_exist`: nothing reads it.
- `SendBuilder`'s polling, `WorkerHandle`'s drop and abort, and classification of stream errors beyond "unsupported".
- Marking tasks failed on graceful shutdown, and the caller's polling fallback: documented, but the code has neither.
- `Pump.WorkerProcess.PumpAvailableTasks`: no other process acts in between; `Scheduler` covers interleavings.
- `SchedulerProgress.WaitingTaskCanBeStarted`: says that the worker can get there, not that the runtime's scheduler takes it there.
- `Scheduler.NoLostWakeup`: the exception for a failed lookup is the code's, which does not retry before the next wakeup.
