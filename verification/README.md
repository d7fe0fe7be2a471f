# redis-pvxs-ioc in Dafny

A model of the protocols inside redis-pvxs-ioc, a gateway that serves Redis streams as EPICS PV Access endpoints,
with proofs of what those protocols promise.  Each protocol is modelled at the granularity of its own code: one step
per lock-held region or atomic access, with time, Redis results, client behaviour and failures left arbitrary.  Where
the code updates fields in place there is a class whose methods are proved to take exactly the steps of the model, and
the promises are proved of every run of that model.

`dafny verify dfyconfig.toml` checks the whole project.

| part | files | what is proved |
|---|---|---|
| shared definitions | `Basics` | |
| alarm delivery worker | `AlarmEncoding`, `AlarmCore`, `AlarmDelivery`, `AlarmConvergence`, `AlarmReconciliation`, `AlarmWithdrawal`, `AlarmPublisher` | "ready" means the stream agrees with what the clients last said; nothing is lost or reordered between failures, everything is sent again after one, nobody starves, and a healthy stream leads to "ready" |
| keyed operation queue | `QueueCore`, `QueueInvariant`, `QueueRuns`, `QueueTheorems`, `QueueTerms`, `OperationQueue` | scheduling invariant, order per key, one outcome per task, fairness between keys; what each submitter is told, and when |
| reply handle and put dispatch | `QueuedExec`, `PutDispatch`, `PutTheorems`, `PutCourse`, `PutLifecycle`, `PutOutcome`, `TypedRuntime` | one answer per put, with queue, handle and write path composed; every write uses the transform in force; success if and only if the put's history earned it |
| resource journal | `JournalCore`, `ScopeRules`, `Scope` | cleanup after a crash at any step, and exactly what it removes |
| endpoint registry | `RegistryCore`, `RegistryInvariant`, `RegistrySteps`, `RegistryTheorems`, `RegistryChannels`, `PvRegistry` | channel creation against retirement, one chain of snapshots, which publications go ahead |
| reload and its report | `ConfigModel`, `ConfigDiffs`, `Reload`, `ReloadMeaning`, `Application` | all or nothing, step by step over the registry; the report says what the reload does |
| audit accounting | `AuditCore`, `AuditTheorems`, `AccessAudit` | counters and log trails of competing completions; the first callback decides |
| discovery catalogue | `DiscoveryWire`, `DiscoveryCatalog`, `Discovery`, `DiscoveryAcceptance` | wire round trip within limits; exactly what is accepted |
| RPC argument paths | `RpcSchema`, `RpcLeaves`, `RpcPaths`, `RpcTheorems`, `RpcSearch`, `RpcFields` | what every kind of name comes to, unique leaves, stability, overriding |
| frame gaps, numeric alarms | `FrameGaps`, `NumericAlarms` | serial arithmetic across rollover; de-chatter bound |

## What does not hold

Six promises one might expect are false of the code.  Each is stated with the exact condition under which it holds.

- "Ready" does not mean agreement per PV name when a newer registration is withdrawn while an older one of the same
  name is still active with a different state (`WithdrawalAgreesIff`, `LaterReadyAgrees`, run in
  `ReadyWithoutNameAgreement`).
- An error with an empty message is delivered to the client as a successful reply (`ErrorNeedsMessage`, run in
  `EmptyErrorIsSuccess`).
- A second, concurrent `deactivate` can return before a write that is already behind the fence (`EarlyReturnIsSafeIff`,
  run in `EarlyReturnBeforeWrite`).
- Cleanup refuses for good when a builder's instance file is gone while its node or volume remains, which an
  interrupted builder removal can cause (`Close`, `InterruptedRemovalStuckIff`, run in `StuckHappens`).
- Cleanup does not spare every resource without the scope's marker.  Containers and networks it does.  The image tag is
  removed by name, so whatever stands under it when the command takes effect goes (`RemoveImage`, run in
  `RetaggedImageIsRemoved`), and so do the builder's parts (`RemoveBuilder`).  If nobody acts during the cleanup the one
  foreign resource removed is a builder's volume, whose marker recovery never looks at, and it goes exactly when recovery
  accepts everything and the instance file exists (`Cleanup`, run in `ForeignVolumeIsRemoved`).
- A resolved RPC path longer than 4096 characters is refused when it is resolved again, so defaults prepared under it
  can never be used (`CanonicalIsStable`, `DefaultsAreStable`, example in `StabilityFails`).

## Model

| member | source | states |
|---|---|---|
| `AlarmEncoding.Encode` | src/alarm_worker.cpp:41-51 | the stored message is the whole message, or the longest prefix within 509 bytes that does not end inside a character, followed by an ellipsis |
| `AlarmEncoding.EncodingUnique` | src/alarm_worker.cpp:41-51 | a state has exactly one stored form |
| `AlarmEncoding.EncodingFaithful` | src/alarm_worker.cpp:41-57 | decoding gives the state back if and only if the message fits; otherwise, for UTF-8, what is kept is the longest run of whole characters that leaves room for the ellipsis |
| `AlarmDelivery.StepKeepsInv` | src/alarm_worker.cpp:106-147 | every lock-held region of every thread keeps the delivery invariant: ring revisions increase and exceed what was selected, recovering empties the ring, delivered states are backed by the stream |
| `AlarmConvergence.RunKeepsInv` | src/alarm_worker.cpp:197-259 | the invariant holds after any run of registrations, updates, selections and send results |
| `AlarmConvergence.SlotsHoldTheLastWord` | src/alarm_worker.cpp:130-147 | in every run a slot holds exactly the last state that the clients' steps gave its registration before it was retired or everything stopped, and its name and flags are as they asked |
| `AlarmConvergence.CurrentIsInCharge` | src/alarm_worker.cpp:106-113 | the registration served under a name is the newest one that was activated and not retired |
| `AlarmConvergence.ReadyMeansDelivered` | src/alarm_worker.cpp:315-328 | in every run, when the status is ready, the last event the stream took from each registration in charge of its name is the last state the clients gave it, sent in the current epoch |
| `AlarmConvergence.RevisionsNeverGoBack` | src/alarm_worker.cpp:206-224 | revisions of a slot are selected and accepted in order, and only selected events are accepted |
| `AlarmConvergence.SelectedIsCurrent` | src/alarm_worker.cpp:206-224 | an unactivated, retired or superseded registration is never selected, and a selection carries the current epoch |
| `AlarmConvergence.ReadyMeansNameDelivered` | src/alarm_worker.cpp:315-328 | in every run that does not withdraw a current registration while an older one of its name is usable, ready means that the last event of every name is the last state the clients gave for it |
| `AlarmConvergence.WithdrawalAgreesIff` | src/alarm_worker.cpp:277-282 | after such a withdrawal in a ready state the older registration is current; the status stays ready iff that one still counts as delivered, and the stream agrees with the name iff both held the same state |
| `AlarmConvergence.LaterReadyAgrees` | src/alarm_worker.cpp:106-113 | after such a withdrawal at any moment, ready or not: at every later ready moment at which the older registration is still current the stream agrees with the name if it took anything from it since, which it did if that one was waiting for delivery; otherwise the last event of the name is the one from before or the one in flight |
| `AlarmWithdrawal.ReadyWithoutNameAgreement` | src/alarm_worker.cpp:106-113 | a concrete run that ends ready although the last event of the name is not the current state |
| `AlarmConvergence.NothingLostBetweenFailures` | src/alarm_worker.cpp:242-257 | along any stretch without failed send, overflow or change of the current slot, the stream takes exactly the following revisions, each once and in order |
| `AlarmConvergence.ReadyIsSteady` | src/alarm_worker.cpp:315-328 | every ready state can start such a stretch |
| `AlarmReconciliation.ReadyMeansSentAgain` | src/alarm_worker.cpp:242-257 | once a send has failed or the ring has overflowed, ready means that the stream has since taken the last state of every registration in charge again |
| `AlarmReconciliation.LinkIsKnown` | src/alarm_worker.cpp:236-257 | in every run the live and recovering flags are what the results, overflows and idle scans so far say |
| `AlarmReconciliation.NoStarvation` | src/alarm_worker.cpp:213-224 | between two scans of one registration every other one that has something to send throughout is scanned |
| `AlarmReconciliation.HealthyStreamMakesReady` | src/alarm_worker.cpp:197-259 | from every reachable moment with a registration in charge the worker alone reaches ready if the stream takes what it is sent |
| `AlarmPublishing.AlarmPublisher.constructor` | src/alarm_worker.cpp:96-104 | an empty ring, no registration, recovering and not live |
| `AlarmPublishing.AlarmPublisher.Pop` | src/alarm_worker.cpp:207-208 | the oldest transition leaves the circular ring |
| `AlarmPublishing.AlarmPublisher.Push` | src/alarm_worker.cpp:139-140 | a transition joins the end of the circular ring |
| `AlarmPublishing.AlarmPublisher.DiscardQueue` | src/alarm_worker.cpp:115-118 | the ring is empty |
| `AlarmPublishing.AlarmPublisher.IsCurrent` | src/alarm_worker.cpp:106-113 | true exactly for the newest usable registration of its name, found by walking the name's registrations from the newest |
| `AlarmPublishing.AlarmPublisher.Prepare` | src/alarm_worker.cpp:295-312 | a new registration with a fresh id, its name and its state, indexed by id and by name; refused after stop |
| `AlarmPublishing.AlarmPublisher.Activate` | src/alarm_worker.cpp:271-276 | a registration becomes active and forced unless it was active or retired |
| `AlarmPublishing.AlarmPublisher.Retire` | src/alarm_worker.cpp:277-282 | a registration becomes inactive for good |
| `AlarmPublishing.AlarmPublisher.Remove` | src/alarm_worker.cpp:119-129 | a registration leaves both indexes |
| `AlarmPublishing.AlarmPublisher.Update` | src/alarm_worker.cpp:130-147 | afterwards the slot holds the state given, unless it is retired or everything has stopped, and then nothing has changed; the whole effect on slots, ring, epoch and flags, including the overflow case |
| `AlarmPublishing.AlarmPublisher.Enqueue` | src/alarm_worker.cpp:137-145 | a transition of a current slot is queued, coalesced, or makes everything start over |
| `AlarmPublishing.AlarmPublisher.Enable` | src/alarm_worker.cpp:291-294 | delivery is enabled |
| `AlarmPublishing.AlarmPublisher.Stop` | src/alarm_worker.cpp:260-264 | the stop flag is set |
| `AlarmPublishing.AlarmPublisher.IsEligible` | src/alarm_worker.cpp:218 | a current slot with something to send in this epoch |
| `AlarmPublishing.AlarmPublisher.UpperBound` | src/alarm_worker.cpp:214 | the first slot past the last one scanned |
| `AlarmPublishing.AlarmPublisher.Scan` | src/alarm_worker.cpp:213-224 | the rotating scan stops at the first eligible slot after the last one scanned, or finds none |
| `AlarmPublishing.AlarmPublisher.TakeFromRing` | src/alarm_worker.cpp:206-212 | stale transitions are dropped until one belongs to a current slot |
| `AlarmPublishing.AlarmPublisher.Select` | src/alarm_worker.cpp:206-235 | what the worker decides to send before it releases the lock |
| `AlarmPublishing.AlarmPublisher.Complete` | src/alarm_worker.cpp:240-257 | what an accepted, rejected or unavailable result changes |
| `AlarmPublishing.AlarmPublisher.Accept` | src/alarm_worker.cpp:243-251 | an accepted event counts for its slot only if the slot is still current |
| `AlarmPublishing.AlarmPublisher.Status` | src/alarm_worker.cpp:315-328 | reports ready exactly when the model is ready, and each of the other five states exactly when it holds |
| `QueueInvariant.SubmitKeepsInv` | src/operation_queue.cpp:188-237 | submission keeps the scheduler invariant on lanes, tokens, tasks and counters |
| `QueueInvariant.TakeKeepsInv` | src/operation_queue.cpp:70-92 | taking a token keeps the scheduler invariant on lanes, tokens, tasks and counters |
| `QueueInvariant.FinishKeepsInv` | src/operation_queue.cpp:99-110 | completion keeps the scheduler invariant on lanes, tokens, tasks and counters |
| `QueueInvariant.ExpireKeepsInv` | src/operation_queue.cpp:115-138 | expiry keeps the scheduler invariant on lanes, tokens, tasks and counters |
| `QueueInvariant.CancelKeepsInv` | src/operation_queue.cpp:239-254 | cancellation keeps the scheduler invariant on lanes, tokens, tasks and counters |
| `QueueInvariant.StopKeepsInv` | src/operation_queue.cpp:140-155 | stopping keeps the scheduler invariant on lanes, tokens, tasks and counters |
| `QueueInvariant.DrainKeepsInv` | src/operation_queue.cpp:159-167 | draining keeps the scheduler invariant on lanes, tokens, tasks and counters |
| `QueueTheorems.StepKeeps` | src/operation_queue.cpp:65-168 | every step of every submitter, canceller, worker, timer and shutdown keeps the invariant |
| `QueueTheorems.RunKeeps` | src/operation_queue.cpp:65-168 | the invariant holds after any run |
| `QueueTheorems.SchedulerInvariant` | src/operation_queue.cpp:47-138 | in every run: at most one active task per key, exactly one token per idle lane with work, resident bytes equal the sum of charges and stay within the limit, and accepted = completed + queued + running + released |
| `QueueTheorems.SuccessorWaits` | src/operation_queue.cpp:65-113 | tasks of a key start in submission order, each only after the run before it has returned |
| `QueueTheorems.CondemnedOnce` | src/operation_queue.cpp:115-156 | deadline, cancellation and shutdown tell a task at most once in total |
| `QueueTheorems.StartedIsNotCondemned` | src/operation_queue.cpp:73-91 | a worker never starts a task that was failed, even while its callback is outstanding |
| `QueueTheorems.NoRunAfterFailure` | src/operation_queue.cpp:65-156 | no task starts after it was told that it failed |
| `QueueTheorems.NoTaskForgotten` | src/operation_queue.cpp:140-168 | after shutdown every accepted task has run to its return or has a failure notice |
| `QueueTheorems.LookupsSucceed` | src/operation_queue.cpp:55-63 | the unchecked look-ups of lanes, tasks and deadlines always find their entry |
| `QueueTheorems.NoOvertaking` | src/operation_queue.cpp:47-53 | a key whose token waits when another key starts is served before that key starts again, for any number of workers and keys |
| `QueueTerms.RunTerms` | src/operation_queue.cpp:188-237 | in every run every task held has the key, the deadline and a charge of at least the bytes it was submitted with, and whatever started did so under its own key before its own deadline |
| `QueueTerms.TakeServesOldest` | src/operation_queue.cpp:69-92 | a worker that takes a token gets the oldest task waiting under that key, starts it if the deadline it was submitted with has not come, and otherwise fails it and owes it that notice |
| `QueueTerms.StartedInTime` | src/operation_queue.cpp:73-91 | in every run a task that starts was submitted under that key and its deadline had not passed at that moment |
| `QueueTerms.DeadlineNoticeIsDue` | src/operation_queue.cpp:117-136 | a notice that the deadline passed is owed only at or after the deadline the task was submitted with, by a worker or the timer |
| `QueueTerms.SubmissionIs` | src/operation_queue.cpp:188-237 | what a submission is told, in every run: stopped if shutdown began, too late if its deadline has come, accepted if lane and bytes have room, otherwise overloaded; an accepted task waits under its key |
| `QueueTerms.BytesWithinLimit` | src/operation_queue.cpp:200-216 | in every run the submissions held have together no more bytes than the limit |
| `QueueTerms.CancelTells` | src/operation_queue.cpp:239-254 | cancelling a task that was not told anything yet owes it that notice and takes it out of its lane if it still waits; any other cancellation changes nothing |
| `QueueTerms.ExpiryTells` | src/operation_queue.cpp:117-136 | the timer owes a task whose deadline has come that notice, unless it was told already |
| `QueueTerms.StopTells` | src/operation_queue.cpp:140-155 | shutdown owes every task that was not told anything yet its notice, and keeps what others are owed |
| `QueueTerms.CountersTell` | src/operation_queue.cpp:257-260 | in every run the published counters are the numbers of submitters accepted, turned away, expired and cancelled |
| `OperationQueueing.OperationQueue.constructor` | src/operation_queue.cpp:31-41 | an empty queue |
| `OperationQueueing.OperationQueue.Ready` | src/operation_queue.cpp:47-53 | a lane with work gets one token if it has none and is idle |
| `OperationQueueing.OperationQueue.ReleaseQueued` | src/operation_queue.cpp:55-63 | a waiting task leaves its lane, its charge and, if nothing else is there, its lane |
| `OperationQueueing.OperationQueue.Submit` | src/operation_queue.cpp:188-237 | admission, refusal by state, deadline, lane length or bytes, with every counter |
| `OperationQueueing.OperationQueue.Take` | src/operation_queue.cpp:69-92 | a token is consumed and the oldest task of its lane becomes active; it is late exactly if its deadline has come |
| `OperationQueueing.OperationQueue.Complete` | src/operation_queue.cpp:99-110 | the task and its charge go and the lane gets its next token or disappears |
| `OperationQueueing.OperationQueue.Expire` | src/operation_queue.cpp:117-136 | the earliest deadline fails its task or is dropped from the index |
| `OperationQueueing.OperationQueue.CondemnTask` | src/operation_queue.cpp:129-133 | a failed task is untimed and leaves its lane if it was waiting |
| `OperationQueueing.OperationQueue.Cancel` | src/operation_queue.cpp:239-254 | a task that has not failed is cancelled; anything else is ignored |
| `OperationQueueing.OperationQueue.Stop` | src/operation_queue.cpp:140-155 | every task is failed and exactly those not failed before are told |
| `OperationQueueing.OperationQueue.FailAll` | src/operation_queue.cpp:147-152 | the marking loop of shutdown |
| `OperationQueueing.OperationQueue.Drain` | src/operation_queue.cpp:159-167 | everything left is dropped and the live counters are cleared |
| `QueuedExecution.QueuedExec.constructor` | include/redis_pvxs_ioc/queued_exec.h:53-54 | a handle that owns the operation, at the start of the protocol |
| `QueuedExecution.QueuedExec.EnterFinish` | include/redis_pvxs_ioc/queued_exec.h:60 | the exchange of the stopped flag by a reply or an error is the model's step: the first caller wins, later ones change nothing |
| `QueuedExecution.QueuedExec.EnterCancel` | include/redis_pvxs_ioc/queued_exec.h:19-21 | the same for a peer's cancellation |
| `QueuedExecution.QueuedExec.TakeOver` | include/redis_pvxs_ioc/queued_exec.h:61-63 | the rest of the mutex-held region is the model's step: the winner records whether it aborts and takes the operation and the wake function |
| `QueuedExecution.QueuedExec.RegisterWake` | include/redis_pvxs_ioc/queued_exec.h:38-46 | registering is the model's step, and the function must be called at once just if the handle is stopped |
| `QueuedExecution.QueuedExec.Ticket` | include/redis_pvxs_ioc/queued_exec.h:33-37 | storing the id and then reading the abort flag are the model's two steps, in this order |
| `QueuedExecution.QueuedExec.LoadTicket` | include/redis_pvxs_ioc/queued_exec.h:22-23 | reading the id for a cancellation is the model's step |
| `QueuedExecution.StepKeepsInv` | include/redis_pvxs_ioc/queued_exec.h:14-70 | every atomic access of every caller keeps the handle's invariant |
| `QueuedExecution.OneAnswer` | include/redis_pvxs_ioc/queued_exec.h:55-70 | under every interleaving the client gets at most one answer, and exactly the winner's once it is through |
| `QueuedExecution.FirstWins` | include/redis_pvxs_ioc/queued_exec.h:55-70 | in every run the first call of finish(), by a reply, an error or the peer, is the one recorded, and the handle is stopped exactly if there was one |
| `QueuedExecution.AnswerIsFirstCall` | include/redis_pvxs_ioc/queued_exec.h:55-70 | what the client is told is what the first call said |
| `QueuedExecution.OnlyFailedAreCancelled` | include/redis_pvxs_ioc/queued_exec.h:22-37 | the queue is asked to cancel only by the peer, or with the real id because the first call was no success |
| `QueuedExecution.CancelReachesQueue` | include/redis_pvxs_ioc/queued_exec.h:14-37 | a put its peer cancelled reaches the queue's cancel with its real id, however late the id arrives |
| `QueuedExecution.WokenOnce` | include/redis_pvxs_ioc/queued_exec.h:38-46 | a registered wake function is called exactly once |
| `QueuedExecution.ErrorNeedsMessage` | include/redis_pvxs_ioc/queued_exec.h:66-69 | an error that wins is delivered as an error iff its message is not empty |
| `QueuedExecution.EmptyErrorIsSuccess` | include/redis_pvxs_ioc/queued_exec.h:32-69 | a run in which an error without a message is delivered to the client as a reply |
| `PutLifecycle.StepKeepsInv` | src/runtime.cpp:628-754 | every step of queue, handles, dispatches and reloads keeps their invariants and what ties them together: a stopped request is a finished handle, and a reply comes from the dispatch |
| `PutLifecycle.RunKeepsInv` | src/runtime.cpp:628-754 | so it holds in every run |
| `PutLifecycle.ReturnedRunIsAnswered` | src/runtime.cpp:647-754 | a queued run that has returned left a finished handle, because its dispatch answered or threw |
| `PutLifecycle.EveryPutAnsweredOnce` | src/runtime.cpp:647-656 | once the queue is drained and its callbacks are made, every accepted put has exactly one terminal outcome, and the client exactly one answer as soon as the winner is through |
| `PutLifecycle.SuccessMeansWritten` | src/runtime.cpp:659-754 | a client told of success, other than by an error without a message, had its value written once, acknowledged, inverted under the transform in force, and seen back if the endpoint confirms |
| `PutLifecycle.CancelledPutIsDead` | include/redis_pvxs_ioc/queued_exec.h:19-25 | once cancellation and id assignment are both through, the put is out of the queue or condemned in it |
| `PutDispatch.InverseThenForward` | src/runtime.cpp:677 | a written value reads back as the client's value under the same transform |
| `PutDispatch.CloseIs` | include/redis_pvxs_ioc/util.h:122-131 | two numbers count as equal exactly if they differ by at most the 2^49th part of one, or of the larger of the two |
| `PutTheorems.RunKeepsInv` | src/runtime.cpp:659-754 | the fences, the write log and the confirmations keep their invariant in every run of puts, reloads, retirement, reconnects and samples |
| `PutTheorems.WritesUseTransformInForce` | src/runtime.cpp:693-719 | every value written is the inverse of its client's value under the transform in force at the instant of the write |
| `PutTheorems.WriteRecordsTransform` | src/runtime.cpp:358-377 | a write is only ever recorded with the transform the runtime holds at that step |
| `PutTheorems.WrittenAtMostOnce` | src/runtime.cpp:714-718 | no put is written twice |
| `PutTheorems.NoWriteAfterRetirement` | src/runtime.cpp:425-437 | no write is issued after the deactivation that retired the runtime has returned |
| `PutTheorems.WritesBounded` | src/runtime.cpp:693-719 | once alive is clear only the put that holds the mutex can still write |
| `PutTheorems.EarlyReturnIsSafeIff` | src/runtime.cpp:425-426 | after a second deactivate has returned early a write can still be issued iff a put holds the mutex at that moment |
| `PutTheorems.EarlyReturnBeforeWrite` | src/runtime.cpp:425-426 | a concrete run in which that is the case |
| `PutTheorems.ConfirmedMeansObserved` | src/runtime.cpp:679-753 | a confirmed success was acknowledged and seen back, in the same reader epoch, under an id later than the snapshot, within tolerance; the converse is in PutCourses.RepliedIff |
| `PutTheorems.DispatchAnswers` | src/runtime.cpp:659-754 | when a dispatch returns its request has been answered, here or elsewhere; how is in PutCourses.RepliedIff |
| `PutCourses.RunFits` | src/runtime.cpp:628-754 | in every run a put has gathered, registered and answered exactly what its own history says: the client's value, the transform captured, the reader epoch noted, the snapshot position, what Redis said and which event settled the confirmation first |
| `PutCourses.RepliedIff` | src/runtime.cpp:628-754 | a put its dispatch answered was answered with success if and only if it passed every check from admission to the fence, Redis acknowledged the write, the deadline had not passed at the last look and, if the endpoint confirms, an equal later sample of its reader epoch was the first to speak; and with an error if and only if one of these was found wanting |
| `PutCourses.ConfirmedIsSeen` | src/runtime.cpp:591-604 | a confirmed success was seen back by an equal sample of the noted epoch, past the snapshot, after the write was issued |
| `PutCourses.FencePassesIff` | src/runtime.cpp:694-713 | a write is issued if and only if the runtime is alive, not reloaded or retired since admission, the request neither stopped, late nor unauthorized, and the confirmation reader the same |
| `PutCourses.CapturesIff` | src/runtime.cpp:661-677 | a dispatch goes on with the configuration if and only if the runtime is as it was at admission and the value decodes |
| `PutOutcomes.RuntimeIsItsTrace` | src/runtime.cpp:628-754 | in every run of queue, handles and runtimes together, each runtime is where its own steps since its creation lead |
| `PutOutcomes.SuccessIff` | src/runtime.cpp:628-754 | in that composed system, a put whose dispatch answered itself made the handle reply if and only if its history is that of a success, and the client has then heard success exactly then, or by an error without a message |
| `TypedRuntimes.TypedRuntime.constructor` | src/runtime.cpp:340-343 | the fields of a new runtime |
| `TypedRuntimes.TypedRuntime.Activate` | src/runtime.cpp:344-348 | the runtime accepts puts |
| `TypedRuntimes.TypedRuntime.FailPendingLocked` | src/runtime.cpp:620-626 | every waiting put is failed with the reason |
| `TypedRuntimes.TypedRuntime.SettlePending` | src/runtime.cpp:591-604 | a sample confirms the puts it matches and fails those of another reader epoch |
| `TypedRuntimes.TypedRuntime.InvalidatePending` | src/runtime.cpp:444-454 | waiting puts of another reader epoch are failed |
| `TypedRuntimes.TypedRuntime.Commit` | src/runtime.cpp:358-377 | a changed transform starts a new command epoch and fails what is waiting; an equal one does neither |
| `TypedRuntimes.TypedRuntime.ExchangeAlive` | src/runtime.cpp:425-426 | only the first caller has to retire the runtime |
| `TypedRuntimes.TypedRuntime.Retire` | src/runtime.cpp:427-434 | a new command epoch, every waiting put failed |
| `TypedRuntimes.TypedRuntime.HandleRawUpdate` | src/runtime.cpp:576-604 | a stale epoch is refused, otherwise the sample is offered to the waiting puts |
| `TypedRuntimes.TypedRuntime.CheckSourceEpoch` | src/runtime.cpp:439-454 | puts waiting in an older reader epoch are failed |
| `TypedRuntimes.TypedRuntime.Fence` | src/runtime.cpp:694-713 | the checks before the write, in order, and the registration of the waiting put |
| `TypedRuntimes.TypedRuntime.FinishWrite` | src/runtime.cpp:716-720 | an unacknowledged write is not waited for |
| `TypedRuntimes.TypedRuntime.TakeVerdict` | src/runtime.cpp:741-753 | the waiter takes its entry out and reads its verdict |
| `JournalCore.InterruptedRemovalStuckIff` | scripts/qualify-image.py:279-299 | an interrupted builder removal leaves recovery stuck iff the instance file went while the node or the volume stayed |
| `JournalCore.RecognisedIff` | scripts/qualify-image.py:250-299 | if nothing foreign uses the scope's names, recovery accepts the state iff the builder is not stuck |
| `JournalCore.WithoutPartsIs` | scripts/qualify-image.py:397-400 | which parts of a builder are left after some of them went, in any order |
| `Scopes.Scope.constructor` | scripts/qualify-image.py:172-179 | an empty journal precedes every creation |
| `Scopes.Scope.Resume` | scripts/qualify-image.py:928-933 | a scope rebuilt from a journal is as recoverable as the crash left it |
| `Scopes.Scope.SetState` | scripts/qualify-image.py:172-179 | a change of memory that keeps every moment of the run recoverable |
| `Scopes.Scope.Persist` | scripts/qualify-image.py:180-192 | the journal becomes the memory, or stays the old one |
| `Scopes.Scope.Intend` | scripts/qualify-image.py:236-237 | a longer plan goes to the journal before anything in it is created |
| `Scopes.Scope.Start` | scripts/qualify-image.py:302-307 | a start that succeeds has planned, created and recorded the network with its marker, which some moment of the run shows; undisturbed the daemon then has exactly that network more, and without failures it succeeds iff the name was free; whatever fails, every moment stays recoverable |
| `Scopes.Scope.Create` | scripts/qualify-image.py:317-341 | a creation that succeeds has planned, created and recorded the container under its role with its marker; undisturbed the daemon then has exactly that container more, and without failures it succeeds iff there is a network and the role is free; whatever fails, every moment stays recoverable |
| `Scopes.Scope.Own` | scripts/qualify-image.py:309-315 | the recorded container still exists under its name with the marker |
| `Scopes.Scope.CreateBuilder` | scripts/qualify-image.py:230-242 | a creation that succeeds has planned, created and recorded the instance file with its marker; undisturbed nothing else has changed, and without failures it succeeds iff no part of the builder existed; whatever fails, every moment stays recoverable |
| `Scopes.Scope.PlanImage` | scripts/qualify-image.py:244-248 | the tag is in the journal before the build; without interference or failure this succeeds iff the tag is free |
| `Scopes.Scope.Build` | scripts/qualify-image.py:857-863 | a build that succeeds has made node, volume and marked image, each already planned, and recorded the tag; without interference or failure it succeeds iff the builder exists |
| `Scopes.Scope.MakeContainer` | scripts/qualify-image.py:334-341 | the container command itself, with the plan already in the journal |
| `Scopes.Scope.MakeBuilder` | scripts/qualify-image.py:236-242 | the builder command itself, with the plan already in the journal |
| `Scopes.Scope.Load` | scripts/qualify-image.py:861-863 | the built image gets the tag, with the plan already in the journal |
| `Scopes.Scope.RecoverContainers` | scripts/qualify-image.py:251-260 | every container of the scope is identified, or recovery refuses; while nobody acts, it goes through iff every planned container found has the marker and the known id |
| `Scopes.Scope.RecoverNetwork` | scripts/qualify-image.py:261-269 | the network of the scope is identified, or recovery refuses, by the same rule |
| `Scopes.Scope.RecoverImage` | scripts/qualify-image.py:270-278 | the tag of the scope is identified, or recovery refuses; it looks at the tag as it stands then |
| `Scopes.Scope.RecoverBuilder` | scripts/qualify-image.py:279-299 | the builder is identified, or recovery refuses: with an instance file the file and the node need the marker, without one neither node nor volume may exist, and the volume's marker is never looked at |
| `Scopes.Scope.Recover` | scripts/qualify-image.py:250-300 | after recovery the ledger lists everything of the scope that exists; while nobody acts and nothing fails it succeeds iff everything found is recognised, which without foreign resources means that the builder is not stuck |
| `Scopes.Scope.Remove` | scripts/qualify-image.py:348-354 | only containers with the marker and the recorded id are removed; a lost reply leaves the ledger as it was, and a success is in the journal; undisturbed it fails only with a command that fails |
| `Scopes.Scope.RemoveNetwork` | scripts/qualify-image.py:377-386 | only the marked, unattached network with the recorded id is removed, and a success is in the journal |
| `Scopes.Scope.RemoveImage` | scripts/qualify-image.py:387-394 | exactly what stands under the tag when the command takes effect is removed, with or without the marker |
| `Scopes.Scope.TakeApart` | scripts/qualify-image.py:397-400 | exactly the parts a removal gets to go, each a moment of its own |
| `Scopes.Scope.RemoveBuilder` | scripts/qualify-image.py:395-405 | exactly the parts that exist when the command takes effect are removed, with or without the marker, as far as it gets; the builder is forgotten only after no part of it is left |
| `Scopes.Scope.CloseContainers` | scripts/qualify-image.py:369-376 | every listed container is tried, only marked ones are removed, and the ledger stays complete after failures; undisturbed no more of them are left than commands failed |
| `Scopes.Scope.CloseRest` | scripts/qualify-image.py:377-405 | network, tag and builder are tried; what is removed is a marked network and exactly what the two names held |
| `Scopes.Scope.CloseNetwork` | scripts/qualify-image.py:377-386 | the network is tried and the ledger stays complete |
| `Scopes.Scope.RemoveAll` | scripts/qualify-image.py:368-405 | everything listed is tried, going on after failures: undisturbed, no more resources are left listed than commands failed, a network behind containers aside |
| `Scopes.Scope.Close` | scripts/qualify-image.py:366-408 | a close that succeeds leaves nothing of the scope and a closed journal; without interference or failure it succeeds iff the builder is not stuck; a stuck builder is left untouched; while nobody acts, something unmarked is removed only if recovery accepts a builder whose volume is foreign, and always then if nothing fails |
| `Scopes.Cleanup` | scripts/qualify-image.py:914-933 | cleanup from a journal: success means nothing of the scope remains, a closed journal is returned untouched; every container and network removed has the marker, a tag or builder part goes exactly as its name held it, and while nobody acts and nothing fails something unmarked goes iff recovery accepts a builder with a foreign volume |
| `Scopes.CrashThenCleanup` | scripts/qualify-image.py:914-933 | from a crash after any single step of any run, a cleanup that reports success has removed everything the run created, without interference or failure it succeeds iff the builder is not stuck, and foreign resources are spared as for Cleanup, all of them without interference |
| `Scopes.ForeignVolumeIsRemoved` | scripts/qualify-image.py:285-296 | a cleanup, undisturbed and without failures, that removes a foreign volume standing under the builder's name |
| `Scopes.RetaggedImageIsRemoved` | scripts/qualify-image.py:387-391 | a cleanup that removes an image somebody else gave the tag to after recovery had looked at it |
| `Scopes.StuckHappens` | scripts/qualify-image.py:395-400 | a run whose builder removal fails after the instance file went, and the cleanup that refuses what is left |
| `ScopeRules.UnmarkedIff` | scripts/qualify-image.py:366-405 | of what recovery recognised only the volume can go without the marker, and it does if it is foreign and the removal works |
| `ScopeRules.UnmarkedParts` | scripts/qualify-image.py:397 | some part is removed without the marker iff one of the parts taken lacks it |
| `ScopeRules.GoodAfterCrash` | scripts/qualify-image.py:928-933 | a crash at any moment leaves a journal and a daemon from which cleanup may start |
| `ScopeRules.ClosedMeansGone` | scripts/qualify-image.py:924-927 | a closed journal means nothing of the scope remains |
| `RegistrySteps.StepKeepsInv` | src/pv_registry.cpp:149-224 | every atomic step of every publisher, finisher and channel creation keeps the registry invariant |
| `RegistryTheorems.RunKeepsInv` | src/pv_registry.cpp:149-224 | the invariant holds after any run |
| `RegistryTheorems.RetiredChannelsAreClosed` | src/pv_registry.cpp:210-224 | whatever the interleaving, once onCreate and the retiring finish are over, a channel of a retired registration was closed after it was attached |
| `RegistryTheorems.OpenChannelsAreCurrent` | src/pv_registry.cpp:196-224 | with no publication under way the open channels are those of the current snapshot |
| `RegistryTheorems.AdmittedIsCurrent` | src/pv_registry.cpp:68-114 | an operation passes the fence only if its registration is in the current snapshot, and always does when no publication is under way |
| `RegistryTheorems.PublicationsAreAChain` | src/pv_registry.cpp:180-194 | published snapshots form one chain, each prepared from its predecessor, none twice, the last one current |
| `RegistryTheorems.StaleNeverCommits` | src/pv_registry.cpp:183-191 | the commit action runs only for a publication prepared from the current snapshot, and successful commits are exactly the publications, in order |
| `RegistryTheorems.OnlyDroppedAreRetired` | src/pv_registry.cpp:189-190 | a registration stops being active only through a publication that drops it, and never becomes active again |
| `RegistryTheorems.UnchangedIsKept` | src/pv_registry.cpp:154-175 | a name keeps its registration, which is not retired, exactly when owner and access are unchanged; otherwise it gets a new one and the old one is retired |
| `RegistryChannels.ClosedMeansRetired` | src/pv_registry.cpp:196-224 | whatever the interleaving, a channel is closed only after it was attached and its registration retired |
| `RegistryChannels.OpenIffCurrent` | src/pv_registry.cpp:196-224 | with no publication under way a created channel is open exactly if the current snapshot holds its registration |
| `RegistryChannels.GoesAheadIff` | src/pv_registry.cpp:180-187 | a prepared publication takes the lock exactly if no other one was stored between its preparation and the attempt; otherwise nothing changes |
| `PvRegistries.PvRegistry.constructor` | src/pv_registry.cpp:129-140 | an empty first snapshot |
| `PvRegistries.PvRegistry.Entries` | src/pv_registry.cpp:154-170 | the next snapshot holds kept registrations for unchanged names and new ones for the others |
| `PvRegistries.PvRegistry.Dropping` | src/pv_registry.cpp:172-175 | the retiring list holds exactly what the next snapshot drops, each once |
| `PvRegistries.PvRegistry.Prepare` | src/pv_registry.cpp:149-178 | one preparation step; it is refused, without a trace, exactly if a name is empty or has a NUL or a binding is incomplete |
| `PvRegistries.PvRegistry.Bindings` | src/pv_registry.cpp:142-147 | the binding behind every published name |
| `PvRegistries.PvRegistry.Acquire` | src/pv_registry.cpp:183-187 | the lock is taken iff the snapshot was prepared from the current one; otherwise nothing changes |
| `PvRegistries.PvRegistry.Settle` | src/pv_registry.cpp:188-193 | if the commit action failed nothing published has changed; otherwise exactly the dropped registrations are retired and the snapshot is current |
| `PvRegistries.PvRegistry.Publish` | src/pv_registry.cpp:180-194 | publishes iff the snapshot is not stale and the commit action agrees; then exactly the dropped registrations are retired |
| `PvRegistries.PvRegistry.Replace` | src/pv_registry.cpp:200-205 | readers see exactly the desired bindings, and a name keeps its active registration iff it keeps its binding |
| `PvRegistries.PreparedBinds` | src/pv_registry.cpp:154-170 | whether kept or new, the registration under a prepared name has the binding asked for |
| `PvRegistries.PublicationFollows` | src/pv_registry.cpp:149-193 | after a publication a name has its old registration, still active, iff its binding is unchanged; every other one is retired |
| `PvRegistries.PvRegistry.Purge` | src/pv_registry.cpp:22-25 | the list without channels that no longer exist |
| `PvRegistries.PvRegistry.Track` | src/pv_registry.cpp:20-27 | one tracking step |
| `PvRegistries.PvRegistry.AttachAndCheck` | src/pv_registry.cpp:219-223 | a channel whose registration was retired meanwhile is closed after it was attached |
| `PvRegistries.PvRegistry.OnCreate` | src/pv_registry.cpp:210-224 | a channel is created under a published name unless the wrapper rejects it, and is closed if its registration is retired |
| `PvRegistries.PvRegistry.Finish` | src/pv_registry.cpp:196-198 | afterwards every created channel of a retired registration is closed |
| `ConfigModel.ByNameIs` | src/config_diff.cpp:49-51 | the name map holds exactly the configured endpoints |
| `ConfigDiffs.Index` | src/config_diff.cpp:49-51 | builds the name map, the first endpoint of a name winning |
| `ConfigDiffs.ComparePrevious` | src/config_diff.cpp:52-65 | removed, topology, detail, alias and access changes of every endpoint configured before |
| `ConfigDiffs.NewNames` | src/config_diff.cpp:66 | the endpoints that are new |
| `ConfigDiffs.CompareBackends` | src/config_diff.cpp:68-75 | the back ends that are new, gone or different |
| `ConfigDiffs.MoveTouched` | src/config_diff.cpp:76-86 | endpoints that use a changed back end move from the metadata list to the replaced list |
| `ConfigDiffs.DiffConfigs` | src/config_diff.cpp:49-86 | each list holds exactly the names it should, each once |
| `Reloads.KeptIff` | src/app.cpp:721-729 | whether a runtime is kept depends on the two configurations alone |
| `Reloads.DiffRefinesReload` | src/app.cpp:1309-1329 | a reload rebuilds exactly the endpoints reported as added or replaced, every other one keeps its runtime, metadata changes never overlap replacements, and removed names are those that disappear |
| `Reloads.RetainedCount` | src/app.cpp:955-965 | the reported number of retained endpoints is the number of runtimes kept |
| `Reloads.PublishedIs` | src/app.cpp:1364-1390 | what the publication installs is complete and consistent |
| `Reloads.StillInUse` | src/app.cpp:1391-1397 | stopping retired runtimes leaves the published ones alone |
| `Reloads.MembersAre` | src/access_control.cpp:1352-1362 | a name keeps its access member iff it keeps its owner and its access assignment |
| `Reloads.DiagnosticsAreGuarded` | src/app.cpp:1336-1341 | a writable diagnostic gets the administrators' write access and every other one their read access |
| `Reloads.EndpointsAreGuarded` | src/app.cpp:1342-1346 | every name of an endpoint leads to its runtime, with its own access assignment if it has one and the default otherwise |
| `Reloads.NothingElseIsBound` | src/app.cpp:1347-1348 | a method leads to its own object with its own assignment, and nothing else is bound |
| `ReloadMeaning.KeepsIff` | src/config.cpp:1042-1070 | a runtime is kept exactly if its endpoint exists before and after, differs at most in settings that need no rebuild, aliases and access, and every back end it now reads, writes or confirms through is unchanged |
| `ReloadMeaning.UnlistedIsUnchanged` | src/config_diff.cpp:49-86 | the report is complete: an endpoint in no list has not changed, but for the order of its aliases |
| `ReloadMeaning.ListedMeans` | src/config_diff.cpp:52-86 | what each list says of an endpoint configured before and after |
| `ReloadMeaning.AppliedMeans` | src/app.cpp:1364-1390 | after an accepted reload configuration, generation and policy are the new ones, the alarm publisher is kept exactly if stream and back end are unchanged, and so is every adapter |
| `ReloadMeaning.EndpointIsServed` | src/app.cpp:1309-1329 | every endpoint of the new configuration has a live, active runtime with its settings, kept exactly if it may be |
| `ReloadMeaning.RetiredIff` | src/app.cpp:1391-1397 | retired are exactly the runtimes that were in use and are not any more |
| `ReloadMeaning.SucceedsIff` | src/app.cpp:1293-1429 | a generation goes through exactly if no construction, reflection, listing or policy step fails, nobody else publishes in between, and its names are usable and all different |
| `Applications.Application.constructor` | src/app.cpp:998-1000 | no configuration, no runtime, nothing published |
| `Applications.Application.BuildAdapters` | src/app.cpp:698-719 | adapters of unchanged back ends are taken over, others created, any failure refused |
| `Applications.Application.BuildRuntimes` | src/app.cpp:1309-1325 | kept runtimes with an update and new ones not yet active, as the two configurations demand |
| `Applications.BindOne` | src/app.cpp:1342-1346 | the names of one endpoint are bound unless one of them is taken |
| `Applications.BindRpcs` | src/app.cpp:1347-1348 | the reflected methods are bound unless one of their names is taken |
| `Applications.BuildBindings` | src/app.cpp:1336-1348 | every diagnostic, endpoint, alias and method name leads to its owner with its access assignment, and no other name is bound; succeeds iff no name is used twice |
| `Applications.Application.CommitUpdates` | src/app.cpp:1366 | every update takes effect on its runtime |
| `Applications.Application.ActivateMade` | src/app.cpp:1367 | every new runtime becomes active |
| `Applications.Application.RetireRuntimes` | src/app.cpp:1395 | retired runtimes are stopped, or some of them if the refresh fails |
| `Applications.Application.Stage` | src/app.cpp:1297-1348 | staging succeeds iff no construction, reflection or binding fails, and shows nothing |
| `Applications.Application.PrepareMembers` | src/access_control.cpp:1343-1362 | access members of unchanged bindings are taken over, others made anew |
| `Applications.Application.PrepareNames` | src/app.cpp:1356-1358 | the registry prepares the bindings, or refuses an invalid name; nothing that is published changes |
| `Applications.Application.PrepareGeneration` | src/app.cpp:1297-1359 | succeeds iff staging, policy preparation and name checks do, and nothing that shows has changed either way |
| `Applications.Application.Commit` | src/app.cpp:1364-1369 | the commit action in place: the policy first, which alone can fail and then leaves everything, then updates, new runtimes and members |
| `Applications.Application.Publish` | src/app.cpp:1370-1373 | stale check under the lock, commit action, retirement and store in this order; a stale snapshot or a refused policy leaves policy, runtimes, members and names as they were |
| `Applications.Application.Swap` | src/app.cpp:1378-1390 | the fields of the generation are replaced |
| `Applications.Application.Refresh` | src/app.cpp:1391-1410 | the dropped channels are closed and the retired runtimes stopped, as far as the refresh gets; names and registrations stay |
| `Applications.Application.PublishGeneration` | src/app.cpp:1364-1411 | the publication and what follows it: refused without a trace, or everything is new |
| `Applications.Application.Rival` | src/access_control.cpp:1397-1408 | another publisher changes the names and the members and nothing else |
| `Applications.Application.ApplyGeneration` | src/app.cpp:1293-1429 | accepted iff staging, preparation, the stale check and the policy activation all succeed; refused means that nothing changed, except the names a faster publisher changed, and a stale publication leaves the policy old; accepted means that everything is new, unchanged names keep their registrations and access members, and whatever the refresh does stays accepted |
| `Applications.Application.ApplyConfig` | src/app.cpp:1270-1291 | the reported difference is exact; a change that needs a restart is refused; otherwise the next generation is applied |
| `AuditTheorems.StepBalanced` | src/access_control.cpp:741-764 | every counter step keeps the counters equal to what the operations' stages say |
| `AuditTheorems.StepTraced` | src/access_control.cpp:741-798 | every record keeps the log equal to what the operations' stages say |
| `AuditTheorems.RunKeepsInv` | src/access_control.cpp:735-798 | both hold after any run of competing callbacks |
| `AuditTheorems.AccountsBalance` | src/access_control.cpp:741-764 | at every quiescent point authorized = in flight + succeeded + failed + cancelled + abandoned + denied, and in flight is the number of open operations |
| `AuditTheorems.TrailsAreExact` | tests/access_audit_logs.py:22-33 | the records of an id are exactly those its operation has earned; once it is closed they are allowed, a refusal just when it ends denied, and one completion |
| `AuditTheorems.NothingFollowsCompletion` | src/access_control.cpp:749-763 | once an operation is closed its records never change |
| `AuditTheorems.DenialsAreRecorded` | src/access_control.cpp:971-977 | in every run the number of denied writes is the number of refusals recorded |
| `AuditTheorems.AnonymousAreRefusals` | src/access_control.cpp:971-977 | records without an id are refusals |
| `AuditTheorems.OutcomeIsFirst` | src/access_control.cpp:748-753 | in every run an operation is closed with the outcome of the first callback that came for it, and open exactly if none has |
| `AuditTheorems.RequestsAre` | src/access_control.cpp:741-747 | the operations are exactly those admitted, in order, with their kind and whether they are trapped |
| `AuditTheorems.RecordsTellFirst` | src/access_control.cpp:754-763 | the records of a closed operation are none if it is not trapped, and otherwise its admission, a refusal just if a re-check came first, and its completion with the outcome of the first callback |
| `AuditTheorems.TotalsCountFirstCalls` | src/access_control.cpp:754-763 | at every quiescent point each published total is the number of operations whose first callback was of that kind |
| `AuditTheorems.DenialsCountRefusals` | src/access_control.cpp:785-798 | at every quiescent point the denied writes are the refused admissions and the failed re-checks |
| `AccessAudits.AccessAudit.constructor` | src/access_control.cpp:735-741 | all counters zero and an empty log |
| `AccessAudits.AccessAudit.Admit` | src/access_control.cpp:741-747 | an admitted operation is numbered, counted and, if trapped, recorded |
| `AccessAudits.AccessAudit.Claim` | src/access_control.cpp:752-753 | exactly the first caller wins |
| `AccessAudits.AccessAudit.Complete` | src/access_control.cpp:754-763 | the winner takes itself out of flight, scores and records |
| `AccessAudits.AccessAudit.Finish` | src/access_control.cpp:748-751 | a reply, an error, a cancellation or a destructor closes an open operation with its own outcome and changes nothing otherwise |
| `AccessAudits.AccessAudit.Authorized` | src/access_control.cpp:785-798 | a refusal is recorded under the id just when it decides the outcome, and closes the operation as denied |
| `DiscoveryWire.Round16` | src/discovery.cpp:51-58 | sixteen-bit fields read back |
| `DiscoveryWire.Round32` | src/discovery.cpp:51-58 | thirty-two-bit fields read back |
| `DiscoveryWire.Digits` | src/discovery.cpp:51-56 | a number is written as its digits to the base 256, the most significant first |
| `DiscoveryWire.FrameIs` | src/discovery.cpp:66-71 | a frame begins with the bytes 52 43 (hexadecimal), the code and the size of its body |
| `DiscoveryWire.EncodeIs` | src/discovery.cpp:73-115 | every message byte by byte: frame, record number, the two small fields, the length of the long text, and the texts |
| `DiscoveryWire.EndIs` | src/discovery.cpp:120 | the end marker, byte by byte |
| `DiscoveryWire.Body` | src/discovery.cpp:81-83 | every message body is between 8 and 65798 bytes, so every length field fits its width |
| `DiscoveryWire.SplitFrame` | src/discovery.cpp:66-71 | a framed message is split off a stream as its code, its payload and the rest |
| `DiscoveryWire.DecodeBody` | tests/discovery_e2e.py:87-102 | decoding a message body gives the message back |
| `DiscoveryWire.ReceiveImage` | tests/discovery_e2e.py:82-102 | receiving undoes sending, whatever follows |
| `DiscoveryCatalog.InterpretMessages` | tests/discovery_e2e.py:81-104 | the receiver's dictionaries hold the identity, the records, the alias order and the properties |
| `Discovery.Emit` | src/discovery.cpp:66-71 | a message is appended unless it is invalid or would exceed the byte limit |
| `Discovery.Take` | src/discovery.cpp:97-101 | a name is taken unless the catalogue is full or the name is in use |
| `Discovery.EmitInfos` | src/discovery.cpp:73-84 | all properties of a record are sent, or the catalogue cannot be accepted |
| `Discovery.EmitAliases` | src/discovery.cpp:107-115 | all aliases of a record are sent in order, or the catalogue cannot be accepted |
| `Discovery.EmitEntry` | src/discovery.cpp:96-118 | one record with its aliases and properties is sent, or the catalogue cannot be accepted |
| `Discovery.Prepare` | src/discovery.cpp:87-122 | a catalogue is built iff every text is valid, no name repeats and both limits hold; it then stays within max_bytes and max_records |
| `Discovery.RoundTrip` | src/discovery.cpp:87-122 | decoding the wire image by its framing rules gives back exactly the identity, records, alias order and properties |
| `DiscoveryAcceptance.AcceptableIff` | src/discovery.cpp:61-122 | a catalogue is accepted exactly if every key is ASCII of 1 to 255 bytes, values have at most 65535 and names, kinds and aliases 1 to 65535 or 255, none with a zero byte, no name occurs twice, and the counted names and bytes are within the limits |
| `DiscoveryAcceptance.ReceiverHolds` | tests/discovery_e2e.py:81-104 | the receiver of an accepted catalogue holds the identity and, under the numbers 1, 2, … and no others, each entry's name, kind, aliases in order and properties |
| `Discovery.MapOfIs` | src/discovery.cpp:93 | collecting a dictionary that was listed key by key loses nothing |
| `DiscoveryCatalog.RecordsOfIs` | src/discovery.cpp:95-103 | record i is received under id i + 1 with its own name, type, aliases and properties |
| `RpcLeaves.PathsAre` | src/grpc_bridge.cpp:103-120 | the paths the search visits are exactly those that lead through singular messages to a singular scalar of that name |
| `RpcLeaves.PathsDistinct` | src/grpc_bridge.cpp:103-120 | each of them is visited once |
| `RpcLeaves.PathsShort` | src/grpc_bridge.cpp:106-107 | none is deeper than the nesting limit |
| `RpcPaths.FindLeafPath` | src/grpc_bridge.cpp:103-120 | terminates on every schema; fails iff the tree is recursive, too deep or has more fields than the budget; otherwise counts the leaves, keeps the last path and spends the budget exactly |
| `RpcPaths.SplitJoin` | src/grpc_bridge.cpp:144-145 | splitting a joined path gives its components back |
| `RpcPaths.FollowPath` | src/grpc_bridge.cpp:141-157 | a dotted path is resolved component by component |
| `RpcPaths.CanonicalPath` | src/grpc_bridge.cpp:124-158 | resolves a name by the rule, including every refusal |
| `RpcTheorems.UniqueLeafIff` | src/grpc_bridge.cpp:133-139 | a bare name resolves to a nested path exactly when that is the only leaf of this name in a tree that can be searched, and is absent exactly when there is none |
| `RpcTheorems.CanonicalIsStable` | src/grpc_bridge.cpp:124-158 | resolving a resolved path changes nothing iff the path is within 4096 characters |
| `RpcTheorems.StabilityFails` | src/grpc_bridge.cpp:125 | a concrete schema and name whose resolved path is refused when resolved again |
| `RpcSearch.SizedIff` | src/grpc_bridge.cpp:106-107 | the tree can be walked exactly if no chain of held messages is longer than 32 or comes back to a type it has been at |
| `RpcSearch.SearchableIff` | src/grpc_bridge.cpp:103-120 | a request is searched exactly if that holds and it has at most 4096 fields in all, each counted once |
| `RpcSearch.DottedIs` | src/grpc_bridge.cpp:141-157 | a dotted name of at most 4096 characters stands for itself exactly if it has at most 32 parts that lead through singular messages to a singular scalar; it is absent exactly if within that depth it names a field that does not exist or goes on below a scalar; otherwise it is refused |
| `RpcSearch.OwnFieldIs` | src/grpc_bridge.cpp:127-132 | a field of the request itself stands for itself exactly if it is a singular scalar, and is refused otherwise |
| `RpcSearch.UnusableIs` | src/grpc_bridge.cpp:125 | the empty name and every name of more than 4096 characters are refused |
| `RpcFields.CanonicalFields` | src/grpc_bridge.cpp:176-185 | succeeds iff there are at most 1024 arguments, every name resolves and no two to the same path; values are unchanged |
| `RpcFields.SharedDefaults` | src/grpc_bridge.cpp:469-474 | the shared defaults that concern a request, under their resolved names |
| `RpcFields.Overlay` | src/grpc_bridge.cpp:475-477 | fields laid over fields |
| `RpcFields.PrepareDefaults` | src/grpc_bridge.cpp:461-478 | succeeds iff no shared name is refused, the names that apply and the own ones resolve without a clash, and the result has at most 1024 fields; it then holds the own defaults, the shared ones they do not override, and nothing else |
| `RpcFields.DefaultsAreStable` | src/grpc_bridge.cpp:503 | resolving prepared defaults again is the identity iff every path is within the limit |
| `RpcFields.MergeArguments` | src/grpc_bridge.cpp:503-505 | succeeds iff the defaults' paths are within the limit, the call's names resolve without a clash and the merged arguments are at most 1024; call arguments then override defaults however either is spelled, the other defaults stay, and nothing else is there |
| `FrameGaps.AssessIs` | src/ntndarray.cpp:196-202 | for any true advance, the frames skipped modulo 2^32 if that is within the gap, and a discontinuity otherwise |
| `FrameGaps.NotAliased` | src/ntndarray.cpp:196-202 | a discontinuity is reported iff the advance aliases none within the gap |
| `FrameGaps.SkippedIsExact` | src/runtime.cpp:204-216 | across any number of rollovers, for advances within the gap, total skipped = total advance - number of non-zero advances, and no discontinuity |
| `FrameGaps.JumpIsDiscontinuity` | src/runtime.cpp:204-216 | any other advance adds nothing skipped and one discontinuity |
| `FrameGaps.FrameCounter.constructor` | src/runtime.cpp:204-216 | counters at zero |
| `FrameGaps.FrameCounter.Accept` | src/runtime.cpp:204-216 | the counters are the totals of the frames accepted so far, epochs kept apart |
| `NumericAlarms.WithoutMemory` | src/util.cpp:132-149 | without an earlier alarm: severity 2 exactly at or beyond a major threshold, 1 exactly at or beyond a warning only, 3 exactly for a sample that is not finite, and which status it is |
| `NumericAlarms.MemoryLaw` | src/util.cpp:132-149 | the earlier status is kept exactly if the sample is within the hysteresis of its threshold and alone would be less severe; otherwise the alarm is as without memory |
| `NumericAlarms.HysteresisOnlyRaises` | src/util.cpp:122-150 | memory never lowers the severity, and raises it only to the earlier condition within its hysteresis |
| `NumericAlarms.SwingBetweenEntries` | src/util.cpp:132-138 | on either side, two entries into the major alarm are separated by a swing towards it of at least the smaller of hysteresis and major-threshold spacing |
| `NumericAlarms.EntriesBoundedByVariation` | src/util.cpp:122-150 | on either side, entries beyond the first, times that margin, are bounded by the total variation of the samples |

## Left out

- Sockets, hiredis, PVXS, gRPC, libcurl and EPICS access-security calls: only their outcomes appear, as inputs.
- Late application by Redis of a write or event whose reply was lost: only acknowledged sends are decided by the code.
- Memory orderings weaker than sequential consistency, and allocation failures.
- PutDispatch.InverseThenForward: over real numbers; the rounding of the typed transform to an integer endpoint is not modelled.
- Floating-point rounding: transforms, tolerances, thresholds and samples are real numbers.
- Alarm byte budgets, sent/rejected/coalesced counters, event timestamps and retry timing: they do not influence what is delivered.
- AlarmPublishing.AlarmPublisher.Prepare: the state budget and the overlong-name refusal are not modelled, because a refused preparation changes nothing.
- AlarmPublishing.AlarmPublisher.Status: the counters it also reports are left out.
- The joining of worker threads and the waits on condition variables: a step is possible when the code would not wait.
- RPC tasks of the operation queue: only puts are followed from the client to the store.
- Read-back of an unconfirmed write into the served value, and the presentation of samples: field copying.
- Journal: pausing and unpausing, look-ups with more than sixteen candidates, effects the daemon applies after a command has already failed, and more than one image tag per scope.
- Scopes.Scope.Build: the build command itself is outside the journal code; it is included because it creates builder parts and the image.
- Registry: the source's search and list callbacks read one snapshot and add nothing.
- Reload: other publishers act between preparation and publication, not inside the preparation itself; the closing of dropped channels is all or nothing when a refresh fails; which methods reflection finds is an input.
- Reload: the contents of the discovery catalogue, status publishing and logging around a reload.
- ConfigDiffs.DiffConfigs: the order of the names in each list, restart-required settings, RPC services, alarm stream and catalogue metadata are not compared, because they are single comparisons.
- Policy evaluation, client revocation, host names and the throttled denial log of access control.
- Discovery sockets and greeting; text is bytes, without decoding.
- RpcFields.PrepareDefaults: one method at a time; that a shared default concerns no method at all, and the payload limit, are not modelled.
- RpcPaths.CanonicalPath: refusals are one outcome, without their texts.
- Conversion of argument strings to protobuf values, oneof conflicts and reply conversion.
- Parsing of image frames, YAML, the command line, ChannelFinder publishing, benchmarks and release scripts.
