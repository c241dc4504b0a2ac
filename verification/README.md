# Verified model of ai4s-jobq

This project models the parts of ai4s-jobq, a distributed at-least-once job queue with an autoscaler, whose
correctness depends on many steps at once, and proves what they guarantee for all inputs and all runs:

- **Leases and settlement.** A worker receives a message, renews its lease with a heartbeat while the callback runs,
  and then settles: it deletes the message, puts it back, or moves it to the dead-letter queue. Workers may crash, be
  cancelled or lose the lease at any `await`; requests may be lost, arrive late, or arrive repeatedly.
  `StorageLease.dfy` and `ServiceBusLease.dfy` are the protocols as step machines, one per backend; the files ending
  in `Safety` hold their invariants and those ending in `Theorems` the results. `ServiceBusLeaseLoss.dfy` is about
  lost locks on Service Bus, `StorageLeaseOrphans.dfy` is about heartbeats that outlive their execution,
  `StorageLeaseProgress.dfy` about what a message can still come to. `PullAndExecute.dfy` is `pull_and_execute` as
  imperative code on a `Message` object that performs only protocol steps, proved to reach the documented outcome.
- **Lock renewal in real time.** `LockRenewal.dfy` is the renewal loop of the Service Bus backend as a program with
  real-valued time and arbitrary replies and durations.
- **Shutdown and preemption.** `WorkerShutdown.dfy` is the worker loop of `launch_workers` with its two events, its
  flags, the signals and the preemption poll, interleaved at `await` points. `ShutdownHandlers.dfy` has
  `shutdown_handler`, `wait_for_hard_stop` and the preemption handler as imperative classes that perform only steps of
  that machine and keep their history.
- **Autoscaling.** `Scaling.dfy` is the tick of `MultiRegionWorkforce`, `Workforce.dfy` the choice of jobs to stop or
  resume, listing, and batched hiring. `Sorting.dfy` specifies Python's stable sort.
- **Two small concurrent protocols.** `BatchEnqueue.dfy` is the two-stage pipeline of `batch_enqueue`,
  `SyncHandshake.dfy` the flush and shutdown handshake of the directory syncer; `DirSync.dfy` is its `Syncer.sync`.
- **Tasks.** `Entities.dfy` is `Task` with its identity and its JSON document.

State machines are written as `Enabled`, `Apply` and `Run`; an event is what happens between two `await` points.
Results quantify over every run from the initial state. Code that updates objects in place is modelled by classes and
methods with loops, each proved against a function of the old state or a property of its result.

`dafny verify dfyconfig.toml` checks the project.

## What the proofs found out about the code

- **Orphaned heartbeats on a Storage Queue.** `_heartbeat_worker` has a bare `yield`, so some exits skip its clean-up.
  `OrphaningExits` says exactly which: a `CancelledError` that arrives before `cancel_heartbeat` is called, and an
  unreadable payload, each while there is a heartbeat the broker has not refused. Such a heartbeat hides the message
  for as long as the process lives, at every moment (`OrphanHidesMessage`). On Service Bus no exit leaves a renewal
  task behind (`EveryExitStopsRenewal`).
- **A hard stop is not quite final.** A worker that is inside `await processor.resume()` when the hard stop comes
  still takes new tasks once (`HardStopDuringResume` is such a run). `ResumesAfterHardStop`: those workers and no
  others.
- **The preemption handler can undo somebody else's shutdown.** A SIGUSR1 shutdown stays set under the preemption poll
  exactly if the handler is disabled or does not believe that it set the event, or if a further signal stopped the
  event loop (`ShutdownStaysSet`). The handler may believe so wrongly, because `wait_for_hard_stop` clears the event
  but not `_scheduled_event_initiated_by_us` (`StaleFlagUndoesShutdown`); and if a preemption is announced and
  withdrawn after the signal, the withdrawal clears the event in any case (`ShutdownStaysSetAnyway`,
  `WithdrawalUndoesShutdown`).
- **`reply_requested` on Service Bus.** `reply` is not implemented there but `push` accepts the flag. Such a message
  never leaves the queue, whatever its callback does (`ReplyRequestedNeverSettles`). A Storage Queue refuses the push.
- **Lock renewal on Service Bus ends silently** at its deadline (21 days): even if every renewal succeeds, the
  lost-lock event is not set (`HealthyLockLapses`; `EndsUnnoticed` states exactly when the loop ends so). The
  execution goes on, another worker may receive the message meanwhile (`RunsWithoutLock`, a run in which every renewal
  is accepted), and nothing else has this effect (`LapsesOnlyAtDeadline`). The first worker's settlement is then
  refused (`EarlierLeaseIsFenced`).
- **The error text is not dead-lettered.** `serialize` drops `error`, so the copy on the Storage dead-letter queue
  carries no trace of it (`ErrorIsNotSerialized`).
- **One exception per worker stops `batch_enqueue` as well.** A worker ends with its first exception, and when the
  last one of a stage has ended with work left, a join never returns (`EnqueueExceptionBlocks`,
  `ListingExceptionBlocks`).
- **A None task stops `batch_enqueue` from finishing.** It ends its enqueue worker without `task_done`, and the second
  join never returns (`NoneItemBlocks`). A None seed ends the enumeration worker that takes it, so that with ten
  workers the seeds behind the tenth None are never taken. The pipeline can drain exactly if no seed lists a None and
  there are more enumeration workers than None seeds before the last seed (`DrainsIff`).
- **The final sync can be missed** if the two events of the exit test are read one after the other and `shutdown`
  comes between the reads: in exactly the runs `FinalSyncUnlessEarlyRead` describes (`FinalSyncCanBeMissed` is one).
- **Files whose change time is later than their modification time are copied at every sync** (`CopiedAgain`).
- **Laying off rounds down.** A tick asks for equal integer shares, so it reports success only if the surplus is a
  multiple of the number of regions and enough workers are pending, and with a surplus below the number of regions it
  stops nobody (`Scaling.MultiRegionWorkforce.Run`, `LayoffExact`).
- **A negative `max_num_workers`** makes the target fall when the queue grows from zero (`TargetMonotone`).
- **`list_jobs` with `max_jobs` below one still yields one job** (`ListJobs`), and a negative `n` in
  `_layoff_candidates` selects from the end as Python slices do (`LayoffCandidates`).
- **A callback that ignores its cancellation and returns** counts as a failure: reading the code shows that `done` is
  then unbound and that the `UnboundLocalError` is handled as an error of the task. This is modelled as a `Failed`
  outcome (`EndsAs`), and so the contract of `PullAndExecute.Message.PullAndExecute` says that, unopposed, the message
  is put back with one retry less or dead-lettered although its callback returned.
- The docstring of `pull_and_execute` says that tasks with an invalid signature are deleted; there is no such code
  and none is modelled.

## Assumptions

- Messages do not interact; one cell is one message with all its executions.
- A Storage Queue accepts an update or delete only with the current pop receipt, and every receive and accepted
  update issues a fresh one. A heartbeat update leaves the content alone. Service Bus accepts a settlement or renewal
  only with the token of an unexpired lock, and answers a refused renewal with 404.
- JSON text is modelled as the document it denotes, MD5 as an arbitrary function.
- Lock renewal: scheduling takes no time and no request outlasts its timeout.
- A tick of the autoscaler works on one snapshot of the regions (`use_lazy_states`).
- Directory trees are disjoint, quiet during a sync, and no file operation fails.
- Signals and polls arrive between `await` points; the checks and the clear at the end of `wait_for_hard_stop` have
  no `await` between them and are one step.

## Model

| member | source | states |
|---|---|---|
| Entities.SerializeRoundTrip | ai4s/jobq/entities.py:76-112 | Deserializing a serialized task gives the task back without its error text and with its id made explicit, the given one if there is one and else the digest, and serializing again gives the same document |
| Entities.DeserializeRoundTrip | ai4s/jobq/entities.py:82-112 | Every version 0 or 1 document is readable; written back it is the version 1 document with the same id, arguments and retries, which wants a reply only if it did |
| Entities.ErrorIsNotSerialized | ai4s/jobq/entities.py:82-93 | Two tasks that differ only in `error` have the same document |
| Entities.Task.Id | ai4s/jobq/entities.py:76-80 | The id of a task is never empty |
| Entities.DeliveryKeepsJob | ai4s/jobq/jobq.py:289-310 | A delivery that leaks `_job_id` and `_worker_id` into the arguments and changes `num_retries` leaves the id, `reply_requested` and all other arguments of the stored document unchanged |
| Entities.CallbackArguments | ai4s/jobq/jobq.py:307-310 | A callback gets the id of the task as `_job_id` and the worker as `_worker_id` if it asks for them, and every other argument as it is in the message |
| Entities.FreshIdDependsOnRetries | ai4s/jobq/entities.py:76-88 | Before the first serialization, tasks without an id that differ only in `num_retries` have the same id exactly if the retries agree, unless the digests collide |
| StorageLease.AfterHeartbeat | ai4s/jobq/jobq.py:389-464 | After `cancel_heartbeat` the execution ends cleanly, dead-letters, or settles with the receipt of the last acknowledged update |
| StorageLeaseSafety.BrokerFrameStep | ai4s/jobq/backend/storage_queue.py:52-78 | No step forgets a normal return or a dead-letter copy, and any change of the queued entry removes it or gives it a receipt never issued before |
| StorageLeaseSafety.FrameStep | ai4s/jobq/backend/storage_queue.py:248-328 | A step of one lease leaves all other leases alone, no exited coroutine runs on, and a lost reply stays lost |
| StorageLeaseSafety.EntryStep | ai4s/jobq/jobq.py:403-451 | If every pending deletion is accounted for, no step takes an unaccounted message off the queue |
| StorageLeaseSafety.KeptStep | ai4s/jobq/jobq.py:391-464 | One step keeps: the message is queued or accounted for, and whoever is about to delete it knows it accounted for |
| StorageLeaseSafety.OnlyHolderWrites | ai4s/jobq/backend/storage_queue.py:62-78 | While a running lease is the last receiver and has lost no reply, no other lease and no late request changes the message |
| StorageLeaseSafety.ReceiptsStep | ai4s/jobq/backend/storage_queue.py:268-317 | One step keeps: whoever holds the current receipt is the last receiver with up-to-date content, and the retry budget is conserved |
| StorageLeaseSafety.JobStep | ai4s/jobq/jobq.py:461-463 | One step keeps: queued content, leases, travelling requests and dead-letter copies all carry the pushed job |
| StorageLeaseSafety.GiveUpStep | ai4s/jobq/jobq.py:440-451 | One step keeps: dead-lettering begins only when the whole retry budget was spent by accepted replacements |
| StorageLeaseSafety.OwnersStep | ai4s/jobq/backend/storage_queue.py:268-317 | One step keeps: the last receiver, if all its replies arrived, holds the current receipt or is about to be told it |
| StorageLeaseSafety.InvRun | ai4s/jobq/backend/storage_queue.py:148-198 | All of these hold after any number of steps |
| StorageLeaseTheorems.NoTaskLost | ai4s/jobq/backend/storage_queue.py:52-55 | In every reachable state the message is on the main queue, or some execution returned normally, or the same job is on the dead-letter queue |
| StorageLeaseTheorems.PushRefusesReplies | ai4s/jobq/backend/storage_queue.py:141-146 | A push is refused exactly if the task wants a reply |
| StorageLeaseTheorems.PushedTaskIsKept | ai4s/jobq/backend/storage_queue.py:141-146 | From the client's side: an accepted push wants no reply, and in every reachable state its job, identified by the id of the pushed task, is queued, with the pushed retries less the accepted replacements, was executed to a normal return, or is on the dead-letter queue |
| StorageLeaseTheorems.JobNeverChanges | ai4s/jobq/backend/storage_queue.py:62-78 | Id, `reply_requested` and all arguments but the two leaked ones survive every delivery, in the queue and in every execution |
| StorageLeaseTheorems.ReceivedArguments | ai4s/jobq/jobq.py:289-310 | The execution that any receive of a readable message begins has the task of the message, with `_job_id` and `_worker_id` as asked for and all other arguments unchanged |
| StorageLeaseTheorems.RetryBudget | ai4s/jobq/jobq.py:440-464 | `num_retries` of the queued message plus the number of accepted `replace` calls is the pushed value, never more than it are accepted, and a dead-letter copy exists only when all are spent |
| StorageLeaseTheorems.HandOver | ai4s/jobq/backend/storage_queue.py:57-78 | Once `cancel_heartbeat` has returned, the heartbeat is over, and if nobody else received the message and no reply was lost the settlement uses the current receipt and is accepted |
| StorageLeaseTheorems.HeartbeatStaysOver | ai4s/jobq/backend/storage_queue.py:57-60 | From then on no heartbeat update is in flight or starts, and the receipt does not change |
| StorageLeaseTheorems.EarlierLeaseIsFenced | ai4s/jobq/jobq.py:349-387 | Once another worker has received the message, a settlement or heartbeat of an earlier lease is refused and changes nothing, even if the loss was noticed too late |
| StorageLeaseTheorems.LateRequestIsFenced | ai4s/jobq/backend/storage_queue.py:62-78 | The same for requests that were given up and arrive late |
| StorageLeaseTheorems.LateSettlementStillWorks | ai4s/jobq/backend/storage_queue.py:62-78 | A settlement that was given up on, by an error, a `CancelledError` or a crash, may still arrive at any later time, and then does to the message exactly what it would have done |
| StorageLeaseTheorems.LateDeadLetterStillWorks | ai4s/jobq/backend/storage_queue.py:200-205 | The same for a dead-letter copy |
| StorageLeaseTheorems.LateHeartbeatStillWorks | ai4s/jobq/backend/storage_queue.py:294-317 | The same for a heartbeat update |
| StorageLeaseTheorems.LockLossIsReal | ai4s/jobq/backend/storage_queue.py:294-303 | The lost-lock event during an execution means that another worker received the message or a reply to this one was lost |
| StorageLeaseTheorems.LostIffTold | ai4s/jobq/backend/storage_queue.py:294-317 | In every run the lost-lock event of an execution is set exactly if the answer to a refused update has arrived |
| StorageLeaseTheorems.LockLostErrorIsJustified | ai4s/jobq/jobq.py:360-401 | In every run an execution raises `LockLostError` only if such an answer has arrived |
| StorageLeaseTheorems.RefusalEndsHeartbeat | ai4s/jobq/backend/storage_queue.py:294-317 | After a refused update no other is sent in any continuation, and once its answer has arrived the event is set unless the execution is over |
| StorageLeaseTheorems.RefusalIsReported | ai4s/jobq/backend/storage_queue.py:294-317 | While the callback runs, so does its heartbeat, or the lost-lock event is set |
| StorageLeaseTheorems.LostLockIsRespected | ai4s/jobq/jobq.py:335-401 | A loss known when the callback ends is respected in every continuation: the only request the execution may still make puts a cancelled task back with its content, and otherwise it raises `LockLostError` unless it is cancelled or dies |
| StorageLeaseTheorems.CleanExitStopsHeartbeat | ai4s/jobq/backend/storage_queue.py:319-328 | Every exit but `CancelledError` and an unreadable payload leaves no heartbeat behind |
| StorageLeaseProgress.CanDeliver | ai4s/jobq/jobq.py:257-464 | Any receive of a visible message that wants no reply can be settled, however its callback ends: a success deletes it, a failure offers it again at once with one retry less or stores one dead-letter copy and deletes it, a cancellation offers it again; True, False or `WorkerCanceled` tells the caller so, and no heartbeat is left |
| StorageLeaseProgress.CanFinish | ai4s/jobq/jobq.py:257-464 | From every state reached after an accepted push in which the message can be received, whatever crashed or lost its lease before: once the processes that hold it are gone, every such delivery is possible |
| StorageLeaseProgress.FailsUntilGivenUp | ai4s/jobq/jobq.py:440-464 | From every such state exactly as many failing deliveries as there are retries left, and one more, take the message off the queue with one more dead-letter copy |
| StorageLeaseOrphans.SilentIffEnding | ai4s/jobq/backend/storage_queue.py:268-317 | After its exit an execution's heartbeat sends no update in any continuation exactly if it is over, was told to stop, or was refused by then |
| StorageLeaseOrphans.OrphaningExits | ai4s/jobq/backend/storage_queue.py:319-328 | In every reachable state, the step that ends an execution leaves a heartbeat that can still send exactly if it is a `CancelledError` before `cancel_heartbeat`, or the receipt of an unreadable payload, with a heartbeat the broker has not refused |
| StorageLeaseOrphans.OrphanHides | ai4s/jobq/backend/storage_queue.py:268-312 | An orphan of any lease, beating every half of its timeout, keeps the message queued and impossible to receive at every step of a run, for any number of beats |
| StorageLeaseOrphans.OrphanHidesMessage | ai4s/jobq/backend/storage_queue.py:319-328 | For readable and unreadable payloads alike there is a run from the push on in which, after the first execution was abandoned, nobody can receive the message before any given time |
| PullAndExecute.OthersStep | ai4s/jobq/jobq.py:315-318 | While a coroutine is suspended, nothing others do changes its task, its position or its receipt once its heartbeat is over, nor a settlement already decided in its favour |
| PullAndExecute.RankFalls | ai4s/jobq/backend/storage_queue.py:268-317 | After `cancel_heartbeat_event` is set every step of the heartbeat task brings its end closer |
| PullAndExecute.Message.Suspend | ai4s/jobq/jobq.py:315-318 | During an `await` of its world the steps of others that are possible happen, nothing else does, and the lease is undisturbed in that sense |
| PullAndExecute.Message.FinishHeartbeat | ai4s/jobq/backend/storage_queue.py:57-60 | Waiting for the heartbeat ends, with the heartbeat over |
| PullAndExecute.Message.CancelHeartbeat | ai4s/jobq/backend/storage_queue.py:57-60 | It is left by a `CancelledError` exactly if its wait is cancelled, and otherwise returns with the coroutine where the outcome, the task and the latest receipt put it |
| PullAndExecute.Message.Settle | ai4s/jobq/backend/storage_queue.py:52-78 | A settlement that reports success was applied if nobody opposed it, an unopposed one whose request came through reports success, and it is left by a `CancelledError` only if one of its waits is cancelled |
| PullAndExecute.Message.StoreCopy | ai4s/jobq/backend/storage_queue.py:200-205 | Storing the dead-letter copy reports success only with the copy stored and acknowledged, whatever happens while it waits |
| PullAndExecute.Message.GiveUp | ai4s/jobq/backend/storage_queue.py:52-55 | Giving up reports success only with the copy on the dead-letter queue and, unopposed, the message deleted |
| PullAndExecute.Message.RunCallback | ai4s/jobq/jobq.py:306-385 | It is left by a `CancelledError` only if one ends the callback; otherwise, unopposed, the outcome is how the callback ended and no lost lock was seen; a success not overtaken by a lost lock means the callback returned |
| PullAndExecute.Message.SettleExecution | ai4s/jobq/jobq.py:360-464 | From the outcome of the callback to the documented result, unless one of its waits is cancelled |
| PullAndExecute.Message.PullAndExecute | ai4s/jobq/jobq.py:257-464 | Only the receive, steps of this execution and steps its world offers happen; it never ends early but by a `CancelledError` of the callback or of one of its waits; True is returned only if a callback returned normally; an unopposed execution ends as documented: success deletes, failure requeues with one retry less or dead-letters, cancellation requeues unchanged; if nobody else receives the message and no heartbeat update fails, the execution is unopposed |
| PullAndExecute.CalmStaysUnopposed | ai4s/jobq/jobq.py:315-401 | Whatever else others and late requests do, an execution stays unopposed if they neither receive the message nor make one of its heartbeat updates fail |
| ServiceBusLeaseSafety.OwnStep | ai4s/jobq/jobq.py:306-464 | One step of an execution keeps: its exits are honest, its settlements justified, and no renewal runs while it settles or after its exit |
| ServiceBusLeaseSafety.TokensStep | ai4s/jobq/backend/servicebus_rest.py:273-311 | One step keeps: every receive issues the next token, only the last lease has the token of the queued message, and late requests carry tokens of leases |
| ServiceBusLeaseSafety.InvStep | ai4s/jobq/backend/servicebus_rest.py:466-511 | One step keeps the message in one place with its pushed content, the tokens in order and every pending settlement justified |
| ServiceBusLeaseTheorems.ExactlyOnePlace | ai4s/jobq/backend/servicebus_rest.py:474-511 | In every reachable state the message is in exactly one of: queue, completed, dead-letter sub-queue, with its pushed content; completed only after a normal return, dead-lettered only without retries in the pushed content |
| ServiceBusLeaseTheorems.RetriesNeverRunOut | ai4s/jobq/backend/servicebus_rest.py:501-511 | As `replace` does nothing, a task pushed with retries is never dead-lettered by the client |
| ServiceBusLeaseTheorems.ReplyRequestedNeverSettles | ai4s/jobq/backend/servicebus_rest.py:478-479 | A message that wants a reply is on the queue in every reachable state |
| ServiceBusLeaseTheorems.EveryExitStopsRenewal | ai4s/jobq/backend/servicebus_rest.py:793-816 | No exit of any kind leaves a renewal task behind |
| ServiceBusLeaseTheorems.ExitsAreHonest | ai4s/jobq/jobq.py:360-464 | On Service Bus, whatever the broker answers: True is returned only after a normal return, False only where no reply is owed or retries are left, an error leaves only a give-up that owes a reply, and only an unreadable payload is called unreadable |
| ServiceBusLeaseTheorems.SettlesAsDocumented | ai4s/jobq/jobq.py:360-464 | In every run from the known outcome to the exit, whatever others do in between, if no request of the execution fails and its settlement is decided while its lock is held: success completes the message, failure dead-letters it without retries, cancellation makes it visible at once, and a lost lock, an owed reply or retries left ask nothing of the broker |
| ServiceBusLeaseTheorems.EndsAsDocumented | ai4s/jobq/jobq.py:306-464 | The same by name, from the moment the callback ends: a return gives True and completes the message, an error gives False and, without retries, dead-letters it, `WorkerCanceled` is raised on and releases it, a lost lock raises `LockLostError` and asks nothing; an owed reply asks nothing either |
| ServiceBusLeaseTheorems.ExitsAsDocumented | ai4s/jobq/jobq.py:360-464 | In every run from there on the execution ends as documented, by a `CancelledError` or with its process, whatever the broker answers |
| ServiceBusLeaseTheorems.CanSettle | ai4s/jobq/jobq.py:360-464 | While the lock is held there is a run to the exit that `SettlesAsDocumented` applies to, whatever the renewal task is doing |
| ServiceBusLeaseTheorems.RenewalEnds | ai4s/jobq/backend/servicebus_rest.py:793-816 | Once it was asked to stop every step of the renewal task brings its end closer |
| ServiceBusLeaseTheorems.HeldByLastReceiver | ai4s/jobq/backend/servicebus_rest.py:273-323 | In every reachable state a lease holds the lock exactly if it is the last to have received the message, the message is queued and its lock has not run out: never two at a time |
| ServiceBusLeaseTheorems.ReceivedUnlessHeld | ai4s/jobq/backend/servicebus_rest.py:273-323 | In every reachable state after the first receive the message can be received exactly if it is queued and its last receiver does not hold the lock |
| ServiceBusLeaseTheorems.EarlierLeaseIsFenced | ai4s/jobq/backend/servicebus_rest.py:313-323 | In every reachable state a settlement or renewal of an earlier lease changes nothing outside that lease |
| ServiceBusLeaseTheorems.LateRequestIsFenced | ai4s/jobq/backend/servicebus_rest.py:313-323 | Every late request belongs to a lease, and changes nothing once another worker has received the message |
| ServiceBusLeaseTheorems.LateSettlementStillWorks | ai4s/jobq/backend/servicebus_rest.py:313-323 | A settlement that was given up on or repeated may still arrive at any later time, and then does exactly what it would have done |
| ServiceBusLeaseTheorems.LateRenewalStillWorks | ai4s/jobq/backend/servicebus_rest.py:313-323 | The same for a renewal |
| ServiceBusLeaseTheorems.LapsesOnlyAtDeadline | ai4s/jobq/backend/servicebus_rest.py:637-641 | In every run a callback runs on without renewals and without being told only after a loop test of its own renewal task, 21 days or more after the receive |
| ServiceBusLeaseTheorems.RenewalsHold | ai4s/jobq/backend/servicebus_rest.py:637-660 | Renewing every half of the lock duration, for any number of beats, holds the lock without a gap |
| ServiceBusLeaseTheorems.RunsWithoutLock | ai4s/jobq/backend/servicebus_rest.py:620-641 | For every lock duration and enough beats to last 21 days there is a run, in time order, in which every renewal is accepted and the lock is held at every step, and then another worker receives the message while the first callback runs on untold |
| ServiceBusLeaseLoss.LostIffTold | ai4s/jobq/backend/servicebus_rest.py:667-739 | In every run the lost-lock event of an execution is set exactly if, before its renewal was asked to stop, a renewal was answered while its lock was not held, or failed more than the lock duration after the last success |
| ServiceBusLeaseLoss.RefusalEndsRenewal | ai4s/jobq/backend/servicebus_rest.py:667-688 | A renewal refused by the broker is the last one in every continuation, and the lost-lock event is then set unless the renewal was asked to stop |
| ServiceBusLeaseLoss.LossIsReal | ai4s/jobq/backend/servicebus_rest.py:667-739 | In every run the event is set only when the broker does not hold the lock any more, or a renewal request that was given up still travels |
| ServiceBusLeaseLoss.LockLostErrorIsJustified | ai4s/jobq/jobq.py:360-401 | In every run `LockLostError` is raised only after the event was set |
| ServiceBusLeaseLoss.LostLockIsRespected | ai4s/jobq/jobq.py:335-401 | A loss known when the callback ends is respected in every continuation: the execution asks for no completion and no dead-lettering, and reports the lost lock unless it is cancelled or dies |
| ServiceBusLeaseLoss.RefusedWhileExecuting | ai4s/jobq/jobq.py:335-401 | So it is whenever a renewal is refused while the callback runs |
| ServiceBusLeaseLoss.RenewsIffHeartbeat | ai4s/jobq/backend/servicebus_rest.py:783-816 | An execution has a renewal task in every continuation exactly if its receive asked for a heartbeat |
| LockRenewal.ParseLockDuration | ai4s/jobq/backend/servicebus_rest.py:60-76 | The duration is the reported one or 10 s, whichever is longer, and 30 s without a report |
| LockRenewal.TryRenewal | ai4s/jobq/backend/servicebus_rest.py:643-721 | One attempt sends the request that is due, and what follows it, a retry, a new loop test or the end with its alarm, is what the log of requests prescribes |
| LockRenewal.EndFailedCycle | ai4s/jobq/backend/servicebus_rest.py:723-739 | After a failed cycle the lost event is set exactly if more than the lock duration has passed since the last success and it was not set since |
| LockRenewal.Cycle | ai4s/jobq/backend/servicebus_rest.py:643-739 | One cycle of up to three attempts comes back to the loop test or ends the loop, with the requests, the alarms and the ending that the log prescribes |
| LockRenewal.RenewLoop | ai4s/jobq/backend/servicebus_rest.py:623-741 | For every environment the loop terminates; every request is sent when it is due, by the replies so far and the stop event, and none is due at the end; the alarms, the ending and its time are the functions of the log that the following lemmas are about |
| LockRenewal.FirstAttemptIsTimely | ai4s/jobq/backend/servicebus_rest.py:625-645 | The first request after a success or the start ends within the lock duration of it |
| LockRenewal.AlarmsAreJustified | ai4s/jobq/backend/servicebus_rest.py:643-739 | Every setting of the lost event comes at the end of a request: a 404, or a failure more than the lock duration after the last success before it; none once the stop event is set |
| LockRenewal.LossIsDetected | ai4s/jobq/backend/servicebus_rest.py:637-739 | At every moment of every run: after two failed cycles the lost event has been set for the last success, and without it no request is sent and the loop does not end later than 3 s plus 2.5 lock durations (or 1.5 and 15 s) after that success |
| LockRenewal.WhichCycleAlarms | ai4s/jobq/backend/servicebus_rest.py:723-739 | Exactly which failed cycles set the lost event: the first if it ends more than the lock duration after the last success, else the second, and no later one |
| LockRenewal.PrefixScheduled | ai4s/jobq/backend/servicebus_rest.py:637-721 | Every part of a log is a log, its alarms come first, and its next request is the one it prescribes: what holds of all logs holds at every moment |
| LockRenewal.EndsUnnoticed | ai4s/jobq/backend/servicebus_rest.py:637-741 | The loop ends neither stopped nor with an alarm since the last success exactly if it reaches its deadline within the lock duration of it, or is cancelled with the last loop test within that |
| LockRenewal.StopIsPrompt | ai4s/jobq/backend/servicebus_rest.py:637-721 | A loop that ends because it was stopped ends when the stop comes, or with the request it comes in |
| LockRenewal.NoRequestAfterStop | ai4s/jobq/backend/servicebus_rest.py:637-721 | No cycle begins after a stop; at most the retry whose pause it fell into is still sent, within two seconds |
| LockRenewal.HealthyLockLapses | ai4s/jobq/backend/servicebus_rest.py:620-641 | When every renewal succeeds and nobody stops it, the lost event is never set and the loop ends only by reaching its deadline |
| WorkerShutdown.WorkersStep | ai4s/jobq/orchestration/manager.py:600-685 | A step of one worker leaves the others alone; signals and polls only wake waiters |
| WorkerShutdown.HardStopIsFinal | ai4s/jobq/orchestration/manager.py:441-502 | A hard stop is never cleared, and from then on a worker resumes at most once and only if it was in `processor.resume()` at that moment |
| WorkerShutdown.HardIffRequested | ai4s/jobq/orchestration/manager.py:373-429 | In every run the hard stop is set exactly if some signal was SIGINT or came while the shutdown event was set |
| WorkerShutdown.FlagsFollowLast | ai4s/jobq/orchestration/manager.py:505-560 | In every run a worker may resume exactly if the last signal was SIGTERM or there was none, and running callbacks are cancelled exactly if it was not SIGUSR1 |
| WorkerShutdown.TwoSignalsAreHard | ai4s/jobq/orchestration/manager.py:373-429 | Two shutdown signals with no withdrawal and no resuming worker between them set the hard stop for good |
| WorkerShutdown.ResumesAfterHardStop | ai4s/jobq/orchestration/manager.py:441-502 | After a hard stop a worker resumes in some continuation exactly if it was in `processor.resume()` and the event loop was not stopped |
| WorkerShutdown.HardStopDuringResume | ai4s/jobq/orchestration/manager.py:500-502 | A run from the start in which the hard stop comes there and the worker goes on |
| WorkerShutdown.CancelsExactly | ai4s/jobq/orchestration/manager.py:600-640 | In every run a step cancels a running callback exactly if its worker wakes to a standing shutdown while it runs and the last signal was not SIGUSR1 |
| WorkerShutdown.SignalCancelsCallback | ai4s/jobq/orchestration/manager.py:505-560 | A run for each of SIGTERM, SIGINT, SIGUSR2 and the time limit in which it cancels the running callback |
| WorkerShutdown.HandlerClearsOnlyItsOwn | ai4s/jobq/scheduled_events.py:122-148 | In a run in which the handler never set the event, its polls change nothing |
| WorkerShutdown.TrailingFailuresCounts | ai4s/jobq/orchestration/manager.py:651-676 | The recursive failure count is the number of failures after the last success |
| WorkerShutdown.FailureCounter | ai4s/jobq/orchestration/manager.py:651-676 | In every run the counter is the number of failures since the last success, ignoring lost locks, cancellations and iterations won by the shutdown event, and the worker gives up exactly when it exceeds the maximum |
| WorkerShutdown.NoTaskLeftBehind | ai4s/jobq/orchestration/manager.py:600-685 | In every run each iteration's task came to an end or was cancelled by a shutdown before the worker goes on, waits for a preemption or ends; an empty queue or an error ends the worker, a lost lock lets it go on, after `WorkerCanceled` it waits for a preemption, and after a success or failure exactly if it saw the shutdown |
| WorkerShutdown.SoftLimitIsFinal | ai4s/jobq/orchestration/manager.py:600-606 | Over the soft time limit a worker begins nothing and has ended in every continuation |
| WorkerShutdown.PotentialStep | ai4s/jobq/orchestration/manager.py:600-685 | With the event set and no resuming, no step raises iterations begun minus lost locks plus the one that may still begin |
| WorkerShutdown.ShutdownStaysSet | ai4s/jobq/scheduled_events.py:135-148 | A shutdown that must not resume stays set in all runs without signals and announcements exactly if the handler is disabled, does not believe that it set the event, or the event loop is stopped |
| WorkerShutdown.ShutdownStaysSetAnyway | ai4s/jobq/scheduled_events.py:135-148 | In all runs without signals exactly if the handler is disabled or the event loop is stopped |
| WorkerShutdown.SoftShutdownStopsWorkers | ai4s/jobq/orchestration/manager.py:600-685 | After any signal but SIGTERM, without another signal, when the handler is disabled, or neither believes that it set the event nor announces a preemption: the event stays set, every further iteration of a worker is paid for by a lost lock but for at most one already decided, and SIGUSR1 cancels no running callback |
| WorkerShutdown.OneMoreIteration | ai4s/jobq/orchestration/manager.py:600-660 | A run in which that one iteration is begun after SIGUSR1 |
| WorkerShutdown.FalseAlarm | ai4s/jobq/orchestration/manager.py:441-502 | A run in which a preemption is announced, does not happen, and leaves only the handler's flag set |
| WorkerShutdown.StaleFlagUndoesShutdown | ai4s/jobq/scheduled_events.py:139-148 | A run in which a poll then clears a SIGUSR1 shutdown and the worker begins another iteration |
| WorkerShutdown.WithdrawalUndoesShutdown | ai4s/jobq/scheduled_events.py:135-148 | A run in which a preemption announced after SIGUSR1 is withdrawn and the worker begins another iteration |
| ShutdownHandlers.PreemptionEventHandler.Callback | ai4s/jobq/scheduled_events.py:122-148 | The callback changes the event and the flag as the protocol's poll does, whatever the other state is |
| ShutdownHandlers.Launcher.HandleShutdown | ai4s/jobq/orchestration/manager.py:373-429 | `shutdown_handler` takes the protocol's signal step, so that every result about runs holds of the launcher |
| ShutdownHandlers.Launcher.PollScheduledEvents | ai4s/jobq/scheduled_events.py:122-148 | A poll takes the protocol's poll step, announcing a preemption exactly if one of the events is of that type |
| ShutdownHandlers.Launcher.CheckAfterBracing | ai4s/jobq/orchestration/manager.py:474-500 | The last checks stop the worker exactly if, over the whole history, a hard stop was requested or the last signal forbids resuming; otherwise the worker goes on to resume and the shutdown event is clear |
| ShutdownHandlers.Launcher.WaitForHardStop | ai4s/jobq/orchestration/manager.py:435-502 | Nothing is added to the history but its own steps and, in order, those of the offered steps of others that were possible; it stops the worker exactly if a hard stop was requested or resuming forbidden by its last checks, at once if it was before the call; it does not return if the event loop was stopped in one of its waits |
| ShutdownHandlers.StoppedBySomebody | ai4s/jobq/orchestration/manager.py:435-502 | If a worker is stopped that was not asked to before the call, a signal came during its first wait |
| Sorting.SortElements | ai4s/jobq/orchestration/workforce.py:834-837 | The sort keeps the elements |
| Sorting.SortSorted | ai4s/jobq/orchestration/workforce.py:834-837 | The result is ordered by any rank the order compares |
| Sorting.SortStable | ai4s/jobq/orchestration/workforce.py:834-837 | Elements of equal rank keep their order |
| Scaling.HandedStep | ai4s/jobq/orchestration/multiregion_workforce.py:577-586 | One turn of the distribution keeps: everything available, all that is wanted, or an equal share per region so far was handed out |
| Scaling.CarryLoop | ai4s/jobq/orchestration/multiregion_workforce.py:572-586 | Taken from the smallest to the largest region, the first k get together the least of what they have, k shares and the total: this says what each region gets, at its own index |
| Scaling.TargetMonotone | ai4s/jobq/orchestration/multiregion_workforce.py:342-365 | The target is monotone in the queue size for all inputs exactly if the cap is not negative |
| Scaling.TierCounts | ai4s/jobq/orchestration/multiregion_workforce.py:345-361 | The size wanted for a load is given by how many of the thresholds it exceeds |
| Scaling.LayoffExact | ai4s/jobq/orchestration/multiregion_workforce.py:374-391 | Equal shares add up to the whole exactly if it divides evenly and enough is pending; otherwise the shortfall is below the number of regions when enough is pending |
| Scaling.MultiRegionWorkforce.LayoffQueuedWorkers | ai4s/jobq/orchestration/multiregion_workforce.py:367-405 | The plan is that distribution of equal shares over the pending workers, it sums to the least of all pending workers and the shares, and each region loses what the plan says as far as the cloud cancels it |
| Scaling.MultiRegionWorkforce.StopPending | ai4s/jobq/orchestration/multiregion_workforce.py:367-405 | The number it reports is the least of all pending workers and the equal shares, the whole surplus exactly if it divides evenly and enough is pending; running workers stay, and the fleet shrinks by exactly that if the cloud cooperates |
| Scaling.MultiRegionWorkforce.HireWorkers | ai4s/jobq/orchestration/multiregion_workforce.py:571-621 | The plan is that distribution over the capacities, a region without an answer gets nothing, it sums to the least of the need and the positive capacities, and each region gets what the plan says as far as the cloud grants it |
| Scaling.MultiRegionWorkforce.Wanted | ai4s/jobq/orchestration/multiregion_workforce.py:329-365 | The target is tenfold growth of the running workers, pending ones not counted, up to the goal of the tier table, the queue size and the cap; nothing for an empty queue |
| Scaling.MultiRegionWorkforce.Run | ai4s/jobq/orchestration/multiregion_workforce.py:407-653 | A tick never takes the fleet beyond the target from either side, nor beyond ten times the running workers and ten, the queue size and the cap; it reports success exactly if its plan closes the gap; if the cloud cooperates the new total is the old one plus the gap or what the regions can hire, or minus the equal shares or what is pending |
| Scaling.OneTick | ai4s/jobq/orchestration/multiregion_workforce.py:342-365 | Below the goal a tick grows the fleet tenfold or up to the goal |
| Scaling.FourTicksSuffice | ai4s/jobq/orchestration/multiregion_workforce.py:342-365 | From nothing the goal is never exceeded, and reached and kept from the fourth tick on |
| Scaling.ThreeTicksDoNot | ai4s/jobq/orchestration/multiregion_workforce.py:342-347 | For the largest tier three ticks are not enough |
| Scaling.RunTicks | ai4s/jobq/orchestration/multiregion_workforce.py:407-653 | Repeated ticks with ample capacity follow that recurrence |
| Workforce.KeyOrderIsPriority | ai4s/jobq/orchestration/workforce.py:834-837 | The reverse order of the tuples of status tests is the order of the priorities |
| Workforce.SortIsBuckets | ai4s/jobq/orchestration/workforce.py:815-838 | The sort lists the jobs priority by priority, each in listing order |
| Workforce.LayoffCandidates | ai4s/jobq/orchestration/workforce.py:824-838 | The victims are the first `n` of that list: as many as exist, no job stopped while one of an earlier status, from paused to running, is kept, the oldest among equals |
| Workforce.PausedCandidates | ai4s/jobq/orchestration/workforce.py:898-912 | The oldest paused jobs, as many as asked for or exist, and all of them if enough are asked for |
| Workforce.ListJobs | ai4s/jobq/orchestration/workforce.py:429-491 | All pages in order, cut at `max_jobs`, but never before the first job |
| Workforce.HireInBatches | ai4s/jobq/orchestration/workforce.py:776-804 | Full batches but for the last, summing to `n`, a pause between any two; a non-positive batch size is refused exactly if there is something to hire |
| BatchEnqueue.OccurrencesStep | ai4s/jobq/orchestration/manager.py:176-228 | No step loses or doubles an item |
| BatchEnqueue.FuturesStep | ai4s/jobq/orchestration/manager.py:198-216 | One step keeps: considered tasks that deserve a job are pushed, being pushed, or hit by an exception |
| BatchEnqueue.CountersStep | ai4s/jobq/orchestration/manager.py:176-234 | One step keeps both join counters equal to what is queued, in work or swallowed |
| BatchEnqueue.QueuesBounded | ai4s/jobq/orchestration/manager.py:85-91 | In every run neither queue holds more than its maximum |
| BatchEnqueue.DrainsExactlyOnce | ai4s/jobq/orchestration/manager.py:227-248 | When both joins have returned, every listed item was considered exactly as often as it was listed, but for one per exception, and the futures are exactly the wanted tasks, none in a dry run |
| BatchEnqueue.JoinedMeansNoNone | ai4s/jobq/orchestration/manager.py:194-234 | When both joins have returned, every None that the seeds list was cut off by an exception of its listing |
| BatchEnqueue.DrainsIff | ai4s/jobq/orchestration/manager.py:176-234 | With an enqueue worker the pipeline can get past its joins with everything listed exactly if no seed lists a None and there are more enumeration workers than None seeds before the last seed |
| BatchEnqueue.NoneItemBlocks | ai4s/jobq/orchestration/manager.py:194-196 | A run after which, in every continuation, the second join never returns |
| BatchEnqueue.AbandonedBlocks | ai4s/jobq/orchestration/manager.py:194-234 | From every reachable state in which all enqueue workers have ended and tasks are queued the second join never returns |
| BatchEnqueue.EnqueueExceptionBlocks | ai4s/jobq/orchestration/manager.py:198-222 | A run to such a state by one exception of `enqueue_task` or of `push` |
| BatchEnqueue.ListingExceptionBlocks | ai4s/jobq/orchestration/manager.py:176-190 | A run in which one exception of `list_tasks` leaves the first join waiting for ever |
| BatchEnqueue.NeverStuck | ai4s/jobq/orchestration/manager.py:176-234 | With fewer exceptions than enqueue workers, an enumeration worker alive or no seed left, and no None items, every reachable state that has not drained has a next step, despite the bounded queues |
| BatchEnqueue.RemainingStep | ai4s/jobq/orchestration/manager.py:176-234 | Every step uses up some of the remaining work |
| BatchEnqueue.RunsAreFinite | ai4s/jobq/orchestration/manager.py:176-234 | No run is longer than the work there is |
| BatchEnqueue.CanDrain | ai4s/jobq/orchestration/manager.py:176-248 | From every state reached with an enqueue worker left and enough enumeration workers for the None seeds among the seeds left, and no None items, both joins can still be reached without another exception, within the remaining work |
| BatchEnqueue.JoinedMeansTakeable | ai4s/jobq/orchestration/manager.py:176-234 | A run gets past its joins only from states with that many enumeration workers, exceptions or not |
| SyncHandshake.FinalSyncHappens | ai4s/jobq/ext/background_dirsync.py:213-225 | With the exit test as one step, the syncer exits only after a sync that began after `shutdown` asked for it |
| SyncHandshake.FinalSyncUnlessEarlyRead | ai4s/jobq/ext/background_dirsync.py:224-225 | With two reads the final sync happens exactly if the last read of the flush event came after `shutdown` set it |
| SyncHandshake.FinalSyncCanBeMissed | ai4s/jobq/ext/background_dirsync.py:224-225 | A run that exits without the final sync, its flush request still set |
| SyncHandshake.EveryWaitSyncs | ai4s/jobq/ext/background_dirsync.py:213-225 | In every run each return of the wait, by a flush or by its timeout, is followed by exactly one sync |
| SyncHandshake.FlushIsServed | ai4s/jobq/ext/background_dirsync.py:213-225 | A flush asked for while the syncer runs is followed by a sync or still standing, and with the test as one step the syncer does not exit before |
| SyncHandshake.SyncerTerminates | ai4s/jobq/ext/background_dirsync.py:213-225 | Once both events are set every run without further flush requests has at most ten steps, with either reading of the exit test |
| SyncHandshake.SyncerExits | ai4s/jobq/ext/background_dirsync.py:364-373 | A run that can then go no further has exited |
| DirSync.Syncer.ScanPreexistingOnDestination | ai4s/jobq/ext/background_dirsync.py:103-110 | All and only the files at the destination are recorded |
| DirSync.Syncer.CopyFiles | ai4s/jobq/ext/background_dirsync.py:121-138 | The loop copies exactly the missing and newer files that are not skipped, in whatever order, and removes them from the source if asked to |
| DirSync.Syncer.RemoveFiles | ai4s/jobq/ext/background_dirsync.py:143-165 | The loop removes exactly the files that are absent from the source, not skipped and not pre-existing |
| DirSync.Syncer.Sync | ai4s/jobq/ext/background_dirsync.py:112-165 | One sync changes source, destination and the pre-existing files as specified; what was missing or stale has the content and modification time of the source |
| DirSync.SyncedPaths | ai4s/jobq/ext/background_dirsync.py:112-165 | Exactly which paths the destination has after a sync |
| DirSync.SourceArrives | ai4s/jobq/ext/background_dirsync.py:121-138 | Every source file that no pattern excludes ends at the destination, not older by a millisecond or more; it has the content and modification time of the source if it was missing or stale by a millisecond, and else is untouched |
| DirSync.ExcludedStays | ai4s/jobq/ext/background_dirsync.py:121-165 | A pattern that excludes a directory excludes everything below it: nothing there is copied, removed or changed at either end |
| DirSync.OnlyStrangersRemoved | ai4s/jobq/ext/background_dirsync.py:143-165 | A path is removed only if it is absent from the source, not skipped and was not there first |
| DirSync.PreExistingSurvives | ai4s/jobq/ext/background_dirsync.py:103-119 | What was at the destination before the first sync is never removed, across any number of syncs and changes of the source |
| DirSync.CopiedAgain | ai4s/jobq/ext/background_dirsync.py:65-77 | A file just copied is due again exactly if its change time is a millisecond or more after its modification time |
| DirSync.SyncTwice | ai4s/jobq/ext/background_dirsync.py:112-165 | A second sync of an unchanged source changes no path, content or modification time, in any configuration |
| DirSync.SyncTwiceMoving | ai4s/jobq/ext/background_dirsync.py:112-165 | With `delete_after_copy` it changes nothing at all |

## Left out

- Azure SDK, HTTP, AMQP, tokens and credentials: the broker is abstract and replies are arbitrary.
- JSON text and its encoders, the MD5 algorithm, and `uuid4`.
- Command line, `track`, Grafana, documentation, logging, telemetry and progress bars.
- Subprocesses, process pools and signal escalation in `work.py`: only how a callback ends.
- Blob transfer, stash, caches, PID files and topic creation.
- `JobQ.clear`, `peek`, `get_result` and replies: they destroy on purpose, only read, or are not implemented.
- Dead-lettering by the Service Bus broker itself at its maximum delivery count, and the empty-poll loop of its
  `receive_message`.
- Duplicate detection by message id and lost sends on Service Bus: a run begins with the message stored.
- `parallel_hire`, `parallel_lay_off` and `parallel_resume`: thread pools around single requests; only how many
  succeed enters a tick.
- Retries and back-off of the HTTP requests of `Workforce`, and the resume endpoint.
- The manual modes of `run` (`scale_to_zero`, `manual_hire`) and the resume sweep at its end.
- Fetching region states, their cached fallback, `_region_parallelism`, `_fmt_uptime` and rollups.
- `BackgroundDirSync.flush`: its done event may be set by a sync that began earlier.
- I/O errors and concurrent changes during a sync; empty directories; the thread pool of `sync`, whose order of
  copies is arbitrary in the model.
- `datetime` arithmetic of the soft time limit of `launch_workers`: whether an iteration is over time is arbitrary.
- The bookkeeping arguments of a callback on Service Bus: they are those of a Storage Queue (`CallbackArguments`), and
  the content is never written back there.
- Cancelling all workers after `TooManyFailuresException`, and joining the workers at the end of `batch_enqueue`.
- WorkerShutdown.SoftShutdownStopsWorkers: assumes an idle preemption handler, because one that is not can clear the
  event (`ShutdownStaysSet`, `ShutdownStaysSetAnyway`).
- BatchEnqueue.NeverStuck: assumes a live enumeration worker or no seeds left, and no None items; without them the
  pipeline can stop (`DrainsIff`).
- LockRenewal.RenewLoop: times are real numbers and scheduling is instantaneous, so the bounds exclude delays of the
  event loop; a cancellation of the task comes during a request, not during a pause.
