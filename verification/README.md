# Verified model of varmq

varmq is a worker pool and message queue whose hard part is a set of small lock-free and lock-light
protocols. This project models each of them and proves what its comments claim, for every interleaving.

A protocol is a transition system: a state, a step for every atomic operation (a load, a CAS, a lock, a
channel operation, one storage call), one program counter per goroutine, and some history fields that no
step reads. Module `Runs` defines runs and the induction principle; every theorem below about "every run"
quantifies over all of them, with any number of goroutines, cursors, jobs, purges and waiters. Proofs are
compositional: each goroutine has a local assertion, every step is shown to keep the mover's assertion and
to stay within what the others rely on.

Safety is half of it. For each operation there is also a theorem on what it answers: a call that refuses,
gives up or skips had a reason, a call nobody disturbs leaves exactly the result its documentation promises,
and a call that goes on alone gets there.

The containers are classes whose methods are proved against a sequence or a set.

| file | what it models |
|---|---|
| `Lifecycle.dfy`, `LifecycleAnswers.dfy` | the status word, `reserve` and `finishJobs`, and what each call leaves behind; module `Phases` is the abstraction the dispatch protocol uses |
| `Dispatcher.dfy`, `DispatchConservation.dfy`, `DispatchOrder.dfy`, `DispatchPurge.dfy`, `DispatchWait.dfy`, `DispatchAnswers.dfy` | event loop, batches, park, unpark, purge and Wait for one worker on one in-memory queue |
| `PurgeShared.dfy` | one purge counter shared by any number of workers, with its list of hooks |
| `ParkLists.dfy`, `ParkRefines.dfy` | the list of parked batches, as a class; that it does what the dispatch protocol's steps say, and that in every run its preconditions hold |
| `TopicLog.dfy`, `TopicLogProofs.dfy`, `TopicLogAnswers.dfy`, `TopicLogProgress.dfy` | the chunked lock-free log, its cursors, its bound, and topics; what its calls answer, and that they get there |
| `IdleStack.dfy`, `IdleStackProgress.dfy` | the stack of idle workers |
| `Wakeup.dfy`, `WakeupLimits.dfy`, `WakeupSlots.dfy` | the event loop's one-slot signal with any number of queues, each with its own pause, and every strategy |
| `ReadyHint.dfy` | the ready hint of a batch-acknowledging source, and the credit loop |
| `PauseHooks.dfy` | pause hooks and the hold flag |
| `Heap.dfy`, `PriorityQueues.dfy` | the priority heap and queue |
| `Dedup.dfy` | `EnqueueOnce` and the sharded id set |
| `JobClose.dfy`, `GroupJob.dfy` | closing a job, acknowledging it, and the result channel of a group |
| `BatchPlan.dfy` | batch size arithmetic |
| `Runs.dfy`, `Basics.dfy` | runs and induction over them; optional values, sorting by a number |

## Where the code does less than it says

Five statements one would expect of the code are false of it. The model keeps the code as it is, gives a
reachable run that breaks the statement, and proves exactly when it holds.

- `job.go:165-169` says a user's Close fails while the job is processing, so nothing else reads the ack
  while `fail` rewrites it. A Close that passed its check before the job started can still swap the ack out
  between `fail`'s load and store. Storage is then asked to acknowledge twice, and may accept twice if it
  does not itself refuse a repeated id. `DoubleAckIff` is the exact condition on a job just started, and
  `DoubleAckHappens` that a run gets there.
- By the same race the failure can be lost: `fail` records it so that Close rejects the job, but a closer that
  already has the ack, or is past its check and will take it, can have storage acknowledge the job all the
  same. `FailureLostIff` is the exact condition on a run that is failing, and `FailureLostHappens` that it is
  reached.
- The queue is not always behind the park: with a concurrency limit above 1 a batch granted before a Pause may be
  filled from the queue while another worker's batch parks its rest. `QueueBehindParkIffAlone` shows that
  it is so when the highest limit ever set is above 1, and only then; `QueueOnlyWhenParkEmpty` is what holds at any.
- `Wait` can return while a Purge has emptied the queue and not yet closed its jobs (`WaitMissesPurged`).
  `WaitSound` shows that to be the only way an accepted job is still open, and `WaitSoundIffNoPurge` that
  what a returned Wait promises holds in all runs exactly when no Purge is at that point.
- `source_manager.go:197-198` says `errNoReadySource` means every registered source is empty, and
  `fillBatch` stops dispatching on it. A queue paused between being picked and being dequeued, or under
  MaxLen emptied between the two reads of its length, gives the same error, and the event loop goes to wait
  beside another queue's jobs until the next signal. `NoLostWakeupIff` shows that no wake-up is lost
  exactly with at most one queue, or with queues that are never paused and, under MaxLen, never emptied
  by a Purge or another consumer.

## Model

| member | source | states |
|---|---|---|
| Lifecycle.PauseStopSafety | worker_eventloop.go:237-266 | in every run Paused and Stopped mean no granted reservation is unfinished, and Idle with one granted exists only inside releaseWaiters' locked window |
| Lifecycle.NoStuckStatus | worker_wait.go:9-30 | in every run, Running or Pausing with a zero count has a goroutine on the way to flip it |
| Lifecycle.CountsAndLoops | worker_lifecycle.go:3-51 | in every run curProcessing is exactly what goroutines hold, no finishJobs underflows it, and Start launches an event loop only when none lives |
| Lifecycle.RefinesPhases | worker_lifecycle.go:53-116 | every step of the status protocol refines a step of the three-phase lifecycle that the dispatch protocol assumes |
| LifecycleAnswers.PauseHalts | worker_lifecycle.go:73-99 | in every run, a Pause that finds the worker Idle or Running does not return before it was Paused, Pausing or Stopping, whatever others do |
| LifecycleAnswers.CallResult | worker_lifecycle.go:3-116 | the status that each Pause, Resume, Stop, Start and last finishJobs leaves, from every status and count, when nobody else changes them; Stop has cancelled and Start has a loop |
| LifecycleAnswers.CallFinishes | worker_lifecycle.go:3-116 | in every run each of these calls, going on alone, returns unless somebody else holds mx |
| LifecycleAnswers.ReserveAnswers | worker_eventloop.go:237-258 | in every run reserve refuses only if at some moment of the call the worker was neither Idle nor Running, and grants only a Running one |
| LifecycleAnswers.ReserveFinishes | worker_eventloop.go:237-258 | a reserve that goes on alone is granted exactly when the worker is Idle or Running |
| LifecycleAnswers.ShutdownFinishes | worker_eventloop.go:13-26 | an event loop whose context is done, with nothing processing, can go on alone to Stopped |
| LifecycleAnswers.ShutsOnlyIfCancelled | worker_eventloop.go:13-26 | in every run an event loop that shuts down has its context done |
| DispatchConservation.JobConservation | worker_eventloop.go:106-166 | in every run an accepted job is in exactly one of queue, loop buffer, batch, park, purge or gone, what is gone is closed, and no job starts twice |
| DispatchConservation.CountersExact | worker_pool.go:99-163 | in every run, TunePool at any time included, curProcessing is the slots reserved and not released, busy workers stay within the highest limit set so far, and nParked is the parked jobs but for a park about to count |
| DispatchConservation.ShrinkIsRespected | worker_pool.go:12-46 | while the limit stays at most some number, busy workers get no higher than that number or than they were, counting a worker the loop has admitted: a shrink holds from then on |
| DispatchConservation.ParksOnlyDraining | worker_pool.go:113-125 | jobs are parked only while the worker pauses or stops, and a paused or stopped worker has no batch left |
| DispatchOrder.StartsInEnqueueOrder | worker_park.go:76-141 | with a concurrency limit that was never above 1 jobs start in enqueue order across any number of pauses, resumes, stops and restarts |
| DispatchOrder.UnparksInDispatchOrder | worker_park.go:99-141 | at any concurrency parked batches have disjoint ranges of dispatch numbers, and unpark takes the earliest of all parked jobs |
| DispatchOrder.QueueOnlyWhenParkEmpty | worker_eventloop.go:123-133 | a loop that turns to the queue while the worker is active found nothing parked |
| DispatchOrder.QueueBehindParkIffAlone | worker_eventloop.go:123-163 | the loop fills from the queue only with an empty park, in all runs, if and only if the highest concurrency limit set is 1 |
| DispatchPurge.StaleParkedOnlyMidPurge | worker_park.go:146-169 | a parked batch is stale only while every purge since its stamp is between its bump and its drop |
| DispatchPurge.PurgedNeverPasses | worker_pool.go:106-117 | no job of a batch stamped before a purge's bump passes a stale check after it, on its way to start or to the park |
| DispatchPurge.LaterJobsUnaffected | worker_eventloop.go:146-163 | a job added after a purge returned is in no batch that purge made stale |
| DispatchWait.WaitSound | worker_wait.go:32-52 | when a Wait returns on a worker active throughout, every job accepted before the call is closed or in the hands of a purge that has not returned |
| DispatchWait.WaitSoundIffNoPurge | worker_wait.go:32-52 | for every concurrency and every number of purges let to be between emptying the queue and returning: a returned Wait always has its jobs closed if and only if that number is 0 |
| DispatchWait.WaitMissesPurged | queue.go:339-361 | a run in which a Wait returns while a purge holds an accepted job it has not closed |
| DispatchAnswers.HaltStopsBatch | worker_pool.go:113-125 | in every run, as long as the worker is not active, each batch starts at most one more job: its first, or the one past its halt check |
| DispatchAnswers.HaltStopsStarts | worker_pool.go:113-125 | meanwhile all batches together start no more jobs than there were batches at their first job or past a halt check, and one for a batch the loop had been granted |
| DispatchAnswers.BatchRunsAll | worker_pool.go:99-143 | a batch on a worker that stays active, that no purge reaches and whose jobs nobody closes, starts exactly its unclosed jobs, in order |
| DispatchAnswers.NoJobIsSkipped | worker_pool.go:99-135 | in every run a job that leaves was started, or closed before, or reached by a purge |
| DispatchAnswers.GrantedIfActive | worker_eventloop.go:106-118 | in every run no reservation is refused as long as the worker is active |
| DispatchAnswers.FilledFull | worker_eventloop.go:205-232 | a batch smaller than planned means that the queue was empty, and what is not filled is given back |
| DispatchAnswers.QueueIsServed | worker_eventloop.go:106-166 | from any state, a waiting loop of an active worker below its limit with nothing parked can go on alone to hand out the first queued job |
| DispatchAnswers.ParkIsServed | worker_eventloop.go:122-133 | with jobs parked it hands out the earliest of them instead |
| DispatchAnswers.PurgeEmptiesQueue | queue.go:339-361 | in every run, once a purge has emptied the queue no job accepted before it began is left in it |
| DispatchAnswers.WaitFinishes | worker_wait.go:32-52 | from any state, a Wait that begins when nothing is parked, queued or processing can go on alone to its return |
| PurgeShared.ReturnedPurgeLeavesNothing | worker_park.go:226-254 | with any number of workers registering, parking and being collected meanwhile, once a purge has returned no worker has parked, or is about to park, a batch stamped before its bump |
| PurgeShared.StaleIsReached | worker_park.go:235-254 | a stale parked batch is on a registered worker whose hook every purge since its stamp is still to call |
| PurgeShared.OnlyStaleIsDropped | worker_park.go:76-94 | in every run a park ends with the batch in the list, or drops it because a purge bumped the counter since its stamp |
| ParkLists.ParkList.Park | worker_park.go:76-94 | a batch from before a purge is closed whole, any other is appended whole, the counter stays exact and the hold flag is set exactly when the batch's queue is paused or can pause untold |
| ParkLists.ParkList.Unpark | worker_park.go:99-141 | takes the front of the oldest batch whose queue is not paused, leaves every other batch, keeps dispatch order and disjointness; nothing exactly when the queue of every parked batch is paused |
| ParkLists.ParkList.Drop | worker_park.go:146-169 | closes exactly the jobs of one purge counter and keeps the other batches in their order |
| ParkLists.ParkList.CountUnheld | worker_park.go:45-67 | counts the jobs whose queue is not paused and leaves the flag set exactly when the queue of some batch is paused or can pause untold |
| ParkLists.UnheldIsRest | worker_park.go:45-67 | the count is all parked jobs less those of the batches whose queue is paused |
| ParkLists.BySeqOk | worker_park.go:107-112 | sorting disjoint batches by dispatch number puts their ranges in ascending order and loses none |
| ParkRefines.SortAgrees | worker_park.go:107-112 | the parked list and the dispatch protocol put batches in the same order |
| ParkRefines.ListIsValid | worker_park.go:72-112 | in every run, whenever parkMx is free, the parked batches meet what the list's methods require: exact counter, disjoint ranges, sorted unless marked |
| ParkRefines.RestFits | worker_pool.go:113-125 | in every run what a worker parks is not empty and its dispatch numbers are apart from every parked batch |
| ParkRefines.ParkRefinesSteps | worker_park.go:76-94 | whatever the parked list's Park may do is the dispatch protocol's park, one step for a stale batch and lock, append, count for any other, and Park's preconditions hold there |
| ParkRefines.OnlyHolderParks | worker_park.go:76-94 | from the lock to the count nobody else changes the parked list, so a park is one step to the others |
| ParkRefines.UnparkRefines | worker_park.go:99-141 | whatever the parked list's Unpark may return and leave is the dispatch protocol's unpark step, when no queue is paused |
| ParkRefines.DropRefines | worker_park.go:146-169 | with one purge counter the parked list's Drop closes what the protocol's drop closes and leaves nothing |
| TopicLogProofs.CursorsReadTheLog | internal/topics/log.go:210-287 | in every run what a cursor has returned is the claimed payloads at consecutive offsets since its open or last purge |
| TopicLogProofs.OneOrder | internal/topics/log.go:243-287 | two cursors return the same payload at every offset both have passed |
| TopicLogProofs.DequeueIsNext | internal/topics/log.go:243-293 | a Dequeue returns the payload claimed at the cursor's offset, and nothing only if the cursor is closed or that offset is not claimed |
| TopicLogProofs.ScanIsUnread | internal/topics/log.go:297-365 | Values and a consumer's Purge return everything claimed between the cursor and the head they read, and the purge moves the cursor there |
| TopicLogProofs.OneOwner | internal/topics/log.go:126-157 | each claimed offset has one owner that stores it or has published it, in the one chunk that covers the offset |
| TopicLogProofs.SlotWrittenOnce | internal/topics/log.go:126-157 | in every run no two payload stores of any Appends go to the same slot |
| TopicLogProofs.NothingIsNil | internal/topics/log.go:110-365 | in every run the next step of any call finds the tail, chunk and slot it dereferences, so an Append that sees a cursor sees a tail |
| TopicLogProofs.PublishedIsClaimed | internal/topics/log.go:154-157 | a published slot the consumer has not cleared holds the payload claimed for its offset |
| TopicLogProofs.BoundHolds | internal/topics/log.go:110-187 | on a bounded log no open cursor ever has more than limit unread items |
| TopicLogProofs.PublishReachesAll | topic.go:77-94 | a Publish that returns true put its payload at one offset every current subscription was open before, and one that returns false claimed nothing |
| TopicLogAnswers.RefusedOnlyIf | internal/topics/log.go:106-187 | in every run, an Append that stores nothing had a reason at some moment of the call: the log was closed, no cursor was open, or an open cursor had limit unread items; the number it returns otherwise is that of the open cursors at some moment of the call |
| TopicLogAnswers.ClosedStoresNothing | internal/topics/log.go:100-129 | in every run, an Append that has not looked yet when the log closes, one waiting for the lock included, is refused |
| TopicLogAnswers.OpensAtHead | internal/topics/log.go:189-221 | in every run a new cursor starts at the head of some moment of the call and is listed |
| TopicLogAnswers.ScanReachesHead | internal/topics/log.go:295-340 | in every run Values and a consumer's Purge return everything unread up to the head of some moment of the call; Values leaves the cursor where it was |
| TopicLogAnswers.SkipReachesHead | internal/topics/log.go:312-328 | in every run the Purge of any other cursor moves it to the head of some moment of the call |
| TopicLogAnswers.CloseUnlists | internal/topics/log.go:367-387 | in every run a Close that returns leaves its cursor detached and unlisted and every other one listed as it was |
| TopicLogProgress.AppendFinishes | internal/topics/log.go:132-157 | in every run an Append that goes on alone returns, wherever the others stopped, a descheduled linker included; only the lock of a bounded log can keep it waiting |
| TopicLogProgress.DequeueFinishes | internal/topics/log.go:243-293 | in every run a Dequeue that goes on alone returns the next payload if it is published, and nothing if its cursor is closed or nothing more is claimed |
| IdleStack.ChainIsStack | internal/pool/pool.go:42-66 | in every run the links from head are exactly the stack, without repetition |
| IdleStack.NodeConservation | internal/pool/pool.go:42-106 | in every run each node is with a worker, on the stack, or in the hands of exactly one call |
| IdleStack.PopTakesTop | internal/pool/pool.go:54-66 | PopBack takes the top node and leaves the rest, node reuse included, and returns nil only from an empty stack |
| IdleStack.PruneExact | internal/pool/pool.go:72-106 | Prune removes exactly the nodes drop picked above the bottom keep of its snapshot and keeps the order of the rest under later pushes |
| IdleStack.NothingIsNil | internal/pool/pool.go:42-106 | in every run the next step of any call finds the node and the link it dereferences |
| IdleStack.LenNeverBelow | internal/pool/pool.go:37-39 | len is the true size plus the pushes and removals under way |
| IdleStackProgress.CallFinishes | internal/pool/pool.go:42-106 | in every run a call that goes on alone returns unless it waits for popMx: PushNode with its node on top, PopBack with the top, Prune whatever drop answers |
| Wakeup.NoLostWakeup | worker_eventloop.go:27-44 | with any number of queues and pauses: a loop that waits with no signal, on an active worker, with nobody between a change and its notify, has nothing pending or a batch that will signal, or gave up on a queue it had picked; all slots busy means a batch that will signal |
| WakeupLimits.NoLostWakeupIff | source_manager.go:184-207 | no wake-up is lost in any run if and only if there is at most one queue, or queues are never paused and, under MaxLen, never emptied by others |
| WakeupSlots.NoIdleSlot | worker_eventloop.go:35-44 | in every run, a loop that waits beside a waiting job has every slot taken, or a batch about to signal, or found no idle worker and another not worth its cost, or gave up on a refused queue |
| WakeupSlots.BusyWithinLimit | worker_eventloop.go:35 | in every run busy workers stay within every bound the limit has stayed within |
| WakeupSlots.LoopTakesOne | worker_eventloop.go:205-232 | in every run a batch gets a job only by taking one off a queue that is not paused, or parked jobs of one, and reserves only on an active worker |
| ReadyHint.HintLosesNothing | source.go:282-353 | while not paused, with no fetch under way and no Resume owing a poke, a hint of 0 means every item whose add has poked was popped |
| ReadyHint.PokeSurvives | source.go:310-359 | a poke that lands between a fetch's read of pokes and its markDry leaves the hint positive |
| ReadyHint.NoLostCreditWakeup | worker_credit.go:21-71 | a waiting loop that is owed no signal has popped every poked item, or a busy worker will signal |
| ReadyHint.CreditWithinLimit | worker_credit.go:32-60 | in every run busy workers, reserved credit and popped items stay together within the highest limit set so far |
| ReadyHint.PassTakesFreeSlots | worker_credit.go:32-60 | in every run a pass stops exactly when every slot of the limit it read is busy, else takes the most credit that fits, at most 64, and pops that many items or all there are |
| ReadyHint.PassServes | worker_credit.go:22-71 | from any state, an undisturbed pass of an active worker with a free slot and a positive hint pops and can start an item for every free slot |
| ReadyHint.DryIsQuiet | source.go:310-353 | in every run a fetch that ran the storage dry with no poke meanwhile leaves the hint at 0 |
| PauseHooks.LastCallIsState | internal/queues/pause.go:20-101 | once notifies drain, every live hook a change came after was last told the state the queue is in |
| PauseHooks.NotifyFinishes | internal/queues/pause.go:20-101 | from any state, a change whose notify has not begun can be notified by its queue alone, and every hook has then been told the state |
| PauseHooks.ClearFlagHoldsNothing | worker_park.go:45-94 | with the hold flag clear outside the critical sections, a parked batch of a paused queue exists only while that queue owes the hook a call |
| Heap.OrderIsStable | internal/queues/heap.go:18-24 | the order items are handed out in has lower priorities first and insertion order among equals, and holds exactly the items |
| Heap.OneOrder | internal/queues/heap.go:18-24 | items with distinct indexes have one sorted arrangement |
| Heap.SortItems | internal/queues/priority.go:60-62 | returns the items sorted by priority and index, a permutation |
| Heap.HeapQueue.Push | internal/queues/heap.go:27-30 | keeps the heap, adds the item, and puts it behind its equals in the order |
| Heap.HeapQueue.Pop | internal/queues/heap.go:34-42 | keeps the heap and removes the first item of the order |
| Heap.HeapQueue.Up | internal/queues/heap.go:44-53 | restores the heap when one item is too small for its place, as a permutation |
| Heap.HeapQueue.Down | internal/queues/heap.go:57-72 | restores the heap of the first n when one item is too large for its place, as a permutation that leaves the rest |
| PriorityQueues.PriorityQueue.Enqueue | internal/queues/priority.go:116-160 | accepts exactly when open, below capacity, typed and not a repeat; places the item stably; a refusal changes nothing; keeps ids exact |
| PriorityQueues.PriorityQueue.Dequeue | internal/queues/priority.go:164-189 | removes the front of the stable order and frees its id, nothing while paused or empty |
| PriorityQueues.PriorityQueue.Values | internal/queues/priority.go:55-68 | sorting the items gives the values in the order repeated Dequeue hands them out |
| PriorityQueues.PriorityQueue.Page | internal/queues/priority.go:74-90 | for every offset and limit, popping a copied heap gives that slice of Values; nothing for a bad limit or past the end |
| PriorityQueues.PriorityQueue.PurgeValues | internal/queues/priority.go:201-210 | returns every value in heap order, a permutation of the queue, and frees all ids |
| PriorityQueues.OnceAdded | internal/queues/priority.go:138-156 | adding an item keeps stored EnqueueOnce ids distinct and the id set exactly theirs |
| JobClose.OneCloseWins | job.go:308-371 | among any closers and the worker exactly one Close wins a closed job, and Wait is released once |
| JobClose.ClosedNeverRuns | job.go:335-337 | a job closed before it started never runs, none runs twice, none is closed while it runs |
| JobClose.AckedOnceBeforeRun | job.go:376-395 | until the job runs, storage accepts its ack at most once, however many Close it and storage refuses |
| JobClose.DoubleAckIff | job.go:165-176 | from a job just started, storage can accept twice if and only if a closer past its check has still to swap an ack that is unreported |
| JobClose.DoubleAckHappens | job.go:165-176 | a run from the start in which storage accepts one job's ack twice |
| JobClose.FailureLostIff | job.go:165-176 | from a failing run, storage can acknowledge the job instead of rejecting it if and only if a closer past its check has the ack or will take it before the failure is stored |
| JobClose.FailureLostHappens | job.go:165-176 | a run from the start in which a failed job is acknowledged |
| JobClose.CloseAloneWins | job.go:348-395 | from any state, an undisturbed Close of a job neither running nor closed reports its ack as it stands, closes it and releases Wait |
| JobClose.LostHasReason | job.go:348-371 | in every run a Close loses only to a running or closed job, or to a storage that refused |
| JobClose.WorkerAloneStarts | job.go:335-337 | from any state, a worker that goes on alone with a job starts it unless it is closed |
| GroupJob.SendNeverBlocks | internal/helpers/response.go:19-21 | a member about to send always finds room and an open channel |
| GroupJob.ResultsDelivered | internal/helpers/response.go:19-21 | in every run the channel was sent exactly the results of the members whose run sent one |
| GroupJob.RunSends | internal/helpers/response.go:19-21 | in every run a member whose run was about to send has sent its result as soon as it goes on |
| GroupJob.ClosedOnceAtEnd | group_job.go:94-153 | the group's channel is closed at most once, and is closed exactly when every member has finished closing, an empty group included |
| GroupJob.CountIsExact | internal/helpers/wg_counter.go:29-41 | the counter is the members not counted off, and no Done finds it at zero |
| GroupJob.MemberFinishes | internal/helpers/wg_counter.go:29-41 | in every run a member just closed that goes on alone is counted off, and closes the channel exactly if it is the last |
| Dedup.StoredIdsDiffer | internal/queues/queue.go:87-111 | in every run no two stored EnqueueOnce items share an id and the set has each one's id |
| Dedup.SetIsStoredOrInFlight | internal/queues/queue.go:126-144 | in every run an id in the set is stored, or its EnqueueOnce, Dequeue or Purge is between its two effects |
| Dedup.QuietSetIsExact | internal/queues/queue.go:87-180 | with no call under way the set is exactly the stored ids, so no refused append leaves one behind |
| Dedup.TakenIdIsFreed | internal/queues/queue.go:132-141 | a Dequeue that took an EnqueueOnce item finds the flag and the set, so the id is freed |
| Dedup.OnceAnswers | internal/queues/queue.go:87-111 | in every run EnqueueOnce reports true exactly when it stored its item, and false only if the id was in the set at some moment of the call or the queue refused it |
| Dedup.OnceAlone | internal/queues/queue.go:87-111 | from any state, an undisturbed EnqueueOnce can store its item if the id is not in the set, and is turned down if it is |
| Dedup.DequeueAloneFrees | internal/queues/queue.go:126-144 | in every run an undisturbed Dequeue that took an EnqueueOnce item frees its id |
| Dedup.SetIsMade | internal/queues/queue.go:87-180 | in every run a call that locks a shard finds the sharded set made |
| Dedup.IdMap.AddId | internal/queues/idset.go:24-38 | reports newness by the size alone, and is exact |
| Dedup.IdMap.RemoveId | internal/queues/idset.go:41-46 | removes the id, and a drained set that is kept never held a burst |
| BatchPlan.PlanInRange | worker_eventloop.go:176-200 | a planned batch has 1 to 32 jobs and respects the source's limit; there is none exactly when no worker is idle and none is worth spawning |
| BatchPlan.SizeIsFairShare | worker_eventloop.go:75-77 | the size is the largest of 1 to 32 that every share of the backlog can have, or 1 |
| BatchPlan.PlanIsLargest | worker_eventloop.go:176-200 | the planned batch is the largest the source allows, every share can have, and the hand-off gap needs |
| BatchPlan.BudgetIsLeast | worker_eventloop.go:92-100 | the budget is the least k with k jobs per hand-off spacing alive workers out to one per gap, capped at 32 |
| BatchPlan.EveryHandoffGetsWork | worker_eventloop.go:75-77 | while growing, from p >= c pending jobs and c free slots each of c hand-offs gets at least one job |
| BatchPlan.GrowthStops | worker_eventloop.go:65-71 | a pool not worth growing is not worth growing at a smaller backlog or a larger size |
| BatchPlan.GrowthIsBounded | worker_eventloop.go:65-71 | once a job time is measured a pool stops growing by pending times job time workers at the latest |

## Left out

- The HTTP API, registry, instance reporting, metrics, option plumbing and public wrappers: I/O and thin.
- Redis and SQLite adapters are not part of this model; acknowledging storage is an atomic FIFO queue whose pops succeed. A failed pop, which only the resync timer or a later announcement recovers, is not modelled.
- Several sources in `Dispatcher`: it has one FIFO queue bound to one worker, so priority or acknowledging sources and custom storage are not in it. Several queues are in `Wakeup`, several workers in `PurgeShared`.
- Idle workers in `Dispatcher`: its TunePool only stores the limit; popping an idle worker is `IdleStack`'s PopBack.
- Queue-level pauses in `Dispatcher`: held batches are in `ParkLists` and `PauseHooks` only.
- Protocols are values, not classes: a step relation is what concurrency needs, and an object's methods would hide the interleavings. Memory layout, GC, weak pointers and cache lines are not seen.
- Real time is nondeterminism: timers may fire at any step, job durations are open, and `jobNanos` is any value.
- Machine integers are unbounded here: the log's uint64 head, the uint32 counters and int64 arithmetic of batch sizes are taken not to wrap.
- Which of several queues with jobs is picked: in `Wakeup` RoundRobin and Priority may pick any, as the order does not bear on what is proved; queues are not bound or unbound while it runs.
- Wakeup.NoLostWakeup: nobody but the loop removes idle workers while it runs; a TunePool shrink or a Prune between its count and its pop can empty the pool.
- Whether Stop succeeds: it tries four CASes in order and the status may flip between them. A parent context cancelled during Start, and WaitUntil*, are not modelled.
- SetLimit racing an unbounded Append: the log's limit is fixed.
- A Purge overlapping the fill of a batch: jobs dequeued before it may run, as the code documents; the theorems speak of the stamp.
- Dedup.StoredIdsDiffer: plain items carry no id EnqueueOnce is used with and no Purge overlaps a Dequeue, as the code documents for the second.
- PriorityQueues.PriorityQueue.Enqueue: keeps ids exact provided plain items carry no id EnqueueOnce uses; all else holds without it.
- TopicLogProofs.PublishReachesAll: subscriptions that unsubscribe or purge meanwhile may skip the payload, as they ask to.
- JobClose.OneCloseWins: says nothing of a Closed job being acked when two closers race; the second can skip the ack.
- ReadyHint.HintLosesNothing: items a visibility timeout requeues, or another process adds, are covered only once something pokes.
