# Verification of the ThreadWeaver scheduler

A Dafny model of ThreadWeaver's job scheduler, with proofs about single critical sections, about every
step of the worker threads, and about all finite runs. `dafny verify dfyconfig.toml` verifies it.

## How the model is built

The model has three layers.

**Objects.** `jobs_and_policies.dfy`, `weaver.dfy`, `collection.dfy` and `executor_chain.dfy` are the
classes of the program with their fields and loops: `Job`, `DependencyPolicy`,
`ResourceRestrictionPolicy`, `Weaver`, `Collection` (a Sequence is one whose `isSequence` is set), and
the executors. A method is one region that the program runs under a mutex, or a part of one. Its
`ensures` clauses tie the new fields to a function of the old ones, and say what that means for the fields
without naming the function.

**Functions on values.** `queue_policies.dfy`, `dependency_map.dfy`, `weaver_spec.dfy` and
`collection_ledger.dfy` hold those functions. They leave the types of jobs and resources open, so the
objects and the machines below use the same ones: what is proved about a function holds for the method
and for the machine's step.

**Machines.** There are two, because the two halves of the program have different hard parts.

- *The scheduler* (`scheduler*.dfy`): any number of worker threads, each in one of the phases of
  `Thread::run` and the state objects (about to apply, on its way into the critical section, inside
  `wait()`, holding a job, holding a job whose policies are still to be freed, gone), the Weaver's data,
  the policies and plain jobs. The outside world may at any time create jobs, add and remove
  dependencies and resources, change caps, enqueue, dequeue, change the number of threads, suspend,
  resume and shut down. Every action is one critical section or one step of a thread outside them, and a
  run is any finite sequence of actions.
- *The collection tree* (`collection*.dfy`, `sequence_order.dfy`): composite jobs and their elements, to
  any depth. Every action is one region under a composite's mutex, or a part of one where other threads
  can see the difference. The window in which a Sequence gives up its mutex to stop itself may be
  interrupted by anything. A stop takes the elements out of the queue one by one, and dequeueing an
  element and lifting its blocker are two actions; threads may take elements in between. Setting the abort
  flag of any node is an action that may come at any time, so a call of `requestAbort` is a flag and a stop
  on the composite, and then the same on its elements, with anything in between. The Weaver appears only as
  the rule that any queued element without a blocker and without an unresolved dependency may start, which
  covers every scan order and every number of threads. A *forest* is several such trees with one
  dependency map and the Weaver's active count.

Jobs of the scheduler machine may carry the blocker of a Sequence, and a thread that has not yet come back
from its job may lift it from a queued job, as the completion handler of an element does. So the claim that
no wake-up is lost covers the way in which Sequences make their elements runnable, and
`RestMeansWaiting` is what the tree takes for granted: where all threads rest, nothing is queued that
could start.

In the table below, a *steady* action leaves the Weaver working, at least one thread allowed, and the
policies of queued jobs alone. A *tidy* run is a steady one in which jobs succeed, dependencies follow some
rank, every dependee is queued or held when its dependent is enqueued, new caps are positive, and no
single job is dequeued.

`WindowInOnePiece` ties the two views of a Sequence's completion handler together: the `Collection`
object runs it in one piece, the tree in steps.

Assertions in the source are preconditions where they are demands on the caller (a job is New when it is
enqueued, a cap of threads is not negative) and proved where they are claims (`wasBusy` is false in the
Suspended state, a successful job that frees its policies has no unresolved dependency).

## Where the code differs from what is written about it

The model follows the code.

- In the dependency map the key is the dependent (`src/dependencypolicy.cpp:69`); the comment at
  `src/dependencypolicy.cpp:30-32` says the reverse.
- `removeDependency` removes one occurrence although a pair can be entered twice. The assertion that
  closes it holds exactly when the pair was entered at most once (`RemovalIsComplete`).
- In a plain Collection a failure is not sticky, although the comment at
  `src/collection_p.cpp:137-138` says so: the part that completes last decides (`LastPartDecides`).
- `dequeue()` of the whole queue leaves the jobs in status Queued, so they can never be enqueued again
  (`DequeueAllLoses`); dequeueing one job puts it back to New.
- Across a suspend and a resume a wake-up can be lost, because a thread gives up the mutex between
  finding the Weaver suspending and waiting (`ResumeCanLoseWakeup` is such a run). It is lost exactly if
  the resume finds no more threads available, that is neither asleep nor on their way into `wait()`, than
  will expire, and no pass that creates another (`ResumeLosesExactlyWhen`). If every resume finds no
  thread on its way into `wait()`, nothing is ever lost (`NoLostWakeupAcrossResume`).
- A suspend is not always completed. The same gap lets a suspend that follows a resume find all threads on
  their way into `wait()`, where they fall asleep without another pass (`SuspendCanHang`). It is completed
  exactly if one thread of the inventory is not on its way there (`SuspendReachesSuspended`).
- The end of a collection is not always delivered, for two reasons.
  - An abort or a stop loses it: when an own run ends after an abort was requested, when a stop takes the
    last part that counts out of the queue with none in flight, and when that happens to an element in
    flight, at any depth (`EndLost`, `LossHappensExactly`; one run for each: `LostByAbort`, `LostByStop`,
    `LostByElement`). A lost end never comes (`LostForGood`).
  - An element that waits for its dependencies holds it up, at any depth (`HeldUp`). No stop or abort is
    needed for that: it is enough that an element depends on a job that fails (`HeldUpByFailure` is such a
    run). Where it is certain that the dependency is never resolved, the end never comes
    (`HeldUpForGood`).

  Nothing else in the tree keeps an end away: where a run has come to a stop, exactly those ends are missing
  that are lost or held up, with dependencies, failures, stops and aborts of any kind
  (`EveryEndExactlyWhen`). If nothing fails and nobody interferes, the condition can be read off before the
  start: all collections end if and only if starts and ends can be numbered in agreement with the trees,
  the Sequences and the dependencies (`CompletesExactlyWhen`).
- The comment at `src/collection_p.h:74` says that `elementDequeued` is called before an element is
  dequeued; it is called afterwards, and the frontier of a Sequence depends on that (`BlockerGoesLast`).
- `release` and `free` of a restriction remove the first entry of a job, not the one just appended. The
  list comes back in its order exactly when nothing but that job stands behind its first entry
  (`RemoveAppendedExactly`); for a job that is no customer yet the state comes back exactly.

## Model

| member | source | states |
|---|---|---|
| `WeaverObject.Weaver.constructor` | src/weaver_p.cpp:25-32 | a new Weaver has no job, no thread and no active count |
| `WeaverObject.Weaver.CanBeExecuted` | src/weaver_p.cpp:67-99 | a job can be executed exactly if no Sequence blocks it, it waits for nobody and none of its restrictions is full; then it is the last customer of each of them, and after a refusal of none |
| `WeaverObject.Weaver.AskInTurn` | src/weaver_p.cpp:67-99 | acquiring one by one with rollback is the value function, and a refusal leaves the policies of a job that is no customer as they were |
| `WeaverObject.Weaver.AdjustInventory` | src/weaver.cpp:403-422 | exactly as many threads are created as asked for, or as there is room for if that is less; the old ones stay |
| `WeaverObject.Weaver.SetMaximumNumberOfThreads` | src/weaver.cpp:158-175 | the maximum is set, a first thread is created when it was zero, and every sleeper is woken |
| `WeaverObject.Weaver.SetState` | src/weaver.cpp:133-146 | the state changes and wakes the threads on entering WorkingHard or Suspending only |
| `WeaverObject.Weaver.Enqueue` | src/weaver.cpp:210-236 | the insertion loop puts each job behind everything of its own or a higher priority, adjusts the inventory for each, and wakes all threads |
| `WeaverObject.Weaver.InsertJob` | src/weaver.cpp:223-232 | the position search from the back is the specified insertion |
| `WeaverObject.Weaver.Dequeue` | src/weaver.cpp:245-264 | the job leaves the queue and is New again exactly if it was queued |
| `WeaverObject.Weaver.DequeueAll` | src/weaver.cpp:273-282 | the queue is empty and no status has changed |
| `WeaverObject.Weaver.IsIdle` | src/weaver.cpp:354-358 | idle means an empty queue and no active thread |
| `WeaverObject.Weaver.Settle` | src/weaver.cpp:517-524 | the head of the critical section forgets expired threads, makes room for one more and settles the previous job |
| `WeaverObject.Weaver.TakeExecutable` | src/weaver.cpp:542-550 | the scan takes the first executable job out of the queue and leaves nothing else behind |
| `WeaverObject.Weaver.TakeFirstAvailableJobOrSuspendOrWait` | src/weaver.cpp:505-563 | the whole critical section, in its order of decisions |
| `JobsAndPolicies.Job.AssignQueuePolicy` | src/job.cpp:155-161 | the policy is in the list afterwards, at its end unless it was there already, and once |
| `JobsAndPolicies.Job.RemoveQueuePolicy` | src/job.cpp:163-170 | its first occurrence goes, if there is one |
| `JobsAndPolicies.Job.Execute` | src/job.cpp:56-80 | after execution the status is final, and a success exactly if run() left Running or Success |
| `JobsAndPolicies.Job.FreeQueuePolicyResources` | src/job_p.cpp:31-36 | the loop over the policies frees each once, in order |
| `JobsAndPolicies.ResourceRestrictionPolicy.CanRun` | src/resourcerestrictionpolicy.cpp:61-71 | a customer is admitted exactly while the list is below the cap |
| `JobsAndPolicies.ResourceRestrictionPolicy.Free` | src/resourcerestrictionpolicy.cpp:73-82 | the job's first entry goes, nothing happens without one |
| `JobsAndPolicies.ResourceRestrictionPolicy.Release` | src/resourcerestrictionpolicy.cpp:84-87 | release is free |
| `JobsAndPolicies.ResourceRestrictionPolicy.SetCap` | src/resourcerestrictionpolicy.cpp:49-53 | the cap changes and the customers stay |
| `JobsAndPolicies.DependencyPolicy.AddDependency` | src/dependencypolicy.cpp:59-72 | both jobs carry the policy and keep their others, the pair is entered, and the dependent has an unresolved dependency |
| `JobsAndPolicies.DependencyPolicy.RemoveDependency` | src/dependencypolicy.cpp:79-99 | one occurrence goes and nothing else, the result says whether the pair was there, and it is gone exactly if it was entered at most once |
| `JobsAndPolicies.DependencyPolicy.ResolveDependencies` | src/dependencypolicy.cpp:106-120 | exactly the entries that wait for a successful job go, in one pass over a list that shrinks under the iterator |
| `JobsAndPolicies.DependencyPolicy.CanRun` | src/dependencypolicy.cpp:158-162 | a job may run exactly if it is the key of no entry |
| `JobsAndPolicies.DependencyPolicy.Free` | src/dependencypolicy.cpp:164-175 | only a success resolves dependencies |
| `DependencyMap.RemovalIsComplete` | src/dependencypolicy.cpp:79-99 | the closing assertion holds if and only if the pair was entered at most once |
| `DependencyMap.ResolvedExactly` | src/dependencypolicy.cpp:106-120 | resolving takes every entry that waits for the job, and leaves every other as often as it was there |
| `DependencyMap.ResolvedTwice` | src/dependencypolicy.cpp:106-120 | resolving twice is resolving once |
| `Sequences.RemoveAppendedExactly` | src/resourcerestrictionpolicy.cpp:61-82 | append and remove-first give the content back always, the order exactly if nothing but the job stands behind its first entry |
| `QueuePolicies.RefusalLeavesNoTrace` | src/weaver_p.cpp:67-99 | for any list of policies, repetitions included, a refusal leaves every policy as it was |
| `QueuePolicies.CanBeExecutedExactly` | src/weaver_p.cpp:67-99 | the answer is yes exactly if every policy alone says yes; then the job has entered its own restrictions and nothing else changed |
| `QueuePolicies.FreeAllExactly` | src/job_p.cpp:31-36 | freeing releases the dependents of a success and leaves the job's own restrictions, and nothing else |
| `QueuePolicies.SecondFreeChangesNothing` | src/collection_p.cpp:30-46 | a collection frees twice, in its cleanup and in its end; the second changes nothing |
| `QueueOrder.InsertKeepsSorted` | src/weaver.cpp:222-232 | insertion keeps the queue sorted by falling priority |
| `QueueOrder.InsertAddsOne` | src/weaver.cpp:222-232 | no queued job is lost or doubled by it |
| `QueueOrder.InsertIsStable` | src/weaver.cpp:222-232 | among equals the new job comes last |
| `QueueOrder.BatchIsSorted` | src/weaver.cpp:210-236 | a batch enqueued into an empty queue lies there in its stable sort |
| `QueueOrder.StableSortIsUnique` | src/weaver.cpp:210-236 | there is only one such order |
| `QueueOrder.EnqueueAddsAll` | src/weaver.cpp:210-236 | enqueueing a batch loses and doubles no job, and wakes all sleepers |
| `QueueOrder.EnqueueCreates` | src/weaver.cpp:210-236 | every job of a batch asks for as many threads as the batch has jobs, so their number squared, or as many as there is room for, are created |
| `QueueOrder.EnqueueOrders` | src/weaver.cpp:210-236 | the queue stays sorted, and each job of a batch goes behind its equals in the order of the batch |
| `QueueOrder.ScanFindsFirst` | src/weaver.cpp:542-550 | the scan finds the first job all of whose policies are willing, and over the whole scan only that job's restrictions have changed |
| `QueueOrder.ScanTakesHighest` | src/weaver.cpp:542-550 | if any queued job is willing, one is found, no later and of no lower priority |
| `QueueOrder.TakeDecides` | src/weaver.cpp:505-563 | which of its four ends a pass has: it completes a suspend or turns back, shrinks the inventory, takes a job or falls asleep; and what becomes of state, active count and sleepers |
| `QueueOrder.TakeChooses` | src/weaver.cpp:535-562 | a pass takes the first job all of whose policies are willing, which enters its restrictions, and falls asleep only if there is none |
| `SchedulerInvariant.StepKeeps` | src/weaver.cpp:505-563 | every action of threads and environment keeps the invariant on threads, active count, queue, held jobs, policies, dependencies and inventory |
| `SchedulerInvariant.RunKeeps` | src/weaver.cpp:505-563 | so does every run |
| `SchedulerInvariant.InitiallyGood` | src/weaver_p.cpp:25-32 | the invariant holds at the start |
| `SchedulerInvariant.TakeEffect` | src/weaver.cpp:542-562 | a pass takes a job exactly if a queued one is willing, and falls asleep only if none is |
| `SchedulerInvariant.TakeMoves` | src/weaver.cpp:505-563 | a pass moves one queue entry into the thread's hands, or nothing |
| `SchedulerInvariant.NobodyBusy` | src/suspendedstate.cpp:32-38 | no thread is busy in Suspended or ShuttingDown |
| `SchedulerWakeup.AlertKept` | src/weaver.cpp:535-562 | every steady action, the lifting of a blocker by a thread included, keeps: an oversized inventory has no sleeper, and a runnable queued job means that a thread is awake |
| `SchedulerWakeup.InitiallyAlert` | src/weaver_p.cpp:25-32 | this holds at the start |
| `SchedulerWakeup.NoLostWakeup` | src/weaver.cpp:505-563 | over every steady run, whenever a queued job would be accepted by all its policies, a thread of the inventory is awake |
| `SchedulerWakeup.RestMeansWaiting` | src/weaver.cpp:542-562 | where all threads sleep and caps are positive, nothing is active, no resource has a customer, and every queued job has an unresolved dependency or a blocker |
| `SchedulerWakeup.NoStall` | src/weaver.cpp:505-563 | with acyclic dependencies whose dependees are queued or held, all threads asleep means an empty queue and nothing active |
| `SchedulerResume.PreparedIsReached` | src/weaver.cpp:158-175 | the starting point of the run below comes about from the initial state |
| `SchedulerResume.ResumeCanLoseWakeup` | src/suspendingstate.cpp:38-43 | the run in which resume overtakes a thread between its pass and its wait, after which all sleep over a runnable job |
| `SchedulerResume.NoLostWakeupAcrossResume` | src/suspendingstate.cpp:28-43 | over every run with suspends at any time, and resumes that find no thread on its way into wait(): whenever the Weaver works and a queued job is runnable, a thread is awake |
| `SchedulerResume.PassedByLoses` | src/suspendingstate.cpp:38-43 | once no more threads are available than will expire and no pass creates another, a runnable job stays in the queue however the threads go on |
| `SchedulerResume.AttendedLosesNothing` | src/weaver.cpp:505-563 | otherwise the threads never come to rest over a runnable job |
| `SchedulerResume.ResumeLosesExactlyWhen` | src/suspendingstate.cpp:28-43 | a resume with a runnable job in the queue leaves one behind, where the threads rest, if and only if it passed all of them by in that sense |
| `SchedulerProgress.NoStallOverRuns` | src/weaver.cpp:505-563 | no stall, for every reachable state of every tidy run and any number of threads |
| `SchedulerRest.WorkShrinks` | src/thread.cpp:68-106 | unless the Weaver shuts down, every step of a thread uses up work |
| `SchedulerRest.ThreadsComeToRest` | src/thread.cpp:68-106 | left to themselves the threads take at most that many steps, whether the Weaver works, suspends or is suspended |
| `SchedulerRest.AwakeCanStep` | src/thread.cpp:68-106 | a thread that does not sleep has a step to take |
| `SchedulerProgress.EverythingRuns` | src/weaver.cpp:505-563 | after a tidy run, where no thread has a step left, every job that was ever enqueued has succeeded |
| `SchedulerHistory.NothingRunsTwice` | src/weaver.cpp:542-550 | the jobs taken are exactly those that have started, each once, over every run |
| `SchedulerHistory.NothingIsForgotten` | src/weaver.cpp:210-264 | over every run without dequeue-all a job in status Queued is in the queue and a running one is with a thread |
| `SchedulerHistory.IdleMeansFinished` | src/weaver.cpp:354-358 | where the Weaver is idle, every job that was enqueued and not dequeued has finished, and every resource is free |
| `SchedulerHistory.DequeueAllLoses` | src/weaver.cpp:273-282 | a job dequeued by dequeue-all stays Queued for ever, out of the queue, and can never be enqueued again |
| `SchedulerHistory.TakesTheBest` | src/weaver.cpp:542-550 | the job taken is the earliest of the highest-priority runnable jobs, in every reachable state |
| `SchedulerHistory.RunsInQueueOrder` | src/weaver.cpp:542-550 | jobs without hindrance are taken in the order of the queue, with any number of threads |
| `SchedulerHistory.BatchRunsInStableSort` | src/weaver.cpp:210-236 | a batch of jobs without policies runs in exactly the stable sort of its enqueue order |
| `SchedulerSafety.StartsAfterSuccess` | src/dependencypolicy.cpp:106-175 | a job that has started has had every dependency met that was never taken back |
| `SchedulerSafety.HopelessNeverStart` | src/dependencypolicy.cpp:139-175 | of a set of jobs each of which waits for another of the set or for a failed job, none ever starts |
| `SchedulerSafety.CycleNeverStarts` | src/dependencypolicy.cpp:59-72 | no job on a dependency cycle ever starts |
| `SchedulerSafety.FreedWaitsForNothing` | src/dependencypolicy.cpp:164-175 | the assertion that closes free always holds |
| `SchedulerSafety.CustomersExactly` | src/resourcerestrictionpolicy.cpp:61-87 | at every point of every run the customers are exactly the jobs with the restriction that were taken and not yet freed, each once |
| `SchedulerSafety.CustomersAreCarriers` | src/resourcerestrictionpolicy.cpp:61-87 | their number is that of the threads holding such a job |
| `SchedulerSafety.GrowsOnlyBelowCap` | src/resourcerestrictionpolicy.cpp:61-71 | a list of customers grows by one, and only below the cap then in force |
| `SchedulerSafety.CapHolds` | src/resourcerestrictionpolicy.cpp:61-82 | with a cap that is never lowered, concurrency never exceeds it |
| `SchedulerSafety.SuspendedIsQuiet` | src/suspendedstate.cpp:32-38 | Suspended implies that no job is held, and the assertions on wasBusy and on the active count hold in every reachable state |
| `SchedulerSafety.SuspendCompletesExactly` | src/weaver.cpp:526-529 | a suspend completes in a pass exactly if the Suspending state sent the thread and no other thread is busy |
| `SchedulerSuspend.SuspendComesThrough` | src/suspendingstate.cpp:28-43 | where the threads have come to rest by themselves, a suspend has been completed if and only if one of them was awake and not on its way into wait() |
| `SchedulerSuspend.SuspendReachesSuspended` | src/weaver.cpp:133-146 | after the call of suspend the threads come to rest in a bounded number of steps, and then the Weaver is suspended if and only if not all of the inventory were on their way into wait() at the call |
| `SchedulerSuspend.SuspendCanHang` | src/suspendingstate.cpp:38-43 | a run after which nothing is active, all threads sleep, and the Weaver suspends for ever |
| `SchedulerSafety.NothingTakenUntilResume` | src/weaver.cpp:526-533 | no job is taken between suspend and resume |
| `SchedulerSafety.InventoryBounds` | src/weaver.cpp:403-422 | creation stops at the maximum in force, and a thread expires only while the rest still reaches it |
| `SchedulerSafety.InventoryOverRuns` | src/weaver.cpp:535-540 | inventory and expired threads are disjoint and free of duplicates, and a queue has a thread if one is allowed |
| `CollectionObject.Collection.AddJob` | src/collection.cpp:86-97 | the element is appended |
| `CollectionObject.Collection.PrepareToEnqueueElements` | src/sequence_p.cpp:25-38 | afterwards every element of a Sequence carries its blocker behind its other policies; a Collection changes no list |
| `CollectionObject.OnlyTheBlocker` | src/sequence_p.cpp:25-74 | blocking brings the own blocker, unblocking takes it, and no other policy comes or goes |
| `CollectionObject.BlockingIsUndone` | src/sequence_p.cpp:25-74 | blocking and then unblocking an element gives its list back exactly if it did not carry the blocker |
| `CollectionObject.FoundInCounts` | src/collection_p.cpp:179-195 | what the counter drops by is the number of elements that are in the queue, and the queue gets shorter by as many |
| `CollectionObject.Collection.EnqueueElements` | src/collection_p.cpp:48-54 | the counter is the number of elements plus one, and the elements are enqueued as one batch |
| `CollectionObject.Collection.ElementStarted` | src/collection_p.cpp:56-66 | only the first part to start makes the collection begin |
| `CollectionObject.Collection.FinalCleanup` | src/collection_p.cpp:30-46 | the final status, the freed policies and the cleared queue pointer |
| `CollectionObject.Collection.UpdateStatus` | src/collection_p.cpp:135-146 | a part that succeeds writes Running, another writes its own status |
| `CollectionObject.Collection.DequeueElements` | src/collection_p.cpp:171-200 | exactly the elements leave the queue and those found are New again, the counter drops by as much as the queue, the blocker of this Sequence goes from every list and nothing else does, and if one part is left to count the collection is cleaned up and its policies are freed |
| `CollectionObject.Collection.WithdrawElements` | src/collection_p.cpp:179-195 | the loop: exactly the elements leave the queue, and the counter drops by as much as the queue gets shorter |
| `CollectionObject.Collection.WithdrawElement` | src/collection_p.cpp:179-195 | one round: the element leaves the queue, and then loses its blocker |
| `CollectionObject.Collection.ElementDequeued` | src/sequence_p.cpp:69-74 | the own blocker, and no other policy, is lifted from an element that is no longer queued |
| `CollectionObject.Collection.UnblockNext` | src/sequence_p.cpp:57-66 | the frontier moves by one, and the element it passes loses the blocker |
| `CollectionObject.Collection.AboutToBeDequeued` | src/collection.cpp:122-138 | a dequeued collection withdraws its elements and forgets the queue |
| `CollectionObject.Collection.Stop` | src/collection_p.cpp:153-169 | a queued collection leaves the queue with all of its elements; a started one withdraws its elements |
| `CollectionObject.Collection.RequestAbort` | src/collection_p.cpp:202-211 | the collection is stopped, as Aborted if one part is left to count, and the request reaches exactly the elements that have not finished |
| `CollectionObject.Collection.ProcessCompletedElement` | src/sequence_p.cpp:40-67 | a failed part stops a Sequence: no element is queued or blocked any more; a good part takes the blocker from the next element and changes no other list, nor the queue, nor the count |
| `CollectionObject.Collection.FinishOwnRun` | src/collection_p.cpp:95-104 | when the own run ends, every element is queued and, in a Sequence, blocked, unless an abort was requested |
| `CollectionObject.Collection.ElementFinished` | src/collection_p.cpp:87-128 | the handler as a whole: after the own run the elements are in the queue, all but the first of a Sequence blocked, unless it failed or an abort was requested; one part less counts; at zero the end is called, the status is final and the policies are freed, once |
| `CollectionInvariant.StepKeeps` | src/collection_p.cpp:48-211 | every step on a tree keeps the invariant on counters, statuses and blockers, with stops and abort flags at any point and in the middle of a stop |
| `CollectionResults.RunKeeps` | src/collection_p.cpp:48-211 | so does every run |
| `CollectionResults.EndsOnceOverRuns` | src/collection_p.cpp:87-128 | at the end of every run: begin and end at most once, begin before any element, and the counting equation |
| `CollectionResults.CountingUnderStop` | src/collection_p.cpp:109-127 | completions, withdrawn elements and counter add up to the number of parts |
| `CollectionResults.EndAtMostOnce` | src/collection_p.cpp:113-127 | the end comes at most once, and only when no element is queued or in flight |
| `CollectionResults.LastPartDecides` | src/collection_p.cpp:135-146 | the status of a plain Collection is that of the part that completes last |
| `CollectionResults.AbortWins` | src/collection_p.cpp:30-46 | over every run, a composite that comes to its end after an abort was requested is Aborted |
| `CollectionResults.AbortIsFinal` | src/collection_p.cpp:95-104 | once an abort was requested and its stop has gone through, no element is ever queued again |
| `CollectionResults.SweepInOnePiece` | src/collection_p.cpp:171-200 | the loop of a stop, if nothing interrupts it, withdraws and unblocks every element and does to the counters what the Collection object does |
| `CollectionResults.CleanupAssertionHolds` | src/collection_p.cpp:38-43 | the assertion on the status in the cleanup holds when the loop of a stop gets there |
| `CollectionResults.OneAtATime` | src/sequence_p.cpp:57-66 | a Sequence has at most one element in flight, the one before the frontier |
| `CollectionResults.FrontierHolds` | src/sequence_p.cpp:25-38 | from the frontier on every queued element carries the blocker, before it all have ended, over every run and in the middle of every stop |
| `CollectionResults.BlockerGoesLast` | src/collection_p.cpp:179-195 | a step that takes a blocker away takes it from the next element in line or from one that had left the queue before, and a stop only from the latter |
| `CollectionResults.WindowInOnePiece` | src/sequence_p.cpp:40-67 | the handler in one piece and in steps come to the same |
| `CollectionLoss.LossHappensExactly` | src/collection_p.cpp:95-127 | the steps at which an abort or a stop loses an end, at every depth: an own run that ends after an abort was requested, and a stop that dequeues the last part that counts with none in flight, and no others |
| `CollectionLoss.LostForGood` | src/collection_p.cpp:109-127 | a lost end never comes, over every run |
| `CollectionLoss.NeverStuck` | src/collection_p.cpp:87-128 | whatever the dependencies, and whatever stops and aborts it has seen, a composite in flight whose end is neither lost nor held up by a waiting element always has a step to take |
| `CollectionLoss.EndComesExactlyWhen` | src/collection_p.cpp:87-128 | at the end of every run, if nothing more can happen inside under the dependencies as they are, the end has come, once, if and only if it is neither lost nor held up |
| `CollectionLoss.LostByAbort` | src/collection_p.cpp:95-104 | a run that loses the end by an abort during the own run |
| `CollectionLoss.LostByStop` | src/collection_p.cpp:179-199 | a run that loses it by a stop while the only element is queued |
| `CollectionLoss.LostByElement` | src/collection_p.cpp:109-127 | a run in which a composite loses its end because a composite element lost its own |
| `CollectionBarrier.ForestRunKeeps` | src/collection_p.cpp:87-128 | every run on a forest keeps the invariant, and the active count covers every thread inside a node |
| `CollectionBarrier.IdleMeansDone` | src/weaver.cpp:354-358 | whenever the Weaver is idle, every tree that was enqueued has ended with every composite in it that began, each ended once with counter zero |
| `CollectionBarrier.CollectionsAreBarriers` | src/collection_p.cpp:30-54 | if c depends on e, then whenever c or anything inside c has begun, e has succeeded and everything inside e is at rest |
| `CollectionProgress.EveryRunCompletes` | src/collection_p.cpp:87-128 | every run is finite, and one that cannot go on has ended every tree, each composite exactly once |
| `CollectionProgress.StepWork` | src/collection_p.cpp:87-200 | every step inside a tree uses up work, after any stops and aborts |
| `CollectionProgress.TreeComesToRest` | src/collection_p.cpp:87-200 | a tree to which no more stops and aborts come takes a bounded number of steps |
| `CollectionDependencies.EveryRunCompletesInOrder` | src/dependencypolicy.cpp:106-120 | with dependencies between any nodes: if all runs succeed, and starts and ends can be numbered so that dependees end before their dependents start, every run is finite, and one that cannot go on has ended every tree with success |
| `CollectionDependencies.SoundRun` | src/dependencypolicy.cpp:164-175 | over every run, failures included, no entry waits for a node that has ended with success, and none is added |
| `CollectionOrder.TimesFitAll` | src/dependencypolicy.cpp:106-120 | the times at which the nodes of a run that ended every tree begin and end are such a numbering |
| `CollectionOrder.CompletesExactlyWhen` | src/dependencypolicy.cpp:106-120 | when no run fails: there is such a numbering if and only if every run that cannot go on has ended every tree with success, and if and only if one run does |
| `CollectionWaiting.BegunWaitsForNothing` | src/dependencypolicy.cpp:158-162 | over every run, a node that has begun has no unresolved dependency |
| `CollectionWaiting.WhereRunsStop` | src/collection_p.cpp:87-128 | with any dependencies and failures every run is finite, and where it cannot go on a tree has begun exactly if it waits for nobody, and what has begun has ended, once, exactly if it is not held up |
| `CollectionWaiting.EveryEndExactlyWhen` | src/collection_p.cpp:87-211 | the same with stops and aborts from outside at any node and any time: the ends that are missing are those lost and those held up |
| `CollectionWaiting.HeldUpByFailure` | src/dependencypolicy.cpp:164-175 | a run without stop or abort in which a collection begins and cannot end, because one element depends on another that fails |
| `CollectionFates.FatesAreFinal` | src/dependencypolicy.cpp:158-175 | who waits for a node that will not succeed never begins, nor does anything inside, and the composites that wait for such an element never end, whatever else happens |
| `CollectionFates.HopelessNeverBegin` | src/dependencypolicy.cpp:158-175 | a set of nodes each of which waits for another of them, for a failure or for a job whose run will fail never begins, with everything inside |
| `CollectionFates.HeldUpForGood` | src/collection_p.cpp:109-127 | and no composite that has such an element in the queue ever ends |
| `CollectionFates.FailureHoldsBack` | src/dependencypolicy.cpp:164-175 | in particular, a node that depends on one that has ended without success never begins |
| `SequenceOrder.SequencesRunInOrder` | src/sequence_p.cpp:25-74 | nested Sequences run a prefix of what a sequential interpreter runs, and all of it with its status once they have ended |
| `SequenceOrder.EndedMatches` | src/sequence_p.cpp:46-56 | the final status of a tree of Sequences is that of the first part that does not succeed |
| `SequenceOrder.ExecutedIsPrefix` | src/sequence_p.cpp:25-74 | at every moment the runs so far are a prefix of the reference |
| `SequenceOrder.ReferenceFollowsFlattening` | src/sequence_p.cpp:25-74 | the reference is a prefix of the flattened tree, all of it when nothing fails, and succeeds exactly then |
| `SequenceOrder.StopsAtFirstFailure` | src/sequence_p.cpp:40-67 | the reference stops exactly at the first run of the flattening that does not succeed, and ends with its status |
| `ExecutorChain.Executor.Wrap` | src/executewrapper.cpp:24-27 | the wrapped executor is replaced and the old one returned |
| `ExecutorChain.Executor.Unwrap` | src/executewrapper.cpp:29-34 | what was wrapped takes the wrapper's place at the job |
| `ExecutorChain.JobExecution.SetExecutor` | src/job.cpp:87-90 | null stands for the default executor |
| `ExecutorChain.JobExecution.AddedToCollection` | src/collection.cpp:93-95 | one new wrapper on top of the chain |
| `ExecutorChain.JobExecution.AboutToBeQueued` | src/collection.cpp:110-120 | the self wrapper and a collection wrapper on top; the chain stays acyclic and ends in the default executor |
| `ExecutorChain.JobExecution.AboutToBeDequeued` | src/collection.cpp:122-138 | both come off again |
| `ExecutorChain.QueueAndDequeue` | src/collection.cpp:110-138 | queueing and dequeueing any number of times restores the chain |
| `ExecutorChain.NestAndQueue` | src/collection.cpp:86-138 | the same inside any number of enclosing collections |

## Left out

- Signals, QObject parents, the global queue and its factory, QueueStream, decorators and debug output: forwarding and lifetime code.
- Memory ownership: a job, a resource or a thread is an identity that lives as long as it is mentioned, so `destructed` and the deletion of threads and wrappers do not appear.
- Null job pointers in a list given to enqueue, which the code skips.
- Mutexes, lock order and the timeouts of waits: a locked region is one step, and a waiting thread is in the set of sleepers until something wakes all of them. The timed wait in `finish`, which also wakes the sleepers, is not modelled, and neither is spurious waking.
- The scan is one step, as it is under the Weaver's mutex, although the policies have locks of their own; the status Running is set in the same step in which a job is taken, and all policies of a job are freed in one step.
- `shutDown` is modelled as the change of state in an idle Weaver that it comes to after `finish` and `suspend`; the loop that joins the threads is not.
- Exceptions other than the three that mean failed, aborted and end of the thread.
- `Job::execute` calls out to run(), begin and end; only the statuses it writes appear in the Job object. That an element's wrapped begin is called twice (`src/collection.cpp:42-45`) is not counted.
- User-written queue policies, and one policy object shared by several Weavers.
- SchedulerWakeup.NoLostWakeup: for runs that do not suspend, resume or shut down, that keep at least one thread allowed, and in which no cap is changed and no dependency removed from outside; neither change wakes the sleepers. Suspend and resume are in `SchedulerResume`.
- SchedulerResume.ResumeLosesExactlyWhen: with no more changes from outside after the resume; a later enqueue may wake nobody either while threads are still on their way into `wait()`.
- SchedulerProgress.EverythingRuns: for plain jobs without blockers. A collection keeps its slot in a resource until its last element has ended, so a shared cap of one can block it for good.
- WeaverObject.Weaver.Enqueue: does not make the callback to the job, which only a collection acts on; its part is `CollectionObject.Collection.AboutToBeQueued`.
- WeaverObject.Weaver.Dequeue: does not make the callback to the job; for a collection, `CollectionObject.Collection.Stop` makes it first.
- WeaverObject.Weaver.DequeueAll: does not make the callback to the jobs.
- JobsAndPolicies.Job.Execute: of run(), begin and end it has only the status they leave.
- CollectionObject.Collection.AddJob: the wrapper that goes on the job's executor is `ExecutorChain.JobExecution.AddedToCollection`.
- CollectionObject.Collection.AboutToBeDequeued: the unwrapping of the executors is `ExecutorChain.JobExecution.AboutToBeDequeued`.
- Collections with resource restrictions, elements that are dequeued directly, and dequeueing the whole queue, in the collection tree: a resource restriction could only take runs away.
- Elements that a collection adds in its own run() are in the tree from the beginning; nothing looks at them before that run has ended.
- CollectionBarrier.CollectionsAreBarriers: in runs without stop, abort and dequeue from outside, and for dependencies that are there from the start; a stop frees the dependents while an element is still in flight.
- CollectionProgress.EveryRunCompletes: for forests without dependencies and without stops from outside. With dependencies it is `CollectionWaiting.WhereRunsStop` and `CollectionOrder.CompletesExactlyWhen`, with stops and aborts as well `CollectionWaiting.EveryEndExactlyWhen`.
- CollectionOrder.CompletesExactlyWhen: for runs in which every job succeeds. Where some fail, whether a plain Collection succeeds depends on which part completes last, and so on the schedule.
- The join of the two machines is not proved: that a Sequence whose elements lie in the queue of the scheduler machine, with `LiftBlocker` by its handlers, is run to its end is argued above from `SchedulerWakeup.RestMeansWaiting` and the tree.
- In the tree, a thread's elementStarted is part of the step in which the element is taken. In the code it waits for a stop in progress; it only counts starts, which no stop looks at.
- That requestAbort passes over elements that have finished: in the tree, flags may be raised on any node.
- CollectionObject.Collection.RequestAbort: the elements are plain jobs there. In the tree, flags and stops reach every node.
- CollectionObject.Collection.ElementFinished: runs the stop window of a Sequence in one piece; other threads inside the window are in the tree.
- Nested collections as heap objects: the elements of a `Collection` object are plain jobs, the nesting is in the tree.
