# Thread coordination: a model and its proofs

This project models four thread-coordination programs of the repository and proves what they do
under every schedule and for any number of workers.

| source | what it is | modules |
|---|---|---|
| `WorkerThreads.c` | a round barrier: two mutexes, two condition variables, a one-slot mailbox | `Barrier`, `BarrierInvariant`, `BarrierOutput`, `BarrierTheorems`, `BarrierSleep`, `BarrierProgram` |
| `threadpool/threadPool1/src/threadpool.c` | a pool over a bounded ring, with graceful and immediate shutdown | `RingSpec`, `RingPool`, `RingProtocol`, `RingInvariant`, `RingTheorems`, `RingProgram` |
| `threadpool/threadPool2/ThreadPool.cpp` | a pool that keeps a shadow count of a kernel semaphore, and a backlog | `SemaphoreSpec`, `SemaphorePool`, `SemaphoreProtocol`, `SemaphoreInvariant`, `SemaphoreTheorems`, `SemaphoreLosses`, `SemaphoreProgram` |
| `threadpool/c-Thread-Pool-master/thpool.c` | a pool over a linked queue announced by a binary semaphore, with a polling wait | `JobQueue`, `ThpoolProtocol`, `ThpoolInvariant`, `ThpoolTheorems`, `ThpoolProgress`, `ThpoolProgram`, `Backoff` |

Each program is a step system: a state, and an action for each atomic step of each thread. `Runs`
defines a run as a sequence of enabled actions and has the three induction principles used
throughout: an invariant kept by every step holds at the end of every run, and a measure that every
step lowers by at least (or exactly) its cost bounds (or equals) the cost of a run. An invariant is
proved inductive for each system, and the theorems are stated over runs from the initial state.
Beside each step system stands the program in imperative form: the fields, array, list or heap nodes
that the source updates, with a method for each critical section, and a program class that performs
any schedule of steps on them and is proved equal to the step system (`Replay`).

## Main results

**Round barrier.** In every run each finished round's batch, as main printed it, holds every worker
id exactly once. Both broadcasts find all workers in the wait set; a worker prints the rounds
1, 2, ... at its begin points and the same ones at its completion points, and is never two rounds
ahead of another one's completions; main receives a completion only after it was printed. What main
prints is determined line by line: rounds 1, 2, ... announced in order, each followed by its receipts,
then the line of the termination and the joins 0, 1, ... (`BarrierOutput`). No signal to main is lost. Until all workers are joined a step
other than a failed poll is possible, and a complete run has exactly
`rounds * (13 * n + 6) + 5 * n + 4` such steps, whatever the schedule.

These results take the one-second sleep at line 116 to outlast the arrival of the workers.
`BarrierSleep` drops that assumption: main may go on at any time. When it first takes Start, the
program can still finish if and only if every worker is in the wait set (`FinishesIffAllWait`); then
every schedule finishes it (`AllWaitAlwaysFinishes`), and otherwise none does, and the late worker
never begins a round (`LateWorkerNeverBegins`). For any number of workers and of rounds, at least one
each, there is such a run, and it ends with all threads blocked (`ShortSleepDeadlocks`).

**Ring pool.** The array ring refines a bounded queue of capacity exactly `queue_size`; an add is always
answered, with the error codes of the header as numbers. Accepted tasks
are the taken ones followed by the queued ones, and each is queued, running or finished as often as
it was accepted. While the pool is open, a sleeping worker implies that at least as many workers are
on their way to the queue as there are tasks, and the workers do not poll (`StepsAreBounded`). After
`threadpool_destroy` with the low bit of the flags set, every accepted task has run exactly as often as
accepted if and only if there was a worker or nothing to do; with the bit clear, and after a thread
could not be started, nothing is taken any more. A shutdown takes exactly two worker steps for each task still to run and for
each running one, and one for each other worker, unless it is graceful with tasks queued and no worker
to run them; at its end `started` is zero and the pool is freed, also when a thread could not be
started.

**Semaphore pool.** Shadow count, kernel count, backlog, queue and workers are in exact balance in
every run, including runs that post a queued request again, overflow the 16-bit backlog counter or
fail in `Execute`; the terms for these three losses are explicit. Releasing never exceeds the
semaphore's maximum. In clean runs, where callers avoid the three, requests are popped in the order
posted, none is missing, and when no worker can move all have been executed in exactly seven worker
steps each.

The three losses are real. A request posted while it is queued is dropped
(`SameRequestTwiceIsDropped`); without such posts nothing is (`DistinctPostsDropNothing`) and requests
are popped in the order posted, whatever else happens (`UndroppedRunsAreFifo`). With all workers
blocked, nothing dropped and fewer promotions skipped than there are threads, the queue is empty if and
only if the backlog counter has not wrapped, and holds 65536 requests for each wrap
(`BlockedQueueIsEmptyIffNoWrap`); `WrapStrandsBacklog` is a run of that kind for every number of
threads, and up to 65535 posts there is no wrap (`FewPostsDoNotWrap`). Blocked workers leave a backlog
if and only if, since it arose, as many promotions were skipped as there are threads
(`BacklogNeedsSkips`). Without a wrap, fewer failed executions and drops than threads leave nothing queued, while as
many failures as threads, for every number of threads, can (`StrandingTakesOneFailurePerThread`).

**Linked-queue pool.** A queued job is always announced by the semaphore, a post under way or a worker
with the token, so a pool at rest has run every job; it comes to rest within `3 * n + 17 * jobs` steps
of workers and posts, and one more for each spurious wake-up and `n + 6` for each post to all. When
`thpool_wait` returns, every job added before its last read of a zero length has finished, whatever
happened between its two unlocked reads; if none was added since, all jobs have finished
(`WaitWithoutLatePushIsComplete`). A waiter can return by its own steps if and only if the queue is
empty and no thread is working, and then by six reads (`WaitReturnsIffIdle`); on a pool at rest a call
returns with everything finished (`WaitOnQuietPoolReturns`). Once `threads_keepalive` is cleared each worker takes at most seven
more steps (sleeping and waking apart) and at most one more job; when the count of living threads is
zero no worker touches the queue again; and from any state of a destruction there is a way to its end
(`DestructionCompletes`). Every job node, as an object on the heap, is at any time in
exactly one place and there once: in the queue, with one worker, or freed; when the queue has been
cleared every node has been freed exactly once (`ThpoolProgram.RunPool`).

The polling interval, in exact arithmetic, doubles within a hundred polls or turns over, and gains a
second within 3000, unless it falls to zero nanoseconds, where it would stay. Below the maximum that
happens if and only if it starts at one of 42 values (`LandsIffDoomed`). The interval the code starts with is none of them, so every interval slept is longer
than the one before (`PollingSlowsDown`), and the maximum is reached within 60000 polls
(`PollingReachesMaximum`).

## Where documentation and code differ

- `threadpool/threadPool1/README.rst:8` says one slot of the ring is reserved to signal a full queue.
  The code uses all `queue_size` slots, and so does the model (`RingPool.ThreadPool.AddTask`).
- `threadpool/threadPool1/src/threadpool.h:84-86` promises that a graceful shutdown processes all
  pending tasks. That holds exactly when the pool has a worker
  (`RingTheorems.GracefulShutdownRunsEverything`).
- `threadpool/c-Thread-Pool-master/thpool.h:71-75` promises that `thpool_wait` waits for all jobs,
  queued and running. A job pushed between its two reads is not waited for
  (`ThpoolTheorems.LatePushEscapesWait`); what holds instead is `WaitReturnsAfterJobs`, and
  `WaitWithoutLatePushIsComplete` if there is no such push.
- `WorkerThreads.c:114-115` says that the one-second sleep lets the workers enter their waiting state.
  Nothing enforces it, and the program depends on it (`BarrierSleep.FinishesIffAllWait`).
- A second `threadpool_destroy` (threadpool.c:210-213) leaves the mutex locked; the `ensures` of
  `RingPool.ThreadPool.ShutDown` says so.

## Assumptions

Memory is sequentially consistent, and pthread and Win32 calls succeed, except that starting a thread
may fail in threadpool.c. A section under one mutex that touches nothing else is one step; where
sections nest (the two mutexes of the barrier, the semaphore inside the queue lock in thpool.c) each
lock has its own step. In the barrier a failed poll (lines 71, 72, 77) is one step, waits do not
return spuriously, and, but for `BarrierSleep`, main's sleep lasts until every worker waits. The other
two condition variables may wake spuriously. One thread creates and destroys a pool. In thpool.c no
push is under way when the queue is cleared: `jobqueue_clear` (lines 420-431) takes no lock. Tasks,
requests and jobs end; they may add more at any time. The lemmas `AnythingMayHappen` say what the
environment of each pool is free to do, the lemmas `WhatBlocks` what alone can block a thread.

## Model

| member | source | states |
|---|---|---|
| BarrierTheorems.EachWorkerReportsOncePerRound | WorkerThreads.c:70-88 | Every run: each finished round's received batch holds every id below n exactly once; the current batch has no repeats |
| BarrierTheorems.MailboxHandoff | WorkerThreads.c:70-85 | A free, raised mailbox flag and every committed worker find main in the wait set; at most one worker is committed; between signal and read nobody is |
| BarrierTheorems.BarrierSafety | WorkerThreads.c:119-129 | Both broadcasts find every worker in the wait set; printed rounds are 1, 2, ... in order; no worker begins a round before all have finished the one before; a receipt follows the printed completion |
| BarrierOutput.MainPrintsInOrder | WorkerThreads.c:119-154 | Every run: main has announced rounds 1, 2, ..., joined 0, 1, ..., and printed exactly each announcement with its receipts, then the termination and the joins |
| BarrierOutput.StepPrints | WorkerThreads.c:119-154 | Every step keeps that main's lines are those of its batches, rounds and joins |
| BarrierTheorems.NoDeadlock | WorkerThreads.c:43-163 | Until every worker is joined some thread can take a step that is not a failed poll |
| BarrierTheorems.RunCountsSteps | WorkerThreads.c:43-154 | Steps made, failed polls apart, plus steps left equal the total, in every run |
| BarrierTheorems.StepsAreBounded | WorkerThreads.c:43-154 | No run has more than rounds * (13n + 6) + 5n + 4 steps, failed polls apart |
| BarrierTheorems.MaximalRunCompletes | WorkerThreads.c:119-154 | A run that cannot go on has joined all workers, made exactly the total number of steps and printed all batches, all rounds of every worker, and main's lines in full and in order |
| BarrierSleep.FinishesIffAllWait | WorkerThreads.c:114-128 | With a sleep of any length: from main's first lock of Start on, completion is reachable if and only if every worker is then in the wait set |
| BarrierSleep.AllWaitAlwaysFinishes | WorkerThreads.c:116-154 | If every worker waits at that lock, every schedule carried as far as it goes joins all workers, with every batch and round complete |
| BarrierSleep.LateWorkerNeverBegins | WorkerThreads.c:50-55 | A worker not in the wait set at that lock never begins a round in any run, and the workers are never all joined |
| BarrierSleep.StepKeepsMissing | WorkerThreads.c:43-163 | Every step keeps that the others see the late workers as woken and never scheduled |
| BarrierSleep.ShortSleepDeadlocks | WorkerThreads.c:114-135 | For any number of workers and rounds, at least one each, a run from the start in which main goes on early and all threads end up blocked |
| BarrierTheorems.TotalStepsClosedForm | WorkerThreads.c:119-154 | The recursive step count in closed form |
| BarrierInvariant.StepKeepsInv | WorkerThreads.c:43-163 | Every step keeps mutual exclusion, worker positions, mailbox, round and log invariants |
| BarrierInvariant.FullBatch | WorkerThreads.c:131-139 | When main has counted n receipts the batch has every id exactly once |
| BarrierInvariant.ReceiptExtendsBatch | WorkerThreads.c:136 | Reading the mailbox appends the id to the current batch and leaves the earlier batches |
| BarrierProgram.Program.MainTurn | WorkerThreads.c:119-154 | Main's turn on the globals is its step, keeps the invariant, and unlocks and waits only with mutexes main owns |
| BarrierProgram.Program.WorkerTurn | WorkerThreads.c:49-89 | A worker's turn on the globals is its step, keeps the invariant, and unlocks and waits only with mutexes it owns |
| BarrierProgram.WorkerOwns | WorkerThreads.c:49-89 | At each place a worker owns the mutexes it is about to release or wait with, and main waits when it signals |
| BarrierProgram.MainOwns | WorkerThreads.c:119-148 | Main owns the mutexes it is about to release or wait with, and all workers wait when it broadcasts |
| BarrierProgram.Program.Decide | WorkerThreads.c:54-61 | Prints the begin of the round and works on, or exits; Start is released either way |
| BarrierProgram.Program.TestMailbox | WorkerThreads.c:71-77 | Keeps Complete and clears the flag exactly if main was waiting; otherwise nothing changes |
| BarrierProgram.Program.Report | WorkerThreads.c:83-84 | Prints the completion and wakes main, which is in the wait set |
| BarrierProgram.Program.StartRound | WorkerThreads.c:128 | Every worker is waiting before the broadcast and woken after it |
| BarrierProgram.Program.NextReceipt | WorkerThreads.c:131-139 | Raises the flag for the next receipt, or ends the round after the last |
| BarrierProgram.Program.Terminate | WorkerThreads.c:145-147 | Clears WorkOn and wakes every worker |
| BarrierProgram.Program.Broadcast | WorkerThreads.c:128 | Exactly the workers in the wait set are woken |
| BarrierProgram.Program.Play | WorkerThreads.c:43-163 | The program under a schedule is the step system under that schedule |
| BarrierProgram.RunProgram | WorkerThreads.c:92-163 | The whole program under any schedule: every finished batch is complete; if it cannot go on, all rounds are printed and main's lines are complete and in order |
| RingPool.ThreadPool.constructor | threadpool/threadPool1/src/threadpool.c:107-116 | A new pool is open and empty, with no threads counted |
| RingPool.ThreadPool.AddTask | threadpool/threadPool1/src/threadpool.c:146-194 | -1 exactly for the null routine, else -3 exactly if the ring is full, else -4 exactly if shutting down, else 0 and the task at the tail with a signal; a refused add changes nothing |
| RingPool.ThreadPool.Enqueue | threadpool/threadPool1/src/threadpool.c:176-180 | The contents of the ring gain the task at the end, round the end of the array |
| RingPool.ThreadPool.Dequeue | threadpool/threadPool1/src/threadpool.c:284-289 | The first task of the ring is returned and leaves it |
| RingPool.ThreadPool.WorkerSection | threadpool/threadPool1/src/threadpool.c:270-300 | Waits, leaves and lowers the count, or takes the head of the ring, as queue and mode demand |
| RingPool.ThreadPool.ShutDown | threadpool/threadPool1/src/threadpool.c:204-223 | An open pool gets shutdown 2 if the low bit of the flags is set and 1 otherwise, and a broadcast; a second call returns -4, changes nothing and keeps the lock |
| RingPool.ThreadPool.StartWorkers | threadpool/threadPool1/src/threadpool.c:127-135 | Counts each started thread; at the first failure shutdown becomes 1 with exactly the threads counted so far |
| RingPool.ThreadPool.CountWorker | threadpool/threadPool1/src/threadpool.c:133-134 | Counts one started thread and changes nothing else |
| RingPool.ThreadPool.Free | threadpool/threadPool1/src/threadpool.c:240-260 | Frees exactly if no started thread is left |
| RingTheorems.TasksAreConserved | threadpool/threadPool1/src/threadpool.c:163-180 | Accepted equals taken followed by the queue, within the size; every task is queued, running or finished as often as accepted |
| RingTheorems.SleepersAreNotNeeded | threadpool/threadPool1/src/threadpool.c:176-183 | In an open pool with a sleeper, the queue is no longer than the number of workers on their way to it |
| RingTheorems.IdlePoolIsDone | threadpool/threadPool1/src/threadpool.c:268-296 | An open pool whose workers cannot move has run every accepted task |
| RingTheorems.CreationCompletes | threadpool/threadPool1/src/threadpool.c:126-137 | A creation that cannot go on has started and counted every thread asked for, or is shutting down |
| RingTheorems.AddIsAnswered | threadpool/threadPool1/src/threadpool.c:146-194 | While the pool exists an add is always possible, and queues the task exactly if it has a routine, there is room and the pool is open |
| RingTheorems.StepsAreBounded | threadpool/threadPool1/src/threadpool.c:268-296 | In every run workers take at most one step each, three a task, one a spurious wake-up and one each for a shutdown: they do not poll |
| RingTheorems.HistoryGrows | threadpool/threadPool1/src/threadpool.c:163-295 | What was accepted, taken and finished stays so, in that order |
| RingTheorems.GracefulShutdownRunsEverything | threadpool/threadPool1/src/threadpool.c:215-230 | After a graceful shutdown everything accepted has run, exactly when there was a worker or nothing to do |
| RingTheorems.GracefulFlagRunsEverything | threadpool/threadPool1/src/threadpool.c:215-230 | From threadpool_destroy with an odd flag: once all workers have left, everything accepted has run, exactly when there was a worker or nothing to do |
| RingTheorems.OtherFlagsFreezeQueue | threadpool/threadPool1/src/threadpool.c:128-131 | From threadpool_destroy with an even flag, or a failed start: no run takes or accepts a task or changes the queue |
| RingTheorems.ImmediateShutdownFreezesQueue | threadpool/threadPool1/src/threadpool.c:278-282 | After an immediate shutdown no run takes or accepts a task or changes the queue |
| RingTheorems.ShutdownCountsSteps | threadpool/threadPool1/src/threadpool.c:274-298 | From shutdown on nobody sleeps, and worker steps made plus steps left are constant |
| RingTheorems.ShutdownCompletes | threadpool/threadPool1/src/threadpool.c:225-236 | A shutdown that cannot go on has all workers out in exactly the steps foreseen, the counter at zero and the pool freed |
| RingTheorems.TeardownPasses | threadpool/threadPool1/src/threadpool.c:127-135 | started is the number of workers that have not left, also after a failed start; once all are joined the guard of threadpool_free passes |
| RingTheorems.NothingRunning | threadpool/threadPool1/src/threadpool.c:284-295 | When no worker can move, the tasks taken are the tasks finished |
| RingInvariant.StepKeepsInv | threadpool/threadPool1/src/threadpool.c:96-303 | Every step keeps order, conservation, counters, positions and work conservation |
| RingInvariant.AllLeft | threadpool/threadPool1/src/threadpool.c:240-244 | With every worker joined the count of started threads is zero |
| RingInvariant.StepKeepsTask | threadpool/threadPool1/src/threadpool.c:284-295 | Every step keeps the balance of taken, running and finished for each task |
| RingInvariant.StepKeepsConserving | threadpool/threadPool1/src/threadpool.c:176-183 | Every step keeps work conservation |
| RingProgram.Program.Perform | threadpool/threadPool1/src/threadpool.c:96-303 | Each action, performed by the critical sections on the ring, is the protocol's step and never leaves the lock held |
| RingProgram.Program.Play | threadpool/threadPool1/src/threadpool.c:96-303 | The program under a schedule is the protocol under that schedule |
| RingProgram.RunPool | threadpool/threadPool1/src/threadpool.c:96-303 | A pool under any schedule: first in, first out; after a graceful shutdown with workers the ring is empty and all has run |
| SemaphorePool.ThreadPool.Create | threadpool/threadPool2/ThreadPool.cpp:130-185 | Succeeds exactly for 1 to 64 threads on a pool not yet created, with all counters zero; otherwise nothing changes |
| SemaphorePool.ThreadPool.PostRequest | threadpool/threadPool2/ThreadPool.cpp:239-273 | Queues the request; kernel and shadow count rise exactly if both are below the thread count, else the pending counter rises modulo 65536; fails when not created or the release fails |
| SemaphorePool.ThreadPool.NotifyThread | threadpool/threadPool2/ThreadPool.cpp:336-348 | Raises kernel and shadow count together, or neither at the maximum |
| SemaphoreInvariant.StepKeepsCounters | threadpool/threadPool2/ThreadPool.cpp:446-447 | Every step, the late decrement after a wait among them, keeps shadow = kernel + late workers, within the thread count |
| SemaphorePool.ThreadPool.PopRequest | threadpool/threadPool2/ThreadPool.cpp:282-292 | Returns the front request, if any, and removes every entry equal to it |
| SemaphorePool.ThreadPool.Remove | threadpool/threadPool2/ThreadPool.cpp:288 | Removes every equal entry and keeps the order of the others |
| SemaphorePool.ThreadPool.PromotePending | threadpool/threadPool2/ThreadPool.cpp:405-419 | Exactly one pending request becomes a token if there is one and both counts are below the thread count; otherwise nothing changes |
| SemaphoreSpec.PopTakesOneIffDistinct | threadpool/threadPool2/ThreadPool.cpp:287-288 | A pop takes exactly the front request if and only if it is not queued again |
| SemaphoreSpec.RemoveAllShrinks | threadpool/threadPool2/ThreadPool.cpp:288 | remove shortens the list by the number of equal entries and touches no other |
| SemaphoreTheorems.AccountingIsExact | threadpool/threadPool2/ThreadPool.cpp:249-265 | Shadow = kernel + late workers, at most threads; queue, tokens, backlog and workers balance, with the losses explicit, in every run; releases never fail |
| SemaphoreTheorems.PopFindsRequestUnlessDropped | threadpool/threadPool2/ThreadPool.cpp:282-291 | A pop comes back empty only if remove dropped more than was found missing |
| SemaphoreTheorems.BacklogNeedsSkips | threadpool/threadPool2/ThreadPool.cpp:392-419 | Blocked workers leave a backlog if and only if, since it arose, at least as many promotions were skipped as there are threads |
| SemaphoreTheorems.FewPostsDoNotWrap | threadpool/threadPool2/ThreadPool.cpp:249-265 | Up to 65535 posts the backlog counter has not wrapped and is exactly the queued requests without a token or a worker on its way |
| SemaphoreTheorems.FewPostsAreExecuted | threadpool/threadPool2/ThreadPool.cpp:362-459 | Up to 65535 posts, none of a queued request, fewer failures than threads: when no worker can move everything posted has been executed |
| SemaphoreTheorems.HistoryGrows | threadpool/threadPool2/ThreadPool.cpp:239-429 | What was posted, popped and executed stays so, in that order |
| SemaphoreTheorems.UndroppedRunsAreFifo | threadpool/threadPool2/ThreadPool.cpp:249-291 | Unless remove dropped something, requests are popped in the order posted and no pop comes back empty, whatever Execute returns |
| SemaphoreTheorems.DistinctPostsDropNothing | threadpool/threadPool2/ThreadPool.cpp:287-288 | If no request is posted while it is queued, nothing is dropped |
| SemaphoreTheorems.BlockedQueueIsEmptyIffNoWrap | threadpool/threadPool2/ThreadPool.cpp:249-265 | Blocked, nothing dropped, fewer skips than threads: the queue is empty if and only if the 16-bit counter never wrapped, and holds 65536 requests a wrap |
| SemaphoreTheorems.FewLossesStrandNothing | threadpool/threadPool2/ThreadPool.cpp:392-419 | Blocked, no wrap, fewer failures and drops than threads: nothing is queued, and without drops everything posted has been executed |
| SemaphoreTheorems.CleanRunsAreFifo | threadpool/threadPool2/ThreadPool.cpp:249-291 | Clean runs pop in the order posted, and no pop comes back empty |
| SemaphoreTheorems.CleanRunsCountSteps | threadpool/threadPool2/ThreadPool.cpp:362-429 | Clean runs: worker steps made plus steps left are seven for each request posted |
| SemaphoreTheorems.CleanRunsExecuteEverything | threadpool/threadPool2/ThreadPool.cpp:362-459 | A clean run in which no worker can move has executed everything posted and left nothing queued or pending |
| SemaphoreInvariant.StepKeepsInv | threadpool/threadPool2/ThreadPool.cpp:239-459 | Every step keeps counters, balance, backlog and history |
| SemaphoreInvariant.StepKeepsBalance | threadpool/threadPool2/ThreadPool.cpp:249-291 | Every step keeps the balance of queue, tokens, backlog and workers |
| SemaphoreInvariant.StepKeepsBacklog | threadpool/threadPool2/ThreadPool.cpp:405-418 | Every step keeps the backlog covered by tokens, engaged workers and the promotions skipped since it arose |
| SemaphoreInvariant.StepKeepsLosses | threadpool/threadPool2/ThreadPool.cpp:282-291 | Every step keeps that empty pops are at most the drops, skips at most failures and empty pops, and the order of posts unless something was dropped |
| SemaphoreLosses.SameRequestTwiceIsDropped | threadpool/threadPool2/ThreadPool.cpp:287-288 | A request posted while queued is executed once, and a token is left over |
| SemaphoreLosses.StrandingTakesOneFailurePerThread | threadpool/threadPool2/ThreadPool.cpp:394-398 | For every number of threads: that many failures can strand a request with all workers blocked, without a drop or a wrap; without a wrap, fewer failures and drops never do |
| SemaphoreLosses.WrapStrandsBacklog | threadpool/threadPool2/ThreadPool.cpp:261-265 | For every number of threads, a run without failure or drop that wraps the counter and leaves 65536 requests queued with all workers blocked |
| SemaphoreLosses.ServeAfterPosts | threadpool/threadPool2/ThreadPool.cpp:362-429 | The run behind both: any backlog is posted, each worker serves one request, and the backlog stays queued |
| SemaphoreLosses.WorkerPops | threadpool/threadPool2/ThreadPool.cpp:377-386 | The steps of a waiting worker from its token to its request |
| SemaphoreProgram.Program.Perform | threadpool/threadPool2/ThreadPool.cpp:239-459 | Each action, performed by the critical sections, is the protocol's step |
| SemaphoreProgram.Program.Play | threadpool/threadPool2/ThreadPool.cpp:239-459 | The program under any schedule is the protocol under that schedule |
| SemaphoreProgram.Program.PlayClean | threadpool/threadPool2/ThreadPool.cpp:239-459 | The program under a schedule of clean actions is the protocol under that schedule |
| SemaphoreProgram.RunPool | threadpool/threadPool2/ThreadPool.cpp:130-459 | A pool under any clean schedule: first in, first out, and all executed when no worker can go on |
| SemaphoreProgram.RunAnyPool | threadpool/threadPool2/ThreadPool.cpp:130-459 | A pool under any schedule: counters and list balance, releases succeed, order is kept unless something was dropped, and few losses strand nothing |
| JobQueue.Queue.Link | threadpool/c-Thread-Pool-master/thpool.c:438-454 | The heap list gains the node behind the rear |
| JobQueue.Queue.Push | threadpool/c-Thread-Pool-master/thpool.c:438-457 | The list gains the node behind the rear and the semaphore is up |
| JobQueue.Queue.Unlink | threadpool/c-Thread-Pool-master/thpool.c:464-483 | The front node leaves the list; an empty list stays as it is |
| JobQueue.Queue.Pull | threadpool/c-Thread-Pool-master/thpool.c:464-491 | The front node leaves, and the semaphore is up if nodes remain; nothing happens on an empty list |
| JobQueue.Queue.Clear | threadpool/c-Thread-Pool-master/thpool.c:420-431 | Frees exactly the queued nodes, in order, and leaves list and semaphore empty |
| JobQueue.Queue.TryWait | threadpool/c-Thread-Pool-master/thpool.c:544-550 | Takes the token exactly if there is one |
| ThpoolInvariant.SignalWakes | threadpool/c-Thread-Pool-master/thpool.c:526-540 | After a signal or a broadcast of the semaphore not every worker sleeps |
| ThpoolTheorems.NoJobIsLost | threadpool/c-Thread-Pool-master/thpool.c:454-456 | A queued job outside the queue lock is announced by the semaphore or a worker with the token, and not all workers sleep |
| ThpoolTheorems.QuietPoolIsDone | threadpool/c-Thread-Pool-master/thpool.c:349-378 | A pool at rest before its destruction has run every job added, pulled in order |
| ThpoolTheorems.StepsAreBounded | threadpool/c-Thread-Pool-master/thpool.c:349-378 | In every run workers and posts take at most three steps a worker, seventeen a job, one a spurious wake-up and n + 6 a post to all |
| ThpoolTheorems.WaitReturnsAfterJobs | threadpool/c-Thread-Pool-master/thpool.c:188-229 | When thpool_wait returns, all jobs added before its last read of a zero length have finished |
| ThpoolTheorems.WaitReturnIsCompleteIff | threadpool/c-Thread-Pool-master/thpool.c:226-228 | At the return every job added has finished if and only if the queue is empty |
| ThpoolTheorems.LatePushEscapesWait | threadpool/c-Thread-Pool-master/thpool.c:226-228 | A run in which a job pushed between the two reads is not waited for |
| ThpoolTheorems.WaitWithoutLatePushIsComplete | threadpool/c-Thread-Pool-master/thpool.c:226-228 | If no job was added since the last zero length was read, at the return all jobs added have finished |
| ThpoolProgress.WaitReturnsIffIdle | threadpool/c-Thread-Pool-master/thpool.c:195-228 | In any reachable state a polling waiter can return by its own steps if and only if the queue is empty and no thread works; then six reads do, and it has seen all jobs added |
| ThpoolProgress.WaitOnQuietPoolReturns | threadpool/c-Thread-Pool-master/thpool.c:188-229 | A call of thpool_wait on a pool at rest returns after seven steps with every job added finished |
| ThpoolProgress.WaiterGoesForward | threadpool/c-Thread-Pool-master/thpool.c:195-228 | A waiter goes through its loops in order and stays in one while it reads a working thread or a queued job |
| ThpoolTheorems.EachWorkerLeavesSoon | threadpool/c-Thread-Pool-master/thpool.c:349-381 | With keepalive cleared a worker takes at most seven more steps, sleep and wake-up apart, and one more job |
| ThpoolTheorems.TokenLeadsToExit | threadpool/c-Thread-Pool-master/thpool.c:351-381 | With keepalive cleared a worker with the token, or one running a job, exits by its next three or four steps, which nobody can block, without another wait or job |
| ThpoolTheorems.PostAllUnblocks | threadpool/c-Thread-Pool-master/thpool.c:245-255 | While threads live, posting to all makes a step other than going to sleep possible |
| ThpoolTheorems.NoneAliveMeansAllExited | threadpool/c-Thread-Pool-master/thpool.c:379-381 | With no thread alive after creation every worker has exited for good |
| ThpoolTheorems.EachNodeFreedOnce | threadpool/c-Thread-Pool-master/thpool.c:366-371 | Once the queue is cleared each node was freed exactly as often as added, by its worker or by the clear |
| ThpoolTheorems.ClearedMeans | threadpool/c-Thread-Pool-master/thpool.c:257-259 | Once cleared the queue is empty and every worker has exited |
| ThpoolProgress.DestructionEnds | threadpool/c-Thread-Pool-master/thpool.c:245-258 | If after a post to all no worker and no pusher can move, every worker has exited and the queue can be cleared |
| ThpoolProgress.DestructionCompletes | threadpool/c-Thread-Pool-master/thpool.c:233-259 | From any state of a destruction there is a run to its end |
| ThpoolProgress.CreationCompletes | threadpool/c-Thread-Pool-master/thpool.c:150-160 | thpool_init can return exactly when every worker has started, and a worker that has not can start |
| ThpoolProgress.PushCompletes | threadpool/c-Thread-Pool-master/thpool.c:165-184 | With the queue lock free a push can begin and its post follow: the job is behind the queue, the semaphore is up and a sleeper, if any, is woken |
| ThpoolProgress.HistoryGrows | threadpool/c-Thread-Pool-master/thpool.c:165-375 | What was added, pulled and finished stays so, in that order |
| ThpoolTheorems.QuietMeansAtRest | threadpool/c-Thread-Pool-master/thpool.c:349-381 | When no worker and no pusher can move, the queue lock is free and every worker sleeps or has exited |
| ThpoolInvariant.StepKeepsInv | threadpool/c-Thread-Pool-master/thpool.c:116-384 | Every step keeps counters, order, conservation, lock ownership, announcement, phases and what waiters saw |
| ThpoolInvariant.StepKeepsAnnounced | threadpool/c-Thread-Pool-master/thpool.c:454-488 | Every step keeps queued jobs announced |
| ThpoolInvariant.StepKeepsAttended | threadpool/c-Thread-Pool-master/thpool.c:526-550 | Every step keeps a worker awake while the semaphore is up |
| ThpoolInvariant.NothingWorking | threadpool/c-Thread-Pool-master/thpool.c:355-375 | A zero count of working threads means every pulled job has finished |
| ThpoolInvariant.AliveMeans | threadpool/c-Thread-Pool-master/thpool.c:158 | A full count of living threads means all have started, a zero count that none runs |
| ThpoolProgram.Program.Perform | threadpool/c-Thread-Pool-master/thpool.c:165-384 | Each action, performed on the heap list and the counters, is the protocol's step |
| ThpoolProgram.Program.PullFor | threadpool/c-Thread-Pool-master/thpool.c:363-364 | The worker takes the front node off the list and holds it, or holds none when the list is empty |
| ThpoolProgram.Program.RunFor | threadpool/c-Thread-Pool-master/thpool.c:366-371 | The worker frees exactly the node it holds, after running its job |
| ThpoolProgram.NodeInOnePlace | threadpool/c-Thread-Pool-master/thpool.c:366-371 | A pushed node is in the queue, with one worker or freed, in one of these places and once |
| ThpoolProgram.Program.Play | threadpool/c-Thread-Pool-master/thpool.c:165-384 | The program under a schedule is the protocol under that schedule |
| ThpoolProgram.RunPool | threadpool/c-Thread-Pool-master/thpool.c:116-384 | A pool under any schedule: each heap node is queued, with one worker or freed, and that once; all are freed exactly once when cleared; and the promise of a returned wait |
| Backoff.PollExponentially | threadpool/c-Thread-Pool-master/thpool.c:203-224 | The intervals slept are the iterates of one step from (0, 1), in range, each longer than the one before, at most 60001 of them, until the pool is idle or the interval has 20 seconds |
| Backoff.GrowsIffNotLanding | threadpool/c-Thread-Pool-master/thpool.c:216-219 | The interval grows exactly if the nanoseconds are not 990099008, the one value that grows to MAX_NANOSEC |
| Backoff.GrowsByAHundredth | threadpool/c-Thread-Pool-master/thpool.c:215-221 | Below 20 seconds an interval grows by a hundredth of its nanoseconds, rounded up, also when it turns, but for the landing value; at 20 seconds it stays |
| Backoff.LandingNeverRecovers | threadpool/c-Thread-Pool-master/thpool.c:216-217 | From that value on the interval is zero nanoseconds for ever |
| Backoff.LandsIffDoomed | threadpool/c-Thread-Pool-master/thpool.c:216-217 | A positive interval below the maximum ever lands on zero nanoseconds if and only if it starts at one of 42 values |
| Backoff.PollingSlowsDown | threadpool/c-Thread-Pool-master/thpool.c:203-224 | From the first interval on each poll is followed by a longer one until the maximum |
| Backoff.PollingReachesMaximum | threadpool/c-Thread-Pool-master/thpool.c:203-224 | From the first interval the maximum is reached within 60000 polls, so the loop of growing polls ends |
| Backoff.StaysValid | threadpool/c-Thread-Pool-master/thpool.c:215-221 | Seconds and nanoseconds stay in range |
| Backoff.DoublesOrTurns | threadpool/c-Thread-Pool-master/thpool.c:216-217 | Within a hundred polls the nanoseconds double or the interval turns over |
| Backoff.SecondsAdvance | threadpool/c-Thread-Pool-master/thpool.c:215-221 | Within 3000 polls the seconds advance, or the nanoseconds land on zero |
| Backoff.ReachesMaximum | threadpool/c-Thread-Pool-master/thpool.c:212-224 | The longest interval is reached within 3000 polls for each second left, or the nanoseconds land on zero |

## Left out

- WorkerThreads.c: the busy-work computation, and wrap-around of the unsigned round and loop counters, which stay at most the number of rounds.
- WorkerThreads.c: spurious wake-ups; the waits at lines 51, 88 and 135 stand in no loop, and the barrier relies on there being none.
- threadpool.c: failing mutex, condition and join calls and the allocation errors of `threadpool_create`; a second `threadpool_destroy` is modelled only up to the lock it leaves held.
- ThreadPool.cpp: `Destroy` and `DestroyPool`, whose count of exit tokens depends on workers that have already passed line 400; exceptions, failed Win32 calls, the abort flag of requests and logging.
- thpool.c: pausing and resuming by signal, the clock (a polling loop may time out at any poll), several pools sharing the static flags, and `jobqueue_clear` on the uninitialised length in `jobqueue_init` (the queue starts empty).
- thpool.c: a `thpool_wait` still polling when the pool is freed.
- Backoff.Grown: the factor 1.01 is exact; rounding of the floating-point product is not modelled.
- Data layout, memory allocation and the identity of function pointers: a task is an opaque routine and argument, a request and a job an opaque number.
- The copies `threadpool/threadpool-master/src/threadpool.c` and `threadpool/threadPool2/ThreadPoolDemo/ThreadPool.cpp`, which repeat two of the modelled files.
- `libevent-thread/workqueue.c` (a head-insert, head-remove stack) and `epoll/server_epoll_pthread_pool.c` (a weaker queue of the same kind): they would only add easier members.
- The socket, epoll, libevent, dialog, fork and valgrind programs: input, output and user interface over libraries that are not part of this model.
