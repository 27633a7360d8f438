# Magio verification

Magio is a coroutine runtime for C++20. This project models its schedulers and synchronisation code in Dafny
and proves what they promise.

- `GeneratorSpec`, `Generator`: recursive generators. A body is a datatype with a direct-style meaning, the
  depth-first flattening of its yields. The promises are heap objects with the one cell that `root_` and `leaf_`
  share; iterating them refines the flattening.
- `CoroSpec`, `Coro`: spawned and awaited coroutines. The scheduler runs frames from its queue; a ledger of what
  each chain of frames still owes shows that it does what direct-style evaluation does. `await_resume` is
  `noexcept` but rethrows, so awaiting a coroutine that failed terminates the program, in the meaning as well.
- `MutexSpec`, `MutexProof`, `MutexLiveness`, `Mutex`: the coroutine mutex and condition as a transition system whose
  steps are the blocks under a `std::mutex`, its invariants, what its steps bring about, and the two as objects that
  any use drives.
- `EventLoopSpec`, `EventLoopProof`, `EventLoopRounds`, `EventLoop`: the loop of a context with its eventfd, the
  submission and completion rings, timers and `io_num_`, as a transition system, with its invariants and with what
  each round does, and as an object that any schedule drives; the kernel is an environment that may complete what was
  submitted at any time, and may complete the read of the eventfd. `eventfd(EFD_NONBLOCK, 0)` passes the flag as the
  initial value (`src/magio-v3/net/io_uring.cpp:28`), so the descriptor starts readable and blocks; the model follows
  the code.
- `IoOps`: the contexts of I/O operations and the messages that wrap the caller's pointer.
- `TimerSpec`, `TimerQueue`: timers, handles that outlive them, cancellation. What becomes of each timer is a function
  of the steps of a program, and the queue with its handles does that.
- `Buffer`, `AsyncLogger`: the text buffer, and the logger's circulation of buffers between writers and its
  background thread.
- `ThreadPoolSpec`, `ThreadPoolProof`, `ThreadPoolLiveness`, `ThreadPool`: the worker pool as a transition system, its
  invariants, what can and cannot happen in it, and the pool as an object that any schedule drives.
- `Traits`, `Join`: the slot map of `join` and its completion handlers.
- `Prelude`: what several modules use.
- `Sorting`, `ForkJoinSort`: selection and sorting in place, and the fork-join sort over them.

Some promises one might expect do not hold of the code. For these the project proves when they do, and gives an
input for which they do not: the pointer passed to a callback (`IoOps.CompleteAll`, `IoOps.RefusedDatagram`), the
flush of the logger at its end (`AsyncLoggers.AsyncLogger.Finish`, `AsyncLoggers.LastMessageMissing`,
`AsyncLoggers.StopWhilePrinting`), the liveness of the pool's `wait` (`ThreadPoolLiveness.WaitCanReturn`,
`ThreadPoolLiveness.WaitReturns`, `ThreadPoolLiveness.SecondDrainMissed`, `ThreadPoolLiveness.FlagUpInVain`), the end of
its destructor (`ThreadPoolLiveness.WorkerCanLeave`, `ThreadPoolLiveness.WorkersLeave`,
`ThreadPoolLiveness.DestroyedWithTasks`), one call with false for each timer (`TimerQueues.UseAndEnd`,
`TimerQueues.CancelledTwice`), and `join` of no children, which never resumes its parent (`Joins.JoinAll`,
`Joins.JoinNothing`).

Transition systems are in the `...Spec` modules. Where the library interleaves threads, each method of a class is a
block that runs without interference; `EventLoops.Run` and `ThreadPools.Run` interleave them in every possible way, and
`Coroutines.Run` lets other threads spawn before any action of a coroutine.

## Model

| member | source | states |
|---|---|---|
| Generators.Iterate | src/magio-v3/core/generator.h:170-205 | For every body, however deep its generators nest: iterating from `begin` to the sentinel yields exactly the depth-first flattening of the tree of yields and ends as it does (finished, or with the same uncaught exception); it resumes the generator once more than there are values, and frames hand control to one another twice per nested generator that was entered |
| Generators.Generator.CellsSound | src/magio-v3/core/generator.h:111-121 | Whoever may read the shared cell as `root_` finds the outermost promise there, although the outermost promise's own cell holds `leaf_`; it points to itself exactly while it is the leaf; `parent_` leads from the leaf to the outermost promise without a cycle |
| Generators.Generator.Resume | src/magio-v3/core/generator.h:104-106 | One external resume runs the innermost frame until the next value or the end: what it yields, what is left, and two transfers for each generator entered and left, one for each still open |
| Generators.Generator.Enter | src/magio-v3/core/generator.h:77-91 | Entering a nested generator pushes it on the chain and makes it the leaf; all links and cells stay sound |
| Generators.Generator.Leave | src/magio-v3/core/generator.h:33-46 | A nested generator that ends makes its parent the leaf, gives it its outcome (an exception goes to the `co_yield` that waits) and is destroyed |
| Generators.Generator.Publish | src/magio-v3/core/generator.h:52-59 | A value yielded at any depth is where the consumer of the outermost generator looks, and nothing else of the run changes |
| Generators.Generator.End | src/magio-v3/core/generator.h:22-46 | The outermost frame stops and passes an exception on to the consumer; a nested one hands over to its parent |
| Generators.Generator.Pass | src/magio-v3/core/generator.h:52-102 | Any action other than yielding a value leaves the values still to come, and the outcome, what they were |
| Generators.Generator.Destroy | src/magio-v3/core/generator.h:65-69 | Destroying a frame destroys all frames nested in it, each once, innermost first |
| Generators.Promise.UnhandledException | src/magio-v3/core/generator.h:22-26 | Only the outermost promise rethrows; a nested one stores the exception with the awaiter |
| Generators.Promise.FinalSuspend | src/magio-v3/core/generator.h:33-50 | Control goes to the parent, which becomes the leaf of the outermost promise |
| Generators.YieldSequenceAwaiter.AwaitSuspend | src/magio-v3/core/generator.h:77-91 | The nested promise gets the outermost promise, its parent and the exception slot, and becomes the leaf, also when the current promise is the outermost one and the write hits the cell just read |
| GeneratorSpec.UnwindPrefix | src/magio-v3/core/generator.h:52-59 | What the innermost body yields is the first the whole chain yields |
| GeneratorSpec.PendingEnter | src/magio-v3/core/generator.h:77-91 | Pushing a nested body leaves the pending run of the chain what it was |
| GeneratorSpec.PendingLeave | src/magio-v3/core/generator.h:33-46 | Popping an ended body and resuming its parent leaves the pending run of the chain what it was |
| GeneratorSpec.Inlining | src/magio-v3/core/generator.h:33-97 | A consumer cannot tell a yielded generator from its body written out in place of the `co_yield`, with its returns going on behind it and its exceptions going to the handlers there |
| Generators.IterateNested | src/magio-v3/core/generator.h:33-97 | Iterating values, then a generator, then more values yields all of them in that order; if the nested generator throws, its values and then those of the handler, or the exception |
| Coroutines.Run | src/magio-v3/core/coro_context.cpp:42-58 | Whatever other threads spawn, before whichever rounds and whichever actions of the coroutines that run: the program terminates exactly if the direct-style evaluation of some coroutine, spawned by them or by others in turn, awaits a failure, and has made no other handler calls than those of the direct-style evaluation; otherwise each coroutine that has a handler has had it called once, with the result of its own evaluation, nobody else, and every frame that was created is destroyed |
| Coroutines.CoroContext.RunBatch | src/magio-v3/core/coro_context.cpp:42-51 | A round resumes what was queued when it began, in order; what is queued meanwhile, by the coroutines it runs or by other threads, waits for the next; what is promised to the callers is kept |
| Coroutines.CoroContext.Admit | src/magio-v3/core/coro_context.cpp:85-89 | What other threads spawn is queued last, in order, and adds to what is promised, whatever is running |
| Coroutines.CoroContext.Spawn | src/magio-v3/core/coro_context.h:28-39 | A spawned coroutine is launched, has its handler and is queued last |
| Coroutines.CoroContext.AwaitSuspend | src/magio-v3/core/coro.h:47-52 | The awaited coroutine is launched, linked to the one that awaits it, and queued last |
| Coroutines.CoroContext.Resume | src/magio-v3/core/coro.h:54-62 | A handle is resumed only after what it awaited has stored its result; a stored exception ends the program |
| Coroutines.CoroContext.RunBody | src/magio-v3/core/coro.h:160-190 | A body runs until it suspends or ends, with other threads spawning more before each of its actions, and what the queue then owes is what was promised |
| Coroutines.CoroContext.FinalSuspend | src/magio-v3/core/coro.h:101-126 | The result is stored, then the awaiting coroutine is resumed or the handler called, then the frame is destroyed |
| Coroutines.CoroContext.Deliver | src/magio-v3/core/coro.h:101-122 | The one that awaits goes on with the value; a root's handler gets the result, value or exception |
| Coroutines.CoroContext.Free | src/magio-v3/core/coro.h:124-125 | Only a frame that has finished and still exists is destroyed, and the count of coroutines goes down with it |
| Coroutines.CoroContext.Awaiter | src/magio-v3/core/coro.h:47-52 | A coroutine that is awaited is awaited by one live coroutine, which is not queued |
| CoroSpec.PromisesPlain | src/magio-v3/core/coro.h:101-122 | For coroutines that spawn nothing: one call of each handler with the direct-style result, unless some evaluation awaits a failure |
| CoroSpec.PromisesCounted | src/magio-v3/core/coro.h:101-122 | For any coroutines, with those they spawn in turn: a handler is owed as many calls with a result as there are coroutines that have it and end so, and no more; the program is doomed exactly if one of them awaits a failure |
| CoroSpec.Inlining | src/magio-v3/core/coro.h:47-62 | Nobody can tell an awaited coroutine from its body written out in place of the `co_await`, with its returns going on behind it |
| CoroSpec.OwnDebt | src/magio-v3/core/coro.h:54-62 | A coroutine that spawns nothing calls no handler of its own, and dooms the program exactly if its evaluation awaits a failure |
| CoroSpec.OwedAwait | src/magio-v3/core/coro.h:47-52 | Awaiting a coroutine changes nothing of what a chain owes |
| CoroSpec.OwedReturn | src/magio-v3/core/coro.h:101-104 | Handing a value to the coroutine that awaits it changes nothing of what a chain owes |
| CoroSpec.OwedThrow | src/magio-v3/core/coro.h:54-57 | A coroutine that throws while it is awaited dooms the program |
| MutexProof.RunKeeps | src/magio-v3/core/mutex.cpp:6-94 | The invariant of the protocol holds in every state of every run, with any number of coroutines, contexts and conditions |
| MutexProof.StepKeeps | src/magio-v3/core/mutex.cpp:6-94 | Every step keeps the invariant |
| MutexProof.MutualExclusion | src/magio-v3/core/mutex.cpp:6-68 | In every reachable state the free flag, the coroutines that hold the mutex and the hand-offs on their way add up to one; and a free mutex has no waiters |
| MutexProof.OwnerIsUnique | src/magio-v3/core/mutex.cpp:6-36 | Two owners are the same coroutine, and then the mutex is not free |
| MutexProof.HandOffsTravel | src/magio-v3/core/mutex.cpp:54-68 | A hand-off is in the hands of the thread that unlocks, or queued in the context where its coroutine suspended |
| MutexProof.GrantsInOrder | src/magio-v3/core/mutex.cpp:13-14 | The mutex is granted in the order in which it was asked for, re-locks after a wait included |
| MutexProof.OnePlace | src/magio-v3/core/mutex.cpp:54-94 | A suspended handle is in exactly one place: the lock queue, one condition's queue, one thread's hands or one context's list |
| MutexProof.OnlyOnce | src/magio-v3/core/mutex.cpp:54-94 | And in that place only once, so that it is resumed once per suspension |
| MutexProof.ResumedAtHome | src/magio-v3/core/coro_context.cpp:113-115 | A coroutine is resumed on the context where it suspended; one that waited for the mutex then has it, and one that waited at a condition has let go of it, even if it was notified before it unlocked |
| MutexProof.NoLostNotification | src/magio-v3/core/mutex.h:103-114 | A coroutine that found its predicate false is queued before the mutex is released; while the predicate is true a `notify_all` is owed, and any `notify_all` takes it out of the queue |
| MutexProof.PredicateWaitReturns | src/magio-v3/core/mutex.h:103-114 | A check of the predicate form of `wait` is made with the mutex held, and leads out of it exactly if the predicate is true, and else back into the queue |
| MutexLiveness.PredWaitLeft | src/magio-v3/core/mutex.h:103-114 | Whatever step takes a coroutine out of the predicate form of `wait` is a check that finds the predicate true, with the mutex held before and after |
| MutexLiveness.PredicateWaitEnds | src/magio-v3/core/mutex.h:103-114 | In every run there is such a check between being in the predicate form of `wait` and being out of it |
| MutexLiveness.NotifiedBetween | src/magio-v3/core/mutex.h:103-126 | In every run, in either form of `wait`, a coroutine that is to be notified and is not any more was taken out of its condition's queue by a notification of that condition |
| MutexLiveness.WaitNotified | src/magio-v3/core/mutex.h:103-126 | Whatever step takes a coroutine out of that is such a notification |
| MutexLiveness.PhaseSteps | src/magio-v3/core/mutex.h:103-126 | How a coroutine gets from one phase to the next: what step does it, by whom, and where it leads, for `lock` and both forms of `wait`, for every step of every reachable state |
| MutexLiveness.PlaceSteps | src/magio-v3/core/mutex.cpp:6-94 | How a handle gets from one place to the next, and that it is the first to leave a queue and the last to join a list |
| MutexLiveness.OwnerSteps | src/magio-v3/core/mutex.cpp:6-68 | The mutex is taken by a lock that finds it free or by being first in the queue when it is released, and lost only by releasing it |
| MutexLiveness.StepMoves | src/magio-v3/core/mutex.cpp:6-94 | No step leaves its coroutine as it is |
| MutexLiveness.UnlockReaches | src/magio-v3/core/mutex.cpp:54-68 | An unlock and what follows it: the first waiter owns the mutex and is queued, last, on its own context, and the thread goes on without the mutex; or the mutex is free |
| MutexLiveness.NotifyReaches | src/magio-v3/core/mutex.cpp:70-94 | A notification and what follows it: the first of those who wait, or all, have left the queue and are queued, in order, each on its own context, and the thread goes on with what it did |
| MutexLiveness.TruthIsWritten | src/magio-v3/core/mutex.h:103-114 | A predicate is as true as an owner of the mutex has last made it |
| MutexProof.LockFreeKeeps | src/magio-v3/core/mutex.cpp:6-20 | Taking the free mutex keeps the invariant |
| MutexProof.LockTakenKeeps | src/magio-v3/core/mutex.cpp:13-15 | Queueing for the mutex keeps the invariant |
| MutexProof.UnlockKeeps | src/magio-v3/core/mutex.cpp:54-68 | Unlocking, from a guard or inside a wait, keeps the invariant |
| MutexProof.HandOffKeeps | src/magio-v3/core/mutex.cpp:58-60 | Handing the mutex to the first waiter keeps the invariant |
| MutexProof.EnqueueKeeps | src/magio-v3/core/mutex.h:105-110 | Queueing at a condition while still holding the mutex keeps the invariant |
| MutexProof.NotifyOneKeeps | src/magio-v3/core/mutex.cpp:70-82 | `notify_one` keeps the invariant |
| MutexProof.NotifyAllKeeps | src/magio-v3/core/mutex.cpp:84-94 | `notify_all` keeps the invariant |
| Mutexes.Run | src/magio-v3/core/mutex.cpp:6-94 | The mutex, condition and context objects do to any steps what the history of those steps says (who asked, was given the mutex, waited, was notified, was resumed), and each context has queued exactly those that were resumed on it |
| Mutexes.PlayKeeps | src/magio-v3/core/mutex.cpp:6-94 | In the history of any steps: the mutex is given in the order in which it is asked for, to one at a time, and free only when nobody waits; waiters are notified in order; whoever was given the mutex without having it at once, and whoever was notified, is queued on its own context, once each time, and nobody else is |
| Mutexes.Mutex.Unlock | src/magio-v3/core/mutex.cpp:54-68 | The first waiter gets the mutex and is queued on its own context, nobody else anywhere; without waiters the mutex is free |
| Mutexes.Condition.Wait | src/magio-v3/core/mutex.h:118-124 | The handle is queued at the condition, and the mutex is released as by `unlock` |
| Mutexes.Condition.NotifyOne | src/magio-v3/core/mutex.cpp:70-82 | The first waiter, if any, is queued on its own context |
| Mutexes.Condition.NotifyAll | src/magio-v3/core/mutex.cpp:84-94 | Every waiter is queued on its own context, in order, and the queue is empty |
| Mutexes.BoundHasAll | src/magio-v3/core/mutex.cpp:91-93 | No waiter of a `notify_all` is forgotten |
| Mutexes.BoundHasOnly | src/magio-v3/core/mutex.cpp:91-93 | No context is given a waiter that did not wait for it |
| EventLoopProof.RunKeeps | src/magio-v3/core/coro_context.cpp:29-94 | The invariant of the loop, the wake-up read and the accounting holds in every state of every run |
| EventLoopProof.NoLostWakeUp | src/magio-v3/core/coro_context.cpp:61-69 | While the loop is committed to a poll with a timeout above zero and handles are pending, a thread still owes its `wake_up`, or the wake completion is queued, or the eventfd is readable with its read not completed; and once it waits, the poll returns or the kernel completes the read and then it returns |
| EventLoopProof.FirstInFirstOut | src/magio-v3/core/coro_context.cpp:42-51 | The handles run, then the rest of the batch, then the pending ones, are those submitted, in order, across stop and restart |
| EventLoopProof.WaitsForNextBatch | src/magio-v3/core/coro_context.cpp:42-51 | A handle that is pushed, by whatever thread, is not in the batch that is being run: until the loop takes another batch it stays pending, in its place |
| EventLoopProof.PollsInTime | src/magio-v3/core/coro_context.cpp:61-69 | The timeout is zero if work was pending or a stop requested at the check; otherwise it reaches past no deadline |
| EventLoopProof.IoNumCounts | src/magio-v3/net/io_uring.cpp:59-121 | `io_num_` is the number of operations submitted and not completed in every reachable state, and is positive whenever a completion is about to lower it |
| EventLoopProof.EarlyExitSkipsNothing | src/magio-v3/net/io_uring.cpp:130-133 | When `poll` returns at once no user operation is unsubmitted, in the kernel or completed and not handled |
| EventLoopProof.CompletedOnce | src/magio-v3/net/io_uring.cpp:151-167 | An operation is handled at most once, and has been exactly when it is neither prepared, in the kernel nor completed |
| EventLoopProof.StepKeepsWake | src/magio-v3/net/io_uring.cpp:28-46 | Every step keeps the wake-up read in one place and the sleeping loop wakeable |
| EventLoopProof.StepKeepsAccount | src/magio-v3/net/io_uring.cpp:161-167 | Every step keeps every operation in one place |
| EventLoopProof.StepKeepsTime | src/magio-v3/core/timer_queue.h:90-99 | Every step keeps the timeout within the deadlines |
| EventLoopRounds.StopStops | src/magio-v3/core/coro_context.cpp:42-83 | After a `stop`, until the next `start`: no batch is taken, every check turns the timeout of the poll into zero, and at the head of the loop the only way is out of it |
| EventLoopRounds.RunsUntilStopped | src/magio-v3/core/coro_context.cpp:29-83 | In every run the loop is running exactly from a `start` to the next `stop` or failing poll |
| EventLoopRounds.InsideUntilLeft | src/magio-v3/core/coro_context.cpp:29-75 | The thread is in `start` exactly from the call of it, which begins at the head of the loop, to where it leaves |
| EventLoopRounds.StopLeaves | src/magio-v3/core/coro_context.cpp:42-83 | From every reachable state of a stopped loop its thread alone can go on to leave `start` |
| EventLoopRounds.CatchesUp | src/magio-v3/core/coro_context.cpp:42-75 | From every reachable state of a running loop its thread alone can go on until everything that has been submitted has been run |
| EventLoopRounds.EveryStepNearer | src/magio-v3/core/coro_context.cpp:42-75 | Every step of the loop thread, however the poll ends, brings it nearer to the head of the loop |
| EventLoopRounds.TakenIsRun | src/magio-v3/core/coro_context.cpp:42-51 | Everything submitted when a batch is taken has been run when the batch is over |
| EventLoopRounds.RoundComplete | src/magio-v3/core/coro_context.cpp:42-69 | Between two batches the loop expires its timers, measures the time to the next deadline and makes its check, each once |
| EventLoopRounds.TimerStep | src/magio-v3/core/timer_queue.h:69-84 | The timers change only by those that are set, and by those whose deadline has come when the loop expires them, each as often as it was set |
| EventLoopRounds.TimerKept | src/magio-v3/core/timer_queue.h:69-99 | A timer that was set is kept until the loop finds its deadline past, and no poll reaches past it |
| EventLoopRounds.PollsExactly | src/magio-v3/core/timer_queue.h:90-99 | A running loop with nothing pending polls until its next deadline exactly: not at all exactly if one has come, and for a day if there is none |
| EventLoopRounds.AllSubmitted | src/magio-v3/net/io_uring.cpp:134-141 | While the loop thread waits in the kernel, every operation has been submitted |
| EventLoopRounds.CompletedIsHandled | src/magio-v3/net/io_uring.cpp:160-167 | An operation that is complete when the poll returns has been handled when the handling is over |
| EventLoopRounds.CompletedByKernel | src/magio-v3/net/io_uring.cpp:161-167 | An operation is complete or handled exactly if the kernel has completed it |
| EventLoops.Run | src/magio-v3/core/coro_context.cpp:29-94 | The loop object takes, for any schedule of the loop thread, other threads, the kernel and the clock, exactly the steps that are possible when they come up, and ends in the state they lead to: what it has run, then what is left, is what those steps submitted, in order; `io_num_` is the number of operations that are prepared, in the kernel or completed and not handled; it runs exactly if none of those steps has stopped it since the last start; and if it sleeps with work left it is about to be woken |
| EventLoops.DoneIsRun | src/magio-v3/core/coro_context.cpp:29-94 | These steps are a run of the transition system |
| EventLoops.EventLoop.CheckPending | src/magio-v3/core/coro_context.cpp:62-67 | The block before the poll |
| EventLoops.EventLoop.MeasureDuration | src/magio-v3/core/timer_queue.h:90-99 | The timeout is the distance to some deadline of the queue, or zero, or a day for an empty queue |
| EventLoops.EventLoop.GetExpired | src/magio-v3/core/timer_queue.h:69-77 | What remains has a deadline that is still to come |
| EventLoops.EventLoop.LeaveWait | src/magio-v3/net/io_uring.cpp:141-158 | The four ways to come back from the wait, and that a failed one stops the loop |
| IoOps.CompleteAll | src/magio-v3/net/io_uring.cpp:161-200 | All outstanding operations complete in any order: each callback is passed its caller's pointer exactly if the result is not negative or the operation uses no message; no message stays allocated exactly if that holds for all |
| IoOps.IoUring.HandleCqe | src/magio-v3/net/io_uring.cpp:161-200 | For every operation and result: the error code, the result, the address length, the pointer passed to the callback (the caller's own exactly if the result is not negative or no message is used), what is deleted, and the counter |
| IoOps.IoUring.HandleNoop | src/magio-v3/net/io_uring.cpp:161-200 | The completions of the wake-up read and of cancellations change no counter and no message |
| IoOps.RefusedDatagram | src/magio-v3/net/io_uring.cpp:169-199 | A `send_to` that fails, with whatever error: the callback is not passed its caller's pointer |
| IoOps.OneOperation | src/magio-v3/net/io_uring.cpp:161-200 | An operation of any kind with any result: its callback is passed its caller's pointer exactly unless it is a `send_to` or `receive_from` that failed |
| IoOps.IoUring.Submit | src/magio-v3/net/io_service.cpp:9-73 | An operation without a message is counted and carries its caller's pointer, also the `receive` that is tagged as a send |
| IoOps.IoUring.SubmitWithMessage | src/magio-v3/net/io_service.cpp:75-132 | `send_to` and `receive_from` carry their caller's pointer in a fresh message |
| TimerQueues.TimerQueue.GetExpired | src/magio-v3/core/timer_queue.h:69-77 | Exactly the timers whose deadline has come leave the queue; exactly the uncancelled among them are due, in the order of their deadlines |
| TimerQueues.TimerQueue.Cancel | src/magio-v3/core/timer_queue.h:31-39 | True exactly while the queue owns the timer, and then its task is called with false; a second call does it again |
| TimerQueues.TimerQueue.CallNext | src/magio-v3/core/coro_context.cpp:53-56 | The next task that is due is called with true, and no other |
| TimerQueues.TimerQueue.NextDuration | src/magio-v3/core/timer_queue.h:90-99 | The distance to the earliest deadline, zero exactly if it has come, a day if there is none |
| TimerQueues.TimerQueue.Destroy | src/magio-v3/core/timer_queue.h:62-67 | Every task that is left is called once more, with false |
| TimerQueues.Use | src/magio-v3/core/timer_queue.h:31-84 | Over any steps of a program, for every timer they push: its task has been called with false once for each `cancel` that returned true, which are those that came while the queue owned the timer, and with true at most once, if it fired; as many of the fired are not called yet as are due |
| TimerQueues.UseAndEnd | src/magio-v3/core/timer_queue.h:31-84 | And when the destructor has run: each task has been called with true exactly if its timer fired, with false once for each `cancel` that returned true and once more if the queue still owned the timer; every one that was never cancelled exactly once |
| TimerSpec.Fate | src/magio-v3/core/timer_queue.h:69-77 | A timer that fired was never cancelled; one that the queue does not own any more has fired or was cancelled |
| TimerSpec.ExpiredLeaves | src/magio-v3/core/timer_queue.h:69-77 | When the loop looks, a timer leaves the queue exactly if its deadline has come, and fires exactly if it was not cancelled either |
| TimerQueues.CancelledTwice | src/magio-v3/core/timer_queue.h:31-39 | A task can be called twice with false |
| AsyncLoggers.Run | src/magio-v3/utils/async_logger.h:56-139 | Over any interleaving of the writers and the background thread: the files, the buffers taken, the ready ones and the current one hold together all that was logged, in the order of the lock; the files hold a prefix of it. Left alone for long enough at the end, the thread has written all of it, or, after a stop, has left |
| AsyncLoggers.AsyncLogger.Finish | src/magio-v3/utils/async_logger.h:93-139 | How the thread ends after a stop, when nobody writes any more. Stopped before its block under the lock, it leaves the whole log in the files exactly if it finds no ready buffer, or nothing in the current one; otherwise all but the current buffer. Stopped while it prints, it leaves unwritten what the ready buffers and the current one hold, and the log is whole exactly if that is nothing |
| AsyncLoggers.StopWhilePrinting | src/magio-v3/utils/async_logger.h:121-138 | A message is taken, another is written while it is printed, and then the logger is stopped: only the first is in the files |
| AsyncLoggers.AsyncLogger.FinishPrinting | src/magio-v3/utils/async_logger.h:121-138 | The thread prints what it has taken and leaves; what it has not taken stays unwritten |
| AsyncLoggers.AsyncLogger.Background | src/magio-v3/utils/async_logger.h:93-139 | A block of the background thread: at the head it takes the ready buffers, or else the current one; while it prints, the next buffer's text is added to the files; when it has printed all, it goes to the head, or leaves exactly after a stop |
| AsyncLoggers.LastMessageMissing | src/magio-v3/utils/async_logger.h:104-114 | Ten messages of the largest size and then the end: the first nine are in the files and the tenth is not |
| AsyncLoggers.AsyncLogger.WriteImpl | src/magio-v3/utils/async_logger.h:56-71 | The message is appended where it leaves room, else to an empty buffer after the full one was made ready; at the release `current_` is there and `next_` is missing exactly while buffers are ready |
| AsyncLoggers.AsyncLogger.Exchange | src/magio-v3/utils/async_logger.h:103-119 | The ready buffers are taken, or else the current one; each spare that is used up is missed only while a buffer to refill it is held |
| AsyncLoggers.AsyncLogger.PrintNext | src/magio-v3/utils/async_logger.h:121-125 | A buffer's text goes to the file and the buffer is emptied |
| AsyncLoggers.AsyncLogger.Refill | src/magio-v3/utils/async_logger.h:127-138 | The recycling takes from a vector that is not empty, and both spares are there and empty at the head of the loop |
| AsyncLoggers.AsyncLogger.OpenFile | src/magio-v3/utils/async_logger.h:94-99 | A new file loses nothing |
| Buffers.StaticBuffer.Append | src/magio-v3/utils/buffer.h:17-22 | What fits of the message is added behind what is there |
| Buffers.StaticBuffer.SliceFrom | src/magio-v3/utils/buffer.h:46-52 | At most the asked number of characters from a position, never past the end |
| ThreadPoolProof.RunKeeps | src/magio-v3/core/thread_pool.cpp:16-104 | The invariant of the pool holds in every state of every run, for any number of workers, waiters and submitters |
| ThreadPoolProof.StepKeeps | src/magio-v3/core/thread_pool.cpp:16-104 | Every step keeps the invariant |
| ThreadPoolProof.NeverStranded | src/magio-v3/core/thread_pool.cpp:63-96 | While the pool runs and tasks are queued, a worker is awake or somebody who has left its block still has to notify |
| ThreadPoolProof.TakenOnceInOrder | src/magio-v3/core/thread_pool.cpp:94-96 | What was taken, then what is queued, is what was submitted, in order; each taken task has been finished or is being run, by one worker |
| ThreadPoolLiveness.WorkerLeft | src/magio-v3/core/thread_pool.cpp:78-92 | A worker that is gone left a pool that is being destroyed, at a moment when everything submitted had been taken |
| ThreadPoolLiveness.WaitDrained | src/magio-v3/core/thread_pool.cpp:52-61 | A `wait` that began while the pool was running returned at a moment when everything submitted had been taken |
| ThreadPoolLiveness.WaitCanReturn | src/magio-v3/core/thread_pool.cpp:52-96 | When a sleeping `wait` can return without anybody calling the pool again: exactly if the flag is up, tasks are being taken if there are any, and a worker is awake or a notification is on its way to one that sleeps |
| ThreadPoolLiveness.WaitReturns | src/magio-v3/core/thread_pool.cpp:52-96 | And then it does: however a pool that nobody calls any more goes on until nobody has anything left to do, the `wait` has returned if it can, and sleeps otherwise |
| ThreadPoolLiveness.ComesToRest | src/magio-v3/core/thread_pool.cpp:52-96 | A pool that nobody calls any more comes to that: there is no endless sequence of steps |
| ThreadPoolLiveness.EverythingRun | src/magio-v3/core/thread_pool.cpp:63-104 | A running pool that nobody calls any more has run everything that was submitted when it comes to that |
| ThreadPoolLiveness.RunsUntilStopped | src/magio-v3/core/thread_pool.cpp:16-50 | In every run the pool is running exactly from a `start` to the next `stop` or its destruction |
| ThreadPoolLiveness.StopHolds | src/magio-v3/core/thread_pool.cpp:45-96 | Whatever is queued at a `stop` stays queued, in order, and no worker takes a task, until the next `start` |
| ThreadPoolLiveness.WokenForNoReason | src/magio-v3/core/thread_pool.cpp:58-96 | A waiter that is woken for no reason returns exactly if the queue is empty, and a worker takes the oldest task of a running pool |
| ThreadPoolLiveness.WaitReturnsInTime | src/magio-v3/core/thread_pool.cpp:52-96 | In a running pool with tasks queued a sleeping `wait` can return, and always does, exactly if the flag is up; and so it does whenever nothing was submitted since it began |
| ThreadPoolLiveness.SecondDrainMissed | src/magio-v3/core/thread_pool.cpp:78-82 | A run after which a waiter sleeps with the flag down, the queue is empty, everybody is asleep and no notification is owed |
| ThreadPoolLiveness.FlagUpInVain | src/magio-v3/core/thread_pool.cpp:52-61 | And one in which another wait has put the flag up and returned, and the first waiter sleeps on |
| ThreadPoolLiveness.SleepsOn | src/magio-v3/core/thread_pool.cpp:78-82 | With the flag down a waiter sleeps on, whatever is submitted and drained, as long as nobody else waits |
| ThreadPoolLiveness.SleepsThrough | src/magio-v3/core/thread_pool.cpp:52-61 | In a pool where nothing is queued, nobody awake and nothing owed it sleeps on through the waits of others, which return at once |
| ThreadPoolLiveness.NeverDestroyed | src/magio-v3/core/thread_pool.cpp:78-92 | From a pool that is being destroyed with tasks queued no worker ever leaves, whatever happens |
| ThreadPoolLiveness.DestroyedWithTasks | src/magio-v3/core/thread_pool.cpp:16-29 | A run that leads to such a pool |
| ThreadPoolLiveness.WorkerCanLeave | src/magio-v3/core/thread_pool.cpp:78-92 | A worker of a pool that is being destroyed can leave, and be joined, exactly if the queue is empty |
| ThreadPoolLiveness.WorkersLeave | src/magio-v3/core/thread_pool.cpp:16-29 | And then all do: however a pool that is being destroyed with an empty queue goes on until nobody has anything left to do, every worker has left |
| ThreadPools.Run | src/magio-v3/core/thread_pool.cpp:16-104 | The pool object takes, for any schedule of callers, workers and the system, exactly the steps that are possible when they come up, and ends in the state they lead to: what was taken, then what is queued, are what the schedule submits, in order; the pool runs exactly if the last of these steps to change that was a start; and while it runs with tasks queued, a worker is awake or a notification is owed |
| ThreadPools.DoneIsRun | src/magio-v3/core/thread_pool.cpp:16-104 | These steps are a run of the transition system |
| ThreadPools.ThreadPool.Look | src/magio-v3/core/thread_pool.cpp:75-96 | The worker's block is the step of the protocol: the oldest one is taken, and there is one |
| Joins.JoinAll | src/magio-v3/core/impl/coro.hpp:32-68 | Whatever the order in which children complete, all or so far: the parent is resumed at most once, exactly if one has failed or all have ended and there is one; it goes on with the first error, or with every result in the slot of its child |
| Joins.JoinNothing | src/magio-v3/core/impl/coro.hpp:32-68 | The `join` of no children never resumes its parent |
| Joins.Join.Complete | src/magio-v3/core/impl/coro.hpp:40-59 | The completion handler: it touches the parent's locals only while the parent is suspended, and resumes it at the first failure or after the last success |
| Traits.PlacesAreSlots | src/magio-v3/utils/traits.h:13-54 | The slot map is one to one, in order and type preserving, from the non-void types onto the tuple of non-void types; void types, and only they, get no slot |
| Traits.PlaceOf | src/magio-v3/utils/traits.h:13-29 | The slot of a type, whatever was before it |
| Traits.SlotFilled | src/magio-v3/utils/traits.h:31-45 | Every slot of the tuple is some type's |
| ForkJoinSorts.ForkJoinSort | examples/v3/sort.cpp:9-28 | For every range, depth and comparator that is a strict weak order, in whatever order forks and leaf sorts go on: the range ends up sorted, with the same elements, and the rest untouched |
| ForkJoinSorts.Advance | examples/v3/sort.cpp:9-28 | One step of any job keeps what is in order in order, and leaves less to do |
| ForkJoinSorts.RunFork | examples/v3/sort.cpp:11-26 | A fork partitions its range and hands it over to two jobs that care for all that is not in order, or to a leaf |
| ForkJoinSorts.ReplaceKeeps | examples/v3/sort.cpp:18-21 | A job that hands its range over leaves all other jobs, and the order between ranges, as they were |
| ForkJoinSorts.OthersKept | examples/v3/sort.cpp:18-21 | Positions that no job cares for stay in order whatever a job does within its range |
| Sorting.NthElement | examples/v3/sort.cpp:16-17 | The element that belongs in the middle is there, between those that may stand before and after it |
| Sorting.Insert | examples/v3/sort.cpp:23-25 | One round of a sort: the sorted range grows by one, with the same elements |

## Left out

- Sockets, acceptor, addresses, files and pipes: wrappers around system calls.
- The Windows completion port (`src/magio-v3/net/iocp.cpp`): foreign calls, with an accounting of its own.
- The kernel's side of io_uring and the eventfd, real clocks, `std::thread`, `std::mutex` and the binary heap of
  `std::priority_queue`: contracts, or environment steps; `io_uring_get_sqe` never returns null, and among equal
  deadlines any may come first.
- `select` and `series`: the first does not instantiate as written, the second is a sequence of awaits.
- `StaticBuffer::append_format`: it adds the size before truncation; messages are taken to fit the local buffer.
- `Functor`, `Result`, error categories, patterns and formatting of log lines, `CurrentThread`, `WaitGroup`,
  `CoroContextPool`: plumbing.
- `ThreadPool::async` and `spawn_blocking`: the value goes to the bound context through `execute`, which is modelled.
- Generators are fresh when they are yielded and `begin` is called once; values are integers, not references, and the
  unhandled exceptions of a body are its own `Throw`s.
- Awaited coroutines are temporaries: a `Coro` object that outlives its frame is not modelled.
- MutexProof.NoLostNotification: whoever makes a predicate true is taken to owe a `notify_all`, and does so holding
  the mutex, as the predicate form of `wait` presupposes.
- EventLoopProof.NoLostWakeUp: fairness is not part of the model; it says what must be able to happen next, not when.
- AsyncLoggers.AsyncLogger.Exchange: the logger's buffers are owned by `unique_ptr`s, which no two share, so they are
  values that moves leave null; the array in place is `StaticBuffer`. The wait of three seconds may end at any time,
  a file write is never short, and the unlocked read of `stop_flag_` is one step.
- Joins.JoinAll: children are completions in any order; the frames they run in are those of `Coroutines`.
- ForkJoinSorts.ForkJoinSort: `std::sort` and `std::nth_element` are an insertion sort and a quickselect with the same
  contracts; a leaf sort can be interrupted after each of its rounds, and a partition is one step.
