# Thread pool bookkeeping, modelled in Dafny

This project models the core of a small C++ thread pool (`threadpool.h`,
`threadpool.cpp`): the `ThreadPool` engine with its bounded FIFO task queue,
worker registry, fixed and cached modes and shutdown; the result channel made
of `Semaphore`, `Result` and `Task::exec`; the process-wide worker id counter
of `Thread`; and the type-erased value `Any`.

The pool is concurrent. `submitTask` and the worker loop of `threadFunc`
change the shared state inside critical sections under `taskMutex_`; `start`,
the three setters, the destructor's write of the running flag and the
worker's `++idleThreadSize_` after a task do not take the lock (the last is
an atomic increment). The model treats each critical section, and each of
those unlocked operations, as one atomic step:

- `PoolSpec` is the pure state machine. `Pool<T>` holds the fields of
  `ThreadPool`: the registry as a set of ids, the queue as a sequence with the
  front at index 0, the six counters, the mode and the running flag. Each
  operation is one function: the setters, `Start`, `Submit`, and the worker
  steps `Dispatch`, `FinishTask`, `ExitIfStopped` and `IdleTimeout`, plus
  `Shutdown`. A step that creates workers takes the id counter's current
  value as a parameter. Time is an integer number of seconds.
- `ThreadPools.ThreadPool` is the C++ class with the same fields. Its methods
  update them in place. Each method ensures that its new state, seen through
  `Abs()`, is the matching `PoolSpec` step applied to the old state, so the
  lemmas of `PoolSpec` hold of the class. `Start` keeps the two `for` loops of
  the source.
- `Semaphores` and `Results` model the semaphore, `Result` and `Task` the
  same way: one pure step function per operation, and a class whose methods
  are tied to those functions.
- `AnyValue.Any<V>` is either `Empty` or a payload with a run-time type tag.
  `Cast` succeeds only when the tag matches.
- `Threads.IdGenerator` is `Thread::generateId_`. It is an object so that
  several pools in one process share it.
- `Scenario` runs the demo program `main.cpp` through the classes.

A blocking wait is a step that does not proceed. The semaphore's `Wait`
returns `false`, and `Result.Get` returns `WouldBlock`; the state is left
unchanged. The one-second admission wait of `submitTask` is modelled as
immediate rejection, because a sequential model has no other thread that
could free a slot. A cached-mode `wait_for` that times out is one step taken
with an empty queue (see "Left out" for what this idealises).

Behaviour of the code as written, kept in the model:

- The idle-reclaim branch (threadpool.cpp:194-200) erases the worker's id and
  decrements both counters, but does not return. The worker goes on looping
  with its old `lastTime`. Its next timeout reclaims again while
  `currThreadSize > initThreadSize`, so the counters drift below the size of
  the registry (`ReclaimedWorkerReclaimsAgain`, `ReclaimCountDrifts`).
- `start` launches `threads_[i]` for `i` from 0 to `n - 1`
  (threadpool.cpp:137-139), whatever ids it has just registered. On a new
  pool these indices are the registered ids only if the process-wide counter
  was at 0; otherwise `threads_[0]` is a null pointer, and the model stops at
  the first such index and reports it as `fault`
  (`FreshStartLaunchesAllIffCounterAtZero`). On a pool that already has
  workers, `fault == None` does not mean the new workers were launched: a
  cached pool whose pre-start submit spawned worker 0 registers 1 and 2 on
  `start(2)` and, while worker 0 is still registered when `start` runs,
  launches 0 a second time and 1, and never launches 2
  (`StartAfterSpawnSkipsNewWorker`). If worker 0 has already served its task
  and, finding the pool not running, erased its id, `threads_[0]` is a null
  pointer and index 0 is the fault (`StartAfterSpawnedWorkerExitedFaults`). A registered id that no thread carries
  never erases itself, so the destructor then waits forever: `start(1)`
  called twice on a new pool registers 0 and 1, launches only 0, and leaves
  id 1 registered after shutdown (`UnlaunchedWorkerKeepsDestructorWaiting`).
- A second `get` on a valid `Result` finds no permit and stays blocked
  (threadpool.cpp:44, 51). It does not return an empty value
  (`OneSetValOneGet`).
- Workers exit only when the queue is empty (threadpool.cpp:181-188). On
  shutdown with at least one registered worker, queued tasks are therefore
  run, not abandoned: in every schedule of worker steps, the registry is
  never empty while tasks are queued (`ShutdownDrainsThenEmpties`,
  `ShutdownNeverStrandsTasks`). A pool whose registry is empty when the
  destructor runs (never started, or started with 0 workers) returns at
  once and abandons its queue (threadpool.cpp:98-99;
  `EmptyRegistryAbandonsQueue`).
- `cast<T>` returns a copy and leaves the container as it was
  (threadpool.h:35). `Cast` is a function of the container, so repeated
  casts agree.
- A negative task-queue threshold becomes a capacity near 2^64 through
  `static_cast<size_t>` (threadpool.cpp:146; `SizeT`).
- `main.cpp` sums the ranges [1, 1000], [1000, 2000] and [2000, 3000].
  The comment at main.cpp:29 announces the sum of 1 to 3000 (4,501,500), but
  the ranges share their end points, so the printed total is 4,504,500
  (`MainRangesOverlap`, `MainScenario`).

## Model

| member | source | states |
|---|---|---|
| AnyValue.EmptyAny | threadpool.h:18 | a default-constructed `Any` holds no value |
| AnyValue.MakeAny | threadpool.h:24-26 | an `Any` built from a value casts back to that value under its own type and throws under every other type |
| AnyValue.Cast | threadpool.h:29-36 | `cast<T>` succeeds exactly when the stored type is `T`, and then yields the stored value; otherwise, and on an empty `Any`, it throws |
| AnyValue.CastOfEmptyThrows | threadpool.h:29-34 | `cast<T>` on an empty `Any` throws the type-mismatch error |
| AnyValue.MoveOut | threadpool.h:21-22 | after a move the target answers every cast as the source did, and the source is empty, so every cast on it throws |
| Semaphores.WaitProceedsIffPermit | threadpool.cpp:17-24 | `wait` gets past the call iff the exit flag is set or the count is positive, and takes a permit only in the second case |
| Semaphores.PostThenWaitRestores | threadpool.cpp:17-33 | on a live semaphore, `post` then `wait` returns to the original count |
| Semaphores.ExitedSemaphoreIsInert | threadpool.cpp:13-33 | after the exit flag is set, `wait` and `post` leave the count unchanged |
| Semaphores.CountStaysNonNegative | threadpool.cpp:17-33 | `wait` and `post` never make a non-negative count negative |
| Semaphores.WaitsBoundedByPermits | threadpool.cpp:17-24 | on a live semaphore, `n` waits get past the call `min(n, permits)` times and use up exactly that many permits |
| Semaphores.Semaphore.constructor | threadpool.cpp:9-11 | a new semaphore has the given count and a clear exit flag |
| Semaphores.Semaphore.Wait | threadpool.cpp:17-24 | the object's new state and result are one `WaitStep` |
| Semaphores.Semaphore.Post | threadpool.cpp:26-33 | the object's new state is one `PostStep` |
| Semaphores.Semaphore.Destroy | threadpool.cpp:13-15 | the destructor sets the exit flag and nothing else |
| Results.InvalidGetReturnsEmpty | threadpool.cpp:47-50 | `get` on an invalid result returns the empty `Any` at once and takes no permit |
| Results.FreshResultBlocks | threadpool.cpp:36-53 | a new valid result has no permit, so `get` cannot return before `setVal` |
| Results.OneSetValOneGet | threadpool.cpp:42-53 | after one `setVal(a)`, the first `get` returns `a` and empties the slot; a second `get` stays blocked |
| Results.GetsBoundedByPosts | threadpool.cpp:42-53 | on a valid live result, `n` calls of `get` return `min(n, permits)` times: at most one return per `setVal` |
| Results.Task.constructor | threadpool.h:107-120 | a new task has no bound result |
| Results.Task.SetResult | threadpool.cpp:56-58 | `setResult` binds the given result |
| Results.Task.Exec | threadpool.cpp:60-64 | `exec` delivers the task's value through `setVal` only when a result is bound, and changes nothing else |
| Results.Result.constructor | threadpool.cpp:36-40 | a new result keeps its task, binds itself to it, has an empty slot, zero permits and the given validity |
| Results.Result.SetVal | threadpool.cpp:42-45 | `setVal` stores the value and posts one permit |
| Results.Result.Get | threadpool.cpp:47-53 | the object's new state and result are one `GetStep` |
| Threads.IdGenerator.constructor | threadpool.cpp:67 | the process-wide counter starts at 0 |
| Threads.IdGenerator.Generate | threadpool.cpp:69-71 | each new thread gets the counter's value and the counter moves up by one, so ids strictly increase |
| PoolSpec.SizeT | threadpool.cpp:146 | the size_t conversion keeps non-negative thresholds and wraps negative ones modulo 2^64 |
| PoolSpec.SettersFrozenOnceRunning | threadpool.cpp:102-123 | once the pool runs, `setMode`, `setTaskMaxThreshold` and `setThreadMaxThreshold` change nothing |
| PoolSpec.SettersBeforeStart | threadpool.cpp:102-123 | before start each setter changes only its own field, and the thread ceiling changes only in cached mode |
| PoolSpec.IdRange | threadpool.cpp:132-136 | the ids registered by `n` counter calls from `first` are exactly `first .. first+n-1` |
| PoolSpec.IdRangeSize | threadpool.cpp:132-136 | `n` counter calls register `n` distinct ids |
| PoolSpec.Range | threadpool.cpp:137-139 | the launch loop visits the indices `lo .. hi-1` in order |
| PoolSpec.LaunchLimit | threadpool.cpp:137-139 | the launch loop gets exactly as far as the first index that is not a registered id |
| PoolSpec.StartRegistersFreshWorkers | threadpool.cpp:125-136 | `start(n)` sets running and the three counters to `n`, and adds `n` fresh ids, none already registered |
| PoolSpec.StartLaunchesAllIffIdsCoverIndices | threadpool.cpp:132-139 | `start` launches every index below `n` iff each is a registered id; otherwise it stops at the first one that is not |
| PoolSpec.FreshStartLaunchesAllIffCounterAtZero | threadpool.cpp:137-139 | on a new pool, `start(n)` launches all its workers iff the process-wide counter began at 0 |
| PoolSpec.StartAfterSpawnSkipsNewWorker | threadpool.cpp:132-139 | after a pre-start cached spawn of worker 0, with worker 0 still registered, `start(2)` reports no fault yet launches 0 twice and never launches the newly registered worker 2 |
| PoolSpec.StartAfterSpawnedWorkerExitedFaults | threadpool.cpp:132-139 | when the pre-start worker 0 has served its task and erased its id before `start(2)`, index 0 is not registered, so the launch loop faults at once with nothing launched |
| PoolSpec.SubmitAdmitsIffRoom | threadpool.cpp:142-151 | a task is admitted iff the queue has room; a rejected one yields an invalid result and leaves the pool unchanged; an admitted one is appended at the back and counted |
| PoolSpec.SubmitKeepsWithinCapacity | threadpool.cpp:145-151 | admission never takes the queue past its capacity |
| PoolSpec.SubmitGrowsOnlyByRule | threadpool.cpp:154-165 | a worker is added, with `curr` and `idle` each up by one, iff the task was admitted in cached mode with `idle < taskQueSize` and `curr < threadMaxThreshold`; otherwise registry and counters are unchanged |
| PoolSpec.SubmitKeepsCeiling | threadpool.cpp:154-165 | submission keeps `curr <= threadMaxThreshold`, and a fixed pool never grows |
| PoolSpec.DispatchTakesFront | threadpool.cpp:209-222 | dispatch removes exactly the front task and decrements `taskQueSize` and `idle`; finishing the task restores `idle` |
| PoolSpec.WorkerLeavesOnlyOnEmptyQueue | threadpool.cpp:181-200 | a worker leaves the registry only with an empty queue: when the pool is stopped, or in cached mode after more than 60 idle seconds with `curr > init` |
| PoolSpec.IdleTimeoutKeepsInitialWorkers | threadpool.cpp:189-200 | reclaiming never takes `currThreadSize` below `initThreadSize` |
| PoolSpec.ReclaimedWorkerReclaimsAgain | threadpool.cpp:194-200 | a reclaimed worker keeps looping and reclaims again, decrementing the counters although its id is already gone |
| PoolSpec.ReclaimCountDrifts | threadpool.cpp:194-200 | with two workers beyond the initial one, reclaiming worker 2 twice leaves two registered ids and a count of one |
| PoolSpec.DrainQueue | threadpool.cpp:176-222 | workers serving a queue until it is empty dispatch exactly the queued tasks, in order |
| PoolSpec.ExitAllRemovesListed | threadpool.cpp:181-188 | with the queue empty and the pool stopped, every worker that takes its exit step leaves the registry |
| PoolSpec.ShutdownDrainsThenEmpties | threadpool.cpp:95-100 | with at least one registered worker, after the destructor clears the running flag every queued task is dispatched in order; if every registered id is among the workers that then take their exit step, the registry empties and the destructor returns |
| PoolSpec.UnlaunchedWorkerKeepsDestructorWaiting | threadpool.cpp:95-100 | after `start(1)` twice on a new pool, id 1 is registered but never launched, and whatever exits the launched worker takes, id 1 stays registered after shutdown, so the destructor waits forever |
| PoolSpec.WorkerEventKeepsTasksServed | threadpool.cpp:181-222 | no worker step or flag clear leaves tasks queued with an empty registry, if there were none before |
| PoolSpec.ShutdownNeverStrandsTasks | threadpool.cpp:95-100 | in every schedule of worker steps after shutdown that starts with a registered worker or an empty queue, the registry is empty (the destructor may return) only when the queue is empty |
| PoolSpec.EmptyRegistryAbandonsQueue | threadpool.cpp:95-100 | a never-started pool with a queued task finds its registry empty at shutdown, so the destructor returns with the task still queued |
| PoolSpec.ApplyPreservesInv | threadpool.cpp:125-222 | every step keeps `taskQueSize` equal to the queue length and every registered id below the counter |
| PoolSpec.RunPreservesInv | threadpool.cpp:125-222 | every run of steps keeps that invariant, so ids are never reused |
| PoolSpec.ApplyKeepsWithinCapacity | threadpool.cpp:109-151 | every step keeps the queue within capacity, except lowering the capacity before start below the number of queued tasks |
| ThreadPools.ThreadPool.constructor | threadpool.cpp:85-93 | a new pool is stopped and fixed, with empty queue and registry, zero counters and the default thresholds 1024 and 100 |
| ThreadPools.ThreadPool.SetMode | threadpool.cpp:102-107 | the object's new state is the `SetMode` step |
| ThreadPools.ThreadPool.SetTaskMaxThreshold | threadpool.cpp:109-114 | the object's new state is the `SetTaskMaxThreshold` step |
| ThreadPools.ThreadPool.SetThreadMaxThreshold | threadpool.cpp:116-123 | the object's new state is the `SetThreadMaxThreshold` step |
| ThreadPools.ThreadPool.Start | threadpool.cpp:125-140 | the two loops of `start` register `n` ids from the counter and launch the indices `0 .. n-1`, as the `Start` step states |
| ThreadPools.ThreadPool.SubmitTask | threadpool.cpp:142-168 | the object's new state is the `Submit` step, and the returned `Result` is new, bound to the task, and valid iff the task was admitted |
| ThreadPools.ThreadPool.Dispatch | threadpool.cpp:209-217 | the object's new state and the task taken are the `Dispatch` step |
| ThreadPools.ThreadPool.FinishTask | threadpool.cpp:222 | the worker is counted idle again |
| ThreadPools.ThreadPool.ServeFront | threadpool.cpp:176-224 | one pass of the worker loop takes the front task, delivers its value to its bound result, and counts the worker idle again |
| ThreadPools.ThreadPool.ExitIfStopped | threadpool.cpp:181-188 | the object's new state is the `ExitIfStopped` step |
| ThreadPools.ThreadPool.IdleTimeout | threadpool.cpp:189-201 | the object's new state is the `IdleTimeout` step |
| ThreadPools.ThreadPool.Shutdown | threadpool.cpp:95-97 | the destructor clears the running flag |
| ThreadPools.ServeOneTask | threadpool.cpp:142-224 | one task submitted to a fixed pool of one worker is run by that worker, and `get` returns exactly its value |
| Scenario.RangeSumClosedForm | main.cpp:12-20 | the range sum computed by `MyTask::run` follows Gauss's formula |
| Scenario.MyTaskRun | main.cpp:12-20 | `MyTask::run` returns, under type `unsigned long long`, Gauss's sum of the range modulo 2^64, and 0 for an empty range |
| Scenario.MainRangesOverlap | main.cpp:29-35 | the three ranges sum to 3000 more than the sum of 1 to 3000 (4,501,500) that the comment announces |
| Scenario.MainTaskValues | main.cpp:33-38 | the three tasks of the demo produce 500,500, 1,501,500 and 2,502,500 |
| Scenario.MainPoolRun | main.cpp:30-35 | in the demo all three tasks are admitted in order, and the third submission starts a third worker with id 2 |
| Scenario.SubmitNewTask | main.cpp:33-35 | a submission to a queue with room appends the new task and binds it to a new valid result |
| Scenario.SubmitMainTasks | main.cpp:30-35 | the demo queues its three tasks in order, each with its own valid result |
| Scenario.ServeMainTasks | main.cpp:36-38 | the workers deliver each task's value to its own result |
| Scenario.MainScenario | main.cpp:27-40 | the demo prints 4,504,500 |

## Left out

- OS threads, `std::thread` and `detach`, the mutexes, condition variables and atomics: every critical section is one atomic step, and interleavings inside a section are not modelled. This includes the lost wake-up that the destructor's unlocked `notify_all` allows (threadpool.cpp:96-97).
- The one-second admission wait in `submitTask`: a full queue is rejected at once.
- The clock (`high_resolution_clock`) and the one-second `wait_for`: time is an integer number of seconds passed to `IdleTimeout`, and the worker's `lastTime` is kept by the caller of the worker steps. A fixed-mode `wait` and a wake-up that finds the queue still empty change nothing, so they are not steps.
- ShutdownDrainsThenEmpties: the pool does not record which registered ids were launched, and `ExitAll` lets any listed id take an exit step, so the lemma's "registry empties" conclusion is promised only when every registered id has a running worker; when one does not (double `start`, or a `start` after a cached spawn), the destructor hangs, as `UnlaunchedWorkerKeepsDestructorWaiting` shows.
- `start`, the setters, the destructor's flag write and the post-task `++idleThreadSize_` run outside `taskMutex_`. The model still takes each as one atomic step, so races between `start`'s unlocked `threads_` updates and a worker's erase or a concurrent `submitTask` are not modelled.
- IdleTimeout: the model lets a cached-mode `wait_for` time out only while the queue stays empty. In the source, `wait_for` can report a timeout although a push notified it, when the deadline has passed by the time it returns, so the reclaim branch (threadpool.cpp:189-200) can run with a task queued; this is not modelled.
- WorkerLeavesOnlyOnEmptyQueue: holds under that idealised `wait_for`; with a late timeout as above, a reclaimed worker can leave while tasks are queued.
- Logging to `std::cout`/`std::cerr`, and `hardware_concurrency()` as the default argument of `start`.
- The bodies of user tasks: `Task::run` is abstract, so each model task carries the value its `run()` returns.
- Copy construction and copy assignment of `Any` are deleted at compile time. The model has no copies to forbid. Moving out of the slot in `get` leaves it empty (`OneSetValOneGet`).
- Object lifetimes: a `Result` destroyed before its task runs leaves `Task::result_` dangling, and the semaphore's exit flag guards against use after destruction. The model's objects live forever. The uninitialised `result_` of a new `Task` is modelled as null.
- ThreadPools.ThreadPool.Start: when `threads_[i]` is not a registered id, the source calls `start()` through a null pointer. The model stops at that index and reports it instead of modelling the undefined behaviour.
- Integer widths: the counters and the id counter are unbounded integers, so 32-bit overflow of `int` is not modelled. The `size_t` conversion of the queue threshold is modelled.
- Submitting a null task pointer: the model's tasks are never null.
