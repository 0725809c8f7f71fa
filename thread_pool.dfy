/**
 * The `ThreadPool` class of threadpool.cpp. Its fields are those of the C++
 * class; each public method, and each critical section of the worker
 * function `threadFunc`, is one method that updates them in place. Every
 * method's new state is the corresponding step of `PoolSpec` applied to the
 * old state, so the lemmas proved there hold of the class.
 */
module ThreadPools {
  import opened Options
  import opened AnyValue
  import opened Results
  import Threads
  import S = PoolSpec

  class ThreadPool<V> {
    var threads: set<int>
    var initThreadSize: int
    var threadMaxThreshold: int
    var currThreadSize: int
    var idleThreadSize: int
    var taskQue: seq<Task<V>>
    var taskQueSize: int
    var taskQueMaxThreshold: int
    var poolMode: S.PoolMode
    var isPoolRunning: bool
    /** The process-wide `Thread::generateId_`. */
    const ids: Threads.IdGenerator

    function Abs(): S.Pool<Task<V>>
      reads this
    {
      S.Pool(threads, initThreadSize, threadMaxThreshold, currThreadSize, idleThreadSize,
             taskQue, taskQueSize, taskQueMaxThreshold, poolMode, isPoolRunning)
    }

    constructor (ids: Threads.IdGenerator)
      ensures Abs() == S.NewPool() && this.ids == ids
    {
      threads := {};
      initThreadSize := 0;
      threadMaxThreshold := S.THREAD_MAX_THRESHOLD;
      currThreadSize := 0;
      idleThreadSize := 0;
      taskQue := [];
      taskQueSize := 0;
      taskQueMaxThreshold := S.TASK_MAX_THRESHOLD;
      poolMode := S.ModeFixed;
      isPoolRunning := false;
      this.ids := ids;
    }

    method SetMode(mode: S.PoolMode)
      modifies this
      ensures Abs() == S.SetMode(old(Abs()), mode)
    {
      if isPoolRunning {
        return;
      }
      poolMode := mode;
    }

    method SetTaskMaxThreshold(threshold: int)
      modifies this
      ensures Abs() == S.SetTaskMaxThreshold(old(Abs()), threshold)
    {
      if isPoolRunning {
        return;
      }
      taskQueMaxThreshold := threshold;
    }

    method SetThreadMaxThreshold(threshold: int)
      modifies this
      ensures Abs() == S.SetThreadMaxThreshold(old(Abs()), threshold)
    {
      if isPoolRunning {
        return;
      }
      if poolMode == S.ModeCached {
        threadMaxThreshold := threshold;
      }
    }

    /** `start(n)`: creates all workers first, then launches `threads_[i]`
        for `i` from 0 to `n - 1`; `launched` lists the ids launched, `fault`
        the first index with no registered worker. */
    method Start(n: int) returns (launched: seq<int>, fault: Option<int>)
      modifies this, ids
      ensures S.Started(Abs(), launched, fault) == S.Start(old(Abs()), n, old(ids.next))
      ensures ids.next == old(ids.next) + (if n < 0 then 0 else n)
    {
      isPoolRunning := true;
      initThreadSize := n;
      currThreadSize := n;
      idleThreadSize := n;

      ghost var first := ids.next;
      ghost var before := threads;
      var i := 0;
      while i < initThreadSize
        modifies this`threads, ids
        invariant 0 <= i && (i <= n || i == 0)
        invariant ids.next == first + i
        invariant threads == before + S.IdRange(first, i)
      {
        var id := ids.Generate();
        threads := threads + {id};
        i := i + 1;
      }

      launched, fault := [], None;
      i := 0;
      while i < initThreadSize
        invariant 0 <= i && (i <= n || i == 0)
        invariant launched == S.Range(0, i)
        invariant forall j :: 0 <= j < i ==> j in threads
      {
        if i !in threads {
          fault := Some(i);
          return;
        }
        launched := launched + [i];
        i := i + 1;
      }
    }

    /** `submitTask(task)`: the returned `Result` is bound to the task;
        `spawned` is the id of the worker started for it, if any. */
    method SubmitTask(task: Task<V>) returns (res: Result<V>, spawned: Option<int>)
      modifies this, ids, task
      ensures S.Submitted(Abs(), res.isValid, spawned) == S.Submit(old(Abs()), task, old(ids.next))
      ensures ids.next == old(ids.next) + (if spawned.Some? then 1 else 0)
      ensures fresh(res) && fresh(res.sem) && res.task == task && task.result == res
      ensures res.Abs() == NewResult(res.isValid)
    {
      spawned := None;
      if !(|taskQue| < S.SizeT(taskQueMaxThreshold)) {
        res := new Result(task, false);
        return;
      }
      taskQue := taskQue + [task];
      taskQueSize := taskQueSize + 1;
      if poolMode == S.ModeCached && idleThreadSize < taskQueSize
         && currThreadSize < threadMaxThreshold {
        var id := ids.Generate();
        threads := threads + {id};
        spawned := Some(id);
        currThreadSize := currThreadSize + 1;
        idleThreadSize := idleThreadSize + 1;
      }
      res := new Result(task, true);
    }

    /** The dequeue at the end of a worker's lock-held section. */
    method Dispatch() returns (task: Option<Task<V>>)
      modifies this
      ensures S.Dispatched(Abs(), task) == S.Dispatch(old(Abs()))
    {
      if |taskQue| == 0 {
        return None;
      }
      idleThreadSize := idleThreadSize - 1;
      task := Some(taskQue[0]);
      taskQue := taskQue[1..];
      taskQueSize := taskQueSize - 1;
    }

    /** `++idleThreadSize` after the task has run. */
    method FinishTask()
      modifies this
      ensures Abs() == S.FinishTask(old(Abs()))
    {
      idleThreadSize := idleThreadSize + 1;
    }

    /** One pass of the `for(;;)` body of `threadFunc` that finds work: the
        dequeue under the lock, the task's `exec` outside it, and the worker
        counted idle again. On an empty queue nothing happens (the worker
        waits instead). */
    method ServeFront() returns (task: Option<Task<V>>)
      modifies this, if |taskQue| > 0 then taskQue[0].Delivery() else {}
      ensures var d := S.Dispatch(old(Abs()));
        task == d.task && Abs() == (if task.Some? then S.FinishTask(d.pool) else d.pool)
      ensures task.Some? ==> task.value.result == old(task.value.result)
      ensures task.Some? && task.value.result != null ==>
        task.value.result.Abs() == SetValStep(old(task.value.result.Abs()), task.value.output)
    {
      task := Dispatch();
      if task.Some? {
        task.value.Exec();
        FinishTask();
      }
    }

    /** The worker `id` finds the queue empty and the pool stopped. */
    method ExitIfStopped(id: int) returns (exited: bool)
      modifies this
      ensures (Abs(), exited) == S.ExitIfStopped(old(Abs()), id)
    {
      exited := |taskQue| == 0 && !isPoolRunning;
      if exited {
        threads := threads - {id};
      }
    }

    /** The worker `id`, idle since `lastTime`, times out at `now`. */
    method IdleTimeout(id: int, lastTime: int, now: int) returns (reclaimed: bool)
      modifies this
      ensures (Abs(), reclaimed) == S.IdleTimeout(old(Abs()), id, lastTime, now)
    {
      reclaimed := |taskQue| == 0 && poolMode == S.ModeCached
        && now - lastTime > S.THREAD_MAX_IDLE_TIME && currThreadSize > initThreadSize;
      if reclaimed {
        threads := threads - {id};
        idleThreadSize := idleThreadSize - 1;
        currThreadSize := currThreadSize - 1;
      }
    }

    /** The destructor's first step: it clears the running flag. Its wait
        for an empty registry is `PoolSpec.AllExited` of the state. */
    method Shutdown()
      modifies this
      ensures Abs() == S.Shutdown(old(Abs()))
    {
      isPoolRunning := false;
    }
  }

  /** One task through a fixed pool of one worker, in a new process: the
      task is admitted with a valid result, the worker dequeues it, runs it and
      delivers its value, and `get` returns exactly that value. */
  method ServeOneTask<V>(output: Any<V>) returns (got: GetOutcome<V>)
    ensures got == Returned(output)
  {
    var ids := new Threads.IdGenerator();
    var pool := new ThreadPool<V>(ids);
    var launched, fault := pool.Start(1);
    assert fault == None && launched == [0];
    var task := new Task<V>(output);
    var res, spawned := pool.SubmitTask(task);
    assert res.isValid && spawned == None;
    var taken := pool.Dispatch();
    assert taken == Some(task);
    task.Exec();
    pool.FinishTask();
    got := res.Get();
  }
}
