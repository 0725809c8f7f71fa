/**
 * The demonstration program main.cpp: a cached pool started with two
 * workers runs three `MyTask`s that sum the integers of [1, 1000],
 * [1000, 2000] and [2000, 3000]; the caller casts each result to
 * `unsigned long long` and adds them.
 */
module Scenario {
  import opened Options
  import opened AnyValue
  import opened Results
  import Threads
  import S = PoolSpec
  import opened ThreadPools

  const ULONG := TypeTag("unsigned long long")

  /** `begin + (begin + 1) + ... + end`, zero when the range is empty. */
  function RangeSum(begin: int, end: int): int
    decreases end - begin
  {
    if end < begin then 0 else begin + RangeSum(begin + 1, end)
  }

  /** Gauss's formula for the sum of a range. */
  lemma {:induction false} RangeSumClosedForm(begin: int, end: int)
    requires begin <= end + 1
    ensures 2 * RangeSum(begin, end) == (end - begin + 1) * (begin + end)
    decreases end - begin
  {
    if begin <= end {
      RangeSumClosedForm(begin + 1, end);
    }
  }

  /** `MyTask::run()`: the sum in `unsigned long long` arithmetic (64 bits,
      like `size_t`), returned under that type; it is Gauss's formula reduced
      modulo 2^64, and zero for an empty range. The bounds are `nat`: the
      source takes `int` bounds, but with a negative `end_` the test
      `i <= end_` compares against `2^64 + end_`, so the loop runs about 2^64
      times (forever for -1); every call in main.cpp passes positive bounds. */
  function MyTaskRun(begin: nat, end: nat): (r: Any<int>)
    ensures Cast(r, ULONG) == Casted(
      if end < begin then 0
      else (end - begin + 1) * (begin + end) / 2 % S.SIZE_T_MODULUS)
  {
    var sum := RangeSum(begin, end) % S.SIZE_T_MODULUS;
    if end < begin then MakeAny(ULONG, sum)
    else RangeSumClosedForm(begin, end); MakeAny(ULONG, sum)
  }

  /** The values the three tasks of main.cpp produce. */
  lemma MainTaskValues()
    ensures Cast(MyTaskRun(1, 1000), ULONG) == Casted(500500)
    ensures Cast(MyTaskRun(1000, 2000), ULONG) == Casted(1501500)
    ensures Cast(MyTaskRun(2000, 3000), ULONG) == Casted(2502500)
  {
  }

  /** The three ranges overlap at 1000 and 2000, so their sums exceed the
      sum of 1 to 3000 (which the comment in main.cpp announces) by 3000. */
  lemma {:induction false} MainRangesOverlap()
    ensures RangeSum(1, 1000) + RangeSum(1000, 2000) + RangeSum(2000, 3000)
            == RangeSum(1, 3000) + 3000
    ensures RangeSum(1, 3000) == 4501500
  {
    RangeSumClosedForm(1, 1000);
    RangeSumClosedForm(1000, 2000);
    RangeSumClosedForm(2000, 3000);
    RangeSumClosedForm(1, 3000);
  }

  /** The pool side of main.cpp: after `setMode(cached)`, `start(2)` with
      the counter at 0 and three submissions, all three tasks are admitted in
      order, and the third finds two idle workers for three queued tasks and
      starts the worker with id 2. */
  lemma MainPoolRun<T>(t1: T, t2: T, t3: T)
    ensures var p0 := S.Start(S.SetMode(S.NewPool<T>(), S.ModeCached), 2, 0);
      var s1 := S.Submit(p0.pool, t1, 2);
      var s2 := S.Submit(s1.pool, t2, 2);
      var s3 := S.Submit(s2.pool, t3, 2);
      && p0.fault == None && p0.launched == [0, 1]
      && s1.isValid && s1.spawned == None
      && s2.isValid && s2.spawned == None
      && s3.isValid && s3.spawned == Some(2)
      && s3.pool.taskQue == [t1, t2, t3]
      && s3.pool.threads == {0, 1, 2} && s3.pool.currThreadSize == 3
  {
    var p0 := S.Start(S.SetMode(S.NewPool<T>(), S.ModeCached), 2, 0);
    assert p0.pool.threads == {0, 1};
    assert p0.launched == [0, 1];
  }

  /** `pool.submitTask(std::make_shared<MyTask>(...))` on a queue with
      room: the new task is appended and bound to a new valid result. */
  method SubmitNewTask(pool: ThreadPool<int>, output: Any<int>) returns (t: Task<int>)
    requires |pool.taskQue| < S.TASK_MAX_THRESHOLD
    requires pool.taskQueMaxThreshold == S.TASK_MAX_THRESHOLD
    modifies pool, pool.ids
    ensures fresh(t) && t.output == output
    ensures t.result != null && fresh(t.result) && fresh(t.result.sem)
    ensures t.result.Abs() == NewResult(true)
    ensures pool.taskQue == old(pool.taskQue) + [t]
    ensures pool.taskQueMaxThreshold == old(pool.taskQueMaxThreshold)
  {
    t := new Task<int>(output);
    var res, spawned := pool.SubmitTask(t);
  }

  /** The first half of main.cpp in a new process: the pool is set up and
      the three tasks are submitted; each is queued, in order, with a new
      valid result bound to it. */
  method SubmitMainTasks() returns (pool: ThreadPool<int>, t1: Task<int>, t2: Task<int>, t3: Task<int>)
    ensures fresh(pool) && pool.taskQue == [t1, t2, t3]
    ensures t1.output == MyTaskRun(1, 1000) && t2.output == MyTaskRun(1000, 2000)
      && t3.output == MyTaskRun(2000, 3000)
    ensures t1.result != null && fresh(t1) && fresh(t1.result) && fresh(t1.result.sem)
    ensures t2.result != null && fresh(t2) && fresh(t2.result) && fresh(t2.result.sem)
    ensures t3.result != null && fresh(t3) && fresh(t3.result) && fresh(t3.result.sem)
    ensures t1.result.Abs() == NewResult(true) && t2.result.Abs() == NewResult(true)
      && t3.result.Abs() == NewResult(true)
    ensures t1.result != t2.result && t1.result != t3.result && t2.result != t3.result
    ensures t1.result.sem != t2.result.sem && t1.result.sem != t3.result.sem
      && t2.result.sem != t3.result.sem
  {
    var ids := new Threads.IdGenerator();
    pool := new ThreadPool<int>(ids);
    pool.SetMode(S.ModeCached);
    var launched, fault := pool.Start(2);
    assert pool.taskQue == [] && pool.taskQueMaxThreshold == S.TASK_MAX_THRESHOLD;
    t1 := SubmitNewTask(pool, MyTaskRun(1, 1000));
    t2 := SubmitNewTask(pool, MyTaskRun(1000, 2000));
    t3 := SubmitNewTask(pool, MyTaskRun(2000, 3000));
  }

  /** The workers of main.cpp serve the three queued tasks, front first;
      each delivers its value to its own result. */
  method ServeMainTasks(pool: ThreadPool<int>, t1: Task<int>, t2: Task<int>, t3: Task<int>)
    requires pool.taskQue == [t1, t2, t3]
    requires t1.result != null && t2.result != null && t3.result != null
    requires t1.result != t2.result && t1.result != t3.result && t2.result != t3.result
    requires t1.result.sem != t2.result.sem && t1.result.sem != t3.result.sem
      && t2.result.sem != t3.result.sem
    modifies pool, t1.Delivery(), t2.Delivery(), t3.Delivery()
    ensures t1.result == old(t1.result) && t2.result == old(t2.result) && t3.result == old(t3.result)
    ensures t1.result.Abs() == SetValStep(old(t1.result.Abs()), t1.output)
    ensures t2.result.Abs() == SetValStep(old(t2.result.Abs()), t2.output)
    ensures t3.result.Abs() == SetValStep(old(t3.result.Abs()), t3.output)
  {
    var taken := pool.ServeFront();
    assert taken == Some(t1);
    taken := pool.ServeFront();
    assert taken == Some(t2);
    taken := pool.ServeFront();
    assert taken == Some(t3);
  }

  /** main.cpp run to completion: each `get` returns its task's value, and
      the printed total is 4,504,500 (the ranges share their end points 1000
      and 2000). */
  method MainScenario() returns (total: int)
    ensures total == 4504500
  {
    var pool, t1, t2, t3 := SubmitMainTasks();
    var res1, res2, res3 := t1.result, t2.result, t3.result;
    ServeMainTasks(pool, t1, t2, t3);
    var g1 := res1.Get();
    var g2 := res2.Get();
    var g3 := res3.Get();
    MainTaskValues();
    total := Cast(g1.value, ULONG).value + Cast(g2.value, ULONG).value + Cast(g3.value, ULONG).value;
  }
}
