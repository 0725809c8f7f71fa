/**
 * The result channel of threadpool.cpp: `Result` (a value slot, a semaphore
 * and a validity flag) and `Task` (which holds a non-owning pointer to the
 * `Result` bound to it and delivers its value there when executed).
 */
module Results {
  import opened AnyValue
  import opened Semaphores

  /** The abstract state of one `Result`. */
  datatype ResultState<V> = ResultState(any: Any<V>, sem: SemState, isValid: bool)

  /** What one call of `get()` does: returns a value, or is still blocked in
      `sem_.wait()`. */
  datatype GetOutcome<V> = Returned(value: Any<V>) | WouldBlock

  /** `Result(task, isValid)`: an empty slot and a semaphore with no permit. */
  function NewResult<V>(isValid: bool): ResultState<V>
  {
    ResultState(Empty, NewSem(0), isValid)
  }

  /** `setVal(any)`: moves the value into the slot and posts one permit. */
  function SetValStep<V>(r: ResultState<V>, a: Any<V>): (r': ResultState<V>)
  {
    r.(any := a, sem := PostStep(r.sem))
  }

  /** One attempt at `get()`. An invalid result returns the empty value
      without touching the semaphore; a valid one waits for a permit and then
      moves the value out of the slot, leaving it empty. */
  function GetStep<V>(r: ResultState<V>): (g: (ResultState<V>, GetOutcome<V>))
  {
    if !r.isValid then (r, Returned(EmptyAny()))
    else
      var (sem', proceeded) := WaitStep(r.sem);
      if !proceeded then (r, WouldBlock)
      else
        var (out, left) := MoveOut(r.any);
        (r.(any := left, sem := sem'), Returned(out))
  }

  /** `get` on an invalid result returns the empty value at once and changes
      nothing, in particular it takes no permit. */
  lemma InvalidGetReturnsEmpty<V>(r: ResultState<V>)
    requires !r.isValid
    ensures GetStep(r) == (r, Returned(EmptyAny()))
  {
  }

  /** A new valid result has no permit, so `get` cannot return before
      `setVal`. */
  lemma FreshResultBlocks<V>()
    ensures GetStep(NewResult<V>(true)) == (NewResult<V>(true), WouldBlock)
  {
  }

  /** After one `setVal(a)` on a new valid result, the first `get` returns
      `a` and the second finds no permit and stays blocked: it does not
      return an empty value. */
  lemma OneSetValOneGet<V>(a: Any<V>)
    ensures var r1 := SetValStep(NewResult<V>(true), a);
      var (r2, first) := GetStep(r1);
      first == Returned(a) && r2 == NewResult(true) && GetStep(r2) == (r2, WouldBlock)
  {
  }

  /** Calls `get` `n` times and counts the calls that returned. */
  function GetTimes<V>(r: ResultState<V>, n: nat): (ResultState<V>, nat)
    decreases n
  {
    if n == 0 then (r, 0)
    else
      var (r', out) := GetStep(r);
      var (r'', k) := GetTimes(r', n - 1);
      (r'', if out.Returned? then k + 1 else k)
  }

  /** On a valid result whose semaphore is live, `get` returns no more often
      than `setVal` posted permits: the returning calls are `min(n, permits)`
      and they use up exactly that many permits. */
  lemma {:induction false} GetsBoundedByPosts<V>(r: ResultState<V>, n: nat)
    requires r.isValid && !r.sem.isExit && r.sem.resourceLimit >= 0
    ensures var m := if n < r.sem.resourceLimit then n else r.sem.resourceLimit;
      GetTimes(r, n).1 == m && GetTimes(r, n).0.sem.resourceLimit == r.sem.resourceLimit - m
    decreases n
  {
    if n > 0 {
      GetsBoundedByPosts(GetStep(r).0, n - 1);
    }
  }

  /** A unit of work. `run()` is user code; the model gives each task the
      value its `run()` produces. */
  class Task<V> {
    var result: Result?<V>
    const output: Any<V>

    constructor (output: Any<V>)
      ensures result == null && this.output == output
    {
      result := null;
      this.output := output;
    }

    /** The objects that `exec` writes: the bound result and its semaphore. */
    function Delivery(): set<object>
      reads this
    {
      if result == null then {} else {result, result.sem}
    }

    /** `setResult(result)`. */
    method SetResult(r: Result?<V>)
      modifies this
      ensures result == r
    {
      result := r;
    }

    /** `exec()`: when a result is bound, runs the task and passes its value
        to that result's `setVal`; otherwise does nothing. */
    method Exec()
      modifies Delivery()
      ensures result == old(result)
      ensures result != null ==> result.Abs() == SetValStep(old(result.Abs()), output)
    {
      if result != null {
        result.SetVal(output);
      }
    }
  }

  class Result<V> {
    var any: Any<V>
    const sem: Semaphore
    const task: Task<V>
    const isValid: bool

    function Abs(): ResultState<V>
      reads this, sem
    {
      ResultState(any, sem.Abs(), isValid)
    }

    /** `Result(task, isValid)`: keeps the task alive and binds itself to it. */
    constructor (task: Task<V>, isValid: bool)
      modifies task
      ensures this.task == task && task.result == this
      ensures fresh(sem) && Abs() == NewResult(isValid)
    {
      this.task := task;
      this.isValid := isValid;
      any := Empty;
      sem := new Semaphore(0);
      new;
      task.SetResult(this);
    }

    method SetVal(a: Any<V>)
      modifies this, sem
      ensures Abs() == SetValStep(old(Abs()), a)
    {
      any := a;
      sem.Post();
    }

    method Get() returns (out: GetOutcome<V>)
      modifies this, sem
      ensures (Abs(), out) == GetStep(old(Abs()))
    {
      if !isValid {
        return Returned(Empty);
      }
      var proceeded := sem.Wait();
      if !proceeded {
        return WouldBlock;
      }
      out := Returned(any);
      any := Empty;
    }
  }
}
