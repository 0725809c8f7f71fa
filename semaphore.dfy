/**
 * The counting `Semaphore` of threadpool.cpp: a permit counter guarded by a
 * mutex, and an exit flag after which both operations do nothing.
 *
 * A call to `wait` that would block is modelled as a step that does not
 * proceed and changes nothing; the waiting thread retries it after a `post`.
 */
module Semaphores {

  datatype SemState = SemState(resourceLimit: int, isExit: bool)

  /** `Semaphore(int limit = 0)`. */
  function NewSem(limit: int): SemState
  {
    SemState(limit, false)
  }

  /** One attempt at `wait()`: returns the new state and whether the caller
      got past the call (`false` means it is still blocked). */
  function WaitStep(s: SemState): (w: (SemState, bool))
  {
    if s.isExit then (s, true)
    else if s.resourceLimit > 0 then (s.(resourceLimit := s.resourceLimit - 1), true)
    else (s, false)
  }

  /** `post()`. */
  function PostStep(s: SemState): (s': SemState)
  {
    if s.isExit then s else s.(resourceLimit := s.resourceLimit + 1)
  }

  /** `~Semaphore()`: raises the exit flag. */
  function ExitStep(s: SemState): SemState
  {
    s.(isExit := true)
  }

  /** `wait` gets past the call exactly when the exit flag is set or a permit
      is available; it takes one permit in the second case only. */
  lemma WaitProceedsIffPermit(s: SemState)
    ensures WaitStep(s).1 <==> s.isExit || s.resourceLimit > 0
    ensures !s.isExit && s.resourceLimit > 0 ==>
      WaitStep(s).0.resourceLimit == s.resourceLimit - 1
    ensures s.isExit || s.resourceLimit <= 0 ==> WaitStep(s).0 == s
  {
  }

  /** A `post` followed by a `wait` on a live semaphore restores the count:
      the permit posted is the permit taken. */
  lemma PostThenWaitRestores(s: SemState)
    requires !s.isExit && s.resourceLimit >= 0
    ensures WaitStep(PostStep(s)) == (s, true)
  {
  }

  /** Once the exit flag is set, neither operation changes the count. */
  lemma ExitedSemaphoreIsInert(s: SemState)
    requires s.isExit
    ensures PostStep(s) == s && WaitStep(s).0 == s
  {
  }

  /** The count never goes negative through `wait` and `post`. */
  lemma CountStaysNonNegative(s: SemState)
    requires s.resourceLimit >= 0
    ensures WaitStep(s).0.resourceLimit >= 0 && PostStep(s).resourceLimit >= 0
  {
  }

  /** The number of times `wait` gets past the call in `n` attempts on a
      live semaphore, with the state after those attempts. */
  function WaitTimes(s: SemState, n: nat): (r: (SemState, nat))
    decreases n
  {
    if n == 0 then (s, 0)
    else
      var (s', ok) := WaitStep(s);
      var (s'', k) := WaitTimes(s', n - 1);
      (s'', if ok then k + 1 else k)
  }

  /** On a live semaphore with `c` permits, `n` waits get past the call
      `min(n, c)` times and leave `c - min(n, c)` permits: a permit is never
      handed out twice. */
  lemma {:induction false} WaitsBoundedByPermits(s: SemState, n: nat)
    requires !s.isExit && s.resourceLimit >= 0
    ensures var m := if n < s.resourceLimit then n else s.resourceLimit;
      WaitTimes(s, n) == (s.(resourceLimit := s.resourceLimit - m), m)
    decreases n
  {
    if n > 0 {
      WaitsBoundedByPermits(WaitStep(s).0, n - 1);
    }
  }

  class Semaphore {
    var resourceLimit: int
    var isExit: bool

    function Abs(): SemState
      reads this
    {
      SemState(resourceLimit, isExit)
    }

    constructor (limit: int)
      ensures Abs() == NewSem(limit)
    {
      resourceLimit := limit;
      isExit := false;
    }

    /** One attempt at `wait()`; `proceeded` is false while it would block. */
    method Wait() returns (proceeded: bool)
      modifies this
      ensures (Abs(), proceeded) == WaitStep(old(Abs()))
    {
      if isExit {
        return true;
      }
      proceeded := resourceLimit > 0;
      if proceeded {
        resourceLimit := resourceLimit - 1;
      }
    }

    method Post()
      modifies this
      ensures Abs() == PostStep(old(Abs()))
    {
      if isExit {
        return;
      }
      resourceLimit := resourceLimit + 1;
    }

    /** The destructor. */
    method Destroy()
      modifies this
      ensures Abs() == ExitStep(old(Abs()))
    {
      isExit := true;
    }
  }
}
