/**
 * Worker identities of threadpool.cpp: `Thread::generateId_` is one
 * process-wide counter, starting at 0, that every new `Thread` reads and
 * increments. It is an object here so that several pools can share it.
 */
module Threads {

  class IdGenerator {
    var next: int

    /** The static initialisation `generateId_ = 0`. */
    constructor ()
      ensures next == 0
    {
      next := 0;
    }

    /** `threadId_(generateId_++)`: hands out the current value and moves on,
        so the ids handed out are strictly increasing. */
    method Generate() returns (id: int)
      modifies this
      ensures id == old(next) && next == id + 1
    {
      id := next;
      next := next + 1;
    }
  }
}
