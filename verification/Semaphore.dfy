/**
  The counting semaphore every coroutine-level lock is built from (BlockObject).

  `Sem` is its state; the functions on it are the four critical sections that run
  under `lock_`.  `BlockObject` is the mutable object, each method proved to be one
  of those functions.  `SemaphoreRuns.Sys` is any number of tasks using one semaphore: the blocking
  wait is two separate critical sections with a context switch between them.
*/
module Semaphore {

  type Tid = nat

  datatype Sem = Sem(wakeup: nat, max: nat, queue: seq<Tid>)

  datatype Woken = Refused | Stored | Handed(task: Tid)

  /** TryBlockWait, and the first critical section of CoBlockWait. */
  function TakeNow(s: Sem): (r: (Sem, bool))
  {
    if s.wakeup > 0 then (s.(wakeup := s.wakeup - 1), true) else (s, false)
  }

  /** AddWaitTask: the second check, made by the scheduler after the task yielded. */
  function Enqueue(s: Sem, t: Tid): (r: (Sem, bool))
  {
    if s.wakeup > 0 then (s.(wakeup := s.wakeup - 1), false) else (s.(queue := s.queue + [t]), true)
  }

  function Wake(s: Sem): (r: (Sem, Woken))
  {
    if s.queue != [] then (s.(queue := s.queue[1..]), Handed(s.queue[0]))
    else if s.wakeup >= s.max then (s, Refused)
    else (s.(wakeup := s.wakeup + 1), Stored)
  }

  class BlockObject {
    var wakeup: nat
    const maxWakeup: nat
    var waitQueue: seq<Tid>

    ghost function Abs(): Sem
      reads this
    {
      Sem(wakeup, maxWakeup, waitQueue)
    }

    constructor (initial: nat, max: nat)
      ensures Abs() == Sem(initial, max, [])
    {
      wakeup, maxWakeup, waitQueue := initial, max, [];
    }

    /** Up to the yield: true when the permit was there at once, false when the task must switch out. */
    method CoBlockWait() returns (done: bool)
      modifies this
      ensures (Abs(), done) == TakeNow(old(Abs()))
    {
      if wakeup > 0 {
        wakeup := wakeup - 1;
        return true;
      }
      return false;
    }

    method TryBlockWait() returns (ok: bool)
      modifies this
      ensures (Abs(), ok) == TakeNow(old(Abs()))
    {
      if wakeup == 0 {
        return false;
      }
      wakeup := wakeup - 1;
      return true;
    }

    method Wakeup() returns (ok: bool, released: Woken)
      modifies this
      ensures (Abs(), released) == Wake(old(Abs()))
      ensures ok <==> released != Refused
    {
      if waitQueue == [] {
        if wakeup >= maxWakeup {
          return false, Refused;
        }
        wakeup := wakeup + 1;
        return true, Stored;
      }
      var tk := waitQueue[0];
      waitQueue := waitQueue[1..];
      return true, Handed(tk);
    }

    method AddWaitTask(tk: Tid) returns (blocked: bool)
      modifies this
      ensures (Abs(), blocked) == Enqueue(old(Abs()), tk)
    {
      if wakeup > 0 {
        wakeup := wakeup - 1;
        return false;
      }
      waitQueue := waitQueue + [tk];
      return true;
    }
  }
}
