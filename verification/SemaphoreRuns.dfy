/** Any number of tasks sharing one semaphore, over whole runs. */
module SemaphoreRuns {
  import opened Counting
  import opened Lists
  import opened Semaphore

  /** Outside: not waiting; Parked: yielded, not yet in AddWaitTask; Queued: in the wait queue. */
  datatype Wait = Outside | Parked | Queued

  predicate IsParked(w: Wait) { w.Parked? }

  /**
    `taken` counts permits obtained by tasks (at once, at the second check, or handed over),
    `woken` the calls of Wakeup that returned true, `calls` the blocking waits begun plus the
    successful tries; `joined` and `served` are the queue's arrivals and departures in order.
  */
  datatype Sys = Sys(sem: Sem, waits: map<Tid, Wait>, taken: nat, woken: nat, calls: nat,
                     joined: seq<Tid>, served: seq<Tid>)

  datatype Action =
    | Begin(t: Tid)       // CoBlockWait up to the yield
    | Try(t: Tid)         // TryBlockWait; also one round of a wait made outside a coroutine
    | SwitchOut(t: Tid)   // AddWaitTask
    | Signal              // Wakeup, by anyone

  predicate Enabled(s: Sys, a: Action)
  {
    match a
    case Begin(t) => t in s.waits && s.waits[t].Outside?
    case Try(t) => t in s.waits && s.waits[t].Outside?
    case SwitchOut(t) => t in s.waits && s.waits[t].Parked?
    case Signal => s.sem.queue != [] ==> s.sem.queue[0] in s.waits
  }

  function Apply(s: Sys, a: Action): (r: Sys)
    requires Enabled(s, a)
  {
    match a
    case Begin(t) =>
      var (sem, ok) := TakeNow(s.sem);
      if ok then s.(sem := sem, taken := s.taken + 1, calls := s.calls + 1)
      else s.(waits := s.waits[t := Parked], calls := s.calls + 1)
    case Try(t) =>
      var (sem, ok) := TakeNow(s.sem);
      if ok then s.(sem := sem, taken := s.taken + 1, calls := s.calls + 1) else s
    case SwitchOut(t) =>
      var (sem, blocked) := Enqueue(s.sem, t);
      if blocked then s.(sem := sem, waits := s.waits[t := Queued], joined := s.joined + [t])
      else s.(sem := sem, waits := s.waits[t := Outside], taken := s.taken + 1)
    case Signal =>
      var (sem, w) := Wake(s.sem);
      match w
      case Refused => s
      case Stored => s.(sem := sem, woken := s.woken + 1)
      case Handed(u) => s.(sem := sem, waits := s.waits[u := Outside], taken := s.taken + 1,
                           woken := s.woken + 1, served := s.served + [u])
  }

  function Start(initial: nat, max: nat, tasks: set<Tid>): (s: Sys)
  {
    Sys(Sem(initial, max, []), map t | t in tasks :: Outside, 0, 0, 0, [], [])
  }

  ghost predicate Inv(initial: nat, s: Sys)
  {
    && NoDup(s.sem.queue)
    && (forall t :: t in s.sem.queue <==> t in s.waits && s.waits[t].Queued?)
    && (s.sem.queue != [] ==> s.sem.wakeup == 0)
    && s.sem.wakeup + s.taken == initial + s.woken
    && s.calls == s.taken + Count(s.waits, IsParked) + |s.sem.queue|
    && s.joined == s.served + s.sem.queue
  }

  /** Every critical section keeps the accounting. */
  lemma Preserved(initial: nat, s: Sys, a: Action)
    requires Inv(initial, s) && Enabled(s, a)
    ensures Inv(initial, Apply(s, a))
  {
    match a
    case Begin(t) => CountUpdate(s.waits, t, Parked, IsParked);
    case Try(t) =>
    case SwitchOut(t) =>
      CountUpdate(s.waits, t, Queued, IsParked);
      CountUpdate(s.waits, t, Outside, IsParked);
      QueueAppend(s.sem.queue, t);
      assert s.served + (s.sem.queue + [t]) == s.joined + [t];
    case Signal =>
      if s.sem.queue != [] {
        QueueTail(s.sem.queue);
        CountUpdate(s.waits, s.sem.queue[0], Outside, IsParked);
        assert (s.served + [s.sem.queue[0]]) + s.sem.queue[1..] == s.served + s.sem.queue;
      }
  }

  ghost predicate IsRun(from: Sys, acts: seq<Action>, to: Sys)
    decreases |acts|
  {
    if acts == [] then from == to
    else Enabled(from, acts[0]) && IsRun(Apply(from, acts[0]), acts[1..], to)
  }

  lemma {:induction false} RunKeepsInv(initial: nat, from: Sys, acts: seq<Action>, to: Sys)
    requires Inv(initial, from) && IsRun(from, acts, to)
    ensures Inv(initial, to)
    decreases |acts|
  {
    if acts != [] {
      Preserved(initial, from, acts[0]);
      RunKeepsInv(initial, Apply(from, acts[0]), acts[1..], to);
    }
  }

  /**
    Conservation over every run, for every initial count, ceiling and set of tasks: permits are
    neither made nor lost, tasks leave the queue in the order they joined it, and nobody is
    queued while a permit is lying about.
  */
  lemma Conservation(initial: nat, max: nat, tasks: set<Tid>, acts: seq<Action>, s: Sys)
    requires IsRun(Start(initial, max, tasks), acts, s)
    ensures s.sem.wakeup + s.taken == initial + s.woken
    ensures s.sem.queue != [] ==> s.sem.wakeup == 0
    ensures s.joined == s.served + s.sem.queue
    ensures forall t :: t in s.sem.queue <==> t in s.waits && s.waits[t].Queued?
  {
    var s0 := Start(initial, max, tasks);
    CountNone(s0.waits, IsParked);
    RunKeepsInv(initial, s0, acts, s);
  }

  /**
    No wakeup is lost: once no task is between its two checks, the number left blocked is exactly
    the number of waits that permits do not cover.
  */
  lemma NoLostWakeup(initial: nat, max: nat, tasks: set<Tid>, acts: seq<Action>, s: Sys)
    requires IsRun(Start(initial, max, tasks), acts, s)
    requires forall t :: t in s.waits ==> !s.waits[t].Parked?
    ensures |s.sem.queue| == if s.calls > initial + s.woken then s.calls - (initial + s.woken) else 0
  {
    var s0 := Start(initial, max, tasks);
    CountNone(s0.waits, IsParked);
    RunKeepsInv(initial, s0, acts, s);
    CountNone(s.waits, IsParked);
  }

  /**
    A Wakeup that lands after a task's first check and before AddWaitTask is not lost: whatever
    runs in that window, the task ends up queued if and only if other tasks took every permit
    that was stored or signalled meanwhile.  Otherwise it comes straight back with one.
  */
  lemma WakeupInTheWindow(initial: nat, s: Sys, acts: seq<Action>, s': Sys, t: Tid)
    requires Inv(initial, s) && IsRun(s, acts, s')
    requires t in s'.waits && s'.waits[t].Parked?
    ensures var s2 := Apply(s', SwitchOut(t));
            && (s2.waits[t].Queued? <==> s'.taken - s.taken == s.sem.wakeup + (s'.woken - s.woken))
            && (!s2.waits[t].Queued? ==> s2.waits[t].Outside? && s2.taken == s'.taken + 1 && s2.joined == s'.joined)
  {
    RunKeepsInv(initial, s, acts, s');
  }
}
