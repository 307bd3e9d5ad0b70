/**
  The reader/writer lock: an atomic reader count and a coroutine mutex (a semaphore of one
  permit), used by any number of threads.  Each step is one atomic access.  Threads unlock
  only what they hold; that is the caller's only obligation.
*/
module RwMutex {
  import opened Counting
  import opened Lists
  import opened Semaphore

  datatype Phase = Call | Poll | Parked | Queued

  datatype Pc =
    | Idle
    | RInc(again: bool)     // r_lock (again) or r_try_lock: about to count itself
    | RCheck(again: bool)   // counted, about to look at the mutex
    | RBack(again: bool)    // mutex was taken, about to uncount itself
    | RHold                 // past r_lock / r_try_lock
    | WGet(ph: Phase)       // w_lock: waiting for the mutex
    | WSpin                 // w_lock: mutex held, waiting for the readers to leave
    | WTry                  // w_try_lock: about to try the mutex
    | WTryCheck             // w_try_lock: mutex held, about to look at the readers
    | WTryBack              // w_try_lock: readers were there, about to unlock
    | WHold                 // past w_lock / w_try_lock

  datatype Lock = Lock(mtx: Sem, readers: int, pcs: map<Tid, Pc>)

  datatype Op = ReadLock | ReadTryLock | WriteLock(co: bool) | WriteTryLock

  datatype Action = Begin(t: Tid, op: Op) | Step(t: Tid) | Unlock(t: Tid)

  predicate Enabled(s: Lock, a: Action)
  {
    && a.t in s.pcs
    && (a.Begin? ==> s.pcs[a.t].Idle?)
    && (a.Unlock? ==> s.pcs[a.t].RHold? || s.pcs[a.t].WHold?)
  }

  /** CoMutex::is_lock */
  predicate IsLocked(m: Sem) { !(m.wakeup > 0) }

  /** mtx_.unlock() by `t`, which goes on at `pc`; a queued writer gets the mutex directly. */
  function Unlocked(s: Lock, t: Tid, pc: Pc): (r: Lock)
  {
    match Wake(s.mtx).1
    case Handed(u) => s.(mtx := Wake(s.mtx).0, pcs := s.pcs[u := WSpin][t := pc])
    case _ => s.(mtx := Wake(s.mtx).0, pcs := s.pcs[t := pc])
  }

  function Apply(s: Lock, a: Action): (r: Lock)
    requires Enabled(s, a)
  {
    var t := a.t;
    match a
    case Begin(_, op) =>
      s.(pcs := s.pcs[t := match op
                           case ReadLock => RInc(true)
                           case ReadTryLock => RInc(false)
                           case WriteLock(co) => WGet(if co then Call else Poll)
                           case WriteTryLock => WTry])
    case Unlock(_) =>
      if s.pcs[t].RHold? then s.(readers := s.readers - 1, pcs := s.pcs[t := Idle])
      else Unlocked(s, t, Idle)
    case Step(_) => Advance(s, t)
  }

  function Advance(s: Lock, t: Tid): (r: Lock)
    requires t in s.pcs
  {
    match s.pcs[t]
    case RInc(again) => s.(readers := s.readers + 1, pcs := s.pcs[t := RCheck(again)])
    case RCheck(again) => s.(pcs := s.pcs[t := if IsLocked(s.mtx) then RBack(again) else RHold])
    case RBack(again) => s.(readers := s.readers - 1, pcs := s.pcs[t := if again then RInc(true) else Idle])
    case WGet(ph) =>
      (match ph
       case Queued => s
       case Parked =>
         var (m, blocked) := Enqueue(s.mtx, t);
         s.(mtx := m, pcs := s.pcs[t := if blocked then WGet(Queued) else WSpin])
       case _ =>
         var (m, ok) := TakeNow(s.mtx);
         s.(mtx := m, pcs := s.pcs[t := if ok then WSpin else if ph.Poll? then WGet(Poll) else WGet(Parked)]))
    case WSpin => s.(pcs := s.pcs[t := if s.readers != 0 then WSpin else WHold])
    case WTry =>
      var (m, ok) := TakeNow(s.mtx);
      s.(mtx := m, pcs := s.pcs[t := if ok then WTryCheck else Idle])
    case WTryCheck => s.(pcs := s.pcs[t := if s.readers != 0 then WTryBack else WHold])
    case WTryBack => Unlocked(s, t, Idle)
    case _ => s   // idle, or inside a section the user leaves with Unlock
  }

  function Start(threads: set<Tid>): (s: Lock)
  {
    Lock(Sem(1, 1, []), 0, map t | t in threads :: Idle)
  }

  // ---------------------------------------------------------------- invariant

  predicate Counted(pc: Pc) { pc.RCheck? || pc.RBack? || pc.RHold? }
  predicate Owner(pc: Pc) { pc.WSpin? || pc.WTryCheck? || pc.WTryBack? || pc.WHold? }
  predicate InQueue(pc: Pc) { pc.WGet? && pc.ph.Queued? }

  ghost predicate Inv(s: Lock)
  {
    && s.readers == Count(s.pcs, Counted)
    && s.mtx.max == 1 && s.mtx.wakeup + Count(s.pcs, Owner) == 1
    && NoDup(s.mtx.queue)
    && (forall t :: t in s.mtx.queue <==> t in s.pcs && InQueue(s.pcs[t]))
    && (s.mtx.queue != [] ==> s.mtx.wakeup == 0)
    && (forall t, u :: t in s.pcs && u in s.pcs && s.pcs[t].WHold? ==> !s.pcs[u].RHold?)
  }

  lemma Moves(pcs: map<Tid, Pc>, t: Tid, pc: Pc)
    requires t in pcs
    ensures Count(pcs[t := pc], Counted) == Count(pcs, Counted) - One(Counted(pcs[t])) + One(Counted(pc))
    ensures Count(pcs[t := pc], Owner) == Count(pcs, Owner) - One(Owner(pcs[t])) + One(Owner(pc))
  {
    CountUpdate(pcs, t, pc, Counted);
    CountUpdate(pcs, t, pc, Owner);
  }

  lemma UnlockKeeps(s: Lock, t: Tid)
    requires Inv(s) && t in s.pcs && Owner(s.pcs[t])
    ensures Inv(Unlocked(s, t, Idle))
  {
    var q := s.mtx.queue;
    CountPositive(s.pcs, t, Owner);
    Moves(s.pcs, t, Idle);
    if q != [] {
      QueueTail(q);
      Moves(s.pcs, q[0], WSpin);
      Moves(s.pcs[q[0] := WSpin], t, Idle);
    }
  }

  lemma WaitKeeps(s: Lock, t: Tid)
    requires Inv(s) && t in s.pcs && s.pcs[t].WGet?
    ensures Inv(Advance(s, t))
  {
    Moves(s.pcs, t, Advance(s, t).pcs[t]);
    if s.pcs[t].ph.Parked? && s.mtx.wakeup == 0 { QueueAppend(s.mtx.queue, t); }
  }

  lemma StepKeeps(s: Lock, t: Tid)
    requires Inv(s) && t in s.pcs
    ensures Inv(Advance(s, t))
  {
    var s' := Advance(s, t);
    Moves(s.pcs, t, s'.pcs[t]);
    match s.pcs[t]
    case WTryBack => UnlockKeeps(s, t);
    case WGet(_) => WaitKeeps(s, t);
    case RCheck(_) =>
      if s'.pcs[t].RHold? { CountZero(s.pcs, Owner); }
    case WSpin => if s.readers == 0 { CountZero(s.pcs, Counted); }
    case WTryCheck => if s.readers == 0 { CountZero(s.pcs, Counted); }
    case _ =>
  }

  lemma Preserved(s: Lock, a: Action)
    requires Inv(s) && Enabled(s, a)
    ensures Inv(Apply(s, a))
  {
    match a
    case Begin(t, _) => Moves(s.pcs, t, Apply(s, a).pcs[t]);
    case Unlock(t) => if s.pcs[t].WHold? { UnlockKeeps(s, t); } else { Moves(s.pcs, t, Idle); }
    case Step(t) => StepKeeps(s, t);
  }

  ghost predicate IsRun(from: Lock, acts: seq<Action>, to: Lock)
    decreases |acts|
  {
    if acts == [] then from == to
    else Enabled(from, acts[0]) && IsRun(Apply(from, acts[0]), acts[1..], to)
  }

  lemma {:induction false} RunKeepsInv(from: Lock, acts: seq<Action>, to: Lock)
    requires Inv(from) && IsRun(from, acts, to)
    ensures Inv(to)
    decreases |acts|
  {
    if acts != [] {
      Preserved(from, acts[0]);
      RunKeepsInv(Apply(from, acts[0]), acts[1..], to);
    }
  }

  lemma Reached(threads: set<Tid>, acts: seq<Action>, s: Lock)
    requires IsRun(Start(threads), acts, s)
    ensures Inv(s)
  {
    CountNone(Start(threads).pcs, Counted);
    CountNone(Start(threads).pcs, Owner);
    RunKeepsInv(Start(threads), acts, s);
  }

  /**
    In every run of any number of threads, a writer past w_lock or w_try_lock excludes every
    reader and every other writer; the reader count is exact (so never negative); and the mutex
    of a writer about to unlock is locked, so unlock() never throws.
  */
  lemma WriterExcludesAll(threads: set<Tid>, acts: seq<Action>, s: Lock, t: Tid, u: Tid)
    requires IsRun(Start(threads), acts, s)
    requires t in s.pcs && u in s.pcs && s.pcs[t].WHold?
    ensures !s.pcs[u].RHold?
    ensures s.pcs[u].WHold? ==> u == t
    ensures !Wake(s.mtx).1.Refused?
  {
    Reached(threads, acts, s);
    CountPositive(s.pcs, t, Owner);
    if s.pcs[u].WHold? { CountUnique(s.pcs, t, u, Owner); }
  }

  lemma ReaderCountExact(threads: set<Tid>, acts: seq<Action>, s: Lock)
    requires IsRun(Start(threads), acts, s)
    ensures s.readers == Count(s.pcs, Counted) >= 0
    ensures forall t :: t in s.pcs && s.pcs[t].RHold? ==> s.readers > 0
  {
    Reached(threads, acts, s);
    forall t | t in s.pcs && s.pcs[t].RHold? ensures s.readers > 0 {
      CountPositive(s.pcs, t, Counted);
    }
  }

  /** With nobody inside or trying, the lock is back in its initial state: nothing leaks. */
  lemma QuietLockIsFree(threads: set<Tid>, acts: seq<Action>, s: Lock)
    requires IsRun(Start(threads), acts, s)
    requires forall t :: t in s.pcs ==> s.pcs[t].Idle?
    ensures s.mtx == Sem(1, 1, []) && s.readers == 0
  {
    Reached(threads, acts, s);
    CountNone(s.pcs, Counted);
    CountNone(s.pcs, Owner);
  }

  ghost predicate Nobody(s: Lock, p: Pc -> bool) { forall u :: u in s.pcs ==> !p(s.pcs[u]) }

  lemma NobodyCounts(s: Lock, p: Pc -> bool)
    ensures Nobody(s, p) <==> Count(s.pcs, p) == 0
  {
    if Nobody(s, p) { CountNone(s.pcs, p); }
    if Count(s.pcs, p) == 0 { CountZero(s.pcs, p); }
  }

  /**
    Who gets in, in every run: a reader that has counted itself goes in exactly when no writer has the
    mutex; a writer that asks for the mutex gets it exactly when no other has it; and one that has it
    goes in exactly when no reader is counted.
  */
  lemma GrantedExactly(threads: set<Tid>, acts: seq<Action>, s: Lock, t: Tid)
    requires IsRun(Start(threads), acts, s) && t in s.pcs
    ensures var pc, pc' := s.pcs[t], Apply(s, Step(t)).pcs[t];
            && (pc.RInc? ==> pc' == RCheck(pc.again))
            && (pc.RCheck? ==> pc' == if Nobody(s, Owner) then RHold else RBack(pc.again))
            && (pc.RBack? ==> pc' == if pc.again then RInc(true) else Idle)
            && (pc.WTry? ==> pc' == if Nobody(s, Owner) then WTryCheck else Idle)
            && (pc.WGet? && !pc.ph.Queued? ==> (pc'.WSpin? <==> Nobody(s, Owner)) && (pc'.WSpin? || pc'.WGet?))
            && (pc.WTryCheck? ==> pc' == if Nobody(s, Counted) then WHold else WTryBack)
            && (pc.WSpin? ==> pc' == if Nobody(s, Counted) then WHold else WSpin)
  {
    Reached(threads, acts, s);
    NobodyCounts(s, Owner);
    NobodyCounts(s, Counted);
  }

  /** A thread alone gets whatever it asks for, and leaves the lock as it found it. */
  lemma AloneGetsIn(threads: set<Tid>, acts: seq<Action>, s: Lock, t: Tid, op: Op)
    requires IsRun(Start(threads), acts, s) && t in s.pcs && forall u :: u in s.pcs ==> s.pcs[u].Idle?
    ensures var s' := Apply(Apply(Apply(s, Begin(t, op)), Step(t)), Step(t));
            && s'.pcs[t] == (if op.ReadLock? || op.ReadTryLock? then RHold else WHold)
            && Apply(s', Unlock(t)) == s
  {
    QuietLockIsFree(threads, acts, s);
    var s' := Apply(Apply(Apply(s, Begin(t, op)), Step(t)), Step(t));
    assert Apply(s', Unlock(t)).pcs == s.pcs;
  }

  /** A writer that queued for the mutex has it as soon as the one before it leaves, and nobody else. */
  lemma UnlockHandsOver(threads: set<Tid>, acts: seq<Action>, s: Lock, t: Tid)
    requires IsRun(Start(threads), acts, s) && t in s.pcs && s.pcs[t].WHold?
    ensures var s' := Apply(s, Unlock(t));
            && s'.pcs[t].Idle?
            && (s.mtx.queue == [] ==> Nobody(s', Owner) && s'.mtx.wakeup == 1)
            && (s.mtx.queue != [] ==> s.mtx.queue[0] in s'.pcs && s'.pcs[s.mtx.queue[0]].WSpin? && s'.mtx.queue == s.mtx.queue[1..])
  {
    Reached(threads, acts, s);
    Preserved(s, Unlock(t));
    NobodyCounts(Apply(s, Unlock(t)), Owner);
    if s.mtx.queue != [] {
      assert s.mtx.queue[0] in s.mtx.queue;
    }
  }
}
