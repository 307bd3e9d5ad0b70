/**
  The channel: two semaphores, a queue and a coroutine mutex, used by any number of
  threads, each at its own program point.

  Permits of `w` are slots a writer may fill, permits of `r` are items a reader may take.
  Every step is one critical section of the source: a semaphore operation, or one access
  to the queue made while holding the mutex.
*/
module Channel {
  import opened Counting
  import opened Lists
  import opened Semaphore

  /** Progress of one wait; Poll is the retry loop used outside a coroutine. */
  datatype Phase = Call | Poll | Parked | Queued

  function First(co: bool): Phase { if co then Call else Poll }

  datatype Pc<V> =
    | Idle
    | WGet(v: V, ph: Phase)    // operator<<: wait for a slot
    | WTry(v: V, co: bool)     // TryPush: ask for a slot
    | WLock(v: V, ph: Phase)   // slot held, wait for the mutex
    | WPush(v: V)              // slot and mutex held
    | WUnlock                  // item in the queue, mutex held
    | WSignal                  // item in the queue, readers not told yet
    | RGrant(blocking: bool, co: bool)  // about to offer a slot to the writers
    | RGet(ph: Phase)          // operator>>: wait for an item
    | RTry(co: bool)           // TryPop: ask for an item
    | RUndo(co: bool)          // TryPop: no item, try to take the slot back
    | RLock(ph: Phase)         // item reserved, wait for the mutex
    | RFront                   // item reserved, mutex held
    | RPop(v: V)               // front value read, mutex held
    | RUnlock                  // item removed, mutex held

  datatype SemId = W | R | M

  datatype Chan<V> = Chan(w: Sem, r: Sem, m: Sem, queue: seq<V>, pcs: map<Tid, Pc<V>>,
                          pushed: seq<V>, popped: seq<V>,
                          refusedW: nat, refusedR: nat)   // Wakeup calls that found the ceiling reached

  datatype Op<V> = Write(v: V, co: bool) | TryPush(v: V, co: bool) | Read(co: bool) | TryPop(co: bool)

  datatype Action<V> = Begin(t: Tid, op: Op<V>) | Step(t: Tid)

  function PcWait<V>(pc: Pc<V>): (r: (SemId, bool))   // semaphore, and whether queued on it
  {
    match pc
    case WGet(_, ph) => (W, ph.Queued?)
    case RGet(ph) => (R, ph.Queued?)
    case WLock(_, ph) => (M, ph.Queued?)
    case RLock(ph) => (M, ph.Queued?)
    case _ => (M, false)
  }

  predicate On<V>(pc: Pc<V>, id: SemId) { PcWait(pc) == (id, true) }

  /** Where a thread continues once its wait succeeded. */
  function Granted<V>(pc: Pc<V>): (r: Pc<V>)
  {
    match pc
    case WGet(v, ph) => WLock(v, First(!ph.Poll?))
    case RGet(ph) => RLock(First(!ph.Poll?))
    case WLock(v, _) => WPush(v)
    case RLock(_) => RFront
    case _ => pc
  }

  function WithPhase<V>(pc: Pc<V>, ph: Phase): (r: Pc<V>)
  {
    match pc
    case WGet(v, _) => WGet(v, ph)
    case RGet(_) => RGet(ph)
    case WLock(v, _) => WLock(v, ph)
    case RLock(_) => RLock(ph)
    case _ => pc
  }

  /** One critical section of a wait: the semaphore, and the thread's next program point. */
  function WaitStep<V>(s: Sem, t: Tid, pc: Pc<V>, ph: Phase): (r: (Sem, Pc<V>))
  {
    match ph
    case Call => if TakeNow(s).1 then (TakeNow(s).0, Granted(pc)) else (s, WithPhase(pc, Parked))
    case Poll => if TakeNow(s).1 then (TakeNow(s).0, Granted(pc)) else (s, pc)
    case Parked => if Enqueue(s, t).1 then (Enqueue(s, t).0, WithPhase(pc, Queued)) else (Enqueue(s, t).0, Granted(pc))
    case Queued => (s, pc)
  }

  /** The thread released by a Wakeup, if any, moves on. */
  function Release<V>(pcs: map<Tid, Pc<V>>, w: Woken): (r: map<Tid, Pc<V>>)
  {
    if w.Handed? && w.task in pcs then pcs[w.task := Granted(pcs[w.task])] else pcs
  }

  predicate Enabled<V>(s: Chan<V>, a: Action<V>)
  {
    && a.t in s.pcs
    && (a.Begin? ==> s.pcs[a.t].Idle?)
    // queue_.front() and queue_.pop() are undefined on an empty queue
    && (a.Step? && (s.pcs[a.t].RFront? || s.pcs[a.t].RPop?) ==> s.queue != [])
  }

  function Apply<V>(s: Chan<V>, a: Action<V>): (r: Chan<V>)
    requires Enabled(s, a)
  {
    match a
    case Begin(t, Write(v, co)) => s.(pcs := s.pcs[t := WGet(v, First(co))])
    case Begin(t, TryPush(v, co)) => s.(pcs := s.pcs[t := WTry(v, co)])
    case Begin(t, Read(co)) => s.(pcs := s.pcs[t := RGrant(true, co)])
    case Begin(t, TryPop(co)) => s.(pcs := s.pcs[t := RGrant(false, co)])
    case Step(t) => Advance(s, t)
  }

  function Advance<V>(s: Chan<V>, t: Tid): (r: Chan<V>)
    requires Enabled(s, Step(t))
  {
    match s.pcs[t]
    case Idle => s
    case WGet(v, ph) =>
      var (w, pc) := WaitStep(s.w, t, s.pcs[t], ph);
      s.(w := w, pcs := s.pcs[t := pc])
    case WTry(v, co) =>
      if TakeNow(s.w).1 then s.(w := TakeNow(s.w).0, pcs := s.pcs[t := WLock(v, First(co))])
      else s.(pcs := s.pcs[t := Idle])
    case WLock(v, ph) =>
      var (m, pc) := WaitStep(s.m, t, s.pcs[t], ph);
      s.(m := m, pcs := s.pcs[t := pc])
    case WPush(v) => s.(queue := s.queue + [v], pushed := s.pushed + [v], pcs := s.pcs[t := WUnlock])
    case WUnlock => s.(m := Wake(s.m).0, pcs := Release(s.pcs, Wake(s.m).1)[t := WSignal])
    case WSignal => s.(r := Wake(s.r).0, refusedR := s.refusedR + One(Wake(s.r).1.Refused?),
                       pcs := Release(s.pcs, Wake(s.r).1)[t := Idle])
    case RGrant(blocking, co) =>
      s.(w := Wake(s.w).0, refusedW := s.refusedW + One(Wake(s.w).1.Refused?),
         pcs := Release(s.pcs, Wake(s.w).1)[t := if blocking then RGet(First(co)) else RTry(co)])
    case RGet(ph) =>
      var (r, pc) := WaitStep(s.r, t, s.pcs[t], ph);
      s.(r := r, pcs := s.pcs[t := pc])
    case RTry(co) =>
      if TakeNow(s.r).1 then s.(r := TakeNow(s.r).0, pcs := s.pcs[t := RLock(First(co))])
      else s.(pcs := s.pcs[t := RUndo(co)])
    case RUndo(co) =>
      if TakeNow(s.w).1 then s.(w := TakeNow(s.w).0, pcs := s.pcs[t := Idle])
      else s.(pcs := s.pcs[t := RTry(co)])
    case RLock(ph) =>
      var (m, pc) := WaitStep(s.m, t, s.pcs[t], ph);
      s.(m := m, pcs := s.pcs[t := pc])
    case RFront => s.(pcs := s.pcs[t := RPop(s.queue[0])])
    case RPop(v) => s.(queue := s.queue[1..], popped := s.popped + [v], pcs := s.pcs[t := RUnlock])
    case RUnlock => s.(m := Wake(s.m).0, pcs := Release(s.pcs, Wake(s.m).1)[t := Idle])
  }

  function Start<V>(capacity: nat, max: nat, threads: set<Tid>): (s: Chan<V>)
  {
    Chan(Sem(capacity, max, []), Sem(0, max, []), Sem(1, 1, []), [], map t | t in threads :: Idle, [], [], 0, 0)
  }

  // ---------------------------------------------------------------- invariant

  predicate Locked<V>(pc: Pc<V>) { pc.WPush? || pc.WUnlock? || pc.RFront? || pc.RPop? || pc.RUnlock? }

  /** An item is reserved for this reader and still in the queue. */
  predicate Reserved<V>(pc: Pc<V>) { pc.RLock? || pc.RFront? || pc.RPop? }

  /** This writer's item is in the queue, readers have not been told. */
  predicate Untold<V>(pc: Pc<V>) { pc.WUnlock? || pc.WSignal? }

  predicate HasSlot<V>(pc: Pc<V>) { pc.WLock? || pc.WPush? }

  /** A read in progress: it has offered its slot and has neither its item nor the slot back. */
  predicate Reading<V>(pc: Pc<V>) { pc.RGet? || pc.RTry? || pc.RUndo? || Reserved(pc) }

  ghost predicate QueueOk<V>(s: Sem, pcs: map<Tid, Pc<V>>, id: SemId)
  {
    && NoDup(s.queue)
    && (forall t :: t in s.queue <==> t in pcs && On(pcs[t], id))
    && (s.queue != [] ==> s.wakeup == 0)
  }

  ghost predicate Numbers<V>(capacity: nat, s: Chan<V>)
  {
    && s.m.max == 1 && s.m.wakeup + Count(s.pcs, Locked) == 1
    && s.r.wakeup + Count(s.pcs, Reserved) + Count(s.pcs, Untold) + s.refusedR == |s.queue|
    && s.w.wakeup + Count(s.pcs, HasSlot) + |s.queue| + s.refusedW == capacity + Count(s.pcs, Reading)
  }

  ghost predicate Queues<V>(s: Chan<V>)
  {
    QueueOk(s.w, s.pcs, W) && QueueOk(s.r, s.pcs, R) && QueueOk(s.m, s.pcs, M)
  }

  ghost predicate Data<V>(s: Chan<V>)
  {
    && s.pushed == s.popped + s.queue
    && (forall t :: t in s.pcs && s.pcs[t].RPop? ==> s.queue != [] && s.pcs[t].v == s.queue[0])
  }

  ghost predicate Inv<V>(capacity: nat, s: Chan<V>)
  {
    Queues(s) && Numbers(capacity, s) && Data(s)
  }

  /** Effect on all five counts of one thread moving. */
  lemma Moves<V>(pcs: map<Tid, Pc<V>>, t: Tid, pc: Pc<V>)
    requires t in pcs
    ensures var q := pcs[t := pc];
            && Count(q, Locked) == Count(pcs, Locked) - One(Locked(pcs[t])) + One(Locked(pc))
            && Count(q, Reserved) == Count(pcs, Reserved) - One(Reserved(pcs[t])) + One(Reserved(pc))
            && Count(q, Untold) == Count(pcs, Untold) - One(Untold(pcs[t])) + One(Untold(pc))
            && Count(q, HasSlot) == Count(pcs, HasSlot) - One(HasSlot(pcs[t])) + One(HasSlot(pc))
            && Count(q, Reading) == Count(pcs, Reading) - One(Reading(pcs[t])) + One(Reading(pc))
  {
    CountUpdate(pcs, t, pc, Locked);
    CountUpdate(pcs, t, pc, Reserved);
    CountUpdate(pcs, t, pc, Untold);
    CountUpdate(pcs, t, pc, HasSlot);
    CountUpdate(pcs, t, pc, Reading);
  }

  /** A thread joining its queue, or going on with a permit, keeps that queue and the others in order. */
  lemma WaitKeepsQueue<V>(s: Sem, pcs: map<Tid, Pc<V>>, t: Tid, ph: Phase, id: SemId)
    requires QueueOk(s, pcs, id) && t in pcs
    requires ph.Queued? == On(pcs[t], id)
    requires On(WithPhase(pcs[t], Queued), id) && !On(WithPhase(pcs[t], Parked), id) && !On(Granted(pcs[t]), id)
    requires ph.Queued? ==> WithPhase(pcs[t], Queued) == pcs[t]
    ensures var (s', pc) := WaitStep(s, t, pcs[t], ph); QueueOk(s', pcs[t := pc], id)
  {
    if ph.Parked? && s.wakeup == 0 { QueueAppend(s.queue, t); }
  }

  /** Waking takes exactly the head out of the queue. */
  lemma WakeKeepsQueue<V>(s: Sem, pcs: map<Tid, Pc<V>>, t: Tid, pc: Pc<V>, id: SemId)
    requires QueueOk(s, pcs, id) && t in pcs && !On(pcs[t], id) && !On(pc, id)
    requires forall u :: u in pcs && On(pcs[u], id) ==> !On(Granted(pcs[u]), id)
    ensures QueueOk(Wake(s).0, Release(pcs, Wake(s).1)[t := pc], id)
    ensures Wake(s).1.Handed? ==> Wake(s).1.task in pcs && On(pcs[Wake(s).1.task], id) && Wake(s).1.task != t
  {
    if s.queue != [] { QueueTail(s.queue); }
  }

  /** Threads that move between points outside a queue do not disturb it. */
  lemma OthersKeepQueue<V>(s: Sem, pcs: map<Tid, Pc<V>>, t: Tid, pc: Pc<V>, id: SemId)
    requires QueueOk(s, pcs, id) && t in pcs && !On(pcs[t], id) && !On(pc, id)
    ensures QueueOk(s, pcs[t := pc], id)
  {
  }

  predicate Waiting<V>(pc: Pc<V>) { pc.WGet? || pc.WLock? || pc.RGet? || pc.RLock? }

  predicate Waking<V>(pc: Pc<V>) { pc.WUnlock? || pc.WSignal? || pc.RGrant? || pc.RUnlock? }

  lemma WaitQueues<V>(s: Chan<V>, t: Tid)
    requires Queues(s) && Enabled(s, Step(t)) && Waiting(s.pcs[t])
    ensures Queues(Advance(s, t))
  {
    var pc, pc' := s.pcs[t], Advance(s, t).pcs[t];
    match pc
    case WGet(_, ph) =>
      WaitKeepsQueue(s.w, s.pcs, t, ph, W);
      OthersKeepQueue(s.r, s.pcs, t, pc', R);
      OthersKeepQueue(s.m, s.pcs, t, pc', M);
    case RGet(ph) =>
      WaitKeepsQueue(s.r, s.pcs, t, ph, R);
      OthersKeepQueue(s.w, s.pcs, t, pc', W);
      OthersKeepQueue(s.m, s.pcs, t, pc', M);
    case WLock(_, ph) =>
      WaitKeepsQueue(s.m, s.pcs, t, ph, M);
      OthersKeepQueue(s.w, s.pcs, t, pc', W);
      OthersKeepQueue(s.r, s.pcs, t, pc', R);
    case RLock(ph) =>
      WaitKeepsQueue(s.m, s.pcs, t, ph, M);
      OthersKeepQueue(s.w, s.pcs, t, pc', W);
      OthersKeepQueue(s.r, s.pcs, t, pc', R);
  }

  lemma WaitLockNumbers<V>(capacity: nat, s: Chan<V>, t: Tid)
    requires Numbers(capacity, s) && Enabled(s, Step(t)) && (s.pcs[t].WLock? || s.pcs[t].RLock?)
    ensures Numbers(capacity, Advance(s, t))
  {
    Moves(s.pcs, t, Advance(s, t).pcs[t]);
  }

  lemma WaitSlotNumbers<V>(capacity: nat, s: Chan<V>, t: Tid)
    requires Numbers(capacity, s) && Enabled(s, Step(t)) && Waiting(s.pcs[t]) && !s.pcs[t].WLock? && !s.pcs[t].RLock?
    ensures Numbers(capacity, Advance(s, t))
  {
    Moves(s.pcs, t, Advance(s, t).pcs[t]);
  }

  lemma WaitNumbers<V>(capacity: nat, s: Chan<V>, t: Tid)
    requires Numbers(capacity, s) && Enabled(s, Step(t)) && Waiting(s.pcs[t])
    ensures Numbers(capacity, Advance(s, t))
  {
    if s.pcs[t].WLock? || s.pcs[t].RLock? { WaitLockNumbers(capacity, s, t); } else { WaitSlotNumbers(capacity, s, t); }
  }

  /** The semaphore a waking thread signals. */
  function Signals<V>(pc: Pc<V>): SemId
  {
    match pc
    case WSignal => R
    case RGrant(_, _) => W
    case _ => M
  }

  function Pick<V>(s: Chan<V>, id: SemId): Sem
  {
    match id
    case W => s.w
    case R => s.r
    case M => s.m
  }

  lemma GrantedIsOffQueue<V>(pc: Pc<V>, id: SemId, other: SemId)
    requires On(pc, id)
    ensures !On(Granted(pc), other)
    ensures other != id ==> !On(pc, other)
  {
  }

  lemma WakeQueues<V>(s: Chan<V>, t: Tid)
    requires Queues(s) && Enabled(s, Step(t)) && Waking(s.pcs[t])
    ensures Queues(Advance(s, t))
    ensures var w := Wake(Pick(s, Signals(s.pcs[t]))).1;
            w.Handed? ==> w.task in s.pcs && w.task != t && On(s.pcs[w.task], Signals(s.pcs[t]))
  {
    var id, pc' := Signals(s.pcs[t]), Advance(s, t).pcs[t];
    forall u | u in s.pcs && On(s.pcs[u], id) ensures !On(Granted(s.pcs[u]), id) {
      GrantedIsOffQueue(s.pcs[u], id, id);
    }
    WakeKeepsQueue(Pick(s, id), s.pcs, t, pc', id);
    WakeKeepsOthers(s, t, pc', id, W);
    WakeKeepsOthers(s, t, pc', id, R);
    WakeKeepsOthers(s, t, pc', id, M);
  }

  lemma WakeKeepsOthers<V>(s: Chan<V>, t: Tid, pc': Pc<V>, id: SemId, other: SemId)
    requires Queues(s) && t in s.pcs && !On(s.pcs[t], other) && !On(pc', other)
    requires var w := Wake(Pick(s, id)).1;
             w.Handed? ==> w.task in s.pcs && w.task != t && On(s.pcs[w.task], id)
    ensures other != id ==>
              QueueOk(Pick(s, other), Release(s.pcs, Wake(Pick(s, id)).1)[t := pc'], other)
  {
    if other != id {
      var w := Wake(Pick(s, id)).1;
      if w.Handed? {
        GrantedIsOffQueue(s.pcs[w.task], id, other);
        OthersKeepQueue(Pick(s, other), s.pcs, w.task, Granted(s.pcs[w.task]), other);
      }
      OthersKeepQueue(Pick(s, other), Release(s.pcs, w), t, pc', other);
    }
  }

  lemma ReleaseMoves<V>(pcs: map<Tid, Pc<V>>, w: Woken, id: SemId)
    requires w.Handed? ==> w.task in pcs && On(pcs[w.task], id)
    ensures var q, h := Release(pcs, w), One(w.Handed?);
            && Count(q, Locked) == Count(pcs, Locked) + (if id.M? then h else 0)
            && Count(q, Reserved) == Count(pcs, Reserved) + (if id.R? then h else 0)
            && Count(q, Untold) == Count(pcs, Untold)
            && Count(q, HasSlot) == Count(pcs, HasSlot) + (if id.W? then h else 0)
            && Count(q, Reading) == Count(pcs, Reading)
  {
    if w.Handed? { Moves(pcs, w.task, Granted(pcs[w.task])); }
  }

  /** A released thread now holds what was signalled: a slot, an item or the mutex. */
  lemma WakeNumbers<V>(capacity: nat, s: Chan<V>, t: Tid, pc': Pc<V>)
    requires Numbers(capacity, s) && Enabled(s, Step(t)) && Waking(s.pcs[t])
    requires pc' == Advance(s, t).pcs[t]
    requires var w := Wake(Pick(s, Signals(s.pcs[t]))).1;
             w.Handed? ==> w.task in s.pcs && w.task != t && On(s.pcs[w.task], Signals(s.pcs[t]))
    ensures Numbers(capacity, Advance(s, t))
  {
    var id := Signals(s.pcs[t]);
    var w := Wake(Pick(s, id)).1;
    ReleaseMoves(s.pcs, w, id);
    Moves(Release(s.pcs, w), t, pc');
    match s.pcs[t]
    case WUnlock =>
    case WSignal =>
    case RGrant(_, _) =>
    case RUnlock =>
  }

  lemma LocalQueues<V>(s: Chan<V>, t: Tid)
    requires Queues(s) && Enabled(s, Step(t)) && !Waking(s.pcs[t]) && !Waiting(s.pcs[t])
    ensures Queues(Advance(s, t))
  {
    var pc' := Advance(s, t).pcs[t];
    OthersKeepQueue(s.w, s.pcs, t, pc', W);
    OthersKeepQueue(s.r, s.pcs, t, pc', R);
    OthersKeepQueue(s.m, s.pcs, t, pc', M);
  }

  lemma LocalNumbers<V>(capacity: nat, s: Chan<V>, t: Tid)
    requires Numbers(capacity, s) && Enabled(s, Step(t)) && !Waking(s.pcs[t]) && !Waiting(s.pcs[t])
    ensures Numbers(capacity, Advance(s, t))
  {
    Moves(s.pcs, t, Advance(s, t).pcs[t]);
  }

  /** Holding the mutex is exclusive, so the value read is still at the front when it is removed. */
  lemma PopData<V>(capacity: nat, s: Chan<V>, t: Tid)
    requires Data(s) && Numbers(capacity, s) && Enabled(s, Step(t)) && s.pcs[t].RPop?
    ensures Data(Advance(s, t))
  {
    assert s.popped + s.queue == (s.popped + [s.queue[0]]) + s.queue[1..];
    forall u | u in s.pcs && s.pcs[u].RPop? ensures u == t {
      CountUnique(s.pcs, u, t, Locked);
    }
  }

  lemma WakeData<V>(s: Chan<V>, t: Tid)
    requires Data(s) && Enabled(s, Step(t)) && Waking(s.pcs[t])
    ensures Data(Advance(s, t))
  {
    var s' := Advance(s, t);
    forall u | u in s'.pcs && s'.pcs[u].RPop? ensures u in s.pcs && s.pcs[u] == s'.pcs[u] {
    }
  }

  lemma OtherData<V>(s: Chan<V>, t: Tid)
    requires Data(s) && Enabled(s, Step(t)) && !Waking(s.pcs[t]) && !s.pcs[t].RPop?
    ensures Data(Advance(s, t))
  {
  }

  lemma BeginKeeps<V>(capacity: nat, s: Chan<V>, t: Tid, pc': Pc<V>)
    requires Inv(capacity, s) && t in s.pcs && s.pcs[t].Idle?
    requires pc'.WGet? || pc'.WTry? || pc'.RGrant?
    requires !PcWait(pc').1
    ensures Inv(capacity, s.(pcs := s.pcs[t := pc']))
  {
    Moves(s.pcs, t, pc');
    OthersKeepQueue(s.w, s.pcs, t, pc', W);
    OthersKeepQueue(s.r, s.pcs, t, pc', R);
    OthersKeepQueue(s.m, s.pcs, t, pc', M);
  }

  lemma StepKeeps<V>(capacity: nat, s: Chan<V>, t: Tid)
    requires Inv(capacity, s) && Enabled(s, Step(t))
    ensures Inv(capacity, Advance(s, t))
  {
    if Waking(s.pcs[t]) {
      WakeQueues(s, t);
      WakeNumbers(capacity, s, t, Advance(s, t).pcs[t]);
      WakeData(s, t);
    } else {
      if Waiting(s.pcs[t]) {
        WaitQueues(s, t);
        WaitNumbers(capacity, s, t);
      } else {
        LocalQueues(s, t);
        LocalNumbers(capacity, s, t);
      }
      if s.pcs[t].RPop? { PopData(capacity, s, t); } else { OtherData(s, t); }
    }
  }

  lemma Preserved<V>(capacity: nat, s: Chan<V>, a: Action<V>)
    requires Inv(capacity, s) && Enabled(s, a)
    ensures Inv(capacity, Apply(s, a))
  {
    match a
    case Begin(t, Write(v, co)) => BeginKeeps(capacity, s, t, WGet(v, First(co)));
    case Begin(t, TryPush(v, co)) => BeginKeeps(capacity, s, t, WTry(v, co));
    case Begin(t, Read(co)) => BeginKeeps(capacity, s, t, RGrant(true, co));
    case Begin(t, TryPop(co)) => BeginKeeps(capacity, s, t, RGrant(false, co));
    case Step(t) => StepKeeps(capacity, s, t);
  }

  /** A reader about to touch the queue always finds an item there. */
  lemma NeverStuck<V>(capacity: nat, s: Chan<V>, t: Tid)
    requires Inv(capacity, s) && t in s.pcs
    ensures Enabled(s, Step(t))
    ensures (s.pcs[t].RLock? || s.pcs[t].RFront? || s.pcs[t].RPop?) ==> s.queue != []
  {
    if Reserved(s.pcs[t]) { CountPositive(s.pcs, t, Reserved); }
  }

  // ---------------------------------------------------------------- theorems over runs

  ghost predicate IsRun<V>(from: Chan<V>, acts: seq<Action<V>>, to: Chan<V>)
    decreases |acts|
  {
    if acts == [] then from == to
    else Enabled(from, acts[0]) && IsRun(Apply(from, acts[0]), acts[1..], to)
  }

  lemma {:induction false} RunKeepsInv<V>(capacity: nat, from: Chan<V>, acts: seq<Action<V>>, to: Chan<V>)
    requires Inv(capacity, from) && IsRun(from, acts, to)
    ensures Inv(capacity, to)
    decreases |acts|
  {
    if acts != [] {
      Preserved(capacity, from, acts[0]);
      RunKeepsInv(capacity, Apply(from, acts[0]), acts[1..], to);
    }
  }

  lemma {:induction false} RunSnoc<V>(from: Chan<V>, acts: seq<Action<V>>, s: Chan<V>, a: Action<V>)
    requires IsRun(from, acts, s) && Enabled(s, a)
    ensures IsRun(from, acts + [a], Apply(s, a))
    decreases |acts|
  {
    if acts == [] {
      assert IsRun(Apply(s, a), [], Apply(s, a));
    } else {
      RunSnoc(Apply(from, acts[0]), acts[1..], s, a);
      assert (acts + [a])[1..] == acts[1..] + [a];
    }
  }

  lemma Reached<V>(capacity: nat, max: nat, threads: set<Tid>, acts: seq<Action<V>>, s: Chan<V>)
    requires IsRun(Start(capacity, max, threads), acts, s)
    ensures Inv(capacity, s)
  {
    var s0 := Start<V>(capacity, max, threads);
    CountNone(s0.pcs, Locked);
    CountNone(s0.pcs, Reserved);
    CountNone(s0.pcs, Untold);
    CountNone(s0.pcs, HasSlot);
    CountNone(s0.pcs, Reading);
    RunKeepsInv(capacity, s0, acts, s);
  }

  /**
    For every capacity, every ceiling, every number of threads and every interleaving of blocking
    and trying reads and writes: no step ever takes from an empty queue, values come out in the
    order they went in, and the queue holds at most capacity plus the reads in progress.
  */
  lemma ChannelSafety<V>(capacity: nat, max: nat, threads: set<Tid>, acts: seq<Action<V>>, s: Chan<V>)
    requires IsRun(Start(capacity, max, threads), acts, s)
    ensures forall t :: t in s.pcs ==> Enabled(s, Step(t))
    ensures s.popped <= s.pushed && s.pushed[|s.popped|..] == s.queue
    ensures |s.queue| <= capacity + Count(s.pcs, Reading)
  {
    Reached(capacity, max, threads, acts, s);
    forall t | t in s.pcs ensures Enabled(s, Step(t)) {
      NeverStuck(capacity, s, t);
    }
  }

  // ---------------------------------------------------------------- the ceiling

  /** By how much the capacity and one slot per thread exceed the ceiling. */
  function Excess(capacity: nat, max: nat, threads: nat): nat
  {
    if capacity + threads > max then capacity + threads - max else 0
  }

  ghost predicate Ceiling<V>(capacity: nat, max: nat, n: nat, s: Chan<V>)
  {
    && s.w.max == max && s.r.max == max && |s.pcs| == n
    && s.refusedW + s.refusedR <= Excess(capacity, max, n)
  }

  /** A refused Wakeup finds all permits stored, which only the reads in progress can have brought about. */
  lemma RefusalIsCovered<V>(capacity: nat, max: nat, n: nat, s: Chan<V>, t: Tid)
    requires Inv(capacity, s) && Ceiling(capacity, max, n, s) && t in s.pcs
    ensures s.pcs[t].RGrant? && Wake(s.w).1.Refused? ==> s.refusedW + s.refusedR < Excess(capacity, max, n)
    ensures s.pcs[t].WSignal? && Wake(s.r).1.Refused? ==> s.refusedW + s.refusedR < Excess(capacity, max, n)
  {
    if s.pcs[t].RGrant? || s.pcs[t].WSignal? { CountOthers(s.pcs, t, Reading); }
    if s.pcs[t].WSignal? { CountPositive(s.pcs, t, Untold); }
  }

  ghost predicate SameBounds<V>(s: Chan<V>, s': Chan<V>)
  {
    s'.w.max == s.w.max && s'.r.max == s.r.max && s'.pcs.Keys == s.pcs.Keys
  }

  lemma WakeKeepsBounds<V>(s: Chan<V>, t: Tid)
    requires Enabled(s, Step(t)) && Waking(s.pcs[t])
    ensures SameBounds(s, Advance(s, t))
  {
  }

  lemma OtherKeepsBounds<V>(s: Chan<V>, t: Tid)
    requires Enabled(s, Step(t)) && !Waking(s.pcs[t])
    ensures SameBounds(s, Advance(s, t))
  {
  }

  lemma StepKeepsBounds<V>(s: Chan<V>, a: Action<V>)
    requires Enabled(s, a)
    ensures SameBounds(s, Apply(s, a))
  {
    if a.Step? {
      if Waking(s.pcs[a.t]) { WakeKeepsBounds(s, a.t); } else { OtherKeepsBounds(s, a.t); }
    }
  }

  lemma StepRefuses<V>(s: Chan<V>, a: Action<V>)
    requires Enabled(s, a)
    ensures Apply(s, a).refusedW == s.refusedW + One(a.Step? && s.pcs[a.t].RGrant? && Wake(s.w).1.Refused?)
    ensures Apply(s, a).refusedR == s.refusedR + One(a.Step? && s.pcs[a.t].WSignal? && Wake(s.r).1.Refused?)
  {
  }

  lemma StepKeepsCeiling<V>(capacity: nat, max: nat, n: nat, s: Chan<V>, a: Action<V>)
    requires Inv(capacity, s) && Ceiling(capacity, max, n, s) && Enabled(s, a)
    ensures Ceiling(capacity, max, n, Apply(s, a))
  {
    StepKeepsBounds(s, a);
    StepRefuses(s, a);
    SameKeys(Apply(s, a).pcs, s.pcs);
    RefusalIsCovered(capacity, max, n, s, a.t);
  }

  lemma {:induction false} RunKeepsCeiling<V>(capacity: nat, max: nat, n: nat, from: Chan<V>, acts: seq<Action<V>>, to: Chan<V>)
    requires Inv(capacity, from) && Ceiling(capacity, max, n, from) && IsRun(from, acts, to)
    ensures Ceiling(capacity, max, n, to)
    decreases |acts|
  {
    if acts != [] {
      Preserved(capacity, from, acts[0]);
      StepKeepsCeiling(capacity, max, n, from, acts[0]);
      RunKeepsCeiling(capacity, max, n, Apply(from, acts[0]), acts[1..], to);
    }
  }

  /** In every run at most Excess Wakeups are refused; none if capacity plus threads fit below the ceiling. */
  lemma RefusalsBounded<V>(capacity: nat, max: nat, threads: set<Tid>, acts: seq<Action<V>>, s: Chan<V>)
    requires IsRun(Start(capacity, max, threads), acts, s)
    ensures Ceiling(capacity, max, |threads|, s)
  {
    var s0 := Start<V>(capacity, max, threads);
    Reached(capacity, max, threads, [], s0);
    assert s0.pcs.Keys == threads;
    assert |s0.pcs| == |s0.pcs.Keys|;
    RunKeepsCeiling(capacity, max, |threads|, s0, acts, s);
  }

  /** Free slots, slots in writers' hands and queued items make up the capacity plus one slot per read in progress. */
  ghost predicate SlotsAddUp<V>(capacity: nat, s: Chan<V>)
  {
    && s.w.wakeup + Count(s.pcs, HasSlot) + |s.queue| == capacity + Count(s.pcs, Reading)
    && s.r.wakeup + Count(s.pcs, Reserved) + Count(s.pcs, Untold) == |s.queue|
  }

  /**
    In every run at most Excess slots and items are ever out of account.  So with capacity plus
    threads below the ceiling slots are conserved exactly: a TryPop that fails has given back the
    slot it offered, and when all is idle the free slots and the items make up the capacity.
  */
  lemma SlotsConserved<V>(capacity: nat, max: nat, threads: set<Tid>, acts: seq<Action<V>>, s: Chan<V>)
    requires IsRun(Start(capacity, max, threads), acts, s)
    ensures var slots := capacity + Count(s.pcs, Reading) - (s.w.wakeup + Count(s.pcs, HasSlot) + |s.queue|);
            var items := |s.queue| - (s.r.wakeup + Count(s.pcs, Reserved) + Count(s.pcs, Untold));
            0 <= slots && 0 <= items && slots + items <= Excess(capacity, max, |threads|)
    ensures capacity + |threads| <= max ==> SlotsAddUp(capacity, s)
    ensures (forall t :: t in s.pcs ==> s.pcs[t].Idle?) ==>
              capacity - Excess(capacity, max, |threads|) <= s.w.wakeup + s.r.wakeup <= capacity
  {
    Reached(capacity, max, threads, acts, s);
    RefusalsBounded(capacity, max, threads, acts, s);
    if forall t :: t in s.pcs ==> s.pcs[t].Idle? {
      CountNone(s.pcs, Reserved);
      CountNone(s.pcs, Untold);
      CountNone(s.pcs, HasSlot);
      CountNone(s.pcs, Reading);
    }
  }

  predicate AtRest<V>(pc: Pc<V>) { pc.Idle? || On(pc, W) || On(pc, R) }

  lemma RestingHoldNothing<V>(s: Chan<V>)
    requires forall t :: t in s.pcs ==> AtRest(s.pcs[t])
    ensures Count(s.pcs, Reserved) == 0 && Count(s.pcs, Untold) == 0 && Count(s.pcs, HasSlot) == 0
  {
    CountNone(s.pcs, Reserved);
    CountNone(s.pcs, Untold);
    CountNone(s.pcs, HasSlot);
  }

  lemma SleepingReaderCounts<V>(s: Chan<V>)
    requires QueueOk(s.r, s.pcs, R) && s.r.queue != []
    ensures Count(s.pcs, Reading) > 0 && s.r.wakeup == 0
  {
    var t := s.r.queue[0];
    assert t in s.r.queue;
    assert t in s.pcs && Reading(s.pcs[t]);
    CountPositive(s.pcs, t, Reading);
  }

  lemma SleepingWriterFindsNone<V>(s: Chan<V>)
    requires QueueOk(s.w, s.pcs, W) && s.w.queue != []
    ensures s.w.wakeup == 0
  {
  }

  /**
    Once every thread is idle or asleep in a queue, a reader and a writer are both asleep only if
    there are more threads than the ceiling.  A sleeping reader means an empty queue and a sleeping
    writer a full one, but for what the ceiling has cost.
  */
  lemma NoMutualBlocking<V>(capacity: nat, max: nat, threads: set<Tid>, acts: seq<Action<V>>, s: Chan<V>)
    requires IsRun(Start(capacity, max, threads), acts, s)
    requires forall t :: t in s.pcs ==> AtRest(s.pcs[t])
    ensures |threads| <= max ==> s.w.queue == [] || s.r.queue == []
    ensures s.r.queue != [] ==> |s.queue| <= Excess(capacity, max, |threads|)
    ensures s.w.queue != [] ==> |s.queue| >= capacity - Excess(capacity, max, |threads|)
  {
    Reached(capacity, max, threads, acts, s);
    RefusalsBounded(capacity, max, threads, acts, s);
    RestingHoldNothing(s);
    if s.r.queue != [] { SleepingReaderCounts(s); }
    if s.w.queue != [] { SleepingWriterFindsNone(s); }
  }

  /** The mutex is never unlocked twice, so unlock() never throws, and its holder is alone. */
  lemma QueueLockExclusive<V>(capacity: nat, max: nat, threads: set<Tid>, acts: seq<Action<V>>, s: Chan<V>, t: Tid, u: Tid)
    requires IsRun(Start(capacity, max, threads), acts, s)
    requires t in s.pcs && u in s.pcs && Locked(s.pcs[t]) && Locked(s.pcs[u])
    ensures t == u
    ensures !Wake(s.m).1.Refused?
  {
    Reached(capacity, max, threads, acts, s);
    CountPositive(s.pcs, t, Locked);
    CountUnique(s.pcs, t, u, Locked);
  }
}
