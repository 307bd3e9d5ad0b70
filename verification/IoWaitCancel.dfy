/** Every step of WaitLoop and Cancel, under epoll_lock_, keeps the invariant of `IoWait`. */
module IoWaitCancel {

  import opened Counting
  import opened IoWait
  import opened IoWaitSteps

  // ---- the holder of epoll_lock_ outside Cancel

  /** The tasks and the registrations are as before, and no Cancel has begun to take anything. */
  ghost predicate EpMoves(s: State, s': State)
  {
    && s'.tasks == s.tasks && s'.reg == s.reg && s'.wakes == s.wakes && s'.stale == s.stale
    && (s.ep.InCancel? ==> Away(s.ep.c))
    && (s'.ep.InCancel? ==> Away(s'.ep.c))
  }

  lemma EpMovesKeeps(s: State, s': State)
    requires TasksOk(s) && RegsOk(s) && AllDisjoint(s) && WakesOk(s) && EpMoves(s, s')
    requires forall t :: t in s.dels || t in s.deleted <==> t in s'.dels || t in s'.deleted
    requires forall t, k :: (Live(TimerSt(s, t, k)) <==> Live(TimerSt(s', t, k)))
    requires forall q :: q in s.timers ==> q in s'.timers
    ensures TasksOk(s') && RegsOk(s') && AllDisjoint(s') && WakesOk(s')
  {
    forall t ensures TaskOk(s', t) { assert TaskOk(s, t); }
    forall x ensures RegOk(s', x) { assert RegOk(s, x); }
    forall t, u ensures Disjoint(s', t, u) { assert Disjoint(s, t, u); }
    forall t, k ensures WakeOk(s', t, k) { assert WakeOk(s, t, k); }
  }

  lemma TurnKeeps(s: State, a: Action)
    requires Inv(s) && Enabled(s, a) && (a.Acquire? || a.EndGather? || a.EndDeliver? || a.Release?)
    ensures Inv(Apply(s, a))
  {
    var s' := Apply(s, a);
    EpMovesKeeps(s, s');
    forall t ensures PendOk(s', t) { assert PendOk(s, t); }
    forall t, k ensures TimerOk(s', t, k) { assert TimerOk(s, t, k); }
  }

  lemma GatherKeeps(s: State, x: Slot)
    requires Inv(s) && Enabled(s, Gather(x))
    ensures Inv(Apply(s, Gather(x)))
  {
    var s' := Apply(s, Gather(x));
    EpMovesKeeps(s, s');
    assert RegOk(s, x) && TaskOk(s, s.reg[x].0);
    forall t ensures PendOk(s', t) { assert PendOk(s, t); }
    forall t, k ensures TimerOk(s', t, k) { assert TimerOk(s, t, k); }
  }

  lemma DeliverKeeps(s: State, t: Tid)
    requires Inv(s) && Enabled(s, Deliver(t))
    ensures Inv(Apply(s, Deliver(t)))
  {
    var s' := Apply(s, Deliver(t));
    EpMovesKeeps(s, s');
    assert PendOk(s, t) && TaskOk(s, t);
    forall u ensures PendOk(s', u) { assert PendOk(s, u); }
    forall u, k ensures TimerOk(s', u, k) { assert TimerOk(s, u, k); }
  }

  lemma FireKeeps(s: State, t: Tid, k: nat)
    requires Inv(s) && Enabled(s, Fire(t, k))
    ensures Inv(Apply(s, Fire(t, k)))
  {
    var s' := Apply(s, Fire(t, k));
    EpMovesKeeps(s, s');
    assert TimerOk(s, t, k) && TaskOk(s, t);
    forall u ensures PendOk(s', u) { assert PendOk(s, u); }
    forall u, i ensures TimerOk(s', u, i) { assert TimerOk(s, u, i); }
  }

  // ---- Cancel

  lemma CheckKeeps(s: State)
    requires Inv(s) && Enabled(s, CancelStep)
    requires s.ep.c.Check? || (s.ep.c.Erase? && !s.tasks[s.ep.t].loc.Blocked?)
    ensures Inv(CancelNext(s))
  {
    var s' := CancelNext(s);
    EpMovesKeeps(s, s');
    forall u ensures PendOk(s', u) { assert PendOk(s, u); }
    forall u, i ensures TimerOk(s', u, i) { assert TimerOk(s, u, i); }
  }

  lemma TimerEndKeeps(s: State)
    requires Inv(s) && Enabled(s, CancelStep) && s.ep.c.TimerEnd?
    ensures Inv(CancelNext(s))
  {
    var s' := CancelNext(s);
    EpMovesKeeps(s, s');
    forall u ensures PendOk(s', u) { assert PendOk(s, u); }
    forall u, i ensures TimerOk(s', u, i) { assert TimerOk(s, u, i); }
  }

  /** Cancel changes at most the record of its own task, and goes on or returns. */
  ghost predicate CancelMoves(s: State, s': State)
  {
    && s.ep.InCancel? && s.ep.t in s.tasks && s.ep.t in s'.tasks
    && s'.tasks == s.tasks[s.ep.t := s'.tasks[s.ep.t]]
    && (var r, r' := s.tasks[s.ep.t], s'.tasks[s.ep.t];
        && r'.id == r.id && r'.fds == r.fds && r'.sw == r.sw && r'.timer == r.timer && (InWait(r') ==> InWait(r)))
    && (if s'.ep.InCancel? then s'.ep.t == s.ep.t && s'.ep.k == s.ep.k && s'.ep.byTimer == s.ep.byTimer
        else s'.ep.Draining? && !s.ep.byTimer)
    && s'.pend == s.pend && s'.dels == s.dels && s'.deleted == s.deleted
  }

  lemma CancelTasks(s: State, s': State)
    requires TasksOk(s) && CancelMoves(s, s') && TaskOk(s', s.ep.t)
    requires forall u :: u != s.ep.t ==> |Owned(s'.reg, u)| == |Owned(s.reg, u)|
    requires forall q :: q !in s.timers || q.0 != s.ep.t ==> (q in s'.timers <==> q in s.timers)
    requires forall q :: q in s.timers && q.0 != s.ep.t ==> s'.timers[q] == s.timers[q]
    ensures TasksOk(s')
  {
    forall u ensures TaskOk(s', u) {
      assert TaskOk(s, u);
      if u in s'.tasks && u != s.ep.t { assert TimerSt(s', u, s.tasks[u].id) == TimerSt(s, u, s.tasks[u].id); }
    }
  }

  lemma CancelRest(s: State, s': State)
    requires PendsOk(s) && AllDisjoint(s) && DelOk(s) && CancelMoves(s, s')
    ensures PendsOk(s') && AllDisjoint(s') && DelOk(s')
  {
    forall u ensures PendOk(s', u) { assert PendOk(s, u); }
    forall u, v ensures Disjoint(s', u, v) { assert Disjoint(s, u, v); }
  }

  lemma CancelWakes(s: State, s': State)
    requires WakesOk(s) && CancelMoves(s, s') && s'.wakes == s.wakes && s'.stale == s.stale
    requires InWait(s'.tasks[s.ep.t]) == InWait(s.tasks[s.ep.t])
    ensures WakesOk(s')
  {
    forall u, k ensures WakeOk(s', u, k) { assert WakeOk(s, u, k); }
  }

  lemma CancelRegs(s: State, s': State)
    requires RegsOk(s) && CancelMoves(s, s') && (forall x :: x in s'.reg ==> x in s.reg && s'.reg[x] == s.reg[x])
    requires var l, l' := s.tasks[s.ep.t].loc, s'.tasks[s.ep.t].loc;
             (l.Blocked? || l.Taken? ==> l'.Blocked? || l'.Taken? || Owned(s.reg, s.ep.t) == {})
    ensures RegsOk(s')
  {
    forall x ensures RegOk(s', x) {
      assert RegOk(s, x);
      assert x in s.reg && s.reg[x].0 == s.ep.t ==> x in Owned(s.reg, s.ep.t);
    }
  }

  lemma CancelTimers(s: State, s': State)
    requires TimersOk(s) && CancelMoves(s, s') && s'.timers == s.timers
    requires !s.ep.c.TimerEnd? && (s'.ep.InCancel? ==> !s'.ep.c.TimerEnd?)
    requires var l, l' := s.tasks[s.ep.t].loc, s'.tasks[s.ep.t].loc;
             l' == l || l'.Taken? || l'.Ready?
    ensures TimersOk(s')
  {
    forall u, k ensures TimerOk(s', u, k) { assert TimerOk(s, u, k); assert TimerSt(s', u, k) == TimerSt(s, u, k); }
  }

  /** What a step of Cancel that neither removes a slot nor wakes the task has to show. */
  lemma CancelKeeps(s: State, s': State)
    requires Inv(s) && CancelMoves(s, s') && TaskOk(s', s.ep.t) && EpOk(s') && s'.wakes == s.wakes && s'.stale == s.stale
    requires s'.reg == s.reg && s'.timers == s.timers && !s.ep.c.TimerEnd? && (s'.ep.InCancel? ==> !s'.ep.c.TimerEnd?)
    requires InWait(s'.tasks[s.ep.t]) == InWait(s.tasks[s.ep.t])
    requires s'.tasks[s.ep.t].loc == s.tasks[s.ep.t].loc || s'.tasks[s.ep.t].loc.Taken?
    ensures Inv(s')
  {
    CancelTasks(s, s');
    CancelRegs(s, s');
    CancelTimers(s, s');
    CancelRest(s, s');
    CancelWakes(s, s');
  }

  lemma EraseKeeps(s: State)
    requires Inv(s) && Enabled(s, CancelStep) && s.ep.c.Erase? && s.tasks[s.ep.t].loc.Blocked?
    ensures Inv(CancelNext(s))
  {
    var s', t := CancelNext(s), s.ep.t;
    assert TaskOk(s, t) && TimerOk(s, t, s.ep.k);
    CancelKeeps(s, s');
  }

  lemma TakeLockKeeps(s: State)
    requires Inv(s) && Enabled(s, CancelStep) && s.ep.c.TakeLock?
    ensures Inv(CancelNext(s))
  {
    var s', t := CancelNext(s), s.ep.t;
    assert TaskOk(s, t);
    CancelKeeps(s, s');
  }

  /** A slot of the wait being cancelled is registered by that wait or not at all. */
  lemma OwnSlot(s: State, t: Tid, x: Slot)
    requires RegsOk(s) && AllDisjoint(s) && t in s.tasks && InWait(s.tasks[t]) && x in s.tasks[t].fds && x in s.reg
    ensures s.reg[x].0 == t
  {
    assert RegOk(s, x) && Disjoint(s, t, s.reg[x].0);
  }

  /** The next descriptor is not registered, or there is none. */
  lemma DelSkipKeeps(s: State)
    requires Inv(s) && Enabled(s, CancelStep) && s.ep.c.Del?
    requires s.ep.i < |s.tasks[s.ep.t].fds| ==> s.tasks[s.ep.t].fds[s.ep.i] !in s.reg
    ensures Inv(CancelNext(s))
  {
    var s', t := CancelNext(s), s.ep.t;
    assert TaskOk(s, t);
    assert s.tasks == s.tasks[t := s.tasks[t]];
    CancelKeeps(s, s');
  }

  lemma DelTasks(s: State, s': State, x: Slot)
    requires TasksOk(s) && EpOk(s) && s.ep.InCancel? && s.ep.c.Del? && x in s.reg && s.reg[x].0 == s.ep.t
    requires s' == s.(reg := s.reg - {x}, ep := s.ep.(c := Dec))
    ensures TasksOk(s')
  {
    var t := s.ep.t;
    assert TaskOk(s, t);
    assert s.tasks == s.tasks[t := s.tasks[t]];
    forall u ensures |Owned(s'.reg, u)| == |Owned(s.reg, u)| - One(u == t) { OwnedDrop(s.reg, x, u); }
    CancelTasks(s, s');
  }

  lemma DelKeeps(s: State)
    requires Inv(s) && Enabled(s, CancelStep) && s.ep.c.Del?
    requires s.ep.i < |s.tasks[s.ep.t].fds| && s.tasks[s.ep.t].fds[s.ep.i] in s.reg
    ensures Inv(CancelNext(s))
  {
    var s', t := CancelNext(s), s.ep.t;
    var x := s.tasks[t].fds[s.ep.i];
    OwnSlot(s, t, x);
    assert s.tasks == s.tasks[t := s.tasks[t]];
    DelTasks(s, s', x);
    CancelRegs(s, s');
    CancelTimers(s, s');
    CancelRest(s, s');
    CancelWakes(s, s');
  }

  lemma DecKeeps(s: State)
    requires Inv(s) && Enabled(s, CancelStep) && s.ep.c.Dec?
    ensures Inv(CancelNext(s))
  {
    var s', t := CancelNext(s), s.ep.t;
    assert TaskOk(s, t);
    CancelKeeps(s, s');
  }

  lemma NoSlotLeft(s: State)
    requires RegsOk(s) && EpOk(s) && s.ep.InCancel? && s.ep.c.Wake?
    ensures Owned(s.reg, s.ep.t) == {}
  {
    var t := s.ep.t;
    forall x ensures x !in Owned(s.reg, t) { assert RegOk(s, x); }
  }

  lemma WakeKeeps(s: State)
    requires Inv(s) && Enabled(s, CancelStep) && s.ep.c.Wake?
    ensures Inv(CancelNext(s))
  {
    var s', t := CancelNext(s), s.ep.t;
    assert TaskOk(s, t);
    NoSlotLeft(s);
    WakeCounted(s, s', t);
    CancelTasks(s, s');
    CancelRegs(s, s');
    CancelTimers(s, s');
    CancelRest(s, s');
  }

  lemma LockShape(r: Task, l: Lock)
    requires Shape(r) && !r.lock.BySwitch? && !l.BySwitch?
    ensures Shape(r.(lock := l)) && OwnRefs(r.(lock := l)) == OwnRefs(r)
  {
  }

  lemma DropLockTask(s: State, r': Task, ep': Ep)
    requires s.ep.InCancel? && s.ep.c.DropLock? && s.ep.t in s.tasks && TaskOk(s, s.ep.t)
    requires var r := s.tasks[s.ep.t]; r' == if s.ep.held then r.(lock := Free) else r
    requires ep'.Draining? || (ep'.InCancel? && ep'.c.TimerDec?)
    ensures TaskOk(Put(s, s.ep.t, r').(ep := ep'), s.ep.t)
  {
    var t, s' := s.ep.t, Put(s, s.ep.t, r').(ep := ep');
    var r := s.tasks[t];
    assert SharedRefs(s', t, r.id) == SharedRefs(s, t, r.id);
    if s.ep.held { LockShape(r, Free); }
  }

  lemma DropLockKeeps(s: State)
    requires Inv(s) && Enabled(s, CancelStep) && s.ep.c.DropLock?
    ensures Inv(CancelNext(s))
  {
    var s', t := CancelNext(s), s.ep.t;
    var r' := if s.ep.held then s.tasks[t].(lock := Free) else s.tasks[t];
    assert s'.tasks == s.tasks[t := r'];
    assert s' == Put(s, t, r').(ep := s'.ep);
    assert TaskOk(s, t);
    DropLockTask(s, r', s'.ep);
    CancelKeeps(s, s');
  }

  lemma TimerDecTasks(s: State, s': State)
    requires TasksOk(s) && TimersOk(s) && EpOk(s) && Enabled(s, CancelStep) && s.ep.c.TimerDec? && s' == CancelNext(s)
    ensures TasksOk(s')
  {
    assert TaskOk(s, s.ep.t) && TimerOk(s, s.ep.t, s.ep.k);
    CancelTasks(s, s');
  }

  lemma TimerDecKeeps(s: State)
    requires Inv(s) && Enabled(s, CancelStep) && s.ep.c.TimerDec?
    ensures Inv(CancelNext(s))
  {
    var s', t := CancelNext(s), s.ep.t;
    assert TaskOk(s, t) && TimerOk(s, t, s.ep.k);
    assert s'.dels == s.dels && s'.tasks == s.tasks[t := s'.tasks[t]];
    TimerDecTasks(s, s');
    CancelRegs(s, s');
    forall u, k ensures TimerOk(s', u, k) { assert TimerOk(s, u, k); }
    CancelRest(s, s');
    CancelWakes(s, s');
  }
}
