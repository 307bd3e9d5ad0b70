/** Every step of SchedulerSwitch and of a task itself keeps the invariant of `IoWait`. */
module IoWaitSteps {

  import opened Counting
  import opened Lists
  import opened IoWait

  lemma OwnedAdd(reg: map<Slot, (Tid, nat)>, x: Slot, t: Tid, k: nat, u: Tid)
    requires x !in reg
    ensures |Owned(reg[x := (t, k)], u)| == |Owned(reg, u)| + One(u == t)
  {
    assert Owned(reg[x := (t, k)], u) == if u == t then Owned(reg, u) + {x} else Owned(reg, u);
  }

  lemma OwnedDrop(reg: map<Slot, (Tid, nat)>, x: Slot, u: Tid)
    requires x in reg
    ensures |Owned(reg - {x}, u)| == |Owned(reg, u)| - One(u == reg[x].0)
  {
    assert Owned(reg - {x}, u) == if u == reg[x].0 then Owned(reg, u) - {x} else Owned(reg, u);
  }

  /** Giving up a reference that is not the last, as part of another change. */
  lemma DecRefPut(s: State, t: Tid, r: Task)
    requires r.refs != 1
    ensures DecRef(Put(s, t, r), t) == Put(s, t, r.(refs := r.refs - 1))
  {
    assert s.tasks[t := r][t := r.(refs := r.refs - 1)] == s.tasks[t := r.(refs := r.refs - 1)];
  }

  predicate InLoop(w: Sw) { w.Loop? || w.Add? || w.Undo? }

  /** Only the record of `t` differs, the task stays where it is, and registration only advances. */
  ghost predicate LocalStep(s: State, s': State, t: Tid)
  {
    && t in s.tasks && t in s'.tasks && s'.tasks == s.tasks[t := s'.tasks[t]]
    && s' == s.(tasks := s'.tasks)
    && (var r, r' := s.tasks[t], s'.tasks[t];
        && r'.id == r.id && r'.fds == r.fds && r'.loc == r.loc
        && (Failing(r'.sw) ==> Failing(r.sw)) && (r.sw.Off? ==> r'.sw.Off?)
        && (InLoop(r'.sw) ==> InLoop(r.sw) && r.sw.i <= r'.sw.i)
        && (r.sw.SetTimer? || r.sw.Exit? || r.sw.Unlock? || r.sw.Off? ==>
              (r'.sw.Exit? || r'.sw.Unlock? || r'.sw.Off?) && (r.sw.SetTimer? || r.timer ==> r'.timer)))
  }

  lemma LocalTasks(s: State, s': State, t: Tid)
    requires TasksOk(s) && LocalStep(s, s', t) && TaskOk(s', t)
    ensures TasksOk(s')
  {
    forall u ensures TaskOk(s', u) { assert TaskOk(s, u); }
  }

  lemma LocalRegs(s: State, s': State, t: Tid)
    requires RegsOk(s) && LocalStep(s, s', t) && Shape(s'.tasks[t])
    ensures RegsOk(s')
  {
    forall x ensures RegOk(s', x) { assert RegOk(s, x); }
  }

  lemma LocalPends(s: State, s': State, t: Tid)
    requires PendsOk(s) && LocalStep(s, s', t)
    ensures PendsOk(s')
  {
    forall u ensures PendOk(s', u) { assert PendOk(s, u); }
  }

  lemma LocalTimers(s: State, s': State, t: Tid)
    requires TimersOk(s) && LocalStep(s, s', t)
    ensures TimersOk(s')
  {
    forall u, k ensures TimerOk(s', u, k) { assert TimerOk(s, u, k); }
  }

  lemma LocalRest(s: State, s': State, t: Tid)
    requires AllDisjoint(s) && WakesOk(s) && DelOk(s) && LocalStep(s, s', t)
    ensures AllDisjoint(s') && WakesOk(s') && DelOk(s')
  {
    forall u, v ensures Disjoint(s', u, v) { assert Disjoint(s, u, v); }
    forall u, k ensures WakeOk(s', u, k) { assert WakeOk(s, u, k); }
  }

  lemma LocalEp(s: State, s': State, t: Tid)
    requires EpOk(s) && LocalStep(s, s', t)
    ensures EpOk(s')
  {
  }

  lemma LocalKeeps(s: State, s': State, t: Tid)
    requires Inv(s) && LocalStep(s, s', t) && TaskOk(s', t)
    ensures Inv(s')
  {
    LocalTasks(s, s', t);
    LocalRegs(s, s', t);
    LocalPends(s, s', t);
    LocalTimers(s, s', t);
    LocalRest(s, s', t);
    LocalEp(s, s', t);
  }

  /** Under the callers' obligation the slot about to be added is free. */
  lemma SlotIsFree(s: State, t: Tid)
    requires Inv(s) && t in s.tasks && s.tasks[t].sw.Add?
    ensures s.tasks[t].sw.i < |s.tasks[t].fds| && s.tasks[t].fds[s.tasks[t].sw.i] !in s.reg
  {
    var r := s.tasks[t];
    assert TaskOk(s, t);
    var x := r.fds[r.sw.i];
    assert RegOk(s, x);
    assert x in s.reg ==> Disjoint(s, t, s.reg[x].0);
    forall j | 0 <= j < r.sw.i ensures r.fds[..r.sw.i][j] != x { assert Apart(r.fds, j, r.sw.i); }
  }

  lemma LocalTask(s: State, s': State, t: Tid)
    requires TaskOk(s, t) && LocalStep(s, s', t) && Shape(s'.tasks[t])
    requires var r, r' := s.tasks[t], s'.tasks[t];
             && r'.refs - OwnRefs(r') == r.refs - OwnRefs(r) && (r.lock.ByCancel? <==> r'.lock.ByCancel?)
             && (r'.timer || r'.sw.SetTimer? ==> r.timer || r.sw.SetTimer?) && (r.sw.WakeUp? ==> r'.sw.WakeUp?)
    ensures TaskOk(s', t)
  {
  }

  /** A step that only replaces the record of `t` by `r'`. */
  lemma RecordKeeps(s: State, t: Tid, r': Task)
    requires Inv(s) && t in s.tasks && LocalStep(s, Put(s, t, r'), t) && Shape(r')
    requires var r := s.tasks[t];
             && r'.refs - OwnRefs(r') == r.refs - OwnRefs(r) && (r.lock.ByCancel? <==> r'.lock.ByCancel?)
             && (r'.timer || r'.sw.SetTimer? ==> r.timer || r.sw.SetTimer?) && (r.sw.WakeUp? ==> r'.sw.WakeUp?)
    ensures Inv(Put(s, t, r'))
  {
    assert TaskOk(s, t);
    LocalTask(s, Put(s, t, r'), t);
    LocalKeeps(s, Put(s, t, r'), t);
  }

  lemma LoopKeeps(s: State, t: Tid, fails: bool)
    requires Inv(s) && Enabled(s, Switch(t, fails)) && s.tasks[t].sw.Loop?
    ensures Inv(SwitchStep(s, t, fails))
  {
    assert TaskOk(s, t);
    var r := s.tasks[t];
    if r.sw.i >= |r.fds| {
      RecordKeeps(s, t, r.(sw := End(r.sw.ok)));
    } else {
      RecordKeeps(s, t, IncRef(r).(sw := Add(r.sw.i, r.sw.ok, r.sw.added)));
    }
  }

  lemma AddFailsKeeps(s: State, t: Tid)
    requires Inv(s) && Enabled(s, Switch(t, true)) && s.tasks[t].sw.Add?
    ensures Inv(SwitchStep(s, t, true))
  {
    assert TaskOk(s, t);
    SlotIsFree(s, t);
    var r := s.tasks[t];
    RecordKeeps(s, t, r.(sw := Undo(r.sw.i, r.sw.ok, r.sw.added)));
  }

  lemma UndoKeeps(s: State, t: Tid, fails: bool)
    requires Inv(s) && Enabled(s, Switch(t, fails)) && s.tasks[t].sw.Undo?
    ensures Inv(SwitchStep(s, t, fails))
  {
    assert TaskOk(s, t);
    var r := s.tasks[t];
    var r1 := r.(sw := Loop(r.sw.i + 1, r.sw.ok, r.sw.added));
    DecRefPut(s, t, r1);
    RecordKeeps(s, t, r1.(refs := r1.refs - 1));
  }

  lemma EndKeeps(s: State, t: Tid, fails: bool)
    requires Inv(s) && Enabled(s, Switch(t, fails)) && s.tasks[t].sw == End(true)
    ensures Inv(SwitchStep(s, t, fails))
  {
    assert TaskOk(s, t);
    var r := s.tasks[t];
    RecordKeeps(s, t, if r.timed then IncRef(r).(sw := Arm) else r.(sw := Exit));
  }

  lemma SetTimerKeeps(s: State, t: Tid, fails: bool)
    requires Inv(s) && Enabled(s, Switch(t, fails)) && s.tasks[t].sw.SetTimer?
    ensures Inv(SwitchStep(s, t, fails))
  {
    assert TaskOk(s, t);
    RecordKeeps(s, t, s.tasks[t].(timer := true, sw := Exit));
  }

  lemma ExitKeeps(s: State, t: Tid, fails: bool)
    requires Inv(s) && Enabled(s, Switch(t, fails)) && s.tasks[t].sw.Exit?
    ensures Inv(SwitchStep(s, t, fails))
  {
    assert TaskOk(s, t);
    var r := s.tasks[t];
    var r1 := r.(sw := Unlock);
    DecRefPut(s, t, r1);
    RecordKeeps(s, t, r1.(refs := r1.refs - 1));
  }

  lemma UnlockKeeps(s: State, t: Tid, fails: bool)
    requires Inv(s) && Enabled(s, Switch(t, fails)) && s.tasks[t].sw.Unlock?
    ensures Inv(SwitchStep(s, t, fails))
  {
    assert TaskOk(s, t);
    var r := s.tasks[t];
    RecordKeeps(s, t, r.(sw := Off, lock := if |r.fds| > 1 then Free else r.lock));
  }

  // ---- steps of a task nobody else is working on

  /** No slot, event, timer or Cancel refers to the task; at most an old Cancel has its lock to drop. */
  ghost predicate Quiet(s: State, t: Tid)
  {
    && Owned(s.reg, t) == {} && t !in s.pend
    && (forall k :: TimerSt(s, t, k).Spent?)
    && (s.ep.InCancel? && s.ep.t == t ==> s.ep.c.DropLock? && !s.ep.byTimer)
  }

  lemma QuietIf(s: State, t: Tid)
    requires RegsOk(s) && PendsOk(s) && TimersOk(s) && EpOk(s)
    requires t in s.tasks ==>
               || Failing(s.tasks[t].sw) || s.tasks[t].loc.Running? || s.tasks[t].loc.Dropping?
               || (s.tasks[t].loc.Resumed? && TimerSt(s, t, s.tasks[t].id).Spent?)
    ensures Quiet(s, t)
  {
    forall x ensures x !in Owned(s.reg, t) { assert RegOk(s, x); }
    assert PendOk(s, t);
    forall k ensures TimerSt(s, t, k).Spent? { assert TimerOk(s, t, k); }
  }

  ghost predicate OnlyRecord(s: State, s': State, t: Tid)
  {
    && t in s'.tasks && s'.tasks == s.tasks[t := s'.tasks[t]]
    && s'.reg == s.reg && s'.timers == s.timers && s'.ep == s.ep && s'.pend == s.pend && s'.deleted == s.deleted
  }

  lemma QuietKeeps(s: State, s': State, t: Tid)
    requires RegsOk(s) && PendsOk(s) && TimersOk(s) && EpOk(s) && Quiet(s, t) && OnlyRecord(s, s', t)
    ensures RegsOk(s') && PendsOk(s') && TimersOk(s') && EpOk(s')
  {
    forall x ensures RegOk(s', x) { assert RegOk(s, x); assert x in s.reg && s.reg[x].0 == t ==> x in Owned(s.reg, t); }
    forall u ensures PendOk(s', u) { assert PendOk(s, u); }
    forall u, k ensures TimerOk(s', u, k) { assert TimerOk(s, u, k); assert TimerSt(s', u, k) == TimerSt(s, u, k); }
  }

  lemma OtherTasks(s: State, s': State, t: Tid)
    requires TasksOk(s) && OnlyRecord(s, s', t) && TaskOk(s', t)
    requires forall u :: u != t ==> (u in s'.dels <==> u in s.dels)
    ensures TasksOk(s')
  {
    forall u ensures TaskOk(s', u) { assert TaskOk(s, u); }
  }

  /** The task does not begin to wait for anything new. */
  lemma SameWaits(s: State, s': State, t: Tid)
    requires AllDisjoint(s) && OnlyRecord(s, s', t)
    requires InWait(s'.tasks[t]) ==> t in s.tasks && InWait(s.tasks[t]) && s'.tasks[t].fds == s.tasks[t].fds
    ensures AllDisjoint(s')
  {
    forall u, v ensures Disjoint(s', u, v) { assert Disjoint(s, u, v); }
  }

  lemma SameWakes(s: State, s': State, t: Tid)
    requires WakesOk(s) && OnlyRecord(s, s', t) && s'.wakes == s.wakes && s'.stale == s.stale
    requires t in s.tasks && s'.tasks[t].id == s.tasks[t].id
    requires s.tasks[t].id > 0 ==> InWait(s'.tasks[t]) == InWait(s.tasks[t])
    ensures WakesOk(s')
  {
    forall u, k ensures WakeOk(s', u, k) { assert WakeOk(s, u, k); }
  }

  /** A quiet task's record changes, whatever its new place, without a wakeup. */
  lemma QuietStep(s: State, t: Tid, r': Task)
    requires Inv(s) && t in s.tasks && Quiet(s, t) && TaskOk(Put(s, t, r'), t)
    requires var r := s.tasks[t]; r'.id == r.id && r'.fds == r.fds && InWait(r') == InWait(r)
    ensures Inv(Put(s, t, r'))
  {
    var s' := Put(s, t, r');
    QuietKeeps(s, s', t);
    OtherTasks(s, s', t);
    SameWaits(s, s', t);
    SameWakes(s, s', t);
  }

  lemma EnterKeeps(s: State, t: Tid, fails: bool)
    requires Inv(s) && Enabled(s, Switch(t, fails)) && s.tasks[t].sw.Enter?
    ensures Inv(SwitchStep(s, t, fails))
  {
    assert TaskOk(s, t);
    QuietIf(s, t);
    var r := s.tasks[t];
    QuietStep(s, t, IncRef(r).(loc := Blocked, sw := Loop(0, false, []), lock := if |r.fds| > 1 then BySwitch else r.lock));
  }

  lemma EndFailsKeeps(s: State, t: Tid, fails: bool)
    requires Inv(s) && Enabled(s, Switch(t, fails)) && s.tasks[t].sw == End(false)
    ensures Inv(SwitchStep(s, t, fails))
  {
    assert TaskOk(s, t);
    QuietIf(s, t);
    QuietStep(s, t, s.tasks[t].(loc := Taken, sw := WakeUp));
  }

  /** The one wakeup of a wait: counted once, and for the wait the task is in. */
  lemma WakeCounted(s: State, s': State, t: Tid)
    requires WakesOk(s) && t in s.tasks && t in s'.tasks && s.tasks[t].id > 0
    requires InWait(s.tasks[t]) && !InWait(s'.tasks[t]) && s'.tasks[t].id == s.tasks[t].id
    requires s'.tasks == s.tasks[t := s'.tasks[t]] && !s'.stale
    requires s'.wakes == s.wakes[(t, s.tasks[t].id) := Num(s.wakes, (t, s.tasks[t].id)) + 1]
    ensures WakesOk(s')
  {
    forall u, k ensures WakeOk(s', u, k) { assert WakeOk(s, u, k); }
  }

  lemma WakeUpKeeps(s: State, t: Tid, fails: bool)
    requires Inv(s) && Enabled(s, Switch(t, fails)) && s.tasks[t].sw.WakeUp?
    ensures Inv(SwitchStep(s, t, fails))
  {
    assert TaskOk(s, t);
    QuietIf(s, t);
    var r := s.tasks[t];
    var s' := SwitchStep(s, t, fails);
    var r' := r.(sw := Exit).(loc := Ready);
    assert s'.tasks == s.tasks[t := r'];
    QuietKeeps(s, s', t);
    OtherTasks(s, s', t);
    SameWaits(s, s', t);
    WakeCounted(s, s', t);
  }

  lemma HookKeeps(s: State, t: Tid)
    requires Inv(s) && Enabled(s, Hook(t))
    requires s.tasks[t].loc.Dropping? || TimerSt(s, t, s.tasks[t].id).Spent?
    ensures Inv(HookStep(s, t))
  {
    assert TaskOk(s, t);
    QuietIf(s, t);
    var r := s.tasks[t];
    if r.loc.Dropping? {
      var r1 := r.(loc := Running);
      DecRefPut(s, t, r1);
      QuietStep(s, t, r1.(refs := r1.refs - 1));
    } else {
      QuietStep(s, t, r.(loc := Running));
    }
  }

  lemma SpawnKeeps(s: State, t: Tid)
    requires Inv(s) && Enabled(s, Spawn(t))
    ensures Inv(Apply(s, Spawn(t)))
  {
    var s' := Apply(s, Spawn(t));
    assert TaskOk(s, t);
    QuietIf(s, t);
    QuietKeeps(s, s', t);
    assert t !in s.dels && t !in s.deleted && TimerSt(s, t, 0).Spent?;
    OtherTasks(s, s', t);
    SameWaits(s, s', t);
    forall u, k ensures WakeOk(s', u, k) { assert WakeOk(s, u, k); }
  }

  lemma CoSwitchKeeps(s: State, t: Tid, fds: seq<Slot>, timed: bool)
    requires Inv(s) && Enabled(s, CoSwitch(t, fds, timed)) && Polite(s, CoSwitch(t, fds, timed))
    ensures Inv(Apply(s, CoSwitch(t, fds, timed)))
  {
    var s' := Apply(s, CoSwitch(t, fds, timed));
    assert TaskOk(s, t);
    QuietIf(s, t);
    QuietKeeps(s, s', t);
    assert TimerSt(s, t, s.tasks[t].id + 1).Spent? && TimerSt(s, t, s.tasks[t].id).Spent?;
    OtherTasks(s, s', t);
    forall u, v ensures Disjoint(s', u, v) { assert Disjoint(s, u, v); }
    forall u, k ensures WakeOk(s', u, k) { assert WakeOk(s, u, k); }
  }

  lemma FinishKeeps(s: State, t: Tid)
    requires Inv(s) && Enabled(s, Finish(t))
    ensures Inv(Apply(s, Finish(t)))
    ensures Apply(s, Finish(t)).dels == s.dels + [t]
  {
    var s' := Apply(s, Finish(t));
    assert TaskOk(s, t);
    QuietIf(s, t);
    var r' := s.tasks[t].(loc := Ended).(refs := 0);
    assert s'.tasks == s.tasks[t := r'];
    QuietKeeps(s, s', t);
    OtherTasks(s, s', t);
    SameWaits(s, s', t);
    SameWakes(s, s', t);
    forall i, j ensures Apart(s'.dels, i, j) { assert Apart(s.dels, i, j); }
  }

  // ---- registration, timers, and the holder of epoll_lock_

  lemma ResumeKeeps(s: State, t: Tid)
    requires Inv(s) && Enabled(s, Resume(t))
    ensures Inv(Apply(s, Resume(t)))
  {
    var s' := Apply(s, Resume(t));
    assert TaskOk(s, t);
    OtherTasks(s, s', t);
    SameWaits(s, s', t);
    SameWakes(s, s', t);
    forall x ensures RegOk(s', x) { assert RegOk(s, x); }
    forall u ensures PendOk(s', u) { assert PendOk(s, u); }
    forall u, k ensures TimerOk(s', u, k) { assert TimerOk(s, u, k); }
  }

  /** Nothing that pending events, disjointness or the wakeup counts look at has changed. */
  ghost predicate SameView(s: State, s': State, t: Tid)
  {
    && t in s.tasks && t in s'.tasks && s'.tasks == s.tasks[t := s'.tasks[t]]
    && s'.ep == s.ep && s'.pend == s.pend && s'.dels == s.dels && s'.deleted == s.deleted
    && s'.wakes == s.wakes && s'.stale == s.stale
    && (var r, r' := s.tasks[t], s'.tasks[t];
        && r'.id == r.id && r'.fds == r.fds && (r'.loc.Blocked? <==> r.loc.Blocked?) && InWait(r') == InWait(r)
        && (Failing(r'.sw) ==> Failing(r.sw)))
  }

  lemma ViewKeeps(s: State, s': State, t: Tid)
    requires PendsOk(s) && AllDisjoint(s) && WakesOk(s) && DelOk(s) && SameView(s, s', t)
    ensures PendsOk(s') && AllDisjoint(s') && WakesOk(s') && DelOk(s')
  {
    forall u ensures PendOk(s', u) { assert PendOk(s, u); }
    forall u, v ensures Disjoint(s', u, v) { assert Disjoint(s, u, v); }
    forall u, k ensures WakeOk(s', u, k) { assert WakeOk(s, u, k); }
  }

  lemma CancelTimerKeeps(s: State, t: Tid)
    requires Inv(s) && Enabled(s, Hook(t)) && s.tasks[t].loc.Resumed?
    requires s.tasks[t].timer && TimerSt(s, t, s.tasks[t].id).Active?
    ensures Inv(HookStep(s, t))
  {
    var s' := HookStep(s, t);
    assert TaskOk(s, t) && TimerOk(s, t, s.tasks[t].id);
    CancelTimerTasks(s, t, s');
    forall x ensures RegOk(s', x) { assert RegOk(s, x); }
    forall u, k ensures TimerOk(s', u, k) { assert TimerOk(s, u, k); }
    ViewKeeps(s, s', t);
  }

  lemma CancelTimerTasks(s: State, t: Tid, s': State)
    requires TasksOk(s) && Enabled(s, Hook(t)) && s.tasks[t].loc.Resumed?
    requires s.tasks[t].timer && TimerSt(s, t, s.tasks[t].id).Active? && s' == HookStep(s, t)
    ensures TasksOk(s')
  {
    assert TaskOk(s, t);
    forall u ensures TaskOk(s', u) { assert TaskOk(s, u); }
  }

  lemma ArmTasks(s: State, t: Tid, s': State)
    requires TasksOk(s) && TimersOk(s) && Enabled(s, Switch(t, false)) && s.tasks[t].sw.Arm?
    requires s' == SwitchStep(s, t, false)
    ensures TasksOk(s')
  {
    assert TaskOk(s, t) && TimerOk(s, t, s.tasks[t].id);
    forall u ensures TaskOk(s', u) { assert TaskOk(s, u); }
  }

  lemma ArmTimers(s: State, t: Tid, s': State)
    requires TimersOk(s) && Enabled(s, Switch(t, false)) && s.tasks[t].sw.Arm?
    requires s' == SwitchStep(s, t, false) && EpOk(s)
    requires s.tasks[t].loc.Blocked? || s.tasks[t].loc.Taken? || s.tasks[t].loc.Ready?
    ensures TimersOk(s') && EpOk(s')
  {
    assert TimerOk(s, t, s.tasks[t].id);
    forall u, k ensures TimerOk(s', u, k) { assert TimerOk(s, u, k); }
  }

  lemma ArmKeeps(s: State, t: Tid, fails: bool)
    requires Inv(s) && Enabled(s, Switch(t, fails)) && s.tasks[t].sw.Arm?
    ensures Inv(SwitchStep(s, t, fails))
  {
    var s' := SwitchStep(s, t, fails);
    assert s' == SwitchStep(s, t, false);
    assert TaskOk(s, t);
    ArmTasks(s, t, s');
    ArmTimers(s, t, s');
    forall x ensures RegOk(s', x) { assert RegOk(s, x); }
    ViewKeeps(s, s', t);
  }

  lemma AddedTasks(s: State, t: Tid, s': State, x: Slot)
    requires TasksOk(s) && t in s.tasks && s.tasks[t].sw.Add?
    requires x !in s.reg && s.tasks[t].sw.i < |s.tasks[t].fds| && x == s.tasks[t].fds[s.tasks[t].sw.i]
    requires s' == SwitchStep(s, t, false)
    ensures TasksOk(s')
  {
    assert TaskOk(s, t);
    forall u ensures TaskOk(s', u) { assert TaskOk(s, u); OwnedAdd(s.reg, x, t, s.tasks[t].id, u); }
  }

  lemma AddedRegs(s: State, t: Tid, s': State, x: Slot)
    requires RegsOk(s) && TaskOk(s, t) && t in s.tasks && s.tasks[t].sw.Add?
    requires x !in s.reg && s.tasks[t].sw.i < |s.tasks[t].fds| && x == s.tasks[t].fds[s.tasks[t].sw.i]
    requires s' == SwitchStep(s, t, false)
    ensures RegsOk(s')
  {
    var r := s.tasks[t];
    forall y ensures RegOk(s', y) { assert RegOk(s, y); assert x == r.fds[..r.sw.i + 1][r.sw.i]; }
  }

  lemma AddedEp(s: State, t: Tid, s': State, x: Slot)
    requires EpOk(s) && AllDisjoint(s) && TaskOk(s, t) && t in s.tasks && s.tasks[t].sw.Add?
    requires x !in s.reg && s.tasks[t].sw.i < |s.tasks[t].fds| && x == s.tasks[t].fds[s.tasks[t].sw.i]
    requires s' == SwitchStep(s, t, false)
    ensures EpOk(s')
  {
    var e := s.ep;
    if e.InCancel? && Removing(e.c) {
      var fds := s.tasks[e.t].fds;
      assert e.t != t && InWait(s.tasks[t]);
      assert Disjoint(s, t, e.t) && x in s.tasks[t].fds;
      forall j | 0 <= j < |fds| ensures fds[j] != x { assert fds[j] in fds; }
    }
  }

  lemma AddedKeeps(s: State, t: Tid)
    requires Inv(s) && Enabled(s, Switch(t, false)) && s.tasks[t].sw.Add?
    ensures Inv(SwitchStep(s, t, false))
  {
    var s', r := SwitchStep(s, t, false), s.tasks[t];
    assert TaskOk(s, t);
    SlotIsFree(s, t);
    var x := r.fds[r.sw.i];
    AddedTasks(s, t, s', x);
    AddedRegs(s, t, s', x);
    AddedEp(s, t, s', x);
    ViewKeeps(s, s', t);
    forall u, k ensures TimerOk(s', u, k) { assert TimerOk(s, u, k); }
  }
}
