/** No wait is lost: whoever is in wait_tasks_ will be woken or can be. */
module IoWaitNoLoss {

  import opened IoWait
  import opened IoWaitSteps
  import opened IoWaitCancel
  import opened IoWaitRuns

  /** A task in wait_tasks_ whose registration has succeeded is still registered. */
  ghost predicate Wakeable(s: State, t: Tid) { Enrolled(s, t) ==> Owned(s.reg, t) != {} }

  predicate Enrolled(s: State, t: Tid) { t in s.tasks && s.tasks[t].loc.Blocked? && !Failing(s.tasks[t].sw) }

  lemma WakeableAdded(s: State, u: Tid, fails: bool, t: Tid)
    requires Inv(s) && Enabled(s, Switch(u, fails)) && s.tasks[u].sw.Add? && Wakeable(s, t)
    ensures Wakeable(SwitchStep(s, u, fails), t)
  {
    var r := s.tasks[u];
    SlotIsFree(s, u);
    if !fails { OwnedAdd(s.reg, r.fds[r.sw.i], u, r.id, t); }
  }

  predicate NoneEnrols(s: State, s': State, t: Tid) { s'.reg == s.reg && (Enrolled(s', t) ==> Enrolled(s, t)) }

  lemma PutEnrols(s: State, u: Tid, r': Task, t: Tid)
    requires u in s.tasks && (r'.loc.Blocked? && !Failing(r'.sw) ==> Enrolled(s, u))
    ensures NoneEnrols(s, Put(s, u, r'), t)
  {
  }

  lemma DecEnrols(s: State, u: Tid, r': Task, t: Tid)
    requires u in s.tasks && (r'.loc.Blocked? && !Failing(r'.sw) ==> Enrolled(s, u))
    ensures NoneEnrols(s, DecRef(Put(s, u, r'), u), t)
  {
  }

  lemma RegisterEnrols(s: State, u: Tid, fails: bool, t: Tid)
    requires Enabled(s, Switch(u, fails)) && (s.tasks[u].sw.Enter? || s.tasks[u].sw.Loop?)
    ensures NoneEnrols(s, SwitchStep(s, u, fails), t)
  {
  }

  lemma UndoEnrols(s: State, u: Tid, fails: bool, t: Tid)
    requires Enabled(s, Switch(u, fails)) && s.tasks[u].sw.Undo?
    ensures NoneEnrols(s, SwitchStep(s, u, fails), t)
  {
    var r := s.tasks[u];
    var r' := r.(sw := Loop(r.sw.i + 1, r.sw.ok, r.sw.added));
    assert SwitchStep(s, u, fails) == DecRef(Put(s, u, r'), u);
    assert Failing(r'.sw) == Failing(r.sw);
    DecEnrols(s, u, r', t);
  }

  lemma EndEnrols(s: State, u: Tid, fails: bool, t: Tid)
    requires Enabled(s, Switch(u, fails)) && s.tasks[u].sw.End?
    ensures NoneEnrols(s, SwitchStep(s, u, fails), t)
  {
  }

  lemma LeaveEnrols(s: State, u: Tid, fails: bool, t: Tid)
    requires Enabled(s, Switch(u, fails))
    requires s.tasks[u].sw.WakeUp? || s.tasks[u].sw.Arm? || s.tasks[u].sw.SetTimer? || s.tasks[u].sw.Exit? || s.tasks[u].sw.Unlock?
    ensures NoneEnrols(s, SwitchStep(s, u, fails), t)
  {
    var r := s.tasks[u];
    if r.sw.Exit? { DecEnrols(s, u, r.(sw := Unlock), t); }
  }

  lemma CancelEnrols(s: State, t: Tid)
    requires Enabled(s, CancelStep) && (s.ep.c.Check? || s.ep.c.Erase? || s.ep.c.TakeLock? || s.ep.c.Wake?)
    ensures NoneEnrols(s, CancelNext(s), t)
  {
    var e, r := s.ep, s.tasks[s.ep.t];
    if e.c.TakeLock? { PutEnrols(s, e.t, r.(lock := ByCancel), t); }
  }

  lemma ReturnEnrols(s: State, t: Tid)
    requires Enabled(s, CancelStep) && (s.ep.c.Dec? || s.ep.c.DropLock? || s.ep.c.TimerDec? || s.ep.c.TimerEnd?)
    ensures NoneEnrols(s, CancelNext(s), t)
  {
    var e, r := s.ep, s.tasks[s.ep.t];
    if e.c.DropLock? { PutEnrols(s, e.t, r.(lock := Free), t); }
    else { assert NoneEnrols(s, DecRef(s, e.t), t); }
  }

  lemma TaskEnrols(s: State, a: Action, t: Tid)
    requires Enabled(s, a) && (a.Spawn? || a.CoSwitch? || a.Finish? || a.Resume? || a.Hook?)
    ensures NoneEnrols(s, Apply(s, a), t)
  {
    if a.Finish? { DecEnrols(s, a.t, s.tasks[a.t].(loc := Ended), t); }
    if a.Hook? { DecEnrols(s, a.t, s.tasks[a.t].(loc := Running), t); }
  }

  lemma LoopEnrols(s: State, a: Action, t: Tid)
    requires Enabled(s, a)
    requires a.Acquire? || a.Gather? || a.EndGather? || a.Deliver? || a.EndDeliver? || a.Fire? || a.Release?
    ensures NoneEnrols(s, Apply(s, a), t)
  {
  }

  lemma WakeableKept(s: State, a: Action, t: Tid)
    requires Inv(s) && Enabled(s, a) && Wakeable(s, t)
    ensures Wakeable(Apply(s, a), t)
  {
    match a
    case Switch(u, fails) =>
      assert TaskOk(s, u);
      var w := s.tasks[u].sw;
      if w.Add? { WakeableAdded(s, u, fails, t); }
      else if w.Enter? || w.Loop? { RegisterEnrols(s, u, fails, t); }
      else if w.Undo? { UndoEnrols(s, u, fails, t); }
      else if w.End? { EndEnrols(s, u, fails, t); }
      else { LeaveEnrols(s, u, fails, t); }
    case CancelStep =>
      var c := s.ep.c;
      if c.Del? { WakeableDel(s, t); }
      else if c.Check? || c.Erase? || c.TakeLock? || c.Wake? { CancelEnrols(s, t); }
      else { ReturnEnrols(s, t); }
    case Acquire => LoopEnrols(s, a, t);
    case Gather(_) => LoopEnrols(s, a, t);
    case EndGather => LoopEnrols(s, a, t);
    case Deliver(_) => LoopEnrols(s, a, t);
    case EndDeliver => LoopEnrols(s, a, t);
    case Fire(_, _) => LoopEnrols(s, a, t);
    case Release => LoopEnrols(s, a, t);
    case _ => TaskEnrols(s, a, t);
  }

  lemma WakeableDel(s: State, t: Tid)
    requires Inv(s) && Enabled(s, CancelStep) && s.ep.c.Del? && Wakeable(s, t)
    ensures Wakeable(CancelNext(s), t)
  {
    var fds, i := s.tasks[s.ep.t].fds, s.ep.i;
    if i < |fds| && fds[i] in s.reg {
      OwnSlot(s, s.ep.t, fds[i]);
      OwnedDrop(s.reg, fds[i], t);
    }
  }

  lemma {:induction false} RunKeepsWakeable(from: State, acts: seq<Action>, to: State, t: Tid)
    requires Inv(from) && PoliteRun(from, acts, to) && Wakeable(from, t)
    ensures Wakeable(to, t)
    decreases |acts|
  {
    if acts != [] {
      Preserved(from, acts[0]);
      WakeableKept(from, acts[0], t);
      RunKeepsWakeable(Apply(from, acts[0]), acts[1..], to, t);
    }
  }

  /**
    No wait is lost: a task in wait_tasks_ is either still being registered without success so
    far, so that SchedulerSwitch itself will wake it, or has a slot in epoll under its current id.
  */
  lemma NoWaitIsLost(acts: seq<Action>, s: State, t: Tid)
    requires PoliteRun(Start(), acts, s) && t in s.tasks && s.tasks[t].loc.Blocked?
    ensures Failing(s.tasks[t].sw) || exists x :: x in s.reg && s.reg[x] == (t, s.tasks[t].id)
  {
    RunKeepsInv(Start(), acts, s);
    RunKeepsWakeable(Start(), acts, s, t);
    if !Failing(s.tasks[t].sw) {
      var x :| x in Owned(s.reg, t);
      assert RegOk(s, x);
    }
  }
}
