/** Waits come to an end: a timed wait has its timer, and events and timeouts wake the task they are for. */
module IoWaitTimeout {

  import opened IoWait
  import opened IoWaitRuns

  /** In wait_tasks_, with a timeout, and past the point where SchedulerSwitch arms the timer. */
  predicate TimedWait(r: Task)
  {
    r.loc.Blocked? && r.timed && (r.sw.SetTimer? || r.sw.Exit? || r.sw.Unlock? || r.sw.Off?)
  }

  predicate TimedOk(s: State, t: Tid) { t in s.tasks && TimedWait(s.tasks[t]) ==> Live(TimerSt(s, t, s.tasks[t].id)) }

  /** A timeout that has done its work on a task has taken it out of wait_tasks_. */
  predicate TimeoutDone(s: State)
  {
    s.ep.InCancel? && s.ep.byTimer && (s.ep.c.DropLock? || s.ep.c.TimerDec? || s.ep.c.TimerEnd?) && s.ep.t in s.tasks ==>
      !s.tasks[s.ep.t].loc.Blocked?
  }

  /** The timers are as they were, and a timed wait now was the same timed wait before. */
  predicate NoneTimed(s: State, s': State, t: Tid)
  {
    && s'.timers == s.timers
    && (t in s'.tasks && TimedWait(s'.tasks[t]) ==> t in s.tasks && TimedWait(s.tasks[t]) && s'.tasks[t].id == s.tasks[t].id)
  }

  lemma NoneTimedKeeps(s: State, s': State, t: Tid)
    requires NoneTimed(s, s', t) && TimedOk(s, t)
    ensures TimedOk(s', t)
  {
  }

  predicate SameWait(r: Task, r': Task) { TimedWait(r') ==> TimedWait(r) && r'.id == r.id }

  lemma PutTimed(s: State, u: Tid, r': Task, t: Tid)
    requires u in s.tasks && SameWait(s.tasks[u], r')
    ensures NoneTimed(s, Put(s, u, r'), t)
  {
  }

  lemma DecTimed(s: State, u: Tid, r': Task, t: Tid)
    requires u in s.tasks && SameWait(s.tasks[u], r')
    ensures NoneTimed(s, DecRef(Put(s, u, r'), u), t)
  {
  }

  lemma BeginTimed(s: State, u: Tid, fails: bool, t: Tid)
    requires Enabled(s, Switch(u, fails)) && (s.tasks[u].sw.Enter? || s.tasks[u].sw.Loop?)
    ensures NoneTimed(s, SwitchStep(s, u, fails), t)
  {
  }

  lemma AddTimed(s: State, u: Tid, fails: bool, t: Tid)
    requires Enabled(s, Switch(u, fails)) && s.tasks[u].sw.Add?
    ensures NoneTimed(s, SwitchStep(s, u, fails), t)
  {
    var r, i, ok, added := s.tasks[u], s.tasks[u].sw.i, s.tasks[u].sw.ok, s.tasks[u].sw.added;
    if i < |r.fds| {
      if r.fds[i] in s.reg { PutTimed(s, u, r.(sw := Exists(added)), t); }
      else if fails { PutTimed(s, u, r.(sw := Undo(i, ok, added)), t); }
      else { PutTimed(s, u, r.(sw := Loop(i + 1, true, added + [r.fds[i]])), t); }
    }
  }

  lemma UndoTimed(s: State, u: Tid, fails: bool, t: Tid)
    requires Enabled(s, Switch(u, fails)) && s.tasks[u].sw.Undo?
    ensures NoneTimed(s, SwitchStep(s, u, fails), t)
  {
    var r := s.tasks[u];
    var r' := r.(sw := Loop(r.sw.i + 1, r.sw.ok, r.sw.added));
    assert SwitchStep(s, u, fails) == DecRef(Put(s, u, r'), u);
    DecTimed(s, u, r', t);
  }

  lemma EndTimed(s: State, u: Tid, fails: bool, t: Tid)
    requires Enabled(s, Switch(u, fails)) && s.tasks[u].sw.End?
    ensures NoneTimed(s, SwitchStep(s, u, fails), t)
  {
  }

  lemma LeaveTimed(s: State, u: Tid, fails: bool, t: Tid)
    requires Enabled(s, Switch(u, fails))
    requires s.tasks[u].sw.WakeUp? || s.tasks[u].sw.SetTimer? || s.tasks[u].sw.Exit? || s.tasks[u].sw.Unlock?
    ensures NoneTimed(s, SwitchStep(s, u, fails), t)
  {
    if s.tasks[u].sw.Exit? { DecTimed(s, u, s.tasks[u].(sw := Unlock), t); }
  }

  /** The step that arms the timer. */
  lemma ArmTimed(s: State, u: Tid, fails: bool, t: Tid)
    requires Enabled(s, Switch(u, fails)) && TimedOk(s, t) && s.tasks[u].sw.Arm?
    ensures TimedOk(SwitchStep(s, u, fails), t)
  {
  }

  lemma SwitchTimed(s: State, u: Tid, fails: bool, t: Tid)
    requires Inv(s) && Enabled(s, Switch(u, fails)) && TimedOk(s, t)
    ensures TimedOk(SwitchStep(s, u, fails), t)
  {
    assert TaskOk(s, u);
    var w := s.tasks[u].sw;
    if w.Arm? {
      ArmTimed(s, u, fails, t);
    } else {
      if w.Enter? || w.Loop? { BeginTimed(s, u, fails, t); }
      else if w.Add? { AddTimed(s, u, fails, t); }
      else if w.Undo? { UndoTimed(s, u, fails, t); }
      else if w.End? { EndTimed(s, u, fails, t); }
      else { LeaveTimed(s, u, fails, t); }
      NoneTimedKeeps(s, SwitchStep(s, u, fails), t);
    }
  }

  lemma CheckTimed(s: State, t: Tid)
    requires Enabled(s, CancelStep) && (s.ep.c.Check? || s.ep.c.Erase?)
    ensures NoneTimed(s, CancelNext(s), t)
  {
    if s.ep.c.Erase? { PutTimed(s, s.ep.t, s.tasks[s.ep.t].(loc := Taken), t); }
  }

  lemma DelTimed(s: State, t: Tid)
    requires Enabled(s, CancelStep) && (s.ep.c.Wake? || s.ep.c.Del?)
    ensures NoneTimed(s, CancelNext(s), t)
  {
    if s.ep.c.Wake? { PutTimed(s, s.ep.t, s.tasks[s.ep.t].(loc := Ready), t); }
  }

  lemma LockTimed(s: State, t: Tid)
    requires Enabled(s, CancelStep) && (s.ep.c.TakeLock? || s.ep.c.DropLock?)
    ensures NoneTimed(s, CancelNext(s), t)
  {
    var e, r := s.ep, s.tasks[s.ep.t];
    if e.c.TakeLock? { PutTimed(s, e.t, r.(lock := ByCancel), t); } else { PutTimed(s, e.t, r.(lock := Free), t); }
  }

  lemma UnrefTimed(s: State, t: Tid)
    requires Enabled(s, CancelStep) && s.ep.c.Dec?
    ensures NoneTimed(s, CancelNext(s), t)
  {
    DecTimed(s, s.ep.t, s.tasks[s.ep.t], t);
  }

  lemma TimerEndTimed(s: State, t: Tid)
    requires TimeoutDone(s) && Enabled(s, CancelStep) && TimedOk(s, t) && s.ep.byTimer && (s.ep.c.TimerDec? || s.ep.c.TimerEnd?)
    ensures TimedOk(CancelNext(s), t)
  {
    var e, r := s.ep, s.tasks[s.ep.t];
    if e.c.TimerDec? { DecTimed(s, e.t, r, t); }
  }

  lemma TaskTimed(s: State, a: Action, t: Tid)
    requires Enabled(s, a) && TimedOk(s, t) && (a.Spawn? || a.CoSwitch? || a.Finish? || a.Resume?)
    ensures TimedOk(Apply(s, a), t)
  {
    if a.Finish? { DecTimed(s, a.t, s.tasks[a.t].(loc := Ended), t); }
    NoneTimedKeeps(s, Apply(s, a), t);
  }

  lemma HookTimed(s: State, u: Tid, t: Tid)
    requires Enabled(s, Hook(u)) && TimedOk(s, t)
    ensures TimedOk(HookStep(s, u), t)
  {
    DecTimed(s, u, s.tasks[u].(loc := Running), t);
  }

  lemma LoopTimed(s: State, a: Action, t: Tid)
    requires Enabled(s, a) && TimedOk(s, t)
    requires a.Acquire? || a.Gather? || a.EndGather? || a.Deliver? || a.EndDeliver? || a.Fire? || a.Release?
    ensures TimedOk(Apply(s, a), t)
  {
  }

  lemma CancelTimed(s: State, t: Tid)
    requires Inv(s) && TimeoutDone(s) && Enabled(s, CancelStep) && TimedOk(s, t)
    ensures TimedOk(CancelNext(s), t)
  {
    var c := s.ep.c;
    if c.TimerDec? || c.TimerEnd? {
      TimerEndTimed(s, t);
    } else {
      if c.TakeLock? || c.DropLock? { LockTimed(s, t); }
      else if c.Dec? { UnrefTimed(s, t); }
      else if c.Check? || c.Erase? { CheckTimed(s, t); }
      else { DelTimed(s, t); }
      NoneTimedKeeps(s, CancelNext(s), t);
    }
  }

  lemma TimedKept(s: State, a: Action, t: Tid)
    requires Inv(s) && TimeoutDone(s) && Enabled(s, a) && TimedOk(s, t)
    ensures TimedOk(Apply(s, a), t)
  {
    match a
    case Switch(u, fails) => SwitchTimed(s, u, fails, t);
    case CancelStep => CancelTimed(s, t);
    case Hook(u) => HookTimed(s, u, t);
    case Spawn(_) => TaskTimed(s, a, t);
    case CoSwitch(_, _, _) => TaskTimed(s, a, t);
    case Finish(_) => TaskTimed(s, a, t);
    case Resume(_) => TaskTimed(s, a, t);
    case _ => LoopTimed(s, a, t);
  }

  // ---- and the timeout in progress

  /** The thread of the loop is where it was, and a task that is in wait_tasks_ now was there before. */
  predicate NoneBlocks(s: State, s': State, t: Tid)
  {
    s'.ep == s.ep && (t in s.tasks ==> t in s'.tasks && (s'.tasks[t].loc.Blocked? ==> s.tasks[t].loc.Blocked?))
  }

  lemma PutBlocks(s: State, u: Tid, r': Task, t: Tid)
    requires u in s.tasks && (r'.loc.Blocked? ==> s.tasks[u].loc.Blocked?)
    ensures NoneBlocks(s, Put(s, u, r'), t)
  {
  }

  lemma DecBlocks(s: State, u: Tid, r': Task, t: Tid)
    requires u in s.tasks && (r'.loc.Blocked? ==> s.tasks[u].loc.Blocked?)
    ensures NoneBlocks(s, DecRef(Put(s, u, r'), u), t)
  {
  }

  lemma LoopBlocks(s: State, u: Tid, fails: bool, t: Tid)
    requires Enabled(s, Switch(u, fails)) && s.tasks[u].sw.Loop?
    ensures NoneBlocks(s, SwitchStep(s, u, fails), t)
  {
  }

  lemma AddBlocks(s: State, u: Tid, fails: bool, t: Tid)
    requires Enabled(s, Switch(u, fails)) && s.tasks[u].sw.Add?
    ensures NoneBlocks(s, SwitchStep(s, u, fails), t)
  {
    var r, i, ok, added := s.tasks[u], s.tasks[u].sw.i, s.tasks[u].sw.ok, s.tasks[u].sw.added;
    if i < |r.fds| {
      if r.fds[i] in s.reg { PutBlocks(s, u, r.(sw := Exists(added)), t); }
      else if fails { PutBlocks(s, u, r.(sw := Undo(i, ok, added)), t); }
      else { PutBlocks(s, u, r.(sw := Loop(i + 1, true, added + [r.fds[i]])), t); }
    }
  }

  lemma EndBlocks(s: State, u: Tid, fails: bool, t: Tid)
    requires Enabled(s, Switch(u, fails)) && s.tasks[u].sw.End?
    ensures NoneBlocks(s, SwitchStep(s, u, fails), t)
  {
  }

  lemma LeaveBlocks(s: State, u: Tid, fails: bool, t: Tid)
    requires Enabled(s, Switch(u, fails))
    requires s.tasks[u].sw.WakeUp? || s.tasks[u].sw.Arm? || s.tasks[u].sw.SetTimer? || s.tasks[u].sw.Exit? || s.tasks[u].sw.Unlock?
    ensures NoneBlocks(s, SwitchStep(s, u, fails), t)
  {
    var r := s.tasks[u];
    match r.sw
    case WakeUp =>
    case Arm => PutBlocks(s, u, r.(sw := SetTimer), t);
    case SetTimer => PutBlocks(s, u, r.(timer := true, sw := Exit), t);
    case Exit => DecBlocks(s, u, r.(sw := Unlock), t);
    case Unlock => PutBlocks(s, u, r.(sw := Off, lock := if |r.fds| > 1 then Free else r.lock), t);
  }

  lemma EnterElsewhere(s: State, u: Tid, fails: bool, t: Tid)
    requires Enabled(s, Switch(u, fails)) && s.tasks[u].sw.Enter? && t != u
    ensures NoneBlocks(s, SwitchStep(s, u, fails), t)
  {
  }

  lemma SwitchBlocks(s: State, u: Tid, fails: bool, t: Tid)
    requires Inv(s) && Enabled(s, Switch(u, fails)) && (s.tasks[u].sw.Enter? ==> t != u)
    ensures NoneBlocks(s, SwitchStep(s, u, fails), t)
  {
    assert TaskOk(s, u);
    var r := s.tasks[u];
    if r.sw.Enter? { EnterElsewhere(s, u, fails, t); }
    else if r.sw.Loop? { LoopBlocks(s, u, fails, t); }
    else if r.sw.Add? { AddBlocks(s, u, fails, t); }
    else if r.sw.End? { EndBlocks(s, u, fails, t); }
    else if r.sw.Undo? { DecBlocks(s, u, r.(sw := Loop(r.sw.i + 1, r.sw.ok, r.sw.added)), t); }
    else { LeaveBlocks(s, u, fails, t); }
  }

  lemma SwitchKeepsDone(s: State, u: Tid, fails: bool)
    requires Inv(s) && TimeoutDone(s) && Enabled(s, Switch(u, fails))
    ensures TimeoutDone(SwitchStep(s, u, fails))
  {
    if s.ep.InCancel? && s.ep.byTimer {
      assert TimerOk(s, s.ep.t, s.ep.k) && TaskOk(s, u);
      SwitchBlocks(s, u, fails, s.ep.t);
    } else {
      SwitchBlocks(s, u, fails, u + 1);
    }
  }

  lemma TakeKeepsDone(s: State)
    requires Inv(s) && TimeoutDone(s) && Enabled(s, CancelStep) && (s.ep.c.Check? || s.ep.c.Erase? || s.ep.c.Wake? || s.ep.c.Del?)
    ensures TimeoutDone(CancelNext(s))
  {
    if s.ep.byTimer { assert TimerOk(s, s.ep.t, s.ep.k); }
  }

  lemma ReturnKeepsDone(s: State)
    requires Inv(s) && TimeoutDone(s) && Enabled(s, CancelStep) && !(s.ep.c.Check? || s.ep.c.Erase? || s.ep.c.Wake? || s.ep.c.Del?)
    ensures TimeoutDone(CancelNext(s))
  {
  }

  lemma CancelKeepsDone(s: State)
    requires Inv(s) && TimeoutDone(s) && Enabled(s, CancelStep)
    ensures TimeoutDone(CancelNext(s))
  {
    if s.ep.c.Check? || s.ep.c.Erase? || s.ep.c.Wake? || s.ep.c.Del? { TakeKeepsDone(s); } else { ReturnKeepsDone(s); }
  }

  lemma TaskBlocks(s: State, a: Action, t: Tid)
    requires Enabled(s, a) && (a.Spawn? || a.CoSwitch? || a.Finish? || a.Resume? || a.Hook?)
    ensures NoneBlocks(s, Apply(s, a), t)
  {
    if a.Finish? { DecBlocks(s, a.t, s.tasks[a.t].(loc := Ended), t); }
    if a.Hook? { DecBlocks(s, a.t, s.tasks[a.t].(loc := Running), t); }
  }

  lemma TaskKeepsDone(s: State, a: Action)
    requires Inv(s) && TimeoutDone(s) && Enabled(s, a) && (a.Spawn? || a.CoSwitch? || a.Finish? || a.Resume? || a.Hook?)
    ensures TimeoutDone(Apply(s, a))
  {
    if s.ep.InCancel? { TaskBlocks(s, a, s.ep.t); } else { TaskBlocks(s, a, 0); }
  }

  lemma LoopKeepsDone(s: State, a: Action)
    requires TimeoutDone(s) && Enabled(s, a)
    requires a.Acquire? || a.Gather? || a.EndGather? || a.Deliver? || a.EndDeliver? || a.Fire? || a.Release?
    ensures TimeoutDone(Apply(s, a))
  {
  }

  lemma DoneKept(s: State, a: Action)
    requires Inv(s) && TimeoutDone(s) && Enabled(s, a)
    ensures TimeoutDone(Apply(s, a))
  {
    match a
    case Switch(u, fails) => SwitchKeepsDone(s, u, fails);
    case CancelStep => CancelKeepsDone(s);
    case Spawn(_) => TaskKeepsDone(s, a);
    case CoSwitch(_, _, _) => TaskKeepsDone(s, a);
    case Finish(_) => TaskKeepsDone(s, a);
    case Resume(_) => TaskKeepsDone(s, a);
    case Hook(_) => TaskKeepsDone(s, a);
    case _ => LoopKeepsDone(s, a);
  }

  lemma {:induction false} RunKeepsTimed(from: State, acts: seq<Action>, to: State, t: Tid)
    requires Inv(from) && TimeoutDone(from) && PoliteRun(from, acts, to) && TimedOk(from, t)
    ensures TimedOk(to, t) && TimeoutDone(to)
    decreases |acts|
  {
    if acts != [] {
      Preserved(from, acts[0]);
      DoneKept(from, acts[0]);
      TimedKept(from, acts[0], t);
      RunKeepsTimed(Apply(from, acts[0]), acts[1..], to, t);
    }
  }

  /**
    A timed wait ends: a task that waits with a timeout, once SchedulerSwitch is past arming it, has a
    timer of this very wait that is armed or whose callback is at work on it.
  */
  lemma TimedWaitHasTimer(acts: seq<Action>, s: State, t: Tid)
    requires PoliteRun(Start(), acts, s) && t in s.tasks && s.tasks[t].loc.Blocked? && s.tasks[t].timed
    requires s.tasks[t].sw.Exit? || s.tasks[t].sw.Unlock? || s.tasks[t].sw.Off?
    ensures TimerSt(s, t, s.tasks[t].id).Active? || TimerSt(s, t, s.tasks[t].id).Firing?
  {
    RunKeepsTimed(Start(), acts, s, t);
  }

  // ---------------------------------------------------------------- a Cancel wakes its task

  /** `n` steps of the Cancel in progress. */
  ghost predicate Cancels(s: State, n: nat, s': State)
    decreases n
  {
    if n == 0 then s == s' else Enabled(s, CancelStep) && Cancels(CancelNext(s), n - 1, s')
  }

  /** What is left to do before the task is woken. */
  function Left(s: State): nat
    requires s.ep.InCancel? && s.ep.t in s.tasks && s.ep.i <= |s.tasks[s.ep.t].fds|
  {
    var n := |s.tasks[s.ep.t].fds| - s.ep.i;
    if s.ep.c.Del? then 2 * n + 1 else if s.ep.c.Dec? then 2 * n else 0
  }

  lemma RemoveStep(s: State)
    requires Inv(s) && s.ep.InCancel? && (s.ep.c.Del? || s.ep.c.Dec?)
    ensures Enabled(s, CancelStep)
    ensures var s' := CancelNext(s);
            && Inv(s') && s'.ep.InCancel? && s'.ep.t == s.ep.t && s'.ep.k == s.ep.k && Removing(s'.ep.c)
            && s'.tasks[s.ep.t].id == s.tasks[s.ep.t].id && s'.ep.i <= |s'.tasks[s'.ep.t].fds| && Left(s') < Left(s)
  {
    Preserved(s, CancelStep);
  }

  /** From the moment it has erased the task, a Cancel goes on by itself until it has woken it. */
  lemma {:induction false} RemovingWakes(s: State) returns (n: nat, s': State)
    requires Inv(s) && s.ep.InCancel? && Removing(s.ep.c)
    ensures Cancels(s, n, s') && Inv(s') && s.ep.t in s'.tasks
    ensures s'.tasks[s.ep.t].loc.Ready? && s'.tasks[s.ep.t].id == s.tasks[s.ep.t].id
    decreases Left(s)
  {
    if s.ep.c.Wake? {
      Preserved(s, CancelStep);
      n, s' := 1, CancelNext(s);
      assert Cancels(s', 0, s');
    } else {
      RemoveStep(s);
      n, s' := RemovingWakes(CancelNext(s));
      n := n + 1;
    }
  }

  lemma TakeLockStep(s: State)
    requires Inv(s) && s.ep.InCancel? && s.ep.c.TakeLock? && s.tasks[s.ep.t].sw.Off?
    ensures Enabled(s, CancelStep)
    ensures var s' := CancelNext(s); s'.ep.InCancel? && s'.ep.t == s.ep.t && s'.ep.c.Del? && s'.tasks[s.ep.t].id == s.tasks[s.ep.t].id
  {
    assert TaskOk(s, s.ep.t);
  }

  lemma EraseSteps(s: State)
    requires Inv(s) && s.ep.InCancel? && s.ep.c.Check? && s.ep.k == s.tasks[s.ep.t].id && s.tasks[s.ep.t].loc.Blocked?
    requires s.tasks[s.ep.t].sw.Off?
    ensures Enabled(s, CancelStep) && Enabled(CancelNext(s), CancelStep)
    ensures var s' := CancelNext(CancelNext(s));
            s'.ep.InCancel? && s'.ep.t == s.ep.t && s'.ep.c.TakeLock? && s'.tasks[s.ep.t].sw.Off? && s'.tasks[s.ep.t].id == s.tasks[s.ep.t].id
  {
  }

  /** A Cancel for the current wait of a task in wait_tasks_ wakes it. */
  lemma CancelWakes(s: State) returns (n: nat, s': State)
    requires Inv(s) && s.ep.InCancel? && s.ep.c.Check? && s.ep.k == s.tasks[s.ep.t].id && s.tasks[s.ep.t].loc.Blocked?
    requires s.tasks[s.ep.t].sw.Off?
    ensures Cancels(s, n, s') && Inv(s') && s.ep.t in s'.tasks
    ensures s'.tasks[s.ep.t].loc.Ready? && s'.tasks[s.ep.t].id == s.tasks[s.ep.t].id
  {
    var s1 := CancelNext(s);
    EraseSteps(s);
    Preserved(s, CancelStep);
    var s2 := CancelNext(s1);
    Preserved(s1, CancelStep);
    TakeLockStep(s2);
    var s3 := CancelNext(s2);
    Preserved(s2, CancelStep);
    n, s' := RemovingWakes(s3);
    assert Cancels(s2, n + 1, s') && Cancels(s1, n + 2, s');
    n := n + 3;
  }

  /** An event reported by epoll is gathered for the wait that registered its slot, which is the task's current one. */
  lemma EventIsGathered(acts: seq<Action>, s: State, x: Slot)
    requires PoliteRun(Start(), acts, s) && s.ep.Gathering? && x in s.reg
    ensures var (t, k) := s.reg[x];
            && Enabled(s, Gather(x)) && t in s.tasks && k == s.tasks[t].id
            && t in Apply(s, Gather(x)).pend && (s.tasks[t].loc.Blocked? ==> Apply(s, Gather(x)).pend[t] == k)
  {
    RunKeepsInv(Start(), acts, s);
    assert RegOk(s, x) && PendOk(s, s.reg[x].0);
  }

  /** An event that has been gathered wakes the task it is for, with nothing but the steps of its Cancel. */
  lemma EventWakes(acts: seq<Action>, s: State, t: Tid) returns (n: nat, s': State)
    requires PoliteRun(Start(), acts, s) && s.ep.Draining? && t in s.pend && t in s.tasks && s.tasks[t].sw.Off?
    ensures Enabled(s, Deliver(t)) && Cancels(Apply(s, Deliver(t)), n, s')
    ensures t in s'.tasks && s'.tasks[t].loc.Ready? && s'.tasks[t].id == s.tasks[t].id && Num(s'.wakes, (t, s.tasks[t].id)) == 1
  {
    RunKeepsInv(Start(), acts, s);
    assert PendOk(s, t) && TaskOk(s, t);
    Preserved(s, Deliver(t));
    n, s' := CancelWakes(Apply(s, Deliver(t)));
    assert WakeOk(s', t, s.tasks[t].id) && TaskOk(s', t);
  }

  /** A timeout wakes the task that waits with it. */
  lemma TimeoutWakes(acts: seq<Action>, s: State, t: Tid) returns (n: nat, s': State)
    requires PoliteRun(Start(), acts, s) && s.ep.Timeouts?
    requires t in s.tasks && s.tasks[t].loc.Blocked? && s.tasks[t].timed && s.tasks[t].sw.Off?
    ensures Enabled(s, Fire(t, s.tasks[t].id)) && Cancels(Apply(s, Fire(t, s.tasks[t].id)), n, s')
    ensures t in s'.tasks && s'.tasks[t].loc.Ready? && s'.tasks[t].id == s.tasks[t].id && Num(s'.wakes, (t, s.tasks[t].id)) == 1
  {
    RunKeepsInv(Start(), acts, s);
    TimedWaitHasTimer(acts, s, t);
    var k := s.tasks[t].id;
    assert TimerOk(s, t, k) && TaskOk(s, t);
    assert s.tasks[t].id > 0;
    Preserved(s, Fire(t, k));
    n, s' := CancelWakes(Apply(s, Fire(t, k)));
    assert WakeOk(s', t, k) && TaskOk(s', t);
  }

  /** At the end of its turn the loop deletes every task in the delete list, and only those. */
  lemma ReleaseDeletes(acts: seq<Action>, s: State, t: Tid)
    requires PoliteRun(Start(), acts, s) && s.ep.Timeouts?
    ensures Enabled(s, Release) && Apply(s, Release).dels == [] && Apply(s, Release).ep.Idle?
    ensures t in Apply(s, Release).deleted <==> t in s.deleted || (t in s.tasks && s.tasks[t].loc.Ended?)
  {
    RunKeepsInv(Start(), acts, s);
    assert TaskOk(s, t);
  }
}
