/** What holds in every run of the IO wait protocol. */
module IoWaitRuns {

  import opened Lists
  import opened IoWait
  import opened IoWaitSteps
  import opened IoWaitCancel

  lemma SwitchKeeps(s: State, t: Tid, fails: bool)
    requires Inv(s) && Enabled(s, Switch(t, fails))
    ensures Inv(SwitchStep(s, t, fails))
  {
    assert TaskOk(s, t);
    match s.tasks[t].sw
    case Enter => EnterKeeps(s, t, fails);
    case Loop(_, _, _) => LoopKeeps(s, t, fails);
    case Add(_, _, _) => if fails { AddFailsKeeps(s, t); } else { AddedKeeps(s, t); }
    case Undo(_, _, _) => UndoKeeps(s, t, fails);
    case End(ok) => if ok { EndKeeps(s, t, fails); } else { EndFailsKeeps(s, t, fails); }
    case WakeUp => WakeUpKeeps(s, t, fails);
    case Arm => ArmKeeps(s, t, fails);
    case SetTimer => SetTimerKeeps(s, t, fails);
    case Exit => ExitKeeps(s, t, fails);
    case Unlock => UnlockKeeps(s, t, fails);
    case _ =>
  }

  lemma CancelNextKeeps(s: State)
    requires Inv(s) && Enabled(s, CancelStep)
    ensures Inv(CancelNext(s))
  {
    var r := s.tasks[s.ep.t];
    match s.ep.c
    case Check => CheckKeeps(s);
    case Erase => if r.loc.Blocked? { EraseKeeps(s); } else { CheckKeeps(s); }
    case TakeLock => TakeLockKeeps(s);
    case Del => if s.ep.i < |r.fds| && r.fds[s.ep.i] in s.reg { DelKeeps(s); } else { DelSkipKeeps(s); }
    case Dec => DecKeeps(s);
    case Wake => WakeKeeps(s);
    case DropLock => DropLockKeeps(s);
    case TimerDec => TimerDecKeeps(s);
    case TimerEnd => TimerEndKeeps(s);
  }

  lemma HookStepKeeps(s: State, t: Tid)
    requires Inv(s) && Enabled(s, Hook(t))
    ensures Inv(HookStep(s, t))
  {
    var r := s.tasks[t];
    assert TaskOk(s, t) && TimerOk(s, t, r.id);
    if r.loc.Resumed? && TimerSt(s, t, r.id).Active? { CancelTimerKeeps(s, t); } else { HookKeeps(s, t); }
  }

  /** Every step of every thread keeps the invariant, as long as callers keep their obligation. */
  lemma Preserved(s: State, a: Action)
    requires Inv(s) && Enabled(s, a) && Polite(s, a)
    ensures Inv(Apply(s, a))
  {
    match a
    case Spawn(t) => SpawnKeeps(s, t);
    case CoSwitch(t, fds, timed) => CoSwitchKeeps(s, t, fds, timed);
    case Finish(t) => FinishKeeps(s, t);
    case Resume(t) => ResumeKeeps(s, t);
    case Hook(t) => HookStepKeeps(s, t);
    case Switch(t, fails) => SwitchKeeps(s, t, fails);
    case Gather(x) => GatherKeeps(s, x);
    case Deliver(t) => DeliverKeeps(s, t);
    case Fire(t, k) => FireKeeps(s, t, k);
    case CancelStep => CancelNextKeeps(s);
    case _ => TurnKeeps(s, a);
  }

  ghost predicate IsRun(from: State, acts: seq<Action>, to: State)
    decreases |acts|
  {
    if acts == [] then from == to
    else Enabled(from, acts[0]) && IsRun(Apply(from, acts[0]), acts[1..], to)
  }

  ghost predicate PoliteRun(from: State, acts: seq<Action>, to: State)
    decreases |acts|
  {
    if acts == [] then from == to
    else Enabled(from, acts[0]) && Polite(from, acts[0]) && PoliteRun(Apply(from, acts[0]), acts[1..], to)
  }

  lemma {:induction false} RunKeepsInv(from: State, acts: seq<Action>, to: State)
    requires Inv(from) && PoliteRun(from, acts, to)
    ensures Inv(to)
    decreases |acts|
  {
    if acts != [] {
      Preserved(from, acts[0]);
      RunKeepsInv(Apply(from, acts[0]), acts[1..], to);
    }
  }

  /**
    Every wait of every task is woken at most once, by its own event, timeout or failure and
    never by another wait's; and a wait the task has left was woken exactly once.
  */
  lemma WokenExactlyOnce(acts: seq<Action>, s: State, t: Tid, k: nat)
    requires PoliteRun(Start(), acts, s)
    ensures !s.stale && Num(s.wakes, (t, k)) <= 1
    ensures t in s.tasks && 0 < k <= s.tasks[t].id ==>
              (Num(s.wakes, (t, k)) == 1 <==> k < s.tasks[t].id || !InWait(s.tasks[t]))
  {
    RunKeepsInv(Start(), acts, s);
    assert WakeOk(s, t, k);
  }

  /**
    The reference count of a task is one for the task itself, one for each of its slots in epoll,
    one for a timer that may still call back, one for the guard of SchedulerSwitch, and one for
    each reference taken or freed in two steps.  It reaches zero exactly when the task has ended.
  */
  lemma ReferencesExact(acts: seq<Action>, s: State, t: Tid)
    requires PoliteRun(Start(), acts, s) && t in s.tasks
    ensures s.tasks[t].refs == OwnRefs(s.tasks[t]) + SharedRefs(s, t, s.tasks[t].id)
    ensures s.tasks[t].refs == 0 <==> s.tasks[t].loc.Ended?
  {
    RunKeepsInv(Start(), acts, s);
    assert TaskOk(s, t);
    if s.tasks[t].loc.Ended? { EndedIsUnreferenced(s, t); }
  }

  lemma EndedIsUnreferenced(s: State, t: Tid)
    requires Inv(s) && t in s.tasks && s.tasks[t].loc.Ended?
    ensures Owned(s.reg, t) == {} && t !in s.pend && (forall k :: TimerSt(s, t, k).Spent?)
    ensures CancelOn(s, t) ==> s.ep.c.DropLock? && !s.ep.byTimer && t !in s.deleted
  {
    forall x ensures x !in Owned(s.reg, t) { assert RegOk(s, x); }
    assert PendOk(s, t) && TaskOk(s, t);
    forall k ensures TimerSt(s, t, k).Spent? { assert TimerOk(s, t, k); }
    assert TimerOk(s, t, s.tasks[t].id);
  }

  /**
    A task enters the delete list once.  From then on no slot, pending event or timer names it, a
    Cancel can at most have its lock to drop, and by the time it is deleted not even that.
  */
  lemma DeletedIsUnreferenced(acts: seq<Action>, s: State, t: Tid)
    requires PoliteRun(Start(), acts, s) && (t in s.dels || t in s.deleted)
    ensures NoDup(s.dels) && !(t in s.dels && t in s.deleted)
    ensures t in s.tasks && s.tasks[t].loc.Ended? && s.tasks[t].refs == 0
    ensures Owned(s.reg, t) == {} && t !in s.pend && (forall k :: TimerSt(s, t, k).Spent?)
    ensures CancelOn(s, t) ==> s.ep.c.DropLock? && t !in s.deleted
  {
    RunKeepsInv(Start(), acts, s);
    assert TaskOk(s, t);
    EndedIsUnreferenced(s, t);
    ReferencesExact(acts, s, t);
  }
}
