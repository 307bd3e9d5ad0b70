/**
  The IO wait protocol: a task that blocks on file descriptors is registered in epoll by its
  processer's thread (SchedulerSwitch) while another thread may already be delivering events
  or timeouts for it (WaitLoop, Cancel).  Every step below is one atomic access of the source.

  epoll is the set `reg` of registered slots, a slot being one of the two epoll sets and a
  descriptor.  ADD fails with EEXIST exactly when the slot is taken and may fail otherwise;
  DEL succeeds exactly when the slot is taken.  Time is arbitrary: an armed timer may fire
  whenever the loop gets to it.
*/
module IoWait {

  import opened Counting
  import opened Lists

  type Tid = nat

  datatype Slot = Slot(write: bool, fd: nat)

  /** Where the task is. */
  datatype Loc =
    | Running
    | Yielded     // in CoSwitch past the yield, SchedulerSwitch not begun
    | Blocked     // in wait_tasks_
    | Taken       // erased from wait_tasks_, not yet made runnable
    | Ready       // in a run queue
    | Resumed     // back in the hook, before BlockCancelTimer
    | Dropping    // BlockCancelTimer succeeded, DecrementRef to come
    | Ended

  /** Progress of SchedulerSwitch for this task; `added` is rollback_list. */
  datatype Sw =
    | Off
    | Enter
    | Loop(i: nat, ok: bool, added: seq<Slot>)
    | Add(i: nat, ok: bool, added: seq<Slot>)      // reference taken, ADD to come
    | Undo(i: nat, ok: bool, added: seq<Slot>)     // ADD failed, reference to give back
    | Exists(added: seq<Slot>)                     // ADD found the slot taken
    | Roll(j: nat, added: seq<Slot>)
    | RollDec(j: nat, added: seq<Slot>)
    | End(ok: bool)
    | WakeUp        // erased from wait_tasks_ after failing, AddTaskRunnable to come
    | Arm           // reference taken for the timer, ExpireAt to come
    | SetTimer      // timer armed, io_block_timer_ to be set
    | Exit          // ~RefGuard to come
    | Unlock

  datatype Lock = Free | BySwitch | ByCancel

  datatype Task = Task(loc: Loc, id: nat, fds: seq<Slot>, timed: bool, sw: Sw, lock: Lock,
                       timer: bool,     // io_block_timer_ is set
                       refs: int)

  datatype TSt = Active | Firing | Fired | Spent   // Fired: callback over, its lock still held

  datatype CPc = Check | Erase | TakeLock | Del | Dec | Wake | DropLock | TimerDec | TimerEnd

  /** The holder of epoll_lock_. */
  datatype Ep =
    | Idle
    | Gathering
    | Draining
    | Timeouts
    | InCancel(c: CPc, t: Tid, k: nat, i: nat, held: bool, byTimer: bool)

  datatype State = State(tasks: map<Tid, Task>, reg: map<Slot, (Tid, nat)>, timers: map<(Tid, nat), TSt>,
                         ep: Ep, pend: map<Tid, nat>, dels: seq<Tid>, deleted: set<Tid>,
                         wakes: map<(Tid, nat), nat>,   // AddTaskRunnable calls, per task and wait
                         stale: bool)                   // some wait was woken by another wait's event or timeout

  datatype Action =
    | Spawn(t: Tid)
    | CoSwitch(t: Tid, fds: seq<Slot>, timed: bool)
    | Finish(t: Tid)
    | Resume(t: Tid)
    | Hook(t: Tid)                  // the resume side of the hooked call
    | Switch(t: Tid, fails: bool)   // next step of SchedulerSwitch; `fails`: epoll_ctl fails
    | Acquire                       // epoll_lock_.try_lock()
    | Gather(s: Slot)               // epoll_wait reports this slot
    | EndGather
    | Deliver(t: Tid)               // Cancel for a gathered event
    | EndDeliver
    | Fire(t: Tid, k: nat)          // run one expired timer
    | CancelStep                    // next step of the Cancel in progress
    | Release                       // delete the delete list, release epoll_lock_

  function Num(m: map<(Tid, nat), nat>, k: (Tid, nat)): nat { if k in m then m[k] else 0 }

  function TimerSt(s: State, t: Tid, k: nat): TSt { if (t, k) in s.timers then s.timers[(t, k)] else Spent }

  function Put(s: State, t: Tid, r: Task): State { s.(tasks := s.tasks[t := r]) }

  function DecRef(s: State, t: Tid): State
    requires t in s.tasks
  {
    var n := s.tasks[t].refs - 1;
    var s1 := Put(s, t, s.tasks[t].(refs := n));
    if n == 0 then s1.(dels := s.dels + [t]) else s1
  }

  function IncRef(r: Task): Task { r.(refs := r.refs + 1) }

  /** AddTaskRunnable on behalf of wait `k`. */
  function WakeTask(s: State, t: Tid, k: nat): State
    requires t in s.tasks
  {
    var r := s.tasks[t];
    Put(s, t, r.(loc := Ready)).(wakes := s.wakes[(t, r.id) := Num(s.wakes, (t, r.id)) + 1],
                                 stale := s.stale || r.id != k)
  }

  // ---------------------------------------------------------------- steps

  predicate Enabled(s: State, a: Action)
  {
    match a
    case Spawn(t) => t !in s.tasks
    case CoSwitch(t, _, _) => t in s.tasks && s.tasks[t].loc.Running?
    case Finish(t) => t in s.tasks && s.tasks[t].loc.Running?
    // a task runs again only after the Processer::Run that switched it out has ended
    case Resume(t) => t in s.tasks && s.tasks[t].loc.Ready? && s.tasks[t].sw.Off?
    case Hook(t) =>
      && t in s.tasks
      && (s.tasks[t].loc.Dropping?
          // BlockCancel waits for a callback in progress
          || (s.tasks[t].loc.Resumed? && (s.tasks[t].timer ==> (TimerSt(s, t, s.tasks[t].id).Active? || TimerSt(s, t, s.tasks[t].id).Spent?))))
    case Switch(t, _) => t in s.tasks && !s.tasks[t].sw.Off? && (s.tasks[t].sw.Enter? && |s.tasks[t].fds| > 1 ==> s.tasks[t].lock.Free?)
    case Acquire => s.ep.Idle?
    case Gather(x) => s.ep.Gathering? && x in s.reg && s.reg[x].0 in s.tasks
    case EndGather => s.ep.Gathering?
    case Deliver(t) => s.ep.Draining? && t in s.pend && t in s.tasks
    case EndDeliver => s.ep.Draining? && s.pend == map[]
    case Fire(t, k) => s.ep.Timeouts? && (t, k) in s.timers && t in s.tasks
    case CancelStep => s.ep.InCancel? && s.ep.t in s.tasks && (s.ep.c.TakeLock? && |s.tasks[s.ep.t].fds| > 1 ==> s.tasks[s.ep.t].lock.Free?)
    case Release => s.ep.Timeouts?
  }

  function Apply(s: State, a: Action): (r: State)
    requires Enabled(s, a)
  {
    match a
    case Spawn(t) => Put(s, t, Task(Ready, 0, [], false, Off, Free, false, 1))
    case CoSwitch(t, fds, timed) =>
      Put(s, t, s.tasks[t].(loc := Yielded, id := s.tasks[t].id + 1, fds := fds, timed := timed, timer := false, sw := Enter))
    case Finish(t) => DecRef(Put(s, t, s.tasks[t].(loc := Ended)), t)
    case Resume(t) => Put(s, t, s.tasks[t].(loc := Resumed))
    case Hook(t) => HookStep(s, t)
    case Switch(t, fails) => SwitchStep(s, t, fails)
    case Acquire => s.(ep := Gathering)
    case Gather(x) => if s.reg[x].0 in s.pend then s else s.(pend := s.pend[s.reg[x].0 := s.reg[x].1])
    case EndGather => s.(ep := Draining)
    case Deliver(t) => s.(ep := InCancel(Check, t, s.pend[t], 0, false, false), pend := s.pend - {t})
    case EndDeliver => s.(ep := Timeouts)
    case Fire(t, k) =>
      if s.timers[(t, k)].Active? then
        s.(timers := s.timers[(t, k) := Firing], ep := InCancel(Check, t, k, 0, false, true))
      else s
    case CancelStep => CancelNext(s)
    case Release => s.(ep := Idle, dels := [], deleted := s.deleted + (set t | t in s.dels))
  }

  function HookStep(s: State, t: Tid): (r: State)
    requires Enabled(s, Hook(t))
  {
    var r := s.tasks[t];
    if r.loc.Dropping? then DecRef(Put(s, t, r.(loc := Running)), t)
    else if r.timer && TimerSt(s, t, r.id).Active? then
      Put(s, t, r.(loc := Dropping)).(timers := s.timers[(t, r.id) := Spent])
    else Put(s, t, r.(loc := Running))
  }

  function SwitchStep(s: State, t: Tid, fails: bool): (r: State)
    requires Enabled(s, Switch(t, fails))
  {
    var r := s.tasks[t];
    match r.sw
    case Off => s
    case Enter =>
      Put(s, t, IncRef(r).(loc := Blocked, sw := Loop(0, false, []), lock := if |r.fds| > 1 then BySwitch else r.lock))
    case Loop(i, ok, added) =>
      if i >= |r.fds| then Put(s, t, r.(sw := End(ok))) else Put(s, t, IncRef(r).(sw := Add(i, ok, added)))
    case Add(i, ok, added) =>
      if i >= |r.fds| then s
      else if r.fds[i] in s.reg then Put(s, t, r.(sw := Exists(added)))
      else if fails then Put(s, t, r.(sw := Undo(i, ok, added)))
      else Put(s, t, r.(sw := Loop(i + 1, true, added + [r.fds[i]]))).(reg := s.reg[r.fds[i] := (t, r.id)])
    case Undo(i, ok, added) => DecRef(Put(s, t, r.(sw := Loop(i + 1, ok, added))), t)
    case Exists(added) => DecRef(Put(s, t, r.(sw := Roll(0, added))), t)
    case Roll(j, added) =>
      if j >= |added| then Put(s, t, r.(sw := End(false)))
      else if added[j] in s.reg then Put(s, t, r.(sw := RollDec(j, added))).(reg := s.reg - {added[j]})
      else Put(s, t, r.(sw := Roll(j + 1, added)))
    case RollDec(j, added) => DecRef(Put(s, t, r.(sw := Roll(j + 1, added))), t)
    case End(ok) =>
      if !ok then (if r.loc.Blocked? then Put(s, t, r.(loc := Taken, sw := WakeUp)) else Put(s, t, r.(sw := Exit)))
      else if r.timed then Put(s, t, IncRef(r).(sw := Arm)) else Put(s, t, r.(sw := Exit))
    case WakeUp => WakeTask(Put(s, t, r.(sw := Exit)), t, r.id)
    case Arm => Put(s, t, r.(sw := SetTimer)).(timers := s.timers[(t, r.id) := Active])
    case SetTimer => Put(s, t, r.(timer := true, sw := Exit))
    case Exit => DecRef(Put(s, t, r.(sw := Unlock)), t)
    case Unlock => Put(s, t, r.(sw := Off, lock := if |r.fds| > 1 then Free else r.lock))
  }

  /** Where the thread goes on when Cancel returns. */
  function Return(s: State): State
    requires s.ep.InCancel?
  {
    if s.ep.byTimer then s.(ep := s.ep.(c := TimerDec)) else s.(ep := Draining)
  }

  function CancelNext(s: State): (r: State)
    requires Enabled(s, CancelStep)
  {
    var e := s.ep;
    var t, r := e.t, s.tasks[e.t];
    match e.c
    case Check => if r.id != e.k then Return(s) else s.(ep := e.(c := Erase))
    case Erase => if r.loc.Blocked? then Put(s, t, r.(loc := Taken)).(ep := e.(c := TakeLock)) else Return(s)
    case TakeLock =>
      if |r.fds| > 1 then Put(s, t, r.(lock := ByCancel)).(ep := e.(c := Del, i := 0, held := true))
      else s.(ep := e.(c := Del, i := 0, held := false))
    case Del =>
      if e.i >= |r.fds| then s.(ep := e.(c := Wake))
      else if r.fds[e.i] in s.reg then s.(reg := s.reg - {r.fds[e.i]}, ep := e.(c := Dec))
      else s.(ep := e.(i := e.i + 1))
    case Dec => DecRef(s, t).(ep := e.(c := Del, i := e.i + 1))
    case Wake => WakeTask(s, t, e.k).(ep := e.(c := DropLock))
    case DropLock => Return(if e.held then Put(s, t, r.(lock := Free)) else s)
    case TimerDec => DecRef(s, t).(timers := s.timers[(t, e.k) := Fired], ep := e.(c := TimerEnd))
    case TimerEnd => s.(timers := s.timers[(t, e.k) := Spent], ep := Timeouts)
  }

  function Start(): State { State(map[], map[], map[], Idle, map[], [], {}, map[], false) }

  predicate InWait(r: Task) { r.loc.Yielded? || r.loc.Blocked? || r.loc.Taken? }

  /**
    The callers' obligation: one wait names a slot at most once, and tasks that wait at the same
    time name different slots.
  */
  ghost predicate Polite(s: State, a: Action)
  {
    a.CoSwitch? ==>
      && NoDup(a.fds)
      && (forall u :: u in s.tasks && u != a.t && InWait(s.tasks[u]) ==> forall x :: x in a.fds ==> x !in s.tasks[u].fds)
  }

  // ---------------------------------------------------------------- invariant

  ghost function Owned(reg: map<Slot, (Tid, nat)>, t: Tid): set<Slot> { set x | x in reg && reg[x].0 == t }

  predicate Rolling(w: Sw) { w.Exists? || w.Roll? || w.RollDec? }

  /** Registration has not succeeded (yet). */
  predicate Failing(w: Sw)
  {
    match w
    case Enter => true
    case Loop(_, ok, _) => !ok
    case Add(_, ok, _) => !ok
    case Undo(_, ok, _) => !ok
    case End(ok) => !ok
    case WakeUp => true
    case _ => false
  }

  predicate Guarded(w: Sw) { !w.Off? && !w.Enter? && !w.Unlock? }

  /** Cancel works on this task. */
  predicate CancelOn(s: State, t: Tid) { s.ep.InCancel? && s.ep.t == t }

  /** Cancel is removing slots; has erased the task and not woken it yet; may hold its lock. */
  predicate Removing(c: CPc) { c.Del? || c.Dec? || c.Wake? }

  predicate Taking(c: CPc) { c.TakeLock? || Removing(c) }

  predicate Locking(c: CPc) { Removing(c) || c.DropLock? }

  /** Cancel has not touched the task: it is before the erase, or past its return. */
  predicate Away(c: CPc) { c.Check? || c.Erase? || c.TimerDec? || c.TimerEnd? }

  predicate Live(w: TSt) { w.Active? || w.Firing? }

  /** The references the protocol accounts for: the task's own, and those others hold. */
  function OwnRefs(r: Task): int
  {
    One(!r.loc.Ended?) + One(r.loc.Dropping?) + One(Guarded(r.sw)) + One(r.sw.Add? || r.sw.Undo?) + One(r.sw.Arm?)
  }

  ghost function SharedRefs(s: State, t: Tid, id: nat): int
  {
    |Owned(s.reg, t)| + One(Live(TimerSt(s, t, id))) + One(CancelOn(s, t) && s.ep.c.Dec?)
  }

  predicate LoopIndex(r: Task)
  {
    match r.sw
    case Loop(i, ok, _) => i <= |r.fds| && (ok ==> i >= 1)
    case Add(i, ok, _) => i < |r.fds| && (ok ==> i >= 1)
    case Undo(i, ok, _) => i < |r.fds| && (ok ==> i >= 1)
    case _ => true
  }

  /** There are descriptors left to register. */
  predicate Adding(r: Task) { r.sw.Add? || r.sw.Undo? || (r.sw.Loop? && r.sw.i < |r.fds|) }

  /** The part of a task's invariant that only looks at the task. */
  ghost predicate Shape(r: Task)
  {
    && !Rolling(r.sw) && NoDup(r.fds) && LoopIndex(r)
    && (r.loc.Yielded? <==> r.sw.Enter?)
    && (r.sw.WakeUp? ==> r.loc.Taken?)
    && (InWait(r) ==> r.id > 0)
    && (!r.sw.Off? ==> InWait(r) || r.loc.Ready?)
    && (r.loc.Running? || r.loc.Resumed? || r.loc.Dropping? || r.loc.Ended? ==> r.sw.Off?)
    && (Failing(r.sw) && !r.sw.Enter? && !r.sw.WakeUp? ==> r.loc.Blocked?)
    && (Adding(r) ==> r.loc.Blocked? || r.loc.Taken?)
    && (r.lock.BySwitch? <==> |r.fds| > 1 && !r.sw.Off? && !r.sw.Enter?)
    && (r.timer ==> r.sw.Exit? || r.sw.Unlock? || r.sw.Off?)
  }

  ghost predicate TaskOk(s: State, t: Tid)
  {
    t in s.tasks ==>
      var r := s.tasks[t];
      && Shape(r) && r.refs == OwnRefs(r) + SharedRefs(s, t, r.id)
      && (r.loc.Taken? ==> r.sw.WakeUp? || (CancelOn(s, t) && Taking(s.ep.c)))
      && (r.lock.ByCancel? <==> CancelOn(s, t) && Locking(s.ep.c) && s.ep.held)
      && (r.timer || r.sw.SetTimer? ==> (t, r.id) in s.timers)
      && (r.loc.Ended? <==> t in s.dels || t in s.deleted)
  }

  /** A registered slot belongs to a task that is still waiting, under its current id. */
  predicate RegOk(s: State, x: Slot)
  {
    x in s.reg ==>
      var (t, k) := s.reg[x];
      && t in s.tasks
      && (var r := s.tasks[t];
          && k == r.id && (r.loc.Blocked? || r.loc.Taken?) && !Failing(r.sw) && x in r.fds
          && (r.sw.Loop? || r.sw.Add? || r.sw.Undo? ==> r.sw.i <= |r.fds| && x in r.fds[..r.sw.i]))
  }

  predicate PendOk(s: State, t: Tid)
  {
    t in s.pend ==>
      && t in s.tasks && s.pend[t] == s.tasks[t].id && s.tasks[t].loc.Blocked? && !Failing(s.tasks[t].sw)
      && (s.ep.Gathering? || s.ep.Draining? || (s.ep.InCancel? && !s.ep.byTimer && s.ep.t != t))
  }

  /** A timer that has not run its course belongs to the current wait, which cannot be left before. */
  predicate TimerOk(s: State, t: Tid, k: nat)
  {
    !TimerSt(s, t, k).Spent? ==>
      && t in s.tasks
      && (var r := s.tasks[t];
          && k == r.id && (r.loc.Blocked? || r.loc.Taken? || r.loc.Ready? || r.loc.Resumed?)
          && (r.sw.SetTimer? || r.timer)
          && (r.sw.SetTimer? || r.sw.Exit? || r.sw.Unlock? || r.sw.Off?))
      && (TimerSt(s, t, k).Firing? ==> s.ep.InCancel? && s.ep.byTimer && s.ep.t == t && s.ep.k == k && !s.ep.c.TimerEnd?)
      && (TimerSt(s, t, k).Fired? ==> s.ep.InCancel? && s.ep.byTimer && s.ep.t == t && s.ep.k == k && s.ep.c.TimerEnd?)
  }

  ghost predicate EpOk(s: State)
  {
    s.ep.InCancel? ==>
      var e := s.ep;
      && e.t in s.tasks && e.t !in s.deleted
      && (e.byTimer ==> TimerSt(s, e.t, e.k) == if e.c.TimerEnd? then Fired else Firing)
      && (e.c.TimerDec? || e.c.TimerEnd? ==> e.byTimer)
      && (var r := s.tasks[e.t];
          && ((e.c.Check? || e.c.Erase?) && !e.byTimer ==> e.k == r.id && r.loc.Blocked? && !Failing(r.sw))
          && (e.c.Erase? ==> e.k == r.id)
          && (e.c.Check? || e.c.Erase? || e.c.TakeLock? ==> !e.held)
          && (Taking(e.c) ==> e.k == r.id && r.loc.Taken? && !Failing(r.sw))
          && (Removing(e.c) ==>
                && e.held == (|r.fds| > 1) && (e.held ==> r.sw.Off?) && e.i <= |r.fds|
                && (forall j :: 0 <= j < e.i ==> r.fds[j] !in s.reg)
                && (e.c.Dec? ==> e.i < |r.fds| && r.fds[e.i] !in s.reg)
                && (e.c.Wake? ==> e.i == |r.fds|)))
  }

  predicate Disjoint(s: State, t: Tid, u: Tid)
  {
    t in s.tasks && u in s.tasks && t != u && InWait(s.tasks[t]) && InWait(s.tasks[u]) ==>
      forall x :: x in s.tasks[t].fds ==> x !in s.tasks[u].fds
  }

  /** Each earlier wait of the task was woken exactly once; the current one, once it is over. */
  predicate WakeOk(s: State, t: Tid, k: nat)
  {
    Num(s.wakes, (t, k)) ==
      if t !in s.tasks || k == 0 || k > s.tasks[t].id then 0
      else if k < s.tasks[t].id then 1
      else One(!InWait(s.tasks[t]))
  }

  ghost predicate DelOk(s: State)
  {
    NoDup(s.dels) && (forall t :: t in s.dels ==> t !in s.deleted)
      && (forall t :: t in s.dels || t in s.deleted ==> t in s.tasks)
  }

  ghost predicate TasksOk(s: State) { forall t :: TaskOk(s, t) }
  ghost predicate RegsOk(s: State) { forall x :: RegOk(s, x) }
  ghost predicate PendsOk(s: State) { forall t :: PendOk(s, t) }
  ghost predicate TimersOk(s: State) { forall t, k :: TimerOk(s, t, k) }
  ghost predicate AllDisjoint(s: State) { forall t, u :: Disjoint(s, t, u) }
  ghost predicate WakesOk(s: State) { !s.stale && forall t, k :: WakeOk(s, t, k) }

  ghost predicate Inv(s: State)
  {
    && TasksOk(s) && RegsOk(s) && PendsOk(s) && TimersOk(s) && EpOk(s)
    && AllDisjoint(s) && WakesOk(s) && DelOk(s)
  }
}
