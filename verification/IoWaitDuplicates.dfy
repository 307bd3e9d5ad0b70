/**
  What the callers' obligation of `IoWait` is for.  The guard against a late wakeup is a check of
  the wait's id followed, in a second step, by the removal from wait_tasks_.  A wait that names a
  slot twice fails with EEXIST and wakes itself; a Cancel that has passed the check for it then
  finds the task in its next wait and wakes that one.
*/
module IoWaitDuplicates {

  import opened Lists
  import opened IoWait
  import opened IoWaitRuns

  /** One task, which waits for `fds` or for nothing. */
  predicate Allowed(fds: seq<Slot>, a: Action)
  {
    (a.Spawn? ==> a.t == 0) && (a.CoSwitch? ==> a.t == 0 && (a.fds == fds || a.fds == []))
  }

  ghost predicate SoloRun(fds: seq<Slot>, from: State, acts: seq<Action>, to: State)
    decreases |acts|
  {
    if acts == [] then from == to
    else Enabled(from, acts[0]) && Allowed(fds, acts[0]) && SoloRun(fds, Apply(from, acts[0]), acts[1..], to)
  }

  ghost predicate Reach(fds: seq<Slot>, from: State, to: State) { exists acts :: SoloRun(fds, from, acts, to) }

  // ---- with distinct slots the obligation is kept

  predicate Alone(s: State) { forall t :: t in s.tasks ==> t == 0 }

  lemma StaysAlone(fds: seq<Slot>, s: State, a: Action)
    requires Alone(s) && Enabled(s, a) && Allowed(fds, a)
    ensures Alone(Apply(s, a))
  {
    var s' := Apply(s, a);
    match a
    case Spawn(t) =>
    case CoSwitch(t, _, _) =>
    case Finish(t) =>
    case Resume(t) =>
    case Hook(t) =>
    case Switch(t, fails) => SwitchStaysAlone(s, t, fails);
    case CancelStep => CancelStaysAlone(s);
    case _ => assert s'.tasks == s.tasks;
  }

  predicate Registering(w: Sw) { w.Enter? || w.Loop? || w.Add? || w.End? }

  predicate GivingUp(w: Sw) { w.Undo? || w.Exists? || w.Roll? || w.RollDec? }

  lemma RegisterStaysAlone(s: State, t: Tid, fails: bool)
    requires Alone(s) && Enabled(s, Switch(t, fails)) && Registering(s.tasks[t].sw)
    ensures Alone(SwitchStep(s, t, fails))
  {
  }

  lemma GiveUpStaysAlone(s: State, t: Tid, fails: bool)
    requires Alone(s) && Enabled(s, Switch(t, fails)) && GivingUp(s.tasks[t].sw)
    ensures Alone(SwitchStep(s, t, fails))
  {
  }

  lemma LeaveStaysAlone(s: State, t: Tid, fails: bool)
    requires Alone(s) && Enabled(s, Switch(t, fails)) && !Registering(s.tasks[t].sw) && !GivingUp(s.tasks[t].sw)
    ensures Alone(SwitchStep(s, t, fails))
  {
  }

  lemma SwitchStaysAlone(s: State, t: Tid, fails: bool)
    requires Alone(s) && Enabled(s, Switch(t, fails))
    ensures Alone(SwitchStep(s, t, fails))
  {
    if Registering(s.tasks[t].sw) { RegisterStaysAlone(s, t, fails); }
    else if GivingUp(s.tasks[t].sw) { GiveUpStaysAlone(s, t, fails); }
    else { LeaveStaysAlone(s, t, fails); }
  }

  lemma TakeStaysAlone(s: State)
    requires Alone(s) && Enabled(s, CancelStep) && (s.ep.c.Check? || s.ep.c.Erase? || s.ep.c.TakeLock? || s.ep.c.Del?)
    ensures Alone(CancelNext(s))
  {
  }

  lemma DecStaysAlone(s: State)
    requires Alone(s) && Enabled(s, CancelStep) && (s.ep.c.Dec? || s.ep.c.TimerDec?)
    ensures Alone(CancelNext(s))
  {
  }

  lemma ReturnStaysAlone(s: State)
    requires Alone(s) && Enabled(s, CancelStep) && (s.ep.c.Wake? || s.ep.c.DropLock? || s.ep.c.TimerEnd?)
    ensures Alone(CancelNext(s))
  {
  }

  lemma CancelStaysAlone(s: State)
    requires Alone(s) && Enabled(s, CancelStep)
    ensures Alone(CancelNext(s))
  {
    var c := s.ep.c;
    if c.Check? || c.Erase? || c.TakeLock? || c.Del? { TakeStaysAlone(s); }
    else if c.Dec? || c.TimerDec? { DecStaysAlone(s); }
    else { ReturnStaysAlone(s); }
  }

  lemma {:induction false} SoloIsPolite(fds: seq<Slot>, from: State, acts: seq<Action>, to: State)
    requires NoDup(fds) && Alone(from) && SoloRun(fds, from, acts, to)
    ensures PoliteRun(from, acts, to)
    decreases |acts|
  {
    if acts != [] {
      StaysAlone(fds, from, acts[0]);
      SoloIsPolite(fds, Apply(from, acts[0]), acts[1..], to);
    }
  }

  // ---- with a repeated slot there is a run that wakes the wrong wait

  lemma {:induction false} Snoc(fds: seq<Slot>, from: State, acts: seq<Action>, mid: State, a: Action)
    requires SoloRun(fds, from, acts, mid) && Enabled(mid, a) && Allowed(fds, a)
    ensures SoloRun(fds, from, acts + [a], Apply(mid, a))
    decreases |acts|
  {
    if acts == [] {
      assert (acts + [a])[1..] == [];
    } else {
      Snoc(fds, Apply(from, acts[0]), acts[1..], mid, a);
      assert (acts + [a])[1..] == acts[1..] + [a];
    }
  }

  /** One more step of the run. */
  lemma Then(fds: seq<Slot>, from: State, mid: State, a: Action, to: State)
    requires Reach(fds, from, mid) && Enabled(mid, a) && Allowed(fds, a) && Apply(mid, a) == to
    ensures Reach(fds, from, to)
  {
    var acts :| SoloRun(fds, from, acts, mid);
    Snoc(fds, from, acts, mid, a);
  }

  function World(r: Task, reg: map<Slot, (Tid, nat)>, ep: Ep, pend: map<Tid, nat>, wakes: map<(Tid, nat), nat>): State
  {
    State(map[0 := r], reg, map[], ep, pend, [], {}, wakes, false)
  }

  function Rec(loc: Loc, id: nat, fds: seq<Slot>, sw: Sw, lock: Lock, refs: int): Task
  {
    Task(loc, id, fds, false, sw, lock, false, refs)
  }

  lemma Begin(fds: seq<Slot>)
    requires |fds| > 1
    ensures Reach(fds, Start(), World(Rec(Blocked, 1, fds, Loop(0, false, []), BySwitch, 2), map[], Idle, map[], map[]))
  {
    var s0 := Start();
    var s1 := World(Rec(Ready, 0, [], Off, Free, 1), map[], Idle, map[], map[]);
    var s2 := World(Rec(Resumed, 0, [], Off, Free, 1), map[], Idle, map[], map[]);
    var s3 := World(Rec(Running, 0, [], Off, Free, 1), map[], Idle, map[], map[]);
    var s4 := World(Rec(Yielded, 1, fds, Enter, Free, 1), map[], Idle, map[], map[]);
    var s5 := World(Rec(Blocked, 1, fds, Loop(0, false, []), BySwitch, 2), map[], Idle, map[], map[]);
    assert SoloRun(fds, s0, [], s0);
    Then(fds, s0, s0, Spawn(0), s1);
    Then(fds, s0, s1, Resume(0), s2);
    Then(fds, s0, s2, Hook(0), s3);
    Then(fds, s0, s3, CoSwitch(0, fds, false), s4);
    Then(fds, s0, s4, Switch(0, false), s5);
  }

  lemma SkipOne(fds: seq<Slot>, from: State, m: nat, ok: bool, added: seq<Slot>, refs: nat,
                reg: map<Slot, (Tid, nat)>, ep: Ep)
    requires m < |fds| && refs >= 2 && fds[m] !in reg
    requires Reach(fds, from, World(Rec(Blocked, 1, fds, Loop(m, ok, added), BySwitch, refs), reg, ep, map[], map[]))
    ensures Reach(fds, from, World(Rec(Blocked, 1, fds, Loop(m + 1, ok, added), BySwitch, refs), reg, ep, map[], map[]))
  {
    var s1 := World(Rec(Blocked, 1, fds, Loop(m, ok, added), BySwitch, refs), reg, ep, map[], map[]);
    var s2 := World(Rec(Blocked, 1, fds, Add(m, ok, added), BySwitch, refs + 1), reg, ep, map[], map[]);
    var s3 := World(Rec(Blocked, 1, fds, Undo(m, ok, added), BySwitch, refs + 1), reg, ep, map[], map[]);
    var s4 := World(Rec(Blocked, 1, fds, Loop(m + 1, ok, added), BySwitch, refs), reg, ep, map[], map[]);
    Then(fds, from, s1, Switch(0, true), s2);
    Then(fds, from, s2, Switch(0, true), s3);
    Then(fds, from, s3, Switch(0, true), s4);
  }

  /** ADD fails for the descriptors from `m` up to `n`. */
  lemma {:induction false} SkipTo(fds: seq<Slot>, from: State, m: nat, n: nat, ok: bool, added: seq<Slot>, refs: nat,
                                  reg: map<Slot, (Tid, nat)>, ep: Ep)
    requires m <= n <= |fds| && refs >= 2 && (forall q :: m <= q < n ==> fds[q] !in reg)
    requires Reach(fds, from, World(Rec(Blocked, 1, fds, Loop(m, ok, added), BySwitch, refs), reg, ep, map[], map[]))
    ensures Reach(fds, from, World(Rec(Blocked, 1, fds, Loop(n, ok, added), BySwitch, refs), reg, ep, map[], map[]))
    decreases n - m
  {
    if m < n {
      SkipOne(fds, from, m, ok, added, refs, reg, ep);
      SkipTo(fds, from, m + 1, n, ok, added, refs, reg, ep);
    }
  }

  /** The slot at `i` is registered, its event arrives, and Cancel passes the check of the id. */
  lemma EventArrives(fds: seq<Slot>, i: nat)
    requires |fds| > 1 && i < |fds|
    requires Reach(fds, Start(), World(Rec(Blocked, 1, fds, Loop(i, false, []), BySwitch, 2), map[], Idle, map[], map[]))
    ensures Reach(fds, Start(), World(Rec(Blocked, 1, fds, Loop(i + 1, true, [fds[i]]), BySwitch, 3),
                                      map[fds[i] := (0, 1)], InCancel(Erase, 0, 1, 0, false, false), map[], map[]))
  {
    var x, s0 := fds[i], Start();
    var reg: map<Slot, (Tid, nat)> := map[x := (0, 1)];
    var s1 := World(Rec(Blocked, 1, fds, Loop(i, false, []), BySwitch, 2), map[], Idle, map[], map[]);
    var s2 := World(Rec(Blocked, 1, fds, Add(i, false, []), BySwitch, 3), map[], Idle, map[], map[]);
    var r := Rec(Blocked, 1, fds, Loop(i + 1, true, [x]), BySwitch, 3);
    Then(fds, s0, s1, Switch(0, false), s2);
    assert [] + [x] == [x];
    Then(fds, s0, s2, Switch(0, false), World(r, reg, Idle, map[], map[]));
    Then(fds, s0, World(r, reg, Idle, map[], map[]), Acquire, World(r, reg, Gathering, map[], map[]));
    Then(fds, s0, World(r, reg, Gathering, map[], map[]), Gather(x), World(r, reg, Gathering, map[0 := 1], map[]));
    Then(fds, s0, World(r, reg, Gathering, map[0 := 1], map[]), EndGather, World(r, reg, Draining, map[0 := 1], map[]));
    Then(fds, s0, World(r, reg, Draining, map[0 := 1], map[]), Deliver(0),
         World(r, reg, InCancel(Check, 0, 1, 0, false, false), map[], map[]));
    Then(fds, s0, World(r, reg, InCancel(Check, 0, 1, 0, false, false), map[], map[]), CancelStep,
         World(r, reg, InCancel(Erase, 0, 1, 0, false, false), map[], map[]));
  }

  /** The same slot at `j`: ADD reports EEXIST. */
  lemma SlotIsTaken(fds: seq<Slot>, i: nat, j: nat)
    requires i < j < |fds| && fds[i] == fds[j]
    requires Reach(fds, Start(), World(Rec(Blocked, 1, fds, Loop(j, true, [fds[i]]), BySwitch, 3),
                                       map[fds[i] := (0, 1)], InCancel(Erase, 0, 1, 0, false, false), map[], map[]))
    ensures Reach(fds, Start(), World(Rec(Blocked, 1, fds, Exists([fds[i]]), BySwitch, 4),
                                      map[fds[i] := (0, 1)], InCancel(Erase, 0, 1, 0, false, false), map[], map[]))
  {
    var x, s0, ep := fds[i], Start(), InCancel(Erase, 0, 1, 0, false, false);
    var reg: map<Slot, (Tid, nat)> := map[x := (0, 1)];
    var s1 := World(Rec(Blocked, 1, fds, Loop(j, true, [x]), BySwitch, 3), reg, ep, map[], map[]);
    var s2 := World(Rec(Blocked, 1, fds, Add(j, true, [x]), BySwitch, 4), reg, ep, map[], map[]);
    Then(fds, s0, s1, Switch(0, false), s2);
    Then(fds, s0, s2, Switch(0, false), World(Rec(Blocked, 1, fds, Exists([x]), BySwitch, 4), reg, ep, map[], map[]));
  }

  /** The first registration is rolled back. */
  lemma RollsBack(fds: seq<Slot>, i: nat)
    requires i < |fds|
    requires Reach(fds, Start(), World(Rec(Blocked, 1, fds, Exists([fds[i]]), BySwitch, 4),
                                       map[fds[i] := (0, 1)], InCancel(Erase, 0, 1, 0, false, false), map[], map[]))
    ensures Reach(fds, Start(), World(Rec(Blocked, 1, fds, End(false), BySwitch, 2), map[],
                                      InCancel(Erase, 0, 1, 0, false, false), map[], map[]))
  {
    var x, s0, ep := fds[i], Start(), InCancel(Erase, 0, 1, 0, false, false);
    var reg: map<Slot, (Tid, nat)> := map[x := (0, 1)];
    var none: map<Slot, (Tid, nat)> := map[];
    assert reg - {x} == none;
    var s3 := World(Rec(Blocked, 1, fds, Exists([x]), BySwitch, 4), reg, ep, map[], map[]);
    var s4 := World(Rec(Blocked, 1, fds, Roll(0, [x]), BySwitch, 3), reg, ep, map[], map[]);
    var s5 := World(Rec(Blocked, 1, fds, RollDec(0, [x]), BySwitch, 3), none, ep, map[], map[]);
    var s6 := World(Rec(Blocked, 1, fds, Roll(1, [x]), BySwitch, 2), none, ep, map[], map[]);
    var s7 := World(Rec(Blocked, 1, fds, End(false), BySwitch, 2), none, ep, map[], map[]);
    Then(fds, s0, s3, Switch(0, false), s4);
    Then(fds, s0, s4, Switch(0, false), s5);
    Then(fds, s0, s5, Switch(0, false), s6);
    Then(fds, s0, s6, Switch(0, false), s7);
  }

  lemma WakesItself(fds: seq<Slot>)
    requires Reach(fds, Start(), World(Rec(Blocked, 1, fds, End(false), BySwitch, 2), map[],
                                       InCancel(Erase, 0, 1, 0, false, false), map[], map[]))
    ensures Reach(fds, Start(), World(Rec(Ready, 1, fds, Exit, BySwitch, 2), map[],
                                      InCancel(Erase, 0, 1, 0, false, false), map[], map[(0, 1) := 1]))
  {
    var s0, ep := Start(), InCancel(Erase, 0, 1, 0, false, false);
    var s1 := World(Rec(Blocked, 1, fds, End(false), BySwitch, 2), map[], ep, map[], map[]);
    var s2 := World(Rec(Taken, 1, fds, WakeUp, BySwitch, 2), map[], ep, map[], map[]);
    var s3 := World(Rec(Ready, 1, fds, Exit, BySwitch, 2), map[], ep, map[], map[(0, 1) := 1]);
    Then(fds, s0, s1, Switch(0, false), s2);
    Then(fds, s0, s2, Switch(0, false), s3);
  }

  lemma SwitchReturns(fds: seq<Slot>)
    requires |fds| > 1
    requires Reach(fds, Start(), World(Rec(Ready, 1, fds, Exit, BySwitch, 2), map[],
                                       InCancel(Erase, 0, 1, 0, false, false), map[], map[(0, 1) := 1]))
    ensures Reach(fds, Start(), World(Rec(Ready, 1, fds, Off, Free, 1), map[],
                                      InCancel(Erase, 0, 1, 0, false, false), map[], map[(0, 1) := 1]))
  {
    var s0, ep := Start(), InCancel(Erase, 0, 1, 0, false, false);
    var one: map<(Tid, nat), nat> := map[(0, 1) := 1];
    var s1 := World(Rec(Ready, 1, fds, Exit, BySwitch, 2), map[], ep, map[], one);
    var s2 := World(Rec(Ready, 1, fds, Unlock, BySwitch, 1), map[], ep, map[], one);
    var s3 := World(Rec(Ready, 1, fds, Off, Free, 1), map[], ep, map[], one);
    Then(fds, s0, s1, Switch(0, false), s2);
    Then(fds, s0, s2, Switch(0, false), s3);
  }

  /** The task runs and goes on to its next wait. */
  lemma WaitsAgain(fds: seq<Slot>)
    requires Reach(fds, Start(), World(Rec(Ready, 1, fds, Off, Free, 1), map[],
                                       InCancel(Erase, 0, 1, 0, false, false), map[], map[(0, 1) := 1]))
    ensures Reach(fds, Start(), World(Rec(Blocked, 2, [], Loop(0, false, []), Free, 2), map[],
                                      InCancel(Erase, 0, 1, 0, false, false), map[], map[(0, 1) := 1]))
  {
    var s0, ep := Start(), InCancel(Erase, 0, 1, 0, false, false);
    var one: map<(Tid, nat), nat> := map[(0, 1) := 1];
    var s1 := World(Rec(Ready, 1, fds, Off, Free, 1), map[], ep, map[], one);
    var s2 := World(Rec(Resumed, 1, fds, Off, Free, 1), map[], ep, map[], one);
    var s3 := World(Rec(Running, 1, fds, Off, Free, 1), map[], ep, map[], one);
    var s4 := World(Rec(Yielded, 2, [], Enter, Free, 1), map[], ep, map[], one);
    var s5 := World(Rec(Blocked, 2, [], Loop(0, false, []), Free, 2), map[], ep, map[], one);
    Then(fds, s0, s1, Resume(0), s2);
    Then(fds, s0, s2, Hook(0), s3);
    Then(fds, s0, s3, CoSwitch(0, [], false), s4);
    Then(fds, s0, s4, Switch(0, false), s5);
  }

  /** The Cancel of the first wait goes on, and wakes the second. */
  lemma WrongWaitWoken(fds: seq<Slot>) returns (s: State)
    requires Reach(fds, Start(), World(Rec(Blocked, 2, [], Loop(0, false, []), Free, 2), map[],
                                       InCancel(Erase, 0, 1, 0, false, false), map[], map[(0, 1) := 1]))
    ensures Reach(fds, Start(), s) && s.stale
  {
    var s0 := Start();
    var one: map<(Tid, nat), nat> := map[(0, 1) := 1];
    var r := Rec(Taken, 2, [], Loop(0, false, []), Free, 2);
    var s1 := World(r.(loc := Blocked), map[], InCancel(Erase, 0, 1, 0, false, false), map[], one);
    var s2 := World(r, map[], InCancel(TakeLock, 0, 1, 0, false, false), map[], one);
    var s3 := World(r, map[], InCancel(Del, 0, 1, 0, false, false), map[], one);
    var s4 := World(r, map[], InCancel(Wake, 0, 1, 0, false, false), map[], one);
    Then(fds, s0, s1, CancelStep, s2);
    Then(fds, s0, s2, CancelStep, s3);
    Then(fds, s0, s3, CancelStep, s4);
    s := Apply(s4, CancelStep);
    Then(fds, s0, s4, CancelStep, s);
  }

  /** The nearest repetition of the slot at `i`. */
  lemma NextCopy(fds: seq<Slot>, i: nat, k: nat) returns (j: nat)
    requires i < k < |fds| && fds[i] == fds[k]
    ensures i < j <= k && fds[j] == fds[i] && forall q :: i < q < j ==> fds[q] != fds[i]
  {
    j := i + 1;
    while fds[j] != fds[i]
      invariant i < j <= k && forall q :: i < q < j ==> fds[q] != fds[i]
      decreases k - j
    {
      j := j + 1;
    }
  }

  lemma RepeatedSlotFails(fds: seq<Slot>, i: nat, k: nat) returns (s: State)
    requires i < k < |fds| && fds[i] == fds[k]
    ensures Reach(fds, Start(), s) && s.stale
  {
    var j := NextCopy(fds, i, k);
    Begin(fds);
    SkipTo(fds, Start(), 0, i, false, [], 2, map[], Idle);
    EventArrives(fds, i);
    SkipTo(fds, Start(), i + 1, j, true, [fds[i]], 3, map[fds[i] := (0, 1)], InCancel(Erase, 0, 1, 0, false, false));
    SlotIsTaken(fds, i, j);
    RollsBack(fds, i);
    WakesItself(fds);
    SwitchReturns(fds);
    WaitsAgain(fds);
    s := WrongWaitWoken(fds);
  }

  /**
    A single task that waits for `fds` (or for nothing), any number of times and in any schedule,
    never has a wait woken on behalf of another one if and only if `fds` names no slot twice.
  */
  lemma SafeExactlyWhenDistinct(fds: seq<Slot>)
    ensures (forall s :: Reach(fds, Start(), s) ==> !s.stale) <==> NoDup(fds)
  {
    if NoDup(fds) {
      forall s | Reach(fds, Start(), s) ensures !s.stale {
        var acts :| SoloRun(fds, Start(), acts, s);
        SoloIsPolite(fds, Start(), acts, s);
        WokenExactlyOnce(acts, s, 0, 0);
      }
    } else {
      var i, k :| !Apart(fds, i, k);
      var s := RepeatedSlotFails(fds, i, k);
    }
  }
}
