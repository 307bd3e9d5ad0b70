/**
  A scheduler thread: Processer::Run and Scheduler::DoRunnable, with everything that other threads
  and the running tasks do in between given as arbitrary actions.
*/
module Scheduler {
  import opened Counting
  import opened Semaphore
  import opened Runtime

  /** What happens while one task has the processer, and the state it comes back in. */
  datatype Slice = Slice(acts: seq<Act>, how: Outcome)

  /** Actions of others than the thread that runs processer `p`, and no walk of a BlockWakeup that goes astray. */
  predicate Foreign(a: Act, p: Pid)
  {
    match a
    case Pick(r) => r != p
    case Begin(r) => r != p
    case Out(r, _, _) => r != p
    case End(r) => r != p
    case Settle(r) => r != p
    case _ => Clean(a)
  }

  /** Actions possible while no other thread runs a processer: creating and waking tasks. */
  predicate Solo(a: Act)
  {
    !a.Pick? && !a.Begin? && !a.Out? && !a.End? && !a.Settle? && Clean(a)
  }

  predicate Creates(a: Act) { a.Create? || a.Enlist? }

  ghost predicate ForeignActs(acts: seq<Act>, p: Pid) { forall j :: 0 <= j < |acts| ==> Foreign(acts[j], p) }
  ghost predicate CalmActs(acts: seq<Act>) { forall j :: 0 <= j < |acts| ==> Solo(acts[j]) && !Creates(acts[j]) }

  /** Whoever runs meanwhile, nobody touches processer `p`. */
  ghost predicate AllForeign(script: seq<Slice>, p: Pid) { forall i :: 0 <= i < |script| ==> ForeignActs(script[i].acts, p) }

  /** No task is created and none finishes, and no other thread runs a processer. */
  ghost predicate Calm(script: seq<Slice>)
  {
    forall i :: 0 <= i < |script| ==> !script[i].how.Done? && CalmActs(script[i].acts)
  }

  lemma CalmIsForeign(acts: seq<Act>, r: Pid)
    requires CalmActs(acts)
    ensures ForeignActs(acts, r)
  {
    forall j | 0 <= j < |acts| ensures Foreign(acts[j], r) { assert Solo(acts[j]); }
  }

  /** What belongs to the thread that runs a processer. */
  predicate Kept(w: World, w': World, r: Pid)
  {
    && Q(w', Batch(r)) == Q(w, Batch(r)) && Num(w'.undone, r) == Num(w.undone, r)
    && Num(w'.count, r) == Num(w.count, r)
  }

  /** A processer that is picking tasks, not running them. */
  predicate SameRun(w: World, w': World, r: Pid)
  {
    Q(w', Batch(r)) == Q(w, Batch(r)) && Num(w'.undone, r) == Num(w.undone, r)
  }

  /** Another thread's action leaves this processer's batch, its report and its count alone. */
  lemma ForeignLeaves(w: World, a: Act, p: Pid)
    requires Enabled(w, a) && Foreign(a, p)
    ensures Kept(w, Apply(w, a), p) && Apply(w, a).procs == w.procs
  {
    match a
    case Out(r, i, how) => OutLeavesOthers(w, r, i, how, p);
    case Wake(_, _, _) => WakeLeaves(w, a, p);
    case Release(h) => ReleaseLeaves(w, h, w.walk[h].u, p);
    case _ =>
  }

  lemma WakeLeaves(w: World, a: Act, p: Pid)
    requires Enabled(w, a) && a.Wake?
    ensures Kept(w, Apply(w, a), p) && Apply(w, a).procs == w.procs
  {
  }

  lemma ReleaseLeaves(w: World, h: nat, u: Tid, p: Pid)
    ensures Kept(w, HandedOver(w, h, u), p) && HandedOver(w, h, u).procs == w.procs
  {
  }

  lemma OutLeavesOthers(w: World, r: Pid, i: nat, how: Outcome, p: Pid)
    requires r != p && i < |Q(w, Batch(r))|
    ensures Kept(w, SwitchedOut(w, r, i, how), p) && SwitchedOut(w, r, i, how).procs == w.procs
  {
  }

  lemma CalmLeaves(w: World, a: Act)
    requires Inv(w) && Enabled(w, a) && Solo(a) && !Creates(a)
    ensures SameTasks(w, Apply(w, a))
  {
    match a
    case Grab(from, i, h) => MoveSameTasks(w, from, i, Hand(h));
    case Deliver(h) => MoveSameTasks(w, Hand(h), 0, Runnable(w.home[Q(w, Hand(h))[0]]));
    case Wake(from, n, h) => WakeSameTasks(w, from, n, h);
    case Release(h) =>
      ReleaseIsMove(w, h);
      MoveSameTasks(w, Popped(h), 0, Runnable(w.home[w.walk[h].u]));
    case _ =>
  }

  lemma WakeSameTasks(w: World, from: Place, n: nat, h: nat)
    requires Enabled(w, Wake(from, n, h))
    ensures SameTasks(w, Apply(w, Wake(from, n, h)))
  {
  }

  lemma OutLeaves(w: World, p: Pid, i: nat, how: Outcome)
    requires Placed(w) && p < w.procs && i < |Q(w, Batch(p))|
    ensures !how.Done? ==> SameTasks(w, SwitchedOut(w, p, i, how))
    ensures forall r :: r != p ==> Kept(w, SwitchedOut(w, p, i, how), r)
    ensures Num(SwitchedOut(w, p, i, how).undone, p) == Num(w.undone, p) + One(how.Done?)
    ensures Num(SwitchedOut(w, p, i, how).count, p) <= Num(w.count, p)
  {
    if !how.Done? { OutSameTasks(w, p, i, how); }
    forall r | r != p ensures Kept(w, SwitchedOut(w, p, i, how), r) { OutLeavesOthers(w, p, i, how, r); }
  }

  function Max(a: int, b: int): int
  {
    if a > b then a else b
  }

  /** task_c / proc_c + (task_c % proc_c ? 1 : 0) */
  function CeilDiv(a: int, b: nat): int
    requires b > 0
  {
    a / b + if a % b != 0 then 1 else 0
  }

  predicate IdleProc(w: World, r: Pid) { Q(w, Batch(r)) == [] && Num(w.undone, r) == 0 }

  /** None of these processers is being run. */
  ghost predicate IdleIn(w: World, ps: seq<Pid>) { forall r :: r in ps ==> IdleProc(w, r) }

  /** All processers are in the list: there is no other scheduler thread at work. */
  ghost predicate Alone(w: World, ps: seq<Pid>) { |ps| == w.procs && forall r: nat :: r < w.procs ==> r in ps }

  lemma {:induction false} SumIdle(w: World, ps: seq<Pid>, n: nat)
    requires IdleIn(w, ps) && Alone(w, ps) && n <= w.procs
    ensures Sum(w.undone, n) == 0
  {
    if n > 0 { assert IdleProc(w, n - 1); SumIdle(w, ps, n - 1); }
  }

  lemma IdleCounts(w: World, ps: seq<Pid>)
    requires Inv(w) && IdleIn(w, ps) && Alone(w, ps)
    ensures w.taskCount == Sum(w.count, w.procs) + |Q(w, RunTasks)| + |Q(w, Creating)|
  {
    CountsAgree(w);
    SumIdle(w, ps, w.procs);
  }

  predicate Grew(w0: World, w: World, r: Pid, average: int)
  {
    Num(w0.count, r) <= Num(w.count, r) <= Max(Num(w0.count, r), average)
  }

  /** After i processers of a calm pass: nobody over the mark, and the visited ones filled up to it. */
  ghost predicate Balanced(w0: World, w: World, order: seq<Pid>, i: nat)
    requires w0.procs > 0 && i <= |order|
  {
    var average := CeilDiv(w0.taskCount, w0.procs);
    && w.taskCount == w0.taskCount
    && (forall r :: Grew(w0, w, r, average))
    && (Q(w, RunTasks) == [] || forall j :: 0 <= j < i ==> Num(w.count, order[j]) >= average)
  }

  predicate AtLeast(m: map<Pid, nat>, r: Pid, v: int) { Num(m, r) >= v }

  lemma {:induction false} SumAtLeast(m: map<Pid, nat>, n: nat, v: int)
    requires forall r: nat :: r < n ==> AtLeast(m, r, v)
    ensures Sum(m, n) >= n * v
  {
    if n > 0 {
      assert AtLeast(m, n - 1, v);
      SumAtLeast(m, n - 1, v);
      assert n * v == (n - 1) * v + v;
    }
  }

  /** It is the average, rounded up: the least number of which `b` make up `a`. */
  lemma CeilDivIsLeast(a: int, b: nat, c: int)
    requires b > 0
    ensures b * c >= a <==> c >= CeilDiv(a, b)
  {
    CeilTimes(a, b);
    var q := CeilDiv(a, b);
    assert b * (q - 1) < a by { assert a == b * (a / b) + a % b; assert b * (q - 1) == b * q - b; }
    if c >= q { assert b * c >= b * q; } else { assert b * c <= b * (q - 1); }
  }

  lemma CeilTimes(a: int, b: nat)
    requires b > 0
    ensures b * CeilDiv(a, b) >= a
  {
    assert a == b * (a / b) + a % b;
    if a % b != 0 { assert b * (a / b + 1) == b * (a / b) + b; }
  }

  lemma BalancedStep(w0: World, b: World, w: World, order: seq<Pid>, i: nat)
    requires w0.procs > 0 && i < |order| && Balanced(w0, b, order, i)
    requires w.taskCount == b.taskCount
    requires var average := CeilDiv(w0.taskCount, w0.procs);
             && (forall r :: Grew(b, w, r, average))
             && (Q(w, RunTasks) == [] || (Num(w.count, order[i]) >= average && Q(b, RunTasks) != []))
    ensures Balanced(w0, w, order, i + 1)
  {
    var average := CeilDiv(w0.taskCount, w0.procs);
    forall r ensures Grew(w0, w, r, average) { assert Grew(w0, b, r, average) && Grew(b, w, r, average); }
    if Q(w, RunTasks) != [] {
      forall j | 0 <= j < i + 1 ensures Num(w.count, order[j]) >= average { assert Grew(b, w, order[j], average); }
    }
  }

  /** Filling every processer up to the rounded average uses up run_tasks_. */
  lemma NothingLeft(w0: World, w: World, order: seq<Pid>)
    requires Inv(w) && IdleIn(w, order) && Alone(w, order) && w.procs == w0.procs > 0
    requires Balanced(w0, w, order, |order|)
    ensures Q(w, RunTasks) == []
  {
    IdleCounts(w, order);
    if Q(w, RunTasks) != [] {
      var average := CeilDiv(w0.taskCount, w0.procs);
      forall r: nat | r < w.procs ensures AtLeast(w.count, r, average) {
        assert r in order;
        var j :| 0 <= j < |order| && order[j] == r;
      }
      SumAtLeast(w.count, w.procs, average);
      CeilTimes(w0.taskCount, w0.procs);
    }
  }

  lemma Rotated(order: seq<Pid>, i: nat)
    requires i <= |order|
    ensures forall p :: p in order[i..] + order[..i] <==> p in order
  {
    assert order == order[..i] + order[i..];
  }

  /** What Run has kept so far, with `done` tasks finished. */
  ghost predicate Progress(w0: World, w: World, p: Pid, script: seq<Slice>, done: nat)
  {
    && w.procs == w0.procs && Num(w.undone, p) == done && Num(w.count, p) <= Num(w0.count, p)
    && (forall r :: r != p && AllForeign(script, r) ==> Kept(w0, w, r))
    && (Calm(script) ==> done == 0 && SameTasks(w0, w))
  }

  lemma ProgressStep(w0: World, b: World, w: World, p: Pid, script: seq<Slice>, done: nat, slice: Slice)
    requires Progress(w0, b, p, script, done) && w.procs == b.procs
    requires slice in script || slice == Slice([], Yielded)
    requires Num(w.undone, p) == done + One(slice.how.Done?) && Num(w.count, p) <= Num(b.count, p)
    requires forall r :: r != p && ForeignActs(slice.acts, r) ==> Kept(b, w, r)
    requires !slice.how.Done? && CalmActs(slice.acts) ==> SameTasks(b, w)
    ensures Progress(w0, w, p, script, done + One(slice.how.Done?))
    ensures Calm(script) ==> !slice.how.Done?
  {
    forall r | r != p && AllForeign(script, r) ensures Kept(w0, w, r) {
      assert ForeignActs(slice.acts, r);
      assert Kept(w0, b, r) && Kept(b, w, r);
    }
  }

  /** One turn of DoRunnable: what others do before it, between its picks, while tasks run, and before its report. */
  datatype TurnScript = TurnScript(before: seq<Act>, picks: seq<seq<Act>>, slices: seq<Slice>, after: seq<Act>)

  ghost predicate PicksForeign(picks: seq<seq<Act>>, r: Pid) { forall i :: 0 <= i < |picks| ==> ForeignActs(picks[i], r) }

  ghost predicate TurnForeign(ts: TurnScript, r: Pid)
  {
    ForeignActs(ts.before, r) && PicksForeign(ts.picks, r) && AllForeign(ts.slices, r) && ForeignActs(ts.after, r)
  }

  ghost predicate PicksCalm(picks: seq<seq<Act>>) { forall i :: 0 <= i < |picks| ==> CalmActs(picks[i]) }

  ghost predicate TurnCalm(ts: TurnScript)
  {
    CalmActs(ts.before) && PicksCalm(ts.picks) && Calm(ts.slices) && CalmActs(ts.after)
  }

  lemma CalmTurnIsForeign(ts: TurnScript, r: Pid)
    requires TurnCalm(ts)
    ensures TurnForeign(ts, r)
  {
    CalmIsForeign(ts.before, r);
    CalmIsForeign(ts.after, r);
    forall i | 0 <= i < |ts.picks| ensures ForeignActs(ts.picks[i], r) { CalmIsForeign(ts.picks[i], r); }
    forall i | 0 <= i < |ts.slices| ensures ForeignActs(ts.slices[i].acts, r) { CalmIsForeign(ts.slices[i].acts, r); }
  }

  /** After i turns of a pass over the processers `order`. */
  ghost predicate Pass(w0: World, w: World, order: seq<Pid>, i: nat, calm: bool)
    requires i <= |order|
  {
    && Inv(w) && w.procs == w0.procs && IdleIn(w, order)
    && (calm ==> w.procs > 0 && Balanced(w0, w, order, i))
  }

  lemma PassEnd(w0: World, w: World, order: seq<Pid>, calm: bool)
    requires Pass(w0, w, order, if calm then |order| else 0, calm) && (calm ==> Alone(w, order))
    ensures w.taskCount == Sum(w.count, w.procs) + |Q(w, RunTasks)| + |Q(w, Creating)| + Sum(w.undone, w.procs)
    ensures Alone(w, order) ==> Sum(w.undone, w.procs) == 0
    ensures calm ==>
              && w.taskCount == w0.taskCount && Q(w, RunTasks) == []
              && (forall p: nat :: p < w.procs ==> Num(w.count, p) <= Max(Num(w0.count, p), CeilDiv(w0.taskCount, w.procs)))
  {
    CountsAgree(w);
    if Alone(w, order) { SumIdle(w, order, w.procs); }
    if calm {
      NothingLeft(w0, w, order);
      forall p: nat | p < w.procs ensures Num(w.count, p) <= Max(Num(w0.count, p), CeilDiv(w0.taskCount, w.procs)) {
        assert Grew(w0, w, p, CeilDiv(w0.taskCount, w0.procs));
      }
    }
  }

  class Threads {
    var w: World
    var procList: seq<Pid>   // run_proc_list_: the processers no other thread is running

    ghost predicate Valid()
      reads this
    {
      Inv(w) && IdleIn(w, procList) && (forall p :: p in procList ==> p < w.procs)
    }

    /** What the rest of the program does meanwhile. */
    method Interfere(acts: seq<Act>, p: Pid)
      requires Inv(w) && ForeignActs(acts, p)
      modifies this`w
      ensures Inv(w) && w.procs == old(w.procs)
      ensures forall r :: ForeignActs(acts, r) ==> Kept(old(w), w, r)
      ensures CalmActs(acts) ==> SameTasks(old(w), w)
    {
      ghost var w0 := w;
      for i := 0 to |acts|
        invariant Inv(w) && w.procs == w0.procs
        invariant forall r :: ForeignActs(acts, r) ==> Kept(w0, w, r)
        invariant CalmActs(acts) ==> SameTasks(w0, w)
      {
        if Enabled(w, acts[i]) {
          assert Foreign(acts[i], p);
          Preserved(w, acts[i]);
          ForeignLeaves(w, acts[i], p);
          forall r | ForeignActs(acts, r) ensures Kept(w0, Apply(w, acts[i]), r) {
            assert Kept(w0, w, r);
            ForeignLeaves(w, acts[i], r);
          }
          if CalmActs(acts) { CalmLeaves(w, acts[i]); }
          w := Apply(w, acts[i]);
        }
      }
    }

    /** The switch in Processer::Run; the iterator moves on when the task stays in the batch. */
    method Dispatch(p: Pid, it: nat, how: Outcome) returns (next: nat)
      requires p < w.procs && it < |Q(w, Batch(p))|
      modifies this`w
      ensures w == SwitchedOut(old(w), p, it, how)
      ensures Q(w, Batch(p)) == if next > it then old(Q(w, Batch(p))) else Remove(old(Q(w, Batch(p))), it)
      ensures next == it || next == it + 1
    {
      var tk := Q(w, Batch(p))[it];
      match how {
        case Yielded => next := it + 1;
        case IoBlock => next := it; w := Move(w, Batch(p), it, IoWait);
        case Sleeping => next := it; w := Move(w, Batch(p), it, Asleep);
        case SysBlock(b) =>
          next := it;
          var n := Num(w.tokens, SemQ(b));
          if n > 0 {   // AddWaitTask refused: the permit came meanwhile
            w := Move(w, Batch(p), it, Runnable(p)).(tokens := w.tokens[SemQ(b) := n - 1]);
          } else {
            w := Move(w, Batch(p), it, SemQ(b));
          }
        case UserBlock(ty, id) =>
          var n := Num(w.tokens, UserQ(ty, id));
          if n > 0 {
            w := w.(tokens := w.tokens[UserQ(ty, id) := n - 1]);
            next := it + 1;
          } else {
            w := Move(w, Batch(p), it, UserQ(ty, id));
            next := it;
          }
        case Done(_) => next := it; w := Finished(w, p, it);
      }
    }

    method PopAll(p: Pid)
      requires Inv(w) && p < w.procs && Q(w, Batch(p)) == []
      modifies this`w
      ensures Inv(w) && SameTasks(old(w), w) && w.undone == old(w.undone) && w.procs == old(w.procs)
      ensures forall r :: r != p ==> Kept(old(w), w, r)
      ensures Q(w, Batch(p)) == old(Q(w, Runnable(p)))
    {
      Preserved(w, Begin(p));
      SpliceKeepsPlaced(w, Runnable(p), Batch(p));
      w := Apply(w, Begin(p));
      forall r | r != p ensures Kept(old(w), w, r) {
      }
    }

    method PushBack(p: Pid)
      requires Inv(w) && p < w.procs
      modifies this`w
      ensures Inv(w) && SameTasks(old(w), w) && w.undone == old(w.undone) && w.procs == old(w.procs)
      ensures forall r :: r != p ==> Kept(old(w), w, r)
      ensures Q(w, Batch(p)) == [] && Q(w, Runnable(p)) == old(Q(w, Runnable(p)) + Q(w, Batch(p)))
    {
      Preserved(w, End(p));
      SpliceKeepsPlaced(w, Batch(p), Runnable(p));
      w := Apply(w, End(p));
      forall r | r != p ensures Kept(old(w), w, r) {
      }
    }

    /** One turn of the loop: the task runs, meanwhile anything happens, then the dispatch. */
    method Turn(p: Pid, it: nat, slice: Slice) returns (next: nat)
      requires Inv(w) && p < w.procs && it < |Q(w, Batch(p))|
      requires ForeignActs(slice.acts, p)
      modifies this`w
      ensures Inv(w) && w.procs == old(w.procs)
      ensures it <= next <= |Q(w, Batch(p))| && |Q(w, Batch(p))| - next == old(|Q(w, Batch(p))|) - it - 1
      ensures Num(w.undone, p) == old(Num(w.undone, p)) + One(slice.how.Done?) && Num(w.count, p) <= old(Num(w.count, p))
      ensures forall r :: r != p && ForeignActs(slice.acts, r) ==> Kept(old(w), w, r)
      ensures !slice.how.Done? && CalmActs(slice.acts) ==> SameTasks(old(w), w)
    {
      ghost var w0 := w;
      Interfere(slice.acts, p);
      ghost var w1 := w;
      assert Kept(w0, w1, p);
      Preserved(w, Out(p, it, slice.how));
      OutLeaves(w, p, it, slice.how);
      next := Dispatch(p, it, slice.how);
      forall r | r != p && ForeignActs(slice.acts, r) ensures Kept(w0, w, r) { assert Kept(w0, w1, r) && Kept(w1, w, r); }
    }

    /**
      Processer::Run.  Whatever the tasks and the other threads do, and also when a task's
      exception ends the pass, the batch goes back whole, every task keeps its one place, and
      `done` is what the scheduler still has to subtract.
    */
    method Run(p: Pid, script: seq<Slice>) returns (done: nat, thrown: bool)
      requires Inv(w) && p < w.procs && IdleProc(w, p)
      requires AllForeign(script, p)
      modifies this`w
      ensures Inv(w) && w.procs == old(w.procs) && Q(w, Batch(p)) == []
      ensures Num(w.undone, p) == done && Num(w.count, p) <= old(Num(w.count, p))
      ensures forall r :: r != p && AllForeign(script, r) ==> Kept(old(w), w, r)
      ensures Calm(script) ==> !thrown && done == 0 && SameTasks(old(w), w)
      ensures thrown ==> done > 0
    {
      ghost var w0 := w;
      PopAll(p);
      done, thrown := 0, false;
      var c, it := 0, 0;
      while it < |Q(w, Batch(p))|
        invariant Inv(w) && Progress(w0, w, p, script, done) && it <= |Q(w, Batch(p))|
        decreases |Q(w, Batch(p))| - it
      {
        var slice := if c < |script| then script[c] else Slice([], Yielded);
        ghost var before := w;
        it := Turn(p, it, slice);
        ProgressStep(w0, before, w, p, script, done, slice);
        if slice.how.Done? {
          done := done + 1;
          if slice.how.threw {   // delayed rethrow: the rest of the batch is pushed back first
            thrown := true;
            break;
          }
        }
        c := c + 1;
      }
      ghost var last := w;
      PushBack(p);
      forall r | r != p && AllForeign(script, r) ensures Kept(w0, w, r) { assert Kept(w0, last, r) && Kept(last, w, r); }
    }

    /** One pick, after whatever other threads have done since the last one. */
    method PickOne(p: Pid, acts: seq<Act>) returns (ok: bool)
      requires Inv(w) && p < w.procs && ForeignActs(acts, p)
      modifies this`w
      ensures Inv(w) && w.procs == old(w.procs) && SameRun(old(w), w, p)
      ensures Num(w.count, p) == old(Num(w.count, p)) + One(ok) && (!ok ==> Q(w, RunTasks) == [])
      ensures forall r :: r != p && ForeignActs(acts, r) ==> Kept(old(w), w, r)
      ensures CalmActs(acts) ==> w.taskCount == old(w.taskCount)
    {
      ghost var w0 := w;
      Interfere(acts, p);
      assert Kept(w0, w, p);
      if Q(w, RunTasks) == [] { return false; }
      Preserved(w, Pick(p));
      ghost var w1 := w;
      w := Apply(w, Pick(p));
      forall r | r != p && ForeignActs(acts, r) ensures Kept(w0, w, r) { assert Kept(w0, w1, r); }
      return true;
    }

    /** The cherry-picking loop of DoRunnable, with other threads at work between the picks. */
    method PickTasks(p: Pid, average: int, others: seq<seq<Act>>)
      requires Inv(w) && p < w.procs && PicksForeign(others, p)
      modifies this`w
      ensures Inv(w) && w.procs == old(w.procs) && SameRun(old(w), w, p)
      ensures Grew(old(w), w, p, average) && (Q(w, RunTasks) == [] || Num(w.count, p) >= average)
      ensures forall r :: r != p && PicksForeign(others, r) ==> Kept(old(w), w, r)
      ensures PicksCalm(others) ==> w.taskCount == old(w.taskCount)
    {
      ghost var w0 := w;
      var ti, k := Num(w.count, p), 0;
      while ti < average
        invariant Inv(w) && w.procs == w0.procs && SameRun(w0, w, p)
        invariant ti == Num(w.count, p) && Num(w0.count, p) <= ti <= Max(Num(w0.count, p), average)
        invariant forall r :: r != p && PicksForeign(others, r) ==> Kept(w0, w, r)
        invariant PicksCalm(others) ==> w.taskCount == w0.taskCount
      {
        ghost var b := w;
        var acts := if k < |others| then others[k] else [];
        assert forall r :: PicksForeign(others, r) ==> ForeignActs(acts, r);
        var ok := PickOne(p, acts);
        forall r | r != p && PicksForeign(others, r) ensures Kept(w0, w, r) { assert Kept(w0, b, r) && Kept(b, w, r); }
        if !ok { break; }
        k, ti := k + 1, ti + 1;
      }
    }

    /**
      The turn of the first processer in the list, from the reading of task_count_ on: it is served
      and put back.  Whatever other threads do with theirs, it is not raised above the larger of its
      old count and the average over the `procC` processers listed when the pass began, rounded up.
    */
    method OneProcesser(procC: nat, ts: TurnScript) returns (thrown: bool)
      requires Inv(w) && procC > 0 && procList != [] && procList[0] < w.procs
      requires IdleProc(w, procList[0]) && TurnForeign(ts, procList[0])
      modifies this
      ensures Inv(w) && w.procs == old(w.procs) && procList == old(procList[1..] + [procList[0]])
      ensures IdleProc(w, old(procList[0])) && forall r :: r != old(procList[0]) && TurnForeign(ts, r) ==> Kept(old(w), w, r)
      ensures var p := old(procList[0]); Num(w.count, p) <= Max(old(Num(w.count, p)), CeilDiv(old(w.taskCount), procC))
      ensures TurnCalm(ts) ==>
                var p, average := old(procList[0]), CeilDiv(w.taskCount, procC);
                && !thrown && w.taskCount == old(w.taskCount) && old(Num(w.count, p)) <= Num(w.count, p)
                && (Q(w, RunTasks) == [] || (Num(w.count, p) >= average && old(Q(w, RunTasks)) != []))
    {
      ghost var w0 := w;
      var p := procList[0];
      procList := procList[1..];
      if Q(w, RunTasks) != [] { PickTasks(p, CeilDiv(w.taskCount, procC), ts.picks); }
      ghost var w1 := w;
      var done;
      done, thrown := Run(p, ts.slices);
      ghost var w2 := w;
      Report(p, ts.after);
      forall r | r != p && TurnForeign(ts, r) ensures Kept(w0, w, r) { assert Kept(w1, w2, r) && Kept(w2, w, r); }
      procList := procList + [p];
    }

    /** task_count_ -= done_count. */
    method Report(p: Pid, acts: seq<Act>)
      requires Inv(w) && p < w.procs && Q(w, Batch(p)) == [] && ForeignActs(acts, p)
      modifies this`w
      ensures Inv(w) && w.procs == old(w.procs) && IdleProc(w, p) && Num(w.count, p) == old(Num(w.count, p))
      ensures forall r :: r != p && ForeignActs(acts, r) ==> Kept(old(w), w, r)
      ensures CalmActs(acts) && old(Num(w.undone, p)) == 0 ==> SameTasks(old(w), w)
    {
      ghost var w0 := w;
      Interfere(acts, p);
      ghost var w1 := w;
      assert Kept(w0, w1, p);
      Preserved(w, Settle(p));
      w := Apply(w, Settle(p));
      forall r | r != p && ForeignActs(acts, r) ensures Kept(w0, w, r) { assert Kept(w0, w1, r); }
    }

    /** Turn `i` of a pass that has served those before it. */
    method PassTurn(procC: nat, ts: TurnScript, ghost w0: World, ghost order: seq<Pid>, ghost i: nat, ghost calm: bool)
      returns (thrown: bool)
      requires i < |order| == procC && procList == order[i..] + order[..i] && Pass(w0, w, order, i, calm)
      requires forall p :: p in order ==> p < w.procs && TurnForeign(ts, p)
      requires calm ==> TurnCalm(ts) && procC == w.procs
      modifies this
      ensures procList == order[i + 1..] + order[..i + 1] && (calm ==> !thrown)
      ensures Pass(w0, w, order, if calm then i + 1 else 0, calm) && (!thrown ==> Pass(w0, w, order, i + 1, calm))
    {
      ghost var b := w;
      var p := procList[0];
      assert p == order[i] && p in order;
      Interfere(ts.before, p);
      ghost var m := w;
      assert IdleProc(b, p) && Kept(b, m, p);
      thrown := OneProcesser(procC, ts);
      assert procList == order[i + 1..] + order[..i + 1];
      forall r | r in order ensures IdleProc(w, r) {
        assert IdleProc(b, r) && TurnForeign(ts, r) && Kept(b, m, r) && (r != p ==> Kept(m, w, r));
      }
      if calm { CalmTurn(w0, b, m, w, order, i, ts); }
    }

    lemma CalmTurn(w0: World, b: World, m: World, w: World, order: seq<Pid>, i: nat, ts: TurnScript)
      requires w0.procs > 0 && i < |order| && Balanced(w0, b, order, i) && SameTasks(b, m) && TurnCalm(ts)
      requires var p, average := order[i], CeilDiv(w0.taskCount, w0.procs);
               && w.taskCount == m.taskCount && Num(m.count, p) <= Num(w.count, p) <= Max(Num(m.count, p), average)
               && (Q(w, RunTasks) == [] || (Num(w.count, p) >= average && Q(m, RunTasks) != []))
      requires forall r :: r != order[i] && TurnForeign(ts, r) ==> Kept(m, w, r)
      ensures Balanced(w0, w, order, i + 1)
    {
      forall r ensures Grew(b, w, r, CeilDiv(w0.taskCount, w0.procs)) {
        CalmTurnIsForeign(ts, r);
        assert r != order[i] ==> Kept(m, w, r);
      }
      BalancedStep(w0, b, w, order, i);
    }

    /**
      One pass over the listed processers, whatever other threads do meanwhile with theirs.  The
      counts agree afterwards, also when a task's exception ended the pass.  If no other thread runs
      processers, and no task was created and none finished, no task is left waiting for a processer,
      and none was raised above the larger of its old count and the average, rounded up.
    */
    method DoRunnable(turns: seq<TurnScript>) returns (thrown: bool)
      requires Valid() && |turns| == |procList|
      requires forall i, p :: 0 <= i < |turns| && p in procList ==> TurnForeign(turns[i], p)
      modifies this
      ensures Valid() && |procList| == old(|procList|) && forall p :: p in procList <==> p in old(procList)
      ensures w.taskCount == Sum(w.count, w.procs) + |Q(w, RunTasks)| + |Q(w, Creating)| + Sum(w.undone, w.procs)
      ensures old(Alone(w, procList)) ==> Sum(w.undone, w.procs) == 0
      ensures old(Alone(w, procList)) && (forall i :: 0 <= i < |turns| ==> TurnCalm(turns[i])) ==>
                && !thrown
                && (w.procs > 0 ==> Q(w, RunTasks) == [] && w.taskCount == old(w.taskCount))
                && (forall p: nat :: p < w.procs ==>
                      Num(w.count, p) <= Max(old(Num(w.count, p)), CeilDiv(old(w.taskCount), w.procs)))
    {
      var procC := |procList|;
      ghost var w0, order := w, procList;
      ghost var calm := Alone(w, procList) && w.procs > 0 && forall i :: 0 <= i < |turns| ==> TurnCalm(turns[i]);
      thrown := false;
      ghost var served := 0;
      for i := 0 to procC
        invariant served == i && procList == order[i..] + order[..i]
        invariant Pass(w0, w, order, i, calm) && !thrown
      {
        thrown := PassTurn(procC, turns[i], w0, order, i, calm);
        served := i + 1;
        if thrown { break; }
      }
      Rotated(order, served);
      PassEnd(w0, w, order, calm);
    }
  }
}
