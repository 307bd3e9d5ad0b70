/** Permits and outcomes in the runtime: what a wait costs, and where each outcome of a slice takes the task. */
module RuntimePermits {
  import opened Counting
  import opened Lists
  import opened Semaphore
  import opened Runtime

  /** The queue a task asks to wait in. */
  predicate WaitsIn(how: Outcome, p: Place)
  {
    match how
    case SysBlock(b) => p == SemQ(b)
    case UserBlock(ty, id) => p == UserQ(ty, id)
    case _ => false
  }

  /** Permits of a place asked for by a step: a wait, or a try that succeeds. */
  function Asked(a: Act, p: Place): nat { One(a.Out? && WaitsIn(a.how, p)) + One(a.TryTake? && a.from == p) }

  /** Permits signalled to it: one per wakeup of a BlockObject, `n` by BlockWakeup(n), which releases one even for none. */
  function Signalled(w: World, a: Act, p: Place): nat
  {
    match a
    case Store(from) => One(from == p)
    case Grab(from, _, _) => One(from == p)
    case Wake(from, n, _) => if from == p then (if n == 0 then Taken(w, from, n) else n) else 0
    case _ => 0
  }

  /** The waits that permits do not cover, or minus the permits stored. */
  function Short(w: World, p: Place): int { |Q(w, p)| - Num(w.tokens, p) }

  lemma MoveBalance(w: World, a: Place, i: nat, b: Place, x: Place)
    requires i < |Q(w, a)| && a != b && !IsWait(a) && IsWait(x)
    ensures |Q(Move(w, a, i, b), x)| == |Q(w, x)| + One(x == b) && Move(w, a, i, b).tokens == w.tokens
  {
  }

  lemma OutBalance(w: World, p: Pid, i: nat, how: Outcome, x: Place)
    requires i < |Q(w, Batch(p))| && IsWait(x)
    ensures Short(SwitchedOut(w, p, i, how), x) == Short(w, x) + One(WaitsIn(how, x))
  {
    match how
    case Yielded =>
    case IoBlock => MoveBalance(w, Batch(p), i, IoWait, x);
    case Sleeping => MoveBalance(w, Batch(p), i, Asleep, x);
    case SysBlock(b) => SysBalance(w, p, i, b, x);
    case UserBlock(ty, id) => UserBalance(w, p, i, ty, id, x);
    case Done(_) => FinishedBalance(w, p, i, x);
  }

  lemma SysBalance(w: World, p: Pid, i: nat, b: nat, x: Place)
    requires i < |Q(w, Batch(p))| && IsWait(x)
    ensures Short(SwitchedOut(w, p, i, SysBlock(b)), x) == Short(w, x) + One(x == SemQ(b))
  {
    MoveBalance(w, Batch(p), i, Runnable(p), x);
    MoveBalance(w, Batch(p), i, SemQ(b), x);
  }

  lemma UserBalance(w: World, p: Pid, i: nat, ty: int, id: nat, x: Place)
    requires i < |Q(w, Batch(p))| && IsWait(x)
    ensures Short(SwitchedOut(w, p, i, UserBlock(ty, id)), x) == Short(w, x) + One(x == UserQ(ty, id))
  {
    MoveBalance(w, Batch(p), i, UserQ(ty, id), x);
  }

  lemma FinishedBalance(w: World, p: Pid, i: nat, x: Place)
    requires i < |Q(w, Batch(p))| && IsWait(x)
    ensures Short(Finished(w, p, i), x) == Short(w, x)
  {
  }

  lemma WakeBalance(w: World, from: Place, n: nat, h: nat, x: Place)
    requires IsWait(x) && from.UserQ?
    ensures Short(Runtime.Woken(w, from, n, h), x) == Short(w, x) - Signalled(w, Wake(from, n, h), x)
  {
  }

  lemma HandBalance(w: World, a: Act, x: Place)
    requires Enabled(w, a) && IsWait(x) && (a.Grab? || a.Deliver? || a.Store? || a.TryTake?)
    ensures Short(Apply(w, a), x) == Short(w, x) + Asked(a, x) - Signalled(w, a, x)
  {
  }

  lemma ReleaseBalance(w: World, h: nat, u: Tid, x: Place)
    requires IsWait(x)
    ensures Short(HandedOver(w, h, u), x) == Short(w, x)
  {
    if Q(w, Popped(h)) != [] && Q(w, Popped(h))[0] == u {
      MoveBalance(w, Popped(h), 0, Target(w, u), x);
    } else {
      AgainBalance(w, u, x);
    }
  }

  lemma AgainBalance(w: World, u: Tid, x: Place)
    requires IsWait(x)
    ensures Short(QueuedAgain(w, u), x) == Short(w, x)
  {
  }

  lemma OtherBalance(w: World, a: Act, x: Place)
    requires Enabled(w, a) && IsWait(x)
    requires !a.Out? && !a.Wake? && !a.Release? && !a.Grab? && !a.Deliver? && !a.Store? && !a.TryTake?
    ensures Short(Apply(w, a), x) == Short(w, x)
  {
  }

  lemma StepBalance(w: World, a: Act, x: Place)
    requires Enabled(w, a) && IsWait(x)
    ensures Short(Apply(w, a), x) == Short(w, x) + Asked(a, x) - Signalled(w, a, x)
  {
    match a
    case Out(p, i, how) => OutBalance(w, p, i, how, x);
    case Wake(from, n, h) => WakeBalance(w, from, n, h, x);
    case Release(h) => ReleaseBalance(w, h, w.walk[h].u, x);
    case Grab(_, _, _) => HandBalance(w, a, x);
    case Deliver(_) => HandBalance(w, a, x);
    case Store(_) => HandBalance(w, a, x);
    case TryTake(_) => HandBalance(w, a, x);
    case _ => OtherBalance(w, a, x);
  }

  function AllAsked(acts: seq<Act>, x: Place): nat
  {
    if acts == [] then 0 else Asked(acts[0], x) + AllAsked(acts[1..], x)
  }

  ghost function AllSignalled(w: World, acts: seq<Act>, x: Place): nat
    decreases |acts|
  {
    if acts == [] || !Enabled(w, acts[0]) then 0 else Signalled(w, acts[0], x) + AllSignalled(Apply(w, acts[0]), acts[1..], x)
  }

  lemma {:induction false} RunBalance(from: World, acts: seq<Act>, to: World, x: Place)
    requires IsRun(from, acts, to) && IsWait(x)
    ensures Short(to, x) == Short(from, x) + AllAsked(acts, x) - AllSignalled(from, acts, x)
    decreases |acts|
  {
    if acts != [] {
      StepBalance(from, acts[0], x);
      RunBalance(Apply(from, acts[0]), acts[1..], to, x);
    }
  }

  /**
    Permits are neither lost nor made up, in every run and for every semaphore and every key: as many
    tasks wait as permits are missing, and as many permits are stored as are left over.
  */
  lemma WaitersExact(procs: nat, acts: seq<Act>, w: World, x: Place)
    requires IsRun(Start(procs), acts, w) && CleanActs(acts) && IsWait(x)
    ensures var missing := AllAsked(acts, x) - AllSignalled(Start(procs), acts, x);
            && |Q(w, x)| == (if missing > 0 then missing else 0)
            && Num(w.tokens, x) == (if missing < 0 then -missing else 0)
  {
    StartsWell(procs);
    RunKeepsInv(Start(procs), acts, w);
    RunBalance(Start(procs), acts, w, x);
    assert TokenOk(w, x);
  }

  // ---------------------------------------------------------------- first come, first served

  /** The task a step puts into run_tasks_. */
  function Enlisted(w: World, a: Act): seq<Tid>
  {
    if a.Enlist? && a.i < |Q(w, Creating)| then [Q(w, Creating)[a.i]] else []
  }

  /** The task a step gives to a processer: the last in its runnable list. */
  function Served(a: Act, w': World): seq<Tid>
  {
    if a.Pick? && Q(w', Runnable(a.p)) != [] then [Q(w', Runnable(a.p))[|Q(w', Runnable(a.p))| - 1]] else []
  }

  lemma PickServes(w: World, p: Pid)
    requires Enabled(w, Pick(p))
    ensures Q(w, RunTasks) == Served(Pick(p), Apply(w, Pick(p))) + Q(Apply(w, Pick(p)), RunTasks)
  {
  }

  lemma OthersLeaveNew(w: World, a: Act)
    requires Inv(w) && Enabled(w, a) && Clean(a) && !a.Pick? && !a.Enlist?
    ensures Q(Apply(w, a), RunTasks) == Q(w, RunTasks)
  {
    match a
    case Out(p, i, how) => OutLeavesNew(w, p, i, how);
    case Release(h) => ReleaseIsMove(w, h);
    case _ =>
  }

  lemma OutLeavesNew(w: World, p: Pid, i: nat, how: Outcome)
    requires i < |Q(w, Batch(p))|
    ensures Q(SwitchedOut(w, p, i, how), RunTasks) == Q(w, RunTasks)
  {
  }

  lemma StepInOrder(w: World, a: Act)
    requires Inv(w) && Enabled(w, a) && Clean(a)
    ensures Q(w, RunTasks) + Enlisted(w, a) == Served(a, Apply(w, a)) + Q(Apply(w, a), RunTasks)
  {
    if a.Pick? { PickServes(w, a.p); } else if !a.Enlist? { OthersLeaveNew(w, a); }
  }

  ghost function AllEnlisted(w: World, acts: seq<Act>): seq<Tid>
    decreases |acts|
  {
    if acts == [] || !Enabled(w, acts[0]) then [] else Enlisted(w, acts[0]) + AllEnlisted(Apply(w, acts[0]), acts[1..])
  }

  ghost function AllServed(w: World, acts: seq<Act>): seq<Tid>
    decreases |acts|
  {
    if acts == [] || !Enabled(w, acts[0]) then [] else Served(acts[0], Apply(w, acts[0])) + AllServed(Apply(w, acts[0]), acts[1..])
  }

  /** What was waiting and came, split at the step in the middle. */
  lemma Regrouped(a: seq<Tid>, b: seq<Tid>, c: seq<Tid>, d: seq<Tid>, e: seq<Tid>, f: seq<Tid>, g: seq<Tid>)
    requires a + b == c + d && d + e == f + g
    ensures a + (b + e) == (c + f) + g
  {
    assert a + (b + e) == (a + b) + e == (c + d) + e == c + (d + e) == c + (f + g) == (c + f) + g;
  }

  /** Tasks get a processer in the order in which they were enlisted, whichever processer picks them. */
  lemma {:induction false} ServedInOrder(from: World, acts: seq<Act>, to: World)
    requires Inv(from) && IsRun(from, acts, to) && CleanActs(acts)
    ensures Q(from, RunTasks) + AllEnlisted(from, acts) == AllServed(from, acts) + Q(to, RunTasks)
    decreases |acts|
  {
    if acts != [] {
      var m := Apply(from, acts[0]);
      assert Clean(acts[0]);
      Preserved(from, acts[0]);
      StepInOrder(from, acts[0]);
      ServedInOrder(m, acts[1..], to);
      Regrouped(Q(from, RunTasks), Enlisted(from, acts[0]), Served(acts[0], m), Q(m, RunTasks),
                AllEnlisted(m, acts[1..]), AllServed(m, acts[1..]), Q(to, RunTasks));
    }
  }

  // ---------------------------------------------------------------- outcomes

  /** The place a task has, if it is live. */
  function PlaceOf(w: World, t: Tid): Option<Place> { if t in w.where then Some(w.where[t]) else None }

  predicate Stays(w: World, w': World, u: Tid) { PlaceOf(w', u) == PlaceOf(w, u) }

  /** Where the task of a slice is afterwards: with the blocker it named, unless a stored permit let it pass. */
  function Destination(w: World, p: Pid, how: Outcome): Option<Place>
  {
    match how
    case Yielded => Some(Batch(p))
    case IoBlock => Some(IoWait)
    case Sleeping => Some(Asleep)
    case SysBlock(b) => Some(if Num(w.tokens, SemQ(b)) > 0 then Runnable(p) else SemQ(b))
    case UserBlock(ty, id) => Some(if Num(w.tokens, UserQ(ty, id)) > 0 then Batch(p) else UserQ(ty, id))
    case Done(_) => None
  }

  lemma MoveMovesOne(w: World, a: Place, i: nat, b: Place, u: Tid)
    requires Placed(w) && i < |Q(w, a)| && a != b
    ensures var w', t := Move(w, a, i, b), Q(w, a)[i];
            && PlaceOf(w', t) == Some(b) && (u != t ==> Stays(w, w', u))
            && Q(w', a) == Remove(Q(w, a), i) && Q(w', b) == Q(w, b) + [t]
  {
  }

  /**
    Each outcome of a slice in every reachable state: the task goes to the end of where it belongs, or
    stays where it stands in the batch, and no other task moves.
  */
  lemma OutcomeMovesOne(w: World, p: Pid, i: nat, how: Outcome, u: Tid)
    requires Inv(w) && p < w.procs && i < |Q(w, Batch(p))|
    ensures var w', t, d := SwitchedOut(w, p, i, how), Q(w, Batch(p))[i], Destination(w, p, how);
            && PlaceOf(w', t) == d && (u != t ==> Stays(w, w', u))
            && Q(w', Batch(p)) == (if d == Some(Batch(p)) then Q(w, Batch(p)) else Remove(Q(w, Batch(p)), i))
            && (d.Some? && d.value != Batch(p) ==> Q(w', d.value) == Q(w, d.value) + [t])
  {
    At(w, Batch(p), i);
    match how
    case Yielded =>
    case IoBlock => MoveMovesOne(w, Batch(p), i, IoWait, u);
    case Sleeping => MoveMovesOne(w, Batch(p), i, Asleep, u);
    case SysBlock(b) =>
      MoveMovesOne(w, Batch(p), i, Runnable(p), u);
      MoveMovesOne(w, Batch(p), i, SemQ(b), u);
    case UserBlock(ty, id) => MoveMovesOne(w, Batch(p), i, UserQ(ty, id), u);
    case Done(_) =>
  }
}
