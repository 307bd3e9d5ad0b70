/**
  Where every task is, in every interleaving of scheduler threads, and the two task counts.

  All task containers are the queues of one map `q`, keyed by the place they stand for.  Each
  action is one step of a processer's run loop, of the code that wakes tasks, or of task creation,
  that touches one shared container.  `where` records the place of each live task; the invariant
  says it is the only one.

  BlockWakeup pops tasks into a list of its own, hands them over one by one, and finds the next one
  by reading the `next` pointer of the task it has just handed over, wherever that task is by then.
  The read is an action of its own.
*/
module Runtime {
  import opened Counting
  import opened Lists
  import opened Semaphore

  type Pid = nat

  datatype Place =
    | Creating               // counted by CreateTask, not yet in run_tasks_
    | RunTasks               // created, not yet bound to a processer
    | Runnable(p: Pid)       // the processer's runnable list
    | Batch(p: Pid)          // the list Processer::Run is working through
    | IoWait
    | Asleep
    | SemQ(b: nat)           // wait queue of a BlockObject
    | UserQ(ty: int, id: nat)
    | Hand(h: nat)           // taken out of a queue by a waking thread, not yet made runnable
    | Popped(h: nat)         // the list a BlockWakeup has popped and not yet handed over

  datatype Option<T> = None | Some(value: T)

  /** How far the walk of a BlockWakeup is. */
  datatype Cursor =
    | Next(u: Tid)           // about to hand over u
    | Released(t: Tid)       // has handed over t, about to read its next pointer
    | Over

  datatype World = World(procs: nat, q: map<Place, seq<Tid>>, tokens: map<Place, nat>,
                         home: map<Tid, Pid>, where: map<Tid, Place>,
                         count: map<Pid, nat>,     // Processer::task_count_
                         undone: map<Pid, nat>,    // done_count of a Run still in progress
                         walk: map<nat, Cursor>,   // every BlockWakeup begun so far
                         taskCount: int)           // Scheduler::task_count_

  /** The state a task is in when it yields to Processer::Run. */
  datatype Outcome =
    | Yielded
    | IoBlock
    | Sleeping
    | SysBlock(b: nat)
    | UserBlock(ty: int, id: nat)
    | Done(threw: bool)

  datatype Act =
    | Create(t: Tid)                      // ++task_count_
    | Enlist(i: nat)                      // run_tasks_.push(tk)
    | Pick(p: Pid)                        // cherry-pick from run_tasks_
    | Begin(p: Pid)                       // runnable_list_.pop_all()
    | Out(p: Pid, i: nat, how: Outcome)   // task i of the batch came back from swapcontext
    | End(p: Pid)                         // runnable_list_.push(slist)
    | Settle(p: Pid)                      // task_count_ -= done_count
    | Grab(from: Place, i: nat, h: nat)   // a waker takes a waiting task out
    | Deliver(h: nat)                     // Scheduler::AddTaskRunnable
    | Wake(from: Place, n: nat, h: nat)   // BlockWakeup up to the unlock
    | Release(h: nat)                     // BlockWakeup: AddTaskRunnable
    | Read(h: nat, seen: Option<Tid>)     // BlockWakeup: ++it
    | Store(from: Place)                  // a wakeup of a BlockObject with nobody waiting
    | TryTake(from: Place)

  function Q(w: World, p: Place): seq<Tid>
  {
    if p in w.q then w.q[p] else []
  }

  function Num<K>(m: map<K, nat>, k: K): nat
  {
    if k in m then m[k] else 0
  }

  predicate IsWait(p: Place) { p.SemQ? || p.UserQ? }

  function Remove(s: seq<Tid>, i: nat): seq<Tid>
    requires i < |s|
  {
    s[..i] + s[i + 1..]
  }

  /** The task at position i of one queue goes to the end of another. */
  function Move(w: World, a: Place, i: nat, b: Place): World
    requires i < |Q(w, a)| && a != b
  {
    var t := Q(w, a)[i];
    w.(q := w.q[a := Remove(Q(w, a), i)][b := Q(w, b) + [t]], where := w.where[t := b])
  }

  /** A whole queue is spliced onto another. */
  function Splice(w: World, a: Place, b: Place): World
    requires a != b
  {
    w.(q := w.q[a := []][b := Q(w, b) + Q(w, a)],
       where := map t | t in w.where :: if w.where[t] == a then b else w.where[t])
  }

  /** The first `c` tasks of a queue go to the end of another. */
  function MoveFront(w: World, a: Place, c: nat, b: Place): World
    requires c <= |Q(w, a)| && a != b
  {
    var l := Q(w, a)[..c];
    w.(q := w.q[a := Q(w, a)[c..]][b := Q(w, b) + l],
       where := map t | t in w.where :: if t in l then b else w.where[t])
  }

  /** How many tasks BlockWakeup(n) takes; pop(0) takes one. */
  function Taken(w: World, from: Place, n: nat): (c: nat)
    ensures c <= |Q(w, from)|
  {
    Min(if n == 0 then 1 else n, |Q(w, from)|)
  }

  /** The successor of a task in a linked list. */
  function NextIn(s: seq<Tid>, t: Tid): Option<Tid>
  {
    if |s| < 2 then None else if s[0] == t then Some(s[1]) else NextIn(s[1..], t)
  }

  /** What the next pointer of a live task holds: all containers are linked lists. */
  function NextOf(w: World, t: Tid): Option<Tid>
    requires t in w.where
  {
    NextIn(Q(w, w.where[t]), t)
  }

  predicate Enabled(w: World, a: Act)
  {
    match a
    case Create(t) => t !in w.where && t !in w.home
    case Enlist(i) => i < |Q(w, Creating)|
    case Pick(p) => p < w.procs && Q(w, RunTasks) != []
    case Begin(p) => p < w.procs && Q(w, Batch(p)) == []
    case Out(p, i, how) => p < w.procs && i < |Q(w, Batch(p))|
    case End(p) => p < w.procs
    case Settle(p) => p < w.procs
    // a BlockObject wakes the first in its queue
    case Grab(from, i, h) => (from.IoWait? || from.Asleep? || (from.SemQ? && i == 0)) && i < |Q(w, from)| && Q(w, Hand(h)) == []
    case Deliver(h) => |Q(w, Hand(h))| == 1 && Q(w, Hand(h))[0] in w.home
    case Wake(from, n, h) => from.UserQ? && h !in w.walk && Q(w, Popped(h)) == []
    case Release(h) => h in w.walk && w.walk[h].Next?
    // the task may be dead by then, and the read undefined
    case Read(h, seen) => h in w.walk && w.walk[h].Released? && (w.walk[h].t in w.where ==> seen == NextOf(w, w.walk[h].t))
    case Store(from) => from.SemQ? && Q(w, from) == []
    case TryTake(from) => IsWait(from) && Num(w.tokens, from) > 0
  }

  function Apply(w: World, a: Act): (r: World)
    requires Enabled(w, a)
  {
    match a
    case Create(t) => w.(q := w.q[Creating := Q(w, Creating) + [t]], where := w.where[t := Creating], taskCount := w.taskCount + 1)
    case Enlist(i) => Move(w, Creating, i, RunTasks)
    case Pick(p) =>
      var t := Q(w, RunTasks)[0];
      Move(w, RunTasks, 0, Runnable(p)).(home := w.home[t := p], count := w.count[p := Num(w.count, p) + 1])
    case Begin(p) => Splice(w, Runnable(p), Batch(p))
    case Out(p, i, how) => SwitchedOut(w, p, i, how)
    case End(p) => Splice(w, Batch(p), Runnable(p))
    case Settle(p) => w.(taskCount := w.taskCount - Num(w.undone, p), undone := w.undone[p := 0])
    case Grab(from, i, h) => Move(w, from, i, Hand(h))
    case Deliver(h) => Move(w, Hand(h), 0, Runnable(w.home[Q(w, Hand(h))[0]]))
    case Wake(from, n, h) => Woken(w, from, n, h)
    case Release(h) => HandedOver(w, h, w.walk[h].u)
    case Read(h, seen) => w.(walk := w.walk[h := match seen case None => Over case Some(u) => Next(u)])
    case Store(from) => w.(tokens := w.tokens[from := Num(w.tokens, from) + 1])
    case TryTake(from) => w.(tokens := w.tokens[from := Num(w.tokens, from) - 1])
  }

  function Woken(w: World, from: Place, n: nat, h: nat): World
    requires from != Popped(h)
  {
    var c := Taken(w, from, n);
    MoveFront(w, from, c, Popped(h)).(
      tokens := w.tokens[from := Num(w.tokens, from) + if c < n then n - c else 0],
      walk := w.walk[h := if c == 0 then Over else Next(Q(w, from)[0])])
  }

  /** Where AddTaskRunnable puts a task. */
  function Target(w: World, u: Tid): Place { if u in w.home then Runnable(w.home[u]) else RunTasks }

  /** A task that is not in the popped list is linked in once more. */
  function QueuedAgain(w: World, u: Tid): World
  {
    w.(q := w.q[Target(w, u) := Q(w, Target(w, u)) + [u]])
  }

  function HandedOver(w: World, h: nat, u: Tid): World
  {
    var w' := if Q(w, Popped(h)) != [] && Q(w, Popped(h))[0] == u then Move(w, Popped(h), 0, Target(w, u)) else QueuedAgain(w, u);
    w'.(walk := w.walk[h := Released(u)])
  }

  /** No read of a next pointer finds a task. */
  predicate Clean(a: Act) { a.Read? ==> a.seen.None? }

  /** The dispatch on tk->state_ in Processer::Run. */
  function SwitchedOut(w: World, p: Pid, i: nat, how: Outcome): (r: World)
    requires i < |Q(w, Batch(p))|
  {
    match how
    case Yielded => w
    case IoBlock => Move(w, Batch(p), i, IoWait)
    case Sleeping => Move(w, Batch(p), i, Asleep)
    case SysBlock(b) =>
      if Num(w.tokens, SemQ(b)) > 0 then
        Move(w, Batch(p), i, Runnable(p)).(tokens := w.tokens[SemQ(b) := Num(w.tokens, SemQ(b)) - 1])
      else Move(w, Batch(p), i, SemQ(b))
    case UserBlock(ty, id) =>
      if Num(w.tokens, UserQ(ty, id)) > 0 then
        w.(tokens := w.tokens[UserQ(ty, id) := Num(w.tokens, UserQ(ty, id)) - 1])
      else Move(w, Batch(p), i, UserQ(ty, id))
    case Done(_) => Finished(w, p, i)
  }

  function Finished(w: World, p: Pid, i: nat): (r: World)
    requires i < |Q(w, Batch(p))|
  {
    var t := Q(w, Batch(p))[i];
    w.(q := w.q[Batch(p) := Remove(Q(w, Batch(p)), i)], where := w.where - {t}, home := w.home - {t},
       count := w.count[p := if Num(w.count, p) > 0 then Num(w.count, p) - 1 else 0],
       undone := w.undone[p := Num(w.undone, p) + 1])
  }

  // ---------------------------------------------------------------- invariant

  predicate Listed(w: World, p: Place, t: Tid) { t in Q(w, p) }

  ghost predicate QueueOk(w: World, p: Place) { NoDup(Q(w, p)) }

  /** Each queue lists a task at most once, and lists exactly the tasks whose place it is. */
  ghost predicate Placed(w: World)
  {
    && (forall p :: QueueOk(w, p))
    && (forall p, t :: Listed(w, p, t) <==> t in w.where && w.where[t] == p)
  }

  /** Places of tasks that have no processer yet. */
  predicate IsNew(p: Place) { p.Creating? || p.RunTasks? }

  /** A task is bound to a processer exactly when it has left run_tasks_, and runs only there. */
  ghost predicate BoundTask(w: World, t: Tid)
  {
    && (t in w.home ==> t in w.where && w.home[t] < w.procs)
    && (t in w.where ==> (t in w.home <==> !IsNew(w.where[t])))
    && (t in w.where && (w.where[t].Runnable? || w.where[t].Batch?) ==> w.home[t] == w.where[t].p)
  }

  ghost predicate Bound(w: World) { forall t :: BoundTask(w, t) }

  ghost function HomeOf(home: map<Tid, Pid>, p: Pid): set<Tid> { set t | t in home && home[t] == p }

  function Sum(m: map<Pid, nat>, n: nat): nat
  {
    if n == 0 then 0 else Num(m, n - 1) + Sum(m, n - 1)
  }

  ghost predicate HomeCount(count: map<Pid, nat>, home: map<Tid, Pid>, p: Pid) { Num(count, p) == |HomeOf(home, p)| }

  ghost predicate CountOk(w: World, p: Pid) { p < w.procs ==> HomeCount(w.count, w.home, p) }

  ghost predicate Counted(w: World)
  {
    && (forall p: nat :: CountOk(w, p))
    && w.taskCount == |w.where| + Sum(w.undone, w.procs)
  }

  /** The parts of the state that only creating, picking and finishing tasks change. */
  ghost predicate SameTasks(w: World, w': World)
  {
    && w'.home == w.home && w'.count == w.count && w'.where.Keys == w.where.Keys
    && w'.taskCount == w.taskCount && Q(w', RunTasks) == Q(w, RunTasks) && Q(w', Creating) == Q(w, Creating)
  }

  /** A BlockWakeup hands over tasks from its own list only, and does not get them back. */
  predicate WalkOk(w: World, h: nat)
  {
    && (Q(w, Popped(h)) != [] ==> h in w.walk)
    && (h in w.walk && w.walk[h].Next? ==> Q(w, Popped(h)) != [] && Q(w, Popped(h))[0] == w.walk[h].u)
    && (h in w.walk && w.walk[h].Released? ==> w.walk[h].t !in Q(w, Popped(h)))
  }

  ghost predicate Walks(w: World) { forall h: nat :: WalkOk(w, h) }

  /** Nobody waits in a queue whose permit is stored. */
  predicate TokenOk(w: World, p: Place) { IsWait(p) && Num(w.tokens, p) > 0 ==> Q(w, p) == [] }

  ghost predicate Tokens(w: World) { forall p :: TokenOk(w, p) }

  ghost predicate Inv(w: World) { Placed(w) && Bound(w) && Counted(w) && Walks(w) && Tokens(w) }

  lemma RemoveFacts(s: seq<Tid>, i: nat)
    requires i < |s| && NoDup(s)
    ensures NoDup(Remove(s, i))
    ensures forall t :: t in Remove(s, i) <==> t in s && t != s[i]
  {
    forall j, k ensures Apart(Remove(s, i), j, k) { assert Apart(s, if j < i then j else j + 1, if k < i then k else k + 1); }
    forall t ensures t in Remove(s, i) <==> t in s && t != s[i] {
      if t in s && t != s[i] {
        var j :| 0 <= j < |s| && s[j] == t;
        assert Remove(s, i)[if j < i then j else j - 1] == t;
      }
      if t in Remove(s, i) {
        var j :| 0 <= j < |Remove(s, i)| && Remove(s, i)[j] == t;
        assert Apart(s, j, i) && Apart(s, i, j + 1);
      }
    }
  }

  lemma MoveKeepsPlaced(w: World, a: Place, i: nat, b: Place)
    requires Placed(w) && i < |Q(w, a)| && a != b
    ensures Placed(Move(w, a, i, b))
    ensures Q(w, a)[i] in w.where && w.where[Q(w, a)[i]] == a
    ensures Move(w, a, i, b).where.Keys == w.where.Keys
  {
    var t, w' := Q(w, a)[i], Move(w, a, i, b);
    assert Listed(w, a, t) && !Listed(w, b, t);
    assert QueueOk(w, a) && QueueOk(w, b);
    RemoveFacts(Q(w, a), i);
    QueueAppend(Q(w, b), t);
    forall p ensures QueueOk(w', p) { assert QueueOk(w, p); assert p != a && p != b ==> Q(w', p) == Q(w, p); }
    forall p, u ensures Listed(w', p, u) <==> u in w'.where && w'.where[u] == p {
      assert Listed(w, p, u) <==> u in w.where && w.where[u] == p;
      assert p != a && p != b ==> Q(w', p) == Q(w, p);
    }
  }

  lemma SpliceKeepsPlaced(w: World, a: Place, b: Place)
    requires Placed(w) && a != b
    ensures Placed(Splice(w, a, b))
    ensures Splice(w, a, b).where.Keys == w.where.Keys
  {
    var w' := Splice(w, a, b);
    var s, l := Q(w, b), Q(w, a);
    assert QueueOk(w, a) && QueueOk(w, b);
    forall t | t in l ensures t !in s { assert Listed(w, a, t) && !Listed(w, b, t); }
    QueueConcat(s, l);
    forall p ensures QueueOk(w', p) { assert QueueOk(w, p); assert p != a && p != b ==> Q(w', p) == Q(w, p); }
    forall p, u ensures Listed(w', p, u) <==> u in w'.where && w'.where[u] == p {
      assert Listed(w, p, u) <==> u in w.where && w.where[u] == p;
      assert Listed(w, a, u) <==> u in w.where && w.where[u] == a;
      assert p != a && p != b ==> Q(w', p) == Q(w, p);
    }
  }

  lemma MoveFrontKeepsPlaced(w: World, a: Place, c: nat, b: Place)
    requires Placed(w) && c <= |Q(w, a)| && a != b
    ensures Placed(MoveFront(w, a, c, b))
    ensures MoveFront(w, a, c, b).where.Keys == w.where.Keys
  {
    var w' := MoveFront(w, a, c, b);
    var s, all, l, rest := Q(w, b), Q(w, a), Q(w, a)[..c], Q(w, a)[c..];
    assert QueueOk(w, a) && QueueOk(w, b) && all == l + rest;
    QueueSplit(all, c);
    forall t | t in l ensures t !in s { assert t in all && Listed(w, a, t) && !Listed(w, b, t); }
    QueueConcat(s, l);
    forall p ensures QueueOk(w', p) { assert QueueOk(w, p); assert p != a && p != b ==> Q(w', p) == Q(w, p); }
    forall p, u ensures Listed(w', p, u) <==> u in w'.where && w'.where[u] == p {
      assert Listed(w, p, u) <==> u in w.where && w.where[u] == p;
      assert Listed(w, a, u) <==> u in l || u in rest;
      assert Listed(w, a, u) <==> u in w.where && w.where[u] == a;
      assert p != a && p != b ==> Q(w', p) == Q(w, p);
    }
  }

  /** A task of the popped list has a processer, and goes there. */
  lemma ReleaseIsMove(w: World, h: nat)
    requires Placed(w) && Bound(w) && Walks(w) && Enabled(w, Release(h))
    ensures Q(w, Popped(h)) != [] && Q(w, Popped(h))[0] == w.walk[h].u && w.walk[h].u in w.home
    ensures Apply(w, Release(h)) == Move(w, Popped(h), 0, Runnable(w.home[w.walk[h].u])).(walk := w.walk[h := Released(w.walk[h].u)])
  {
    assert WalkOk(w, h) && BoundTask(w, w.walk[h].u);
    At(w, Popped(h), 0);
  }

  lemma ReleaseKeepsPlaced(w: World, h: nat)
    requires Placed(w) && Bound(w) && Walks(w) && Enabled(w, Release(h))
    ensures Placed(Apply(w, Release(h)))
  {
    ReleaseIsMove(w, h);
    MoveKeepsPlaced(w, Popped(h), 0, Runnable(w.home[w.walk[h].u]));
    SameQueues(Move(w, Popped(h), 0, Runnable(w.home[w.walk[h].u])), Apply(w, Release(h)));
  }

  lemma StepKeepsPlaced(w: World, a: Act)
    requires Placed(w) && Bound(w) && Walks(w) && Enabled(w, a)
    ensures Placed(Apply(w, a))
  {
    match a
    case Create(t) => CreateKeepsPlaced(w, t);
    case Enlist(i) => MoveKeepsPlaced(w, Creating, i, RunTasks);
    case Wake(from, n, h) =>
      MoveFrontKeepsPlaced(w, from, Taken(w, from, n), Popped(h));
      SameQueues(MoveFront(w, from, Taken(w, from, n), Popped(h)), Apply(w, a));
    case Release(h) => ReleaseKeepsPlaced(w, h);
    case Pick(p) =>
      MoveKeepsPlaced(w, RunTasks, 0, Runnable(p));
      SameQueues(Move(w, RunTasks, 0, Runnable(p)), Apply(w, a));
    case Begin(p) => SpliceKeepsPlaced(w, Runnable(p), Batch(p));
    case End(p) => SpliceKeepsPlaced(w, Batch(p), Runnable(p));
    case Out(p, i, how) => OutKeepsPlaced(w, p, i, how);
    case Grab(from, i, h) => MoveKeepsPlaced(w, from, i, Hand(h));
    case Deliver(h) => MoveKeepsPlaced(w, Hand(h), 0, Runnable(w.home[Q(w, Hand(h))[0]]));
    case _ => SameQueues(w, Apply(w, a));
  }

  lemma SameQueues(w: World, w': World)
    requires Placed(w) && w'.q == w.q && w'.where == w.where
    ensures Placed(w')
  {
    forall p ensures QueueOk(w', p) { assert QueueOk(w, p); assert Q(w', p) == Q(w, p); }
    forall p, u ensures Listed(w', p, u) <==> u in w'.where && w'.where[u] == p { assert Listed(w, p, u) == Listed(w', p, u); }
  }

  lemma CreateKeepsPlaced(w: World, t: Tid)
    requires Placed(w) && Enabled(w, Create(t))
    ensures Placed(Apply(w, Create(t)))
  {
    var w' := Apply(w, Create(t));
    assert !Listed(w, Creating, t) && QueueOk(w, Creating);
    QueueAppend(Q(w, Creating), t);
    forall p ensures QueueOk(w', p) { assert QueueOk(w, p); assert p != Creating ==> Q(w', p) == Q(w, p); }
    forall p, u ensures Listed(w', p, u) <==> u in w'.where && w'.where[u] == p {
      assert Listed(w, p, u) <==> u in w.where && w.where[u] == p;
      assert p != Creating ==> Q(w', p) == Q(w, p);
    }
  }

  lemma OutKeepsPlaced(w: World, p: Pid, i: nat, how: Outcome)
    requires Placed(w) && i < |Q(w, Batch(p))|
    ensures Placed(SwitchedOut(w, p, i, how))
  {
    match how
    case Yielded =>
    case IoBlock => MoveKeepsPlaced(w, Batch(p), i, IoWait);
    case Sleeping => MoveKeepsPlaced(w, Batch(p), i, Asleep);
    case SysBlock(b) =>
      MoveKeepsPlaced(w, Batch(p), i, SemQ(b));
      MoveKeepsPlaced(w, Batch(p), i, Runnable(p));
      SameQueues(Move(w, Batch(p), i, Runnable(p)),
                 Move(w, Batch(p), i, Runnable(p)).(tokens := w.tokens[SemQ(b) := if Num(w.tokens, SemQ(b)) > 0 then Num(w.tokens, SemQ(b)) - 1 else 0]));
    case UserBlock(ty, id) =>
      MoveKeepsPlaced(w, Batch(p), i, UserQ(ty, id));
      SameQueues(w, w.(tokens := w.tokens[UserQ(ty, id) := if Num(w.tokens, UserQ(ty, id)) > 0 then Num(w.tokens, UserQ(ty, id)) - 1 else 0]));
    case Done(_) => FinishedKeepsPlaced(w, p, i);
  }

  lemma FinishedKeepsPlaced(w: World, p: Pid, i: nat)
    requires Placed(w) && i < |Q(w, Batch(p))|
    ensures Placed(Finished(w, p, i))
  {
    var t, w' := Q(w, Batch(p))[i], Finished(w, p, i);
    assert Listed(w, Batch(p), t) && QueueOk(w, Batch(p));
    RemoveFacts(Q(w, Batch(p)), i);
    forall b ensures QueueOk(w', b) { assert QueueOk(w, b); assert b != Batch(p) ==> Q(w', b) == Q(w, b); }
    forall b, u ensures Listed(w', b, u) <==> u in w'.where && w'.where[u] == b {
      assert Listed(w, b, u) <==> u in w.where && w.where[u] == b;
      assert b != Batch(p) ==> Q(w', b) == Q(w, b);
    }
  }

  /** The place of the task an action moves, for the actions that move one. */
  lemma At(w: World, p: Place, i: nat)
    requires Placed(w) && i < |Q(w, p)|
    ensures Q(w, p)[i] in w.where && w.where[Q(w, p)[i]] == p
  {
    assert Listed(w, p, Q(w, p)[i]);
  }

  lemma MoveKeepsBound(w: World, a: Place, i: nat, b: Place)
    requires Placed(w) && Bound(w) && i < |Q(w, a)| && a != b && IsNew(a) == IsNew(b)
    requires b.Runnable? || b.Batch? ==> Q(w, a)[i] in w.home && w.home[Q(w, a)[i]] == b.p
    ensures Bound(Move(w, a, i, b))
  {
    At(w, a, i);
    forall t ensures BoundTask(Move(w, a, i, b), t) { assert BoundTask(w, t); }
  }

  lemma WakeKeepsBound(w: World, a: Place, c: nat, h: nat)
    requires Placed(w) && Bound(w) && c <= |Q(w, a)| && a.UserQ?
    ensures Bound(MoveFront(w, a, c, Popped(h)))
  {
    forall t ensures BoundTask(MoveFront(w, a, c, Popped(h)), t) {
      assert BoundTask(w, t) && (Listed(w, a, t) <==> t in w.where && w.where[t] == a);
      assert t in Q(w, a)[..c] ==> Listed(w, a, t);
    }
  }

  lemma ReleaseKeepsBound(w: World, h: nat)
    requires Placed(w) && Bound(w) && Walks(w) && Enabled(w, Release(h))
    ensures Bound(Apply(w, Release(h)))
  {
    ReleaseIsMove(w, h);
    MoveKeepsBound(w, Popped(h), 0, Runnable(w.home[w.walk[h].u]));
    SameBound(Move(w, Popped(h), 0, Runnable(w.home[w.walk[h].u])), Apply(w, Release(h)));
  }

  lemma PickKeepsBound(w: World, p: Pid)
    requires Placed(w) && Bound(w) && Enabled(w, Pick(p))
    ensures Bound(Apply(w, Pick(p)))
  {
    At(w, RunTasks, 0);
    forall t ensures BoundTask(Apply(w, Pick(p)), t) { assert BoundTask(w, t); }
  }

  lemma SpliceKeepsBound(w: World, a: Place, b: Place)
    requires Bound(w) && a != b && (a.Runnable? || a.Batch?) && (b.Runnable? || b.Batch?) && a.p == b.p
    ensures Bound(Splice(w, a, b))
  {
    forall t ensures BoundTask(Splice(w, a, b), t) { assert BoundTask(w, t); }
  }

  lemma SameBound(w: World, w': World)
    requires Bound(w) && w'.where == w.where && w'.home == w.home && w'.procs == w.procs
    ensures Bound(w')
  {
    forall t ensures BoundTask(w', t) { assert BoundTask(w, t); }
  }

  lemma FinishedKeepsBound(w: World, p: Pid, i: nat)
    requires Bound(w) && i < |Q(w, Batch(p))|
    ensures Bound(Finished(w, p, i))
  {
    forall t ensures BoundTask(Finished(w, p, i), t) { assert BoundTask(w, t); }
  }

  lemma CreateKeepsBound(w: World, t: Tid)
    requires Bound(w) && Enabled(w, Create(t))
    ensures Bound(Apply(w, Create(t)))
  {
    forall u ensures BoundTask(Apply(w, Create(t)), u) { assert BoundTask(w, u); }
  }

  lemma OutKeepsBound(w: World, p: Pid, i: nat, how: Outcome)
    requires Placed(w) && Bound(w) && i < |Q(w, Batch(p))|
    ensures Bound(SwitchedOut(w, p, i, how))
  {
    At(w, Batch(p), i);
    assert BoundTask(w, Q(w, Batch(p))[i]);
    match how
    case Yielded =>
    case IoBlock => MoveKeepsBound(w, Batch(p), i, IoWait);
    case Sleeping => MoveKeepsBound(w, Batch(p), i, Asleep);
    case SysBlock(b) =>
      MoveKeepsBound(w, Batch(p), i, SemQ(b));
      MoveKeepsBound(w, Batch(p), i, Runnable(p));
      if Num(w.tokens, SemQ(b)) > 0 { SameBound(Move(w, Batch(p), i, Runnable(p)), SwitchedOut(w, p, i, how)); }
    case UserBlock(ty, id) =>
      MoveKeepsBound(w, Batch(p), i, UserQ(ty, id));
      if Num(w.tokens, UserQ(ty, id)) > 0 { SameBound(w, SwitchedOut(w, p, i, how)); }
    case Done(_) => FinishedKeepsBound(w, p, i);
  }

  lemma StepKeepsBound(w: World, a: Act)
    requires Placed(w) && Bound(w) && Walks(w) && Enabled(w, a)
    ensures Bound(Apply(w, a))
  {
    match a
    case Create(t) => CreateKeepsBound(w, t);
    case Enlist(i) => MoveKeepsBound(w, Creating, i, RunTasks);
    case Wake(from, n, h) =>
      WakeKeepsBound(w, from, Taken(w, from, n), h);
      SameBound(MoveFront(w, from, Taken(w, from, n), Popped(h)), Apply(w, a));
    case Release(h) => ReleaseKeepsBound(w, h);
    case Pick(p) => PickKeepsBound(w, p);
    case Begin(p) => SpliceKeepsBound(w, Runnable(p), Batch(p));
    case End(p) => SpliceKeepsBound(w, Batch(p), Runnable(p));
    case Out(p, i, how) => OutKeepsBound(w, p, i, how);
    case Grab(from, i, h) => MoveKeepsBound(w, from, i, Hand(h));
    case Deliver(h) => MoveKeepsBound(w, Hand(h), 0, Runnable(w.home[Q(w, Hand(h))[0]]));
    case _ => SameBound(w, Apply(w, a));
  }

  // ---------------------------------------------------------------- the counts

  lemma SumUpdate(m: map<Pid, nat>, n: nat, p: Pid, v: nat)
    ensures Sum(m[p := v], n) == if p < n then Sum(m, n) - Num(m, p) + v else Sum(m, n)
  {
    if n > 0 { SumUpdate(m, n - 1, p, v); }
  }

  lemma HomeAdd(home: map<Tid, Pid>, t: Tid, p: Pid, r: Pid)
    requires t !in home
    ensures |HomeOf(home[t := p], r)| == |HomeOf(home, r)| + if r == p then 1 else 0
  {
    assert HomeOf(home[t := p], r) == if r == p then HomeOf(home, r) + {t} else HomeOf(home, r);
  }

  lemma HomeDrop(home: map<Tid, Pid>, t: Tid, r: Pid)
    requires t in home
    ensures |HomeOf(home - {t}, r)| == |HomeOf(home, r)| - if r == home[t] then 1 else 0
  {
    assert HomeOf(home - {t}, r) == if r == home[t] then HomeOf(home, r) - {t} else HomeOf(home, r);
  }

  lemma SameHome(w: World, w': World)
    requires Counted(w) && w'.home == w.home && w'.count == w.count && w'.procs == w.procs
    requires w'.undone == w.undone && w'.taskCount == w.taskCount && w'.where.Keys == w.where.Keys
    ensures Counted(w')
  {
    SameKeys(w'.where, w.where);
    forall r: nat ensures CountOk(w', r) { assert CountOk(w, r); }
  }

  lemma CreateKeepsCounted(w: World, t: Tid)
    requires Counted(w) && Enabled(w, Create(t))
    ensures Counted(Apply(w, Create(t)))
  {
    MapAdd(w.where, t, Creating);
    forall r: nat ensures CountOk(Apply(w, Create(t)), r) { assert CountOk(w, r); }
  }

  lemma PickKeepsCounted(w: World, p: Pid)
    requires Inv(w) && Enabled(w, Pick(p))
    ensures Counted(Apply(w, Pick(p)))
  {
    var w' := Apply(w, Pick(p));
    At(w, RunTasks, 0);
    MoveKeepsPlaced(w, RunTasks, 0, Runnable(p));
    SameKeys(w'.where, w.where);
    assert BoundTask(w, Q(w, RunTasks)[0]);
    forall r: nat ensures CountOk(w', r) {
      assert CountOk(w, r);
      HomeAdd(w.home, Q(w, RunTasks)[0], p, r);
    }
  }

  lemma FinishedCount(w: World, p: Pid, i: nat, r: Pid)
    requires Placed(w) && Bound(w) && CountOk(w, p) && CountOk(w, r) && p < w.procs && i < |Q(w, Batch(p))|
    ensures CountOk(Finished(w, p, i), r)
  {
    var t := Q(w, Batch(p))[i];
    At(w, Batch(p), i);
    assert BoundTask(w, t) && t in HomeOf(w.home, p);
    HomeDrop(w.home, t, r);
  }

  lemma FinishedKeepsCounted(w: World, p: Pid, i: nat)
    requires Inv(w) && p < w.procs && i < |Q(w, Batch(p))|
    ensures Counted(Finished(w, p, i))
  {
    At(w, Batch(p), i);
    SumUpdate(w.undone, w.procs, p, Num(w.undone, p) + 1);
    MapDrop(w.where, Q(w, Batch(p))[i]);
    forall r: nat ensures CountOk(Finished(w, p, i), r) {
      assert CountOk(w, p) && CountOk(w, r);
      FinishedCount(w, p, i, r);
    }
  }

  lemma MoveSameTasks(w: World, a: Place, i: nat, b: Place)
    requires Placed(w) && i < |Q(w, a)| && a != b && !IsNew(a) && !IsNew(b)
    ensures SameTasks(w, Move(w, a, i, b))
  {
    At(w, a, i);
  }

  lemma OutSameTasks(w: World, p: Pid, i: nat, how: Outcome)
    requires Placed(w) && i < |Q(w, Batch(p))| && !how.Done?
    ensures SameTasks(w, SwitchedOut(w, p, i, how))
    ensures SwitchedOut(w, p, i, how).undone == w.undone && SwitchedOut(w, p, i, how).procs == w.procs
  {
    match how
    case Yielded =>
    case IoBlock => MoveSameTasks(w, Batch(p), i, IoWait);
    case Sleeping => MoveSameTasks(w, Batch(p), i, Asleep);
    case SysBlock(b) => MoveSameTasks(w, Batch(p), i, SemQ(b)); MoveSameTasks(w, Batch(p), i, Runnable(p));
    case UserBlock(ty, id) => MoveSameTasks(w, Batch(p), i, UserQ(ty, id));
  }

  lemma OutKeepsCounted(w: World, p: Pid, i: nat, how: Outcome)
    requires Inv(w) && p < w.procs && i < |Q(w, Batch(p))|
    ensures Counted(SwitchedOut(w, p, i, how))
  {
    if how.Done? {
      FinishedKeepsCounted(w, p, i);
    } else {
      OutSameTasks(w, p, i, how);
      SameHome(w, SwitchedOut(w, p, i, how));
    }
  }

  lemma StepKeepsCounted(w: World, a: Act)
    requires Inv(w) && Enabled(w, a)
    ensures Counted(Apply(w, a))
  {
    match a
    case Create(t) => CreateKeepsCounted(w, t);
    case Enlist(i) => MoveKeepsPlaced(w, Creating, i, RunTasks); SameHome(w, Apply(w, a));
    case Wake(from, n, h) => MoveFrontKeepsPlaced(w, from, Taken(w, from, n), Popped(h)); SameHome(w, Apply(w, a));
    case Release(h) =>
      ReleaseIsMove(w, h);
      MoveKeepsPlaced(w, Popped(h), 0, Runnable(w.home[w.walk[h].u]));
      SameHome(w, Apply(w, a));
    case Pick(p) => PickKeepsCounted(w, p);
    case Settle(p) =>
      SumUpdate(w.undone, w.procs, p, 0);
      forall r: nat ensures CountOk(Apply(w, a), r) { assert CountOk(w, r); }
    case Out(p, i, how) => OutKeepsCounted(w, p, i, how);
    case Begin(p) => SpliceKeepsPlaced(w, Runnable(p), Batch(p)); SameHome(w, Apply(w, a));
    case End(p) => SpliceKeepsPlaced(w, Batch(p), Runnable(p)); SameHome(w, Apply(w, a));
    case Grab(from, i, h) => MoveKeepsPlaced(w, from, i, Hand(h)); SameHome(w, Apply(w, a));
    case Deliver(h) =>
      MoveKeepsPlaced(w, Hand(h), 0, Runnable(w.home[Q(w, Hand(h))[0]]));
      SameHome(w, Apply(w, a));
    case _ => SameHome(w, Apply(w, a));
  }

  lemma StepKeepsWalks(w: World, a: Act)
    requires Inv(w) && Enabled(w, a) && Clean(a)
    ensures Walks(Apply(w, a))
  {
    forall h: nat ensures WalkOk(Apply(w, a), h) {
      assert WalkOk(w, h);
      match a
      case Out(p, i, how) => OutLeavesWalks(w, p, i, how, h);
      case Wake(_, _, _) => WakeKeepsWalk(w, a, h);
      case Release(_) => ReleaseKeepsWalk(w, a.h, h);
      case Read(_, _) => ReadKeepsWalk(w, a, h);
      case _ => OthersLeaveWalk(w, a, h);
    }
  }

  lemma WakeKeepsWalk(w: World, a: Act, h: nat)
    requires WalkOk(w, h) && Enabled(w, a) && a.Wake?
    ensures WalkOk(Apply(w, a), h)
  {
  }

  lemma ReadKeepsWalk(w: World, a: Act, h: nat)
    requires WalkOk(w, h) && Enabled(w, a) && Clean(a) && a.Read?
    ensures WalkOk(Apply(w, a), h)
  {
  }

  lemma ReleaseKeepsWalk(w: World, g: nat, h: nat)
    requires Inv(w) && Enabled(w, Release(g))
    ensures WalkOk(Apply(w, Release(g)), h)
  {
    assert WalkOk(w, h) && QueueOk(w, Popped(g));
    ReleaseIsMove(w, g);
    RemoveFacts(Q(w, Popped(g)), 0);
    assert Q(Apply(w, Release(g)), Popped(h)) == if h == g then Remove(Q(w, Popped(g)), 0) else Q(w, Popped(h));
  }

  lemma OthersLeaveWalk(w: World, a: Act, h: nat)
    requires Enabled(w, a) && !a.Wake? && !a.Release? && !a.Read? && !a.Out?
    ensures Q(Apply(w, a), Popped(h)) == Q(w, Popped(h)) && Apply(w, a).walk == w.walk
  {
  }

  lemma OutLeavesWalks(w: World, p: Pid, i: nat, how: Outcome, h: nat)
    requires i < |Q(w, Batch(p))|
    ensures Q(SwitchedOut(w, p, i, how), Popped(h)) == Q(w, Popped(h)) && SwitchedOut(w, p, i, how).walk == w.walk
  {
  }

  lemma OutKeepsToken(w: World, p: Pid, i: nat, how: Outcome, x: Place)
    requires TokenOk(w, x) && i < |Q(w, Batch(p))|
    ensures TokenOk(SwitchedOut(w, p, i, how), x)
  {
  }

  lemma WakeupKeepsToken(w: World, a: Act, x: Place)
    requires TokenOk(w, x) && Enabled(w, a) && (a.Wake? || a.Release? || a.Grab? || a.Deliver?)
    ensures TokenOk(Apply(w, a), x)
  {
  }

  lemma OthersKeepToken(w: World, a: Act, x: Place)
    requires TokenOk(w, x) && Enabled(w, a) && !a.Out? && !a.Wake? && !a.Release? && !a.Grab? && !a.Deliver?
    ensures TokenOk(Apply(w, a), x)
  {
  }

  lemma StepKeepsTokens(w: World, a: Act)
    requires Tokens(w) && Enabled(w, a)
    ensures Tokens(Apply(w, a))
  {
    forall x ensures TokenOk(Apply(w, a), x) {
      assert TokenOk(w, x);
      match a
      case Out(p, i, how) => OutKeepsToken(w, p, i, how, x);
      case Wake(_, _, _) => WakeupKeepsToken(w, a, x);
      case Release(_) => WakeupKeepsToken(w, a, x);
      case Grab(_, _, _) => WakeupKeepsToken(w, a, x);
      case Deliver(_) => WakeupKeepsToken(w, a, x);
      case _ => OthersKeepToken(w, a, x);
    }
  }

  lemma Preserved(w: World, a: Act)
    requires Inv(w) && Enabled(w, a) && Clean(a)
    ensures Inv(Apply(w, a))
  {
    StepKeepsTokens(w, a);
    StepKeepsPlaced(w, a);
    StepKeepsBound(w, a);
    StepKeepsCounted(w, a);
    StepKeepsWalks(w, a);
  }

  // ---------------------------------------------------------------- theorems over runs

  ghost predicate IsRun(from: World, acts: seq<Act>, to: World)
    decreases |acts|
  {
    if acts == [] then from == to
    else Enabled(from, acts[0]) && IsRun(Apply(from, acts[0]), acts[1..], to)
  }

  function Start(procs: nat): World
  {
    World(procs, map[], map[], map[], map[], map[], map[], map[], 0)
  }

  lemma SumZero(n: nat)
    ensures Sum(map[], n) == 0
  {
  }

  lemma StartsWell(procs: nat)
    ensures Inv(Start(procs))
  {
    SumZero(procs);
    forall p: nat ensures CountOk(Start(procs), p) { assert HomeOf(Start(procs).home, p) == {}; }
  }

  ghost predicate CleanActs(acts: seq<Act>) { forall i :: 0 <= i < |acts| ==> Clean(acts[i]) }

  lemma {:induction false} RunKeepsInv(from: World, acts: seq<Act>, to: World)
    requires Inv(from) && IsRun(from, acts, to) && CleanActs(acts)
    ensures Inv(to)
    decreases |acts|
  {
    if acts != [] {
      Preserved(from, acts[0]);
      RunKeepsInv(Apply(from, acts[0]), acts[1..], to);
    }
  }

  lemma OnlyAt(q: seq<Tid>, t: Tid) returns (i: nat)
    requires NoDup(q) && t in q
    ensures i < |q| && q[i] == t && forall j :: 0 <= j < |q| && q[j] == t ==> j == i
  {
    i :| 0 <= i < |q| && q[i] == t;
    forall j | 0 <= j < |q| && q[j] == t ensures j == i { assert Apart(q, i, j) && Apart(q, j, i); }
  }

  /**
    In every run, for any number of processers, as long as no BlockWakeup reads a next pointer that
    has been set again: a live task is in exactly one queue and once in it, a task that is not live
    is in none, and a runnable task is at its own processer.
  */
  lemma ExactlyOnePlace(procs: nat, acts: seq<Act>, w: World, t: Tid)
    requires IsRun(Start(procs), acts, w) && CleanActs(acts)
    ensures t in w.where ==> forall p :: Listed(w, p, t) <==> p == w.where[t]
    ensures t in w.where ==> exists i :: 0 <= i < |Q(w, w.where[t])| && Q(w, w.where[t])[i] == t &&
                                         forall j :: 0 <= j < |Q(w, w.where[t])| && Q(w, w.where[t])[j] == t ==> j == i
    ensures t !in w.where ==> forall p :: !Listed(w, p, t)
    ensures t in w.where && w.where[t].Runnable? ==> t in w.home && w.home[t] == w.where[t].p
  {
    StartsWell(procs);
    RunKeepsInv(Start(procs), acts, w);
    if t in w.where {
      assert Listed(w, w.where[t], t);
      assert QueueOk(w, w.where[t]) && BoundTask(w, t);
      var i := OnlyAt(Q(w, w.where[t]), t);
    }
  }

  ghost function Elements(s: seq<Tid>): set<Tid> { set t | t in s }

  lemma {:induction false} NoDupSize(s: seq<Tid>)
    requires NoDup(s)
    ensures |Elements(s)| == |s|
  {
    if s != [] {
      QueueTail(s);
      NoDupSize(s[1..]);
      assert Elements(s) == Elements(s[1..]) + {s[0]};
    }
  }

  ghost function Below(home: map<Tid, Pid>, n: nat): set<Tid> { set t | t in home && home[t] < n }

  lemma BelowStep(home: map<Tid, Pid>, n: nat)
    ensures |Below(home, n + 1)| == |Below(home, n)| + |HomeOf(home, n)|
  {
    assert Below(home, n + 1) == Below(home, n) + HomeOf(home, n);
    assert Below(home, n) !! HomeOf(home, n);
  }

  lemma {:induction false} SumOfHomes(count: map<Pid, nat>, home: map<Tid, Pid>, n: nat)
    requires forall p: nat :: p < n ==> HomeCount(count, home, p)
    ensures Sum(count, n) == |Below(home, n)|
  {
    if n > 0 {
      SumOfHomes(count, home, n - 1);
      assert HomeCount(count, home, n - 1);
      BelowStep(home, n - 1);
    } else {
      assert Below(home, 0) == {};
    }
  }

  ghost function NewTasks(w: World): set<Tid> { Elements(Q(w, Creating)) + Elements(Q(w, RunTasks)) }

  lemma LiveIsBoundOrNew(w: World)
    requires Placed(w) && Bound(w)
    ensures w.where.Keys == w.home.Keys + NewTasks(w) && w.home.Keys !! NewTasks(w)
    ensures Elements(Q(w, Creating)) !! Elements(Q(w, RunTasks))
    ensures Below(w.home, w.procs) == w.home.Keys
  {
    forall t ensures t in NewTasks(w) <==> t in w.where.Keys && t !in w.home.Keys {
      assert Listed(w, RunTasks, t) <==> t in w.where && w.where[t] == RunTasks;
      assert Listed(w, Creating, t) <==> t in w.where && w.where[t] == Creating;
      assert BoundTask(w, t);
    }
    forall t | t in w.home.Keys ensures t in w.where.Keys && t in Below(w.home, w.procs) { assert BoundTask(w, t); }
    forall t ensures !(t in Elements(Q(w, Creating)) && t in Elements(Q(w, RunTasks))) {
      assert Listed(w, RunTasks, t) && Listed(w, Creating, t) ==> false;
    }
  }

  /**
    The scheduler's count is the sum of the processers' counts plus the length of run_tasks_, plus
    the tasks their creators have counted and not yet enlisted, plus what Run calls in progress have
    finished and not yet reported.
  */
  lemma CountsAgree(w: World)
    requires Inv(w)
    ensures w.taskCount == Sum(w.count, w.procs) + |Q(w, RunTasks)| + |Q(w, Creating)| + Sum(w.undone, w.procs)
  {
    forall p: nat | p < w.procs ensures HomeCount(w.count, w.home, p) { assert CountOk(w, p); }
    SumOfHomes(w.count, w.home, w.procs);
    LiveIsBoundOrNew(w);
    assert QueueOk(w, RunTasks) && QueueOk(w, Creating);
    NoDupSize(Q(w, RunTasks));
    NoDupSize(Q(w, Creating));
    assert |NewTasks(w)| == |Elements(Q(w, Creating))| + |Elements(Q(w, RunTasks))|;
    assert |w.where| == |w.where.Keys| == |w.home.Keys| + |NewTasks(w)|;
  }
}
