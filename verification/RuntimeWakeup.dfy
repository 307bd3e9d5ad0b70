/**
  BlockWakeup among all other threads: when the walk over the popped tasks is harmless, what a
  harmful one does, and what becomes of the tasks it leaves behind.
*/
module RuntimeWakeup {
  import opened Lists
  import opened Semaphore
  import opened Runtime

  predicate IsOver(w: World, h: nat) { h in w.walk && w.walk[h].Over? }

  predicate IsLast(s: seq<Tid>, t: Tid) { s != [] && s[|s| - 1] == t }

  /** A task has no successor exactly when it is the last one. */
  lemma {:induction false} NextIsNoneExactly(s: seq<Tid>, t: Tid)
    requires NoDup(s) && t in s
    ensures NextIn(s, t).None? <==> IsLast(s, t)
    ensures NextIn(s, t).Some? ==> NextIn(s, t).value in s
  {
    if |s| >= 2 {
      if s[0] == t {
        assert s[1] in s && Apart(s, 0, |s| - 1);
      } else {
        assert t in s[1..];
        QueueTail(s);
        NextIsNoneExactly(s[1..], t);
      }
    }
  }

  /** A second link for any task, live or not, puts it into two places or twice into one. */
  lemma QueuedAgainBreaks(w: World, u: Tid)
    requires Placed(w)
    ensures !Placed(QueuedAgain(w, u))
  {
    var w', p := QueuedAgain(w, u), Target(w, u);
    assert Q(w', p)[|Q(w, p)|] == u && Listed(w', p, u);
    if Listed(w, p, u) {
      var i :| 0 <= i < |Q(w, p)| && Q(w, p)[i] == u;
      assert Q(w', p)[i] == u;
      assert !Apart(Q(w', p), i, |Q(w, p)|);
      assert !QueueOk(w', p);
    } else {
      assert !(u in w.where && w.where[u] == p);
    }
  }

  /**
    The read that follows a hand-over decides.  If the task handed over is the last one in the queue
    it is in by then, the walk is over and all is well; if not, the next hand-over queues a task that
    is queued already.
  */
  lemma ReadDecides(w: World, h: nat)
    requires Inv(w) && h in w.walk && w.walk[h].Released? && w.walk[h].t in w.where
    ensures var t := w.walk[h].t;
            var q, read := Q(w, w.where[t]), Read(h, NextOf(w, t));
            && Enabled(w, read)
            && (IsLast(q, t) ==> Inv(Apply(w, read)) && IsOver(Apply(w, read), h))
            && (!IsLast(q, t) ==> Enabled(Apply(w, read), Release(h)) && !Placed(Apply(Apply(w, read), Release(h))))
  {
    var t := w.walk[h].t;
    var q, read := Q(w, w.where[t]), Read(h, NextOf(w, t));
    assert Listed(w, w.where[t], t) && QueueOk(w, w.where[t]) && WalkOk(w, h);
    NextIsNoneExactly(q, t);
    if IsLast(q, t) {
      Preserved(w, read);
    } else {
      var u, w1 := NextOf(w, t).value, Apply(w, read);
      assert Listed(w, w.where[t], u);
      if Q(w, Popped(h)) != [] { At(w, Popped(h), 0); }
      SameQueues(w, w1);
      QueuedAgainBreaks(w1, u);
      BreaksWhateverTheCursor(QueuedAgain(w1, u), Apply(w1, Release(h)));
    }
  }

  lemma BreaksWhateverTheCursor(w: World, w': World)
    requires !Placed(w) && w'.q == w.q && w'.where == w.where
    ensures !Placed(w')
  {
    if Placed(w') { SameQueues(w', w); }
  }

  /** If nothing happens between the hand-over and the read, the task is the last in its run queue. */
  lemma UndisturbedIsLast(w: World, h: nat)
    requires Inv(w) && Enabled(w, Release(h))
    ensures var w', u := Apply(w, Release(h)), w.walk[h].u;
            && Inv(w') && w'.walk[h] == Released(u) && u in w'.where
            && IsLast(Q(w', w'.where[u]), u)
  {
    Preserved(w, Release(h));
    ReleaseIsMove(w, h);
  }

  // ---------------------------------------------------------------- tasks left behind

  lemma FinishedWalkRests(w: World, a: Act, h: nat)
    requires Inv(w) && Enabled(w, a) && Clean(a) && IsOver(w, h)
    ensures IsOver(Apply(w, a), h) && Q(Apply(w, a), Popped(h)) == Q(w, Popped(h))
  {
    match a
    case Out(p, i, how) => OutLeavesWalks(w, p, i, how, h);
    case Wake(_, _, _) =>
    case Release(g) => ReleaseIsMove(w, g);
    case Read(_, _) =>
    case _ => OthersLeaveWalk(w, a, h);
  }

  /** What a BlockWakeup has popped and not handed over when its walk ends stays in nobody's hands for good. */
  lemma {:induction false} LeftBehindForever(from: World, acts: seq<Act>, to: World, h: nat)
    requires Inv(from) && IsRun(from, acts, to) && CleanActs(acts) && IsOver(from, h)
    ensures IsOver(to, h) && Q(to, Popped(h)) == Q(from, Popped(h))
    decreases |acts|
  {
    if acts != [] {
      assert Clean(acts[0]);
      Preserved(from, acts[0]);
      FinishedWalkRests(from, acts[0], h);
      LeftBehindForever(Apply(from, acts[0]), acts[1..], to, h);
    }
  }

  /** Hand-over and read, undisturbed. */
  lemma UndisturbedRelease(w: World, h: nat) returns (w': World)
    requires Inv(w) && Enabled(w, Release(h))
    ensures Enabled(Apply(w, Release(h)), Read(h, None)) && w' == Apply(Apply(w, Release(h)), Read(h, None))
    ensures Inv(w') && IsOver(w', h) && Q(w, Popped(h)) != [] && Q(w', Popped(h)) == Q(w, Popped(h))[1..]
    ensures var u := w.walk[h].u; u in w.home && u in w'.where && w'.where[u] == Runnable(w.home[u])
  {
    var w1, u := Apply(w, Release(h)), w.walk[h].u;
    ReleaseIsMove(w, h);
    UndisturbedIsLast(w, h);
    assert QueueOk(w1, w1.where[u]);
    NextIsNoneExactly(Q(w1, w1.where[u]), u);
    w' := Apply(w1, Read(h, None));
    Preserved(w1, Read(h, None));
    assert Q(w1, Popped(h)) == Remove(Q(w, Popped(h)), 0);
  }

  /**
    A BlockWakeup that nothing disturbs, from the pop to the end of its walk: the first popped task
    is runnable, and the others are left behind.  So all are released if and only if at most one was
    popped.
  */
  lemma UndisturbedWakeup(w: World, from: Place, n: nat, h: nat) returns (w': World)
    requires Inv(w) && Enabled(w, Wake(from, n, h)) && Q(w, from) != []
    ensures IsRun(w, [Wake(from, n, h), Release(h), Read(h, None)], w')
    ensures Inv(w') && IsOver(w', h) && Q(w', Popped(h)) == Q(w, from)[1..Taken(w, from, n)]
    ensures Q(w', Popped(h)) == [] <==> n <= 1 || |Q(w, from)| == 1
    ensures var u := Q(w, from)[0]; u in w.home && u in w'.where && w'.where[u] == Runnable(w.home[u])
  {
    var w1 := Apply(w, Wake(from, n, h));
    Preserved(w, Wake(from, n, h));
    assert Q(w1, Popped(h)) == Q(w, from)[..Taken(w, from, n)] && w1.home == w.home;
    w' := UndisturbedRelease(w1, h);
    ThreeSteps(w, Wake(from, n, h), Release(h), Read(h, None), w');
  }

  lemma ThreeSteps(w: World, a: Act, b: Act, c: Act, w': World)
    requires Enabled(w, a) && Enabled(Apply(w, a), b) && Enabled(Apply(Apply(w, a), b), c)
    requires w' == Apply(Apply(Apply(w, a), b), c)
    ensures IsRun(w, [a, b, c], w')
  {
    var w1, w2 := Apply(w, a), Apply(Apply(w, a), b);
    assert [a, b, c][1..] == [b, c] && [b, c][1..] == [c] && [c][1..] == [];
    assert IsRun(w', [], w') && IsRun(w2, [c], w') && IsRun(w1, [b, c], w');
  }

  // ---------------------------------------------------------------- a wakeup of one that goes wrong

  lemma {:induction false} RunSnoc(from: World, acts: seq<Act>, w: World, a: Act)
    requires IsRun(from, acts, w) && Enabled(w, a)
    ensures IsRun(from, acts + [a], Apply(w, a))
    decreases |acts|
  {
    if acts == [] {
      assert IsRun(Apply(w, a), [], Apply(w, a));
    } else {
      RunSnoc(Apply(from, acts[0]), acts[1..], w, a);
      assert (acts + [a])[1..] == acts[1..] + [a];
    }
  }

  predicate OfOne(a: Act) { a.Wake? ==> a.n == 1 }

  /** There is a run in which every wakeup is of count one. */
  ghost predicate Reaches(from: World, to: World)
  {
    exists acts :: IsRun(from, acts, to) && forall i :: 0 <= i < |acts| ==> OfOne(acts[i])
  }

  lemma OneMore(s: World, w: World, a: Act)
    requires Reaches(s, w) && Enabled(w, a) && OfOne(a)
    ensures Reaches(s, Apply(w, a))
  {
    var acts :| IsRun(s, acts, w) && forall i :: 0 <= i < |acts| ==> OfOne(acts[i]);
    RunSnoc(s, acts, w, a);
    assert forall i :: 0 <= i < |acts + [a]| ==> OfOne((acts + [a])[i]);
  }

  /** One processer, nothing signalled and no BlockWakeup so far, and these tasks in the containers. */
  predicate Holds(w: World, creating: seq<Tid>, run: seq<Tid>, runnable: seq<Tid>, batch: seq<Tid>, waiting: seq<Tid>)
  {
    && Q(w, Creating) == creating && Q(w, RunTasks) == run && Q(w, Runnable(0)) == runnable && Q(w, Batch(0)) == batch
    && Q(w, UserQ(1, 7)) == waiting && Q(w, Popped(0)) == []
    && w.procs == 1 && w.walk == map[] && w.tokens == map[]
  }

  lemma StepCreate(s: World, w: World, t: Tid, waiting: seq<Tid>) returns (w': World)
    requires Reaches(s, w) && Holds(w, [], [], [], [], waiting) && t !in w.where && t !in w.home
    ensures Reaches(s, w') && Holds(w', [t], [], [], [], waiting)
    ensures w'.home == w.home && w'.where.Keys == w.where.Keys + {t}
  {
    w' := Apply(w, Create(t));
    OneMore(s, w, Create(t));
  }

  lemma StepEnlist(s: World, w: World, t: Tid, waiting: seq<Tid>) returns (w': World)
    requires Reaches(s, w) && Holds(w, [t], [], [], [], waiting) && t in w.where
    ensures Reaches(s, w') && Holds(w', [], [t], [], [], waiting)
    ensures w'.home == w.home && w'.where.Keys == w.where.Keys
  {
    w' := Apply(w, Enlist(0));
    OneMore(s, w, Enlist(0));
  }

  lemma StepPick(s: World, w: World, t: Tid) returns (w': World)
    requires Reaches(s, w) && Holds(w, [], [t], [], [], []) && t in w.where
    ensures Reaches(s, w') && Holds(w', [], [], [t], [], [])
    ensures w'.home == w.home[t := 0] && w'.where.Keys == w.where.Keys
  {
    w' := Apply(w, Pick(0));
    OneMore(s, w, Pick(0));
  }

  lemma StepBegin(s: World, w: World, t: Tid) returns (w': World)
    requires Reaches(s, w) && Holds(w, [], [], [t], [], []) && t in w.where
    ensures Reaches(s, w') && Holds(w', [], [], [], [t], [])
    ensures w'.home == w.home && w'.where.Keys == w.where.Keys
  {
    w' := Apply(w, Begin(0));
    OneMore(s, w, Begin(0));
  }

  lemma StepBlock(s: World, w: World, t: Tid) returns (w': World)
    requires Reaches(s, w) && Holds(w, [], [], [], [t], []) && t in w.where
    ensures Reaches(s, w') && Holds(w', [], [], [], [], [t])
    ensures w'.home == w.home && w'.where.Keys == w.where.Keys
  {
    w' := Apply(w, Out(0, 0, UserBlock(1, 7)));
    OneMore(s, w, Out(0, 0, UserBlock(1, 7)));
  }

  lemma OneRuns(s: World, t: Tid) returns (w: World)
    requires Holds(s, [], [], [], [], []) && s.home == map[] && s.where == map[]
    ensures Reaches(s, w) && Holds(w, [], [], [], [t], []) && w.home == map[t := 0] && w.where.Keys == {t}
  {
    assert IsRun(s, [], s);
    w := StepCreate(s, s, t, []);
    w := StepEnlist(s, w, t, []);
    w := StepPick(s, w, t);
    w := StepBegin(s, w, t);
  }

  /** Task t waits for key (1, 7), and task u has just been created. */
  lemma OneWaits(s: World, t: Tid, u: Tid) returns (w: World)
    requires Holds(s, [], [], [], [], []) && s.home == map[] && s.where == map[] && t != u
    ensures Reaches(s, w) && Holds(w, [], [u], [], [], [t]) && w.home == map[t := 0] && t in w.where && u in w.where
  {
    w := OneRuns(s, t);
    w := StepBlock(s, w, t);
    w := StepCreate(s, w, u, [t]);
    w := StepEnlist(s, w, u, [t]);
  }

  /** A wakeup of count one up to the hand-over. */
  lemma StepWake(s: World, w: World, t: Tid, u: Tid) returns (w': World)
    requires Reaches(s, w) && Holds(w, [], [u], [], [], [t]) && w.home == map[t := 0] && t in w.where
    ensures Reaches(s, w')
    ensures OnePopped(w', t, u)
  {
    w' := Apply(w, Wake(UserQ(1, 7), 1, 0));
    OneMore(s, w, Wake(UserQ(1, 7), 1, 0));
  }

  /** Task t has been popped, and u waits for a processer. */
  predicate OnePopped(w: World, t: Tid, u: Tid)
  {
    && Q(w, Popped(0)) == [t] && Q(w, Runnable(0)) == [] && Q(w, RunTasks) == [u] && w.procs == 1
    && w.walk == map[0 := Next(t)] && w.home == map[t := 0] && t in w.where
  }

  /** Task t has been handed over, and its next pointer not read yet. */
  predicate OneHanded(w: World, t: Tid, u: Tid)
  {
    && Q(w, Popped(0)) == [] && Q(w, Runnable(0)) == [t] && Q(w, RunTasks) == [u] && w.procs == 1
    && w.walk == map[0 := Released(t)] && w.home == map[t := 0] && t in w.where && w.where[t] == Runnable(0)
  }

  lemma HandsOver(w: World, t: Tid, u: Tid)
    requires OnePopped(w, t, u)
    ensures Enabled(w, Release(0)) && OneHanded(Apply(w, Release(0)), t, u)
  {
  }

  lemma StepRelease(s: World, w: World, t: Tid, u: Tid) returns (w': World)
    requires Reaches(s, w) && OnePopped(w, t, u)
    ensures Reaches(s, w') && OneHanded(w', t, u)
  {
    HandsOver(w, t, u);
    w' := Apply(w, Release(0));
    OneMore(s, w, Release(0));
  }

  /** Before the read, another task is picked by the same processer and linked behind. */
  lemma StepDisturb(s: World, w: World, t: Tid, u: Tid) returns (w': World)
    requires Reaches(s, w) && OneHanded(w, t, u) && t != u
    ensures Reaches(s, w')
    ensures Q(w', Popped(0)) == [] && Q(w', Runnable(0)) == [t, u] && w'.walk == w.walk && w'.home == w.home[u := 0]
    ensures t in w'.where && w'.where[t] == Runnable(0)
  {
    w' := Apply(w, Pick(0));
    OneMore(s, w, Pick(0));
  }

  lemma StepReadAgain(s: World, w: World, t: Tid, u: Tid) returns (w': World)
    requires Reaches(s, w) && Q(w, Popped(0)) == [] && Q(w, Runnable(0)) == [t, u] && w.walk == map[0 := Released(t)]
    requires t in w.where && w.where[t] == Runnable(0) && u in w.home && w.home[u] == 0
    ensures Reaches(s, w') && Q(w', Runnable(0)) == [t, u, u]
  {
    assert NextIn([t, u], t) == Some(u);
    var w1 := Apply(w, Read(0, Some(u)));
    OneMore(s, w, Read(0, Some(u)));
    w' := Apply(w1, Release(0));
    OneMore(s, w1, Release(0));
  }

  /** A wakeup of count one, with one task waiting, makes another task runnable a second time. */
  lemma WakeupOfOneRunsTwice() returns (w: World)
    ensures Reaches(Start(1), w) && Q(w, Runnable(0)) == [0, 1, 1]
  {
    var s := Start(1);
    w := OneWaits(s, 0, 1);
    w := StepWake(s, w, 0, 1);
    w := StepRelease(s, w, 0, 1);
    w := StepDisturb(s, w, 0, 1);
    w := StepReadAgain(s, w, 0, 1);
  }
}
