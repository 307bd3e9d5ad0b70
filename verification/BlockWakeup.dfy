/**
  BlockWakeup on real queues.  It takes tasks out of the wait queue under the table's lock and then,
  without any lock, walks them through `next` and hands each to its run queue, which relinks that
  very pointer.  `gaps[k]` is what other threads push onto the run queue between the k-th hand-over
  and the read of `next` that follows it.
*/
module BlockWakeup {
  import opened Counting
  import opened TsQueues
  import opened WaitTable

  /** Nothing is pushed before the first read of `next`. */
  predicate Quiet(gaps: seq<seq<Hook>>) { gaps == [] || gaps[0] == [] }

  function Front(s: seq<Hook>): seq<Hook> { if s == [] then [] else [s[0]] }

  /** The tasks of one gap are in no queue yet. */
  ghost predicate Fresh(gap: seq<Hook>, elems: seq<Hook>, pool: set<Hook>)
  {
    Distinct(gap) && forall h :: h in gap ==> h in pool && h !in elems
  }

  ghost predicate Disjoint(a: seq<Hook>, b: seq<Hook>) { forall h :: h in a ==> h !in b }

  /** Other threads push tasks of `pool`, each once. */
  ghost predicate Proper(gaps: seq<seq<Hook>>, pool: set<Hook>)
  {
    && (forall k :: 0 <= k < |gaps| ==> Fresh(gaps[k], [], pool))
    && (forall j, k :: 0 <= j < k < |gaps| ==> Disjoint(gaps[k], gaps[j]))
  }

  /** What is pushed from gap `k` on is not in the run queue. */
  ghost predicate Ahead(gaps: seq<seq<Hook>>, k: nat, elems: seq<Hook>)
  {
    forall j :: k <= j < |gaps| ==> Disjoint(gaps[j], elems)
  }

  lemma AheadStep(gaps: seq<seq<Hook>>, pool: set<Hook>, k: nat, elems: seq<Hook>, it: Hook, others: seq<Hook>)
    requires Proper(gaps, pool) && Ahead(gaps, k, elems) && (it !in pool || it in elems)
    requires others == if k < |gaps| then gaps[k] else []
    ensures Ahead(gaps, k + 1, Pushed(elems, it) + others)
  {
    forall j | k + 1 <= j < |gaps| ensures Disjoint(gaps[j], Pushed(elems, it) + others) {
      assert Disjoint(gaps[j], elems) && Disjoint(gaps[j], gaps[k]) && Fresh(gaps[j], [], pool);
    }
  }

  /** The pushes of other threads, each of a task that is in no queue. */
  method PushAll(run: TSQueue, others: seq<Hook>)
    requires (run.Valid() || run.Forward(run.elems)) && run.head !in others && Distinct(others)
    requires forall h :: h in others ==> h !in run.elems
    modifies run, run.head, run.elems, others
    ensures run.Forward(run.elems) && run.elems == old(run.elems) + others && run.count == old(run.count) + |others|
    ensures old(run.Valid()) ==> run.Valid()
  {
    if run.Valid() { run.ValidIsForward(run.elems); }
    for i := 0 to |others|
      invariant run.Forward(run.elems) && run.elems == old(run.elems) + others[..i] && run.count == old(run.count) + i
      invariant old(run.Valid()) ==> run.Valid()
    {
      assert others[i] !in others[..i];
      run.Push(others[i]);
      assert old(run.elems) + others[..i] + [others[i]] == old(run.elems) + others[..i + 1];
    }
  }

  /** One turn of the loop: the hand-over, the pushes of other threads, and the read of `next`. */
  method Turn(run: TSQueue, it: Hook, others: seq<Hook>) returns (next: Hook?)
    requires (run.Valid() || run.Forward(run.elems)) && it != run.head && run.head !in others && Distinct(others)
    requires forall h :: h in others ==> h !in run.elems && h != it
    modifies run, run.head, run.elems, it, others
    ensures run.Forward(run.elems) && run.elems == Pushed(old(run.elems), it) + others
    ensures run.count == old(run.count) + 1 + |others| && next == First(others)
    ensures old(run.Valid()) && it !in old(run.elems) ==> run.Valid()
  {
    run.Push(it);
    ghost var s := run.elems;
    assert forall h :: h in others ==> h !in s;
    PushAll(run, others);
    assert run.FollowedAt(run.elems, |s|) && run.elems[|s| - 1] == it;
    next := it.next;
  }

  /**
    The loop at the end of BlockWakeup.  Only the first popped task is handed over, and only if
    nobody pushes behind it before `next` is read; otherwise the loop queues tasks a second time,
    and the run queue is beyond repair.
  */
  method Release(tasks: SList, run: TSQueue, gaps: seq<seq<Hook>>, ghost pool: set<Hook>)
    requires tasks.Valid() && run.Valid() && run.head !in tasks.elems && Disjoint(tasks.elems, run.elems)
    requires Proper(gaps, pool) && forall h :: h in pool ==> h != run.head && h !in run.elems && h !in tasks.elems
    modifies run, run.head, run.elems, tasks.elems, pool
    ensures old(tasks.elems) == [] || Quiet(gaps) ==> run.Valid() && run.elems == old(run.elems) + Front(old(tasks.elems))
    ensures old(tasks.elems) != [] && !Quiet(gaps) ==> run.Torn()
  {
    ghost var s, l := run.elems, tasks.elems;
    var it, k := tasks.head, 0;
    while it != null
      invariant k == 0 ==> it == First(l) && run.Valid() && run.elems == s
      invariant k > 0 && Quiet(gaps) ==> it == null && l != [] && run.Valid() && run.elems == s + [l[0]]
      invariant k > 0 && !Quiet(gaps) ==> l != [] && Overfull(run, it, k)
      invariant Ahead(gaps, k, run.elems) && forall h :: h in run.elems ==> h in s || h in l || h in pool
      decreases One(it != null) + if k < |gaps| then |gaps| - k else 0
    {
      var others := if k < |gaps| then gaps[k] else [];
      assert k < |gaps| ==> Disjoint(gaps[k], run.elems) && Fresh(gaps[k], [], pool);
      AheadStep(gaps, pool, k, run.elems, it, others);
      it := Turn(run, it, others);
      k := k + 1;
    }
  }

  /** After a turn with pushes behind the task, the loop stands on a queued task; after two the queue is torn. */
  ghost predicate Overfull(run: TSQueue, it: Hook?, k: nat)
    reads run, run.head, run.elems
  {
    && run.Forward(run.elems) && |run.elems| + One(k > 1) <= run.count
    && (if it == null then k > 1 else it in run.elems)
  }

  /** If only the first popped task runs, all do exactly when there was at most one to pop. */
  lemma AllRunExactly(before: seq<Hook>, waiting: seq<Hook>, n: nat, run: seq<Hook>)
    requires Distinct(waiting) && forall h :: h in waiting ==> h !in before
    ensures var popped := waiting[..Popped(WaitPair(0, waiting), n)];
            run == before + Front(popped) ==>
              ((forall h :: h in popped ==> h in run) <==> waiting == [] || n <= 1 || |waiting| == 1)
  {
    var popped := waiting[..Popped(WaitPair(0, waiting), n)];
    if |popped| > 1 { assert popped[1] in popped && popped[1] == waiting[1] && popped[1] in waiting; }
  }

  /** The entry of one key in the wait table, and the run queue its tasks go to. */
  class Entry {
    var count: nat
    const queue: TSQueue
    const run: TSQueue

    ghost function Pair(): WaitPair<Hook>
      reads this, queue
    {
      WaitPair(count, queue.elems)
    }

    /** The two queues share nothing. */
    ghost predicate Separate()
      reads queue, run
    {
      && queue != run && queue.head != run.head && queue.head !in run.elems && run.head !in queue.elems
      && forall h :: h in queue.elems ==> h !in run.elems
    }

    ghost predicate Valid()
      reads this, queue, queue.head, queue.elems, run, run.head, run.elems
    {
      queue.Valid() && run.Valid() && Separate() && count < UINT32
    }

    constructor ()
      ensures Valid() && Pair() == WaitPair(0, []) && run.elems == []
      ensures fresh(queue) && fresh(run) && fresh(queue.head) && fresh(run.head)
    {
      count := 0;
      queue := new TSQueue();
      run := new TSQueue();
    }

    /** Processer::Run on a task that blocks on this key: true if it stays blocked. */
    method Block(tk: Hook) returns (blocked: bool)
      requires Valid() && tk !in queue.elems && tk !in run.elems && tk != queue.head && tk != run.head
      modifies this, queue, queue.head, queue.elems, tk
      ensures Valid() && run.elems == old(run.elems) && blocked == (old(count) == 0)
      ensures Pair() == BlockPair(old(Pair()), tk)
    {
      blocked := count == 0;
      if blocked { queue.Push(tk); } else { count := count - 1; }
    }

    method TryBlockWait() returns (ok: bool)
      requires Valid()
      modifies this
      ensures Valid() && ok == (old(count) > 0) && Pair() == TryPair(old(Pair()))
    {
      ok := count > 0;
      if ok { count := count - 1; }
    }

    /** What other threads push is in neither queue. */
    ghost predicate Spared(pool: set<Hook>)
      reads queue, run
    {
      forall h :: h in pool ==> h != run.head && h != queue.head && h !in run.elems && h !in queue.elems
    }

    /** Tasks in hand are in neither queue. */
    ghost predicate InHand(tasks: seq<Hook>)
      reads queue, run
    {
      run.head !in tasks && queue.head !in tasks && Disjoint(tasks, run.elems) && Disjoint(tasks, queue.elems)
    }

    /** The part under the table's lock. */
    method Take(n: nat) returns (tasks: SList)
      requires Valid() && n < UINT32
      modifies `count, queue, queue.head, queue.elems
      ensures Valid() && tasks.Valid()
      ensures tasks.elems == old(queue.elems)[..Popped(old(Pair()), n)] && Pair() == WakePair(old(Pair()), n)
      ensures InHand(tasks.elems) && forall h :: h in tasks.elems ==> h in old(queue.elems)
    {
      tasks := queue.PopN(n);
      if tasks.count < n { count := (count + (n - tasks.count)) % UINT32; }
    }

    /** The part without the lock. */
    method Walk(tasks: SList, gaps: seq<seq<Hook>>, ghost pool: set<Hook>)
      requires Valid() && tasks.Valid() && InHand(tasks.elems)
      requires Proper(gaps, pool) && Spared(pool) && forall h :: h in pool ==> h !in tasks.elems
      modifies run, run.head, run.elems, tasks.elems, pool
      ensures queue.Valid() && Pair() == old(Pair())
      ensures old(tasks.elems) == [] || Quiet(gaps) ==> run.Valid() && Separate() && run.elems == old(run.elems) + Front(old(tasks.elems))
      ensures old(tasks.elems) != [] && !Quiet(gaps) ==> run.Torn()
    {
      ghost var s := queue.elems;
      assert forall i :: 0 <= i < |s| ==> s[i] in s && s[i] !in run.elems && s[i] !in tasks.elems && s[i] !in pool && s[i] != run.head;
      Release(tasks, run, gaps, pool);
    }

    /**
      BlockWakeup(n).  Every popped task becomes runnable, and the run queue stays sound, if and only
      if nobody waited, or no task is pushed behind the first one before its `next` is read and at
      most one was popped.
    */
    method BlockWakeup(n: nat, gaps: seq<seq<Hook>>, ghost pool: set<Hook>) returns (ghost popped: seq<Hook>)
      requires Valid() && n < UINT32 && Proper(gaps, pool) && Spared(pool)
      modifies `count, queue, queue.head, queue.elems, run, run.head, run.elems, pool
      ensures popped == old(queue.elems)[..Popped(old(Pair()), n)] && Pair() == WakePair(old(Pair()), n)
      ensures Valid() <==> popped == [] || Quiet(gaps)
      ensures if popped == [] || Quiet(gaps) then run.elems == old(run.elems) + Front(popped) else queue.Valid() && run.Torn()
      ensures (run.Valid() && forall h :: h in popped ==> h in run.elems)
              <==> old(queue.elems) == [] || (Quiet(gaps) && (n <= 1 || |old(queue.elems)| == 1))
    {
      ghost var before, waiting := run.elems, queue.elems;
      var tasks := Take(n);
      popped := tasks.elems;
      Walk(tasks, gaps, pool);
      AllRunExactly(before, waiting, n, run.elems);
    }
  }

  /**
    The ledger of WaitTable keeps the books of undisturbed wakeups: it calls received what BlockWakeup
    appends to the run queue, and lost what was popped and is in no queue.
  */
  lemma BooksAreMeasured(b: Ledger<Hook>, n: nat, before: seq<Hook>, run: seq<Hook>)
    requires run == before + Front(b.pair.queue[..Popped(b.pair, n)])
    ensures var b' := Exec(b, Wake(n));
            && b'.got - b.got == |run| - |before|
            && b'.lost - b.lost == Popped(b.pair, n) - (|run| - |before|)
  {
  }

  /**
    A wakeup of count one, with one task waiting: t is handed over, another thread makes u runnable,
    `next` of t is read, and the loop queues u a second time.  Then u is its own predecessor and the
    count is three for two tasks.
  */
  method WakeupOfOneQueuesTwice() returns (wait: TSQueue, run: TSQueue, t: Hook, u: Hook)
    ensures wait.elems == [] && run.elems == [t, u] && run.count == 3
    ensures t.next == u && u.prev == u && forall e :: !run.ValidAs(e)
  {
    wait := new TSQueue();
    t := new Hook();
    wait.Push(t);
    var tasks := wait.PopN(1);
    run := new TSQueue();
    u := new Hook();
    QueueTwice(run, tasks.head, u);
  }

  method QueueTwice(run: TSQueue, t: Hook, u: Hook)
    requires run.Valid() && run.elems == [] && t != u && run.head !in [t, u]
    modifies run, run.head, t, u
    ensures run.elems == [t, u] && run.count == 3 && t.next == u && u.prev == u && forall e :: !run.ValidAs(e)
  {
    var it := t;
    run.Push(it);
    run.Push(u);
    assert run.elems == [t, u] && run.FollowedAt(run.elems, 1);
    it := it.next;
    run.Push(it);
    assert IndexOf([t, u], u) == 1 && run.elems == [t, u];
    assert run.FollowedAt(run.elems, 1);
    run.TornIsNoQueue();
  }
}
