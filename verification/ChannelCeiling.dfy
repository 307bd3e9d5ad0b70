/**
  The channel at the ceiling of its semaphores, which a Wakeup does not pass: the runs that show
  that the conditions under which slots are conserved and nobody blocks for good are exact.
*/
module ChannelCeiling {
  import opened Counting
  import opened Semaphore
  import opened Channel

  /** An empty channel with `w` free slots, its readers asleep as in `asleep`, and threads as in `pcs`. */
  ghost predicate Quiet<V>(s: Chan<V>, max: nat, w: nat, asleep: seq<Tid>, pcs: map<Tid, Pc<V>>)
  {
    s.w == Sem(w, max, []) && s.r == Sem(0, max, asleep) && s.queue == [] && s.pcs == pcs
  }

  /** A slot offered by one more reader. */
  function Offered(w: nat, max: nat): nat { if w >= max then w else w + 1 }

  lemma Grant<V>(from: Chan<V>, acts: seq<Action<V>>, s: Chan<V>, max: nat, w: nat, asleep: seq<Tid>,
                 pcs: map<Tid, Pc<V>>, t: Tid, blocking: bool)
    returns (acts': seq<Action<V>>, s': Chan<V>)
    requires IsRun(from, acts, s) && Quiet(s, max, w, asleep, pcs) && t in pcs && pcs[t].Idle?
    ensures IsRun(from, acts', s')
    ensures Quiet(s', max, Offered(w, max), asleep, pcs[t := if blocking then RGet(Call) else RTry(true)])
  {
    var a := Begin(t, if blocking then Read(true) else TryPop(true));
    RunSnoc(from, acts, s, a);
    var m := Apply(s, a);
    RunSnoc(from, acts + [a], m, Step(t));
    acts', s' := acts + [a] + [Step(t)], Apply(m, Step(t));
    assert s'.pcs == pcs[t := if blocking then RGet(Call) else RTry(true)];
  }

  /** A TryPop that finds no item and takes a slot back. */
  lemma Undo<V>(from: Chan<V>, acts: seq<Action<V>>, s: Chan<V>, max: nat, w: nat, asleep: seq<Tid>,
                pcs: map<Tid, Pc<V>>, t: Tid)
    returns (acts': seq<Action<V>>, s': Chan<V>)
    requires IsRun(from, acts, s) && Quiet(s, max, w, asleep, pcs) && t in pcs && pcs[t] == RTry(true) && w > 0
    ensures IsRun(from, acts', s') && Quiet(s', max, w - 1, asleep, pcs[t := Idle])
  {
    RunSnoc(from, acts, s, Step(t));
    var m := Apply(s, Step(t));
    RunSnoc(from, acts + [Step(t)], m, Step(t));
    acts', s' := acts + [Step(t)] + [Step(t)], Apply(m, Step(t));
    assert s'.pcs == pcs[t := Idle];
  }

  function Put<V>(pcs: map<Tid, Pc<V>>, at: set<Tid>, pc: Pc<V>): map<Tid, Pc<V>>
  {
    map t | t in pcs :: if t in at then pc else pcs[t]
  }

  /** Each thread of a set offers a slot: they are stored up to the ceiling. */
  lemma {:induction false} GrantAll<V>(from: Chan<V>, acts: seq<Action<V>>, s: Chan<V>, max: nat, w: nat, asleep: seq<Tid>,
                                       pcs: map<Tid, Pc<V>>, all: set<Tid>)
    returns (acts': seq<Action<V>>, s': Chan<V>, w': nat)
    requires IsRun(from, acts, s) && Quiet(s, max, w, asleep, pcs)
    requires forall t :: t in all ==> t in pcs && pcs[t].Idle?
    ensures IsRun(from, acts', s') && Quiet(s', max, w', asleep, Put(pcs, all, RTry(true)))
    ensures w' == if w >= max then w else if w + |all| > max then max else w + |all|
    decreases |all|
  {
    if all == {} {
      assert Put(pcs, all, RTry(true)) == pcs;
      return acts, s, w;
    }
    var t :| t in all;
    var some, m, v := GrantAll(from, acts, s, max, w, asleep, pcs, all - {t});
    var pcs1 := Put(pcs, all - {t}, RTry(true));
    acts', s' := Grant(from, some, m, max, v, asleep, pcs1, t, false);
    assert Put(pcs, all, RTry(true)) == pcs1[t := RTry(true)];
    w' := Offered(v, max);
  }

  lemma {:induction false} UndoAll<V>(from: Chan<V>, acts: seq<Action<V>>, s: Chan<V>, max: nat, w: nat, asleep: seq<Tid>,
                                      pcs: map<Tid, Pc<V>>, all: set<Tid>)
    returns (acts': seq<Action<V>>, s': Chan<V>)
    requires IsRun(from, acts, s) && Quiet(s, max, w, asleep, pcs) && w >= |all|
    requires forall t :: t in all ==> t in pcs && pcs[t] == RTry(true)
    ensures IsRun(from, acts', s') && Quiet(s', max, w - |all|, asleep, Put(pcs, all, Idle))
    decreases |all|
  {
    if all == {} {
      assert Put(pcs, all, Idle) == pcs;
      return acts, s;
    }
    var t :| t in all;
    var some, m := UndoAll(from, acts, s, max, w, asleep, pcs, all - {t});
    var pcs1 := Put(pcs, all - {t}, Idle);
    acts', s' := Undo(from, some, m, max, w - (|all| - 1), asleep, pcs1, t);
    assert Put(pcs, all, Idle) == pcs1[t := Idle];
  }

  function AllIdle<V>(threads: set<Tid>): map<Tid, Pc<V>> { map t | t in threads :: Idle }

  /** Failing TryPops at the ceiling: each costs one slot for good. */
  lemma {:induction false} Drain<V>(capacity: nat, max: nat, threads: set<Tid>, t: Tid, k: nat)
    returns (acts: seq<Action<V>>, s: Chan<V>)
    requires t in threads && (k > 0 ==> 0 < capacity - k + 1 && capacity - k + 1 >= max)
    ensures IsRun(Start(capacity, max, threads), acts, s) && Quiet(s, max, capacity - k, [], AllIdle(threads))
    decreases k
  {
    var from := Start<V>(capacity, max, threads);
    if k == 0 {
      return [], from;
    }
    acts, s := Drain(capacity, max, threads, t, k - 1);
    var idle := AllIdle<V>(threads);
    acts, s := Grant(from, acts, s, max, capacity - k + 1, [], idle, t, false);
    acts, s := Undo(from, acts, s, max, capacity - k + 1, [], idle[t := RTry(true)], t);
    assert s.pcs == idle;
  }

  /**
    One failing TryPop on a channel whose capacity is the ceiling, such as the message channel of a
    TCP session: everything is idle and empty again, and one slot is gone.
  */
  lemma FailedTryPopAtCeiling<V>(max: nat, threads: set<Tid>, t: Tid)
    returns (acts: seq<Action<V>>, s: Chan<V>)
    requires t in threads && max > 0
    ensures IsRun(Start(max, max, threads), acts, s)
    ensures s.queue == [] && s.r.wakeup == 0 && s.w.wakeup == max - 1
    ensures forall u :: u in s.pcs ==> s.pcs[u].Idle?
  {
    acts, s := Drain(max, max, threads, t, 1);
  }

  ghost predicate Reaches<V>(capacity: nat, max: nat, threads: set<Tid>, acts: seq<Action<V>>, s: Chan<V>)
  {
    IsRun(Start(capacity, max, threads), acts, s)
  }

  /** Slots are conserved in every run if and only if capacity plus threads fit below the ceiling. */
  lemma SlotsConservedExactly<V(!new)>(capacity: nat, max: nat, threads: set<Tid>)
    ensures (forall acts: seq<Action<V>>, s: Chan<V> :: Reaches(capacity, max, threads, acts, s) ==> SlotsAddUp(capacity, s))
            <==> threads == {} || capacity + |threads| <= max
  {
    var from := Start<V>(capacity, max, threads);
    if threads == {} || capacity + |threads| <= max {
      forall acts: seq<Action<V>>, s: Chan<V> | Reaches(capacity, max, threads, acts, s) ensures SlotsAddUp(capacity, s) {
        if threads == {} {
          NobodyMoves(from, acts, s);
          NoSlotsYet<V>(capacity, max, threads);
        } else {
          SlotsConserved(capacity, max, threads, acts, s);
        }
      }
    } else {
      var acts, s, w := GrantAll(from, [], from, max, capacity, [], AllIdle(threads), threads);
      AllReading(s, threads);
      assert Reaches(capacity, max, threads, acts, s) && !SlotsAddUp(capacity, s);
    }
  }

  lemma NobodyMoves<V>(from: Chan<V>, acts: seq<Action<V>>, s: Chan<V>)
    requires from.pcs == map[] && IsRun(from, acts, s)
    ensures s == from
  {
  }

  lemma NoSlotsYet<V>(capacity: nat, max: nat, threads: set<Tid>)
    ensures SlotsAddUp(capacity, Start<V>(capacity, max, threads))
  {
    var s := Start<V>(capacity, max, threads);
    CountNone(s.pcs, Reserved);
    CountNone(s.pcs, Untold);
    CountNone(s.pcs, HasSlot);
    CountNone(s.pcs, Reading);
  }

  lemma AllReading<V>(s: Chan<V>, threads: set<Tid>)
    requires s.pcs == Put(AllIdle(threads), threads, RTry(true))
    ensures Count(s.pcs, Reading) == |threads| && Count(s.pcs, HasSlot) == 0
  {
    CountNone(s.pcs, HasSlot);
    assert Where(s.pcs, Reading) == threads;
  }

  // ---------------------------------------------------------------- blocking for good

  ghost predicate Deadlocked<V>(s: Chan<V>)
  {
    (forall t :: t in s.pcs ==> AtRest(s.pcs[t])) && s.w.queue != [] && s.r.queue != []
  }

  lemma {:induction false} SubsetOfSize(s: set<Tid>, k: nat) returns (a: set<Tid>)
    requires k <= |s|
    ensures a <= s && |a| == k
    decreases |s|
  {
    if k == |s| { return s; }
    var t :| t in s;
    a := SubsetOfSize(s - {t}, k);
  }

  /** A reader that finds nothing and falls asleep, and a writer that finds no slot and does too. */
  lemma ReaderSleeps<V>(from: Chan<V>, acts: seq<Action<V>>, s: Chan<V>, max: nat, w: nat, pcs: map<Tid, Pc<V>>, t: Tid)
    returns (acts': seq<Action<V>>, s': Chan<V>)
    requires IsRun(from, acts, s) && Quiet(s, max, w, [], pcs) && t in pcs && pcs[t].Idle?
    ensures IsRun(from, acts', s') && Quiet(s', max, Offered(w, max), [t], pcs[t := RGet(Queued)])
  {
    var a1, s1 := Grant(from, acts, s, max, w, [], pcs, t, true);
    RunSnoc(from, a1, s1, Step(t));
    var s2 := Apply(s1, Step(t));
    RunSnoc(from, a1 + [Step(t)], s2, Step(t));
    acts', s' := a1 + [Step(t)] + [Step(t)], Apply(s2, Step(t));
    assert s'.pcs == pcs[t := RGet(Queued)];
  }

  lemma WriterSleeps<V>(from: Chan<V>, acts: seq<Action<V>>, s: Chan<V>, max: nat, asleep: seq<Tid>,
                        pcs: map<Tid, Pc<V>>, t: Tid, v: V)
    returns (acts': seq<Action<V>>, s': Chan<V>)
    requires IsRun(from, acts, s) && Quiet(s, max, 0, asleep, pcs) && t in pcs && pcs[t].Idle?
    ensures IsRun(from, acts', s') && s'.pcs == pcs[t := WGet(v, Queued)] && s'.r == s.r && s'.w.queue == [t]
  {
    var a := Begin(t, Write(v, true));
    RunSnoc(from, acts, s, a);
    var s1 := Apply(s, a);
    RunSnoc(from, acts + [a], s1, Step(t));
    var s2 := Apply(s1, Step(t));
    RunSnoc(from, acts + [a] + [Step(t)], s2, Step(t));
    acts', s' := acts + [a] + [Step(t)] + [Step(t)], Apply(s2, Step(t));
    assert s'.pcs == pcs[t := WGet(v, Queued)];
  }

  /** With more threads than the ceiling: readers overfill it, take back what is stored, and one of them writes. */
  lemma DeadlockRun<V>(capacity: nat, max: nat, threads: set<Tid>, v: V)
    returns (acts: seq<Action<V>>, s: Chan<V>)
    requires |threads| > max && |threads| >= 2
    ensures IsRun(Start(capacity, max, threads), acts, s) && Deadlocked(s)
  {
    var from := Start<V>(capacity, max, threads);
    var idle := AllIdle<V>(threads);
    var reader :| reader in threads;
    assert |threads - {reader}| == |threads| - 1;
    var writer :| writer in threads - {reader};
    var group := SubsetOfSize(threads - {reader}, max);
    var spare := if capacity > max then capacity - max else 0;
    acts, s := Drain(capacity, max, threads, reader, spare);
    acts, s := ReaderSleeps(from, acts, s, max, capacity - spare, idle, reader);
    var pcs := idle[reader := RGet(Queued)];
    var w;
    acts, s, w := GrantAll(from, acts, s, max, Offered(capacity - spare, max), [reader], pcs, group);
    acts, s := UndoAll(from, acts, s, max, w, [reader], Put(pcs, group, RTry(true)), group);
    assert Put(Put(pcs, group, RTry(true)), group, Idle) == pcs;
    acts, s := WriterSleeps(from, acts, s, max, [reader], pcs, writer, v);
  }

  lemma DeadlockNeedsTwo<V>(capacity: nat, max: nat, threads: set<Tid>, acts: seq<Action<V>>, s: Chan<V>)
    requires IsRun(Start(capacity, max, threads), acts, s) && Deadlocked(s)
    ensures |threads| > max && |threads| >= 2
  {
    NoMutualBlocking(capacity, max, threads, acts, s);
    Reached(capacity, max, threads, acts, s);
    RefusalsBounded(capacity, max, threads, acts, s);
    var t, u := s.w.queue[0], s.r.queue[0];
    assert t in s.w.queue && u in s.r.queue;
    SubsetSize({t, u}, s.pcs.Keys);
  }

  /** A reader and a writer can end up asleep for good if and only if the threads outnumber the ceiling. */
  lemma DeadlockExactly<V(!new)>(capacity: nat, max: nat, threads: set<Tid>, v: V)
    ensures (exists acts: seq<Action<V>>, s: Chan<V> :: Reaches(capacity, max, threads, acts, s) && Deadlocked(s))
            <==> |threads| > max && |threads| >= 2
  {
    if |threads| > max && |threads| >= 2 {
      var acts, s := DeadlockRun(capacity, max, threads, v);
      assert Reaches(capacity, max, threads, acts, s) && Deadlocked(s);
    }
    forall acts: seq<Action<V>>, s: Chan<V> | Reaches(capacity, max, threads, acts, s) && Deadlocked(s)
      ensures |threads| > max && |threads| >= 2
    {
      DeadlockNeedsTwo(capacity, max, threads, acts, s);
    }
  }
}
