/** What each decision of the channel is, in every run, and what an operation does when nobody disturbs it. */
module ChannelAlone {
  import opened Counting
  import opened Semaphore
  import opened Channel

  /** The queue's mutex is free. */
  ghost predicate Unlocked<V>(s: Chan<V>) { forall u :: u in s.pcs ==> !Locked(s.pcs[u]) }

  lemma UnlockedCounts<V>(s: Chan<V>)
    ensures Unlocked(s) <==> Count(s.pcs, Locked) == 0
  {
    if Unlocked(s) { CountNone(s.pcs, Locked); }
    if Count(s.pcs, Locked) == 0 { CountZero(s.pcs, Locked); }
  }

  /** What a thread asks the semaphores for at its next step, and where it is when it gets that. */
  lemma AsksSlot<V>(s: Chan<V>, t: Tid)
    requires Enabled(s, Step(t))
    ensures var pc, s' := s.pcs[t], Apply(s, Step(t));
            && (pc.WTry? ==> s'.pcs[t] == if s.w.wakeup > 0 then WLock(pc.v, First(pc.co)) else Idle)
            && (pc.RUndo? ==> s'.pcs[t] == if s.w.wakeup > 0 then Idle else RTry(pc.co))
            && (pc.WGet? && !pc.ph.Queued? ==> (s'.pcs[t].WLock? <==> s.w.wakeup > 0) && (s'.pcs[t].WLock? ==> s'.pcs[t].v == pc.v))
            && (pc.WTry? || pc.RUndo? || (pc.WGet? && !pc.ph.Queued?) ==> s'.w.wakeup == s.w.wakeup - One(s.w.wakeup > 0))
  {
  }

  lemma AsksItem<V>(s: Chan<V>, t: Tid)
    requires Enabled(s, Step(t))
    ensures var pc, s' := s.pcs[t], Apply(s, Step(t));
            && (pc.RTry? ==> s'.pcs[t] == if s.r.wakeup > 0 then RLock(First(pc.co)) else RUndo(pc.co))
            && (pc.RGet? && !pc.ph.Queued? ==> (s'.pcs[t].RLock? <==> s.r.wakeup > 0))
            && (pc.RTry? || (pc.RGet? && !pc.ph.Queued?) ==> s'.r.wakeup == s.r.wakeup - One(s.r.wakeup > 0))
  {
  }

  lemma AsksMutex<V>(s: Chan<V>, t: Tid)
    requires Enabled(s, Step(t))
    ensures var pc, s' := s.pcs[t], Apply(s, Step(t));
            && (pc.WLock? && !pc.ph.Queued? ==> (s'.pcs[t] == WPush(pc.v) <==> s.m.wakeup > 0))
            && (pc.RLock? && !pc.ph.Queued? ==> (s'.pcs[t].RFront? <==> s.m.wakeup > 0))
  {
  }

  /** A thread that finds nothing: it keeps polling, or parks and then joins the end of the queue. */
  lemma FindsNothing<V>(s: Chan<V>, t: Tid)
    requires Enabled(s, Step(t)) && (s.pcs[t].WGet? || s.pcs[t].RGet? || s.pcs[t].WLock? || s.pcs[t].RLock?)
    ensures var pc, s', id := s.pcs[t], Apply(s, Step(t)), PcWait(s.pcs[t]).0;
            Pick(s, id).wakeup == 0 ==>
              && (pc.ph.Poll? ==> s' == s) && (pc.ph.Queued? ==> s' == s)
              && (pc.ph.Call? ==> s'.pcs[t] == WithPhase(pc, Parked) && Pick(s', id) == Pick(s, id))
              && (pc.ph.Parked? ==> On(s'.pcs[t], id) && Pick(s', id).queue == Pick(s, id).queue + [t])
  {
    assert s.pcs[t := s.pcs[t]] == s.pcs;
  }

  /**
    In every run: a TryPush refuses exactly when no slot is stored, and a TryPop exactly when no item
    is signalled and a slot can be taken back; a blocking write or read goes on exactly when there is
    one for it; and the queue is entered exactly when its mutex is free.
  */
  lemma DecidedExactly<V>(capacity: nat, max: nat, threads: set<Tid>, acts: seq<Action<V>>, s: Chan<V>, t: Tid)
    requires IsRun(Start(capacity, max, threads), acts, s) && t in s.pcs && Enabled(s, Step(t))
    ensures var pc, pc' := s.pcs[t], Apply(s, Step(t)).pcs[t];
            && (pc.WTry? ==> pc' == if s.w.wakeup > 0 then WLock(pc.v, First(pc.co)) else Idle)
            && (pc.RTry? ==> pc' == if s.r.wakeup > 0 then RLock(First(pc.co)) else RUndo(pc.co))
            && (pc.RUndo? ==> pc' == if s.w.wakeup > 0 then Idle else RTry(pc.co))
            && (pc.WGet? && !pc.ph.Queued? ==> (pc'.WLock? <==> s.w.wakeup > 0))
            && (pc.RGet? && !pc.ph.Queued? ==> (pc'.RLock? <==> s.r.wakeup > 0))
            && (pc.WLock? && !pc.ph.Queued? ==> (pc' == WPush(pc.v) <==> Unlocked(s)))
            && (pc.RLock? && !pc.ph.Queued? ==> (pc'.RFront? <==> Unlocked(s)))
  {
    Reached(capacity, max, threads, acts, s);
    UnlockedCounts(s);
    AsksSlot(s, t);
    AsksItem(s, t);
    AsksMutex(s, t);
  }

  /** `n` steps of one thread. */
  ghost predicate Stepped<V>(s: Chan<V>, t: Tid, n: nat, s': Chan<V>)
    decreases n
  {
    if n == 0 then s == s' else Enabled(s, Step(t)) && Stepped(Apply(s, Step(t)), t, n - 1, s')
  }

  ghost predicate AllIdle<V>(s: Chan<V>) { forall u :: u in s.pcs ==> s.pcs[u].Idle? }

  predicate OffQueue<V>(pcs: map<Tid, Pc<V>>, u: Tid) { u in pcs ==> !PcWait(pcs[u]).1 }

  lemma NobodyQueued<V>(q: Sem, pcs: map<Tid, Pc<V>>, id: SemId)
    requires QueueOk(q, pcs, id) && forall u :: OffQueue(pcs, u)
    ensures q.queue == []
  {
    forall u ensures u !in q.queue { assert OffQueue(pcs, u); }
    if q.queue != [] { HasMember(q.queue); }
  }

  lemma HasMember(s: seq<Tid>)
    requires s != []
    ensures exists t :: t in s
  {
    assert s[0] in s;
  }

  lemma IdleState<V>(capacity: nat, max: nat, threads: set<Tid>, acts: seq<Action<V>>, s: Chan<V>)
    requires IsRun(Start(capacity, max, threads), acts, s) && AllIdle(s)
    ensures s.m == Sem(1, 1, []) && s.w.queue == [] && s.r.queue == [] && s.r.wakeup <= |s.queue|
    ensures s.w.max == max && s.r.max == max
  {
    Reached(capacity, max, threads, acts, s);
    RefusalsBounded(capacity, max, threads, acts, s);
    CountNone(s.pcs, Locked);
    forall u ensures OffQueue(s.pcs, u) { assert u in s.pcs ==> s.pcs[u].Idle?; }
    NobodyQueued(s.w, s.pcs, W);
    NobodyQueued(s.r, s.pcs, R);
    NobodyQueued(s.m, s.pcs, M);
  }

  function Stored(n: nat, max: nat): nat { if n >= max then n else n + 1 }

  /** A TryPush with nobody else at work: the value is at the end of the queue and one reader may take it, or nothing happens. */
  lemma TryPushAlone<V>(capacity: nat, max: nat, threads: set<Tid>, acts: seq<Action<V>>, s: Chan<V>, t: Tid, v: V) returns (s': Chan<V>)
    requires IsRun(Start(capacity, max, threads), acts, s) && AllIdle(s) && t in s.pcs
    ensures if s.w.wakeup > 0
            then Stepped(Apply(s, Begin(t, TryPush(v, true))), t, 5, s') && AllIdle(s')
                 && s'.queue == s.queue + [v] && s'.pushed == s.pushed + [v] && s'.popped == s.popped
                 && s'.w.wakeup == s.w.wakeup - 1 && s'.r.wakeup == Stored(s.r.wakeup, max)
            else Stepped(Apply(s, Begin(t, TryPush(v, true))), t, 1, s') && s' == s
  {
    IdleState(capacity, max, threads, acts, s);
    var s0 := Apply(s, Begin(t, TryPush(v, true)));
    var s1 := Apply(s0, Step(t));
    if s.w.wakeup == 0 {
      assert s1.pcs == s.pcs;
      assert Stepped(s1, t, 0, s1);
      return s1;
    }
    var s2 := Apply(s1, Step(t));
    s' := PushesAndSignals(s2, t, v);
    assert Stepped(s1, t, 4, s');
  }

  /** Inside the mutex: push, unlock, signal the readers. */
  lemma PushesAndSignals<V>(s: Chan<V>, t: Tid, v: V) returns (s': Chan<V>)
    requires t in s.pcs && s.pcs[t] == WPush(v) && s.m.queue == [] && s.m.wakeup < s.m.max && s.r.queue == []
    ensures Stepped(s, t, 3, s') && s'.pcs == s.pcs[t := Idle] && s'.w == s.w && s'.r == s.r.(wakeup := Stored(s.r.wakeup, s.r.max))
    ensures s'.queue == s.queue + [v] && s'.pushed == s.pushed + [v] && s'.popped == s.popped
  {
    var s3 := Apply(s, Step(t));
    assert s3.pcs[t] == WUnlock;
    var s4 := Apply(s3, Step(t));
    assert s4.pcs[t] == WSignal && s4.r == s.r;
    s' := Apply(s4, Step(t));
    assert Stepped(s', t, 0, s') && Stepped(s4, t, 1, s') && Stepped(s3, t, 2, s');
  }

  /** A TryPop with nobody else at work: it takes the front of the queue if an item is signalled. */
  lemma TryPopAlone<V>(capacity: nat, max: nat, threads: set<Tid>, acts: seq<Action<V>>, s: Chan<V>, t: Tid) returns (s': Chan<V>)
    requires IsRun(Start(capacity, max, threads), acts, s) && AllIdle(s) && t in s.pcs && s.r.wakeup > 0
    ensures Stepped(Apply(s, Begin(t, TryPop(true))), t, 6, s') && AllIdle(s')
    ensures s.queue != [] && s'.queue == s.queue[1..] && s'.popped == s.popped + [s.queue[0]] && s'.pushed == s.pushed
    ensures s'.w.wakeup == Stored(s.w.wakeup, max) && s'.r.wakeup == s.r.wakeup - 1
  {
    IdleState(capacity, max, threads, acts, s);
    var s0 := Apply(s, Begin(t, TryPop(true)));
    var s1 := Apply(s0, Step(t));
    assert s1.pcs[t] == RTry(true) && s1.r == s.r && s1.m == s.m;
    var s2 := Apply(s1, Step(t));
    assert s2.pcs[t] == RLock(Call);
    var s3 := Apply(s2, Step(t));
    s' := TakesFront(s3, t);
    assert Stepped(s2, t, 4, s') && Stepped(s1, t, 5, s');
  }

  /** Inside the mutex: read the front, remove it, unlock. */
  lemma TakesFront<V>(s: Chan<V>, t: Tid) returns (s': Chan<V>)
    requires t in s.pcs && s.pcs[t].RFront? && s.queue != [] && s.m.queue == [] && s.m.wakeup < s.m.max
    ensures Stepped(s, t, 3, s') && s'.pcs == s.pcs[t := Idle] && s'.w == s.w && s'.r == s.r
    ensures s'.queue == s.queue[1..] && s'.popped == s.popped + [s.queue[0]] && s'.pushed == s.pushed
  {
    var s4 := Apply(s, Step(t));
    var s5 := Apply(s4, Step(t));
    assert s5.pcs[t] == RUnlock;
    s' := Apply(s5, Step(t));
    assert Stepped(s', t, 0, s') && Stepped(s5, t, 1, s') && Stepped(s4, t, 2, s');
  }
}
