/**
  The loop of Processer::Run on the real lists: it takes the whole runnable list, walks it with an
  iterator, erases under that iterator the tasks that do not stay runnable, and splices what is left
  back onto the runnable list, on which other threads push meanwhile.
*/
module RunLoop {
  import opened Counting
  import opened TsQueues
  import opened BlockWakeup

  predicate Stays(stays: seq<bool>, i: nat) { i < |stays| ==> stays[i] }

  /** The tasks of the batch that come back runnable, in order. */
  function Staying(s: seq<Hook>, stays: seq<bool>): seq<Hook>
  {
    if s == [] then [] else
      Staying(s[..|s| - 1], stays) + if Stays(stays, |s| - 1) then [s[|s| - 1]] else []
  }

  lemma StayingMore(s: seq<Hook>, stays: seq<bool>, c: nat)
    requires c < |s|
    ensures Staying(s[..c + 1], stays) == Staying(s[..c], stays) + if Stays(stays, c) then [s[c]] else []
  {
    assert s[..c + 1][..c] == s[..c];
  }

  lemma {:induction false} StayingIsPart(s: seq<Hook>, stays: seq<bool>)
    ensures |Staying(s, stays)| <= |s| && forall h :: h in Staying(s, stays) ==> h in s
  {
    if s != [] { StayingIsPart(s[..|s| - 1], stays); }
  }

  function Flat(gaps: seq<seq<Hook>>): seq<Hook>
  {
    if gaps == [] then [] else Flat(gaps[..|gaps| - 1]) + gaps[|gaps| - 1]
  }

  /** The list after `c` turns. */
  function Worked(s: seq<Hook>, stays: seq<bool>, c: nat): seq<Hook>
    requires c <= |s|
  {
    Staying(s[..c], stays) + s[c..]
  }

  /** One turn on the batch: the task is passed over, or erased under the iterator. */
  method Step(list: SList, it: Hook, stay: bool, ghost s: seq<Hook>, ghost stays: seq<bool>, ghost c: nat) returns (next: Hook?)
    requires list.Valid() && c < |s| && list.elems == Worked(s, stays, c) && it == s[c] && stay == Stays(stays, c)
    modifies list, list.elems
    ensures list.Valid() && list.elems == Worked(s, stays, c + 1) && list.check == old(list.check)
    ensures next == First(s[c + 1..])
  {
    ghost var k := |Staying(s[..c], stays)|;
    StayingMore(s, stays, c);
    assert list.elems[k] == it && it in list.elems;
    if stay {
      assert k + 1 < |list.elems| ==> Adjacent(list.elems, k);
      assert Worked(s, stays, c) == Worked(s, stays, c + 1);
      next := it.next;
    } else {
      assert IndexOf(list.elems, it) == k;
      assert Without(list.elems, k) == Worked(s, stays, c + 1);
      next := list.Erase(it);
    }
  }

  lemma FlatMore(gaps: seq<seq<Hook>>, c: nat)
    requires c < |gaps|
    ensures Flat(gaps[..c + 1]) == Flat(gaps[..c]) + gaps[c]
  {
    assert gaps[..c + 1][..c] == gaps[..c];
  }

  /** What other threads have pushed in the first `c` turns. */
  function Arrived(gaps: seq<seq<Hook>>, c: nat): seq<Hook> { Flat(gaps[..Min(c, |gaps|)]) }

  lemma {:induction false} ArrivedIsProper(gaps: seq<seq<Hook>>, pool: set<Hook>, c: nat)
    requires Proper(gaps, pool)
    ensures Distinct(Arrived(gaps, c)) && (forall h :: h in Arrived(gaps, c) ==> h in pool) && Ahead(gaps, c, Arrived(gaps, c))
  {
    if c > 0 {
      ArrivedIsProper(gaps, pool, c - 1);
      if c <= |gaps| {
        FlatMore(gaps, c - 1);
        assert Fresh(gaps[c - 1], [], pool) && Disjoint(gaps[c - 1], Arrived(gaps, c - 1));
        ConcatDistinct(Arrived(gaps, c - 1), gaps[c - 1]);
        forall j | c <= j < |gaps| ensures Disjoint(gaps[j], Arrived(gaps, c)) {
          assert Disjoint(gaps[j], Arrived(gaps, c - 1)) && Disjoint(gaps[j], gaps[c - 1]);
        }
      }
    }
  }

  /** While a task has the processer, other threads push. */
  method Meanwhile(run: TSQueue, gaps: seq<seq<Hook>>, c: nat, ghost pool: set<Hook>)
    requires run.Valid() && run.elems == Arrived(gaps, c) && Proper(gaps, pool) && run.head !in pool
    modifies run, run.head, pool
    ensures run.Valid() && run.elems == Arrived(gaps, c + 1)
  {
    ArrivedIsProper(gaps, pool, c);
    if c < |gaps| {
      FlatMore(gaps, c);
      assert Fresh(gaps[c], [], pool) && Disjoint(gaps[c], run.elems);
      PushAll(run, gaps[c]);
    }
  }

  lemma WorkedIsPart(s: seq<Hook>, stays: seq<bool>, c: nat)
    requires c <= |s|
    ensures forall i :: 0 <= i < |Worked(s, stays, c)| ==> Worked(s, stays, c)[i] in s
  {
    StayingIsPart(s[..c], stays);
    forall i | 0 <= i < |Worked(s, stays, c)| ensures Worked(s, stays, c)[i] in s {
      assert i < |Staying(s[..c], stays)| ==> Staying(s[..c], stays)[i] in Staying(s[..c], stays);
    }
  }

  /** The runnable list after `c` turns. */
  ghost predicate RunAfter(run: TSQueue, gaps: seq<seq<Hook>>, c: nat)
    reads run, run.head, run.elems
  {
    run.Valid() && run.elems == Arrived(gaps, c)
  }

  /** The batch after `c` turns. */
  ghost predicate ListAfter(run: TSQueue, list: SList, s: seq<Hook>, stays: seq<bool>, c: nat)
    requires c <= |s|
    reads list, list.elems
  {
    list.Valid() && list.elems == Worked(s, stays, c) && (list.elems != [] ==> list.check == run)
  }

  ghost predicate Separate(run: TSQueue, s: seq<Hook>, pool: set<Hook>)
  {
    run.head !in pool && run.head !in s && forall i :: 0 <= i < |s| ==> s[i] !in pool
  }

  /** While a task has the processer, other threads push onto the runnable list; the batch is not touched. */
  method Running(run: TSQueue, list: SList, gaps: seq<seq<Hook>>, c: nat, ghost s: seq<Hook>, ghost stays: seq<bool>, ghost pool: set<Hook>)
    requires c < |s| && RunAfter(run, gaps, c) && ListAfter(run, list, s, stays, c) && Proper(gaps, pool) && Separate(run, s, pool)
    modifies run, run.head, pool
    ensures RunAfter(run, gaps, c + 1) && ListAfter(run, list, s, stays, c)
  {
    WorkedIsPart(s, stays, c);
    assert forall i :: 0 <= i < |list.elems| ==> list.elems[i] !in pool && list.elems[i] != run.head;
    Meanwhile(run, gaps, c, pool);
  }

  /** Then the iterator moves on in the batch; the runnable list is not touched. */
  method Leaving(run: TSQueue, list: SList, it: Hook, stay: bool, gaps: seq<seq<Hook>>, c: nat,
                 ghost s: seq<Hook>, ghost stays: seq<bool>, ghost pool: set<Hook>) returns (next: Hook?)
    requires c < |s| && RunAfter(run, gaps, c + 1) && ListAfter(run, list, s, stays, c) && Proper(gaps, pool) && Separate(run, s, pool)
    requires it == s[c] && stay == Stays(stays, c)
    modifies list, s
    ensures RunAfter(run, gaps, c + 1) && ListAfter(run, list, s, stays, c + 1) && next == First(s[c + 1..])
  {
    WorkedIsPart(s, stays, c);
    ArrivedIsProper(gaps, pool, c + 1);
    assert forall i :: 0 <= i < |run.elems| ==> run.elems[i] in run.elems && run.elems[i] in pool;
    next := Step(list, it, stay, s, stays, c);
  }

  lemma NothingYet(s: seq<Hook>, stays: seq<bool>, gaps: seq<seq<Hook>>)
    ensures Worked(s, stays, 0) == s && Arrived(gaps, 0) == []
  {
    assert gaps[..0] == [] && s[..0] == [];
  }

  /** The loop, up to the end of the batch or to the turn that throws. */
  method Work(run: TSQueue, list: SList, stays: seq<bool>, throws: nat, gaps: seq<seq<Hook>>,
              ghost s: seq<Hook>, ghost pool: set<Hook>) returns (c: nat)
    requires RunAfter(run, gaps, 0) && ListAfter(run, list, s, stays, 0) && Proper(gaps, pool) && Separate(run, s, pool)
    modifies run, run.head, pool, list, s
    ensures c == Min(|s|, throws + 1) && RunAfter(run, gaps, c) && ListAfter(run, list, s, stays, c)
  {
    c := 0;
    var it := list.head;
    NothingYet(s, stays, gaps);
    while it != null && c <= throws
      invariant c <= |s| && c <= throws + 1 && it == First(s[c..])
      invariant RunAfter(run, gaps, c) && ListAfter(run, list, s, stays, c)
      decreases |s| - c
    {
      Running(run, list, gaps, c, s, stays, pool);
      it := Leaving(run, list, it, c < |stays| ==> stays[c], gaps, c, s, stays, pool);
      c := c + 1;
    }
  }

  method TakeBatch(run: TSQueue, ghost stays: seq<bool>, ghost gaps: seq<seq<Hook>>) returns (list: SList)
    requires run.Valid()
    modifies run, run.head, run.elems
    ensures fresh(list) && RunAfter(run, gaps, 0) && ListAfter(run, list, old(run.elems), stays, 0)
  {
    NothingYet(run.elems, stays, gaps);
    list := run.PopAll();
  }

  /**
    Processer::Run: the tasks that stay runnable go back behind those that arrived meanwhile, in
    their order, and none is skipped or visited twice although the iterator's own element is erased.
    If the task of turn `throws` ends with an exception, the rest of the batch goes back untouched.
  */
  method Run(run: TSQueue, stays: seq<bool>, throws: nat, gaps: seq<seq<Hook>>, ghost pool: set<Hook>) returns (c: nat)
    requires run.Valid() && Proper(gaps, pool) && Separate(run, run.elems, pool)
    modifies run, run.head, run.elems, pool
    ensures c == Min(|old(run.elems)|, throws + 1)
    ensures run.Valid() && run.elems == Arrived(gaps, c) + Worked(old(run.elems), stays, c)
  {
    ghost var s := run.elems;
    var list := TakeBatch(run, stays, gaps);
    c := Work(run, list, stays, throws, gaps, s, pool);
    PutBack(run, list, gaps, c, s, stays, pool);
  }

  method PutBack(run: TSQueue, list: SList, gaps: seq<seq<Hook>>, c: nat, ghost s: seq<Hook>, ghost stays: seq<bool>, ghost pool: set<Hook>)
    requires c <= |s| && RunAfter(run, gaps, c) && ListAfter(run, list, s, stays, c) && Proper(gaps, pool) && Separate(run, s, pool)
    modifies run, run.head, pool, s
    ensures run.Valid() && run.elems == Arrived(gaps, c) + Worked(s, stays, c)
  {
    WorkedIsPart(s, stays, c);
    ArrivedIsProper(gaps, pool, c);
    forall h | h in list.elems ensures h !in run.elems {
      var i :| 0 <= i < |list.elems| && list.elems[i] == h;
      assert list.elems[i] in s;
    }
    run.PushList(list);
  }
}
