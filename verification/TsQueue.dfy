/**
  The intrusive doubly linked queue (TSQueue) and the detached list (SList) that every task
  container of the runtime is made of.  `elems` is the abstract sequence; Valid() says that
  prev and next are inverse links along it, that `tail` is right and that `count` is its length.
  Each method body is one critical section under the queue's spin lock.
*/
module TsQueues {
  import opened Counting

  class Hook {
    var prev: Hook?
    var next: Hook?
    var check: object?

    constructor ()
      ensures prev == null && next == null && check == null
    {
      prev, next, check := null, null, null;
    }
  }

  ghost predicate Distinct(s: seq<Hook>)
  {
    forall i, j :: 0 <= i < j < |s| ==> s[i] != s[j]
  }

  ghost predicate Adjacent(s: seq<Hook>, i: int)
    requires 0 <= i < |s| - 1
    reads s
  {
    s[i].next == s[i + 1] && s[i + 1].prev == s[i]
  }

  /** The hooks of `s` are threaded through prev and next in that order, coming from `before`. */
  ghost predicate Linked(before: Hook?, s: seq<Hook>, owner: object?)
    reads s
  {
    && Distinct(s)
    && (forall i :: 0 <= i < |s| ==> s[i].check == owner)
    && (forall i :: 0 <= i < |s| - 1 ==> Adjacent(s, i))
    && (s != [] ==> s[0].prev == before && s[|s| - 1].next == null)
  }

  function Last(s: seq<Hook>, none: Hook?): Hook?
  {
    if s == [] then none else s[|s| - 1]
  }

  function First(s: seq<Hook>): Hook?
  {
    if s == [] then null else s[0]
  }

  ghost function IndexOf(s: seq<Hook>, h: Hook): (i: nat)
    requires h in s
    ensures i < |s| && s[i] == h
  {
    var i :| 0 <= i < |s| && s[i] == h;
    i
  }

  function Without(s: seq<Hook>, i: nat): seq<Hook>
    requires i < |s|
  {
    s[..i] + s[i + 1..]
  }

  /** The node before position `i` of the queue. */
  function NodeAt(head: Hook, s: seq<Hook>, i: nat): Hook
    requires i <= |s|
  {
    if i == 0 then head else s[i - 1]
  }

  /** What following `next` meets after a push. */
  ghost function Pushed(s: seq<Hook>, h: Hook): seq<Hook>
  {
    if h in s then s[..IndexOf(s, h)] + [h] else s + [h]
  }

  /** `p` and `n` stand in the queue on both sides of its element `c`. */
  predicate Straddles(head: Hook, s: seq<Hook>, p: Hook?, n: Hook?, c: nat)
  {
    c + 1 < |s| && p == NodeAt(head, s, c) && n == s[c + 1]
  }

  lemma ConcatDistinct(s: seq<Hook>, l: seq<Hook>)
    requires Distinct(s) && Distinct(l) && forall h :: h in l ==> h !in s
    ensures Distinct(s + l)
  {
    forall i, j | 0 <= i < j < |s + l| ensures (s + l)[i] != (s + l)[j] {
      if i < |s| <= j { assert l[j - |s|] in l; }
    }
  }

  lemma WithoutDistinct(s: seq<Hook>, i: nat)
    requires Distinct(s) && i < |s|
    ensures Distinct(Without(s, i))
    ensures forall h :: h in Without(s, i) ==> h in s && h != s[i]
  {
  }

  /** Takes a hook out of whatever chain it stands in. */
  method Unlink(hook: Hook)
    modifies hook, if hook.prev == null then {} else {hook.prev}, if hook.next == null then {} else {hook.next}
    ensures hook.prev == null && hook.next == null && hook.check == null
    ensures var p, n := old(hook.prev), old(hook.next);
            p != null && p != hook ==>
              && p.next == n && p.check == old(if hook.prev == null then null else hook.prev.check)
              && (p != n ==> p.prev == old(if hook.prev == null then null else hook.prev.prev))
    ensures var p, n := old(hook.prev), old(hook.next);
            n != null && n != hook ==>
              && n.prev == p && n.check == old(if hook.next == null then null else hook.next.check)
              && (n != p ==> n.next == old(if hook.next == null then null else hook.next.next))
  {
    if hook.prev != null { hook.prev.next := hook.next; }
    if hook.next != null { hook.next.prev := hook.prev; }
    hook.prev, hook.next := null, null;
    hook.check := null;
  }

  class SList {
    var head: Hook?
    var tail: Hook?
    var check: object?
    var count: nat
    ghost var elems: seq<Hook>

    ghost predicate Valid()
      reads this, elems
    {
      && Linked(null, elems, check)
      && head == First(elems) && tail == Last(elems, null) && count == |elems|
    }

    constructor Empty()
      ensures Valid() && elems == [] && check == null
    {
      head, tail, check, count, elems := null, null, null, 0, [];
    }

    constructor (h: Hook?, t: Hook?, n: nat, c: object?, ghost s: seq<Hook>)
      ensures head == h && tail == t && count == n && check == c && elems == s
    {
      head, tail, check, count, elems := h, t, c, n, s;
    }

    /** Removes the element the iterator stands on; the iterator moves to the one after it. */
    method Erase(hook: Hook) returns (it: Hook?)
      requires Valid() && hook in elems
      modifies this, elems
      ensures Valid() && elems == Without(old(elems), IndexOf(old(elems), hook)) && check == old(check)
      ensures var i := IndexOf(old(elems), hook); it == if i < |elems| then elems[i] else null
      ensures hook.prev == null && hook.next == null && hook.check == null
    {
      ghost var s, i := elems, IndexOf(elems, hook);
      assert i > 0 ==> Adjacent(s, i - 1);
      assert i + 1 < |s| ==> Adjacent(s, i);
      it := hook.next;
      if hook.prev != null { hook.prev.next := hook.next; } else { head := head.next; }
      if hook.next != null { hook.next.prev := hook.prev; } else { tail := tail.prev; }
      hook.prev, hook.next := null, null;
      hook.check := null;
      count := count - 1;
      elems := Without(s, i);
      WithoutDistinct(s, i);
      forall k | 0 <= k < |elems| - 1 ensures Adjacent(elems, k) {
        assert k < i - 1 ==> old(Adjacent(s, k));
        assert k >= i ==> old(Adjacent(s, k + 1));
      }
    }
  }

  class TSQueue {
    const head: Hook
    var tail: Hook
    var count: int
    ghost var elems: seq<Hook>

    /** The heap is a well-formed queue of exactly the elements `e`. */
    ghost predicate ValidAs(e: seq<Hook>)
      reads `tail, `count, head, e
    {
      && head !in e && Linked(head, e, this)
      && head.prev == null && head.check != this
      && head.next == First(e) && tail == Last(e, head) && count == |e|
    }

    ghost predicate Valid()
      reads this, head, elems
    {
      ValidAs(elems)
    }

    ghost predicate FollowedAt(f: seq<Hook>, i: nat)
      requires i <= |f|
      reads head, f
    {
      NodeAt(head, f, i).next == if i < |f| then f[i] else null
    }

    /** Following `next` from the sentinel meets exactly the elements `f` and ends at the tail. */
    ghost predicate Forward(f: seq<Hook>)
      reads `tail, head, f
    {
      Distinct(f) && head !in f && (forall i: nat :: i <= |f| ==> FollowedAt(f, i)) && tail == Last(f, head)
    }

    lemma ValidIsForward(e: seq<Hook>)
      requires ValidAs(e)
      ensures Forward(e)
    {
      forall i: nat | i <= |e| ensures FollowedAt(e, i) { assert 0 < i < |e| ==> Adjacent(e, i - 1); }
    }

    lemma {:induction false} ForwardPrefix(d: seq<Hook>, e: seq<Hook>, k: nat)
      requires Forward(d) && Forward(e) && k <= |d|
      ensures k <= |e| && d[..k] == e[..k]
    {
      if k > 0 {
        ForwardPrefix(d, e, k - 1);
        assert FollowedAt(d, k - 1) && FollowedAt(e, k - 1);
        assert k >= 2 ==> d[k - 2] == d[..k - 1][k - 2] == e[k - 2];
      }
    }

    /** The forward chain is unique, and so is the sequence a queue is well-formed for. */
    lemma ForwardOnce(d: seq<Hook>, e: seq<Hook>)
      requires (ValidAs(d) || Forward(d)) && (ValidAs(e) || Forward(e))
      ensures d == e
    {
      if ValidAs(d) { ValidIsForward(d); }
      if ValidAs(e) { ValidIsForward(e); }
      ForwardPrefix(d, e, |d|);
      ForwardPrefix(e, d, |e|);
    }

    constructor ()
      ensures Valid() && elems == [] && fresh(head)
    {
      var h := new Hook();
      head, tail, count, elems := h, h, 0, [];
    }

    method Empty() returns (b: bool)
      requires Valid()
      ensures b <==> elems == []
    {
      b := head == tail;
    }

    /**
      push(element).  An element that is not queued is appended.  Pushing one that is queued cuts
      off everything behind it, and leaves a queue that no later push can mend.
    */
    method Push(hook: Hook)
      requires (Valid() || Forward(elems)) && hook != head
      modifies this, head, elems, hook
      ensures Forward(elems) && elems == Pushed(old(elems), hook) && count == old(count) + 1
      ensures hook.prev == old(tail)
      ensures old(Valid()) && hook !in old(elems) ==> Valid()
      ensures old(|elems| <= count) && hook in old(elems) ==> Torn()
    {
      if Valid() { ValidIsForward(elems); }
      ghost var s, i := elems, if hook in elems then IndexOf(elems, hook) else |elems|;
      assert FollowedAt(s, |s|) && (s != [] ==> s[|s| - 1] in s);
      tail.next := hook;
      hook.prev := tail;
      hook.next := null;
      hook.check := this;
      tail := hook;
      count := count + 1;
      elems := s[..i] + [hook];
      forall k: nat | k <= |elems| ensures FollowedAt(elems, k) { assert k < |s| ==> old(FollowedAt(s, k)); }
      if old(Valid()) && hook !in s {
        forall k | 0 <= k < |elems| - 1 ensures Adjacent(elems, k) { assert k < |s| - 1 ==> old(Adjacent(s, k)); }
      }
    }

    /** The count is more than following `next` meets. */
    ghost predicate Torn()
      reads this, head, elems
    {
      Forward(elems) && |elems| < count
    }

    lemma TornIsNoQueue()
      requires Torn()
      ensures forall e :: !ValidAs(e)
    {
      forall e ensures !ValidAs(e) {
        if ValidAs(e) { ForwardOnce(e, elems); }
      }
    }

    method Pop() returns (r: Hook?)
      requires Valid()
      modifies this, head, elems
      ensures Valid()
      ensures old(elems) == [] ==> r == null && elems == []
      ensures old(elems) != [] ==> r == old(elems)[0] && elems == old(elems)[1..]
      ensures r != null ==> r.prev == null && r.next == null && r.check == null
    {
      if head == tail { return null; }
      var ptr := head.next;
      ghost var s := elems;
      assert s[0] in s && s[|s| - 1] in s;
      assert |s| > 1 ==> Adjacent(s, 0) && s[1] in s;
      if ptr == tail { tail := head; }
      head.next := ptr.next;
      if ptr.next != null { ptr.next.prev := head; }
      ptr.prev, ptr.next := null, null;
      ptr.check := null;
      count := count - 1;
      elems := s[1..];
      forall k | 0 <= k < |elems| - 1 ensures Adjacent(elems, k) {
        assert old(Adjacent(s, k + 1));
      }
      return ptr;
    }

    /** Splices a list that was taken from this queue back onto its end. */
    method PushList(list: SList)
      requires Valid() && list.Valid() && (list.elems != [] ==> list.check == this)
      requires head !in list.elems && forall h :: h in list.elems ==> h !in elems
      modifies this, head, elems, list.elems
      ensures Valid() && elems == old(elems) + list.elems
    {
      if list.head == null { return; }
      ghost var s, l := elems, list.elems;
      assert s != [] ==> s[|s| - 1] in s && s[0] in s;
      assert l[0] in l && l[|l| - 1] in l;
      count := count + list.count;
      tail.next := list.head;
      list.head.prev := tail;
      list.tail.next := null;
      tail := list.tail;
      elems := s + l;
      ConcatDistinct(s, l);
      forall k | 0 <= k < |elems| - 1 ensures Adjacent(elems, k) {
        assert k < |s| - 1 ==> old(Adjacent(s, k));
        assert k >= |s| ==> old(Adjacent(l, k - |s|));
      }
    }

    /** The loop of pop(n): the last element to take and how many that makes. */
    method Walk(n: nat) returns (last: Hook, c: nat)
      requires Valid() && elems != []
      ensures c == Min(if n == 0 then 1 else n, |elems|) && last == elems[c - 1]
    {
      last, c := head.next, 1;
      while c < n && last.next != null
        invariant 1 <= c <= |elems| && (n == 0 ==> c == 1) && (n > 0 ==> c <= n)
        invariant last == elems[c - 1]
        decreases |elems| - c
      {
        assert c < |elems| ==> Adjacent(elems, c - 1);
        last := last.next;
        c := c + 1;
      }
      assert c < |elems| ==> Adjacent(elems, c - 1);
    }

    /** pop(n): the first min(n, length) elements; as in the source, pop(0) takes one. */
    method PopN(n: nat) returns (list: SList)
      requires Valid()
      modifies this, head, elems
      ensures Valid() && list.Valid() && fresh(list)
      ensures var c := Min(if n == 0 then 1 else n, |old(elems)|);
              list.elems == old(elems)[..c] && elems == old(elems)[c..]
      ensures list.elems != [] ==> list.check == this
    {
      if head == tail {
        list := new SList.Empty();
        return;
      }
      var first := head.next;
      var last, c := Walk(n);
      ghost var s := elems;
      CutAfter(first, last, c);
      list := new SList(first, last, c, this, s[..c]);
    }

    /** The pointer surgery of pop(n). */
    method CutAfter(first: Hook, last: Hook, c: nat)
      requires Valid() && 0 < c <= |elems| && first == elems[0] && last == elems[c - 1]
      modifies this, head, elems
      ensures Valid() && elems == old(elems)[c..]
      ensures Linked(null, old(elems)[..c], this)
    {
      ghost var s := elems;
      assert s[0] in s && s[c - 1] in s && s[|s| - 1] in s;
      assert c < |s| ==> Adjacent(s, c - 1) && s[c] in s;
      if last == tail { tail := head; }
      head.next := last.next;
      if last.next != null { last.next.prev := head; }
      first.prev, last.next := null, null;
      count := count - c;
      elems := s[c..];
      assert c < |s| ==> elems[0] == s[c] && elems[|elems| - 1] == s[|s| - 1];
      forall k | 0 <= k < |elems| - 1 ensures Adjacent(elems, k) {
        assert old(Adjacent(s, k + c));
      }
      forall k | 0 <= k < c - 1 ensures Adjacent(s[..c], k) {
        assert old(Adjacent(s, k));
      }
    }

    method PopAll() returns (list: SList)
      requires Valid()
      modifies this, head, elems
      ensures Valid() && list.Valid() && fresh(list)
      ensures list.elems == old(elems) && elems == []
      ensures list.elems != [] ==> list.check == this
    {
      if head == tail {
        list := new SList.Empty();
        return;
      }
      var first := head.next;
      var last := tail;
      ghost var s := elems;
      assert s[0] in s && s[|s| - 1] in s;
      tail := head;
      head.next := null;
      first.prev, last.next := null, null;
      var c := count;
      count := 0;
      list := new SList(first, last, c, this, s);
      elems := [];
      forall k | 0 <= k < |s| - 1 ensures Adjacent(s, k) {
        assert old(Adjacent(s, k));
      }
    }

    // ---- erasing

    // The links of `s` at one place, but for the nodes `hook` and `p` (to the right) or `n` (to the left).
    ghost predicate NextAt(s: seq<Hook>, hook: Hook, p: Hook?, i: nat)
      requires i <= |s|
      reads head, s
    {
      var x := NodeAt(head, s, i);
      x != hook && x != p ==> x.next == if i < |s| then s[i] else null
    }

    ghost predicate PrevAt(s: seq<Hook>, hook: Hook, n: Hook?, i: nat)
      requires i < |s|
      reads head, s
    {
      s[i] != hook ==> s[i].check == this && (s[i] != n ==> s[i].prev == NodeAt(head, s, i))
    }

    /** What Erase leaves of a queue of `s`: `p` and `n` are joined, past `hook`, and the count is one less. */
    ghost predicate Bypassed(s: seq<Hook>, hook: Hook, p: Hook?, n: Hook?)
      reads `tail, `count, head, s
    {
      && Distinct(s) && head !in s && head != hook && head.check != this && (n != head ==> head.prev == null)
      && (forall i: nat :: i <= |s| ==> NextAt(s, hook, p, i))
      && (forall i: nat :: i < |s| ==> PrevAt(s, hook, n, i))
      && (p == head ==> head.next == n)
      && (p in s && p != hook ==> (if p == null then null else p.next) == n)
      && (n in s && n != hook ==> (if n == null then null else n.prev) == p)
      && tail == (if n == null && p != null && hook == Last(s, head) then p else Last(s, head))
      && count == |s| - 1
    }

    ghost predicate Spares(s: seq<Hook>, hook: Hook) { hook !in s && hook != head }

    /** Up to `p` the elements are those of `s`. */
    lemma {:induction false} BypassedPrefix(e: seq<Hook>, s: seq<Hook>, hook: Hook, p: Hook?, n: Hook?, k: nat)
      requires Bypassed(s, hook, p, n) && Spares(s, hook) && ValidAs(e) && k <= |s|
      requires forall i: nat :: i < k ==> NodeAt(head, s, i) != p
      ensures k <= |e| && e[..k] == s[..k]
    {
      if k > 0 {
        BypassedPrefix(e, s, hook, p, n, k - 1);
        assert NextAt(s, hook, p, k - 1) && NodeAt(head, s, k - 1) != p;
        assert k >= 2 ==> e[k - 2] == e[..k - 1][k - 2] == s[k - 2];
        assert k >= 2 && k - 1 < |e| ==> Adjacent(e, k - 2);
      }
    }

    /** Behind `n` they are the last ones of `s`. */
    lemma {:induction false} BypassedSuffix(e: seq<Hook>, s: seq<Hook>, hook: Hook, p: Hook?, n: Hook?, a: nat, j: nat)
      requires Bypassed(s, hook, p, n) && Spares(s, hook) && ValidAs(e) && a <= j < |e| && e[a] == n
      ensures e[j] == s[j + 1]
      decreases |e| - j
    {
      if j + 1 < |e| {
        BypassedSuffix(e, s, hook, p, n, a, j + 1);
        assert Adjacent(e, j) && PrevAt(s, hook, n, j + 2);
      }
    }

    lemma BypassedIsStraddled(e: seq<Hook>, s: seq<Hook>, hook: Hook, p: Hook?, n: Hook?) returns (c: nat)
      requires Bypassed(s, hook, p, n) && Spares(s, hook) && ValidAs(e)
      ensures Straddles(head, s, p, n, c) && e == Without(s, c)
    {
      if forall i: nat :: i < |s| ==> NodeAt(head, s, i) != p {
        BypassedPrefix(e, s, hook, p, n, |s|);
        assert false;
      }
      var a: nat :| a < |s| && NodeAt(head, s, a) == p;
      FirstAt(s, a);
      BypassedPrefix(e, s, hook, p, n, a);
      assert a >= 1 ==> e[a - 1] == e[..a][a - 1] == s[a - 1];
      assert a >= 1 && a < |e| ==> Adjacent(e, a - 1);
      if a == |e| { assert false; }
      forall j | a <= j < |e| ensures e[j] == s[j + 1] { BypassedSuffix(e, s, hook, p, n, a, j); }
      forall j | 0 <= j < a ensures e[j] == s[j] { assert e[j] == e[..a][j]; }
      c := a;
    }

    lemma FirstAt(s: seq<Hook>, a: nat)
      requires Distinct(s) && head !in s && a <= |s|
      ensures forall i: nat :: i < a ==> NodeAt(head, s, i) != NodeAt(head, s, a)
    {
    }

    ghost predicate LinkAt(e: seq<Hook>, j: nat)
      requires j < |e|
      reads head, e
    {
      && e[j].check == this && e[j].prev == NodeAt(head, e, j)
      && e[j].next == if j + 1 < |e| then e[j + 1] else null
    }

    lemma LinkedIsValid(e: seq<Hook>)
      requires Distinct(e) && head !in e && forall j: nat :: j < |e| ==> LinkAt(e, j)
      requires head.prev == null && head.check != this && head.next == First(e) && tail == Last(e, head) && count == |e|
      ensures ValidAs(e)
    {
      forall k | 0 <= k < |e| - 1 ensures Adjacent(e, k) { assert LinkAt(e, k) && LinkAt(e, k + 1); }
      forall k | 0 <= k < |e| ensures e[k].check == this { assert LinkAt(e, k); }
      assert e != [] ==> LinkAt(e, 0) && LinkAt(e, |e| - 1);
    }

    /** If `p` and `n` are the neighbours of the element `c`, it is that element that is gone. */
    lemma CutOut(s: seq<Hook>, hook: Hook, p: Hook?, n: Hook?, c: nat)
      requires Bypassed(s, hook, p, n) && c < |s| && (Spares(s, hook) || s[c] == hook)
      requires p == NodeAt(head, s, c) && n == if c + 1 < |s| then s[c + 1] else null
      requires n == null ==> s[c] == hook
      ensures ValidAs(Without(s, c))
    {
      var e := Without(s, c);
      WithoutDistinct(s, c);
      FirstAt(s, c);
      forall j: nat | j < |e| ensures LinkAt(e, j) {
        var k := if j < c then j else j + 1;
        assert e[j] == s[k] && NextAt(s, hook, p, k + 1) && PrevAt(s, hook, n, k);
      }
      assert NextAt(s, hook, p, 0);
      LinkedIsValid(e);
    }

    ghost predicate LosesOne(s: seq<Hook>, p: Hook?, n: Hook?, e: seq<Hook>)
    {
      exists c: nat :: Straddles(head, s, p, n, c) && e == Without(s, c)
    }

    /** After the erase of a left-over. */
    lemma StaleErased(s: seq<Hook>, hook: Hook, p: Hook?, n: Hook?)
      requires Bypassed(s, hook, p, n) && Spares(s, hook)
      ensures forall e :: ValidAs(e) <==> LosesOne(s, p, n, e)
    {
      forall e ensures ValidAs(e) <==> LosesOne(s, p, n, e) {
        if ValidAs(e) { var c := BypassedIsStraddled(e, s, hook, p, n); }
        if c: nat :| Straddles(head, s, p, n, c) && e == Without(s, c) { CutOut(s, hook, p, n, c); }
      }
    }

    lemma Neighbours(hook: Hook)
      requires Valid() && hook in elems
      ensures var i := IndexOf(elems, hook);
              hook.prev == NodeAt(head, elems, i) && hook.next == if i + 1 < |elems| then elems[i + 1] else null
    {
      var i := IndexOf(elems, hook);
      assert i > 0 ==> Adjacent(elems, i - 1);
      assert i + 1 < |elems| ==> Adjacent(elems, i);
    }

    /** After the erase of an element. */
    lemma MemberErased(s: seq<Hook>, hook: Hook, p: Hook?, n: Hook?)
      requires Bypassed(s, hook, p, n) && hook in s
      requires var i := IndexOf(s, hook); p == NodeAt(head, s, i) && n == if i + 1 < |s| then s[i + 1] else null
      ensures forall e :: ValidAs(e) <==> e == Without(s, IndexOf(s, hook))
    {
      var i := IndexOf(s, hook);
      CutOut(s, hook, p, n, i);
      forall e ensures ValidAs(e) <==> e == Without(s, i) { if ValidAs(e) { ForwardOnce(e, Without(s, i)); } }
    }

    /** The pointer surgery of Erase. */
    method Cut(hook: Hook)
      requires Valid() && hook.check == this
      modifies `tail, `count, head, elems, hook, if hook.prev == null then {} else {hook.prev},
               if hook.next == null then {} else {hook.next}
      ensures hook.prev == null && hook.next == null && hook.check == null && count == old(count) - 1
      ensures Bypassed(elems, hook, old(hook.prev), old(hook.next))
    {
      ghost var s := elems;
      var before, last := hook.prev, hook.next == null && hook == tail;
      assert |s| > 1 ==> Adjacent(s, |s| - 2);
      Unlink(hook);
      if last { tail := before; }
      count := count - 1;
      forall j: nat | j <= |s| ensures NextAt(s, hook, old(hook.prev), j) { assert 0 < j < |s| ==> old(Adjacent(s, j - 1)); }
      forall j: nat | j < |s| ensures PrevAt(s, hook, old(hook.next), j) { assert 0 < j ==> old(Adjacent(s, j - 1)); }
    }

    /**
      Removes `hook` from wherever it stands.  The membership test is the `check` pointer, which
      Pop resets but PopN and PopAll do not.  Erasing such a left-over leaves a well-formed queue
      exactly when its stale neighbours stand in the queue with one element between them, and then
      that element is lost in its place; otherwise the heap is a queue of no sequence at all.
    */
    method Erase(hook: Hook) returns (ok: bool)
      requires Valid()
      modifies this, head, elems, hook, if hook.prev == null then {} else {hook.prev},
               if hook.next == null then {} else {hook.next}
      ensures ok <==> old(hook.check) == this
      ensures !ok ==> unchanged(this) && unchanged(hook)
      ensures ok ==> hook.prev == null && hook.next == null && hook.check == null && count == old(count) - 1
      ensures Bypassed(old(elems), hook, old(hook.prev), old(hook.next)) <==> ok
      ensures Valid() <==> !ok || hook in old(elems) || exists c: nat :: Straddles(head, old(elems), old(hook.prev), old(hook.next), c)
      ensures ok && hook in old(elems) ==>
                && elems == Without(old(elems), IndexOf(old(elems), hook))
                && forall e :: ValidAs(e) <==> e == elems
      ensures ok && hook !in old(elems) ==>
                forall e :: ValidAs(e) <==> LosesOne(old(elems), old(hook.prev), old(hook.next), e)
    {
      if hook.check != this { return false; }
      ghost var s, p, n := elems, hook.prev, hook.next;
      if hook in s { Neighbours(hook); }
      Cut(hook);
      if hook in s {
        MemberErased(s, hook, p, n);
        elems := Without(s, IndexOf(s, hook));
      } else {
        StaleErased(s, hook, p, n);
        if c: nat :| Straddles(head, s, p, n, c) { elems := Without(s, c); }
      }
      return true;
    }
  }

  /**
    A stale erase that loses an element: a, h and b are queued and taken out together, a, c and b
    are queued again, and h, whose pointers still name a and b, is erased.  The queue is well-formed
    without c, although c was never erased and still carries the queue's mark.
  */
  method StaleEraseLosesAnother() returns (q: TSQueue, a: Hook, b: Hook, c: Hook, h: Hook)
    ensures q.Valid() && q.elems == [a, b] && q.count == 2
    ensures c !in q.elems && c.check == q && c.prev == a && c.next == b
  {
    q := new TSQueue();
    a := new Hook();
    b := new Hook();
    c := new Hook();
    h := new Hook();
    PushThree(q, a, h, b);
    PopThree(q, a, h, b);
    EraseStale(q, a, b, c, h);
  }

  method PopThree(q: TSQueue, x: Hook, y: Hook, z: Hook)
    requires q.Valid() && q.elems == [x, y, z]
    modifies q, q.head, x, y, z
    ensures q.Valid() && q.elems == []
    ensures y.check == q && y.prev == x && y.next == z
  {
    var list := q.PopAll();
    assert Adjacent(list.elems, 0) && Adjacent(list.elems, 1);
  }

  method EraseStale(q: TSQueue, a: Hook, b: Hook, c: Hook, h: Hook)
    requires q.Valid() && q.elems == [] && h.check == q && h.prev == a && h.next == b
    requires a != b && b != c && c != a && h !in [a, b, c] && q.head !in [a, b, c]
    modifies q, q.head, a, b, c, h
    ensures q.Valid() && q.elems == [a, b] && q.count == 2
    ensures c.check == q && c.prev == a && c.next == b
  {
    PushThree(q, a, c, b);
    ghost var s := [a, c, b];
    assert Straddles(q.head, s, a, b, 1) && Without(s, 1) == [a, b];
    var ok := q.Erase(h);
    assert q.LosesOne(s, a, b, [a, b]);
    q.ForwardOnce(q.elems, [a, b]);
    assert q.PrevAt(s, h, b, 1) && q.NextAt(s, h, a, 2);
  }

  method PushThree(q: TSQueue, x: Hook, y: Hook, z: Hook)
    requires q.Valid() && q.elems == [] && x != y && y != z && z != x && q.head !in [x, y, z]
    modifies q, q.head, x, y, z
    ensures q.Valid() && q.elems == [x, y, z]
    ensures y.check == q && y.prev == x && y.next == z
  {
    q.Push(x);
    q.Push(y);
    q.Push(z);
    assert q.elems == [x, y, z] && Adjacent(q.elems, 0) && Adjacent(q.elems, 1);
  }

  /** A stale erase on an empty queue: the count is below zero, and the heap is a queue of no sequence. */
  method StaleEraseBreaks() returns (q: TSQueue, h: Hook)
    ensures q.count == -1 && forall e :: !q.ValidAs(e)
  {
    q := new TSQueue();
    h := new Hook();
    q.Push(h);
    var list := q.PopAll();
    var ok := q.Erase(h);
    forall e ensures !q.ValidAs(e) {
      assert !q.LosesOne([], null, null, e);
    }
  }
}
