/** Sequences without repetition. */
module Lists {

  predicate Apart<T(==)>(q: seq<T>, i: int, j: int) { 0 <= i < j < |q| ==> q[i] != q[j] }

  /** The pairs are wrapped in a predicate, so that a proof names the pair it is about. */
  ghost predicate NoDup<T>(q: seq<T>) { forall i, j :: Apart(q, i, j) }

  lemma QueueTail<T>(q: seq<T>)
    requires q != [] && NoDup(q)
    ensures NoDup(q[1..])
    ensures forall t :: t in q[1..] <==> t in q && t != q[0]
  {
    forall i, j ensures Apart(q[1..], i, j) { assert Apart(q, i + 1, j + 1); }
    forall t ensures t in q[1..] <==> t in q && t != q[0] {
      if t in q && t != q[0] {
        var i :| 0 <= i < |q| && q[i] == t;
        assert q[1..][i - 1] == t;
      }
      if t in q[1..] {
        var i :| 0 <= i < |q[1..]| && q[1..][i] == t;
        assert Apart(q, 0, i + 1);
      }
    }
  }

  lemma QueueAppend<T>(q: seq<T>, t: T)
    requires NoDup(q) && t !in q
    ensures NoDup(q + [t])
    ensures forall u :: u in q + [t] <==> u in q || u == t
  {
    forall i, j ensures Apart(q + [t], i, j) { assert Apart(q, i, j); }
  }

  lemma QueueConcat<T>(q: seq<T>, r: seq<T>)
    requires NoDup(q) && NoDup(r) && forall t :: t in r ==> t !in q
    ensures NoDup(q + r)
  {
    forall i, j ensures Apart(q + r, i, j) {
      assert Apart(q, i, j) && Apart(r, i - |q|, j - |q|);
      if 0 <= i < |q| <= j < |q + r| { assert r[j - |q|] in r && q[i] in q; }
    }
  }

  lemma QueueSplit<T>(q: seq<T>, c: nat)
    requires NoDup(q) && c <= |q|
    ensures NoDup(q[..c]) && NoDup(q[c..])
    ensures forall t :: t in q[..c] ==> t !in q[c..]
  {
    forall i, j ensures Apart(q[..c], i, j) { assert Apart(q, i, j); }
    forall i, j ensures Apart(q[c..], i, j) { assert Apart(q, i + c, j + c); }
    forall t | t in q[..c] ensures t !in q[c..] {
      var i :| 0 <= i < c && q[..c][i] == t;
      forall j | 0 <= j < |q[c..]| ensures q[c..][j] != t { assert Apart(q, i, j + c); }
    }
  }
}
