/** Counting the threads of a step system that are at certain program points. */
module Counting {

  ghost function Where<K, V>(m: map<K, V>, p: V -> bool): set<K>
  {
    set k | k in m && p(m[k])
  }

  ghost function Count<K, V>(m: map<K, V>, p: V -> bool): nat
  {
    |Where(m, p)|
  }

  function One(b: bool): nat
  {
    if b then 1 else 0
  }

  function Min(a: nat, b: nat): nat
  {
    if a < b then a else b
  }

  /** Moving one thread changes a count by what that thread contributed before and after. */
  lemma CountUpdate<K, V>(m: map<K, V>, k: K, v: V, p: V -> bool)
    requires k in m
    ensures Count(m[k := v], p) == Count(m, p) - One(p(m[k])) + One(p(v))
  {
    var a, b := Where(m, p), Where(m[k := v], p);
    assert b == if p(v) then a + {k} else a - {k};
  }

  /** A thread at a counted point makes the count positive. */
  lemma CountPositive<K, V>(m: map<K, V>, k: K, p: V -> bool)
    requires k in m && p(m[k])
    ensures Count(m, p) > 0
  {
    assert k in Where(m, p);
  }

  /** A count of one identifies the thread. */
  lemma CountUnique<K, V>(m: map<K, V>, j: K, k: K, p: V -> bool)
    requires j in m && k in m && p(m[j]) && p(m[k])
    requires Count(m, p) <= 1
    ensures j == k
  {
    if j != k {
      assert {j, k} <= Where(m, p);
      SubsetSize({j, k}, Where(m, p));
    }
  }

  lemma SubsetSize<T>(a: set<T>, b: set<T>)
    requires a <= b
    ensures |a| <= |b|
  {
    assert b == a + (b - a);
  }

  lemma CountZero<K, V>(m: map<K, V>, p: V -> bool)
    requires Count(m, p) == 0
    ensures forall k :: k in m ==> !p(m[k])
  {
    forall k | k in m ensures !p(m[k]) {
      if p(m[k]) { CountPositive(m, k, p); }
    }
  }

  lemma CountNone<K, V>(m: map<K, V>, p: V -> bool)
    requires forall k :: k in m ==> !p(m[k])
    ensures Count(m, p) == 0
  {
    assert Where(m, p) == {};
  }

  /** A thread at an uncounted point leaves room for the others only. */
  lemma CountOthers<K, V>(m: map<K, V>, k: K, p: V -> bool)
    requires k in m && !p(m[k])
    ensures Count(m, p) < |m|
  {
    SubsetSize(Where(m, p), m.Keys - {k});
    assert |m.Keys - {k}| == |m.Keys| - 1;
  }

  lemma MapAdd<K, V>(m: map<K, V>, k: K, v: V)
    requires k !in m
    ensures |m[k := v]| == |m| + 1
  {
    assert m[k := v].Keys == m.Keys + {k};
    assert |m[k := v].Keys| == |m.Keys| + 1;
  }

  lemma MapDrop<K, V>(m: map<K, V>, k: K)
    requires k in m
    ensures |m - {k}| == |m| - 1
  {
    assert (m - {k}).Keys == m.Keys - {k};
    assert |(m - {k}).Keys| == |m.Keys| - 1;
  }

  lemma SameKeys<K, V, W>(m: map<K, V>, n: map<K, W>)
    requires m.Keys == n.Keys
    ensures |m| == |n|
  {
    assert |m.Keys| == |n.Keys|;
  }
}
