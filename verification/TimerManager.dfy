/** The timer manager: an index by id and a multimap by deadline over the same timers. */
module TimerManager {

  datatype CoTimer = CoTimer(id: nat, due: int)

  /** Position i comes no later than position j, and they are different timers. */
  predicate Before(s: seq<CoTimer>, i: int, j: int)
    requires 0 <= i < j < |s|
  {
    s[i].due <= s[j].due && s[i].id != s[j].id
  }

  ghost predicate Ordered(s: seq<CoTimer>)
  {
    forall i, j :: 0 <= i < j < |s| ==> Before(s, i, j)
  }

  function Ids(s: seq<CoTimer>): set<nat>
  {
    set i | 0 <= i < |s| :: s[i].id
  }

  ghost predicate Table(timers: map<nat, CoTimer>, s: seq<CoTimer>)
  {
    timers.Keys == Ids(s) && forall i :: 0 <= i < |s| ==> timers[s[i].id] == s[i]
  }

  /** The two indexes hold the same timers, each once, the multimap in deadline order. */
  ghost predicate Consistent(timers: map<nat, CoTimer>, deadlines: seq<CoTimer>)
  {
    Ordered(deadlines) && Table(timers, deadlines)
  }

  /** The number of timers whose deadline has passed; they stand at the front. */
  function Expired(s: seq<CoTimer>, now: int): (k: nat)
    ensures k <= |s|
    ensures forall i :: 0 <= i < k ==> s[i].due <= now
    ensures k < |s| ==> s[k].due > now
  {
    if s == [] || s[0].due > now then 0 else 1 + Expired(s[1..], now)
  }

  class CoTimerMgr {
    var timers: map<nat, CoTimer>
    var deadlines: seq<CoTimer>

    ghost predicate Valid()
      reads this
    {
      Consistent(timers, deadlines)
    }

    constructor ()
      ensures Valid() && deadlines == []
    {
      timers, deadlines := map[], [];
    }

    /** `id` comes from the process-wide counter, so it is in no manager yet. */
    method ExpireAt(id: nat, due: int) returns (t: CoTimer)
      requires Valid() && id !in timers
      modifies this
      ensures Valid() && t == CoTimer(id, due)
      ensures timers == old(timers)[id := t]
      ensures exists p :: 0 <= p <= |old(deadlines)| && deadlines == Insert(old(deadlines), p, t)
                          && (p < |old(deadlines)| ==> old(deadlines)[p].due > due)   // after its equals
    {
      t := CoTimer(id, due);
      timers := timers[id := t];
      var p := 0;
      while p < |deadlines| && deadlines[p].due <= due   // multimap insert: the end of the equal range
        invariant 0 <= p <= |deadlines|
        invariant forall i :: 0 <= i < p ==> deadlines[i].due <= due
      {
        p := p + 1;
      }
      InsertKeeps(old(timers), deadlines, t, p);
      deadlines := Insert(deadlines, p, t);
    }

    /** Drops `t` from both indexes; a timer of another manager, or one already taken, is not found. */
    method Remove(t: CoTimer)
      requires Valid()
      requires t.id in timers ==> timers[t.id] == t
      modifies this
      ensures Valid() && timers == old(timers) - {t.id}
      ensures t.id !in old(timers) ==> deadlines == old(deadlines)
      ensures t.id in old(timers) ==>
                exists i :: 0 <= i < |old(deadlines)| && old(deadlines)[i] == t &&
                            deadlines == Delete(old(deadlines), i)
    {
      if t.id !in timers {
        assert timers == timers - {t.id};
        return;
      }
      timers := timers - {t.id};
      ghost var at :| 0 <= at < |deadlines| && deadlines[at].id == t.id;
      var i := 0;
      while i < |deadlines| && deadlines[i].due < t.due   // start of equal_range
        invariant 0 <= i <= at
      {
        assert i < at ==> Before(deadlines, i, at);
        i := i + 1;
      }
      assert i < at ==> Before(deadlines, i, at);
      while i < |deadlines| && deadlines[i].due == t.due
        invariant 0 <= i <= at
        invariant deadlines == old(deadlines)
        invariant deadlines[i].due == t.due
      {
        if i < at { assert Before(deadlines, i, i + 1) && (i + 1 < at ==> Before(deadlines, i + 1, at)); }
        if deadlines[i] == t {
          RemoveKeeps(old(timers), deadlines, i);
          deadlines := Delete(deadlines, i);
          return;
        }
        i := i + 1;
      }
    }

    /** At most `n` timers that are due, earliest first. */
    method GetExpired(n: nat, now: int) returns (result: seq<CoTimer>)
      requires Valid()
      modifies this
      ensures Valid()
      ensures var due := Expired(old(deadlines), now);
              var k := if n < due then n else due;
              result == old(deadlines)[..k] && deadlines == old(deadlines)[k..]
      ensures timers == old(timers) - Ids(result)
    {
      result := [];
      ghost var all, tbl := deadlines, timers;
      var i, left := 0, n;
      while i < |deadlines| && left > 0
        invariant 0 <= i <= |deadlines| && left == n - i
        invariant deadlines == all && result == all[..i]
        invariant i <= Expired(all, now)
        invariant timers == tbl - Ids(all[..i])
      {
        if deadlines[i].due > now { break; }
        IdsSnoc(all, i);
        result := result + [deadlines[i]];
        timers := timers - {deadlines[i].id};
        i, left := i + 1, left - 1;
      }
      DropKeeps(tbl, all, i);
      deadlines := deadlines[i..];
    }
  }

  function Insert(s: seq<CoTimer>, p: nat, t: CoTimer): seq<CoTimer>
    requires p <= |s|
  {
    s[..p] + [t] + s[p..]
  }

  function Delete(s: seq<CoTimer>, k: nat): seq<CoTimer>
    requires k < |s|
  {
    s[..k] + s[k + 1..]
  }

  lemma InsertIds(s: seq<CoTimer>, p: nat, t: CoTimer)
    requires p <= |s|
    ensures Ids(Insert(s, p, t)) == Ids(s) + {t.id}
  {
    var r := Insert(s, p, t);
    assert r[p] == t;
    forall i | 0 <= i < |s| ensures s[i].id in Ids(r) { assert r[if i < p then i else i + 1] == s[i]; }
    forall i | 0 <= i < |r| ensures r[i].id in Ids(s) + {t.id} {
      assert i != p ==> r[i] == s[if i < p then i else i - 1];
    }
  }

  lemma DeleteIds(s: seq<CoTimer>, k: nat)
    requires k < |s| && Ordered(s)
    ensures Ids(Delete(s, k)) == Ids(s) - {s[k].id}
  {
    var r := Delete(s, k);
    forall i | 0 <= i < |s| && i != k ensures s[i].id in Ids(r) { assert r[if i < k then i else i - 1] == s[i]; }
    forall i | 0 <= i < |r| ensures r[i].id in Ids(s) - {s[k].id} {
      assert r[i] == s[if i < k then i else i + 1];
      assert if i < k then Before(s, i, k) else Before(s, k, i + 1);
    }
  }

  lemma InsertKeeps(timers: map<nat, CoTimer>, s: seq<CoTimer>, t: CoTimer, p: nat)
    requires Consistent(timers, s) && t.id !in timers && p <= |s|
    requires forall i :: 0 <= i < p ==> s[i].due <= t.due
    requires p < |s| ==> s[p].due > t.due
    ensures Consistent(timers[t.id := t], Insert(s, p, t))
  {
    InsertIds(s, p, t);
    var r := Insert(s, p, t);
    forall i, j | 0 <= i < j < |r| ensures Before(r, i, j) {
      var a, b := if i < p then i else i - 1, if j < p then j else j - 1;
      if i != p && j != p { assert Before(s, a, b); }
      if i == p && p < b { assert Before(s, p, b); }
      assert i != p ==> s[a].id in Ids(s);
      assert j != p ==> s[b].id in Ids(s);
    }
    forall i | 0 <= i < |r| ensures timers[t.id := t][r[i].id] == r[i] {
      assert i != p ==> r[i] == s[if i < p then i else i - 1];
    }
  }

  lemma RemoveKeeps(timers: map<nat, CoTimer>, s: seq<CoTimer>, k: nat)
    requires Consistent(timers, s) && k < |s|
    ensures Consistent(timers - {s[k].id}, Delete(s, k))
  {
    DeleteIds(s, k);
    var r := Delete(s, k);
    forall i, j | 0 <= i < j < |r| ensures Before(r, i, j) {
      assert Before(s, if i < k then i else i + 1, if j < k then j else j + 1);
    }
    forall i | 0 <= i < |r| ensures r[i] == s[if i < k then i else i + 1] && r[i].id in Ids(r) {
    }
  }

  lemma IdsSnoc(s: seq<CoTimer>, i: nat)
    requires i < |s|
    ensures s[..i + 1] == s[..i] + [s[i]]
    ensures Ids(s[..i + 1]) == Ids(s[..i]) + {s[i].id}
  {
    assert s[..i + 1] == s[..i] + [s[i]];
  }

  lemma DropKeeps(timers: map<nat, CoTimer>, s: seq<CoTimer>, k: nat)
    requires Consistent(timers, s) && k <= |s|
    ensures Consistent(timers - Ids(s[..k]), s[k..])
  {
    var front, rest := s[..k], s[k..];
    forall i, j | 0 <= i < j < |rest| ensures Before(rest, i, j) { assert Before(s, k + i, k + j); }
    forall i | 0 <= i < |rest| ensures rest[i].id in Ids(s) && rest[i].id !in Ids(front) {
      assert rest[i] == s[k + i];
      forall j | 0 <= j < k ensures front[j].id != rest[i].id { assert Before(s, j, k + i); }
    }
    forall i | 0 <= i < |s| ensures s[i].id in Ids(front) || s[i].id in Ids(rest) {
      if i < k { assert front[i] == s[i]; } else { assert rest[i - k] == s[i]; }
    }
    forall i | 0 <= i < k ensures front[i].id in Ids(s) { assert front[i] == s[i]; }
    assert Ids(rest) == Ids(s) - Ids(front);
  }

  /**
    What GetExpired hands out is exactly the earliest min(n, number due): nothing early, and a
    timer left behind is due no sooner than any returned, and not due at all if fewer than n
    were returned.
  */
  lemma EarliestFirst(s: seq<CoTimer>, n: nat, now: int)
    requires Ordered(s)
    ensures var k := if n < Expired(s, now) then n else Expired(s, now);
            && (forall i :: 0 <= i < k ==> s[i].due <= now)
            && (forall i, j :: 0 <= i < k <= j < |s| ==> s[i].due <= s[j].due)
            && (k < n ==> forall j :: k <= j < |s| ==> s[j].due > now)
  {
    var e := Expired(s, now);
    forall j | e <= j < |s| ensures s[j].due > now {
      assert e < j ==> Before(s, e, j);
    }
    forall i, j | 0 <= i < j < |s| ensures s[i].due <= s[j].due {
      assert Before(s, i, j);
    }
  }
}
