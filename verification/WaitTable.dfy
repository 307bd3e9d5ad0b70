/**
  The user-wait table: a map of zones by type, each a map by id to a pair of a wakeup count and
  a FIFO queue of tasks, with empty pairs and empty zones erased.  It refines the total map
  `At` from (type, id) to such pairs.
*/
module WaitTable {
  import opened Counting

  type Tid = nat
  type Key = (int, nat)

  const UINT32: nat := 0x1_0000_0000

  datatype WaitPair<T> = WaitPair(count: nat, queue: seq<T>)

  type Table = map<int, map<nat, WaitPair<Tid>>>

  const EMPTY: WaitPair<Tid> := WaitPair(0, [])

  /** The abstract view: every key has a pair, absent ones the empty pair. */
  function At(t: Table, k: Key): WaitPair<Tid>
  {
    if k.0 in t && k.1 in t[k.0] then t[k.0][k.1] else EMPTY
  }

  ghost predicate Kept(t: Table)
  {
    && (forall y :: y in t ==> |t[y]| > 0)
    && (forall y, i :: y in t && i in t[y] ==> t[y][i] != EMPTY)
  }

  /** No empty pair or empty zone is kept, and nobody waits while wakeups are stored. */
  ghost predicate Tidy(t: Table)
  {
    && Kept(t)
    && (forall k: Key :: At(t, k).count > 0 ==> At(t, k).queue == [])
    && (forall k: Key :: At(t, k).count < UINT32)
  }

  /** How many tasks BlockWakeup(n) takes out of the queue: TSQueue::pop(0) takes one. */
  function Popped<T>(p: WaitPair<T>, n: nat): nat
  {
    Min(if n == 0 then 1 else n, |p.queue|)
  }

  // What each operation does to the pair of its key.
  function BlockPair<T>(p: WaitPair<T>, tk: T): WaitPair<T>
  {
    if p.count > 0 then p.(count := p.count - 1) else p.(queue := p.queue + [tk])
  }

  function TryPair<T>(p: WaitPair<T>): WaitPair<T>
  {
    if p.count > 0 then p.(count := p.count - 1) else p
  }

  function WakePair<T>(p: WaitPair<T>, n: nat): WaitPair<T>
  {
    var c := Popped(p, n);
    WaitPair(if c < n then (p.count + (n - c)) % UINT32 else p.count, p.queue[c..])
  }

  class Waiters {
    var table: Table

    constructor ()
      ensures table == map[] && Tidy(table)
    {
      table := map[];
    }

    /** user_wait_tasks_[type][id] := p, and then ClearWaitPairWithoutLock. */
    method Store(k: Key, p: WaitPair<Tid>)
      requires Kept(table)
      modifies this
      ensures Kept(table)
      ensures At(table, k) == p
      ensures forall j: Key :: j != k ==> At(table, j) == old(At(table, j))
    {
      ghost var t := table;
      var y, i := k.0, k.1;
      var zone: map<nat, WaitPair<Tid>> := if y in table then table[y] else map[];
      zone := zone[i := p];
      table := table[y := zone];
      if p.queue == [] && p.count == 0 {
        if |zone| > 1 {
          table := table[y := zone - {i}];
          ClearPair(t, y, i, p, zone);
        } else {
          table := table - {y};
          ClearZone(t, y, i, p, zone);
        }
      }
    }

    /** Processer::Run on a task that blocked on `k`: true if it stays blocked. */
    method SwitchOut(k: Key, tk: Tid) returns (blocked: bool)
      requires Tidy(table)
      modifies this
      ensures Tidy(table)
      ensures At(table, k) == BlockPair(old(At(table, k)), tk) && blocked == (old(At(table, k)).count == 0)
      ensures forall j: Key :: j != k ==> At(table, j) == old(At(table, j))
    {
      var p := At(table, k);
      blocked := p.count == 0;
      Store(k, if blocked then p.(queue := p.queue + [tk]) else p.(count := p.count - 1));
    }

    method TryBlockWait(k: Key) returns (ok: bool)
      requires Tidy(table)
      modifies this
      ensures Tidy(table)
      ensures At(table, k) == TryPair(old(At(table, k))) && ok == (old(At(table, k)).count > 0)
      ensures forall j: Key :: j != k ==> At(table, j) == old(At(table, j))
    {
      if k.0 !in table { return false; }
      if k.1 !in table[k.0] { return false; }
      var p := table[k.0][k.1];
      if p.count > 0 {
        Store(k, p.(count := p.count - 1));
        return true;
      }
      return false;
    }

    /** BlockWakeup(n) up to the release loop: the tasks taken out of the queue. */
    method Wakeup(k: Key, n: nat) returns (tasks: seq<Tid>)
      requires Tidy(table) && n < UINT32
      modifies this
      ensures Tidy(table)
      ensures At(table, k) == WakePair(old(At(table, k)), n)
      ensures tasks == old(At(table, k)).queue[..Popped(old(At(table, k)), n)]
      ensures forall j: Key :: j != k ==> At(table, j) == old(At(table, j))
    {
      var p := At(table, k);
      var c := Popped(p, n);
      tasks := p.queue[..c];
      Store(k, WaitPair(if c < n then (p.count + (n - c)) % UINT32 else p.count, p.queue[c..]));
    }
  }

  lemma ClearPair(t: Table, y: int, i: nat, p: WaitPair<Tid>, zone: map<nat, WaitPair<Tid>>)
    requires Kept(t) && p == EMPTY && |zone| > 1
    requires zone == (if y in t then t[y] else map[])[i := p]
    ensures var u := t[y := zone][y := zone - {i}];
            && Kept(u) && At(u, (y, i)) == p && (forall j: Key :: j != (y, i) ==> At(u, j) == At(t, j))
  {
    assert (zone - {i}).Keys == zone.Keys - {i};
    assert |zone.Keys - {i}| == |zone.Keys| - 1;
    assert |zone - {i}| == |(zone - {i}).Keys|;
  }

  lemma ClearZone(t: Table, y: int, i: nat, p: WaitPair<Tid>, zone: map<nat, WaitPair<Tid>>)
    requires Kept(t) && p == EMPTY && |zone| <= 1
    requires zone == (if y in t then t[y] else map[])[i := p]
    ensures var u := t[y := zone] - {y};
            && Kept(u) && At(u, (y, i)) == p && (forall j: Key :: j != (y, i) ==> At(u, j) == At(t, j))
  {
    assert |zone| == |zone.Keys|;
    OnlyKey(zone.Keys, i);
    forall j: nat | y in t && j in t[y] ensures j == i { assert j in zone.Keys; }
  }

  lemma OnlyKey(s: set<nat>, i: nat)
    requires i in s && |s| <= 1
    ensures s == {i}
  {
    assert |s - {i}| == |s| - 1;
  }

  /** A pair is stored exactly when it is not empty, so the table is determined by its meaning. */
  lemma TableIsItsMeaning(t: Table, u: Table)
    requires Tidy(t) && Tidy(u) && forall k: Key :: At(t, k) == At(u, k)
    ensures t == u
  {
    Included(t, u);
    Included(u, t);
    assert forall y :: y in t.Keys <==> y in u.Keys;
    assert t.Keys == u.Keys;
    forall y | y in t ensures t[y] == u[y] {
      forall i | i in t[y] ensures i in u[y] && t[y][i] == u[y][i] { assert At(t, (y, i)) == At(u, (y, i)); }
      forall i | i in u[y] ensures i in t[y] { assert At(t, (y, i)) == At(u, (y, i)); }
      assert t[y].Keys == u[y].Keys;
    }
  }

  lemma Included(t: Table, u: Table)
    requires Tidy(t) && Tidy(u) && forall k: Key :: At(t, k) == At(u, k)
    ensures forall y :: y in t ==> y in u
  {
    forall y | y in t ensures y in u {
      assert t[y].Keys != {};
      var i :| i in t[y];
      assert At(t, (y, i)) == At(u, (y, i));
    }
  }

  // ---------------------------------------------------------------- accounting over runs, for one key

  datatype Op<T> = Block(tk: T) | Try | Wake(n: nat)

  /**
    The pair of one key, with: permits asked for by wakeups, permits that reached a task, tasks
    taken out of the queue that the release loop did not pass on (it stops after the first),
    and tasks released by a wakeup of count zero.
  */
  datatype Ledger<T> = Ledger(pair: WaitPair<T>, asked: nat, got: nat, lost: nat, spurious: nat)

  function Exec<T>(s: Ledger<T>, op: Op<T>): Ledger<T>
  {
    match op
    case Block(tk) => s.(pair := BlockPair(s.pair, tk), got := s.got + if s.pair.count > 0 then 1 else 0)
    case Try => s.(pair := TryPair(s.pair), got := s.got + if s.pair.count > 0 then 1 else 0)
    case Wake(n) =>
      var c := Popped(s.pair, n);
      s.(pair := WakePair(s.pair, n), asked := s.asked + n,
         got := s.got + Min(1, c), lost := s.lost + (c - Min(1, c)),
         spurious := s.spurious + if n == 0 then c else 0)
  }

  function Run<T>(s: Ledger<T>, ops: seq<Op<T>>): Ledger<T>
    decreases |ops|
  {
    if ops == [] then s else Run(Exec(s, ops[0]), ops[1..])
  }

  /** The count never reaches 2^32 along the run. */
  ghost predicate InRange<T>(s: Ledger<T>, ops: seq<Op<T>>)
    decreases |ops|
  {
    && s.pair.count < UINT32
    && (ops != [] ==>
          && (ops[0].Wake? ==> s.pair.count + ops[0].n < UINT32)
          && InRange(Exec(s, ops[0]), ops[1..]))
  }

  /**
    Every permit asked for is stored, has reached a task, or was lost with a task that BlockWakeup
    took out of the queue and did not pass on.
  */
  lemma {:induction false} Accounting<T>(s: Ledger<T>, ops: seq<Op<T>>)
    requires InRange(s, ops)
    ensures var r := Run(s, ops);
            r.pair.count + (r.got - s.got) + (r.lost - s.lost)
              == s.pair.count + (r.asked - s.asked) + (r.spurious - s.spurious)
    decreases |ops|
  {
    if ops != [] {
      var m := Exec(s, ops[0]);
      assert ops[0].Wake? ==> m.pair.count == if Popped(s.pair, ops[0].n) < ops[0].n
                                              then s.pair.count + (ops[0].n - Popped(s.pair, ops[0].n)) else s.pair.count;
      Accounting(m, ops[1..]);
    }
  }

  /** No operation asks for more than one wakeup at a time, nor for none. */
  ghost predicate Ones<T>(ops: seq<Op<T>>)
  {
    forall i :: 0 <= i < |ops| && ops[i].Wake? ==> ops[i].n == 1
  }

  /** With wakeups of count one, nothing is lost and nobody is released for free. */
  lemma {:induction false} OnesLoseNothing<T>(s: Ledger<T>, ops: seq<Op<T>>)
    requires Ones(ops)
    ensures Run(s, ops).lost == s.lost && Run(s, ops).spurious == s.spurious
    decreases |ops|
  {
    if ops != [] {
      assert Ones(ops[1..]);
      OnesLoseNothing(Exec(s, ops[0]), ops[1..]);
    }
  }

  /** The books of a new entry. */
  function NewBook<T>(): Ledger<T> { Ledger(WaitPair(0, []), 0, 0, 0, 0) }

  /** With wakeups of count one, permits stored plus permits received equal wakeups made. */
  lemma WakeupsOfOneConserved<T>(ops: seq<Op<T>>)
    requires Ones(ops) && InRange(NewBook(), ops)
    ensures var r := Run(NewBook(), ops); r.pair.count + r.got == r.asked
  {
    Accounting(NewBook<T>(), ops);
    OnesLoseNothing(NewBook<T>(), ops);
  }
}
