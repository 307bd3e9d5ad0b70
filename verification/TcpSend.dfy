/**
  The sending side of a TCP session: messages wait in msg_chan_, are pulled into msg_send_list_,
  and are written with gathered writes that may stop in the middle of a message.

  A message's `timeout` flag is set by a timer at any time, so each place that reads the flags is
  given the set of messages found timed out there.
*/
module TcpSend {

  import opened Counting
  import opened Lists

  type Byte = b: int | 0 <= b < 256

  const MULTI := 1024

  /** `id` is the position in the order in which messages entered msg_chan_. */
  datatype Msg = Msg(id: nat, buf: seq<Byte>, pos: nat, half: bool)

  function Fresh(m: Msg): Msg { m.(pos := 0, half := false) }

  function Rest(m: Msg): seq<Byte> { if m.pos <= |m.buf| then m.buf[m.pos..] else [] }

  /** What is still to be written of these messages. */
  function Bytes(ms: seq<Msg>): seq<Byte> { if ms == [] then [] else Rest(ms[0]) + Bytes(ms[1..]) }

  function Flat(bufs: seq<seq<Byte>>): seq<Byte> { if bufs == [] then [] else bufs[0] + Flat(bufs[1..]) }

  // ---------------------------------------------------------------- the session as a value

  /**
    `accepted`: every message ever put into msg_chan_; `done`, `dropped`: those whose callback
    reported success and timeout, in that order; `wire`: the bytes the socket has taken.
  */
  datatype Sess = Sess(accepted: seq<Msg>, done: seq<Msg>, dropped: seq<nat>, list: seq<Msg>, chan: seq<Msg>, wire: seq<Byte>)

  /** The accepted messages that have not been dropped, in order. */
  function Keep(ms: seq<Msg>, out: seq<nat>): seq<Msg>
  {
    if ms == [] then []
    else (if ms[0].id in out then [] else [ms[0]]) + Keep(ms[1..], out)
  }

  function FreshAll(ms: seq<Msg>): (r: seq<Msg>)
    ensures |r| == |ms| && forall i :: 0 <= i < |ms| ==> r[i] == Fresh(ms[i])
  {
    seq(|ms|, i requires 0 <= i < |ms| => Fresh(ms[i]))
  }

  predicate Untouched(m: Msg) { m.pos == 0 && !m.half && m.buf != [] }

  /** Only the first message of the list may have been sent in part. */
  predicate Shape(list: seq<Msg>, chan: seq<Msg>)
  {
    && (forall i :: 0 < i < |list| ==> Untouched(list[i]))
    && (list != [] ==> list[0].pos < |list[0].buf| && (list[0].half <==> list[0].pos > 0))
    && (forall i :: 0 <= i < |chan| ==> Untouched(chan[i]))
  }

  function Part(list: seq<Msg>): seq<Byte>
  {
    if list != [] && list[0].pos <= |list[0].buf| then list[0].buf[..list[0].pos] else []
  }

  predicate Numbered(ms: seq<Msg>) { forall i :: 0 <= i < |ms| ==> ms[i].id == i && Untouched(ms[i]) }

  ghost predicate Ok(s: Sess)
  {
    && Numbered(s.accepted) && NoDup(s.dropped) && (forall d :: d in s.dropped ==> d < |s.accepted|)
    && Keep(s.accepted, s.dropped) == s.done + FreshAll(s.list) + s.chan
    && Shape(s.list, s.chan)
    && s.wire == Bytes(s.done) + Part(s.list)
  }

  // ---- what Ok means

  lemma Regroup<T>(a: seq<T>, b: seq<T>, c: seq<T>, d: seq<T>)
    ensures a + b + c + d == a + (b + c) + d == (a + b) + (c + d)
  {
  }

  lemma {:induction false} BytesAppend(a: seq<Msg>, b: seq<Msg>)
    ensures Bytes(a + b) == Bytes(a) + Bytes(b)
  {
    if a == [] {
      assert a + b == b;
    } else {
      assert (a + b)[1..] == a[1..] + b;
      BytesAppend(a[1..], b);
    }
  }

  lemma UntouchedIsFresh(ms: seq<Msg>)
    requires forall i :: 0 <= i < |ms| ==> Untouched(ms[i])
    ensures FreshAll(ms) == ms
  {
    forall i | 0 <= i < |ms| ensures FreshAll(ms)[i] == ms[i] { assert Untouched(ms[i]); }
  }

  lemma HeadBytes(m: Msg, rest: seq<Msg>)
    requires m.pos <= |m.buf|
    ensures m.buf[..m.pos] + Bytes([m] + rest) == Bytes([Fresh(m)] + rest)
  {
    assert ([m] + rest)[1..] == rest && ([Fresh(m)] + rest)[1..] == rest;
    assert m.buf[..m.pos] + m.buf[m.pos..] == m.buf && m.buf[0..] == m.buf;
    Assoc(m.buf[..m.pos], m.buf[m.pos..], Bytes(rest));
  }

  lemma ListBytes(list: seq<Msg>, chan: seq<Msg>)
    requires Shape(list, chan)
    ensures Part(list) + Bytes(list) == Bytes(FreshAll(list))
  {
    if list != [] {
      var m, rest := list[0], list[1..];
      UntouchedIsFresh(rest);
      assert list == [m] + rest;
      FreshCons(m, rest);
      HeadBytes(m, rest);
    }
  }

  /**
    Conservation: what the socket has taken, followed by what is still to be written, is exactly
    the messages accepted and not dropped, whole and in the order they were sent.
  */
  lemma WirePlusRest(s: Sess)
    requires Ok(s)
    ensures s.wire + Bytes(s.list) + Bytes(s.chan) == Bytes(Keep(s.accepted, s.dropped))
  {
    var whole := FreshAll(s.list);
    calc {
      s.wire + Bytes(s.list) + Bytes(s.chan);
      { Regroup(Bytes(s.done), Part(s.list), Bytes(s.list), Bytes(s.chan)); }
      Bytes(s.done) + (Part(s.list) + Bytes(s.list)) + Bytes(s.chan);
      { ListBytes(s.list, s.chan); }
      Bytes(s.done) + Bytes(whole) + Bytes(s.chan);
      { BytesAppend(s.done, whole); }
      Bytes(s.done + whole) + Bytes(s.chan);
      { BytesAppend(s.done + whole, s.chan); }
      Bytes(s.done + whole + s.chan);
    }
  }

  lemma {:induction false} KeepIn(ms: seq<Msg>, out: seq<nat>, m: Msg)
    ensures m in Keep(ms, out) <==> m in ms && m.id !in out
    decreases |ms|
  {
    if ms != [] { KeepIn(ms[1..], out, m); }
  }

  predicate Survives(m: Msg, id: nat) { m.id != id }

  /** None of the messages kept is the one dropped. */
  lemma KeptSurvive(s: Sess, id: nat)
    requires Ok(s) && id in s.dropped
    ensures forall i :: 0 <= i < |Keep(s.accepted, s.dropped)| ==> Survives(Keep(s.accepted, s.dropped)[i], id)
  {
    var all := Keep(s.accepted, s.dropped);
    forall i | 0 <= i < |all| ensures Survives(all[i], id) { KeepIn(s.accepted, s.dropped, all[i]); assert all[i] in all; }
  }

  lemma PartsSurvive(a: seq<Msg>, b: seq<Msg>, c: seq<Msg>, id: nat)
    requires forall i :: 0 <= i < |a + b + c| ==> Survives((a + b + c)[i], id)
    ensures forall i :: 0 <= i < |a| ==> Survives(a[i], id)
    ensures forall i :: 0 <= i < |b| ==> Survives(b[i], id)
    ensures forall i :: 0 <= i < |c| ==> Survives(c[i], id)
  {
    var all := a + b + c;
    forall i | 0 <= i < |a| ensures Survives(a[i], id) { assert all[i] == a[i]; }
    forall i | 0 <= i < |b| ensures Survives(b[i], id) { assert all[|a| + i] == b[i]; }
    forall i | 0 <= i < |c| ensures Survives(c[i], id) { assert all[|a| + |b| + i] == c[i]; }
  }

  /** No message is both dropped and sent, even in part; each has at most one of the two callbacks. */
  lemma DroppedSendsNothing(s: Sess, m: Msg)
    requires Ok(s) && m.id in s.dropped
    ensures m !in s.done && (forall l :: l in s.list ==> l.id != m.id) && m !in s.chan
    ensures forall d :: d in s.done ==> d.id != m.id
  {
    KeptSurvive(s, m.id);
    PartsSurvive(s.done, FreshAll(s.list), s.chan, m.id);
    forall l | l in s.list ensures l.id != m.id {
      var i :| 0 <= i < |s.list| && s.list[i] == l;
      assert Survives(FreshAll(s.list)[i], m.id);
    }
  }

  // ---------------------------------------------------------------- the steps keep it

  lemma {:induction false} KeepSnoc(ms: seq<Msg>, m: Msg, out: seq<nat>)
    ensures Keep(ms + [m], out) == Keep(ms, out) + if m.id in out then [] else [m]
    decreases |ms|
  {
    if ms == [] {
      assert ms + [m] == [m];
    } else {
      assert (ms + [m])[1..] == ms[1..] + [m];
      KeepSnoc(ms[1..], m, out);
    }
  }

  function Without(ms: seq<Msg>, id: nat): seq<Msg>
  {
    if ms == [] then [] else (if ms[0].id == id then [] else [ms[0]]) + Without(ms[1..], id)
  }

  lemma {:induction false} KeepDrop(ms: seq<Msg>, out: seq<nat>, id: nat)
    ensures Keep(ms, out + [id]) == Without(Keep(ms, out), id)
    decreases |ms|
  {
    if ms != [] {
      KeepDrop(ms[1..], out, id);
      if ms[0].id !in out {
        assert Keep(ms, out) == [ms[0]] + Keep(ms[1..], out);
        assert Keep(ms, out)[1..] == Keep(ms[1..], out);
      } else {
        assert Keep(ms, out) == Keep(ms[1..], out);
      }
    }
  }

  lemma {:induction false} WithoutNone(ms: seq<Msg>, id: nat)
    requires forall i :: 0 <= i < |ms| ==> ms[i].id != id
    ensures Without(ms, id) == ms
    decreases |ms|
  {
    if ms != [] {
      WithoutNone(ms[1..], id);
      assert ms == [ms[0]] + ms[1..];
    }
  }

  lemma {:induction false} WithoutAppend(a: seq<Msg>, b: seq<Msg>, id: nat)
    ensures Without(a + b, id) == Without(a, id) + Without(b, id)
    decreases |a|
  {
    if a == [] {
      assert a + b == b;
    } else {
      assert (a + b)[1..] == a[1..] + b;
      WithoutAppend(a[1..], b, id);
    }
  }

  /** Message ids strictly increase along what is kept. */
  lemma {:induction false} KeepOrdered(ms: seq<Msg>, out: seq<nat>, i: nat, j: nat)
    requires forall p, q :: 0 <= p < q < |ms| ==> ms[p].id < ms[q].id
    requires i < j < |Keep(ms, out)|
    ensures Keep(ms, out)[i].id < Keep(ms, out)[j].id
    decreases |ms|
  {
    var rest := Keep(ms[1..], out);
    if ms[0].id in out {
      KeepOrdered(ms[1..], out, i, j);
    } else if i == 0 {
      assert rest[j - 1] in rest;
      KeepIn(ms[1..], out, rest[j - 1]);
    } else {
      KeepOrdered(ms[1..], out, i - 1, j - 1);
    }
  }

  lemma WithoutMiddle(a: seq<Msg>, m: Msg, b: seq<Msg>)
    requires forall i :: 0 <= i < |a| ==> a[i].id != m.id
    requires forall i :: 0 <= i < |b| ==> b[i].id != m.id
    ensures Without(a + [m] + b, m.id) == a + b
  {
    WithoutAppend(a + [m], b, m.id);
    WithoutAppend(a, [m], m.id);
    WithoutNone(a, m.id);
    WithoutNone(b, m.id);
    assert Without([m], m.id) == [];
    assert a + [] == a;
  }

  lemma MiddleIsUnique(ms: seq<Msg>, out: seq<nat>, a: seq<Msg>, m: Msg, b: seq<Msg>)
    requires Numbered(ms) && Keep(ms, out) == a + [m] + b
    ensures forall i :: 0 <= i < |a| ==> a[i].id != m.id
    ensures forall i :: 0 <= i < |b| ==> b[i].id != m.id
  {
    var all := Keep(ms, out);
    assert m == all[|a|];
    forall i | 0 <= i < |a| ensures a[i].id != m.id { assert all[i] == a[i]; KeepOrdered(ms, out, i, |a|); }
    forall i | 0 <= i < |b| ensures b[i].id != m.id { assert all[|a| + 1 + i] == b[i]; KeepOrdered(ms, out, |a|, |a| + 1 + i); }
  }

  /**
    Every accepted message is in exactly one place: reported as sent, reported as timed out, in
    msg_send_list_, or in msg_chan_.
  */
  lemma OnePlaceEach(s: Sess, m: Msg)
    requires Ok(s) && m in s.accepted
    ensures One(m in s.done) + One(m.id in s.dropped) + One(m in FreshAll(s.list)) + One(m in s.chan) == 1
  {
    var all, l := Keep(s.accepted, s.dropped), FreshAll(s.list);
    KeepIn(s.accepted, s.dropped, m);
    Places(s.done, l, s.chan, m);
    forall i, j | 0 <= i < j < |all| ensures all[i] != all[j] { KeepOrdered(s.accepted, s.dropped, i, j); }
    Separate(s.done, l + s.chan, m);
    Separate(l, s.chan, m);
  }

  lemma Places(a: seq<Msg>, b: seq<Msg>, c: seq<Msg>, m: Msg)
    ensures m in a + b + c <==> m in a || m in b || m in c
    ensures m in b + c <==> m in b || m in c
    ensures a + b + c == a + (b + c)
  {
  }

  lemma Separate(a: seq<Msg>, b: seq<Msg>, m: Msg)
    requires forall i, j :: 0 <= i < j < |a + b| ==> (a + b)[i] != (a + b)[j]
    ensures !(m in a && m in b)
    ensures forall i, j :: 0 <= i < j < |b| ==> b[i] != b[j]
  {
    forall i, j | 0 <= i < |a| && 0 <= j < |b| ensures a[i] != b[j] {
      assert (a + b)[i] == a[i] && (a + b)[|a| + j] == b[j];
    }
    forall i, j | 0 <= i < j < |b| ensures b[i] != b[j] { assert (a + b)[|a| + i] != (a + b)[|a| + j]; }
  }

  /** Taking one message out of the middle of what is kept. */
  lemma DropMiddle(s: Sess, a: seq<Msg>, m: Msg, b: seq<Msg>)
    requires Numbered(s.accepted) && Keep(s.accepted, s.dropped) == a + [m] + b
    ensures Keep(s.accepted, s.dropped + [m.id]) == a + b
    ensures m.id !in s.dropped && m.id < |s.accepted|
  {
    assert (a + [m] + b)[|a|] == m;
    KeepIn(s.accepted, s.dropped, m);
    MiddleIsUnique(s.accepted, s.dropped, a, m, b);
    KeepDrop(s.accepted, s.dropped, m.id);
    WithoutMiddle(a, m, b);
  }

  lemma FreshAppend(a: seq<Msg>, b: seq<Msg>)
    ensures FreshAll(a + b) == FreshAll(a) + FreshAll(b)
  {
  }

  lemma AcceptKeeps(s: Sess, m: Msg)
    requires Ok(s) && m.id == |s.accepted| && Untouched(m)
    ensures Ok(s.(accepted := s.accepted + [m], chan := s.chan + [m]))
  {
    KeepSnoc(s.accepted, m, s.dropped);
    assert s.done + FreshAll(s.list) + s.chan + [m] == s.done + FreshAll(s.list) + (s.chan + [m]);
  }

  /** A message moves from the channel to the list. */
  lemma PullKeeps(s: Sess)
    requires Ok(s) && s.chan != []
    ensures Ok(s.(chan := s.chan[1..], list := s.list + [s.chan[0]]))
  {
    var m := s.chan[0];
    FreshAppend(s.list, [m]);
    assert FreshAll([m]) == [m];
    assert s.chan == [m] + s.chan[1..];
    Regroup(s.done, FreshAll(s.list), [m], s.chan[1..]);
    PullShape(s.list, s.chan);
  }

  lemma PullShape(list: seq<Msg>, chan: seq<Msg>)
    requires Shape(list, chan) && chan != []
    ensures Shape(list + [chan[0]], chan[1..]) && Part(list + [chan[0]]) == Part(list)
  {
  }

  /** A message is found timed out before it reaches the list. */
  lemma ExpireKeeps(s: Sess)
    requires Ok(s) && s.chan != []
    ensures Ok(s.(chan := s.chan[1..], dropped := s.dropped + [s.chan[0].id]))
  {
    var m := s.chan[0];
    assert s.chan == [m] + s.chan[1..];
    assert s.done + FreshAll(s.list) + s.chan == (s.done + FreshAll(s.list)) + [m] + s.chan[1..];
    DropMiddle(s, s.done + FreshAll(s.list), m, s.chan[1..]);
    QueueAppend(s.dropped, m.id);
  }

  lemma DropShape(list: seq<Msg>, chan: seq<Msg>, i: nat)
    requires Shape(list, chan) && i < |list| && !list[i].half
    ensures Shape(list[..i] + list[i + 1..], chan) && Part(list[..i] + list[i + 1..]) == Part(list) && Fresh(list[i]) == list[i]
  {
    var list' := list[..i] + list[i + 1..];
    if i > 0 { assert list'[0] == list[0]; }
  }

  lemma FreshSplit(list: seq<Msg>, i: nat)
    requires i < |list|
    ensures FreshAll(list) == FreshAll(list[..i]) + [Fresh(list[i])] + FreshAll(list[i + 1..])
    ensures FreshAll(list[..i] + list[i + 1..]) == FreshAll(list[..i]) + FreshAll(list[i + 1..])
  {
    var a, m, b := list[..i], list[i], list[i + 1..];
    assert list == a + ([m] + b);
    FreshAppend(a, [m] + b);
    FreshCons(m, b);
    FreshAppend(a, b);
    Assoc(FreshAll(a), [Fresh(m)], FreshAll(b));
  }

  lemma FreshCons(m: Msg, b: seq<Msg>)
    ensures FreshAll([m] + b) == [Fresh(m)] + FreshAll(b)
  {
  }

  /** A message of the list none of whose bytes was sent is dropped. */
  lemma DropKeeps(s: Sess, i: nat)
    requires Ok(s) && i < |s.list| && !s.list[i].half
    ensures Ok(s.(list := s.list[..i] + s.list[i + 1..], dropped := s.dropped + [s.list[i].id]))
  {
    var m, a, b := s.list[i], FreshAll(s.list[..i]), FreshAll(s.list[i + 1..]);
    FreshSplit(s.list, i);
    DropShape(s.list, s.chan, i);
    MiddleOf(s.done, a, m, b, s.chan);
    DropMiddle(s, s.done + a, m, b + s.chan);
    QueueAppend(s.dropped, m.id);
  }

  lemma MiddleOf(d: seq<Msg>, a: seq<Msg>, m: Msg, b: seq<Msg>, c: seq<Msg>)
    ensures d + (a + [m] + b) + c == (d + a) + [m] + (b + c)
    ensures (d + a) + (b + c) == d + (a + b) + c
  {
  }

  /** The rest of the first message has gone out. */
  lemma FinishKeeps(s: Sess)
    requires Ok(s) && s.list != []
    ensures Ok(s.(list := s.list[1..], done := s.done + [Fresh(s.list[0])], wire := s.wire + Rest(s.list[0])))
  {
    var m, rest := s.list[0], s.list[1..];
    assert s.list == [m] + rest;
    FreshCons(m, rest);
    Regroup(s.done, [Fresh(m)], FreshAll(rest), s.chan);
    FinishShape(s.list, s.chan);
    FinishBytes(s.done, m);
  }

  lemma FinishShape(list: seq<Msg>, chan: seq<Msg>)
    requires Shape(list, chan) && list != []
    ensures Shape(list[1..], chan) && Part(list[1..]) == [] && Part(list) == list[0].buf[..list[0].pos]
  {
    if |list| > 1 { assert Untouched(list[1]) && list[1..][0] == list[1]; }
  }

  lemma FinishBytes(done: seq<Msg>, m: Msg)
    requires m.pos <= |m.buf|
    ensures Bytes(done) + m.buf[..m.pos] + Rest(m) == Bytes(done + [Fresh(m)]) + []
  {
    BytesAppend(done, [Fresh(m)]);
    assert [Fresh(m)][1..] == [] && Bytes([]) == [];
    assert Rest(Fresh(m)) == m.buf == m.buf[..m.pos] + Rest(m);
    Assoc(Bytes(done), m.buf[..m.pos], Rest(m));
  }

  function Advanced(m: Msg, n: nat): Msg { m.(pos := m.pos + n, half := true) }

  lemma PartGrows(m: Msg, n: nat)
    requires m.pos < |m.buf| && 0 < n < |Rest(m)|
    ensures m.buf[..m.pos] + Rest(m)[..n] == m.buf[..m.pos + n]
  {
  }

  /** Some more of the first message has gone out. */
  lemma PartKeeps(s: Sess, n: nat)
    requires Ok(s) && s.list != [] && 0 < n < |Rest(s.list[0])|
    ensures Ok(s.(list := s.list[0 := Advanced(s.list[0], n)], wire := s.wire + Rest(s.list[0])[..n]))
  {
    PartShape(s.list, s.chan, n);
    Assoc(Bytes(s.done), Part(s.list), Rest(s.list[0])[..n]);
  }

  lemma Assoc<T>(a: seq<T>, b: seq<T>, c: seq<T>)
    ensures a + b + c == a + (b + c)
  {
  }

  lemma PartShape(list: seq<Msg>, chan: seq<Msg>, n: nat)
    requires Shape(list, chan) && list != [] && 0 < n < |Rest(list[0])|
    ensures Shape(list[0 := Advanced(list[0], n)], chan)
    ensures FreshAll(list[0 := Advanced(list[0], n)]) == FreshAll(list)
    ensures Part(list[0 := Advanced(list[0], n)]) == Part(list) + Rest(list[0])[..n]
  {
    PartGrows(list[0], n);
  }

  // ---------------------------------------------------------------- goSend

  lemma {:induction false} BytesOfBuffers(list: seq<Msg>, bufs: seq<seq<Byte>>)
    requires |bufs| <= |list| && forall j :: 0 <= j < |bufs| ==> bufs[j] == Rest(list[j])
    ensures Bytes(list) == Flat(bufs) + Bytes(list[|bufs|..])
    decreases |bufs|
  {
    if bufs != [] {
      BytesOfBuffers(list[1..], bufs[1..]);
      assert list[1..][|bufs[1..]|..] == list[|bufs|..];
      Assoc(bufs[0], Flat(bufs[1..]), Bytes(list[|bufs|..]));
    } else {
      assert list[0..] == list;
    }
  }

  /** A message that has timed out and of which nothing was sent. */
  predicate Expired(m: Msg, late: set<nat>) { m.id in late && !m.half }

  datatype Reply = Queued | Success | Shutdown | Overflow

  datatype Write = Failed | Wrote(n: nat)

  /** What one turn of the loop meets: new messages, timeouts found, and the socket's answers. */
  datatype Round = Round(arrivals: seq<seq<Byte>>, latePull: set<nat>, lateScan: set<nat>, closed: bool, write: Write)

  datatype End = Closed | WriteError | Running

  class Session {
    var chan: seq<Msg>
    var list: seq<Msg>
    ghost var accepted: seq<Msg>
    ghost var done: seq<Msg>
    ghost var dropped: seq<nat>
    ghost var wire: seq<Byte>
    var nextId: nat

    ghost function View(): Sess
      reads this
    {
      Sess(accepted, done, dropped, list, chan, wire)
    }

    ghost predicate Valid()
      reads this
    {
      Ok(View()) && nextId == |accepted|
    }

    constructor ()
      ensures Valid() && View() == Sess([], [], [], [], [], [])
    {
      chan, list, accepted, done, dropped, wire, nextId := [], [], [], [], [], [], 0;
    }

    /** `estab`: shutdown_ref_ is still 2; `room`: TryPush succeeds. */
    method Send(buf: seq<Byte>, estab: bool, room: bool) returns (reply: Reply)
      requires Valid()
      modifies this
      ensures Valid() && done == old(done) && dropped == old(dropped) && list == old(list) && wire == old(wire)
      ensures reply == if !estab then Shutdown else if buf == [] then Success else if !room then Overflow else Queued
      ensures reply.Queued? ==> (var m := Msg(|old(accepted)|, buf, 0, false);
                                 accepted == old(accepted) + [m] && chan == old(chan) + [m])
      ensures !reply.Queued? ==> View() == old(View())
    {
      if !estab { return Shutdown; }
      if buf == [] { return Success; }
      var msg := Msg(nextId, buf, 0, false);
      if !room { return Overflow; }
      AcceptKeeps(View(), msg);
      accepted := accepted + [msg];
      nextId := nextId + 1;
      chan := chan + [msg];
      return Queued;
    }

    /** Up to MULTI messages leave the channel; those found timed out are told so, the others queue up. */
    method Pull(late: set<nat>)
      requires Valid()
      modifies `chan, `list, `dropped
      ensures Valid()
      ensures exists k :: 0 <= k <= |old(chan)| && Pulled(old(View()), View(), k, late)
                          && (k == MULTI || (k < MULTI && chan == []))
    {
      var i := 0;
      ghost var s0, s := View(), View();
      while i < MULTI
        invariant 0 <= i <= MULTI && i <= |s0.chan| && chan == s.chan && list == s.list
        invariant Ok(s) && s == s0.(chan := s.chan, list := s.list, dropped := s.dropped) && Pulled(s0, s, i, late)
      {
        if chan == [] { break; }
        var msg := chan[0];
        PulledStep(s0, s, i, late);
        if msg.id in late {
          ExpireKeeps(s);
          s := s.(chan := s.chan[1..], dropped := s.dropped + [msg.id]);
          chan := chan[1..];
        } else {
          PullKeeps(s);
          s := s.(chan := s.chan[1..], list := s.list + [msg]);
          chan := chan[1..];
          list := list + [msg];
        }
        i := i + 1;
      }
      dropped := s.dropped;
      assert View() == s;
    }

    /**
      Messages that timed out before anything of them was sent are dropped, as far as the scan
      gets; what is left of the next MULTI others is gathered for one write.
    */
    method MakeBuffers(late: set<nat>) returns (bufs: seq<seq<Byte>>)
      requires Valid()
      modifies `list, `dropped
      ensures Scanned(old(View()), View(), bufs, late)
      ensures |bufs| == (if |list| < MULTI then |list| else MULTI) && (|list| > MULTI ==> !Expired(list[MULTI], late))
    {
      ghost var s;
      bufs, s := Scan(late, View());
      dropped := s.dropped;
      assert View() == s;
    }

    /** One turn of the loop: the message is dropped from the list, or its rest joins the buffers. */
    method ScanOne(bufs: seq<seq<Byte>>, late: set<nat>, ghost s0: Sess, ghost s: Sess) returns (more: seq<seq<Byte>>, ghost s': Sess)
      requires list == s.list && Scanned(s0, s, bufs, late) && |bufs| < |list|
      modifies `list
      ensures list == s'.list && Scanned(s0, s', more, late) && |list| - |more| < old(|list|) - |bufs|
      ensures |more| == |bufs| + One(!Expired(old(list[|bufs|]), late))
    {
      var msg := list[|bufs|];
      if Expired(msg, late) {
        s' := ScanDrops(s0, s, bufs, late);
        more := bufs;
        list := list[..|bufs|] + list[|bufs| + 1..];
      } else {
        ghost var taken := ScanTakes(s0, s, bufs, late);
        s', more := s, bufs + [Rest(msg)];
        assert more == taken;
      }
    }

    /** The loop of the scan, erasing from the list as it goes. */
    method Scan(late: set<nat>, ghost s0: Sess) returns (bufs: seq<seq<Byte>>, ghost s: Sess)
      requires Ok(s0) && list == s0.list
      modifies `list
      ensures list == s.list && Scanned(s0, s, bufs, late)
      ensures |bufs| == (if |list| < MULTI then |list| else MULTI) && (|list| > MULTI ==> !Expired(list[MULTI], late))
    {
      bufs, s := [], s0;
      ScanStarts(s0, late);
      while |bufs| < |list| && (Expired(list[|bufs|], late) || |bufs| < MULTI)
        invariant list == s.list && |bufs| <= MULTI && Scanned(s0, s, bufs, late)
        decreases |list| - |bufs|
      {
        bufs, s := ScanOne(bufs, late, s0, s);
      }
    }

    /** write_some has taken `n` bytes of the buffers; sent messages leave, a cut one stays in front. */
    method Sent(bufs: seq<seq<Byte>>, n: nat)
      requires Valid() && Matches(bufs, list) && n <= |Flat(bufs)|
      modifies `list, `done, `wire
      ensures Valid() && wire == old(wire) + Flat(bufs)[..n] && old(done) <= done
    {
      BytesOfBuffers(list, bufs);
      ghost var total, s0, s := wire + Flat(bufs)[..n], View(), View();
      var left := n;
      while list != [] && left > 0
        invariant list == s.list && Sending(s0, s, left, total)
        decreases left, |list|
      {
        var msg := list[0];
        var capa := |Rest(msg)|;
        if capa <= left {
          SendingFinish(s0, s, left, total);
          s := s.(list := s.list[1..], done := s.done + [Fresh(msg)], wire := s.wire + Rest(msg));
          list := list[1..];
          left := left - capa;
        } else {
          SendingPart(s0, s, left, total);
          s := s.(list := s.list[0 := Advanced(msg, left)], wire := s.wire + Rest(msg)[..left]);
          list := list[0 := Advanced(msg, left)];
          left := 0;
          break;
        }
      }
      AllSent(s0, s, left, total);
      done, wire := s.done, s.wire;
      assert View() == s;
    }

    /**
      One turn of the sending coroutine: `offered` is what was handed to write_some, `written` what
      the socket took of it.  The turn ends the coroutine exactly when the session was closed, or when
      something was offered and the write failed; nothing is offered only if nothing is left to send.
    */
    method SendOnce(turn: Round) returns (end: End, ghost offered: seq<seq<Byte>>, ghost written: seq<Byte>)
      requires Valid()
      modifies this
      ensures Valid() && old(done) <= done && accepted == old(accepted) + Messages(|old(accepted)|, turn.arrivals)
      ensures end == if turn.closed then Closed else if offered != [] && turn.write.Failed? then WriteError else Running
      ensures written == if end.Running? && offered != [] then Took(Flat(offered), turn.write.n) else []
      ensures wire == old(wire) + written
      ensures !turn.closed && offered == [] ==> list == []
    {
      offered, written, end := [], [], Running;
      Arrive(turn.arrivals);
      if turn.closed { end := Closed; return; }
      var bufs := Prepare(turn.latePull, turn.lateScan);
      offered := bufs;
      if bufs == [] { return; }
      if turn.write.Failed? { end := WriteError; return; }
      written := WriteSome(bufs, turn.write.n);
    }

    /** Up to the write: what is to be sent in this turn. */
    method Prepare(latePull: set<nat>, lateScan: set<nat>) returns (bufs: seq<seq<Byte>>)
      requires Valid()
      modifies `chan, `list, `dropped
      ensures Valid() && Matches(bufs, list) && (bufs == [] ==> list == [])
    {
      Pull(latePull);
      if list == [] { return []; }
      bufs := MakeBuffers(lateScan);
    }

    /** write_some takes what the socket can, and the books are brought up to date. */
    method WriteSome(bufs: seq<seq<Byte>>, can: nat) returns (ghost written: seq<Byte>)
      requires Valid() && Matches(bufs, list)
      modifies `list, `done, `wire
      ensures Valid() && old(done) <= done && written == Took(Flat(bufs), can) && wire == old(wire) + written
    {
      var total := |Flat(bufs)|;
      written := Took(Flat(bufs), can);
      Sent(bufs, if can < total then can else total);
    }

    /**
      The sending coroutine, for any number of turns and whatever it meets in them: only whole
      messages go out, in order, except that the last may have gone out in part, and the wire has
      exactly what the socket took, turn by turn.
    */
    method GoSend(env: seq<Round>) returns (end: End, ghost turns: nat, ghost written: seq<Byte>)
      requires Valid()
      modifies this
      ensures Valid() && wire == old(wire) + written && old(done) <= done && old(accepted) <= accepted
      ensures turns <= |env| && (forall r :: 0 <= r < turns ==> !env[r].closed)
      ensures if end.Running? then turns == |env|
              else turns < |env| && (end.Closed? <==> env[turns].closed) && (end.WriteError? ==> env[turns].write.Failed?)
    {
      end, turns, written := Running, 0, [];
      var r := 0;
      while r < |env|
        invariant 0 <= r == turns <= |env| && end.Running? && (forall j :: 0 <= j < r ==> !env[j].closed)
        invariant Valid() && wire == old(wire) + written && old(done) <= done && old(accepted) <= accepted
      {
        ghost var offered, more;
        end, offered, more := SendOnce(env[r]);
        Assoc(old(wire), written, more);
        written := written + more;
        if !end.Running? { return; }
        r, turns := r + 1, turns + 1;
      }
    }

    method Arrive(arrivals: seq<seq<Byte>>)
      requires Valid()
      modifies this
      ensures Valid() && accepted == old(accepted) + Messages(|old(accepted)|, arrivals)
      ensures done == old(done) && dropped == old(dropped) && list == old(list) && wire == old(wire)
    {
      ghost var first, before, made: seq<Msg> := |accepted|, accepted, [];
      for i := 0 to |arrivals|
        invariant Valid() && accepted == before + made && made == Messages(first, arrivals[..i])
        invariant done == old(done) && dropped == old(dropped) && list == old(list) && wire == old(wire)
      {
        ghost var next := Messages(first, arrivals[..i + 1]);
        MessagesMore(first, arrivals, i);
        ghost var msg := Msg(first + |made|, arrivals[i], 0, false);
        Assoc(before, made, [msg]);
        var reply := Send(arrivals[i], true, true);
        made := next;
      }
      assert arrivals[..|arrivals|] == arrivals;
    }
  }

  /** The buffers are what is left of the first messages of the list. */
  predicate Matches(bufs: seq<seq<Byte>>, list: seq<Msg>)
  {
    |bufs| <= |list| && forall j :: 0 <= j < |bufs| ==> bufs[j] == Rest(list[j])
  }

  /** What a socket that can take `n` bytes takes. */
  function Took(bytes: seq<Byte>, n: nat): seq<Byte> { if n < |bytes| then bytes[..n] else bytes }

  /** The messages made of what arrives, numbered on from `first`; an empty buffer makes none. */
  function Messages(first: nat, arrivals: seq<seq<Byte>>): seq<Msg>
  {
    if arrivals == [] then []
    else
      var before := Messages(first, arrivals[..|arrivals| - 1]);
      if arrivals[|arrivals| - 1] == [] then before
      else before + [Msg(first + |before|, arrivals[|arrivals| - 1], 0, false)]
  }

  lemma MessagesMore(first: nat, arrivals: seq<seq<Byte>>, i: nat)
    requires i < |arrivals|
    ensures var before := Messages(first, arrivals[..i]);
            Messages(first, arrivals[..i + 1]) ==
              if arrivals[i] == [] then before else before + [Msg(first + |before|, arrivals[i], 0, false)]
  {
    assert arrivals[..i + 1][..i] == arrivals[..i];
  }

  /** `left` more bytes of the list are on the wire than the list knows of. */
  ghost predicate Owing(s: Sess, left: int, total: seq<Byte>)
  {
    0 <= left <= |Bytes(s.list)| && s.wire + Bytes(s.list)[..left] == total
  }

  /** The session while a write is being accounted for. */
  ghost predicate Sending(s0: Sess, s: Sess, left: int, total: seq<Byte>)
  {
    Ok(s) && Owing(s, left, total) && s == s0.(list := s.list, done := s.done, wire := s.wire) && s0.done <= s.done
  }

  lemma SendingFinish(s0: Sess, s: Sess, left: int, total: seq<Byte>)
    requires Sending(s0, s, left, total) && s.list != [] && |Rest(s.list[0])| <= left
    ensures Sending(s0, s.(list := s.list[1..], done := s.done + [Fresh(s.list[0])], wire := s.wire + Rest(s.list[0])),
                    left - |Rest(s.list[0])|, total)
  {
    FinishKeeps(s);
    FinishOwing(s, left, total);
  }

  lemma SendingPart(s0: Sess, s: Sess, left: int, total: seq<Byte>)
    requires Sending(s0, s, left, total) && s.list != [] && 0 < left < |Rest(s.list[0])|
    ensures Sending(s0, s.(list := s.list[0 := Advanced(s.list[0], left)], wire := s.wire + Rest(s.list[0])[..left]), 0, total)
  {
    PartKeeps(s, left);
    PartOwing(s, left, total);
    var s' := s.(list := s.list[0 := Advanced(s.list[0], left)], wire := s.wire + Rest(s.list[0])[..left]);
    assert Bytes(s'.list)[..0] == [] && s'.wire + [] == s'.wire;
  }

  lemma AllSent(s0: Sess, s: Sess, left: int, total: seq<Byte>)
    requires Sending(s0, s, left, total) && (s.list == [] || left <= 0)
    ensures s.wire == total
  {
    assert s.wire + [] == s.wire;
  }

  lemma FinishOwing(s: Sess, left: int, total: seq<Byte>)
    requires s.list != [] && Owing(s, left, total) && |Rest(s.list[0])| <= left
    ensures Owing(s.(list := s.list[1..], done := s.done + [Fresh(s.list[0])], wire := s.wire + Rest(s.list[0])),
                  left - |Rest(s.list[0])|, total)
  {
    var a, b := Rest(s.list[0]), Bytes(s.list[1..]);
    assert (a + b)[..left] == a + b[..left - |a|];
    Assoc(s.wire, a, b[..left - |a|]);
  }

  lemma PartOwing(s: Sess, left: int, total: seq<Byte>)
    requires s.list != [] && Owing(s, left, total) && left < |Rest(s.list[0])|
    ensures s.wire + Rest(s.list[0])[..left] == total
  {
    var a, b := Rest(s.list[0]), Bytes(s.list[1..]);
    assert (a + b)[..left] == a[..left];
  }

  /**
    The scan has gathered what is left of the first messages of the list, none of them timed out
    with nothing sent; the messages it dropped were; the messages behind are untouched.
  */
  ghost predicate Scanned(s: Sess, s': Sess, bufs: seq<seq<Byte>>, late: set<nat>)
  {
    && Ok(s') && s' == s.(list := s'.list, dropped := s'.dropped)
    && |bufs| <= |s'.list| && (forall j :: 0 <= j < |bufs| ==> bufs[j] == Rest(s'.list[j]) && !Expired(s'.list[j], late))
    && DropsOnlyExpired(s, s', late) && SameTail(s.list, s'.list, |s'.list| - |bufs|)
  }

  lemma ScanStarts(s: Sess, late: set<nat>)
    requires Ok(s)
    ensures Scanned(s, s, [], late)
  {
  }

  lemma ScanDrops(s: Sess, s': Sess, bufs: seq<seq<Byte>>, late: set<nat>) returns (s'': Sess)
    requires Scanned(s, s', bufs, late) && |bufs| < |s'.list| && Expired(s'.list[|bufs|], late)
    ensures s''.list == s'.list[..|bufs|] + s'.list[|bufs| + 1..] && s'' == s'.(list := s''.list, dropped := s''.dropped)
    ensures Scanned(s, s'', bufs, late)
  {
    var i := |bufs|;
    var list := s'.list[..i] + s'.list[i + 1..];
    DropKeeps(s', i);
    DropStep(s, s', late, i);
    TailDrop(s.list, s'.list, i);
    assert |list| == |s'.list| - 1 && forall j :: 0 <= j < i ==> list[j] == s'.list[j];
    s'' := s'.(list := list, dropped := s'.dropped + [s'.list[i].id]);
  }

  lemma ScanTakes(s: Sess, s': Sess, bufs: seq<seq<Byte>>, late: set<nat>) returns (more: seq<seq<Byte>>)
    requires Scanned(s, s', bufs, late) && |bufs| < |s'.list| && !Expired(s'.list[|bufs|], late)
    ensures more == bufs + [Rest(s'.list[|bufs|])] && Scanned(s, s', more, late)
  {
    TailDrop(s.list, s'.list, |bufs|);
    more := bufs + [Rest(s'.list[|bufs|])];
  }

  /** The two lists end in the same `k` messages. */
  predicate SameTail(a: seq<Msg>, b: seq<Msg>, k: int) { 0 <= k <= |a| && k <= |b| && a[|a| - k..] == b[|b| - k..] }

  lemma TailDrop(a: seq<Msg>, b: seq<Msg>, i: nat)
    requires i < |b| && SameTail(a, b, |b| - i)
    ensures SameTail(a, b[..i] + b[i + 1..], |b| - i - 1)
    ensures i + 1 <= |b| && SameTail(a, b, |b| - i - 1)
  {
    var k := |b| - i;
    assert a[|a| - k..][1..] == a[|a| - (k - 1)..];
    assert b[i..][1..] == b[i + 1..] == (b[..i] + b[i + 1..])[i..];
  }

  /** Dropped since then: only messages of the list that had timed out with nothing sent. */
  ghost predicate DropsOnlyExpired(s: Sess, s': Sess, late: set<nat>)
  {
    && s.dropped <= s'.dropped
    && (forall j :: DropOk(s, s', late, j))
    && (forall m :: StillFrom(s, s', m))
  }

  ghost predicate DropOk(s: Sess, s': Sess, late: set<nat>, j: int)
  {
    |s.dropped| <= j < |s'.dropped| ==> exists m :: m in s.list && m.id == s'.dropped[j] && Expired(m, late)
  }

  predicate StillFrom(s: Sess, s': Sess, m: Msg) { m in s'.list ==> m in s.list }

  lemma DropStep(s: Sess, s': Sess, late: set<nat>, i: nat)
    requires DropsOnlyExpired(s, s', late) && i < |s'.list| && Expired(s'.list[i], late)
    ensures DropsOnlyExpired(s, s'.(list := s'.list[..i] + s'.list[i + 1..], dropped := s'.dropped + [s'.list[i].id]), late)
  {
    var s'' := s'.(list := s'.list[..i] + s'.list[i + 1..], dropped := s'.dropped + [s'.list[i].id]);
    assert s'.list[i] in s'.list && StillFrom(s, s', s'.list[i]);
    forall j ensures DropOk(s, s'', late, j) { assert DropOk(s, s', late, j); }
    forall m ensures StillFrom(s, s'', m) { assert StillFrom(s, s', m); }
  }

  /** The first `k` messages of the channel were pulled: the late ones dropped, the others queued. */
  ghost predicate Pulled(s: Sess, s': Sess, k: nat, late: set<nat>)
  {
    && k <= |s.chan| && s'.chan == s.chan[k..]
    && s'.list == s.list + OnTime(s.chan[..k], late) && s'.dropped == s.dropped + Late(s.chan[..k], late)
  }

  function OnTime(ms: seq<Msg>, late: set<nat>): seq<Msg>
  {
    if ms == [] then []
    else OnTime(ms[..|ms| - 1], late) + if ms[|ms| - 1].id in late then [] else [ms[|ms| - 1]]
  }

  function Late(ms: seq<Msg>, late: set<nat>): seq<nat>
  {
    if ms == [] then []
    else Late(ms[..|ms| - 1], late) + if ms[|ms| - 1].id in late then [ms[|ms| - 1].id] else []
  }

  lemma PulledStep(s: Sess, s': Sess, k: nat, late: set<nat>)
    requires Pulled(s, s', k, late) && s'.chan != []
    ensures var m := s'.chan[0];
            Pulled(s, s'.(chan := s'.chan[1..], list := s'.list + (if m.id in late then [] else [m]),
                          dropped := s'.dropped + if m.id in late then [m.id] else []), k + 1, late)
  {
    var m := s'.chan[0];
    assert s.chan[..k + 1][..k] == s.chan[..k] && s.chan[k] == m;
    Assoc(s.list, OnTime(s.chan[..k], late), if m.id in late then [] else [m]);
    Assoc(s.dropped, Late(s.chan[..k], late), if m.id in late then [m.id] else []);
  }
}
