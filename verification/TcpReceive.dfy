/** The receiving side of a TCP session: a fixed buffer between the socket and the callback. */
module TcpReceive {

  import opened TcpSend

  /** The callback's answer: bytes it is done with, or a parse error. */
  datatype Answer = Took(k: nat) | BadData

  /** One turn of the loop: the read fails, or brings some bytes, which the callback answers. */
  datatype Turn = ReadError | Data(bytes: seq<Byte>, answer: Answer)

  datatype Stop = Broken | BufferFull | ParseError | CallbackAssert | Waiting

  /** A call of the callback: what it was shown and answered, with what had been read and taken by then. */
  datatype Call = Call(bytes: seq<Byte>, answer: Answer, read: seq<Byte>, taken: seq<Byte>)

  /** The callback sees exactly the bytes read that no earlier call has taken. */
  predicate Faithful(c: Call, stream: seq<Byte>, taken: seq<Byte>) { c.read == c.taken + c.bytes && c.read <= stream && c.taken <= taken }

  predicate Accepted(c: Call) { c.answer.Took? && c.answer.k <= |c.bytes| }

  /** What has been taken after a call: as many bytes of those shown as it said, or none if it failed. */
  function TakenAfter(c: Call): seq<Byte> { if Accepted(c) then c.taken + c.bytes[..c.answer.k] else c.taken }

  /** The next call comes after an accepted one, with what that took away and something new. */
  predicate Follows(c: Call, d: Call) { Accepted(c) && d.taken == TakenAfter(c) && |c.read| < |d.read| }

  ghost predicate Fit(calls: seq<Call>, stream: seq<Byte>, taken: seq<Byte>)
  {
    forall j :: 0 <= j < |calls| ==> Faithful(calls[j], stream, taken)
  }

  /** Each call takes up where the one before it left off, and `taken` is what the last one left. */
  ghost predicate Chain(calls: seq<Call>, taken: seq<Byte>)
  {
    && (forall j :: 0 <= j < |calls| - 1 ==> Follows(calls[j], calls[j + 1]))
    && taken == if calls == [] then [] else TakenAfter(calls[|calls| - 1])
  }

  lemma FitGrows(calls: seq<Call>, stream: seq<Byte>, taken: seq<Byte>, stream': seq<Byte>, taken': seq<Byte>)
    requires Fit(calls, stream, taken) && stream <= stream' && taken <= taken'
    ensures Fit(calls, stream', taken')
  {
    forall j | 0 <= j < |calls| ensures Faithful(calls[j], stream', taken') { assert Faithful(calls[j], stream, taken); }
  }

  lemma TakenWithin(c: Call)
    requires c.read == c.taken + c.bytes
    ensures c.taken <= TakenAfter(c) <= c.read
  {
  }

  lemma RestIsLeft(c: Call)
    requires c.read == c.taken + c.bytes && Accepted(c)
    ensures c.read == TakenAfter(c) + c.bytes[c.answer.k..]
  {
    assert c.bytes == c.bytes[..c.answer.k] + c.bytes[c.answer.k..];
    Join(c.taken, c.bytes[..c.answer.k], c.bytes[c.answer.k..]);
  }

  lemma FitMore(calls: seq<Call>, call: Call, stream: seq<Byte>, taken: seq<Byte>)
    requires Fit(calls, stream, taken) && Faithful(call, stream, taken)
    ensures Fit(calls + [call], stream, taken)
  {
  }

  lemma ChainMore(calls: seq<Call>, call: Call, taken: seq<Byte>)
    requires Chain(calls, taken) && (calls != [] ==> Follows(calls[|calls| - 1], call))
    ensures Chain(calls + [call], TakenAfter(call))
  {
    var more := calls + [call];
    forall j | 0 <= j < |more| - 1 ensures Follows(more[j], more[j + 1]) {
      if j < |calls| - 1 { assert Follows(calls[j], calls[j + 1]); }
    }
  }

  /** One more call, which sees what has not been taken and something new. */
  lemma OneMoreCall(calls: seq<Call>, call: Call, stream: seq<Byte>, taken: seq<Byte>)
    requires Fit(calls, stream, taken) && Chain(calls, taken) && call.taken == taken && call.read == stream == taken + call.bytes
    requires calls != [] ==> Accepted(calls[|calls| - 1]) && |calls[|calls| - 1].read| < |stream|
    ensures Fit(calls + [call], stream, TakenAfter(call)) && Chain(calls + [call], TakenAfter(call))
    ensures taken <= TakenAfter(call) <= stream
  {
    TakenWithin(call);
    FitGrows(calls, stream, taken, stream, TakenAfter(call));
    FitMore(calls, call, stream, TakenAfter(call));
    ChainMore(calls, call, taken);
  }

  // ---------------------------------------------------------------- the reference, without a buffer

  datatype Shown = Shown(bytes: seq<Byte>, answer: Answer)

  /** The calls made, what is left unanswered, and how the coroutine ended. */
  datatype Service = Service(calls: seq<Shown>, left: seq<Byte>, end: Stop)

  /** At most `room` bytes of what the socket has. */
  function Fits(bytes: seq<Byte>, room: nat): seq<Byte> { if |bytes| < room then bytes else bytes[..room] }

  /** With `now` in the buffer, of which something is new or not. */
  function Passed(now: seq<Byte>, news: bool, answer: Answer, callback: bool): Service
  {
    if !news || !callback then Service([], now, Waiting)
    else if answer.BadData? then Service([Shown(now, answer)], now, ParseError)
    else if answer.k > |now| then Service([Shown(now, answer)], now, CallbackAssert)
    else Service([Shown(now, answer)], now[answer.k..], Waiting)
  }

  /** One turn of a session with a buffer of `cap` bytes and `left` in it; Waiting means that it goes on. */
  function ServeTurn(left: seq<Byte>, cap: nat, turn: Turn, callback: bool): Service
  {
    if |left| >= cap then Service([], left, BufferFull)
    else if turn.ReadError? then Service([], left, Broken)
    else
      var more := Fits(turn.bytes, cap - |left|);
      Passed(left + more, more != [], turn.answer, callback)
  }

  /** The coroutine can go on from here, or has stopped with its buffer intact. */
  predicate Intact(end: Stop) { end.Waiting? || end.BufferFull? || end.Broken? }

  function Preceded(calls: seq<Shown>, rest: Service): Service { rest.(calls := calls + rest.calls) }

  /** The same for a sequence of turns. */
  function Serve(left: seq<Byte>, cap: nat, env: seq<Turn>, callback: bool): Service
    decreases |env|
  {
    if env == [] then Service([], left, Waiting)
    else
      var t := ServeTurn(left, cap, env[0], callback);
      if t.end.Waiting? then Preceded(t.calls, Serve(t.left, cap, env[1..], callback)) else t
  }

  /** The recorded calls are those of the reference. */
  ghost predicate Answers(calls: seq<Call>, shown: seq<Shown>)
  {
    |calls| == |shown| && forall j :: 0 <= j < |calls| ==> Shown(calls[j].bytes, calls[j].answer) == shown[j]
  }

  lemma AnswersMore(a: seq<Call>, b: seq<Call>, x: seq<Shown>, y: seq<Shown>)
    requires Answers(a, x) && Answers(b, y)
    ensures Answers(a + b, x + y)
  {
  }

  lemma PrecededTwice(a: seq<Shown>, b: seq<Shown>, o: Service)
    ensures Preceded(a, Preceded(b, o)) == Preceded(a + b, o)
  {
    assert a + (b + o.calls) == a + b + o.calls;
  }

  /** After `i` turns the reference has made the calls `shown` and has `now` in hand. */
  ghost predicate OnTrack(left: seq<Byte>, cap: nat, env: seq<Turn>, callback: bool, i: nat, shown: seq<Shown>, now: seq<Byte>)
  {
    i <= |env| && Serve(left, cap, env, callback) == Preceded(shown, Serve(now, cap, env[i..], callback))
  }

  lemma OnTrackStarts(left: seq<Byte>, cap: nat, env: seq<Turn>, callback: bool)
    ensures OnTrack(left, cap, env, callback, 0, [], left)
  {
    assert env[0..] == env;
    assert [] + Serve(left, cap, env, callback).calls == Serve(left, cap, env, callback).calls;
  }

  lemma OnTrackStep(left: seq<Byte>, cap: nat, env: seq<Turn>, callback: bool, i: nat, shown: seq<Shown>, now: seq<Byte>)
    requires OnTrack(left, cap, env, callback, i, shown, now) && i < |env|
    ensures var t := ServeTurn(now, cap, env[i], callback);
            if t.end.Waiting? then OnTrack(left, cap, env, callback, i + 1, shown + t.calls, t.left)
            else Serve(left, cap, env, callback) == Service(shown + t.calls, t.left, t.end)
  {
    var t := ServeTurn(now, cap, env[i], callback);
    assert env[i..][0] == env[i] && env[i..][1..] == env[i + 1..];
    PrecededTwice(shown, t.calls, Serve(t.left, cap, env[i + 1..], callback));
  }

  /** Every turn makes one call at most, and a call sees what the one before it left, and something new. */
  lemma {:induction false} ServedInTurn(left: seq<Byte>, cap: nat, env: seq<Turn>, callback: bool)
    ensures var o := Serve(left, cap, env, callback);
            && |o.calls| <= |env|
            && (!callback ==> o.calls == [])
            && (o.calls != [] ==> left < o.calls[0].bytes)
            && (forall j :: 0 <= j < |o.calls| - 1 ==> Resumes(o.calls[j], o.calls[j + 1]))
    decreases |env|
  {
    if env != [] {
      var t := ServeTurn(left, cap, env[0], callback);
      if t.end.Waiting? { ServedInTurn(t.left, cap, env[1..], callback); }
    }
  }

  predicate Resumes(c: Shown, d: Shown)
  {
    c.answer.Took? && c.answer.k <= |c.bytes| && c.bytes[c.answer.k..] < d.bytes
  }

  lemma JoinCalls(a: seq<Call>, b: seq<Call>, c: seq<Call>)
    ensures a + b + c == a + (b + c)
  {
  }

  lemma Join(a: seq<Byte>, b: seq<Byte>, c: seq<Byte>)
    ensures a + (b + c) == a + b + c
  {
  }

  /** The first `n` bytes go behind what is in the buffer. */
  method Fill(buf: array<Byte>, pos: nat, bytes: seq<Byte>, n: nat)
    requires n <= |bytes| && pos + n <= buf.Length
    modifies buf
    ensures buf[..pos + n] == old(buf[..pos]) + bytes[..n]
  {
    for i := 0 to n
      invariant buf[..pos + i] == old(buf[..pos]) + bytes[..i]
    {
      buf[pos + i] := bytes[i];
      assert buf[..pos + i + 1] == buf[..pos + i] + [bytes[i]] && bytes[..i + 1] == bytes[..i] + [bytes[i]];
    }
  }

  /** `memcpy` to the front of the buffer, as a move. */
  method MoveDown(buf: array<Byte>, k: nat, count: nat)
    requires k + count <= buf.Length
    modifies buf
    ensures buf[..count] == old(buf[k..k + count])
  {
    for i := 0 to count
      invariant forall j :: 0 <= j < i ==> buf[j] == old(buf[k + j])
      invariant forall j :: i <= j < buf.Length ==> buf[j] == old(buf[j])
    {
      buf[i] := buf[k + i];
    }
  }

  class Receiver {
    const buf: array<Byte>
    var pos: nat
    ghost var stream: seq<Byte>        // everything read from the socket
    ghost var taken: seq<Byte>         // everything the callback is done with
    ghost var calls: seq<Call>

    ghost predicate Valid()
      reads this, buf
    {
      pos <= buf.Length && stream == taken + buf[..pos] && CallsOk() && History() && (calls != [] ==> Accepted(calls[|calls| - 1]))
    }

    ghost predicate CallsOk()
      reads `calls, `stream, `taken
    {
      Fit(calls, stream, taken)
    }

    ghost predicate History()
      reads `calls, `taken
    {
      Chain(calls, taken)
    }

    constructor (maxPackSize: nat)
      ensures Valid() && fresh(buf) && buf.Length == maxPackSize && stream == [] && taken == [] && calls == []
    {
      buf := new Byte[maxPackSize](_ => 0);
      pos, stream, taken, calls := 0, [], [], [];
    }

    /** `read_some`: at most what the buffer has room for. */
    method Read(bytes: seq<Byte>) returns (n: nat)
      requires Valid() && pos < buf.Length
      modifies buf, `stream
      ensures n == |Fits(bytes, buf.Length - pos)| && buf[..pos + n] == old(buf[..pos]) + Fits(bytes, buf.Length - pos)
      ensures stream == old(stream) + Fits(bytes, buf.Length - pos) == taken + buf[..pos + n] && CallsOk()
    {
      ghost var left, more := buf[..pos], Fits(bytes, buf.Length - pos);
      n := if |bytes| < buf.Length - pos then |bytes| else buf.Length - pos;
      Fill(buf, pos, bytes, n);
      assert bytes[..n] == more;
      Join(taken, left, more);
      FitGrows(calls, stream, taken, stream + more, taken);
      stream := stream + more;
    }

    /** What the callback left moves to the front. */
    method Shift(total: nat, k: nat)
      requires k <= total <= buf.Length
      modifies buf, `pos
      ensures pos == total - k && buf[..pos] == old(buf[..total])[k..]
    {
      assert buf[k..total] == buf[..total][k..];
      MoveDown(buf, k, total - k);
      pos := total - k;
    }

    /** All that is in the buffer, after a read, is bytes the callback has not taken. */
    ghost predicate Filled(n: nat)
      reads this, buf
    {
      && pos + n <= buf.Length && stream == taken + buf[..pos + n] && CallsOk() && History()
      && (calls != [] ==> Accepted(calls[|calls| - 1]) && (n > 0 ==> |calls[|calls| - 1].read| < |stream|))
    }

    /** The books of a call. */
    ghost method Record(n: nat, answer: Answer) returns (call: Call)
      requires 0 < n && Filled(n)
      modifies `taken, `calls
      ensures CallsOk() && History() && old(taken) <= taken <= stream && calls == old(calls) + [call]
      ensures call.bytes == buf[..pos + n] && call.answer == answer
      ensures calls[|calls| - 1] == call && (Accepted(call) ==> stream == taken + buf[..pos + n][answer.k..])
    {
      call := Call(buf[..pos + n], answer, stream, taken);
      OneMoreCall(calls, call, stream, taken);
      if Accepted(call) { RestIsLeft(call); }
      calls, taken := calls + [call], TakenAfter(call);
    }

    /** The callback is shown everything in the buffer, and what it leaves moves to the front. */
    method Show(n: nat, answer: Answer) returns (end: Stop, ghost call: Call)
      requires 0 < n && Filled(n)
      modifies buf, `pos, `taken, `calls
      ensures CallsOk() && History() && old(taken) <= taken <= stream && calls == old(calls) + [call]
      ensures var o := Passed(old(buf[..pos + n]), true, answer, true);
              && end == o.end && [Shown(call.bytes, call.answer)] == o.calls
              && (end.Waiting? ==> Valid() && buf[..pos] == o.left)
    {
      ghost var shown := buf[..pos + n];
      call := Record(n, answer);
      if answer.BadData? { end := ParseError; return; }
      if answer.k > pos + n { end := CallbackAssert; return; }
      Shift(pos + n, answer.k);
      assert buf[..pos] == shown[answer.k..];
      end := Waiting;
    }

    /** Without a callback everything stays in the buffer. */
    method Keep(n: nat)
      requires Filled(n)
      modifies `pos
      ensures Valid() && pos == old(pos) + n
    {
      pos := pos + n;
    }

    /** What was read goes to the callback, if there is one and something was read. */
    method Pass(n: nat, answer: Answer, callback: bool) returns (end: Stop, ghost made: seq<Call>)
      requires Filled(n)
      modifies buf, `pos, `taken, `calls
      ensures CallsOk() && History() && old(taken) <= taken <= stream && calls == old(calls) + made
      ensures var o := Passed(old(buf[..pos + n]), n > 0, answer, callback);
              && end == o.end && Answers(made, o.calls) && (Intact(end) ==> Valid() && buf[..pos] == o.left)
    {
      made, end := [], Waiting;
      if n > 0 && callback {
        ghost var call;
        end, call := Show(n, answer);
        made := [call];
      } else {
        Keep(n);
      }
    }

    /** One turn of the loop, and the calls it made. */
    method ReceiveOnce(turn: Turn, callback: bool) returns (end: Stop, ghost made: seq<Call>)
      requires Valid()
      modifies this, buf
      ensures CallsOk() && History() && old(stream) <= stream && old(taken) <= taken <= stream && calls == old(calls) + made
      ensures var o := ServeTurn(old(buf[..pos]), buf.Length, turn, callback);
              && end == o.end && Answers(made, o.calls) && (Intact(end) ==> Valid() && buf[..pos] == o.left)
    {
      made := [];
      if pos >= buf.Length { end := BufferFull; return; }
      if turn.ReadError? { end := Broken; return; }
      ghost var left := buf[..pos];
      var n := ReadIn(turn.bytes);
      assert ServeTurn(left, buf.Length, turn, callback) == Passed(buf[..pos + n], n > 0, turn.answer, callback);
      end, made := Pass(n, turn.answer, callback);
    }

    method ReadIn(bytes: seq<Byte>) returns (n: nat)
      requires Valid() && pos < buf.Length
      modifies buf, `stream
      ensures Filled(n) && old(stream) <= stream
      ensures n == |Fits(bytes, buf.Length - pos)| && buf[..pos + n] == old(buf[..pos]) + Fits(bytes, buf.Length - pos)
    {
      ghost var before := stream;
      n := Read(bytes);
      if calls != [] { assert Faithful(calls[|calls| - 1], before, taken); }
    }

    /**
      The receiving coroutine.  It does what the reference does, on a fixed buffer; and whatever it
      reads and whatever the callback takes, each call shows exactly the bytes read so far that the
      earlier calls have not taken, each of which took what it said.
    */
    method GoReceive(env: seq<Turn>, callback: bool) returns (end: Stop, ghost made: seq<Call>)
      requires Valid()
      modifies this, buf
      ensures CallsOk() && History() && old(stream) <= stream && old(taken) <= taken <= stream && calls == old(calls) + made
      ensures var o := Serve(old(buf[..pos]), buf.Length, env, callback);
              && end == o.end && Answers(made, o.calls) && (Intact(end) ==> Valid() && buf[..pos] == o.left)
    {
      ghost var left, shown: seq<Shown> := buf[..pos], [];
      made, end := [], Waiting;
      var i := 0;
      OnTrackStarts(left, buf.Length, env, callback);
      while i < |env|
        invariant 0 <= i <= |env| && Valid() && old(stream) <= stream && old(taken) <= taken && end.Waiting?
        invariant calls == old(calls) + made && Answers(made, shown) && OnTrack(left, buf.Length, env, callback, i, shown, buf[..pos])
      {
        ghost var t := ServeTurn(buf[..pos], buf.Length, env[i], callback);
        OnTrackStep(left, buf.Length, env, callback, i, shown, buf[..pos]);
        ghost var more;
        end, more := ReceiveOnce(env[i], callback);
        JoinCalls(old(calls), made, more);
        AnswersMore(made, more, shown, t.calls);
        made, shown := made + more, shown + t.calls;
        i := i + 1;
        if !end.Waiting? { return; }
      }
    }
  }
}
