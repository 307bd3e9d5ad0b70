/**
  All tasks of a processer run on one shared stack; a task's live bytes are copied out when it
  yields and back when it is resumed.  The stack grows down from the top, so the live bytes of
  a task are the last `size` bytes of the buffer.
*/
module SharedStack {

  type Byte = bv8
  type Tid = nat

  datatype Saved = Saved(buf: seq<Byte>, size: nat)   // stack_ (stack_capacity_ bytes) and stack_size_

  class Processer {
    const stack: array<Byte>
    var saved: map<Tid, Saved>

    ghost predicate Valid()
      reads this
    {
      forall t :: t in saved ==> saved[t].size <= |saved[t].buf| && saved[t].size <= stack.Length
    }

    constructor (cap: nat)
      ensures Valid() && saved == map[] && stack.Length == cap && fresh(stack)
    {
      stack := new Byte[cap](_ => 0);
      saved := map[];
    }

    /** The private stack of a task that is switched out: the bytes it will see when resumed. */
    ghost function Private(t: Tid): seq<Byte>
      requires Valid() && t in saved
      reads this
    {
      saved[t].buf[..saved[t].size]
    }

    /** AddIntoProcesser: makecontext has just written the first frame at the top of the stack. */
    method AddTask(t: Tid, frame: seq<Byte>, initSize: nat)
      requires Valid() && t !in saved && |frame| == 16 <= stack.Length
      modifies this, stack
      ensures Valid() && saved.Keys == old(saved.Keys) + {t} && Private(t) == frame
      ensures forall u :: u in old(saved) ==> saved[u] == old(saved[u])
    {
      var top := stack.Length;
      WriteTop(frame);
      var size := 16;
      var capacity := if initSize < 16 then 16 else initSize;
      var buf := stack[top - size..] + seq(capacity - size, _ => 0);
      saved := saved[t := Saved(buf, size)];
    }

    /** Puts bytes at the top end of the shared stack; the rest of it keeps its contents. */
    method WriteTop(bytes: seq<Byte>)
      requires |bytes| <= stack.Length
      modifies stack
      ensures stack[stack.Length - |bytes|..] == bytes
      ensures stack[..stack.Length - |bytes|] == old(stack[..stack.Length - |bytes|])
    {
      var base := stack.Length - |bytes|;
      for i := 0 to |bytes|
        invariant stack[base..base + i] == bytes[..i]
        invariant stack[..base] == old(stack[..base])
      {
        stack[base + i] := bytes[i];
        assert stack[base..base + i + 1] == stack[base..base + i] + [stack[base + i]];
      }
      assert bytes[..|bytes|] == bytes;
    }

    method RestoreStack(t: Tid)
      requires Valid() && t in saved
      modifies stack
      ensures stack[stack.Length - |Private(t)|..] == Private(t)
    {
      WriteTop(saved[t].buf[..saved[t].size]);
    }

    /** `live` bytes are in use, which the source asserts to fit; the save area grows when needed. */
    method SaveStack(t: Tid, live: nat)
      requires Valid() && t in saved && live <= stack.Length
      modifies this
      ensures Valid() && saved.Keys == old(saved.Keys)
      ensures Private(t) == stack[stack.Length - live..]
      ensures forall u :: u in saved && u != t ==> saved[u] == old(saved[u])
      ensures |saved[t].buf| >= |old(saved[t]).buf|
    {
      var buf := saved[t].buf;
      if |buf| < live {
        buf := buf + seq(live - |buf|, _ => 0);   // realloc keeps the old bytes
      }
      buf := stack[stack.Length - live..] + buf[live..];
      saved := saved[t := Saved(buf, live)];
    }

    /**
      One time slice of task `t`.  It sees its private stack and leaves `code` of it; meanwhile it
      may overwrite the whole buffer (`junk`), other tasks' old bytes included.
    */
    method RunSlice(t: Tid, code: seq<Byte> -> seq<Byte>, junk: seq<Byte>)
      requires Valid() && t in saved && |junk| == stack.Length
      requires |code(Private(t))| <= stack.Length
      modifies this, stack
      ensures Valid() && Privates() == old(Privates())[t := code(old(Private(t)))]
    {
      RestoreStack(t);
      var mine := stack[stack.Length - saved[t].size..];
      WriteTop(junk);
      WriteTop(code(mine));
      SaveStack(t, |code(mine)|);
    }

    /**
      Any schedule of slices and newly added tasks.  The tasks behave exactly as if each had a
      stack of its own: `Model` never mentions the shared one.
    */
    method Schedule(events: seq<Event>)
      requires Valid() && 16 <= stack.Length
      requires forall i :: 0 <= i < |events| ==> Fits(events[i], stack.Length)
      modifies this, stack
      ensures Valid() && Privates() == Model(old(Privates()), events)
    {
      ghost var start := Privates();
      for i := 0 to |events|
        invariant Valid() && Privates() == Model(start, events[..i])
      {
        var e := events[i];
        ghost var before := Privates();
        match e {
          case Resume(t, code, junk) => if t in saved { RunSlice(t, code, junk); }
          case Add(t, frame, initSize) =>
            if t !in saved {
              AddTask(t, frame, initSize);
              assert Privates() == before[t := frame];
            }
        }
        ModelSnoc(start, events[..i], e);
        assert events[..i + 1] == events[..i] + [e];
      }
      assert events[..|events|] == events;
    }

    /**
      A task yields with `live` bytes in use, other tasks run and are created in any order, each
      overwriting the shared stack as it likes, and the task is resumed: it sees the very bytes it
      left at the top of the buffer.
    */
    method YieldAndResume(t: Tid, live: nat, events: seq<Event>)
      requires Valid() && t in saved && live <= stack.Length && 16 <= stack.Length
      requires forall i :: 0 <= i < |events| ==> Fits(events[i], stack.Length)
      requires forall i :: 0 <= i < |events| ==> events[i].Resume? ==> events[i].who != t
      modifies this, stack
      ensures Valid() && t in saved && |Private(t)| == live
      ensures stack[stack.Length - live..] == old(stack[stack.Length - live..])
    {
      SaveStack(t, live);
      ghost var left := Privates();
      Schedule(events);
      SeesItsOwnBytes(left, events, t);
      assert t in Privates() && Privates()[t] == Private(t);
      RestoreStack(t);
    }

    ghost function Privates(): map<Tid, seq<Byte>>
      requires Valid()
      reads this
    {
      map t | t in saved :: Private(t)
    }
  }

  /** A time slice of a task already there, or a new task with its first frame. */
  datatype Event =
    | Resume(who: Tid, code: seq<Byte> -> seq<Byte>, junk: seq<Byte>)
    | Add(who: Tid, frame: seq<Byte>, initSize: nat)

  /** The source asserts that the live bytes fit the shared stack. */
  ghost predicate Fits(e: Event, cap: nat)
  {
    match e
    case Resume(_, code, junk) => |junk| == cap && forall s :: |code(s)| <= cap
    case Add(_, frame, _) => |frame| == 16
  }

  /** The reference: every task has its own stack, and an event changes only its task's. */
  function Apply(m: map<Tid, seq<Byte>>, e: Event): map<Tid, seq<Byte>>
  {
    match e
    case Resume(t, code, _) => if t in m then m[t := code(m[t])] else m
    case Add(t, frame, _) => if t in m then m else m[t := frame]
  }

  function Model(m: map<Tid, seq<Byte>>, events: seq<Event>): map<Tid, seq<Byte>>
    decreases |events|
  {
    if events == [] then m else Model(Apply(m, events[0]), events[1..])
  }

  lemma {:induction false} ModelSnoc(m: map<Tid, seq<Byte>>, events: seq<Event>, e: Event)
    ensures Model(m, events + [e]) == Apply(Model(m, events), e)
    decreases |events|
  {
    if events == [] {
      assert ([] + [e])[1..] == [];
    } else {
      assert (events + [e])[1..] == events[1..] + [e];
      ModelSnoc(Apply(m, events[0]), events[1..], e);
    }
  }

  /**
    In that reference a task that is switched out keeps its bytes: whatever the other tasks do
    until it is resumed, it finds what it had at its last yield.
  */
  lemma {:induction false} SeesItsOwnBytes(m: map<Tid, seq<Byte>>, events: seq<Event>, t: Tid)
    requires t in m
    requires forall i :: 0 <= i < |events| ==> events[i].Resume? ==> events[i].who != t
    ensures t in Model(m, events) && Model(m, events)[t] == m[t]
    decreases |events|
  {
    if events != [] { SeesItsOwnBytes(Apply(m, events[0]), events[1..], t); }
  }
}
