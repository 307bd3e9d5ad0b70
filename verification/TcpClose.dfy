/**
  How a TCP session ends.  The receiving and the sending coroutine each give up one of the two
  units of shutdown_ref_; whoever takes the last runs OnClose.  Meanwhile any number of threads
  call Send, which checks shutdown_ref_ first and puts the message into msg_chan_ later.
*/
module TcpClose {

  import opened Counting

  type Mid = nat

  datatype Receiver = Receiving | RecvFailed | RecvClosing | RecvEnded

  datatype Sender =
    | Top           // about to look at shutdown_ref_
    | SawOne        // found it to be 1, decrement to come
    | Work          // pulling, dropping and writing
    | SendFailed    // write_some failed, decrement to come
    | SendClosing
    | SendEnded

  /** Progress of OnClose. */
  datatype Close = Open | DrainChan | DrainList | Notify | Closed

  /**
    `begun`: messages given to Send; `passed`: those past its check, not yet in the channel;
    `calls`: callbacks made; `late`: messages put into the channel after OnClose emptied it.
  */
  datatype State = State(ref: int, recv: Receiver, send: Sender, close: Close, chan: seq<Mid>, list: seq<Mid>,
                         begun: set<Mid>, passed: set<Mid>, calls: multiset<Mid>, late: seq<Mid>,
                         closes: nat, disconnects: nat)

  datatype Action =
    | Begin(m: Mid, empty: bool)
    | Push(m: Mid, room: bool)
    | RecvError
    | RecvDec
    | Check
    | CheckDec
    | Pull(timeout: bool)
    | Drop(i: nat)
    | Finish
    | Again
    | WriteError
    | SendDec
    | CloseStep

  predicate Enabled(s: State, a: Action)
  {
    match a
    case Begin(m, _) => m !in s.begun
    case Push(m, _) => m in s.passed
    case RecvError => s.recv.Receiving?
    case RecvDec => s.recv.RecvFailed?
    case Check => s.send.Top?
    case CheckDec => s.send.SawOne?
    case Pull(_) => s.send.Work? && s.chan != []
    case Drop(i) => s.send.Work? && i < |s.list|
    case Finish => s.send.Work? && s.list != []
    case Again => s.send.Work?
    case WriteError => s.send.Work?
    case SendDec => s.send.SendFailed?
    case CloseStep => s.close.DrainChan? || s.close.DrainList? || s.close.Notify?
  }

  function Call(s: State, m: Mid): State { s.(calls := s.calls + multiset{m}) }

  function StartClose(s: State): State { s.(close := DrainChan, closes := s.closes + 1) }

  function Apply(s: State, a: Action): State
    requires Enabled(s, a)
  {
    match a
    case Begin(m, empty) =>
      var s1 := s.(begun := s.begun + {m});
      if s.ref < 2 || empty then Call(s1, m) else s1.(passed := s.passed + {m})
    case Push(m, room) =>
      var s1 := s.(passed := s.passed - {m});
      if !room then Call(s1, m)
      else s1.(chan := s.chan + [m], late := if Drained(s) then s.late + [m] else s.late)
    case RecvError => s.(recv := RecvFailed)
    case RecvDec =>
      var s1 := s.(ref := s.ref - 1);
      if s1.ref == 0 then StartClose(s1.(recv := RecvClosing)) else s1.(recv := RecvEnded)
    case Check => s.(send := if s.ref == 1 then SawOne else Work)
    case CheckDec => StartClose(s.(ref := s.ref - 1, send := SendClosing))
    case Pull(timeout) =>
      if timeout then Call(s.(chan := s.chan[1..]), s.chan[0]) else s.(chan := s.chan[1..], list := s.list + [s.chan[0]])
    case Drop(i) => Call(s.(list := s.list[..i] + s.list[i + 1..]), s.list[i])
    case Finish => Call(s.(list := s.list[1..]), s.list[0])
    case Again => s.(send := Top)
    case WriteError => s.(send := SendFailed)
    case SendDec =>
      var s1 := s.(ref := s.ref - 1);
      if s1.ref == 0 then StartClose(s1.(send := SendClosing)) else s1.(send := SendEnded)
    case CloseStep => CloseNext(s)
  }

  function CloseNext(s: State): State
    requires Enabled(s, CloseStep)
  {
    match s.close
    case DrainChan => if s.chan == [] then s.(close := DrainList) else Call(s.(chan := s.chan[1..]), s.chan[0])
    case DrainList => if s.list == [] then s.(close := Notify) else Call(s.(list := s.list[1..]), s.list[0])
    case _ => s.(close := Closed, disconnects := s.disconnects + 1,
                 recv := if s.recv.RecvClosing? then RecvEnded else s.recv,
                 send := if s.send.SendClosing? then SendEnded else s.send)
  }

  function Start(): State { State(2, Receiving, Top, Open, [], [], {}, {}, multiset{}, [], 0, 0) }

  // ---------------------------------------------------------------- invariant

  /** OnClose has found the channel empty. */
  predicate Drained(s: State) { s.close.DrainList? || s.close.Notify? || s.close.Closed? }

  predicate RecvGone(s: State) { s.recv.RecvClosing? || s.recv.RecvEnded? }

  predicate SendGone(s: State) { s.send.SendClosing? || s.send.SendEnded? }

  /** Each message is in one place: told, in the channel, in the list, or in the hands of Send. */
  predicate Placed(s: State)
  {
    s.calls + multiset(s.chan) + multiset(s.list) + multiset(s.passed) == multiset(s.begun)
  }

  predicate Closing(s: State)
  {
    && s.ref == 2 - One(RecvGone(s)) - One(SendGone(s))
    && s.closes == One(s.ref == 0) && s.disconnects == One(s.close.Closed?)
    && (s.close.Open? <==> s.ref > 0)
    && (s.recv.RecvClosing? || s.send.SendClosing? <==> !s.close.Open? && !s.close.Closed?)
    && !(s.recv.RecvClosing? && s.send.SendClosing?)
    && (s.send.SawOne? ==> RecvGone(s))
  }

  predicate Left(s: State)
  {
    && (if Drained(s) then s.chan == s.late else s.late == [])
    && (s.close.Notify? || s.close.Closed? ==> s.list == [])
  }

  predicate Inv(s: State) { Placed(s) && Closing(s) && Left(s) }

  lemma BeginPlaced(s: State, m: Mid, empty: bool)
    requires Placed(s) && m !in s.begun
    ensures Placed(Apply(s, Begin(m, empty)))
  {
    assert m !in multiset(s.begun);
    assert multiset(s.begun + {m}) == multiset(s.begun) + multiset{m};
    assert m !in s.passed by { assert multiset(s.passed)[m] <= multiset(s.begun)[m]; }
    assert multiset(s.passed + {m}) == multiset(s.passed) + multiset{m};
  }

  lemma PushPlaced(s: State, m: Mid, room: bool)
    requires Placed(s) && m in s.passed
    ensures Placed(Apply(s, Push(m, room)))
  {
    assert multiset(s.passed) == multiset(s.passed - {m}) + multiset{m};
  }

  /** The first message of the channel is told, or moves to the list. */
  lemma HeadPlaced(s: State)
    requires Placed(s) && s.chan != []
    ensures Placed(Call(s.(chan := s.chan[1..]), s.chan[0]))
    ensures Placed(s.(chan := s.chan[1..], list := s.list + [s.chan[0]]))
  {
    assert s.chan == [s.chan[0]] + s.chan[1..];
  }

  /** Any message of the list is told. */
  lemma ListPlaced(s: State, i: nat)
    requires Placed(s) && i < |s.list|
    ensures Placed(Call(s.(list := s.list[..i] + s.list[i + 1..]), s.list[i]))
  {
    assert s.list == s.list[..i] + [s.list[i]] + s.list[i + 1..];
  }

  lemma FinishPlaced(s: State)
    requires Placed(s) && s.list != []
    ensures Placed(Call(s.(list := s.list[1..]), s.list[0]))
  {
    ListPlaced(s, 0);
    assert s.list[..0] + s.list[1..] == s.list[1..];
  }

  lemma ClosePlaced(s: State)
    requires Placed(s) && Enabled(s, CloseStep)
    ensures Placed(CloseNext(s))
  {
    if s.close.DrainChan? && s.chan != [] { HeadPlaced(s); }
    else if s.close.DrainList? && s.list != [] { FinishPlaced(s); }
  }

  lemma OtherPlaced(s: State, a: Action)
    requires Placed(s) && Enabled(s, a)
    requires a.RecvError? || a.RecvDec? || a.Check? || a.CheckDec? || a.Again? || a.WriteError? || a.SendDec?
    ensures Placed(Apply(s, a))
  {
    var s' := Apply(s, a);
    assert s'.calls == s.calls && s'.chan == s.chan && s'.list == s.list && s'.passed == s.passed && s'.begun == s.begun;
  }

  lemma PlacedKept(s: State, a: Action)
    requires Placed(s) && Enabled(s, a)
    ensures Placed(Apply(s, a))
  {
    match a
    case Begin(m, empty) => BeginPlaced(s, m, empty);
    case Push(m, room) => PushPlaced(s, m, room);
    case Pull(_) => HeadPlaced(s);
    case Drop(i) => ListPlaced(s, i);
    case Finish => FinishPlaced(s);
    case CloseStep => ClosePlaced(s);
    case _ => OtherPlaced(s, a);
  }

  lemma ClosingKept(s: State, a: Action)
    requires Closing(s) && Left(s) && Enabled(s, a) && (a.RecvDec? || a.CheckDec? || a.SendDec? || a.CloseStep?)
    ensures Closing(Apply(s, a)) && Left(Apply(s, a))
  {
  }

  lemma OpenKept(s: State, a: Action)
    requires Closing(s) && Left(s) && Enabled(s, a) && !(a.RecvDec? || a.CheckDec? || a.SendDec? || a.CloseStep?)
    ensures Closing(Apply(s, a)) && Left(Apply(s, a))
  {
  }

  /** Every step of every thread keeps the invariant. */
  lemma Preserved(s: State, a: Action)
    requires Inv(s) && Enabled(s, a)
    ensures Inv(Apply(s, a))
  {
    PlacedKept(s, a);
    if a.RecvDec? || a.CheckDec? || a.SendDec? || a.CloseStep? { ClosingKept(s, a); } else { OpenKept(s, a); }
  }

  // ---------------------------------------------------------------- runs

  ghost predicate IsRun(from: State, acts: seq<Action>, to: State)
    decreases |acts|
  {
    if acts == [] then from == to
    else Enabled(from, acts[0]) && IsRun(Apply(from, acts[0]), acts[1..], to)
  }

  lemma {:induction false} RunKeepsInv(from: State, acts: seq<Action>, to: State)
    requires Inv(from) && IsRun(from, acts, to)
    ensures Inv(to)
    decreases |acts|
  {
    if acts != [] {
      Preserved(from, acts[0]);
      RunKeepsInv(Apply(from, acts[0]), acts[1..], to);
    }
  }

  /**
    In whatever order the two sides fail or look at the counter, OnClose runs at most once, and
    has run once, disconnect callback included, by the time both sides have ended.
  */
  lemma ClosesOnce(acts: seq<Action>, s: State)
    requires IsRun(Start(), acts, s)
    ensures 0 <= s.ref <= 2 && s.closes <= 1 && s.disconnects <= s.closes
    ensures s.recv.RecvEnded? && s.send.SendEnded? ==> s.closes == 1 && s.disconnects == 1
    ensures s.closes == 1 <==> s.ref == 0
  {
    RunKeepsInv(Start(), acts, s);
  }

  /** No callback is ever made twice, nor for a message nobody sent. */
  lemma CalledAtMostOnce(acts: seq<Action>, s: State, m: Mid)
    requires IsRun(Start(), acts, s)
    ensures s.calls[m] <= One(m in s.begun)
  {
    RunKeepsInv(Start(), acts, s);
    assert s.calls[m] <= multiset(s.begun)[m];
  }

  /**
    Once both sides have ended and no Send is under way, a message is without its callback
    exactly when it entered the channel after OnClose had found it empty.
  */
  lemma UncalledExactlyWhenLate(acts: seq<Action>, s: State, m: Mid)
    requires IsRun(Start(), acts, s) && s.recv.RecvEnded? && s.send.SendEnded? && s.passed == {} && m in s.begun
    ensures s.calls[m] == 0 <==> m in s.late
    ensures s.calls[m] == 1 <==> m !in s.late
  {
    RunKeepsInv(Start(), acts, s);
    assert s.close.Closed? && s.list == [] && s.chan == s.late;
    assert s.calls[m] + multiset(s.chan)[m] == multiset(s.begun)[m] == 1;
  }

  // ---- the end comes

  /** Steps the two coroutines take by themselves; the read fails once the sender has shut the socket down. */
  predicate Own(s: State, a: Action)
  {
    a.RecvDec? || a.Check? || a.CheckDec? || a.Again? || a.SendDec? || a.CloseStep? || (a.RecvError? && s.send.SendEnded?)
  }

  ghost predicate OwnRun(from: State, acts: seq<Action>, to: State)
    decreases |acts|
  {
    if acts == [] then from == to
    else Enabled(from, acts[0]) && Own(from, acts[0]) && OwnRun(Apply(from, acts[0]), acts[1..], to)
  }

  /** One side has failed. */
  predicate Failing(s: State) { !s.recv.Receiving? || s.send.SendFailed? || SendGone(s) }

  predicate Over(s: State) { s.recv.RecvEnded? && s.send.SendEnded? && s.close.Closed? }

  /** The next step towards the end. */
  function NextOwn(s: State): Action
  {
    if !s.close.Open? then CloseStep
    else if s.recv.RecvFailed? then RecvDec
    else if s.send.SendFailed? then SendDec
    else if s.recv.Receiving? then RecvError
    else if s.send.Top? then Check
    else if s.send.SawOne? then CheckDec
    else Again
  }

  function Phase(s: State): nat { if s.close.Open? then 2 else if s.close.Closed? then 0 else 1 }

  function Rank(s: State): nat
  {
    if s.close.Open? then
      (if s.recv.Receiving? then 20 else if s.recv.RecvFailed? then 10 else 0)
        + (match s.send case Work => 6 case Top => 5 case SawOne => 4 case SendFailed => 4 case _ => 0)
    else |s.chan| + |s.list| + (match s.close case DrainChan => 3 case DrainList => 2 case _ => 1)
  }

  lemma NextComesCloser(s: State)
    requires Inv(s) && Failing(s) && !Over(s)
    ensures Enabled(s, NextOwn(s)) && Own(s, NextOwn(s))
    ensures var s' := Apply(s, NextOwn(s));
            Failing(s') && (Phase(s') < Phase(s) || (Phase(s') == Phase(s) && Rank(s') < Rank(s)))
  {
  }

  /**
    Once one side has failed, the session comes to its end by the coroutines' own steps, from whatever
    state: both have ended, and the disconnect callback has run.
  */
  lemma {:induction false} EndComes(s: State) returns (acts: seq<Action>, s': State)
    requires Inv(s) && Failing(s)
    ensures OwnRun(s, acts, s') && Over(s') && s'.disconnects == 1
    decreases Phase(s), Rank(s)
  {
    if Over(s) {
      return [], s;
    }
    var a := NextOwn(s);
    NextComesCloser(s);
    Preserved(s, a);
    var rest;
    rest, s' := EndComes(Apply(s, a));
    acts := [a] + rest;
    assert acts[1..] == rest;
  }

  /** From every state a run can reach in which a side has failed, the session gets to its end by itself. */
  lemma SessionEnds(acts: seq<Action>, s: State) returns (more: seq<Action>, s': State)
    requires IsRun(Start(), acts, s) && Failing(s)
    ensures OwnRun(s, more, s') && Over(s') && s'.disconnects == 1
  {
    RunKeepsInv(Start(), acts, s);
    more, s' := EndComes(s);
  }

  /** Send refuses, with the callback, exactly when a side is gone or there is nothing to send. */
  lemma SendRefusesExactly(acts: seq<Action>, s: State, m: Mid, empty: bool)
    requires IsRun(Start(), acts, s) && m !in s.begun
    ensures var s' := Apply(s, Begin(m, empty));
            if RecvGone(s) || SendGone(s) || empty then s'.calls[m] == 1 && m !in s'.passed else s'.calls[m] == 0 && m in s'.passed
  {
    RunKeepsInv(Start(), acts, s);
    assert s.calls[m] + multiset(s.chan)[m] + multiset(s.list)[m] + multiset(s.passed)[m] == multiset(s.begun)[m];
  }

  // ---- Send as one step

  /** A run in which a message that passes the check of Send enters the channel at once. */
  ghost predicate AtomicRun(from: State, acts: seq<Action>, to: State)
    decreases |acts|
  {
    if acts == [] then from == to
    else
      && Enabled(from, acts[0]) && !acts[0].Push?
      && (var mid := Apply(from, acts[0]);
          if mid.passed == from.passed then AtomicRun(mid, acts[1..], to)
          else |acts| > 1 && acts[1].Push? && Enabled(mid, acts[1]) && AtomicRun(Apply(mid, acts[1]), acts[2..], to))
  }

  lemma OnlySendPushes(s: State, a: Action)
    requires Closing(s) && Enabled(s, a) && !a.Push?
    ensures Apply(s, a).late == s.late
    ensures Apply(s, a).passed != s.passed ==> a.Begin? && Apply(s, a).passed == s.passed + {a.m} && !Drained(Apply(s, a))
  {
  }

  lemma PushInTime(s: State, a: Action, m: Mid)
    requires Enabled(s, a) && a.Push? && s.passed == {m} && !Drained(s)
    ensures Apply(s, a).late == s.late && Apply(s, a).passed == {}
  {
  }

  lemma {:induction false} AtomicIsRun(from: State, acts: seq<Action>, to: State)
    requires AtomicRun(from, acts, to) && Inv(from) && from.passed == {} && from.late == []
    ensures IsRun(from, acts, to) && to.passed == {} && to.late == []
    decreases |acts|
  {
    if acts != [] {
      var mid := Apply(from, acts[0]);
      Preserved(from, acts[0]);
      OnlySendPushes(from, acts[0]);
      if mid.passed == from.passed {
        AtomicIsRun(mid, acts[1..], to);
      } else {
        Preserved(mid, acts[1]);
        PushInTime(mid, acts[1], acts[0].m);
        assert acts[1..][1..] == acts[2..];
        AtomicIsRun(Apply(mid, acts[1]), acts[2..], to);
      }
    }
  }

  /** With Send in one step, every message has exactly one callback when the session is over. */
  lemma CalledExactlyOnce(acts: seq<Action>, s: State, m: Mid)
    requires AtomicRun(Start(), acts, s) && s.recv.RecvEnded? && s.send.SendEnded? && m in s.begun
    ensures s.calls[m] == 1
  {
    AtomicIsRun(Start(), acts, s);
    UncalledExactlyWhenLate(acts, s, m);
  }

  /** With Send in two steps this can fail: a message that has passed the check while the session closes. */
  lemma LateMessageIsForgotten() returns (acts: seq<Action>, s: State)
    ensures IsRun(Start(), acts, s) && s.recv.RecvEnded? && s.send.SendEnded? && s.passed == {}
    ensures 7 in s.begun && s.calls[7] == 0
  {
    var s0 := Start();
    var s1 := State(2, Receiving, Top, Open, [], [], {7}, {7}, multiset{}, [], 0, 0);
    var s2 := s1.(recv := RecvFailed);
    var s3 := s1.(ref := 1, recv := RecvEnded);
    var s4 := s3.(send := SawOne);
    var s5 := s3.(ref := 0, send := SendClosing, close := DrainChan, closes := 1);
    s := State(0, RecvEnded, SendEnded, Closed, [7], [], {7}, {}, multiset{}, [7], 1, 1);
    acts := LatePush(s5, s);
    assert Apply(s0, Begin(7, false)) == s1;
    acts := RunOf(s4, CheckDec, acts, s);
    acts := RunOf(s3, Check, acts, s);
    acts := RunOf(s2, RecvDec, acts, s);
    acts := RunOf(s1, RecvError, acts, s);
    acts := RunOf(s0, Begin(7, false), acts, s);
  }

  /** OnClose runs to its end, and only then the message enters the channel. */
  lemma LatePush(from: State, to: State) returns (acts: seq<Action>)
    requires from == State(0, RecvEnded, SendClosing, DrainChan, [], [], {7}, {7}, multiset{}, [], 1, 0)
    requires to == State(0, RecvEnded, SendEnded, Closed, [7], [], {7}, {}, multiset{}, [7], 1, 1)
    ensures IsRun(from, acts, to)
  {
    var s6 := from.(close := DrainList);
    var s7 := from.(close := Notify);
    var s8 := from.(close := Closed, send := SendEnded, disconnects := 1);
    assert [] + [7] == [7] && {7} - {7} == {};
    assert Apply(s8, Push(7, true)) == to;
    acts := RunOf(s8, Push(7, true), [], to);
    acts := RunOf(s7, CloseStep, acts, to);
    acts := RunOf(s6, CloseStep, acts, to);
    acts := RunOf(from, CloseStep, acts, to);
  }

  lemma RunOf(from: State, a: Action, rest: seq<Action>, to: State) returns (acts: seq<Action>)
    requires Enabled(from, a) && IsRun(Apply(from, a), rest, to)
    ensures IsRun(from, acts, to)
  {
    acts := [a] + rest;
    assert acts[1..] == rest;
  }
}
