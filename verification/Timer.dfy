/**
  One timer used by any number of threads.  `operator()` and `Cancel` give up when the spin
  lock is taken, `BlockCancel` waits for it; the callback runs while the lock is held.
*/
module Timer {
  import opened Counting

  type Tid = nat

  datatype Pc =
    | Idle
    | Fire          // operator(): about to try the lock
    | FireIn        // operator(): lock held
    | Callback      // operator(): fn_ running, lock held
    | TryCancel     // Cancel: about to try the lock
    | TryCancelIn
    | Block         // BlockCancel: waiting for the lock
    | BlockIn

  /** `runs`: callbacks started; `cancels`: cancels that returned true; `returned`: calls finished. */
  datatype State = State(active: bool, pcs: map<Tid, Pc>, runs: nat, cancels: nat, returned: nat)

  datatype Call = CallFire | CallCancel | CallBlockCancel

  datatype Action = Begin(t: Tid, call: Call) | Step(t: Tid)

  predicate Holds(pc: Pc) { pc.FireIn? || pc.Callback? || pc.TryCancelIn? || pc.BlockIn? }

  predicate Running(pc: Pc) { pc.Callback? }

  predicate Enabled(s: State, a: Action)
  {
    a.t in s.pcs && (a.Begin? ==> s.pcs[a.t].Idle?)
  }

  ghost predicate LockTaken(s: State) { exists t :: t in s.pcs && Holds(s.pcs[t]) }

  ghost function Apply(s: State, a: Action): (r: State)
    requires Enabled(s, a)
  {
    var t := a.t;
    match a
    case Begin(_, call) =>
      s.(pcs := s.pcs[t := match call case CallFire => Fire case CallCancel => TryCancel case CallBlockCancel => Block])
    case Step(_) =>
      (match s.pcs[t]
       case Idle => s
       case Fire => if LockTaken(s) then Return(s, t) else s.(pcs := s.pcs[t := FireIn])
       case TryCancel => if LockTaken(s) then Return(s, t) else s.(pcs := s.pcs[t := TryCancelIn])
       case Block => if LockTaken(s) then s else s.(pcs := s.pcs[t := BlockIn])
       case FireIn => if !s.active then Return(s, t)
                      else s.(active := false, runs := s.runs + 1, pcs := s.pcs[t := Callback])
       case Callback => Return(s, t)
       case _ => if !s.active then Return(s, t)
                 else Return(s.(active := false, cancels := s.cancels + 1), t))
  }

  function Return(s: State, t: Tid): State
  {
    s.(pcs := s.pcs[t := Idle], returned := s.returned + 1)
  }

  function Start(threads: set<Tid>): State
  {
    State(true, map t | t in threads :: Idle, 0, 0, 0)
  }

  ghost predicate Inv(s: State)
  {
    && s.runs + s.cancels == One(!s.active)
    && Count(s.pcs, Holds) <= 1
    && (Count(s.pcs, Running) > 0 ==> s.runs == 1)
    && (s.returned > 0 && s.active ==> Count(s.pcs, Holds) == 1)
  }

  lemma LockCount(s: State)
    ensures LockTaken(s) <==> Count(s.pcs, Holds) > 0
  {
    if Count(s.pcs, Holds) > 0 {
      var t :| t in Where(s.pcs, Holds);
      assert t in s.pcs && Holds(s.pcs[t]);
    } else {
      CountZero(s.pcs, Holds);
    }
  }

  lemma Preserved(s: State, a: Action)
    requires Inv(s) && Enabled(s, a)
    ensures Inv(Apply(s, a))
  {
    LockCount(s);
    CountUpdate(s.pcs, a.t, Apply(s, a).pcs[a.t], Holds);
    CountUpdate(s.pcs, a.t, Apply(s, a).pcs[a.t], Running);
    if Running(s.pcs[a.t]) { CountPositive(s.pcs, a.t, Running); }
    if Holds(s.pcs[a.t]) { CountPositive(s.pcs, a.t, Holds); }
  }

  ghost predicate IsRun(from: State, acts: seq<Action>, to: State)
    decreases |acts|
  {
    if acts == [] then from == to
    else Enabled(from, acts[0]) && IsRun(Apply(from, acts[0]), acts[1..], to)
  }

  lemma {:induction false} RunKeepsInv(from: State, acts: seq<Action>, to: State)
    requires Inv(from) && IsRun(from, acts, to)
    ensures Inv(to)
    decreases |acts|
  {
    if acts != [] {
      Preserved(from, acts[0]);
      RunKeepsInv(Apply(from, acts[0]), acts[1..], to);
    }
  }

  /**
    For every interleaving: the callback and a successful cancel exclude each other and happen at
    most once in all, and exactly once as soon as some call has returned and none is in progress.
  */
  lemma FiresOrIsCancelledOnce(threads: set<Tid>, acts: seq<Action>, s: State)
    requires IsRun(Start(threads), acts, s)
    ensures s.runs + s.cancels <= 1
    ensures s.returned > 0 && (forall t :: t in s.pcs ==> s.pcs[t].Idle?) ==> s.runs + s.cancels == 1
  {
    Reached(threads, acts, s);
    if forall t :: t in s.pcs ==> s.pcs[t].Idle? { CountNone(s.pcs, Holds); }
  }

  lemma Reached(threads: set<Tid>, acts: seq<Action>, s: State)
    requires IsRun(Start(threads), acts, s)
    ensures Inv(s)
  {
    CountNone(Start(threads).pcs, Holds);
    CountNone(Start(threads).pcs, Running);
    RunKeepsInv(Start(threads), acts, s);
  }

  /** The step with which a call returns. */
  ghost predicate Returns(s: State, t: Tid)
  {
    t in s.pcs && !s.pcs[t].Idle? && Apply(s, Step(t)).pcs[t].Idle?
  }

  /**
    A BlockCancel waits for the lock, whatever its state: if its next step returns, no callback is
    running, so that a callback which won has finished; and it returns true, counted as a cancel,
    exactly when the timer was still active.
  */
  lemma BlockCancelWaits(threads: set<Tid>, acts: seq<Action>, s: State, t: Tid)
    requires IsRun(Start(threads), acts, s)
    requires t in s.pcs && (s.pcs[t].Block? || s.pcs[t].BlockIn?) && Returns(s, t)
    ensures forall u :: u in s.pcs ==> !s.pcs[u].Callback?
    ensures Apply(s, Step(t)).cancels == s.cancels + One(s.active) && !Apply(s, Step(t)).active
    ensures !s.active ==> s.runs + s.cancels == 1
  {
    Reached(threads, acts, s);
    forall u | u in s.pcs ensures !s.pcs[u].Callback? {
      if s.pcs[u].Callback? { CountUnique(s.pcs, t, u, Holds); }
    }
  }

  /**
    The outcome of every call.  `operator()` and `Cancel` give up only while another thread holds the
    lock; otherwise a fire on an active timer runs the callback and a cancel on an active timer
    succeeds, and on one that is not active neither does anything.
  */
  lemma CallOutcomes(threads: set<Tid>, acts: seq<Action>, s: State, t: Tid)
    requires IsRun(Start(threads), acts, s) && t in s.pcs && !s.pcs[t].Idle?
    ensures var s', pc := Apply(s, Step(t)), s.pcs[t];
            && (Returns(s, t) && !Holds(pc) ==> (pc.Fire? || pc.TryCancel?) && exists u :: u in s.pcs && u != t && Holds(s.pcs[u]))
            && (!Returns(s, t) && !Holds(pc) && !LockTaken(s) ==> Holds(s'.pcs[t]))
            && (pc.FireIn? ==> (s.active <==> s'.pcs[t].Callback?) && s'.runs == s.runs + One(s.active) && s'.cancels == s.cancels)
            && (pc.TryCancelIn? || pc.BlockIn? ==>
                  Returns(s, t) && s'.cancels == s.cancels + One(s.active) && s'.runs == s.runs)
            && (Holds(pc) ==> !s'.active)
  {
    Reached(threads, acts, s);
    if Returns(s, t) && !Holds(s.pcs[t]) {
      var u :| u in s.pcs && Holds(s.pcs[u]);
    }
    if s.pcs[t].Callback? {
      CountPositive(s.pcs, t, Running);
    }
  }
}
