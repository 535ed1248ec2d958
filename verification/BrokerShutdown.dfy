/**
  Exactly when a broker that has begun to stop gets there. The writer waits for
  the callers already inside the read lock; new ones are kept out. A caller
  inside leaves through a free place in the queue or through the end of its own
  context, so what matters is how many are inside, how many of them have no
  other way out, and how many places are left.
*/
module BrokerShutdown {
  import opened Folds
  import opened Runs
  import opened RequestReply

  /** The deferred shutdown has begun. */
  predicate Stopping(s: State) { s.run.LockPending? || s.run.Locked? || s.run.Unlocked? || s.run.Stopped? }

  function Pairs(callers: seq<Caller>, ctxDone: seq<bool>): seq<(Caller, bool)>
    requires |callers| == |ctxDone|
  {
    seq(|callers|, i requires 0 <= i < |callers| => (callers[i], ctxDone[i]))
  }

  /** Inside the lock, and only the queue can let it out. */
  function Stays(p: (Caller, bool)): nat { if Holding(p.0) == 1 && !p.1 then 1 else 0 }

  /** Inside the lock with its context over: it may leave either way. */
  function MayLeave(p: (Caller, bool)): nat { if Holding(p.0) == 1 && p.1 then 1 else 0 }

  function Stubborn(s: State): nat
    requires |s.callers| == |s.ctxDone|
  {
    Sum(Pairs(s.callers, s.ctxDone), Stays)
  }

  function Released(s: State): nat
    requires |s.callers| == |s.ctxDone|
  {
    Sum(Pairs(s.callers, s.ctxDone), MayLeave)
  }

  function Free(s: State): int { s.cap - |s.queue| }

  lemma {:induction false} Split(callers: seq<Caller>, ctxDone: seq<bool>)
    requires |callers| == |ctxDone|
    ensures var p := Pairs(callers, ctxDone);
            Sum(callers, Holding) == Sum(p, Stays) + Sum(p, MayLeave)
  {
    if callers != [] {
      Split(callers[1..], ctxDone[1..]);
      assert Pairs(callers, ctxDone)[1..] == Pairs(callers[1..], ctxDone[1..]);
    }
  }

  /** How one step of a caller moves the two counts. */
  lemma CountsMove(s: State, a: Action)
    requires Inv(s) && (OfCaller(a) || a.CallerCancel?) && Step(s, a).Some?
    ensures var t := Step(s, a).value;
            && Inv(t) && t.readers == Stubborn(t) + Released(t)
            && Stubborn(t) == Stubborn(s) - Stays((s.callers[a.i], s.ctxDone[a.i]))
                                          + Stays((t.callers[a.i], t.ctxDone[a.i]))
  {
    StepInv(s, a);
    var t := Step(s, a).value;
    Split(t.callers, t.ctxDone);
    var p := Pairs(s.callers, s.ctxDone);
    SumUpdate(p, a.i, (t.callers[a.i], t.ctxDone[a.i]), Stays);
    assert Pairs(t.callers, t.ctxDone) == p[a.i := (t.callers[a.i], t.ctxDone[a.i])];
  }

  ghost predicate NoCancels(run: seq<Action>) {
    forall k :: 0 <= k < |run| ==> !run[k].CallerCancel?
  }

  // ----- the shutdown may finish

  /** There is a place for every caller that needs one. */
  predicate Roomy(s: State)
    requires |s.callers| == |s.ctxDone|
  {
    s.run.LockPending? ==> Stubborn(s) <= Free(s)
  }

  /** The next move of a schedule that gets the shutdown done. */
  lemma StopMove(s: State) returns (a: Action)
    requires Inv(s) && Stopping(s) && Roomy(s) && !s.done
    ensures !OfEnvironment(a) && Step(s, a).Some?
    ensures var t := Step(s, a).value; Inv(t) && Stopping(t) && Roomy(t)
  {
    if s.run.Unlocked? {
      a := CloseDone;
    } else if s.run.Locked? {
      a := SetClosed;
    } else if s.readers == 0 {
      a := Lock;
    } else {
      Split(s.callers, s.ctxDone);
      var p := Pairs(s.callers, s.ctxDone);
      if i :| 0 <= i < |s.callers| && s.callers[i].Checking? {
        a := ReadClosed(i);
      } else if Released(s) > 0 {
        var i := SumPositive(p, MayLeave);
        a := AdmitCtx(i);
      } else {
        var i := SumPositive(p, Stays);
        a := Admit(i);
      }
      CountsMove(s, a);
    }
    StepInv(s, a);
  }

  lemma {:induction false} StopRun(s: State) returns (run: seq<Action>)
    requires Inv(s) && Stopping(s) && Roomy(s)
    ensures NoCancels(run) && Exec(Step, s, run).Some? && Exec(Step, s, run).value.done
    decreases Rank(s)
  {
    if s.done {
      run := [];
    } else {
      var a := StopMove(s);
      StepLowersRank(s, a);
      var rest := StopRun(Step(s, a).value);
      run := [a] + rest;
      assert run[1..] == rest;
    }
  }

  /** Too few places: the writer is never let in. */
  lemma NeverLocks(s: State, run: seq<Action>)
    requires Inv(s) && s.run.LockPending? && !Roomy(s)
    requires NoCancels(run) && Exec(Step, s, run).Some?
    ensures var t := Exec(Step, s, run).value; t.run.LockPending? && !t.done
  {
    var inv := (t: State) => Inv(t) && t.run.LockPending? && !Roomy(t);
    forall t: State, a: Action | inv(t) && !a.CallerCancel? && Step(t, a).Some?
      ensures inv(Step(t, a).value)
    {
      StepInv(t, a);
      Split(t.callers, t.ctxDone);
      if OfCaller(a) {
        CountsMove(t, a);
      }
    }
    InvariantOnly(Step, (a: Action) => !a.CallerCancel?, inv, s, run);
  }

  /**
    Without another context ending, a stopping `Run` can still close `done` if
    and only if the callers inside the lock whose contexts go on are no more
    than the free places in the queue.
  */
  lemma MayFinish(s: State)
    requires Inv(s) && s.run.LockPending?
    ensures (exists run :: NoCancels(run) && Exec(Step, s, run).Some? && Exec(Step, s, run).value.done)
            <==> Stubborn(s) <= Free(s)
  {
    if Stubborn(s) <= Free(s) {
      var run := StopRun(s);
    } else {
      forall run | NoCancels(run) && Exec(Step, s, run).Some? ensures !Exec(Step, s, run).value.done {
        NeverLocks(s, run);
      }
    }
  }

  // ----- the shutdown must finish

  /** No schedule can use up the places that a stubborn caller needs. */
  predicate Safe(s: State)
    requires |s.callers| == |s.ctxDone|
  {
    s.run.LockPending? ==> Stubborn(s) == 0 || s.readers <= Free(s)
  }

  lemma SafeStays(s: State, a: Action)
    requires Inv(s) && Stopping(s) && Safe(s) && Step(s, a).Some?
    ensures var t := Step(s, a).value; Inv(t) && Stopping(t) && Safe(t)
  {
    StepInv(s, a);
    if OfCaller(a) || a.CallerCancel? {
      CountsMove(s, a);
    }
  }

  lemma SafeNotWedged(s: State)
    requires Inv(s) && Safe(s)
    ensures !Wedged(s)
  {
    forall i: nat | HeldBy(s, i) ensures false {
      SumMember(Pairs(s.callers, s.ctxDone), i, Stays);
      SumMember(s.callers, i, Holding);
    }
  }

  /** A schedule that fills the queue and leaves a stubborn caller outside it. */
  lemma {:induction false} WedgingRun(s: State) returns (run: seq<Action>)
    requires Inv(s) && s.run.LockPending? && Stubborn(s) > 0 && s.readers > Free(s)
    ensures NoCancels(run) && Exec(Step, s, run).Some? && Wedged(Exec(Step, s, run).value)
    decreases Rank(s)
  {
    var p := Pairs(s.callers, s.ctxDone);
    Split(s.callers, s.ctxDone);
    var a;
    if i :| 0 <= i < |s.callers| && s.callers[i].Checking? {
      a := ReadClosed(i);
    } else {
      var i := SumPositive(p, Stays);
      if Free(s) == 0 {
        assert HeldBy(s, i);
        return [];
      }
      if Released(s) > 0 {
        i := SumPositive(p, MayLeave);
      }
      a := Admit(i);
    }
    CountsMove(s, a);
    StepLowersRank(s, a);
    var rest := WedgingRun(Step(s, a).value);
    run := [a] + rest;
    assert run[1..] == rest;
  }

  /**
    A stopping `Run` is safe from the deadlock under every schedule if and only
    if no caller inside the lock lacks another way out, or there is a place for
    every caller inside.
  */
  lemma MustFinish(s: State)
    requires Inv(s) && s.run.LockPending?
    ensures (forall run :: Exec(Step, s, run).Some? ==> !Wedged(Exec(Step, s, run).value))
            <==> Stubborn(s) == 0 || s.readers <= Free(s)
  {
    if Safe(s) {
      var inv := (t: State) => Inv(t) && Stopping(t) && Safe(t);
      forall t: State, a: Action | inv(t) && Step(t, a).Some? ensures inv(Step(t, a).value) {
        SafeStays(t, a);
      }
      forall run | Exec(Step, s, run).Some? ensures !Wedged(Exec(Step, s, run).value) {
        Invariant(Step, inv, s, run);
        SafeNotWedged(Exec(Step, s, run).value);
      }
    } else {
      var run := WedgingRun(s);
    }
  }

  /** And when it is safe, every run that cannot be extended has closed `done` and answered every call. */
  lemma SafeShutdownCompletes(s: State, run: seq<Action>)
    requires Inv(s) && s.run.LockPending? && (Stubborn(s) == 0 || s.readers <= Free(s))
    requires Exec(Step, s, run).Some?
    ensures |run| <= Rank(s)
    ensures Stuck(Exec(Step, s, run).value) ==>
              Exec(Step, s, run).value.done && AllReturned(Exec(Step, s, run).value)
  {
    var inv := (t: State) => Inv(t) && Stopping(t) && Safe(t);
    forall t: State, a: Action | inv(t) && Step(t, a).Some?
      ensures inv(Step(t, a).value) && Rank(Step(t, a).value) < Rank(t)
    {
      SafeStays(t, a);
      StepLowersRank(t, a);
    }
    Bounded(Step, inv, Rank, s, run);
    Invariant(Step, inv, s, run);
    var t := Exec(Step, s, run).value;
    if Stuck(t) {
      SafeNotWedged(t);
      OnlyDeadlock(t);
    }
  }
}
