/**
  Whether a `Shutdown` keeps its deadline when handlers do not return. Its own
  context is looked at only after it has got the write lock, and it waits for the
  lock behind every `Submit` inside the read lock, which may itself be waiting
  for a place in the queue.
*/
module ShutdownDeadline {
  import opened Wrappers
  import opened Folds
  import opened Runs
  import opened GracefulShutdown

  function Free(w: Worker): nat { if w.Ranging? then 1 else 0 }

  /** No handler returns, and no caller of `Submit` gives up. */
  predicate Stalled(a: Action) { !a.Handle? && !a.SubmitCtx? }

  ghost predicate StalledRun(run: seq<Action>) { forall a :: a in run ==> Stalled(a) }

  /** Even so, call `k` of `Shutdown` returns, at the latest with its own context. */
  ghost predicate KeepsDeadline(s: State, k: nat, run: seq<Action>) {
    StalledRun(run) && Exec(Step, s, run).Some? &&
    var t := Exec(Step, s, run).value;
    k < |t.stoppers| && t.stoppers[k].ShutDown?
  }

  /** Call `k` waits for the write lock of a processor still open. */
  ghost predicate Waiting(s: State, k: nat) { !s.closed && k < |s.stoppers| && s.stoppers[k].Pending? }

  /** There are free places and free workers for every `Submit` inside the lock. */
  ghost predicate RoomForAll(s: State) { s.readers + |s.queue| <= s.cap + Sum(s.workers, Free) }

  // ----- with room for all

  lemma FindFree(s: State) returns (w: nat)
    requires Inv(s) && RoomForAll(s) && s.readers > 0 && |s.queue| == s.cap
    ensures w < |s.workers| && s.workers[w].Ranging?
  {
    w := SumPositive(s.workers, Free);
  }

  /** A place in the queue, if need be by a free worker that takes an event. */
  lemma MakeRoom(s0: State, run0: seq<Action>, s: State, k: nat) returns (run: seq<Action>, t: State)
    requires Exec(Step, s0, run0) == Some(s) && StalledRun(run0) && Inv(s) && Waiting(s, k)
    requires RoomForAll(s) && s.readers > 0
    ensures Exec(Step, s0, run) == Some(t) && StalledRun(run) && Inv(t) && Waiting(t, k)
    ensures RoomForAll(t) && |t.queue| < t.cap && t.submitters == s.submitters && t.readers == s.readers
  {
    run, t := run0, s;
    if |s.queue| == s.cap {
      var w := FindFree(s);
      StepInv(s, Take(w));
      SumUpdate(s.workers, w, Handling(s.queue[0]), Free);
      run, t := Append(Step, s0, run0, s, Take(w));
    }
  }

  /** One `Submit` inside the lock gets its event into the queue. */
  lemma LetOneGo(s0: State, run0: seq<Action>, s: State, k: nat) returns (run: seq<Action>, t: State)
    requires Exec(Step, s0, run0) == Some(s) && StalledRun(run0) && Inv(s) && Waiting(s, k)
    requires RoomForAll(s) && s.readers > 0
    ensures Exec(Step, s0, run) == Some(t) && StalledRun(run) && Inv(t) && Waiting(t, k)
    ensures RoomForAll(t) && t.readers == s.readers - 1
  {
    var i := SumPositive(s.submitters, Holding);
    run, t := MakeRoom(s0, run0, s, k);
    if t.submitters[i].Checking? {
      StepInv(t, ReadClosed(i));
      run, t := Append(Step, s0, run, t, ReadClosed(i));
    }
    StepInv(t, Send(i));
    run, t := Append(Step, s0, run, t, Send(i));
  }

  lemma {:induction false} LetAllGo(s0: State, run0: seq<Action>, s: State, k: nat) returns (run: seq<Action>, t: State)
    requires Exec(Step, s0, run0) == Some(s) && StalledRun(run0) && Inv(s) && Waiting(s, k) && RoomForAll(s)
    ensures Exec(Step, s0, run) == Some(t) && StalledRun(run) && Inv(t) && Waiting(t, k) && t.readers == 0
    decreases s.readers
  {
    if s.readers == 0 {
      run, t := run0, s;
    } else {
      run, t := LetOneGo(s0, run0, s, k);
      run, t := LetAllGo(s0, run, t, k);
    }
  }

  lemma InTime(s: State, k: nat) returns (run: seq<Action>)
    requires Inv(s) && Waiting(s, k) && RoomForAll(s)
    ensures KeepsDeadline(s, k, run)
  {
    var t;
    run, t := LetAllGo(s, [], s, k);
    run, t := Append(Step, s, run, t, Lock(k));
    run, t := Append(Step, s, run, t, Close(k));
    run, t := Append(Step, s, run, t, ShutdownCtx(k));
  }

  // ----- without

  ghost predicate Hung(s: State, k: nat) { Waiting(s, k) && !RoomForAll(s) }

  lemma WorkerKeepsHung(s: State, k: nat, a: Action)
    requires Inv(s) && Hung(s, k) && OfWorker(a) && Stalled(a) && Step(s, a).Some?
    ensures Hung(Step(s, a).value, k)
  {
    SumUpdate(s.workers, a.w, Step(s, a).value.workers[a.w], Free);
  }

  lemma HungStays(s: State, k: nat, a: Action)
    requires Inv(s) && Hung(s, k) && Stalled(a) && Step(s, a).Some?
    ensures Inv(Step(s, a).value) && Hung(Step(s, a).value, k)
  {
    StepInv(s, a);
    assert s.writer == Some(k);
    if OfWorker(a) {
      WorkerKeepsHung(s, k, a);
    }
  }

  lemma NeverInTime(s: State, k: nat, run: seq<Action>)
    requires Inv(s) && Hung(s, k)
    ensures !KeepsDeadline(s, k, run)
  {
    if StalledRun(run) && Exec(Step, s, run).Some? {
      var inv := (t: State) => Inv(t) && Hung(t, k);
      forall t: State, a: Action | inv(t) && Stalled(a) && Step(t, a).Some? ensures inv(Step(t, a).value) {
        HungStays(t, k, a);
      }
      InvariantOnly(Step, Stalled, inv, s, run);
    }
  }

  /**
    With handlers that do not return, a `Shutdown` at the lock of an open processor
    can still return, if and only if the callers of `Submit` inside the lock are
    no more than the free places in the queue and the free workers together.
    Otherwise its own deadline does not help it.
  */
  lemma DeadlineKeptExactly(s: State, k: nat)
    requires Inv(s) && Waiting(s, k)
    ensures (exists run :: KeepsDeadline(s, k, run)) <==> RoomForAll(s)
  {
    if RoomForAll(s) {
      var run := InTime(s, k);
    } else {
      forall run ensures !KeepsDeadline(s, k, run) {
        NeverInTime(s, k, run);
      }
    }
  }

  // ----- how it comes to that

  function Inside(c: Submitter): nat { if c.Checking? || c.Selecting? || c == Submitted(Accepted) then 1 else 0 }

  /** Every accepted event is that of one call, and every worker not free has an event in hand. */
  ghost predicate Counted(s: State) {
    && s.readers + |s.accepted| == Sum(s.submitters, Inside)
    && (!s.closed ==> Sum(s.workers, Free) + |s.started| == |s.workers| + |s.handled|)
  }

  lemma SubmitCounted(s: State, a: Action)
    requires Inv(s) && Counted(s) && OfSubmit(a) && Step(s, a).Some?
    ensures Counted(Step(s, a).value)
  {
    SumUpdate(s.submitters, a.i, Step(s, a).value.submitters[a.i], Inside);
  }

  lemma WorkerCounted(s: State, a: Action)
    requires Inv(s) && Counted(s) && OfWorker(a) && Step(s, a).Some?
    ensures Counted(Step(s, a).value)
  {
    SumUpdate(s.workers, a.w, Step(s, a).value.workers[a.w], Free);
  }

  /** The numbers a processor is made with. */
  ghost predicate Made(s: State, events: nat, calls: nat, workers: nat, cap: nat) {
    |s.submitters| == events && |s.stoppers| == calls && |s.workers| == workers && s.cap == cap
  }

  lemma StepCounted(s: State, a: Action)
    requires Inv(s) && Counted(s) && Step(s, a).Some?
    ensures Inv(Step(s, a).value) && Counted(Step(s, a).value)
  {
    StepInv(s, a);
    if OfSubmit(a) {
      SubmitCounted(s, a);
    } else if OfWorker(a) {
      WorkerCounted(s, a);
    }
  }

  lemma StepMade(s: State, a: Action)
    requires Step(s, a).Some?
    ensures Made(Step(s, a).value, |s.submitters|, |s.stoppers|, |s.workers|, s.cap)
  {
  }

  lemma InitCounted(events: seq<Event>, calls: nat, workers: nat, cap: nat)
    requires workers >= 1 && cap >= 1
    ensures var s := Init(events, calls, workers, cap);
            Inv(s) && Counted(s) && Made(s, |events|, calls, workers, cap)
  {
    var s := Init(events, calls, workers, cap);
    InitInv(events, calls, workers, cap);
    SumConst(s.submitters, Inside, New);
    SumConst(s.workers, Free, Ranging);
  }

  lemma RunCounted(events: seq<Event>, calls: nat, workers: nat, cap: nat, run: seq<Action>)
    requires workers >= 1 && cap >= 1 && Exec(Step, Init(events, calls, workers, cap), run).Some?
    ensures var s := Exec(Step, Init(events, calls, workers, cap), run).value;
            Inv(s) && Counted(s) && Made(s, |events|, calls, workers, cap)
  {
    InitCounted(events, calls, workers, cap);
    var inv := (s: State) => Inv(s) && Counted(s) && Made(s, |events|, calls, workers, cap);
    forall s: State, a: Action | inv(s) && Step(s, a).Some? ensures inv(Step(s, a).value) {
      StepCounted(s, a);
      StepMade(s, a);
    }
    Invariant(Step, inv, Init(events, calls, workers, cap), run);
  }

  lemma HungNeedsEvents(s: State, k: nat)
    requires Inv(s) && Counted(s) && Hung(s, k)
    ensures |s.submitters| > |s.workers| + s.cap
  {
    SumMonotone(s.submitters, Inside, _ => 1);
    SumOnes(s.submitters);
    assert |s.accepted| == |s.started| + |s.queue|;
  }

  lemma {:induction false} SumOnes<T>(s: seq<T>)
    ensures Sum(s, _ => 1) == |s|
  {
    if s != [] {
      SumOnes(s[1..]);
    }
  }

  /** The first `n` events accepted, each of the first ones in the hands of a worker of its own. */
  ghost predicate Filled(s: State, n: nat) {
    && !s.closed && !s.jobsClosed && s.writer.None? && s.readers == 0
    && |s.queue| == (if n <= |s.workers| then 0 else n - |s.workers|)
    && |s.submitters| == |s.events|
    && (forall i :: n <= i < |s.submitters| ==> s.submitters[i].New?)
    && (forall k :: 0 <= k < |s.stoppers| ==> s.stoppers[k].Idle?)
    && (forall w :: 0 <= w < |s.workers| ==> if w < n then s.workers[w].Handling? else s.workers[w].Ranging?)
  }

  lemma AcceptNext(s0: State, run0: seq<Action>, s: State, n: nat) returns (run: seq<Action>, t: State)
    requires Exec(Step, s0, run0) == Some(s) && Filled(s, n) && n < |s.events| && n < |s.workers| + s.cap
    requires s.cap >= 1
    ensures Exec(Step, s0, run) == Some(t)
    ensures t.events == s.events && t.cap == s.cap && |t.workers| == |s.workers| && |t.stoppers| == |s.stoppers|
    ensures Filled(t, n + 1)
  {
    run, t := Append(Step, s0, run0, s, RLock(n));
    run, t := Append(Step, s0, run, t, ReadClosed(n));
    run, t := Append(Step, s0, run, t, Send(n));
    if n < |s.workers| {
      run, t := Append(Step, s0, run, t, Take(n));
    }
  }

  lemma {:induction false} FillUp(events: seq<Event>, calls: nat, workers: nat, cap: nat, n: nat)
    returns (run: seq<Action>, t: State)
    requires workers >= 1 && cap >= 1 && n <= |events| && n <= workers + cap
    ensures Exec(Step, Init(events, calls, workers, cap), run) == Some(t) && Filled(t, n)
    ensures t.events == events && Made(t, |events|, calls, workers, cap)
  {
    if n == 0 {
      run, t := [], Init(events, calls, workers, cap);
    } else {
      run, t := FillUp(events, calls, workers, cap, n - 1);
      run, t := AcceptNext(Init(events, calls, workers, cap), run, t, n - 1);
    }
  }

  /** Every worker in a handler, every place taken, one more `Submit` inside the lock, and then a `Shutdown`. */
  lemma HungIsReachable(events: seq<Event>, calls: nat, workers: nat, cap: nat)
    returns (run: seq<Action>, t: State)
    requires workers >= 1 && cap >= 1 && calls >= 1 && |events| > workers + cap
    ensures Exec(Step, Init(events, calls, workers, cap), run) == Some(t) && Hung(t, 0)
  {
    var s0, n := Init(events, calls, workers, cap), workers + cap;
    run, t := FillUp(events, calls, workers, cap, n);
    SumNone(t.workers, Free);
    run, t := Append(Step, s0, run, t, RLock(n));
    run, t := Append(Step, s0, run, t, ReadClosed(n));
    run, t := Append(Step, s0, run, t, Announce(0));
  }

  /** The run leads to a `Shutdown` that cannot return until a handler does or a caller of `Submit` gives up. */
  ghost predicate MissesDeadline(s0: State, run: seq<Action>, k: nat) {
    Exec(Step, s0, run).Some? && Waiting(Exec(Step, s0, run).value, k) &&
    forall more :: !KeepsDeadline(Exec(Step, s0, run).value, k, more)
  }

  /** It can come to that if and only if there are more events than workers and places in the queue together. */
  lemma DeadlineMissedExactly(events: seq<Event>, calls: nat, workers: nat, cap: nat)
    requires workers >= 1 && cap >= 1
    ensures (exists run, k :: MissesDeadline(Init(events, calls, workers, cap), run, k))
            <==> calls >= 1 && |events| > workers + cap
  {
    var s0 := Init(events, calls, workers, cap);
    if calls >= 1 && |events| > workers + cap {
      var run, t := HungIsReachable(events, calls, workers, cap);
      EveryRun(events, calls, workers, cap, run);
      DeadlineKeptExactly(t, 0);
      assert MissesDeadline(s0, run, 0);
    }
    forall run, k | MissesDeadline(s0, run, k) ensures calls >= 1 && |events| > workers + cap {
      RunCounted(events, calls, workers, cap, run);
      DeadlineKeptExactly(Exec(Step, s0, run).value, k);
      HungNeedsEvents(Exec(Step, s0, run).value, k);
    }
  }
}
