/**
  The draining processor. `Submit` admits under the read lock, blocking on a
  full queue while it holds it; `Shutdown` takes the write lock, closes
  admission and the queue, and waits for the workers to drain it. A pending
  writer keeps new readers out, and one writer at a time is pending.
*/
module GracefulShutdown {
  import opened Wrappers
  import opened Folds
  import opened Runs

  datatype Event = Event(orderId: string, kind: string, attempt: int)

  datatype SubmitResult = Accepted | ErrClosed | SubmitCtxDone

  /** `Checking` and `Selecting` hold the read lock. */
  datatype Submitter = New | Checking | Selecting | Submitted(result: SubmitResult)

  /** `Drained` is the nil of the call that closed the queue, `AlreadyClosed` the nil of a later call. */
  datatype ShutdownResult = Drained | AlreadyClosed | ShutdownCtxDone

  datatype Stopper = Idle | Pending | Locked | Draining | ShutDown(result: ShutdownResult)

  datatype Worker = Ranging | Handling(event: Event) | Exited

  datatype State = State(
    events: seq<Event>,
    cap: nat,
    queue: seq<Event>,
    jobsClosed: bool,
    closed: bool,
    readers: nat,
    writer: Option<nat>,
    wg: int,
    submitters: seq<Submitter>,
    stoppers: seq<Stopper>,
    workers: seq<Worker>,
    // history
    accepted: seq<Event>,
    started: seq<Event>,
    handled: seq<Event>,
    panicked: bool)

  datatype Action =
    | RLock(i: nat)
    | ReadClosed(i: nat)
    | Send(i: nat)
    | SubmitCtx(i: nat)
    | Announce(k: nat)
    | Lock(k: nat)
    | Close(k: nat)
    | SeeDrained(k: nat)
    | ShutdownCtx(k: nat)
    | Take(w: nat)
    | Handle(w: nat)
    | Exit(w: nat)

  function Init(events: seq<Event>, calls: nat, workers: nat, cap: nat): State {
    State(events, cap, [], false, false, 0, None, workers,
          seq(|events|, i => New), seq(calls, k => Idle), seq(workers, w => Ranging), [], [], [], false)
  }

  predicate OfSubmit(a: Action) { a.RLock? || a.ReadClosed? || a.Send? || a.SubmitCtx? }

  predicate OfShutdown(a: Action) { a.Announce? || a.Lock? || a.Close? || a.SeeDrained? || a.ShutdownCtx? }

  predicate OfWorker(a: Action) { a.Take? || a.Handle? || a.Exit? }

  /** A context ends from outside. */
  predicate OfEnvironment(a: Action) { a.SubmitCtx? || a.ShutdownCtx? }

  /** Leave the read lock with a result. */
  function Leave(s: State, i: nat, result: SubmitResult): Option<State>
    requires i < |s.submitters|
  {
    if s.readers > 0
    then Some(s.(submitters := s.submitters[i := Submitted(result)], readers := s.readers - 1))
    else None
  }

  function SubmitStep(s: State, a: Action): Option<State>
    requires OfSubmit(a) && a.i < |s.submitters| == |s.events|
  {
    var i := a.i;
    match a
    case RLock(_) =>
      if s.submitters[i].New? && s.writer.None?
      then Some(s.(submitters := s.submitters[i := Checking], readers := s.readers + 1))
      else None
    case ReadClosed(_) =>
      if s.submitters[i].Checking?
      then if s.closed then Leave(s, i, ErrClosed) else Some(s.(submitters := s.submitters[i := Selecting]))
      else None
    case Send(_) =>
      if s.submitters[i].Selecting? && s.readers > 0
      then
        if s.jobsClosed then Some(s.(panicked := true))
        else if |s.queue| < s.cap
        then Some(s.(submitters := s.submitters[i := Submitted(Accepted)], readers := s.readers - 1,
                     queue := s.queue + [s.events[i]], accepted := s.accepted + [s.events[i]]))
        else None
      else None
    case SubmitCtx(_) =>
      if s.submitters[i].Selecting? then Leave(s, i, SubmitCtxDone) else None
    case _ => None
  }

  function ShutdownStep(s: State, a: Action): Option<State>
    requires OfShutdown(a) && a.k < |s.stoppers|
  {
    var k := a.k;
    match a
    case Announce(_) =>
      if s.stoppers[k].Idle? && s.writer.None?
      then Some(s.(stoppers := s.stoppers[k := Pending], writer := Some(k)))
      else None
    case Lock(_) =>
      if s.stoppers[k].Pending? && s.readers == 0
      then Some(s.(stoppers := s.stoppers[k := Locked]))
      else None
    case Close(_) =>
      if s.stoppers[k].Locked?
      then
        if s.closed
        then Some(s.(stoppers := s.stoppers[k := ShutDown(AlreadyClosed)], writer := None))
        else Some(s.(stoppers := s.stoppers[k := Draining], writer := None, closed := true,
                     jobsClosed := true, panicked := s.panicked || s.jobsClosed))
      else None
    case SeeDrained(_) =>
      if s.stoppers[k].Draining? && s.wg == 0
      then Some(s.(stoppers := s.stoppers[k := ShutDown(Drained)])) else None
    case ShutdownCtx(_) =>
      if s.stoppers[k].Draining?
      then Some(s.(stoppers := s.stoppers[k := ShutDown(ShutdownCtxDone)])) else None
    case _ => None
  }

  function WorkerStep(s: State, a: Action): Option<State>
    requires OfWorker(a) && a.w < |s.workers|
  {
    var w := a.w;
    match a
    case Take(_) =>
      if s.workers[w].Ranging? && s.queue != []
      then Some(s.(workers := s.workers[w := Handling(s.queue[0])], queue := s.queue[1..],
                   started := s.started + [s.queue[0]]))
      else None
    case Handle(_) =>
      if s.workers[w].Handling?
      then Some(s.(workers := s.workers[w := Ranging], handled := s.handled + [s.workers[w].event]))
      else None
    case Exit(_) =>
      if s.workers[w].Ranging? && s.queue == [] && s.jobsClosed
      then Some(s.(workers := s.workers[w := Exited], wg := s.wg - 1, panicked := s.panicked || s.wg <= 0))
      else None
    case _ => None
  }

  function Step(s: State, a: Action): Option<State> {
    if OfSubmit(a) then
      if a.i < |s.submitters| == |s.events| then SubmitStep(s, a) else None
    else if OfShutdown(a) then
      if a.k < |s.stoppers| then ShutdownStep(s, a) else None
    else
      if a.w < |s.workers| then WorkerStep(s, a) else None
  }

  // ----- the invariant

  function Holding(c: Submitter): nat { if c.Checking? || c.Selecting? then 1 else 0 }

  function Live(w: Worker): nat { if w.Exited? then 0 else 1 }

  function Handles(e: Event): Worker -> nat { w => if w == Handling(e) then 1 else 0 }

  function Is(e: Event): Event -> nat { x => if x == e then 1 else 0 }

  ghost predicate LockHeld(s: State) {
    && |s.submitters| == |s.events|
    && s.readers == Sum(s.submitters, Holding)
    && (forall k :: 0 <= k < |s.stoppers| ==>
          ((s.stoppers[k].Pending? || s.stoppers[k].Locked?) <==> s.writer == Some(k)))
    && (s.writer.Some? ==> s.writer.value < |s.stoppers|)
    && (forall k :: 0 <= k < |s.stoppers| && s.stoppers[k].Locked? ==> s.readers == 0)
  }

  ghost predicate Admission(s: State) {
    && !s.panicked && 1 <= s.cap && |s.queue| <= s.cap && s.workers != []
    && s.closed == s.jobsClosed
    && (forall i :: 0 <= i < |s.submitters| && s.submitters[i].Selecting? ==> !s.closed)
    && s.wg == Sum(s.workers, Live)
    && (forall w :: 0 <= w < |s.workers| && s.workers[w].Exited? ==> s.closed && s.queue == [])
    && (forall k :: 0 <= k < |s.stoppers| && s.stoppers[k].Draining? ==> s.closed)
    && (forall k :: 0 <= k < |s.stoppers| && s.stoppers[k] == ShutDown(Drained) ==> s.closed && s.wg == 0)
  }

  /** Conservation: what was accepted is queued, in a handler or handled, and it leaves the queue in order. */
  ghost predicate Conserved(s: State) {
    && s.started + s.queue == s.accepted
    && forall e :: Sum(s.started, Is(e)) == Sum(s.workers, Handles(e)) + Sum(s.handled, Is(e))
  }

  ghost predicate Inv(s: State) { LockHeld(s) && Admission(s) && Conserved(s) }

  lemma InitInv(events: seq<Event>, calls: nat, workers: nat, cap: nat)
    requires workers >= 1 && cap >= 1
    ensures Inv(Init(events, calls, workers, cap))
  {
    var s := Init(events, calls, workers, cap);
    SumConst(s.submitters, Holding, New);
    SumConst(s.workers, Live, Ranging);
    forall e ensures Sum(s.workers, Handles(e)) == 0 {
      SumConst(s.workers, Handles(e), Ranging);
    }
  }

  lemma NoReader(s: State)
    requires s.readers == 0 == Sum(s.submitters, Holding)
    ensures forall i :: 0 <= i < |s.submitters| ==> !s.submitters[i].Checking? && !s.submitters[i].Selecting?
  {
    forall i | 0 <= i < |s.submitters| ensures Holding(s.submitters[i]) == 0 {
      SumMember(s.submitters, i, Holding);
    }
  }

  lemma SubmitStepInv(s: State, a: Action)
    requires Inv(s) && OfSubmit(a) && Step(s, a).Some?
    ensures Inv(Step(s, a).value)
  {
    var t := Step(s, a).value;
    SumMember(s.submitters, a.i, Holding);
    SumUpdate(s.submitters, a.i, t.submitters[a.i], Holding);
    assert t.workers == s.workers && t.stoppers == s.stoppers;
    assert t.started == s.started && t.handled == s.handled;
  }

  lemma ShutdownStepInv(s: State, a: Action)
    requires Inv(s) && OfShutdown(a) && Step(s, a).Some?
    ensures Inv(Step(s, a).value)
  {
    var t := Step(s, a).value;
    assert t.workers == s.workers && t.submitters == s.submitters;
    if a.Close? {
      NoReader(s);
    }
  }

  lemma WorkerStepInv(s: State, a: Action)
    requires Inv(s) && OfWorker(a) && Step(s, a).Some?
    ensures Inv(Step(s, a).value)
  {
    var t := Step(s, a).value;
    SumMember(s.workers, a.w, Live);
    SumUpdate(s.workers, a.w, t.workers[a.w], Live);
    forall e ensures Sum(t.started, Is(e)) == Sum(t.workers, Handles(e)) + Sum(t.handled, Is(e)) {
      SumUpdate(s.workers, a.w, t.workers[a.w], Handles(e));
      if a.Take? {
        SumConcat(s.started, [s.queue[0]], Is(e));
      } else if a.Handle? {
        SumConcat(s.handled, [s.workers[a.w].event], Is(e));
      }
    }
  }

  lemma StepInv(s: State, a: Action)
    requires Inv(s) && Step(s, a).Some?
    ensures Inv(Step(s, a).value) && Step(s, a).value.events == s.events
  {
    if OfSubmit(a) {
      SubmitStepInv(s, a);
    } else if OfShutdown(a) {
      ShutdownStepInv(s, a);
    } else {
      WorkerStepInv(s, a);
    }
  }

  // ----- every run

  /** Conservation, and no send or close on a closed queue, after every run. */
  lemma EveryRun(events: seq<Event>, calls: nat, workers: nat, cap: nat, run: seq<Action>)
    requires workers >= 1 && cap >= 1 && Exec(Step, Init(events, calls, workers, cap), run).Some?
    ensures var s := Exec(Step, Init(events, calls, workers, cap), run).value;
            Inv(s) && s.events == events
  {
    InitInv(events, calls, workers, cap);
    var inv := (s: State) => Inv(s) && s.events == events;
    forall s: State, a: Action | inv(s) && Step(s, a).Some? ensures inv(Step(s, a).value) {
      StepInv(s, a);
    }
    Invariant(Step, inv, Init(events, calls, workers, cap), run);
  }

  lemma {:induction false} SumIsMultiset(s: seq<Event>, e: Event)
    ensures Sum(s, Is(e)) == multiset(s)[e]
  {
    if s != [] {
      SumIsMultiset(s[1..], e);
      assert s == [s[0]] + s[1..];
    }
  }

  // ----- what the callers are told

  function Pairs(submitters: seq<Submitter>, events: seq<Event>): seq<(Submitter, Event)>
    requires |submitters| == |events|
  {
    seq(|events|, i requires 0 <= i < |events| => (submitters[i], events[i]))
  }

  /** A `Submit` of `e` that returned nil. */
  function Nil(e: Event): ((Submitter, Event)) -> nat {
    (p: (Submitter, Event)) => if p == (Submitted(Accepted), e) then 1 else 0
  }

  /** Accepted is what returned nil, event for event; the others are told why not. */
  ghost predicate Told(s: State)
    requires |s.submitters| == |s.events|
  {
    && (forall e :: Sum(Pairs(s.submitters, s.events), Nil(e)) == Sum(s.accepted, Is(e)))
    && (forall i :: 0 <= i < |s.submitters| && s.submitters[i] == Submitted(ErrClosed) ==> s.closed)
    && (forall k :: 0 <= k < |s.stoppers| && s.stoppers[k] == ShutDown(AlreadyClosed) ==> s.closed)
  }

  lemma SubmitTold(s: State, a: Action, e: Event)
    requires Inv(s) && OfSubmit(a) && Step(s, a).Some?
    requires Sum(Pairs(s.submitters, s.events), Nil(e)) == Sum(s.accepted, Is(e))
    ensures var t := Step(s, a).value;
            |t.submitters| == |t.events| && Sum(Pairs(t.submitters, t.events), Nil(e)) == Sum(t.accepted, Is(e))
  {
    var t := Step(s, a).value;
    var p := Pairs(s.submitters, s.events);
    SumUpdate(p, a.i, (t.submitters[a.i], s.events[a.i]), Nil(e));
    assert Pairs(t.submitters, t.events) == p[a.i := (t.submitters[a.i], s.events[a.i])];
    if a.Send? {
      SumConcat(s.accepted, [s.events[a.i]], Is(e));
    }
  }

  lemma StepTold(s: State, a: Action)
    requires Inv(s) && Told(s) && Step(s, a).Some?
    ensures Inv(Step(s, a).value) && Told(Step(s, a).value)
  {
    StepInv(s, a);
    if OfSubmit(a) {
      forall e
        ensures Sum(Pairs(Step(s, a).value.submitters, Step(s, a).value.events), Nil(e)) ==
                Sum(Step(s, a).value.accepted, Is(e))
      {
        SubmitTold(s, a, e);
      }
    }
  }

  /** In every run the accepted events are those whose `Submit` returned nil, each as often as it did. */
  lemma NilMeansAccepted(events: seq<Event>, calls: nat, workers: nat, cap: nat, run: seq<Action>)
    requires workers >= 1 && cap >= 1 && Exec(Step, Init(events, calls, workers, cap), run).Some?
    ensures var s := Exec(Step, Init(events, calls, workers, cap), run).value;
            |s.submitters| == |s.events| && Told(s)
  {
    var s0 := Init(events, calls, workers, cap);
    InitInv(events, calls, workers, cap);
    forall e ensures Sum(Pairs(s0.submitters, s0.events), Nil(e)) == 0 {
      SumNone(Pairs(s0.submitters, s0.events), Nil(e));
    }
    var inv := (s: State) => Inv(s) && Told(s);
    forall s: State, a: Action | inv(s) && Step(s, a).Some? ensures inv(Step(s, a).value) {
      StepTold(s, a);
    }
    Invariant(Step, inv, s0, run);
  }

  // ----- drained

  lemma DrainedMeansHandled(s: State, k: nat)
    requires Inv(s) && k < |s.stoppers| && s.stoppers[k] == ShutDown(Drained)
    ensures s.closed && s.queue == [] && multiset(s.handled) == multiset(s.accepted)
  {
    forall w | 0 <= w < |s.workers| ensures s.workers[w].Exited? {
      SumMember(s.workers, w, Live);
    }
    assert s.workers[0].Exited?;
    assert s.started == s.accepted;
    forall e ensures multiset(s.handled)[e] == multiset(s.accepted)[e] {
      SumIsMultiset(s.handled, e);
      SumIsMultiset(s.started, e);
      SumConst(s.workers, Handles(e), Exited);
    }
  }

  lemma ClosedStays(s: State, a: Action)
    requires Inv(s) && s.closed && Step(s, a).Some?
    ensures Inv(Step(s, a).value) && Step(s, a).value.closed && Step(s, a).value.accepted == s.accepted
  {
    StepInv(s, a);
  }

  /** Once closed, nothing more is accepted. */
  lemma NothingAfterClosed(s: State, run: seq<Action>)
    requires Inv(s) && s.closed && Exec(Step, s, run).Some?
    ensures Exec(Step, s, run).value.closed && Exec(Step, s, run).value.accepted == s.accepted
  {
    var inv := (t: State) => Inv(t) && t.closed && t.accepted == s.accepted;
    forall t: State, a: Action | inv(t) && Step(t, a).Some? ensures inv(Step(t, a).value) {
      ClosedStays(t, a);
    }
    Invariant(Step, inv, s, run);
  }

  /**
    When the `Shutdown` that closed the queue returns nil, every accepted event
    has been handled, exactly as often as it was accepted, and that stays so: no
    later `Submit` is accepted.
  */
  lemma DrainedIsFinal(s: State, k: nat, run: seq<Action>)
    requires Inv(s) && k < |s.stoppers| && s.stoppers[k] == ShutDown(Drained)
    requires Exec(Step, s, run).Some?
    ensures var t := Exec(Step, s, run).value;
            t.accepted == s.accepted && t.queue == [] && multiset(t.handled) == multiset(s.accepted)
  {
    NothingAfterClosed(s, run);
    StaysDrained(s, k, run);
    DrainedMeansHandled(Exec(Step, s, run).value, k);
  }

  lemma StaysDrained(s: State, k: nat, run: seq<Action>)
    requires Inv(s) && k < |s.stoppers| && s.stoppers[k] == ShutDown(Drained)
    requires Exec(Step, s, run).Some?
    ensures var t := Exec(Step, s, run).value;
            Inv(t) && k < |t.stoppers| && t.stoppers[k] == ShutDown(Drained)
  {
    var inv := (t: State) => Inv(t) && k < |t.stoppers| && t.stoppers[k] == ShutDown(Drained);
    forall t: State, a: Action | inv(t) && Step(t, a).Some? ensures inv(Step(t, a).value) {
      StepInv(t, a);
      ResultStays(t, a, k);
    }
    Invariant(Step, inv, s, run);
  }

  lemma ResultStays(s: State, a: Action, k: nat)
    requires k < |s.stoppers| && s.stoppers[k].ShutDown? && Step(s, a).Some?
    ensures |Step(s, a).value.stoppers| == |s.stoppers| && Step(s, a).value.stoppers[k] == s.stoppers[k]
  {
  }

  // ----- progress

  function SubmitWeight(c: Submitter): nat {
    match c case New => 8 case Checking => 7 case Selecting => 6 case Submitted(_) => 0
  }

  function StopWeight(c: Stopper): nat {
    match c case Idle => 5 case Pending => 4 case Locked => 3 case Draining => 2 case ShutDown(_) => 0
  }

  function WorkWeight(w: Worker): nat {
    match w case Handling(_) => 3 case Ranging => 1 case Exited => 0
  }

  function Rank(s: State): nat {
    Sum(s.submitters, SubmitWeight) + Sum(s.stoppers, StopWeight) + Sum(s.workers, WorkWeight) + 3 * |s.queue|
  }

  lemma StepLowersRank(s: State, a: Action)
    requires Inv(s) && Step(s, a).Some?
    ensures Rank(Step(s, a).value) < Rank(s)
  {
    var t := Step(s, a).value;
    if OfSubmit(a) {
      SumMember(s.submitters, a.i, Holding);
      SumUpdate(s.submitters, a.i, t.submitters[a.i], SubmitWeight);
    } else if OfShutdown(a) {
      SumUpdate(s.stoppers, a.k, t.stoppers[a.k], StopWeight);
    } else {
      WorkerLowersRank(s, a);
    }
  }

  lemma WorkerLowersRank(s: State, a: Action)
    requires Inv(s) && OfWorker(a) && Step(s, a).Some?
    ensures Rank(Step(s, a).value) < Rank(s)
  {
    SumMember(s.workers, a.w, Live);
    SumUpdate(s.workers, a.w, Step(s, a).value.workers[a.w], WorkWeight);
  }

  /** Nothing can move unless a context ends. */
  ghost predicate Stuck(s: State) {
    forall a: Action :: !OfEnvironment(a) ==> Step(s, a).None?
  }

  lemma StuckWorkers(s: State)
    requires Inv(s) && Stuck(s)
    ensures s.queue == [] && (s.closed ==> s.wg == 0)
    ensures forall w :: 0 <= w < |s.workers| ==> !s.workers[w].Handling?
  {
    forall w | 0 <= w < |s.workers|
      ensures !s.workers[w].Handling? && (s.workers[w].Ranging? ==> s.queue == [] && !s.closed)
    {
      assert Step(s, Take(w)).None? && Step(s, Handle(w)).None? && Step(s, Exit(w)).None?;
    }
    assert s.workers[0].Ranging? || s.workers[0].Exited?;
    if s.closed && s.wg > 0 {
      var w := SumPositive(s.workers, Live);
      assert false;
    }
  }

  /** Whoever holds the read lock, even on a full queue, somebody can move. */
  lemma ReaderProgress(s: State) returns (a: Action)
    requires Inv(s) && s.readers > 0
    ensures !OfEnvironment(a) && Step(s, a).Some?
  {
    var i := SumPositive(s.submitters, Holding);
    if s.submitters[i].Checking? {
      a := ReadClosed(i);
    } else if |s.queue| < s.cap {
      a := Send(i);
    } else {
      a := if s.workers[0].Handling? then Handle(0) else Take(0);
    }
  }

  /** A `Shutdown` at the write lock never waits in vain: it gets the lock, or somebody else can move. */
  lemma WriterProgress(s: State) returns (a: Action)
    requires Inv(s) && s.writer.Some?
    ensures !OfEnvironment(a) && Step(s, a).Some?
  {
    var k := s.writer.value;
    if s.stoppers[k].Locked? {
      a := Close(k);
    } else if s.readers == 0 {
      a := Lock(k);
    } else {
      a := ReaderProgress(s);
    }
  }

  /**
    No deadlock: when nothing can move, every `Submit` and every `Shutdown` has
    returned and the queue is empty. So a `Shutdown` that waits for the write
    lock behind submitters blocked on a full queue always gets it.
  */
  lemma NoDeadlock(s: State)
    requires Inv(s) && Stuck(s)
    ensures forall i :: 0 <= i < |s.submitters| ==> s.submitters[i].Submitted?
    ensures forall k :: 0 <= k < |s.stoppers| ==> s.stoppers[k].ShutDown?
    ensures s.queue == []
  {
    StuckWorkers(s);
    if s.readers > 0 {
      var a := ReaderProgress(s);
      assert false;
    }
    if s.writer.Some? {
      var a := WriterProgress(s);
      assert false;
    }
    NoReader(s);
    forall i | 0 <= i < |s.submitters| ensures s.submitters[i].Submitted? {
      assert Step(s, RLock(i)).None?;
    }
    forall k | 0 <= k < |s.stoppers| ensures s.stoppers[k].ShutDown? {
      assert Step(s, Announce(k)).None? && Step(s, SeeDrained(k)).None?;
    }
  }

  lemma InitRank(events: seq<Event>, calls: nat, workers: nat, cap: nat)
    ensures Rank(Init(events, calls, workers, cap)) == 8 * |events| + 5 * calls + workers
  {
    var s0 := Init(events, calls, workers, cap);
    SumConst(s0.submitters, SubmitWeight, New);
    SumConst(s0.stoppers, StopWeight, Idle);
    SumConst(s0.workers, WorkWeight, Ranging);
  }

  lemma RunBounded(s0: State, run: seq<Action>)
    requires Inv(s0) && Exec(Step, s0, run).Some?
    ensures |run| <= Rank(s0)
  {
    forall s: State, a: Action | Inv(s) && Step(s, a).Some?
      ensures Inv(Step(s, a).value) && Rank(Step(s, a).value) < Rank(s)
    {
      StepInv(s, a);
      StepLowersRank(s, a);
    }
    Bounded(Step, s => Inv(s), Rank, s0, run);
  }

  /** Every run is finite, and one that cannot be extended has answered every call. */
  lemma EveryRunEnds(events: seq<Event>, calls: nat, workers: nat, cap: nat, run: seq<Action>)
    requires workers >= 1 && cap >= 1 && Exec(Step, Init(events, calls, workers, cap), run).Some?
    ensures |run| <= 8 * |events| + 5 * calls + workers
    ensures var s := Exec(Step, Init(events, calls, workers, cap), run).value;
            Stuck(s) ==>
              && (forall i :: 0 <= i < |s.submitters| ==> s.submitters[i].Submitted?)
              && (forall k :: 0 <= k < |s.stoppers| ==> s.stoppers[k].ShutDown?)
  {
    InitInv(events, calls, workers, cap);
    InitRank(events, calls, workers, cap);
    RunBounded(Init(events, calls, workers, cap), run);
    EveryRun(events, calls, workers, cap, run);
    var s := Exec(Step, Init(events, calls, workers, cap), run).value;
    if Stuck(s) {
      NoDeadlock(s);
    }
  }

  // ----- who closed, and when a context ends

  /** A call that has closed the queue: it waits for the workers, has seen them gone or has run out of time. */
  function Closer(k: Stopper): nat {
    if k.Draining? || k == ShutDown(Drained) || k == ShutDown(ShutdownCtxDone) then 1 else 0
  }

  lemma StepOneCloser(s: State, a: Action)
    requires Sum(s.stoppers, Closer) == Bit(s.closed) && Step(s, a).Some?
    ensures Sum(Step(s, a).value.stoppers, Closer) == Bit(Step(s, a).value.closed)
  {
    if OfShutdown(a) {
      SumUpdate(s.stoppers, a.k, Step(s, a).value.stoppers[a.k], Closer);
    }
  }

  /** In every run exactly one call closes the queue, and it is never told that it was closed already. */
  lemma OneCloser(events: seq<Event>, calls: nat, workers: nat, cap: nat, run: seq<Action>)
    requires Exec(Step, Init(events, calls, workers, cap), run).Some?
    ensures var s := Exec(Step, Init(events, calls, workers, cap), run).value;
            Sum(s.stoppers, Closer) == Bit(s.closed)
  {
    var inv := (s: State) => Sum(s.stoppers, Closer) == Bit(s.closed);
    forall s: State, a: Action | inv(s) && Step(s, a).Some? ensures inv(Step(s, a).value) {
      StepOneCloser(s, a);
    }
    SumConst(Init(events, calls, workers, cap).stoppers, Closer, Idle);
    Invariant(Step, inv, Init(events, calls, workers, cap), run);
  }

  lemma StepTellsSubmit(s: State, a: Action, i: nat)
    requires i < |s.submitters| && Step(s, a).Some?
    ensures var t := Step(s, a).value;
            && |t.submitters| == |s.submitters|
            && (t.submitters[i] == Submitted(SubmitCtxDone) <==>
                  s.submitters[i] == Submitted(SubmitCtxDone) || a == SubmitCtx(i))
  {
  }

  lemma StepTellsShutdown(s: State, a: Action, k: nat)
    requires k < |s.stoppers| && Step(s, a).Some?
    ensures var t := Step(s, a).value;
            && |t.stoppers| == |s.stoppers|
            && (t.stoppers[k] == ShutDown(ShutdownCtxDone) <==>
                  s.stoppers[k] == ShutDown(ShutdownCtxDone) || a == ShutdownCtx(k))
  {
  }

  /** A `Submit` is told of its context exactly if that ended its select. */
  lemma SubmitToldOfContext(events: seq<Event>, calls: nat, workers: nat, cap: nat, run: seq<Action>, i: nat)
    requires Exec(Step, Init(events, calls, workers, cap), run).Some? && i < |events|
    ensures var s := Exec(Step, Init(events, calls, workers, cap), run).value;
            |s.submitters| == |events| && (s.submitters[i] == Submitted(SubmitCtxDone) <==> SubmitCtx(i) in run)
  {
    var inv := (s: State) => |s.submitters| == |events|;
    var sign := (s: State) => i < |s.submitters| && s.submitters[i] == Submitted(SubmitCtxDone);
    forall s: State, a: Action | inv(s) && Step(s, a).Some?
      ensures inv(Step(s, a).value) && (sign(Step(s, a).value) <==> sign(s) || a == SubmitCtx(i))
    {
      StepTellsSubmit(s, a, i);
    }
    Invariant(Step, inv, Init(events, calls, workers, cap), run);
    Happened(Step, inv, (a: Action) => a == SubmitCtx(i), sign, Init(events, calls, workers, cap), run);
  }

  /** And a `Shutdown` exactly if that ended its wait for the workers. */
  lemma ShutdownToldOfContext(events: seq<Event>, calls: nat, workers: nat, cap: nat, run: seq<Action>, k: nat)
    requires Exec(Step, Init(events, calls, workers, cap), run).Some? && k < calls
    ensures var s := Exec(Step, Init(events, calls, workers, cap), run).value;
            |s.stoppers| == calls && (s.stoppers[k] == ShutDown(ShutdownCtxDone) <==> ShutdownCtx(k) in run)
  {
    var inv := (s: State) => |s.stoppers| == calls;
    var sign := (s: State) => k < |s.stoppers| && s.stoppers[k] == ShutDown(ShutdownCtxDone);
    forall s: State, a: Action | inv(s) && Step(s, a).Some?
      ensures inv(Step(s, a).value) && (sign(Step(s, a).value) <==> sign(s) || a == ShutdownCtx(k))
    {
      StepTellsShutdown(s, a, k);
    }
    Invariant(Step, inv, Init(events, calls, workers, cap), run);
    Happened(Step, inv, (a: Action) => a == ShutdownCtx(k), sign, Init(events, calls, workers, cap), run);
  }

  /** Whoever is at a select leaves it at once when its context ends, whatever the others do. */
  lemma ContextFrees(s: State)
    requires Inv(s)
    ensures forall i :: 0 <= i < |s.submitters| && s.submitters[i].Selecting? ==>
              Step(s, SubmitCtx(i)) == Leave(s, i, SubmitCtxDone) && Leave(s, i, SubmitCtxDone).Some?
    ensures forall k :: 0 <= k < |s.stoppers| && s.stoppers[k].Draining? ==>
              Step(s, ShutdownCtx(k)) == Some(s.(stoppers := s.stoppers[k := ShutDown(ShutdownCtxDone)]))
  {
    forall i | 0 <= i < |s.submitters| && s.submitters[i].Selecting? ensures s.readers > 0 {
      SumMember(s.submitters, i, Holding);
    }
  }

  // ----- when no context ends

  ghost predicate Undisturbed(run: seq<Action>) { forall a :: a in run ==> !OfEnvironment(a) }

  /** Nobody was told of a context, and who closed the queue waits for the workers or saw them gone. */
  ghost predicate ContextFree(s: State) {
    && Submitted(SubmitCtxDone) !in s.submitters && ShutDown(ShutdownCtxDone) !in s.stoppers
    && (s.closed ==> Draining in s.stoppers || ShutDown(Drained) in s.stoppers)
  }

  lemma StepContextFree(s: State, a: Action)
    requires ContextFree(s) && !OfEnvironment(a) && Step(s, a).Some?
    ensures ContextFree(Step(s, a).value)
  {
    var t := Step(s, a).value;
    if OfShutdown(a) {
      assert t.stoppers[a.k] in t.stoppers;
      if s.closed {
        var was := if Draining in s.stoppers then Draining else ShutDown(Drained);
        var k :| 0 <= k < |s.stoppers| && s.stoppers[k] == was;
        assert t.stoppers[k] in t.stoppers;
      }
    }
  }

  /** With contexts that go on every `Submit` is accepted or refused as closed; who closed the queue sees it drained. */
  lemma NobodyToldOfContext(events: seq<Event>, calls: nat, workers: nat, cap: nat, run: seq<Action>)
    requires workers >= 1 && cap >= 1 && Exec(Step, Init(events, calls, workers, cap), run).Some? && Undisturbed(run)
    ensures var s := Exec(Step, Init(events, calls, workers, cap), run).value;
            ContextFree(s) && |s.stoppers| == calls
  {
    var inv := (s: State) => ContextFree(s) && |s.stoppers| == calls;
    forall s: State, a: Action | inv(s) && !OfEnvironment(a) && Step(s, a).Some? ensures inv(Step(s, a).value) {
      StepContextFree(s, a);
    }
    InvariantOnly(Step, (a: Action) => !OfEnvironment(a), inv, Init(events, calls, workers, cap), run);
  }

  /** And when nothing can move any more, one `Shutdown`, if there are any, has seen it drained. */
  lemma AllDrained(events: seq<Event>, calls: nat, workers: nat, cap: nat, run: seq<Action>)
    requires workers >= 1 && cap >= 1 && Exec(Step, Init(events, calls, workers, cap), run).Some? && Undisturbed(run)
    requires Stuck(Exec(Step, Init(events, calls, workers, cap), run).value)
    ensures var s := Exec(Step, Init(events, calls, workers, cap), run).value;
            ContextFree(s) && (calls > 0 ==> ShutDown(Drained) in s.stoppers)
  {
    NobodyToldOfContext(events, calls, workers, cap, run);
    EveryRun(events, calls, workers, cap, run);
    NilMeansAccepted(events, calls, workers, cap, run);
    var s := Exec(Step, Init(events, calls, workers, cap), run).value;
    NoDeadlock(s);
    if calls > 0 {
      var first := s.stoppers[0];
      assert first in s.stoppers && first == ShutDown(first.result);
      if first.result.AlreadyClosed? {
        assert s.closed && Draining !in s.stoppers;
      }
    }
  }

  // ----- what a later Shutdown says

  /** An event is still queued or in a handler. */
  ghost predicate Busy(s: State) {
    s.queue != [] || exists w :: 0 <= w < |s.workers| && s.workers[w].Handling?
  }

  lemma CountAccepted(s: State, e: Event)
    requires Conserved(s)
    ensures multiset(s.accepted)[e] ==
            multiset(s.handled)[e] + Sum(s.workers, Handles(e)) + Sum(s.queue, Is(e))
  {
    SumIsMultiset(s.accepted, e);
    SumIsMultiset(s.handled, e);
    SumConcat(s.started, s.queue, Is(e));
  }

  lemma BusyMeansUnhandled(s: State)
    requires Conserved(s) && Busy(s)
    ensures multiset(s.handled) != multiset(s.accepted)
  {
    var e: Event;
    if s.queue != [] {
      e := s.queue[0];
      SumMember(s.queue, 0, Is(e));
    } else {
      var w :| 0 <= w < |s.workers| && s.workers[w].Handling?;
      e := s.workers[w].event;
      SumMember(s.workers, w, Handles(e));
    }
    CountAccepted(s, e);
  }

  lemma QuietMeansHandled(s: State)
    requires Conserved(s) && !Busy(s)
    ensures multiset(s.handled) == multiset(s.accepted)
  {
    forall e ensures multiset(s.handled)[e] == multiset(s.accepted)[e] {
      CountAccepted(s, e);
      SumNone(s.workers, Handles(e));
    }
  }

  lemma QuietStays(s: State, a: Action)
    requires Inv(s) && s.closed && !Busy(s) && Step(s, a).Some?
    ensures Inv(Step(s, a).value) && Step(s, a).value.closed && !Busy(Step(s, a).value)
  {
    StepInv(s, a);
  }

  /** A closed processor's callers inside the read lock leave it, and the workers need not move. */
  lemma {:induction false} LockFrees(s0: State, run0: seq<Action>, s: State) returns (run: seq<Action>, t: State)
    requires Exec(Step, s0, run0) == Some(s) && Inv(s) && s.closed
    ensures Exec(Step, s0, run) == Some(t) && Inv(t) && t.readers == 0
    ensures t.closed && t.queue == s.queue && t.workers == s.workers && t.stoppers == s.stoppers && t.writer == s.writer
    decreases s.readers
  {
    if s.readers == 0 {
      run, t := run0, s;
    } else {
      var i := SumPositive(s.submitters, Holding);
      StepInv(s, ReadClosed(i));
      run, t := Append(Step, s0, run0, s, ReadClosed(i));
      run, t := LockFrees(s0, run, t);
    }
  }

  /** Call `k` passes the write lock of a closed processor. */
  lemma PassLock(s0: State, run0: seq<Action>, s: State, k: nat) returns (run: seq<Action>, t: State)
    requires Exec(Step, s0, run0) == Some(s) && Inv(s) && s.closed && s.readers == 0
    requires k < |s.stoppers| && s.stoppers[k].Idle? && s.writer.None?
    ensures Exec(Step, s0, run) == Some(t) && t.queue == s.queue && t.workers == s.workers && Conserved(t)
    ensures t.accepted == s.accepted && t.handled == s.handled
    ensures |t.stoppers| == |s.stoppers| && t.stoppers[k] == ShutDown(AlreadyClosed)
  {
    StepInv(s, Announce(k));
    run, t := Append(Step, s0, run0, s, Announce(k));
    StepInv(t, Lock(k));
    run, t := Append(Step, s0, run, t, Lock(k));
    StepInv(t, Close(k));
    run, t := Append(Step, s0, run, t, Close(k));
  }

  /** A call that has announced itself before gets the lock first. */
  lemma WriterPasses(s0: State, run0: seq<Action>, s: State, k: nat) returns (run: seq<Action>, t: State)
    requires Exec(Step, s0, run0) == Some(s) && Inv(s) && s.closed && s.readers == 0
    requires k < |s.stoppers| && s.stoppers[k].Idle?
    ensures Exec(Step, s0, run) == Some(t) && Inv(t) && t.closed && t.readers == 0 && t.writer.None?
    ensures t.queue == s.queue && t.workers == s.workers && k < |t.stoppers| && t.stoppers[k].Idle?
  {
    run, t := run0, s;
    if s.writer.Some? {
      var j := s.writer.value;
      assert s.writer == Some(j);
      if s.stoppers[j].Pending? {
        StepInv(t, Lock(j));
        run, t := Append(Step, s0, run, t, Lock(j));
      }
      StepInv(t, Close(j));
      run, t := Append(Step, s0, run, t, Close(j));
    }
  }

  /** A later call returns nil before everything accepted has been handled. */
  ghost predicate NilTooEarly(s: State, k: nat, run: seq<Action>) {
    Exec(Step, s, run).Some? &&
    var t := Exec(Step, s, run).value;
    k < |t.stoppers| && t.stoppers[k] == ShutDown(AlreadyClosed) && multiset(t.handled) != multiset(t.accepted)
  }

  /**
    The nil of a later `Shutdown` promises less: it may come before everything
    accepted has been handled, if and only if an event is still queued or in a
    handler when that call begins.
  */
  lemma LaterNilExactly(s: State, k: nat)
    requires Inv(s) && s.closed && k < |s.stoppers| && s.stoppers[k].Idle?
    ensures (exists run :: NilTooEarly(s, k, run)) <==> Busy(s)
  {
    if Busy(s) {
      var run, t := LockFrees(s, [], s);
      run, t := WriterPasses(s, run, t, k);
      run, t := PassLock(s, run, t, k);
      assert Busy(t);
      BusyMeansUnhandled(t);
      assert NilTooEarly(s, k, run);
    } else {
      forall run | Exec(Step, s, run).Some? ensures !NilTooEarly(s, k, run) {
        var inv := (t: State) => Inv(t) && t.closed && !Busy(t);
        forall t: State, a: Action | inv(t) && Step(t, a).Some? ensures inv(Step(t, a).value) {
          QuietStays(t, a);
        }
        Invariant(Step, inv, s, run);
        QuietMeansHandled(Exec(Step, s, run).value);
      }
    }
  }

  /** One event accepted, and the first of two `Shutdown` calls past the lock. */
  lemma AcceptAndClose(e: Event) returns (run: seq<Action>, t: State)
    ensures Exec(Step, Init([e], 2, 1, 1), run) == Some(t) && t.closed && t.readers == 0 && t.writer.None?
    ensures |t.stoppers| == 2 && t.stoppers[1].Idle? && t.queue == t.accepted == [e] && t.handled == []
  {
    var s := Init([e], 2, 1, 1);
    run, t := Append(Step, s, [], s, RLock(0));
    run, t := Append(Step, s, run, t, ReadClosed(0));
    run, t := Append(Step, s, run, t, Send(0));
    run, t := Append(Step, s, run, t, Announce(0));
    run, t := Append(Step, s, run, t, Lock(0));
    run, t := Append(Step, s, run, t, Close(0));
  }

  /** And it can happen: a second `Shutdown` returns nil with the accepted event still queued. */
  lemma LaterNilPromisesNothing(e: Event) returns (run: seq<Action>, t: State)
    ensures Exec(Step, Init([e], 2, 1, 1), run) == Some(t)
    ensures |t.stoppers| == 2 && t.stoppers[1] == ShutDown(AlreadyClosed)
    ensures t.accepted == t.queue == [e] && t.handled == []
  {
    var s := Init([e], 2, 1, 1);
    run, t := AcceptAndClose(e);
    EveryRun([e], 2, 1, 1, run);
    run, t := PassLock(s, run, t, 1);
  }

  // ----- the processor

  /**
    The processor with its callers and workers. Each method runs one goroutine to
    its next blocking point; releasing a lock never blocks and goes with the step
    before it.
  */
  class Processor {
    const events: seq<Event>
    const cap: nat
    var queue: seq<Event>
    var jobsClosed: bool
    var closed: bool
    var readers: nat
    var writer: Option<nat>
    var wg: int
    var submitters: seq<Submitter>
    var stoppers: seq<Stopper>
    var workers: seq<Worker>
    ghost var accepted: seq<Event>
    ghost var started: seq<Event>
    ghost var handled: seq<Event>
    ghost var panicked: bool

    ghost function Abs(): State
      reads this
    {
      State(events, cap, queue, jobsClosed, closed, readers, writer, wg, submitters, stoppers, workers,
            accepted, started, handled, panicked)
    }

    constructor (events: seq<Event>, calls: nat, workers: nat, queueSize: nat)
      ensures Abs() == Init(events, calls, workers, queueSize)
    {
      this.events, cap, queue, jobsClosed, closed := events, queueSize, [], false, false;
      readers, writer, wg := 0, None, workers;
      submitters, stoppers := seq(|events|, i => New), seq(calls, k => Idle);
      this.workers := seq(workers, w => Ranging);
      accepted, started, handled, panicked := [], [], [], false;
    }

    /** `Submit` can go on; `ctxDone` says whether its context has ended. */
    predicate SubmitReady(i: nat, ctxDone: bool)
      reads this
      requires i < |submitters|
    {
      match submitters[i]
      case New => writer.None?
      case Checking => true
      case Selecting => ctxDone || jobsClosed || |queue| < cap
      case Submitted(_) => false
    }

    method LeaveLock(i: nat, result: SubmitResult)
      requires i < |submitters| && readers > 0
      modifies this
      ensures Leave(old(Abs()), i, result) == Some(Abs())
    {
      readers := readers - 1;
      submitters := submitters[i := Submitted(result)];
    }

    /** `Submit`, which in its select may also see that its context has ended. */
    method SubmitStep(i: nat, ctxDone: bool) returns (ghost a: Action)
      requires i < |submitters| == |events| && SubmitReady(i, ctxDone)
      requires submitters[i].Checking? || submitters[i].Selecting? ==> readers > 0
      modifies this
      ensures OfSubmit(a) && a.i == i && (a.SubmitCtx? ==> ctxDone) && Step(old(Abs()), a) == Some(Abs())
    {
      match submitters[i]
      case New =>
        a := RLock(i);
        readers := readers + 1;
        submitters := submitters[i := Checking];
      case Checking =>
        a := ReadClosed(i);
        if closed {
          LeaveLock(i, ErrClosed);
        } else {
          submitters := submitters[i := Selecting];
        }
      case Selecting =>
        if {
          case jobsClosed =>
            a := Send(i);
            panicked := true;
          case !jobsClosed && |queue| < cap =>
            a := Send(i);
            queue := queue + [events[i]];
            accepted := accepted + [events[i]];
            LeaveLock(i, Accepted);
          case ctxDone =>
            a := SubmitCtx(i);
            LeaveLock(i, SubmitCtxDone);
        }
    }

    /** `Shutdown` can go on; `ctxDone` says whether its context has ended. */
    predicate ShutdownReady(k: nat, ctxDone: bool)
      reads this
      requires k < |stoppers|
    {
      match stoppers[k]
      case Idle => writer.None?
      case Pending => readers == 0
      case Locked => true
      case Draining => ctxDone || wg == 0
      case ShutDown(_) => false
    }

    /** `Shutdown`, which while it waits for the workers may also see that its context has ended. */
    method ShutdownStep(k: nat, ctxDone: bool) returns (ghost a: Action)
      requires k < |stoppers| && ShutdownReady(k, ctxDone)
      modifies this
      ensures OfShutdown(a) && a.k == k && (a.ShutdownCtx? ==> ctxDone) && Step(old(Abs()), a) == Some(Abs())
    {
      match stoppers[k]
      case Idle =>
        a := Announce(k);
        writer := Some(k);
        stoppers := stoppers[k := Pending];
      case Pending =>
        a := Lock(k);
        stoppers := stoppers[k := Locked];
      case Locked =>
        a := Close(k);
        if closed {
          stoppers := stoppers[k := ShutDown(AlreadyClosed)];
        } else {
          closed := true;
          panicked := panicked || jobsClosed;
          jobsClosed := true;
          stoppers := stoppers[k := Draining];
        }
        writer := None;
      case Draining =>
        if {
          case wg == 0 =>
            a := SeeDrained(k);
            stoppers := stoppers[k := ShutDown(Drained)];
          case ctxDone =>
            a := ShutdownCtx(k);
            stoppers := stoppers[k := ShutDown(ShutdownCtxDone)];
        }
    }

    predicate WorkerReady(w: nat)
      reads this
      requires w < |workers|
    {
      workers[w].Handling? || (workers[w].Ranging? && (queue != [] || jobsClosed))
    }

    /** `range jobs`, the handler, and the deferred `Done`. */
    method WorkerStep(w: nat) returns (ghost a: Action)
      requires w < |workers| && WorkerReady(w)
      modifies this
      ensures OfWorker(a) && a.w == w && Step(old(Abs()), a) == Some(Abs())
    {
      if workers[w].Handling? {
        a := Handle(w);
        handled := handled + [workers[w].event];
        workers := workers[w := Ranging];
      } else if queue != [] {
        a := Take(w);
        workers := workers[w := Handling(queue[0])];
        started := started + [queue[0]];
        queue := queue[1..];
      } else {
        a := Exit(w);
        panicked := panicked || wg <= 0;
        wg := wg - 1;
        workers := workers[w := Exited];
      }
    }

    /** Some goroutine can go on, counting on contexts that have ended only if `ctxDone`. */
    predicate Ready(ctxDone: bool)
      reads this
    {
      || (exists i :: 0 <= i < |submitters| && SubmitReady(i, ctxDone))
      || (exists k :: 0 <= k < |stoppers| && ShutdownReady(k, ctxDone))
      || (exists w :: 0 <= w < |workers| && WorkerReady(w))
    }

    /** The guards miss no step, even with all contexts going on; and with contexts over, none of those either. */
    lemma GuardsMissNothing(ctxDone: bool)
      requires Inv(Abs())
      ensures !Ready(ctxDone) ==> Stuck(Abs())
      ensures !Ready(true) ==> forall a: Action :: Step(Abs(), a).None?
    {
      if !Ready(true) {
        forall a: Action ensures Step(Abs(), a).None? {
          assert OfSubmit(a) && a.i < |submitters| ==> !SubmitReady(a.i, true);
          assert OfShutdown(a) && a.k < |stoppers| ==> !ShutdownReady(a.k, true);
          assert OfWorker(a) && a.w < |workers| ==> !WorkerReady(a.w);
        }
      }
      if !Ready(ctxDone) {
        forall a: Action | !OfEnvironment(a) ensures Step(Abs(), a).None? {
          assert OfSubmit(a) && a.i < |submitters| ==> !SubmitReady(a.i, ctxDone);
          assert OfShutdown(a) && a.k < |stoppers| ==> !ShutdownReady(a.k, ctxDone);
          assert OfWorker(a) && a.w < |workers| ==> !WorkerReady(a.w);
        }
      }
    }

    /** One turn of any goroutine that is not blocked. */
    method Turn(ctxDone: bool) returns (ghost a: Action)
      requires Inv(Abs()) && Ready(ctxDone)
      modifies this
      ensures OfEnvironment(a) ==> ctxDone
      ensures Step(old(Abs()), a) == Some(Abs()) && Inv(Abs()) && Rank(Abs()) < old(Rank(Abs()))
    {
      ghost var s := Abs();
      if {
        case i: nat :| i < |submitters| && SubmitReady(i, ctxDone) =>
          SumMember(submitters, i, Holding);
          a := SubmitStep(i, ctxDone);
        case k: nat :| k < |stoppers| && ShutdownReady(k, ctxDone) => a := ShutdownStep(k, ctxDone);
        case w: nat :| w < |workers| && WorkerReady(w) => a := WorkerStep(w);
      }
      StepInv(s, a);
      StepLowersRank(s, a);
    }
  }

  lemma DrainedSomewhere(s: State)
    requires Inv(s)
    ensures ShutDown(Drained) in s.stoppers ==> multiset(s.handled) == multiset(s.accepted)
  {
    if k :| 0 <= k < |s.stoppers| && s.stoppers[k] == ShutDown(Drained) {
      DrainedMeansHandled(s, k);
    }
  }

  /**
    A processor with its callers, the scheduler free at every turn: `run` is the
    interleaving it chose and `end` the state it led to. Every `Submit` and every
    `Shutdown` returns, and if one says that the queue is drained, then all
    that was accepted, which is all that `Submit` said nil to, has been handled.
    Contexts may end only if `contextsEnd`. If none does, all calls return all the
    same, each event accepted or refused by a closed processor, and a `Shutdown`
    means that everything accepted has been handled by the end.
  */
  method RunProcessor(events: seq<Event>, calls: nat, workers: nat, queueSize: nat, contextsEnd: bool)
    returns (submitted: seq<Submitter>, shutdowns: seq<Stopper>, ghost run: seq<Action>, ghost end: State)
    requires workers >= 1 && queueSize >= 1
    ensures Exec(Step, Init(events, calls, workers, queueSize), run) == Some(end)
    ensures submitted == end.submitters && shutdowns == end.stoppers
    ensures |submitted| == |events| == |end.events| && forall i :: 0 <= i < |events| ==> submitted[i].Submitted?
    ensures forall k :: 0 <= k < |shutdowns| ==> shutdowns[k].ShutDown?
    ensures Told(end) && (ShutDown(Drained) in shutdowns ==> multiset(end.handled) == multiset(end.accepted))
    ensures !contextsEnd ==> Undisturbed(run) && Submitted(SubmitCtxDone) !in submitted
    ensures !contextsEnd ==> ShutDown(ShutdownCtxDone) !in shutdowns && (calls > 0 ==> ShutDown(Drained) in shutdowns)
  {
    var processor := new Processor(events, calls, workers, queueSize);
    run, end := [], Init(events, calls, workers, queueSize);
    InitInv(events, calls, workers, queueSize);
    var ctxDone: bool := *;
    ctxDone := ctxDone && contextsEnd;
    while processor.Ready(ctxDone)
      invariant fresh(processor) && Inv(processor.Abs())
      invariant (ctxDone ==> contextsEnd) && (!contextsEnd ==> Undisturbed(run))
      invariant Exec(Step, Init(events, calls, workers, queueSize), run) == Some(end) && end == processor.Abs()
      decreases Rank(processor.Abs())
    {
      ghost var a := processor.Turn(ctxDone);
      run, end := Append(Step, Init(events, calls, workers, queueSize), run, end, a);
      ctxDone := *;
      ctxDone := ctxDone && contextsEnd;
    }
    processor.GuardsMissNothing(ctxDone);
    NoDeadlock(end);
    NilMeansAccepted(events, calls, workers, queueSize, run);
    EveryRun(events, calls, workers, queueSize, run);
    submitted, shutdowns := processor.submitters, processor.stoppers;
    DrainedSomewhere(end);
    if !contextsEnd {
      AllDrained(events, calls, workers, queueSize, run);
    }
  }
}
