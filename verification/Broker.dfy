/**
  The request/reply broker. Callers admit requests to a bounded queue under the
  read lock, `Run` feeds them to the engine one at a time and answers each on
  its caller's own reply channel, and the shutdown deferred by `Run` takes the
  write lock before it closes admission. A pending writer keeps new readers out.
*/
module RequestReply {
  import opened Wrappers
  import opened Folds
  import opened Permutations
  import opened Runs

  datatype FraudCheck = FraudCheck(orderId: string, amountCents: int, countryCode: string, accountAgeDays: int)

  datatype Decision = Decision(orderId: string, approved: bool, queue: string, score: int)

  datatype Reply = Reply(decision: Decision, err: Option<string>)

  /** What `Check` returns. */
  datatype Result = Answer(reply: Reply) | ContextDone | BrokerStopped

  /** The check and the owner of the reply channel travel together. */
  datatype Request = Request(caller: nat, check: FraudCheck)

  /** One engine call that has returned. */
  datatype Served = Served(request: Request, reply: Reply)

  /** `Checking` and `Selecting` hold the read lock. */
  datatype Caller = New | Checking | Selecting | Waiting | Returned(result: Result)

  datatype RunPc =
    | Looping
    | InEngine(request: Request)
    | Replying(request: Request, reply: Reply)
    | LockPending
    | Locked
    | Unlocked
    | Stopped

  datatype State = State(
    checks: seq<FraudCheck>,
    callers: seq<Caller>,
    ctxDone: seq<bool>,
    cap: nat,
    queue: seq<Request>,
    replies: seq<Option<Reply>>,
    readers: nat,
    runDone: bool,
    run: RunPc,
    closed: bool,
    done: bool,
    // history
    admitted: seq<Request>,
    served: seq<Served>)

  datatype Action =
    | CallerCancel(i: nat)
    | RunCancel
    | RLock(i: nat)
    | ReadClosed(i: nat)
    | Admit(i: nat)
    | AdmitCtx(i: nat)
    | AdmitDone(i: nat)
    | TakeReply(i: nat)
    | WaitCtx(i: nat)
    | WaitDone(i: nat)
    | RunTake
    | EngineReturn(reply: Reply)
    | SendReply
    | StopReplying
    | StopLooping
    | Lock
    | SetClosed
    | CloseDone

  function Init(checks: seq<FraudCheck>, cap: nat): State {
    State(checks, seq(|checks|, i => New), seq(|checks|, i => false), cap, [], seq(|checks|, i => None), 0,
          false, Looping, false, false, [], [])
  }

  /** The callers form a family: any number of calls, each starting whenever it likes. */
  function CallerStep(s: State, a: Action): Option<State>
    requires OfCaller(a) && a.i < |s.callers| == |s.checks| == |s.ctxDone| == |s.replies|
  {
    var i := a.i;
    match a
    case RLock(_) =>
      if s.callers[i].New? && !s.run.LockPending? && !s.run.Locked?
      then Some(s.(callers := s.callers[i := Checking], readers := s.readers + 1))
      else None
    case ReadClosed(_) =>
      if s.callers[i].Checking?
      then
        if s.closed then Return(s, i, BrokerStopped) else Some(s.(callers := s.callers[i := Selecting]))
      else None
    case Admit(_) =>
      if s.callers[i].Selecting? && |s.queue| < s.cap && s.readers > 0
      then
        var request := Request(i, s.checks[i]);
        Some(s.(callers := s.callers[i := Waiting], readers := s.readers - 1,
                queue := s.queue + [request], admitted := s.admitted + [request]))
      else None
    case AdmitCtx(_) => if s.callers[i].Selecting? && s.ctxDone[i] then Return(s, i, ContextDone) else None
    case AdmitDone(_) => if s.callers[i].Selecting? && s.done then Return(s, i, BrokerStopped) else None
    case TakeReply(_) =>
      if s.callers[i].Waiting? && s.replies[i].Some?
      then Some(s.(callers := s.callers[i := Returned(Answer(s.replies[i].value))],
                   replies := s.replies[i := None]))
      else None
    case WaitCtx(_) =>
      if s.callers[i].Waiting? && s.ctxDone[i]
      then Some(s.(callers := s.callers[i := Returned(ContextDone)])) else None
    case WaitDone(_) =>
      if s.callers[i].Waiting? && s.done
      then Some(s.(callers := s.callers[i := Returned(BrokerStopped)])) else None
    case _ => None
  }

  /** Return from inside the read lock. */
  function Return(s: State, i: nat, result: Result): Option<State>
    requires i < |s.callers|
  {
    if s.readers > 0 then Some(s.(callers := s.callers[i := Returned(result)], readers := s.readers - 1)) else None
  }

  function RunStep(s: State, a: Action): Option<State> {
    match a
    case RunTake =>
      if s.run.Looping? && s.queue != []
      then Some(s.(run := InEngine(s.queue[0]), queue := s.queue[1..])) else None
    case EngineReturn(reply) =>
      if s.run.InEngine?
      then Some(s.(run := Replying(s.run.request, reply), served := s.served + [Served(s.run.request, reply)]))
      else None
    case SendReply =>
      if s.run.Replying? && s.run.request.caller < |s.replies| && s.replies[s.run.request.caller].None?
      then Some(s.(run := Looping, replies := s.replies[s.run.request.caller := Some(s.run.reply)]))
      else None
    case StopReplying => if s.run.Replying? && s.runDone then Some(s.(run := LockPending)) else None
    case StopLooping => if s.run.Looping? && s.runDone then Some(s.(run := LockPending)) else None
    case Lock => if s.run.LockPending? && s.readers == 0 then Some(s.(run := Locked)) else None
    case SetClosed => if s.run.Locked? then Some(s.(run := Unlocked, closed := true)) else None
    case CloseDone => if s.run.Unlocked? then Some(s.(run := Stopped, done := true)) else None
    case _ => None
  }

  predicate OfCaller(a: Action) {
    a.RLock? || a.ReadClosed? || a.Admit? || a.AdmitCtx? || a.AdmitDone? || a.TakeReply? || a.WaitCtx? || a.WaitDone?
  }

  /** The contexts end from outside. */
  predicate OfEnvironment(a: Action) { a.CallerCancel? || a.RunCancel? }

  function Step(s: State, a: Action): Option<State> {
    if OfCaller(a) then
      if a.i < |s.callers| == |s.checks| == |s.ctxDone| == |s.replies| then CallerStep(s, a) else None
    else
      match a
      case CallerCancel(i) =>
        if i < |s.ctxDone| && !s.ctxDone[i] then Some(s.(ctxDone := s.ctxDone[i := true])) else None
      case RunCancel => if s.runDone then None else Some(s.(runDone := true))
      case _ => RunStep(s, a)
  }

  // ----- the invariant

  function Holding(c: Caller): nat { if c.Checking? || c.Selecting? then 1 else 0 }

  ghost predicate Shaped(s: State) {
    && |s.callers| == |s.checks| == |s.ctxDone| == |s.replies|
    && 1 <= s.cap && |s.queue| <= s.cap
    && s.readers == Sum(s.callers, Holding)
    && s.closed == (s.run.Unlocked? || s.run.Stopped?)
    && s.done == s.run.Stopped?
    && (s.run.Locked? ==> s.readers == 0)
    && (s.run.LockPending? || s.run.Locked? || s.closed ==> s.runDone)
    && (forall i :: 0 <= i < |s.callers| && s.callers[i].Selecting? ==> !s.closed)
  }

  function Requests(served: seq<Served>): seq<Request> {
    seq(|served|, k requires 0 <= k < |served| => served[k].request)
  }

  function InHand(run: RunPc): seq<Request> {
    if run.InEngine? then [run.request] else []
  }

  /** Order of service is order of admission, and nobody is admitted twice. */
  ghost predicate Fifo(s: State)
    requires Shaped(s)
  {
    && Requests(s.served) + InHand(s.run) + s.queue == s.admitted
    && (forall j, k :: 0 <= j < k < |s.admitted| ==> s.admitted[j].caller != s.admitted[k].caller)
    && (forall k :: 0 <= k < |s.admitted| ==>
          var r := s.admitted[k];
          r.caller < |s.callers| && r.check == s.checks[r.caller] &&
          (s.callers[r.caller].Waiting? || s.callers[r.caller].Returned?))
  }

  /** A reply in flight or received is the engine's outcome on the caller's own request. */
  ghost predicate Own(s: State, i: nat, reply: Reply)
    requires i < |s.checks|
  {
    Served(Request(i, s.checks[i]), reply) in s.served
  }

  ghost predicate Answered(s: State, i: nat)
    requires i < |s.callers| == |s.replies|
  {
    s.replies[i].Some? || (s.callers[i].Returned? && s.callers[i].result.Answer?)
  }

  ghost predicate Routed(s: State)
    requires Shaped(s)
  {
    && (forall i :: 0 <= i < |s.callers| && s.replies[i].Some? ==> Own(s, i, s.replies[i].value))
    && (forall i :: 0 <= i < |s.callers| && s.callers[i].Returned? && s.callers[i].result.Answer? ==>
          Own(s, i, s.callers[i].result.reply))
    && (s.run.Replying? ==>
          s.served != [] && s.served[|s.served| - 1] == Served(s.run.request, s.run.reply) &&
          s.run.request.caller < |s.callers| && !Answered(s, s.run.request.caller))
  }

  /** `Run` is still answering requests. */
  predicate Serving(run: RunPc) { run.Looping? || run.InEngine? || run.Replying? }

  /** While `Run` is serving, a caller that waits has its request queued, in hand or answered. */
  ghost predicate Owed(s: State)
    requires Shaped(s)
  {
    forall i :: 0 <= i < |s.callers| && s.callers[i].Waiting? && Serving(s.run) ==>
      || Request(i, s.checks[i]) in s.queue
      || (!s.run.Looping? && s.run.request.caller == i)
      || s.replies[i].Some?
  }

  ghost predicate Inv(s: State) { Shaped(s) && Fifo(s) && Routed(s) && Owed(s) }

  lemma InitInv(checks: seq<FraudCheck>, cap: nat)
    requires cap >= 1
    ensures Inv(Init(checks, cap))
  {
    SumNone(Init(checks, cap).callers, Holding);
  }

  lemma NoReader(s: State)
    requires s.readers == 0 == Sum(s.callers, Holding)
    ensures forall i :: 0 <= i < |s.callers| ==> !s.callers[i].Checking? && !s.callers[i].Selecting?
  {
    forall i | 0 <= i < |s.callers| ensures Holding(s.callers[i]) == 0 {
      SumMember(s.callers, i, Holding);
    }
  }

  lemma StepShaped(s: State, a: Action)
    requires Shaped(s) && Step(s, a).Some?
    ensures Shaped(Step(s, a).value)
  {
    var t := Step(s, a).value;
    if OfCaller(a) {
      SumUpdate(s.callers, a.i, t.callers[a.i], Holding);
      SumMember(s.callers, a.i, Holding);
    } else if a.SetClosed? {
      NoReader(s);
    }
  }

  lemma StepFifo(s: State, a: Action)
    requires Inv(s) && Step(s, a).Some?
    ensures Shaped(Step(s, a).value) && Fifo(Step(s, a).value)
  {
    if a.EngineReturn? {
      EngineFifo(s, a.reply);
    } else if a.Admit? {
      AdmitFifo(s, a.i);
    } else {
      OtherFifo(s, a);
    }
  }

  lemma EngineFifo(s: State, reply: Reply)
    requires Inv(s) && s.run.InEngine?
    ensures var t := Step(s, EngineReturn(reply)).value; Shaped(t) && Fifo(t)
  {
    StepShaped(s, EngineReturn(reply));
    var t := Step(s, EngineReturn(reply)).value;
    assert Requests(t.served) == Requests(s.served) + [s.run.request];
  }

  lemma OtherFifo(s: State, a: Action)
    requires Inv(s) && Step(s, a).Some? && !a.EngineReturn? && !a.Admit?
    ensures Shaped(Step(s, a).value) && Fifo(Step(s, a).value)
  {
    StepShaped(s, a);
    var t := Step(s, a).value;
    assert t.served == s.served && t.admitted == s.admitted;
  }

  lemma AdmitFifo(s: State, i: nat)
    requires Inv(s) && Step(s, Admit(i)).Some?
    ensures var t := Step(s, Admit(i)).value; Shaped(t) && Fifo(t)
  {
    StepShaped(s, Admit(i));
    var t := Step(s, Admit(i)).value;
    assert t.served == s.served && t.run == s.run;
    assert forall k :: 0 <= k < |s.admitted| ==> s.admitted[k].caller != i;
  }

  lemma EngineReturnRouted(s: State, reply: Reply)
    requires Inv(s) && s.run.InEngine?
    ensures var t := Step(s, EngineReturn(reply)).value; Shaped(t) && Routed(t)
  {
    var t := Step(s, EngineReturn(reply)).value;
    StepShaped(s, EngineReturn(reply));
    var n, i := |s.served|, s.run.request.caller;
    assert s.admitted[n] == s.run.request;
    assert forall k :: 0 <= k < n ==> s.admitted[k] == s.served[k].request;
    assert forall e :: e in s.served ==> e in t.served;
    NotYetAnswered(s);
  }

  /** The request in hand has not been served before, so its caller has no answer. */
  lemma NotYetAnswered(s: State)
    requires Inv(s) && s.run.InEngine?
    ensures s.run.request.caller < |s.callers| && !Answered(s, s.run.request.caller)
  {
    var n, i := |s.served|, s.run.request.caller;
    assert s.admitted[n] == s.run.request;
    forall e | e in s.served ensures e.request.caller != i {
      var k :| 0 <= k < n && s.served[k] == e;
      assert s.admitted[k] == s.served[k].request;
    }
  }

  lemma SendReplyRouted(s: State)
    requires Inv(s) && Step(s, SendReply).Some?
    ensures var t := Step(s, SendReply).value; Shaped(t) && Routed(t)
  {
    assert s.admitted[|s.served| - 1] == s.run.request;
    assert s.served[|s.served| - 1] in s.served;
  }

  lemma CallerRouted(s: State, a: Action)
    requires Inv(s) && OfCaller(a) && Step(s, a).Some?
    ensures Shaped(Step(s, a).value) && Routed(Step(s, a).value)
  {
    StepShaped(s, a);
    assert Step(s, a).value.served == s.served;
  }

  lemma StepRouted(s: State, a: Action)
    requires Inv(s) && Step(s, a).Some?
    ensures Shaped(Step(s, a).value) && Routed(Step(s, a).value)
  {
    if a.EngineReturn? {
      EngineReturnRouted(s, a.reply);
    } else if a.SendReply? {
      SendReplyRouted(s);
    } else if OfCaller(a) {
      CallerRouted(s, a);
    } else {
      StepShaped(s, a);
    }
  }

  lemma TakeOwed(s: State)
    requires Inv(s) && Step(s, RunTake).Some?
    ensures Shaped(Step(s, RunTake).value) && Owed(Step(s, RunTake).value)
  {
    StepShaped(s, RunTake);
    assert s.queue == [s.queue[0]] + Step(s, RunTake).value.queue;
  }

  lemma CallerOwed(s: State, a: Action)
    requires Inv(s) && OfCaller(a) && Step(s, a).Some?
    ensures Shaped(Step(s, a).value) && Owed(Step(s, a).value)
  {
    StepShaped(s, a);
    assert s.queue <= Step(s, a).value.queue;
  }

  lemma StepOwed(s: State, a: Action)
    requires Inv(s) && Step(s, a).Some?
    ensures Shaped(Step(s, a).value) && Owed(Step(s, a).value)
  {
    if a.RunTake? {
      TakeOwed(s);
    } else if OfCaller(a) {
      CallerOwed(s, a);
    } else {
      StepShaped(s, a);
    }
  }

  lemma StepInv(s: State, a: Action)
    requires Inv(s) && Step(s, a).Some?
    ensures Inv(Step(s, a).value)
    ensures Step(s, a).value.checks == s.checks && Step(s, a).value.cap == s.cap
  {
    StepShaped(s, a);
    StepFifo(s, a);
    StepRouted(s, a);
    StepOwed(s, a);
  }

  // ----- every run

  lemma EveryRun(checks: seq<FraudCheck>, cap: nat, run: seq<Action>)
    requires cap >= 1 && Exec(Step, Init(checks, cap), run).Some?
    ensures var s := Exec(Step, Init(checks, cap), run).value;
            Inv(s) && s.checks == checks && s.cap == cap
  {
    InitInv(checks, cap);
    var inv := (s: State) => Inv(s) && s.checks == checks && s.cap == cap;
    forall s: State, a: Action | inv(s) && Step(s, a).Some? ensures inv(Step(s, a).value) {
      StepInv(s, a);
    }
    Invariant(Step, inv, Init(checks, cap), run);
  }

  // ----- routing

  /**
    A `Check` that returns an engine outcome returns the engine's outcome on its
    own request; the engine serves requests in admission order, each at most
    once.
  */
  lemma Routing(checks: seq<FraudCheck>, cap: nat, run: seq<Action>, i: nat)
    requires cap >= 1 && Exec(Step, Init(checks, cap), run).Some? && i < |checks|
    ensures var s := Exec(Step, Init(checks, cap), run).value;
            && |s.callers| == |checks|
            && (s.callers[i].Returned? && s.callers[i].result.Answer? ==>
                  Served(Request(i, checks[i]), s.callers[i].result.reply) in s.served)
            && Requests(s.served) <= s.admitted
            && forall j, k :: 0 <= j < k < |s.served| ==> s.served[j].request.caller != s.served[k].request.caller
  {
    EveryRun(checks, cap, run);
    var s := Exec(Step, Init(checks, cap), run).value;
    assert s.admitted == Requests(s.served) + (InHand(s.run) + s.queue);
    assert forall k :: 0 <= k < |s.served| ==> s.admitted[k] == s.served[k].request;
  }

  /** An error is what it says: the caller's own context is over, or the broker is closed. */
  ghost predicate Honest(s: State)
    requires |s.callers| == |s.ctxDone|
  {
    forall i :: 0 <= i < |s.callers| && s.callers[i].Returned? ==>
      && (s.callers[i].result.ContextDone? ==> s.ctxDone[i])
      && (s.callers[i].result.BrokerStopped? ==> s.closed && s.runDone)
  }

  lemma CallerHonest(s: State, a: Action)
    requires Inv(s) && Honest(s) && OfCaller(a) && Step(s, a).Some?
    ensures Shaped(Step(s, a).value) && Honest(Step(s, a).value)
  {
    StepShaped(s, a);
  }

  lemma StepHonest(s: State, a: Action)
    requires Inv(s) && Honest(s) && Step(s, a).Some?
    ensures Inv(Step(s, a).value) && Honest(Step(s, a).value)
  {
    StepInv(s, a);
    if OfCaller(a) {
      CallerHonest(s, a);
    }
  }

  lemma ErrorsAreHonest(checks: seq<FraudCheck>, cap: nat, run: seq<Action>)
    requires cap >= 1 && Exec(Step, Init(checks, cap), run).Some?
    ensures var s := Exec(Step, Init(checks, cap), run).value; |s.callers| == |s.ctxDone| && Honest(s)
  {
    InitInv(checks, cap);
    var inv := (s: State) => Inv(s) && Honest(s);
    forall s: State, a: Action | inv(s) && Step(s, a).Some? ensures inv(Step(s, a).value) {
      StepHonest(s, a);
    }
    Invariant(Step, inv, Init(checks, cap), run);
  }

  /** A call whose context has ended leaves either select at once, also a full queue and a busy `Run`. */
  lemma ContextFrees(s: State, i: nat)
    requires Inv(s) && i < |s.callers| && s.ctxDone[i]
    ensures s.callers[i].Selecting? ==> s.readers > 0 && Step(s, AdmitCtx(i)) == Return(s, i, ContextDone)
    ensures s.callers[i].Waiting? ==>
              Step(s, WaitCtx(i)) == Some(s.(callers := s.callers[i := Returned(ContextDone)]))
  {
    SumMember(s.callers, i, Holding);
  }

  /** One slot is enough: in every run, sending a reply never blocks, even when the caller has left. */
  lemma ReplyNeverBlocks(checks: seq<FraudCheck>, cap: nat, run: seq<Action>)
    requires cap >= 1 && Exec(Step, Init(checks, cap), run).Some?
    ensures var s := Exec(Step, Init(checks, cap), run).value; s.run.Replying? ==> Step(s, SendReply).Some?
  {
    EveryRun(checks, cap, run);
  }

  // ----- admission and shutdown

  /** In every run the `done` arm of the admission select is dead, and a closed broker admits nothing. */
  lemma AdmissionArms(checks: seq<FraudCheck>, cap: nat, run: seq<Action>, i: nat)
    requires cap >= 1 && Exec(Step, Init(checks, cap), run).Some?
    ensures var s := Exec(Step, Init(checks, cap), run).value;
            Step(s, AdmitDone(i)).None? && (s.closed ==> Step(s, Admit(i)).None?)
  {
    EveryRun(checks, cap, run);
  }

  lemma ClosedStays(s: State, a: Action)
    requires Inv(s) && s.closed && Step(s, a).Some?
    ensures Inv(Step(s, a).value) && Step(s, a).value.closed && Step(s, a).value.admitted == s.admitted
  {
    StepInv(s, a);
  }

  lemma NothingAfterClosed(s: State, run: seq<Action>)
    requires Inv(s) && s.closed && Exec(Step, s, run).Some?
    ensures Exec(Step, s, run).value.closed && Exec(Step, s, run).value.admitted == s.admitted
  {
    var inv := (t: State) => Inv(t) && t.closed && t.admitted == s.admitted;
    forall t: State, a: Action | inv(t) && Step(t, a).Some? ensures inv(Step(t, a).value) {
      ClosedStays(t, a);
    }
    Invariant(Step, inv, s, run);
  }

  /** `Run` waits for the write lock while a caller who will not leave faces a full queue. */
  ghost predicate HeldBy(s: State, i: nat) {
    s.run.LockPending? && |s.queue| >= s.cap
    && i < |s.callers| == |s.ctxDone| && s.callers[i].Selecting? && !s.ctxDone[i]
  }

  ghost predicate Wedged(s: State) { exists i: nat :: HeldBy(s, i) }

  lemma HeldStays(s: State, i: nat, a: Action)
    requires Inv(s) && HeldBy(s, i) && a != CallerCancel(i) && Step(s, a).Some?
    ensures Inv(Step(s, a).value) && HeldBy(Step(s, a).value, i)
  {
    StepInv(s, a);
    SumMember(s.callers, i, Holding);
  }

  /**
    Once wedged, always wedged: unless that caller's own context ends, no
    continuation sets `closed` or closes `done`, and the caller never returns.
  */
  lemma WedgedForever(s: State, i: nat, run: seq<Action>)
    requires Inv(s) && HeldBy(s, i) && Exec(Step, s, run).Some?
    requires forall k :: 0 <= k < |run| ==> run[k] != CallerCancel(i)
    ensures var t := Exec(Step, s, run).value; HeldBy(t, i) && !t.closed && !t.done
  {
    var inv := (t: State) => Inv(t) && HeldBy(t, i);
    forall t: State, a: Action | inv(t) && a != CallerCancel(i) && Step(t, a).Some?
      ensures inv(Step(t, a).value)
    {
      HeldStays(t, i, a);
    }
    InvariantOnly(Step, a => a != CallerCancel(i), inv, s, run);
  }

  // what the shutdown still has to do
  function Weight(c: Caller): nat {
    match c case New => 7 case Checking => 6 case Selecting => 5 case Waiting => 1 case Returned(_) => 0
  }

  function RunWeight(run: RunPc): nat {
    match run
    case InEngine(_) => 6
    case Replying(_, _) => 5
    case Looping => 4
    case LockPending => 3
    case Locked => 2
    case Unlocked => 1
    case Stopped => 0
  }

  function Pending(b: bool): nat { if b then 0 else 1 }

  function Rank(s: State): nat {
    Sum(s.callers, Weight) + Sum(s.ctxDone, Pending) + Pending(s.runDone) + 3 * |s.queue| + RunWeight(s.run)
  }

  lemma CallerLowersRank(s: State, a: Action)
    requires OfCaller(a) && Step(s, a).Some?
    ensures Rank(Step(s, a).value) < Rank(s)
  {
    SumUpdate(s.callers, a.i, Step(s, a).value.callers[a.i], Weight);
  }

  lemma StepLowersRank(s: State, a: Action)
    requires Inv(s) && Step(s, a).Some?
    ensures Rank(Step(s, a).value) < Rank(s)
  {
    if OfCaller(a) {
      CallerLowersRank(s, a);
    } else if a.CallerCancel? {
      SumUpdate(s.ctxDone, a.i, true, Pending);
    }
  }

  ghost predicate AllReturned(s: State) {
    forall i :: 0 <= i < |s.callers| ==> s.callers[i].Returned?
  }

  /** No goroutine of the broker can move; only a context ending from outside can change anything. */
  ghost predicate Stuck(s: State) {
    forall a: Action :: !OfEnvironment(a) ==> Step(s, a).None?
  }

  lemma StuckHolder(s: State, i: nat)
    requires Inv(s) && Stuck(s) && i < |s.callers| && Holding(s.callers[i]) == 1
    ensures HeldBy(s, i)
  {
    SumMember(s.callers, i, Holding);
    assert Step(s, ReadClosed(i)).None? && Step(s, Admit(i)).None? && Step(s, AdmitCtx(i)).None?;
    StuckRun(s);
  }

  lemma StuckRun(s: State)
    requires Inv(s) && Stuck(s)
    ensures s.run.Stopped? || (s.run.Looping? && s.queue == []) || (s.run.LockPending? && s.readers > 0)
  {
    var anyReply := Reply(Decision("", false, "", 0), None);
    assert Step(s, RunTake).None? && Step(s, EngineReturn(anyReply)).None? && Step(s, SendReply).None?;
    assert Step(s, Lock).None? && Step(s, SetClosed).None? && Step(s, CloseDone).None?;
  }

  /**
    The only deadlock: when nothing can move, either every call has returned and
    the broker is idle or stopped, or the broker is wedged.
  */
  lemma OnlyDeadlock(s: State)
    requires Inv(s) && Stuck(s)
    ensures Wedged(s) || (AllReturned(s) && (s.run.Stopped? || (s.run.Looping? && s.queue == [])))
  {
    StuckRun(s);
    if s.readers > 0 {
      var i := SumPositive(s.callers, Holding);
      StuckHolder(s, i);
    } else {
      NoReader(s);
      forall i | 0 <= i < |s.callers| ensures s.callers[i].Returned? {
        assert Step(s, RLock(i)).None? && Step(s, TakeReply(i)).None? && Step(s, WaitDone(i)).None?;
      }
    }
  }

  // ----- whether the deadlock can happen

  /** The first `n` calls are in the queue, the others have not begun, and `Run` has not looked yet. */
  ghost predicate Filled(s: State, n: nat) {
    && |s.callers| == |s.checks| == |s.ctxDone| == |s.replies| && n <= |s.callers| && |s.queue| == n
    && s.readers == 0 && s.run.Looping? && !s.runDone && !s.closed
    && forall k :: 0 <= k < |s.callers| ==> !s.ctxDone[k] && (n <= k ==> s.callers[k].New?)
  }

  lemma AdmitNext(s0: State, run0: seq<Action>, s: State, n: nat) returns (run: seq<Action>, t: State)
    requires Exec(Step, s0, run0) == Some(s) && Filled(s, n) && n < s.cap && n < |s.callers|
    ensures Exec(Step, s0, run) == Some(t) && Filled(t, n + 1) && t.cap == s.cap && t.checks == s.checks
  {
    run, t := Append(Step, s0, run0, s, RLock(n));
    run, t := Append(Step, s0, run, t, ReadClosed(n));
    run, t := Append(Step, s0, run, t, Admit(n));
  }

  lemma {:induction false} FillQueue(checks: seq<FraudCheck>, cap: nat, n: nat) returns (run: seq<Action>, t: State)
    requires n <= cap && n <= |checks|
    ensures Exec(Step, Init(checks, cap), run) == Some(t) && Filled(t, n) && t.cap == cap && t.checks == checks
  {
    if n == 0 {
      run, t := [], Init(checks, cap);
    } else {
      run, t := FillQueue(checks, cap, n - 1);
      run, t := AdmitNext(Init(checks, cap), run, t, n - 1);
    }
  }

  /** One more call than places: it is inside when `Run`, told to stop, leaves the full queue alone. */
  lemma WedgeIsReachable(checks: seq<FraudCheck>, cap: nat) returns (run: seq<Action>, t: State)
    requires cap < |checks|
    ensures Exec(Step, Init(checks, cap), run) == Some(t) && Wedged(t)
  {
    var s := Init(checks, cap);
    run, t := FillQueue(checks, cap, cap);
    run, t := Append(Step, s, run, t, RLock(cap));
    run, t := Append(Step, s, run, t, ReadClosed(cap));
    run, t := Append(Step, s, run, t, RunCancel);
    run, t := Append(Step, s, run, t, StopLooping);
    assert HeldBy(t, cap);
  }

  function CallersOf(queue: seq<Request>): seq<nat> {
    seq(|queue|, k requires 0 <= k < |queue| => queue[k].caller)
  }

  /** A full queue and a caller outside it need more calls than there are places. */
  lemma WedgedNeedsCalls(s: State, i: nat)
    requires Inv(s) && HeldBy(s, i)
    ensures s.cap < |s.checks|
  {
    var waiting := CallersOf(s.queue);
    var n := |s.admitted| - |s.queue|;
    assert forall k :: 0 <= k < |s.queue| ==> s.queue[k] == s.admitted[n + k];
    forall x | x in waiting + [i] ensures x < |s.checks| {
      if x in waiting {
        var k :| 0 <= k < |waiting| && waiting[k] == x;
        assert s.queue[k].caller == x;
      }
    }
    Pigeonhole(waiting + [i], |s.checks|);
  }

  /** Some run ends in the deadlock if and only if there are more calls than places in the queue. */
  lemma WedgeReachableExactly(checks: seq<FraudCheck>, cap: nat)
    requires cap >= 1
    ensures (exists run :: Exec(Step, Init(checks, cap), run).Some? && Wedged(Exec(Step, Init(checks, cap), run).value))
            <==> cap < |checks|
  {
    if cap < |checks| {
      var run, t := WedgeIsReachable(checks, cap);
    } else {
      forall run | Exec(Step, Init(checks, cap), run).Some? ensures !Wedged(Exec(Step, Init(checks, cap), run).value) {
        EveryRun(checks, cap, run);
        var s := Exec(Step, Init(checks, cap), run).value;
        forall i: nat ensures !HeldBy(s, i) {
          if HeldBy(s, i) {
            WedgedNeedsCalls(s, i);
          }
        }
      }
    }
  }

  /** No context ends in the run, neither a caller's nor that of `Run`. */
  ghost predicate Undisturbed(run: seq<Action>) { forall a :: a in run ==> !OfEnvironment(a) }

  lemma Undisturbing(checks: seq<FraudCheck>, cap: nat, run: seq<Action>)
    requires Exec(Step, Init(checks, cap), run).Some? && Undisturbed(run)
    ensures var s := Exec(Step, Init(checks, cap), run).value; !s.runDone && true !in s.ctxDone
  {
    var inv := (s: State) => !s.runDone && true !in s.ctxDone;
    forall s: State, a: Action | inv(s) && !OfEnvironment(a) && Step(s, a).Some? ensures inv(Step(s, a).value) {
    }
    InvariantOnly(Step, (a: Action) => !OfEnvironment(a), inv, Init(checks, cap), run);
  }

  // ----- the goroutines

  /**
    The broker with its callers. Each method runs one goroutine from one blocking
    point to the next, taking any ready arm of its select. Releasing the read
    lock never blocks and goes with the step before it.
  */
  class Broker {
    const checks: seq<FraudCheck>
    const cap: nat
    var callers: seq<Caller>
    var ctxDone: seq<bool>
    var queue: seq<Request>
    var replies: seq<Option<Reply>>
    var readers: nat
    var runDone: bool
    var run: RunPc
    var closed: bool
    var done: bool
    ghost var admitted: seq<Request>
    ghost var served: seq<Served>

    ghost function Abs(): State
      reads this
    {
      State(checks, callers, ctxDone, cap, queue, replies, readers, runDone, run, closed, done, admitted, served)
    }

    constructor (checks: seq<FraudCheck>, buffer: nat)
      ensures Abs() == Init(checks, buffer)
    {
      this.checks, cap := checks, buffer;
      callers, ctxDone := seq(|checks|, i => New), seq(|checks|, i => false);
      queue, replies, readers := [], seq(|checks|, i => None), 0;
      runDone, run, closed, done := false, Looping, false, false;
      admitted, served := [], [];
    }

    predicate CheckReady(i: nat)
      reads this
    {
      i < |callers| == |ctxDone| == |replies| &&
      match callers[i]
      case New => !run.LockPending? && !run.Locked?
      case Checking => true
      case Selecting => |queue| < cap || ctxDone[i] || done
      case Waiting => replies[i].Some? || ctxDone[i] || done
      case Returned(_) => false
    }

    method LeaveLock(i: nat, result: Result)
      requires i < |callers| && readers > 0
      modifies this
      ensures Return(old(Abs()), i, result) == Some(Abs())
    {
      readers := readers - 1;
      callers := callers[i := Returned(result)];
    }

    /** `Check`, up to its next blocking point. */
    method CheckStep(i: nat) returns (ghost a: Action)
      requires i < |callers| && Inv(Abs()) && CheckReady(i)
      modifies this
      ensures OfCaller(a) && a.i == i && Step(old(Abs()), a) == Some(Abs())
    {
      SumMember(callers, i, Holding);
      match callers[i]
      case New =>
        a := RLock(i);
        readers := readers + 1;
        callers := callers[i := Checking];
      case Checking =>
        a := ReadClosed(i);
        if closed {
          LeaveLock(i, BrokerStopped);
        } else {
          callers := callers[i := Selecting];
        }
      case Selecting =>
        a := SelectAdmission(i);
      case Waiting =>
        a := SelectReply(i);
    }

    method SelectAdmission(i: nat) returns (ghost a: Action)
      requires i < |callers| == |checks| == |ctxDone| == |replies| && callers[i].Selecting? && readers > 0
      requires |queue| < cap || ctxDone[i] || done
      modifies this
      ensures OfCaller(a) && a.i == i && Step(old(Abs()), a) == Some(Abs())
    {
      if
      case |queue| < cap =>
        a := Admit(i);
        var request := Request(i, checks[i]);
        queue := queue + [request];
        admitted := admitted + [request];
        readers := readers - 1;
        callers := callers[i := Waiting];
      case ctxDone[i] =>
        a := AdmitCtx(i);
        LeaveLock(i, ContextDone);
      case done =>
        a := AdmitDone(i);
        LeaveLock(i, BrokerStopped);
    }

    method SelectReply(i: nat) returns (ghost a: Action)
      requires i < |callers| && Shaped(Abs()) && callers[i].Waiting?
      requires replies[i].Some? || ctxDone[i] || done
      modifies this
      ensures OfCaller(a) && a.i == i && Step(old(Abs()), a) == Some(Abs())
    {
      if
      case replies[i].Some? =>
        a := TakeReply(i);
        callers := callers[i := Returned(Answer(replies[i].value))];
        replies := replies[i := None];
      case ctxDone[i] =>
        a := WaitCtx(i);
        callers := callers[i := Returned(ContextDone)];
      case done =>
        a := WaitDone(i);
        callers := callers[i := Returned(BrokerStopped)];
    }

    predicate RunReady()
      reads this
    {
      match run
      case Looping => queue != [] || runDone
      case LockPending => readers == 0
      case Stopped => false
      case _ => true
    }

    /** `Run` and its deferred shutdown; `reply` is what the engine returns if this step is its return. */
    method RunStep(reply: Reply) returns (ghost a: Action)
      requires Inv(Abs()) && RunReady()
      modifies this
      ensures !OfCaller(a) && !OfEnvironment(a) && Step(old(Abs()), a) == Some(Abs())
    {
      match run
      case Looping =>
        a := SelectRequest();
      case InEngine(request) =>
        a := EngineReturn(reply);
        served := served + [Served(request, reply)];
        run := Replying(request, reply);
      case Replying(_, _) =>
        a := SelectSend();
      case LockPending =>
        a := Lock;
        run := Locked;
      case Locked =>
        a := SetClosed;
        closed := true;
        run := Unlocked;
      case Unlocked =>
        a := CloseDone;
        done := true;
        run := Stopped;
    }

    /** The slot for the reply is free: see `ReplyNeverBlocks`. */
    method SelectSend() returns (ghost a: Action)
      requires Inv(Abs()) && run.Replying?
      modifies this
      ensures (a == SendReply || a == StopReplying) && Step(old(Abs()), a) == Some(Abs())
    {
      if
      case true =>
        a := SendReply;
        replies := replies[run.request.caller := Some(run.reply)];
        run := Looping;
      case runDone =>
        a := StopReplying;
        run := LockPending;
    }

    method SelectRequest() returns (ghost a: Action)
      requires run.Looping? && (queue != [] || runDone)
      modifies this
      ensures a == RunTake || a == StopLooping
      ensures Step(old(Abs()), a) == Some(Abs())
    {
      if
      case queue != [] =>
        a := RunTake;
        run := InEngine(queue[0]);
        queue := queue[1..];
      case runDone =>
        a := StopLooping;
        run := LockPending;
    }

    /** A context ends from outside: that of call `i`, or that of `Run`. */
    method EndContext(i: nat) returns (ghost a: Action)
      requires i < |ctxDone| && !ctxDone[i]
      modifies this
      ensures a == CallerCancel(i) && Step(old(Abs()), a) == Some(Abs())
    {
      a := CallerCancel(i);
      ctxDone := ctxDone[i := true];
    }

    method StopRun() returns (ghost a: Action)
      requires !runDone
      modifies this
      ensures a == RunCancel && Step(old(Abs()), a) == Some(Abs())
    {
      a := RunCancel;
      runDone := true;
    }

    predicate Ready()
      reads this
    {
      RunReady() || exists i :: 0 <= i < |callers| && CheckReady(i)
    }

    /** The guards miss no step. */
    lemma GuardsMissNothing()
      requires Inv(Abs())
      ensures !Ready() ==> Stuck(Abs())
    {
      if !Ready() {
        forall a: Action | !OfEnvironment(a) ensures Step(Abs(), a).None? {
          assert OfCaller(a) && a.i < |callers| ==> !CheckReady(a.i);
        }
      }
    }

    predicate ContextsGoOn()
      reads this
    {
      !runDone || exists i :: 0 <= i < |ctxDone| && !ctxDone[i]
    }

    /** One turn of any goroutine that is not blocked or, if they may end, of any context. */
    method Turn(reply: Reply, contextsEnd: bool) returns (ghost a: Action)
      requires Inv(Abs()) && (Ready() || (contextsEnd && ContextsGoOn()))
      modifies this
      ensures OfEnvironment(a) ==> contextsEnd
      ensures Step(old(Abs()), a) == Some(Abs()) && Inv(Abs()) && Rank(Abs()) < old(Rank(Abs()))
    {
      ghost var s := Abs();
      if {
        case i: nat :| i < |callers| && CheckReady(i) => a := CheckStep(i);
        case RunReady() => a := RunStep(reply);
        case i: nat :| contextsEnd && i < |ctxDone| && !ctxDone[i] => a := EndContext(i);
        case contextsEnd && !runDone => a := StopRun();
      }
      StepInv(s, a);
      StepLowersRank(s, a);
    }
  }

  /**
    A broker with its calls, the scheduler and the contexts free at every turn:
    `run` is the interleaving chosen and `end` the state it led to, where no
    goroutine can move. Then every call has returned, or the broker is wedged; and
    with a place in the queue for every call it never is. Contexts may end only if
    `contextsEnd`. If none does, every call is answered.
  */
  method RunBroker(checks: seq<FraudCheck>, buffer: nat, contextsEnd: bool)
    returns (calls: seq<Caller>, ghost run: seq<Action>, ghost end: State)
    requires buffer >= 1
    ensures Exec(Step, Init(checks, buffer), run) == Some(end) && Stuck(end) && calls == end.callers
    ensures Wedged(end) || forall i :: 0 <= i < |calls| ==> calls[i].Returned?
    ensures |checks| <= buffer ==> !Wedged(end)
    ensures |calls| == |checks| && (|checks| <= buffer ==> forall i :: 0 <= i < |calls| ==> calls[i].Returned?)
    ensures forall i :: 0 <= i < |calls| && calls[i].Returned? && calls[i].result.Answer? ==>
              Served(Request(i, checks[i]), calls[i].result.reply) in end.served
    ensures !contextsEnd ==>
              Undisturbed(run) && forall i :: 0 <= i < |calls| ==> calls[i].Returned? && calls[i].result.Answer?
  {
    var broker := new Broker(checks, buffer);
    run, end := [], Init(checks, buffer);
    InitInv(checks, buffer);
    var more: bool := *;
    while broker.Ready() || (more && contextsEnd && broker.ContextsGoOn())
      invariant fresh(broker) && Inv(broker.Abs()) && (!contextsEnd ==> Undisturbed(run))
      invariant Exec(Step, Init(checks, buffer), run) == Some(end) && end == broker.Abs()
      decreases Rank(broker.Abs())
    {
      var reply: Reply := *;
      ghost var a := broker.Turn(reply, contextsEnd);
      run, end := Append(Step, Init(checks, buffer), run, end, a);
      more := *;
    }
    calls := broker.callers;
    broker.GuardsMissNothing();
    OnlyDeadlock(end);
    EveryRun(checks, buffer, run);
    if |checks| <= buffer {
      WedgeReachableExactly(checks, buffer);
    }
    if !contextsEnd {
      Undisturbing(checks, buffer, run);
      ErrorsAreHonest(checks, buffer, run);
    }
  }
}
