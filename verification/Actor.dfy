/**
  The inventory actor: one goroutine owns the stock and runs commands that
  callers hand to it on an unbuffered channel, answering each on the caller's
  own one-slot channel. Whatever the interleaving, the answers are those of one
  serial log.
*/
module Actor {
  import opened Wrappers
  import opened Folds
  import opened Runs
  import opened Inventory

  datatype Result = Answer(result: CommandResult) | ContextDone | ActorStopped

  /** `from` and `to` are the lengths of the log when the call began and when it returned. */
  datatype Caller =
    | New
    | Offering(from: nat)
    | Waiting(from: nat)
    | Returned(result: Result, from: nat, to: nat)

  datatype Stopper = Idle | AwaitingDone | StopReturned

  datatype Loop = Looping | Serving(caller: nat) | Exited

  datatype State = State(
    init: Stock,
    commands: seq<Command>,
    callers: seq<Caller>,
    stoppers: seq<Stopper>,
    replies: seq<Option<CommandResult>>,
    stop: bool,
    done: bool,
    loop: Loop,
    stock: Stock,
    // history
    log: seq<LogEntry>,
    ranAt: map<nat, nat>)

  datatype Action =
    | Start(i: nat)
    | OfferCtx(i: nat)
    | OfferDone(i: nat)
    | TakeReply(i: nat)
    | WaitCtx(i: nat)
    | WaitDone(i: nat)
    | Accept(i: nat)
    | Execute
    | LoopExit
    | StopCall(k: nat)
    | StopReturn(k: nat)

  function Init(init: Stock, commands: seq<Command>, stops: nat): State {
    State(init, commands, seq(|commands|, i => New), seq(stops, k => Idle), seq(|commands|, i => None),
          false, false, Looping, init, [], map[])
  }

  predicate OfCaller(a: Action) {
    a.Start? || a.OfferCtx? || a.OfferDone? || a.TakeReply? || a.WaitCtx? || a.WaitDone? || a.Accept?
  }

  /** The caller's context ends, at whatever moment. */
  predicate OfEnvironment(a: Action) { a.OfferCtx? || a.WaitCtx? }

  function Return(s: State, i: nat, result: Result): Option<State>
    requires i < |s.callers| && (s.callers[i].Offering? || s.callers[i].Waiting?)
  {
    Some(s.(callers := s.callers[i := Returned(result, s.callers[i].from, |s.log|)]))
  }

  function CallerStep(s: State, a: Action): Option<State>
    requires OfCaller(a) && a.i < |s.callers| == |s.replies| == |s.commands|
  {
    var i := a.i;
    match a
    case Start(_) =>
      if s.callers[i].New? then Some(s.(callers := s.callers[i := Offering(|s.log|)])) else None
    case OfferCtx(_) => if s.callers[i].Offering? then Return(s, i, ContextDone) else None
    case OfferDone(_) => if s.callers[i].Offering? && s.done then Return(s, i, ActorStopped) else None
    case Accept(_) =>
      if s.callers[i].Offering? && s.loop.Looping?
      then Some(s.(callers := s.callers[i := Waiting(s.callers[i].from)], loop := Serving(i)))
      else None
    case TakeReply(_) =>
      if s.callers[i].Waiting? && s.replies[i].Some?
      then Return(s.(replies := s.replies[i := None]), i, Answer(s.replies[i].value))
      else None
    case WaitCtx(_) => if s.callers[i].Waiting? then Return(s, i, ContextDone) else None
    case WaitDone(_) => if s.callers[i].Waiting? && s.done then Return(s, i, ActorStopped) else None
    case _ => None
  }

  ghost function Step(s: State, a: Action): Option<State> {
    if OfCaller(a) then
      if a.i < |s.callers| == |s.replies| == |s.commands| then CallerStep(s, a) else None
    else
      match a
      case Execute =>
        if s.loop.Serving? && s.loop.caller < |s.commands| == |s.replies| && s.replies[s.loop.caller].None?
        then Some(Executed(s, s.loop.caller))
        else None
      case LoopExit => if s.loop.Looping? && s.stop then Some(s.(loop := Exited, done := true)) else None
      case StopCall(k) =>
        if k < |s.stoppers| && s.stoppers[k].Idle?
        then Some(s.(stoppers := s.stoppers[k := AwaitingDone], stop := true)) else None
      case StopReturn(k) =>
        if k < |s.stoppers| && s.stoppers[k].AwaitingDone? && s.done
        then Some(s.(stoppers := s.stoppers[k := StopReturned])) else None
      case _ => None
  }

  /** Run the command and put the result in the caller's slot. */
  ghost function Executed(s: State, i: nat): State
    requires i < |s.commands| == |s.replies|
  {
    var (stock, result) := Run(s.stock, s.commands[i]);
    s.(stock := stock, loop := Looping, replies := s.replies[i := Some(result)],
       log := s.log + [LogEntry(i, s.commands[i], result)], ranAt := s.ranAt[i := |s.log|])
  }

  // ----- the invariant

  ghost predicate Shaped(s: State) {
    && |s.callers| == |s.replies| == |s.commands|
    && s.done == s.loop.Exited?
    && (s.loop.Serving? ==> s.loop.caller < |s.callers|)
    && (forall k :: 0 <= k < |s.stoppers| && s.stoppers[k].StopReturned? ==> s.done)
    && (forall k :: 0 <= k < |s.stoppers| && s.stoppers[k].AwaitingDone? ==> s.stop)
  }

  /** Every caller's command is in the log at most once, at its own place. */
  ghost predicate Placed(s: State) {
    && (forall p :: 0 <= p < |s.log| ==>
          var e := s.log[p];
          e.caller in s.ranAt && s.ranAt[e.caller] == p &&
          e.caller < |s.commands| && e.command == s.commands[e.caller])
    && (forall i :: i in s.ranAt ==> s.ranAt[i] < |s.log| && s.log[s.ranAt[i]].caller == i)
  }

  /** What caller `i`'s command gave when it ran. */
  ghost function Ran(s: State, i: nat): CommandResult
    requires Placed(s) && i in s.ranAt
  {
    s.log[s.ranAt[i]].result
  }

  ghost predicate CallerOk(s: State, i: nat)
    requires i < |s.callers| == |s.replies| && Placed(s)
  {
    var serving := s.loop == Serving(i);
    && (s.replies[i].Some? ==> i in s.ranAt && Ran(s, i) == s.replies[i].value)
    && match s.callers[i]
       case New => i !in s.ranAt && !serving
       case Offering(from) => i !in s.ranAt && !serving && from <= |s.log|
       case Waiting(from) =>
         && from <= |s.log| && (serving <==> i !in s.ranAt)
         && (i in s.ranAt ==> from <= s.ranAt[i] && s.replies[i].Some?)
       case Returned(result, from, to) =>
         && from <= to <= |s.log| && (serving ==> i !in s.ranAt) && (result.ActorStopped? ==> s.done)
         && (result.Answer? ==> i in s.ranAt && from <= s.ranAt[i] < to && Ran(s, i) == result.result)
  }

  ghost predicate Inv(s: State) {
    && Shaped(s) && Placed(s)
    && (forall i :: 0 <= i < |s.callers| ==> CallerOk(s, i))
    && Serial(s.init, s.log) && s.stock == Replay(s.init, s.log)
  }

  lemma CallerStepInv(s: State, a: Action)
    requires Inv(s) && OfCaller(a) && Step(s, a).Some?
    ensures Inv(Step(s, a).value)
  {
    CallerStepFrame(s, a);
    forall i | 0 <= i < |s.callers| ensures CallerOk(Step(s, a).value, i) {
      CallerStepCaller(s, a, i);
    }
  }

  lemma CallerStepFrame(s: State, a: Action)
    requires Shaped(s) && Placed(s) && OfCaller(a) && Step(s, a).Some?
    ensures var t := Step(s, a).value;
            && Shaped(t) && Placed(t) && |t.callers| == |s.callers|
            && t.log == s.log && t.ranAt == s.ranAt && t.stock == s.stock && t.init == s.init
  {
  }

  lemma CallerStepCaller(s: State, a: Action, i: nat)
    requires Inv(s) && OfCaller(a) && Step(s, a).Some? && i < |s.callers|
    ensures var t := Step(s, a).value; Shaped(t) && Placed(t) && i < |t.callers| && CallerOk(t, i)
  {
    CallerStepFrame(s, a);
    if i == a.i {
      MovedCallerOk(s, a);
    } else {
      OtherCallerOk(s, a, i);
    }
  }

  lemma MovedCallerOk(s: State, a: Action)
    requires Inv(s) && OfCaller(a) && Step(s, a).Some?
    ensures var t := Step(s, a).value; Shaped(t) && Placed(t) && a.i < |t.callers| && CallerOk(t, a.i)
  {
    CallerStepFrame(s, a);
    assert CallerOk(s, a.i);
  }

  lemma OtherCallerOk(s: State, a: Action, i: nat)
    requires Inv(s) && OfCaller(a) && Step(s, a).Some? && i < |s.callers| && i != a.i
    ensures var t := Step(s, a).value; Shaped(t) && Placed(t) && i < |t.callers| && CallerOk(t, i)
  {
    CallerStepFrame(s, a);
    assert CallerOk(s, i);
  }

  lemma {:induction false} SerialExtends(init: Stock, log: seq<LogEntry>, e: LogEntry)
    requires Serial(init, log) && e.result == Run(Replay(init, log), e.command).1
    ensures Serial(init, log + [e]) && Replay(init, log + [e]) == Run(Replay(init, log), e.command).0
  {
    var longer := log + [e];
    assert longer[..|log|] == log;
    forall k | 0 <= k < |longer| ensures longer[k].result == Run(Replay(init, longer[..k]), longer[k].command).1 {
      if k < |log| {
        assert longer[..k] == log[..k];
      }
    }
  }

  lemma ExecuteCaller(s: State, j: nat)
    requires Inv(s) && Step(s, Execute).Some? && j < |s.callers|
    ensures var t := Step(s, Execute).value; Shaped(t) && Placed(t) && CallerOk(t, j)
  {
    var t := Step(s, Execute).value;
    assert CallerOk(s, s.loop.caller);
    assert CallerOk(s, j);
    assert j in s.ranAt ==> t.log[t.ranAt[j]] == s.log[s.ranAt[j]];
  }

  lemma StepInv(s: State, a: Action)
    requires Inv(s) && Step(s, a).Some?
    ensures Inv(Step(s, a).value)
    ensures Step(s, a).value.init == s.init && Step(s, a).value.commands == s.commands
    ensures s.log <= Step(s, a).value.log
  {
    if OfCaller(a) {
      CallerStepInv(s, a);
    } else if a.Execute? {
      var i := s.loop.caller;
      SerialExtends(s.init, s.log, LogEntry(i, s.commands[i], Run(s.stock, s.commands[i]).1));
      ExecuteCaller(s, i);
      forall j | 0 <= j < |s.callers| ensures CallerOk(Step(s, a).value, j) {
        ExecuteCaller(s, j);
      }
    } else {
      ControlInv(s, a);
    }
  }

  lemma ControlInv(s: State, a: Action)
    requires Inv(s) && (a.LoopExit? || a.StopCall? || a.StopReturn?) && Step(s, a).Some?
    ensures Inv(Step(s, a).value)
  {
    var t := Step(s, a).value;
    assert Shaped(t) && Placed(t);
    forall i | 0 <= i < |t.callers| ensures CallerOk(t, i) {
      assert CallerOk(s, i);
    }
  }

  // ----- every run

  lemma EveryRun(init: Stock, commands: seq<Command>, stops: nat, run: seq<Action>)
    requires Exec(Step, Init(init, commands, stops), run).Some?
    ensures var s := Exec(Step, Init(init, commands, stops), run).value;
            Inv(s) && s.init == init && s.commands == commands
  {
    var inv := (s: State) => Inv(s) && s.init == init && s.commands == commands;
    forall s: State, a: Action | inv(s) && Step(s, a).Some? ensures inv(Step(s, a).value) {
      StepInv(s, a);
    }
    Invariant(Step, inv, Init(init, commands, stops), run);
  }

  /**
    Linearizability. One log, replayed serially from the initial stock, explains
    every answer: a call that returned an answer has its command in the log at a
    place between its beginning and its return, with that answer.
  */
  lemma Linearizable(init: Stock, commands: seq<Command>, stops: nat, run: seq<Action>, i: nat)
    requires Exec(Step, Init(init, commands, stops), run).Some? && i < |commands|
    ensures var s := Exec(Step, Init(init, commands, stops), run).value;
            && Serial(init, s.log) && s.stock == Replay(init, s.log) && |s.callers| == |commands|
            && (s.callers[i].Returned? && s.callers[i].result.Answer? ==>
                  exists p :: s.callers[i].from <= p < s.callers[i].to <= |s.log| &&
                    s.log[p] == LogEntry(i, commands[i], s.callers[i].result.result))
  {
    EveryRun(init, commands, stops, run);
    var s := Exec(Step, Init(init, commands, stops), run).value;
    assert CallerOk(s, i);
    if s.callers[i].Returned? && s.callers[i].result.Answer? {
      assert s.log[s.ranAt[i]] == LogEntry(i, commands[i], s.callers[i].result.result);
    }
  }

  /** The answer to call `i` is in the log, and it is the right one for the stock the log had led to there. */
  ghost predicate RightlyAnswered(s: State, i: nat, command: Command, result: CommandResult) {
    exists p :: 0 <= p < |s.log| && s.log[p] == LogEntry(i, command, result) &&
      RightAnswer(Replay(s.init, s.log[..p]), command, result, Replay(s.init, s.log[..p + 1]))
  }

  /** Every answer is accepted or refused as it should be, and shows the stock it left. */
  lemma AnswersAreRight(init: Stock, commands: seq<Command>, stops: nat, run: seq<Action>)
    requires Exec(Step, Init(init, commands, stops), run).Some?
    ensures var s := Exec(Step, Init(init, commands, stops), run).value;
            && |s.callers| == |commands| && s.init == init
            && forall i :: 0 <= i < |commands| && Answered(s.callers[i]) ==>
                 RightlyAnswered(s, i, commands[i], s.callers[i].result.result)
  {
    EveryRun(init, commands, stops, run);
    var s := Exec(Step, Init(init, commands, stops), run).value;
    forall i | 0 <= i < |commands| && Answered(s.callers[i])
      ensures RightlyAnswered(s, i, commands[i], s.callers[i].result.result)
    {
      Linearizable(init, commands, stops, run, i);
      var p :| 0 <= p < |s.log| && s.log[p] == LogEntry(i, commands[i], s.callers[i].result.result);
      LogAnswersRight(init, s.log, p);
    }
  }

  /** A command is run at most once, whatever its caller was told. */
  lemma AtMostOnce(init: Stock, commands: seq<Command>, stops: nat, run: seq<Action>)
    requires Exec(Step, Init(init, commands, stops), run).Some?
    ensures var s := Exec(Step, Init(init, commands, stops), run).value;
            forall p, q :: 0 <= p < q < |s.log| ==> s.log[p].caller != s.log[q].caller
  {
    EveryRun(init, commands, stops, run);
  }

  /** Real time: a call that returned its answer before another began is before it in the log. */
  lemma RealTimeOrder(init: Stock, commands: seq<Command>, stops: nat, run: seq<Action>, i: nat, j: nat)
    requires Exec(Step, Init(init, commands, stops), run).Some? && i < |commands| && j < |commands|
    ensures var s := Exec(Step, Init(init, commands, stops), run).value;
            && |s.callers| == |commands|
            && (Answered(s.callers[i]) && Answered(s.callers[j]) && s.callers[i].to <= s.callers[j].from ==>
                  exists p, q :: 0 <= p < q < |s.log| && s.log[p].caller == i && s.log[q].caller == j)
  {
    EveryRun(init, commands, stops, run);
    var s := Exec(Step, Init(init, commands, stops), run).value;
    assert CallerOk(s, i) && CallerOk(s, j);
    if Answered(s.callers[i]) && Answered(s.callers[j]) && s.callers[i].to <= s.callers[j].from {
      assert s.ranAt[i] < s.ranAt[j] && s.log[s.ranAt[i]].caller == i && s.log[s.ranAt[j]].caller == j;
    }
  }

  lemma StepExtends(s: State, a: Action)
    requires Inv(s) && Step(s, a).Some?
    ensures var t := Step(s, a).value;
            && s.log <= t.log && t.commands == s.commands
            && forall i :: i in s.ranAt ==> i in t.ranAt && t.ranAt[i] == s.ranAt[i]
  {
    if a.Execute? {
      assert CallerOk(s, s.loop.caller);
    }
  }

  lemma {:induction false} RunExtends(s: State, run: seq<Action>)
    requires Inv(s) && Exec(Step, s, run).Some?
    ensures var t := Exec(Step, s, run).value;
            && Inv(t) && s.log <= t.log && t.commands == s.commands
            && forall i :: i in s.ranAt ==> i in t.ranAt && t.ranAt[i] == s.ranAt[i]
    decreases |run|
  {
    if run != [] {
      StepInv(s, run[0]);
      StepExtends(s, run[0]);
      RunExtends(Step(s, run[0]).value, run[1..]);
    }
  }

  lemma NotYetRun(s: State, j: nat)
    requires Inv(s) && j < |s.callers| && s.callers[j].New?
    ensures forall p :: 0 <= p < |s.log| ==> s.log[p].caller != j
  {
    assert CallerOk(s, j);
  }

  /**
    The same without time stamps: what was answered when a call had not begun is in
    the log before that call, and a call's own command never before it begins.
  */
  lemma AnsweredComesFirst(
      init: Stock, commands: seq<Command>, stops: nat, before: seq<Action>, after: seq<Action>, i: nat, j: nat)
    requires Exec(Step, Init(init, commands, stops), before).Some? && i < |commands| && j < |commands|
    requires Exec(Step, Exec(Step, Init(init, commands, stops), before).value, after).Some?
    ensures var s := Exec(Step, Init(init, commands, stops), before).value;
            var t := Exec(Step, s, after).value;
            && |s.callers| == |t.callers| == |commands| && s.log <= t.log
            && (s.callers[j].New? && Answered(t.callers[j]) ==>
                  exists q :: |s.log| <= q < |t.log| && t.log[q].caller == j)
            && (Answered(s.callers[i]) ==> exists p :: 0 <= p < |s.log| && s.log[p].caller == i)
  {
    EveryRun(init, commands, stops, before);
    var s := Exec(Step, Init(init, commands, stops), before).value;
    RunExtends(s, after);
    var t := Exec(Step, s, after).value;
    assert CallerOk(s, i) && CallerOk(s, j) && CallerOk(t, j);
    if s.callers[j].New? && Answered(t.callers[j]) {
      assert t.log[t.ranAt[j]].caller == j;
      NotYetRun(s, j);
    }
    if Answered(s.callers[i]) {
      assert s.log[s.ranAt[i]].caller == i;
    }
  }

  predicate Answered(c: Caller) { c.Returned? && c.result.Answer? }

  /** Stock, reservations and snapshots after every run. */
  lemma Conservation(init: Stock, commands: seq<Command>, stops: nat, run: seq<Action>, id: string)
    requires Sound(init) && init.reservations == map[]
    requires Exec(Step, Init(init, commands, stops), run).Some?
    ensures var s := Exec(Step, Init(init, commands, stops), run).value;
            && Sound(s.stock)
            && s.stock.onHand == init.onHand + Sum(s.log, Added)
            && Entry(s.stock.reservations, id) == Sum(s.log, Took(id)) - Sum(s.log, Gave(id))
            && forall k :: 0 <= k < |s.log| && s.log[k].result.snapshot != NO_SNAPSHOT ==>
                 var snap := s.log[k].result.snapshot;
                 snap.available == snap.onHand - snap.reserved >= 0 && Shows(snap, Replay(init, s.log[..k + 1]))
  {
    EveryRun(init, commands, stops, run);
    var s := Exec(Step, Init(init, commands, stops), run).value;
    Books(init, s.log, id);
    forall k | 0 <= k < |s.log| && s.log[k].result.snapshot != NO_SNAPSHOT
      ensures var snap := s.log[k].result.snapshot;
              snap.available == snap.onHand - snap.reserved >= 0 && Shows(snap, Replay(init, s.log[..k + 1]))
    {
      SnapshotsAddUp(init, s.log, k);
    }
  }

  lemma DoneStays(s: State, a: Action)
    requires Shaped(s) && s.done && Step(s, a).Some?
    ensures Step(s, a).value.done && Step(s, a).value.log == s.log && Step(s, a).value.stock == s.stock
  {
  }

  /** Once any `Stop` has returned, no command runs any more. */
  lemma NothingAfterStop(s: State, k: nat, run: seq<Action>)
    requires Inv(s) && k < |s.stoppers| && s.stoppers[k].StopReturned? && Exec(Step, s, run).Some?
    ensures Exec(Step, s, run).value.log == s.log && Exec(Step, s, run).value.stock == s.stock
  {
    var inv := (t: State) => Inv(t) && t.done && t.log == s.log && t.stock == s.stock;
    forall t: State, a: Action | inv(t) && Step(t, a).Some? ensures inv(Step(t, a).value) {
      StepInv(t, a);
      DoneStays(t, a);
    }
    Invariant(Step, inv, s, run);
  }

  // ----- progress

  /** The owner never blocks on a reply: the slot of the caller it serves is free. */
  lemma ReplyNeverBlocks(s: State)
    requires Inv(s) && s.loop.Serving?
    ensures Step(s, Execute).Some?
  {
    assert CallerOk(s, s.loop.caller);
  }

  lemma SlotFree(s: State)
    requires Inv(s)
    ensures |s.callers| == |s.replies| == |s.commands|
    ensures s.loop.Serving? ==> s.loop.caller < |s.commands| && s.replies[s.loop.caller].None?
  {
    if s.loop.Serving? {
      ReplyNeverBlocks(s);
    }
  }

  function CallWeight(c: Caller): nat {
    match c case New => 5 case Offering(_) => 4 case Waiting(_) => 1 case Returned(_, _, _) => 0
  }

  function StopWeight(c: Stopper): nat {
    match c case Idle => 2 case AwaitingDone => 1 case StopReturned => 0
  }

  function Rank(s: State): nat {
    Sum(s.callers, CallWeight) + Sum(s.stoppers, StopWeight)
    + match s.loop case Looping => 1 case Serving(_) => 2 case Exited => 0
  }

  lemma CallerLowersRank(s: State, a: Action)
    requires OfCaller(a) && Step(s, a).Some?
    ensures Rank(Step(s, a).value) < Rank(s)
  {
    SumUpdate(s.callers, a.i, Step(s, a).value.callers[a.i], CallWeight);
  }

  lemma StepLowersRank(s: State, a: Action)
    requires Inv(s) && Step(s, a).Some?
    ensures Rank(Step(s, a).value) < Rank(s)
  {
    var t := Step(s, a).value;
    if OfCaller(a) {
      CallerLowersRank(s, a);
    } else if a.StopCall? || a.StopReturn? {
      SumUpdate(s.stoppers, a.k, t.stoppers[a.k], StopWeight);
    }
  }

  ghost predicate Stuck(s: State) {
    forall a: Action :: !OfEnvironment(a) ==> Step(s, a).None?
  }

  /** A call in progress can move, unless the owner can. */
  lemma CallProgress(s: State, i: nat)
    requires Inv(s) && i < |s.callers| && !s.callers[i].Returned? && !s.loop.Serving?
    ensures || Step(s, Start(i)).Some? || Step(s, Accept(i)).Some? || Step(s, OfferDone(i)).Some?
            || Step(s, TakeReply(i)).Some?
  {
    assert CallerOk(s, i);
  }

  /** No deadlock: when nothing can move, every request and every `Stop` has returned. */
  lemma NoDeadlock(s: State)
    requires Inv(s) && Stuck(s)
    ensures forall i :: 0 <= i < |s.callers| ==> s.callers[i].Returned?
    ensures forall k :: 0 <= k < |s.stoppers| ==> s.stoppers[k].StopReturned?
  {
    assert Step(s, LoopExit).None?;
    if s.loop.Serving? {
      ReplyNeverBlocks(s);
      assert false;
    }
    forall i | 0 <= i < |s.callers| ensures s.callers[i].Returned? {
      if !s.callers[i].Returned? {
        CallProgress(s, i);
        assert false;
      }
    }
    forall k | 0 <= k < |s.stoppers| ensures s.stoppers[k].StopReturned? {
      assert Step(s, StopCall(k)).None? && Step(s, StopReturn(k)).None?;
    }
  }

  // ----- when a context ends

  /** A caller is told of its context exactly if it was its context that ended one of its selects. */
  lemma ToldOfContextExactly(init: Stock, commands: seq<Command>, stops: nat, run: seq<Action>, i: nat)
    requires Exec(Step, Init(init, commands, stops), run).Some? && i < |commands|
    ensures var s := Exec(Step, Init(init, commands, stops), run).value;
            && |s.callers| == |commands|
            && (s.callers[i].Returned? && s.callers[i].result.ContextDone? <==> OfferCtx(i) in run || WaitCtx(i) in run)
  {
    var inv := (s: State) => |s.callers| == |commands|;
    var mark := (a: Action) => a == OfferCtx(i) || a == WaitCtx(i);
    var sign := (s: State) => i < |s.callers| && s.callers[i].Returned? && s.callers[i].result.ContextDone?;
    forall s: State, a: Action | inv(s) && Step(s, a).Some?
      ensures inv(Step(s, a).value) && (sign(Step(s, a).value) <==> sign(s) || mark(a))
    {
      StepTellsOfContext(s, a, i);
    }
    Invariant(Step, inv, Init(init, commands, stops), run);
    Happened(Step, inv, mark, sign, Init(init, commands, stops), run);
  }

  lemma StepTellsOfContext(s: State, a: Action, i: nat)
    requires i < |s.callers| && Step(s, a).Some?
    ensures var t := Step(s, a).value;
            && |t.callers| == |s.callers|
            && (t.callers[i].Returned? && t.callers[i].result.ContextDone? <==>
                  (s.callers[i].Returned? && s.callers[i].result.ContextDone?) || a == OfferCtx(i) || a == WaitCtx(i))
  {
  }

  /** Whoever is at a select leaves it at once when its context ends, whatever the owner does. */
  lemma ContextFrees(s: State, i: nat)
    requires Shaped(s) && i < |s.callers|
    ensures s.callers[i].Offering? ==> Step(s, OfferCtx(i)) == Return(s, i, ContextDone)
    ensures s.callers[i].Waiting? ==> Step(s, WaitCtx(i)) == Return(s, i, ContextDone)
  {
  }

  // ----- when no context ends

  ghost predicate Undisturbed(run: seq<Action>) { forall a :: a in run ==> !OfEnvironment(a) }

  /** Nobody was told of a context, and of a stop only where there is a `Stop`. */
  ghost predicate ContextFree(s: State) {
    && (forall c :: c in s.callers && c.Returned? ==> !c.result.ContextDone?)
    && (s.stoppers == [] ==> !s.stop && !s.done && forall c :: c in s.callers && c.Returned? ==> c.result.Answer?)
  }

  lemma StepContextFree(s: State, a: Action)
    requires ContextFree(s) && !OfEnvironment(a) && Step(s, a).Some?
    ensures ContextFree(Step(s, a).value) && |Step(s, a).value.stoppers| == |s.stoppers|
  {
  }

  lemma NobodyToldOfContext(init: Stock, commands: seq<Command>, stops: nat, run: seq<Action>)
    requires Exec(Step, Init(init, commands, stops), run).Some? && Undisturbed(run)
    ensures ContextFree(Exec(Step, Init(init, commands, stops), run).value)
    ensures |Exec(Step, Init(init, commands, stops), run).value.stoppers| == stops
  {
    var inv := (s: State) => ContextFree(s) && |s.stoppers| == stops;
    forall s: State, a: Action | inv(s) && !OfEnvironment(a) && Step(s, a).Some? ensures inv(Step(s, a).value) {
      StepContextFree(s, a);
    }
    InvariantOnly(Step, (a: Action) => !OfEnvironment(a), inv, Init(init, commands, stops), run);
  }

  lemma RunsBounded(s: State, run: seq<Action>)
    requires Inv(s) && Exec(Step, s, run).Some?
    ensures |run| <= Rank(s)
  {
    forall s: State, a: Action | Inv(s) && Step(s, a).Some?
      ensures Inv(Step(s, a).value) && Rank(Step(s, a).value) < Rank(s)
    {
      StepInv(s, a);
      StepLowersRank(s, a);
    }
    Bounded(Step, s => Inv(s), Rank, s, run);
  }

  // ----- what an error does not say

  /** A request told that the actor has stopped may have been carried out all the same. */
  lemma StoppedMayHaveRun(init: Stock, c: Command) returns (run: seq<Action>, t: State)
    ensures Exec(Step, Init(init, [c], 1), run) == Some(t)
    ensures |t.callers| == 1 && t.callers[0].Returned? && t.callers[0].result == ActorStopped
    ensures t.stock == Run(init, c).0 && |t.log| == 1
  {
    var s := Init(init, [c], 1);
    var s1 := Step(s, Start(0)).value;
    var s2 := Step(s1, Accept(0)).value;
    var s3 := Step(s2, Execute).value;
    var s4 := Step(s3, StopCall(0)).value;
    var s5 := Step(s4, LoopExit).value;
    t := Step(s5, WaitDone(0)).value;
    run := Prepend(Step, s5, WaitDone(0), [], t);
    run := Prepend(Step, s4, LoopExit, run, t);
    run := Prepend(Step, s3, StopCall(0), run, t);
    run := Prepend(Step, s2, Execute, run, t);
    run := Prepend(Step, s1, Accept(0), run, t);
    run := Prepend(Step, s, Start(0), run, t);
  }

  /** The command of call `i` is in the log, or the owner has it in hand. */
  ghost predicate Taken(s: State, i: nat) { i in s.ranAt || s.loop == Serving(i) }

  /** The hand-over is between the two selects. */
  ghost predicate InTurn(s: State, i: nat) {
    && i < |s.callers|
    && (s.callers[i].New? || s.callers[i].Offering? ==> !Taken(s, i))
    && (s.callers[i].Waiting? ==> Taken(s, i))
  }

  /** How call `i` may have returned: from its first select, or from its second. */
  predicate FirstSelect(run: seq<Action>, i: nat) { OfferCtx(i) in run || OfferDone(i) in run }

  predicate SecondSelect(run: seq<Action>, i: nat) { WaitCtx(i) in run || WaitDone(i) in run || TakeReply(i) in run }

  lemma StepTaken(s: State, a: Action, i: nat)
    requires InTurn(s, i) && Step(s, a).Some?
    ensures var t := Step(s, a).value;
            && InTurn(t, i) && (Taken(t, i) <==> Taken(s, i) || a == Accept(i))
            && (s.callers[i].Returned? ==> t.callers[i].Returned? && a != Accept(i))
            && (t.callers[i].Returned? ==> s.callers[i].Returned? || FirstSelect([a], i) || SecondSelect([a], i))
            && (FirstSelect([a], i) ==> t.callers[i].Returned? && !Taken(t, i))
            && (SecondSelect([a], i) ==> Taken(t, i))
  {
  }

  /** A call that returned without being taken is never taken. */
  lemma {:induction false} LeftStays(s: State, run: seq<Action>, i: nat)
    requires InTurn(s, i) && s.callers[i].Returned? && !Taken(s, i) && Exec(Step, s, run).Some?
    ensures InTurn(Exec(Step, s, run).value, i) && !Taken(Exec(Step, s, run).value, i)
    decreases |run|
  {
    if run != [] {
      StepTaken(s, run[0], i);
      LeftStays(Step(s, run[0]).value, run[1..], i);
    }
  }

  /** From any state on, a command is taken exactly by its own hand-over. */
  lemma {:induction false} TakenByHandOver(s: State, run: seq<Action>, i: nat)
    requires InTurn(s, i) && Exec(Step, s, run).Some?
    ensures var t := Exec(Step, s, run).value;
            && InTurn(t, i) && (Taken(t, i) <==> Taken(s, i) || Accept(i) in run)
            && (t.callers[i].Returned? ==> s.callers[i].Returned? || FirstSelect(run, i) || SecondSelect(run, i))
    decreases |run|
  {
    if run != [] {
      StepTaken(s, run[0], i);
      TakenByHandOver(Step(s, run[0]).value, run[1..], i);
      InRest(run);
    }
  }

  lemma {:induction false} SelectsTell(s: State, run: seq<Action>, i: nat)
    requires InTurn(s, i) && Exec(Step, s, run).Some?
    ensures FirstSelect(run, i) ==> !Taken(Exec(Step, s, run).value, i)
    ensures SecondSelect(run, i) ==> Taken(Exec(Step, s, run).value, i)
    decreases |run|
  {
    if run != [] {
      var t := Step(s, run[0]).value;
      StepTaken(s, run[0], i);
      InRest(run);
      SelectsTell(t, run[1..], i);
      TakenByHandOver(t, run[1..], i);
      if FirstSelect([run[0]], i) {
        LeftStays(t, run[1..], i);
      }
    }
  }

  lemma InRest(run: seq<Action>)
    requires run != []
    ensures forall a :: a in run <==> a in [run[0]] || a in run[1..]
  {
    assert run == [run[0]] + run[1..];
  }

  /** The command of call `i` has been carried out. */
  ghost predicate CarriedOut(s: State, i: nat) { exists p :: 0 <= p < |s.log| && s.log[p].caller == i }

  lemma CarriedOutExactly(s: State, i: nat)
    requires Placed(s)
    ensures CarriedOut(s, i) <==> i in s.ranAt
  {
    if i in s.ranAt {
      assert s.log[s.ranAt[i]].caller == i;
    }
  }

  /**
    What an error of a request says about its command. A command is carried out
    or in hand exactly when it was handed over, and a request returns from its
    first select, never to be carried out, or from its second, handed over. A
    request told that the actor has stopped was carried out if and only if it was
    handed over.
  */
  lemma RanExactlyWhenHandedOver(init: Stock, commands: seq<Command>, stops: nat, run: seq<Action>, i: nat)
    requires Exec(Step, Init(init, commands, stops), run).Some? && i < |commands|
    ensures var s := Exec(Step, Init(init, commands, stops), run).value;
            && |s.callers| == |commands|
            && (CarriedOut(s, i) || s.loop == Serving(i) <==> Accept(i) in run)
            && (s.callers[i].Returned? ==>
                  if Accept(i) in run then SecondSelect(run, i) && !FirstSelect(run, i)
                  else FirstSelect(run, i) && !SecondSelect(run, i) && !CarriedOut(s, i))
            && (s.callers[i].Returned? && s.callers[i].result.ActorStopped? ==>
                  (CarriedOut(s, i) <==> Accept(i) in run))
  {
    var s0 := Init(init, commands, stops);
    EveryRun(init, commands, stops, run);
    var s := Exec(Step, s0, run).value;
    TakenByHandOver(s0, run, i);
    SelectsTell(s0, run, i);
    CarriedOutExactly(s, i);
    assert CallerOk(s, i);
  }

  // ----- the actor

  /** The actor with its callers. Each method runs one goroutine to its next blocking point. */
  class InventoryActor {
    const init: Stock
    const commands: seq<Command>
    const state: InventoryState
    var callers: seq<Caller>
    var stoppers: seq<Stopper>
    var replies: seq<Option<CommandResult>>
    var stop: bool
    var done: bool
    var loop: Loop
    ghost var log: seq<LogEntry>
    ghost var ranAt: map<nat, nat>
    // the length of `log`, kept for the calls' time stamps
    var logged: nat

    ghost function Abs(): State
      reads this, state
    {
      State(init, commands, callers, stoppers, replies, stop, done, loop, state.Abs(), log, ranAt)
    }

    constructor (sku: string, initialStock: int, commands: seq<Command>, stops: nat)
      ensures Abs() == Init(Stock(sku, initialStock, map[]), commands, stops)
      ensures fresh(state) && logged == |log|
    {
      this.commands := commands;
      init := Stock(sku, initialStock, map[]);
      callers, replies := seq(|commands|, i => New), seq(|commands|, i => None);
      stoppers := seq(stops, k => Idle);
      stop, done, loop, log, ranAt, logged := false, false, Looping, [], map[], 0;
      var owned := new InventoryState(sku, initialStock);
      state := owned;
    }

    /** `request` can go on by itself; `ctxDone` says whether its context has ended. */
    predicate RequestReady(i: nat, ctxDone: bool)
      reads this
      requires i < |callers|
    {
      match callers[i]
      case New => true
      case Offering(_) => ctxDone || done
      case Waiting(_) => ctxDone || done || (i < |replies| && replies[i].Some?)
      case Returned(_, _, _) => false
    }

    /** `request`, but for the hand-over, which is a step of both goroutines. */
    method RequestStep(i: nat, ctxDone: bool) returns (ghost a: Action)
      requires i < |callers| == |replies| == |commands| && RequestReady(i, ctxDone) && logged == |log|
      modifies this
      ensures OfCaller(a) && a.i == i && (OfEnvironment(a) ==> ctxDone)
      ensures Step(old(Abs()), a) == Some(Abs()) && logged == |log|
    {
      match callers[i]
      case New =>
        a := Start(i);
        callers := callers[i := Offering(logged)];
      case Offering(from) =>
        if {
          case ctxDone =>
            a := OfferCtx(i);
            callers := callers[i := Returned(ContextDone, from, logged)];
          case done =>
            a := OfferDone(i);
            callers := callers[i := Returned(ActorStopped, from, logged)];
        }
      case Waiting(from) =>
        if {
          case ctxDone =>
            a := WaitCtx(i);
            callers := callers[i := Returned(ContextDone, from, logged)];
          case done =>
            a := WaitDone(i);
            callers := callers[i := Returned(ActorStopped, from, logged)];
          case replies[i].Some? =>
            a := TakeReply(i);
            callers := callers[i := Returned(Answer(replies[i].value), from, logged)];
            replies := replies[i := None];
        }
    }

    /** The loop's select: a command from caller `i`, or stop. */
    method LoopStep(i: nat) returns (ghost a: Action)
      requires |callers| == |replies| == |commands| && loop.Looping?
      requires (i < |callers| && callers[i].Offering?) || stop
      modifies this
      ensures (a == Accept(i) || a == LoopExit) && Step(old(Abs()), a) == Some(Abs())
      ensures logged == old(logged) && log == old(log)
    {
      if
      case i < |callers| && callers[i].Offering? =>
        a := Accept(i);
        callers := callers[i := Waiting(callers[i].from)];
        loop := Serving(i);
      case stop =>
        a := LoopExit;
        loop, done := Exited, true;
    }

    /** Run the command in hand on the owned state, and reply: the slot is free, see `ReplyNeverBlocks`. */
    method Serve()
      requires loop.Serving? && loop.caller < |commands| == |replies| && replies[loop.caller].None? && logged == |log|
      modifies this, state
      ensures Step(old(Abs()), Execute) == Some(Abs()) && logged == |log|
    {
      var i := loop.caller;
      var result := state.RunCommand(commands[i]);
      replies := replies[i := Some(result)];
      loop := Looping;
      ranAt := ranAt[i := |log|];
      log := log + [LogEntry(i, commands[i], result)];
      logged := logged + 1;
    }

    method StopStep(k: nat) returns (ghost a: Action)
      requires StopReady(k)
      modifies this
      ensures (a == StopCall(k) || a == StopReturn(k)) && Step(old(Abs()), a) == Some(Abs())
      ensures logged == old(logged) && log == old(log)
    {
      if stoppers[k].Idle? {
        a := StopCall(k);
        stop := true;
        stoppers := stoppers[k := AwaitingDone];
      } else {
        a := StopReturn(k);
        stoppers := stoppers[k := StopReturned];
      }
    }

    predicate StopReady(k: nat)
      reads this
    {
      k < |stoppers| && (stoppers[k].Idle? || (stoppers[k].AwaitingDone? && done))
    }

    predicate LoopReady()
      reads this
    {
      loop.Serving? || (loop.Looping? && stop)
    }

    /** Both sides of the hand-over are there. */
    predicate HandOverReady(i: nat)
      reads this
    {
      i < |callers| && callers[i].Offering? && loop.Looping?
    }

    /** Some goroutine can go on, counting on contexts that have ended only if `ctxDone`. */
    predicate Ready(ctxDone: bool)
      reads this
    {
      || LoopReady()
      || (exists i :: 0 <= i < |callers| && HandOverReady(i))
      || (exists i :: 0 <= i < |callers| && RequestReady(i, ctxDone))
      || (exists k :: 0 <= k < |stoppers| && StopReady(k))
    }

    /** The guards miss no step, even with all contexts going on; and with contexts over, none of those either. */
    lemma GuardsMissNothing(ctxDone: bool)
      requires Inv(Abs())
      ensures !Ready(ctxDone) ==> Stuck(Abs())
      ensures !Ready(true) ==> forall a: Action :: Step(Abs(), a).None?
    {
      if !Ready(true) {
        forall a: Action ensures Step(Abs(), a).None? {
          assert OfCaller(a) && a.i < |callers| ==> !RequestReady(a.i, true) && !HandOverReady(a.i);
          assert a.StopCall? || a.StopReturn? ==> !StopReady(a.k);
        }
      }
      if !Ready(ctxDone) {
        forall a: Action | !OfEnvironment(a) ensures Step(Abs(), a).None? {
          assert OfCaller(a) && a.i < |callers| ==> !RequestReady(a.i, ctxDone) && !HandOverReady(a.i);
          assert a.StopCall? || a.StopReturn? ==> !StopReady(a.k);
        }
      }
    }

    /** The shapes fit, and the slot for the next reply is free. */
    predicate Fit()
      reads this
    {
      && |callers| == |replies| == |commands|
      && (loop.Serving? ==> loop.caller < |commands| && replies[loop.caller].None?)
    }

    lemma AlwaysFit()
      requires Inv(Abs())
      ensures Fit()
    {
      SlotFree(Abs());
    }

    method TakeTurn(ctxDone: bool) returns (ghost a: Action)
      requires Fit() && Ready(ctxDone) && logged == |log|
      modifies this, state
      ensures OfEnvironment(a) ==> ctxDone
      ensures Step(old(Abs()), a) == Some(Abs()) && logged == |log|
    {
      if {
        case loop.Serving? =>
          a := Execute;
          Serve();
        case loop.Looping? && stop => a := LoopStep(|callers|);
        case i: nat :| i < |callers| && HandOverReady(i) => a := LoopStep(i);
        case i: nat :| i < |callers| && RequestReady(i, ctxDone) => a := RequestStep(i, ctxDone);
        case k: nat :| k < |stoppers| && StopReady(k) => a := StopStep(k);
      }
    }

    /** One turn of any goroutine that is not blocked. */
    method Turn(ctxDone: bool) returns (ghost a: Action)
      requires Inv(Abs()) && Ready(ctxDone) && logged == |log|
      modifies this, state
      ensures OfEnvironment(a) ==> ctxDone
      ensures Step(old(Abs()), a) == Some(Abs()) && logged == |log|
      ensures Inv(Abs()) && Rank(Abs()) < old(Rank(Abs()))
    {
      AlwaysFit();
      ghost var s := Abs();
      a := TakeTurn(ctxDone);
      StepInv(s, a);
      StepLowersRank(s, a);
    }
  }

  /** An actor starts only with a name and a stock that makes sense, and then it starts sound. */
  method StartInventoryActor(sku: string, initialStock: int, commands: seq<Command>, stops: nat)
    returns (actor: Option<InventoryActor>)
    ensures actor.Some? <==> sku != "" && initialStock >= 0
    ensures actor.Some? ==>
              fresh(actor.value) && fresh(actor.value.state) && actor.value.logged == 0 &&
              Inv(actor.value.Abs()) && Sound(actor.value.state.Abs()) &&
              actor.value.Abs() == Init(Stock(sku, initialStock, map[]), commands, stops)
  {
    if sku == "" || initialStock < 0 {
      return None;
    }
    var started := new InventoryActor(sku, initialStock, commands, stops);
    actor := Some(started);
  }

  /** How a run ends in which nothing can move any more. */
  lemma AtRest(init: Stock, commands: seq<Command>, stops: nat, run: seq<Action>)
    requires Sound(init) && init.reservations == map[] && Exec(Step, Init(init, commands, stops), run).Some?
    requires Stuck(Exec(Step, Init(init, commands, stops), run).value)
    ensures var s := Exec(Step, Init(init, commands, stops), run).value;
            && |s.callers| == |commands| && (forall i :: 0 <= i < |s.callers| ==> s.callers[i].Returned?)
            && (forall k :: 0 <= k < |s.stoppers| ==> s.stoppers[k].StopReturned?)
            && s.init == init && Serial(init, s.log) && s.stock == Replay(init, s.log) && Sound(s.stock)
  {
    EveryRun(init, commands, stops, run);
    NoDeadlock(Exec(Step, Init(init, commands, stops), run).value);
    Conservation(init, commands, stops, run, "");
  }

  /**
    An actor with its callers, the scheduler free at every turn: `run` is the
    interleaving it chose and `end` the state it led to. Every request and every
    `Stop` returns, the answers are those of one serial log, and the stock is
    what that log leaves. Contexts may end only if `contextsEnd`. If none does,
    all calls return all the same, and without a `Stop` every one has its answer.
  */
  method RunActor(sku: string, initialStock: int, commands: seq<Command>, stops: nat, contextsEnd: bool)
    returns (calls: Option<seq<Caller>>, ghost run: seq<Action>, ghost end: State)
    ensures calls.Some? <==> sku != "" && initialStock >= 0
    ensures calls.Some? ==>
              && Exec(Step, Init(Stock(sku, initialStock, map[]), commands, stops), run) == Some(end) && Inv(end)
              && calls.value == end.callers && |end.callers| == |commands|
              && (forall i :: 0 <= i < |commands| ==> calls.value[i].Returned?)
              && (forall k :: 0 <= k < |end.stoppers| ==> end.stoppers[k].StopReturned?)
              && Serial(end.init, end.log) && end.stock == Replay(end.init, end.log) && Sound(end.stock)
              && (forall i :: 0 <= i < |commands| && calls.value[i].result.Answer? ==>
                    RightlyAnswered(end, i, commands[i], calls.value[i].result.result))
    ensures calls.Some? && !contextsEnd ==>
              && Undisturbed(run)
              && (forall i :: 0 <= i < |commands| ==> !calls.value[i].result.ContextDone?)
              && (stops == 0 ==> forall i :: 0 <= i < |commands| ==> calls.value[i].result.Answer?)
  {
    ghost var s0 := Init(Stock(sku, initialStock, map[]), commands, stops);
    run, end := [], s0;
    var started := StartInventoryActor(sku, initialStock, commands, stops);
    if started.None? {
      return None, run, end;
    }
    var actor := started.value;
    var ctxDone: bool := *;
    ctxDone := ctxDone && contextsEnd;
    while actor.Ready(ctxDone)
      invariant (ctxDone ==> contextsEnd) && (!contextsEnd ==> Undisturbed(run))
      invariant fresh(actor) && fresh(actor.state) && actor.logged == |actor.log|
      invariant Inv(end) && Exec(Step, s0, run) == Some(end) && end == actor.Abs()
      decreases Rank(actor.Abs())
    {
      ghost var a := actor.Turn(ctxDone);
      run, end := Append(Step, s0, run, end, a);
      ctxDone := *;
      ctxDone := ctxDone && contextsEnd;
    }
    calls := Some(actor.callers);
    actor.GuardsMissNothing(ctxDone);
    AtRest(s0.init, commands, stops, run);
    AnswersAreRight(s0.init, commands, stops, run);
    if !contextsEnd {
      NobodyToldOfContext(s0.init, commands, stops, run);
    }
  }
}
