/**
  The producer / workers / closer / collector protocol that the worker pool and
  the alert pipeline share: one goroutine offers the input indices on an
  unbuffered channel, a fixed set of workers calls back for each and reports on
  a buffered channel, one goroutine closes that channel once the WaitGroup is
  down to zero, and the collector ranges over it and cancels the batch on the
  first failure. What the collector makes of the items is left to its user; the
  protocol keeps the log of everything it received.
*/
module FanPool {
  import opened Wrappers
  import opened Folds
  import opened Runs
  import opened Outcomes

  /** A worker is at its receiving select, inside the callback, at its reporting select, or gone. */
  datatype Worker<R> = Idle | Calling(index: nat) | Sending(item: Item<R>) | Exited

  /** `Cancelling` is the point between seeing the first failure and calling `cancel()`. */
  datatype Collector = Ranging | Cancelling | Finished(ctxErr: bool)

  datatype State<R> = State(
    total: nat,
    cap: nat,
    cancelled: bool,
    next: nat,
    jobsClosed: bool,
    workers: seq<Worker<R>>,
    wg: int,
    results: seq<Item<R>>,
    resultsClosed: bool,
    collector: Collector,
    // history
    log: seq<Item<R>>,
    calls: map<nat, Outcome<R>>,
    dropped: seq<nat>,
    panicked: bool)

  datatype Action<R> =
    | ParentCancel
    | Handoff(w: nat)
    | ProducerExit
    | WorkerExit(w: nat)
    | Return(w: nat, outcome: Outcome<R>)
    | Report(w: nat)
    | Abandon(w: nat)
    | CloseResults
    | Collect
    | CancelBatch
    | Finish

  function Init<R>(total: nat, workers: nat): State<R> {
    State(total, workers, false, 0, false, seq(workers, i => Idle), workers, [], false, Ranging,
          [], map[], [], false)
  }

  /** The first failure in the order the collector saw the items. */
  function FirstBad<R>(log: seq<Item<R>>): Option<Item<R>> {
    if log == [] then None
    else
      match FirstBad(log[..|log| - 1])
      case Some(it) => Some(it)
      case None => if log[|log| - 1].outcome.Bad? then Some(log[|log| - 1]) else None
  }

  lemma FirstBadGrows<R>(log: seq<Item<R>>, item: Item<R>)
    ensures FirstBad(log + [item]) ==
            if FirstBad(log).None? && item.outcome.Bad? then Some(item) else FirstBad(log)
  {
    assert (log + [item])[..|log|] == log;
  }

  /** The one it names is a failure, and before it there was none. */
  lemma {:induction false} FirstBadExactly<R>(log: seq<Item<R>>, item: Item<R>)
    ensures FirstBad(log) == Some(item) <==>
            exists k :: 0 <= k < |log| && log[k] == item && item.outcome.Bad? && FirstOf(log, k)
    ensures FirstBad(log).None? <==> forall k :: 0 <= k < |log| ==> log[k].outcome.Good?
  {
    if log != [] {
      var n := |log| - 1;
      FirstBadExactly(log[..n], item);
      if k :| 0 <= k < n && log[..n][k] == item && item.outcome.Bad? && FirstOf(log[..n], k) {
        assert log[k] == item && FirstOf(log, k);
      }
      forall k | 0 <= k < n && FirstOf(log, k) ensures FirstOf(log[..n], k) && log[..n][k] == log[k] {
      }
    }
  }

  ghost predicate FirstOf<R>(log: seq<Item<R>>, k: nat) {
    k < |log| && forall j :: 0 <= j < k ==> log[j].outcome.Good?
  }

  function Leave<R>(s: State<R>, w: nat): State<R>
    requires w < |s.workers|
  {
    s.(workers := s.workers[w := Exited], wg := s.wg - 1, panicked := s.panicked || s.wg <= 0)
  }

  function Step<R>(s: State<R>, a: Action<R>): Option<State<R>> {
    match a
    case ParentCancel =>
      if s.cancelled then None else Some(s.(cancelled := true))
    case Handoff(w) =>
      if !s.jobsClosed && s.next < s.total && w < |s.workers| && s.workers[w].Idle?
      then Some(s.(next := s.next + 1, workers := s.workers[w := Calling(s.next)]))
      else None
    case ProducerExit =>
      if !s.jobsClosed && (s.next >= s.total || s.cancelled) then Some(s.(jobsClosed := true)) else None
    case WorkerExit(w) =>
      if w < |s.workers| && s.workers[w].Idle? && (s.cancelled || s.jobsClosed)
      then Some(Leave(s, w))
      else None
    case Return(w, outcome) =>
      if w < |s.workers| && s.workers[w].Calling?
      then
        var i := s.workers[w].index;
        Some(s.(workers := s.workers[w := Sending(Item(i, outcome))], calls := s.calls[i := outcome]))
      else None
    case Report(w) =>
      if w < |s.workers| && s.workers[w].Sending?
      then
        if s.resultsClosed then Some(s.(panicked := true))
        else if |s.results| < s.cap then
          Some(s.(workers := s.workers[w := Idle], results := s.results + [s.workers[w].item]))
        else None
      else None
    case Abandon(w) =>
      if w < |s.workers| && s.workers[w].Sending? && s.cancelled
      then Some(Leave(s, w).(dropped := s.dropped + [s.workers[w].item.index]))
      else None
    case CloseResults =>
      if !s.resultsClosed && s.wg == 0 then Some(s.(resultsClosed := true)) else None
    case Collect =>
      if s.collector.Ranging? && s.results != []
      then
        var item := s.results[0];
        Some(s.(results := s.results[1..], log := s.log + [item],
                collector := if item.outcome.Bad? && FirstBad(s.log).None? then Cancelling else Ranging))
      else None
    case CancelBatch =>
      if s.collector.Cancelling? then Some(s.(collector := Ranging, cancelled := true)) else None
    case Finish =>
      // the check of ctx.Err() and then the deferred cancel()
      if s.collector.Ranging? && s.results == [] && s.resultsClosed
      then Some(s.(collector := Finished(s.cancelled), cancelled := true))
      else None
  }

  // ----- the invariant

  function Live<R>(w: Worker<R>): nat { if w.Exited? then 0 else 1 }

  function Busy<R>(w: Worker<R>): nat { if w.Calling? || w.Sending? then 1 else 0 }

  function Holds<R>(i: nat): Worker<R> -> nat {
    (w: Worker<R>) => match w
         case Calling(j) => if i == j then 1 else 0
         case Sending(item) => if i == item.index then 1 else 0
         case _ => 0
  }

  /** In how many places index `i` is: with workers, in the buffer, collected, dropped. */
  function Copies<R>(s: State<R>, i: nat): nat {
    Sum(s.workers, Holds(i)) + Sum(s.results, Carries(i)) + Sum(s.log, Carries(i)) + Sum(s.dropped, Equals(i))
  }

  /**
    The partition: an index handed out so far is in exactly one place, held by
    one worker, in the results buffer, collected, or dropped after cancellation;
    an index not handed out is in none.
  */
  ghost predicate Accounted<R>(s: State<R>) {
    && (forall i: nat :: Copies(s, i) == if i < s.next then 1 else 0)
    && Sum(s.workers, Busy) + |s.results| + |s.log| + |s.dropped| == s.next
  }

  /** Every item in flight carries what the callback returned for its own index. */
  ghost predicate Faithful<R>(s: State<R>) {
    && (forall i :: i in s.calls ==> i < s.next)
    && (forall w :: 0 <= w < |s.workers| && s.workers[w].Calling? ==> s.workers[w].index !in s.calls)
    && (forall w :: 0 <= w < |s.workers| && s.workers[w].Sending? ==> Recorded(s.calls, s.workers[w].item))
    && (forall it :: it in s.results ==> Recorded(s.calls, it))
    && (forall it :: it in s.log ==> Recorded(s.calls, it))
  }

  ghost predicate Controlled<R>(s: State<R>) {
    && !s.panicked
    && s.next <= s.total && s.workers != [] && 1 <= s.cap && |s.results| <= s.cap
    && s.wg == Sum(s.workers, Live)
    && (s.resultsClosed ==> s.wg == 0)
    && (!s.cancelled ==>
          && s.dropped == []
          && (s.jobsClosed ==> s.next == s.total)
          && (!s.jobsClosed ==> forall w :: 0 <= w < |s.workers| ==> !s.workers[w].Exited?))
    && (s.collector.Cancelling? ==> FirstBad(s.log).Some?)
    && (FirstBad(s.log).Some? && !s.collector.Cancelling? ==> s.cancelled)
    && (s.collector.Finished? ==> s.resultsClosed && s.results == [] && s.cancelled)
    && (s.collector.Finished? && !s.collector.ctxErr ==>
          FirstBad(s.log).None? && s.dropped == [] && s.next == s.total)
  }

  ghost predicate Inv<R>(s: State<R>) {
    Accounted(s) && Faithful(s) && Controlled(s)
  }

  lemma InitInv<R>(total: nat, workers: nat)
    requires workers >= 1
    ensures Inv(Init<R>(total, workers))
  {
    var s := Init<R>(total, workers);
    SumConst(s.workers, Live, Idle);
    SumConst(s.workers, Busy, Idle);
    forall i: nat ensures Copies(s, i) == 0 {
      SumConst(s.workers, Holds(i), Idle);
    }
  }

  /** The label moves worker `a.w`. */
  predicate OfWorker<R>(a: Action<R>) {
    a.Handoff? || a.WorkerExit? || a.Return? || a.Report? || a.Abandon?
  }

  lemma WorkerStepCopies<R>(s: State<R>, a: Action<R>, i: nat)
    requires Controlled(s) && OfWorker(a) && Step(s, a).Some?
    ensures var t := Step(s, a).value;
            Copies(t, i) == Copies(s, i) + if a.Handoff? && i == s.next then 1 else 0
  {
    var t := Step(s, a).value;
    SumMember(s.workers, a.w, Live);
    SumUpdate(s.workers, a.w, t.workers[a.w], Holds(i));
    if a.Report? {
      SumConcat(s.results, [s.workers[a.w].item], Carries(i));
    } else if a.Abandon? {
      SumConcat(s.dropped, [s.workers[a.w].item.index], Equals(i));
    }
  }

  lemma StepCopies<R>(s: State<R>, a: Action<R>, i: nat)
    requires Controlled(s) && Step(s, a).Some?
    ensures var t := Step(s, a).value;
            Copies(t, i) == Copies(s, i) + if a.Handoff? && i == s.next then 1 else 0
  {
    if OfWorker(a) {
      WorkerStepCopies(s, a, i);
    } else if a.Collect? {
      SumConcat(s.log, [s.results[0]], Carries(i));
    }
  }

  lemma StepAccounted<R>(s: State<R>, a: Action<R>)
    requires Inv(s) && Step(s, a).Some?
    ensures Accounted(Step(s, a).value)
  {
    var t := Step(s, a).value;
    forall i: nat ensures Copies(t, i) == if i < t.next then 1 else 0 {
      StepCopies(s, a, i);
    }
    if OfWorker(a) {
      SumMember(s.workers, a.w, Live);
      SumUpdate(s.workers, a.w, t.workers[a.w], Busy);
    }
  }

  lemma HolderIsUnique<R>(s: State<R>, v: nat, w: nat, i: nat)
    requires Accounted(s) && v < |s.workers| && w < |s.workers|
    requires Holds(i)(s.workers[v]) == Holds(i)(s.workers[w]) == 1
    ensures v == w && i < s.next
  {
    assert Copies(s, i) <= 1;
    SumMember(s.workers, v, Holds(i));
    if v < w {
      SumPair(s.workers, v, w, Holds(i));
    } else if w < v {
      SumPair(s.workers, w, v, Holds(i));
    }
  }

  lemma ReturnFaithful<R>(s: State<R>, w: nat, outcome: Outcome<R>)
    requires Inv(s) && w < |s.workers| && s.workers[w].Calling?
    ensures Faithful(Step(s, Return(w, outcome)).value)
  {
    var i := s.workers[w].index;
    HolderIsUnique(s, w, w, i);
    var t := Step(s, Return(w, outcome)).value;
    forall v | 0 <= v < |t.workers| && t.workers[v].Calling? ensures t.workers[v].index !in t.calls {
      if t.workers[v].index == i {
        HolderIsUnique(s, w, v, i);
      }
    }
    assert forall it: Item<R> :: Recorded(s.calls, it) ==> it.index != i && Recorded(t.calls, it);
  }

  lemma StepFaithful<R>(s: State<R>, a: Action<R>)
    requires Inv(s) && Step(s, a).Some?
    ensures Faithful(Step(s, a).value)
  {
    if a.Return? {
      ReturnFaithful(s, a.w, a.outcome);
    } else {
      var t := Step(s, a).value;
      assert t.calls == s.calls;
      assert forall it: Item<R> :: Recorded(s.calls, it) ==> Recorded(t.calls, it);
    }
  }

  lemma WorkerStepControlled<R>(s: State<R>, a: Action<R>)
    requires Inv(s) && OfWorker(a) && Step(s, a).Some?
    ensures Controlled(Step(s, a).value)
  {
    SumMember(s.workers, a.w, Live);
    SumUpdate(s.workers, a.w, Step(s, a).value.workers[a.w], Live);
  }

  /** `Finish` finds nobody live: an uncancelled batch has handed out and collected everything. */
  lemma CollectorStepControlled<R>(s: State<R>, a: Action<R>)
    requires Inv(s) && (a.Collect? || a.CancelBatch? || a.Finish?) && Step(s, a).Some?
    ensures Controlled(Step(s, a).value)
  {
    if a.Collect? {
      FirstBadGrows(s.log, s.results[0]);
    } else if a.Finish? {
      SumMember(s.workers, 0, Live);
    }
  }

  lemma StepControlled<R>(s: State<R>, a: Action<R>)
    requires Inv(s) && Step(s, a).Some?
    ensures Controlled(Step(s, a).value)
  {
    if OfWorker(a) {
      WorkerStepControlled(s, a);
    } else if a.Collect? || a.CancelBatch? || a.Finish? {
      CollectorStepControlled(s, a);
    }
  }

  lemma StepInv<R>(s: State<R>, a: Action<R>)
    requires Inv(s) && Step(s, a).Some?
    ensures Inv(Step(s, a).value) && Step(s, a).value.total == s.total
  {
    StepAccounted(s, a);
    StepFaithful(s, a);
    StepControlled(s, a);
  }

  // ----- progress

  function Load<R>(w: Worker<R>): nat {
    match w case Calling(_) => 5 case Sending(_) => 4 case Idle => 1 case Exited => 0
  }

  /** What is still to be done, weighted so that every step lowers it. */
  function Rank<R>(s: State<R>): nat {
    (if s.next <= s.total then 6 * (s.total - s.next) else 0)
    + Sum(s.workers, Load) + 2 * |s.results|
    + (match s.collector case Ranging => 1 case Cancelling => 2 case Finished(_) => 0)
    + Bit(!s.jobsClosed) + Bit(!s.resultsClosed) + Bit(!s.cancelled)
  }

  lemma WorkerStepLowersRank<R>(s: State<R>, a: Action<R>)
    requires Controlled(s) && OfWorker(a) && Step(s, a).Some?
    ensures Rank(Step(s, a).value) < Rank(s)
  {
    var t := Step(s, a).value;
    SumMember(s.workers, a.w, Live);
    SumUpdate(s.workers, a.w, t.workers[a.w], Load);
  }

  lemma StepLowersRank<R>(s: State<R>, a: Action<R>)
    requires Inv(s) && Step(s, a).Some?
    ensures Rank(Step(s, a).value) < Rank(s)
  {
    if OfWorker(a) {
      WorkerStepLowersRank(s, a);
    }
  }

  /** The caller has its answer and the producer goroutine is gone as well. */
  predicate Final<R>(s: State<R>) { s.collector.Finished? && s.jobsClosed }

  /** Some goroutine of the batch can move without help from the parent context. */
  lemma Progress<R>(s: State<R>) returns (a: Action<R>)
    requires Inv(s) && !Final(s)
    ensures !a.ParentCancel? && Step(s, a).Some?
  {
    if s.collector.Cancelling? {
      a := CancelBatch;
    } else if w :| 0 <= w < |s.workers| && !s.workers[w].Exited? {
      SumMember(s.workers, w, Live);
      match s.workers[w] {
        case Calling(_) => a := Return(w, Bad(""));
        case Sending(_) => a := if |s.results| < s.cap then Report(w) else Collect;
        case Idle =>
          a := if s.cancelled || s.jobsClosed then WorkerExit(w)
               else if s.next < s.total then Handoff(w) else ProducerExit;
      }
    } else if !s.resultsClosed {
      if s.wg != 0 {
        var w := SumPositive(s.workers, Live);
        assert false;
      }
      a := CloseResults;
    } else if !s.collector.Finished? {
      a := if s.results != [] then Collect else Finish;
    } else {
      a := ProducerExit;
    }
  }

  // ----- every run

  /** Safety: the partition, the fidelity of items and the absence of panics hold after every run. */
  lemma EveryRun<R(!new)>(total: nat, workers: nat, run: seq<Action<R>>)
    requires workers >= 1 && Exec(Step, Init(total, workers), run).Some?
    ensures var s := Exec(Step, Init(total, workers), run).value;
            Inv(s) && s.total == total
  {
    InitInv<R>(total, workers);
    var inv := (s: State<R>) => Inv(s) && s.total == total;
    forall s: State<R>, a: Action<R> | inv(s) && Step(s, a).Some? ensures inv(Step(s, a).value) {
      StepInv(s, a);
    }
    Invariant(Step<R>, inv, Init(total, workers), run);
  }

  lemma InitRank<R>(total: nat, workers: nat)
    ensures Rank(Init<R>(total, workers)) == 6 * total + workers + 4
  {
    SumConst(Init<R>(total, workers).workers, Load, Idle);
  }

  lemma RunBounded<R(!new)>(total: nat, workers: nat, run: seq<Action<R>>)
    requires workers >= 1 && Exec(Step, Init(total, workers), run).Some?
    ensures |run| <= 6 * total + workers + 4
  {
    var s0 := Init<R>(total, workers);
    InitInv<R>(total, workers);
    InitRank<R>(total, workers);
    forall s: State<R>, a: Action<R> | Inv(s) && Step(s, a).Some?
      ensures Inv(Step(s, a).value) && Rank(Step(s, a).value) < Rank(s)
    {
      StepInv(s, a);
      StepLowersRank(s, a);
    }
    Bounded(Step<R>, s => Inv(s), Rank<R>, s0, run);
  }

  lemma AllExited<R>(s: State<R>)
    requires Controlled(s) && s.collector.Finished?
    ensures forall w :: 0 <= w < |s.workers| ==> s.workers[w].Exited?
  {
    forall w | 0 <= w < |s.workers| ensures s.workers[w].Exited? {
      SumMember(s.workers, w, Live);
    }
  }

  /** Nothing can move unless the parent context ends. */
  /** Once the batch is cancelled, whoever is at a select can leave at once: the producer, and every worker. */
  lemma CancelFrees<R>(s: State<R>, w: nat)
    requires s.cancelled && w < |s.workers|
    ensures !s.jobsClosed ==> Step(s, ProducerExit).Some?
    ensures s.workers[w].Idle? ==> Step(s, WorkerExit(w)) == Some(Leave(s, w))
    ensures s.workers[w].Sending? ==> Step(s, Abandon(w)).Some? && Step(s, Abandon(w)).value.workers[w].Exited?
  {
  }

  /** Nothing but a failure has cancelled the batch. */
  ghost predicate OnlyFailuresCancel<R>(s: State<R>) {
    FirstBad(s.log).None? ==> !s.cancelled || s.collector == Finished(false)
  }

  lemma StepOnlyFailuresCancel<R>(s: State<R>, a: Action<R>)
    requires Inv(s) && OnlyFailuresCancel(s) && !a.ParentCancel? && Step(s, a).Some?
    ensures OnlyFailuresCancel(Step(s, a).value)
  {
    if a.Collect? {
      FirstBadGrows(s.log, s.results[0]);
    }
  }

  /** A batch whose parent context goes on is told of its context only if a callback failed. */
  lemma OnlyFailures<R(!new)>(total: nat, workers: nat, run: seq<Action<R>>)
    requires workers >= 1 && Exec(Step, Init(total, workers), run).Some? && ParentCancel !in run
    ensures OnlyFailuresCancel(Exec(Step, Init(total, workers), run).value)
  {
    InitInv<R>(total, workers);
    var inv := (s: State<R>) => Inv(s) && OnlyFailuresCancel(s);
    var only := (a: Action<R>) => !a.ParentCancel?;
    forall s: State<R>, a: Action<R> | inv(s) && only(a) && Step(s, a).Some? ensures inv(Step(s, a).value) {
      StepInv(s, a);
      StepOnlyFailuresCancel(s, a);
    }
    InvariantOnly(Step, only, inv, Init(total, workers), run);
  }

  ghost predicate Stuck<R(!new)>(s: State<R>) { forall a: Action<R> :: !a.ParentCancel? ==> Step(s, a).None? }

  /**
    Termination under every scheduler: no interleaving is longer than six steps
    an input and one a worker plus four, and one that cannot be extended has
    returned to its caller and left no goroutine behind.
  */
  lemma EveryRunEnds<R(!new)>(total: nat, workers: nat, run: seq<Action<R>>)
    requires workers >= 1 && Exec(Step, Init(total, workers), run).Some?
    ensures |run| <= 6 * total + workers + 4
    ensures var s := Exec(Step, Init(total, workers), run).value;
            Stuck(s) ==> Final(s) && s.resultsClosed && forall w :: 0 <= w < |s.workers| ==> s.workers[w].Exited?
  {
    RunBounded(total, workers, run);
    EveryRun(total, workers, run);
    var s := Exec(Step, Init(total, workers), run).value;
    if Stuck(s) {
      if !Final(s) {
        var a := Progress(s);
        assert false;
      }
      AllExited(s);
    }
  }

  /** In every run: at return no worker is live, and a producer that is still there can leave at once. */
  lemma NobodyLeft<R(!new)>(total: nat, workers: nat, run: seq<Action<R>>)
    requires workers >= 1 && Exec(Step, Init(total, workers), run).Some?
    ensures var s := Exec(Step, Init(total, workers), run).value;
            s.collector.Finished? ==>
              && (forall w :: 0 <= w < |s.workers| ==> s.workers[w].Exited?)
              && (!s.jobsClosed ==> Step(s, ProducerExit).Some?)
  {
    EveryRun(total, workers, run);
    var s := Exec(Step, Init(total, workers), run).value;
    if s.collector.Finished? {
      AllExited(s);
    }
  }

  /**
    No silent loss: if the collector finishes and saw no cancellation then it
    received an item for every input. Read the other way, a short count at the
    end always comes with a cancelled context.
  */
  lemma ShortCountMeansCancelled<R>(s: State<R>)
    requires Inv(s) && s.collector.Finished?
    ensures |s.log| <= s.total
    ensures !s.collector.ctxErr ==> |s.log| == s.total && FirstBad(s.log).None?
  {
    AllExited(s);
    SumNone(s.workers, Busy);
  }

  /** Exactly once: with a full count, the log holds each index once, with what its own call returned. */
  lemma FullCountMeansEveryIndex<R>(s: State<R>)
    requires Inv(s) && s.collector.Finished? && |s.log| == s.total
    ensures forall i: nat :: i < s.total ==> i in s.calls && Item(i, s.calls[i]) in s.log
    ensures forall j, k :: 0 <= j < k < |s.log| ==> s.log[j].index != s.log[k].index
    ensures forall it :: it in s.log ==> it.index < s.total && Recorded(s.calls, it)
  {
    AllExited(s);
    forall i: nat | i < s.total ensures i in s.calls && Item(i, s.calls[i]) in s.log {
      assert Copies(s, i) == 1;
      SumNone(s.workers, Holds(i));
      var k := SumPositive(s.log, Carries(i));
      assert s.log[k] in s.log && Recorded(s.calls, s.log[k]);
    }
    forall j, k | 0 <= j < k < |s.log| ensures s.log[j].index != s.log[k].index {
      SumPair(s.log, j, k, Carries(s.log[j].index));
      assert Copies(s, s.log[j].index) <= 1;
    }
  }

  lemma {:induction false} NoBadMeansAllGood<R>(log: seq<Item<R>>)
    ensures FirstBad(log).None? <==> forall k :: 0 <= k < |log| ==> log[k].outcome.Good?
    ensures FirstBad(log).Some? ==> FirstBad(log).value in log && FirstBad(log).value.outcome.Bad?
  {
    if log != [] {
      NoBadMeansAllGood(log[..|log| - 1]);
      assert log == log[..|log| - 1] + [log[|log| - 1]];
    }
  }

  // ----- the goroutines

  /**
    The batch as the goroutines see it: shared channels, flag and WaitGroup, and
    each goroutine's own position. A method runs one goroutine from one blocking
    point to the next, taking any arm of its select that is ready.
  */
  class Pool<R(!new)> {
    const total: nat
    const cap: nat
    var cancelled: bool
    var next: nat
    var jobsClosed: bool
    var workers: seq<Worker<R>>
    var wg: int
    var results: seq<Item<R>>
    var resultsClosed: bool
    var collector: Collector
    ghost var log: seq<Item<R>>
    ghost var calls: map<nat, Outcome<R>>
    ghost var dropped: seq<nat>
    ghost var panicked: bool

    ghost function Abs(): State<R>
      reads this
    {
      State(total, cap, cancelled, next, jobsClosed, workers, wg, results, resultsClosed, collector,
            log, calls, dropped, panicked)
    }

    constructor (total: nat, workers: nat)
      ensures Abs() == Init(total, workers)
    {
      this.total, cap, cancelled, next, jobsClosed := total, workers, false, 0, false;
      this.workers, wg := seq(workers, i => Idle), workers;
      results, resultsClosed, collector := [], false, Ranging;
      log, calls, dropped, panicked := [], map[], [], false;
    }

    predicate ProducerReady()
      reads this
    {
      !jobsClosed && (next >= total || cancelled || exists w :: 0 <= w < |workers| && workers[w].Idle?)
    }

    method ProducerStep() returns (ghost a: Action<R>)
      requires ProducerReady()
      modifies this
      ensures a.Handoff? || a.ProducerExit?
      ensures Step(old(Abs()), a) == Some(Abs()) && log == old(log) && collector == old(collector)
    {
      if next >= total {
        jobsClosed := true;
        a := ProducerExit;
      } else {
        if
        case w: nat :| w < |workers| && workers[w].Idle? =>
          a := Handoff(w);
          workers := workers[w := Calling(next)];
          next := next + 1;
        case cancelled =>
          jobsClosed := true;
          a := ProducerExit;
      }
    }

    predicate WorkerReady(w: nat)
      reads this
    {
      w < |workers| &&
      match workers[w]
      case Idle => cancelled || jobsClosed
      case Calling(_) => true
      case Sending(_) => cancelled || resultsClosed || |results| < cap
      case Exited => false
    }

    /** The worker's deferred `Done`. */
    method LeaveGroup(w: nat)
      requires w < |workers|
      modifies this
      ensures Abs() == Leave(old(Abs()), w)
    {
      panicked := panicked || wg <= 0;
      workers := workers[w := Exited];
      wg := wg - 1;
    }

    /** `outcome` is what the callback returns if this step is its return. */
    method WorkerStep(w: nat, outcome: Outcome<R>) returns (ghost a: Action<R>)
      requires WorkerReady(w)
      modifies this
      ensures OfWorker(a) && a.w == w && (a.Return? ==> a.outcome == outcome)
      ensures Step(old(Abs()), a) == Some(Abs()) && log == old(log) && collector == old(collector)
    {
      match workers[w]
      case Idle =>
        a := WorkerExit(w);
        LeaveGroup(w);
      case Calling(i) =>
        a := Return(w, outcome);
        workers := workers[w := Sending(Item(i, outcome))];
        calls := calls[i := outcome];
      case Sending(item) =>
        if
        case resultsClosed =>
          a := Report(w);
          panicked := true;
        case !resultsClosed && |results| < cap =>
          a := Report(w);
          results := results + [item];
          workers := workers[w := Idle];
        case cancelled =>
          a := Abandon(w);
          LeaveGroup(w);
          dropped := dropped + [item.index];
    }

    method CloserStep() returns (ghost a: Action<R>)
      requires !resultsClosed && wg == 0
      modifies this
      ensures a == CloseResults && Step(old(Abs()), a) == Some(Abs())
      ensures log == old(log) && collector == old(collector)
    {
      a := CloseResults;
      resultsClosed := true;
    }

    method TakeResult(isFirst: bool) returns (item: Item<R>)
      requires collector.Ranging? && results != [] && isFirst == FirstBad(log).None?
      modifies this
      ensures Step(old(Abs()), Collect) == Some(Abs())
      ensures item == old(results)[0] && log == old(log) + [item]
    {
      item := results[0];
      results := results[1..];
      if item.outcome.Bad? && isFirst {
        collector := Cancelling;
      }
      log := log + [item];
    }

    /** One receive of `range results`; `isFirst` says no failure was seen before. */
    method Receive(isFirst: bool) returns (item: Item<R>)
      requires Inv(Abs()) && collector.Ranging? && results != []
      requires isFirst == FirstBad(log).None?
      modifies this
      ensures Step(old(Abs()), Collect) == Some(Abs())
      ensures Inv(Abs()) && Rank(Abs()) < old(Rank(Abs()))
      ensures item in old(results) && log == old(log) + [item]
      ensures FirstBad(log) == if isFirst && item.outcome.Bad? then Some(item) else old(FirstBad(log))
    {
      StepInv(Abs(), Collect);
      StepLowersRank(Abs(), Collect);
      FirstBadGrows(log, results[0]);
      item := TakeResult(isFirst);
    }

    /** The collector's own `cancel()`, after the first failure. */
    method Cancel()
      requires Inv(Abs()) && collector.Cancelling?
      modifies this
      ensures Step(old(Abs()), CancelBatch) == Some(Abs())
      ensures Inv(Abs()) && Rank(Abs()) < old(Rank(Abs())) && log == old(log)
    {
      StepInv(Abs(), CancelBatch);
      StepLowersRank(Abs(), CancelBatch);
      cancelled := true;
      collector := Ranging;
    }

    /** The loop is over: read `ctx.Err()`, and run the deferred `cancel()`. */
    method FinishBatch()
      requires Inv(Abs()) && collector.Ranging? && results == [] && resultsClosed
      modifies this
      ensures Step(old(Abs()), Finish) == Some(Abs()) && collector == Finished(old(cancelled))
      ensures Inv(Abs()) && Rank(Abs()) < old(Rank(Abs())) && log == old(log)
    {
      StepInv(Abs(), Finish);
      StepLowersRank(Abs(), Finish);
      collector := Finished(cancelled);
      cancelled := true;
    }

    /** The caller's context ends. */
    method ParentCancels() returns (ghost a: Action<R>)
      requires Inv(Abs()) && !cancelled
      modifies this
      ensures a == ParentCancel && Step(old(Abs()), a) == Some(Abs())
      ensures Inv(Abs()) && Rank(Abs()) < old(Rank(Abs()))
      ensures log == old(log) && collector == old(collector)
    {
      a := ParentCancel;
      StepInv(Abs(), a);
      StepLowersRank(Abs(), a);
      cancelled := true;
    }

    predicate BackgroundReady()
      reads this
    {
      || ProducerReady()
      || (exists w :: 0 <= w < |workers| && WorkerReady(w))
      || (!resultsClosed && wg == 0)
    }

    /** One turn of any goroutine but the collector. */
    method Background(outcome: Outcome<R>) returns (ghost a: Action<R>)
      requires Inv(Abs()) && BackgroundReady()
      modifies this
      ensures !a.ParentCancel? && Step(old(Abs()), a) == Some(Abs())
      ensures Inv(Abs()) && Rank(Abs()) < old(Rank(Abs()))
      ensures collector == old(collector) && log == old(log)
    {
      ghost var s := Abs();
      if {
        case ProducerReady() => a := ProducerStep();
        case w: nat :| w < |workers| && WorkerReady(w) => a := WorkerStep(w, outcome);
        case !resultsClosed && wg == 0 => a := CloserStep();
      }
      StepInv(s, a);
      StepLowersRank(s, a);
    }

    predicate CollectorReady()
      reads this
    {
      collector.Cancelling? || (collector.Ranging? && (results != [] || resultsClosed))
    }

    /** The guards miss no step: until the batch is over, some goroutine is ready, whatever the parent context does. */
    lemma SomeoneReady()
      requires Inv(Abs()) && !Final(Abs())
      ensures || ProducerReady() || (exists w :: 0 <= w < |workers| && WorkerReady(w)) || (!resultsClosed && wg == 0)
              || CollectorReady()
    {
      var a := Progress(Abs());
      if OfWorker(a) && !a.Handoff? {
        assert WorkerReady(a.w);
      }
    }
  }
}
