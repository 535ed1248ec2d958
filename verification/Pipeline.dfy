/**
  The alert pipeline: score every checkout event on a set of workers, keep the
  signals at or above the threshold, and give the alerts back sorted by
  checkout. Whatever the interleaving, that is the sequential filter, map and
  sort of the signals in input order.
*/
module Pipeline {
  import opened Wrappers
  import opened Runs
  import opened Permutations
  import opened Ordering
  import opened Outcomes
  import opened FanPool

  datatype CheckoutEvent = CheckoutEvent(
    id: string, customerId: string, region: string, totalCents: int, newDevice: bool, paymentFailures: int)

  datatype RiskSignal = RiskSignal(event: CheckoutEvent, score: int, reasons: seq<string>)

  datatype Alert = Alert(checkoutId: string, severity: string, score: int, summary: string)

  datatype Answer =
    | Rejected(reason: string)
    | Alerts(alerts: seq<Alert>)
    | ScoreFailed(checkoutId: string, error: string)
    | ContextDone

  function Join(parts: seq<string>, sep: string): string {
    if parts == [] then "" else if |parts| == 1 then parts[0] else parts[0] + sep + Join(parts[1..], sep)
  }

  function BuildAlert(signal: RiskSignal): Alert {
    Alert(signal.event.id, if signal.score >= 90 then "critical" else "high", signal.score,
          "manual review required: " + Join(signal.reasons, ", "))
  }

  predicate ById(a: Alert, b: Alert) { Precedes(a.checkoutId, b.checkoutId) }

  /** The checkouts ascend. */
  ghost predicate Ascending(alerts: seq<Alert>) {
    forall i, j :: 0 <= i < j < |alerts| ==>
      alerts[i].checkoutId == alerts[j].checkoutId || Earlier(alerts[i].checkoutId, alerts[j].checkoutId)
  }

  lemma AscendingExactly(alerts: seq<Alert>)
    ensures Ascending(alerts) <==> SortedBy(ById, alerts)
  {
    forall i, j | 0 <= i < j < |alerts|
      ensures !ById(alerts[j], alerts[i]) <==>
              alerts[i].checkoutId == alerts[j].checkoutId || Earlier(alerts[i].checkoutId, alerts[j].checkoutId)
    {
      PrecedesTrichotomy(alerts[i].checkoutId, alerts[j].checkoutId);
      PrecedesExactly(alerts[i].checkoutId, alerts[j].checkoutId);
    }
  }

  lemma ByIdOrders()
    ensures StrictWeakOrder(ById)
  {
    forall a: Alert, b: Alert, c: Alert
      ensures !ById(a, a)
      ensures ById(a, b) && ById(b, c) ==> ById(a, c)
      ensures Ties(ById, a, b) && Ties(ById, b, c) ==> Ties(ById, a, c)
    {
      PrecedesTrichotomy(a.checkoutId, b.checkoutId);
      PrecedesTrichotomy(b.checkoutId, c.checkoutId);
      if ById(a, b) && ById(b, c) {
        PrecedesTransitive(a.checkoutId, b.checkoutId, c.checkoutId);
      }
    }
  }

  // ----- the sequential reference

  /** A signal below the threshold gives no alert. */
  function Alerting(threshold: int): RiskSignal -> seq<Alert> {
    (signal: RiskSignal) => if signal.score < threshold then [] else [BuildAlert(signal)]
  }

  function FilterMap(signals: seq<RiskSignal>, threshold: int): seq<Alert> {
    FlatMap(signals, Alerting(threshold))
  }

  // ----- what the sink has received

  function SignalOf(it: Item<RiskSignal>): seq<RiskSignal> {
    if it.outcome.Good? then [it.outcome.value] else []
  }

  /** The signals of the items, in the order received. */
  function Received(log: seq<Item<RiskSignal>>): seq<RiskSignal> { FlatMap(log, SignalOf) }

  predicate AllScored(calls: map<nat, Outcome<RiskSignal>>, n: nat) {
    forall i :: 0 <= i < n ==> i in calls && calls[i].Good?
  }

  /** What the scorer returned, in input order. */
  function InInputOrder(calls: map<nat, Outcome<RiskSignal>>, n: nat): seq<RiskSignal>
    requires AllScored(calls, n)
  {
    Received(ItemsInOrder(calls, n))
  }

  /** Signal `i` of the input order is what the scorer returned for event `i`. */
  lemma {:induction false} InputOrderAt(calls: map<nat, Outcome<RiskSignal>>, n: nat)
    requires AllScored(calls, n)
    ensures |InInputOrder(calls, n)| == n
    ensures forall i :: 0 <= i < n ==> InInputOrder(calls, n)[i] == calls[i].value
  {
    if n > 0 {
      InputOrderAt(calls, n - 1);
      assert ItemsInOrder(calls, n)[..n - 1] == ItemsInOrder(calls, n - 1);
    }
  }

  /** A full log with distinct indices is a reordering of the items in input order. */
  lemma ReceivedPermutes(log: seq<Item<RiskSignal>>, calls: map<nat, Outcome<RiskSignal>>, n: nat)
    requires AllScored(calls, n)
    requires forall it :: it in log ==> it.index < n && it.outcome == calls[it.index]
    requires forall j, k :: 0 <= j < k < |log| ==> log[j].index != log[k].index
    requires forall i: nat :: i < n ==> Item(i, calls[i]) in log
    ensures multiset(Received(log)) == multiset(InInputOrder(calls, n))
  {
    LogPermutes(log, calls, n);
    FlatMapPermutes(log, ItemsInOrder(calls, n), SignalOf);
  }

  /** No two alerts for one checkout. */
  ghost predicate DistinctIds(alerts: seq<Alert>) {
    forall a, b :: a in alerts && b in alerts && a.checkoutId == b.checkoutId ==> a == b
  }

  /** The alerts mean what the sequential computation means: they are a sorted arrangement of its alerts. */
  ghost predicate Meaning(alerts: seq<Alert>, signals: seq<RiskSignal>, threshold: int) {
    SortedBy(ById, alerts) && multiset(alerts) == multiset(FilterMap(signals, threshold))
  }

  /**
    The answer of a finished pipeline. The first failure that reached the sink
    decides, then the context, even if every event was scored by the time it
    ended; otherwise the alerts mean what the sequential computation means.
  */
  ghost predicate Settled(r: Answer, events: seq<CheckoutEvent>, threshold: int, s: State<RiskSignal>) {
    match FirstBad(s.log)
    case Some(it) =>
      it.index < |events| && Recorded(s.calls, it) && it.outcome.Bad? &&
      r == ScoreFailed(events[it.index].id, it.outcome.error)
    case None =>
      s.collector.Finished? &&
      if s.collector.ctxErr then r == ContextDone
      else r.Alerts? && AllScored(s.calls, |events|) &&
           Meaning(r.alerts, InInputOrder(s.calls, |events|), threshold)
  }

  /** Sorting settles the order up to ties, and distinct checkouts never tie: it is the sequential result itself. */
  lemma SortedMeaning(alerts: seq<Alert>, signals: seq<RiskSignal>, threshold: int)
    requires Meaning(alerts, signals, threshold) && DistinctIds(FilterMap(signals, threshold))
    ensures alerts == Sort(ById, FilterMap(signals, threshold))
  {
    var expected := FilterMap(signals, threshold);
    ByIdOrders();
    SortSorts(ById, expected);
    forall a, b | a in alerts && b in alerts && Ties(ById, a, b) ensures a == b {
      PrecedesTrichotomy(a.checkoutId, b.checkoutId);
      SameMember(alerts, expected, a);
      SameMember(alerts, expected, b);
    }
    SortedUnique(ById, alerts, Sort(ById, expected));
  }

  lemma AlertsSettle(sorted: seq<Alert>, alerts: seq<Alert>, threshold: int, s: State<RiskSignal>)
    requires Inv(s) && s.collector == Finished(false) && Appended(alerts, s.log, threshold)
    requires SortedBy(ById, sorted) && multiset(sorted) == multiset(alerts)
    ensures AllScored(s.calls, s.total)
    ensures Meaning(sorted, InInputOrder(s.calls, s.total), threshold)
  {
    ShortCountMeansCancelled(s);
    FullCountMeansEveryIndex(s);
    NoBadMeansAllGood(s.log);
    forall i: nat | i < s.total ensures i in s.calls && s.calls[i].Good? {
      var k :| 0 <= k < |s.log| && s.log[k] == Item(i, s.calls[i]);
    }
    ReceivedPermutes(s.log, s.calls, s.total);
    FlatMapPermutes(Received(s.log), InInputOrder(s.calls, s.total), Alerting(threshold));
  }

  lemma FailureSettles(events: seq<CheckoutEvent>, threshold: int, s: State<RiskSignal>)
    requires Inv(s) && s.total == |events| && FirstBad(s.log).Some?
    ensures var it := FirstBad(s.log).value;
            it.outcome.Bad? && it.index < |events| &&
            Settled(ScoreFailed(events[it.index].id, it.outcome.error), events, threshold, s)
  {
    NoBadMeansAllGood(s.log);
    assert Recorded(s.calls, FirstBad(s.log).value);
  }

  // ----- the sink and the whole pipeline

  /** What the sink has appended: the sequential filter and map of what it received. */
  ghost predicate Appended(alerts: seq<Alert>, log: seq<Item<RiskSignal>>, threshold: int) {
    alerts == FilterMap(Received(log), threshold)
  }

  lemma AppendOne(log: seq<Item<RiskSignal>>, item: Item<RiskSignal>, threshold: int)
    requires item.outcome.Good?
    ensures FilterMap(Received(log + [item]), threshold) ==
            FilterMap(Received(log), threshold) + Alerting(threshold)(item.outcome.value)
  {
    FlatMapConcat(log, [item], SignalOf);
    FlatMapOne(item, SignalOf);
    FlatMapConcat(Received(log), [item.outcome.value], Alerting(threshold));
    FlatMapOne(item.outcome.value, Alerting(threshold));
  }

  method SinkTurn(
      pool: Pool<RiskSignal>, alerts: seq<Alert>, firstErr: Option<Item<RiskSignal>>, threshold: int)
    returns (alerts': seq<Alert>, firstErr': Option<Item<RiskSignal>>, ghost a: Action<RiskSignal>)
    requires Inv(pool.Abs()) && pool.CollectorReady()
    requires firstErr == FirstBad(pool.log) && (firstErr.None? ==> Appended(alerts, pool.log, threshold))
    modifies pool
    ensures Step(old(pool.Abs()), a) == Some(pool.Abs())
    ensures !a.ParentCancel? && Inv(pool.Abs()) && Rank(pool.Abs()) < old(Rank(pool.Abs()))
    ensures firstErr' == FirstBad(pool.log) && (firstErr'.None? ==> Appended(alerts', pool.log, threshold))
  {
    alerts', firstErr' := alerts, firstErr;
    if pool.collector.Cancelling? {
      a := CancelBatch;
      pool.Cancel();
    } else if pool.results != [] {
      a := Collect;
      ghost var log := pool.log;
      var item := pool.Receive(firstErr.None?);
      if item.outcome.Bad? && firstErr.None? {
        firstErr' := Some(item);
      } else if firstErr.None? {
        AppendOne(log, item, threshold);
        if item.outcome.value.score >= threshold {
          alerts' := alerts' + [BuildAlert(item.outcome.value)];
        }
      }
    } else {
      a := Finish;
      pool.FinishBatch();
    }
  }

  /** What the caller is told once the sink has stopped. */
  method Conclude(
      pool: Pool<RiskSignal>, events: seq<CheckoutEvent>, alerts: seq<Alert>,
      firstErr: Option<Item<RiskSignal>>, threshold: int)
    returns (r: Answer)
    requires Inv(pool.Abs()) && pool.collector.Finished? && pool.total == |events|
    requires firstErr == FirstBad(pool.log) && (firstErr.None? ==> Appended(alerts, pool.log, threshold))
    ensures !r.Rejected? && Settled(r, events, threshold, pool.Abs())
    ensures r.Alerts? ==> Ascending(r.alerts)
  {
    if firstErr.Some? {
      FailureSettles(events, threshold, pool.Abs());
      r := ScoreFailed(events[firstErr.value.index].id, firstErr.value.outcome.error);
    } else if pool.collector.ctxErr {
      r := ContextDone;
    } else {
      ByIdOrders();
      var sorted := SortSlice(ById, alerts);
      AscendingExactly(sorted);
      ShortCountMeansCancelled(pool.Abs());
      AlertsSettle(sorted, alerts, threshold, pool.Abs());
      r := Alerts(sorted);
    }
  }

  /**
    Source, scorers, closer and sink, the scheduler free at every turn: `run` is
    the interleaving it chose and `end` the state it led to. The caller's context
    may end during the call if `parentEnds`. If it does not, the call ends all the
    same, with the alerts or with a failed scorer.
  */
  method RunAlertPipeline(events: seq<CheckoutEvent>, workers: int, threshold: int, parentEnds: bool)
    returns (r: Answer, ghost run: seq<Action<RiskSignal>>, ghost end: State<RiskSignal>)
    ensures r.Rejected? <==> workers < 1 || threshold < 0
    ensures r.Rejected? ==>
              r.reason == if workers < 1 then "workers must be at least 1" else "threshold must not be negative"
    ensures !r.Rejected? ==>
              && Exec(Step, Init(|events|, workers), run) == Some(end)
              && Inv(end) && Final(end) && end.total == |events| && Settled(r, events, threshold, end)
    ensures r.Alerts? ==> Ascending(r.alerts)
    ensures !r.Rejected? && !parentEnds ==> ParentCancel !in run && (r.Alerts? || r.ScoreFailed?)
  {
    run, end := [], Init(|events|, if workers < 1 then 1 else workers);
    if workers < 1 {
      return Rejected("workers must be at least 1"), run, end;
    }
    if threshold < 0 {
      return Rejected("threshold must not be negative"), run, end;
    }

    var pool := new Pool<RiskSignal>(|events|, workers);
    var alerts: seq<Alert> := [];
    var firstErr: Option<Item<RiskSignal>> := None;
    InitInv<RiskSignal>(|events|, workers);

    while !(pool.collector.Finished? && pool.jobsClosed)
      invariant fresh(pool)
      invariant Exec(Step, Init(|events|, workers), run) == Some(end) && end == pool.Abs()
      invariant Inv(pool.Abs()) && pool.total == |events|
      invariant !parentEnds ==> ParentCancel !in run
      invariant firstErr == FirstBad(pool.log)
      invariant firstErr.None? ==> Appended(alerts, pool.log, threshold)
      decreases Rank(pool.Abs())
    {
      pool.SomeoneReady();
      var outcome: Outcome<RiskSignal> := *;
      ghost var a;
      if {
        case pool.BackgroundReady() => a := pool.Background(outcome);
        case pool.CollectorReady() => alerts, firstErr, a := SinkTurn(pool, alerts, firstErr, threshold);
        case parentEnds && !pool.cancelled => a := pool.ParentCancels();
      }
      run, end := Append(Step, Init(|events|, workers), run, end, a);
    }

    r := Conclude(pool, events, alerts, firstErr, threshold);
    if !parentEnds {
      OnlyFailures(|events|, workers, run);
    }
  }

  // ----- what the alerts say

  /** The alerts of any finished pipeline ascend by checkout. */
  lemma AlertsAscend(alerts: seq<Alert>, events: seq<CheckoutEvent>, threshold: int, s: State<RiskSignal>)
    requires Settled(Alerts(alerts), events, threshold, s)
    ensures Ascending(alerts)
  {
    AscendingExactly(alerts);
  }

  lemma JoinShort(part: string, sep: string)
    ensures Join([], sep) == "" && Join([part], sep) == part
  {
  }

  /** One more part comes last, behind one more separator. */
  lemma {:induction false} JoinOneMore(parts: seq<string>, part: string, sep: string)
    requires parts != []
    ensures Join(parts + [part], sep) == Join(parts, sep) + sep + part
  {
    assert (parts + [part])[1..] == parts[1..] + [part];
    if |parts| == 1 {
      assert parts[1..] + [part] == [part];
    } else {
      JoinOneMore(parts[1..], part, sep);
    }
  }

  /** The alert for a signal: its checkout and score, `critical` from 90 on, and all its reasons. */
  ghost predicate Reports(alert: Alert, signal: RiskSignal) {
    && alert.checkoutId == signal.event.id && alert.score == signal.score
    && alert.severity == (if alert.score < 90 then "high" else "critical")
    && alert.summary == "manual review required: " + Join(signal.reasons, ", ")
  }

  /** Every alert is about a signal at or above the threshold. */
  ghost predicate Grounded(alerts: seq<Alert>, signals: seq<RiskSignal>, threshold: int) {
    forall alert :: alert in alerts ==>
      exists signal :: signal in signals && signal.score >= threshold && Reports(alert, signal)
  }

  /** Every such signal has its alert. */
  ghost predicate Complete(alerts: seq<Alert>, signals: seq<RiskSignal>, threshold: int) {
    forall signal :: signal in signals && signal.score >= threshold ==>
      exists alert :: alert in alerts && Reports(alert, signal)
  }

  /** The alerts of a finished pipeline are about signals of its events, and about no others. */
  lemma AlertsAreGrounded(alerts: seq<Alert>, events: seq<CheckoutEvent>, threshold: int, s: State<RiskSignal>)
    requires Settled(Alerts(alerts), events, threshold, s)
    ensures AllScored(s.calls, |events|) && Grounded(alerts, InInputOrder(s.calls, |events|), threshold)
  {
    var signals := InInputOrder(s.calls, |events|);
    forall alert | alert in alerts
      ensures exists signal :: signal in signals && signal.score >= threshold && Reports(alert, signal)
    {
      SameMember(alerts, FilterMap(signals, threshold), alert);
      var signal := FlatMapSource(signals, Alerting(threshold), alert);
      assert Reports(alert, signal);
    }
  }

  /** And none of those at or above the threshold is missing. */
  lemma AlertsAreComplete(alerts: seq<Alert>, events: seq<CheckoutEvent>, threshold: int, s: State<RiskSignal>)
    requires Settled(Alerts(alerts), events, threshold, s)
    ensures AllScored(s.calls, |events|) && Complete(alerts, InInputOrder(s.calls, |events|), threshold)
  {
    var signals := InInputOrder(s.calls, |events|);
    forall signal | signal in signals && signal.score >= threshold
      ensures exists alert :: alert in alerts && Reports(alert, signal)
    {
      FlatMapKeeps(signals, Alerting(threshold), signal, BuildAlert(signal));
      SameMember(alerts, FilterMap(signals, threshold), BuildAlert(signal));
      assert Reports(BuildAlert(signal), signal);
    }
  }

  /**
    Any two executions whose scorer answered alike agree, whatever their
    interleavings and worker counts, once checkouts are distinct.
  */
  lemma SameAlerts(
      alerts: seq<Alert>, alerts': seq<Alert>, events: seq<CheckoutEvent>, threshold: int,
      s: State<RiskSignal>, s': State<RiskSignal>)
    requires forall i: nat :: i < |events| && i in s.calls && i in s'.calls ==> s.calls[i] == s'.calls[i]
    requires AllScored(s.calls, |events|) && DistinctIds(FilterMap(InInputOrder(s.calls, |events|), threshold))
    ensures Settled(Alerts(alerts), events, threshold, s) && Settled(Alerts(alerts'), events, threshold, s') ==>
              alerts == alerts'
  {
    if Settled(Alerts(alerts), events, threshold, s) && Settled(Alerts(alerts'), events, threshold, s') {
      assert ItemsInOrder(s.calls, |events|) == ItemsInOrder(s'.calls, |events|);
      SortedMeaning(alerts, InInputOrder(s.calls, |events|), threshold);
      SortedMeaning(alerts', InInputOrder(s.calls, |events|), threshold);
    }
  }
}
