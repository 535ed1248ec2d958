/**
  Exactly when the order of the alerts is settled. Scorers may finish in any
  order, so alerts for one checkout may reach the sink in any order, and sorting
  by checkout cannot tell them apart, not even a sort that keeps equals in place.
*/
module PipelineOrder {
  import opened Wrappers
  import opened Runs
  import opened Permutations
  import opened Ordering
  import opened Outcomes
  import opened FanPool
  import opened Pipeline

  type Batch = State<RiskSignal>

  type Steps = seq<Action<RiskSignal>>

  // ----- a sort that keeps equals in place

  /** The alerts for one checkout, in their order. */
  function OfCheckout(alerts: seq<Alert>, id: string): seq<Alert> {
    if alerts == [] then []
    else (if alerts[0].checkoutId == id then [alerts[0]] else []) + OfCheckout(alerts[1..], id)
  }

  lemma {:induction false} OfCheckoutConcat(a: seq<Alert>, b: seq<Alert>, id: string)
    ensures OfCheckout(a + b, id) == OfCheckout(a, id) + OfCheckout(b, id)
  {
    if a == [] {
      assert a + b == b;
    } else {
      assert (a + b)[1..] == a[1..] + b;
      OfCheckoutConcat(a[1..], b, id);
    }
  }

  lemma OnlyOne(alert: Alert)
    ensures OfCheckout([alert], alert.checkoutId) == [alert]
  {
    assert [alert][1..] == [];
  }

  /** An alert that is not for this checkout, or is the first for it. */
  lemma OfCheckoutFirst(alert: Alert, alerts: seq<Alert>, id: string)
    ensures OfCheckout([alert] + alerts, id) ==
            (if alert.checkoutId == id then [alert] else []) + OfCheckout(alerts, id)
  {
    assert ([alert] + alerts)[1..] == alerts;
  }

  lemma OfCheckoutSwap(x: Alert, y: Alert, alerts: seq<Alert>, id: string)
    requires x.checkoutId != y.checkoutId
    ensures OfCheckout([x] + ([y] + alerts), id) == OfCheckout([y] + ([x] + alerts), id)
  {
    OfCheckoutFirst(x, [y] + alerts, id);
    OfCheckoutFirst(y, alerts, id);
    OfCheckoutFirst(y, [x] + alerts, id);
    OfCheckoutFirst(x, alerts, id);
  }

  lemma {:induction false} InsertKeeps(x: Alert, alerts: seq<Alert>, id: string)
    ensures OfCheckout(Insert(ById, x, alerts), id) == OfCheckout([x] + alerts, id)
  {
    if alerts != [] && ById(alerts[0], x) {
      InsertKeeps(x, alerts[1..], id);
      PrecedesTrichotomy(x.checkoutId, x.checkoutId);
      assert x.checkoutId != alerts[0].checkoutId;
      OfCheckoutFirst(alerts[0], Insert(ById, x, alerts[1..]), id);
      OfCheckoutFirst(x, alerts, id);
      OfCheckoutFirst(x, alerts[1..], id);
      OfCheckoutSwap(x, alerts[0], alerts[1..], id);
      assert alerts == [alerts[0]] + alerts[1..];
    }
  }

  lemma {:induction false} SortKeeps(alerts: seq<Alert>, id: string)
    ensures OfCheckout(Sort(ById, alerts), id) == OfCheckout(alerts, id)
  {
    if alerts != [] {
      SortKeeps(alerts[1..], id);
      InsertKeeps(alerts[0], Sort(ById, alerts[1..]), id);
      OfCheckoutFirst(alerts[0], Sort(ById, alerts[1..]), id);
    }
  }

  // ----- runs of the pipeline

  /** Nothing closed or cancelled, nothing waiting for the sink, and no failure so far. */
  ghost predicate Open(s: Batch) {
    && !s.cancelled && !s.jobsClosed && !s.resultsClosed && s.collector.Ranging? && s.results == []
    && s.cap >= 1 && FirstBad(s.log).None?
  }

  function ItemAt(signals: seq<RiskSignal>, i: nat): Item<RiskSignal>
    requires i < |signals|
  {
    Item(i, Good(signals[i]))
  }

  function Items(signals: seq<RiskSignal>, lo: nat, hi: nat): seq<Item<RiskSignal>>
    requires lo <= hi <= |signals|
  {
    seq(hi - lo, k requires 0 <= k < hi - lo => ItemAt(signals, lo + k))
  }

  /** The scorer has answered as `signals` say. */
  ghost predicate Scored(s: Batch, signals: seq<RiskSignal>) {
    forall i :: i in s.calls ==> i < |signals| && s.calls[i] == Good(signals[i])
  }

  /** Worker `w`, in the middle of event `i`, is done with it, and the sink takes the signal. */
  lemma Deliver(s0: Batch, run0: Steps, s: Batch, w: nat, signals: seq<RiskSignal>)
    returns (run: Steps, t: Batch)
    requires Exec(Step, s0, run0) == Some(s) && Open(s) && w < |s.workers| && s.workers[w].Calling?
    requires s.workers[w].index < |signals| && Scored(s, signals)
    ensures Exec(Step, s0, run) == Some(t) && Open(t) && Scored(t, signals)
    ensures t == s.(workers := s.workers[w := Idle], calls := t.calls,
                    log := s.log + [ItemAt(signals, s.workers[w].index)])
  {
    var item := ItemAt(signals, s.workers[w].index);
    run, t := Append(Step, s0, run0, s, Return(w, item.outcome));
    run, t := Append(Step, s0, run, t, Report(w));
    run, t := Append(Step, s0, run, t, Collect);
    FirstBadGrows(s.log, item);
    assert t.workers == s.workers[w := Idle];
  }

  lemma ServeNext(
      s0: Batch, run0: Steps, s: Batch, w: nat, signals: seq<RiskSignal>)
    returns (run: Steps, t: Batch)
    requires Exec(Step, s0, run0) == Some(s) && Open(s) && Scored(s, signals)
    requires w < |s.workers| && s.workers[w].Idle? && s.next < s.total == |signals|
    ensures Exec(Step, s0, run) == Some(t) && Open(t) && Scored(t, signals)
    ensures t == s.(next := s.next + 1, calls := t.calls, log := s.log + [ItemAt(signals, s.next)])
  {
    run, t := Append(Step, s0, run0, s, Handoff(w));
    run, t := Deliver(s0, run, t, w, signals);
    assert t.workers == s.workers;
  }

  /** Worker `w` alone scores the events up to `m`. */
  lemma {:induction false} ServeTo(
      s0: Batch, run0: Steps, s: Batch, w: nat, signals: seq<RiskSignal>, m: nat)
    returns (run: Steps, t: Batch)
    requires Exec(Step, s0, run0) == Some(s) && Open(s) && Scored(s, signals)
    requires w < |s.workers| && s.workers[w].Idle? && s.next <= m <= s.total == |signals|
    ensures Exec(Step, s0, run) == Some(t) && Open(t) && Scored(t, signals)
    ensures t == s.(next := m, calls := t.calls, log := s.log + Items(signals, s.next, m))
    decreases m - s.next
  {
    if s.next == m {
      run, t := run0, s;
      assert s.log == s.log + Items(signals, m, m);
    } else {
      run, t := ServeNext(s0, run0, s, w, signals);
      run, t := ServeTo(s0, run, t, w, signals, m);
      OneMoreItem(s.log, signals, s.next, m);
    }
  }

  lemma OneMoreItem(log: seq<Item<RiskSignal>>, signals: seq<RiskSignal>, lo: nat, hi: nat)
    requires lo < hi <= |signals|
    ensures log + [ItemAt(signals, lo)] + Items(signals, lo + 1, hi) == log + Items(signals, lo, hi)
  {
  }

  lemma HandToFirst(s0: Batch, run0: Steps, s: Batch)
    returns (run: Steps, t: Batch)
    requires Exec(Step, s0, run0) == Some(s) && Open(s) && s.next < s.total
    requires 2 <= |s.workers| && s.workers[0].Idle? && s.workers[1].Idle?
    ensures Exec(Step, s0, run) == Some(t) && Open(t)
    ensures t == s.(next := s.next + 1, workers := s.workers[0 := Calling(s.next)])
  {
    run, t := Append(Step, s0, run0, s, Handoff(0));
  }

  /** The first `gone` workers have left. */
  ghost predicate Leaving(s: Batch, gone: nat) {
    && !s.cancelled && s.jobsClosed && !s.resultsClosed && s.collector.Ranging? && s.results == [] && !s.panicked
    && gone <= |s.workers| && s.wg == |s.workers| - gone
    && forall w :: 0 <= w < |s.workers| ==> s.workers[w] == if w < gone then Exited else Idle
  }

  lemma {:induction false} WorkersLeave(s0: Batch, run0: Steps, s: Batch, gone: nat)
    returns (run: Steps, t: Batch)
    requires Exec(Step, s0, run0) == Some(s) && Leaving(s, gone)
    ensures Exec(Step, s0, run) == Some(t) && Leaving(t, |t.workers|) && t.log == s.log && t.calls == s.calls
    decreases |s.workers| - gone
  {
    if gone == |s.workers| {
      run, t := run0, s;
    } else {
      run, t := Append(Step, s0, run0, s, WorkerExit(gone));
      run, t := WorkersLeave(s0, run, t, gone + 1);
    }
  }

  /** Every event scored and collected, every worker idle. */
  ghost predicate Settling(s: Batch) {
    && Open(s) && s.next >= s.total && !s.panicked && s.wg == |s.workers|
    && forall w :: 0 <= w < |s.workers| ==> s.workers[w].Idle?
  }

  /** All is collected: everybody goes home. */
  lemma WindUp(s0: Batch, run0: Steps, s: Batch)
    returns (run: Steps, t: Batch)
    requires Exec(Step, s0, run0) == Some(s) && Settling(s)
    ensures Exec(Step, s0, run) == Some(t) && t.collector == Finished(false) && t.log == s.log && t.calls == s.calls
  {
    run, t := Append(Step, s0, run0, s, ProducerExit);
    run, t := WorkersLeave(s0, run, t, 0);
    run, t := Append(Step, s0, run, t, CloseResults);
    run, t := Append(Step, s0, run, t, Finish);
  }

  /** Every worker idle, and what was handed out so far collected. */
  ghost predicate Ready(s: Batch, signals: seq<RiskSignal>) {
    && Open(s) && Scored(s, signals) && !s.panicked && s.next <= s.total == |signals|
    && 2 <= |s.workers| == s.wg && forall w :: 0 <= w < |s.workers| ==> s.workers[w].Idle?
  }

  lemma InitReady(workers: nat, signals: seq<RiskSignal>)
    requires workers >= 2
    ensures var s := Init<RiskSignal>(|signals|, workers); Ready(s, signals) && s.next == 0 && s.log == []
  {
  }

  /** Event by event, on one worker. */
  lemma InOrder(workers: nat, signals: seq<RiskSignal>)
    returns (run: Steps, t: Batch)
    requires workers >= 2
    ensures Exec(Step, Init(|signals|, workers), run) == Some(t) && t.collector == Finished(false)
    ensures Scored(t, signals) && t.log == Items(signals, 0, |signals|)
  {
    var s := Init<RiskSignal>(|signals|, workers);
    InitReady(workers, signals);
    run, t := FinishFrom(s, [], s, signals);
  }

  /** The log of such a run. */
  function Overtaken(signals: seq<RiskSignal>, i: nat, j: nat): seq<Item<RiskSignal>>
    requires i < j < |signals|
  {
    Items(signals, 0, i) + Items(signals, i + 1, j + 1) + [ItemAt(signals, i)] + Items(signals, j + 1, |signals|)
  }

  /** Event `i` is scored slowly: its signal comes after that of event `j`. */
  lemma OutOfOrder(workers: nat, signals: seq<RiskSignal>, i: nat, j: nat)
    returns (run: Steps, t: Batch)
    requires workers >= 2 && i < j < |signals|
    ensures Exec(Step, Init(|signals|, workers), run) == Some(t) && t.collector == Finished(false)
    ensures Scored(t, signals) && t.log == Overtaken(signals, i, j)
  {
    InitReady(workers, signals);
    run, t := OutOfOrderFrom(Init(|signals|, workers), signals, i, j);
  }

  lemma OutOfOrderFrom(s: Batch, signals: seq<RiskSignal>, i: nat, j: nat) returns (run: Steps, t: Batch)
    requires Ready(s, signals) && s.next == 0 && s.log == [] && i < j < |signals|
    ensures Exec(Step, s, run) == Some(t) && t.collector == Finished(false)
    ensures Scored(t, signals) && t.log == Overtaken(signals, i, j)
  {
    run, t := FirstTo(s, signals, i);
    run, t := OvertakeAndFinish(s, run, t, signals, j + 1);
  }

  lemma FirstTo(s: Batch, signals: seq<RiskSignal>, m: nat) returns (run: Steps, t: Batch)
    requires Ready(s, signals) && s.next == 0 && s.log == [] && m <= s.total
    ensures Exec(Step, s, run) == Some(t) && Ready(t, signals) && t.next == m && t.log == Items(signals, 0, m)
  {
    run, t := ReadyTo(s, [], s, signals, m);
    assert [] + Items(signals, 0, m) == Items(signals, 0, m);
  }

  lemma ReadyTo(s0: Batch, run0: Steps, s: Batch, signals: seq<RiskSignal>, m: nat)
    returns (run: Steps, t: Batch)
    requires Exec(Step, s0, run0) == Some(s) && Ready(s, signals) && s.next <= m <= s.total
    ensures Exec(Step, s0, run) == Some(t) && Ready(t, signals)
    ensures t.next == m && t.log == s.log + Items(signals, s.next, m)
  {
    run, t := ServeTo(s0, run0, s, 1, signals, m);
  }

  lemma OthersServed(s0: Batch, run0: Steps, s: Batch, signals: seq<RiskSignal>, m: nat)
    returns (run: Steps, t: Batch)
    requires Exec(Step, s0, run0) == Some(s) && Ready(s, signals) && s.next < m <= s.total
    ensures Exec(Step, s0, run) == Some(t) && Open(t) && Scored(t, signals) && !t.panicked
    ensures t.next == m && t.total == s.total && t.wg == |t.workers| == |s.workers|
    ensures t.workers == s.workers[0 := Calling(s.next)]
    ensures t.log == s.log + Items(signals, s.next + 1, m)
  {
    run, t := HandToFirst(s0, run0, s);
    run, t := ServeTo(s0, run, t, 1, signals, m);
  }

  /** While worker 0 is at the next event, worker 1 scores those up to `m`. */
  lemma Overtake(s0: Batch, run0: Steps, s: Batch, signals: seq<RiskSignal>, m: nat)
    returns (run: Steps, t: Batch)
    requires Exec(Step, s0, run0) == Some(s) && Ready(s, signals) && s.next < m <= s.total
    ensures Exec(Step, s0, run) == Some(t) && Ready(t, signals) && t.next == m
    ensures t.log == s.log + Items(signals, s.next + 1, m) + [ItemAt(signals, s.next)]
  {
    run, t := OthersServed(s0, run0, s, signals, m);
    run, t := FirstDelivers(s0, run, t, s.next, signals);
  }

  lemma FirstDelivers(s0: Batch, run0: Steps, s: Batch, i: nat, signals: seq<RiskSignal>)
    returns (run: Steps, t: Batch)
    requires Exec(Step, s0, run0) == Some(s) && Open(s) && Scored(s, signals) && !s.panicked
    requires i < s.next <= s.total == |signals| && 2 <= |s.workers| == s.wg && s.workers[0] == Calling(i)
    requires forall w :: 1 <= w < |s.workers| ==> s.workers[w].Idle?
    ensures Exec(Step, s0, run) == Some(t) && Ready(t, signals)
    ensures t.next == s.next && t.log == s.log + [ItemAt(signals, i)]
  {
    run, t := Deliver(s0, run0, s, 0, signals);
  }

  lemma OvertakeAndFinish(
      s0: Batch, run0: Steps, s: Batch, signals: seq<RiskSignal>, m: nat)
    returns (run: Steps, t: Batch)
    requires Exec(Step, s0, run0) == Some(s) && Ready(s, signals) && s.next < m <= s.total
    ensures Exec(Step, s0, run) == Some(t) && t.collector == Finished(false) && Scored(t, signals)
    ensures t.log == s.log + Items(signals, s.next + 1, m) + [ItemAt(signals, s.next)] + Items(signals, m, |signals|)
  {
    run, t := Overtake(s0, run0, s, signals, m);
    run, t := FinishFrom(s0, run, t, signals);
  }

  lemma FinishFrom(s0: Batch, run0: Steps, s: Batch, signals: seq<RiskSignal>)
    returns (run: Steps, t: Batch)
    requires Exec(Step, s0, run0) == Some(s) && Ready(s, signals)
    ensures Exec(Step, s0, run) == Some(t) && t.collector == Finished(false)
    ensures Scored(t, signals) && t.log == s.log + Items(signals, s.next, |signals|)
  {
    run, t := ServeTo(s0, run0, s, 1, signals, |signals|);
    run, t := WindUp(s0, run, t);
  }

  // ----- what the sink makes of them

  lemma {:induction false} ReceivedItems(signals: seq<RiskSignal>, lo: nat, hi: nat)
    requires lo <= hi <= |signals|
    ensures Received(Items(signals, lo, hi)) == signals[lo..hi]
    decreases hi
  {
    if lo == hi {
      assert Items(signals, lo, hi) == [];
    } else {
      ReceivedItems(signals, lo, hi - 1);
      assert Items(signals, lo, hi)[..hi - lo - 1] == Items(signals, lo, hi - 1);
      assert Items(signals, lo, hi)[hi - lo - 1] == ItemAt(signals, hi - 1);
      assert signals[lo..hi] == signals[lo..hi - 1] + [signals[hi - 1]];
    }
  }

  lemma ReceivedFour(
      a: seq<Item<RiskSignal>>, b: seq<Item<RiskSignal>>, c: seq<Item<RiskSignal>>, d: seq<Item<RiskSignal>>)
    ensures Received(a + b + c + d) == Received(a) + Received(b) + Received(c) + Received(d)
  {
    FlatMapConcat(a + b + c, d, SignalOf);
    FlatMapConcat(a + b, c, SignalOf);
    FlatMapConcat(a, b, SignalOf);
  }

  lemma ReceivedOutOfOrder(signals: seq<RiskSignal>, i: nat, j: nat)
    requires i < j < |signals|
    ensures Received(Overtaken(signals, i, j))
            == signals[0..i] + signals[i + 1..j + 1] + [signals[i]] + signals[j + 1..|signals|]
  {
    ReceivedFour(Items(signals, 0, i), Items(signals, i + 1, j + 1), [ItemAt(signals, i)],
                 Items(signals, j + 1, |signals|));
    FlatMapOne(ItemAt(signals, i), SignalOf);
    ReceivedItems(signals, 0, i);
    ReceivedItems(signals, i + 1, j + 1);
    ReceivedItems(signals, j + 1, |signals|);
  }

  /** The alerts for one checkout among those of some signals. */
  function Told(signals: seq<RiskSignal>, threshold: int, id: string): seq<Alert> {
    OfCheckout(FilterMap(signals, threshold), id)
  }

  lemma ToldConcat(a: seq<RiskSignal>, b: seq<RiskSignal>, threshold: int, id: string)
    ensures Told(a + b, threshold, id) == Told(a, threshold, id) + Told(b, threshold, id)
  {
    FlatMapConcat(a, b, Alerting(threshold));
    OfCheckoutConcat(FilterMap(a, threshold), FilterMap(b, threshold), id);
  }

  lemma ToldOne(x: RiskSignal, threshold: int)
    requires x.score >= threshold
    ensures Told([x], threshold, x.event.id) == [BuildAlert(x)]
  {
    FlatMapOne(x, Alerting(threshold));
    OnlyOne(BuildAlert(x));
  }

  lemma Exchanged<T>(x: seq<T>, a: T, m: seq<T>, b: T, y: seq<T>)
    requires a != b
    ensures x + [a] + m + [b] + y != x + m + [b] + [a] + y
  {
    var k := |x| + 1 + |m|;
    assert (x + [a] + m + [b] + y)[k] == b;
    assert (x + m + [b] + [a] + y)[k] == a;
  }

  lemma Spread(signals: seq<RiskSignal>, i: nat, j: nat)
    requires i < j < |signals|
    ensures signals == signals[..i] + [signals[i]] + signals[i + 1..j] + [signals[j]] + signals[j + 1..]
  {
    assert signals[i..] == [signals[i]] + signals[i + 1..];
    assert signals[i + 1..] == signals[i + 1..j] + signals[j..];
    assert signals[j..] == [signals[j]] + signals[j + 1..];
  }

  /** Two alerts for one checkout that come the other way round. */
  lemma ToldDiffers(signals: seq<RiskSignal>, i: nat, j: nat, threshold: int)
    requires i < j < |signals| && signals[i].score >= threshold && signals[j].score >= threshold
    requires signals[i].event.id == signals[j].event.id && BuildAlert(signals[i]) != BuildAlert(signals[j])
    ensures var other := signals[..i] + signals[i + 1..j + 1] + [signals[i]] + signals[j + 1..];
            Told(other, threshold, signals[i].event.id) != Told(signals, threshold, signals[i].event.id)
  {
    var id := signals[i].event.id;
    var x, m, y := signals[..i], signals[i + 1..j], signals[j + 1..];
    var a, b := [signals[i]], [signals[j]];
    Spread(signals, i, j);
    assert signals[i + 1..j + 1] == m + b;
    assert signals[..i] + signals[i + 1..j + 1] == x + m + b;
    ToldFive(x, a, m, b, y, threshold, id);
    ToldFive(x, m, b, a, y, threshold, id);
    ToldOne(signals[i], threshold);
    ToldOne(signals[j], threshold);
    Exchanged(Told(x, threshold, id), BuildAlert(signals[i]), Told(m, threshold, id), BuildAlert(signals[j]),
              Told(y, threshold, id));
  }

  lemma ToldFive(
      a: seq<RiskSignal>, b: seq<RiskSignal>, c: seq<RiskSignal>, d: seq<RiskSignal>, e: seq<RiskSignal>,
      threshold: int, id: string)
    ensures Told(a + b + c + d + e, threshold, id) ==
            Told(a, threshold, id) + Told(b, threshold, id) + Told(c, threshold, id) + Told(d, threshold, id)
            + Told(e, threshold, id)
  {
    ToldConcat(a + b + c + d, e, threshold, id);
    ToldConcat(a + b + c, d, threshold, id);
    ToldConcat(a + b, c, threshold, id);
    ToldConcat(a, b, threshold, id);
  }

  lemma TiedSignals(signals: seq<RiskSignal>, threshold: int) returns (i: nat, j: nat)
    requires !DistinctIds(FilterMap(signals, threshold))
    ensures i < j < |signals| && signals[i].score >= threshold && signals[j].score >= threshold
    ensures signals[i].event.id == signals[j].event.id && BuildAlert(signals[i]) != BuildAlert(signals[j])
  {
    var expected := FilterMap(signals, threshold);
    var a, b :| a in expected && b in expected && a.checkoutId == b.checkoutId && a != b;
    var x := FlatMapSource(signals, Alerting(threshold), a);
    var y := FlatMapSource(signals, Alerting(threshold), b);
    i :| 0 <= i < |signals| && signals[i] == x;
    j :| 0 <= j < |signals| && signals[j] == y;
    if i > j {
      i, j := j, i;
    }
  }

  /** `alerts` is what a sort that keeps equals in place makes of an uncancelled run with these scores. */
  ghost predicate Returns(
      workers: nat, signals: seq<RiskSignal>, threshold: int, run: Steps, alerts: seq<Alert>)
  {
    Exec(Step, Init(|signals|, workers), run).Some? &&
    var s := Exec(Step, Init(|signals|, workers), run).value;
    s.collector == Finished(false) && Scored(s, signals) && alerts == Sort(ById, FilterMap(Received(s.log), threshold))
  }

  lemma ReturnsMeaning(
      workers: nat, signals: seq<RiskSignal>, threshold: int, run: Steps, alerts: seq<Alert>)
    requires workers >= 1 && Returns(workers, signals, threshold, run, alerts)
    ensures Meaning(alerts, signals, threshold)
  {
    EveryRun(|signals|, workers, run);
    var s := Exec(Step, Init(|signals|, workers), run).value;
    ByIdOrders();
    SortSorts(ById, FilterMap(Received(s.log), threshold));
    AlertsSettle(alerts, FilterMap(Received(s.log), threshold), threshold, s);
    InputOrderAt(s.calls, |signals|);
    assert InInputOrder(s.calls, |signals|) == signals;
  }

  /** Two runs with the same scores whose alerts for one checkout come in different orders, and stay so. */
  lemma TwoOrders(workers: nat, signals: seq<RiskSignal>, threshold: int)
    returns (run: Steps, run': Steps, alerts: seq<Alert>, alerts': seq<Alert>)
    requires workers >= 2 && !DistinctIds(FilterMap(signals, threshold))
    ensures Returns(workers, signals, threshold, run, alerts) && Returns(workers, signals, threshold, run', alerts')
    ensures alerts != alerts'
  {
    var i, j := TiedSignals(signals, threshold);
    var s, s';
    run, s := InOrder(workers, signals);
    run', s' := OutOfOrder(workers, signals, i, j);
    ReceivedItems(signals, 0, |signals|);
    ReceivedOutOfOrder(signals, i, j);
    assert signals[0..|signals|] == signals;
    alerts := Sort(ById, FilterMap(Received(s.log), threshold));
    alerts' := Sort(ById, FilterMap(Received(s'.log), threshold));
    ToldDiffers(signals, i, j, threshold);
    SortKeeps(FilterMap(Received(s.log), threshold), signals[i].event.id);
    SortKeeps(FilterMap(Received(s'.log), threshold), signals[i].event.id);
  }

  // ----- a single worker

  /** One worker hands on the events one by one, in input order. */
  ghost predicate InLine(s: Batch) {
    && |s.workers| == 1
    && (forall k :: 0 <= k < |s.log| ==> s.log[k].index == k)
    && (forall k :: 0 <= k < |s.results| ==> s.results[k].index == |s.log| + k)
    && match s.workers[0]
       case Idle => s.next == |s.log| + |s.results|
       case Calling(i) => i == |s.log| + |s.results| && s.next == i + 1
       case Sending(item) => item.index == |s.log| + |s.results| && s.next == item.index + 1
       case Exited => true
  }

  lemma WorkerStepInLine(s: Batch, a: Action<RiskSignal>)
    requires InLine(s) && OfWorker(a) && Step(s, a).Some?
    ensures InLine(Step(s, a).value)
  {
    assert a.w == 0;
  }

  lemma CollectInLine(s: Batch)
    requires InLine(s) && Step(s, Collect).Some?
    ensures InLine(Step(s, Collect).value)
  {
  }

  lemma StepInLine(s: Batch, a: Action<RiskSignal>)
    requires InLine(s) && Step(s, a).Some?
    ensures InLine(Step(s, a).value)
  {
    if OfWorker(a) {
      WorkerStepInLine(s, a);
    } else if a.Collect? {
      CollectInLine(s);
    }
  }

  lemma OneWorkerInOrder(signals: seq<RiskSignal>, threshold: int, run: Steps, alerts: seq<Alert>)
    requires Returns(1, signals, threshold, run, alerts)
    ensures alerts == Sort(ById, FilterMap(signals, threshold))
  {
    var s0 := Init<RiskSignal>(|signals|, 1);
    var s := Exec(Step, s0, run).value;
    forall s: Batch, a: Action<RiskSignal> | InLine(s) && Step(s, a).Some? ensures InLine(Step(s, a).value) {
      StepInLine(s, a);
    }
    Invariant(Step<RiskSignal>, s => InLine(s), s0, run);
    EveryRun(|signals|, 1, run);
    ShortCountMeansCancelled(s);
    forall k | 0 <= k < |s.log| ensures s.log[k] == ItemAt(signals, k) {
      assert s.log[k] in s.log && Recorded(s.calls, s.log[k]);
    }
    assert s.log == Items(signals, 0, |signals|);
    ReceivedItems(signals, 0, |signals|);
    assert signals[0..|signals|] == signals;
  }

  /**
    The alerts of events scored alike come in the same order in all runs, if and
    only if there is a single worker or no two different alerts are for one
    checkout; and that is with a sort that keeps equals in place, which
    `sort.Slice` does not promise.
  */
  lemma OrderSettledExactly(workers: nat, signals: seq<RiskSignal>, threshold: int)
    requires workers >= 1
    ensures (forall run, run', alerts, alerts' ::
               Returns(workers, signals, threshold, run, alerts) && Returns(workers, signals, threshold, run', alerts')
               ==> alerts == alerts')
            <==> workers == 1 || DistinctIds(FilterMap(signals, threshold))
  {
    if workers == 1 || DistinctIds(FilterMap(signals, threshold)) {
      forall run, alerts | Returns(workers, signals, threshold, run, alerts)
        ensures alerts == Sort(ById, FilterMap(signals, threshold))
      {
        if workers == 1 {
          OneWorkerInOrder(signals, threshold, run, alerts);
        } else {
          ReturnsMeaning(workers, signals, threshold, run, alerts);
          SortedMeaning(alerts, signals, threshold);
        }
      }
    } else {
      var run, run', alerts, alerts' := TwoOrders(workers, signals, threshold);
    }
  }
}
