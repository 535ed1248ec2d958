/**
  The bounded worker pool: `GenerateQuotes` prices every order on a fixed set of
  workers and gives the quotes back in input order, or the first failure.
*/
module WorkerPool {
  import opened Wrappers
  import opened Runs
  import opened Outcomes
  import opened FanPool

  datatype Order = Order(id: string, distanceKm: int, weightKg: real, priority: string)

  datatype ShipmentQuote = ShipmentQuote(orderId: string, carrier: string, priceCents: int, slaHours: int)

  const ZERO_QUOTE := ShipmentQuote("", "", 0, 0)

  /** `Miscounted` is the last-resort error for a short count without a cancelled context. */
  datatype Answer =
    | Rejected(reason: string)
    | Quotes(quotes: seq<ShipmentQuote>)
    | QuoteFailed(orderId: string, error: string)
    | ContextDone
    | Miscounted

  /** The collector's `quotes` after the items of `log`, as long as none has failed. */
  ghost predicate Filled(quotes: seq<ShipmentQuote>, log: seq<Item<ShipmentQuote>>) {
    forall k :: 0 <= k < |log| ==>
      log[k].index < |quotes| && log[k].outcome == Good(quotes[log[k].index])
  }

  /**
    The answer of a finished batch. The first failure to be collected decides;
    without one a full count gives every order the quote that its own call
    returned, and a short count the error of the context, which is over.
  */
  ghost predicate Settled(r: Answer, orders: seq<Order>, s: State<ShipmentQuote>) {
    match FirstBad(s.log)
    case Some(it) =>
      it.index < |orders| && Recorded(s.calls, it) && it.outcome.Bad? &&
      r == QuoteFailed(orders[it.index].id, it.outcome.error)
    case None =>
      if |s.log| == |orders|
      then r.Quotes? && QuotesOf(r.quotes, orders, s.calls)
      else r == ContextDone && s.collector.Finished? && s.collector.ctxErr
  }

  /** Order `i` has the quote that the callback returned for order `i`. */
  ghost predicate QuotesOf(quotes: seq<ShipmentQuote>, orders: seq<Order>, calls: map<nat, Outcome<ShipmentQuote>>) {
    |quotes| == |orders| && forall i: nat :: i < |orders| ==> i in calls && calls[i] == Good(quotes[i])
  }

  lemma FilledExtends(
      quotes: seq<ShipmentQuote>, s: State<ShipmentQuote>, item: Item<ShipmentQuote>)
    requires Faithful(s) && item in s.results && item.outcome.Good?
    requires Filled(quotes, s.log) && s.next <= |quotes|
    ensures item.index < |quotes|
    ensures Filled(quotes[item.index := item.outcome.value], s.log + [item])
  {
    assert Recorded(s.calls, item);
    forall k | 0 <= k < |s.log| && s.log[k].index == item.index
      ensures s.log[k].outcome == item.outcome
    {
      assert s.log[k] in s.log && Recorded(s.calls, s.log[k]);
    }
  }

  lemma FullCountSettles(
      quotes: seq<ShipmentQuote>, orders: seq<Order>, s: State<ShipmentQuote>)
    requires Inv(s) && s.collector.Finished? && |s.log| == s.total == |orders| == |quotes|
    requires FirstBad(s.log).None? && Filled(quotes, s.log)
    ensures Settled(Quotes(quotes), orders, s)
  {
    FullCountMeansEveryIndex(s);
  }

  lemma FailureSettles(orders: seq<Order>, s: State<ShipmentQuote>)
    requires Inv(s) && s.total == |orders| && FirstBad(s.log).Some?
    ensures var it := FirstBad(s.log).value;
            it.outcome.Bad? && it.index < |orders| &&
            Settled(QuoteFailed(orders[it.index].id, it.outcome.error), orders, s)
  {
    NoBadMeansAllGood(s.log);
    assert Recorded(s.calls, FirstBad(s.log).value);
  }

  /** Two batches whose callbacks answered alike give the same quotes, whatever their interleavings and workers. */
  lemma SameQuotes(
      quotes: seq<ShipmentQuote>, quotes': seq<ShipmentQuote>, orders: seq<Order>,
      s: State<ShipmentQuote>, s': State<ShipmentQuote>)
    requires Settled(Quotes(quotes), orders, s) && Settled(Quotes(quotes'), orders, s')
    requires forall i: nat :: i < |orders| && i in s.calls && i in s'.calls ==> s.calls[i] == s'.calls[i]
    ensures quotes == quotes'
  {
    forall i: nat | i < |orders| ensures quotes[i] == quotes'[i] {
      assert s.calls[i] == Good(quotes[i]) && s'.calls[i] == Good(quotes'[i]);
    }
  }

  /** One turn of the collector: receive and account for an item, call `cancel()`, or stop ranging. */
  method CollectorTurn(
      pool: Pool<ShipmentQuote>, quotes: array<ShipmentQuote>, completed: nat,
      firstErr: Option<Item<ShipmentQuote>>)
    returns (completed': nat, firstErr': Option<Item<ShipmentQuote>>, ghost a: Action<ShipmentQuote>)
    requires Inv(pool.Abs()) && pool.CollectorReady() && quotes.Length == pool.total
    requires completed == |pool.log| && firstErr == FirstBad(pool.log)
    requires firstErr.None? ==> Filled(quotes[..], pool.log)
    modifies pool, quotes
    ensures Step(old(pool.Abs()), a) == Some(pool.Abs())
    ensures !a.ParentCancel? && Inv(pool.Abs()) && Rank(pool.Abs()) < old(Rank(pool.Abs()))
    ensures completed' == |pool.log| && firstErr' == FirstBad(pool.log)
    ensures firstErr'.None? ==> Filled(quotes[..], pool.log)
  {
    completed', firstErr' := completed, firstErr;
    if pool.collector.Cancelling? {
      a := CancelBatch;
      pool.Cancel();
    } else if pool.results != [] {
      a := Collect;
      ghost var s, filled := pool.Abs(), quotes[..];
      var item := pool.Receive(firstErr.None?);
      completed' := completed + 1;
      if item.outcome.Bad? && firstErr.None? {
        firstErr' := Some(item);
      } else if firstErr.None? {
        FilledExtends(filled, s, item);
        quotes[item.index] := item.outcome.value;
        assert quotes[..] == filled[item.index := item.outcome.value];
      }
    } else {
      a := Finish;
      pool.FinishBatch();
    }
  }

  /** One turn of any goroutine that is ready, and one always is; the parent's context has one only if `parentEnds`. */
  method AnyTurn(
      pool: Pool<ShipmentQuote>, quotes: array<ShipmentQuote>, completed: nat,
      firstErr: Option<Item<ShipmentQuote>>, parentEnds: bool)
    returns (completed': nat, firstErr': Option<Item<ShipmentQuote>>, ghost a: Action<ShipmentQuote>)
    requires Inv(pool.Abs()) && !Final(pool.Abs()) && quotes.Length == pool.total
    requires completed == |pool.log| && firstErr == FirstBad(pool.log)
    requires firstErr.None? ==> Filled(quotes[..], pool.log)
    modifies pool, quotes
    ensures a.ParentCancel? ==> parentEnds
    ensures Step(old(pool.Abs()), a) == Some(pool.Abs())
    ensures Inv(pool.Abs()) && Rank(pool.Abs()) < old(Rank(pool.Abs()))
    ensures completed' == |pool.log| && firstErr' == FirstBad(pool.log)
    ensures firstErr'.None? ==> Filled(quotes[..], pool.log)
  {
    completed', firstErr' := completed, firstErr;
    pool.SomeoneReady();
    var outcome: Outcome<ShipmentQuote> := *;
    if {
      case pool.BackgroundReady() => a := pool.Background(outcome);
      case pool.CollectorReady() => completed', firstErr', a := CollectorTurn(pool, quotes, completed, firstErr);
      case parentEnds && !pool.cancelled => a := pool.ParentCancels();
    }
  }

  /** What the caller is told once the loop is over. */
  method Conclude(
      pool: Pool<ShipmentQuote>, orders: seq<Order>, quotes: array<ShipmentQuote>, completed: nat,
      firstErr: Option<Item<ShipmentQuote>>)
    returns (r: Answer)
    requires Inv(pool.Abs()) && pool.collector.Finished? && quotes.Length == pool.total == |orders|
    requires completed == |pool.log| && firstErr == FirstBad(pool.log)
    requires firstErr.None? ==> Filled(quotes[..], pool.log)
    ensures Settled(r, orders, pool.Abs())
  {
    ShortCountMeansCancelled(pool.Abs());
    if firstErr.Some? {
      FailureSettles(orders, pool.Abs());
      r := QuoteFailed(orders[firstErr.value.index].id, firstErr.value.outcome.error);
    } else if completed != |orders| {
      r := if pool.collector.ctxErr then ContextDone else Miscounted;
    } else {
      FullCountSettles(quotes[..], orders, pool.Abs());
      r := Quotes(quotes[..]);
    }
  }

  /**
    The whole batch, one goroutine step per turn, the scheduler free at every
    turn: `run` is the interleaving it chose and `end` the state it led to. The
    caller's context may end during the call if `parentEnds`. If it does not,
    the call ends all the same, with the quotes or with a failed callback. The
    loop runs on until the producer, too, has gone.
  */
  method GenerateQuotes(orders: seq<Order>, workers: int, parentEnds: bool)
    returns (r: Answer, ghost run: seq<Action<ShipmentQuote>>, ghost end: State<ShipmentQuote>)
    ensures workers < 1 <==> r == Rejected("workers must be at least 1")
    ensures r.Rejected? <==> workers < 1
    ensures workers >= 1 && orders == [] ==> r == Quotes([])
    ensures workers >= 1 && orders != [] ==>
              && Exec(Step, Init(|orders|, workers), run) == Some(end)
              && Inv(end) && Final(end) && end.total == |orders| && Settled(r, orders, end)
    ensures workers >= 1 && !parentEnds ==> ParentCancel !in run && (r.Quotes? || r.QuoteFailed?)
  {
    run, end := [], Init(|orders|, if workers < 1 then 1 else workers);
    if workers < 1 {
      return Rejected("workers must be at least 1"), run, end;
    }
    if |orders| == 0 {
      return Quotes([]), run, end;
    }

    var pool := new Pool<ShipmentQuote>(|orders|, workers);
    var quotes := new ShipmentQuote[|orders|](_ => ZERO_QUOTE);
    var firstErr: Option<Item<ShipmentQuote>> := None;
    var completed := 0;
    InitInv<ShipmentQuote>(|orders|, workers);

    while !(pool.collector.Finished? && pool.jobsClosed)
      invariant fresh(pool) && fresh(quotes)
      invariant Exec(Step, Init(|orders|, workers), run) == Some(end) && end == pool.Abs()
      invariant Inv(pool.Abs()) && pool.total == |orders|
      invariant !parentEnds ==> ParentCancel !in run
      invariant completed == |pool.log| && firstErr == FirstBad(pool.log)
      invariant firstErr.None? ==> Filled(quotes[..], pool.log)
      decreases Rank(pool.Abs())
    {
      ghost var a;
      completed, firstErr, a := AnyTurn(pool, quotes, completed, firstErr, parentEnds);
      run, end := Append(Step, Init(|orders|, workers), run, end, a);
    }

    r := Conclude(pool, orders, quotes, completed, firstErr);
    if !parentEnds {
      OnlyFailures(|orders|, workers, run);
    }
  }
}
