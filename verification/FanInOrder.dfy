/**
  Whether the fan-in settles which option is the best: the lookups report in any
  order, and the sort cannot tell apart options that agree in delivery, quantity
  and name.
*/
module FanInOrder {
  import opened Wrappers
  import opened Folds
  import opened Runs
  import opened Permutations
  import opened Ordering
  import opened Outcomes
  import opened FanIn

  type Answers = seq<Outcome<WarehouseStock>>

  // ----- reports on the same answers

  /** Two reports on the same answers of all lookups have the same options and failures if only equal options tie. */
  lemma SameReports(
      report: Report, report': Report, names: seq<string>, calls: map<nat, Outcome<WarehouseStock>>)
    requires Distinct(names) && Whole(report, names, calls) && Whole(report', names, calls)
    requires forall x, y :: x in report.options && y in report.options && Ties(Better, x, y) ==> x == y
    ensures report.options == report'.options && report.failures == report'.failures
  {
    SortedUnique(Better, report.options, report'.options);
    FailureKeys(report, names, calls);
    FailureKeys(report', names, calls);
    forall name | name in report.failures ensures report.failures[name] == report'.failures[name] {
      WhoFailed(names, calls, |names|, name);
      var k :| 0 <= k < |names| && calls[k].Bad? && names[k] == name;
      EachInItsPlace(report, names, calls, k);
      EachInItsPlace(report', names, calls, k);
    }
  }

  // ----- the best option of a run

  function AnswerItems(answers: Answers): seq<Item<WarehouseStock>> {
    seq(|answers|, k requires 0 <= k < |answers| => Item(k, answers[k]))
  }

  function OptionsOf(names: seq<string>, answers: Answers): seq<WarehouseStock> {
    FlatMap(AnswerItems(answers), OptionOf(names))
  }

  function First(options: seq<WarehouseStock>): Option<WarehouseStock> {
    if options == [] then None else Some(options[0])
  }

  /** What the lookups have returned so far is as in `answers`. */
  ghost predicate Answered(s: State, answers: Answers) {
    forall k :: k in s.calls && k < |answers| ==> s.calls[k] == answers[k]
  }

  /**
    The run ends uncancelled, its lookups returned `answers`, and `best` is the best
    option of its report, sorted so that equals keep the order received.
  */
  ghost predicate Reports(
      names: seq<string>, answers: Answers, run: seq<Action>, best: Option<WarehouseStock>)
  {
    Exec(Step, Init(|names|), run).Some? &&
    var s := Exec(Step, Init(|names|), run).value;
    && s.collector == Finished(false) && Answered(s, answers)
    && best == First(Sort(Better, FlatMap(s.log, OptionOf(names))))
  }

  /** No option is better. */
  ghost predicate Top(x: WarehouseStock, options: seq<WarehouseStock>) {
    x in options && forall y :: y in options ==> !Better(y, x)
  }

  lemma FirstIsTop(options: seq<WarehouseStock>, arranged: seq<WarehouseStock>)
    requires multiset(arranged) == multiset(options)
    ensures options == [] ==> First(Sort(Better, arranged)).None?
    ensures options != [] ==> First(Sort(Better, arranged)).Some? && Top(First(Sort(Better, arranged)).value, options)
  {
    BetterOrders();
    SortSorts(Better, arranged);
    var sorted := Sort(Better, arranged);
    SameSize(sorted, options);
    if options != [] {
      SameMember(sorted, options, sorted[0]);
      forall y | y in options ensures !Better(y, sorted[0]) {
        SameMember(sorted, options, y);
        var k :| 0 <= k < |sorted| && sorted[k] == y;
      }
    }
  }

  /** Among the top ones the sort leaves the first received in front. */
  lemma FirstReceivedFirst(x: WarehouseStock, rest: seq<WarehouseStock>)
    requires Top(x, [x] + rest)
    ensures First(Sort(Better, [x] + rest)) == Some(x)
  {
    var sorted := Sort(Better, rest);
    assert ([x] + rest)[1..] == rest;
    if sorted != [] {
      SameMember(sorted, rest, sorted[0]);
    }
  }

  /** The options of such a run are those of the answers, in some order. */
  lemma RunOptions(names: seq<string>, answers: Answers, run: seq<Action>, best: Option<WarehouseStock>)
    requires |names| == |answers| && Reports(names, answers, run, best)
    ensures var log := Exec(Step, Init(|names|), run).value.log;
            multiset(FlatMap(log, OptionOf(names))) == multiset(OptionsOf(names, answers))
  {
    EveryRun(|names|, run);
    var s := Exec(Step, Init(|names|), run).value;
    LogIsWhole(s);
    assert ItemsInOrder(s.calls, |names|) == AnswerItems(answers);
    FlatMapPermutes(s.log, AnswerItems(answers), OptionOf(names));
  }

  // ----- runs in which one lookup reports first

  /** No cancellation, nothing waiting for the collector, and every lookup at it or gone. */
  ghost predicate Open(s: State, answers: Answers) {
    && Inv(s) && |s.lookups| == |answers| && Answered(s, answers)
    && !s.cancelled && !s.resultsClosed && s.collector.Ranging? && s.results == []
    && forall k :: 0 <= k < |s.lookups| ==> s.lookups[k].Looking? || s.lookups[k].Exited?
  }

  lemma HandIn(s0: State, run0: seq<Action>, s: State, answers: Answers, k: nat)
    returns (run: seq<Action>, t: State)
    requires Exec(Step, s0, run0) == Some(s) && Open(s, answers) && k < |answers| && s.lookups[k].Looking?
    ensures Exec(Step, s0, run) == Some(t) && Inv(t) && Answered(t, answers)
    ensures t == s.(lookups := s.lookups[k := Exited], results := [Item(k, answers[k])],
                    calls := s.calls[k := answers[k]], wg := s.wg - 1)
  {
    StepInv(s, Return(k, answers[k]));
    run, t := Append(Step, s0, run0, s, Return(k, answers[k]));
    StepInv(t, Report(k));
    run, t := Append(Step, s0, run, t, Report(k));
  }

  /** Lookup `k` returns, reports and is received. */
  lemma Serve(s0: State, run0: seq<Action>, s: State, answers: Answers, k: nat)
    returns (run: seq<Action>, t: State)
    requires Exec(Step, s0, run0) == Some(s) && Open(s, answers) && k < |answers| && s.lookups[k].Looking?
    ensures Exec(Step, s0, run) == Some(t) && Open(t, answers)
    ensures t.log == s.log + [Item(k, answers[k])] && t.lookups == s.lookups[k := Exited]
  {
    run, t := HandIn(s0, run0, s, answers, k);
    StepInv(t, Collect);
    run, t := Append(Step, s0, run, t, Collect);
  }

  /** And so do all that have not yet, from lookup `k` on. */
  lemma {:induction false} ServeFrom(s0: State, run0: seq<Action>, s: State, answers: Answers, k: nat)
    returns (run: seq<Action>, t: State)
    requires Exec(Step, s0, run0) == Some(s) && Open(s, answers) && k <= |answers|
    requires forall i :: 0 <= i < k ==> s.lookups[i].Exited?
    ensures Exec(Step, s0, run) == Some(t) && Open(t, answers) && s.log <= t.log
    ensures forall i :: 0 <= i < |t.lookups| ==> t.lookups[i].Exited?
    decreases |answers| - k
  {
    run, t := run0, s;
    if k < |answers| {
      if s.lookups[k].Looking? {
        run, t := Serve(s0, run0, s, answers, k);
      }
      run, t := ServeFrom(s0, run, t, answers, k + 1);
    }
  }

  lemma WindUp(s0: State, run0: seq<Action>, s: State, answers: Answers) returns (run: seq<Action>, t: State)
    requires Exec(Step, s0, run0) == Some(s) && Open(s, answers)
    requires forall k :: 0 <= k < |s.lookups| ==> s.lookups[k].Exited?
    ensures Exec(Step, s0, run) == Some(t) && t.collector == Finished(false) && Answered(t, answers) && t.log == s.log
  {
    SumNone(s.lookups, Live);
    run, t := Append(Step, s0, run0, s, CloseResults);
    run, t := Append(Step, s0, run, t, Finish);
  }

  /** A run in which lookup `j` is received first. */
  lemma StartingWith(names: seq<string>, answers: Answers, j: nat) returns (run: seq<Action>, t: State)
    requires |names| == |answers| && j < |answers|
    ensures Exec(Step, Init(|names|), run) == Some(t) && t.collector == Finished(false) && Answered(t, answers)
    ensures [Item(j, answers[j])] <= t.log
  {
    var s0 := Init(|names|);
    InitInv(|names|);
    run, t := Serve(s0, [], s0, answers, j);
    run, t := ServeFrom(s0, run, t, answers, 0);
    run, t := WindUp(s0, run, t, answers);
  }

  /** What is received first comes first among the options. */
  lemma FirstReceived(log: seq<Item<WarehouseStock>>, item: Item<WarehouseStock>, names: seq<string>, x: WarehouseStock)
    requires [item] <= log && OptionOf(names)(item) == [x]
    ensures FlatMap(log, OptionOf(names)) == [x] + FlatMap(log[1..], OptionOf(names))
  {
    assert log == [item] + log[1..];
    FlatMapConcat([item], log[1..], OptionOf(names));
    FlatMapOne(item, OptionOf(names));
  }

  lemma TopStays(x: WarehouseStock, options: seq<WarehouseStock>, arranged: seq<WarehouseStock>)
    requires Top(x, options) && multiset(arranged) == multiset(options)
    ensures Top(x, arranged)
  {
    SameMember(arranged, options, x);
    forall y | y in arranged ensures !Better(y, x) {
      SameMember(arranged, options, y);
    }
  }

  /** Any option that no other is better than can come out as the best. */
  lemma AnyTopCanBeBest(names: seq<string>, answers: Answers, x: WarehouseStock) returns (run: seq<Action>)
    requires |names| == |answers| && Top(x, OptionsOf(names, answers))
    ensures Reports(names, answers, run, Some(x))
  {
    var item := FlatMapSource(AnswerItems(answers), OptionOf(names), x);
    var t;
    run, t := StartingWith(names, answers, item.index);
    var received := FlatMap(t.log, OptionOf(names));
    RunOptions(names, answers, run, First(Sort(Better, received)));
    FirstReceived(t.log, item, names, x);
    TopStays(x, OptionsOf(names, answers), received);
    FirstReceivedFirst(x, FlatMap(t.log[1..], OptionOf(names)));
  }

  /** Two lookups that give one stock, checked at different times: either can come out as the best. */
  lemma TwoBests(names: seq<string>, stock: WarehouseStock, later: int)
    returns (answers: Answers, run: seq<Action>, run': seq<Action>)
    requires |names| == 2 && stock.warehouse != "" && later != stock.checkedAt
    ensures answers == [Good(stock), Good(stock.(checkedAt := later))]
    ensures Reports(names, answers, run, Some(stock)) && Reports(names, answers, run', Some(stock.(checkedAt := later)))
  {
    var other := stock.(checkedAt := later);
    answers := [Good(stock), Good(other)];
    assert AnswerItems(answers) == [Item(0, Good(stock))] + [Item(1, Good(other))];
    FlatMapConcat([Item(0, Good(stock))], [Item(1, Good(other))], OptionOf(names));
    FlatMapOne(Item(0, Good(stock)), OptionOf(names));
    FlatMapOne(Item(1, Good(other)), OptionOf(names));
    assert OptionsOf(names, answers) == [stock, other];
    forall y | y in [stock, other] ensures !Better(y, stock) && !Better(y, other) {
      TiesExactly(y, stock);
      TiesExactly(y, other);
    }
    run := AnyTopCanBeBest(names, answers, stock);
    run' := AnyTopCanBeBest(names, answers, other);
  }

  /**
    The best option is the same in all uncancelled runs with the same answers, if
    and only if no two different options are both such that none is better. Two
    lookups that give one name with the same delivery and quantity, checked at
    different times, break it.
  */
  lemma BestSettledExactly(names: seq<string>, answers: Answers)
    requires |names| == |answers|
    ensures (forall run, run', best, best' ::
               Reports(names, answers, run, best) && Reports(names, answers, run', best') ==> best == best')
            <==> forall x, y :: Top(x, OptionsOf(names, answers)) && Top(y, OptionsOf(names, answers)) ==> x == y
  {
    var options := OptionsOf(names, answers);
    if x, y :| Top(x, options) && Top(y, options) && x != y {
      var run := AnyTopCanBeBest(names, answers, x);
      var run' := AnyTopCanBeBest(names, answers, y);
      assert Some(x) != Some(y);
    } else {
      forall run, best | Reports(names, answers, run, best)
        ensures if options == [] then best.None? else best.Some? && Top(best.value, options)
      {
        RunOptions(names, answers, run, best);
        FirstIsTop(options, FlatMap(Exec(Step, Init(|names|), run).value.log, OptionOf(names)));
      }
    }
  }
}
