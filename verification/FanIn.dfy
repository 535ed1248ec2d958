/**
  The fan-in: one goroutine a warehouse looks up the stock and reports on a
  channel with a place for every one of them; the collector sorts what was found
  and keeps what failed by name.
*/
module FanIn {
  import opened Wrappers
  import opened Folds
  import opened Runs
  import opened Permutations
  import opened Ordering
  import opened Outcomes

  datatype WarehouseStock = WarehouseStock(warehouse: string, available: int, etaHours: int, checkedAt: int)

  // ----- the ranking

  /** Something in stock first, then the shorter delivery, the larger quantity, the earlier name. */
  predicate Better(a: WarehouseStock, b: WarehouseStock) {
    if (a.available > 0) != (b.available > 0) then a.available > 0
    else if a.etaHours != b.etaHours then a.etaHours < b.etaHours
    else if a.available != b.available then a.available > b.available
    else Precedes(a.warehouse, b.warehouse)
  }

  /**
    Option `a` may stand before `b`: what is in stock comes before what is not, then
    the shorter delivery, then the larger quantity, then the name.
  */
  ghost predicate MayLead(a: WarehouseStock, b: WarehouseStock) {
    && (b.available > 0 ==> a.available > 0)
    && ((a.available > 0 <==> b.available > 0) ==> a.etaHours <= b.etaHours)
    && ((a.available > 0 <==> b.available > 0) && a.etaHours == b.etaHours ==> a.available >= b.available)
    && (a.available == b.available && a.etaHours == b.etaHours ==>
          a.warehouse == b.warehouse || Earlier(a.warehouse, b.warehouse))
  }

  ghost predicate Ranked(options: seq<WarehouseStock>) {
    forall i, j :: 0 <= i < j < |options| ==> MayLead(options[i], options[j])
  }

  lemma MayLeadExactly(a: WarehouseStock, b: WarehouseStock)
    ensures MayLead(a, b) <==> !Better(b, a)
  {
    PrecedesExactly(a.warehouse, b.warehouse);
    PrecedesTrichotomy(a.warehouse, b.warehouse);
  }

  /** The comparison sorts into this order, and into no other. */
  lemma RankedExactly(options: seq<WarehouseStock>)
    ensures Ranked(options) <==> SortedBy(Better, options)
  {
    forall i, j | 0 <= i < j < |options|
      ensures MayLead(options[i], options[j]) <==> !Better(options[j], options[i])
    {
      MayLeadExactly(options[i], options[j]);
    }
  }

  lemma BetterTransitive(a: WarehouseStock, b: WarehouseStock, c: WarehouseStock)
    requires Better(a, b) && Better(b, c)
    ensures Better(a, c)
  {
    if Precedes(a.warehouse, b.warehouse) && Precedes(b.warehouse, c.warehouse) {
      PrecedesTransitive(a.warehouse, b.warehouse, c.warehouse);
    }
  }

  /** Options tie exactly when delivery, quantity and name agree; stock presence is then the same as well. */
  lemma TiesExactly(a: WarehouseStock, b: WarehouseStock)
    ensures Ties(Better, a, b) <==>
              a.etaHours == b.etaHours && a.available == b.available && a.warehouse == b.warehouse
  {
    PrecedesTrichotomy(a.warehouse, b.warehouse);
  }

  lemma BetterOrders()
    ensures StrictWeakOrder(Better)
  {
    forall a: WarehouseStock, b: WarehouseStock, c: WarehouseStock
      ensures !Better(a, a)
      ensures Better(a, b) && Better(b, c) ==> Better(a, c)
      ensures Ties(Better, a, b) && Ties(Better, b, c) ==> Ties(Better, a, c)
    {
      TiesExactly(a, a);
      TiesExactly(a, b);
      TiesExactly(b, c);
      TiesExactly(a, c);
      if Better(a, b) && Better(b, c) {
        BetterTransitive(a, b, c);
      }
    }
  }

  // ----- the goroutines

  datatype Lookup = Looking | Reporting(item: Item<WarehouseStock>) | Exited

  datatype Collector = Ranging | Finished(ctxErr: bool)

  datatype State = State(
    cancelled: bool,
    lookups: seq<Lookup>,
    wg: int,
    results: seq<Item<WarehouseStock>>,
    resultsClosed: bool,
    collector: Collector,
    // history
    log: seq<Item<WarehouseStock>>,
    calls: map<nat, Outcome<WarehouseStock>>,
    dropped: seq<nat>,
    panicked: bool)

  datatype Action =
    | ParentCancel
    | Return(k: nat, outcome: Outcome<WarehouseStock>)
    | Report(k: nat)
    | Abandon(k: nat)
    | CloseResults
    | Collect
    | Finish

  function Init(n: nat): State {
    State(false, seq(n, k => Looking), n, [], false, Ranging, [], map[], [], false)
  }

  predicate OfLookup(a: Action) { a.Return? || a.Report? || a.Abandon? }

  function Leave(s: State, k: nat): State
    requires k < |s.lookups|
  {
    s.(lookups := s.lookups[k := Exited], wg := s.wg - 1, panicked := s.panicked || s.wg <= 0)
  }

  function Step(s: State, a: Action): Option<State> {
    match a
    case ParentCancel => if s.cancelled then None else Some(s.(cancelled := true))
    case Return(k, outcome) =>
      if k < |s.lookups| && s.lookups[k].Looking?
      then Some(s.(lookups := s.lookups[k := Reporting(Item(k, outcome))], calls := s.calls[k := outcome]))
      else None
    case Report(k) =>
      if k < |s.lookups| && s.lookups[k].Reporting?
      then
        if s.resultsClosed then Some(s.(panicked := true))
        else if |s.results| < |s.lookups| then Some(Leave(s, k).(results := s.results + [s.lookups[k].item]))
        else None
      else None
    case Abandon(k) =>
      if k < |s.lookups| && s.lookups[k].Reporting? && s.cancelled
      then Some(Leave(s, k).(dropped := s.dropped + [k]))
      else None
    case CloseResults =>
      if !s.resultsClosed && s.wg == 0 then Some(s.(resultsClosed := true)) else None
    case Collect =>
      if s.collector.Ranging? && s.results != []
      then Some(s.(results := s.results[1..], log := s.log + [s.results[0]]))
      else None
    case Finish =>
      if s.collector.Ranging? && s.results == [] && s.resultsClosed
      then Some(s.(collector := Finished(s.cancelled)))
      else None
  }

  // ----- the invariant

  function Live(l: Lookup): nat { if l.Exited? then 0 else 1 }

  /** Every lookup is in exactly one place: still at it, in the buffer, collected, or dropped after cancellation. */
  ghost predicate Accounted(s: State) {
    && (forall k: nat :: k < |s.lookups| ==> Places(s, k) == 1)
    && Sum(s.lookups, Live) + |s.results| + |s.log| + |s.dropped| == |s.lookups|
  }

  ghost predicate Faithful(s: State) {
    && (forall k :: k in s.calls ==> k < |s.lookups|)
    && (forall k :: 0 <= k < |s.lookups| && s.lookups[k].Looking? ==> k !in s.calls)
    && (forall k :: 0 <= k < |s.lookups| && s.lookups[k].Reporting? ==>
          s.lookups[k].item.index == k && Recorded(s.calls, s.lookups[k].item))
    && (forall it :: it in s.results ==> Recorded(s.calls, it))
    && (forall it :: it in s.log ==> Recorded(s.calls, it))
  }

  ghost predicate Controlled(s: State) {
    && !s.panicked && s.wg == Sum(s.lookups, Live)
    && (s.resultsClosed ==> s.wg == 0)
    && (!s.cancelled ==> s.dropped == [])
    && (s.collector.Finished? ==> s.resultsClosed && s.results == [])
    && (s.collector == Finished(false) ==> s.dropped == [])
  }

  ghost predicate Inv(s: State) { Accounted(s) && Faithful(s) && Controlled(s) }

  lemma InitInv(n: nat)
    ensures Inv(Init(n))
  {
    SumConst(Init(n).lookups, Live, Looking);
  }

  /** In how many places lookup `k` is. */
  function Places(s: State, k: nat): nat
    requires k < |s.lookups|
  {
    Live(s.lookups[k]) + Sum(s.results, Carries(k)) + Sum(s.log, Carries(k)) + Sum(s.dropped, Equals(k))
  }

  lemma ReportAccountedAt(s: State, a: Action, k: nat)
    requires Inv(s) && a.Report? && Step(s, a).Some? && k < |s.lookups|
    ensures |Step(s, a).value.lookups| == |s.lookups| && Places(Step(s, a).value, k) == Places(s, k)
  {
    SumMember(s.lookups, a.k, Live);
    SumConcat(s.results, [s.lookups[a.k].item], Carries(k));
  }

  lemma StepAccountedAt(s: State, a: Action, k: nat)
    requires Inv(s) && Step(s, a).Some? && k < |s.lookups|
    ensures |Step(s, a).value.lookups| == |s.lookups| && Places(Step(s, a).value, k) == Places(s, k)
  {
    if a.Report? {
      ReportAccountedAt(s, a, k);
    } else if a.Abandon? {
      SumConcat(s.dropped, [a.k], Equals(k));
    } else if a.Collect? {
      SumConcat(s.log, [s.results[0]], Carries(k));
    }
  }

  lemma StepAccounted(s: State, a: Action)
    requires Inv(s) && Step(s, a).Some?
    ensures Accounted(Step(s, a).value) && |Step(s, a).value.lookups| == |s.lookups|
  {
    var t := Step(s, a).value;
    forall k: nat | k < |s.lookups|
      ensures |t.lookups| == |s.lookups| && Places(t, k) == 1
    {
      StepAccountedAt(s, a, k);
    }
    StepLive(s, a);
  }

  lemma StepLive(s: State, a: Action)
    requires Controlled(s) && Step(s, a).Some?
    ensures Step(s, a).value.wg == Sum(Step(s, a).value.lookups, Live)
    ensures a.Report? || a.Abandon? ==> Step(s, a).value.wg == s.wg - 1 && s.wg > 0
    ensures !(a.Report? || a.Abandon?) ==> Step(s, a).value.wg == s.wg
  {
    if OfLookup(a) {
      SumMember(s.lookups, a.k, Live);
      SumUpdate(s.lookups, a.k, Step(s, a).value.lookups[a.k], Live);
    }
  }

  lemma StepControlled(s: State, a: Action)
    requires Inv(s) && Step(s, a).Some?
    ensures Controlled(Step(s, a).value)
  {
    StepLive(s, a);
  }

  lemma StepInv(s: State, a: Action)
    requires Inv(s) && Step(s, a).Some?
    ensures Inv(Step(s, a).value) && |Step(s, a).value.lookups| == |s.lookups|
  {
    StepAccounted(s, a);
    StepFaithful(s, a);
    StepControlled(s, a);
  }

  lemma ReturnFaithful(s: State, k: nat, outcome: Outcome<WarehouseStock>)
    requires Inv(s) && Step(s, Return(k, outcome)).Some?
    ensures Faithful(Step(s, Return(k, outcome)).value)
  {
    var t := Step(s, Return(k, outcome)).value;
    assert forall it: Item<WarehouseStock> :: Recorded(s.calls, it) ==> it.index != k && Recorded(t.calls, it);
  }

  lemma ReportFaithful(s: State, k: nat)
    requires Inv(s) && Step(s, Report(k)).Some? && !s.resultsClosed
    ensures Faithful(Step(s, Report(k)).value)
  {
    var t, item := Step(s, Report(k)).value, s.lookups[k].item;
    assert Recorded(s.calls, item) && t.results == s.results + [item];
    forall it | it in t.results ensures Recorded(t.calls, it) {
      assert it in s.results || it == item;
      assert Recorded(s.calls, it);
    }
    forall it | it in t.log ensures Recorded(t.calls, it) {
      assert Recorded(s.calls, it);
    }
  }

  lemma CollectFaithful(s: State)
    requires Inv(s) && Step(s, Collect).Some?
    ensures Faithful(Step(s, Collect).value)
  {
    var t := Step(s, Collect).value;
    forall it | it in t.log || it in t.results ensures Recorded(t.calls, it) {
      assert it in s.log || it in s.results;
      assert Recorded(s.calls, it);
    }
  }

  lemma StepFaithful(s: State, a: Action)
    requires Inv(s) && Step(s, a).Some?
    ensures Faithful(Step(s, a).value)
  {
    if a.Return? {
      ReturnFaithful(s, a.k, a.outcome);
    } else if a.Report? {
      SumMember(s.lookups, a.k, Live);
      ReportFaithful(s, a.k);
    } else if a.Collect? {
      CollectFaithful(s);
    } else {
      var t := Step(s, a).value;
      forall it | it in t.log || it in t.results ensures Recorded(t.calls, it) {
        assert Recorded(s.calls, it);
      }
    }
  }

  lemma EveryRun(n: nat, run: seq<Action>)
    requires Exec(Step, Init(n), run).Some?
    ensures Inv(Exec(Step, Init(n), run).value) && |Exec(Step, Init(n), run).value.lookups| == n
  {
    InitInv(n);
    var inv := (s: State) => Inv(s) && |s.lookups| == n;
    forall s: State, a: Action | inv(s) && Step(s, a).Some? ensures inv(Step(s, a).value) {
      StepInv(s, a);
    }
    Invariant(Step, inv, Init(n), run);
  }

  /** There is a place for every report: no lookup ever blocks on the channel, read or unread. */
  lemma ReportNeverBlocks(s: State, k: nat)
    requires Inv(s) && k < |s.lookups| && s.lookups[k].Reporting?
    ensures Step(s, Report(k)).Some? && !Step(s, Report(k)).value.panicked
  {
    SumMember(s.lookups, k, Live);
  }

  // ----- progress

  function Weight(l: Lookup): nat { match l case Looking => 4 case Reporting(_) => 3 case Exited => 0 }

  function Rank(s: State): nat {
    Sum(s.lookups, Weight) + 2 * |s.results| + Bit(!s.cancelled) + Bit(!s.resultsClosed) + Bit(s.collector.Ranging?)
  }

  lemma StepLowersRank(s: State, a: Action)
    requires Inv(s) && Step(s, a).Some?
    ensures Rank(Step(s, a).value) < Rank(s)
  {
    if OfLookup(a) {
      SumMember(s.lookups, a.k, Live);
      SumUpdate(s.lookups, a.k, Step(s, a).value.lookups[a.k], Weight);
    }
  }

  lemma Progress(s: State) returns (a: Action)
    requires Inv(s) && !s.collector.Finished?
    ensures !a.ParentCancel? && Step(s, a).Some?
  {
    if k :| 0 <= k < |s.lookups| && !s.lookups[k].Exited? {
      if s.lookups[k].Looking? {
        a := Return(k, Bad(""));
      } else {
        ReportNeverBlocks(s, k);
        a := Report(k);
      }
    } else if !s.resultsClosed {
      if s.wg != 0 {
        var k := SumPositive(s.lookups, Live);
        assert false;
      }
      a := CloseResults;
    } else {
      a := if s.results != [] then Collect else Finish;
    }
  }

  /** Once the context has ended, a lookup that has returned can leave without reporting. */
  lemma CancelFrees(s: State, k: nat)
    requires s.cancelled && k < |s.lookups| && s.lookups[k].Reporting?
    ensures Step(s, Abandon(k)).Some? && Step(s, Abandon(k)).value.lookups[k].Exited?
  {
  }

  /** Without the parent's cancel nothing ends the context. */
  lemma Uncancelled(n: nat, run: seq<Action>)
    requires Exec(Step, Init(n), run).Some? && ParentCancel !in run
    ensures var s := Exec(Step, Init(n), run).value; !s.cancelled && s.collector != Finished(true)
  {
    var inv := (s: State) => !s.cancelled && s.collector != Finished(true);
    InvariantOnly(Step, (a: Action) => !a.ParentCancel?, inv, Init(n), run);
  }

  // ----- the report

  datatype Report = InventoryReport(sku: string, options: seq<WarehouseStock>, failures: map<string, string>)

  datatype Answer =
    | Rejected
    | Reported(report: Report)
    | ContextDone(report: Report)
    | AllFailed(report: Report)

  /** A stock without a name takes the name of its lookup. */
  function Named(name: string, stock: WarehouseStock): WarehouseStock {
    if stock.warehouse == "" then stock.(warehouse := name) else stock
  }

  function OptionOf(names: seq<string>): Item<WarehouseStock> -> seq<WarehouseStock> {
    (it: Item<WarehouseStock>) =>
      if it.outcome.Good? && it.index < |names| then [Named(names[it.index], it.outcome.value)] else []
  }

  /** Exactly the failed lookups of the log, under their names. */
  ghost predicate Failures(failures: map<string, string>, names: seq<string>, log: seq<Item<WarehouseStock>>) {
    && (forall it :: it in log && it.outcome.Bad? && it.index < |names| ==> names[it.index] in failures)
    && (forall name :: name in failures ==>
          exists it :: it in log && it.index < |names| && names[it.index] == name &&
            it.outcome == Bad(failures[name]))
  }

  /** Options sorted, failures by name; and each of the lookups that reported is in one of the two. */
  ghost predicate Sums(report: Report, names: seq<string>, items: seq<Item<WarehouseStock>>) {
    && SortedBy(Better, report.options)
    && multiset(report.options) == multiset(FlatMap(items, OptionOf(names)))
    && Failures(report.failures, names, items)
  }

  /** Nothing was lost: the items are those of all the lookups. */
  ghost predicate Whole(report: Report, names: seq<string>, calls: map<nat, Outcome<WarehouseStock>>) {
    && (forall k :: 0 <= k < |names| ==> k in calls)
    && Sums(report, names, ItemsInOrder(calls, |names|))
  }

  lemma NobodyLeft(s: State)
    requires Inv(s) && s.collector.Finished?
    ensures forall k :: 0 <= k < |s.lookups| ==> s.lookups[k].Exited?
  {
    forall k | 0 <= k < |s.lookups| ensures s.lookups[k].Exited? {
      SumMember(s.lookups, k, Live);
    }
  }

  /** Without cancellation the log is a permutation of all the lookups' items. */
  lemma LogIsWhole(s: State)
    requires Inv(s) && s.collector == Finished(false)
    ensures forall k :: 0 <= k < |s.lookups| ==> k in s.calls
    ensures multiset(s.log) == multiset(ItemsInOrder(s.calls, |s.lookups|))
    ensures forall it :: it in s.log <==> it in ItemsInOrder(s.calls, |s.lookups|)
  {
    NobodyLeft(s);
    forall k | 0 <= k < |s.lookups| ensures k in s.calls && Item(k, s.calls[k]) in s.log {
      assert Places(s, k) == 1;
      var p := SumPositive(s.log, Carries(k));
      assert s.log[p] in s.log && Recorded(s.calls, s.log[p]);
    }
    forall i, j | 0 <= i < j < |s.log| ensures s.log[i] != s.log[j] {
      assert s.log[i] in s.log && Recorded(s.calls, s.log[i]);
      assert Places(s, s.log[i].index) == 1;
      SumPair(s.log, i, j, Carries(s.log[i].index));
    }
    LogPermutes(s.log, s.calls, |s.lookups|);
  }

  lemma SumsIsWhole(report: Report, names: seq<string>, s: State)
    requires Inv(s) && s.collector == Finished(false) && |names| == |s.lookups|
    requires Sums(report, names, s.log)
    ensures Whole(report, names, s.calls)
  {
    LogIsWhole(s);
    FlatMapPermutes(s.log, ItemsInOrder(s.calls, |names|), OptionOf(names));
  }

  /** The names of the first `n` lookups that failed. */
  function FailedNames(names: seq<string>, calls: map<nat, Outcome<WarehouseStock>>, n: nat): set<string>
    requires n <= |names| && forall k :: 0 <= k < n ==> k in calls
  {
    if n == 0 then {}
    else FailedNames(names, calls, n - 1) + if calls[n - 1].Bad? then {names[n - 1]} else {}
  }

  lemma {:induction false} WhoFailed(names: seq<string>, calls: map<nat, Outcome<WarehouseStock>>, n: nat, name: string)
    requires n <= |names| && forall k :: 0 <= k < n ==> k in calls
    ensures name in FailedNames(names, calls, n) <==>
            exists k :: 0 <= k < n && calls[k].Bad? && names[k] == name
  {
    if n > 0 {
      WhoFailed(names, calls, n - 1, name);
    }
  }

  lemma FailedNamesGrow(names: seq<string>, calls: map<nat, Outcome<WarehouseStock>>, n: nat)
    requires 0 < n <= |names| && Distinct(names) && forall k :: 0 <= k < n ==> k in calls
    ensures |FailedNames(names, calls, n)| ==
            |FailedNames(names, calls, n - 1)| + if calls[n - 1].Bad? then 1 else 0
  {
    WhoFailed(names, calls, n - 1, names[n - 1]);
  }

  lemma OptionsGrow(names: seq<string>, calls: map<nat, Outcome<WarehouseStock>>, n: nat)
    requires 0 < n <= |names| && forall k :: 0 <= k < n ==> k in calls
    ensures |FlatMap(ItemsInOrder(calls, n), OptionOf(names))| ==
            |FlatMap(ItemsInOrder(calls, n - 1), OptionOf(names))| + if calls[n - 1].Good? then 1 else 0
  {
    assert ItemsInOrder(calls, n)[..n - 1] == ItemsInOrder(calls, n - 1);
  }

  function Accounts(names: seq<string>, calls: map<nat, Outcome<WarehouseStock>>, n: nat): nat
    requires n <= |names| && forall k :: 0 <= k < n ==> k in calls
  {
    |FailedNames(names, calls, n)| + |FlatMap(ItemsInOrder(calls, n), OptionOf(names))|
  }

  lemma {:induction false} EachCountedOnce(names: seq<string>, calls: map<nat, Outcome<WarehouseStock>>, n: nat)
    requires n <= |names| && Distinct(names) && forall k :: 0 <= k < n ==> k in calls
    ensures Accounts(names, calls, n) == n
  {
    if n == 0 {
      assert ItemsInOrder(calls, 0) == [];
    } else {
      EachCountedOnce(names, calls, n - 1);
      AccountsGrow(names, calls, n);
    }
  }

  lemma AccountsGrow(names: seq<string>, calls: map<nat, Outcome<WarehouseStock>>, n: nat)
    requires 0 < n <= |names| && Distinct(names) && forall k :: 0 <= k < n ==> k in calls
    ensures Accounts(names, calls, n) == Accounts(names, calls, n - 1) + 1
  {
    FailedNamesGrow(names, calls, n);
    OptionsGrow(names, calls, n);
  }

  lemma FailureKeys(report: Report, names: seq<string>, calls: map<nat, Outcome<WarehouseStock>>)
    requires Whole(report, names, calls)
    ensures report.failures.Keys == FailedNames(names, calls, |names|)
  {
    var items := ItemsInOrder(calls, |names|);
    assert forall k :: 0 <= k < |names| ==> items[k] in items;
    forall name | name in report.failures ensures name in FailedNames(names, calls, |names|) {
      var it :| it in items && it.index < |names| && names[it.index] == name &&
        it.outcome == Bad(report.failures[name]);
      WhoFailed(names, calls, |names|, name);
    }
    forall name | name in FailedNames(names, calls, |names|) ensures name in report.failures {
      WhoFailed(names, calls, |names|, name);
      var k :| 0 <= k < |names| && calls[k].Bad? && names[k] == name;
      assert items[k] in items;
    }
  }

  /** Options and failures together account for each lookup exactly once. */
  lemma NothingLostOrDoubled(report: Report, names: seq<string>, calls: map<nat, Outcome<WarehouseStock>>)
    requires Distinct(names) && Whole(report, names, calls)
    ensures |report.options| + |report.failures| == |names|
  {
    EachCountedOnce(names, calls, |names|);
    SameSize(report.options, FlatMap(ItemsInOrder(calls, |names|), OptionOf(names)));
    FailureKeys(report, names, calls);
    assert |report.failures| == |report.failures.Keys|;
  }

  lemma FoundIsAnOption(report: Report, names: seq<string>, calls: map<nat, Outcome<WarehouseStock>>, k: nat)
    requires Whole(report, names, calls) && k < |names| && calls[k].Good?
    ensures Named(names[k], calls[k].value) in report.options
  {
    var items := ItemsInOrder(calls, |names|);
    var option := Named(names[k], calls[k].value);
    assert items[k] in items && OptionOf(names)(items[k]) == [option];
    FlatMapKeeps(items, OptionOf(names), items[k], option);
    assert option in multiset(report.options);
  }

  /** A stock that was found is among the options, and its lookup is no failure; a failure keeps its own error. */
  lemma EachInItsPlace(report: Report, names: seq<string>, calls: map<nat, Outcome<WarehouseStock>>, k: nat)
    requires Distinct(names) && Whole(report, names, calls) && k < |names|
    ensures match calls[k]
            case Good(stock) =>
              && names[k] !in report.failures
              && (stock.warehouse != "" ==> stock in report.options)
              && (stock.warehouse == "" ==> stock.(warehouse := names[k]) in report.options)
            case Bad(error) => names[k] in report.failures && report.failures[names[k]] == error
  {
    if names[k] in report.failures {
      var it :| it in ItemsInOrder(calls, |names|) && it.index < |names| && names[it.index] == names[k] &&
        it.outcome == Bad(report.failures[names[k]]);
      assert it.index == k;
    }
    if calls[k].Good? {
      FoundIsAnOption(report, names, calls, k);
    } else {
      assert ItemsInOrder(calls, |names|)[k] in ItemsInOrder(calls, |names|);
    }
  }

  /** `BestOption`: the first; of ranked ones, as the fan-in reports them, one that may stand before every other. */
  method BestOption(report: Report) returns (best: Option<WarehouseStock>)
    ensures best.None? <==> report.options == []
    ensures best.Some? ==> best.value == report.options[0]
    ensures best.Some? && Ranked(report.options) ==> forall o :: o in report.options ==> MayLead(best.value, o)
  {
    if |report.options| == 0 {
      return None;
    }
    MayLeadExactly(report.options[0], report.options[0]);
    BetterOrders();
    best := Some(report.options[0]);
  }

  // ----- the fan-in itself

  /** The goroutines of one call. Each method runs one of them to its next blocking point. */
  class Lookups {
    var cancelled: bool
    var lookups: seq<Lookup>
    var wg: int
    var results: seq<Item<WarehouseStock>>
    var resultsClosed: bool
    var collector: Collector
    ghost var log: seq<Item<WarehouseStock>>
    ghost var calls: map<nat, Outcome<WarehouseStock>>
    ghost var dropped: seq<nat>
    ghost var panicked: bool

    ghost function Abs(): State
      reads this
    {
      State(cancelled, lookups, wg, results, resultsClosed, collector, log, calls, dropped, panicked)
    }

    constructor (n: nat)
      ensures Abs() == Init(n)
    {
      cancelled, lookups, wg, results, resultsClosed := false, seq(n, k => Looking), n, [], false;
      collector, log, calls, dropped, panicked := Ranging, [], map[], [], false;
    }

    method LeaveGroup(k: nat)
      requires k < |lookups|
      modifies this
      ensures Abs() == Leave(old(Abs()), k)
    {
      panicked := panicked || wg <= 0;
      lookups := lookups[k := Exited];
      wg := wg - 1;
    }

    /** `outcome` is what the lookup returns if this step is its return. */
    method LookupStep(k: nat, outcome: Outcome<WarehouseStock>) returns (ghost a: Action)
      requires k < |lookups| && !lookups[k].Exited? && Inv(Abs())
      modifies this
      ensures OfLookup(a) && a.k == k && Step(old(Abs()), a) == Some(Abs())
      ensures collector == old(collector) && log == old(log)
    {
      match lookups[k]
      case Looking =>
        a := Return(k, outcome);
        lookups := lookups[k := Reporting(Item(k, outcome))];
        calls := calls[k := outcome];
      case Reporting(item) =>
        if {
          case true =>
            // there is always a place: see ReportNeverBlocks
            a := Report(k);
            SendReport(k);
          case cancelled =>
            a := Abandon(k);
            LeaveGroup(k);
            dropped := dropped + [k];
        }
    }

    method SendReport(k: nat)
      requires k < |lookups| && lookups[k].Reporting? && Inv(Abs())
      modifies this
      ensures Step(old(Abs()), Report(k)) == Some(Abs()) && collector == old(collector) && log == old(log)
    {
      ReportNeverBlocks(Abs(), k);
      results := results + [lookups[k].item];
      LeaveGroup(k);
    }

    predicate OthersReady()
      reads this
    {
      (exists k :: 0 <= k < |lookups| && !lookups[k].Exited?) || (!resultsClosed && wg == 0)
    }

    /** One turn of a lookup or of the closer. */
    method Others(outcome: Outcome<WarehouseStock>) returns (ghost a: Action)
      requires Inv(Abs()) && OthersReady()
      modifies this
      ensures !a.ParentCancel? && Step(old(Abs()), a) == Some(Abs())
      ensures Inv(Abs()) && Rank(Abs()) < old(Rank(Abs())) && |lookups| == old(|lookups|)
      ensures collector == old(collector) && log == old(log)
    {
      ghost var s := Abs();
      if {
        case k: nat :| k < |lookups| && !lookups[k].Exited? => a := LookupStep(k, outcome);
        case !resultsClosed && wg == 0 => a := CloseResults; resultsClosed := true;
      }
      StepInv(s, a);
      StepLowersRank(s, a);
    }

    /** The caller's context ends. */
    method ParentCancels() returns (ghost a: Action)
      requires Inv(Abs()) && !cancelled
      modifies this
      ensures a == ParentCancel && Step(old(Abs()), a) == Some(Abs())
      ensures Inv(Abs()) && Rank(Abs()) < old(Rank(Abs())) && |lookups| == old(|lookups|)
      ensures collector == old(collector) && log == old(log)
    {
      a := ParentCancel;
      StepInv(Abs(), a);
      StepLowersRank(Abs(), a);
      cancelled := true;
    }

    predicate CollectorReady()
      reads this
    {
      collector.Ranging? && (results != [] || resultsClosed)
    }

    method Receive() returns (item: Item<WarehouseStock>)
      requires Inv(Abs()) && collector.Ranging? && results != []
      modifies this
      ensures Step(old(Abs()), Collect) == Some(Abs())
      ensures Inv(Abs()) && Rank(Abs()) < old(Rank(Abs())) && |lookups| == old(|lookups|)
      ensures item.index < |lookups| && log == old(log) + [item] && collector.Ranging?
    {
      StepInv(Abs(), Collect);
      StepLowersRank(Abs(), Collect);
      item := results[0];
      assert item in results && Recorded(calls, item);
      results := results[1..];
      log := log + [item];
    }

    method EndRange()
      requires Inv(Abs()) && collector.Ranging? && results == [] && resultsClosed
      modifies this
      ensures Step(old(Abs()), Finish) == Some(Abs())
      ensures Inv(Abs()) && Rank(Abs()) < old(Rank(Abs())) && |lookups| == old(|lookups|) && log == old(log)
    {
      StepInv(Abs(), Finish);
      StepLowersRank(Abs(), Finish);
      collector := Finished(cancelled);
    }

    /** The guards miss no step: until the range is over, some goroutine is ready, whatever the parent context does. */
    lemma SomeoneReady()
      requires Inv(Abs()) && !collector.Finished?
      ensures || (exists k :: 0 <= k < |lookups| && !lookups[k].Exited?) || (!resultsClosed && wg == 0)
              || CollectorReady()
    {
      var a := Progress(Abs());
    }
  }

  lemma FailuresExtend(
      failures: map<string, string>, names: seq<string>, log: seq<Item<WarehouseStock>>, item: Item<WarehouseStock>)
    requires Distinct(names) && Failures(failures, names, log) && item.index < |names|
    requires forall it :: it in log && it.index == item.index ==> it.outcome == item.outcome
    ensures Failures(if item.outcome.Bad? then failures[names[item.index] := item.outcome.error] else failures,
                     names, log + [item])
  {
    var after := if item.outcome.Bad? then failures[names[item.index] := item.outcome.error] else failures;
    assert forall it :: it in log + [item] <==> it in log || it == item;
    forall name | name in after
      ensures exists it :: it in log + [item] && it.index < |names| && names[it.index] == name &&
                it.outcome == Bad(after[name])
    {
      if item.outcome.Bad? && name == names[item.index] {
        assert item in log + [item];
      } else {
        var it :| it in log && it.index < |names| && names[it.index] == name &&
          it.outcome == Bad(failures[name]);
        assert it in log + [item];
      }
    }
  }

  method CollectorTurn(
      fan: Lookups, names: seq<string>, options: seq<WarehouseStock>, failures: map<string, string>)
    returns (options': seq<WarehouseStock>, failures': map<string, string>, ghost a: Action)
    requires Inv(fan.Abs()) && fan.CollectorReady() && |names| == |fan.lookups| && Distinct(names)
    requires options == FlatMap(fan.log, OptionOf(names)) && Failures(failures, names, fan.log)
    modifies fan
    ensures !a.ParentCancel? && Step(old(fan.Abs()), a) == Some(fan.Abs())
    ensures Inv(fan.Abs()) && Rank(fan.Abs()) < old(Rank(fan.Abs())) && |names| == |fan.lookups|
    ensures options' == FlatMap(fan.log, OptionOf(names)) && Failures(failures', names, fan.log)
  {
    options', failures' := options, failures;
    if fan.results != [] {
      a := Collect;
      ghost var log := fan.log;
      var item := fan.Receive();
      SameOutcome(fan.Abs(), log, item);
      FailuresExtend(failures, names, log, item);
      FlatMapConcat(log, [item], OptionOf(names));
      FlatMapOne(item, OptionOf(names));
      match item.outcome {
        case Bad(error) => failures' := failures[names[item.index] := error];
        case Good(stock) => options' := options + [Named(names[item.index], stock)];
      }
    } else {
      a := Finish;
      fan.EndRange();
    }
  }

  lemma SameOutcome(s: State, log: seq<Item<WarehouseStock>>, item: Item<WarehouseStock>)
    requires Faithful(s) && s.log == log + [item]
    ensures forall it :: it in log && it.index == item.index ==> it.outcome == item.outcome
  {
    assert item in s.log && Recorded(s.calls, item);
    forall it | it in log && it.index == item.index ensures it.outcome == item.outcome {
      assert it in s.log && Recorded(s.calls, it);
    }
  }

  /**
    The answer of a finished fan-in: the report sums up what reached the
    collector, which is what every lookup returned unless the context was
    cancelled; one option is enough for success, and without one the context
    decides which error it is.
  */
  ghost predicate Settled(r: Answer, sku: string, names: seq<string>, s: State) {
    && s.collector.Finished? && !r.Rejected? && r.report.sku == sku
    && Sums(r.report, names, s.log)
    && (!s.collector.ctxErr ==> Whole(r.report, names, s.calls))
    && (r.Reported? <==> r.report.options != [])
    && (r.ContextDone? <==> r.report.options == [] && s.collector.ctxErr)
  }

  /** Sort, and choose among the three ways to return. */
  method Conclude(
      fan: Lookups, sku: string, names: seq<string>, options: seq<WarehouseStock>,
      failures: map<string, string>)
    returns (r: Answer)
    requires Inv(fan.Abs()) && fan.collector.Finished? && |names| == |fan.lookups|
    requires options == FlatMap(fan.log, OptionOf(names)) && Failures(failures, names, fan.log)
    ensures Settled(r, sku, names, fan.Abs()) && Ranked(r.report.options)
  {
    BetterOrders();
    var sorted := SortSlice(Better, options);
    var report := InventoryReport(sku, sorted, failures);
    RankedExactly(sorted);
    if !fan.collector.ctxErr {
      SumsIsWhole(report, names, fan.Abs());
    }
    if |sorted| > 0 {
      r := Reported(report);
    } else if fan.collector.ctxErr {
      r := ContextDone(report);
    } else {
      r := AllFailed(report);
    }
  }

  /**
    Lookups, closer and collector, the scheduler free at every turn: `run` is the
    interleaving it chose and `end` the state it led to. The names are the keys of
    a map, so no two are the same. The caller's context may end during the call if
    `parentEnds`. If it does not, the call ends all the same, with a report that
    accounts for every lookup.
  */
  method CollectInventory(sku: string, names: seq<string>, parentEnds: bool)
    returns (r: Answer, ghost run: seq<Action>, ghost end: State)
    requires Distinct(names)
    ensures r.Rejected? <==> sku == "" || names == []
    ensures !r.Rejected? ==>
              && Exec(Step, Init(|names|), run) == Some(end)
              && Inv(end) && |end.lookups| == |names| && Settled(r, sku, names, end) && Ranked(r.report.options)
    ensures !r.Rejected? && !parentEnds ==>
              ParentCancel !in run && !r.ContextDone? && Whole(r.report, names, end.calls)
  {
    run, end := [], Init(|names|);
    if sku == "" || |names| == 0 {
      return Rejected, run, end;
    }
    var fan := new Lookups(|names|);
    var options: seq<WarehouseStock> := [];
    var failures: map<string, string> := map[];
    InitInv(|names|);
    while !fan.collector.Finished?
      invariant fresh(fan)
      invariant Exec(Step, Init(|names|), run) == Some(end) && end == fan.Abs()
      invariant Inv(fan.Abs()) && |fan.lookups| == |names|
      invariant !parentEnds ==> ParentCancel !in run
      invariant options == FlatMap(fan.log, OptionOf(names)) && Failures(failures, names, fan.log)
      decreases Rank(fan.Abs())
    {
      fan.SomeoneReady();
      var outcome: Outcome<WarehouseStock> := *;
      ghost var a;
      if {
        case fan.OthersReady() => a := fan.Others(outcome);
        case fan.CollectorReady() => options, failures, a := CollectorTurn(fan, names, options, failures);
        case parentEnds && !fan.cancelled => a := fan.ParentCancels();
      }
      run, end := Append(Step, Init(|names|), run, end, a);
    }
    r := Conclude(fan, sku, names, options, failures);
    if !parentEnds {
      Uncancelled(|names|, run);
    }
  }
}
