/**
  The coalescing price cache: a lookup before joining a flight, a second lookup
  inside it, and an invalidation that first deletes the entry and then forgets
  the flight. Of `singleflight` only its contract is used: at most one flight is
  registered for a key, and a flight is unregistered once its function has
  returned, or by `Forget`.
*/
module PriceCache {
  import opened Wrappers
  import opened Folds
  import opened Runs

  datatype PriceQuote = PriceQuote(sku: string, currency: string, unitCents: int, source: string)

  datatype Loaded = Quoted(quote: PriceQuote) | LoadFailed(error: string)

  /** What `Get` returns. */
  datatype Result = Rejected | Got(loaded: Loaded) | ContextDone

  /** `New` is before the first lookup, `Missed` between it and `DoChan`, `Flying` at the select. */
  datatype Caller = New | Missed | Flying(flight: nat) | Returned(result: Result)

  /** Where the function of a flight is. */
  datatype FlightPc = Fresh | Loading | Storing(quote: PriceQuote) | Ending(value: Loaded) | Landed(value: Loaded)

  datatype Flight = Flight(sku: string, registered: bool, pc: FlightPc)

  datatype Event =
    | LoaderCalled(sku: string)
    | LoaderFailed(sku: string, error: string)
    | LoaderReturned(sku: string, quote: PriceQuote)
    | Deleted(sku: string)
    | Forgotten(sku: string)

  datatype State = State(
    skus: seq<string>,
    callers: seq<Caller>,
    cache: map<string, PriceQuote>,
    table: map<string, nat>,
    flights: seq<Flight>,
    forgetting: seq<string>,
    // history
    log: seq<Event>,
    stamps: Stamps)

  /**
    When the quote of a flight, of a cached key, of an answered call was asked
    for: the place of that loader call in the log.
  */
  datatype Stamps = Stamps(flight: map<nat, nat>, cached: map<string, nat>, given: map<nat, nat>)

  function PlaceOf<K>(places: map<K, nat>, key: K): nat { if key in places then places[key] else 0 }

  datatype Action =
    | FirstLookup(i: nat)
    | Join(i: nat)
    | Receive(i: nat)
    | GiveUp(i: nat)
    | SecondLookup(f: nat)
    | LoaderReturn(f: nat, loaded: Loaded)
    | Store(f: nat)
    | Land(f: nat)
    | Delete(sku: string)
    | Forget(k: nat)

  function Init(skus: seq<string>): State {
    State(skus, seq(|skus|, i => New), map[], map[], [], [], [], Stamps(map[], map[], map[]))
  }

  /** `GiveUp` is the caller's own context ending, which may happen at any moment. */
  function CallerStep(s: State, a: Action): Option<State>
    requires OfCaller(a) && a.i < |s.callers| == |s.skus|
  {
    var i, sku := a.i, s.skus[a.i];
    match a
    case FirstLookup(_) =>
      if s.callers[i].New?
      then
        if sku == "" then Some(s.(callers := s.callers[i := Returned(Rejected)]))
        else if sku in s.cache then
          Some(s.(callers := s.callers[i := Returned(Got(Quoted(s.cache[sku])))],
                  stamps := s.stamps.(given := s.stamps.given[i := PlaceOf(s.stamps.cached, sku)])))
        else Some(s.(callers := s.callers[i := Missed]))
      else None
    case Join(_) =>
      if s.callers[i].Missed?
      then
        if sku in s.table then Some(s.(callers := s.callers[i := Flying(s.table[sku])]))
        else Some(s.(callers := s.callers[i := Flying(|s.flights|)], table := s.table[sku := |s.flights|],
                     flights := s.flights + [Flight(sku, true, Fresh)]))
      else None
    case Receive(_) =>
      if s.callers[i].Flying? && s.callers[i].flight < |s.flights| && s.flights[s.callers[i].flight].pc.Landed?
      then
        var f := s.callers[i].flight;
        Some(s.(callers := s.callers[i := Returned(Got(s.flights[f].pc.value))],
                stamps := s.stamps.(given := s.stamps.given[i := PlaceOf(s.stamps.flight, f)])))
      else None
    case GiveUp(_) =>
      if s.callers[i].Flying? then Some(s.(callers := s.callers[i := Returned(ContextDone)])) else None
    case _ => None
  }

  function FlightStep(s: State, a: Action): Option<State>
    requires OfFlight(a) && a.f < |s.flights|
  {
    var f, flight := a.f, s.flights[a.f];
    match a
    case SecondLookup(_) =>
      if flight.pc.Fresh?
      then
        if flight.sku in s.cache
        then Some(At(s, f, Ending(Quoted(s.cache[flight.sku]))).(
                    stamps := Dated(s, f, PlaceOf(s.stamps.cached, flight.sku))))
        else Some(At(s, f, Loading).(log := s.log + [LoaderCalled(flight.sku)], stamps := Dated(s, f, |s.log|)))
      else None
    case LoaderReturn(_, loaded) =>
      if flight.pc.Loading?
      then
        match loaded
        case Quoted(quote) => Some(At(s, f, Storing(quote)).(log := s.log + [LoaderReturned(flight.sku, quote)]))
        case LoadFailed(error) =>
          Some(At(s, f, Ending(loaded)).(log := s.log + [LoaderFailed(flight.sku, error)]))
      else None
    case Store(_) =>
      if flight.pc.Storing?
      then Some(At(s, f, Ending(Quoted(flight.pc.quote))).(
                  cache := s.cache[flight.sku := flight.pc.quote],
                  stamps := s.stamps.(cached := s.stamps.cached[flight.sku := PlaceOf(s.stamps.flight, f)])))
      else None
    case Land(_) =>
      if flight.pc.Ending?
      then Some(s.(flights := s.flights[f := Flight(flight.sku, false, Landed(flight.pc.value))],
                   table := if flight.registered then s.table - {flight.sku} else s.table))
      else None
    case _ => None
  }

  function Dated(s: State, f: nat, place: nat): Stamps { s.stamps.(flight := s.stamps.flight[f := place]) }

  function At(s: State, f: nat, pc: FlightPc): State
    requires f < |s.flights|
  {
    s.(flights := s.flights[f := s.flights[f].(pc := pc)])
  }

  predicate OfCaller(a: Action) { a.FirstLookup? || a.Join? || a.Receive? || a.GiveUp? }

  predicate OfFlight(a: Action) { a.SecondLookup? || a.LoaderReturn? || a.Store? || a.Land? }

  function Step(s: State, a: Action): Option<State> {
    if OfCaller(a) then
      if a.i < |s.callers| == |s.skus| then CallerStep(s, a) else None
    else if OfFlight(a) then
      if a.f < |s.flights| then FlightStep(s, a) else None
    else
      match a
      case Delete(sku) =>
        Some(s.(cache := s.cache - {sku}, forgetting := s.forgetting + [sku], log := s.log + [Deleted(sku)]))
      case Forget(k) =>
        if k < |s.forgetting| then Some(ForgetKey(s, s.forgetting[k], k)) else None
      case _ => None
  }

  function ForgetKey(s: State, sku: string, k: nat): State
    requires k < |s.forgetting|
  {
    s.(forgetting := s.forgetting[..k] + s.forgetting[k + 1..],
       log := s.log + [Forgotten(sku)],
       table := s.table - {sku},
       flights := if sku in s.table && s.table[sku] < |s.flights|
                  then s.flights[s.table[sku] := s.flights[s.table[sku]].(registered := false)]
                  else s.flights)
  }

  // ----- the registered flight

  /** The table registers, for a key, the one flight that says so. */
  ghost predicate Registered(s: State) {
    && |s.callers| == |s.skus|
    && (forall sku :: sku in s.table ==>
          s.table[sku] < |s.flights| && s.flights[s.table[sku]].sku == sku && s.flights[s.table[sku]].registered)
    && (forall f :: 0 <= f < |s.flights| && s.flights[f].registered ==>
          s.flights[f].sku in s.table && s.table[s.flights[f].sku] == f && !s.flights[f].pc.Landed?)
    && (forall i :: 0 <= i < |s.callers| && s.callers[i].Flying? ==>
          s.callers[i].flight < |s.flights| && s.flights[s.callers[i].flight].sku == s.skus[i])
  }

  lemma JoinRegistered(s: State, i: nat)
    requires Registered(s) && Step(s, Join(i)).Some?
    ensures Registered(Step(s, Join(i)).value)
  {
  }

  lemma CallerStepRegistered(s: State, a: Action)
    requires Registered(s) && OfCaller(a) && Step(s, a).Some?
    ensures Registered(Step(s, a).value)
  {
    if a.Join? {
      JoinRegistered(s, a.i);
    }
  }

  lemma LandRegistered(s: State, f: nat)
    requires Registered(s) && Step(s, Land(f)).Some?
    ensures Registered(Step(s, Land(f)).value)
  {
  }

  lemma ForgetRegistered(s: State, k: nat)
    requires Registered(s) && Step(s, Forget(k)).Some?
    ensures Registered(Step(s, Forget(k)).value)
  {
  }

  lemma AtRegistered(s: State, f: nat, pc: FlightPc)
    requires Registered(s) && f < |s.flights| && !pc.Landed?
    ensures Registered(At(s, f, pc))
  {
  }

  /** Only the flights, the table and the calls matter. */
  lemma RegisteredFrame(s: State, t: State)
    requires Registered(s) && t.skus == s.skus && t.callers == s.callers && t.table == s.table && t.flights == s.flights
    ensures Registered(t)
  {
  }

  lemma StepRegistered(s: State, a: Action)
    requires Registered(s) && Step(s, a).Some?
    ensures Registered(Step(s, a).value)
  {
    if OfCaller(a) {
      CallerStepRegistered(s, a);
    } else if a.Land? {
      LandRegistered(s, a.f);
    } else if OfFlight(a) {
      var moved := At(s, a.f, Step(s, a).value.flights[a.f].pc);
      AtRegistered(s, a.f, Step(s, a).value.flights[a.f].pc);
      RegisteredFrame(moved, Step(s, a).value);
    } else if a.Forget? {
      ForgetRegistered(s, a.k);
    } else {
      RegisteredFrame(s, Step(s, a).value);
    }
  }

  // ----- every quote comes from a load

  ghost predicate Genuine(s: State, sku: string, value: Loaded) {
    match value
    case Quoted(quote) => LoaderReturned(sku, quote) in s.log
    case LoadFailed(error) => LoaderFailed(sku, error) in s.log
  }

  ghost predicate GenuineFlight(s: State, flight: Flight) {
    match flight.pc
    case Storing(quote) => LoaderReturned(flight.sku, quote) in s.log
    case Ending(value) => Genuine(s, flight.sku, value)
    case Landed(value) => Genuine(s, flight.sku, value)
    case _ => true
  }

  ghost predicate GenuineCaller(s: State, sku: string, caller: Caller) {
    && (caller.Returned? && caller.result.Got? ==> Genuine(s, sku, caller.result.loaded))
    && (!caller.New? ==> (caller == Returned(Rejected) <==> sku == ""))
  }

  ghost predicate Truthful(s: State)
    requires Registered(s)
  {
    && (forall sku :: sku in s.cache ==> LoaderReturned(sku, s.cache[sku]) in s.log)
    && (forall f :: 0 <= f < |s.flights| ==> GenuineFlight(s, s.flights[f]))
    && (forall i :: 0 <= i < |s.callers| ==> GenuineCaller(s, s.skus[i], s.callers[i]))
  }

  lemma MovedCallerGenuine(s: State, a: Action)
    requires Registered(s) && Truthful(s) && OfCaller(a) && Step(s, a).Some?
    ensures a.i < |Step(s, a).value.callers| == |s.skus|
    ensures GenuineCaller(Step(s, a).value, s.skus[a.i], Step(s, a).value.callers[a.i])
  {
    assert GenuineCaller(s, s.skus[a.i], s.callers[a.i]);
  }

  lemma CallerStepFrame(s: State, a: Action)
    requires Registered(s) && OfCaller(a) && Step(s, a).Some?
    ensures var t := Step(s, a).value;
            && t.log == s.log && t.cache == s.cache && t.skus == s.skus && |t.callers| == |s.callers|
            && (forall i :: 0 <= i < |s.callers| && i != a.i ==> t.callers[i] == s.callers[i])
            && (t.flights == s.flights || t.flights == s.flights + [Flight(s.skus[a.i], true, Fresh)])
  {
  }

  lemma CallerStepTruthful(s: State, a: Action)
    requires Registered(s) && Truthful(s) && OfCaller(a) && Step(s, a).Some?
    ensures Registered(Step(s, a).value) && Truthful(Step(s, a).value)
  {
    CallerStepRegistered(s, a);
    CallerStepFrame(s, a);
    MovedCallerGenuine(s, a);
    var t := Step(s, a).value;
    assert forall fl: Flight :: GenuineFlight(s, fl) ==> GenuineFlight(t, fl);
    assert forall sku, c: Caller :: GenuineCaller(s, sku, c) ==> GenuineCaller(t, sku, c);
  }

  /** Only the flight that moves, and the cache, change what is quoted. */
  lemma FlightStepFrame(s: State, a: Action)
    requires OfFlight(a) && Step(s, a).Some?
    ensures var t := Step(s, a).value;
            && s.log <= t.log && t.callers == s.callers && t.skus == s.skus
            && |t.flights| == |s.flights| && t.flights[a.f].sku == s.flights[a.f].sku
            && (forall f :: 0 <= f < |s.flights| && f != a.f ==> t.flights[f] == s.flights[f])
  {
  }

  lemma MovedFlightGenuine(s: State, a: Action)
    requires Registered(s) && Truthful(s) && OfFlight(a) && Step(s, a).Some?
    ensures a.f < |Step(s, a).value.flights| && GenuineFlight(Step(s, a).value, Step(s, a).value.flights[a.f])
  {
    assert GenuineFlight(s, s.flights[a.f]);
  }

  lemma FlightStepTruthful(s: State, a: Action)
    requires Registered(s) && Truthful(s) && OfFlight(a) && Step(s, a).Some?
    ensures Registered(Step(s, a).value) && Truthful(Step(s, a).value)
  {
    StepRegistered(s, a);
    FlightStepFrame(s, a);
    MovedFlightGenuine(s, a);
    var t := Step(s, a).value;
    assert forall fl: Flight :: GenuineFlight(s, fl) ==> GenuineFlight(t, fl);
    assert forall sku, c: Caller :: GenuineCaller(s, sku, c) ==> GenuineCaller(t, sku, c);
  }

  lemma StepTruthful(s: State, a: Action)
    requires Registered(s) && Truthful(s) && Step(s, a).Some?
    ensures Registered(Step(s, a).value) && Truthful(Step(s, a).value)
  {
    StepRegistered(s, a);
    if OfCaller(a) {
      CallerStepTruthful(s, a);
    } else if OfFlight(a) {
      FlightStepTruthful(s, a);
    } else {
      assert s.log <= Step(s, a).value.log;
    }
  }

  // ----- the load bound

  function Is(e: Event): Event -> nat { x => if x == e then 1 else 0 }

  function Count(s: State, e: Event): nat { Sum(s.log, Is(e)) }

  function FailedFor(sku: string): Event -> nat { (x: Event) => if x.LoaderFailed? && x.sku == sku then 1 else 0 }

  /** Failed loads of the key, whatever the error. */
  function Failed(s: State, sku: string): nat { Sum(s.log, FailedFor(sku)) }

  /** A forgotten flight that has not made its second lookup may still call the loader. */
  function Loose(sku: string): Flight -> nat {
    (fl: Flight) => if fl.sku == sku && !fl.registered && fl.pc.Fresh? then 1 else 0
  }

  function Named(sku: string): string -> nat { (k: string) => if k == sku then 1 else 0 }

  /** Cached, or on its way into the cache by the registered flight. */
  predicate Covered(s: State, sku: string) {
    sku in s.cache ||
    (sku in s.table && s.table[sku] < |s.flights| &&
     (s.flights[s.table[sku]].pc.Loading? || s.flights[s.table[sku]].pc.Storing?))
  }

  function Cover(s: State, sku: string): nat { if Covered(s, sku) then 1 else 0 }

  /** The account: what a load is paid for with. */
  ghost predicate Paid(s: State, sku: string) {
    && Count(s, LoaderCalled(sku)) + Sum(s.flights, Loose(sku))
       <= Failed(s, sku) + Count(s, Deleted(sku)) + Count(s, Forgotten(sku))
          + Cover(s, sku)
    && Count(s, Forgotten(sku)) + Sum(s.forgetting, Named(sku)) == Count(s, Deleted(sku))
  }

  lemma LogGrows(s: State, e: Event, x: Event)
    ensures Sum(s.log + [e], Is(x)) == Count(s, x) + if e == x then 1 else 0
  {
    SumConcat(s.log, [e], Is(x));
  }

  lemma CountsGrow(s: State, e: Event, sku: string)
    ensures Sum(s.log + [e], Is(LoaderCalled(sku)))
            == Count(s, LoaderCalled(sku)) + if e == LoaderCalled(sku) then 1 else 0
    ensures Sum(s.log + [e], FailedFor(sku)) == Failed(s, sku) + FailedFor(sku)(e)
    ensures Sum(s.log + [e], Is(Deleted(sku))) == Count(s, Deleted(sku)) + if e == Deleted(sku) then 1 else 0
    ensures Sum(s.log + [e], Is(Forgotten(sku))) == Count(s, Forgotten(sku)) + if e == Forgotten(sku) then 1 else 0
  {
    LogGrows(s, e, LoaderCalled(sku));
    SumConcat(s.log, [e], FailedFor(sku));
    LogGrows(s, e, Deleted(sku));
    LogGrows(s, e, Forgotten(sku));
  }

  lemma HitPaid(s: State, f: nat, sku: string)
    requires Registered(s) && Paid(s, sku) && Step(s, SecondLookup(f)).Some? && s.flights[f].sku in s.cache
    ensures Paid(Step(s, SecondLookup(f)).value, sku)
  {
    SumUpdate(s.flights, f, Step(s, SecondLookup(f)).value.flights[f], Loose(sku));
  }

  /** A loader call is made by a loose flight, or by the registered one, which then covers the key. */
  lemma MissLoosens(s: State, f: nat, sku: string)
    requires Registered(s) && Step(s, SecondLookup(f)).Some? && s.flights[f].sku !in s.cache
    ensures var t := Step(s, SecondLookup(f)).value;
            Sum(t.flights, Loose(sku)) + Cover(s, sku) + (if s.flights[f].sku == sku then 1 else 0)
              <= Sum(s.flights, Loose(sku)) + Cover(t, sku)
  {
    SumUpdate(s.flights, f, Step(s, SecondLookup(f)).value.flights[f], Loose(sku));
  }

  lemma LookupPaid(s: State, f: nat, sku: string)
    requires Registered(s) && Paid(s, sku) && Step(s, SecondLookup(f)).Some?
    ensures Paid(Step(s, SecondLookup(f)).value, sku)
  {
    if s.flights[f].sku in s.cache {
      HitPaid(s, f, sku);
    } else {
      MissLoosens(s, f, sku);
      CountsGrow(s, LoaderCalled(s.flights[f].sku), sku);
    }
  }

  lemma LoaderReturnPaid(s: State, f: nat, loaded: Loaded, sku: string)
    requires Registered(s) && Paid(s, sku) && Step(s, LoaderReturn(f, loaded)).Some?
    ensures Paid(Step(s, LoaderReturn(f, loaded)).value, sku)
  {
    var t := Step(s, LoaderReturn(f, loaded)).value;
    SumUpdate(s.flights, f, t.flights[f], Loose(sku));
    if loaded.Quoted? {
      CountsGrow(s, LoaderReturned(s.flights[f].sku, loaded.quote), sku);
    } else {
      CountsGrow(s, LoaderFailed(s.flights[f].sku, loaded.error), sku);
    }
  }

  lemma LandingPaid(s: State, a: Action, sku: string)
    requires Registered(s) && Paid(s, sku) && (a.Store? || a.Land?) && Step(s, a).Some?
    ensures Paid(Step(s, a).value, sku)
  {
    SumUpdate(s.flights, a.f, Step(s, a).value.flights[a.f], Loose(sku));
  }

  lemma JoinPaid(s: State, i: nat, sku: string)
    requires Registered(s) && Paid(s, sku) && Step(s, Join(i)).Some?
    ensures Paid(Step(s, Join(i)).value, sku)
  {
    var t := Step(s, Join(i)).value;
    if t.flights != s.flights {
      SumConcat(s.flights, [Flight(s.skus[i], true, Fresh)], Loose(sku));
    }
  }

  lemma DeletePaid(s: State, d: string, sku: string)
    requires Registered(s) && Paid(s, sku)
    ensures Paid(Step(s, Delete(d)).value, sku)
  {
    CountsGrow(s, Deleted(d), sku);
    SumConcat(s.forgetting, [d], Named(sku));
  }

  lemma {:induction false} SumWithout(names: seq<string>, k: nat, sku: string)
    requires k < |names|
    ensures Sum(names, Named(sku)) == Sum(names[..k] + names[k + 1..], Named(sku)) + if names[k] == sku then 1 else 0
  {
    var before, after := names[..k], names[k + 1..];
    assert names == before + [names[k]] + after;
    SumConcat(before + [names[k]], after, Named(sku));
    SumConcat(before, [names[k]], Named(sku));
    SumConcat(before, after, Named(sku));
  }

  /** Forgetting a flight loosens it or uncovers its key, and never both. */
  lemma ForgetLoosens(s: State, k: nat, sku: string)
    requires Registered(s) && k < |s.forgetting|
    ensures var t := Step(s, Forget(k)).value;
            Sum(t.flights, Loose(sku)) + Cover(s, sku)
              <= Sum(s.flights, Loose(sku)) + Cover(t, sku) + if s.forgetting[k] == sku then 1 else 0
  {
    var d := s.forgetting[k];
    if d in s.table {
      SumUpdate(s.flights, s.table[d], s.flights[s.table[d]].(registered := false), Loose(sku));
    }
  }

  lemma ForgetPaid(s: State, k: nat, sku: string)
    requires Registered(s) && Paid(s, sku) && k < |s.forgetting|
    ensures Paid(Step(s, Forget(k)).value, sku)
  {
    CountsGrow(s, Forgotten(s.forgetting[k]), sku);
    SumWithout(s.forgetting, k, sku);
    ForgetLoosens(s, k, sku);
  }

  lemma StepPaid(s: State, a: Action, sku: string)
    requires Registered(s) && Paid(s, sku) && Step(s, a).Some?
    ensures Paid(Step(s, a).value, sku)
  {
    match a
    case SecondLookup(f) => LookupPaid(s, f, sku);
    case LoaderReturn(f, loaded) => LoaderReturnPaid(s, f, loaded, sku);
    case Store(_) => LandingPaid(s, a, sku);
    case Land(_) => LandingPaid(s, a, sku);
    case Join(i) => JoinPaid(s, i, sku);
    case Delete(d) => DeletePaid(s, d, sku);
    case Forget(k) => ForgetPaid(s, k, sku);
    case _ =>
  }

  ghost predicate Inv(s: State) { Registered(s) && Truthful(s) && forall sku :: Paid(s, sku) }

  lemma StepInv(s: State, a: Action)
    requires Inv(s) && Step(s, a).Some?
    ensures Inv(Step(s, a).value) && Step(s, a).value.skus == s.skus
  {
    StepTruthful(s, a);
    forall sku ensures Paid(Step(s, a).value, sku) {
      StepPaid(s, a, sku);
    }
  }

  lemma EveryRun(skus: seq<string>, run: seq<Action>)
    requires Exec(Step, Init(skus), run).Some?
    ensures Inv(Exec(Step, Init(skus), run).value) && Exec(Step, Init(skus), run).value.skus == skus
  {
    var inv := (s: State) => Inv(s) && s.skus == skus;
    forall s: State, a: Action | inv(s) && Step(s, a).Some? ensures inv(Step(s, a).value) {
      StepInv(s, a);
    }
    Invariant(Step, inv, Init(skus), run);
  }

  // ----- every run

  /**
    In any run the loader is called for a key at most once, and once more for
    each load that failed and twice more for each `Invalidate` of that key.
  */
  lemma LoadBound(skus: seq<string>, run: seq<Action>, sku: string)
    requires Exec(Step, Init(skus), run).Some?
    ensures var s := Exec(Step, Init(skus), run).value;
            Count(s, LoaderCalled(sku)) <= 1 + Failed(s, sku) + 2 * Count(s, Deleted(sku))
  {
    EveryRun(skus, run);
    assert Paid(Exec(Step, Init(skus), run).value, sku);
  }

  /**
    Every quote returned for a key came from a successful load of that key, and
    every load error is that of a failed one; only a call without a key is rejected.
  */
  lemma Transparent(skus: seq<string>, run: seq<Action>, i: nat)
    requires Exec(Step, Init(skus), run).Some? && i < |skus|
    ensures var s := Exec(Step, Init(skus), run).value;
            && |s.callers| == |skus|
            && (s.callers[i].Returned? && s.callers[i].result.Got? ==>
                  match s.callers[i].result.loaded
                  case Quoted(quote) => LoaderReturned(skus[i], quote) in s.log
                  case LoadFailed(error) => LoaderFailed(skus[i], error) in s.log)
            && (s.callers[i].Returned? ==> (s.callers[i].result.Rejected? <==> skus[i] == ""))
  {
    EveryRun(skus, run);
  }

  /**
    With a loader that always prices a key the same, the cache cannot be noticed:
    a call that got a quote got the price of its key.
  */
  lemma CacheUnnoticed(skus: seq<string>, run: seq<Action>, i: nat, price: string -> PriceQuote)
    requires Exec(Step, Init(skus), run).Some? && i < |skus|
    requires forall sku, quote ::
               LoaderReturned(sku, quote) in Exec(Step, Init(skus), run).value.log ==> quote == price(sku)
    ensures var s := Exec(Step, Init(skus), run).value;
            |s.callers| == |skus| &&
            (s.callers[i].Returned? && s.callers[i].result.Got? && s.callers[i].result.loaded.Quoted? ==>
               s.callers[i].result.loaded.quote == price(skus[i]))
  {
    Transparent(skus, run, i);
  }

  /**
    Nobody is left waiting: when nothing can happen but a new invalidation or the
    end of a caller's context, every call has returned.
  */
  lemma NobodyStuck(s: State)
    requires Inv(s) && forall a: Action :: !a.Delete? && !a.GiveUp? ==> Step(s, a).None?
    ensures forall i :: 0 <= i < |s.callers| ==> s.callers[i].Returned?
    ensures forall f :: 0 <= f < |s.flights| ==> s.flights[f].pc.Landed?
    ensures s.forgetting == [] && s.table == map[]
  {
    forall f | 0 <= f < |s.flights| ensures s.flights[f].pc.Landed? {
      assert Step(s, SecondLookup(f)).None? && Step(s, LoaderReturn(f, LoadFailed(""))).None?;
      assert Step(s, Store(f)).None? && Step(s, Land(f)).None?;
    }
    forall i | 0 <= i < |s.callers| ensures s.callers[i].Returned? {
      assert Step(s, FirstLookup(i)).None? && Step(s, Join(i)).None? && Step(s, Receive(i)).None?;
    }
    assert Step(s, Forget(0)).None?;
    if sku :| sku in s.table {
      assert false;
    }
  }

  // ----- every run ends

  function CallWeight(c: Caller): nat {
    match c case New => 7 case Missed => 6 case Flying(_) => 1 case Returned(_) => 0
  }

  function FlightWeight(fl: Flight): nat {
    match fl.pc case Fresh => 4 case Loading => 3 case Storing(_) => 2 case Ending(_) => 1 case Landed(_) => 0
  }

  function Rank(s: State): nat { Sum(s.callers, CallWeight) + Sum(s.flights, FlightWeight) + |s.forgetting| }

  lemma JoinLowersRank(s: State, i: nat)
    requires Registered(s) && Step(s, Join(i)).Some?
    ensures Rank(Step(s, Join(i)).value) < Rank(s)
  {
    var t := Step(s, Join(i)).value;
    SumUpdate(s.callers, i, t.callers[i], CallWeight);
    if t.flights != s.flights {
      SumConcat(s.flights, [Flight(s.skus[i], true, Fresh)], FlightWeight);
    }
  }

  lemma ForgetLowersRank(s: State, k: nat)
    requires Registered(s) && k < |s.forgetting|
    ensures Rank(Step(s, Forget(k)).value) < Rank(s)
  {
    var d := s.forgetting[k];
    if d in s.table {
      SumUpdate(s.flights, s.table[d], s.flights[s.table[d]].(registered := false), FlightWeight);
    }
  }

  lemma FlightLowersRank(s: State, a: Action)
    requires OfFlight(a) && Step(s, a).Some?
    ensures Rank(Step(s, a).value) < Rank(s)
  {
    SumUpdate(s.flights, a.f, Step(s, a).value.flights[a.f], FlightWeight);
  }

  /** Only an invalidation that begins makes more work, and only the work of its end. */
  lemma StepLowersRank(s: State, a: Action)
    requires Registered(s) && Step(s, a).Some?
    ensures if a.Delete? then Rank(Step(s, a).value) == Rank(s) + 1 else Rank(Step(s, a).value) < Rank(s)
  {
    var t := Step(s, a).value;
    if a.Join? {
      JoinLowersRank(s, a.i);
    } else if OfCaller(a) {
      SumUpdate(s.callers, a.i, t.callers[a.i], CallWeight);
    } else if OfFlight(a) {
      FlightLowersRank(s, a);
    } else if a.Forget? {
      ForgetLowersRank(s, a.k);
    }
  }

  function Deletes(run: seq<Action>): nat { Sum(run, (a: Action) => if a.Delete? then 1 else 0) }

  lemma {:induction false} RunBounded(s: State, run: seq<Action>)
    requires Registered(s) && Exec(Step, s, run).Some?
    ensures |run| <= Rank(s) + 2 * Deletes(run)
    decreases |run|
  {
    if run != [] {
      StepRegistered(s, run[0]);
      StepLowersRank(s, run[0]);
      RunBounded(Step(s, run[0]).value, run[1..]);
    }
  }

  lemma InitRank(skus: seq<string>)
    ensures Registered(Init(skus)) && Rank(Init(skus)) == 7 * |skus|
  {
    SumConst(Init(skus).callers, CallWeight, New);
  }

  /**
    A run takes at most seven steps a call and two an `Invalidate`, and one in
    which nothing is left to happen has answered every call.
  */
  lemma EveryRunEnds(skus: seq<string>, run: seq<Action>)
    requires Exec(Step, Init(skus), run).Some?
    ensures |run| <= 7 * |skus| + 2 * Deletes(run)
    ensures var s := Exec(Step, Init(skus), run).value;
            (forall a: Action :: !a.Delete? && !a.GiveUp? ==> Step(s, a).None?) ==>
              forall i :: 0 <= i < |s.callers| ==> s.callers[i].Returned?
  {
    InitRank(skus);
    RunBounded(Init(skus), run);
    EveryRun(skus, run);
    var s := Exec(Step, Init(skus), run).value;
    if forall a: Action :: !a.Delete? && !a.GiveUp? ==> Step(s, a).None? {
      NobodyStuck(s);
    }
  }

  // ----- the bound is exact

  /** Every caller wants `sku`, those from `n` on have not started, and no flight is registered. */
  ghost predicate Quiet(s: State, n: nat, sku: string) {
    && sku != "" && |s.callers| == |s.skus| && n <= |s.callers|
    && (forall i :: 0 <= i < |s.skus| ==> s.skus[i] == sku)
    && (forall i :: n <= i < |s.callers| ==> s.callers[i].New?)
    && sku !in s.table && s.forgetting == []
  }

  ghost predicate Tally(s: State, sku: string, called: nat, failed: nat, deleted: nat) {
    Count(s, LoaderCalled(sku)) == called && Failed(s, sku) == failed && Count(s, Deleted(sku)) == deleted
  }

  /** A cold key: caller `n` starts a flight that calls the loader. */
  lemma Launch(s0: State, run0: seq<Action>, s: State, n: nat, sku: string)
    returns (run: seq<Action>, t: State)
    requires Exec(Step, s0, run0) == Some(s) && Quiet(s.(forgetting := []), n, sku)
    requires n < |s.callers| && sku !in s.cache
    ensures Exec(Step, s0, run) == Some(t)
    ensures t.callers == s.callers[n := Flying(|s.flights|)] && t.skus == s.skus && t.cache == s.cache
    ensures t.table == s.table[sku := |s.flights|] && t.flights == s.flights + [Flight(sku, true, Loading)]
    ensures t.forgetting == s.forgetting && t.log == s.log + [LoaderCalled(sku)]
  {
    run, t := Append(Step, s0, run0, s, FirstLookup(n));
    run, t := Append(Step, s0, run, t, Join(n));
    run, t := Append(Step, s0, run, t, SecondLookup(|s.flights|));
    assert t.callers == s.callers[n := Flying(|s.flights|)];
  }

  /** A cold key: a load that succeeds warms it, one that fails leaves it cold. */
  lemma LoadOnce(
      s0: State, run0: seq<Action>, s: State, n: nat, sku: string, loaded: Loaded,
      called: nat, failed: nat, deleted: nat)
    returns (run: seq<Action>, t: State)
    requires Exec(Step, s0, run0) == Some(s) && Quiet(s, n, sku) && n < |s.callers| && sku !in s.cache
    requires Tally(s, sku, called, failed, deleted)
    ensures Exec(Step, s0, run) == Some(t) && Quiet(t, n + 1, sku) && |t.callers| == |s.callers|
    ensures sku in t.cache <==> loaded.Quoted?
    ensures Tally(t, sku, called + 1, failed + if loaded.Quoted? then 0 else 1, deleted)
  {
    var f := |s.flights|;
    run, t := Launch(s0, run0, s, n, sku);
    TallyGrows(s, t, LoaderCalled(sku), sku);
    var u := t;
    run, t := Fly(s0, run, t, f, sku, loaded);
    TallyGrows(u, t, Reported(sku, loaded), sku);
  }

  /** What the log says of a load. */
  function Reported(sku: string, loaded: Loaded): Event {
    match loaded case Quoted(quote) => LoaderReturned(sku, quote) case LoadFailed(error) => LoaderFailed(sku, error)
  }

  lemma Fly(s0: State, run0: seq<Action>, s: State, f: nat, sku: string, loaded: Loaded)
    returns (run: seq<Action>, t: State)
    requires Exec(Step, s0, run0) == Some(s) && f < |s.flights| && s.flights[f] == Flight(sku, true, Loading)
    ensures Exec(Step, s0, run) == Some(t)
    ensures t.callers == s.callers && t.skus == s.skus && t.forgetting == s.forgetting
    ensures t.cache == (if loaded.Quoted? then s.cache[sku := loaded.quote] else s.cache)
    ensures t.table == s.table - {sku} && t.log == s.log + [Reported(sku, loaded)]
  {
    run, t := Fetch(s0, run0, s, f, sku, loaded);
    run, t := Append(Step, s0, run, t, Land(f));
  }

  lemma Fetch(s0: State, run0: seq<Action>, s: State, f: nat, sku: string, loaded: Loaded)
    returns (run: seq<Action>, t: State)
    requires Exec(Step, s0, run0) == Some(s) && f < |s.flights| && s.flights[f] == Flight(sku, true, Loading)
    ensures Exec(Step, s0, run) == Some(t)
    ensures t.callers == s.callers && t.skus == s.skus && t.forgetting == s.forgetting && t.table == s.table
    ensures t.cache == (if loaded.Quoted? then s.cache[sku := loaded.quote] else s.cache)
    ensures t.flights == s.flights[f := Flight(sku, true, Ending(loaded))] && t.log == s.log + [Reported(sku, loaded)]
  {
    run, t := Append(Step, s0, run0, s, LoaderReturn(f, loaded));
    if loaded.Quoted? {
      run, t := Append(Step, s0, run, t, Store(f));
    }
  }

  lemma TallyGrows(s: State, t: State, e: Event, sku: string)
    requires t.log == s.log + [e]
    ensures Count(t, LoaderCalled(sku)) == Count(s, LoaderCalled(sku)) + if e == LoaderCalled(sku) then 1 else 0
    ensures Failed(t, sku) == Failed(s, sku) + FailedFor(sku)(e)
    ensures Count(t, Deleted(sku)) == Count(s, Deleted(sku)) + if e == Deleted(sku) then 1 else 0
  {
    CountsGrow(s, e, sku);
  }

  /** Warm to cold: between the delete and the forget of one `Invalidate`, a flight gets away. */
  lemma InvalidateOnce(
      s0: State, run0: seq<Action>, s: State, n: nat, sku: string, called: nat, failed: nat, deleted: nat)
    returns (run: seq<Action>, t: State)
    requires Exec(Step, s0, run0) == Some(s) && Quiet(s, n, sku) && n < |s.callers|
    requires Tally(s, sku, called, failed, deleted)
    ensures Exec(Step, s0, run) == Some(t) && Quiet(t, n + 1, sku) && sku !in t.cache && |t.callers| == |s.callers|
    ensures Tally(t, sku, called + 1, failed, deleted + 1)
  {
    run, t := Append(Step, s0, run0, s, Delete(sku));
    TallyGrows(s, t, Deleted(sku), sku);
    var u := t;
    run, t := Launch(s0, run, t, n, sku);
    TallyGrows(u, t, LoaderCalled(sku), sku);
    u := t;
    run, t := ForgetOnly(s0, run, t, sku);
    TallyGrows(u, t, Forgotten(sku), sku);
  }

  lemma ForgetOnly(s0: State, run0: seq<Action>, s: State, sku: string)
    returns (run: seq<Action>, t: State)
    requires Exec(Step, s0, run0) == Some(s) && s.forgetting == [sku]
    ensures Exec(Step, s0, run) == Some(t)
    ensures t.callers == s.callers && t.skus == s.skus && t.cache == s.cache
    ensures t.forgetting == [] && t.table == s.table - {sku} && t.log == s.log + [Forgotten(sku)]
  {
    run, t := Append(Step, s0, run0, s, Forget(0));
  }

  lemma {:induction false} FailMany(sku: string, f: nat, skus: seq<string>)
    returns (run: seq<Action>, t: State)
    requires sku != "" && |skus| >= f && forall i :: 0 <= i < |skus| ==> skus[i] == sku
    ensures Exec(Step, Init(skus), run) == Some(t) && Tally(t, sku, f, f, 0)
    ensures Quiet(t, f, sku) && sku !in t.cache && |t.callers| == |skus|
  {
    if f == 0 {
      run, t := [], Init(skus);
    } else {
      run, t := FailMany(sku, f - 1, skus);
      run, t := LoadOnce(Init(skus), run, t, f - 1, sku, LoadFailed(""), f - 1, f - 1, 0);
    }
  }

  /** The bound is exact: for any numbers of failed loads and of invalidations some run calls the loader that often. */
  lemma {:induction false} BoundIsReached(sku: string, quote: PriceQuote, f: nat, k: nat, skus: seq<string>)
    returns (run: seq<Action>, t: State)
    requires sku != "" && |skus| >= 1 + f + 2 * k && forall i :: 0 <= i < |skus| ==> skus[i] == sku
    ensures Exec(Step, Init(skus), run) == Some(t) && Tally(t, sku, 1 + f + 2 * k, f, k)
    ensures Quiet(t, 1 + f + 2 * k, sku) && sku in t.cache && |t.callers| == |skus|
    decreases k
  {
    if k == 0 {
      run, t := FailMany(sku, f, skus);
      run, t := LoadOnce(Init(skus), run, t, f, sku, Quoted(quote), f, f, 0);
    } else {
      var n := f + 2 * k;
      run, t := BoundIsReached(sku, quote, f, k - 1, skus);
      run, t := InvalidateOnce(Init(skus), run, t, n - 1, sku, n - 1, f, k - 1);
      run, t := LoadOnce(Init(skus), run, t, n, sku, Quoted(quote), n, f, k);
    }
  }

  // ----- when a context ends

  lemma StepTellsOfContext(s: State, a: Action, i: nat)
    requires i < |s.callers| && Step(s, a).Some?
    ensures var t := Step(s, a).value;
            && |t.callers| == |s.callers|
            && (t.callers[i] == Returned(ContextDone) <==> s.callers[i] == Returned(ContextDone) || a == GiveUp(i))
  {
  }

  /** A call is told of its context exactly if that ended its select. */
  lemma ToldOfContextExactly(skus: seq<string>, run: seq<Action>, i: nat)
    requires Exec(Step, Init(skus), run).Some? && i < |skus|
    ensures var s := Exec(Step, Init(skus), run).value;
            |s.callers| == |skus| && (s.callers[i] == Returned(ContextDone) <==> GiveUp(i) in run)
  {
    var inv := (s: State) => |s.callers| == |skus|;
    var sign := (s: State) => i < |s.callers| && s.callers[i] == Returned(ContextDone);
    forall s: State, a: Action | inv(s) && Step(s, a).Some?
      ensures inv(Step(s, a).value) && (sign(Step(s, a).value) <==> sign(s) || a == GiveUp(i))
    {
      StepTellsOfContext(s, a, i);
    }
    Invariant(Step, inv, Init(skus), run);
    Happened(Step, inv, (a: Action) => a == GiveUp(i), sign, Init(skus), run);
  }

  /** A call that waits for a flight leaves at once when its context ends, and the flight goes on. */
  lemma ContextFrees(s: State, i: nat)
    requires Registered(s) && i < |s.callers| && s.callers[i].Flying?
    ensures Step(s, GiveUp(i)) == Some(s.(callers := s.callers[i := Returned(ContextDone)]))
  {
  }

  // ----- when no context ends

  ghost predicate Undisturbed(run: seq<Action>) { forall a :: a in run ==> !a.GiveUp? }

  lemma StepNobodyGivesUp(s: State, a: Action)
    requires Returned(ContextDone) !in s.callers && !a.GiveUp? && Step(s, a).Some?
    ensures Returned(ContextDone) !in Step(s, a).value.callers
  {
  }

  lemma NobodyGaveUp(skus: seq<string>, run: seq<Action>)
    requires Exec(Step, Init(skus), run).Some? && Undisturbed(run)
    ensures Returned(ContextDone) !in Exec(Step, Init(skus), run).value.callers
  {
    var inv := (s: State) => Returned(ContextDone) !in s.callers;
    forall s: State, a: Action | inv(s) && !a.GiveUp? && Step(s, a).Some? ensures inv(Step(s, a).value) {
      StepNobodyGivesUp(s, a);
    }
    InvariantOnly(Step, (a: Action) => !a.GiveUp?, inv, Init(skus), run);
  }

  // ----- the service

  /** The service with its calls in progress. Each method runs one goroutine to its next blocking point. */
  class PriceService {
    const skus: seq<string>
    var callers: seq<Caller>
    var cache: map<string, PriceQuote>
    var table: map<string, nat>
    var flights: seq<Flight>
    var forgetting: seq<string>
    ghost var log: seq<Event>
    ghost var stamps: Stamps

    ghost function Abs(): State
      reads this
    {
      State(skus, callers, cache, table, flights, forgetting, log, stamps)
    }

    constructor (skus: seq<string>)
      ensures Abs() == Init(skus)
    {
      this.skus := skus;
      callers := seq(|skus|, i => New);
      cache, table, flights, forgetting, log := map[], map[], [], [], [];
      stamps := Stamps(map[], map[], map[]);
    }

    method Lookup(sku: string) returns (quote: Option<PriceQuote>)
      ensures quote == if sku in cache then Some(cache[sku]) else None
    {
      quote := if sku in cache then Some(cache[sku]) else None;
    }

    /** `Get`: the first lookup, then `DoChan`, then the select; `ctxDone` says whether its context has ended. */
    method GetStep(i: nat, ctxDone: bool) returns (ghost a: Action)
      requires Registered(Abs()) && CallReady(i, ctxDone)
      modifies this
      ensures OfCaller(a) && a.i == i && (a.GiveUp? ==> ctxDone) && Step(old(Abs()), a) == Some(Abs())
    {
      match callers[i]
      case New =>
        a := FirstLookup(i);
        if skus[i] == "" {
          callers := callers[i := Returned(Rejected)];
        } else {
          var hit := Lookup(skus[i]);
          if hit.Some? {
            callers := callers[i := Returned(Got(Quoted(hit.value)))];
            stamps := stamps.(given := stamps.given[i := PlaceOf(stamps.cached, skus[i])]);
          } else {
            callers := callers[i := Missed];
          }
        }
      case Missed =>
        a := Join(i);
        if skus[i] in table {
          callers := callers[i := Flying(table[skus[i]])];
        } else {
          callers := callers[i := Flying(|flights|)];
          table := table[skus[i] := |flights|];
          flights := flights + [Flight(skus[i], true, Fresh)];
        }
      case Flying(f) =>
        if {
          case flights[f].pc.Landed? =>
            a := Receive(i);
            callers := callers[i := Returned(Got(flights[f].pc.value))];
            stamps := stamps.(given := stamps.given[i := PlaceOf(stamps.flight, f)]);
          case ctxDone =>
            a := GiveUp(i);
            callers := callers[i := Returned(ContextDone)];
        }
    }

    /** The flight's function and the end of the flight; `loaded` is what the loader returns if this is its return. */
    method FlightStep(f: nat, loaded: Loaded) returns (ghost a: Action)
      requires f < |flights| && !flights[f].pc.Landed?
      modifies this
      ensures OfFlight(a) && a.f == f && Step(old(Abs()), a) == Some(Abs())
    {
      var flight := flights[f];
      match flight.pc
      case Fresh =>
        a := SecondLookup(f);
        var hit := Lookup(flight.sku);
        if hit.Some? {
          flights := flights[f := flight.(pc := Ending(Quoted(hit.value)))];
          stamps := stamps.(flight := stamps.flight[f := PlaceOf(stamps.cached, flight.sku)]);
        } else {
          flights := flights[f := flight.(pc := Loading)];
          stamps := stamps.(flight := stamps.flight[f := |log|]);
          log := log + [LoaderCalled(flight.sku)];
        }
      case Loading =>
        a := LoaderReturn(f, loaded);
        if loaded.LoadFailed? {
          flights := flights[f := flight.(pc := Ending(loaded))];
          log := log + [LoaderFailed(flight.sku, loaded.error)];
        } else {
          flights := flights[f := flight.(pc := Storing(loaded.quote))];
          log := log + [LoaderReturned(flight.sku, loaded.quote)];
        }
      case Storing(quote) =>
        a := Store(f);
        cache := cache[flight.sku := quote];
        stamps := stamps.(cached := stamps.cached[flight.sku := PlaceOf(stamps.flight, f)]);
        flights := flights[f := flight.(pc := Ending(Quoted(quote)))];
      case Ending(value) =>
        a := Land(f);
        flights := flights[f := Flight(flight.sku, false, Landed(value))];
        if flight.registered {
          table := table - {flight.sku};
        }
    }

    /** The first half of `Invalidate`, under the lock. */
    method InvalidateDelete(sku: string)
      modifies this
      ensures Step(old(Abs()), Delete(sku)) == Some(Abs())
    {
      cache := cache - {sku};
      forgetting := forgetting + [sku];
      log := log + [Deleted(sku)];
    }

    /** The second half: `group.Forget`. */
    method InvalidateForget(k: nat)
      requires k < |forgetting| && Registered(Abs())
      modifies this
      ensures Step(old(Abs()), Forget(k)) == Some(Abs())
    {
      var sku := forgetting[k];
      forgetting := forgetting[..k] + forgetting[k + 1..];
      log := log + [Forgotten(sku)];
      if sku in table {
        flights := flights[table[sku] := flights[table[sku]].(registered := false)];
      }
      table := table - {sku};
    }

    /** `Get` can go on; `ctxDone` says whether its context has ended. */
    predicate CallReady(i: nat, ctxDone: bool)
      reads this
    {
      i < |callers| &&
      match callers[i]
      case New => true
      case Missed => true
      case Flying(f) => ctxDone || (f < |flights| && flights[f].pc.Landed?)
      case Returned(_) => false
    }

    predicate FlightReady(f: nat)
      reads this
    {
      f < |flights| && !flights[f].pc.Landed?
    }

    /** Some goroutine can go on, counting on contexts that have ended only if `ctxDone`. */
    predicate Ready(ctxDone: bool)
      reads this
    {
      || forgetting != []
      || (exists i :: 0 <= i < |callers| && CallReady(i, ctxDone))
      || (exists f :: 0 <= f < |flights| && FlightReady(f))
    }

    /** The guards miss no step, even with all contexts going on; and with contexts over, none of those either. */
    lemma GuardsMissNothing(ctxDone: bool)
      requires Registered(Abs())
      ensures !Ready(ctxDone) ==> forall a: Action :: !a.Delete? && !a.GiveUp? ==> Step(Abs(), a).None?
      ensures !Ready(true) ==> forall a: Action :: !a.Delete? ==> Step(Abs(), a).None?
    {
      if !Ready(true) {
        forall a: Action | !a.Delete? ensures Step(Abs(), a).None? {
          assert OfCaller(a) ==> !CallReady(a.i, true);
          assert OfFlight(a) ==> !FlightReady(a.f);
        }
      }
      if !Ready(ctxDone) {
        forall i | 0 <= i < |callers| ensures callers[i].Returned? || callers[i].Flying? {
          assert !CallReady(i, ctxDone);
        }
        forall f | 0 <= f < |flights| ensures flights[f].pc.Landed? {
          assert !FlightReady(f);
        }
        forall a: Action | !a.Delete? && !a.GiveUp? ensures Step(Abs(), a).None? {
          assert OfCaller(a) ==> !CallReady(a.i, ctxDone);
          assert OfFlight(a) ==> !FlightReady(a.f);
        }
      }
    }

    /** One turn of any goroutine that is not blocked; `loaded` is what the loader returns if it is its return. */
    method Turn(loaded: Loaded, ctxDone: bool) returns (ghost a: Action)
      requires Registered(Abs()) && Ready(ctxDone)
      modifies this
      ensures !a.Delete? && (a.GiveUp? ==> ctxDone) && Step(old(Abs()), a) == Some(Abs())
    {
      if {
        case i: nat :| i < |callers| && CallReady(i, ctxDone) => a := GetStep(i, ctxDone);
        case f: nat :| f < |flights| && FlightReady(f) => a := FlightStep(f, loaded);
        case forgetting != [] =>
          var k: nat :| k < |forgetting| by { assert 0 < |forgetting|; }
          a := Forget(k);
          InvalidateForget(k);
      }
    }
  }

  /**
    The service with its calls and some invalidations, the scheduler free at every
    turn: `run` is the interleaving it chose and `end` the state it led to. Every
    call returns, and the loader has been called no more often than the failures
    and the invalidations allow. Contexts may end only if `contextsEnd`. If none
    does, all calls return all the same, rejected or with what a load gave.
  */
  method RunService(skus: seq<string>, invalidations: seq<string>, contextsEnd: bool)
    returns (calls: seq<Caller>, ghost run: seq<Action>, ghost end: State)
    ensures Exec(Step, Init(skus), run) == Some(end) && calls == end.callers
    ensures |calls| == |skus| && forall i :: 0 <= i < |calls| ==> calls[i].Returned?
    ensures forall i :: 0 <= i < |calls| && calls[i].result.Got? ==>
              match calls[i].result.loaded
              case Quoted(quote) => LoaderReturned(skus[i], quote) in end.log
              case LoadFailed(error) => LoaderFailed(skus[i], error) in end.log
    ensures forall i :: 0 <= i < |calls| ==> (calls[i].result.Rejected? <==> skus[i] == "")
    ensures forall f :: 0 <= f < |end.flights| ==> end.flights[f].pc.Landed?
    ensures forall sku :: Count(end, Deleted(sku)) == Sum(invalidations, Named(sku))
    ensures forall sku :: Count(end, LoaderCalled(sku))
                          <= 1 + Failed(end, sku) + 2 * Sum(invalidations, Named(sku))
    ensures !contextsEnd ==> Undisturbed(run) && Returned(ContextDone) !in calls
  {
    var service := new PriceService(skus);
    var begun := 0;
    run, end := [], Init(skus);
    var ctxDone: bool := *;
    ctxDone := ctxDone && contextsEnd;
    while service.Ready(ctxDone) || begun < |invalidations|
      invariant (ctxDone ==> contextsEnd) && (!contextsEnd ==> Undisturbed(run))
      invariant fresh(service) && Driven(service.Abs(), invalidations, begun)
      invariant Exec(Step, Init(skus), run) == Some(end) && end == service.Abs()
      decreases Rank(service.Abs()) + 2 * (|invalidations| - begun)
    {
      var loaded: Loaded := *;
      ghost var a;
      ghost var before := begun;
      if {
        case service.Ready(ctxDone) => a := service.Turn(loaded, ctxDone);
        case begun < |invalidations| =>
          a := Delete(invalidations[begun]);
          service.InvalidateDelete(invalidations[begun]);
          begun := begun + 1;
      }
      StepDriven(end, a, invalidations, before);
      run, end := Append(Step, Init(skus), run, end, a);
      ctxDone := *;
      ctxDone := ctxDone && contextsEnd;
    }
    assert invalidations[..begun] == invalidations;
    calls := service.callers;
    service.GuardsMissNothing(ctxDone);
    NobodyStuck(end);
    EveryRun(skus, run);
    LoadsBound(skus, run);
    AllTransparent(skus, run);
    if !contextsEnd {
      NobodyGaveUp(skus, run);
    }
  }

  lemma AllTransparent(skus: seq<string>, run: seq<Action>)
    requires Exec(Step, Init(skus), run).Some?
    ensures var s := Exec(Step, Init(skus), run).value;
            && |s.callers| == |skus|
            && (forall i :: 0 <= i < |skus| && s.callers[i].Returned? && s.callers[i].result.Got? ==>
                  match s.callers[i].result.loaded
                  case Quoted(quote) => LoaderReturned(skus[i], quote) in s.log
                  case LoadFailed(error) => LoaderFailed(skus[i], error) in s.log)
            && (forall i :: 0 <= i < |skus| && s.callers[i].Returned? ==>
                  (s.callers[i].result.Rejected? <==> skus[i] == ""))
  {
    EveryRun(skus, run);
    var s := Exec(Step, Init(skus), run).value;
    assert forall i :: 0 <= i < |skus| ==> GenuineCaller(s, skus[i], s.callers[i]);
  }

  lemma LoadsBound(skus: seq<string>, run: seq<Action>)
    requires Exec(Step, Init(skus), run).Some?
    ensures var s := Exec(Step, Init(skus), run).value;
            forall sku :: Count(s, LoaderCalled(sku)) <= 1 + Failed(s, sku) + 2 * Count(s, Deleted(sku))
  {
    var s := Exec(Step, Init(skus), run).value;
    forall sku
      ensures Count(s, LoaderCalled(sku)) <= 1 + Failed(s, sku) + 2 * Count(s, Deleted(sku))
    {
      LoadBound(skus, run, sku);
    }
  }

  /** The first `begun` invalidations have begun. */
  ghost predicate Driven(s: State, invalidations: seq<string>, begun: nat) {
    && Inv(s) && begun <= |invalidations|
    && forall sku :: Count(s, Deleted(sku)) == Sum(invalidations[..begun], Named(sku))
  }

  lemma StepDriven(s: State, a: Action, invalidations: seq<string>, begun: nat)
    requires Driven(s, invalidations, begun) && Step(s, a).Some?
    requires a.Delete? ==> begun < |invalidations| && a.sku == invalidations[begun]
    ensures Driven(Step(s, a).value, invalidations, if a.Delete? then begun + 1 else begun)
    ensures if a.Delete? then Rank(Step(s, a).value) == Rank(s) + 1 else Rank(Step(s, a).value) < Rank(s)
  {
    StepInv(s, a);
    StepLowersRank(s, a);
    DeletesCounted(s, a, invalidations, begun);
  }

  lemma DeletesCounted(s: State, a: Action, invalidations: seq<string>, begun: nat)
    requires begun <= |invalidations| && Step(s, a).Some?
    requires a.Delete? ==> begun < |invalidations| && a.sku == invalidations[begun]
    requires forall sku :: Count(s, Deleted(sku)) == Sum(invalidations[..begun], Named(sku))
    ensures var after := if a.Delete? then begun + 1 else begun;
            forall sku :: Count(Step(s, a).value, Deleted(sku)) == Sum(invalidations[..after], Named(sku))
  {
    var t := Step(s, a).value;
    forall sku ensures Count(t, Deleted(sku)) == Count(s, Deleted(sku)) + if a == Delete(sku) then 1 else 0 {
      if t.log != s.log {
        assert t.log == s.log + [t.log[|s.log|]];
        CountsGrow(s, t.log[|s.log|], sku);
      }
    }
    if a.Delete? {
      forall sku ensures Sum(invalidations[..begun + 1], Named(sku)) ==
                         Sum(invalidations[..begun], Named(sku)) + if a.sku == sku then 1 else 0
      {
        assert invalidations[..begun + 1] == invalidations[..begun] + [a.sku];
        SumConcat(invalidations[..begun], [a.sku], Named(sku));
      }
    }
  }
}
