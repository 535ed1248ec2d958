/**
  What `Invalidate` is for: whether a call that begins after it may still be
  given a price from before it. A quote is dated by the place of its loader call
  in the log.
*/
module PriceFreshness {
  import opened Wrappers
  import opened Runs
  import opened PriceCache

  // ----- what the stamps say

  /** Place `p` of the log is a loader call for the key. */
  ghost predicate Asked(s: State, sku: string, p: nat) { p < |s.log| && s.log[p] == LoaderCalled(sku) }

  /** The flight has a quote, or has asked for one. */
  predicate HasAsked(pc: FlightPc) {
    match pc
    case Loading => true
    case Storing(_) => true
    case Ending(value) => value.Quoted?
    case Landed(value) => value.Quoted?
    case Fresh => false
  }

  predicate WasQuoted(caller: Caller) { caller.Returned? && caller.result.Got? && caller.result.loaded.Quoted? }

  ghost predicate HonestFlight(s: State, flight: Flight, p: nat) {
    HasAsked(flight.pc) ==> Asked(s, flight.sku, p)
  }

  ghost predicate HonestCaller(s: State, sku: string, caller: Caller, p: nat) {
    WasQuoted(caller) ==> Asked(s, sku, p)
  }

  ghost predicate Honest(s: State)
    requires Registered(s)
  {
    && (forall f: nat :: f < |s.flights| ==> HonestFlight(s, s.flights[f], PlaceOf(s.stamps.flight, f)))
    && (forall sku :: sku in s.cache ==> Asked(s, sku, PlaceOf(s.stamps.cached, sku)))
    && (forall i: nat :: i < |s.callers| ==> HonestCaller(s, s.skus[i], s.callers[i], PlaceOf(s.stamps.given, i)))
  }

  lemma MovedCallerHonest(s: State, a: Action)
    requires Registered(s) && Honest(s) && OfCaller(a) && Step(s, a).Some?
    ensures a.i < |s.callers| == |Step(s, a).value.callers|
    ensures var t := Step(s, a).value; HonestCaller(t, s.skus[a.i], t.callers[a.i], PlaceOf(t.stamps.given, a.i))
  {
    assert HonestCaller(s, s.skus[a.i], s.callers[a.i], PlaceOf(s.stamps.given, a.i));
    if a.Receive? {
      var f := s.callers[a.i].flight;
      assert HonestFlight(s, s.flights[f], PlaceOf(s.stamps.flight, f));
    }
  }

  /** What a caller's step does to the stamps. */
  lemma CallerStepStamps(s: State, a: Action)
    requires OfCaller(a) && Step(s, a).Some?
    ensures var t := Step(s, a).value;
            && t.stamps == s.stamps.(given := t.stamps.given)
            && forall i: nat :: i != a.i ==> PlaceOf(t.stamps.given, i) == PlaceOf(s.stamps.given, i)
  {
  }

  lemma CallerStepHonest(s: State, a: Action)
    requires Registered(s) && Honest(s) && OfCaller(a) && Step(s, a).Some?
    ensures Registered(Step(s, a).value) && Honest(Step(s, a).value)
  {
    CallerStepRegistered(s, a);
    CallerStepFrame(s, a);
    CallerStepStamps(s, a);
    MovedCallerHonest(s, a);
    var t := Step(s, a).value;
    assert forall sku, p: nat :: Asked(s, sku, p) ==> Asked(t, sku, p);
  }

  lemma MovedFlightHonest(s: State, a: Action)
    requires Registered(s) && Honest(s) && OfFlight(a) && Step(s, a).Some?
    ensures a.f < |s.flights| == |Step(s, a).value.flights|
    ensures var t := Step(s, a).value; HonestFlight(t, t.flights[a.f], PlaceOf(t.stamps.flight, a.f))
  {
    assert HonestFlight(s, s.flights[a.f], PlaceOf(s.stamps.flight, a.f));
  }

  /** What a flight's step does to the stamps. */
  lemma FlightStepStamps(s: State, a: Action)
    requires OfFlight(a) && Step(s, a).Some?
    ensures var t := Step(s, a).value;
            && t.stamps.given == s.stamps.given
            && forall f: nat :: f != a.f ==> PlaceOf(t.stamps.flight, f) == PlaceOf(s.stamps.flight, f)
  {
  }

  /** A price on its way into the cache takes its stamp along. */
  lemma StoreHonest(s: State, a: Action, sku: string)
    requires Registered(s) && Honest(s) && OfFlight(a) && Step(s, a).Some? && sku in Step(s, a).value.cache
    ensures Asked(Step(s, a).value, sku, PlaceOf(Step(s, a).value.stamps.cached, sku))
  {
    assert HonestFlight(s, s.flights[a.f], PlaceOf(s.stamps.flight, a.f));
  }

  lemma FlightStepHonest(s: State, a: Action)
    requires Registered(s) && Honest(s) && OfFlight(a) && Step(s, a).Some?
    ensures Registered(Step(s, a).value) && Honest(Step(s, a).value)
  {
    StepRegistered(s, a);
    FlightStepFrame(s, a);
    FlightStepStamps(s, a);
    MovedFlightHonest(s, a);
    var t := Step(s, a).value;
    assert forall sku, p: nat :: Asked(s, sku, p) ==> Asked(t, sku, p);
    forall sku | sku in t.cache ensures Asked(t, sku, PlaceOf(t.stamps.cached, sku)) {
      StoreHonest(s, a, sku);
    }
  }

  lemma StepHonest(s: State, a: Action)
    requires Registered(s) && Honest(s) && Step(s, a).Some?
    ensures Registered(Step(s, a).value) && Honest(Step(s, a).value)
  {
    StepRegistered(s, a);
    if OfCaller(a) {
      CallerStepHonest(s, a);
    } else if OfFlight(a) {
      FlightStepHonest(s, a);
    } else {
      assert forall sku, p: nat :: Asked(s, sku, p) ==> Asked(Step(s, a).value, sku, p);
    }
  }

  /** In every run a stamp is the place of a loader call for the right key. */
  lemma StampsAreHonest(skus: seq<string>, run: seq<Action>)
    requires Exec(Step, Init(skus), run).Some?
    ensures Registered(Exec(Step, Init(skus), run).value) && Honest(Exec(Step, Init(skus), run).value)
  {
    var inv := (s: State) => Registered(s) && Honest(s);
    forall s: State, a: Action | inv(s) && Step(s, a).Some? ensures inv(Step(s, a).value) {
      StepHonest(s, a);
    }
    Invariant(Step, inv, Init(skus), run);
  }

  // ----- after the entry is deleted

  /** A flight that will store what it gets. */
  predicate WillStore(pc: FlightPc) { pc.Loading? || pc.Storing? }

  /** What is cached for the key, or on its way there, was asked for at place `n` or later. */
  ghost predicate Renewed(s: State, sku: string, n: nat) {
    && n <= |s.log|
    && (sku in s.cache ==> n <= PlaceOf(s.stamps.cached, sku))
    && (forall f: nat :: f < |s.flights| && s.flights[f].sku == sku && WillStore(s.flights[f].pc) ==>
          n <= PlaceOf(s.stamps.flight, f))
  }

  lemma StepRenewed(s: State, a: Action, sku: string, n: nat)
    requires Registered(s) && Renewed(s, sku, n) && Step(s, a).Some?
    ensures Registered(Step(s, a).value) && Renewed(Step(s, a).value, sku, n)
  {
    StepRegistered(s, a);
    if OfFlight(a) {
      FlightStepRenewed(s, a, sku, n);
    }
  }

  lemma FlightStepRenewed(s: State, a: Action, sku: string, n: nat)
    requires Registered(s) && Renewed(s, sku, n) && OfFlight(a) && Step(s, a).Some?
    ensures Renewed(Step(s, a).value, sku, n)
  {
    FlightStepFrame(s, a);
    FlightStepStamps(s, a);
  }

  // ----- after the flight is forgotten

  /** Call `i` has not been in touch with any flight before number `m`. */
  ghost predicate Apart(s: State, sku: string, n: nat, m: nat, i: nat)
    requires Registered(s)
  {
    && i < |s.callers| && s.skus[i] == sku && m <= |s.flights|
    && (sku in s.table ==> m <= s.table[sku])
    && (forall f: nat :: m <= f < |s.flights| && s.flights[f].sku == sku && HasAsked(s.flights[f].pc) ==>
          n <= PlaceOf(s.stamps.flight, f))
    && (s.callers[i].Flying? ==> m <= s.callers[i].flight)
    && (WasQuoted(s.callers[i]) ==> n <= PlaceOf(s.stamps.given, i))
  }

  lemma CallerStepApart(s: State, a: Action, sku: string, n: nat, m: nat, i: nat)
    requires Registered(s) && Renewed(s, sku, n) && Apart(s, sku, n, m, i) && OfCaller(a) && Step(s, a).Some?
    ensures Registered(Step(s, a).value) && Apart(Step(s, a).value, sku, n, m, i)
  {
    CallerStepRegistered(s, a);
    CallerStepFrame(s, a);
    CallerStepStamps(s, a);
    if a.i == i {
      OwnStepApart(s, a, sku, n, m);
    }
  }

  /** The call's own step: it finds a renewed entry, or a flight from `m` on. */
  lemma OwnStepApart(s: State, a: Action, sku: string, n: nat, m: nat)
    requires OfCaller(a) && Registered(s) && Renewed(s, sku, n) && Apart(s, sku, n, m, a.i) && Step(s, a).Some?
    ensures var t := Step(s, a).value;
            && a.i < |t.callers|
            && (t.callers[a.i].Flying? ==> m <= t.callers[a.i].flight)
            && (WasQuoted(t.callers[a.i]) ==> n <= PlaceOf(t.stamps.given, a.i))
  {
  }

  lemma FlightStepApart(s: State, a: Action, sku: string, n: nat, m: nat, i: nat)
    requires Registered(s) && Renewed(s, sku, n) && Apart(s, sku, n, m, i) && OfFlight(a) && Step(s, a).Some?
    ensures Registered(Step(s, a).value) && Apart(Step(s, a).value, sku, n, m, i)
  {
    StepRegistered(s, a);
    FlightStepFrame(s, a);
    FlightStepStamps(s, a);
  }

  lemma StepApart(s: State, a: Action, sku: string, n: nat, m: nat, i: nat)
    requires Registered(s) && Renewed(s, sku, n) && Apart(s, sku, n, m, i) && Step(s, a).Some?
    ensures Registered(Step(s, a).value) && Renewed(Step(s, a).value, sku, n)
    ensures Apart(Step(s, a).value, sku, n, m, i)
  {
    StepRenewed(s, a, sku, n);
    if OfCaller(a) {
      CallerStepApart(s, a, sku, n, m, i);
    } else if OfFlight(a) {
      FlightStepApart(s, a, sku, n, m, i);
    }
  }

  // ----- exactly when a stale price gets through

  /** When the entry is deleted, some flight is on its way to store a price asked for before. */
  ghost predicate UnderWay(s: State, sku: string) {
    exists f: nat :: f < |s.flights| && s.flights[f].sku == sku && WillStore(s.flights[f].pc)
  }

  /**
    An `Invalidate` that begins at `s`, other steps, its end at place `k` of the
    pending ones, and then any steps after which call `i`, which had not begun
    when the `Invalidate` ended, has been given a price asked for before it began.
  */
  ghost predicate Stale(s: State, sku: string, i: nat, mid: seq<Action>, k: nat, rest: seq<Action>) {
    Exec(Step, Step(s, Delete(sku)).value, mid).Some? &&
    var u := Exec(Step, Step(s, Delete(sku)).value, mid).value;
    && k < |u.forgetting| && u.forgetting[k] == sku && i < |u.callers| && u.callers[i].New?
    && Exec(Step, Step(u, Forget(k)).value, rest).Some?
    && var t := Exec(Step, Step(u, Forget(k)).value, rest).value;
       i < |t.callers| && WasQuoted(t.callers[i]) && PlaceOf(t.stamps.given, i) < |s.log|
  }

  lemma NeverStale(s: State, sku: string, i: nat, mid: seq<Action>, k: nat, rest: seq<Action>)
    requires Registered(s) && !UnderWay(s, sku) && i < |s.skus| && s.skus[i] == sku
    ensures !Stale(s, sku, i, mid, k, rest)
  {
    if Stale(s, sku, i, mid, k, rest) {
      var n := |s.log|;
      var u := AfterDelete(s, sku, i, mid);
      var v := Step(u, Forget(k)).value;
      StepRenewed(u, Forget(k), sku, n);
      AfterForget(v, sku, n, i, rest);
      assert false;
    }
  }

  lemma AfterDelete(s: State, sku: string, i: nat, mid: seq<Action>) returns (u: State)
    requires Registered(s) && !UnderWay(s, sku) && i < |s.skus| && s.skus[i] == sku
    requires Exec(Step, Step(s, Delete(sku)).value, mid).Some?
    ensures u == Exec(Step, Step(s, Delete(sku)).value, mid).value
    ensures Registered(u) && Renewed(u, sku, |s.log|) && i < |u.skus| && u.skus[i] == sku
  {
    var n := |s.log|;
    var inv := (t: State) => Registered(t) && Renewed(t, sku, n) && t.skus == s.skus;
    forall t: State, a: Action | inv(t) && Step(t, a).Some? ensures inv(Step(t, a).value) {
      StepRenewed(t, a, sku, n);
      SkusStay(t, a);
    }
    Invariant(Step, inv, Step(s, Delete(sku)).value, mid);
    u := Exec(Step, Step(s, Delete(sku)).value, mid).value;
  }

  lemma SkusStay(s: State, a: Action)
    requires Step(s, a).Some?
    ensures Step(s, a).value.skus == s.skus
  {
  }

  lemma AfterForget(v: State, sku: string, n: nat, i: nat, rest: seq<Action>)
    requires Registered(v) && Renewed(v, sku, n) && sku !in v.table
    requires i < |v.callers| && v.skus[i] == sku && v.callers[i].New? && Exec(Step, v, rest).Some?
    ensures var t := Exec(Step, v, rest).value;
            i < |t.callers| && (WasQuoted(t.callers[i]) ==> n <= PlaceOf(t.stamps.given, i))
  {
    var m := |v.flights|;
    var inv := (t: State) => Registered(t) && Renewed(t, sku, n) && Apart(t, sku, n, m, i);
    forall t: State, a: Action | inv(t) && Step(t, a).Some? ensures inv(Step(t, a).value) {
      StepApart(t, a, sku, n, m, i);
    }
    Invariant(Step, inv, v, rest);
  }

  /** The flight stores its price after the `Invalidate`, and the next call finds it. */
  lemma StaleRun(s: State, sku: string, i: nat, f: nat) returns (rest: seq<Action>)
    requires Registered(s) && Honest(s) && sku != "" && i < |s.callers| && s.callers[i].New? && s.skus[i] == sku
    requires f < |s.flights| && s.flights[f].sku == sku && WillStore(s.flights[f].pc)
    ensures Stale(s, sku, i, [], |s.forgetting|, rest)
  {
    var u := Step(s, Delete(sku)).value;
    var v := Step(u, Forget(|s.forgetting|)).value;
    var run, t := StoreIt(v, sku, f);
    rest, t := Append(Step, v, run, t, FirstLookup(i));
    assert Asked(s, sku, PlaceOf(s.stamps.flight, f));
  }

  lemma StoreIt(v: State, sku: string, f: nat) returns (run: seq<Action>, t: State)
    requires f < |v.flights| && v.flights[f].sku == sku && WillStore(v.flights[f].pc)
    ensures Exec(Step, v, run) == Some(t) && t.callers == v.callers && t.skus == v.skus
    ensures sku in t.cache && PlaceOf(t.stamps.cached, sku) == PlaceOf(v.stamps.flight, f)
  {
    run, t := [], v;
    if v.flights[f].pc.Loading? {
      run, t := Append(Step, v, run, t, LoaderReturn(f, Quoted(PriceQuote(sku, "", 0, ""))));
    }
    run, t := Append(Step, v, run, t, Store(f));
  }

  /**
    A call that begins after an `Invalidate` has ended can be given a price asked
    for before it began, if and only if some flight of the key was loading or
    storing when it began: that flight goes on, forgotten, and stores its price.
    Without a call that has yet to begin there is nobody to be given one.
  */
  lemma StaleExactly(s: State, sku: string, i: nat)
    requires Registered(s) && Honest(s) && sku != "" && i < |s.callers| && s.callers[i].New? && s.skus[i] == sku
    ensures (exists j: nat, mid, k: nat, rest :: j < |s.skus| && s.skus[j] == sku && Stale(s, sku, j, mid, k, rest))
            <==> UnderWay(s, sku)
  {
    if f: nat :| f < |s.flights| && s.flights[f].sku == sku && WillStore(s.flights[f].pc) {
      var rest := StaleRun(s, sku, i, f);
    } else {
      forall j: nat, mid, k: nat, rest | j < |s.skus| && s.skus[j] == sku ensures !Stale(s, sku, j, mid, k, rest) {
        NeverStale(s, sku, j, mid, k, rest);
      }
    }
  }

  lemma LoadThenInvalidate(sku: string) returns (run: seq<Action>, t: State)
    requires sku != ""
    ensures Exec(Step, Init([sku, sku]), run) == Some(t) && |t.callers| == 2 && t.callers[1].New? && t.cache == map[]
    ensures t.flights == [Flight(sku, false, Loading)] && t.skus == [sku, sku]
    ensures t.log == [LoaderCalled(sku), Deleted(sku), Forgotten(sku)]
  {
    var s := Init([sku, sku]);
    run, t := Append(Step, s, [], s, FirstLookup(0));
    run, t := Append(Step, s, run, t, Join(0));
    run, t := Append(Step, s, run, t, SecondLookup(0));
    run, t := Append(Step, s, run, t, Delete(sku));
    run, t := Append(Step, s, run, t, Forget(0));
  }

  /**
    And it does happen: the only loader call comes before the `Invalidate`, and a
    call that has not begun when it has ended gets the price all the same.
  */
  lemma StaleAfterInvalidate(sku: string, quote: PriceQuote)
    returns (before: seq<Action>, u: State, after: seq<Action>, t: State)
    requires sku != ""
    ensures Exec(Step, Init([sku, sku]), before) == Some(u) && |u.callers| == 2 && u.callers[1].New?
    ensures u.log == [LoaderCalled(sku), Deleted(sku), Forgotten(sku)]
    ensures Exec(Step, u, after) == Some(t) && |t.callers| == 2 && t.callers[1] == Returned(Got(Quoted(quote)))
    ensures t.log == u.log + [LoaderReturned(sku, quote)]
  {
    before, u := LoadThenInvalidate(sku);
    after, t := Append(Step, u, [], u, LoaderReturn(0, Quoted(quote)));
    after, t := Append(Step, u, after, t, Store(0));
    after, t := Append(Step, u, after, t, FirstLookup(1));
  }
}
