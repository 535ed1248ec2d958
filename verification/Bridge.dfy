/**
  `Bridge` flattens a channel of channels. Its goroutine takes the next stream,
  starts an `OrDone` on it and forwards what comes; a feeder offers the streams
  one by one, as `MergeTenantFeeds` does, and closes when it has offered them all
  or the context is over.
*/
module BridgeCombinator {
  import opened Wrappers
  import opened Folds
  import opened Runs
  import opened Permutations
  import opened OrDoneStage

  datatype BridgePc<T> = Outer | Inner | Emitting(value: T) | Gone

  datatype State<T> = State(
    streams: seq<seq<T>>,
    next: nat,
    fed: bool,
    cancelled: bool,
    bridge: BridgePc<T>,
    ordone: OrDone<T>,
    pos: nat,
    parts: seq<seq<T>>)

  datatype Action =
    | Cancel
    | Offer
    | FeederExit
    | OuterClosed
    | OuterQuit
    | Recv
    | StreamClosed
    | OrDoneQuit
    | Pass
    | InnerEnd
    | Emit
    | EmitQuit

  function Init<T>(streams: seq<seq<T>>): State<T> {
    State(streams, 0, false, false, Outer, Closed, 0, [])
  }

  /** The stream being drained. */
  function Current<T>(s: State<T>): seq<T> { if 0 < s.next <= |s.streams| then s.streams[s.next - 1] else [] }

  function Step<T>(s: State<T>, a: Action): Option<State<T>> {
    match a
    case Cancel => if s.cancelled then None else Some(s.(cancelled := true))
    case Offer =>
      if s.bridge.Outer? && !s.fed && s.next < |s.streams|
      then Some(s.(next := s.next + 1, bridge := Inner, ordone := Reading, pos := 0, parts := s.parts + [[]]))
      else None
    case FeederExit =>
      if !s.fed && (s.next >= |s.streams| || s.cancelled) then Some(s.(fed := true)) else None
    case OuterClosed => if s.bridge.Outer? && s.fed then Some(s.(bridge := Gone)) else None
    case OuterQuit => if s.bridge.Outer? && s.cancelled then Some(s.(bridge := Gone)) else None
    case Recv =>
      if s.ordone.Reading? && s.pos < |Current(s)|
      then Some(s.(ordone := Holding(Current(s)[s.pos]), pos := s.pos + 1)) else None
    case StreamClosed =>
      if s.ordone.Reading? && s.pos >= |Current(s)| then Some(s.(ordone := Closed)) else None
    case OrDoneQuit =>
      if !s.ordone.Closed? && s.cancelled then Some(s.(ordone := Closed)) else None
    case Pass =>
      if s.ordone.Holding? && s.bridge.Inner?
      then Some(s.(bridge := Emitting(s.ordone.value), ordone := Reading)) else None
    case InnerEnd =>
      if s.bridge.Inner? && s.ordone.Closed? then Some(s.(bridge := Outer)) else None
    case Emit =>
      if s.bridge.Emitting? && s.parts != []
      then
        var last := |s.parts| - 1;
        Some(s.(bridge := Inner, parts := s.parts[last := s.parts[last] + [s.bridge.value]]))
      else None
    case EmitQuit => if s.bridge.Emitting? && s.cancelled then Some(s.(bridge := Gone)) else None
  }

  function Flatten<T>(parts: seq<seq<T>>): seq<T> {
    if parts == [] then [] else parts[0] + Flatten(parts[1..])
  }

  /** What the consumer has received. */
  function Output<T>(s: State<T>): seq<T> { Flatten(s.parts) }

  // ----- the invariant

  ghost predicate Parts<T>(s: State<T>) {
    && |s.parts| == s.next <= |s.streams|
    && (forall j :: 0 <= j < s.next ==> s.parts[j] <= s.streams[j])
    && (!s.cancelled ==> forall j :: 0 <= j < s.next - 1 ==> s.parts[j] == s.streams[j])
    && (!s.cancelled && s.next > 0 && (s.bridge.Outer? || s.bridge.Gone?) ==>
          s.parts[s.next - 1] == s.streams[s.next - 1])
  }

  ghost predicate Flow<T>(s: State<T>)
    requires Parts(s)
  {
    && (s.next == 0 ==> (s.bridge.Outer? || s.bridge.Gone?) && s.ordone.Closed?)
    && s.pos <= |Current(s)|
    && (s.bridge.Outer? ==> s.ordone.Closed?)
    && (s.ordone.Holding? ==> 0 < s.pos && s.ordone.value == Current(s)[s.pos - 1])
    && (s.bridge.Emitting? ==>
          |s.parts[s.next - 1]| < |Current(s)| && s.bridge.value == Current(s)[|s.parts[s.next - 1]|])
    && ((s.bridge.Inner? || s.bridge.Emitting?) && (!s.ordone.Closed? || !s.cancelled) ==>
          s.pos == |s.parts[s.next - 1]| + Bit(s.bridge.Emitting?) + InFlight(s.ordone))
    && (!s.cancelled && s.ordone.Closed? ==> s.pos == |Current(s)|)
    && (!s.cancelled && s.fed ==> s.next == |s.streams|)
    && (!s.cancelled && s.bridge.Gone? ==> s.fed && s.ordone.Closed?)
  }

  ghost predicate Inv<T>(s: State<T>) { Parts(s) && Flow(s) }

  lemma OfferInv<T>(s: State<T>)
    requires Inv(s) && Step(s, Offer).Some?
    ensures Inv(Step(s, Offer).value)
  {
  }

  lemma EmitInv<T>(s: State<T>)
    requires Inv(s) && Step(s, Emit).Some?
    ensures Inv(Step(s, Emit).value)
  {
  }

  lemma OrDoneInv<T>(s: State<T>, a: Action)
    requires Inv(s) && (a.Recv? || a.StreamClosed? || a.OrDoneQuit?) && Step(s, a).Some?
    ensures Inv(Step(s, a).value)
  {
  }

  lemma RangeInv<T>(s: State<T>, a: Action)
    requires Inv(s) && (a.Pass? || a.InnerEnd?) && Step(s, a).Some?
    ensures Inv(Step(s, a).value)
  {
  }

  lemma EndingInv<T>(s: State<T>, a: Action)
    requires Inv(s) && Step(s, a).Some?
    requires a.Cancel? || a.FeederExit? || a.OuterClosed? || a.OuterQuit? || a.EmitQuit?
    ensures Inv(Step(s, a).value)
  {
  }

  lemma StepInv<T>(s: State<T>, a: Action)
    requires Inv(s) && Step(s, a).Some?
    ensures Inv(Step(s, a).value) && Step(s, a).value.streams == s.streams
  {
    if a.Offer? {
      OfferInv(s);
    } else if a.Emit? {
      EmitInv(s);
    } else if a.Recv? || a.StreamClosed? || a.OrDoneQuit? {
      OrDoneInv(s, a);
    } else if a.Pass? || a.InnerEnd? {
      RangeInv(s, a);
    } else {
      EndingInv(s, a);
    }
  }

  // ----- what the consumer sees

  lemma {:induction false} FlattenConcat<T>(a: seq<seq<T>>, b: seq<seq<T>>)
    ensures Flatten(a + b) == Flatten(a) + Flatten(b)
  {
    if a == [] {
      assert a + b == b;
    } else {
      assert (a + b)[1..] == a[1..] + b;
      FlattenConcat(a[1..], b);
    }
  }

  /** Each part is a prefix of its stream, and nothing is emitted after a stream cut short. */
  ghost predicate GapFree<T>(parts: seq<seq<T>>, streams: seq<seq<T>>)
    requires |parts| <= |streams|
  {
    forall j, k :: 0 <= j < k < |parts| && parts[j] != streams[j] ==> parts[k] == []
  }

  ghost predicate PartsOf<T>(parts: seq<seq<T>>, streams: seq<seq<T>>) {
    |parts| <= |streams| && forall j :: 0 <= j < |parts| ==> parts[j] <= streams[j]
  }

  lemma {:induction false} NothingEmitted<T>(parts: seq<seq<T>>)
    requires forall k :: 0 <= k < |parts| ==> parts[k] == []
    ensures Flatten(parts) == []
  {
    if parts != [] {
      NothingEmitted(parts[1..]);
    }
  }

  lemma {:induction false} GapFreeIsPrefix<T>(parts: seq<seq<T>>, streams: seq<seq<T>>)
    requires PartsOf(parts, streams) && GapFree(parts, streams)
    ensures Flatten(parts) <= Flatten(streams)
  {
    if parts != [] {
      if parts[0] == streams[0] {
        GapFreeIsPrefix(parts[1..], streams[1..]);
      } else {
        NothingEmitted(parts[1..]);
      }
    }
  }

  lemma {:induction false} EmittedFrom<T>(parts: seq<seq<T>>, streams: seq<seq<T>>, x: T)
    requires PartsOf(parts, streams) && x in Flatten(parts)
    ensures x in Flatten(streams)
  {
    if x !in parts[0] {
      EmittedFrom(parts[1..], streams[1..], x);
    }
  }

  lemma Apart<T>(s: seq<T>, t: seq<T>, k: nat, x: T)
    requires Distinct(s + t) && k < |s| && x in t
    ensures s[k] != x
  {
    var i :| 0 <= i < |t| && t[i] == x;
    assert (s + t)[k] != (s + t)[|s| + i];
  }

  lemma TailPrefix<T>(first: seq<T>, rest: seq<T>, more: seq<T>)
    requires first + rest <= first + more
    ensures rest <= more
  {
    forall i | 0 <= i < |rest| ensures rest[i] == more[i] {
      assert (first + rest)[|first| + i] == (first + more)[|first| + i];
    }
  }

  lemma TailDistinct<T>(first: seq<T>, rest: seq<T>)
    requires Distinct(first + rest)
    ensures Distinct(rest)
  {
    forall i, j | 0 <= i < j < |rest| ensures rest[i] != rest[j] {
      assert (first + rest)[|first| + i] != (first + rest)[|first| + j];
    }
  }

  /** What is emitted behind a cut would be both in the stream cut short and in a later one. */
  lemma CutIsNoPrefix<T>(cut: seq<T>, rest: seq<T>, stream: seq<T>, later: seq<T>)
    requires cut <= stream && cut != stream && rest != [] && rest[0] in later && Distinct(stream + later)
    ensures !(cut + rest <= stream + later)
  {
    Apart(stream, later, |cut|, rest[0]);
    assert (cut + rest)[|cut|] == rest[0] && (stream + later)[|cut|] == stream[|cut|];
  }

  lemma {:induction false} PrefixIsGapFree<T>(parts: seq<seq<T>>, streams: seq<seq<T>>)
    requires PartsOf(parts, streams) && Distinct(Flatten(streams)) && Flatten(parts) <= Flatten(streams)
    ensures GapFree(parts, streams)
  {
    if parts != [] {
      var rest, later := Flatten(parts[1..]), Flatten(streams[1..]);
      if parts[0] == streams[0] {
        TailPrefix(parts[0], rest, later);
        TailDistinct(parts[0], later);
        PrefixIsGapFree(parts[1..], streams[1..]);
      } else {
        if rest != [] {
          EmittedFrom(parts[1..], streams[1..], rest[0]);
          CutIsNoPrefix(parts[0], rest, streams[0], later);
          assert false;
        }
        EmptyFlatten(parts[1..]);
      }
    }
  }

  lemma {:induction false} EmptyFlatten<T>(parts: seq<seq<T>>)
    requires Flatten(parts) == []
    ensures forall k :: 0 <= k < |parts| ==> parts[k] == []
  {
    if parts != [] {
      EmptyFlatten(parts[1..]);
    }
  }

  /**
    In every run the output is a concatenation of prefixes, one of each stream
    taken, in order. Until cancellation it is a prefix of the whole
    concatenation, and a `Bridge` that ends uncancelled has emitted all of it.
  */
  lemma EveryRun<T(!new)>(streams: seq<seq<T>>, run: seq<Action>)
    requires Exec(Step, Init(streams), run).Some?
    ensures var s := Exec(Step, Init(streams), run).value;
            && Inv(s) && s.streams == streams && PartsOf(s.parts, streams)
            && (!s.cancelled ==> Output(s) <= Flatten(streams))
            && (!s.cancelled && s.bridge.Gone? ==> Output(s) == Flatten(streams))
  {
    var inv := (s: State<T>) => Inv(s) && s.streams == streams;
    forall s: State<T>, a: Action | inv(s) && Step(s, a).Some? ensures inv(Step(s, a).value) {
      StepInv(s, a);
    }
    Invariant(Step<T>, inv, Init(streams), run);
    WholeUncancelled(Exec(Step, Init(streams), run).value);
  }

  lemma WholeUncancelled<T>(s: State<T>)
    requires Inv(s)
    ensures PartsOf(s.parts, s.streams)
    ensures !s.cancelled ==> Output(s) <= Flatten(s.streams)
    ensures !s.cancelled && s.bridge.Gone? ==> Output(s) == Flatten(s.streams)
  {
    if !s.cancelled {
      GapFreeIsPrefix(s.parts, s.streams);
      if s.bridge.Gone? {
        assert s.parts == s.streams;
      }
    }
  }

  /**
    After cancellation the plain prefix claim holds exactly when nothing was
    emitted after a stream that was cut short: given items that can be told
    apart, the two are the same.
  */
  lemma PrefixExactlyWhenGapFree<T(!new)>(streams: seq<seq<T>>, run: seq<Action>)
    requires Exec(Step, Init(streams), run).Some? && Distinct(Flatten(streams))
    ensures var s := Exec(Step, Init(streams), run).value;
            PartsOf(s.parts, streams) && (Output(s) <= Flatten(streams) <==> GapFree(s.parts, streams))
  {
    EveryRun(streams, run);
    var s := Exec(Step, Init(streams), run).value;
    if GapFree(s.parts, streams) {
      GapFreeIsPrefix(s.parts, streams);
    }
    if Output(s) <= Flatten(streams) {
      PrefixIsGapFree(s.parts, streams);
    }
  }

  // ----- when the plain prefix claim holds

  /** The stream being drained, up to `c` items of it. */
  lemma {:induction false} Drain<T(!new)>(s0: State<T>, run0: seq<Action>, s: State<T>, c: nat)
    returns (run: seq<Action>, t: State<T>)
    requires Exec(Step, s0, run0) == Some(s) && s.bridge.Inner? && s.ordone.Reading?
    requires 0 < s.next == |s.parts| <= |s.streams| && s.pos <= c <= |Current(s)|
    requires s.parts[s.next - 1] == Current(s)[..s.pos]
    ensures Exec(Step, s0, run) == Some(t)
    ensures t == s.(pos := c, parts := s.parts[s.next - 1 := Current(s)[..c]])
    decreases c - s.pos
  {
    if s.pos == c {
      run, t := run0, s;
      assert s.parts == s.parts[s.next - 1 := Current(s)[..c]];
    } else {
      run, t := DrainOne(s0, run0, s);
      run, t := Drain(s0, run, t, c);
      assert t.parts == s.parts[s.next - 1 := Current(s)[..c]];
    }
  }

  lemma DrainOne<T(!new)>(s0: State<T>, run0: seq<Action>, s: State<T>) returns (run: seq<Action>, t: State<T>)
    requires Exec(Step, s0, run0) == Some(s) && s.bridge.Inner? && s.ordone.Reading?
    requires 0 < s.next == |s.parts| <= |s.streams| && s.pos < |Current(s)|
    requires s.parts[s.next - 1] == Current(s)[..s.pos]
    ensures Exec(Step, s0, run) == Some(t)
    ensures t == s.(pos := s.pos + 1, parts := s.parts[s.next - 1 := Current(s)[..s.pos + 1]])
  {
    run, t := Append(Step, s0, run0, s, Recv);
    run, t := Append(Step, s0, run, t, Pass);
    run, t := Append(Step, s0, run, t, Emit);
    assert Current(s)[..s.pos] + [Current(s)[s.pos]] == Current(s)[..s.pos + 1];
  }

  /** Between two streams, with more to be offered. */
  ghost predicate Between<T>(s: State<T>) {
    s.bridge.Outer? && s.ordone.Closed? && !s.fed && s.next == |s.parts| <= |s.streams|
  }

  /** The next stream taken and emitted whole, cancelled or not. */
  lemma TakeWhole<T(!new)>(s0: State<T>, run0: seq<Action>, s: State<T>) returns (run: seq<Action>, t: State<T>)
    requires Exec(Step, s0, run0) == Some(s) && Between(s) && s.next < |s.streams|
    ensures Exec(Step, s0, run) == Some(t) && Between(t)
    ensures t.streams == s.streams && t.next == s.next + 1 && t.cancelled == s.cancelled
    ensures t.parts == s.parts + [s.streams[s.next]]
  {
    run, t := Append(Step, s0, run0, s, Offer);
    run, t := Drain(s0, run, t, |s.streams[s.next]|);
    assert s.streams[s.next][..|s.streams[s.next]|] == s.streams[s.next];
    assert t.parts == s.parts + [s.streams[s.next]];
    run, t := Append(Step, s0, run, t, StreamClosed);
    run, t := Append(Step, s0, run, t, InnerEnd);
  }

  lemma {:induction false} TakeTo<T(!new)>(s0: State<T>, run0: seq<Action>, s: State<T>, m: nat)
    returns (run: seq<Action>, t: State<T>)
    requires Exec(Step, s0, run0) == Some(s) && Between(s) && s.next <= m <= |s.streams|
    ensures Exec(Step, s0, run) == Some(t) && Between(t)
    ensures t.streams == s.streams && t.next == m && t.cancelled == s.cancelled
    ensures t.parts == s.parts + s.streams[s.next..m]
    decreases m - s.next
  {
    if s.next == m {
      run, t := run0, s;
    } else {
      run, t := TakeWhole(s0, run0, s);
      run, t := TakeTo(s0, run, t, m);
      assert s.streams[s.next..m] == [s.streams[s.next]] + s.streams[s.next + 1..m];
    }
  }

  /** The next stream cut short after `c` items, one more lost in flight when the cancellation comes. */
  lemma CutShort<T(!new)>(s0: State<T>, run0: seq<Action>, s: State<T>, c: nat)
    returns (run: seq<Action>, t: State<T>)
    requires Exec(Step, s0, run0) == Some(s) && Between(s) && !s.cancelled
    requires s.next < |s.streams| && c < |s.streams[s.next]|
    ensures Exec(Step, s0, run) == Some(t) && Between(t)
    ensures t.streams == s.streams && t.next == s.next + 1
    ensures t.parts == s.parts + [s.streams[s.next][..c]]
  {
    run, t := Append(Step, s0, run0, s, Offer);
    run, t := Drain(s0, run, t, c);
    run, t := Append(Step, s0, run, t, Recv);
    run, t := Append(Step, s0, run, t, Cancel);
    run, t := Append(Step, s0, run, t, OrDoneQuit);
    run, t := Append(Step, s0, run, t, InnerEnd);
  }

  /** Any stream can be cut short anywhere, and all that come after it still be taken and emitted whole. */
  lemma CutRun<T(!new)>(streams: seq<seq<T>>, j: nat, c: nat) returns (run: seq<Action>, t: State<T>)
    requires j < |streams| && c < |streams[j]|
    ensures Exec(Step, Init(streams), run) == Some(t)
    ensures Output(t) == Flatten(streams[..j]) + streams[j][..c] + Flatten(streams[j + 1..])
  {
    var s := Init(streams);
    run, t := TakeTo(s, [], s, j);
    run, t := CutShort(s, run, t, c);
    run, t := TakeTo(s, run, t, |streams|);
    assert t.parts == streams[..j] + [streams[j][..c]] + streams[j + 1..];
    FlattenConcat(streams[..j] + [streams[j][..c]], streams[j + 1..]);
    FlattenConcat(streams[..j], [streams[j][..c]]);
    FlattenOne(streams[j][..c]);
  }

  lemma FlattenOne<T>(a: seq<T>)
    ensures Flatten([a]) == a
  {
    assert [a][1..] == [];
  }

  /** No two streams have anything in them. */
  predicate OneFeed<T(==)>(streams: seq<seq<T>>) {
    forall j, k :: 0 <= j < k < |streams| ==> streams[j] == [] || streams[k] == []
  }

  /** All items are the same. */
  predicate Alike<T(==)>(items: seq<T>) { forall i, j :: 0 <= i < j < |items| ==> items[i] == items[j] }

  /** If cutting `first` anywhere still gives a prefix, every item is the one behind the cut. */
  lemma {:induction false} AlikeTo<T>(first: seq<T>, rest: seq<T>, p: nat)
    requires rest != [] && p < |first + rest| && forall c :: 0 <= c < |first| ==> first[..c] + rest <= first + rest
    requires first != []
    ensures (first + rest)[p] == rest[0]
  {
    if p < |first| {
      assert first[..p] + rest <= first + rest;
      assert (first[..p] + rest)[p] == rest[0];
    } else if p > |first| {
      var c := |first| - 1;
      AlikeTo(first, rest, p - 1);
      assert first[..c] + rest <= first + rest;
      assert (first[..c] + rest)[p - 1] == rest[p - |first|];
    }
  }

  lemma {:induction false} FlattenNonEmpty<T>(parts: seq<seq<T>>, k: nat)
    requires k < |parts| && parts[k] != []
    ensures Flatten(parts) != []
  {
    if k > 0 {
      FlattenNonEmpty(parts[1..], k - 1);
    }
  }

  lemma {:induction false} FirstInUse<T>(streams: seq<seq<T>>, i: nat) returns (j: nat)
    requires i < |streams| && streams[i] != []
    ensures j <= i && streams[j] != [] && forall k :: 0 <= k < j ==> streams[k] == []
    decreases i
  {
    if k: nat :| k < i && streams[k] != [] {
      j := FirstInUse(streams, k);
    } else {
      j := i;
    }
  }

  lemma FirstFeed<T>(streams: seq<seq<T>>) returns (j: nat)
    requires !OneFeed(streams)
    ensures j < |streams| && streams[j] != [] && Flatten(streams[..j]) == [] && Flatten(streams[j + 1..]) != []
    ensures Flatten(streams) == streams[j] + Flatten(streams[j + 1..])
  {
    var i, k :| 0 <= i < k < |streams| && streams[i] != [] && streams[k] != [];
    j := FirstInUse(streams, i);
    assert streams[j + 1..][k - j - 1] == streams[k];
    FlattenNonEmpty(streams[j + 1..], k - j - 1);
    FlattenFrom(streams, j);
  }

  lemma FlattenFrom<T>(streams: seq<seq<T>>, j: nat)
    requires j < |streams| && forall k :: 0 <= k < j ==> streams[k] == []
    ensures Flatten(streams[..j]) == [] && Flatten(streams) == streams[j] + Flatten(streams[j + 1..])
  {
    var before, after := streams[..j], streams[j..];
    NothingEmitted(before);
    assert streams == before + after && after[1..] == streams[j + 1..];
    FlattenConcat(before, after);
    assert Flatten(after) == streams[j] + Flatten(streams[j + 1..]);
  }

  /**
    With two feeds in use and items that differ, it does fail: cancelled while a
    value is in flight, `Bridge` may still take and emit the streams that follow.
  */
  lemma PrefixCanFail<T(!new)>(streams: seq<seq<T>>) returns (run: seq<Action>, t: State<T>)
    requires !OneFeed(streams) && !Alike(Flatten(streams))
    ensures Exec(Step, Init(streams), run) == Some(t) && !(Output(t) <= Flatten(streams))
  {
    var j := FirstFeed(streams);
    var first, rest := streams[j], Flatten(streams[j + 1..]);
    if forall c :: 0 <= c < |first| ==> first[..c] + rest <= first + rest {
      forall p | 0 <= p < |first + rest| ensures (first + rest)[p] == rest[0] {
        AlikeTo(first, rest, p);
      }
      assert false;
    }
    var c :| 0 <= c < |first| && !(first[..c] + rest <= first + rest);
    run, t := CutRun(streams, j, c);
    assert [] + first[..c] == first[..c];
  }

  /** With one feed in use nothing can follow a cut, and items all alike cannot be told apart. */
  lemma PrefixHolds<T>(parts: seq<seq<T>>, streams: seq<seq<T>>)
    requires PartsOf(parts, streams) && (OneFeed(streams) || Alike(Flatten(streams)))
    ensures Flatten(parts) <= Flatten(streams)
  {
    if OneFeed(streams) {
      GapFreeIsPrefix(parts, streams);
    } else {
      var out, whole := Flatten(parts), Flatten(streams);
      NotLonger(parts, streams);
      forall i | 0 <= i < |out| ensures out[i] == whole[i] {
        EmittedFrom(parts, streams, out[i]);
        var p :| 0 <= p < |whole| && whole[p] == out[i];
      }
    }
  }

  lemma {:induction false} NotLonger<T>(parts: seq<seq<T>>, streams: seq<seq<T>>)
    requires PartsOf(parts, streams)
    ensures |Flatten(parts)| <= |Flatten(streams)|
  {
    if parts != [] {
      NotLonger(parts[1..], streams[1..]);
    }
  }

  /**
    Whatever the interleaving and the moment of cancellation, the output is a
    prefix of the concatenation, if and only if no two streams have anything in
    them or all items are the same.
  */
  lemma PrefixHoldsExactly<T(!new)>(streams: seq<seq<T>>)
    ensures (forall run :: Exec(Step, Init(streams), run).Some? ==>
               Output(Exec(Step, Init(streams), run).value) <= Flatten(streams))
            <==> OneFeed(streams) || Alike(Flatten(streams))
  {
    if OneFeed(streams) || Alike(Flatten(streams)) {
      forall run | Exec(Step, Init(streams), run).Some?
        ensures Output(Exec(Step, Init(streams), run).value) <= Flatten(streams)
      {
        EveryRun(streams, run);
        PrefixHolds(Exec(Step, Init(streams), run).value.parts, streams);
      }
    } else {
      var run, t := PrefixCanFail(streams);
    }
  }

  // ----- teardown

  ghost predicate AllGone<T>(s: State<T>) { s.bridge.Gone? && s.ordone.Closed? && s.fed }

  /** Steps that need neither a producer's values nor a consumer. */
  predicate Alone(a: Action) { a.OrDoneQuit? || a.InnerEnd? || a.OuterQuit? || a.EmitQuit? || a.FeederExit? }

  function Left<T>(s: State<T>): nat {
    Bit(!s.ordone.Closed?) + Bit(!s.fed) + match s.bridge case Gone => 0 case Inner => 2 case _ => 1
  }

  lemma AloneCanMove<T>(s: State<T>) returns (a: Action)
    requires s.cancelled && !AllGone(s)
    ensures Alone(a) && Step(s, a).Some?
  {
    a := if !s.ordone.Closed? then OrDoneQuit
    else if !s.fed then FeederExit
    else
      match s.bridge
      case Outer => OuterQuit
      case Inner => InnerEnd
      case _ => EmitQuit;
  }

  lemma AloneLowersLeft<T>(s: State<T>, a: Action)
    requires s.cancelled && Alone(a) && Step(s, a).Some?
    ensures Step(s, a).value.cancelled && Left(Step(s, a).value) < Left(s)
  {
  }

  /** After cancellation every goroutine ends by itself, in at most four steps, even if nobody ever reads. */
  lemma Teardown<T(!new)>(s: State<T>) returns (run: seq<Action>)
    requires s.cancelled
    ensures Exec(Step, s, run).Some? && AllGone(Exec(Step, s, run).value)
    ensures |run| <= 4 && forall i :: 0 <= i < |run| ==> Alone(run[i])
  {
    forall t: State<T> | t.cancelled && !AllGone(t) ensures exists a :: Alone(a) && Step(t, a).Some? {
      var a := AloneCanMove(t);
    }
    forall t: State<T>, a: Action | t.cancelled && Alone(a) && Step(t, a).Some?
      ensures Step(t, a).value.cancelled && Left(Step(t, a).value) < Left(t)
    {
      AloneLowersLeft(t, a);
    }
    run := Reaches(Step<T>, Alone, (t: State<T>) => t.cancelled, Left<T>, (t: State<T>) => AllGone(t), s);
  }

  /** With a producer and a consumer willing, somebody can move until every goroutine is gone. */
  lemma Progress<T>(s: State<T>) returns (a: Action)
    requires Inv(s) && !AllGone(s)
    ensures !a.Cancel? && Step(s, a).Some?
  {
    match s.bridge
    case Outer =>
      a := if s.fed then OuterClosed else if s.next < |s.streams| then Offer else FeederExit;
    case Inner =>
      match s.ordone {
        case Reading => a := if s.pos < |Current(s)| then Recv else StreamClosed;
        case Holding(_) => a := Pass;
        case Closed => a := InnerEnd;
      }
    case Emitting(_) => a := Emit;
    case Gone => a := if !s.fed then FeederExit else OrDoneQuit;
  }

  function Ahead<T>(stream: seq<T>): nat { 5 * |stream| + 3 }

  function Rank<T>(s: State<T>): nat {
    (if s.next <= |s.streams| then Sum(s.streams[s.next..], Ahead) else 0)
    + (if s.pos <= |Current(s)| then 5 * (|Current(s)| - s.pos) else 0)
    + Weight(s.ordone) + Bit(!s.fed) + Bit(!s.cancelled)
    + match s.bridge case Outer => 1 case Inner => 2 case Emitting(_) => 3 case Gone => 0
  }

  lemma StepLowersRank<T>(s: State<T>, a: Action)
    requires Inv(s) && Step(s, a).Some?
    ensures Rank(Step(s, a).value) < Rank(s)
  {
  }

  lemma InitRank<T>(streams: seq<seq<T>>)
    ensures Rank(Init(streams)) == Sum(streams, Ahead) + 3
  {
    assert streams[0..] == streams;
  }

  lemma RunBounded<T(!new)>(s0: State<T>, run: seq<Action>)
    requires Inv(s0) && Exec(Step, s0, run).Some?
    ensures |run| <= Rank(s0)
  {
    forall s: State<T>, a: Action | Inv(s) && Step(s, a).Some?
      ensures Inv(Step(s, a).value) && Rank(Step(s, a).value) < Rank(s)
    {
      StepInv(s, a);
      StepLowersRank(s, a);
    }
    Bounded(Step<T>, s => Inv(s), Rank<T>, s0, run);
  }

  // ----- merging tenant feeds

  datatype FeedItem = FeedItem(tenantId: string, offset: int, kind: string)

  /** Nothing can move, short of a cancellation. */
  ghost predicate Stuck<T>(s: State<T>) { forall a: Action :: a != Cancel ==> Step(s, a).None? }

  lemma StuckMeansGone<T>(s: State<T>)
    requires Inv(s) && Stuck(s)
    ensures AllGone(s)
  {
    if !AllGone(s) {
      var a := Progress(s);
      assert false;
    }
  }

  lemma NotCancelled<T(!new)>(streams: seq<seq<T>>, run: seq<Action>)
    requires Exec(Step, Init(streams), run).Some? && forall i :: 0 <= i < |run| ==> run[i] != Cancel
    ensures !Exec(Step, Init(streams), run).value.cancelled
  {
    InvariantOnly(Step<T>, a => a != Cancel, (s: State<T>) => !s.cancelled, Init(streams), run);
  }

  /**
    `MergeTenantFeeds`, not cancelled and with a consumer that reads on: every
    run is finite, and one that cannot be extended has yielded the feeds one
    after the other, each in order and whole.
  */
  lemma MergeTenantFeeds(feeds: seq<seq<FeedItem>>, run: seq<Action>)
    requires Exec(Step, Init(feeds), run).Some?
    requires forall i :: 0 <= i < |run| ==> run[i] != Cancel
    ensures |run| <= Sum(feeds, Ahead) + 3
    ensures var s := Exec(Step, Init(feeds), run).value;
            && Output(s) <= Flatten(feeds)
            && (Stuck(s) ==> AllGone(s) && Output(s) == Flatten(feeds))
  {
    EveryRun(feeds, run);
    InitRank(feeds);
    RunBounded(Init(feeds), run);
    NotCancelled(feeds, run);
    var s := Exec(Step, Init(feeds), run).value;
    if Stuck(s) {
      StuckMeansGone(s);
    }
  }

  // ----- the goroutines

  /** `Bridge` with the `OrDone` it runs at the moment and the feeder behind it. */
  class BridgeGoroutines<T(!new)> {
    const streams: seq<seq<T>>
    var next: nat
    var fed: bool
    var cancelled: bool
    var bridge: BridgePc<T>
    var ordone: OrDone<T>
    var pos: nat
    var parts: seq<seq<T>>

    ghost function Abs(): State<T>
      reads this
    {
      State(streams, next, fed, cancelled, bridge, ordone, pos, parts)
    }

    constructor (streams: seq<seq<T>>)
      ensures Abs() == Init(streams)
    {
      this.streams, next, fed, cancelled := streams, 0, false, false;
      bridge, ordone, pos, parts := Outer, Closed, 0, [];
    }

    predicate FeederReady()
      reads this
    {
      !fed && (next >= |streams| || cancelled)
    }

    /** The feeder's end; its offers are steps of `Bridge` as well. */
    method FeederStep() returns (ghost a: Action)
      requires FeederReady()
      modifies this
      ensures a == FeederExit && Step(old(Abs()), a) == Some(Abs())
    {
      a := FeederExit;
      fed := true;
    }

    predicate OuterReady()
      reads this
    {
      bridge.Outer? && (cancelled || fed || next < |streams|)
    }

    /** The outer select: the next stream, its end, or cancellation. */
    method OuterStep() returns (ghost a: Action)
      requires OuterReady()
      modifies this
      ensures a in {Offer, OuterClosed, OuterQuit} && Step(old(Abs()), a) == Some(Abs())
    {
      if
      case cancelled =>
        a := OuterQuit;
        bridge := Gone;
      case fed =>
        a := OuterClosed;
        bridge := Gone;
      case !fed && next < |streams| =>
        a := Offer;
        next := next + 1;
        parts := parts + [[]];
        ordone, pos := Reading, 0;
        bridge := Inner;
    }

    predicate InnerReady()
      reads this
    {
      (bridge.Inner? && !ordone.Reading?) || (bridge.Emitting? && parts != [])
    }

    /** The range over `OrDone`'s output and the select that forwards a value. */
    method InnerStep() returns (ghost a: Action)
      requires InnerReady()
      modifies this
      ensures a in {Pass, InnerEnd, Emit, EmitQuit} && Step(old(Abs()), a) == Some(Abs())
    {
      if bridge.Inner? {
        if ordone.Holding? {
          a := Pass;
          bridge := Emitting(ordone.value);
          ordone := Reading;
        } else {
          a := InnerEnd;
          bridge := Outer;
        }
      } else {
        if {
          case cancelled =>
            a := EmitQuit;
            bridge := Gone;
          case true =>
            a := Emit;
            var last := |parts| - 1;
            parts := parts[last := parts[last] + [bridge.value]];
            bridge := Inner;
        }
      }
    }

    predicate OrDoneReady()
      reads this
    {
      0 < next <= |streams| && (ordone.Reading? || (ordone.Holding? && cancelled))
    }

    /** The `OrDone` of the current stream. */
    method OrDoneStep() returns (ghost a: Action)
      requires OrDoneReady()
      modifies this
      ensures a in {Recv, StreamClosed, OrDoneQuit} && Step(old(Abs()), a) == Some(Abs())
    {
      var stream := streams[next - 1];
      if
      case cancelled =>
        a := OrDoneQuit;
        ordone := Closed;
      case ordone.Reading? && pos < |stream| =>
        a := Recv;
        ordone := Holding(stream[pos]);
        pos := pos + 1;
      case ordone.Reading? && pos >= |stream| =>
        a := StreamClosed;
        ordone := Closed;
    }

    method CancelContext() returns (ghost a: Action)
      requires !cancelled
      modifies this
      ensures a == Cancel && Step(old(Abs()), a) == Some(Abs())
    {
      a := Cancel;
      cancelled := true;
    }

    predicate Ready()
      reads this
    {
      FeederReady() || OuterReady() || InnerReady() || OrDoneReady()
    }

    /** The guards miss no step. */
    lemma GuardsMissNothing()
      requires Inv(Abs())
      ensures !Ready() ==> Stuck(Abs())
    {
    }

    /** One turn of any goroutine that is not blocked or, if it may end, of the context. */
    method Turn(contextEnds: bool) returns (ghost a: Action)
      requires Inv(Abs()) && Ready()
      modifies this
      ensures (a == Cancel ==> contextEnds) && Step(old(Abs()), a) == Some(Abs())
      ensures Inv(Abs()) && Rank(Abs()) < old(Rank(Abs()))
    {
      ghost var s := Abs();
      if {
        case FeederReady() => a := FeederStep();
        case OuterReady() => a := OuterStep();
        case InnerReady() => a := InnerStep();
        case OrDoneReady() => a := OrDoneStep();
        case contextEnds && !cancelled => a := CancelContext();
      }
      StepInv(s, a);
      StepLowersRank(s, a);
    }
  }

  /**
    `Bridge` between the feeder and a consumer that reads on, the scheduler free
    at every turn: `run` is the interleaving it chose and `end` the state it led
    to, with every goroutine gone. The context may end on the way if
    `contextEnds`. If it does not, `Bridge` ends all the same, with everything.
  */
  method RunBridge<T(!new)>(streams: seq<seq<T>>, contextEnds: bool)
    returns (output: seq<T>, ghost run: seq<Action>, ghost end: State<T>)
    ensures Exec(Step, Init(streams), run) == Some(end) && AllGone(end) && output == Output(end)
    ensures exists parts :: PartsOf(parts, streams) && output == Flatten(parts)
    ensures !end.cancelled ==> output == Flatten(streams)
    ensures !contextEnds ==> Cancel !in run && output == Flatten(streams)
  {
    var goroutines := new BridgeGoroutines<T>(streams);
    run, end := [], Init(streams);
    while goroutines.Ready()
      invariant fresh(goroutines) && Inv(goroutines.Abs()) && (!contextEnds ==> Cancel !in run)
      invariant Exec(Step, Init(streams), run) == Some(end) && end == goroutines.Abs()
      decreases Rank(goroutines.Abs())
    {
      ghost var a := goroutines.Turn(contextEnds);
      run, end := Append(Step, Init(streams), run, end, a);
    }
    goroutines.GuardsMissNothing();
    StuckMeansGone(end);
    output := Flatten(goroutines.parts);
    EveryRun(streams, run);
    assert PartsOf(end.parts, streams);
    if !contextEnds {
      NotCancelled(streams, run);
    }
  }
}
