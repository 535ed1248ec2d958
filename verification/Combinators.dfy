/**
  The channel combinators `OrDone`, `Tee` and `Bridge`, each as the goroutines it
  starts. All their channels are unbuffered, so a value passes from one
  goroutine to the next in one step of both. The values an input will deliver
  before it closes are given in advance; when it delivers them is up to the
  scheduler, and so is the moment of cancellation.
*/
module OrDoneStage {
  import opened Folds

  /** Reading the input, holding a value for the consumer, or gone with its output closed. */
  datatype OrDone<T> = Reading | Holding(value: T) | Closed

  /** How many values are between the input and the consumer. */
  function InFlight<T>(o: OrDone<T>): nat { Bit(o.Holding?) }

  function Weight<T>(o: OrDone<T>): nat { match o case Reading => 1 case Holding(_) => 4 case Closed => 0 }
}

module TeeCombinator {
  import opened Wrappers
  import opened Folds
  import opened Runs
  import opened OrDoneStage

  /** One round of the inner loop: the value, and which side has it already. */
  datatype TeePc<T> = Ranging | Round(value: T, leftSent: bool, rightSent: bool) | Gone

  datatype State<T> = State(
    input: seq<T>,
    pos: nat,
    cancelled: bool,
    ordone: OrDone<T>,
    tee: TeePc<T>,
    left: seq<T>,
    right: seq<T>)

  datatype Action = Cancel | Recv | InputClosed | OrDoneQuit | Pass | TeeEnd | SendLeft | SendRight | TeeQuit

  function Init<T>(input: seq<T>): State<T> { State(input, 0, false, Reading, Ranging, [], []) }

  function Step<T>(s: State<T>, a: Action): Option<State<T>> {
    match a
    case Cancel => if s.cancelled then None else Some(s.(cancelled := true))
    case Recv =>
      if s.ordone.Reading? && s.pos < |s.input|
      then Some(s.(ordone := Holding(s.input[s.pos]), pos := s.pos + 1)) else None
    case InputClosed =>
      if s.ordone.Reading? && s.pos >= |s.input| then Some(s.(ordone := Closed)) else None
    case OrDoneQuit =>
      if !s.ordone.Closed? && s.cancelled then Some(s.(ordone := Closed)) else None
    case Pass =>
      if s.ordone.Holding? && s.tee.Ranging?
      then Some(s.(ordone := Reading, tee := Round(s.ordone.value, false, false))) else None
    case TeeEnd =>
      if s.tee.Ranging? && s.ordone.Closed? then Some(s.(tee := Gone)) else None
    case SendLeft =>
      if s.tee.Round? && !s.tee.leftSent
      then Some(s.(left := s.left + [s.tee.value],
                   tee := if s.tee.rightSent then Ranging else s.tee.(leftSent := true)))
      else None
    case SendRight =>
      if s.tee.Round? && !s.tee.rightSent
      then Some(s.(right := s.right + [s.tee.value],
                   tee := if s.tee.leftSent then Ranging else s.tee.(rightSent := true)))
      else None
    case TeeQuit =>
      if s.tee.Round? && s.cancelled then Some(s.(tee := Gone)) else None
  }

  /** Values delivered to both sides. */
  function Rounds<T>(s: State<T>): nat { if |s.left| < |s.right| then |s.left| else |s.right| }

  ghost predicate Inv<T>(s: State<T>) {
    && s.left <= s.input && s.right <= s.input && s.pos <= |s.input|
    && |s.left| - Rounds(s) <= 1 && |s.right| - Rounds(s) <= 1
    && (s.ordone.Holding? ==> 0 < s.pos && s.ordone.value == s.input[s.pos - 1])
    && (s.tee.Ranging? ==> |s.left| == |s.right|)
    && (s.tee.Round? ==>
          && !(s.tee.leftSent && s.tee.rightSent)
          && |s.left| == Rounds(s) + Bit(s.tee.leftSent) && |s.right| == Rounds(s) + Bit(s.tee.rightSent)
          && Rounds(s) < |s.input| && s.tee.value == s.input[Rounds(s)])
    && (!s.tee.Gone? && (!s.ordone.Closed? || !s.cancelled) ==>
          s.pos == Rounds(s) + Bit(s.tee.Round?) + InFlight(s.ordone))
    && (!s.cancelled && s.ordone.Closed? ==> s.pos == |s.input|)
    && (!s.cancelled && s.tee.Gone? ==> s.ordone.Closed? && s.left == s.input == s.right)
  }

  lemma SendInv<T>(s: State<T>, a: Action)
    requires Inv(s) && (a.SendLeft? || a.SendRight?) && Step(s, a).Some?
    ensures Inv(Step(s, a).value)
  {
  }

  lemma OrDoneInv<T>(s: State<T>, a: Action)
    requires Inv(s) && (a.Recv? || a.InputClosed? || a.OrDoneQuit?) && Step(s, a).Some?
    ensures Inv(Step(s, a).value)
  {
  }

  lemma StepInv<T>(s: State<T>, a: Action)
    requires Inv(s) && Step(s, a).Some?
    ensures Inv(Step(s, a).value) && Step(s, a).value.input == s.input
  {
    if a.SendLeft? || a.SendRight? {
      SendInv(s, a);
    } else if a.Recv? || a.InputClosed? || a.OrDoneQuit? {
      OrDoneInv(s, a);
    }
  }

  /**
    Duplication. At every moment both outputs are prefixes of the input whose
    lengths differ by at most one; a `Tee` that ends uncancelled has given the
    whole input to both.
  */
  lemma EveryRun<T(!new)>(input: seq<T>, run: seq<Action>)
    requires Exec(Step, Init(input), run).Some?
    ensures var s := Exec(Step, Init(input), run).value;
            && Inv(s) && s.left <= input && s.right <= input
            && -1 <= |s.left| - |s.right| <= 1
            && (s.tee.Gone? && !s.cancelled ==> s.left == input == s.right)
  {
    var inv := (s: State<T>) => Inv(s) && s.input == input;
    forall s: State<T>, a: Action | inv(s) && Step(s, a).Some? ensures inv(Step(s, a).value) {
      StepInv(s, a);
    }
    Invariant(Step<T>, inv, Init(input), run);
  }

  // ----- teardown

  ghost predicate AllGone<T>(s: State<T>) { s.tee.Gone? && s.ordone.Closed? }

  /** Steps that need neither a producer nor a consumer. */
  predicate Alone(a: Action) { a.OrDoneQuit? || a.TeeEnd? || a.TeeQuit? }

  function Left<T>(s: State<T>): nat { Bit(!s.ordone.Closed?) + Bit(!s.tee.Gone?) }

  /** After cancellation the goroutines end by themselves, in at most two steps, even if nobody ever reads. */
  lemma Teardown<T(!new)>(s: State<T>) returns (run: seq<Action>)
    requires s.cancelled
    ensures Exec(Step, s, run).Some? && AllGone(Exec(Step, s, run).value)
    ensures |run| <= 2 && forall i :: 0 <= i < |run| ==> Alone(run[i])
  {
    forall t: State<T> | t.cancelled && !AllGone(t) ensures exists a :: Alone(a) && Step(t, a).Some? {
      if !t.ordone.Closed? {
        assert Step(t, OrDoneQuit).Some?;
      } else if t.tee.Round? {
        assert Step(t, TeeQuit).Some?;
      } else {
        assert Step(t, TeeEnd).Some?;
      }
    }
    run := Reaches(Step<T>, Alone, (t: State<T>) => t.cancelled, Left<T>, (t: State<T>) => AllGone(t), s);
  }

  // ----- progress

  function Rank<T>(s: State<T>): nat {
    (if s.pos <= |s.input| then 5 * (|s.input| - s.pos) else 0) + Weight(s.ordone) + Bit(!s.cancelled)
    + match s.tee
      case Ranging => 1
      case Round(_, l, r) => if l || r then 2 else 3
      case Gone => 0
  }

  lemma StepLowersRank<T>(s: State<T>, a: Action)
    requires Inv(s) && Step(s, a).Some?
    ensures Rank(Step(s, a).value) < Rank(s)
  {
  }

  /** With a producer and both consumers willing, somebody can move until both goroutines are gone. */
  lemma Progress<T>(s: State<T>) returns (a: Action)
    requires Inv(s) && !AllGone(s)
    ensures !a.Cancel? && Step(s, a).Some?
  {
    match s.tee
    case Round(_, l, _) => a := if l then SendRight else SendLeft;
    case Ranging =>
      match s.ordone {
        case Reading => a := if s.pos < |s.input| then Recv else InputClosed;
        case Holding(_) => a := Pass;
        case Closed => a := TeeEnd;
      }
    case Gone => a := OrDoneQuit;
  }

  /** Nothing can move, short of a cancellation. */
  ghost predicate Stuck<T>(s: State<T>) { forall a: Action :: !a.Cancel? ==> Step(s, a).None? }

  lemma NotCancelled<T(!new)>(input: seq<T>, run: seq<Action>)
    requires Exec(Step, Init(input), run).Some? && Cancel !in run
    ensures !Exec(Step, Init(input), run).value.cancelled
  {
    InvariantOnly(Step<T>, a => a != Cancel, (s: State<T>) => !s.cancelled, Init(input), run);
  }

  /** Every run is finite, and with both consumers reading one that cannot be extended has ended. */
  lemma EveryRunEnds<T(!new)>(input: seq<T>, run: seq<Action>)
    requires Exec(Step, Init(input), run).Some?
    ensures |run| <= 5 * |input| + 3
    ensures Stuck(Exec(Step, Init(input), run).value) ==> AllGone(Exec(Step, Init(input), run).value)
  {
    EveryRun(input, run);
    forall s: State<T>, a: Action | Inv(s) && Step(s, a).Some?
      ensures Inv(Step(s, a).value) && Rank(Step(s, a).value) < Rank(s)
    {
      StepInv(s, a);
      StepLowersRank(s, a);
    }
    Bounded(Step<T>, s => Inv(s), Rank<T>, Init(input), run);
    var s := Exec(Step, Init(input), run).value;
    if Stuck(s) && !AllGone(s) {
      var a := Progress(s);
      assert false;
    }
  }

  // ----- the goroutines

  /** `Tee` with the `OrDone` it starts, the producer behind it and the two consumers before it. */
  class TeeGoroutines<T(!new)> {
    const input: seq<T>
    var pos: nat
    var cancelled: bool
    var ordone: OrDone<T>
    var tee: TeePc<T>
    var left: seq<T>
    var right: seq<T>

    ghost function Abs(): State<T>
      reads this
    {
      State(input, pos, cancelled, ordone, tee, left, right)
    }

    constructor (input: seq<T>)
      ensures Abs() == Init(input)
    {
      this.input, pos, cancelled, ordone, tee, left, right := input, 0, false, Reading, Ranging, [], [];
    }

    predicate OrDoneReady()
      reads this
    {
      ordone.Reading? || (ordone.Holding? && cancelled)
    }

    /** The receiving select of `OrDone`, and its sending select but for the hand-over. */
    method OrDoneStep() returns (ghost a: Action)
      requires OrDoneReady()
      modifies this
      ensures (a == Recv || a == InputClosed || a == OrDoneQuit) && Step(old(Abs()), a) == Some(Abs())
    {
      if
      case cancelled =>
        a := OrDoneQuit;
        ordone := Closed;
      case ordone.Reading? && pos < |input| =>
        a := Recv;
        ordone := Holding(input[pos]);
        pos := pos + 1;
      case ordone.Reading? && pos >= |input| =>
        a := InputClosed;
        ordone := Closed;
    }

    predicate TeeReady()
      reads this
    {
      !tee.Gone? && (tee.Ranging? ==> !ordone.Reading?)
    }

    /** The range over `OrDone`'s output, and the select that serves each side once. */
    method TeeStep() returns (ghost a: Action)
      requires tee.Round? ==> !(tee.leftSent && tee.rightSent)
      requires TeeReady()
      modifies this
      ensures a in {Pass, TeeEnd, SendLeft, SendRight, TeeQuit} && Step(old(Abs()), a) == Some(Abs())
    {
      match tee
      case Ranging =>
        if ordone.Holding? {
          a := Pass;
          tee := Round(ordone.value, false, false);
          ordone := Reading;
        } else {
          a := TeeEnd;
          tee := Gone;
        }
      case Round(value, leftSent, rightSent) =>
        if {
          case cancelled =>
            a := TeeQuit;
            tee := Gone;
          case !leftSent =>
            a := SendLeft;
            left := left + [value];
            tee := if rightSent then Ranging else Round(value, true, false);
          case !rightSent =>
            a := SendRight;
            right := right + [value];
            tee := if leftSent then Ranging else Round(value, false, true);
        }
    }

    method CancelContext() returns (ghost a: Action)
      requires !cancelled
      modifies this
      ensures a == Cancel && Step(old(Abs()), a) == Some(Abs())
    {
      a := Cancel;
      cancelled := true;
    }

    predicate Ready()
      reads this
    {
      OrDoneReady() || TeeReady()
    }

    /** The guards miss no step. */
    lemma GuardsMissNothing()
      ensures !Ready() ==> Stuck(Abs())
    {
    }

    /** One turn of any goroutine that is not blocked or, if it may end, of the context. */
    method Turn(contextEnds: bool) returns (ghost a: Action)
      requires Inv(Abs()) && Ready()
      modifies this
      ensures (a == Cancel ==> contextEnds) && Step(old(Abs()), a) == Some(Abs())
      ensures Inv(Abs()) && Rank(Abs()) < old(Rank(Abs()))
    {
      ghost var s := Abs();
      if {
        case OrDoneReady() => a := OrDoneStep();
        case TeeReady() => a := TeeStep();
        case contextEnds && !cancelled => a := CancelContext();
      }
      StepInv(s, a);
      StepLowersRank(s, a);
    }
  }

  /**
    `Tee` between a producer and two consumers that read on, the scheduler free at
    every turn: `run` is the interleaving it chose and `end` the state it led to,
    with both goroutines gone. The context may end on the way if `contextEnds`. If
    it does not, `Tee` ends all the same, with the whole input on both sides.
  */
  method RunTee<T(!new)>(input: seq<T>, contextEnds: bool)
    returns (left: seq<T>, right: seq<T>, ghost run: seq<Action>, ghost end: State<T>)
    ensures Exec(Step, Init(input), run) == Some(end) && AllGone(end) && left == end.left && right == end.right
    ensures left <= input && right <= input && -1 <= |left| - |right| <= 1
    ensures !end.cancelled ==> left == input == right
    ensures !contextEnds ==> Cancel !in run && left == input == right
  {
    var tee := new TeeGoroutines<T>(input);
    run, end := [], Init(input);
    while tee.Ready()
      invariant fresh(tee) && Inv(tee.Abs()) && (!contextEnds ==> Cancel !in run)
      invariant Exec(Step, Init(input), run) == Some(end) && end == tee.Abs()
      decreases Rank(tee.Abs())
    {
      ghost var a := tee.Turn(contextEnds);
      run, end := Append(Step, Init(input), run, end, a);
    }
    left, right := tee.left, tee.right;
    tee.GuardsMissNothing();
    EveryRun(input, run);
    EveryRunEnds(input, run);
    if !contextEnds {
      NotCancelled(input, run);
    }
  }
}
