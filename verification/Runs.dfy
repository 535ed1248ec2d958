/**
  Runs of a protocol. A protocol is a function `step` from a state and a label
  to the next state, or `None` when no goroutine can take that step there. The
  label says which goroutine moved and which ready arm of its `select` it took,
  so a sequence of labels is one interleaving and a claim about every sequence
  is a claim about every interleaving.
*/
module Runs {
  import opened Wrappers

  function Exec<S, A>(step: (S, A) -> Option<S>, s: S, run: seq<A>): Option<S>
    decreases |run|
  {
    if run == [] then Some(s)
    else
      match step(s, run[0])
      case None => None
      case Some(t) => Exec(step, t, run[1..])
  }

  ghost predicate Preserves<S(!new), A(!new)>(step: (S, A) -> Option<S>, inv: S -> bool) {
    forall s, a :: inv(s) && step(s, a).Some? ==> inv(step(s, a).value)
  }

  /** What every step keeps, every run keeps. */
  lemma {:induction false} Invariant<S(!new), A(!new)>(
      step: (S, A) -> Option<S>, inv: S -> bool, s: S, run: seq<A>)
    requires Preserves(step, inv) && inv(s)
    requires Exec(step, s, run).Some?
    ensures inv(Exec(step, s, run).value)
    decreases |run|
  {
    if run != [] {
      Invariant(step, inv, step(s, run[0]).value, run[1..]);
    }
  }

  /** As `Invariant`, for runs made only of the labels in `only`. */
  lemma {:induction false} InvariantOnly<S(!new), A(!new)>(
      step: (S, A) -> Option<S>, only: A -> bool, inv: S -> bool, s: S, run: seq<A>)
    requires forall s, a :: inv(s) && only(a) && step(s, a).Some? ==> inv(step(s, a).value)
    requires inv(s) && forall i :: 0 <= i < |run| ==> only(run[i])
    requires Exec(step, s, run).Some?
    ensures inv(Exec(step, s, run).value)
    decreases |run|
  {
    if run != [] {
      assert only(run[0]);
      InvariantOnly(step, only, inv, step(s, run[0]).value, run[1..]);
    }
  }

  /** What only the labels in `mark` bring about, and nothing undoes, holds in the end if and only if one was taken. */
  lemma {:induction false} Happened<S(!new), A(!new)>(
      step: (S, A) -> Option<S>, inv: S -> bool, mark: A -> bool, sign: S -> bool, s: S, run: seq<A>)
    requires Preserves(step, inv) && inv(s) && Exec(step, s, run).Some?
    requires forall s, a :: inv(s) && step(s, a).Some? ==> (sign(step(s, a).value) <==> sign(s) || mark(a))
    ensures sign(Exec(step, s, run).value) <==> sign(s) || exists a :: a in run && mark(a)
    decreases |run|
  {
    if run != [] {
      Happened(step, inv, mark, sign, step(s, run[0]).value, run[1..]);
      assert forall a :: a in run <==> a == run[0] || a in run[1..];
    }
  }

  ghost predicate Descends<S(!new), A(!new)>(
      step: (S, A) -> Option<S>, inv: S -> bool, rank: S -> nat)
  {
    forall s, a :: inv(s) && step(s, a).Some? ==> rank(step(s, a).value) < rank(s)
  }

  /** A measure that every step lowers bounds the length of every run. */
  lemma {:induction false} Bounded<S(!new), A(!new)>(
      step: (S, A) -> Option<S>, inv: S -> bool, rank: S -> nat, s: S, run: seq<A>)
    requires Preserves(step, inv) && Descends(step, inv, rank) && inv(s)
    requires Exec(step, s, run).Some?
    ensures |run| + rank(Exec(step, s, run).value) <= rank(s)
    decreases |run|
  {
    if run != [] {
      Bounded(step, inv, rank, step(s, run[0]).value, run[1..]);
    }
  }

  lemma {:induction false} ExecConcat<S, A>(step: (S, A) -> Option<S>, s: S, before: seq<A>, after: seq<A>)
    requires Exec(step, s, before).Some?
    ensures Exec(step, s, before + after) == Exec(step, Exec(step, s, before).value, after)
    decreases |before|
  {
    if before == [] {
      assert before + after == after;
    } else {
      assert (before + after)[1..] == before[1..] + after;
      ExecConcat(step, step(s, before[0]).value, before[1..], after);
    }
  }

  /** One more label at the back of a run. */
  lemma Append<S, A>(step: (S, A) -> Option<S>, s: S, run: seq<A>, t: S, a: A) returns (run': seq<A>, t': S)
    requires Exec(step, s, run) == Some(t) && step(t, a).Some?
    ensures run' == run + [a] && Exec(step, s, run') == Some(t') && step(t, a) == Some(t')
  {
    run', t' := run + [a], step(t, a).value;
    ExecConcat(step, s, run, [a]);
    assert [a][1..] == [];
  }

  /** One more label at the front of a run. */
  lemma Prepend<S, A>(step: (S, A) -> Option<S>, s: S, a: A, rest: seq<A>, last: S) returns (run: seq<A>)
    requires step(s, a).Some? && Exec(step, step(s, a).value, rest) == Some(last)
    ensures Exec(step, s, run) == Some(last)
  {
    run := [a] + rest;
    assert run[1..] == rest;
  }

  /**
    If wherever `goal` fails some label in `only` can be taken, and those labels
    lower a measure, then a run of such labels reaches the goal.
  */
  lemma {:induction false} Reaches<S(!new), A(!new)>(
      step: (S, A) -> Option<S>, only: A -> bool, inv: S -> bool, rank: S -> nat, goal: S -> bool, s: S)
      returns (run: seq<A>)
    requires forall s, a :: inv(s) && !goal(s) && only(a) && step(s, a).Some? ==> inv(step(s, a).value)
    requires forall s, a :: inv(s) && !goal(s) && only(a) && step(s, a).Some? ==> rank(step(s, a).value) < rank(s)
    requires forall s :: inv(s) && !goal(s) ==> exists a :: only(a) && step(s, a).Some?
    requires inv(s)
    ensures Exec(step, s, run).Some? && goal(Exec(step, s, run).value) && inv(Exec(step, s, run).value)
    ensures |run| <= rank(s) && forall i :: 0 <= i < |run| ==> only(run[i])
    decreases rank(s)
  {
    if goal(s) {
      run := [];
    } else {
      var a :| only(a) && step(s, a).Some?;
      var rest := Reaches(step, only, inv, rank, goal, step(s, a).value);
      run := [a] + rest;
      assert run[1..] == rest;
    }
  }
}
