/**
  What the workers of a batch and the lookups of a fan-in report: the outcome of
  one callback under the index of its input.
*/
module Outcomes {
  import opened Permutations

  /** What one callback returned. */
  datatype Outcome<R> = Good(value: R) | Bad(error: string)

  datatype Item<R> = Item(index: nat, outcome: Outcome<R>)

  function Carries<R>(i: nat): Item<R> -> nat { (it: Item<R>) => if it.index == i then 1 else 0 }

  function Equals(i: nat): nat -> nat { j => if j == i then 1 else 0 }

  /** The item has what the callback for its own index returned. */
  ghost predicate Recorded<R>(calls: map<nat, Outcome<R>>, it: Item<R>) {
    it.index in calls && calls[it.index] == it.outcome
  }

  function ItemsInOrder<R>(calls: map<nat, Outcome<R>>, n: nat): seq<Item<R>>
    requires forall i :: 0 <= i < n ==> i in calls
  {
    seq(n, i requires 0 <= i < n => Item(i, calls[i]))
  }

  /** A log with distinct indices and none missing is a reordering of the items in input order. */
  lemma LogPermutes<R>(log: seq<Item<R>>, calls: map<nat, Outcome<R>>, n: nat)
    requires forall i :: 0 <= i < n ==> i in calls && Item(i, calls[i]) in log
    requires forall it :: it in log ==> it.index < n && Recorded(calls, it)
    requires forall j, k :: 0 <= j < k < |log| ==> log[j].index != log[k].index
    ensures multiset(log) == multiset(ItemsInOrder(calls, n))
    ensures forall it :: it in log <==> it in ItemsInOrder(calls, n)
  {
    var ordered := ItemsInOrder(calls, n);
    forall it ensures it in log <==> it in ordered {
      if it in log {
        assert ordered[it.index] == it;
      }
    }
    SameElements(log, ordered);
  }
}
