/**
  Sequences up to the order of their elements: what is the same about two
  sequences with the same multiset, and what a step-by-step collector makes of
  items that may come in any order.
*/
module Permutations {
  lemma SameSize<T>(s: seq<T>, t: seq<T>)
    requires multiset(s) == multiset(t)
    ensures |s| == |t|
  {
    assert |multiset(s)| == |s| && |multiset(t)| == |t|;
  }

  lemma SameMember<T>(s: seq<T>, t: seq<T>, x: T)
    requires multiset(s) == multiset(t)
    ensures x in s <==> x in t
  {
    assert x in s <==> x in multiset(s);
    assert x in t <==> x in multiset(t);
  }

  function Without<T>(s: seq<T>, k: nat): seq<T>
    requires k < |s|
  {
    s[..k] + s[k + 1..]
  }

  lemma TakeOut<T>(s: seq<T>, k: nat)
    requires k < |s|
    ensures multiset(s) == multiset(Without(s, k)) + multiset{s[k]}
  {
    assert s == s[..k] + [s[k]] + s[k + 1..];
  }

  lemma Locate<T>(s: seq<T>, t: seq<T>) returns (k: nat)
    requires s != [] && multiset(s) == multiset(t)
    ensures k < |t| && t[k] == s[0]
  {
    assert s[0] in multiset(t);
    k :| 0 <= k < |t| && t[k] == s[0];
  }

  lemma RestsAgree<T>(s: seq<T>, j: nat, t: seq<T>, k: nat)
    requires j < |s| && k < |t| && s[j] == t[k] && multiset(s) == multiset(t)
    ensures multiset(Without(s, j)) == multiset(Without(t, k))
  {
    TakeOut(s, j);
    TakeOut(t, k);
    Cancel(multiset(Without(s, j)), multiset(Without(t, k)), s[j]);
  }

  lemma TailsAgree<T>(s: seq<T>, t: seq<T>)
    requires s != [] && t != [] && s[0] == t[0] && multiset(s) == multiset(t)
    ensures multiset(s[1..]) == multiset(t[1..])
  {
    RestsAgree(s, 0, t, 0);
    assert Without(s, 0) == s[1..] && Without(t, 0) == t[1..];
  }

  lemma Cancel<T>(m: multiset<T>, n: multiset<T>, x: T)
    requires m + multiset{x} == n + multiset{x}
    ensures m == n
  {
    assert m == (m + multiset{x}) - multiset{x};
    assert n == (n + multiset{x}) - multiset{x};
  }

  /** What is appended, item by item: a filter and a map in one pass. */
  function FlatMap<T, U>(s: seq<T>, f: T -> seq<U>): seq<U> {
    if s == [] then [] else FlatMap(s[..|s| - 1], f) + f(s[|s| - 1])
  }

  lemma {:induction false} FlatMapConcat<T, U>(s: seq<T>, t: seq<T>, f: T -> seq<U>)
    ensures FlatMap(s + t, f) == FlatMap(s, f) + FlatMap(t, f)
  {
    if t == [] {
      assert s + t == s;
    } else {
      assert (s + t)[..|s + t| - 1] == s + t[..|t| - 1];
      FlatMapConcat(s, t[..|t| - 1], f);
    }
  }

  lemma FlatMapOne<T, U>(x: T, f: T -> seq<U>)
    ensures FlatMap([x], f) == f(x)
  {
    assert FlatMap([], f) == [];
  }

  /** What is in the result comes from some item. */
  lemma {:induction false} FlatMapSource<T, U>(s: seq<T>, f: T -> seq<U>, y: U) returns (x: T)
    requires y in FlatMap(s, f)
    ensures x in s && y in f(x)
  {
    var n := |s| - 1;
    if y in f(s[n]) {
      x := s[n];
    } else {
      x := FlatMapSource(s[..n], f, y);
    }
  }

  /** What comes from an item is in the result. */
  lemma {:induction false} FlatMapKeeps<T, U>(s: seq<T>, f: T -> seq<U>, x: T, y: U)
    requires x in s && y in f(x)
    ensures y in FlatMap(s, f)
  {
    var n := |s| - 1;
    if x != s[n] {
      FlatMapKeeps(s[..n], f, x, y);
    }
  }

  lemma Middle<T>(whole: seq<T>, rest: seq<T>, a: seq<T>, m: seq<T>, b: seq<T>)
    requires whole == a + m + b && rest == a + b
    ensures multiset(whole) == multiset(rest) + multiset(m)
  {
  }

  lemma FlatMapAround<T, U>(a: seq<T>, x: T, b: seq<T>, f: T -> seq<U>)
    ensures FlatMap(a + [x] + b, f) == FlatMap(a, f) + f(x) + FlatMap(b, f)
    ensures FlatMap(a + b, f) == FlatMap(a, f) + FlatMap(b, f)
  {
    FlatMapConcat(a + [x], b, f);
    FlatMapConcat(a, [x], f);
    FlatMapConcat(a, b, f);
    FlatMapOne(x, f);
  }

  lemma FlatMapSplit<T, U>(s: seq<T>, k: nat, f: T -> seq<U>) returns (a: seq<U>, b: seq<U>)
    requires k < |s|
    ensures FlatMap(s, f) == a + f(s[k]) + b && FlatMap(Without(s, k), f) == a + b
  {
    var before, after := s[..k], s[k + 1..];
    assert s == before + [s[k]] + after;
    FlatMapAround(before, s[k], after, f);
    a, b := FlatMap(before, f), FlatMap(after, f);
  }

  lemma FlatMapTakeOut<T, U>(s: seq<T>, k: nat, f: T -> seq<U>)
    requires k < |s|
    ensures multiset(FlatMap(s, f)) == multiset(FlatMap(Without(s, k), f)) + multiset(f(s[k]))
  {
    var a, b := FlatMapSplit(s, k, f);
    Middle(FlatMap(s, f), FlatMap(Without(s, k), f), a, f(s[k]), b);
  }

  /** The order of the items only changes the order of what is appended. */
  lemma {:induction false} FlatMapPermutes<T, U>(s: seq<T>, t: seq<T>, f: T -> seq<U>)
    requires multiset(s) == multiset(t)
    ensures multiset(FlatMap(s, f)) == multiset(FlatMap(t, f))
    decreases |s|
  {
    SameSize(s, t);
    if s != [] {
      var k := Locate(s, t);
      RestsAgree(s, 0, t, k);
      FlatMapPermutes(Without(s, 0), Without(t, k), f);
      FlatMapTakeOut(s, 0, f);
      FlatMapTakeOut(t, k, f);
    }
  }

  ghost predicate Distinct<T>(s: seq<T>) {
    forall i, j :: 0 <= i < j < |s| ==> s[i] != s[j]
  }

  lemma WithoutDistinct<T>(s: seq<T>, k: nat)
    requires Distinct(s) && k < |s|
    ensures Distinct(Without(s, k)) && forall x :: x in Without(s, k) ==> x in s && x != s[k]
  {
    var rest := Without(s, k);
    assert forall i :: 0 <= i < |rest| ==> rest[i] == s[if i < k then i else i + 1];
  }

  /** No more distinct numbers below `n` than `n`. */
  lemma {:induction false} Pigeonhole(s: seq<nat>, n: nat)
    requires Distinct(s) && forall x :: x in s ==> x < n
    ensures |s| <= n
  {
    if s != [] {
      assert s[0] in s;
      if k :| 0 <= k < |s| && s[k] == n - 1 {
        WithoutDistinct(s, k);
        Pigeonhole(Without(s, k), n - 1);
      } else {
        Pigeonhole(s, n - 1);
      }
    }
  }

  lemma {:induction false} CountDistinct<T>(s: seq<T>, x: T)
    requires Distinct(s)
    ensures multiset(s)[x] == if x in s then 1 else 0
  {
    if s != [] {
      CountDistinct(s[1..], x);
      assert s == [s[0]] + s[1..];
    }
  }

  /** Two duplicate-free sequences with the same elements are permutations of each other. */
  lemma SameElements<T>(s: seq<T>, t: seq<T>)
    requires Distinct(s) && Distinct(t) && forall x :: x in s <==> x in t
    ensures multiset(s) == multiset(t)
  {
    forall x ensures multiset(s)[x] == multiset(t)[x] {
      CountDistinct(s, x);
      CountDistinct(t, x);
    }
  }
}
