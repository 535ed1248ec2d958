/**
  Orders on strings and records, and what it means for `sort.Slice` to have
  sorted by one. `sort.Slice` is not stable, so its result is any permutation
  that the comparison cannot object to; with no ties there is only one.
*/
module Ordering {
  import opened Permutations

  /** Go's `<` on strings. */
  predicate Precedes(a: string, b: string) {
    b != [] && (a == [] || a[0] < b[0] || (a[0] == b[0] && Precedes(a[1..], b[1..])))
  }

  lemma {:induction false} PrecedesTransitive(a: string, b: string, c: string)
    requires Precedes(a, b) && Precedes(b, c)
    ensures Precedes(a, c)
  {
    if a != [] && a[0] == b[0] == c[0] {
      PrecedesTransitive(a[1..], b[1..], c[1..]);
    }
  }

  /** Exactly one of before, equal, after. */
  lemma {:induction false} PrecedesTrichotomy(a: string, b: string)
    ensures Precedes(a, b) || a == b || Precedes(b, a)
    ensures !(Precedes(a, b) && Precedes(b, a)) && !Precedes(a, a)
  {
    if a != [] {
      PrecedesTrichotomy(a[1..], a[1..]);
      if b != [] {
        PrecedesTrichotomy(a[1..], b[1..]);
        assert a == [a[0]] + a[1..] && b == [b[0]] + b[1..];
      }
    }
  }

  /** By index: a proper prefix comes first, and otherwise the smaller character where the two first differ. */
  ghost predicate Earlier(a: string, b: string) {
    a < b || exists k: nat :: DiffersAt(a, b, k) && a[k] < b[k]
  }

  /** The first index at which the two differ. */
  ghost predicate DiffersAt(a: string, b: string, k: nat) {
    k < |a| && k < |b| && a[..k] == b[..k] && a[k] != b[k]
  }

  lemma AlikeBefore(a: string, b: string, k: nat)
    ensures DiffersAt(a, b, k) && k > 0 ==> a[0] == b[0]
  {
    if DiffersAt(a, b, k) && k > 0 {
      assert a[0] == a[..k][0] && b[0] == b[..k][0];
    }
  }

  lemma DiffersLater(a: string, b: string, k: nat)
    requires a != [] && b != [] && a[0] == b[0]
    ensures DiffersAt(a, b, k + 1) <==> DiffersAt(a[1..], b[1..], k)
    ensures a < b <==> a[1..] < b[1..]
  {
    assert a == [a[0]] + a[1..] && b == [b[0]] + b[1..];
    if k < |a[1..]| && k < |b[1..]| {
      assert a[..k + 1] == [a[0]] + a[1..][..k] && b[..k + 1] == [b[0]] + b[1..][..k];
      assert a[1..][..k] == a[..k + 1][1..] && b[1..][..k] == b[..k + 1][1..];
    }
  }

  lemma {:induction false} PrecedesExactly(a: string, b: string)
    ensures Precedes(a, b) <==> Earlier(a, b)
  {
    if a != [] && b != [] {
      if a[0] == b[0] {
        PrecedesExactly(a[1..], b[1..]);
        forall k: nat ensures DiffersAt(a, b, k + 1) <==> DiffersAt(a[1..], b[1..], k) {
          DiffersLater(a, b, k);
        }
        DiffersLater(a, b, 0);
        if Earlier(a[1..], b[1..]) && !(a[1..] < b[1..]) {
          var k: nat :| DiffersAt(a[1..], b[1..], k) && a[1..][k] < b[1..][k];
          assert DiffersAt(a, b, k + 1) && a[k + 1] < b[k + 1];
        }
        if Earlier(a, b) && !(a < b) {
          var k: nat :| DiffersAt(a, b, k) && a[k] < b[k];
          assert DiffersAt(a, b, (k - 1) + 1) && a[1..][k - 1] < b[1..][k - 1];
        }
      } else {
        assert DiffersAt(a, b, 0);
        forall k: nat ensures DiffersAt(a, b, k) ==> k == 0 {
          AlikeBefore(a, b, k);
        }
      }
    }
  }

  ghost predicate Ties<T>(less: (T, T) -> bool, x: T, y: T) {
    !less(x, y) && !less(y, x)
  }

  /** What `sort.Slice` asks of its comparison. */
  ghost predicate StrictWeakOrder<T(!new)>(less: (T, T) -> bool) {
    && (forall x :: !less(x, x))
    && (forall x, y, z :: less(x, y) && less(y, z) ==> less(x, z))
    && (forall x, y, z :: Ties(less, x, y) && Ties(less, y, z) ==> Ties(less, x, z))
  }

  ghost predicate SortedBy<T>(less: (T, T) -> bool, s: seq<T>) {
    forall i, j :: 0 <= i < j < |s| ==> !less(s[j], s[i])
  }

  /** Before the first element that is not less: equals keep their order. */
  function Insert<T>(less: (T, T) -> bool, x: T, s: seq<T>): (r: seq<T>)
    ensures multiset(r) == multiset(s) + multiset{x}
  {
    if s == [] then [x]
    else if !less(s[0], x) then [x] + s
    else
      assert s == [s[0]] + s[1..];
      [s[0]] + Insert(less, x, s[1..])
  }

  function Sort<T>(less: (T, T) -> bool, s: seq<T>): (r: seq<T>)
    ensures multiset(r) == multiset(s)
  {
    if s == [] then []
    else
      assert s == [s[0]] + s[1..];
      Insert(less, s[0], Sort(less, s[1..]))
  }

  lemma NotLessTransitive<T(!new)>(less: (T, T) -> bool, x: T, y: T, z: T)
    requires StrictWeakOrder(less) && !less(x, y) && !less(y, z)
    ensures !less(x, z)
  {
    if !less(y, x) && !less(z, y) {
      assert Ties(less, x, y) && Ties(less, y, z);
      assert Ties(less, x, z);
    }
  }

  lemma {:induction false} InsertSorts<T(!new)>(less: (T, T) -> bool, x: T, s: seq<T>)
    requires StrictWeakOrder(less) && SortedBy(less, s)
    ensures SortedBy(less, Insert(less, x, s))
  {
    if s != [] {
      if !less(s[0], x) {
        forall j | 0 <= j < |s| ensures !less(s[j], x) {
          if j > 0 {
            NotLessTransitive(less, s[j], s[0], x);
          }
        }
      } else {
        InsertSorts(less, x, s[1..]);
        var rest := Insert(less, x, s[1..]);
        forall j | 0 <= j < |rest| ensures !less(rest[j], s[0]) {
          assert rest[j] in multiset(rest);
          assert rest[j] == x || rest[j] in s[1..];
        }
      }
    }
  }

  lemma {:induction false} SortSorts<T(!new)>(less: (T, T) -> bool, s: seq<T>)
    requires StrictWeakOrder(less)
    ensures SortedBy(less, Sort(less, s))
  {
    if s != [] {
      SortSorts(less, s[1..]);
      InsertSorts(less, s[0], Sort(less, s[1..]));
    }
  }

  lemma HeadsAgree<T(!new)>(less: (T, T) -> bool, s: seq<T>, t: seq<T>)
    requires SortedBy(less, s) && SortedBy(less, t) && multiset(s) == multiset(t) && s != [] && t != []
    requires forall x, y :: x in s && y in s && Ties(less, x, y) ==> x == y
    ensures s[0] == t[0]
  {
    assert s[0] in multiset(t) && t[0] in multiset(s);
    var j :| 0 <= j < |t| && t[j] == s[0];
    var k :| 0 <= k < |s| && s[k] == t[0];
    if j != 0 && k != 0 {
      assert Ties(less, s[0], t[0]);
    }
  }

  /** Two sorted arrangements of the same elements agree when only equal elements tie. */
  lemma {:induction false} SortedUnique<T(!new)>(less: (T, T) -> bool, s: seq<T>, t: seq<T>)
    requires SortedBy(less, s) && SortedBy(less, t) && multiset(s) == multiset(t)
    requires forall x, y :: x in s && y in s && Ties(less, x, y) ==> x == y
    ensures s == t
  {
    SameSize(s, t);
    if s != [] {
      HeadsAgree(less, s, t);
      TailsAgree(s, t);
      assert forall x :: x in s[1..] ==> x in s;
      SortedUnique(less, s[1..], t[1..]);
    }
  }

  /** The library sort: its contract is all its callers may use. */
  method SortSlice<T(!new)>(less: (T, T) -> bool, s: seq<T>) returns (r: seq<T>)
    requires StrictWeakOrder(less)
    ensures SortedBy(less, r) && multiset(r) == multiset(s)
  {
    SortSorts(less, s);
    r := Sort(less, s);
  }
}
