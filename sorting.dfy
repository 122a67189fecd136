/** Stable sorting by a three-way comparator, as JavaScript's `Array.prototype.sort`
    and Python's `sorted` / `list.sort` (including `reverse=True`) perform it:
    the result is ordered, is a permutation of the input, and elements the
    comparator ties keep their input order. `SortBy` is the specification (an
    insertion sort on sequences); `InsertionSort` sorts an array in place and is
    proved to produce exactly `SortBy` of the old contents. */
module Sorting {

  function Sign(n: int): int
  {
    if n < 0 then -1 else if n > 0 then 1 else 0
  }

  /** A consistent comparator: swapping the arguments flips the sign, and
      "not after" is transitive. Ties (`cmp(a, b) == 0`) are then an
      equivalence. */
  ghost predicate IsComparator<T(!new)>(cmp: (T, T) -> int)
  {
    (forall a, b :: Sign(cmp(a, b)) == -Sign(cmp(b, a))) &&
    (forall a, b, c :: cmp(a, b) <= 0 && cmp(b, c) <= 0 ==> cmp(a, c) <= 0)
  }

  ghost predicate Sorted<T>(cmp: (T, T) -> int, s: seq<T>)
  {
    forall i, j :: 0 <= i < j < |s| ==> cmp(s[i], s[j]) <= 0
  }

  /** Inserts `x` after every element that does not compare greater than it. */
  function Insert<T>(cmp: (T, T) -> int, t: seq<T>, x: T): (r: seq<T>)
    ensures |r| == |t| + 1
    decreases |t|
  {
    if |t| == 0 || cmp(t[|t| - 1], x) <= 0 then t + [x]
    else Insert(cmp, t[..|t| - 1], x) + [t[|t| - 1]]
  }

  /** The stable sort of `s` by `cmp`. */
  function SortBy<T>(cmp: (T, T) -> int, s: seq<T>): (r: seq<T>)
    ensures |r| == |s|
    decreases |s|
  {
    if |s| == 0 then [] else Insert(cmp, SortBy(cmp, s[..|s| - 1]), s[|s| - 1])
  }

  // ---------------------------------------------------------------------
  // Permutation

  lemma {:induction false} InsertPermutes<T>(cmp: (T, T) -> int, t: seq<T>, x: T)
    ensures multiset(Insert(cmp, t, x)) == multiset(t) + multiset{x}
    decreases |t|
  {
    if |t| > 0 && cmp(t[|t| - 1], x) > 0 {
      var u := t[..|t| - 1];
      InsertPermutes(cmp, u, x);
      assert t == u + [t[|t| - 1]];
    }
  }

  /** Sorting only reorders: the result has the same elements, with the same
      multiplicities, as the input. */
  lemma {:induction false} SortByPermutes<T>(cmp: (T, T) -> int, s: seq<T>)
    ensures multiset(SortBy(cmp, s)) == multiset(s)
    decreases |s|
  {
    if |s| > 0 {
      var u := s[..|s| - 1];
      SortByPermutes(cmp, u);
      InsertPermutes(cmp, SortBy(cmp, u), s[|s| - 1]);
      assert s == u + [s[|s| - 1]];
    }
  }

  // ---------------------------------------------------------------------
  // Order

  ghost predicate AllNotAfter<T>(cmp: (T, T) -> int, s: seq<T>, z: T)
  {
    forall i :: 0 <= i < |s| ==> cmp(s[i], z) <= 0
  }

  lemma {:induction false} InsertNotAfter<T>(cmp: (T, T) -> int, t: seq<T>, x: T, z: T)
    requires AllNotAfter(cmp, t, z) && cmp(x, z) <= 0
    ensures AllNotAfter(cmp, Insert(cmp, t, x), z)
    decreases |t|
  {
    if |t| > 0 && cmp(t[|t| - 1], x) > 0 {
      InsertNotAfter(cmp, t[..|t| - 1], x, z);
    }
  }

  lemma {:induction false} InsertSorted<T(!new)>(cmp: (T, T) -> int, t: seq<T>, x: T)
    requires IsComparator(cmp) && Sorted(cmp, t)
    ensures Sorted(cmp, Insert(cmp, t, x))
    decreases |t|
  {
    if |t| == 0 || cmp(t[|t| - 1], x) <= 0 {
      var r := t + [x];
      forall i, j | 0 <= i < j < |r| ensures cmp(r[i], r[j]) <= 0 {
        if j == |t| && i < |t| - 1 {
          assert cmp(t[i], t[|t| - 1]) <= 0;
        }
      }
    } else {
      var u := t[..|t| - 1];
      var last := t[|t| - 1];
      InsertSorted(cmp, u, x);
      assert Sign(cmp(x, last)) == -Sign(cmp(last, x));
      assert AllNotAfter(cmp, u, last);
      InsertNotAfter(cmp, u, x, last);
      var v := Insert(cmp, u, x);
      var r := v + [last];
      forall i, j | 0 <= i < j < |r| ensures cmp(r[i], r[j]) <= 0 {
        if j < |v| {
          assert r[i] == v[i] && r[j] == v[j];
        }
      }
    }
  }

  /** The result of sorting is ordered by the comparator. */
  lemma {:induction false} SortBySorted<T(!new)>(cmp: (T, T) -> int, s: seq<T>)
    requires IsComparator(cmp)
    ensures Sorted(cmp, SortBy(cmp, s))
    decreases |s|
  {
    if |s| > 0 {
      SortBySorted(cmp, s[..|s| - 1]);
      InsertSorted(cmp, SortBy(cmp, s[..|s| - 1]), s[|s| - 1]);
    }
  }

  // ---------------------------------------------------------------------
  // Stability

  /** The elements of `s` that tie with `y`, in their order in `s`. */
  function Ties<T>(cmp: (T, T) -> int, s: seq<T>, y: T): seq<T>
    decreases |s|
  {
    if |s| == 0 then []
    else Ties(cmp, s[..|s| - 1], y) + (if cmp(s[|s| - 1], y) == 0 then [s[|s| - 1]] else [])
  }

  lemma {:induction false} InsertTies<T(!new)>(cmp: (T, T) -> int, t: seq<T>, x: T, y: T)
    requires IsComparator(cmp)
    ensures Ties(cmp, Insert(cmp, t, x), y)
         == Ties(cmp, t, y) + (if cmp(x, y) == 0 then [x] else [])
    decreases |t|
  {
    if |t| == 0 || cmp(t[|t| - 1], x) <= 0 {
      assert (t + [x])[..|t|] == t;
    } else {
      var u := t[..|t| - 1];
      var last := t[|t| - 1];
      InsertTies(cmp, u, x, y);
      var v := Insert(cmp, u, x);
      assert (v + [last])[..|v|] == v;
    }
  }

  /** Elements that tie keep their input order: for every `y`, the elements
      tying with `y` appear in the sorted result exactly as in the input. */
  lemma {:induction false} SortByStable<T(!new)>(cmp: (T, T) -> int, s: seq<T>, y: T)
    requires IsComparator(cmp)
    ensures Ties(cmp, SortBy(cmp, s), y) == Ties(cmp, s, y)
    decreases |s|
  {
    if |s| > 0 {
      SortByStable(cmp, s[..|s| - 1], y);
      InsertTies(cmp, SortBy(cmp, s[..|s| - 1]), s[|s| - 1], y);
    }
  }

  /** Sorting something already sorted changes nothing. */
  lemma {:induction false} SortBySortedInput<T(!new)>(cmp: (T, T) -> int, s: seq<T>)
    requires Sorted(cmp, s)
    ensures SortBy(cmp, s) == s
    decreases |s|
  {
    if |s| > 0 {
      var u := s[..|s| - 1];
      assert Sorted(cmp, u);
      SortBySortedInput(cmp, u);
      if |u| > 0 {
        assert cmp(u[|u| - 1], s[|s| - 1]) <= 0;
      }
      assert u + [s[|s| - 1]] == s;
    }
  }

  // ---------------------------------------------------------------------
  // In place

  lemma InsertStep<T>(cmp: (T, T) -> int, p: seq<T>, j: nat, x: T)
    requires 0 < j <= |p| && cmp(p[j - 1], x) > 0
    ensures Insert(cmp, p[..j], x) + p[j..] == Insert(cmp, p[..j - 1], x) + p[j - 1..]
  {
    assert p[..j][..j - 1] == p[..j - 1];
    assert [p[j - 1]] + p[j..] == p[j - 1..];
  }

  lemma SwapShape<T>(p: seq<T>, j: nat, x: T, before: seq<T>, after: seq<T>)
    requires 0 < j <= |p| && |before| == |after| == |p| + 1
    requires before == p[..j] + [x] + p[j..]
    requires after == before[j - 1 := x][j := p[j - 1]]
    ensures after == p[..j - 1] + [x] + p[j - 1..]
  {
    assert forall k :: 0 <= k < |after| ==> after[k] == (p[..j - 1] + [x] + p[j - 1..])[k];
  }

  /** Moves `a[i]` left past every element of the prefix `a[..i]` that
      compares greater than it, leaving `Insert` of it into that prefix. */
  method InsertAt<T>(a: array<T>, i: nat, cmp: (T, T) -> int)
    requires i < a.Length
    modifies a
    ensures a[..i + 1] == Insert(cmp, old(a[..i]), old(a[i]))
    ensures a[i + 1..] == old(a[i + 1..])
  {
    ghost var p := a[..i];
    var x := a[i];
    var j := i;
    assert a[..i + 1] == p + [x];
    assert p[..j] == p && p[j..] == [];
    while j > 0 && cmp(a[j - 1], x) > 0
      invariant 0 <= j <= i
      invariant a[..i + 1] == p[..j] + [x] + p[j..]
      invariant a[i + 1..] == old(a[i + 1..])
      invariant Insert(cmp, p, x) == Insert(cmp, p[..j], x) + p[j..]
    {
      ghost var before := a[..i + 1];
      assert a[j - 1] == before[j - 1] == p[j - 1];
      InsertStep(cmp, p, j, x);
      a[j - 1], a[j] := x, a[j - 1];
      SwapShape(p, j, x, before, a[..i + 1]);
      j := j - 1;
    }
  }

  lemma SortByStep<T>(cmp: (T, T) -> int, s: seq<T>, i: nat)
    requires i < |s|
    ensures SortBy(cmp, s[..i + 1]) == Insert(cmp, SortBy(cmp, s[..i]), s[i])
  {
    assert s[..i + 1][..i] == s[..i];
  }

  /** Insertion sort on an array by adjacent swaps, leaving exactly the
      stable sort of the old contents. */
  method InsertionSort<T>(a: array<T>, cmp: (T, T) -> int)
    modifies a
    ensures a[..] == SortBy(cmp, old(a[..]))
  {
    ghost var s := a[..];
    var i := 0;
    while i < a.Length
      invariant 0 <= i <= a.Length
      invariant a[..i] == SortBy(cmp, s[..i])
      invariant a[i..] == s[i..]
    {
      assert a[i] == s[i];
      InsertAt(a, i, cmp);
      SortByStep(cmp, s, i);
      i := i + 1;
    }
    assert s[..a.Length] == s;
  }
}
