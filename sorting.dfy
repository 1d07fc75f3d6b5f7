/** `Array.prototype.sort` with a comparator. JavaScript's sort is stable, so
    its result is fixed by the comparator alone; it is specified here as
    insertion sort by a "comes no later than" relation `le`, where `le(a, b)`
    means the comparator does not put `a` after `b`. */
module Sorting {
  import opened Seqs

  /** `le` is total and transitive, as a comparator built from a numeric or textual key is. */
  ghost predicate TotalPreorder<T(!new)>(le: (T, T) -> bool)
  {
    (forall a, b :: le(a, b) || le(b, a)) &&
    (forall a, b, c :: le(a, b) && le(b, c) ==> le(a, c))
  }

  /** Every element comes no later than every element after it. */
  ghost predicate SortedBy<T(!new)>(s: seq<T>, le: (T, T) -> bool)
  {
    forall i, j :: 0 <= i < j < |s| ==> le(s[i], s[j])
  }

  /** Insert `x` after the last element of `s` that comes no later than it. */
  function Insert<T(!new)>(s: seq<T>, x: T, le: (T, T) -> bool): (r: seq<T>)
    ensures |r| == |s| + 1
  {
    if s == [] || le(s[|s| - 1], x) then s + [x]
    else Insert(s[..|s| - 1], x, le) + [s[|s| - 1]]
  }

  /** Inserting adds `x` and keeps every other element. */
  lemma {:induction false} InsertPermutes<T(!new)>(s: seq<T>, x: T, le: (T, T) -> bool)
    ensures multiset(Insert(s, x, le)) == multiset(s) + multiset{x}
  {
    if s != [] && !le(s[|s| - 1], x) {
      InsertPermutes(s[..|s| - 1], x, le);
      assert s == s[..|s| - 1] + [s[|s| - 1]];
    }
  }

  /** The stable sort of `s` by `le`. */
  function InsertionSort<T(!new)>(s: seq<T>, le: (T, T) -> bool): (r: seq<T>)
    ensures |r| == |s|
  {
    if s == [] then []
    else Insert(InsertionSort(s[..|s| - 1], le), s[|s| - 1], le)
  }

  /** The sort is a permutation of its input. */
  lemma {:induction false} SortPermutes<T(!new)>(s: seq<T>, le: (T, T) -> bool)
    ensures multiset(InsertionSort(s, le)) == multiset(s)
  {
    if s != [] {
      SortPermutes(s[..|s| - 1], le);
      InsertPermutes(InsertionSort(s[..|s| - 1], le), s[|s| - 1], le);
      assert s == s[..|s| - 1] + [s[|s| - 1]];
    }
  }

  lemma SortPrefix<T(!new)>(s: seq<T>, i: nat, le: (T, T) -> bool)
    requires i < |s|
    ensures InsertionSort(s[..i + 1], le) == Insert(InsertionSort(s[..i], le), s[i], le)
  {
    assert s[..i + 1][..i] == s[..i];
  }

  lemma {:induction false} InsertSorted<T(!new)>(s: seq<T>, x: T, le: (T, T) -> bool)
    requires TotalPreorder(le) && SortedBy(s, le)
    ensures SortedBy(Insert(s, x, le), le)
  {
    if s == [] || le(s[|s| - 1], x) {
    } else {
      var init, last := s[..|s| - 1], s[|s| - 1];
      InsertSorted(init, x, le);
      var t := Insert(init, x, le);
      InsertPermutes(init, x, le);
      assert le(x, last);
      forall i | 0 <= i < |t|
        ensures le(t[i], last)
      {
        assert t[i] in multiset(t);
        assert t[i] == x || t[i] in multiset(init);
        if t[i] != x {
          var k :| 0 <= k < |init| && init[k] == t[i];
          assert s[k] == init[k];
        }
      }
    }
  }

  /** The sort's result is ordered by `le`. */
  lemma {:induction false} SortIsSorted<T(!new)>(s: seq<T>, le: (T, T) -> bool)
    requires TotalPreorder(le)
    ensures SortedBy(InsertionSort(s, le), le)
  {
    if s != [] {
      SortIsSorted(s[..|s| - 1], le);
      InsertSorted(InsertionSort(s[..|s| - 1], le), s[|s| - 1], le);
    }
  }

  /** The elements equivalent to `y` under `le`. */
  function EquivTo<T(!new)>(le: (T, T) -> bool, y: T): T -> bool
  {
    x => le(x, y) && le(y, x)
  }

  lemma {:induction false} InsertStable<T(!new)>(s: seq<T>, x: T, le: (T, T) -> bool, y: T)
    requires TotalPreorder(le)
    ensures Filter(EquivTo(le, y), Insert(s, x, le)) == Filter(EquivTo(le, y), s) + Filter(EquivTo(le, y), [x])
  {
    var e := EquivTo(le, y);
    if s == [] || le(s[|s| - 1], x) {
      FilterConcat(e, s, [x]);
    } else {
      var init, last := s[..|s| - 1], s[|s| - 1];
      assert s == init + [last];
      assert Insert(s, x, le) == Insert(init, x, le) + [last];
      InsertStable(init, x, le, y);
      FilterConcat(e, Insert(init, x, le), [last]);
      FilterConcat(e, init, [last]);
      TiesCommute(le, y, x, last);
      SwapLast(Filter(e, init), Filter(e, [x]), Filter(e, [last]));
    }
  }

  /** Two elements of which the second comes strictly before the first are not both tied with `y`. */
  lemma TiesCommute<T(!new)>(le: (T, T) -> bool, y: T, x: T, last: T)
    requires TotalPreorder(le) && !le(last, x)
    ensures Filter(EquivTo(le, y), [x]) + Filter(EquivTo(le, y), [last]) == Filter(EquivTo(le, y), [last]) + Filter(EquivTo(le, y), [x])
  {
    var e := EquivTo(le, y);
    assert [x][1..] == [] && [last][1..] == [];
    assert !(e(x) && e(last));
  }

  /** Stability: elements the comparator ties keep their original relative order. */
  lemma {:induction false} SortIsStable<T(!new)>(s: seq<T>, le: (T, T) -> bool, y: T)
    requires TotalPreorder(le)
    ensures Filter(EquivTo(le, y), InsertionSort(s, le)) == Filter(EquivTo(le, y), s)
  {
    if s != [] {
      var init, last := s[..|s| - 1], s[|s| - 1];
      SortIsStable(init, le, y);
      InsertStable(InsertionSort(init, le), last, le, y);
      assert s == init + [last];
      FilterConcat(EquivTo(le, y), init, [last]);
    }
  }

  /** A comparator that ties everything leaves the list as it was. */
  lemma {:induction false} SortAllTies<T(!new)>(s: seq<T>, le: (T, T) -> bool)
    requires forall a, b :: le(a, b)
    ensures InsertionSort(s, le) == s
  {
    if s != [] {
      SortAllTies(s[..|s| - 1], le);
      assert s == s[..|s| - 1] + [s[|s| - 1]];
    }
  }

  /** `Insert` puts `x` right after the last element that comes no later than it:
      when `sorted[j..]` all come after `x` and `sorted[j - 1]` does not, `x` lands at `j`. */
  lemma {:induction false} InsertAt<T(!new)>(sorted: seq<T>, x: T, le: (T, T) -> bool, j: nat)
    requires j <= |sorted|
    requires j == 0 || le(sorted[j - 1], x)
    requires forall k :: j <= k < |sorted| ==> !le(sorted[k], x)
    ensures Insert(sorted, x, le) == sorted[..j] + [x] + sorted[j..]
  {
    if j < |sorted| {
      var init, last := sorted[..|sorted| - 1], sorted[|sorted| - 1];
      assert !le(last, x);
      assert Insert(sorted, x, le) == Insert(init, x, le) + [last];
      InsertAt(init, x, le, j);
      assert init[..j] == sorted[..j];
      assert sorted[j..] == init[j..] + [last];
    } else {
      assert sorted[..j] == sorted && sorted[j..] == [];
    }
  }

  /** The shifting loop of one insertion step: moves the elements of `a[..i]` that
      come after `x` one place to the right and returns the hole left for `x`. */
  method ShiftAfter<T(!new)>(a: array<T>, i: nat, x: T, le: (T, T) -> bool) returns (j: nat)
    requires i < a.Length
    modifies a
    ensures j <= i
    ensures j == 0 || le(old(a[j - 1]), x)
    ensures forall k :: j <= k < i ==> !le(old(a[k]), x)
    ensures forall k :: 0 <= k < j ==> a[k] == old(a[k])
    ensures forall k :: j < k <= i ==> a[k] == old(a[k - 1])
    ensures forall k :: i < k < a.Length ==> a[k] == old(a[k])
  {
    j := i;
    while j > 0 && !le(a[j - 1], x)
      invariant 0 <= j <= i
      invariant forall k :: 0 <= k < j ==> a[k] == old(a[k])
      invariant forall k :: j < k <= i ==> a[k] == old(a[k - 1])
      invariant forall k :: i < k < a.Length ==> a[k] == old(a[k])
      invariant forall k :: j <= k < i ==> !le(old(a[k]), x)
    {
      a[j] := a[j - 1];
      j := j - 1;
    }
  }

  /** One step of the sort: moves `a[i]` left into the sorted prefix `a[..i]`. */
  method InsertInPlace<T(!new)>(a: array<T>, i: nat, le: (T, T) -> bool)
    requires i < a.Length
    modifies a
    ensures a[..i + 1] == Insert(old(a[..i]), old(a[i]), le)
    ensures a[i + 1..] == old(a[i + 1..])
  {
    ghost var before := a[..];
    ghost var sorted := a[..i];
    var x := a[i];
    var j := ShiftAfter(a, i, x, le);
    a[j] := x;
    InsertAt(sorted, x, le, j);
    ShiftedShape(a[..], sorted, x, j);
    SameAfter(a[..], before, i);
  }

  /** The array after the shifts: `sorted[..j]`, then `x`, then `sorted[j..]` moved one to the right. */
  lemma ShiftedShape<T>(s: seq<T>, sorted: seq<T>, x: T, j: nat)
    requires j <= |sorted| < |s|
    requires forall k :: 0 <= k < j ==> s[k] == sorted[k]
    requires s[j] == x
    requires forall k :: j < k <= |sorted| ==> s[k] == sorted[k - 1]
    ensures s[..|sorted| + 1] == sorted[..j] + [x] + sorted[j..]
  {
  }

  /** Two sequences of one length that agree after index `i` have the same suffix there. */
  lemma SameAfter<T>(s: seq<T>, t: seq<T>, i: nat)
    requires i < |s| == |t|
    requires forall k :: i < k < |s| ==> s[k] == t[k]
    ensures s[i + 1..] == t[i + 1..]
  {
  }

  /** Sorts `a` in place; the result is the stable sort of its old contents. */
  method SortInPlace<T(!new)>(a: array<T>, le: (T, T) -> bool)
    modifies a
    ensures a[..] == InsertionSort(old(a[..]), le)
  {
    ghost var s := a[..];
    var i := 0;
    while i < a.Length
      invariant 0 <= i <= a.Length
      invariant a[..i] == InsertionSort(s[..i], le)
      invariant a[i..] == s[i..]
    {
      ghost var pre := a[..];
      assert pre[i] == s[i] by { assert pre[i..][0] == s[i..][0]; }
      assert pre[i + 1..] == s[i + 1..] by { assert pre[i + 1..] == pre[i..][1..]; }
      InsertInPlace(a, i, le);
      SortPrefix(s, i, le);
      i := i + 1;
    }
    assert a[..] == a[..a.Length] && s[..a.Length] == s;
  }

  /** Sorting moves elements but does not change a sum over them. */
  lemma {:induction false} InsertSumOf<T(!new)>(g: T -> int, s: seq<T>, x: T, le: (T, T) -> bool)
    ensures SumOf(g, Insert(s, x, le)) == SumOf(g, s) + g(x)
  {
    if s == [] || le(s[|s| - 1], x) {
      SumOfAppend(g, s, x);
    } else {
      var init, last := s[..|s| - 1], s[|s| - 1];
      InsertSumOf(g, init, x, le);
      SumOfAppend(g, Insert(init, x, le), last);
      SumOfAppend(g, init, last);
      assert s == init + [last];
    }
  }

  lemma {:induction false} SortSumOf<T(!new)>(g: T -> int, s: seq<T>, le: (T, T) -> bool)
    ensures SumOf(g, InsertionSort(s, le)) == SumOf(g, s)
  {
    if s != [] {
      var init, last := s[..|s| - 1], s[|s| - 1];
      SortSumOf(g, init, le);
      InsertSumOf(g, InsertionSort(init, le), last, le);
      SumOfAppend(g, init, last);
      assert s == init + [last];
    }
  }

  lemma MultisetTwice<T>(r: seq<T>, i: nat, j: nat)
    requires i < j < |r|
    ensures r[i] == r[j] ==> multiset(r)[r[i]] >= 2
  {
    assert r == r[..j] + [r[j]] + r[j + 1..];
    assert r[..j][i] == r[i];
    assert r[i] in multiset(r[..j]);
  }

  lemma {:induction false} DistinctOnce<T>(s: seq<T>, x: T)
    requires forall i, j :: 0 <= i < j < |s| ==> s[i] != s[j]
    ensures multiset(s)[x] <= 1
  {
    if s != [] {
      DistinctOnce(s[1..], x);
      assert s == [s[0]] + s[1..];
      if s[0] == x {
        assert x !in s[1..] by {
          forall k | 0 <= k < |s[1..]| ensures s[1..][k] != x {
            assert s[1..][k] == s[k + 1];
          }
        }
      }
    }
  }

  /** A permutation of a list whose elements have distinct keys has distinct keys too. */
  lemma PermutationKeepsDistinct<T, K>(key: T -> K, s: seq<T>, r: seq<T>)
    requires multiset(r) == multiset(s)
    requires forall i, j :: 0 <= i < j < |s| ==> key(s[i]) != key(s[j])
    ensures forall i, j :: 0 <= i < j < |r| ==> key(r[i]) != key(r[j])
  {
    forall i, j | 0 <= i < j < |r| ensures key(r[i]) != key(r[j]) {
      assert r[i] in multiset(s) && r[j] in multiset(s);
      var a :| 0 <= a < |s| && s[a] == r[i];
      var b :| 0 <= b < |s| && s[b] == r[j];
      MultisetTwice(r, i, j);
      DistinctOnce(s, r[i]);
      assert r[i] != r[j];
      assert a != b;
    }
  }
}
