/** Sequence helpers shared by every page and handler: JavaScript's
    `Array.prototype.filter`, element counts, id-matched `map` updates and sums. */
module Seqs {
  import opened Wrappers

  /** `s.filter(p)`: the elements of `s` satisfying `p`, in their original order. */
  function Filter<T(!new)>(p: T -> bool, s: seq<T>): (r: seq<T>)
    ensures |r| <= |s|
    ensures forall x :: x in r <==> x in s && p(x)
    ensures forall i :: 0 <= i < |r| ==> p(r[i])
  {
    if s == [] then []
    else (if p(s[0]) then [s[0]] else []) + Filter(p, s[1..])
  }

  /** `s.filter(p).length`. */
  function Count<T(!new)>(p: T -> bool, s: seq<T>): (n: nat)
  {
    |Filter(p, s)|
  }

  /** `r` is an order-preserving sublist of `s` (some elements dropped, none reordered). */
  ghost predicate Sublist<T(!new)>(r: seq<T>, s: seq<T>)
    decreases |s|
  {
    if r == [] then true
    else if s == [] then false
    else if r[0] == s[0] then Sublist(r[1..], s[1..])
    else Sublist(r, s[1..])
  }

  /** `s.filter(p)` keeps every occurrence of an element satisfying `p` and none of the others. */
  lemma {:induction false} FilterMultiset<T(!new)>(p: T -> bool, s: seq<T>)
    ensures forall x :: multiset(Filter(p, s))[x] == if p(x) then multiset(s)[x] else 0
  {
    if s != [] {
      FilterMultiset(p, s[1..]);
      assert s == [s[0]] + s[1..];
    }
  }

  lemma {:induction false} FilterIsSublist<T(!new)>(p: T -> bool, s: seq<T>)
    ensures Sublist(Filter(p, s), s)
  {
    if s != [] {
      FilterIsSublist(p, s[1..]);
      if p(s[0]) {
        assert Filter(p, s)[1..] == Filter(p, s[1..]);
      } else {
        assert Filter(p, s) == Filter(p, s[1..]);
        SublistDropHead(Filter(p, s[1..]), s);
      }
    }
  }

  lemma {:induction false} SublistDropHead<T(!new)>(r: seq<T>, s: seq<T>)
    requires s != []
    requires Sublist(r, s[1..])
    ensures Sublist(r, s)
    decreases |s|, |r|
  {
    if r != [] && r[0] == s[0] {
      SublistTail(r, s[1..]);
    }
  }

  lemma {:induction false} SublistTail<T(!new)>(r: seq<T>, s: seq<T>)
    requires r != []
    requires Sublist(r, s)
    ensures Sublist(r[1..], s)
    decreases |s|, |r|
  {
    if s == [] {
      assert false;
    } else if r[0] == s[0] {
      if r[1..] != [] {
        SublistDropHead(r[1..], s);
      }
    } else {
      SublistTail(r, s[1..]);
      SublistDropHead(r[1..], s);
    }
  }

  lemma {:induction false} FilterConcat<T(!new)>(p: T -> bool, a: seq<T>, b: seq<T>)
    ensures Filter(p, a + b) == Filter(p, a) + Filter(p, b)
  {
    if a == [] {
      assert a + b == b;
    } else {
      assert (a + b)[0] == a[0];
      assert (a + b)[1..] == a[1..] + b;
      FilterConcat(p, a[1..], b);
    }
  }

  /** A filter that every element passes returns the list unchanged. */
  lemma {:induction false} FilterAll<T(!new)>(p: T -> bool, s: seq<T>)
    requires forall i :: 0 <= i < |s| ==> p(s[i])
    ensures Filter(p, s) == s
  {
    if s != [] {
      FilterAll(p, s[1..]);
    }
  }

  /** Filtering with `p` gives the same list as filtering with `q` when they agree on `s`. */
  lemma {:induction false} FilterCongruent<T(!new)>(p: T -> bool, q: T -> bool, s: seq<T>)
    requires forall i :: 0 <= i < |s| ==> p(s[i]) == q(s[i])
    ensures Filter(p, s) == Filter(q, s)
  {
    if s != [] {
      FilterCongruent(p, q, s[1..]);
    }
  }

  /** Two filters whose predicates exclude each other count no more than the whole list. */
  lemma {:induction false} CountDisjoint<T(!new)>(p: T -> bool, q: T -> bool, s: seq<T>)
    requires forall i :: 0 <= i < |s| ==> !(p(s[i]) && q(s[i]))
    ensures Count(p, s) + Count(q, s) <= |s|
  {
    if s != [] {
      CountDisjoint(p, q, s[1..]);
    }
  }

  /** A filter and its complement split the list between them. */
  lemma {:induction false} FilterSplit<T(!new)>(p: T -> bool, q: T -> bool, s: seq<T>)
    requires forall i :: 0 <= i < |s| ==> q(s[i]) == !p(s[i])
    ensures Count(p, s) + Count(q, s) == |s|
  {
    if s != [] {
      FilterSplit(p, q, s[1..]);
    }
  }

  /** Three filters whose predicates exclude one another count no more than the whole list. */
  lemma {:induction false} CountDisjoint3<T(!new)>(p: T -> bool, q: T -> bool, r: T -> bool, s: seq<T>)
    requires forall i :: 0 <= i < |s| ==> !(p(s[i]) && q(s[i])) && !(p(s[i]) && r(s[i])) && !(q(s[i]) && r(s[i]))
    ensures Count(p, s) + Count(q, s) + Count(r, s) <= |s|
  {
    if s != [] {
      CountDisjoint3(p, q, r, s[1..]);
    }
  }

  /** `s.map(x => p(x) ? f(x) : x)`: the elements satisfying `p` are replaced by `f` of
      themselves, all others stay where they are. */
  function MapWhere<T(!new)>(p: T -> bool, f: T -> T, s: seq<T>): (r: seq<T>)
    ensures |r| == |s|
    ensures forall i :: 0 <= i < |s| ==> r[i] == (if p(s[i]) then f(s[i]) else s[i])
  {
    if s == [] then []
    else [if p(s[0]) then f(s[0]) else s[0]] + MapWhere(p, f, s[1..])
  }

  /** Sum of a sequence of integers. */
  function Sum(s: seq<int>): int
  {
    if s == [] then 0 else s[0] + Sum(s[1..])
  }

  lemma {:induction false} SumConcat(a: seq<int>, b: seq<int>)
    ensures Sum(a + b) == Sum(a) + Sum(b)
  {
    if a == [] {
      assert a + b == b;
    } else {
      assert (a + b)[0] == a[0];
      assert (a + b)[1..] == a[1..] + b;
      SumConcat(a[1..], b);
    }
  }

  /** `s.findIndex(p)`, with `None` standing for -1. */
  function FirstIndex<T(!new)>(p: T -> bool, s: seq<T>): (r: Option<nat>)
    ensures r.Some? ==> r.value < |s| && p(s[r.value]) && forall j :: 0 <= j < r.value ==> !p(s[j])
    ensures r.None? ==> forall j :: 0 <= j < |s| ==> !p(s[j])
  {
    if s == [] then None
    else if p(s[0]) then Some(0)
    else
      var k := FirstIndex(p, s[1..]);
      if k.Some? then Some(k.value + 1) else None
  }

  /** The first element satisfying `p` is found where it is. */
  lemma {:induction false} FirstIndexAt<T(!new)>(p: T -> bool, s: seq<T>, i: nat)
    requires i < |s| && p(s[i]) && forall j :: 0 <= j < i ==> !p(s[j])
    ensures FirstIndex(p, s) == Some(i)
  {
    if i > 0 {
      assert !p(s[0]);
      assert s[1..][i - 1] == s[i];
      FirstIndexAt(p, s[1..], i - 1);
    }
  }

  lemma {:induction false} FirstIndexNone<T(!new)>(p: T -> bool, s: seq<T>)
    requires forall j :: 0 <= j < |s| ==> !p(s[j])
    ensures FirstIndex(p, s) == None
  {
    if s != [] {
      assert !p(s[0]);
      FirstIndexNone(p, s[1..]);
    }
  }

  /** `s.find(p)`: the first element satisfying `p`, if any. */
  function Find<T(!new)>(p: T -> bool, s: seq<T>): (r: Option<T>)
    ensures r.Some? <==> exists i :: 0 <= i < |s| && p(s[i])
    ensures r.Some? ==> r.value in s && p(r.value)
    ensures r.Some? ==>
      exists i :: 0 <= i < |s| && r.value == s[i] && p(s[i]) && forall j :: 0 <= j < i ==> !p(s[j])
  {
    var k := FirstIndex(p, s);
    if k.Some? then Some(s[k.value]) else None
  }

  /** A prefix one longer is the shorter one and the next element. */
  lemma PrefixSnoc<T>(s: seq<T>, i: nat)
    requires 1 <= i <= |s|
    ensures s[..i] == s[..i - 1] + [s[i - 1]]
  {
  }

  /** Two blocks that commute can trade places after a common prefix. */
  lemma SwapLast<T>(a: seq<T>, x: seq<T>, l: seq<T>)
    requires x + l == l + x
    ensures a + x + l == a + l + x
  {
    assert a + x + l == a + (x + l);
    assert a + l + x == a + (l + x);
  }

  /** The blocks of `b` one after another. */
  function Concat<T>(b: seq<seq<T>>): seq<T>
  {
    if b == [] then [] else Concat(b[..|b| - 1]) + b[|b| - 1]
  }

  lemma ConcatPrefix<T>(b: seq<seq<T>>, d: nat)
    requires d < |b|
    ensures Concat(b[..d + 1]) == Concat(b[..d]) + b[d]
  {
    assert b[..d + 1][..d] == b[..d];
  }

  lemma MulMonotone(a: nat, b: nat, n: nat)
    requires a <= b
    ensures a * n <= b * n
  {
  }

  /** Blocks of `n` elements each make `|b| * n` elements. */
  lemma {:induction false} ConcatLength<T>(b: seq<seq<T>>, n: nat)
    requires forall i :: 0 <= i < |b| ==> |b[i]| == n
    ensures |Concat(b)| == |b| * n
  {
    if b != [] {
      var init := b[..|b| - 1];
      ConcatLength(init, n);
      assert Concat(b) == Concat(init) + b[|b| - 1];
      assert |b| * n == |init| * n + n;
    }
  }

  /** Blocks of `n` elements each: element `j` of block `d` sits at `d * n + j`. */
  lemma {:induction false} ConcatAt<T>(b: seq<seq<T>>, n: nat, d: nat, j: nat)
    requires forall i :: 0 <= i < |b| ==> |b[i]| == n
    requires d < |b| && j < n
    ensures |Concat(b)| == |b| * n && d * n + j < |b| * n && Concat(b)[d * n + j] == b[d][j]
  {
    ConcatLength(b, n);
    var init := b[..|b| - 1];
    ConcatLength(init, n);
    assert Concat(b) == Concat(init) + b[|b| - 1];
    assert |b| * n == |init| * n + n;
    if d < |init| {
      ConcatAt(init, n, d, j);
      MulMonotone(d + 1, |init|, n);
      assert init[d] == b[d];
    } else {
      assert d * n + j == |Concat(init)| + j;
    }
  }

  /** The sum of `g` over `s`. */
  function SumOf<T>(g: T -> int, s: seq<T>): int
  {
    if s == [] then 0 else g(s[0]) + SumOf(g, s[1..])
  }

  lemma {:induction false} SumOfAppend<T>(g: T -> int, s: seq<T>, x: T)
    ensures SumOf(g, s + [x]) == SumOf(g, s) + g(x)
  {
    if s != [] {
      SumOfAppend(g, s[1..], x);
      assert (s + [x])[1..] == s[1..] + [x];
    }
  }

  /** Counting over one more element. */
  lemma CountAppend<T(!new)>(p: T -> bool, s: seq<T>, x: T)
    ensures Count(p, s + [x]) == Count(p, s) + (if p(x) then 1 else 0)
  {
    FilterConcat(p, s, [x]);
  }

  /** Filtering a list with one more element at the end. */
  lemma FilterAppend<T(!new)>(p: T -> bool, s: seq<T>, x: T)
    ensures Filter(p, s + [x]) == if p(x) then Filter(p, s) + [x] else Filter(p, s)
  {
    FilterConcat(p, s, [x]);
  }
}
