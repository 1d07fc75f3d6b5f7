/** JavaScript's `Map` with string keys, kept as a list of entries in insertion
    order (the order `entries()` and `values()` walk). */
module Assoc {
  import opened Wrappers
  import opened Seqs

  type Entries<V> = seq<(string, V)>

  /** No key occurs twice. */
  predicate DistinctKeys<V>(m: Entries<V>)
  {
    forall i, j :: 0 <= i < j < |m| ==> m[i].0 != m[j].0
  }

  function KeySet<V>(m: Entries<V>): set<string>
  {
    set i | 0 <= i < |m| :: m[i].0
  }

  lemma KeySetCons<V>(m: Entries<V>)
    requires m != []
    ensures KeySet(m) == {m[0].0} + KeySet(m[1..])
  {
    forall x | x in KeySet(m) ensures x in {m[0].0} + KeySet(m[1..]) {
      var i :| 0 <= i < |m| && m[i].0 == x;
      if i > 0 { assert m[1..][i - 1].0 == x; }
    }
    forall x | x in KeySet(m[1..]) ensures x in KeySet(m) {
      var i :| 0 <= i < |m[1..]| && m[1..][i].0 == x;
      assert m[i + 1].0 == x;
    }
  }

  lemma DistinctKeysCons<V>(m: Entries<V>)
    requires m != []
    ensures DistinctKeys(m) <==> DistinctKeys(m[1..]) && m[0].0 !in KeySet(m[1..])
  {
    KeySetCons(m);
    if DistinctKeys(m[1..]) && m[0].0 !in KeySet(m[1..]) {
      forall i, j | 0 <= i < j < |m| ensures m[i].0 != m[j].0 {
        if i == 0 {
          assert m[j].0 == m[1..][j - 1].0;
        } else {
          assert m[i] == m[1..][i - 1] && m[j] == m[1..][j - 1];
        }
      }
    }
    if DistinctKeys(m) {
      forall i, j | 0 <= i < j < |m[1..]| ensures m[1..][i].0 != m[1..][j].0 {
        assert m[i + 1].0 != m[j + 1].0;
      }
      forall i | 0 <= i < |m[1..]| ensures m[1..][i].0 != m[0].0 {
        assert m[i + 1].0 != m[0].0;
      }
    }
  }

  /** `m.get(k)`. */
  function Lookup<V>(m: Entries<V>, k: string): (r: Option<V>)
    ensures r.None? <==> k !in KeySet(m)
  {
    if m == [] then None
    else
      KeySetCons(m);
      if m[0].0 == k then Some(m[0].1) else Lookup(m[1..], k)
  }

  lemma SameKeys<V>(a: Entries<V>, b: Entries<V>)
    requires |a| == |b| && forall i :: 0 <= i < |a| ==> a[i].0 == b[i].0
    ensures KeySet(a) == KeySet(b)
  {
    forall x | x in KeySet(a) ensures x in KeySet(b) {
      var i :| 0 <= i < |a| && a[i].0 == x;
      assert b[i].0 == x;
    }
    forall x | x in KeySet(b) ensures x in KeySet(a) {
      var i :| 0 <= i < |b| && b[i].0 == x;
      assert a[i].0 == x;
    }
  }

  /** `if (!m.has(k)) m.set(k, init); m.set(k, f(m.get(k)))`: an existing entry is
      updated where it stands, a new key is appended. */
  function Upsert<V>(m: Entries<V>, k: string, init: V, f: V -> V): (r: Entries<V>)
    ensures KeySet(r) == KeySet(m) + {k}
    ensures k in KeySet(m) ==> |r| == |m|
    ensures k !in KeySet(m) ==> r == m + [(k, f(init))]
  {
    if m == [] then
      var r := [(k, f(init))];
      assert r[0].0 == k;
      r
    else if m[0].0 == k then
      var r := [(k, f(m[0].1))] + m[1..];
      SameKeys(m, r);
      r
    else
      var rest := Upsert(m[1..], k, init, f);
      var r := [m[0]] + rest;
      assert r[1..] == rest;
      KeySetCons(m);
      KeySetCons(r);
      r
  }

  /** An upsert never makes a key occur twice. */
  lemma {:induction false} UpsertDistinct<V>(m: Entries<V>, k: string, init: V, f: V -> V)
    requires DistinctKeys(m)
    ensures DistinctKeys(Upsert(m, k, init, f))
  {
    if m != [] {
      var r := Upsert(m, k, init, f);
      DistinctKeysCons(m);
      DistinctKeysCons(r);
      if m[0].0 == k {
        assert r[1..] == m[1..];
      } else {
        UpsertDistinct(m[1..], k, init, f);
        assert r[1..] == Upsert(m[1..], k, init, f);
        KeySetCons(r);
      }
    }
  }

  /** After an upsert, `k` holds `f` of its old value (or of `init`), and every other
      key keeps its value. */
  lemma {:induction false} LookupUpsert<V>(m: Entries<V>, k: string, init: V, f: V -> V, q: string)
    ensures Lookup(Upsert(m, k, init, f), q) ==
            if q == k then Some(f(if Lookup(m, k).Some? then Lookup(m, k).value else init))
            else Lookup(m, q)
  {
    if m != [] && m[0].0 != k {
      LookupUpsert(m[1..], k, init, f, q);
      assert Upsert(m, k, init, f)[1..] == Upsert(m[1..], k, init, f);
    }
  }

  /** The values, in insertion order. */
  function Values<V>(m: Entries<V>): (r: seq<V>)
    ensures |r| == |m| && forall i :: 0 <= i < |m| ==> r[i] == m[i].1
  {
    if m == [] then [] else [m[0].1] + Values(m[1..])
  }

  /** `v => v + c`. */
  function AddTo(c: int): int -> int
  {
    v => v + c
  }

  /** Adding `c` under one key adds `c` to the sum of all values. */
  lemma {:induction false} SumUpsertAdd(m: Entries<int>, k: string, c: int)
    ensures Sum(Values(Upsert(m, k, 0, AddTo(c)))) == Sum(Values(m)) + c
  {
    var r := Upsert(m, k, 0, AddTo(c));
    if m != [] && m[0].0 == k {
      assert r[1..] == m[1..];
    } else if m != [] {
      SumUpsertAdd(m[1..], k, c);
      assert r[1..] == Upsert(m[1..], k, 0, AddTo(c));
    }
  }

  /** When `f` adds `c` to a measure `g` that is 0 on `init`, an upsert adds `c` to the total measure. */
  lemma {:induction false} UpsertSumOf<V>(g: V -> int, m: Entries<V>, k: string, init: V, f: V -> V, c: int)
    requires g(init) == 0 && forall v :: g(f(v)) == g(v) + c
    ensures SumOf(g, Values(Upsert(m, k, init, f))) == SumOf(g, Values(m)) + c
  {
    var r := Upsert(m, k, init, f);
    if m != [] && m[0].0 == k {
      assert r[1..] == m[1..];
    } else if m != [] {
      UpsertSumOf(g, m[1..], k, init, f, c);
      assert r[1..] == Upsert(m[1..], k, init, f);
    }
  }

  /** An upsert keeps a property of every entry when `f` keeps it and the new entry has it. */
  lemma {:induction false} UpsertAll<V>(ok: (string, V) -> bool, m: Entries<V>, k: string, init: V, f: V -> V)
    requires forall i :: 0 <= i < |m| ==> ok(m[i].0, m[i].1)
    requires ok(k, f(init)) && forall v :: ok(k, v) ==> ok(k, f(v))
    ensures forall i :: 0 <= i < |Upsert(m, k, init, f)| ==> ok(Upsert(m, k, init, f)[i].0, Upsert(m, k, init, f)[i].1)
  {
    if m != [] && m[0].0 != k {
      UpsertAll(ok, m[1..], k, init, f);
      var r := Upsert(m, k, init, f);
      assert r[1..] == Upsert(m[1..], k, init, f);
      forall i | 0 <= i < |r| ensures ok(r[i].0, r[i].1) {
        if i > 0 {
          assert r[i] == r[1..][i - 1];
        }
      }
    } else if m != [] {
      var r := Upsert(m, k, init, f);
      forall i | 0 <= i < |r| ensures ok(r[i].0, r[i].1) {
        if i > 0 {
          assert r[i] == m[i];
        }
      }
    }
  }
}
