/** Maps of lists, their total contents, and order-preserving deduplication. */
module Collections {

  // ----- maps of lists -----

  function Get<K, V>(m: map<K, seq<V>>, k: K): seq<V> {
    if k in m then m[k] else []
  }

  /** `m.entry(k).or_default().extend(xs)` */
  function Extend<K, V>(m: map<K, seq<V>>, k: K, xs: seq<V>): map<K, seq<V>> {
    m[k := Get(m, k) + xs]
  }

  /** Everything the lists of `m` hold, with multiplicity. */
  ghost function Total<K, V>(m: map<K, seq<V>>): multiset<V>
    decreases |m|
  {
    if m == map[] then multiset{} else
      var k :| k in m;
      multiset(m[k]) + Total(m - {k})
  }

  lemma {:induction false} TotalSplit<K, V>(m: map<K, seq<V>>, k: K)
    requires k in m
    ensures Total(m) == multiset(m[k]) + Total(m - {k})
    decreases |m|
  {
    var c :| c in m && Total(m) == multiset(m[c]) + Total(m - {c});
    if c != k {
      TotalSplit(m - {c}, k);
      TotalSplit(m - {k}, c);
      assert m - {c} - {k} == m - {k} - {c};
    }
  }

  lemma TotalRemove<K, V>(m: map<K, seq<V>>, k: K)
    ensures Total(m) == multiset(Get(m, k)) + Total(m - {k})
  {
    if k in m {
      TotalSplit(m, k);
    } else {
      assert m - {k} == m;
    }
  }

  lemma TotalExtend<K, V>(m: map<K, seq<V>>, k: K, xs: seq<V>)
    ensures Total(Extend(m, k, xs)) == Total(m) + multiset(xs)
  {
    var before := Get(m, k);
    var e := m[k := before + xs];
    TotalSplit(e, k);
    TotalRemove(m, k);
    assert e - {k} == m - {k};
    assert multiset(before + xs) == multiset(before) + multiset(xs);
  }

  // ----- deduplication keeping first occurrences -----

  predicate NoDuplicates<T(==)>(xs: seq<T>) {
    forall i, j | 0 <= i < j < |xs| :: xs[i] != xs[j]
  }

  function Dedup<T(==, !new)>(xs: seq<T>): (r: seq<T>)
    ensures NoDuplicates(r)
    ensures forall x :: x in r <==> x in xs
  {
    if xs == [] then [] else
      var n := |xs| - 1;
      var r := Dedup(xs[..n]);
      assert xs == xs[..n] + [xs[n]];
      if xs[n] in r then r else r + [xs[n]]
  }

  lemma DedupStep<T(!new)>(xs: seq<T>, x: T)
    ensures Dedup(xs + [x]) == if x in Dedup(xs) then Dedup(xs) else Dedup(xs) + [x]
  {
    assert (xs + [x])[..|xs|] == xs;
  }

  lemma {:induction false} DedupKnown<T(!new)>(a: seq<T>, b: seq<T>)
    requires forall x | x in b :: x in a
    ensures Dedup(a + b) == Dedup(a)
    decreases |b|
  {
    hide Dedup;
    if b == [] {
      assert a + b == a;
    } else {
      var n := |b| - 1;
      DedupKnown(a, b[..n]);
      DedupStep(a + b[..n], b[n]);
      assert a + b == a + b[..n] + [b[n]];
    }
  }

  lemma {:induction false} DedupDistinct<T(!new)>(a: seq<T>)
    requires NoDuplicates(a)
    ensures Dedup(a) == a
  {
    if a != [] {
      var n := |a| - 1;
      DedupDistinct(a[..n]);
      assert a == a[..n] + [a[n]];
    }
  }

  lemma AppendLast<T>(a: seq<T>, b: seq<T>)
    requires b != []
    ensures a + b == (a + b[..|b| - 1]) + [b[|b| - 1]]
  {
  }

  lemma {:induction false} DedupTwice<T(!new)>(a: seq<T>, b: seq<T>)
    ensures Dedup(a + b) == Dedup(Dedup(a) + b)
    decreases |b|
  {
    if b == [] {
      assert a + b == a && Dedup(a) + b == Dedup(a);
      DedupDistinct(Dedup(a));
    } else {
      var n := |b| - 1;
      DedupTwice(a, b[..n]);
      DedupStep(a + b[..n], b[n]);
      DedupStep(Dedup(a) + b[..n], b[n]);
      AppendLast(a, b);
      AppendLast(Dedup(a), b);
    }
  }

  /** The deduplicating loop of the source: keep an element the first time it is seen. */
  method DedupLoop<T(==, !new)>(xs: seq<T>) returns (deduped: seq<T>)
    ensures deduped == Dedup(xs)
  {
    var seen: set<T> := {};
    deduped := [];
    for i := 0 to |xs|
      invariant deduped == Dedup(xs[..i])
      invariant forall x :: x in seen <==> x in deduped
    {
      DedupStep(xs[..i], xs[i]);
      assert xs[..i + 1] == xs[..i] + [xs[i]];
      if xs[i] !in seen {
        seen := seen + {xs[i]};
        deduped := deduped + [xs[i]];
      }
    }
    assert xs[..|xs|] == xs;
  }

  // ----- sums over multisets -----

  /** The multiset union of `f(c)` over all `c` in `cs`, with multiplicity. */
  ghost function Sum<C, X>(cs: multiset<C>, f: C -> multiset<X>): multiset<X>
    decreases |cs|
  {
    if cs == multiset{} then multiset{} else
      var c :| c in cs;
      f(c) + Sum(cs - multiset{c}, f)
  }

  lemma {:induction false} SumSplit<C, X>(cs: multiset<C>, f: C -> multiset<X>, c: C)
    requires c in cs
    ensures Sum(cs, f) == f(c) + Sum(cs - multiset{c}, f)
    decreases |cs|
  {
    var d :| d in cs && Sum(cs, f) == f(d) + Sum(cs - multiset{d}, f);
    if d != c {
      SumSplit(cs - multiset{d}, f, c);
      SumSplit(cs - multiset{c}, f, d);
      assert cs - multiset{d} - multiset{c} == cs - multiset{c} - multiset{d};
    }
  }

  lemma {:induction false} SumPlus<C, X>(a: multiset<C>, b: multiset<C>, f: C -> multiset<X>)
    ensures Sum(a + b, f) == Sum(a, f) + Sum(b, f)
    decreases |b|
  {
    if b == multiset{} {
      assert a + b == a;
    } else {
      var c :| c in b;
      var rest := b - multiset{c};
      SumPlus(a, rest, f);
      SumSplit(b, f, c);
      SumSplit(a + b, f, c);
      assert a + b - multiset{c} == a + rest;
    }
  }

  lemma SumOne<C, X>(c: C, f: C -> multiset<X>)
    ensures Sum(multiset{c}, f) == f(c)
  {
    SumSplit(multiset{c}, f, c);
    assert multiset{c} - multiset{c} == multiset{};
  }

  lemma {:induction false} SumNothing<C, X>(cs: multiset<C>, f: C -> multiset<X>)
    requires forall c | c in cs :: f(c) == multiset{}
    ensures Sum(cs, f) == multiset{}
    decreases |cs|
  {
    if cs != multiset{} {
      var c :| c in cs;
      SumSplit(cs, f, c);
      SumNothing(cs - multiset{c}, f);
    }
  }
}
