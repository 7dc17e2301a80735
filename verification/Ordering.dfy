/** Sorting a finite set by a strict total order: the order in which the node ranks
    addresses, providers and target peers. */
module Ordering {

  ghost predicate StrictTotal<T(!new)>(lt: (T, T) -> bool) {
    && (forall a :: !lt(a, a))
    && (forall a, b :: a == b || lt(a, b) || lt(b, a))
    && (forall a, b, c :: lt(a, b) && lt(b, c) ==> lt(a, c))
  }

  ghost predicate Sorted<T(!new)>(r: seq<T>, lt: (T, T) -> bool) {
    forall i, j :: 0 <= i < j < |r| ==> lt(r[i], r[j])
  }

  predicate IsFirst<T(==)>(b: T, s: set<T>, lt: (T, T) -> bool) {
    b in s && forall x | x in s :: x == b || lt(b, x)
  }

  lemma {:induction false} FirstExists<T(!new)>(s: set<T>, lt: (T, T) -> bool)
    requires StrictTotal(lt) && s != {}
    ensures exists b :: IsFirst(b, s, lt)
    decreases |s|
  {
    var x :| x in s;
    if s == {x} {
      assert IsFirst(x, s, lt);
    } else {
      var rest := s - {x};
      assert rest != {};
      FirstExists(rest, lt);
      var b :| IsFirst(b, rest, lt);
      assert s == rest + {x};
      if lt(x, b) {
        assert IsFirst(x, s, lt);
      } else {
        assert IsFirst(b, s, lt);
      }
    }
  }

  /** The elements of `s` from first to last. */
  function Rank<T(==, !new)>(s: set<T>, lt: (T, T) -> bool): (r: seq<T>)
    requires StrictTotal(lt)
    ensures Sorted(r, lt)
    ensures forall x :: x in r <==> x in s
    ensures |r| == |s|
    decreases |s|
  {
    if s == {} then [] else
      FirstExists(s, lt);
      var b :| IsFirst(b, s, lt);
      var rest := Rank(s - {b}, lt);
      [b] + rest
  }

  lemma Asymmetric<T(!new)>(lt: (T, T) -> bool, a: T, b: T)
    requires StrictTotal(lt) && lt(a, b)
    ensures a != b && !lt(b, a)
  {
  }

  lemma RankUnfold<T(!new)>(s: set<T>, lt: (T, T) -> bool, m: T)
    requires StrictTotal(lt) && IsFirst(m, s, lt)
    ensures Rank(s, lt) == [m] + Rank(s - {m}, lt)
  {
    var r := Rank(s, lt);
    var b :| IsFirst(b, s, lt) && r == [b] + Rank(s - {b}, lt);
    if b != m {
      Asymmetric(lt, b, m);
    }
  }

  lemma SortedTail<T(!new)>(r: seq<T>, s: set<T>, lt: (T, T) -> bool)
    requires StrictTotal(lt) && Sorted(r, lt) && r != []
    requires forall x :: x in r <==> x in s
    ensures IsFirst(r[0], s, lt) && Sorted(r[1..], lt)
    ensures forall x :: x in r[1..] <==> x in s - {r[0]}
  {
    var tail := r[1..];
    assert r == [r[0]] + tail;
    forall x | x in tail ensures x != r[0] {
      var i :| 0 <= i < |tail| && tail[i] == x;
      assert lt(r[0], r[i + 1]);
    }
    forall x | x in s ensures x == r[0] || lt(r[0], x) {
      assert x in r;
      var i :| 0 <= i < |r| && r[i] == x;
    }
  }

  /** A sorted listing of a set is its ranking: any sorting algorithm computes `Rank`. */
  lemma {:induction false} SortedIsRank<T(!new)>(r: seq<T>, s: set<T>, lt: (T, T) -> bool)
    requires StrictTotal(lt) && Sorted(r, lt)
    requires forall x :: x in r <==> x in s
    ensures r == Rank(s, lt)
    decreases |s|
  {
    if r == [] {
      assert forall x | x in s :: x in r;
      assert s == {};
    } else {
      SortedTail(r, s, lt);
      RankUnfold(s, lt, r[0]);
      SortedIsRank(r[1..], s - {r[0]}, lt);
      assert r == [r[0]] + r[1..];
    }
  }

  /** `small` is what is left of `big` when its last elements are cut off. */
  ghost predicate InitialSegment<T(!new)>(small: set<T>, big: set<T>, lt: (T, T) -> bool) {
    small <= big && forall a, b | a in big && b in small && lt(a, b) :: a in small
  }

  lemma SegmentStep<T(!new)>(small: set<T>, big: set<T>, lt: (T, T) -> bool, m: T)
    requires InitialSegment(small, big, lt) && small != {} && IsFirst(m, big, lt)
    ensures IsFirst(m, small, lt) && InitialSegment(small - {m}, big - {m}, lt)
  {
    var x :| x in small;
    assert x in big;
    assert x == m || lt(m, x);
  }

  /** Cutting a set to an initial segment of its order cuts its ranking to a prefix. */
  lemma {:induction false} InitialSegmentIsPrefix<T(!new)>(small: set<T>, big: set<T>, lt: (T, T) -> bool)
    requires StrictTotal(lt) && InitialSegment(small, big, lt)
    ensures Rank(small, lt) <= Rank(big, lt)
    decreases |big|
  {
    hide Rank;
    if small != {} {
      FirstExists(big, lt);
      var m :| IsFirst(m, big, lt);
      SegmentStep(small, big, lt, m);
      RankUnfold(big, lt, m);
      RankUnfold(small, lt, m);
      InitialSegmentIsPrefix(small - {m}, big - {m}, lt);
    }
  }

  // ----- the order in which a hash set is iterated -----

  /** `r` lists the elements of `s`, each once. */
  ghost predicate Enumerates<T(!new)>(r: seq<T>, s: set<T>) {
    (forall x :: x in r <==> x in s) && forall i, j | 0 <= i < j < |r| :: r[i] != r[j]
  }

  /** The elements of `s` that `order` names, at their first place. */
  function Named<T(==)>(order: seq<T>, s: set<T>): seq<T> {
    if order == [] then [] else
      var n := |order| - 1;
      var front := Named(order[..n], s);
      if order[n] in s && order[n] !in front then front + [order[n]] else front
  }

  lemma {:induction false} NamedEnumerates<T(!new)>(order: seq<T>, s: set<T>)
    ensures Enumerates(Named(order, s), set x | x in order && x in s)
    ensures Enumerates(order, s) ==> Named(order, s) == order
  {
    if order != [] {
      var n := |order| - 1;
      NamedEnumerates(order[..n], s);
      assert order == order[..n] + [order[n]];
      if Enumerates(order, s) {
        NamedPrefix(order, s);
      }
    }
  }

  lemma {:induction false} NamedPrefix<T(!new)>(order: seq<T>, s: set<T>)
    requires (forall x | x in order :: x in s) && forall i, j | 0 <= i < j < |order| :: order[i] != order[j]
    ensures Named(order, s) == order
  {
    if order != [] {
      var n := |order| - 1;
      assert order == order[..n] + [order[n]];
      NamedPrefix(order[..n], s);
    }
  }

  /** A listing of `s`, in the order that `order` asks for; what it does not name comes last. */
  function Listing<T(==, !new)>(s: set<T>, order: seq<T>, lt: (T, T) -> bool): seq<T>
    requires StrictTotal(lt)
  {
    Named(order, s) + Rank(s - (set x | x in order), lt)
  }

  /** Every order gives a listing, and every listing is given by some order: itself. */
  lemma ListingEnumerates<T(!new)>(s: set<T>, order: seq<T>, lt: (T, T) -> bool)
    requires StrictTotal(lt)
    ensures Enumerates(Listing(s, order, lt), s)
    ensures Enumerates(order, s) ==> Listing(s, order, lt) == order
  {
    NamedEnumerates(order, s);
    var front, back := Named(order, s), Rank(s - (set x | x in order), lt);
    forall i, j | 0 <= i < j < |front + back| ensures (front + back)[i] != (front + back)[j] {
      if i < |front| {
        assert front[i] in front;
        if |front| <= j { assert back[j - |front|] in back; }
      } else {
        Asymmetric(lt, back[i - |front|], back[j - |front|]);
      }
    }
    if Enumerates(order, s) {
      assert s - (set x | x in order) == {};
    }
  }

  // ----- sorting -----

  /** Insertion into a sorted listing, the step of the sorts the node performs. */
  method InsertSorted<T(==, !new)>(r: seq<T>, x: T, lt: (T, T) -> bool) returns (q: seq<T>)
    requires StrictTotal(lt) && Sorted(r, lt) && x !in r
    ensures Sorted(q, lt)
    ensures forall y :: y in q <==> y in r || y == x
  {
    var i := 0;
    while i < |r| && lt(r[i], x)
      invariant 0 <= i <= |r|
      invariant forall k :: 0 <= k < i ==> lt(r[k], x)
    {
      i := i + 1;
    }
    forall k | i <= k < |r| ensures lt(x, r[k]) {
      assert r[k] in r;
      assert r[i] in r;
      assert lt(x, r[i]);
      if i < k { assert lt(r[i], r[k]); }
    }
    q := r[..i] + [x] + r[i..];
    forall y ensures y in q <==> y in r || y == x {
      assert r == r[..i] + r[i..];
    }
  }

  method SortSet<T(==, !new)>(s: set<T>, lt: (T, T) -> bool) returns (r: seq<T>)
    requires StrictTotal(lt)
    ensures r == Rank(s, lt)
  {
    r := [];
    var todo := s;
    while todo != {}
      invariant todo <= s && Sorted(r, lt)
      invariant forall x :: x in r <==> x in s - todo
      decreases |todo|
    {
      var x :| x in todo;
      todo := todo - {x};
      r := InsertSorted(r, x, lt);
    }
    SortedIsRank(r, s, lt);
  }
}
