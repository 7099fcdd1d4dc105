/**
 A stable insertion sort by a caller-supplied "may come first" relation.
 JavaScript's `Array.prototype.sort` is stable (ECMAScript 2019), so for a
 comparator that is a total preorder its result is the unique stable ordering,
 which is what `SortBy` computes.
 */
module Sorting {
  import opened Seqs

  /** `le` is total and transitive on all values. */
  ghost predicate TotalPreorder<T(!new)>(le: (T, T) -> bool)
  {
    && (forall a, b :: le(a, b) || le(b, a))
    && (forall a, b, c :: le(a, b) && le(b, c) ==> le(a, c))
  }

  /** Every element may come before every later one. */
  predicate SortedBy<T>(s: seq<T>, le: (T, T) -> bool)
  {
    forall i, j :: 0 <= i < j < |s| ==> le(s[i], s[j])
  }

  /**
   Places `x` in front of the first element it may precede; placing it in
   front of an equal element is what keeps earlier elements first.
   */
  function Insert<T(==)>(x: T, t: seq<T>, le: (T, T) -> bool): (r: seq<T>)
    ensures multiset(r) == multiset{x} + multiset(t)
  {
    if t == [] || le(x, t[0]) then [x] + t
    else
      assert t == [t[0]] + t[1..];
      [t[0]] + Insert(x, t[1..], le)
  }

  /** Insertion sort: the first element is inserted into the sorted rest. */
  function SortBy<T(==)>(s: seq<T>, le: (T, T) -> bool): (r: seq<T>)
    ensures multiset(r) == multiset(s)
    ensures |r| == |s|
  {
    if s == [] then []
    else
      assert s == [s[0]] + s[1..];
      Insert(s[0], SortBy(s[1..], le), le)
  }

  lemma InsertMembers<T>(x: T, t: seq<T>, le: (T, T) -> bool)
    ensures forall y :: y in Insert(x, t, le) <==> y == x || y in t
  {
    var r := Insert(x, t, le);
    forall y ensures y in r <==> y == x || y in t {
      calc {
        y in r;
        y in multiset(r);
        y in multiset{x} + multiset(t);
        y == x || y in t;
      }
    }
  }

  lemma SortByMembers<T>(s: seq<T>, le: (T, T) -> bool)
    ensures forall y :: y in SortBy(s, le) <==> y in s
  {
    var r := SortBy(s, le);
    forall y ensures y in r <==> y in s {
      assert y in r <==> y in multiset(r);
      assert y in s <==> y in multiset(s);
    }
  }

  lemma {:induction false} InsertSorted<T(!new)>(x: T, t: seq<T>, le: (T, T) -> bool)
    requires TotalPreorder(le)
    requires SortedBy(t, le)
    ensures SortedBy(Insert(x, t, le), le)
  {
    if t == [] || le(x, t[0]) {
    } else {
      InsertSorted(x, t[1..], le);
      InsertMembers(x, t[1..], le);
      var rest := Insert(x, t[1..], le);
      assert le(t[0], x);
      forall j | 0 <= j < |rest| ensures le(t[0], rest[j]) {
        assert rest[j] in rest;
        if rest[j] != x {
          var k :| 0 <= k < |t[1..]| && t[1..][k] == rest[j];
          assert t[k + 1] == rest[j];
        }
      }
    }
  }

  /** For a total preorder, the result is ordered. */
  lemma {:induction false} SortBySorted<T(!new)>(s: seq<T>, le: (T, T) -> bool)
    requires TotalPreorder(le)
    ensures SortedBy(SortBy(s, le), le)
  {
    if s != [] {
      SortBySorted(s[1..], le);
      InsertSorted(s[0], SortBy(s[1..], le), le);
    }
  }

  /** Sums do not depend on the order of the summands. */
  lemma {:induction false} InsertSum<T>(x: T, t: seq<T>, le: (T, T) -> bool, f: T -> real)
    ensures SumOf(Insert(x, t, le), f) == f(x) + SumOf(t, f)
  {
    if t == [] || le(x, t[0]) {
      assert ([x] + t)[1..] == t;
    } else {
      InsertSum(x, t[1..], le, f);
      assert ([t[0]] + Insert(x, t[1..], le))[1..] == Insert(x, t[1..], le);
    }
  }

  lemma {:induction false} SortBySum<T>(s: seq<T>, le: (T, T) -> bool, f: T -> real)
    ensures SumOf(SortBy(s, le), f) == SumOf(s, f)
  {
    if s != [] {
      SortBySum(s[1..], le, f);
      InsertSum(s[0], SortBy(s[1..], le), le, f);
    }
  }

  /** The elements whose key is `k`, in order. */
  function WithKey<T(==)>(s: seq<T>, key: T -> real, k: real): seq<T>
  {
    Filter(s, KeyIs(key, k))
  }

  function KeyIs<T>(key: T -> real, k: real): T -> bool
  {
    x => key(x) == k
  }

  /** Cutting a sequence short keeps a prefix of each key's elements. */
  lemma WithKeyPrefix<T>(s: seq<T>, n: nat, key: T -> real, k: real)
    requires n <= |s|
    ensures WithKey(s[..n], key, k) <= WithKey(s, key, k)
  {
    FilterPrefix(s, n, KeyIs(key, k));
  }

  lemma WithKeyCons<T>(x: T, s: seq<T>, key: T -> real, k: real)
    ensures WithKey([x] + s, key, k) == (if key(x) == k then [x] else []) + WithKey(s, key, k)
  {
    assert ([x] + s)[0] == x;
    assert ([x] + s)[1..] == s;
  }

  lemma {:induction false} InsertStable<T>(x: T, t: seq<T>, le: (T, T) -> bool, key: T -> real, k: real)
    requires forall a, b :: le(a, b) <==> key(a) >= key(b)
    ensures WithKey(Insert(x, t, le), key, k)
         == (if key(x) == k then [x] else []) + WithKey(t, key, k)
  {
    if t == [] || le(x, t[0]) {
      WithKeyCons(x, t, key, k);
    } else {
      InsertStable(x, t[1..], le, key, k);
      WithKeyCons(t[0], Insert(x, t[1..], le), key, k);
      WithKeyCons(t[0], t[1..], key, k);
      assert t == [t[0]] + t[1..];
    }
  }

  /**
   Stability: for a descending order by `key`, the elements sharing any one
   key value come out in the order they went in.
   */
  lemma {:induction false} SortByStable<T>(s: seq<T>, le: (T, T) -> bool, key: T -> real, k: real)
    requires forall a, b :: le(a, b) <==> key(a) >= key(b)
    ensures WithKey(SortBy(s, le), key, k) == WithKey(s, key, k)
  {
    if s != [] {
      SortByStable(s[1..], le, key, k);
      InsertStable(s[0], SortBy(s[1..], le), le, key, k);
      WithKeyCons(s[0], s[1..], key, k);
      assert s == [s[0]] + s[1..];
    }
  }

  /** A value that neither the inserted element nor the list projects to is absent afterwards. */
  lemma {:induction false} InsertAvoids<T, U>(x: T, t: seq<T>, le: (T, T) -> bool, g: T -> U, v: U)
    requires v !in MapSeq(t, g) && g(x) != v
    ensures v !in MapSeq(Insert(x, t, le), g)
  {
    if t == [] || le(x, t[0]) {
      assert MapSeq([x] + t, g) == [g(x)] + MapSeq(t, g);
    } else {
      assert MapSeq(t, g) == [g(t[0])] + MapSeq(t[1..], g);
      InsertAvoids(x, t[1..], le, g, v);
      var rest := Insert(x, t[1..], le);
      assert MapSeq([t[0]] + rest, g) == [g(t[0])] + MapSeq(rest, g);
    }
  }

  lemma {:induction false} InsertNoDuplicates<T, U>(x: T, t: seq<T>, le: (T, T) -> bool, g: T -> U)
    requires NoDuplicates(MapSeq(t, g))
    requires g(x) !in MapSeq(t, g)
    ensures NoDuplicates(MapSeq(Insert(x, t, le), g))
  {
    if t == [] || le(x, t[0]) {
      assert MapSeq([x] + t, g) == [g(x)] + MapSeq(t, g);
      NoDuplicatesCons(g(x), MapSeq(t, g));
    } else {
      var rest := Insert(x, t[1..], le);
      var names := MapSeq(t, g);
      assert names == [g(t[0])] + MapSeq(t[1..], g);
      assert MapSeq(t[1..], g) == names[1..];
      assert NoDuplicates(MapSeq(t[1..], g));
      assert g(x) !in MapSeq(t[1..], g);
      InsertNoDuplicates(x, t[1..], le, g);
      assert g(t[0]) !in MapSeq(t[1..], g) by {
        forall k | 0 <= k < |names| - 1 ensures names[1..][k] != names[0] {
          assert names[1..][k] == names[k + 1];
        }
      }
      assert g(x) != g(t[0]) by {
        assert names[0] == g(t[0]);
      }
      InsertAvoids(x, t[1..], le, g, g(t[0]));
      assert MapSeq([t[0]] + rest, g) == [g(t[0])] + MapSeq(rest, g);
      NoDuplicatesCons(g(t[0]), MapSeq(rest, g));
    }
  }

  /** Sorting keeps distinct projections distinct. */
  lemma {:induction false} SortByNoDuplicates<T, U>(s: seq<T>, le: (T, T) -> bool, g: T -> U)
    requires NoDuplicates(MapSeq(s, g))
    ensures NoDuplicates(MapSeq(SortBy(s, le), g))
  {
    if s != [] {
      assert MapSeq(s, g) == [g(s[0])] + MapSeq(s[1..], g);
      SortByNoDuplicates(s[1..], le, g);
      var sorted := SortBy(s[1..], le);
      forall j | 0 <= j < |sorted| ensures MapSeq(sorted, g)[j] != g(s[0]) {
        assert sorted[j] in multiset(sorted);
        assert sorted[j] in multiset(s[1..]);
        var k :| 0 <= k < |s[1..]| && s[1..][k] == sorted[j];
        assert MapSeq(s, g)[k + 1] == g(sorted[j]);
      }
      InsertNoDuplicates(s[0], sorted, le, g);
    }
  }
}
