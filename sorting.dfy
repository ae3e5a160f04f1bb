/**
 * `Array.prototype.sort` with a comparator. Since ECMAScript 2019 the sort is
 * stable, so for a comparator that is a consistent total preorder its result
 * is fully determined: the elements in comparator order, equal elements in
 * their original order. `StableSort` is a stable insertion sort; the lemmas
 * below prove it sorted, a permutation and stable, and that any sorted
 * rearrangement keeping every class of equal elements in order equals it.
 * `le(a, b)` stands for "the comparator of (a, b) is at most 0".
 */
module Sorting {
  import opened Seqs

  ghost predicate TotalPreorder<T(!new)>(le: (T, T) -> bool) {
    && (forall a, b :: le(a, b) || le(b, a))
    && (forall a, b, c :: le(a, b) && le(b, c) ==> le(a, c))
  }

  ghost predicate SortedBy<T>(s: seq<T>, le: (T, T) -> bool) {
    forall i, j :: 0 <= i < j < |s| ==> le(s[i], s[j])
  }

  /** The elements the comparator ranks equal to `k`. */
  function SameRank<T>(le: (T, T) -> bool, k: T): T -> bool {
    y => le(y, k) && le(k, y)
  }

  /** Inserts `x` before the first element it does not follow strictly. */
  function Insert<T>(x: T, s: seq<T>, le: (T, T) -> bool): (r: seq<T>)
    ensures |r| == |s| + 1
    ensures multiset(r) == multiset(s) + multiset{x}
  {
    if s == [] || le(x, s[0]) then [x] + s
    else
      var rest := Insert(x, s[1..], le);
      assert s == [s[0]] + s[1..];
      [s[0]] + rest
  }

  function StableSort<T>(s: seq<T>, le: (T, T) -> bool): (r: seq<T>)
    ensures |r| == |s|
    ensures multiset(r) == multiset(s)
  {
    if s == [] then []
    else
      assert s == [s[0]] + s[1..];
      Insert(s[0], StableSort(s[1..], le), le)
  }

  lemma {:induction false} InsertSorted<T(!new)>(x: T, s: seq<T>, le: (T, T) -> bool)
    requires TotalPreorder(le)
    requires SortedBy(s, le)
    ensures SortedBy(Insert(x, s, le), le)
  {
    if s != [] && !le(x, s[0]) {
      InsertSorted(x, s[1..], le);
      var rest := Insert(x, s[1..], le);
      forall j | 0 <= j < |rest| ensures le(s[0], rest[j]) {
        assert rest[j] in multiset(rest);
        assert rest[j] == x || rest[j] in multiset(s[1..]);
        if rest[j] != x {
          var k :| 0 <= k < |s[1..]| && s[1..][k] == rest[j];
          assert s[k + 1] == rest[j];
        }
      }
    }
  }

  /** The result is in comparator order. */
  lemma {:induction false} StableSortSorted<T(!new)>(s: seq<T>, le: (T, T) -> bool)
    requires TotalPreorder(le)
    ensures SortedBy(StableSort(s, le), le)
  {
    if s != [] {
      StableSortSorted(s[1..], le);
      InsertSorted(s[0], StableSort(s[1..], le), le);
    }
  }

  lemma {:induction false} InsertKeepsRanks<T(!new)>(x: T, s: seq<T>, le: (T, T) -> bool, k: T)
    requires TotalPreorder(le)
    ensures Filter(Insert(x, s, le), SameRank(le, k)) ==
            (if SameRank(le, k)(x) then [x] else []) + Filter(s, SameRank(le, k))
  {
    var p := SameRank(le, k);
    if s == [] || le(x, s[0]) {
      FilterCons(x, s, p);
    } else {
      InsertKeepsRanks(x, s[1..], le, k);
      if p(x) {
        StrictlyBelowRank(le, s[0], x, k);
      }
      PassHead(x, s, Insert(x, s[1..], le), p);
    }
  }

  /**
   * Filtering `[s[0]] + rest`, where `rest` filters like `x` followed by
   * `s[1..]`, when `x` and `s[0]` do not both pass.
   */
  lemma PassHead<T>(x: T, s: seq<T>, rest: seq<T>, p: T -> bool)
    requires s != []
    requires Filter(rest, p) == (if p(x) then [x] else []) + Filter(s[1..], p)
    requires p(x) ==> !p(s[0])
    ensures Filter([s[0]] + rest, p) == (if p(x) then [x] else []) + Filter(s, p)
  {
    FilterCons(s[0], rest, p);
    FilterCons(s[0], s[1..], p);
    assert s == [s[0]] + s[1..];
  }

  /** An element ranked strictly below `x` is not ranked equal to what `x` ranks equal to. */
  lemma StrictlyBelowRank<T(!new)>(le: (T, T) -> bool, a: T, x: T, k: T)
    requires TotalPreorder(le)
    requires !le(x, a) && SameRank(le, k)(x)
    ensures !SameRank(le, k)(a)
  {
    assert le(x, k);
  }

  /**
   * Stability: each class of elements ranked equal keeps exactly the
   * subsequence it had in the input.
   */
  lemma {:induction false} StableSortKeepsRanks<T(!new)>(s: seq<T>, le: (T, T) -> bool, k: T)
    requires TotalPreorder(le)
    ensures Filter(StableSort(s, le), SameRank(le, k)) == Filter(s, SameRank(le, k))
  {
    if s != [] {
      StableSortKeepsRanks(s[1..], le, k);
      InsertKeepsRanks(s[0], StableSort(s[1..], le), le, k);
      FilterAppend([s[0]], s[1..], SameRank(le, k));
      assert s == [s[0]] + s[1..];
    }
  }

  lemma {:induction false} InRankFilter<T(!new)>(s: seq<T>, le: (T, T) -> bool, x: T)
    requires TotalPreorder(le)
    requires x in s
    ensures x in Filter(s, SameRank(le, x))
  {
    FilterMembership(s, SameRank(le, x), x);
  }

  /**
   * Uniqueness: two sequences sorted by the same preorder whose classes of
   * equal elements hold the same subsequences are equal. Any stable sort with
   * this comparator therefore returns exactly `StableSort`.
   */
  lemma {:induction false} StableSortUnique<T(!new)>(a: seq<T>, b: seq<T>, le: (T, T) -> bool)
    requires TotalPreorder(le)
    requires SortedBy(a, le) && SortedBy(b, le)
    requires forall k :: Filter(a, SameRank(le, k)) == Filter(b, SameRank(le, k))
    ensures a == b
  {
    if a == [] || b == [] {
      if a != [] {
        InRankFilter(a, le, a[0]);
      } else if b != [] {
        InRankFilter(b, le, b[0]);
      }
    } else {
      SameHead(a, b, le);
      forall k ensures Filter(a[1..], SameRank(le, k)) == Filter(b[1..], SameRank(le, k)) {
        DropHead(a, b, SameRank(le, k));
      }
      assert SortedBy(a[1..], le);
      assert SortedBy(b[1..], le);
      StableSortUnique(a[1..], b[1..], le);
    }
  }

  /** Two non-empty sorted sequences whose classes of equal elements agree start alike. */
  lemma SameHead<T(!new)>(a: seq<T>, b: seq<T>, le: (T, T) -> bool)
    requires TotalPreorder(le)
    requires SortedBy(a, le) && SortedBy(b, le)
    requires forall k :: Filter(a, SameRank(le, k)) == Filter(b, SameRank(le, k))
    requires a != [] && b != []
    ensures a[0] == b[0]
  {
    var x, y := a[0], b[0];
    // x occurs in b and y occurs in a, so each ranks at most the other
    InBoth(a, b, le, x);
    InBoth(b, a, le, y);
    HeadRanksFirst(b, le, x);
    HeadRanksFirst(a, le, y);
    var p := SameRank(le, x);
    assert p(x) && p(y);
    FirstOfRank(a, p);
    FirstOfRank(b, p);
  }

  /** What one sequence holds, the other holds too when their classes of equal elements agree. */
  lemma InBoth<T(!new)>(a: seq<T>, b: seq<T>, le: (T, T) -> bool, x: T)
    requires TotalPreorder(le)
    requires forall k :: Filter(a, SameRank(le, k)) == Filter(b, SameRank(le, k))
    requires x in a
    ensures x in b
  {
    InRankFilter(a, le, x);
    assert Filter(a, SameRank(le, x)) == Filter(b, SameRank(le, x));
    FilterMembership(b, SameRank(le, x), x);
  }

  /** In a sorted sequence the head ranks at most every element. */
  lemma HeadRanksFirst<T(!new)>(s: seq<T>, le: (T, T) -> bool, x: T)
    requires TotalPreorder(le)
    requires SortedBy(s, le)
    requires x in s
    ensures le(s[0], x)
  {
    var i :| 0 <= i < |s| && s[i] == x;
    if i > 0 { assert le(s[0], s[i]); }
  }

  /** A head that passes the filter is the first element of the filtered sequence. */
  lemma FirstOfRank<T>(s: seq<T>, p: T -> bool)
    requires s != [] && p(s[0])
    ensures Filter(s, p) != [] && Filter(s, p)[0] == s[0]
  {
    FilterCons(s[0], s[1..], p);
    assert s == [s[0]] + s[1..];
  }

  /** Two sequences with the same head that filter alike still filter alike without it. */
  lemma DropHead<T>(a: seq<T>, b: seq<T>, q: T -> bool)
    requires a != [] && b != [] && a[0] == b[0]
    requires Filter(a, q) == Filter(b, q)
    ensures Filter(a[1..], q) == Filter(b[1..], q)
  {
    FilterCons(a[0], a[1..], q);
    FilterCons(b[0], b[1..], q);
    assert a == [a[0]] + a[1..];
    assert b == [b[0]] + b[1..];
    var h := if q(a[0]) then [a[0]] else [];
    assert Filter(a[1..], q) == Filter(a, q)[|h|..];
    assert Filter(b[1..], q) == Filter(b, q)[|h|..];
  }

  /** The comparator of the opposite direction (`b - a` instead of `a - b`). */
  function Flip<T>(le: (T, T) -> bool): (T, T) -> bool {
    (a, b) => le(b, a)
  }

  lemma FlipPreorder<T(!new)>(le: (T, T) -> bool)
    requires TotalPreorder(le)
    ensures TotalPreorder(Flip(le))
  {
  }

  /** Ascending comparison on an integer sort key, as `key(a) - key(b)` orders. */
  function ByKey<T>(key: T -> int): (T, T) -> bool {
    (a, b) => key(a) <= key(b)
  }

  lemma ByKeyPreorder<T(!new)>(key: T -> int)
    ensures TotalPreorder(ByKey(key))
  {
  }

  /** Comparison of a derived key by a given order, as `(a, b) => cmp(a.f, b.f)` does. */
  function On<T, U>(le: (U, U) -> bool, key: T -> U): (T, T) -> bool {
    (a, b) => le(key(a), key(b))
  }

  lemma OnPreorder<T(!new), U(!new)>(le: (U, U) -> bool, key: T -> U)
    requires TotalPreorder(le)
    ensures TotalPreorder(On(le, key))
  {
    forall a: T, b: T, c: T | On(le, key)(a, b) && On(le, key)(b, c) ensures On(le, key)(a, c) {
      assert le(key(a), key(b)) && le(key(b), key(c));
    }
  }

  // ---------------------------------------------------------------------
  // Sorting on an integer key

  /** The elements whose key is `v`. */
  function KeyIs<T>(key: T -> int, v: int): T -> bool {
    x => key(x) == v
  }

  /** The comparator `(a, b) => key(a) - key(b)`, or `key(b) - key(a)` when descending. */
  function KeyOrder<T>(key: T -> int, descending: bool): (T, T) -> bool {
    if descending then Flip(ByKey(key)) else ByKey(key)
  }

  lemma KeyOrderPreorder<T(!new)>(key: T -> int, descending: bool)
    ensures TotalPreorder(KeyOrder(key, descending))
  {
    ByKeyPreorder(key);
    FlipPreorder(ByKey(key));
  }

  /** Sorting with the key comparator leaves the keys running in its direction. */
  lemma SortedKeys<T(!new)>(s: seq<T>, key: T -> int, descending: bool, r: seq<T>)
    requires r == StableSort(s, KeyOrder(key, descending))
    ensures descending ==> forall i, j :: 0 <= i < j < |r| ==> key(r[i]) >= key(r[j])
    ensures !descending ==> forall i, j :: 0 <= i < j < |r| ==> key(r[i]) <= key(r[j])
  {
    var le := KeyOrder(key, descending);
    KeyOrderPreorder(key, descending);
    StableSortSorted(s, le);
    forall i, j | 0 <= i < j < |r| ensures le(r[i], r[j]) {
    }
  }

  /**
   * `s.sort((a, b) => key(a) - key(b))` (or `key(b) - key(a)`) on a copy: a
   * rearrangement of `s` whose keys never decrease (never increase).
   */
  function SortOnKey<T(!new)>(s: seq<T>, key: T -> int, descending: bool): (r: seq<T>)
    ensures multiset(r) == multiset(s)
    ensures descending ==> forall i, j :: 0 <= i < j < |r| ==> key(r[i]) >= key(r[j])
    ensures !descending ==> forall i, j :: 0 <= i < j < |r| ==> key(r[i]) <= key(r[j])
  {
    var r := StableSort(s, KeyOrder(key, descending));
    SortedKeys(s, key, descending, r);
    r
  }

  /** A sequence whose keys already never decrease comes back from the ascending sort unchanged. */
  lemma SortOnKeyOfSorted<T(!new)>(s: seq<T>, key: T -> int)
    requires forall i, j :: 0 <= i < j < |s| ==> key(s[i]) <= key(s[j])
    ensures SortOnKey(s, key, false) == s
  {
    var le := KeyOrder(key, false);
    KeyOrderPreorder(key, false);
    StableSortSorted(s, le);
    forall k ensures Filter(StableSort(s, le), SameRank(le, k)) == Filter(s, SameRank(le, k)) {
      StableSortKeepsRanks(s, le, k);
    }
    StableSortUnique(StableSort(s, le), s, le);
  }

  /** The elements the key comparator ranks with `k` are those sharing its key. */
  lemma RankIsKey<T>(key: T -> int, descending: bool, k: T)
    ensures forall x :: SameRank(KeyOrder(key, descending), k)(x) == KeyIs(key, key(k))(x)
  {
  }

  /** Stability: the elements sharing any one key keep their relative order. */
  lemma SameKeyKeepsOrder<T(!new)>(s: seq<T>, key: T -> int, descending: bool, v: int)
    ensures Filter(SortOnKey(s, key, descending), KeyIs(key, v)) == Filter(s, KeyIs(key, v))
  {
    var le := KeyOrder(key, descending);
    var r := SortOnKey(s, key, descending);
    if exists i :: 0 <= i < |s| && key(s[i]) == v {
      var i :| 0 <= i < |s| && key(s[i]) == v;
      KeyOrderPreorder(key, descending);
      StableSortKeepsRanks(s, le, s[i]);
      RankIsKey(key, descending, s[i]);
      FilterAgree(r, SameRank(le, s[i]), KeyIs(key, v));
      FilterAgree(s, SameRank(le, s[i]), KeyIs(key, v));
    } else {
      FilterNone(s, KeyIs(key, v));
      forall i | 0 <= i < |r| ensures !KeyIs(key, v)(r[i]) {
        assert r[i] in multiset(r);
        assert r[i] in multiset(s);
      }
      FilterNone(r, KeyIs(key, v));
    }
  }
}
