/**
 * Ordering of association lists: a stable insertion sort under a caller-chosen
 * total preorder, and the keys of a list of (key, value) pairs.
 * This stands for pandas' `sort_values` and `sort_index` on a grouped series.
 */
module Sorting {

  /** `le` is total and transitive, so that sorting under it is meaningful. */
  ghost predicate TotalPreorder<T(!new)>(le: (T, T) -> bool)
  {
    && (forall a, b :: le(a, b) || le(b, a))
    && (forall a, b, c :: le(a, b) && le(b, c) ==> le(a, c))
  }

  /** Every earlier element comes before every later one under `le`. */
  predicate Sorted<T>(s: seq<T>, le: (T, T) -> bool)
  {
    forall i, j :: 0 <= i < j < |s| ==> le(s[i], s[j])
  }

  /** Inserts `x` before the first element it may precede. */
  function Insert<T>(x: T, s: seq<T>, le: (T, T) -> bool): (r: seq<T>)
    ensures multiset(r) == multiset(s) + multiset{x}
  {
    if s == [] || le(x, s[0]) then [x] + s
    else
      assert s == [s[0]] + s[1..];
      [s[0]] + Insert(x, s[1..], le)
  }

  /** Stable insertion sort. */
  function Sort<T>(s: seq<T>, le: (T, T) -> bool): (r: seq<T>)
    ensures multiset(r) == multiset(s)
  {
    if s == [] then []
    else
      assert s == [s[0]] + s[1..];
      Insert(s[0], Sort(s[1..], le), le)
  }

  lemma {:induction false} InsertSorted<T(!new)>(x: T, s: seq<T>, le: (T, T) -> bool)
    requires TotalPreorder(le)
    requires Sorted(s, le)
    ensures Sorted(Insert(x, s, le), le)
  {
    if s == [] || le(x, s[0]) {
    } else {
      var rest := Insert(x, s[1..], le);
      InsertSorted(x, s[1..], le);
      forall y | y in rest
        ensures le(s[0], y)
      {
        assert y in multiset(rest);
        if y != x {
          assert y in s[1..];
        }
      }
    }
  }

  /** The result of Sort is ordered by `le`. */
  lemma {:induction false} SortSorted<T(!new)>(s: seq<T>, le: (T, T) -> bool)
    requires TotalPreorder(le)
    ensures Sorted(Sort(s, le), le)
  {
    if s != [] {
      SortSorted(s[1..], le);
      InsertSorted(s[0], Sort(s[1..], le), le);
    }
  }

  lemma SortLength<T>(s: seq<T>, le: (T, T) -> bool)
    ensures |Sort(s, le)| == |s|
  {
    assert |multiset(Sort(s, le))| == |multiset(s)|;
  }

  /** The set of keys of an association list. */
  function Keys<K, V>(s: seq<(K, V)>): set<K>
  {
    set i | 0 <= i < |s| :: s[i].0
  }

  /** No key occurs twice. */
  predicate DistinctKeys<K(==), V>(s: seq<(K, V)>)
  {
    forall i, j :: 0 <= i < j < |s| ==> s[i].0 != s[j].0
  }

  /** The keys of a non-empty list: the head's key and the keys of the tail. */
  lemma KeysCons<K, V>(s: seq<(K, V)>)
    requires s != []
    ensures Keys(s) == {s[0].0} + Keys(s[1..])
  {
    forall k | k in Keys(s) ensures k in {s[0].0} + Keys(s[1..]) {
      var i :| 0 <= i < |s| && s[i].0 == k;
      if i > 0 { assert s[1..][i - 1].0 == k; }
    }
    forall k | k in Keys(s[1..]) ensures k in Keys(s) {
      var i :| 0 <= i < |s[1..]| && s[1..][i].0 == k;
      assert s[i + 1].0 == k;
    }
  }

  /** In a list with distinct keys, the head's key does not occur in the tail. */
  lemma HeadKeyFresh<K, V>(s: seq<(K, V)>)
    requires s != [] && DistinctKeys(s)
    ensures s[0].0 !in Keys(s[1..])
  {
    forall i | 0 <= i < |s[1..]| ensures s[1..][i].0 != s[0].0 {
      assert s[1..][i] == s[i + 1];
    }
  }

  /** An association list with distinct keys has exactly one entry per key. */
  lemma {:induction false} DistinctKeysCard<K, V>(s: seq<(K, V)>)
    requires DistinctKeys(s)
    ensures |Keys(s)| == |s|
  {
    if s != [] {
      DistinctKeysCard(s[1..]);
      KeysCons(s);
      HeadKeyFresh(s);
    }
  }

  /** Elements of an insertion come from the list or are the inserted element. */
  lemma InsertMembers<T>(x: T, s: seq<T>, le: (T, T) -> bool, y: T)
    ensures y in Insert(x, s, le) <==> y == x || y in s
  {
    assert y in Insert(x, s, le) <==> y in multiset(Insert(x, s, le));
  }

  /** Inserting a pair with a fresh key keeps the keys distinct. */
  lemma {:induction false} InsertDistinct<K, V>(x: (K, V), s: seq<(K, V)>, le: ((K, V), (K, V)) -> bool)
    requires DistinctKeys(s)
    requires x.0 !in Keys(s)
    ensures DistinctKeys(Insert(x, s, le))
    ensures Keys(Insert(x, s, le)) == Keys(s) + {x.0}
  {
    var r := Insert(x, s, le);
    if s == [] || le(x, s[0]) {
      assert r[1..] == s;
      KeysCons(r);
      forall j | 0 < j < |r| ensures r[0].0 != r[j].0 {
        assert r[j] == s[j - 1];
      }
    } else {
      var rest := Insert(x, s[1..], le);
      KeysCons(s);
      HeadKeyFresh(s);
      InsertDistinct(x, s[1..], le);
      assert r[1..] == rest;
      KeysCons(r);
      forall i, j | 0 <= i < j < |r| ensures r[i].0 != r[j].0 {
        assert r[j] == rest[j - 1];
        if i == 0 {
          assert rest[j - 1].0 in Keys(rest);
        } else {
          assert r[i] == rest[i - 1];
        }
      }
    }
  }

  /** Sorting an association list with distinct keys keeps its keys, and keeps them distinct. */
  lemma {:induction false} SortDistinct<K, V>(s: seq<(K, V)>, le: ((K, V), (K, V)) -> bool)
    requires DistinctKeys(s)
    ensures DistinctKeys(Sort(s, le))
    ensures Keys(Sort(s, le)) == Keys(s)
  {
    if s != [] {
      var rest := Sort(s[1..], le);
      SortDistinct(s[1..], le);
      KeysCons(s);
      HeadKeyFresh(s);
      InsertDistinct(s[0], rest, le);
    }
  }
}
