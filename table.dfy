/**
 * The sales table and the pandas operations the metrics are built from:
 * column sums, `groupby(...).sum()` / `size()`, and `to_dict()`.
 *
 * A group-by is a fold of the cleaned rows into an association list from each
 * key to the revenue sum, the unit sum and the row count of its group. pandas
 * drops rows whose grouping key is missing (NaN), so keys are `Option`s and a
 * row with `None` as its key belongs to no group.
 */
module Table {
  import opened Wrappers
  import opened Sorting

  /** A row as uploaded. Quantity and Price are the cells after numeric coercion:
      `None` when the cell is not a number. Text and period cells may be empty. */
  datatype RawRow = RawRow(
    platform: Option<string>,
    brand: Option<string>,
    productName: Option<string>,
    yearMonth: Option<int>,
    quantity: Option<real>,
    price: Option<real>)

  /** A loaded data set: the column names in file order, then the rows. */
  datatype Table = Table(columns: seq<string>, rows: seq<RawRow>)

  /** A row that survived cleaning, with its derived Order_Revenue. */
  datatype Row = Row(
    platform: Option<string>,
    brand: Option<string>,
    productName: Option<string>,
    yearMonth: Option<int>,
    quantity: real,
    price: real,
    orderRevenue: real)

  function PlatformOf(r: Row): Option<string> { r.platform }
  function BrandOf(r: Row): Option<string> { r.brand }
  function ProductOf(r: Row): Option<string> { r.productName }
  function MonthOf(r: Row): Option<int> { r.yearMonth }

  /** What a group-by accumulates per key: revenue sum, Quantity sum, row count. */
  datatype Stats = Stats(revenue: real, units: real, orders: nat)

  const NoStats := Stats(0.0, 0.0, 0)

  function Plus(a: Stats, b: Stats): Stats
  {
    Stats(a.revenue + b.revenue, a.units + b.units, a.orders + b.orders)
  }

  /** The contribution of one row. */
  function Of(r: Row): Stats
  {
    Stats(r.orderRevenue, r.quantity, 1)
  }

  /** Column sums over all rows; `orders` counts the rows. */
  function Tally(rows: seq<Row>): (t: Stats)
    ensures t.orders == |rows|
  {
    if rows == [] then NoStats else Plus(Of(rows[0]), Tally(rows[1..]))
  }

  /** Column sums over the rows whose key is `k`. */
  function TallyWhere<K(==)>(rows: seq<Row>, key: Row -> Option<K>, k: K): Stats
  {
    if rows == [] then NoStats
    else Plus(if key(rows[0]) == Some(k) then Of(rows[0]) else NoStats, TallyWhere(rows[1..], key, k))
  }

  /** Column sums over the rows whose key is present. */
  function TallyKeyed<K>(rows: seq<Row>, key: Row -> Option<K>): Stats
  {
    if rows == [] then NoStats
    else Plus(if key(rows[0]).Some? then Of(rows[0]) else NoStats, TallyKeyed(rows[1..], key))
  }

  /** Some row has key `k`. */
  ghost predicate Occurs<K>(rows: seq<Row>, key: Row -> Option<K>, k: K)
  {
    exists i :: 0 <= i < |rows| && key(rows[i]) == Some(k)
  }

  /** A key's group is non-empty exactly when some row carries that key. */
  lemma {:induction false} TallyWhereOccurs<K>(rows: seq<Row>, key: Row -> Option<K>, k: K)
    ensures TallyWhere(rows, key, k).orders > 0 <==> Occurs(rows, key, k)
  {
    if rows != [] {
      TallyWhereOccurs(rows[1..], key, k);
      if Occurs(rows[1..], key, k) {
        var i :| 0 <= i < |rows[1..]| && key(rows[1..][i]) == Some(k);
        assert key(rows[i + 1]) == Some(k);
      }
      if Occurs(rows, key, k) && key(rows[0]) != Some(k) {
        var i :| 0 <= i < |rows| && key(rows[i]) == Some(k);
        assert key(rows[1..][i - 1]) == Some(k);
      }
    }
  }

  /** When every row carries a key, the keyed sums are the sums over all rows. */
  lemma {:induction false} TallyKeyedAll<K>(rows: seq<Row>, key: Row -> Option<K>)
    requires forall i :: 0 <= i < |rows| ==> key(rows[i]).Some?
    ensures TallyKeyed(rows, key) == Tally(rows)
  {
    if rows != [] {
      assert forall i :: 0 <= i < |rows[1..]| ==> rows[1..][i] == rows[i + 1];
      TallyKeyedAll(rows[1..], key);
    }
  }

  // ---------------------------------------------------------------------------
  // Group-by as a fold into an association list
  // ---------------------------------------------------------------------------

  /** Adds `s` to the entry of `k`, or appends a new entry for `k`. */
  function Accumulate<K(==)>(g: seq<(K, Stats)>, k: K, s: Stats): seq<(K, Stats)>
  {
    if g == [] then [(k, s)]
    else if g[0].0 == k then [(k, Plus(g[0].1, s))] + g[1..]
    else [g[0]] + Accumulate(g[1..], k, s)
  }

  /** The statistics recorded for `k`: its first entry, or nothing. */
  function StatsOf<K(==)>(g: seq<(K, Stats)>, k: K): Stats
  {
    if g == [] then NoStats
    else if g[0].0 == k then g[0].1
    else StatsOf(g[1..], k)
  }

  /** `df.groupby(key)` followed by sum and size, for the three measures at once. */
  function GroupBy<K(==)>(rows: seq<Row>, key: Row -> Option<K>): seq<(K, Stats)>
  {
    if rows == [] then []
    else
      var g := GroupBy(rows[1..], key);
      match key(rows[0])
      case None => g
      case Some(k) => Accumulate(g, k, Of(rows[0]))
  }

  /** Sum of the statistics of all entries. */
  function SumGroups<K>(g: seq<(K, Stats)>): Stats
  {
    if g == [] then NoStats else Plus(g[0].1, SumGroups(g[1..]))
  }

  /** Every group has at least one row. */
  predicate NonEmptyGroups<K>(g: seq<(K, Stats)>)
  {
    forall i :: 0 <= i < |g| ==> g[i].1.orders >= 1
  }

  lemma {:induction false} AccumulateStatsOf<K>(g: seq<(K, Stats)>, k: K, s: Stats, k': K)
    ensures StatsOf(Accumulate(g, k, s), k') == if k' == k then Plus(StatsOf(g, k), s) else StatsOf(g, k')
  {
    if g != [] && g[0].0 != k {
      AccumulateStatsOf(g[1..], k, s, k');
    }
  }

  lemma {:induction false} AccumulateShape<K>(g: seq<(K, Stats)>, k: K, s: Stats)
    requires DistinctKeys(g)
    ensures DistinctKeys(Accumulate(g, k, s))
    ensures Keys(Accumulate(g, k, s)) == Keys(g) + {k}
    ensures NonEmptyGroups(g) && s.orders >= 1 ==> NonEmptyGroups(Accumulate(g, k, s))
  {
    var a := Accumulate(g, k, s);
    if g == [] {
      assert a == [(k, s)];
      assert a[0].0 in Keys(a);
    } else if g[0].0 == k {
      assert a[1..] == g[1..];
      KeysCons(a);
      KeysCons(g);
      forall i, j | 0 <= i < j < |a| ensures a[i].0 != a[j].0 {
        assert a[j] == g[j];
        if i > 0 { assert a[i] == g[i]; }
      }
      assert forall i :: 0 < i < |a| ==> a[i] == g[i];
    } else {
      var rest := Accumulate(g[1..], k, s);
      KeysCons(g);
      HeadKeyFresh(g);
      AccumulateShape(g[1..], k, s);
      assert a[1..] == rest;
      KeysCons(a);
      forall i, j | 0 <= i < j < |a| ensures a[i].0 != a[j].0 {
        assert a[j] == rest[j - 1];
        if i == 0 {
          assert rest[j - 1].0 in Keys(rest);
        } else {
          assert a[i] == rest[i - 1];
        }
      }
      assert forall i :: 0 < i < |a| ==> a[i] == rest[i - 1];
    }
  }

  lemma {:induction false} AccumulateSum<K>(g: seq<(K, Stats)>, k: K, s: Stats)
    ensures SumGroups(Accumulate(g, k, s)) == Plus(SumGroups(g), s)
  {
    var a := Accumulate(g, k, s);
    if g == [] {
    } else if g[0].0 == k {
      assert a[1..] == g[1..];
    } else {
      AccumulateSum(g[1..], k, s);
      assert a[1..] == Accumulate(g[1..], k, s);
    }
  }

  /** Each key's entry holds the sums and the count of exactly the rows with that key. */
  lemma {:induction false} GroupByTallies<K>(rows: seq<Row>, key: Row -> Option<K>, k: K)
    ensures StatsOf(GroupBy(rows, key), k) == TallyWhere(rows, key, k)
  {
    if rows != [] {
      var g := GroupBy(rows[1..], key);
      var t := TallyWhere(rows[1..], key, k);
      GroupByTallies(rows[1..], key, k);
      assert StatsOf(g, k) == t;
      match key(rows[0])
      case None =>
        assert TallyWhere(rows, key, k) == Plus(NoStats, t);
      case Some(k0) =>
        AccumulateStatsOf(g, k0, Of(rows[0]), k);
        if k0 == k {
          assert TallyWhere(rows, key, k) == Plus(Of(rows[0]), t);
        } else {
          assert TallyWhere(rows, key, k) == Plus(NoStats, t);
        }
    }
  }

  /** The groups are the keys that occur, each once and each with at least one row. */
  lemma {:induction false} GroupByShape<K>(rows: seq<Row>, key: Row -> Option<K>)
    ensures DistinctKeys(GroupBy(rows, key))
    ensures NonEmptyGroups(GroupBy(rows, key))
    ensures forall k :: k in Keys(GroupBy(rows, key)) <==> Occurs(rows, key, k)
  {
    if rows != [] {
      var g := GroupBy(rows[1..], key);
      GroupByShape(rows[1..], key);
      match key(rows[0])
      case None =>
      case Some(k0) =>
        AccumulateShape(g, k0, Of(rows[0]));
    }
    forall k ensures k in Keys(GroupBy(rows, key)) <==> Occurs(rows, key, k) {
      GroupKeysOccur(rows, key, k);
    }
  }

  lemma {:induction false} GroupKeysOccur<K>(rows: seq<Row>, key: Row -> Option<K>, k: K)
    ensures k in Keys(GroupBy(rows, key)) <==> Occurs(rows, key, k)
  {
    if rows != [] {
      var g := GroupBy(rows[1..], key);
      GroupKeysOccur(rows[1..], key, k);
      assert Occurs(rows[1..], key, k) ==> Occurs(rows, key, k) by {
        if Occurs(rows[1..], key, k) {
          var i :| 0 <= i < |rows[1..]| && key(rows[1..][i]) == Some(k);
          assert key(rows[i + 1]) == Some(k);
        }
      }
      assert Occurs(rows, key, k) ==> key(rows[0]) == Some(k) || Occurs(rows[1..], key, k) by {
        if Occurs(rows, key, k) && key(rows[0]) != Some(k) {
          var i :| 0 <= i < |rows| && key(rows[i]) == Some(k);
          assert key(rows[1..][i - 1]) == Some(k);
        }
      }
      match key(rows[0])
      case None =>
      case Some(k0) =>
        AccumulateKeys(g, k0, Of(rows[0]));
    }
  }

  lemma {:induction false} AccumulateKeys<K>(g: seq<(K, Stats)>, k: K, s: Stats)
    ensures Keys(Accumulate(g, k, s)) == Keys(g) + {k}
  {
    var a := Accumulate(g, k, s);
    if g == [] {
      assert a == [(k, s)];
      assert a[0].0 in Keys(a);
    } else if g[0].0 == k {
      assert a[1..] == g[1..];
      KeysCons(a);
      KeysCons(g);
    } else {
      KeysCons(g);
      AccumulateKeys(g[1..], k, s);
      assert a[1..] == Accumulate(g[1..], k, s);
      KeysCons(a);
    }
  }

  /** Conservation: the groups together hold every row that has a key, and no other. */
  lemma {:induction false} GroupByConserves<K>(rows: seq<Row>, key: Row -> Option<K>)
    ensures SumGroups(GroupBy(rows, key)) == TallyKeyed(rows, key)
  {
    if rows != [] {
      GroupByConserves(rows[1..], key);
      match key(rows[0])
      case None =>
      case Some(k0) =>
        AccumulateSum(GroupBy(rows[1..], key), k0, Of(rows[0]));
    }
  }

  /** With distinct keys, each entry is the one StatsOf finds, and absent keys have nothing. */
  lemma {:induction false} StatsOfEntry<K>(g: seq<(K, Stats)>, i: nat)
    requires DistinctKeys(g) && i < |g|
    ensures StatsOf(g, g[i].0) == g[i].1
  {
    if i > 0 {
      assert g[1..][i - 1] == g[i];
      StatsOfEntry(g[1..], i - 1);
    }
  }

  // ---------------------------------------------------------------------------
  // Columns of a grouped result, and `to_dict()`
  // ---------------------------------------------------------------------------

  datatype Measure = Revenue | Units

  function Pick(s: Stats, m: Measure): real
  {
    match m
    case Revenue => s.revenue
    case Units => s.units
  }

  /** One summed column of the groups, e.g. `groupby(key)['Order_Revenue'].sum()`. */
  function Column<K>(g: seq<(K, Stats)>, m: Measure): seq<(K, real)>
  {
    seq(|g|, i requires 0 <= i < |g| => (g[i].0, Pick(g[i].1, m)))
  }

  /** The group sizes, `groupby(key).size()`. */
  function Counts<K>(g: seq<(K, Stats)>): seq<(K, nat)>
  {
    seq(|g|, i requires 0 <= i < |g| => (g[i].0, g[i].1.orders))
  }

  /** A summed column divided by the group sizes; every group has a row, so no division by zero. */
  function Ratios<K>(g: seq<(K, Stats)>, m: Measure): seq<(K, real)>
    requires NonEmptyGroups(g)
  {
    seq(|g|, i requires 0 <= i < |g| => (g[i].0, Pick(g[i].1, m) / g[i].1.orders as real))
  }

  /** Two lists that agree on their keys, position by position, have the same key set. */
  lemma SameKeys<K, V, W>(a: seq<(K, V)>, b: seq<(K, W)>)
    requires |a| == |b|
    requires forall i :: 0 <= i < |a| ==> a[i].0 == b[i].0
    ensures Keys(a) == Keys(b)
    ensures DistinctKeys(a) ==> DistinctKeys(b)
  {
    forall k | k in Keys(a) ensures k in Keys(b) {
      var i :| 0 <= i < |a| && a[i].0 == k;
      assert b[i].0 == k;
    }
    forall k | k in Keys(b) ensures k in Keys(a) {
      var i :| 0 <= i < |b| && b[i].0 == k;
      assert a[i].0 == k;
    }
  }

  /** `to_dict()`: one entry per key. Every series passed here comes from a group-by, whose keys
      are distinct, so which of two entries with the same key would win never arises. */
  function ToMap<K, V>(s: seq<(K, V)>): map<K, V>
  {
    if s == [] then map[] else ToMap(s[1..])[s[0].0 := s[0].1]
  }

  lemma {:induction false} ToMapKeys<K, V>(s: seq<(K, V)>)
    ensures ToMap(s).Keys == Keys(s)
  {
    if s != [] {
      ToMapKeys(s[1..]);
      KeysCons(s);
    }
  }

  lemma {:induction false} ToMapAt<K, V>(s: seq<(K, V)>, i: nat)
    requires DistinctKeys(s) && i < |s|
    ensures s[i].0 in ToMap(s) && ToMap(s)[s[i].0] == s[i].1
  {
    if i > 0 {
      assert s[1..][i - 1] == s[i];
      ToMapAt(s[1..], i - 1);
    }
  }

  function RealValue(x: real): real { x }
  function CountValue(n: nat): real { n as real }

  /** Sum of the values of an association list, read through `f`. */
  function SeqSum<K, V>(s: seq<(K, V)>, f: V -> real): real
  {
    if s == [] then 0.0 else f(s[0].1) + SeqSum(s[1..], f)
  }

  /** Sum of the values of a map over the keys `ks`, read through `f`. */
  ghost function SumOver<K, V>(m: map<K, V>, ks: set<K>, f: V -> real): real
    requires ks <= m.Keys
    decreases ks
  {
    if ks == {} then 0.0
    else
      var k :| k in ks;
      f(m[k]) + SumOver(m, ks - {k}, f)
  }

  /** Sum of all the values of a map, in no particular order. */
  ghost function MapSum<K, V>(m: map<K, V>, f: V -> real): real
  {
    SumOver(m, m.Keys, f)
  }

  /** The sum over a key set does not depend on which key is taken out first. */
  lemma {:induction false} SumOverRemove<K, V>(m: map<K, V>, ks: set<K>, f: V -> real, k: K)
    requires ks <= m.Keys && k in ks
    ensures SumOver(m, ks, f) == f(m[k]) + SumOver(m, ks - {k}, f)
    decreases ks
  {
    var j :| j in ks && SumOver(m, ks, f) == f(m[j]) + SumOver(m, ks - {j}, f);
    if j != k {
      SumOverRemove(m, ks - {j}, f, k);
      SumOverRemove(m, ks - {k}, f, j);
      assert ks - {j} - {k} == ks - {k} - {j};
    }
  }

  /** Two maps that agree on `ks` have the same sum over `ks`. */
  lemma {:induction false} SumOverAgree<K, V>(m1: map<K, V>, m2: map<K, V>, ks: set<K>, f: V -> real)
    requires ks <= m1.Keys && ks <= m2.Keys
    requires forall k :: k in ks ==> m1[k] == m2[k]
    ensures SumOver(m1, ks, f) == SumOver(m2, ks, f)
    decreases ks
  {
    if ks != {} {
      var k :| k in ks;
      SumOverRemove(m1, ks, f, k);
      SumOverRemove(m2, ks, f, k);
      SumOverAgree(m1, m2, ks - {k}, f);
    }
  }

  /** `to_dict()` loses nothing from the sum when the keys are distinct. */
  lemma {:induction false} MapSumToMap<K, V>(s: seq<(K, V)>, f: V -> real)
    requires DistinctKeys(s)
    ensures MapSum(ToMap(s), f) == SeqSum(s, f)
  {
    if s != [] {
      var m := ToMap(s);
      var m' := ToMap(s[1..]);
      ToMapKeys(s);
      ToMapKeys(s[1..]);
      HeadKeyFresh(s);
      KeysCons(s);
      MapSumToMap(s[1..], f);
      SumOverRemove(m, m.Keys, f, s[0].0);
      assert m.Keys - {s[0].0} == m'.Keys;
      SumOverAgree(m, m', m'.Keys, f);
    }
  }

  /** Summing a column over the groups is summing that measure over the groups' statistics. */
  lemma {:induction false} ColumnSum<K>(g: seq<(K, Stats)>, m: Measure)
    ensures SeqSum(Column(g, m), RealValue) == Pick(SumGroups(g), m)
  {
    if g != [] {
      assert Column(g, m)[1..] == Column(g[1..], m);
      ColumnSum(g[1..], m);
    }
  }

  /** Summing the group sizes gives the number of grouped rows. */
  lemma {:induction false} CountsSum<K>(g: seq<(K, Stats)>)
    ensures SeqSum(Counts(g), CountValue) == SumGroups(g).orders as real
  {
    if g != [] {
      assert Counts(g)[1..] == Counts(g[1..]);
      CountsSum(g[1..]);
    }
  }

  /** The keys carried by the rows, each once. */
  function Occurring<K>(rows: seq<Row>, key: Row -> Option<K>): set<K>
  {
    set i | 0 <= i < |rows| && key(rows[i]).Some? :: key(rows[i]).value
  }

  lemma OccurringOccurs<K>(rows: seq<Row>, key: Row -> Option<K>, k: K)
    ensures k in Occurring(rows, key) <==> Occurs(rows, key, k)
  {
    if Occurs(rows, key, k) {
      var i :| 0 <= i < |rows| && key(rows[i]) == Some(k);
      assert key(rows[i]).value == k;
    }
  }

  /** Inserting into a list adds the inserted value to its sum. */
  lemma {:induction false} InsertSum<K, V>(x: (K, V), s: seq<(K, V)>, le: ((K, V), (K, V)) -> bool, f: V -> real)
    ensures SeqSum(Insert(x, s, le), f) == f(x.1) + SeqSum(s, f)
  {
    if s != [] && !le(x, s[0]) {
      InsertSum(x, s[1..], le, f);
      assert Insert(x, s, le)[1..] == Insert(x, s[1..], le);
    } else {
      assert Insert(x, s, le)[1..] == s;
    }
  }

  /** Sorting does not change the sum of the values. */
  lemma {:induction false} SortSum<K, V>(s: seq<(K, V)>, le: ((K, V), (K, V)) -> bool, f: V -> real)
    ensures SeqSum(Sort(s, le), f) == SeqSum(s, f)
  {
    if s != [] {
      SortSum(s[1..], le, f);
      InsertSum(s[0], Sort(s[1..], le), le, f);
    }
  }
}
