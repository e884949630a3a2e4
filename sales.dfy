/**
 * The metrics engine: `add_order_revenue` and the five metric functions of
 * backend/app/services/sales.py, over exact reals.
 *
 * Every metric first cleans the table with AddOrderRevenue and then works on
 * the cleaned rows only. IEEE infinities and NaN, which pandas produces when it
 * divides by zero, are kept apart from ordinary values by the Float datatype.
 */
module Sales {
  import opened Wrappers
  import opened Sorting
  import opened Table

  // ---------------------------------------------------------------------------
  // add_order_revenue
  // ---------------------------------------------------------------------------

  /** Both Quantity and Price of the row coerced to numbers. */
  predicate IsNumeric(r: RawRow)
  {
    r.quantity.Some? && r.price.Some?
  }

  /** The cleaned row: numeric Quantity and Price, and Order_Revenue = Quantity * Price. */
  function Derive(r: RawRow): Row
    requires IsNumeric(r)
  {
    Row(r.platform, r.brand, r.productName, r.yearMonth,
        r.quantity.value, r.price.value, r.quantity.value * r.price.value)
  }

  /** Drops the rows with a non-numeric Quantity or Price, and derives Order_Revenue for the rest.
      A value model: the caller's table is never changed. */
  function AddOrderRevenue(rows: seq<RawRow>): (t: seq<Row>)
    ensures |t| <= |rows|
    ensures forall i :: 0 <= i < |t| ==> t[i].orderRevenue == t[i].quantity * t[i].price
  {
    if rows == [] then []
    else (if IsNumeric(rows[0]) then [Derive(rows[0])] else []) + AddOrderRevenue(rows[1..])
  }

  /** Cleaning works row by row: it distributes over concatenation, so the kept rows keep their order. */
  lemma {:induction false} AddOrderRevenueAppend(a: seq<RawRow>, b: seq<RawRow>)
    ensures AddOrderRevenue(a + b) == AddOrderRevenue(a) + AddOrderRevenue(b)
  {
    if a == [] {
      assert a + b == b;
    } else {
      assert (a + b)[1..] == a[1..] + b;
      AddOrderRevenueAppend(a[1..], b);
    }
  }

  /** Exactly the numeric rows are kept, and every kept row comes from one of them. */
  lemma {:induction false} AddOrderRevenueKeeps(rows: seq<RawRow>)
    ensures forall i :: 0 <= i < |rows| && IsNumeric(rows[i]) ==> Derive(rows[i]) in AddOrderRevenue(rows)
    ensures forall r :: r in AddOrderRevenue(rows) ==>
              exists i :: 0 <= i < |rows| && IsNumeric(rows[i]) && r == Derive(rows[i])
  {
    if rows != [] {
      AddOrderRevenueKeeps(rows[1..]);
      var t := AddOrderRevenue(rows);
      var rest := AddOrderRevenue(rows[1..]);
      forall i | 0 <= i < |rows| && IsNumeric(rows[i]) ensures Derive(rows[i]) in t {
        if i > 0 { assert rows[1..][i - 1] == rows[i]; }
      }
      forall r | r in t
        ensures exists i :: 0 <= i < |rows| && IsNumeric(rows[i]) && r == Derive(rows[i])
      {
        if r in rest {
          var j :| 0 <= j < |rows[1..]| && IsNumeric(rows[1..][j]) && r == Derive(rows[1..][j]);
          assert rows[j + 1] == rows[1..][j];
        } else {
          assert IsNumeric(rows[0]) && r == Derive(rows[0]);
        }
      }
    }
  }

  // ---------------------------------------------------------------------------
  // summary_metrics
  // ---------------------------------------------------------------------------

  datatype Summary = Summary(
    totalRevenue: real,
    totalOrders: int,
    aov: real,
    totalUnits: int,
    avgItemsPerOrder: real)

  /** Python's `int()` on a float: truncation toward zero. */
  function Trunc(x: real): (n: int)
    ensures 0.0 <= x ==> 0 <= n && n as real <= x < n as real + 1.0
    ensures x < 0.0 ==> n <= 0 && n as real - 1.0 < x <= n as real
  {
    if x >= 0.0 then x.Floor else -((-x).Floor)
  }

  /** The summary of a cleaned table. */
  function SummaryOf(t: seq<Row>): (s: Summary)
    ensures s.totalOrders == |t|
    ensures s.totalRevenue == Tally(t).revenue
    ensures s.totalUnits == Trunc(Tally(t).units)
    ensures s.totalOrders > 0 ==> s.aov == s.totalRevenue / s.totalOrders as real
    ensures s.totalOrders > 0 ==> s.avgItemsPerOrder == Tally(t).units / s.totalOrders as real
    ensures s.totalOrders == 0 ==> s == Summary(0.0, 0, 0.0, 0, 0.0)
  {
    var totals := Tally(t);
    var orders := |t|;
    var aov := if orders > 0 then totals.revenue / orders as real else 0.0;
    var avgItems := if orders > 0 then totals.units / orders as real else 0.0;
    Summary(totals.revenue, orders, aov, Trunc(totals.units), avgItems)
  }

  /** `summary_metrics`: the summary of the rows that survive cleaning. */
  function SummaryMetrics(rows: seq<RawRow>): (s: Summary)
    ensures s.totalOrders == |AddOrderRevenue(rows)|
    ensures s.totalRevenue == Tally(AddOrderRevenue(rows)).revenue
    ensures s.totalUnits == Trunc(Tally(AddOrderRevenue(rows)).units)
    ensures s.totalOrders > 0 ==> s.aov == s.totalRevenue / s.totalOrders as real
    ensures s.totalOrders > 0 ==>
              s.avgItemsPerOrder == Tally(AddOrderRevenue(rows)).units / s.totalOrders as real
    ensures s.totalOrders == 0 ==> s == Summary(0.0, 0, 0.0, 0, 0.0)
  {
    SummaryOf(AddOrderRevenue(rows))
  }

  /** The average order value and the items per order, multiplied back by the number of
      orders, give the totals they were computed from. */
  lemma SummaryAverages(t: seq<Row>)
    ensures var s := SummaryOf(t);
            s.totalOrders > 0 ==>
              && s.aov * s.totalOrders as real == s.totalRevenue
              && s.avgItemsPerOrder * s.totalOrders as real == Tally(t).units
  {
    var s := SummaryOf(t);
    if s.totalOrders > 0 {
      AverageTimes(s.aov, s.totalRevenue, s.totalOrders as real);
      AverageTimes(s.avgItemsPerOrder, Tally(t).units, s.totalOrders as real);
    }
  }

  lemma AverageTimes(avg: real, total: real, n: real)
    requires n != 0.0 && avg == total / n
    ensures avg * n == total
  {
    QuotientTimes(total, n);
  }

  lemma QuotientTimes(x: real, y: real)
    requires y != 0.0
    ensures (x / y) * y == x
  {
  }

  function Raw(q: real, p: real): RawRow
  {
    RawRow(None, None, None, None, Some(q), Some(p))
  }

  /** The worked example: (Quantity 2, Price 10) and (Quantity 1, Price 5). */
  lemma SummaryExample()
    ensures SummaryMetrics([Raw(2.0, 10.0), Raw(1.0, 5.0)]) == Summary(25.0, 2, 12.5, 3, 1.5)
  {
    var t := AddOrderRevenue([Raw(2.0, 10.0), Raw(1.0, 5.0)]);
    assert t == [Derive(Raw(2.0, 10.0)), Derive(Raw(1.0, 5.0))];
    assert Tally(t) == Stats(25.0, 3.0, 2);
  }

  // ---------------------------------------------------------------------------
  // platform_metrics
  // ---------------------------------------------------------------------------

  datatype PlatformReport = PlatformReport(
    revenueByPlatform: map<string, real>,
    ordersByPlatform: map<string, nat>,
    aovByPlatform: map<string, real>,
    unitsPerOrderByPlatform: map<string, real>)

  function PlatformMetrics(rows: seq<RawRow>): PlatformReport
  {
    var t := AddOrderRevenue(rows);
    GroupByShape(t, PlatformOf);
    PlatformReportOf(GroupBy(t, PlatformOf))
  }

  /** The four dictionaries built from the platform groups. */
  function PlatformReportOf(g: seq<(string, Stats)>): PlatformReport
    requires NonEmptyGroups(g)
  {
    PlatformReport(
      ToMap(Column(g, Revenue)),
      ToMap(Counts(g)),
      ToMap(Ratios(g, Revenue)),
      ToMap(Ratios(g, Units)))
  }

  /** The four maps have as keys exactly the platforms that occur in the cleaned rows. */
  lemma PlatformMetricsKeys(rows: seq<RawRow>, p: string)
    ensures var t := AddOrderRevenue(rows);
            var rep := PlatformMetrics(rows);
            && (p in rep.revenueByPlatform <==> Occurs(t, PlatformOf, p))
            && (p in rep.ordersByPlatform <==> Occurs(t, PlatformOf, p))
            && (p in rep.aovByPlatform <==> Occurs(t, PlatformOf, p))
            && (p in rep.unitsPerOrderByPlatform <==> Occurs(t, PlatformOf, p))
  {
    var t := AddOrderRevenue(rows);
    var g := GroupBy(t, PlatformOf);
    GroupByShape(t, PlatformOf);
    var rev, cnt, aov, upo := Column(g, Revenue), Counts(g), Ratios(g, Revenue), Ratios(g, Units);
    SameKeys(g, rev);
    SameKeys(g, cnt);
    SameKeys(g, aov);
    SameKeys(g, upo);
    ToMapKeys(rev);
    ToMapKeys(cnt);
    ToMapKeys(aov);
    ToMapKeys(upo);
  }

  /** For a platform that occurs: its revenue and order count are those of its rows, the count is
      at least one, and AOV and units per order are the quotients by that count. */
  lemma PlatformMetricsValues(rows: seq<RawRow>, p: string)
    requires Occurs(AddOrderRevenue(rows), PlatformOf, p)
    ensures var t := AddOrderRevenue(rows);
            var rep := PlatformMetrics(rows);
            && p in rep.revenueByPlatform && p in rep.ordersByPlatform
            && p in rep.aovByPlatform && p in rep.unitsPerOrderByPlatform
            && rep.revenueByPlatform[p] == TallyWhere(t, PlatformOf, p).revenue
            && rep.ordersByPlatform[p] == TallyWhere(t, PlatformOf, p).orders
            && rep.ordersByPlatform[p] >= 1
            && rep.aovByPlatform[p] == rep.revenueByPlatform[p] / rep.ordersByPlatform[p] as real
            && rep.unitsPerOrderByPlatform[p] == TallyWhere(t, PlatformOf, p).units / rep.ordersByPlatform[p] as real
  {
    var t := AddOrderRevenue(rows);
    var g := GroupBy(t, PlatformOf);
    GroupByShape(t, PlatformOf);
    assert PlatformMetrics(rows) == PlatformReportOf(g);
    assert p in Keys(g);
    var i :| 0 <= i < |g| && g[i].0 == p;
    StatsOfEntry(g, i);
    GroupByTallies(t, PlatformOf, p);
    assert g[i].1 == TallyWhere(t, PlatformOf, p);
    ReportEntry(g, i);
  }

  lemma ReportEntry(g: seq<(string, Stats)>, i: nat)
    requires DistinctKeys(g) && NonEmptyGroups(g) && i < |g|
    ensures var rep := PlatformReportOf(g);
            var p := g[i].0;
            && p in rep.revenueByPlatform && p in rep.ordersByPlatform
            && p in rep.aovByPlatform && p in rep.unitsPerOrderByPlatform
            && rep.revenueByPlatform[p] == g[i].1.revenue
            && rep.ordersByPlatform[p] == g[i].1.orders >= 1
            && rep.aovByPlatform[p] == rep.revenueByPlatform[p] / rep.ordersByPlatform[p] as real
            && rep.unitsPerOrderByPlatform[p] == g[i].1.units / rep.ordersByPlatform[p] as real
  {
    var rev, cnt, aov, upo := Column(g, Revenue), Counts(g), Ratios(g, Revenue), Ratios(g, Units);
    SameKeys(g, rev);
    SameKeys(g, cnt);
    SameKeys(g, aov);
    SameKeys(g, upo);
    ToMapAt(rev, i);
    ToMapAt(cnt, i);
    ToMapAt(aov, i);
    ToMapAt(upo, i);
  }

  /** Conservation: per-platform order counts add up to the rows that have a platform, and
      per-platform revenue to their revenue; with every platform present, to the summary's totals. */
  lemma PlatformConservation(rows: seq<RawRow>)
    ensures var t := AddOrderRevenue(rows);
            var rep := PlatformMetrics(rows);
            && MapSum(rep.ordersByPlatform, CountValue) == TallyKeyed(t, PlatformOf).orders as real
            && MapSum(rep.revenueByPlatform, RealValue) == TallyKeyed(t, PlatformOf).revenue
    ensures var t := AddOrderRevenue(rows);
            var rep := PlatformMetrics(rows);
            (forall i :: 0 <= i < |t| ==> t[i].platform.Some?) ==>
              && MapSum(rep.ordersByPlatform, CountValue) == SummaryMetrics(rows).totalOrders as real
              && MapSum(rep.revenueByPlatform, RealValue) == SummaryMetrics(rows).totalRevenue
  {
    var t := AddOrderRevenue(rows);
    var g := GroupBy(t, PlatformOf);
    GroupByShape(t, PlatformOf);
    GroupByConserves(t, PlatformOf);
    SameKeys(g, Column(g, Revenue));
    SameKeys(g, Counts(g));
    MapSumToMap(Column(g, Revenue), RealValue);
    MapSumToMap(Counts(g), CountValue);
    ColumnSum(g, Revenue);
    CountsSum(g);
    if forall i :: 0 <= i < |t| ==> t[i].platform.Some? {
      TallyKeyedAll(t, PlatformOf);
    }
  }

  // ---------------------------------------------------------------------------
  // Rankings and IEEE quotients shared by brand, time and product metrics
  // ---------------------------------------------------------------------------

  /** Descending by value: the order of `sort_values(ascending=False)`. */
  function ByValueDesc<K>(a: (K, real), b: (K, real)): bool
  {
    a.1 >= b.1
  }

  /** Ascending by period: the order of `sort_index()`. */
  function ByKeyAsc<V>(a: (int, V), b: (int, V)): bool
  {
    a.0 <= b.0
  }

  lemma ByValueDescPreorder<K(!new)>()
    ensures TotalPreorder(ByValueDesc<K>)
  {
  }

  lemma ByKeyAscPreorder<V(!new)>()
    ensures TotalPreorder(ByKeyAsc<V>)
  {
  }

  /** One summed column of the groups, in descending order of value. */
  function Ranking<K>(g: seq<(K, Stats)>, m: Measure): seq<(K, real)>
  {
    Sort(Column(g, m), ByValueDesc)
  }

  /** A ranking lists every group once, in descending order, with the group's own sum. */
  lemma RankingCorrect<K(!new)>(g: seq<(K, Stats)>, m: Measure)
    requires DistinctKeys(g)
    ensures var r := Ranking(g, m);
            && |r| == |g|
            && DistinctKeys(r)
            && Keys(r) == Keys(g)
            && (forall i, j :: 0 <= i < j < |r| ==> r[i].1 >= r[j].1)
            && (forall i :: 0 <= i < |r| ==> r[i].1 == Pick(StatsOf(g, r[i].0), m))
            && SeqSum(r, RealValue) == Pick(SumGroups(g), m)
  {
    var c := Column(g, m);
    var r := Ranking(g, m);
    ByValueDescPreorder<K>();
    SortSorted(c, ByValueDesc);
    SortLength(c, ByValueDesc);
    SameKeys(g, c);
    SortDistinct(c, ByValueDesc);
    SortSum(c, ByValueDesc, RealValue);
    ColumnSum(g, m);
    forall i | 0 <= i < |r| ensures r[i].1 == Pick(StatsOf(g, r[i].0), m) {
      assert r[i] in multiset(c);
      var j :| 0 <= j < |c| && c[j] == r[i];
      StatsOfEntry(g, j);
    }
  }

  lemma RankingSum<K>(g: seq<(K, Stats)>, m: Measure)
    ensures SeqSum(Ranking(g, m), RealValue) == Pick(SumGroups(g), m)
  {
    SortSum(Column(g, m), ByValueDesc, RealValue);
    ColumnSum(g, m);
  }

  /** A float: an ordinary value, an infinity or NaN. */
  datatype Float = Finite(v: real) | PosInf | NegInf | NaN

  /** IEEE division: dividing by zero gives an infinity with the numerator's sign, or NaN for 0 / 0. */
  function Divide(x: real, y: real): Float
  {
    if y != 0.0 then Finite(x / y)
    else if x > 0.0 then PosInf
    else if x < 0.0 then NegInf
    else NaN
  }

  /** Multiplication by 100: infinities and NaN stay what they are. */
  function Scale100(f: Float): Float
  {
    if f.Finite? then Finite(f.v * 100.0) else f
  }

  /** `.replace([inf, -inf], 0).fillna(0)`. */
  function ZeroIfUndefined(f: Float): real
  {
    if f.Finite? then f.v else 0.0
  }

  // ---------------------------------------------------------------------------
  // brand_metrics
  // ---------------------------------------------------------------------------

  datatype BrandReport = BrandReport(
    revenueByBrand: seq<(string, real)>,
    unitsByBrand: seq<(string, real)>,
    revenueShareByBrand: seq<(string, Float)>)

  /** `revenue / revenue.sum() * 100`, entry by entry, in the order of `s`. */
  function Shares<K>(s: seq<(K, real)>, total: real): seq<(K, Float)>
  {
    seq(|s|, i requires 0 <= i < |s| => (s[i].0, Scale100(Divide(s[i].1, total))))
  }

  function BrandMetrics(rows: seq<RawRow>): BrandReport
  {
    var g := GroupBy(AddOrderRevenue(rows), BrandOf);
    var revenue := Ranking(g, Revenue);
    BrandReport(revenue, Ranking(g, Units), Shares(revenue, SeqSum(revenue, RealValue)))
  }

  /** Both brand rankings are in descending order, list each brand that occurs once with the sum
      of its rows, and the revenue ranking adds up to the revenue of the rows that have a brand. */
  lemma BrandMetricsCorrect(rows: seq<RawRow>, m: Measure)
    ensures var t := AddOrderRevenue(rows);
            var rep := BrandMetrics(rows);
            var r := if m == Revenue then rep.revenueByBrand else rep.unitsByBrand;
            && (forall i, j :: 0 <= i < j < |r| ==> r[i].1 >= r[j].1)
            && DistinctKeys(r)
            && (forall b :: b in Keys(r) <==> Occurs(t, BrandOf, b))
            && (forall i :: 0 <= i < |r| ==> r[i].1 == Pick(TallyWhere(t, BrandOf, r[i].0), m))
            && SeqSum(r, RealValue) == Pick(TallyKeyed(t, BrandOf), m)
  {
    var t := AddOrderRevenue(rows);
    var g := GroupBy(t, BrandOf);
    GroupByShape(t, BrandOf);
    GroupByConserves(t, BrandOf);
    RankingCorrect(g, m);
    forall b ensures StatsOf(g, b) == TallyWhere(t, BrandOf, b) {
      GroupByTallies(t, BrandOf, b);
    }
  }

  /** Every cleaned row names a brand. */
  predicate AllBranded(t: seq<Row>)
  {
    forall i :: 0 <= i < |t| ==> t[i].brand.Some?
  }

  /** On a cleaned table in which every row has a brand, both brand rankings add up to the
      table's totals. */
  lemma BrandRankingTotals(t: seq<Row>)
    requires AllBranded(t)
    ensures SeqSum(Ranking(GroupBy(t, BrandOf), Revenue), RealValue) == Tally(t).revenue
    ensures SeqSum(Ranking(GroupBy(t, BrandOf), Units), RealValue) == Tally(t).units
  {
    var g := GroupBy(t, BrandOf);
    GroupByConserves(t, BrandOf);
    TallyKeyedAll(t, BrandOf);
    RankingSum(g, Revenue);
    RankingSum(g, Units);
  }

  /** When every cleaned row has a brand, the brand revenues add up to the summary's total
      revenue and the brand units to the total units. */
  lemma BrandConservation(rows: seq<RawRow>)
    requires AllBranded(AddOrderRevenue(rows))
    ensures SeqSum(BrandMetrics(rows).revenueByBrand, RealValue) == SummaryMetrics(rows).totalRevenue
    ensures SeqSum(BrandMetrics(rows).unitsByBrand, RealValue) == Tally(AddOrderRevenue(rows)).units
  {
    var t := AddOrderRevenue(rows);
    BrandRankingTotals(t);
    assert BrandMetrics(rows).revenueByBrand == Ranking(GroupBy(t, BrandOf), Revenue);
    assert BrandMetrics(rows).unitsByBrand == Ranking(GroupBy(t, BrandOf), Units);
  }

  /** Sum of the ordinary values among the shares. */
  function FiniteSum<K>(s: seq<(K, Float)>): real
  {
    if s == [] then 0.0 else ZeroIfUndefined(s[0].1) + FiniteSum(s[1..])
  }

  lemma {:induction false} SharesSum<K>(s: seq<(K, real)>, total: real)
    requires total != 0.0
    ensures FiniteSum(Shares(s, total)) == SeqSum(s, RealValue) / total * 100.0
  {
    if s != [] {
      assert Shares(s, total)[1..] == Shares(s[1..], total);
      SharesSum(s[1..], total);
      SharesStep(s[0].1, SeqSum(s[1..], RealValue), total);
    }
  }

  /** Shares of their own total add up to 100. */
  lemma SharesOfTotal<K>(s: seq<(K, real)>)
    requires SeqSum(s, RealValue) != 0.0
    ensures FiniteSum(Shares(s, SeqSum(s, RealValue))) == 100.0
  {
    var total := SeqSum(s, RealValue);
    SharesSum(s, total);
    SelfQuotient(total);
  }

  lemma SelfQuotient(x: real)
    requires x != 0.0
    ensures x / x * 100.0 == 100.0
  {
  }

  lemma SharesStep(a: real, rest: real, total: real)
    requires total != 0.0
    ensures a / total * 100.0 + rest / total * 100.0 == (a + rest) / total * 100.0
  {
  }

  /** One share: the entry's key, and its value over the total times 100, or not a number. */
  lemma SharesAt<K>(s: seq<(K, real)>, total: real, i: nat)
    requires i < |s|
    ensures |Shares(s, total)| == |s| && Shares(s, total)[i].0 == s[i].0
    ensures total != 0.0 ==> Shares(s, total)[i].1 == Finite(s[i].1 / total * 100.0)
    ensures total == 0.0 ==> !Shares(s, total)[i].1.Finite?
  {
  }

  /** Each share is the brand's revenue over the total times 100 when the total is not zero;
      with a zero total pandas divides by zero, so no share is an ordinary number. */
  lemma BrandSharesCorrect(rows: seq<RawRow>)
    ensures var rep := BrandMetrics(rows);
            var r := rep.revenueByBrand;
            var s := rep.revenueShareByBrand;
            var total := TallyKeyed(AddOrderRevenue(rows), BrandOf).revenue;
            && |s| == |r|
            && (forall i :: 0 <= i < |s| ==> s[i].0 == r[i].0)
            && (total != 0.0 ==> forall i :: 0 <= i < |s| ==> s[i].1 == Finite(r[i].1 / total * 100.0))
            && (total == 0.0 ==> forall i :: 0 <= i < |s| ==> !s[i].1.Finite?)
            && (total != 0.0 ==> FiniteSum(s) == 100.0)
  {
    var t := AddOrderRevenue(rows);
    var g := GroupBy(t, BrandOf);
    var r := Ranking(g, Revenue);
    var total := TallyKeyed(t, BrandOf).revenue;
    GroupByConserves(t, BrandOf);
    RankingSum(g, Revenue);
    assert BrandMetrics(rows).revenueByBrand == r;
    assert SeqSum(r, RealValue) == total;
    assert BrandMetrics(rows).revenueShareByBrand == Shares(r, total);
    forall i | 0 <= i < |r|
      ensures Shares(r, total)[i].0 == r[i].0
      ensures total != 0.0 ==> Shares(r, total)[i].1 == Finite(r[i].1 / total * 100.0)
      ensures total == 0.0 ==> !Shares(r, total)[i].1.Finite?
    {
      SharesAt(r, total, i);
    }
    if total != 0.0 {
      SharesOfTotal(r);
    }
  }

  // ---------------------------------------------------------------------------
  // time_metrics
  // ---------------------------------------------------------------------------

  datatype TimeReport = TimeReport(
    monthlyRevenue: seq<(int, real)>,
    momGrowth: seq<(int, real)>,
    yoyGrowth: seq<(int, real)>)

  /** `groupby('Year_Month')['Order_Revenue'].sum().sort_index()`. */
  function MonthlyRevenue(t: seq<Row>): seq<(int, real)>
  {
    Sort(Column(GroupBy(t, MonthOf), Revenue), ByKeyAsc)
  }

  /** `pct_change(periods)` at position i: `x / x.shift(periods) - 1`; without an entry
      `periods` positions earlier the shifted value is missing and the result is NaN. */
  function PctChange(s: seq<(int, real)>, periods: nat, i: nat): Float
    requires i < |s|
  {
    if i < periods then NaN
    else
      match Divide(s[i].1, s[i - periods].1)
      case Finite(q) => Finite(q - 1.0)
      case other => other
  }

  /** The growth series: percent change times 100, with infinities and NaN replaced by 0. */
  function Growth(s: seq<(int, real)>, periods: nat): seq<(int, real)>
  {
    seq(|s|, i requires 0 <= i < |s| => (s[i].0, ZeroIfUndefined(Scale100(PctChange(s, periods, i)))))
  }

  function TimeMetrics(rows: seq<RawRow>): TimeReport
  {
    var monthly := MonthlyRevenue(AddOrderRevenue(rows));
    TimeReport(monthly, Growth(monthly, 1), Growth(monthly, 12))
  }

  /** The monthly series is in strictly ascending period order, has one entry per period that
      occurs, and each entry is the revenue of that period's rows. */
  lemma MonthlyRevenueCorrect(t: seq<Row>)
    ensures var s := MonthlyRevenue(t);
            && (forall i, j :: 0 <= i < j < |s| ==> s[i].0 < s[j].0)
            && (forall ym :: ym in Keys(s) <==> Occurs(t, MonthOf, ym))
            && (forall i :: 0 <= i < |s| ==> s[i].1 == TallyWhere(t, MonthOf, s[i].0).revenue)
  {
    var g := GroupBy(t, MonthOf);
    var c := Column(g, Revenue);
    var s := MonthlyRevenue(t);
    GroupByShape(t, MonthOf);
    ByKeyAscPreorder<real>();
    SortSorted(c, ByKeyAsc);
    SameKeys(g, c);
    SortDistinct(c, ByKeyAsc);
    forall i | 0 <= i < |s| ensures s[i].1 == TallyWhere(t, MonthOf, s[i].0).revenue {
      assert s[i] in multiset(c);
      var j :| 0 <= j < |c| && c[j] == s[i];
      StatsOfEntry(g, j);
      GroupByTallies(t, MonthOf, g[j].0);
    }
  }

  /** Growth at position i compares with the entry `periods` positions earlier in the series:
      `(r[i] - r[i - periods]) / r[i - periods] * 100`, and 0 when there is no such entry or
      it is zero. */
  lemma GrowthAt(s: seq<(int, real)>, periods: nat, i: nat)
    requires i < |s|
    ensures |Growth(s, periods)| == |s|
    ensures Growth(s, periods)[i].0 == s[i].0
    ensures i < periods ==> Growth(s, periods)[i].1 == 0.0
    ensures i >= periods && s[i - periods].1 == 0.0 ==> Growth(s, periods)[i].1 == 0.0
    ensures i >= periods && s[i - periods].1 != 0.0 ==>
              Growth(s, periods)[i].1 == (s[i].1 - s[i - periods].1) / s[i - periods].1 * 100.0
  {
    if i >= periods && s[i - periods].1 != 0.0 {
      QuotientMinusOne(s[i].1, s[i - periods].1);
    }
  }

  lemma QuotientMinusOne(c: real, p: real)
    requires p != 0.0
    ensures c / p - 1.0 == (c - p) / p
  {
    assert (c - p) / p == c / p - p / p;
  }

  /** A growth figure against a non-zero earlier value recovers the current value from it. */
  lemma GrowthRecovers(s: seq<(int, real)>, periods: nat, i: nat)
    requires periods <= i < |s| && s[i - periods].1 != 0.0
    ensures s[i].1 == s[i - periods].1 * (1.0 + Growth(s, periods)[i].1 / 100.0)
  {
    GrowthAt(s, periods, i);
    var prev, cur := s[i - periods].1, s[i].1;
    var g := Growth(s, periods)[i].1;
    assert g / 100.0 == (cur - prev) / prev;
    assert prev * ((cur - prev) / prev) == cur - prev;
  }

  /** The growth series run along the monthly series: the first month-over-month value and the
      first twelve year-over-year values are 0. */
  lemma TimeMetricsCorrect(rows: seq<RawRow>)
    ensures var rep := TimeMetrics(rows);
            && |rep.momGrowth| == |rep.monthlyRevenue| && |rep.yoyGrowth| == |rep.monthlyRevenue|
            && (forall i :: 0 <= i < |rep.monthlyRevenue| ==>
                  rep.momGrowth[i].0 == rep.monthlyRevenue[i].0 && rep.yoyGrowth[i].0 == rep.monthlyRevenue[i].0)
            && (|rep.momGrowth| > 0 ==> rep.momGrowth[0].1 == 0.0)
            && (forall i :: 0 <= i < 12 && i < |rep.yoyGrowth| ==> rep.yoyGrowth[i].1 == 0.0)
  {
  }

  // ---------------------------------------------------------------------------
  // product_metrics
  // ---------------------------------------------------------------------------

  function Min(a: int, b: int): int { if a <= b then a else b }
  function Max(a: int, b: int): int { if a >= b then a else b }

  /** `Series.head(n)`: the first n entries; a negative n drops the last -n entries. */
  function Head<T>(s: seq<T>, n: int): (r: seq<T>)
    ensures |r| <= |s| && r == s[..|r|]
    ensures 0 <= n ==> |r| == Min(n, |s|)
    ensures n < 0 ==> |r| == Max(|s| + n, 0)
  {
    if n >= 0 then s[..Min(n, |s|)] else s[..Max(|s| + n, 0)]
  }

  datatype ProductReport = ProductReport(
    topProductsByRevenue: seq<(string, real)>,
    topProductsByUnits: seq<(string, real)>)

  function ProductMetrics(rows: seq<RawRow>, n: int): ProductReport
  {
    var g := GroupBy(AddOrderRevenue(rows), ProductOf);
    ProductReport(Head(Ranking(g, Revenue), n), Head(Ranking(g, Units), n))
  }

  function TopBy(rep: ProductReport, m: Measure): seq<(string, real)>
  {
    match m
    case Revenue => rep.topProductsByRevenue
    case Units => rep.topProductsByUnits
  }

  /** The first entries of a descending list are at least as large as every entry not among them. */
  lemma HeadCutoff<K>(r: seq<(K, real)>, n: int, j: nat, i: nat)
    requires forall a, b :: 0 <= a < b < |r| ==> r[a].1 >= r[b].1
    requires j < |r| && r[j].0 !in Keys(Head(r, n)) && i < |Head(r, n)|
    ensures Head(r, n)[i].1 >= r[j].1
  {
    var top := Head(r, n);
    assert forall a :: 0 <= a < |top| ==> top[a] == r[a] && top[a].0 in Keys(top);
    assert j >= |top|;
  }

  /** A top-n ranking has min(n, number of distinct products) entries. */
  lemma TopProductsLength(rows: seq<RawRow>, n: int, m: Measure)
    requires 0 <= n
    ensures |TopBy(ProductMetrics(rows, n), m)| == Min(n, |Occurring(AddOrderRevenue(rows), ProductOf)|)
  {
    var t := AddOrderRevenue(rows);
    var g := GroupBy(t, ProductOf);
    GroupByShape(t, ProductOf);
    SortLength(Column(g, m), ByValueDesc);
    assert Occurring(t, ProductOf) == Keys(g) by {
      forall k ensures k in Occurring(t, ProductOf) <==> k in Keys(g) {
        OccurringOccurs(t, ProductOf, k);
      }
    }
    DistinctKeysCard(g);
  }

  /** A top-n ranking is in descending order and lists each product at most once. */
  lemma TopProductsOrdered(rows: seq<RawRow>, n: int, m: Measure)
    ensures var top := TopBy(ProductMetrics(rows, n), m);
            && (forall i, j :: 0 <= i < j < |top| ==> top[i].1 >= top[j].1)
            && DistinctKeys(top)
  {
    var g := GroupBy(AddOrderRevenue(rows), ProductOf);
    var r := Ranking(g, m);
    var top := Head(r, n);
    assert TopBy(ProductMetrics(rows, n), m) == top;
    GroupByShape(AddOrderRevenue(rows), ProductOf);
    RankingCorrect(g, m);
    forall i, j | 0 <= i < j < |top| ensures top[i].1 >= top[j].1 && top[i].0 != top[j].0 {
      assert top[i] == r[i] && top[j] == r[j];
    }
  }

  /** Every listed product occurs, with the sum of its rows. */
  lemma TopProductsValues(rows: seq<RawRow>, n: int, m: Measure)
    ensures var t := AddOrderRevenue(rows);
            var top := TopBy(ProductMetrics(rows, n), m);
            forall i :: 0 <= i < |top| ==>
              Occurs(t, ProductOf, top[i].0) && top[i].1 == Pick(TallyWhere(t, ProductOf, top[i].0), m)
  {
    var t := AddOrderRevenue(rows);
    var g := GroupBy(t, ProductOf);
    var r := Ranking(g, m);
    var top := Head(r, n);
    assert TopBy(ProductMetrics(rows, n), m) == top;
    GroupByShape(t, ProductOf);
    RankingCorrect(g, m);
    forall i | 0 <= i < |top|
      ensures Occurs(t, ProductOf, top[i].0) && top[i].1 == Pick(TallyWhere(t, ProductOf, top[i].0), m)
    {
      assert top[i] == r[i];
      assert r[i].0 in Keys(r);
      GroupByTallies(t, ProductOf, r[i].0);
    }
  }

  /** No product left out of a top-n ranking has a larger sum than a listed one. */
  lemma TopProductsCutoff(rows: seq<RawRow>, n: int, m: Measure)
    ensures var t := AddOrderRevenue(rows);
            var top := TopBy(ProductMetrics(rows, n), m);
            forall k, i :: Occurs(t, ProductOf, k) && k !in Keys(top) && 0 <= i < |top| ==>
              top[i].1 >= Pick(TallyWhere(t, ProductOf, k), m)
  {
    var t := AddOrderRevenue(rows);
    var g := GroupBy(t, ProductOf);
    var r := Ranking(g, m);
    var top := Head(r, n);
    assert TopBy(ProductMetrics(rows, n), m) == top;
    GroupByShape(t, ProductOf);
    RankingCorrect(g, m);
    forall k, i | Occurs(t, ProductOf, k) && k !in Keys(top) && 0 <= i < |top|
      ensures top[i].1 >= Pick(TallyWhere(t, ProductOf, k), m)
    {
      assert k in Keys(r);
      var j :| 0 <= j < |r| && r[j].0 == k;
      GroupByTallies(t, ProductOf, k);
      HeadCutoff(r, n, j, i);
    }
  }
}
