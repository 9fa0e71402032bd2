/** What the dashboard shows: the three metric cards over the filtered table,
    and the data behind each chart of its four pages. Page 1 works on the
    filtered table; pages 2 to 4 work on the whole table. */
module Dashboard {
  import opened Rows
  import opened Sales
  import opened Sidebar
  import opened Aggregation
  import opened Highlight

  /** The three metric cards: Total Profit, Total Quantity, Total Orders. */
  datatype Cards = Cards(totalProfit: int, totalQuantity: int, totalOrders: nat)

  /** The metric cards over the filtered rows: the sum of Amount, the sum of
      Qty and the number of rows (`Qty.count()`, Qty never missing). When
      no row matches, all three are zero. */
  function MetricCards(filtered: seq<Record>): (m: Cards)
    ensures m.totalProfit == Sum(filtered, AmountOf)
    ensures m.totalQuantity == Sum(filtered, QtyOf) && m.totalQuantity >= 0
    ensures m.totalOrders == |filtered|
    ensures filtered == [] ==> m == Cards(0, 0, 0)
  {
    SumNonNegative(filtered, QtyOf);
    Cards(Sum(filtered, AmountOf), Sum(filtered, QtyOf), |filtered|)
  }

  /** The cards of two tables put together are the sums of their cards. */
  lemma CardsAdd(a: seq<Record>, b: seq<Record>)
    ensures MetricCards(a + b) == Cards(
      MetricCards(a).totalProfit + MetricCards(b).totalProfit,
      MetricCards(a).totalQuantity + MetricCards(b).totalQuantity,
      MetricCards(a).totalOrders + MetricCards(b).totalOrders)
  {
    SumConcat(a, b, AmountOf);
    SumConcat(a, b, QtyOf);
  }

  /** A grouped chart: the group totals and the colour of each bar. */
  datatype Chart<K> = Chart(groups: seq<(K, int)>, colours: seq<Colour>)

  /** Bar `i` of a grouped chart has the largest total. */
  predicate IsTopBar<K>(g: seq<(K, int)>, i: nat)
    requires i < |g|
  {
    forall j :: 0 <= j < |g| ==> g[j].1 <= g[i].1
  }

  /** Bar `i` of a grouped chart has the smallest total. */
  predicate IsBottomBar<K>(g: seq<(K, int)>, i: nat)
    requires i < |g|
  {
    forall j :: 0 <= j < |g| ==> g[i].1 <= g[j].1
  }

  /** The colour list of a grouped chart follows its totals: green for a
      largest total, red for a smallest one that is not also a largest, and
      light gray for the rest. */
  lemma ChartColours<K>(g: seq<(K, int)>)
    ensures |Colours(Values(g))| == |g|
    ensures forall i :: 0 <= i < |g| ==> (Colours(Values(g))[i] == Green <==> IsTopBar(g, i))
    ensures forall i :: 0 <= i < |g| ==>
      (Colours(Values(g))[i] == Red <==> IsBottomBar(g, i) && !IsTopBar(g, i))
    ensures forall i :: 0 <= i < |g| ==>
      (Colours(Values(g))[i] == LightGray <==> !IsBottomBar(g, i) && !IsTopBar(g, i))
  {
    var vs := Values(g);
    forall i | 0 <= i < |g|
      ensures IsGreatest(vs, i) == IsTopBar(g, i) && IsLeast(vs, i) == IsBottomBar(g, i)
    {
    }
  }

  /** A page-1 chart: profit (Amount) summed per key over the filtered rows,
      and the colour list built from those totals. */
  function ProfitChart<K(==,!new)>(filtered: seq<Record>, key: Record -> K): (c: Chart<K>)
    ensures DistinctKeys(c.groups)
    ensures KeysOf(c.groups) == set x | x in filtered :: key(x)
    ensures forall k :: Lookup(c.groups, k) == Sum(RowsWithKey(filtered, key, k), AmountOf)
    ensures Total(c.groups) == MetricCards(filtered).totalProfit
    ensures |c.colours| == |c.groups|
    ensures forall i :: 0 <= i < |c.groups| ==> (c.colours[i] == Green <==> IsTopBar(c.groups, i))
    ensures forall i :: 0 <= i < |c.groups| ==>
      (c.colours[i] == Red <==> IsBottomBar(c.groups, i) && !IsTopBar(c.groups, i))
    ensures forall i :: 0 <= i < |c.groups| ==>
      (c.colours[i] == LightGray <==> !IsBottomBar(c.groups, i) && !IsTopBar(c.groups, i))
  {
    var g := GroupSum(filtered, key, AmountOf);
    ChartColours(g);
    Chart(g, Colours(Values(g)))
  }

  /** Page 1, 'Analysis By Time': profit by year, quarter, month and day. */
  datatype TimeView = TimeView(
    byYear: Chart<int>,
    byQuarter: Chart<string>,
    byMonth: Chart<string>,
    byDay: Chart<string>)

  function TimeAnalysis(filtered: seq<Record>): (v: TimeView)
    ensures v.byYear == ProfitChart(filtered, YearOf)
    ensures v.byQuarter == ProfitChart(filtered, QuarterOf)
    ensures v.byMonth == ProfitChart(filtered, MonthOf)
    ensures v.byDay == ProfitChart(filtered, DayOf)
    ensures Total(v.byYear.groups) == MetricCards(filtered).totalProfit
    ensures Total(v.byQuarter.groups) == MetricCards(filtered).totalProfit
    ensures Total(v.byMonth.groups) == MetricCards(filtered).totalProfit
    ensures Total(v.byDay.groups) == MetricCards(filtered).totalProfit
    ensures |v.byYear.colours| == |v.byYear.groups| && |v.byQuarter.colours| == |v.byQuarter.groups|
    ensures |v.byMonth.colours| == |v.byMonth.groups| && |v.byDay.colours| == |v.byDay.groups|
  {
    TimeView(ProfitChart(filtered, YearOf), ProfitChart(filtered, QuarterOf),
             ProfitChart(filtered, MonthOf), ProfitChart(filtered, DayOf))
  }

  /** Page 2, 'Products', on the whole table. */
  datatype ProductsView = ProductsView(
    topSkusByQty: seq<(string, int)>,
    topSkusByRevenue: seq<(string, int)>,
    qtyByCategory: seq<(string, int)>,
    revenueByCategory: seq<(string, int)>,
    qtyBySize: seq<(string, int)>,
    revenueBySize: seq<(string, int)>,
    topStylesByQty: seq<(string, int)>,
    topStylesByRevenue: seq<(string, int)>)

  function Products(df: seq<Record>): (v: ProductsView)
    ensures IsTopN(v.topSkusByQty, GroupSum(df, SkuOf, QtyOf), TOP)
    ensures IsTopN(v.topSkusByRevenue, GroupSum(df, SkuOf, AmountOf), TOP)
    ensures NonIncreasing(v.qtyByCategory)
    ensures multiset(v.qtyByCategory) == multiset(GroupSum(df, CategoryOf, QtyOf))
    ensures NonIncreasing(v.revenueByCategory)
    ensures multiset(v.revenueByCategory) == multiset(GroupSum(df, CategoryOf, AmountOf))
    ensures NonIncreasing(v.qtyBySize)
    ensures multiset(v.qtyBySize) == multiset(GroupSum(df, SizeOf, QtyOf))
    ensures NonIncreasing(v.revenueBySize)
    ensures multiset(v.revenueBySize) == multiset(GroupSum(df, SizeOf, AmountOf))
    ensures IsTopN(v.topStylesByQty, GroupSum(df, StyleOf, QtyOf), TOP)
    ensures IsTopN(v.topStylesByRevenue, GroupSum(df, StyleOf, AmountOf), TOP)
  {
    ProductsView(
      TopN(GroupSum(df, SkuOf, QtyOf), TOP),
      TopN(GroupSum(df, SkuOf, AmountOf), TOP),
      SortDesc(GroupSum(df, CategoryOf, QtyOf)),
      SortDesc(GroupSum(df, CategoryOf, AmountOf)),
      SortDesc(GroupSum(df, SizeOf, QtyOf)),
      SortDesc(GroupSum(df, SizeOf, AmountOf)),
      TopN(GroupSum(df, StyleOf, QtyOf), TOP),
      TopN(GroupSum(df, StyleOf, AmountOf), TOP))
  }

  /** One point of the quantity-against-amount scatter: a (year, month, day)
      key, the day being the `Order_Day` column, with the Qty and Amount
      summed over the rows carrying that key. */
  datatype DayPoint = DayPoint(ymd: (int, string, string), qty: int, amount: int)

  /** Pairs the two group-by-sums of the scatter entry by entry. */
  function ZipPoints(q: seq<((int, string, string), int)>, a: seq<((int, string, string), int)>): (ps: seq<DayPoint>)
    requires |q| == |a|
    ensures |ps| == |q|
    ensures forall i :: 0 <= i < |q| ==> ps[i] == DayPoint(q[i].0, q[i].1, a[i].1)
  {
    seq(|q|, i requires 0 <= i < |q| => DayPoint(q[i].0, q[i].1, a[i].1))
  }

  /** The scatter of page 3: one point per (year, month, day) key present in
      the table, holding that key's summed Qty and Amount. */
  function DailyPoints(df: seq<Record>): (ps: seq<DayPoint>)
    ensures forall i, j :: 0 <= i < j < |ps| ==> ps[i].ymd != ps[j].ymd
    ensures (set p | p in ps :: p.ymd) == set x | x in df :: YearMonthDayOf(x)
    ensures forall i :: 0 <= i < |ps| ==>
      ps[i].qty == Sum(RowsWithKey(df, YearMonthDayOf, ps[i].ymd), QtyOf) &&
      ps[i].amount == Sum(RowsWithKey(df, YearMonthDayOf, ps[i].ymd), AmountOf)
  {
    var q := GroupSum(df, YearMonthDayOf, QtyOf);
    var a := GroupSum(df, YearMonthDayOf, AmountOf);
    SameKeyOrder(df, YearMonthDayOf, QtyOf, AmountOf);
    var ps := ZipPoints(q, a);
    PointsFollowGroups(df, q, a, ps);
    ps
  }

  lemma PointsFollowGroups(df: seq<Record>, q: seq<((int, string, string), int)>,
                           a: seq<((int, string, string), int)>, ps: seq<DayPoint>)
    requires q == GroupSum(df, YearMonthDayOf, QtyOf) && a == GroupSum(df, YearMonthDayOf, AmountOf)
    requires |q| == |a| && |ps| == |q|
    requires forall i :: 0 <= i < |q| ==> ps[i] == DayPoint(q[i].0, q[i].1, a[i].1)
    requires forall i :: 0 <= i < |q| ==> q[i].0 == a[i].0
    ensures forall i, j :: 0 <= i < j < |ps| ==> ps[i].ymd != ps[j].ymd
    ensures (set p | p in ps :: p.ymd) == set x | x in df :: YearMonthDayOf(x)
    ensures forall i :: 0 <= i < |ps| ==>
      ps[i].qty == Sum(RowsWithKey(df, YearMonthDayOf, ps[i].ymd), QtyOf) &&
      ps[i].amount == Sum(RowsWithKey(df, YearMonthDayOf, ps[i].ymd), AmountOf)
  {
    assert forall i, j :: 0 <= i < j < |ps| ==> ps[i].ymd == q[i].0 && ps[j].ymd == q[j].0;
    forall i | 0 <= i < |ps|
      ensures ps[i].qty == Sum(RowsWithKey(df, YearMonthDayOf, ps[i].ymd), QtyOf)
      ensures ps[i].amount == Sum(RowsWithKey(df, YearMonthDayOf, ps[i].ymd), AmountOf)
    {
      LookupAt(q, i);
      LookupAt(a, i);
    }
    assert (set p | p in ps :: p.ymd) == KeysOf(q) by {
      forall k | k in KeysOf(q) ensures k in set p | p in ps :: p.ymd {
        var e :| e in q && e.0 == k;
        var i :| 0 <= i < |q| && q[i] == e;
        assert ps[i] in ps;
      }
      forall p | p in ps ensures p.ymd in KeysOf(q) {
        var i :| 0 <= i < |ps| && ps[i] == p;
        assert q[i] in q;
      }
    }
  }

  /** Page 3, 'Metrics', restricted to its Amount and Qty columns: the ten
      days with the highest sales, the ten with the highest quantity, and
      the per-(year, month, day) scatter. */
  datatype MetricsView = MetricsView(
    topDaysByAmount: seq<(string, int)>,
    topDaysByQty: seq<(string, int)>,
    points: seq<DayPoint>)

  function Metrics(df: seq<Record>): (v: MetricsView)
    ensures IsTopN(v.topDaysByAmount, GroupSum(df, DayOf, AmountOf), TOP)
    ensures IsTopN(v.topDaysByQty, GroupSum(df, DayOf, QtyOf), TOP)
    ensures v.points == DailyPoints(df)
  {
    MetricsView(TopN(GroupSum(df, DayOf, AmountOf), TOP), TopN(GroupSum(df, DayOf, QtyOf), TOP), DailyPoints(df))
  }

  /** Page 4, 'State': the ten states with the most order lines, the most
      quantity and the most revenue. */
  datatype StateView = StateView(
    topStatesByCount: seq<(string, int)>,
    topStatesByQty: seq<(string, int)>,
    topStatesByAmount: seq<(string, int)>)

  function States(df: seq<Record>): (v: StateView)
    ensures IsTopN(v.topStatesByCount, GroupSum(df, StateOf, One), TOP)
    ensures forall e :: e in v.topStatesByCount ==> e.1 == |RowsWithKey(df, StateOf, e.0)|
    ensures IsTopN(v.topStatesByQty, GroupSum(df, StateOf, QtyOf), TOP)
    ensures IsTopN(v.topStatesByAmount, GroupSum(df, StateOf, AmountOf), TOP)
  {
    var counts := GroupSum(df, StateOf, One);
    var top := TopN(counts, TOP);
    assert forall e :: e in top ==> e.1 == |RowsWithKey(df, StateOf, e.0)| by {
      forall e | e in top ensures e.1 == |RowsWithKey(df, StateOf, e.0)| {
        assert e in multiset(counts);
        var i :| 0 <= i < |counts| && counts[i] == e;
        LookupAt(counts, i);
        CountsAreRowCounts(df, StateOf, One, e.0);
      }
    }
    StateView(top, TopN(GroupSum(df, StateOf, QtyOf), TOP), TopN(GroupSum(df, StateOf, AmountOf), TOP))
  }

  /** The category and size selections never change what the filtered
      views show: the metric cards and every page-1 chart are the same
      whatever they hold. */
  lemma CategoryAndSizeNeverShow(df: seq<Record>, c: Selection, categories: seq<string>, sizes: seq<string>)
    ensures MetricCards(Filtered(df, c.(categories := categories, sizes := sizes)))
         == MetricCards(Filtered(df, c))
    ensures TimeAnalysis(Filtered(df, c.(categories := categories, sizes := sizes)))
         == TimeAnalysis(Filtered(df, c))
  {
    CategoryAndSizeIgnored(df, c, categories, sizes);
  }

  /** With nothing selected, the cards show the totals of the whole table. */
  lemma NothingSelectedShowsWholeTable(df: seq<Record>, c: Selection)
    requires NothingSelected(c)
    ensures MetricCards(Filtered(df, c)) == Cards(Sum(df, AmountOf), Sum(df, QtyOf), |df|)
  {
    NothingSelectedKeepsAll(df, c);
  }

  /** The worked example of a grouped, sorted profit view: category A with
      amounts 10 and 3, category B with 5, gives A 13 ahead of B 5. */
  lemma CategoryExample()
    ensures SortDesc(GroupSum([
        Record(2022, "April", "Monday", "Q2", "Spring", "S1", "A", "M", "St1", "X", 1, 10),
        Record(2022, "April", "Monday", "Q2", "Spring", "S2", "B", "M", "St2", "X", 1, 5),
        Record(2022, "April", "Monday", "Q2", "Spring", "S3", "A", "M", "St3", "X", 1, 3)],
      CategoryOf, AmountOf)) == [("A", 13), ("B", 5)]
  {
    var r1 := Record(2022, "April", "Monday", "Q2", "Spring", "S1", "A", "M", "St1", "X", 1, 10);
    var r2 := Record(2022, "April", "Monday", "Q2", "Spring", "S2", "B", "M", "St2", "X", 1, 5);
    var r3 := Record(2022, "April", "Monday", "Q2", "Spring", "S3", "A", "M", "St3", "X", 1, 3);
    var s := [r1, r2, r3];
    assert s[..2] == [r1, r2] && [r1, r2][..1] == [r1] && [r1][..0] == [];
    assert GroupSum([r1], CategoryOf, AmountOf) == [("A", 10)];
    assert "A" != "B" by { assert "A"[0] != "B"[0]; }
    assert Accumulate([("A", 10)], "B", 5) == [("A", 10), ("B", 5)] by {
      assert [("A", 10)][1..] == [];
    }
    assert GroupSum([r1, r2], CategoryOf, AmountOf) == [("A", 10), ("B", 5)];
    assert Accumulate([("A", 10), ("B", 5)], "A", 3) == [("A", 13), ("B", 5)] by {
      assert [("A", 10), ("B", 5)][1..] == [("B", 5)];
    }
    assert GroupSum(s, CategoryOf, AmountOf) == [("A", 13), ("B", 5)];
    assert SortDesc([("B", 5)]) == [("B", 5)];
    assert [("A", 13), ("B", 5)][1..] == [("B", 5)];
  }
}
