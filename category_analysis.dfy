/** The category analysis tab: a treemap of interactions per category name,
    conversion rates of the ten most frequent categories, the five best of
    them by view-to-buy rate, and hourly activity of the five most frequent. */
module CategoryAnalysis {
  import opened Events
  import opened Seqs
  import opened Grouping
  import opened Ranking
  import opened Rates
  import opened Names
  import FunnelAnalysis

  /** `category_mapping.get(id, "Electronics")`, and `map(category_mapping).fillna("Electronics")`. */
  function MetricName(id: int): (name: string)
    ensures forall i :: 0 <= i < |CategoryIds| && CategoryIds[i] == id ==> name == AnalysisNames[i]
    ensures id !in CategoryIds ==> name == "Electronics"
  {
    CategoryName(AnalysisNames, id, "Electronics")
  }

  /** `category_mapping.get(id, "Other")`, the name of an hourly series. */
  function SeriesName(id: int): (name: string)
    ensures forall i :: 0 <= i < |CategoryIds| && CategoryIds[i] == id ==> name == AnalysisNames[i]
    ensures id !in CategoryIds ==> name == "Other"
  {
    CategoryName(AnalysisNames, id, "Other")
  }

  /** The two fallbacks: a mapped ID has the same name in both places, an
      unmapped one is "Electronics" among the metrics and "Other" in the hourly
      chart. Either way a metric's name is one of the dictionary's names. */
  lemma FallbackNames(id: int)
    ensures id in CategoryIds ==> MetricName(id) == SeriesName(id)
    ensures id !in CategoryIds ==> MetricName(id) == "Electronics" && SeriesName(id) == "Other"
    ensures MetricName(id) in AnalysisNames
  {
    assert AnalysisNames[0] == "Electronics";
  }

  function CategoryNameOf(e: Event): string { MetricName(e.category) }

  /** Every metric name is a name of the dictionary, the fallback included. */
  lemma MetricNamesInDictionary(t: Table)
    ensures forall x :: x in Map(t, CategoryNameOf) ==> x in AnalysisNames
  {
    forall x | x in Map(t, CategoryNameOf) ensures x in AnalysisNames {
      var j :| 0 <= j < |t| && Map(t, CategoryNameOf)[j] == x;
      FallbackNames(t[j].category);
    }
  }

  /** `groupby("CategoryName")["BehaviorType"].count()`: one tile per name
      that occurs, each a dictionary name, holding the number of rows whose
      category carries that name (IDs sharing a name share a tile); the tiles
      account for the whole table. */
  function Treemap(t: Table): (g: seq<(string, nat)>)
    ensures NoDup(KeysOf(g))
    ensures forall i :: 0 <= i < |g| ==> g[i].0 in AnalysisNames && g[i].1 == multiset(Map(t, CategoryNameOf))[g[i].0]
    ensures SumCounts(g) == |t|
  {
    MetricNamesInDictionary(t);
    GroupCounts(Map(t, CategoryNameOf))
  }

  /** `value_counts().head(10).index`. */
  function AnalysedIds(t: Table): seq<int>
  {
    KeysOf(TopCounts(Map(t, CategoryOf), 10))
  }

  /** At most ten distinct category IDs of the table are analysed, and no
      category left out has more rows than one analysed. */
  lemma AnalysedIdsAreTop(t: Table)
    ensures |AnalysedIds(t)| == Min(10, |Distinct(Map(t, CategoryOf))|)
    ensures NoDup(AnalysedIds(t))
    ensures forall i :: 0 <= i < |AnalysedIds(t)| ==> AnalysedIds(t)[i] in Map(t, CategoryOf)
    ensures forall k, j :: k in Map(t, CategoryOf) && k !in AnalysedIds(t) && 0 <= j < |AnalysedIds(t)| ==>
      multiset(Map(t, CategoryOf))[k] <= multiset(Map(t, CategoryOf))[AnalysedIds(t)[j]]
  {
    var xs := Map(t, CategoryOf);
    var top := TopCounts(xs, 10);
    var ids := AnalysedIds(t);
    TopCountsFacts(xs, 10);
    forall j | 0 <= j < |ids| ensures ids[j] == top[j].0 && multiset(xs)[ids[j]] == top[j].1 && ids[j] in xs {
      assert ids[j] == top[j].0;
    }
  }

  /** The number of rows of category `id` with behavior `b`. */
  function Cell(t: Table, id: int, b: Behavior): nat
  {
    multiset(Map(t, CategoryBehaviorOf))[(id, b)]
  }

  /** One entry of `category_metrics`. */
  datatype CategoryMetric = CategoryMetric(name: string, views: nat, viewToCart: real, viewToBuy: real, cartToBuy: real)

  /** The metrics of category `id`: its page views and its three rates,
      all taken from the category's pv, cart and buy cells of the table. */
  function MetricOf(t: Table, id: int): CategoryMetric
  {
    var views, carts, buys := Cell(t, id, Pv), Cell(t, id, Cart), Cell(t, id, Buy);
    CategoryMetric(MetricName(id), views, GuardedRate(carts, views), GuardedRate(buys, views), GuardedRate(buys, carts))
  }

  /** The rates are guarded percentages of the category's cells: carts and
      buys per hundred views, and buys per hundred carts; View → Cart and
      View → Buy are 0 without views, Cart → Buy is 0 without carts. */
  lemma MetricRates(t: Table, id: int)
    ensures MetricOf(t, id).name == MetricName(id) && MetricOf(t, id).views == Cell(t, id, Pv)
    ensures MetricOf(t, id).viewToCart == GuardedRate(Cell(t, id, Cart), Cell(t, id, Pv))
    ensures MetricOf(t, id).viewToBuy == GuardedRate(Cell(t, id, Buy), Cell(t, id, Pv))
    ensures MetricOf(t, id).cartToBuy == GuardedRate(Cell(t, id, Buy), Cell(t, id, Cart))
    ensures Cell(t, id, Pv) == 0 ==> MetricOf(t, id).viewToCart == 0.0 && MetricOf(t, id).viewToBuy == 0.0
    ensures Cell(t, id, Cart) == 0 ==> MetricOf(t, id).cartToBuy == 0.0
  {
  }

  /** The metrics of the categories `ids`, in that order. */
  function MetricsOf(t: Table, ids: seq<int>): (ms: seq<CategoryMetric>)
    ensures |ms| == |ids|
  {
    if ids == [] then [] else MetricsOf(t, ids[..|ids| - 1]) + [MetricOf(t, ids[|ids| - 1])]
  }

  lemma MetricsOfSnoc(t: Table, ids: seq<int>, k: nat)
    requires k < |ids|
    ensures MetricsOf(t, ids[..k + 1]) == MetricsOf(t, ids[..k]) + [MetricOf(t, ids[k])]
  {
    TakeOneMore(ids, k);
  }

  /** The loop over the ten most frequent categories: one metric per analysed
      category, in ranking order. */
  method BuildCategoryMetrics(t: Table) returns (metrics: seq<CategoryMetric>)
    ensures metrics == MetricsOf(t, AnalysedIds(t))
    ensures |metrics| <= 10
  {
    var ids := AnalysedIds(t);
    metrics := [];
    for k := 0 to |ids|
      invariant metrics == MetricsOf(t, ids[..k])
    {
      var metric := ComputeMetric(t, ids[k]);
      MetricsOfSnoc(t, ids, k);
      metrics := metrics + [metric];
    }
    assert ids[..|ids|] == ids;
    AnalysedIdsAreTop(t);
  }

  /** The body of the metrics loop: count the category's pv, cart and buy
      rows and derive its three rates. */
  method ComputeMetric(t: Table, id: int) returns (metric: CategoryMetric)
    ensures metric == MetricOf(t, id)
  {
    var catRows := FunnelAnalysis.CategoryRows(t, id);
    FunnelAnalysis.CategoryFunnel(t, id);
    var f := FunnelAnalysis.Funnel(catRows);
    var views, carts, buys := f.pv, f.cart, f.buy;
    var viewToCart := GuardedRate(carts, views);
    var viewToBuy := GuardedRate(buys, views);
    var cartToBuy := GuardedRate(buys, carts);
    metric := CategoryMetric(MetricName(id), views, viewToCart, viewToBuy, cartToBuy);
  }

  /** One row of the melted metrics: `Category`, `Conversion Type`, `Rate`. */
  datatype MeltRow = MeltRow(category: string, conversionType: string, rate: real)

  function ViewToCartRow(m: CategoryMetric): MeltRow { MeltRow(m.name, "View → Cart", m.viewToCart) }
  function ViewToBuyRow(m: CategoryMetric): MeltRow { MeltRow(m.name, "View → Buy", m.viewToBuy) }
  function CartToBuyRow(m: CategoryMetric): MeltRow { MeltRow(m.name, "Cart → Buy", m.cartToBuy) }
  function RowName(r: MeltRow): string { r.category }
  function NameOfMetric(m: CategoryMetric): string { m.name }

  /** `pd.melt` over the three rate columns: all View → Cart rows, then all
      View → Buy rows, then all Cart → Buy rows, each block in metric order. */
  function MeltMetrics(ms: seq<CategoryMetric>): (r: seq<MeltRow>)
    ensures |r| == 3 * |ms|
    ensures forall i :: 0 <= i < |ms| ==>
      r[i] == ViewToCartRow(ms[i]) && r[|ms| + i] == ViewToBuyRow(ms[i]) && r[2 * |ms| + i] == CartToBuyRow(ms[i])
  {
    Map(ms, ViewToCartRow) + Map(ms, ViewToBuyRow) + Map(ms, CartToBuyRow)
  }

  /** Melting keeps each category exactly three times. */
  lemma MeltNames(ms: seq<CategoryMetric>)
    ensures multiset(Map(MeltMetrics(ms), RowName)) ==
      multiset(Map(ms, NameOfMetric)) + multiset(Map(ms, NameOfMetric)) + multiset(Map(ms, NameOfMetric))
  {
    var a, b, c := Map(ms, ViewToCartRow), Map(ms, ViewToBuyRow), Map(ms, CartToBuyRow);
    MapAppend(a + b, c, RowName);
    MapAppend(a, b, RowName);
    assert Map(a, RowName) == Map(ms, NameOfMetric);
    assert Map(b, RowName) == Map(ms, NameOfMetric);
    assert Map(c, RowName) == Map(ms, NameOfMetric);
  }

  function ViewToBuyScore(m: CategoryMetric): real { m.viewToBuy }

  /** `sort_values(by="View → Buy", ascending=False).head(5)`. */
  function TopFive(ms: seq<CategoryMetric>): seq<CategoryMetric>
  {
    TopBy(ms, ViewToBuyScore, 5)
  }

  /** The five kept metrics come from the list, highest View → Buy first, and
      no metric left out has a higher View → Buy than one kept. */
  lemma TopFiveByViewToBuy(ms: seq<CategoryMetric>)
    ensures |TopFive(ms)| == Min(5, |ms|)
    ensures multiset(TopFive(ms)) <= multiset(ms)
    ensures forall i, j :: 0 <= i < j < |TopFive(ms)| ==> TopFive(ms)[i].viewToBuy >= TopFive(ms)[j].viewToBuy
    ensures forall m, j :: m in multiset(ms) - multiset(TopFive(ms)) && 0 <= j < |TopFive(ms)| ==>
      m.viewToBuy <= TopFive(ms)[j].viewToBuy
  {
    var top := TopFive(ms);
    forall i, j | 0 <= i < j < |top| ensures top[i].viewToBuy >= top[j].viewToBuy {
      NonIncreasingPairwise(top, ViewToBuyScore, i, j);
    }
    forall m, j | m in multiset(ms) - multiset(top) && 0 <= j < |top| ensures m.viewToBuy <= top[j].viewToBuy {
      TopByIsTop(ms, ViewToBuyScore, 5, m, j);
    }
  }

  /** `melted[melted["Category"].isin(names)]`: the rows whose category name is listed, in order. */
  function KeepNamed(rows: seq<MeltRow>, names: seq<string>): (r: seq<MeltRow>)
    ensures forall x :: x in r <==> x in rows && x.category in names
  {
    if rows == [] then []
    else (if rows[0].category in names then [rows[0]] else []) + KeepNamed(rows[1..], names)
  }

  /** How many metrics carry a listed name. */
  function NamedCount(ms: seq<CategoryMetric>, names: seq<string>): nat
  {
    if ms == [] then 0 else (if ms[0].name in names then 1 else 0) + NamedCount(ms[1..], names)
  }

  lemma {:induction false} KeepNamedAppend(a: seq<MeltRow>, b: seq<MeltRow>, names: seq<string>)
    ensures KeepNamed(a + b, names) == KeepNamed(a, names) + KeepNamed(b, names)
  {
    if a != [] {
      assert (a + b)[1..] == a[1..] + b;
      KeepNamedAppend(a[1..], b, names);
    } else {
      assert a + b == b;
    }
  }

  /** A melted block keeps one row per metric whose name is listed. */
  lemma {:induction false} KeepNamedBlock(ms: seq<CategoryMetric>, names: seq<string>, f: CategoryMetric -> MeltRow)
    requires forall m :: f(m).category == m.name
    ensures |KeepNamed(Map(ms, f), names)| == NamedCount(ms, names)
  {
    if ms != [] {
      assert Map(ms, f)[1..] == Map(ms[1..], f);
      KeepNamedBlock(ms[1..], names, f);
    }
  }

  /** The bar chart's rows: every melted row whose category name is among the
      five best by View → Buy. All three rates of each of those five are
      shown, and the chart has three rows for every metric sharing one of
      their names, so a repeated name brings its other categories along. */
  function ConversionBars(ms: seq<CategoryMetric>): (r: seq<MeltRow>)
    ensures forall x :: x in r <==> x in MeltMetrics(ms) && x.category in Map(TopFive(ms), NameOfMetric)
    ensures |r| == 3 * NamedCount(ms, Map(TopFive(ms), NameOfMetric))
    ensures forall m :: m in TopFive(ms) ==> ViewToCartRow(m) in r && ViewToBuyRow(m) in r && CartToBuyRow(m) in r
  {
    var names := Map(TopFive(ms), NameOfMetric);
    var a, b, c := Map(ms, ViewToCartRow), Map(ms, ViewToBuyRow), Map(ms, CartToBuyRow);
    KeepNamedAppend(a + b, c, names);
    KeepNamedAppend(a, b, names);
    KeepNamedBlock(ms, names, ViewToCartRow);
    KeepNamedBlock(ms, names, ViewToBuyRow);
    KeepNamedBlock(ms, names, CartToBuyRow);
    forall m | m in TopFive(ms)
      ensures ViewToCartRow(m) in a && ViewToBuyRow(m) in b && CartToBuyRow(m) in c && m.name in names
    {
      assert multiset(TopFive(ms))[m] > 0;
      assert m in ms;
      MapMember(ms, ViewToCartRow, m);
      MapMember(ms, ViewToBuyRow, m);
      MapMember(ms, CartToBuyRow, m);
      MapMember(TopFive(ms), NameOfMetric, m);
    }
    KeepNamed(MeltMetrics(ms), names)
  }

  /** `top_categories.head(5).index`: the first five analysed categories,
      which are the five most frequent categories of the table. */
  function HourlyIds(t: Table): (ids: seq<int>)
    ensures ids == KeysOf(TopCounts(Map(t, CategoryOf), 5))
  {
    var xs := Map(t, CategoryOf);
    var g := GroupCounts(xs);
    TopByPrefix(g, CountScore, 10, 5);
    var top10 := TopCounts(xs, 10);
    var n := Min(5, |AnalysedIds(t)|);
    assert n == Min(5, |g|);
    KeysOfPrefix(top10, n);
    AnalysedIds(t)[..n]
  }

  /** One row of an hourly series: `Hour`, `Count`, `Category`. */
  datatype HourlyRow = HourlyRow(hour: int, count: nat, category: string)

  function RowHour(r: HourlyRow): int { r.hour }

  function SeriesTotal(b: seq<HourlyRow>): nat
  {
    if b == [] then 0 else b[0].count + SeriesTotal(b[1..])
  }

  /** `hourly_counts["Category"] = name`: tags every (hour, count) row with the series name. */
  function Tagged(g: seq<(int, nat)>, name: string): (b: seq<HourlyRow>)
    ensures |b| == |g|
    ensures forall i :: 0 <= i < |g| ==> b[i] == HourlyRow(g[i].0, g[i].1, name)
    ensures SeriesTotal(b) == SumCounts(g)
  {
    if g == [] then [] else [HourlyRow(g[0].0, g[0].1, name)] + Tagged(g[1..], name)
  }

  /** The number of rows of a category. */
  lemma {:induction false} CategoryRowCount(t: Table, id: int)
    ensures |FunnelAnalysis.CategoryRows(t, id)| == multiset(Map(t, CategoryOf))[id]
  {
    if t != [] {
      CategoryRowCount(t[1..], id);
      assert Map(t, CategoryOf) == [t[0].category] + Map(t[1..], CategoryOf);
      assert FunnelAnalysis.CategoryRows(t, id)
          == (if t[0].category == id then [t[0]] else []) + FunnelAnalysis.CategoryRows(t[1..], id);
    }
  }

  /** Every hour extracted from a timestamp is between 0 and 23. */
  lemma HoursInDay(rows: Table)
    ensures forall h :: h in Map(rows, HourOfEvent) ==> 0 <= h < 24
  {
    forall h | h in Map(rows, HourOfEvent) ensures 0 <= h < 24 {
      var j :| 0 <= j < |rows| && Map(rows, HourOfEvent)[j] == h;
    }
  }

  /** One category's `groupby("Hour").size()`, tagged with its series name. */
  function HourlyBlock(t: Table, id: int): seq<HourlyRow>
  {
    Tagged(SortedGroupCounts(Map(FunnelAnalysis.CategoryRows(t, id), HourOfEvent)), SeriesName(id))
  }

  /** A category's hourly series lists the hours at which the category has
      rows in ascending order. */
  lemma HourlyBlockAscending(t: Table, id: int)
    ensures Increasing(Map(HourlyBlock(t, id), RowHour))
  {
    var g := SortedGroupCounts(Map(FunnelAnalysis.CategoryRows(t, id), HourOfEvent));
    TaggedHours(g, SeriesName(id));
  }

  /** Tagging keeps the hours of the grouped rows. */
  lemma TaggedHours(g: seq<(int, nat)>, name: string)
    ensures Map(Tagged(g, name), RowHour) == KeysOf(g)
  {
    var b := Tagged(g, name);
    assert forall i :: 0 <= i < |b| ==> Map(b, RowHour)[i] == KeysOf(g)[i];
  }

  /** Every entry of a category's hourly series is an hour between 0 and 23
      at which the category has rows, tagged with the category's series name. */
  lemma HourlyBlockHours(t: Table, id: int)
    ensures var b := HourlyBlock(t, id);
      forall i :: 0 <= i < |b| ==> 0 <= b[i].hour < 24 && b[i].category == SeriesName(id) && b[i].count >= 1
  {
    var rows := FunnelAnalysis.CategoryRows(t, id);
    var xs := Map(rows, HourOfEvent);
    var g := SortedGroupCounts(xs);
    var b := Tagged(g, SeriesName(id));
    HoursInDay(rows);
    forall i | 0 <= i < |b| ensures 0 <= b[i].hour < 24 && b[i].category == SeriesName(id) && b[i].count >= 1 {
      assert b[i] == HourlyRow(g[i].0, g[i].1, SeriesName(id));
      assert g[i].0 in xs;
    }
  }

  /** Each hour of a category's series carries the category's number of rows
      at that hour, and together they count every row of the category. */
  lemma HourlyBlockCounts(t: Table, id: int)
    ensures var b := HourlyBlock(t, id);
      && (forall i :: 0 <= i < |b| ==>
            b[i].count == multiset(Map(FunnelAnalysis.CategoryRows(t, id), HourOfEvent))[b[i].hour])
      && SeriesTotal(b) == multiset(Map(t, CategoryOf))[id]
  {
    CategoryRowCount(t, id);
  }

  /** The hourly series of the categories `ids`, in that order. */
  function HourlyBlocks(t: Table, ids: seq<int>): (bs: seq<seq<HourlyRow>>)
    ensures |bs| == |ids|
  {
    if ids == [] then [] else HourlyBlocks(t, ids[..|ids| - 1]) + [HourlyBlock(t, ids[|ids| - 1])]
  }

  lemma HourlyBlocksSnoc(t: Table, ids: seq<int>, k: nat)
    requires k < |ids|
    ensures HourlyBlocks(t, ids[..k + 1]) == HourlyBlocks(t, ids[..k]) + [HourlyBlock(t, ids[k])]
  {
    TakeOneMore(ids, k);
  }

  /** The loop over the five most frequent categories: one hourly series per
      category, in ranking order. */
  method BuildHourlyData(t: Table) returns (hourlyData: seq<seq<HourlyRow>>)
    ensures hourlyData == HourlyBlocks(t, HourlyIds(t))
  {
    hourlyData := BuildHourlySeries(t, HourlyIds(t));
  }

  /** The loop itself, over the given category IDs in order. */
  method BuildHourlySeries(t: Table, ids: seq<int>) returns (hourlyData: seq<seq<HourlyRow>>)
    ensures hourlyData == HourlyBlocks(t, ids)
  {
    hourlyData := [];
    for k := 0 to |ids|
      invariant hourlyData == HourlyBlocks(t, ids[..k])
    {
      var block := ComputeHourlyBlock(t, ids[k]);
      HourlyBlocksSnoc(t, ids, k);
      hourlyData := hourlyData + [block];
    }
    assert ids[..|ids|] == ids;
  }

  /** The body of the hourly loop: group the category's rows by hour and tag
      the counts with the series name. */
  method ComputeHourlyBlock(t: Table, id: int) returns (block: seq<HourlyRow>)
    ensures block == HourlyBlock(t, id)
  {
    var catRows := FunnelAnalysis.CategoryRows(t, id);
    var hourlyCounts := SortedGroupCounts(Map(catRows, HourOfEvent));
    block := Tagged(hourlyCounts, SeriesName(id));
  }
}
