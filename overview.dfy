/** The overview tab's aggregations: interactions per day, the conversion
    funnel, the most frequent categories and products, and the behavior mix. */
module Overview {
  import opened Events
  import opened Seqs
  import opened Grouping
  import opened Ranking
  import opened Names

  /** `df.groupby("Date").size()` on a copy of the table: one row per date
      that occurs, in date order, holding that date's number of rows. */
  function DailyActivity(t: Table): (g: seq<(int, nat)>)
    ensures Increasing(KeysOf(g))
    ensures forall d :: d in KeysOf(g) <==> d in Map(t, DayOfEvent)
    ensures forall i :: 0 <= i < |g| ==> g[i].1 == multiset(Map(t, DayOfEvent))[g[i].0]
    ensures SumCounts(g) == |t|
  {
    SortedGroupKeys(Map(t, DayOfEvent));
    SortedGroupCounts(Map(t, DayOfEvent))
  }

  /** One bar or slice of a ranking chart: an ID, its number of rows and its label. */
  datatype LabelledCount = LabelledCount(id: int, count: nat, name: string)

  /** The overview's label for a category: its name in the overview's
      dictionary, or "Other". */
  function OverviewName(id: int): (name: string)
    ensures forall i :: 0 <= i < |CategoryIds| && CategoryIds[i] == id ==> name == OverviewNames[i]
    ensures id !in CategoryIds ==> name == "Other"
  {
    CategoryName(OverviewNames, id, "Other")
  }

  function OverviewLabel(row: (int, nat)): LabelledCount
  {
    LabelledCount(row.0, row.1, OverviewName(row.0))
  }

  /** `plot_top_categories(df, top_n)`: the ranking of category IDs by
      frequency (see `TopCountsFacts`), each row named from the overview's
      dictionary or "Other". */
  function TopCategories(t: Table, topN: nat): (r: seq<LabelledCount>)
    ensures |r| == Min(topN, |Distinct(Map(t, CategoryOf))|)
    ensures forall i :: 0 <= i < |r| ==>
      (r[i].id, r[i].count) == TopCounts(Map(t, CategoryOf), topN)[i]
    ensures forall i :: 0 <= i < |r| ==> r[i].name == OverviewName(r[i].id)
  {
    Map(TopCounts(Map(t, CategoryOf), topN), OverviewLabel)
  }

  /** `plot_top_products(df, top_n)`: the `top_n` most frequent item IDs with
      their counts, most frequent first; no item left out occurs more often
      than one kept. */
  function TopProducts(t: Table, topN: nat): (r: seq<(int, nat)>)
    ensures |r| == Min(topN, |Distinct(Map(t, ItemOf))|)
    ensures NoDup(KeysOf(r))
    ensures forall i :: 0 <= i < |r| ==> r[i].0 in Map(t, ItemOf) && r[i].1 == multiset(Map(t, ItemOf))[r[i].0]
    ensures forall i, j :: 0 <= i < j < |r| ==> r[i].1 >= r[j].1
    ensures forall k, j :: k in Map(t, ItemOf) && k !in KeysOf(r) && 0 <= j < |r| ==> multiset(Map(t, ItemOf))[k] <= r[j].1
  {
    TopCountsFacts(Map(t, ItemOf), topN);
    TopCounts(Map(t, ItemOf), topN)
  }

  /** `df["BehaviorType"].value_counts()`: one row per behavior that occurs,
      with its number of rows; the rows together account for the whole table. */
  function BehaviorDistribution(t: Table): (g: seq<(Behavior, nat)>)
    ensures NoDup(KeysOf(g))
    ensures forall i :: 0 <= i < |t| ==> t[i].behavior in KeysOf(g)
    ensures forall i :: 0 <= i < |g| ==> g[i].1 == multiset(Map(t, BehaviorOf))[g[i].0] && g[i].1 >= 1
    ensures SumCounts(g) == |t|
  {
    var g := GroupCounts(Map(t, BehaviorOf));
    assert forall i :: 0 <= i < |t| ==> Map(t, BehaviorOf)[i] == t[i].behavior;
    g
  }
}
