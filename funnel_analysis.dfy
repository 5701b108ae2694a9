/** The conversion funnel tab: behavior counts and pv-relative rates, the
    four-stage funnel, and the per-category pivot behind the conversion heatmap. */
module FunnelAnalysis {
  import opened Events
  import opened Seqs
  import opened Grouping
  import opened Ranking
  import opened Rates

  /** `df["BehaviorType"].value_counts().get(b, 0)`: the number of rows of behavior `b`. */
  function BehaviorCount(t: Table, b: Behavior): nat
  {
    multiset(Map(t, BehaviorOf))[b]
  }

  /** Looking `b` up in the grouped behavior counts, with 0 for a behavior
      that has no row, gives the number of rows of that behavior. */
  lemma BehaviorCountIsValueCount(t: Table, b: Behavior)
    ensures CountOf(GroupCounts(Map(t, BehaviorOf)), b) == BehaviorCount(t, b)
    ensures BehaviorCount(t, b) == 0 <==> forall i :: 0 <= i < |t| ==> t[i].behavior != b
  {
    CountOfGroup(Map(t, BehaviorOf), b);
    if BehaviorCount(t, b) == 0 {
      forall i | 0 <= i < |t| ensures t[i].behavior != b {
        assert Map(t, BehaviorOf)[i] == t[i].behavior;
      }
    } else {
      assert b in Map(t, BehaviorOf);
    }
  }

  /** A row whose BehaviorType is one of pv, cart, fav and buy. */
  predicate StandardEvent(e: Event) { IsStandard(e.behavior) }

  /** The four funnel counts together cover exactly the rows of a known
      behavior: rows of any other BehaviorType are in none of them. */
  lemma {:induction false} StandardCountsSum(t: Table)
    ensures BehaviorCount(t, Pv) + BehaviorCount(t, Cart) + BehaviorCount(t, Fav) + BehaviorCount(t, Buy)
         == |Filter(t, StandardEvent)|
  {
    if t != [] {
      StandardCountsSum(t[1..]);
      var e := t[0];
      BehaviorCountCons(t, Pv);
      BehaviorCountCons(t, Cart);
      BehaviorCountCons(t, Fav);
      BehaviorCountCons(t, Buy);
      assert |Filter(t, StandardEvent)| == (if StandardEvent(e) then 1 else 0) + |Filter(t[1..], StandardEvent)|;
    }
  }

  lemma BehaviorCountCons(t: Table, b: Behavior)
    requires t != []
    ensures BehaviorCount(t, b) == (if t[0].behavior == b then 1 else 0) + BehaviorCount(t[1..], b)
  {
    assert Map(t, BehaviorOf) == [t[0].behavior] + Map(t[1..], BehaviorOf);
  }

  datatype FunnelCounts = FunnelCounts(pv: nat, cart: nat, fav: nat, buy: nat)

  /** `total_pv`, `total_cart`, `total_fav`, `total_buy`. */
  function Funnel(t: Table): (c: FunnelCounts)
    ensures c.pv + c.cart + c.fav + c.buy == |Filter(t, StandardEvent)|
  {
    StandardCountsSum(t);
    FunnelCounts(BehaviorCount(t, Pv), BehaviorCount(t, Cart), BehaviorCount(t, Fav), BehaviorCount(t, Buy))
  }

  datatype FunnelRates = FunnelRates(cart: real, fav: real, buy: real)

  /** `cart_rate`, `fav_rate`, `buy_rate`: each count as a percentage of the
      page views, and all three 0 when there are no page views. */
  function FunnelRatesOf(c: FunnelCounts): (r: FunnelRates)
    ensures c.pv > 0 ==> r.cart * c.pv as real == 100.0 * c.cart as real
    ensures c.pv > 0 ==> r.fav * c.pv as real == 100.0 * c.fav as real
    ensures c.pv > 0 ==> r.buy * c.pv as real == 100.0 * c.buy as real
    ensures c.pv == 0 ==> r == FunnelRates(0.0, 0.0, 0.0)
  {
    FunnelRates(GuardedRate(c.cart, c.pv), GuardedRate(c.fav, c.pv), GuardedRate(c.buy, c.pv))
  }

  const StageLabels: seq<string> := ["Page View", "Add to Cart", "Favorite", "Purchase"]

  /** The funnel chart's (Stage, Count) rows, in funnel order. */
  function FunnelStages(t: Table): (r: seq<(string, nat)>)
    ensures |r| == 4
    ensures r[0] == (StageLabels[0], BehaviorCount(t, Pv)) && r[1] == (StageLabels[1], BehaviorCount(t, Cart))
    ensures r[2] == (StageLabels[2], BehaviorCount(t, Fav)) && r[3] == (StageLabels[3], BehaviorCount(t, Buy))
    ensures SumCounts(r) == |Filter(t, StandardEvent)|
  {
    var c := Funnel(t);
    var r := [(StageLabels[0], c.pv), (StageLabels[1], c.cart), (StageLabels[2], c.fav), (StageLabels[3], c.buy)];
    SumOfFour(r[0], r[1], r[2], r[3]);
    r
  }

  lemma SumOfFour<K>(a: (K, nat), b: (K, nat), c: (K, nat), d: (K, nat))
    ensures SumCounts([a, b, c, d]) == a.1 + b.1 + c.1 + d.1
  {
    assert [d][1..] == [];
    assert SumCounts([d]) == d.1;
    assert [c, d][1..] == [d];
    assert SumCounts([c, d]) == c.1 + d.1;
    assert [b, c, d][1..] == [c, d];
    assert SumCounts([b, c, d]) == b.1 + c.1 + d.1;
    assert [a, b, c, d][1..] == [b, c, d];
  }

  /** The rows of one category. */
  function CategoryRows(t: Table, c: int): (r: Table)
    ensures forall e :: multiset(r)[e] == if e.category == c then multiset(t)[e] else 0
  {
    FilterCountAll(t, (e: Event) => e.category == c);
    Filter(t, (e: Event) => e.category == c)
  }

  /** Counting one behavior among one category's rows is counting the
      (category, behavior) cell of the pivot table. */
  lemma {:induction false} PivotCellCount(t: Table, c: int, b: Behavior)
    ensures BehaviorCount(CategoryRows(t, c), b) == multiset(Map(t, CategoryBehaviorOf))[(c, b)]
  {
    if t != [] {
      PivotCellCount(t[1..], c, b);
      var e, rest := t[0], CategoryRows(t[1..], c);
      var cells := multiset(Map(t, CategoryBehaviorOf));
      assert Map(t, CategoryBehaviorOf) == [(e.category, e.behavior)] + Map(t[1..], CategoryBehaviorOf);
      assert cells[(c, b)] == (if (e.category, e.behavior) == (c, b) then 1 else 0)
                            + multiset(Map(t[1..], CategoryBehaviorOf))[(c, b)];
      if e.category == c {
        assert CategoryRows(t, c) == [e] + rest;
        assert Map([e] + rest, BehaviorOf) == [e.behavior] + Map(rest, BehaviorOf);
        assert BehaviorCount(CategoryRows(t, c), b) == (if e.behavior == b then 1 else 0) + BehaviorCount(rest, b);
      } else {
        assert CategoryRows(t, c) == rest;
      }
    }
  }

  /** A category's funnel counts are the pivot table's cells of that category. */
  lemma CategoryFunnel(t: Table, c: int)
    ensures var cells := multiset(Map(t, CategoryBehaviorOf));
            Funnel(CategoryRows(t, c)) == FunnelCounts(cells[(c, Pv)], cells[(c, Cart)], cells[(c, Fav)], cells[(c, Buy)])
  {
    PivotCellCount(t, c, Pv);
    PivotCellCount(t, c, Cart);
    PivotCellCount(t, c, Fav);
    PivotCellCount(t, c, Buy);
  }

  /** One row of the pivot: a category's behavior counts, their total and its
      three conversion rates after `fillna(0)`. */
  datatype PivotRow = PivotRow(category: int, pv: nat, cart: nat, fav: nat, buy: nat, total: nat,
                               viewToCart: Pct, cartToBuy: Pct, viewToBuy: Pct)

  function RowCategory(row: PivotRow): int { row.category }

  /** The pivot row of category `c`. */
  function PivotRowOf(t: Table, c: int): (row: PivotRow)
    ensures row.category == c
  {
    var f := Funnel(CategoryRows(t, c));
    PivotRow(c, f.pv, f.cart, f.fav, f.buy, f.pv + f.cart + f.fav + f.buy,
             FilledPercent(f.cart, f.pv), FilledPercent(f.buy, f.cart), FilledPercent(f.buy, f.pv))
  }

  /** A category's pivot row holds the (category, behavior) cells of the
      table, a category without fav rows counting 0 favs whether or not the
      table has a fav column at all; its total counts the category's rows of
      the four known behaviors, and its rates are the cells' percentages
      after `fillna(0)`. */
  lemma PivotRowFacts(t: Table, c: int)
    ensures var row, cells := PivotRowOf(t, c), multiset(Map(t, CategoryBehaviorOf));
      && row.category == c
      && row.pv == cells[(c, Pv)] && row.cart == cells[(c, Cart)]
      && row.fav == cells[(c, Fav)] && row.buy == cells[(c, Buy)]
      && row.total == |Filter(CategoryRows(t, c), StandardEvent)|
      && row.viewToCart == FilledPercent(row.cart, row.pv)
      && row.cartToBuy == FilledPercent(row.buy, row.cart)
      && row.viewToBuy == FilledPercent(row.buy, row.pv)
  {
    CategoryFunnel(t, c);
  }

  /** `df.pivot_table(index='CategoryID', columns='BehaviorType', ...)` with
      the derived columns: one row per category, ascending by ID. Indexing a
      pv, cart or buy column that the pivot lacks raises KeyError, reported
      here with the missing column's name. */
  function Pivot(t: Table): (r: Result<seq<PivotRow>, string>)
    ensures r.Err? <==> Pv !in Map(t, BehaviorOf) || Cart !in Map(t, BehaviorOf) || Buy !in Map(t, BehaviorOf)
    ensures r.Ok? ==> Increasing(Map(r.value, RowCategory))
    ensures r.Ok? ==> forall c :: c in Map(r.value, RowCategory) <==> c in Map(t, CategoryOf)
    ensures r.Ok? ==> forall i :: 0 <= i < |r.value| ==> r.value[i] == PivotRowOf(t, r.value[i].category)
  {
    if BehaviorCount(t, Pv) == 0 then Err("pv")
    else if BehaviorCount(t, Cart) == 0 then Err("cart")
    else if BehaviorCount(t, Buy) == 0 then Err("buy")
    else Ok(PivotRows(t))
  }

  /** The pivot's rows, one per category in ascending ID order. */
  function PivotRows(t: Table): (rows: seq<PivotRow>)
    ensures Map(rows, RowCategory) == SortedDistinct(Map(t, CategoryOf))
    ensures forall i :: 0 <= i < |rows| ==> rows[i] == PivotRowOf(t, rows[i].category)
  {
    var cats := SortedDistinct(Map(t, CategoryOf));
    var rowOf := (c: int) => PivotRowOf(t, c);
    MapInverse(cats, rowOf, RowCategory);
    Map(cats, rowOf)
  }

  function TotalScore(row: PivotRow): real { row.total as real }

  /** `sort_values(by='total_count', ascending=False).head(top_n)`. */
  function TopByTotal(rows: seq<PivotRow>, topN: nat): seq<PivotRow>
  {
    TopBy(rows, TotalScore, topN)
  }

  /** The heatmap keeps `min(top_n, #categories)` pivot rows, busiest first, and
      no category left out has more activity than one that is kept. */
  lemma TopByTotalFacts(rows: seq<PivotRow>, topN: nat)
    ensures |TopByTotal(rows, topN)| == Min(topN, |rows|)
    ensures multiset(TopByTotal(rows, topN)) <= multiset(rows)
    ensures forall i, j :: 0 <= i < j < |TopByTotal(rows, topN)| ==> TopByTotal(rows, topN)[i].total >= TopByTotal(rows, topN)[j].total
    ensures forall x, j :: x in multiset(rows) - multiset(TopByTotal(rows, topN)) && 0 <= j < |TopByTotal(rows, topN)| ==>
      x.total <= TopByTotal(rows, topN)[j].total
  {
    var top := TopByTotal(rows, topN);
    forall i, j | 0 <= i < j < |top| ensures top[i].total >= top[j].total {
      NonIncreasingPairwise(top, TotalScore, i, j);
    }
    forall x, j | x in multiset(rows) - multiset(top) && 0 <= j < |top| ensures x.total <= top[j].total {
      TopByIsTop(rows, TotalScore, topN, x, j);
    }
  }

  /** One cell of the heatmap: a category, a conversion stage and its rate. */
  datatype HeatCell = HeatCell(category: int, stage: string, rate: Pct)

  function CellCategory(h: HeatCell): int { h.category }

  function ViewToCartCell(row: PivotRow): HeatCell { HeatCell(row.category, "View → Cart", row.viewToCart) }
  function CartToBuyCell(row: PivotRow): HeatCell { HeatCell(row.category, "Cart → Purchase", row.cartToBuy) }
  function ViewToBuyCell(row: PivotRow): HeatCell { HeatCell(row.category, "View → Purchase", row.viewToBuy) }

  /** `melt(value_vars=['view_to_cart', 'cart_to_buy', 'view_to_buy'])` with the
      stage names mapped: one block of cells per stage, each block in row order. */
  function Melt(top: seq<PivotRow>): (r: seq<HeatCell>)
    ensures |r| == 3 * |top|
    ensures forall i :: 0 <= i < |top| ==>
      r[i] == ViewToCartCell(top[i]) && r[|top| + i] == CartToBuyCell(top[i]) && r[2 * |top| + i] == ViewToBuyCell(top[i])
  {
    Map(top, ViewToCartCell) + Map(top, CartToBuyCell) + Map(top, ViewToBuyCell)
  }

  /** Every kept category has exactly three heatmap cells, one per stage. */
  lemma MeltCounts(top: seq<PivotRow>)
    ensures forall c :: multiset(Map(Melt(top), CellCategory))[c] == 3 * multiset(Map(top, RowCategory))[c]
  {
    var a, b, d := Map(top, ViewToCartCell), Map(top, CartToBuyCell), Map(top, ViewToBuyCell);
    BlockCategories(top, a);
    BlockCategories(top, b);
    BlockCategories(top, d);
    MapAppend(a + b, d, CellCategory);
    MapAppend(a, b, CellCategory);
  }

  /** A block of cells made row by row from `top` lists the rows' categories. */
  lemma BlockCategories(top: seq<PivotRow>, cells: seq<HeatCell>)
    requires |cells| == |top| && forall i :: 0 <= i < |top| ==> cells[i].category == top[i].category
    ensures Map(cells, CellCategory) == Map(top, RowCategory)
  {
  }

  /** `plot_category_conversion_heatmap(df, top_n)`: the heatmap's cells. */
  function HeatmapCells(t: Table, topN: nat): (r: Result<seq<HeatCell>, string>)
    ensures r.Err? <==> Pivot(t).Err?
    ensures r.Ok? ==> |r.value| == 3 * Min(topN, |Pivot(t).value|)
  {
    var p := Pivot(t);
    if p.Err? then Err(p.error) else Ok(Melt(TopByTotal(p.value, topN)))
  }
}
