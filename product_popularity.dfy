/** The product popularity tab: the ten most interacted-with items, labelled
    with their product names. */
module ProductPopularity {
  import opened Events
  import opened Seqs
  import opened Grouping
  import opened Ranking
  import opened Names

  /** One bar of the chart: `item_id`, `count` and `item_label`. */
  datatype ProductRow = ProductRow(item: int, count: nat, itemLabel: string)

  function ProductRowOf(row: (int, nat)): ProductRow
  {
    ProductRow(row.0, row.1, ProductName(row.0))
  }

  /** `df_work["ItemID"].value_counts().head(10)` with `get_product_name`
      applied to each ID: the item ranking (see `TopCountsFacts`), each row
      labelled with the product's name or "Product {id}". Cleaning the
      Timestamp column changes no ItemID, so the ranking is that of the table. */
  function TopProducts(t: Table): (r: seq<ProductRow>)
    ensures |r| == Min(10, |Distinct(Map(t, ItemOf))|)
    ensures forall i :: 0 <= i < |r| ==> (r[i].item, r[i].count) == TopCounts(Map(t, ItemOf), 10)[i]
    ensures forall i :: 0 <= i < |r| ==> r[i].itemLabel == ProductName(r[i].item)
  {
    Map(TopCounts(Map(t, ItemOf), 10), ProductRowOf)
  }

  /** The top products are distinct items with their row counts, most
      frequent first, and no item left out has more rows than one shown. */
  lemma TopProductsRanked(t: Table)
    ensures NoDup(Map(TopProducts(t), ProductItem))
    ensures forall i :: 0 <= i < |TopProducts(t)| ==>
      TopProducts(t)[i].count == multiset(Map(t, ItemOf))[TopProducts(t)[i].item]
    ensures forall i, j :: 0 <= i < j < |TopProducts(t)| ==> TopProducts(t)[i].count >= TopProducts(t)[j].count
  {
    var xs := Map(t, ItemOf);
    var top, r := TopCounts(xs, 10), TopProducts(t);
    TopCountsFacts(xs, 10);
    assert Map(r, ProductItem) == KeysOf(top);
  }

  function ProductItem(row: ProductRow): int { row.item }
}
