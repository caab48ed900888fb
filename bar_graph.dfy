/** The bar chart's data: one bar per product category with the total
    amount sold in it. */
module BarGraph {
  import opened SaleTypes
  import opened Aggregation

  /** `categories` and `totalAmounts`: the keys and values of the per-category
      reduce. Every category of the sales appears once, in order of first
      occurrence, beside the total of exactly the sales carrying that
      category string; together the bars account for every amount. */
  method CategoryTotals(sales: seq<Sale>) returns (categories: seq<string>, totalAmounts: seq<int>)
    ensures categories == GroupKeys(sales, ByCategory)
    ensures Distinct(categories)
    ensures forall c :: c in categories <==> exists i :: 0 <= i < |sales| && sales[i].product.category == c
    ensures |totalAmounts| == |categories|
    ensures forall i :: 0 <= i < |categories| ==> totalAmounts[i] == GroupTotal(sales, ByCategory, categories[i])
    ensures Sum(totalAmounts) == SumAmounts(sales)
    ensures sales == [] ==> categories == [] && totalAmounts == []
  {
    var acc := Aggregate(sales, ByCategory);
    categories := acc.keys;
    totalAmounts := Values(acc);
    assert totalAmounts == Totals(categories, sales, ByCategory);
    TotalsSumToAll(sales, ByCategory);
    GroupKeysMembers(sales, ByCategory);
  }
}
