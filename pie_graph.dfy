/** The doughnut charts' data: one slice per region with its total, the
    slices split over at most four charts of equal height. */
module PieGraph {
  import opened SaleTypes
  import opened Aggregation
  import opened ClientHelpers

  /** A slice's legend label, `${region} - ${amount}`; the currency
      formatting of the amount is not modelled. */
  datatype RegionLabel = RegionLabel(region: string, amount: int)

  /** The loop over `Object.entries(aggregatedSales)`: one label and one
      amount pushed per key, in key order, so labels and amounts stay
      aligned and the amounts are the record's values. */
  method LabelEntries(aggregatedSales: Record) returns (regions: seq<RegionLabel>, totalAmounts: seq<int>)
    requires forall k :: k in aggregatedSales.keys ==> k in aggregatedSales.values
    ensures totalAmounts == Values(aggregatedSales)
    ensures |regions| == |totalAmounts|
    ensures forall i :: 0 <= i < |regions| ==> regions[i] == RegionLabel(aggregatedSales.keys[i], totalAmounts[i])
  {
    var keys, values := aggregatedSales.keys, aggregatedSales.values;
    regions := [];
    totalAmounts := [];
    for i := 0 to |keys|
      invariant |regions| == |totalAmounts| == i
      invariant totalAmounts == Values(aggregatedSales)[..i]
      invariant forall j :: 0 <= j < i ==> regions[j] == RegionLabel(keys[j], totalAmounts[j])
    {
      var region := keys[i];
      var amount := values[region];
      regions := regions + [RegionLabel(region, amount)];
      totalAmounts := totalAmounts + [amount];
    }
  }

  /** The legend labels the sales call for: one per region, in order of
      first occurrence, each carrying that region's total. */
  function Labels(sales: seq<Sale>): (labels: seq<RegionLabel>)
    ensures |labels| == |GroupKeys(sales, ByRegion)|
  {
    var keys := GroupKeys(sales, ByRegion);
    seq(|keys|, i requires 0 <= i < |keys| => RegionLabel(keys[i], GroupTotal(sales, ByRegion, keys[i])))
  }

  /** The per-region reduce and its labelled entries: one label per region
      of the sales, in order of first occurrence, beside that region's
      total; the amounts add up to all sales. */
  method RegionsAndTotals(sales: seq<Sale>) returns (regions: seq<RegionLabel>, totalAmounts: seq<int>)
    ensures regions == Labels(sales)
    ensures totalAmounts == Totals(GroupKeys(sales, ByRegion), sales, ByRegion)
    ensures |regions| == |totalAmounts|
    ensures forall i :: 0 <= i < |regions| ==>
              regions[i] == RegionLabel(GroupKeys(sales, ByRegion)[i], totalAmounts[i])
    ensures Sum(totalAmounts) == SumAmounts(sales)
  {
    var aggregatedSales := Aggregate(sales, ByRegion);
    regions, totalAmounts := LabelEntries(aggregatedSales);
    assert Values(aggregatedSales) == Totals(aggregatedSales.keys, sales, ByRegion);
    TotalsSumToAll(sales, ByRegion);
  }

  /** `batchSize = Math.max(Math.ceil(n / 4), 20)`: the least size of at
      least 20 whose four batches hold all `n` slices. */
  function BatchSize(n: nat): (size: nat)
    ensures size >= 20
    ensures 4 * size >= n
    ensures size == 20 || 4 * (size - 1) < n
  {
    var quarter := (n + 3) / 4;
    if quarter > 20 then quarter else 20
  }

  /** The slices never need more than four charts. */
  lemma AtMostFourCharts<T>(slices: seq<T>)
    ensures |Batches(slices, BatchSize(|slices|))| <= 4
  {
    BatchesAtMost(slices, BatchSize(|slices|), 4);
  }

  /** Labels and amounts split alike: the same number of batches, the same
      batch lengths, and each label beside its own amount. */
  lemma BatchesAligned(regions: seq<RegionLabel>, totalAmounts: seq<int>, size: nat)
    requires size > 0 && |regions| == |totalAmounts|
    requires forall i :: 0 <= i < |regions| ==> regions[i].amount == totalAmounts[i]
    ensures |Batches(regions, size)| == |Batches(totalAmounts, size)|
    ensures forall i :: 0 <= i < |Batches(regions, size)| ==>
              |Batches(regions, size)[i]| == |Batches(totalAmounts, size)[i]|
    ensures forall i, j :: 0 <= i < |Batches(regions, size)| && 0 <= j < |Batches(regions, size)[i]| ==>
              Batches(regions, size)[i][j].amount == Batches(totalAmounts, size)[i][j]
  {
    BatchesShape(regions, totalAmounts, size);
    forall i, j | 0 <= i < |Batches(regions, size)| && 0 <= j < |Batches(regions, size)[i]|
      ensures Batches(regions, size)[i][j].amount == Batches(totalAmounts, size)[i][j]
    {
      BatchesAt(regions, size, i, j);
      BatchesAt(totalAmounts, size, i, j);
    }
  }

  /** `maxHeight = Math.max(...batches.map(b => b.length * 50 / 25), 30)`:
      30, or twice the length of the longest batch if that is more. */
  function MaxHeight<T>(batches: seq<seq<T>>): (height: int)
    ensures height >= 30
    ensures forall i :: 0 <= i < |batches| ==> height >= 2 * |batches[i]|
    ensures height == 30 || exists i :: 0 <= i < |batches| && height == 2 * |batches[i]|
  {
    if batches == [] then 30
    else
      var rest := MaxHeight(batches[..|batches| - 1]);
      var last := |batches[|batches| - 1]| * 50 / 25;
      assert forall i :: 0 <= i < |batches| - 1 ==> batches[i] == batches[..|batches| - 1][i];
      if last > rest then last else rest
  }

  /** The legend pages: the labels and the amounts split into batches of
      `BatchSize`, at most four of them, every batch non-empty and no larger
      than the batch size, aligned batch by batch, together holding every
      region once, and the common chart height. */
  method Charts(sales: seq<Sale>) returns (regionBatches: seq<seq<RegionLabel>>,
                                           totalAmountBatches: seq<seq<int>>,
                                           maxHeight: int)
    ensures regionBatches == Batches(Labels(sales), BatchSize(|Labels(sales)|))
    ensures totalAmountBatches
         == Batches(Totals(GroupKeys(sales, ByRegion), sales, ByRegion), BatchSize(|Labels(sales)|))
    ensures |regionBatches| == |totalAmountBatches| <= 4
    ensures sales == [] <==> regionBatches == []
    ensures forall i :: 0 <= i < |regionBatches| ==> 0 < |regionBatches[i]| <= BatchSize(|Labels(sales)|)
    ensures forall i :: 0 <= i < |regionBatches| ==> |regionBatches[i]| == |totalAmountBatches[i]|
    ensures forall i, j :: 0 <= i < |regionBatches| && 0 <= j < |regionBatches[i]| ==>
              regionBatches[i][j].amount == totalAmountBatches[i][j]
    ensures Flatten(regionBatches) == Labels(sales)
    ensures Flatten(totalAmountBatches) == Totals(GroupKeys(sales, ByRegion), sales, ByRegion)
    ensures maxHeight == MaxHeight(regionBatches)
  {
    var regions, totalAmounts := RegionsAndTotals(sales);
    var batchSize := BatchSize(|regions|);
    regionBatches := SplitIntoBatches(regions, batchSize);
    totalAmountBatches := SplitIntoBatches(totalAmounts, batchSize);
    AtMostFourCharts(regions);
    BatchesAligned(regions, totalAmounts, batchSize);
    BatchesLengths(regions, batchSize);
    BatchesFlatten(regions, batchSize);
    BatchesFlatten(totalAmounts, batchSize);
    if sales != [] {
      assert GroupKeys(sales, ByRegion) != [] by {
        GroupKeysMembers(sales, ByRegion);
        assert KeyOf(sales[0], ByRegion) in GroupKeys(sales, ByRegion);
      }
    }
    maxHeight := MaxHeight(regionBatches);
  }
}
