/** The five mock sales the client's tests render, two Toys sales on
    2024-05-01 and three Home Appliances sales on 2024-05-02, run through
    the filter, the two aggregations, the sort and the chart layout. */
module Scenario {
  import opened SaleTypes
  import opened SalesHelpers
  import opened Aggregation
  import opened SalesView
  import opened PieGraph
  import opened ClientHelpers

  /** 2024-05-01 and 2024-05-02 as days since 1970-01-01. */
  const May1: Day := 19844
  const May2: Day := 19845

  const Towels: Sale :=
    Sale("b155b592-f48b-43e5-9d62-44d7abb4a51d", Product("Intelligent Frozen Towels", "Toys"), 198, May1, "Egypt")
  const Table: Sale :=
    Sale("27477a36-5870-4af0-8fcc-41acca6e0123", Product("Unbranded Granite Table", "Toys"), 133, May1, "Mexico")
  const Shoes: Sale :=
    Sale("b117443e-1c80-4344-bd3c-1e765ecb1e34", Product("Oriental Cotton Shoes", "Home Appliances"), 336, May2,
         "United States of America")
  const Chair: Sale :=
    Sale("8c942655-5ac6-451c-91d4-6305ff76bdd8", Product("Unbranded Cotton Chair", "Home Appliances"), 373, May2,
         "Egypt")
  const Sausages: Sale :=
    Sale("5d359ffa-a334-4534-aea2-61b9c01733d2", Product("Licensed Plastic Sausages", "Home Appliances"), 570, May2,
         "Cocos (Keeling) Islands")

  const MockSales: seq<Sale> := [Towels, Table, Shoes, Chair, Sausages]

  /** The filter for one day and "home appliances" lets the three Home
      Appliances sales of 2024-05-02 through and stops the Toys sales of the
      day before. */
  lemma MatchesOneDay(parse: string -> Instant)
    requires parse("2024-05-02") == At(May2 * MsPerDay)
    ensures !Matches(Towels, Text("2024-05-02"), Text("2024-05-02"), Some("home appliances"), parse)
    ensures !Matches(Table, Text("2024-05-02"), Text("2024-05-02"), Some("home appliances"), parse)
    ensures Matches(Shoes, Text("2024-05-02"), Text("2024-05-02"), Some("home appliances"), parse)
    ensures Matches(Chair, Text("2024-05-02"), Text("2024-05-02"), Some("home appliances"), parse)
    ensures Matches(Sausages, Text("2024-05-02"), Text("2024-05-02"), Some("home appliances"), parse)
  {
    assert Lower("Home Appliances") == "home appliances";
  }

  /** Asking for 2024-05-02 to 2024-05-02 in "home appliances" (lower case)
      returns the three Home Appliances sales, in store order. */
  lemma FilterOneDay(parse: string -> Instant)
    requires parse("2024-05-02") == At(May2 * MsPerDay)
    ensures SalesByDateAndCategory(MockSales, Text("2024-05-02"), Text("2024-05-02"), Some("home appliances"), parse)
         == [Shoes, Chair, Sausages]
  {
    var day, cat := Text("2024-05-02"), Some("home appliances");
    MatchesOneDay(parse);
    assert MockSales == [Towels, Table] + [Shoes, Chair, Sausages];
    FilterAppend([Towels, Table], [Shoes, Chair, Sausages], day, day, cat, parse);
    FilterKeepsAll([Shoes, Chair, Sausages], day, day, cat, parse);
    var dropped := SalesByDateAndCategory([Towels, Table], day, day, cat, parse);
    FilterMembers([Towels, Table], day, day, cat, parse);
    assert forall sale :: sale !in dropped;
  }

  /** Grouping five sales whose keys follow the pattern x, x, y, y, y. */
  lemma TwoGroups(a: Sale, b: Sale, c: Sale, d: Sale, e: Sale, grouping: GroupBy)
    requires KeyOf(a, grouping) == KeyOf(b, grouping) != KeyOf(c, grouping)
    requires KeyOf(c, grouping) == KeyOf(d, grouping) == KeyOf(e, grouping)
    ensures GroupKeys([a, b, c, d, e], grouping) == [KeyOf(a, grouping), KeyOf(c, grouping)]
    ensures Totals(GroupKeys([a, b, c, d, e], grouping), [a, b, c, d, e], grouping)
         == [a.amount + b.amount, c.amount + d.amount + e.amount]
  {
    TwoGroupKeys(a, b, c, d, e, grouping);
    TwoGroupTotals(a, b, c, d, e, grouping);
    TotalsOfTwo(KeyOf(a, grouping), KeyOf(c, grouping), [a, b, c, d, e], grouping);
  }

  /** The keys of the pattern x, x, y, y, y, one sale at a time. */
  lemma TwoGroupKeys(a: Sale, b: Sale, c: Sale, d: Sale, e: Sale, grouping: GroupBy)
    requires KeyOf(a, grouping) == KeyOf(b, grouping) != KeyOf(c, grouping)
    requires KeyOf(c, grouping) == KeyOf(d, grouping) == KeyOf(e, grouping)
    ensures GroupKeys([a, b, c, d, e], grouping) == [KeyOf(a, grouping), KeyOf(c, grouping)]
  {
    var x, y := KeyOf(a, grouping), KeyOf(c, grouping);
    assert [] + [a] == [a] && [a] + [b] == [a, b] && [a, b] + [c] == [a, b, c];
    assert [a, b, c] + [d] == [a, b, c, d] && [a, b, c, d] + [e] == [a, b, c, d, e];
    GroupKeysStep([], a, grouping);
    assert GroupKeys([a], grouping) == [x];
    GroupKeysStep([a], b, grouping);
    assert GroupKeys([a, b], grouping) == [x];
    GroupKeysStep([a, b], c, grouping);
    assert GroupKeys([a, b, c], grouping) == [x, y];
    GroupKeysStep([a, b, c], d, grouping);
    assert GroupKeys([a, b, c, d], grouping) == [x, y];
    GroupKeysStep([a, b, c, d], e, grouping);
  }

  /** The totals of a two-key list, spelled out. */
  lemma TotalsOfTwo(x: string, y: string, sales: seq<Sale>, grouping: GroupBy)
    ensures Totals([x, y], sales, grouping) == [GroupTotal(sales, grouping, x), GroupTotal(sales, grouping, y)]
  {
  }

  /** The two totals of the pattern x, x, y, y, y. */
  lemma TwoGroupTotals(a: Sale, b: Sale, c: Sale, d: Sale, e: Sale, grouping: GroupBy)
    requires KeyOf(a, grouping) == KeyOf(b, grouping) != KeyOf(c, grouping)
    requires KeyOf(c, grouping) == KeyOf(d, grouping) == KeyOf(e, grouping)
    ensures GroupTotal([a, b, c, d, e], grouping, KeyOf(a, grouping)) == a.amount + b.amount
    ensures GroupTotal([a, b, c, d, e], grouping, KeyOf(c, grouping)) == c.amount + d.amount + e.amount
  {
    TotalOfFive(a, b, c, d, e, grouping, KeyOf(a, grouping));
    TotalOfFive(a, b, c, d, e, grouping, KeyOf(c, grouping));
  }

  /** The bar chart shows Toys then Home Appliances, totalling 331 and 1279. */
  lemma CategoryBars()
    ensures GroupKeys(MockSales, ByCategory) == ["Toys", "Home Appliances"]
    ensures Totals(GroupKeys(MockSales, ByCategory), MockSales, ByCategory) == [331, 1279]
  {
    assert "Toys"[0] != "Home Appliances"[0];
    TwoGroups(Towels, Table, Shoes, Chair, Sausages, ByCategory);
  }

  /** The keys of the first three sales of the pattern w, x, y, w, z. */
  lemma FourGroupsPrefix(a: Sale, b: Sale, c: Sale, grouping: GroupBy)
    requires KeyOf(a, grouping) != KeyOf(b, grouping)
    requires KeyOf(c, grouping) != KeyOf(a, grouping) && KeyOf(c, grouping) != KeyOf(b, grouping)
    ensures GroupKeys([a, b, c], grouping) == [KeyOf(a, grouping), KeyOf(b, grouping), KeyOf(c, grouping)]
  {
    assert [] + [a] == [a] && [a] + [b] == [a, b] && [a, b] + [c] == [a, b, c];
    GroupKeysStep([], a, grouping);
    GroupKeysStep([a], b, grouping);
    GroupKeysStep([a, b], c, grouping);
  }

  /** The total of one key over five sales, one sale at a time. */
  lemma TotalOfFive(a: Sale, b: Sale, c: Sale, d: Sale, e: Sale, grouping: GroupBy, key: string)
    ensures GroupTotal([a, b, c, d, e], grouping, key)
         == (if KeyOf(a, grouping) == key then a.amount else 0)
          + (if KeyOf(b, grouping) == key then b.amount else 0)
          + (if KeyOf(c, grouping) == key then c.amount else 0)
          + (if KeyOf(d, grouping) == key then d.amount else 0)
          + (if KeyOf(e, grouping) == key then e.amount else 0)
  {
    assert [] + [a] == [a] && [a] + [b] == [a, b] && [a, b] + [c] == [a, b, c];
    assert [a, b, c] + [d] == [a, b, c, d] && [a, b, c, d] + [e] == [a, b, c, d, e];
    GroupTotalStep([], a, grouping, key);
    GroupTotalStep([a], b, grouping, key);
    GroupTotalStep([a, b], c, grouping, key);
    GroupTotalStep([a, b, c], d, grouping, key);
    GroupTotalStep([a, b, c, d], e, grouping, key);
  }

  /** Grouping five sales whose keys follow the pattern w, x, y, w, z. */
  lemma FourGroups(a: Sale, b: Sale, c: Sale, d: Sale, e: Sale, grouping: GroupBy)
    requires KeyOf(a, grouping) != KeyOf(b, grouping)
    requires KeyOf(c, grouping) != KeyOf(a, grouping) && KeyOf(c, grouping) != KeyOf(b, grouping)
    requires KeyOf(d, grouping) == KeyOf(a, grouping)
    requires KeyOf(e, grouping) !in [KeyOf(a, grouping), KeyOf(b, grouping), KeyOf(c, grouping)]
    ensures GroupKeys([a, b, c, d, e], grouping)
         == [KeyOf(a, grouping), KeyOf(b, grouping), KeyOf(c, grouping), KeyOf(e, grouping)]
    ensures Totals(GroupKeys([a, b, c, d, e], grouping), [a, b, c, d, e], grouping)
         == [a.amount + d.amount, b.amount, c.amount, e.amount]
  {
    var w, x, y, z := KeyOf(a, grouping), KeyOf(b, grouping), KeyOf(c, grouping), KeyOf(e, grouping);
    FourGroupsPrefix(a, b, c, grouping);
    assert [a, b, c] + [d] == [a, b, c, d] && [a, b, c, d] + [e] == [a, b, c, d, e];
    GroupKeysStep([a, b, c], d, grouping);
    assert GroupKeys([a, b, c, d], grouping) == [w, x, y];
    GroupKeysStep([a, b, c, d], e, grouping);
    var sales := [a, b, c, d, e];
    assert GroupKeys(sales, grouping) == [w, x, y, z];
    FourGroupTotals(a, b, c, d, e, grouping);
    TotalsOfFour(w, x, y, z, sales, grouping);
  }

  /** The totals of a four-key list, spelled out. */
  lemma TotalsOfFour(w: string, x: string, y: string, z: string, sales: seq<Sale>, grouping: GroupBy)
    ensures Totals([w, x, y, z], sales, grouping)
         == [GroupTotal(sales, grouping, w), GroupTotal(sales, grouping, x),
             GroupTotal(sales, grouping, y), GroupTotal(sales, grouping, z)]
  {
  }

  /** The four totals of the pattern w, x, y, w, z. */
  lemma FourGroupTotals(a: Sale, b: Sale, c: Sale, d: Sale, e: Sale, grouping: GroupBy)
    requires KeyOf(a, grouping) != KeyOf(b, grouping)
    requires KeyOf(c, grouping) != KeyOf(a, grouping) && KeyOf(c, grouping) != KeyOf(b, grouping)
    requires KeyOf(d, grouping) == KeyOf(a, grouping)
    requires KeyOf(e, grouping) !in [KeyOf(a, grouping), KeyOf(b, grouping), KeyOf(c, grouping)]
    ensures GroupTotal([a, b, c, d, e], grouping, KeyOf(a, grouping)) == a.amount + d.amount
    ensures GroupTotal([a, b, c, d, e], grouping, KeyOf(b, grouping)) == b.amount
    ensures GroupTotal([a, b, c, d, e], grouping, KeyOf(c, grouping)) == c.amount
    ensures GroupTotal([a, b, c, d, e], grouping, KeyOf(e, grouping)) == e.amount
  {
    TotalOfFive(a, b, c, d, e, grouping, KeyOf(a, grouping));
    TotalOfFive(a, b, c, d, e, grouping, KeyOf(b, grouping));
    TotalOfFive(a, b, c, d, e, grouping, KeyOf(c, grouping));
    TotalOfFive(a, b, c, d, e, grouping, KeyOf(e, grouping));
  }

  /** The doughnut legend lists the regions in order of first sale, Egypt
      collecting both of its sales. */
  lemma RegionSlices()
    ensures GroupKeys(MockSales, ByRegion)
         == ["Egypt", "Mexico", "United States of America", "Cocos (Keeling) Islands"]
    ensures Totals(GroupKeys(MockSales, ByRegion), MockSales, ByRegion) == [571, 133, 336, 570]
  {
    assert "Egypt"[0] == 'E' && "Mexico"[0] == 'M';
    assert "United States of America"[0] == 'U' && "Cocos (Keeling) Islands"[0] == 'C';
    FourGroups(Towels, Table, Shoes, Chair, Sausages, ByRegion);
  }

  /** A sale smaller than every sale of a sorted list goes last. */
  lemma {:induction false} InsertBelowAll(x: Sale, sorted: seq<Sale>)
    requires NonIncreasing(sorted)
    requires forall i :: 0 <= i < |sorted| ==> x.amount < sorted[i].amount
    ensures Insert(x, sorted) == sorted + [x]
    decreases |sorted|
  {
    if sorted != [] {
      InsertBelowAll(x, sorted[1..]);
      assert sorted == [sorted[0]] + sorted[1..];
    }
  }

  /** Sorting a list with one more sale in front inserts it into the sorted
      rest. */
  lemma SortedSalesCons(x: Sale, rest: seq<Sale>)
    ensures SortedSales([x] + rest) == Insert(x, SortedSales(rest))
  {
    assert ([x] + rest)[1..] == rest;
  }

  /** Three sales in increasing order of amount sort to the reverse order. */
  lemma SortThree(c: Sale, d: Sale, e: Sale)
    requires e.amount > d.amount > c.amount
    ensures SortedSales([c, d, e]) == [e, d, c]
  {
    SortedSalesCons(e, []);
    InsertBelowAll(d, [e]);
    SortedSalesCons(d, [e]);
    InsertBelowAll(c, [e, d]);
    SortedSalesCons(c, [d, e]);
  }

  /** A fourth, smallest sale in front goes last. */
  lemma SortFour(b: Sale, c: Sale, d: Sale, e: Sale)
    requires e.amount > d.amount > c.amount > b.amount
    ensures SortedSales([b, c, d, e]) == [e, d, c, b]
  {
    SortThree(c, d, e);
    InsertBelowAll(b, [e, d, c]);
    SortedSalesCons(b, [c, d, e]);
  }

  /** Five sales whose amounts are ordered as in the mock data: the first
      one goes between the third and the second. */
  lemma SortFive(a: Sale, b: Sale, c: Sale, d: Sale, e: Sale)
    requires e.amount > d.amount > c.amount > a.amount > b.amount
    ensures SortedSales([a, b, c, d, e]) == [e, d, c, a, b]
  {
    SortFour(b, c, d, e);
    assert [e, d, c, b] == [e, d, c] + [b];
    InsertAfterAll([e, d, c], b, a);
    SortedSalesCons(a, [b, c, d, e]);
  }

  /** The table lists the sales by amount: 570, 373, 336, 198, 133. */
  lemma SortedTable()
    ensures SortedSales(MockSales) == [Sausages, Chair, Shoes, Towels, Table]
  {
    SortFive(Towels, Table, Shoes, Chair, Sausages);
  }

  /** A sale smaller than every sale of a sorted prefix and at least as large
      as the one after it goes between them. */
  lemma {:induction false} InsertAfterAll(prefix: seq<Sale>, next: Sale, x: Sale)
    requires NonIncreasing(prefix + [next])
    requires forall i :: 0 <= i < |prefix| ==> x.amount < prefix[i].amount
    requires x.amount >= next.amount
    ensures Insert(x, prefix + [next]) == prefix + [x, next]
    decreases |prefix|
  {
    if prefix != [] {
      assert (prefix + [next])[1..] == prefix[1..] + [next];
      InsertAfterAll(prefix[1..], next, x);
      assert prefix == [prefix[0]] + prefix[1..];
    }
  }

  /** Grouping compares category strings exactly: "Toys" and "toys" make two
      bars, while the backend filter treats them as one category. */
  lemma CategoriesAreCaseSensitive(a: Sale, b: Sale)
    requires a.product.category == "Toys" && b.product.category == "toys"
    ensures GroupKeys([a, b], ByCategory) == ["Toys", "toys"]
    ensures SameIgnoringCase(a.product.category, b.product.category)
  {
    assert "Toys"[0] != "toys"[0];
    assert [] + [a] == [a] && [a] + [b] == [a, b];
    GroupKeysStep([], a, ByCategory);
    GroupKeysStep([a], b, ByCategory);
    assert Lower("Toys") == "toys";
    assert Lower("toys") == "toys";
  }

  /** Four regions fit one chart of the minimum height. */
  lemma OneChart(labels: seq<RegionLabel>)
    requires |labels| == 4
    ensures BatchSize(|labels|) == 20
    ensures Batches(labels, BatchSize(|labels|)) == [labels]
    ensures MaxHeight(Batches(labels, BatchSize(|labels|))) == 30
  {
    assert [labels][..0] == [];
  }
}
