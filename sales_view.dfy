/** The sales table: a copy of the store's sales sorted by amount, largest
    first, shown as numbered rows, or a spinner, or "No Sales.". */
module SalesView {
  import opened SaleTypes

  predicate NonIncreasing(s: seq<Sale>)
  {
    forall i, j :: 0 <= i < j < |s| ==> s[i].amount >= s[j].amount
  }

  /** Put `x` into a list sorted largest first, ahead of every sale whose
      amount is not larger. */
  function Insert(x: Sale, sorted: seq<Sale>): (r: seq<Sale>)
    requires NonIncreasing(sorted)
    ensures NonIncreasing(r)
    ensures |r| == |sorted| + 1
    ensures r[0] == x || (sorted != [] && r[0] == sorted[0])
  {
    if sorted == [] then [x]
    else if x.amount >= sorted[0].amount then [x] + sorted
    else
      var rest := Insert(x, sorted[1..]);
      assert sorted == [sorted[0]] + sorted[1..];
      assert sorted[0].amount >= rest[0].amount;
      [sorted[0]] + rest
  }

  /** Inserting adds exactly the one sale. */
  lemma {:induction false} InsertPermutes(x: Sale, sorted: seq<Sale>)
    requires NonIncreasing(sorted)
    ensures multiset(Insert(x, sorted)) == multiset(sorted) + multiset{x}
    decreases |sorted|
  {
    if sorted != [] && x.amount < sorted[0].amount {
      InsertPermutes(x, sorted[1..]);
      assert sorted == [sorted[0]] + sorted[1..];
    }
  }

  /** `sortedSales`: `[...sales].sort((a, b) => b.amount - a.amount)`, the
      largest amount first. The store's list is a value, so sorting the copy
      leaves it untouched. */
  function SortedSales(sales: seq<Sale>): (r: seq<Sale>)
    ensures NonIncreasing(r)
  {
    if sales == [] then [] else Insert(sales[0], SortedSales(sales[1..]))
  }

  /** Sorting neither loses nor duplicates a sale. */
  lemma {:induction false} SortedSalesPermutes(sales: seq<Sale>)
    ensures multiset(SortedSales(sales)) == multiset(sales)
    decreases |sales|
  {
    if sales != [] {
      SortedSalesPermutes(sales[1..]);
      InsertPermutes(sales[0], SortedSales(sales[1..]));
      assert sales == [sales[0]] + sales[1..];
    }
  }

  /** One rendered row: its 1-based count and the sale it shows. */
  datatype RowView = RowView(count: nat, sale: Sale)

  /** What the table body shows. */
  datatype SalesPanel = Spinner | NoSales | List(rows: seq<RowView>)

  /** `renderRow`: row `index` shows `sortedSales[index]` labelled `index + 1`. */
  function RenderRow(sorted: seq<Sale>, index: nat): (row: RowView)
    requires index < |sorted|
    ensures row.count == index + 1
    ensures 1 <= row.count <= |sorted|
    ensures row.sale == sorted[row.count - 1]
  {
    RowView(index + 1, sorted[index])
  }

  /** The sales shown by a list of rows, top to bottom. */
  function RowSales(rows: seq<RowView>): seq<Sale>
  {
    seq(|rows|, i requires 0 <= i < |rows| => rows[i].sale)
  }

  /** The rows of a sorted list, `sortedSales.map(renderRow)`: one row per
      sale, in list order, numbered from 1. */
  function Rows(sorted: seq<Sale>): (rows: seq<RowView>)
    ensures |rows| == |sorted|
    ensures RowSales(rows) == sorted
    ensures forall i :: 0 <= i < |rows| ==> rows[i].count == i + 1
  {
    seq(|sorted|, i requires 0 <= i < |sorted| => RenderRow(sorted, i))
  }

  /** The table body: a spinner while sales load; otherwise "No Sales." for
      an empty list; otherwise one row per sale, numbered from 1, showing the
      sorted copy top to bottom: largest amount first, every sale of the
      store exactly as often as the store holds it. */
  function SalesPanelFor(loadingSales: bool, sales: seq<Sale>): (panel: SalesPanel)
    ensures loadingSales ==> panel == Spinner
    ensures !loadingSales && sales == [] ==> panel == NoSales
    ensures !loadingSales && sales != [] ==>
      && panel.List?
      && |panel.rows| == |sales|
      && RowSales(panel.rows) == SortedSales(sales)
      && NonIncreasing(RowSales(panel.rows))
      && multiset(RowSales(panel.rows)) == multiset(sales)
      && (forall i :: 0 <= i < |panel.rows| ==> panel.rows[i].count == i + 1)
  {
    if loadingSales then Spinner
    else if sales == [] then NoSales
    else
      SortedSalesPermutes(sales);
      assert |SortedSales(sales)| == |sales| by {
        assert |multiset(SortedSales(sales))| == |multiset(sales)|;
      }
      List(Rows(SortedSales(sales)))
  }
}
