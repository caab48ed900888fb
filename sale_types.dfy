/** The records the backend serves and the client stores: a sale and the
    product it sold. Both sides declare the same shape, so one definition
    serves them both. */
module SaleTypes {

  datatype Option<T> = None | Some(value: T)

  /** A calendar day, counted in days since 1970-01-01. It stands for the
      ISO-8601 date string ("2024-05-02") that a sale carries. */
  type Day = int

  /** Milliseconds in a day: `new Date("2024-05-02")` is midnight UTC of that
      day, so a sale dated `d` sits at the time value `d * MsPerDay`. */
  const MsPerDay: int := 86_400_000

  datatype Product = Product(name: string, category: string)

  datatype Sale = Sale(id: string, product: Product, amount: int, date: Day, region: string)

  /** No element occurs twice. */
  predicate Distinct<T(==)>(s: seq<T>)
  {
    forall i, j :: 0 <= i < j < |s| ==> s[i] != s[j]
  }

  /** The sum of the amounts of a list of sales, taken from the left. */
  function SumAmounts(sales: seq<Sale>): int
  {
    if sales == [] then 0 else SumAmounts(sales[..|sales| - 1]) + sales[|sales| - 1].amount
  }
}
