/** The `getCategories` resolver. */
module CategoryResolver {
  import opened SaleTypes
  import opened Constants

  /** `getCategories`: the catalogue, verbatim and in declared order. It
      takes no arguments, has no error path and, being a function with no
      reads clause, touches neither the sales store nor the cache. */
  function GetCategories(): (r: seq<string>)
    ensures |r| == 10 && Distinct(r)
    ensures r[0] == "Electronics" && r[9] == "Groceries"
    ensures r == ProductCategories
  {
    CatalogueShape();
    ProductCategories
  }
}
