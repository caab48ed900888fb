/** The backend's constants: the fixed product catalogue and the two
    in-memory databases, the sales store and the response cache. */
module Constants {
  import opened SaleTypes

  /** The catalogue of product categories, in declared order. */
  const ProductCategories: seq<string> := [
    "Electronics",
    "Clothing",
    "Home Appliances",
    "Books",
    "Toys",
    "Furniture",
    "Sports Equipment",
    "Beauty Products",
    "Automotive",
    "Groceries"
  ]

  /** The catalogue holds ten names, from Electronics to Groceries, no two alike. */
  lemma CatalogueShape()
    ensures |ProductCategories| == 10
    ensures ProductCategories[0] == "Electronics" && ProductCategories[9] == "Groceries"
    ensures Distinct(ProductCategories)
  {
  }

  /** The identifiers of a list of sales. */
  function Ids(sales: seq<Sale>): set<string>
  {
    set i | 0 <= i < |sales| :: sales[i].id
  }

  /** The process-wide state the backend mutates: `salesDatabase`, which the
      generator appends to, and `cacheDatabase`, which the `getSales`
      resolver fills. `scans` is a ghost log of the cache keys for which a
      filter scan of the store was run, in order. */
  class Database {
    var sales: seq<Sale>
    var cache: map<string, seq<Sale>>
    ghost var scans: seq<string>

    /** Sale ids are unique; the cache holds exactly the keys that were
        scanned, and no key was scanned twice. */
    ghost predicate Valid()
      reads this
    {
      && (forall i, j :: 0 <= i < j < |sales| ==> sales[i].id != sales[j].id)
      && Distinct(scans)
      && (forall k :: k in cache <==> k in scans)
    }

    /** Both databases start empty. */
    constructor ()
      ensures Valid()
      ensures sales == [] && cache == map[] && scans == []
    {
      sales := [];
      cache := map[];
      scans := [];
    }
  }
}
