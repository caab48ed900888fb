/** The `getSales` resolver: a memoising wrapper around the store filter,
    keyed by the three arguments as the caller wrote them. */
module SaleResolver {
  import opened SaleTypes
  import opened Constants
  import opened SalesHelpers

  /** How a date argument reads inside a template literal. */
  function Render(d: DateArg): string
  {
    match d
    case Undefined => "undefined"
    case Null => "null"
    case Text(s) => s
  }

  /** `category || ''`: an absent or empty category reads as the empty string. */
  function CategoryText(category: Option<string>): (t: string)
    ensures t == "" <==> category.None? || category.value == ""
    ensures category.Some? ==> t == category.value
  {
    match category
    case None => ""
    case Some(c) => c
  }

  /** `${startDate}-${endDate}-${category || ''}`, with no normalisation. */
  function CacheKey(startDate: DateArg, endDate: DateArg, category: Option<string>): (key: string)
    ensures |key| == |Render(startDate)| + |Render(endDate)| + |CategoryText(category)| + 2
    ensures key[..|Render(startDate)| + 1] == Render(startDate) + "-"
    ensures key[|Render(startDate)| + 1..|Render(startDate)| + 1 + |Render(endDate)|] == Render(endDate)
    ensures key[|key| - |CategoryText(category)| - 1..] == "-" + CategoryText(category)
  {
    Render(startDate) + "-" + Render(endDate) + "-" + CategoryText(category)
  }

  /** The key ends with the category text, so two calls whose categories
      differ (in letter case, say) get different keys whatever their dates. */
  lemma DistinctCategoriesDistinctKeys(s1: DateArg, e1: DateArg, c1: string,
                                       s2: DateArg, e2: DateArg, c2: string)
    requires |c1| == |c2| && c1 != c2
    ensures CacheKey(s1, e1, Some(c1)) != CacheKey(s2, e2, Some(c2))
  {
    var k1, k2 := CacheKey(s1, e1, Some(c1)), CacheKey(s2, e2, Some(c2));
    assert k1[|k1| - |c1|..] == c1;
    assert k2[|k2| - |c2|..] == c2;
  }

  /** The key is not injective: the dates may themselves contain `-`, so
      two different pairs of bounds give the same key. */
  lemma KeyCollision()
    ensures CacheKey(Text("2024-05-01"), Text("2024-05-01"), None)
         == CacheKey(Text("2024"), Text("05-01-2024-05-01"), None)
  {
    var day, year, rest := "2024-05-01", "2024", "05-01";
    assert day == year + "-" + rest;
    assert "05-01-2024-05-01" == rest + "-" + day;
    assert CacheKey(Text(day), Text(day), None) == day + "-" + day + "-" + "";
    assert CacheKey(Text(year), Text(rest + "-" + day), None) == year + "-" + (rest + "-" + day) + "-" + "";
  }

  /** The two colliding argument pairs select differently: one day's sales
      for the first, nothing for the second, whose end bound does not parse.
      Whichever call comes first, the second is answered from the cache with
      the first one's list. */
  lemma CollidingArgumentsSelectDifferently(parse: string -> Instant, sale: Sale)
    requires parse("2024-05-01") == At(19844 * MsPerDay)
    requires parse("2024") == At(19723 * MsPerDay)
    requires parse("05-01-2024-05-01") == InvalidDate
    requires sale.date == 19844
    ensures SalesByDateAndCategory([sale], Text("2024-05-01"), Text("2024-05-01"), None, parse) == [sale]
    ensures SalesByDateAndCategory([sale], Text("2024"), Text("05-01-2024-05-01"), None, parse) == []
  {
    assert [sale][..0] == [];
  }

  /** `getSales`: on a hit, return the stored list without scanning; on a
      miss, filter the store, store the result under the key and return it.
      A stored list is an array, which is truthy even when empty, so the hit
      test is key presence. */
  method GetSales(db: Database, startDate: DateArg, endDate: DateArg, category: Option<string>,
                  parse: string -> Instant) returns (r: seq<Sale>)
    requires db.Valid()
    modifies db`cache, db`scans
    ensures db.Valid()
    ensures var key := CacheKey(startDate, endDate, category);
      && key in db.cache && db.cache[key] == r
      && (key in old(db.cache) ==>
            r == old(db.cache)[key] && db.cache == old(db.cache) && db.scans == old(db.scans))
      && (key !in old(db.cache) ==>
            && r == SalesByDateAndCategory(db.sales, startDate, endDate, category, parse)
            && db.cache == old(db.cache)[key := r]
            && db.scans == old(db.scans) + [key])
  {
    var key := CacheKey(startDate, endDate, category);
    if key in db.cache {
      return db.cache[key];
    }
    r := SalesByDateAndCategory(db.sales, startDate, endDate, category, parse);
    db.cache := db.cache[key := r];
    db.scans := db.scans + [key];
  }

  /** Asking twice with the same arguments gives the same list, and the
      second call finds it in the cache. */
  method GetSalesTwice(db: Database, startDate: DateArg, endDate: DateArg, category: Option<string>,
                       parse: string -> Instant) returns (first: seq<Sale>, second: seq<Sale>)
    requires db.Valid()
    modifies db`cache, db`scans
    ensures db.Valid()
    ensures first == second
    ensures |db.scans| <= |old(db.scans)| + 1
  {
    first := GetSales(db, startDate, endDate, category, parse);
    second := GetSales(db, startDate, endDate, category, parse);
  }
}
