/** The backend helpers: the generator that fills the sales store, the
    random category draw, and the date-and-category filter over the store. */
module SalesHelpers {
  import opened SaleTypes
  import opened Constants

  // ---------------------------------------------------------------------
  // Dates as the filter sees them
  // ---------------------------------------------------------------------

  /** What `new Date(x)` yields: a time value in milliseconds, or the
      invalid date, against which every comparison is false. */
  datatype Instant = At(ms: int) | InvalidDate

  /** A date argument as the `getSales` resolver receives it: left out,
      `null`, or a string. */
  datatype DateArg = Undefined | Null | Text(text: string)

  /** `!startDate` in the source: undefined, null and the empty string. */
  predicate Falsy(d: DateArg)
  {
    d.Undefined? || d.Null? || d == Text("")
  }

  /** `new Date(d)`. Undefined gives the invalid date, null gives the epoch,
      and a string is read by the platform's date parser `parse`. */
  function ToInstant(d: DateArg, parse: string -> Instant): (t: Instant)
    ensures d.Text? ==> t == parse(d.text)
    ensures d.Null? ==> t == At(0)
    ensures t.InvalidDate? <==> d.Undefined? || (d.Text? && parse(d.text).InvalidDate?)
  {
    match d
    case Undefined => InvalidDate
    case Null => At(0)
    case Text(s) => parse(s)
  }

  /** `new Date(sale.date)` for the ISO date a sale carries. */
  function SaleInstant(sale: Sale): int
  {
    sale.date * MsPerDay
  }

  // ---------------------------------------------------------------------
  // Case folding
  // ---------------------------------------------------------------------

  function LowerChar(c: char): char
  {
    if 'A' <= c <= 'Z' then (c as int + 32) as char else c
  }

  /** `toLowerCase()`, for the ASCII letters. */
  function Lower(s: string): string
  {
    seq(|s|, i requires 0 <= i < |s| => LowerChar(s[i]))
  }

  /** Case-insensitive equality, as `a.toLowerCase() === b.toLowerCase()`. */
  predicate SameIgnoringCase(a: string, b: string)
  {
    Lower(a) == Lower(b)
  }

  /** Case-insensitive equality is an equivalence: it is reflexive,
      symmetric and transitive, and it relates a name to its lower-case form. */
  lemma SameIgnoringCaseIsEquivalence(a: string, b: string, c: string)
    ensures SameIgnoringCase(a, a)
    ensures SameIgnoringCase(a, b) ==> SameIgnoringCase(b, a)
    ensures SameIgnoringCase(a, b) && SameIgnoringCase(b, c) ==> SameIgnoringCase(a, c)
    ensures SameIgnoringCase(a, Lower(a))
  {
    var l := Lower(a);
    forall i | 0 <= i < |a|
      ensures Lower(l)[i] == l[i]
    {
    }
    assert Lower(l) == l;
  }

  // ---------------------------------------------------------------------
  // The filter
  // ---------------------------------------------------------------------

  /** The date-range test: a falsy bound imposes nothing; otherwise the
      sale's time must compare with the parsed bound, and no time compares
      with the invalid date. */
  predicate WithinDateRange(sale: Sale, startDate: DateArg, endDate: DateArg, parse: string -> Instant)
    ensures Falsy(startDate) && Falsy(endDate) ==> WithinDateRange(sale, startDate, endDate, parse)
    ensures !Falsy(startDate) && ToInstant(startDate, parse).InvalidDate? ==> !WithinDateRange(sale, startDate, endDate, parse)
    ensures !Falsy(endDate) && ToInstant(endDate, parse).InvalidDate? ==> !WithinDateRange(sale, startDate, endDate, parse)
    ensures !Falsy(startDate) && !Falsy(endDate) && ToInstant(startDate, parse).At? && ToInstant(endDate, parse).At? ==>
              (WithinDateRange(sale, startDate, endDate, parse)
               <==> ToInstant(startDate, parse).ms <= SaleInstant(sale) <= ToInstant(endDate, parse).ms)
    ensures !Falsy(startDate) && Falsy(endDate) && ToInstant(startDate, parse).At? ==>
              (WithinDateRange(sale, startDate, endDate, parse) <==> ToInstant(startDate, parse).ms <= SaleInstant(sale))
    ensures Falsy(startDate) && !Falsy(endDate) && ToInstant(endDate, parse).At? ==>
              (WithinDateRange(sale, startDate, endDate, parse) <==> SaleInstant(sale) <= ToInstant(endDate, parse).ms)
  {
    var start := ToInstant(startDate, parse);
    var end := ToInstant(endDate, parse);
    && (Falsy(startDate) || (start.At? && SaleInstant(sale) >= start.ms))
    && (Falsy(endDate) || (end.At? && SaleInstant(sale) <= end.ms))
  }

  /** The category test: an absent or empty category imposes nothing;
      otherwise the sale's category must equal it ignoring case. */
  predicate CategoryMatches(sale: Sale, category: Option<string>)
    ensures category.None? || category == Some("") ==> CategoryMatches(sale, category)
    ensures category.Some? && category.value != "" ==>
              (CategoryMatches(sale, category) <==> Lower(sale.product.category) == Lower(category.value))
  {
    category.None? || category.value == "" || SameIgnoringCase(sale.product.category, category.value)
  }

  /** A record is kept when it passes both tests. With every argument
      falsy every record passes; a non-empty bound that does not parse
      lets none through. */
  predicate Matches(sale: Sale, startDate: DateArg, endDate: DateArg, category: Option<string>, parse: string -> Instant)
    ensures Falsy(startDate) && Falsy(endDate) && (category.None? || category.value == "") ==>
              Matches(sale, startDate, endDate, category, parse)
    ensures ((!Falsy(startDate) && ToInstant(startDate, parse).InvalidDate?)
             || (!Falsy(endDate) && ToInstant(endDate, parse).InvalidDate?)) ==>
              !Matches(sale, startDate, endDate, category, parse)
    ensures (category.None? || category.value == "") ==>
              (Matches(sale, startDate, endDate, category, parse) <==> WithinDateRange(sale, startDate, endDate, parse))
    ensures category.Some? && category.value != "" ==>
              (Matches(sale, startDate, endDate, category, parse)
               <==> WithinDateRange(sale, startDate, endDate, parse)
                    && Lower(sale.product.category) == Lower(category.value))
  {
    WithinDateRange(sale, startDate, endDate, parse) && CategoryMatches(sale, category)
  }

  /** `getSalesByDateAndCategory`: the records of the store that pass both
      tests, in store order. It reads the store and changes nothing. */
  function SalesByDateAndCategory(store: seq<Sale>, startDate: DateArg, endDate: DateArg,
                                  category: Option<string>, parse: string -> Instant): (r: seq<Sale>)
    ensures |r| <= |store|
  {
    if store == [] then []
    else
      var last := store[|store| - 1];
      var rest := SalesByDateAndCategory(store[..|store| - 1], startDate, endDate, category, parse);
      if Matches(last, startDate, endDate, category, parse) then rest + [last] else rest
  }

  /** The filter returns exactly the matching records of the store. */
  lemma {:induction false} FilterMembers(store: seq<Sale>, startDate: DateArg, endDate: DateArg,
                                         category: Option<string>, parse: string -> Instant)
    ensures forall sale :: sale in SalesByDateAndCategory(store, startDate, endDate, category, parse)
                       <==> sale in store && Matches(sale, startDate, endDate, category, parse)
    decreases |store|
  {
    if store != [] {
      var prefix := store[..|store| - 1];
      FilterMembers(prefix, startDate, endDate, category, parse);
      assert store == prefix + [store[|store| - 1]];
    }
  }

  /** Filtering a concatenation filters each part and keeps them in order:
      the result is the matching records in the order the store holds them. */
  lemma {:induction false} FilterAppend(a: seq<Sale>, b: seq<Sale>, startDate: DateArg, endDate: DateArg,
                                        category: Option<string>, parse: string -> Instant)
    ensures SalesByDateAndCategory(a + b, startDate, endDate, category, parse)
         == SalesByDateAndCategory(a, startDate, endDate, category, parse)
          + SalesByDateAndCategory(b, startDate, endDate, category, parse)
    decreases |b|
  {
    if b == [] {
      assert a + b == a;
    } else {
      var b', last := b[..|b| - 1], b[|b| - 1];
      assert a + b == (a + b') + [last];
      FilterAppend(a, b', startDate, endDate, category, parse);
      FilterPush(a + b', last, startDate, endDate, category, parse);
      FilterPush(b', last, startDate, endDate, category, parse);
      assert b == b' + [last];
    }
  }

  /** One more record at the end of the store is kept exactly when it matches. */
  lemma FilterPush(store: seq<Sale>, sale: Sale, startDate: DateArg, endDate: DateArg,
                   category: Option<string>, parse: string -> Instant)
    ensures SalesByDateAndCategory(store + [sale], startDate, endDate, category, parse)
         == SalesByDateAndCategory(store, startDate, endDate, category, parse)
          + (if Matches(sale, startDate, endDate, category, parse) then [sale] else [])
  {
    assert (store + [sale])[..|store|] == store;
  }

  /** When every record matches, the filter returns the store itself, in
      its own order. */
  lemma {:induction false} FilterKeepsAll(store: seq<Sale>, startDate: DateArg, endDate: DateArg,
                                          category: Option<string>, parse: string -> Instant)
    requires forall i :: 0 <= i < |store| ==> Matches(store[i], startDate, endDate, category, parse)
    ensures SalesByDateAndCategory(store, startDate, endDate, category, parse) == store
    decreases |store|
  {
    if store != [] {
      FilterKeepsAll(store[..|store| - 1], startDate, endDate, category, parse);
      assert store == store[..|store| - 1] + [store[|store| - 1]];
    }
  }

  /** With every argument falsy the filter returns the whole store. */
  lemma NoArgumentsReturnsStore(store: seq<Sale>, startDate: DateArg, endDate: DateArg,
                                category: Option<string>, parse: string -> Instant)
    requires Falsy(startDate) && Falsy(endDate) && (category.None? || category.value == "")
    ensures SalesByDateAndCategory(store, startDate, endDate, category, parse) == store
  {
    FilterKeepsAll(store, startDate, endDate, category, parse);
  }

  /** A non-empty bound that does not parse matches nothing. */
  lemma InvalidBoundMatchesNothing(store: seq<Sale>, startDate: DateArg, endDate: DateArg,
                                   category: Option<string>, parse: string -> Instant)
    requires (!Falsy(startDate) && ToInstant(startDate, parse) == InvalidDate)
          || (!Falsy(endDate) && ToInstant(endDate, parse) == InvalidDate)
    ensures SalesByDateAndCategory(store, startDate, endDate, category, parse) == []
  {
    var r := SalesByDateAndCategory(store, startDate, endDate, category, parse);
    FilterMembers(store, startDate, endDate, category, parse);
    assert forall sale :: sale !in r;
  }

  /** For every form of the arguments: a sale is returned exactly when it
      is in the store, lies at or after the start bound if one is given, at
      or before the end bound if one is given, and has the category ignoring
      case if one is given. A given bound that does not parse admits nothing. */
  lemma BoundsRespected(store: seq<Sale>, startDate: DateArg, endDate: DateArg,
                        category: Option<string>, parse: string -> Instant)
    ensures forall sale ::
      (sale in SalesByDateAndCategory(store, startDate, endDate, category, parse)
       <==> && sale in store
            && (Falsy(startDate) || (ToInstant(startDate, parse).At? && ToInstant(startDate, parse).ms <= SaleInstant(sale)))
            && (Falsy(endDate) || (ToInstant(endDate, parse).At? && SaleInstant(sale) <= ToInstant(endDate, parse).ms))
            && (category.None? || category.value == "" || Lower(sale.product.category) == Lower(category.value)))
  {
    FilterMembers(store, startDate, endDate, category, parse);
  }

  /** Two category arguments that differ only in letter case select the
      same records. */
  lemma {:induction false} CaseVariantsSelectAlike(store: seq<Sale>, startDate: DateArg, endDate: DateArg,
                                                   c1: string, c2: string, parse: string -> Instant)
    requires SameIgnoringCase(c1, c2)
    ensures SalesByDateAndCategory(store, startDate, endDate, Some(c1), parse)
         == SalesByDateAndCategory(store, startDate, endDate, Some(c2), parse)
    decreases |store|
  {
    if store != [] {
      assert |c1| == |Lower(c1)| == |Lower(c2)| == |c2|;
      CaseVariantsSelectAlike(store[..|store| - 1], startDate, endDate, c1, c2, parse);
    }
  }

  // ---------------------------------------------------------------------
  // The generator
  // ---------------------------------------------------------------------

  const MinAmount: int := 100
  const MaxAmount: int := 1000

  /** The inner loop bound `Math.floor(Math.random() * 10)` is at most 9 and
      is drawn afresh before every iteration, so a day gets at most 9 sales. */
  const MaxSalesPerDay: nat := 9

  /** `getRandomCategory`: a category from the catalogue at a random index
      in `[0, length)`. */
  method GetRandomCategory() returns (category: string)
    ensures category in ProductCategories
  {
    var index :| 0 <= index < |ProductCategories|;
    category := ProductCategories[index];
  }

  /** The number of sales in `sales` dated `day`. */
  function CountOnDay(sales: seq<Sale>, day: Day): nat
  {
    if sales == [] then 0
    else CountOnDay(sales[..|sales| - 1], day) + (if sales[|sales| - 1].date == day then 1 else 0)
  }

  lemma {:induction false} CountOnAbsentDay(sales: seq<Sale>, day: Day)
    requires forall i :: 0 <= i < |sales| ==> sales[i].date != day
    ensures CountOnDay(sales, day) == 0
    decreases |sales|
  {
    if sales != [] {
      CountOnAbsentDay(sales[..|sales| - 1], day);
    }
  }

  /** What every generated record satisfies: dated within the window, an
      amount within `[100, 1000]`, a category from the catalogue. */
  predicate Generated(sale: Sale, lastMonthStart: Day, today: Day)
  {
    && lastMonthStart <= sale.date <= today
    && MinAmount <= sale.amount <= MaxAmount
    && sale.product.category in ProductCategories
  }

  /** A bound on the length of every string in a finite set. */
  ghost function LengthBound(ids: set<string>): (n: nat)
    ensures forall s :: s in ids ==> |s| < n
    decreases ids
  {
    if ids == {} then 0
    else
      var x :| x in ids;
      var m := LengthBound(ids - {x});
      if |x| < m then m else |x| + 1
  }

  /** `randomUUID()` is modelled as a draw that avoids every id in use;
      such a draw exists because the store is finite. */
  lemma FreshIdExists(ids: set<string>)
    ensures exists id: string :: id !in ids
  {
    var w := seq(LengthBound(ids), _ => 'u');
    assert w !in ids;
  }

  /** Counting over a concatenation: a block of sales all dated `date`
      adds its length to that day's count and nothing to any other day's. */
  lemma {:induction false} CountOnDayAppend(sales: seq<Sale>, block: seq<Sale>, date: Day, day: Day)
    requires forall j :: 0 <= j < |block| ==> block[j].date == date
    ensures CountOnDay(sales + block, day) == CountOnDay(sales, day) + (if day == date then |block| else 0)
    decreases |block|
  {
    if block == [] {
      assert sales + block == sales;
    } else {
      var block' := block[..|block| - 1];
      assert (sales + block)[..|sales + block| - 1] == sales + block';
      CountOnDayAppend(sales, block', date, day);
    }
  }

  /** The records of one day of generation: dated that day, an amount
      within `[100, 1000]`, a category from the catalogue. */
  predicate DrawnOn(sale: Sale, date: Day)
  {
    && sale.date == date
    && MinAmount <= sale.amount <= MaxAmount
    && sale.product.category in ProductCategories
  }

  /** The inner loop of `generateLastNSalesData`: while `i` is below a bound
      drawn afresh each time, append one random record dated `date`. */
  method GenerateDay(db: Database, date: Day)
    requires db.Valid()
    modifies db`sales
    ensures db.Valid()
    ensures |old(db.sales)| <= |db.sales| <= |old(db.sales)| + MaxSalesPerDay
    ensures db.sales[..|old(db.sales)|] == old(db.sales)
    ensures forall j :: |old(db.sales)| <= j < |db.sales| ==> DrawnOn(db.sales[j], date)
  {
    var i := 0;
    while true
      invariant db.Valid()
      invariant i <= MaxSalesPerDay
      invariant |db.sales| == |old(db.sales)| + i
      invariant db.sales[..|old(db.sales)|] == old(db.sales)
      invariant forall j :: |old(db.sales)| <= j < |db.sales| ==> DrawnOn(db.sales[j], date)
      decreases MaxSalesPerDay - i
    {
      var bound :| 0 <= bound <= 9;
      if i >= bound {
        break;
      }
      FreshIdExists(Ids(db.sales));
      var id :| id !in Ids(db.sales);
      var name: string := *;
      var category := GetRandomCategory();
      var amount :| MinAmount <= amount <= MaxAmount;
      var region: string := *;
      ghost var before := db.sales;
      assert forall k :: 0 <= k < |before| ==> before[k].id in Ids(before);
      db.sales := db.sales + [Sale(id, Product(name, category), amount, date, region)];
      i := i + 1;
    }
  }

  /** `generateLastNSalesData`: for every day from `lastMonthStart` (the
      first day of the month N months back) to `today` inclusive, append a
      random number of random records to the store. The clock and the
      calendar arithmetic are parameters; the random draws are choices. */
  method GenerateLastNSalesData(db: Database, today: Day, lastMonthStart: Day)
    requires db.Valid()
    modifies db`sales
    ensures db.Valid()
    ensures |old(db.sales)| <= |db.sales| && db.sales[..|old(db.sales)|] == old(db.sales)
    ensures forall j :: |old(db.sales)| <= j < |db.sales| ==> Generated(db.sales[j], lastMonthStart, today)
    ensures forall day :: CountOnDay(db.sales[|old(db.sales)|..], day) <= MaxSalesPerDay
  {
    ghost var n0 := |db.sales|;
    var date := lastMonthStart;
    while date <= today
      invariant db.Valid()
      invariant lastMonthStart <= date
      invariant n0 <= |db.sales| && db.sales[..n0] == old(db.sales)
      invariant forall j :: n0 <= j < |db.sales| ==> Generated(db.sales[j], lastMonthStart, today) && db.sales[j].date < date
      invariant forall day :: CountOnDay(db.sales[n0..], day) <= MaxSalesPerDay
      decreases today - date
    {
      ghost var added := db.sales[n0..];
      CountOnAbsentDay(added, date);
      GenerateDay(db, date);
      ghost var block := db.sales[n0 + |added|..];
      assert db.sales[n0..] == added + block;
      forall day
        ensures CountOnDay(db.sales[n0..], day) <= MaxSalesPerDay
      {
        CountOnDayAppend(added, block, date, day);
      }
      date := date + 1;
    }
  }
}
