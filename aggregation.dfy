/** Grouping sales by one of their string fields and totalling the amounts
    per group, the way both charts do it: a `reduce` into a string-keyed
    object whose keys then come back in insertion order. */
module Aggregation {
  import opened SaleTypes

  /** The field the sales are grouped by. */
  datatype GroupBy = ByCategory | ByRegion

  function KeyOf(sale: Sale, grouping: GroupBy): string
  {
    match grouping
    case ByCategory => sale.product.category
    case ByRegion => sale.region
  }

  /** `Object.keys` of the accumulator: the group keys in order of first
      occurrence. */
  function GroupKeys(sales: seq<Sale>, grouping: GroupBy): (keys: seq<string>)
  {
    if sales == [] then []
    else
      var keys := GroupKeys(sales[..|sales| - 1], grouping);
      var key := KeyOf(sales[|sales| - 1], grouping);
      if key in keys then keys else keys + [key]
  }

  /** Each key is listed once, and the listed keys are exactly the keys the
      sales carry, compared as plain strings (so case matters). */
  lemma {:induction false} GroupKeysMembers(sales: seq<Sale>, grouping: GroupBy)
    ensures Distinct(GroupKeys(sales, grouping))
    ensures forall k :: k in GroupKeys(sales, grouping) <==> exists i :: 0 <= i < |sales| && KeyOf(sales[i], grouping) == k
    decreases |sales|
  {
    if sales != [] {
      var prefix := sales[..|sales| - 1];
      GroupKeysMembers(prefix, grouping);
      assert forall i :: 0 <= i < |prefix| ==> sales[i] == prefix[i];
      assert KeyOf(sales[|sales| - 1], grouping) in GroupKeys(sales, grouping);
    }
  }

  /** The total amount of the sales whose key is exactly `key`. */
  function GroupTotal(sales: seq<Sale>, grouping: GroupBy, key: string): int
  {
    if sales == [] then 0
    else
      var last := sales[|sales| - 1];
      GroupTotal(sales[..|sales| - 1], grouping, key) + (if KeyOf(last, grouping) == key then last.amount else 0)
  }

  /** One more sale: its key joins the end of the key list if it is new. */
  lemma GroupKeysStep(sales: seq<Sale>, sale: Sale, grouping: GroupBy)
    ensures GroupKeys(sales + [sale], grouping)
         == if KeyOf(sale, grouping) in GroupKeys(sales, grouping) then GroupKeys(sales, grouping)
            else GroupKeys(sales, grouping) + [KeyOf(sale, grouping)]
  {
    assert (sales + [sale])[..|sales|] == sales;
  }

  /** One more sale: its amount joins its own key's total and no other. */
  lemma GroupTotalStep(sales: seq<Sale>, sale: Sale, grouping: GroupBy, key: string)
    ensures GroupTotal(sales + [sale], grouping, key)
         == GroupTotal(sales, grouping, key) + (if KeyOf(sale, grouping) == key then sale.amount else 0)
  {
    assert (sales + [sale])[..|sales|] == sales;
  }

  /** A key no sale carries totals zero. */
  lemma {:induction false} GroupTotalAbsent(sales: seq<Sale>, grouping: GroupBy, key: string)
    requires key !in GroupKeys(sales, grouping)
    ensures GroupTotal(sales, grouping, key) == 0
    decreases |sales|
  {
    if sales != [] {
      var prefix := sales[..|sales| - 1];
      GroupTotalAbsent(prefix, grouping, key);
    }
  }

  /** Object.values of the accumulator: the total of each key, in key order. */
  function Totals(keys: seq<string>, sales: seq<Sale>, grouping: GroupBy): (totals: seq<int>)
    ensures |totals| == |keys|
  {
    seq(|keys|, i requires 0 <= i < |keys| => GroupTotal(sales, grouping, keys[i]))
  }

  /** The sum of a list of numbers, taken from the left. */
  function Sum(xs: seq<int>): int
  {
    if xs == [] then 0 else Sum(xs[..|xs| - 1]) + xs[|xs| - 1]
  }

  /** Adding one sale to the data raises the sum of the totals over a list of
      distinct keys by that sale's amount exactly when its key is listed. */
  lemma {:induction false} SumTotalsPush(keys: seq<string>, sales: seq<Sale>, sale: Sale, grouping: GroupBy)
    requires Distinct(keys)
    ensures Sum(Totals(keys, sales + [sale], grouping))
         == Sum(Totals(keys, sales, grouping)) + (if KeyOf(sale, grouping) in keys then sale.amount else 0)
    decreases |keys|
  {
    if keys != [] {
      var init := keys[..|keys| - 1];
      var last := keys[|keys| - 1];
      assert Totals(keys, sales + [sale], grouping)[..|keys| - 1] == Totals(init, sales + [sale], grouping);
      assert Totals(keys, sales, grouping)[..|keys| - 1] == Totals(init, sales, grouping);
      assert (sales + [sale])[..|sales|] == sales;
      assert keys == init + [last];
      assert last !in init;
      SumTotalsPush(init, sales, sale, grouping);
    }
  }

  /** No amount is lost or counted twice: the group totals add up to the sum
      of all amounts. */
  lemma {:induction false} TotalsSumToAll(sales: seq<Sale>, grouping: GroupBy)
    ensures Sum(Totals(GroupKeys(sales, grouping), sales, grouping)) == SumAmounts(sales)
    decreases |sales|
  {
    if sales != [] {
      var prefix := sales[..|sales| - 1];
      var sale := sales[|sales| - 1];
      var keys := GroupKeys(prefix, grouping);
      assert sales == prefix + [sale];
      TotalsSumToAll(prefix, grouping);
      GroupKeysMembers(prefix, grouping);
      SumTotalsPush(keys, prefix, sale, grouping);
      if KeyOf(sale, grouping) !in keys {
        var all := keys + [KeyOf(sale, grouping)];
        assert Totals(all, sales, grouping)[..|keys|] == Totals(keys, sales, grouping);
        GroupTotalAbsent(prefix, grouping, KeyOf(sale, grouping));
      }
    }
  }

  /** Keys keep their first-occurrence order as data arrives: the keys of any
      prefix of the sales are a prefix of the keys of all of them. */
  lemma {:induction false} GroupKeysOfPrefix(sales: seq<Sale>, grouping: GroupBy, n: nat)
    requires n <= |sales|
    ensures GroupKeys(sales[..n], grouping) <= GroupKeys(sales, grouping)
    decreases |sales| - n
  {
    if n < |sales| {
      GroupKeysOfPrefix(sales, grouping, n + 1);
      assert sales[..n + 1][..n] == sales[..n];
    } else {
      assert sales[..n] == sales;
    }
  }

  /** A JavaScript object used as a dictionary: its keys in insertion order
      and the value under each. */
  datatype Record = Record(keys: seq<string>, values: map<string, int>)

  /** `Object.values`: the value under each key, in key order. */
  function Values(acc: Record): (values: seq<int>)
    requires forall k :: k in acc.keys ==> k in acc.values
    ensures |values| == |acc.keys|
    ensures forall i :: 0 <= i < |values| ==> values[i] == acc.values[acc.keys[i]]
    ensures forall k :: k in acc.keys ==> acc.values[k] in values
  {
    seq(|acc.keys|, i requires 0 <= i < |acc.keys| => acc.values[acc.keys[i]])
  }

  /** `sales.reduce((acc, sale) => { acc[k] = (acc[k] || 0) + sale.amount;
      return acc }, {})`: one pass that adds each amount to its key's entry,
      creating the entry (at the end of the key order) on first sight. */
  method Aggregate(sales: seq<Sale>, grouping: GroupBy) returns (acc: Record)
    ensures acc.keys == GroupKeys(sales, grouping)
    ensures forall k :: k in acc.values <==> k in acc.keys
    ensures forall k :: k in acc.values ==> acc.values[k] == GroupTotal(sales, grouping, k)
  {
    var keys: seq<string> := [];
    var values: map<string, int> := map[];
    for i := 0 to |sales|
      invariant keys == GroupKeys(sales[..i], grouping)
      invariant forall k :: k in values <==> k in keys
      invariant forall k :: k in values ==> values[k] == GroupTotal(sales[..i], grouping, k)
    {
      var key := KeyOf(sales[i], grouping);
      assert sales[..i + 1][..i] == sales[..i];
      if key !in values {
        GroupTotalAbsent(sales[..i], grouping, key);
        keys := keys + [key];
      }
      values := values[key := (if key in values then values[key] else 0) + sales[i].amount];
    }
    assert sales[..|sales|] == sales;
    acc := Record(keys, values);
  }
}
