/** The client's helpers: unit conversion, splitting a list into batches,
    and reading a message out of an Apollo error. */
module ClientHelpers {
  import opened SaleTypes

  /** `secsToMs`: the same duration in milliseconds; dividing back by a
      thousand gives the seconds again. */
  function SecsToMs(secs: real): (ms: real)
    ensures ms / 1000.0 == secs
    ensures secs >= 0.0 ==> ms >= secs
  {
    secs * 1000.0
  }

  // ---------------------------------------------------------------------
  // Batching
  // ---------------------------------------------------------------------

  /** The batches of `s`: consecutive slices of `size` elements, the last
      one possibly shorter; none for an empty input. */
  function Batches<T>(s: seq<T>, size: nat): (r: seq<seq<T>>)
    requires size > 0 || s == []
    ensures s == [] <==> r == []
    decreases |s|
  {
    if s == [] then []
    else if |s| <= size then [s]
    else [s[..size]] + Batches(s[size..], size)
  }

  /** Every batch holds between 1 and `size` elements, and every batch but
      the last holds exactly `size`. */
  lemma {:induction false} BatchesLengths<T>(s: seq<T>, size: nat)
    requires size > 0 || s == []
    ensures forall i :: 0 <= i < |Batches(s, size)| ==> 0 < |Batches(s, size)[i]| <= size
    ensures forall i :: 0 <= i < |Batches(s, size)| - 1 ==> |Batches(s, size)[i]| == size
    decreases |s|
  {
    if |s| > size {
      BatchesLengths(s[size..], size);
      assert Batches(s, size)[1..] == Batches(s[size..], size);
    }
  }

  /** The concatenation of a list of lists. */
  function Flatten<T>(batches: seq<seq<T>>): seq<T>
  {
    if batches == [] then [] else batches[0] + Flatten(batches[1..])
  }

  /** Concatenating the batches gives back the input. */
  lemma {:induction false} BatchesFlatten<T>(s: seq<T>, size: nat)
    requires size > 0 || s == []
    ensures Flatten(Batches(s, size)) == s
    decreases |s|
  {
    if s != [] && |s| > size {
      var r := Batches(s, size);
      assert r[1..] == Batches(s[size..], size);
      BatchesFlatten(s[size..], size);
      assert s == s[..size] + s[size..];
    } else if s != [] {
      assert Batches(s, size)[1..] == [];
    }
  }

  /** There are `ceil(|s| / size)` batches: the least count whose batches
      of `size` can hold the whole input. */
  lemma {:induction false} BatchesCount<T>(s: seq<T>, size: nat)
    requires size > 0
    ensures |Batches(s, size)| * size >= |s|
    ensures s != [] ==> (|Batches(s, size)| - 1) * size < |s|
    decreases |s|
  {
    if |s| > size {
      var k := |Batches(s[size..], size)|;
      BatchesCount(s[size..], size);
      assert |Batches(s, size)| == k + 1;
      assert (k + 1) * size == k * size + size;
      assert k * size == (k - 1) * size + size;
    }
  }

  /** Batches of `size` cover at most `k` batches' worth of input in at most
      `k` batches. */
  lemma {:induction false} BatchesAtMost<T>(s: seq<T>, size: nat, k: nat)
    requires size > 0 && |s| <= k * size
    ensures |Batches(s, size)| <= k
    decreases |s|
  {
    if |s| > size {
      assert k * size == (k - 1) * size + size;
      BatchesAtMost(s[size..], size, k - 1);
    }
  }

  /** Element `j` of batch `i` is element `i * size + j` of the input. */
  lemma {:induction false} BatchesAt<T>(s: seq<T>, size: nat, i: nat, j: nat)
    requires size > 0
    requires i < |Batches(s, size)| && j < |Batches(s, size)[i]|
    ensures i * size + j < |s| && Batches(s, size)[i][j] == s[i * size + j]
    decreases |s|
  {
    if i > 0 {
      assert |s| > size;
      assert Batches(s, size)[i] == Batches(s[size..], size)[i - 1];
      BatchesAt(s[size..], size, i - 1, j);
      assert i * size == (i - 1) * size + size;
    }
  }

  /** Two lists of the same length split into batches of the same shape. */
  lemma {:induction false} BatchesShape<T, U>(a: seq<T>, b: seq<U>, size: nat)
    requires size > 0 && |a| == |b|
    ensures |Batches(a, size)| == |Batches(b, size)|
    ensures forall i :: 0 <= i < |Batches(a, size)| ==> |Batches(a, size)[i]| == |Batches(b, size)[i]|
    decreases |a|
  {
    if |a| > size {
      BatchesShape(a[size..], b[size..], size);
      assert Batches(a, size)[1..] == Batches(a[size..], size);
      assert Batches(b, size)[1..] == Batches(b[size..], size);
    }
  }

  /** The part of `items` from index `i` on; empty past the end. */
  function Suffix<T>(items: seq<T>, i: nat): seq<T>
  {
    if i < |items| then items[i..] else []
  }

  /** One step of the source's loop: the batches from `i` on are the slice
      `items.slice(i, i + size)` followed by the batches from `i + size` on. */
  lemma BatchesStep<T>(items: seq<T>, i: nat, size: nat)
    requires size > 0 && i < |items|
    ensures Batches(Suffix(items, i), size)
         == [items[i..if i + size < |items| then i + size else |items|]] + Batches(Suffix(items, i + size), size)
  {
    assert Suffix(items, i) == items[i..];
    if i + size < |items| {
      assert items[i..][size..] == items[i + size..];
      assert items[i..][..size] == items[i..i + size];
    } else {
      assert Suffix(items, i + size) == [];
      assert items[i..] == items[i..|items|];
    }
  }

  /** `splitIntoBatches`: walk `i` forward by `size`, pushing the slice
      `array.slice(i, i + size)`, which stops at the end of the array. The
      input is a value and is left as it was. With `size` 0 and a non-empty
      input the source never leaves its loop, hence the precondition. */
  method SplitIntoBatches<T>(items: seq<T>, size: nat) returns (result: seq<seq<T>>)
    requires size > 0 || items == []
    ensures result == Batches(items, size)
  {
    result := [];
    var i := 0;
    assert Suffix(items, 0) == items;
    while i < |items|
      invariant result + Batches(Suffix(items, i), size) == Batches(items, size)
      decreases |items| - i
    {
      var end := if i + size < |items| then i + size else |items|;
      BatchesStep(items, i, size);
      result := result + [items[i..end]];
      i := i + size;
    }
    assert Suffix(items, i) == [];
  }

  // ---------------------------------------------------------------------
  // Apollo errors
  // ---------------------------------------------------------------------

  datatype NetworkError = NetworkError(message: string)

  /** A GraphQL error: its message and its optional extensions, whose values
      the client reads as strings. */
  datatype GraphQLError = GraphQLError(message: string, extensions: Option<map<string, string>>)

  /** A partial Apollo error: every part may be missing. */
  datatype ApolloError = ApolloError(networkError: Option<NetworkError>,
                                     graphQLErrors: Option<seq<GraphQLError>>,
                                     message: Option<string>)

  datatype ErrorReport = ErrorReport(id: Option<string>, message: string)

  /** `error.graphQLErrors?.[0]`. */
  function FirstGraphQLError(error: ApolloError): Option<GraphQLError>
  {
    if error.graphQLErrors.Some? && |error.graphQLErrors.value| > 0
    then Some(error.graphQLErrors.value[0]) else None
  }

  /** `graphQLError?.extensions?.[key]`. */
  function Extension(graphQLError: Option<GraphQLError>, key: string): Option<string>
  {
    if graphQLError.Some? && graphQLError.value.extensions.Some? && key in graphQLError.value.extensions.value
    then Some(graphQLError.value.extensions.value[key]) else None
  }

  /** A string operand of `||` is taken when it is defined and non-empty. */
  predicate Truthy(s: Option<string>)
  {
    s.Some? && s.value != ""
  }

  /** The message sources in order of preference: the network error's
      message, the extension named after the query, the first GraphQL
      error's message, the error's own message. */
  function MessageCandidates(error: ApolloError, query: string): seq<Option<string>>
  {
    var first := FirstGraphQLError(error);
    [ if error.networkError.Some? then Some(error.networkError.value.message) else None,
      Extension(first, query),
      if first.Some? then Some(first.value.message) else None,
      error.message ]
  }

  /** The first truthy string of a list, or "" when there is none. */
  function FirstTruthy(candidates: seq<Option<string>>): (r: string)
    ensures r == "" <==> forall i :: 0 <= i < |candidates| ==> !Truthy(candidates[i])
    ensures r != "" ==> exists i :: 0 <= i < |candidates| && Truthy(candidates[i]) && candidates[i].value == r
                                    && forall j :: 0 <= j < i ==> !Truthy(candidates[j])
  {
    if candidates == [] then ""
    else if Truthy(candidates[0]) then candidates[0].value
    else
      var r := FirstTruthy(candidates[1..]);
      assert forall i :: 1 <= i < |candidates| ==> candidates[i] == candidates[1..][i - 1];
      r
  }

  /** The first truthy of four candidates, case by case. */
  lemma FirstTruthyOfFour(a: Option<string>, b: Option<string>, c: Option<string>, d: Option<string>)
    ensures FirstTruthy([a, b, c, d])
         == if Truthy(a) then a.value else if Truthy(b) then b.value
            else if Truthy(c) then c.value else if Truthy(d) then d.value else ""
  {
    assert [a, b, c, d][1..] == [b, c, d];
    assert [b, c, d][1..] == [c, d];
    assert [c, d][1..] == [d];
    assert [d][1..] == [];
    assert FirstTruthy([d]) == if Truthy(d) then d.value else FirstTruthy([]);
    assert FirstTruthy([c, d]) == if Truthy(c) then c.value else FirstTruthy([d]);
    assert FirstTruthy([b, c, d]) == if Truthy(b) then b.value else FirstTruthy([c, d]);
    assert FirstTruthy([a, b, c, d]) == if Truthy(a) then a.value else FirstTruthy([b, c, d]);
  }

  /** `apolloErrorMessage`: the message is the first non-empty source in
      order of preference, else ""; the id is the first GraphQL error's
      `extensions.id`, whichever message was chosen. */
  function ApolloErrorMessage(error: ApolloError, query: string): (r: ErrorReport)
    ensures r.message == FirstTruthy(MessageCandidates(error, query))
    ensures r.id == Extension(FirstGraphQLError(error), "id")
  {
    var first := FirstGraphQLError(error);
    var networkErrorMessage := if error.networkError.Some? then Some(error.networkError.value.message) else None;
    var graphQLErrorMessage := if first.Some? then Some(first.value.message) else None;
    var fromQuery := Extension(first, query);
    var message :=
      if Truthy(networkErrorMessage) then networkErrorMessage.value
      else if Truthy(fromQuery) then fromQuery.value
      else if Truthy(graphQLErrorMessage) then graphQLErrorMessage.value
      else if Truthy(error.message) then error.message.value
      else "";
    FirstTruthyOfFour(networkErrorMessage, fromQuery, graphQLErrorMessage, error.message);
    ErrorReport(Extension(first, "id"), message)
  }
}
