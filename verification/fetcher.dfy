/**
 The data fetcher of the comparison page: given the records the service sent
 back for one country and the importance filter, keep the records with a
 truthy revenue forecast that the filter admits, in the order received, and
 report how many were kept. The request itself is not modelled: its outcome
 is an input.
 */
module Fetcher {
  import opened CompanyRecords

  /** What the service call produced: the decoded array of records, or a
      failure of any kind (transport, authentication, unexpected shape). */
  datatype Response = Received(rows: seq<Company>) | Rejected

  /** The `{count, companies}` pair handed back to the comparison step. */
  datatype FetchResult = FetchResult(count: nat, companies: seq<Company>)

  /** A fetch either yields a result or throws. */
  datatype Outcome = Fetched(result: FetchResult) | Failed

  /** The retained records of `rows`, in their original order. */
  function Filter(rows: seq<Company>, importance: int): (kept: seq<Company>)
    ensures |kept| <= |rows|
    ensures forall k :: 0 <= k < |kept| ==> Keep(kept[k], importance)
    decreases |rows|
  {
    if |rows| == 0 then []
    else if Keep(rows[0], importance) then [rows[0]] + Filter(rows[1..], importance)
    else Filter(rows[1..], importance)
  }

  /** `a` can be obtained from `b` by deleting elements, without reordering. */
  predicate IsSubsequence<T(==)>(a: seq<T>, b: seq<T>)
    decreases |b|
  {
    if |a| == 0 then true
    else if |b| == 0 then false
    else (a[0] == b[0] && IsSubsequence(a[1..], b[1..])) || IsSubsequence(a, b[1..])
  }

  /** Every retained record carries a truthy forecast, and under a specific
      importance filter every retained record has exactly that importance.
      A convenience form of the postcondition of `Filter`, stated with
      membership rather than indices. */
  lemma FilterSound(rows: seq<Company>, importance: int)
    ensures forall c :: c in Filter(rows, importance) ==> Truthy(c.revenueForecast)
    ensures importance != AllImportance ==>
      forall c :: c in Filter(rows, importance) ==> c.importance == importance
  {
  }

  /** The filter only deletes records: the result is a subsequence of the input. */
  lemma {:induction false} FilterIsSubsequence(rows: seq<Company>, importance: int)
    ensures IsSubsequence(Filter(rows, importance), rows)
    decreases |rows|
  {
    if |rows| > 0 {
      FilterIsSubsequence(rows[1..], importance);
      var kept := Filter(rows, importance);
      if Keep(rows[0], importance) {
        assert kept[0] == rows[0] && kept[1..] == Filter(rows[1..], importance);
      } else if |kept| > 0 {
        assert IsSubsequence(kept, rows[1..]);
      }
    }
  }

  /** The filter deletes exactly the records that fail the predicate: each
      record occurs in the result as often as in the input if it is retained,
      and not at all otherwise. */
  lemma {:induction false} FilterMultiplicity(rows: seq<Company>, importance: int)
    ensures forall c :: multiset(Filter(rows, importance))[c] ==
                        (if Keep(c, importance) then multiset(rows)[c] else 0)
    decreases |rows|
  {
    if |rows| > 0 {
      FilterMultiplicity(rows[1..], importance);
      assert rows == [rows[0]] + rows[1..];
      assert multiset(rows) == multiset([rows[0]]) + multiset(rows[1..]);
    }
  }

  /** Every input record that satisfies the predicate appears in the result.
      A convenience form of `FilterMultiplicity`. */
  lemma FilterComplete(rows: seq<Company>, importance: int)
    ensures forall i :: 0 <= i < |rows| && Keep(rows[i], importance) ==>
      rows[i] in Filter(rows, importance)
  {
    FilterMultiplicity(rows, importance);
  }

  /** Under "All" no record is dropped for its importance: exactly the records
      with a falsy forecast are removed. */
  lemma AllDropsOnlyFalsyForecasts(rows: seq<Company>)
    ensures forall c :: multiset(Filter(rows, AllImportance))[c] ==
                        (if Truthy(c.revenueForecast) then multiset(rows)[c] else 0)
  {
    FilterMultiplicity(rows, AllImportance);
  }

  /** Filtering distributes over concatenation of the received records. */
  lemma {:induction false} FilterAppend(a: seq<Company>, b: seq<Company>, importance: int)
    ensures Filter(a + b, importance) == Filter(a, importance) + Filter(b, importance)
    decreases |a|
  {
    if |a| > 0 {
      assert (a + b)[0] == a[0];
      assert (a + b)[1..] == a[1..] + b;
      FilterAppend(a[1..], b, importance);
    } else {
      assert a + b == b;
    }
  }

  /** When every received record passes, the result is the whole array. */
  lemma {:induction false} FilterKeepsAllWhenAllMatch(rows: seq<Company>, importance: int)
    requires forall i :: 0 <= i < |rows| ==> Keep(rows[i], importance)
    ensures Filter(rows, importance) == rows
    decreases |rows|
  {
    if |rows| > 0 {
      FilterKeepsAllWhenAllMatch(rows[1..], importance);
      assert rows == [rows[0]] + rows[1..];
    }
  }

  /** Filtering an already filtered list changes nothing. */
  lemma {:induction false} FilterIdempotent(rows: seq<Company>, importance: int)
    ensures Filter(Filter(rows, importance), importance) == Filter(rows, importance)
    decreases |rows|
  {
    if |rows| > 0 {
      FilterIdempotent(rows[1..], importance);
      if Keep(rows[0], importance) {
        var kept := Filter(rows, importance);
        assert kept[0] == rows[0] && kept[1..] == Filter(rows[1..], importance);
      }
    }
  }

  /** A specific importance filter keeps exactly the records of the "All"
      result that have that importance, so it never keeps more. */
  lemma {:induction false} FilterRefinesAll(rows: seq<Company>, importance: int)
    ensures Filter(rows, importance) == Filter(Filter(rows, AllImportance), importance)
    ensures |Filter(rows, importance)| <= |Filter(rows, AllImportance)|
    decreases |rows|
  {
    if |rows| > 0 {
      FilterRefinesAll(rows[1..], importance);
      var all := Filter(rows, AllImportance);
      if Keep(rows[0], AllImportance) {
        assert all[0] == rows[0] && all[1..] == Filter(rows[1..], AllImportance);
      }
    }
  }

  /** The fetch step applied to the service's answer: a failed request throws;
      a received array yields the filtered records and their number. */
  function FetchCompanies(response: Response, importance: int): (o: Outcome)
    ensures o.Fetched? <==> response.Received?
    ensures o.Fetched? ==> o.result.count == |o.result.companies|
    ensures o.Fetched? ==> o.result.companies == Filter(response.rows, importance)
  {
    match response
    case Rejected => Failed
    case Received(rows) =>
      var kept := Filter(rows, importance);
      Fetched(FetchResult(|kept|, kept))
  }

  /** The filter as a single pass over the received array, appending each
      retained record in turn. */
  method FilterRecords(rows: seq<Company>, importance: int) returns (kept: seq<Company>)
    ensures kept == Filter(rows, importance)
  {
    kept := [];
    var i := 0;
    while i < |rows|
      invariant 0 <= i <= |rows|
      invariant kept == Filter(rows[..i], importance)
    {
      FilterAppend(rows[..i], [rows[i]], importance);
      assert rows[..i + 1] == rows[..i] + [rows[i]];
      if Keep(rows[i], importance) {
        kept := kept + [rows[i]];
      }
      i := i + 1;
    }
    assert rows[..i] == rows;
  }
}
