/**
 Worked comparisons on small concrete inputs: a specific importance filter
 over mixed importances, and a full two-country run.
 */
module Scenarios {
  import opened CompanyRecords
  import opened Fetcher
  import opened Comparison

  /** A test record whose name is its symbol. */
  function Rec(symbol: string, forecast: Option<real>, importance: int): (c: Company)
  {
    Company(symbol, symbol, forecast, "USD", importance)
  }

  /** Records of importance 1, 2, 2 and 3 filtered on importance 2 leave the
      two importance-2 records, in order, and a count of 2. */
  lemma ImportanceTwoKeepsTwo()
    ensures var rows := [Rec("A", Some(1.0), 1), Rec("B", Some(2.0), 2),
                         Rec("C", Some(3.0), 2), Rec("D", Some(4.0), 3)];
            FetchCompanies(Received(rows), 2)
              == Fetched(FetchResult(2, [Rec("B", Some(2.0), 2), Rec("C", Some(3.0), 2)]))
  {
  }

  /** Records with a missing or zero forecast are dropped even under "All". */
  lemma FalsyForecastsDropped()
    ensures var rows := [Rec("A", None, 1), Rec("B", Some(0.0), 2), Rec("C", Some(-5.0), 3)];
            Filter(rows, AllImportance) == [Rec("C", Some(-5.0), 3)]
  {
  }

  /** On the page as first shown (first two countries, importance "All"),
      three valid records for the first country and five for the second give
      counts 3 and 5 and two single-bar series valued 3 and 5. */
  lemma TwoCountryRun(mexico: seq<Company>, sweden: seq<Company>)
    requires |mexico| == 3 && |sweden| == 5
    requires forall i :: 0 <= i < |mexico| ==> Truthy(mexico[i].revenueForecast)
    requires forall i :: 0 <= i < |sweden| ==> Truthy(sweden[i].revenueForecast)
    ensures var p := ClickCompare(InitialPage, Received(mexico), Received(sweden));
            && p.country1 == "mexico" && p.country2 == "sweden"
            && p.view.counts == map["mexico" := 3, "sweden" := 5]
            && p.view.data == map["mexico" := mexico, "sweden" := sweden]
            && p.view.chart == Some(Chart([CountLabel], [Dataset("mexico", [3]), Dataset("sweden", [5])]))
            && !p.view.loading
  {
    FilterKeepsAllWhenAllMatch(mexico, AllImportance);
    FilterKeepsAllWhenAllMatch(sweden, AllImportance);
    var v := ClickCompare(InitialPage, Received(mexico), Received(sweden)).view;
    assert "mexico" != "sweden";
    assert v.counts.Keys == {"mexico", "sweden"};
  }
}
