/**
 The comparison controller: the state the page keeps (busy flag, per-country
 counts, per-country company lists, chart data), the compare step that fetches
 both countries one after the other and commits the results, and the table
 projection of the stored company lists.
 */
module Comparison {
  import opened CompanyRecords
  import opened Fetcher

  /** One bar series of the chart: its legend label and its values. */
  datatype Dataset = Dataset(legend: string, data: seq<nat>)

  /** The chart data: category labels along the axis and the bar series. */
  datatype Chart = Chart(labels: seq<string>, datasets: seq<Dataset>)

  /** The page state a comparison reads and writes. */
  datatype View = View(
    loading: bool,
    counts: map<string, nat>,
    data: map<string, seq<Company>>,
    chart: Option<Chart>
  )

  /** The page state together with the current selector values. */
  datatype Page = Page(country1: string, country2: string, importance: int, view: View)

  /** One comparison run: the state right after the busy flag is raised, the
      countries for which a request was issued (in order), and the state after
      the busy flag is cleared. */
  datatype Run = Run(started: View, requested: seq<string>, final: View)

  /** A company table: its heading country and one row per company. */
  datatype Table = Table(country: string, rows: seq<Company>)

  /** The single category label of the bar chart. */
  const CountLabel: string := "Company Count"

  /** Nothing fetched yet: no counts, no data, no chart, not busy. */
  const InitialView: View := View(false, map[], map[], None)

  /** The page as first shown: the first two countries, importance "All". */
  const InitialPage: Page := Page(Countries[0], Countries[1], AllImportance, InitialView)

  /** An object literal `{[k1]: v1, [k2]: v2}` with computed keys: when the two
      keys coincide the later property overwrites the earlier one. */
  function ObjectLiteral<V>(k1: string, v1: V, k2: string, v2: V): (m: map<string, V>)
    ensures m.Keys == {k1, k2}
    ensures m[k2] == v2
    ensures k1 != k2 ==> m[k1] == v1
  {
    map[k1 := v1][k2 := v2]
  }

  /** The chart built from two fetch results: one series per country, in
      selector order, each holding that country's count. */
  function CountChart(country1: string, first: FetchResult, country2: string, second: FetchResult): (ch: Chart)
    ensures ch.labels == [CountLabel]
    ensures |ch.datasets| == 2
    ensures forall i :: 0 <= i < |ch.datasets| ==> |ch.datasets[i].data| == 1
    ensures ch.datasets[0].legend == country1 && ch.datasets[0].data[0] == first.count
    ensures ch.datasets[1].legend == country2 && ch.datasets[1].data[0] == second.count
  {
    Chart([CountLabel], [Dataset(country1, [first.count]), Dataset(country2, [second.count])])
  }

  /** The state written when both fetches succeed; counts, data and chart are
      replaced as a whole and nothing is merged with the previous values. */
  function Commit(v: View, country1: string, first: FetchResult, country2: string, second: FetchResult): (v': View)
    ensures v'.loading == v.loading
    ensures v'.counts.Keys == v'.data.Keys == {country1, country2}
    ensures v'.counts[country2] == second.count && v'.data[country2] == second.companies
    ensures country1 != country2 ==> v'.counts[country1] == first.count && v'.data[country1] == first.companies
    ensures v'.chart == Some(CountChart(country1, first, country2, second))
    ensures first.count == |first.companies| && second.count == |second.companies| ==>
      forall k :: k in v'.counts ==> v'.counts[k] == |v'.data[k]|
  {
    v.(counts := ObjectLiteral(country1, first.count, country2, second.count),
       data := ObjectLiteral(country1, first.companies, country2, second.companies),
       chart := Some(CountChart(country1, first, country2, second)))
  }

  /** The compare step. The first request is for `country1`; only if it
      succeeds is the second request, for `country2`, issued. Both responses
      are inputs; `response2` stands for whatever the second request would
      return. On any failure the stored state is left as it was; on every path
      the busy flag is cleared at the end. */
  function Compare(s: View, country1: string, country2: string, importance: int,
                   response1: Response, response2: Response): (run: Run)
    ensures run.started == s.(loading := true)
    ensures !run.final.loading
    ensures run.requested == if response1.Received? then [country1, country2] else [country1]
    ensures response1.Rejected? || response2.Rejected? ==> run.final == s.(loading := false)
    ensures response1.Received? && response2.Received? ==>
      var kept1 := Filter(response1.rows, importance);
      var kept2 := Filter(response2.rows, importance);
      && run.final.counts.Keys == {country1, country2}
      && run.final.data.Keys == {country1, country2}
      && run.final.counts[country2] == |kept2|
      && run.final.data[country2] == kept2
      && (country1 != country2 ==> run.final.counts[country1] == |kept1| && run.final.data[country1] == kept1)
      && run.final.chart == Some(Chart([CountLabel], [Dataset(country1, [|kept1|]), Dataset(country2, [|kept2|])]))
  {
    var started := s.(loading := true);
    var first := FetchCompanies(response1, importance);
    if first.Failed? then
      Run(started, [country1], started.(loading := false))
    else
      var second := FetchCompanies(response2, importance);
      if second.Failed? then
        Run(started, [country1, country2], started.(loading := false))
      else
        Run(started, [country1, country2],
            Commit(started, country1, first.result, country2, second.result).(loading := false))
  }

  /** A click on the Compare button: ignored while a run is in flight (the
      button is disabled), otherwise a run with the current selections. */
  function ClickCompare(p: Page, response1: Response, response2: Response): (p': Page)
    ensures p'.country1 == p.country1 && p'.country2 == p.country2 && p'.importance == p.importance
    ensures p.view.loading ==> p' == p
    ensures !p.view.loading ==>
      p'.view == Compare(p.view, p.country1, p.country2, p.importance, response1, response2).final
  {
    if p.view.loading then p
    else p.(view := Compare(p.view, p.country1, p.country2, p.importance, response1, response2).final)
  }

  /** The table for one country: shown exactly when the stored data has an
      entry for that country, even an empty list, and then listing exactly
      the stored companies. */
  function RenderCompanyTable(v: View, country: string): (t: Option<Table>)
    ensures t.Some? <==> country in v.data
    ensures t.Some? ==> t.value.country == country && t.value.rows == v.data[country]
  {
    if country in v.data then Some(Table(country, v.data[country])) else None
  }

  /** The stored results agree with each other: counts and data have the
      same countries, each count being the length of that country's list; and
      the chart, once drawn, has two series labelled with stored countries, the
      second holding its country's stored count and the first too when the
      two labels differ. */
  predicate Coherent(v: View)
  {
    && v.counts.Keys == v.data.Keys
    && (forall k :: k in v.counts ==> v.counts[k] == |v.data[k]|)
    && (v.chart.Some? ==>
          var ds := v.chart.value.datasets;
          && v.chart.value.labels == [CountLabel]
          && |ds| == 2
          && v.counts.Keys == {ds[0].legend, ds[1].legend}
          && ds[1].data == [v.counts[ds[1].legend]]
          && (ds[0].legend != ds[1].legend ==> ds[0].data == [v.counts[ds[0].legend]]))
  }

  /** The state at rest: not busy, with coherent stored results. */
  predicate Consistent(v: View)
  {
    !v.loading && Coherent(v)
  }

  /** The page as first shown is at rest and coherent. */
  lemma InitialViewConsistent()
    ensures Consistent(InitialView)
    ensures Consistent(InitialPage.view)
  {
  }

  /** Every compare step started from coherent results ends at rest with
      coherent results. */
  lemma CompareKeepsConsistent(s: View, country1: string, country2: string, importance: int,
                               response1: Response, response2: Response)
    ensures Coherent(s) ==> Consistent(Compare(s, country1, country2, importance, response1, response2).final)
  {
  }

  /** Clicking Compare keeps the stored results coherent, whether the click
      is ignored because a run is in flight or starts a run; a click on an
      idle page leaves it idle. */
  lemma ClickKeepsCoherent(p: Page, response1: Response, response2: Response)
    requires Coherent(p.view)
    ensures Coherent(ClickCompare(p, response1, response2).view)
    ensures !p.view.loading ==> Consistent(ClickCompare(p, response1, response2).view)
  {
  }

  /** Once the first request fails, the second is never issued: the run does
      not depend on what the second response would have been. */
  lemma SecondResponseUnusedAfterFirstFails(s: View, country1: string, country2: string, importance: int,
                                            response2: Response, other: Response)
    ensures Compare(s, country1, country2, importance, Rejected, response2)
         == Compare(s, country1, country2, importance, Rejected, other)
    ensures Compare(s, country1, country2, importance, Rejected, response2).requested == [country1]
  {
  }

  /** A successful run replaces the stored results wholesale: its final state
      does not depend on the state it started from. */
  lemma SuccessReplacesWholesale(s: View, t: View, country1: string, country2: string, importance: int,
                               response1: Response, response2: Response)
    requires response1.Received? && response2.Received?
    ensures Compare(s, country1, country2, importance, response1, response2).final
         == Compare(t, country1, country2, importance, response1, response2).final
  {
  }

  /** Repeating a comparison against unchanged responses reproduces the same
      counts, tables and chart. */
  lemma RepeatIsIdempotent(s: View, country1: string, country2: string, importance: int,
                           response1: Response, response2: Response)
    ensures var once := Compare(s, country1, country2, importance, response1, response2).final;
            Compare(once, country1, country2, importance, response1, response2).final == once
  {
  }

  /** Choosing the same country twice leaves a single entry, holding the
      second fetch's count and companies, while the chart still shows two
      series, the first from the first fetch. */
  lemma SameCountryLastWins(s: View, country: string, importance: int, response1: Response, response2: Response)
    requires response1.Received? && response2.Received?
    ensures var v := Compare(s, country, country, importance, response1, response2).final;
            var kept2 := Filter(response2.rows, importance);
            && v.counts == map[country := |kept2|]
            && v.data == map[country := kept2]
            && v.chart.value.datasets[0].data == [|Filter(response1.rows, importance)|]
  {
  }

  /** After a successful run both tables are shown, each listing exactly the
      filtered records of its country (the second country's when both are
      the same); after a failed run every table is as it was before. */
  lemma TablesAfterCompare(s: View, country1: string, country2: string, importance: int,
                           response1: Response, response2: Response, country: string)
    ensures var v := Compare(s, country1, country2, importance, response1, response2).final;
            response1.Received? && response2.Received? ==>
              && RenderCompanyTable(v, country2) == Some(Table(country2, Filter(response2.rows, importance)))
              && (country1 != country2 ==>
                    RenderCompanyTable(v, country1) == Some(Table(country1, Filter(response1.rows, importance))))
              && (country != country1 && country != country2 ==> RenderCompanyTable(v, country) == None)
    ensures var v := Compare(s, country1, country2, importance, response1, response2).final;
            response1.Rejected? || response2.Rejected? ==>
              RenderCompanyTable(v, country) == RenderCompanyTable(s, country)
  {
  }
}
