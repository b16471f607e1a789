# Company-count comparison: a Dafny model

The page `CompanyCompare` lets a user pick two countries and an importance
filter. It fetches the earnings/revenue records of each country from a
financial-data service, one country after the other. It then shows a bar chart
of the two company counts and one table of companies per country.

This project models the logic of that page:

- **Fetcher** (`fetcher.dfy`): `fetchCompanies` keeps a received record only
  if its revenue forecast is truthy and the importance filter is "All" (0) or
  equals the record's importance. It returns `{count, companies}`. The model
  is a pure, order-preserving filter (`Filter`), the fetch step over a
  response that either arrived or failed (`FetchCompanies`), and a
  single-pass loop version (`FilterRecords`).
- **Comparison** (`comparison.dfy`): `handleCompare` is a state transition
  over the busy flag, the per-country counts, the per-country company lists
  and the chart (`Compare`). The two service responses are inputs. The second
  request is issued only after the first succeeds. On success the maps and
  the chart are replaced wholesale. On any failure nothing is committed. The
  busy flag always ends false. `renderCompanyTable` shows a table exactly for
  a country present in the company map (`RenderCompanyTable`).
- **CompanyRecords** (`records.dfy`): the record type, the selector
  constants and the retention predicate.
- **Scenarios** (`scenarios.dfy`): small worked comparisons.

Modelling choices:

- A revenue forecast is `Option<real>`. Truthy means present and nonzero.
- The importance filter is an `int`, where 0 means "All", as the selector's
  "All" option has value 0 and `!importance` holds only for 0.
- A response is `Received(rows)` or `Rejected`. `Rejected` stands for every
  way the call can throw: transport, authentication, or a response of
  unexpected shape.
- The object literal `{[country1]: a, [country2]: b}` is modelled as
  `ObjectLiteral`. When both keys are equal, the later property wins.

## Model

| member | source | states |
|---|---|---|
| CompanyRecords.Truthy | compares-countries/src/components/CompanyCompare.tsx:51-51 | a forecast is truthy exactly when it is neither absent nor zero |
| CompanyRecords.MatchesImportance | compares-countries/src/components/CompanyCompare.tsx:52-52 | filter 0 ("All") admits every record; any other filter admits exactly the records whose importance equals it |
| CompanyRecords.Keep | compares-countries/src/components/CompanyCompare.tsx:50-52 | under "All" a record is kept iff its forecast is truthy; under a specific filter iff its forecast is truthy and its importance equals the filter |
| Fetcher.Filter | compares-countries/src/components/CompanyCompare.tsx:49-53 | every retained record has a truthy forecast and passes the importance filter; never longer than the input |
| Fetcher.FilterSound | compares-countries/src/components/CompanyCompare.tsx:49-53 | every retained record has a truthy forecast; with a specific filter every retained record has exactly that importance |
| Fetcher.FilterIsSubsequence | compares-countries/src/components/CompanyCompare.tsx:49-53 | the result is a subsequence of the received records (order kept, nothing added) |
| Fetcher.FilterMultiplicity | compares-countries/src/components/CompanyCompare.tsx:49-53 | each record occurs in the result as often as in the input when it passes the predicate, otherwise not at all |
| Fetcher.FilterComplete | compares-countries/src/components/CompanyCompare.tsx:49-53 | every input record that passes the predicate appears in the result |
| Fetcher.AllDropsOnlyFalsyForecasts | compares-countries/src/components/CompanyCompare.tsx:51-52 | under "All" no record is dropped for its importance; exactly the falsy-forecast records go |
| Fetcher.FilterKeepsAllWhenAllMatch | compares-countries/src/components/CompanyCompare.tsx:49-53 | when every record passes, the whole array is returned unchanged |
| Fetcher.FilterAppend | compares-countries/src/components/CompanyCompare.tsx:49-53 | filtering a concatenation is the concatenation of the filtered parts |
| Fetcher.FilterIdempotent | compares-countries/src/components/CompanyCompare.tsx:49-53 | filtering twice equals filtering once |
| Fetcher.FilterRefinesAll | compares-countries/src/components/CompanyCompare.tsx:52-52 | a specific importance keeps exactly the importance-matching records of the "All" result, so never more of them |
| Fetcher.FetchCompanies | compares-countries/src/components/CompanyCompare.tsx:45-55 | a failed request yields a failure; a received array yields the filtered records with count equal to their number |
| Fetcher.FilterRecords | compares-countries/src/components/CompanyCompare.tsx:49-53 | a single left-to-right pass appending retained records computes the same list as the filter |
| Comparison.ObjectLiteral | compares-countries/src/components/CompanyCompare.tsx:66-69 | a two-property literal with computed keys has exactly those keys, the later value winning when they coincide |
| Comparison.CountChart | compares-countries/src/components/CompanyCompare.tsx:76-90 | one category label; exactly two series, each with a single value: the first labelled with country 1 and holding its count, the second labelled with country 2 and holding its count |
| Comparison.Commit | compares-countries/src/components/CompanyCompare.tsx:66-90 | busy flag untouched; counts and data keyed by exactly the two countries, holding the second fetch's count and list under country 2 and the first fetch's under country 1 when the countries differ; chart is the two-series count chart; when each count is its list's length, every stored count equals its stored list's length |
| Comparison.Compare | compares-countries/src/components/CompanyCompare.tsx:57-96 | busy flag raised at the start and cleared on every path; second request only after a successful first; on failure the state is untouched; on success counts and data keyed by both countries, the second winning on a tie, and a two-series chart in selector order |
| Comparison.ClickCompare | compares-countries/src/components/CompanyCompare.tsx:190-190 | a click while busy changes nothing; otherwise the page state becomes the final state of one compare run with the current selections, which the click leaves unchanged |
| Comparison.RenderCompanyTable | compares-countries/src/components/CompanyCompare.tsx:98-100 | a table exists exactly for a country present in the company map (even with no companies) and lists its stored companies |
| Comparison.ClickKeepsCoherent | compares-countries/src/components/CompanyCompare.tsx:190-190 | a click keeps the stored results coherent both when it is ignored on a busy page and when it runs a comparison; a click on an idle page leaves it idle |
| Comparison.InitialViewConsistent | compares-countries/src/components/CompanyCompare.tsx:31-36 | the page as first shown (empty counts and data, no chart) is idle and coherent |
| Comparison.CompareKeepsConsistent | compares-countries/src/components/CompanyCompare.tsx:57-96 | a compare run from coherent results ends idle with counts equal to list lengths over the same countries, and the chart's second series, and its first when the countries differ, holding the stored count |
| Comparison.SecondResponseUnusedAfterFirstFails | compares-countries/src/components/CompanyCompare.tsx:62-64 | after a failed first request only one request was issued and the outcome ignores the second response |
| Comparison.SuccessReplacesWholesale | compares-countries/src/components/CompanyCompare.tsx:66-90 | the state after a successful run does not depend on the state before it |
| Comparison.RepeatIsIdempotent | compares-countries/src/components/CompanyCompare.tsx:57-96 | repeating a run against the same responses leaves the state as the first run left it |
| Comparison.SameCountryLastWins | compares-countries/src/components/CompanyCompare.tsx:66-90 | with the same country twice the maps hold one entry with the second fetch's values, while the first chart series holds the first fetch's count |
| Comparison.TablesAfterCompare | compares-countries/src/components/CompanyCompare.tsx:98-100 | after success both countries' tables list their filtered records and no other country has one; after failure every table is as before |
| Scenarios.ImportanceTwoKeepsTwo | compares-countries/src/components/CompanyCompare.tsx:49-54 | importances 1, 2, 2, 3 filtered on 2 give the two importance-2 records and count 2 |
| Scenarios.FalsyForecastsDropped | compares-countries/src/components/CompanyCompare.tsx:51-51 | missing and zero forecasts are dropped under "All"; a negative forecast is kept |
| Scenarios.TwoCountryRun | compares-countries/src/components/CompanyCompare.tsx:57-90 | on the page as first shown (mexico, sweden, "All"), three and five valid records give counts 3 and 5, both lists stored, and two single-bar series valued 3 and 5 |

## Left out

- The HTTP client, URL building, `encodeURIComponent` and the API key: network I/O through an external library. A response is an input.
- The 500 ms pause between the two requests: timing only, with no effect on the results.
- JSX rendering, layout, chart colours, chart library registration and the whole of `App.tsx`: presentation only. A table is modelled as its country and its list of records. The chart keeps its labels and series and drops the colours.
- `toLocaleString` formatting of the forecast in a table cell: locale formatting.
- JavaScript truthiness beyond present-and-nonzero: NaN, string-valued forecasts and string-valued importances are not modelled. Forecasts are reals and importances are integers, compared with strict equality.
- Which error was thrown: it is only logged to the console, so all failures are one `Rejected` case and the log is not modelled.
- Overlapping runs: the button is disabled while busy, and `ClickCompare` models that guard. Renders between React state updates are not modelled. A run is seen through its start state and its final state.
- Selector changes: setting a country or the importance only replaces one field of `Page`. No property is stated about them.
