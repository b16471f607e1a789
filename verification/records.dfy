/**
 This module holds the data the comparison page works on: the earnings/revenue
 records returned by the financial-data service, the importance filter chosen
 on the page, and the retention predicate applied to every record.
 */
module CompanyRecords {

  datatype Option<+T> = None | Some(value: T)

  /** One earnings/revenue record. The revenue forecast may be absent from the
      response; every other field is taken as present. Monetary values are
      modelled as reals (no rounding, no NaN). */
  datatype Company = Company(
    symbol: string,
    name: string,
    revenueForecast: Option<real>,
    currency: string,
    importance: int
  )

  /** The filter value meaning "All" on the importance selector. */
  const AllImportance: int := 0

  /** The countries offered by the two selectors. */
  const Countries: seq<string> := ["mexico", "sweden", "new zealand", "thailand"]

  /** A revenue forecast is truthy when present and nonzero: the two falsy
      values a forecast can take are an absent field and zero. */
  predicate Truthy(forecast: Option<real>)
    ensures Truthy(forecast) <==> forecast !in {None, Some(0.0)}
  {
    forecast.Some? && forecast.value != 0.0
  }

  /** The importance filter admits a record when the filter is "All" (zero,
      hence falsy) or equals the record's importance. */
  predicate MatchesImportance(c: Company, importance: int)
    ensures importance == AllImportance ==> MatchesImportance(c, importance)
    ensures importance != AllImportance ==> (MatchesImportance(c, importance) <==> c.importance == importance)
  {
    importance == AllImportance || c.importance == importance
  }

  /** A record is retained when its forecast is truthy and the filter admits it. */
  predicate Keep(c: Company, importance: int)
    ensures importance == AllImportance ==> (Keep(c, importance) <==> Truthy(c.revenueForecast))
    ensures importance != AllImportance ==>
      (Keep(c, importance) <==> Truthy(c.revenueForecast) && c.importance == importance)
  {
    Truthy(c.revenueForecast) && MatchesImportance(c, importance)
  }
}
