/** The defaults of a spring-services table: six hour columns and their prices. */
module SpringDefaults {
  import opened Js

  /** The hour columns a spring-services table totals, in order. */
  const SpringKeys: seq<string> := ["MISC", "HAND", "EDGER", "BLOWER", "LEAF_TRUCK", "TRUCKSTER"]

  /** One spring-services table; each stored value is held as the number
      JavaScript reads from it (`None` for NaN). */
  datatype SpringTable = SpringTable(
    name: string,
    occurrences: Num,
    qty: map<string, Num>,
    unitPrice: map<string, Num>,
    summary: map<string, real>)

  /** The default hourly price of each spring-services column. */
  function SpringDefaultRates(): (r: map<string, real>)
    ensures r.Keys == set k | k in SpringKeys
    ensures forall k | k in r :: r[k] > 0.0
  {
    map["MISC" := 51.0, "HAND" := 51.0, "EDGER" := 55.0, "BLOWER" := 55.0, "LEAF_TRUCK" := 85.0, "TRUCKSTER" := 71.0]
  }

  /** The record a new spring-services table starts from; its prices are a
      copy of the default rates. */
  function InitialSpringTable(): (t: SpringTable)
    ensures t.qty.Keys == set k | k in SpringKeys
    ensures forall k | k in t.qty :: t.qty[k] == Some(0.0)
    ensures t.unitPrice.Keys == t.qty.Keys
    ensures t.occurrences == Some(0.0)
    ensures forall f | f in t.summary :: t.summary[f] == 0.0
  {
    SpringTable("", Some(0.0),
      map["MISC" := Some(0.0), "HAND" := Some(0.0), "EDGER" := Some(0.0),
          "BLOWER" := Some(0.0), "LEAF_TRUCK" := Some(0.0), "TRUCKSTER" := Some(0.0)],
      AsNums(SpringDefaultRates()),
      map["hoursPerOcc" := 0.0, "dollarsPerOcc" := 0.0, "totalHours" := 0.0, "totalDollars" := 0.0])
  }
}
