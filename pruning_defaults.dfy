/** The defaults of a pruning table: five hour columns and their prices. */
module PruningDefaults {
  import opened Js

  /** The hour columns a pruning table totals, in order. */
  const PruningKeys: seq<string> := ["MISC", "HAND", "SHEARS", "CLEANUP", "CHAINSAW"]

  /** One pruning table. Each quantity, price and the occurrence count is
      held as the number `Number(...)` reads from it (`None` for NaN). */
  datatype PruningTable = PruningTable(
    name: string,
    occurrences: Num,
    qty: map<string, Num>,
    unitPrice: map<string, Num>,
    summary: map<string, real>)

  /** The default hourly price of each pruning column. */
  function DefaultPruningRates(): (r: map<string, real>)
    ensures r.Keys == set k | k in PruningKeys
    ensures forall k | k in r :: r[k] > 0.0
  {
    map["MISC" := 51.0, "HAND" := 51.0, "SHEARS" := 55.0, "CLEANUP" := 51.0, "CHAINSAW" := 62.0]
  }

  /** The record a new pruning table starts from. */
  function InitialPruningTable(): (t: PruningTable)
    ensures t.qty.Keys == set k | k in PruningKeys
    ensures forall k | k in t.qty :: t.qty[k] == Some(0.0)
    ensures t.unitPrice == AsNums(DefaultPruningRates())
    ensures t.occurrences == Some(0.0)
    ensures forall f | f in t.summary :: t.summary[f] == 0.0
  {
    assert map["MISC" := Some(51.0), "HAND" := Some(51.0), "SHEARS" := Some(55.0), "CLEANUP" := Some(51.0), "CHAINSAW" := Some(62.0)].Keys
      == AsNums(DefaultPruningRates()).Keys;
    PruningTable("", Some(0.0),
      map["MISC" := Some(0.0), "HAND" := Some(0.0), "SHEARS" := Some(0.0), "CLEANUP" := Some(0.0), "CHAINSAW" := Some(0.0)],
      map["MISC" := Some(51.0), "HAND" := Some(51.0), "SHEARS" := Some(55.0), "CLEANUP" := Some(51.0), "CHAINSAW" := Some(62.0)],
      map["hoursPerOcc" := 0.0, "dollarsPerOcc" := 0.0, "totalHours" := 0.0, "totalDollars" := 0.0])
  }
}
