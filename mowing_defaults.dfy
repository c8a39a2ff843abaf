/** The shape of a mowing table and its shared constants: the six mower decks
    (three deck widths in two areas), the small-power rows, and the default
    record a new table starts from. */
module MowingDefaults {
  import opened Js

  /** What `computeTotals` returns and a save stores under `totals`. */
  datatype MowingTotals = MowingTotals(
    totalHours: real,
    totalAcres: real,
    totalOcc: real,
    adjDollar: real,
    final: real,
    rowTotals: map<string, real>)

  /** One mowing table. `manualOverrides` distinguishes a key with no entry
      (undefined) from a key whose entry is null (`None`, "use the computed
      hours") and from a typed override (`Some`). `name` is `None` when the
      saved table has none, as the `{ id, data: {} }` entries of a new table do;
      `totals` is `None` for `{}`. */
  datatype MowingData = MowingData(
    name: Option<string>,
    selectedEfficiency: map<string, string>,
    acres: map<string, real>,
    qtyUnit: map<string, real>,
    manualOverrides: map<string, Num>,
    summary: map<string, real>,
    totals: Option<MowingTotals>)

  /** Efficiency tiers offered for the decks. */
  const EfficiencyOptions: seq<string> :=
    ["OBSTACLES", "HOA_HOMES", "AVERAGE", "OPEN_LAWN", "FIELDS", "MONTHLY", "DOUBLE_CUT"]

  /** Efficiency tiers offered for the trimmer and blower. */
  const SmPwrEfficiencyOptions: seq<string> :=
    ["MINIMUM", "LESS", "AVERAGE", "HOA_HOMES", "HIGH_END_DETAILING"]

  /** The deck widths, in inches, and the two mowing areas. */
  const DeckSizes: seq<string> := ["72", "60", "48"]
  const DeckAreas: seq<string> := ["area1", "area2"]

  /** The deck keys, "size-areaN", widest deck first. */
  function DeckKeys(): (r: seq<string>)
    ensures |r| == |DeckSizes| * |DeckAreas|
    ensures forall i | 0 <= i < |r| :: r[i] == DeckSizes[i / 2] + "-" + DeckAreas[i % 2]
  {
    ["72-area1", "72-area2", "60-area1", "60-area2", "48-area1", "48-area2"]
  }

  const SmPwrKeys: seq<string> := ["TRIMMER", "BLOWER"]
  const RotaryKey: string := "ROTARY"

  /** The dollar rows in display order. */
  function DisplayKeys(): (r: seq<string>)
    ensures |r| == 11
    ensures r[0] == "MISC_HRS" && r[1..7] == DeckKeys() && r[7..9] == SmPwrKeys
    ensures r[9] == RotaryKey && r[10] == "5111"
  {
    ["MISC_HRS"] + DeckKeys() + SmPwrKeys + [RotaryKey, "5111"]
  }

  /** The deck keys as a set. */
  function DeckKeySet(): (r: set<string>)
    ensures forall k :: k in r <==> k in DeckKeys()
  {
    {"72-area1", "72-area2", "60-area1", "60-area2", "48-area1", "48-area2"}
  }

  /** Every deck, the trimmer and the blower start at the AVERAGE tier. */
  function InitialEfficiency(): (m: map<string, string>)
    ensures m.Keys == DeckKeySet() + {"TRIMMER", "BLOWER"}
    ensures forall k | k in m :: m[k] == "AVERAGE"
  {
    var keys := DeckKeySet() + {"TRIMMER", "BLOWER"};
    map k | k in keys :: "AVERAGE"
  }

  /** No acreage yet on any deck, the small-power rows or the rotary mower. */
  function InitialAcres(): (m: map<string, real>)
    ensures m.Keys == DeckKeySet() + {"TRIMMER", "BLOWER", "ROTARY"}
    ensures forall k | k in m :: m[k] == 0.0
  {
    var keys := DeckKeySet() + {"TRIMMER", "BLOWER", "ROTARY"};
    map k | k in keys :: 0.0
  }

  /** No hours yet on any dollar row. */
  function InitialQtyUnit(): (m: map<string, real>)
    ensures m.Keys == DeckKeySet() + {"MISC_HRS", "TRIMMER", "BLOWER", "ROTARY", "5111"}
    ensures forall k | k in m :: m[k] == 0.0
  {
    var keys := DeckKeySet() + {"MISC_HRS", "TRIMMER", "BLOWER", "ROTARY", "5111"};
    map k | k in keys :: 0.0
  }

  /** The default `qtyUnit` has a row for every displayed dollar row. */
  lemma DisplayKeysHaveQty(i: nat)
    requires i < |DisplayKeys()|
    ensures DisplayKeys()[i] in InitialQtyUnit()
  {
    if 1 <= i < 7 {
      assert DisplayKeys()[i] == DeckKeys()[i - 1];
    }
  }

  /** The "5111" row of a new table has hours but no acreage, and no hours yet. */
  lemma InitialRow5111()
    ensures "5111" in InitialQtyUnit() && InitialQtyUnit()["5111"] == 0.0
    ensures "5111" !in InitialAcres()
  {
    assert "5111" !in DeckKeySet();
  }

  /** Every deck starts with a null override, so its hours are computed. */
  function InitialOverrides(): (m: map<string, Num>)
    ensures m.Keys == DeckKeySet()
    ensures forall k | k in m :: m[k] == None
  {
    map k | k in DeckKeySet() :: None
  }

  /** No adjustment, one occurrence. */
  function InitialSummary(): (m: map<string, real>)
    ensures m.Keys == {"adjPercent", "numOccurrences"}
    ensures m["adjPercent"] == 0.0 && m["numOccurrences"] == 1.0
  {
    map["adjPercent" := 0.0, "numOccurrences" := 1.0]
  }

  /** The record a new mowing table starts from. */
  function InitialMowingData(): (d: MowingData)
    ensures d.name == Some("Mowing Area")
    ensures forall k | k in DeckKeySet() ::
      && k in d.acres && k in d.manualOverrides && d.manualOverrides[k].None?
      && k in d.selectedEfficiency && d.selectedEfficiency[k] in EfficiencyOptions
    ensures forall k | k in SmPwrKeys ::
      k in d.selectedEfficiency && d.selectedEfficiency[k] in SmPwrEfficiencyOptions
    ensures forall k | k in d.acres && k !in DeckKeySet() :: k !in d.manualOverrides
    ensures forall k | k in d.acres :: k in d.qtyUnit
    ensures d.totals.None?
  {
    MowingData(
      Some("Mowing Area"),
      InitialEfficiency(),
      InitialAcres(),
      InitialQtyUnit(),
      InitialOverrides(),
      InitialSummary(),
      None)
  }

  /** The data of a table created with nothing in it: `{}`. */
  function EmptyMowingData(): MowingData
  {
    MowingData(None, map[], map[], map[], map[], map[], None)
  }
}
