/** The shape of a mulching table and its defaults: three common areas, three
    home rows, small-power and loader blocks for each side, and the default
    rate catalog. */
module MulchingDefaults {
  import opened Js

  /** One common-area row. Every field may be missing from a saved row
      (`None`); the text fields hold what the user picked or typed. An
      override is `None` when it is null, missing or was typed as NaN. */
  datatype Area = Area(
    sqft: Option<Input>,
    efficiency: Option<string>,
    depth: Option<string>,
    proximity: Option<string>,
    hoursOverride: Num,
    mulchOverride: Num)

  /** One row of identical homes: square feet per home and the number of homes. */
  datatype Home = Home(
    sqftEach: Option<Input>,
    count: Option<Input>,
    efficiency: Option<string>,
    depth: Option<string>,
    proximity: Option<string>,
    hoursOverride: Num,
    mulchOverride: Num)

  /** A small-power or loader block: the production tier and an hours override. */
  datatype Block = Block(selection: Option<string>, hoursOverride: Num)

  /** One mulching table. A saved table may lack rows or fields: a missing
      row map reads as `{}`, a missing block as a block with no fields. */
  datatype MulchingData = MulchingData(
    summary: map<string, real>,
    handCommonAreas: map<string, Area>,
    handHomes: map<string, Home>,
    smPwrCommon: Block,
    loaderCommon: Block,
    smPwrHomes: Block,
    loaderHomes: Block)

  /** The table as stored for an id that has no data yet: `{}`. */
  function EmptyMulchingData(): MulchingData
  {
    var none := Block(None, None);
    MulchingData(map[], map[], map[], none, none, none, none)
  }

  /** The row keys the screen shows and totals. */
  const CommonAreaKeys: seq<string> := ["area1", "area2", "area3"]
  const HomeKeys: seq<string> := ["home1", "home2", "home3"]

  /** A new common area: no square feet yet, Average, 2", Close, no overrides. */
  function InitialArea(): (a: Area)
    ensures AreaComplete(a) && a.sqft == Some(Blank)
    ensures a.hoursOverride.None? && a.mulchOverride.None?
    ensures a.efficiency.value in DefaultHandEfficiency() && a.depth.value in DefaultDepthInches()
    ensures a.proximity.value in DefaultProximity()
  {
    Area(Some(Blank), Some("Average"), Some("2\""), Some("Close"), None, None)
  }

  /** A new home row: no size or count yet, Average, 2", Close, no overrides. */
  function InitialHome(): (h: Home)
    ensures HomeComplete(h) && h.sqftEach == Some(Blank) && h.count == Some(Blank)
    ensures h.hoursOverride.None? && h.mulchOverride.None?
    ensures h.efficiency.value in DefaultHandEfficiency() && h.depth.value in DefaultDepthInches()
    ensures h.proximity.value in DefaultProximity()
  {
    Home(Some(Blank), Some(Blank), Some("Average"), Some("2\""), Some("Close"), None, None)
  }

  /** A new small-power or loader block: Average, no override. */
  function InitialBlock(): (b: Block)
    ensures b.selection.Some? && b.hoursOverride.None?
    ensures b.selection.value in DefaultSmPowerManHours() && b.selection.value in DefaultLoaderManHours()
  {
    Block(Some("Average"), None)
  }

  function InitialAreas(): map<string, Area>
  {
    map["area1" := InitialArea(), "area2" := InitialArea(), "area3" := InitialArea()]
  }

  function InitialHomes(): map<string, Home>
  {
    map["home1" := InitialHome(), "home2" := InitialHome(), "home3" := InitialHome()]
  }

  /** The record a new mulching table starts from. */
  function InitialMulchingData(): MulchingData
  {
    MulchingData(map[], InitialAreas(), InitialHomes(),
                 InitialBlock(), InitialBlock(), InitialBlock(), InitialBlock())
  }

  /** Every field of an area is present. */
  predicate AreaComplete(a: Area)
  {
    a.sqft.Some? && a.efficiency.Some? && a.depth.Some? && a.proximity.Some?
  }

  /** Every field of a home row is present. */
  predicate HomeComplete(h: Home)
  {
    h.sqftEach.Some? && h.count.Some? && h.efficiency.Some? && h.depth.Some? && h.proximity.Some?
  }

  /** The shown rows exist with every field, and every block has a tier:
      what the screen works on once a table is merged over the defaults. */
  predicate Complete(d: MulchingData)
  {
    && (forall k | k in CommonAreaKeys :: k in d.handCommonAreas && AreaComplete(d.handCommonAreas[k]))
    && (forall k | k in HomeKeys :: k in d.handHomes && HomeComplete(d.handHomes[k]))
    && d.smPwrCommon.selection.Some? && d.loaderCommon.selection.Some?
    && d.smPwrHomes.selection.Some? && d.loaderHomes.selection.Some?
  }

  /** The default record is complete. */
  lemma InitialComplete()
    ensures Complete(InitialMulchingData())
  {
  }

  /** `rates[table][tier]`: the rate tables of the catalog. */
  type RateTables = map<string, map<string, real>>

  /** Yards of mulch one worker spreads by hand in an hour. */
  function DefaultHandEfficiency(): map<string, real>
  {
    map["Slowest" := 0.9, "Slow" := 1.1, "Average" := 1.4, "Fast" := 1.6, "Fastest" := 1.8]
  }

  /** Hour multipliers for how far the mulch is carried. */
  function DefaultProximity(): map<string, real>
  {
    map["Close" := 1.0, "Nearby" := 1.1, "Moderate" := 1.2, "Far" := 1.3, "Farthest" := 1.4]
  }

  /** Mulch depth in inches. */
  function DefaultDepthInches(): map<string, real>
  {
    map["Feather" := 0.5, "1\"" := 1.0, "2\"" := 2.0]
  }

  /** Small-power production: yards per man-hour. */
  function DefaultSmPowerManHours(): map<string, real>
  {
    map["Minimum" := 16.0, "Less" := 14.0, "Average" := 12.0, "More" := 10.0, "Copious" := 8.0]
  }

  /** Loader production: yards per man-hour. */
  function DefaultLoaderManHours(): map<string, real>
  {
    map["Minimum" := 20.0, "Less" := 18.0, "Average" := 16.0, "More" := 14.0, "Copious" := 12.0]
  }

  /** The rate tables of the default mulching catalog. */
  function DefaultMulchingRates(): (r: RateTables)
    ensures forall name | name in r :: AllPositive(r[name])
  {
    assert AllPositive(DefaultHandEfficiency());
    assert AllPositive(DefaultProximity());
    assert AllPositive(DefaultDepthInches());
    assert AllPositive(DefaultSmPowerManHours());
    assert AllPositive(DefaultLoaderManHours());
    map["handEfficiency" := DefaultHandEfficiency(),
        "proximity" := DefaultProximity(),
        "depthInches" := DefaultDepthInches(),
        "smPowerManHours" := DefaultSmPowerManHours(),
        "loaderManHours" := DefaultLoaderManHours()]
  }

  /** The catalog's prices, which no computation of the screen reads. */
  const DefaultMulchPricePerYard: real := 28.0
  const DefaultHandLaborRatePerHour: real := 50.0
  const DefaultSmPwrRatePerHour: real := 55.0
  const DefaultLoaderRatePerHour: real := 85.0

  /** Every rate of a table is positive. */
  predicate AllPositive(t: map<string, real>)
  {
    forall k | k in t :: t[k] > 0.0
  }
}
