/** Mulch yardage and hand-labour hours for one row, rounding the yardage up
    to a whole yard, and the merge of a saved mulching table over the
    defaults. */
module MulchingCalculations {
  import opened Js
  import opened Sums
  import opened Rounding
  import opened MulchingDefaults

  /** `Number(x) || 0` on a stored text field; a missing field reads
      undefined, which is NaN, so 0. */
  function FieldNumber(x: Option<Input>): real
  {
    if x.None? then 0.0 else NumberOrZero(x.value)
  }

  /** `mulchingRates[name]`, undefined when the catalog has no such table. */
  function Table(rates: RateTables, name: string): Option<map<string, real>>
  {
    Get(rates, name)
  }

  /** `getRate(table, key, fallback)`: the table's entry whenever it is
      defined, zero included; the fallback when the table or the entry is
      missing. */
  function GetRate(table: Option<map<string, real>>, key: Option<string>, fallback: real): (r: real)
    ensures table.Some? && PropertyKey(key) in table.value ==> r == table.value[PropertyKey(key)]
    ensures table.None? || PropertyKey(key) !in table.value ==> r == fallback
  {
    if table.None? then fallback
    else if PropertyKey(key) in table.value then table.value[PropertyKey(key)]
    else fallback
  }

  /** A tier that was never chosen reads undefined, which none of the default
      catalog's tables lists, so it gets the fallback. */
  lemma GetRateUnsetTier(name: string, fallback: real)
    ensures GetRate(Table(DefaultMulchingRates(), name), None, fallback) == fallback
  {
    var t := Table(DefaultMulchingRates(), name);
    if t.Some? {
      assert name in DefaultMulchingRates();
      assert "undefined" !in t.value;
    }
  }

  /** `getRate` hands back a stored zero rather than the fallback. */
  lemma GetRateKeepsZero(table: map<string, real>, key: string, fallback: real)
    requires key in table && table[key] == 0.0
    ensures GetRate(Some(table), Some(key), fallback) == 0.0
  {
  }

  /** The loose yardage of `sqft` square feet at `depth` inches. */
  function RawYards(sqft: real, depth: real): real
  {
    sqft * (depth / 12.0) / 27.0
  }

  /** `computeMulchYards(sqft, depthInches)`: nothing when either is 0,
      otherwise the loose yardage rounded up to a whole yard. */
  function MulchYards(sqft: real, depth: real): (r: real)
    ensures sqft == 0.0 || depth == 0.0 ==> r == 0.0
    ensures sqft != 0.0 && depth != 0.0 ==>
      r.Floor as real == r && RawYards(sqft, depth) <= r < RawYards(sqft, depth) + 1.0
  {
    if sqft == 0.0 || depth == 0.0 then 0.0 else Ceil(RawYards(sqft, depth)) as real
  }

  /** The whole yardage is the smallest whole number of yards that covers
      the loose yardage. */
  lemma MulchYardsLeast(sqft: real, depth: real, n: int)
    requires sqft != 0.0 && depth != 0.0
    requires RawYards(sqft, depth) <= n as real
    ensures MulchYards(sqft, depth) <= n as real
  {
    CeilIsLeast(RawYards(sqft, depth), n);
  }

  /** A larger area never needs less mulch. */
  lemma MulchYardsMonotone(sqft1: real, sqft2: real, depth: real)
    requires 0.0 < sqft1 <= sqft2 && depth > 0.0
    ensures MulchYards(sqft1, depth) <= MulchYards(sqft2, depth)
  {
    var r1, r2 := RawYards(sqft1, depth), RawYards(sqft2, depth);
    assert r1 <= r2 by {
      assert depth / 12.0 > 0.0;
      assert sqft1 * (depth / 12.0) <= sqft2 * (depth / 12.0);
    }
    CeilIsLeast(r1, Ceil(r2));
  }

  /** Hours and yards of one row. */
  datatype AreaValues = AreaValues(hours: real, mulch: real)

  /** Hours and yards of one home row, and the square feet they cover. */
  datatype HomeValues = HomeValues(hours: real, mulch: real, totalSqft: real)

  /** Hand hours for `mulch` yards: yards over yards-an-hour, times the
      proximity multiplier, and nothing without a positive efficiency. */
  function HandHours(mulch: real, handEff: real, proximity: real): (h: real)
    ensures handEff > 0.0 ==> h * handEff == mulch * proximity
    ensures handEff <= 0.0 ==> h == 0.0
  {
    if handEff > 0.0 then mulch / handEff * proximity else 0.0
  }

  /** `computeCommonAreaValues(area, mulchingRates)`. A missing efficiency
      tier gives no hours, a missing proximity counts as 1 and a missing
      depth gives no mulch. */
  function CommonAreaValues(area: Area, rates: Option<RateTables>): (v: AreaValues)
    ensures rates.None? || FieldNumber(area.sqft) <= 0.0 ==> v == AreaValues(0.0, 0.0)
    ensures rates.Some? && FieldNumber(area.sqft) > 0.0 ==>
      var depth := GetRate(Table(rates.value, "depthInches"), area.depth, 0.0);
      var handEff := GetRate(Table(rates.value, "handEfficiency"), area.efficiency, 0.0);
      var proximity := GetRate(Table(rates.value, "proximity"), area.proximity, 1.0);
      && v.mulch == MulchYards(FieldNumber(area.sqft), depth)
      && (handEff > 0.0 ==> v.hours * handEff == v.mulch * proximity)
      && (handEff <= 0.0 ==> v.hours == 0.0)
  {
    var sqft := FieldNumber(area.sqft);
    if rates.None? || sqft <= 0.0 then AreaValues(0.0, 0.0)
    else
      var handEff := GetRate(Table(rates.value, "handEfficiency"), area.efficiency, 0.0);
      var proximity := GetRate(Table(rates.value, "proximity"), area.proximity, 1.0);
      var depth := GetRate(Table(rates.value, "depthInches"), area.depth, 0.0);
      var mulch := MulchYards(sqft, depth);
      AreaValues(HandHours(mulch, handEff, proximity), mulch)
  }

  /** `computeHomeValues(home, mulchingRates)`: nothing unless both the size
      and the count are positive; otherwise a common area of the combined
      size. */
  function HomeRowValues(home: Home, rates: Option<RateTables>): (v: HomeValues)
    ensures rates.None? || FieldNumber(home.sqftEach) <= 0.0 || FieldNumber(home.count) <= 0.0 ==>
      v == HomeValues(0.0, 0.0, 0.0)
    ensures rates.Some? && FieldNumber(home.sqftEach) > 0.0 && FieldNumber(home.count) > 0.0 ==>
      v.totalSqft == FieldNumber(home.sqftEach) * FieldNumber(home.count) && v.totalSqft > 0.0
  {
    var sqftEach := FieldNumber(home.sqftEach);
    var count := FieldNumber(home.count);
    if rates.None? || sqftEach <= 0.0 || count <= 0.0 then HomeValues(0.0, 0.0, 0.0)
    else
      var totalSqft := sqftEach * count;
      MulPositive(sqftEach, count);
      var handEff := GetRate(Table(rates.value, "handEfficiency"), home.efficiency, 0.0);
      var proximity := GetRate(Table(rates.value, "proximity"), home.proximity, 1.0);
      var depth := GetRate(Table(rates.value, "depthInches"), home.depth, 0.0);
      var mulch := MulchYards(totalSqft, depth);
      HomeValues(HandHours(mulch, handEff, proximity), mulch, totalSqft)
  }

  /** The common area a row of homes amounts to: their combined size, with
      the row's tiers. */
  function AreaOfHomes(home: Home, totalSqft: real): Area
  {
    Area(Some(Typed(Some(totalSqft))), home.efficiency, home.depth, home.proximity, None, None)
  }

  /** A home row is priced exactly like one common area of the combined size. */
  lemma HomeIsCombinedArea(home: Home, rates: Option<RateTables>)
    requires FieldNumber(home.sqftEach) > 0.0 && FieldNumber(home.count) > 0.0
    ensures var v := HomeRowValues(home, rates);
      var total := FieldNumber(home.sqftEach) * FieldNumber(home.count);
      && total > 0.0
      && (rates.Some? ==> v.totalSqft == total)
      && v.hours == CommonAreaValues(AreaOfHomes(home, total), rates).hours
      && v.mulch == CommonAreaValues(AreaOfHomes(home, total), rates).mulch
  {
    MulPositive(FieldNumber(home.sqftEach), FieldNumber(home.count));
  }

  /** `{ ...base, ...(saved || {}) }` on one field: the saved value when it
      is there. An override's null reads as missing here too, which changes
      nothing because every default override is null. */
  function FieldOver<T>(base: Option<T>, saved: Option<T>): (r: Option<T>)
    ensures saved.Some? ==> r == saved
    ensures saved.None? ==> r == base
  {
    if saved.Some? then saved else base
  }

  /** One common area merged over its default: every field the saved area
      has is kept, every field it lacks comes from the default, and a
      missing area is the default. */
  function MergeArea(base: Area, saved: Option<Area>): (r: Area)
    ensures saved.None? ==> r == base
    ensures saved.Some? ==> var s := saved.value;
      && r.sqft == FieldOver(base.sqft, s.sqft)
      && r.efficiency == FieldOver(base.efficiency, s.efficiency)
      && r.depth == FieldOver(base.depth, s.depth)
      && r.proximity == FieldOver(base.proximity, s.proximity)
      && r.hoursOverride == FieldOver(base.hoursOverride, s.hoursOverride)
      && r.mulchOverride == FieldOver(base.mulchOverride, s.mulchOverride)
    ensures AreaComplete(base) ==> AreaComplete(r)
    ensures saved.Some? && AreaComplete(saved.value) && base.hoursOverride.None? && base.mulchOverride.None?
      ==> r == saved.value
  {
    if saved.None? then base
    else
      var s := saved.value;
      Area(FieldOver(base.sqft, s.sqft), FieldOver(base.efficiency, s.efficiency),
           FieldOver(base.depth, s.depth), FieldOver(base.proximity, s.proximity),
           FieldOver(base.hoursOverride, s.hoursOverride), FieldOver(base.mulchOverride, s.mulchOverride))
  }

  /** One home row merged over its default, field by field as an area is. */
  function MergeHome(base: Home, saved: Option<Home>): (r: Home)
    ensures saved.None? ==> r == base
    ensures saved.Some? ==> var s := saved.value;
      && r.sqftEach == FieldOver(base.sqftEach, s.sqftEach)
      && r.count == FieldOver(base.count, s.count)
      && r.efficiency == FieldOver(base.efficiency, s.efficiency)
      && r.depth == FieldOver(base.depth, s.depth)
      && r.proximity == FieldOver(base.proximity, s.proximity)
      && r.hoursOverride == FieldOver(base.hoursOverride, s.hoursOverride)
      && r.mulchOverride == FieldOver(base.mulchOverride, s.mulchOverride)
    ensures HomeComplete(base) ==> HomeComplete(r)
    ensures saved.Some? && HomeComplete(saved.value) && base.hoursOverride.None? && base.mulchOverride.None?
      ==> r == saved.value
  {
    if saved.None? then base
    else
      var s := saved.value;
      Home(FieldOver(base.sqftEach, s.sqftEach), FieldOver(base.count, s.count),
           FieldOver(base.efficiency, s.efficiency), FieldOver(base.depth, s.depth),
           FieldOver(base.proximity, s.proximity),
           FieldOver(base.hoursOverride, s.hoursOverride), FieldOver(base.mulchOverride, s.mulchOverride))
  }

  /** One small-power or loader block merged over its default: the saved
      tier and override win, and a block saved without them gets the
      default's. */
  function MergeBlock(base: Block, saved: Block): (r: Block)
    ensures saved.selection.Some? ==> r.selection == saved.selection
    ensures saved.selection.None? ==> r.selection == base.selection
    ensures base.hoursOverride.None? ==> r.hoursOverride == saved.hoursOverride
  {
    Block(FieldOver(base.selection, saved.selection), FieldOver(base.hoursOverride, saved.hoursOverride))
  }

  /** The `handCommonAreas` of a merged table: every saved area over the
      default ones, each shown area merged field by field. */
  function MergeAreas(saved: map<string, Area>): (r: map<string, Area>)
    ensures r.Keys == InitialAreas().Keys + saved.Keys
    ensures forall k | k in CommonAreaKeys :: r[k] == MergeArea(InitialArea(), Get(saved, k))
    ensures forall k | k in saved && k !in CommonAreaKeys :: r[k] == saved[k]
    ensures forall k | k in CommonAreaKeys :: k in r && AreaComplete(r[k])
  {
    Overlay(InitialAreas(), saved)
      ["area1" := MergeArea(InitialArea(), Get(saved, "area1"))]
      ["area2" := MergeArea(InitialArea(), Get(saved, "area2"))]
      ["area3" := MergeArea(InitialArea(), Get(saved, "area3"))]
  }

  /** The `handHomes` of a merged table, merged the same way. */
  function MergeHomes(saved: map<string, Home>): (r: map<string, Home>)
    ensures r.Keys == InitialHomes().Keys + saved.Keys
    ensures forall k | k in HomeKeys :: r[k] == MergeHome(InitialHome(), Get(saved, k))
    ensures forall k | k in saved && k !in HomeKeys :: r[k] == saved[k]
    ensures forall k | k in HomeKeys :: k in r && HomeComplete(r[k])
  {
    Overlay(InitialHomes(), saved)
      ["home1" := MergeHome(InitialHome(), Get(saved, "home1"))]
      ["home2" := MergeHome(InitialHome(), Get(saved, "home2"))]
      ["home3" := MergeHome(InitialHome(), Get(saved, "home3"))]
  }

  /** `mergeMulchingData(raw)`: every saved row and field over the defaults.
      The three shown areas and homes are merged field by field; rows the
      defaults do not have are kept as saved. */
  function MergeMulchingData(saved: MulchingData): (d: MulchingData)
    ensures Complete(d)
    ensures d.summary == saved.summary
    ensures d.handCommonAreas.Keys == InitialAreas().Keys + saved.handCommonAreas.Keys
    ensures forall k | k in CommonAreaKeys ::
      d.handCommonAreas[k] == MergeArea(InitialArea(), Get(saved.handCommonAreas, k))
    ensures forall k | k in saved.handCommonAreas && k !in CommonAreaKeys ::
      d.handCommonAreas[k] == saved.handCommonAreas[k]
    ensures d.handHomes.Keys == InitialHomes().Keys + saved.handHomes.Keys
    ensures forall k | k in HomeKeys :: d.handHomes[k] == MergeHome(InitialHome(), Get(saved.handHomes, k))
    ensures forall k | k in saved.handHomes && k !in HomeKeys :: d.handHomes[k] == saved.handHomes[k]
    ensures d.smPwrCommon == MergeBlock(InitialBlock(), saved.smPwrCommon)
    ensures d.loaderCommon == MergeBlock(InitialBlock(), saved.loaderCommon)
    ensures d.smPwrHomes == MergeBlock(InitialBlock(), saved.smPwrHomes)
    ensures d.loaderHomes == MergeBlock(InitialBlock(), saved.loaderHomes)
  {
    var d := MulchingData(
      saved.summary,
      MergeAreas(saved.handCommonAreas),
      MergeHomes(saved.handHomes),
      MergeBlock(InitialBlock(), saved.smPwrCommon),
      MergeBlock(InitialBlock(), saved.loaderCommon),
      MergeBlock(InitialBlock(), saved.smPwrHomes),
      MergeBlock(InitialBlock(), saved.loaderHomes));
    d
  }

  /** A shown area saved with only some of its fields keeps those and
      takes each missing one from the default area. */
  lemma MergeFillsPartialArea(saved: MulchingData, k: string)
    requires k in CommonAreaKeys && k in saved.handCommonAreas
    ensures var s := saved.handCommonAreas[k];
      var r := MergeMulchingData(saved).handCommonAreas[k];
      && (s.sqft.Some? ==> r.sqft == s.sqft) && (s.sqft.None? ==> r.sqft == InitialArea().sqft)
      && (s.efficiency.Some? ==> r.efficiency == s.efficiency)
      && (s.efficiency.None? ==> r.efficiency == InitialArea().efficiency)
      && (s.depth.Some? ==> r.depth == s.depth) && (s.depth.None? ==> r.depth == InitialArea().depth)
      && (s.proximity.Some? ==> r.proximity == s.proximity)
      && (s.proximity.None? ==> r.proximity == InitialArea().proximity)
  {
  }

  /** A shown home row saved with only some of its fields keeps those and
      takes each missing one from the default row. */
  lemma MergeFillsPartialHome(saved: MulchingData, k: string)
    requires k in HomeKeys && k in saved.handHomes
    ensures var s := saved.handHomes[k];
      var r := MergeMulchingData(saved).handHomes[k];
      && (s.sqftEach.Some? ==> r.sqftEach == s.sqftEach)
      && (s.sqftEach.None? ==> r.sqftEach == InitialHome().sqftEach)
      && (s.count.Some? ==> r.count == s.count) && (s.count.None? ==> r.count == InitialHome().count)
      && (s.efficiency.Some? ==> r.efficiency == s.efficiency)
      && (s.efficiency.None? ==> r.efficiency == InitialHome().efficiency)
      && (s.depth.Some? ==> r.depth == s.depth) && (s.depth.None? ==> r.depth == InitialHome().depth)
      && (s.proximity.Some? ==> r.proximity == s.proximity)
      && (s.proximity.None? ==> r.proximity == InitialHome().proximity)
  {
  }

  /** Merging a complete table gives it back: what a save stores is what the
      next load shows. */
  lemma MergeComplete(saved: MulchingData)
    requires Complete(saved)
    ensures MergeMulchingData(saved) == saved
  {
    MergeAreasKeeps(saved.handCommonAreas);
    MergeHomesKeeps(saved.handHomes);
  }

  lemma MergeAreasKeeps(saved: map<string, Area>)
    requires forall k | k in CommonAreaKeys :: k in saved && AreaComplete(saved[k])
    ensures MergeAreas(saved) == saved
  {
    assert InitialAreas().Keys <= saved.Keys;
  }

  lemma MergeHomesKeeps(saved: map<string, Home>)
    requires forall k | k in HomeKeys :: k in saved && HomeComplete(saved[k])
    ensures MergeHomes(saved) == saved
  {
    assert InitialHomes().Keys <= saved.Keys;
  }

  /** Merging twice is merging once. */
  lemma MergeIdempotent(saved: MulchingData)
    ensures MergeMulchingData(MergeMulchingData(saved)) == MergeMulchingData(saved)
  {
    MergeComplete(MergeMulchingData(saved));
  }

  /** A table with no data yet merges to the default record. */
  lemma MergeEmpty()
    ensures MergeMulchingData(EmptyMulchingData()) == InitialMulchingData()
  {
    MergeAreasEmpty();
    MergeHomesEmpty();
  }

  lemma MergeAreasEmpty()
    ensures MergeAreas(map[]) == InitialAreas()
  {
    var r := MergeAreas(map[]);
    assert r.Keys == InitialAreas().Keys;
  }

  lemma MergeHomesEmpty()
    ensures MergeHomes(map[]) == InitialHomes()
  {
    var r := MergeHomes(map[]);
    assert r.Keys == InitialHomes().Keys;
  }
}
