/** The mulching screen: its own row calculations, which round the yardage up
    to half a yard and fall back to the Average efficiency, the totals it
    shows, the input handlers with the overrides each one clears, and the
    save into the "mulching" collection. */
module MulchingPage {
  import opened Js
  import opened Sums
  import opened Rounding
  import opened ServiceStore
  import opened MulchingDefaults
  import opened MulchingCalculations

  /** `mulchingRates[name] || {}`. */
  function TableOrEmpty(rates: RateTables, name: string): map<string, real>
  {
    if name in rates then rates[name] else map[]
  }

  /** `effTable[tier] || effTable.Average || 1`. */
  function PageEfficiency(effTable: map<string, real>, tier: Option<string>): real
  {
    Or(Get(effTable, PropertyKey(tier)), Or(Get(effTable, "Average"), 1.0))
  }

  /** The screen's yardage: the loose yardage rounded up to half a yard,
      nothing without a positive depth or a positive loose yardage. */
  function PageYards(sqft: real, depth: real): (r: real)
    ensures depth > 0.0 && RawYards(sqft, depth) > 0.0 ==>
      IsHalf(r) && RawYards(sqft, depth) <= r < RawYards(sqft, depth) + 0.5
    ensures depth <= 0.0 || RawYards(sqft, depth) <= 0.0 ==> r == 0.0
  {
    var raw := if depth > 0.0 then RawYards(sqft, depth) else 0.0;
    if raw > 0.0 then CeilHalf(raw) else 0.0
  }

  /** Rounding to half a yard never orders more than the whole-yard rule of
      the shared calculations. */
  lemma HalfYardAtMostWholeYard(sqft: real, depth: real)
    requires sqft > 0.0 && depth > 0.0
    ensures PageYards(sqft, depth) <= MulchYards(sqft, depth)
  {
    assert RawYards(sqft, depth) > 0.0 by {
      assert depth / 12.0 > 0.0;
      MulPositive(sqft, depth / 12.0);
    }
    CeilHalfAtMostCeil(RawYards(sqft, depth));
  }

  /** The screen's `computeCommonAreaValues(area, mulchingRates)`. */
  function PageCommonAreaValues(area: Area, rates: Option<RateTables>): (v: AreaValues)
    ensures rates.None? || FieldNumber(area.sqft) <= 0.0 ==> v == AreaValues(0.0, 0.0)
    ensures IsHalf(v.mulch) && v.mulch >= 0.0
    ensures rates.Some? && FieldNumber(area.sqft) > 0.0 ==>
      var eff := PageEfficiency(TableOrEmpty(rates.value, "handEfficiency"), area.efficiency);
      var prox := Or(Get(TableOrEmpty(rates.value, "proximity"), PropertyKey(area.proximity)), 1.0);
      (eff > 0.0 ==> v.hours * eff == v.mulch * prox) && (eff <= 0.0 ==> v.hours == 0.0)
  {
    var sqft := FieldNumber(area.sqft);
    if rates.None? || sqft <= 0.0 then AreaValues(0.0, 0.0)
    else
      var eff := PageEfficiency(TableOrEmpty(rates.value, "handEfficiency"), area.efficiency);
      var prox := Or(Get(TableOrEmpty(rates.value, "proximity"), PropertyKey(area.proximity)), 1.0);
      var depth := Or(Get(TableOrEmpty(rates.value, "depthInches"), PropertyKey(area.depth)), 0.0);
      var mulch := PageYards(sqft, depth);
      AreaValues(HandHours(mulch, eff, prox), mulch)
  }

  /** The screen's `computeHomeValues(home, mulchingRates)`: only the combined
      size has to be positive. */
  function PageHomeValues(home: Home, rates: Option<RateTables>): (v: HomeValues)
    ensures rates.None? || FieldNumber(home.sqftEach) * FieldNumber(home.count) <= 0.0 ==>
      v == HomeValues(0.0, 0.0, 0.0)
    ensures rates.Some? && FieldNumber(home.sqftEach) * FieldNumber(home.count) > 0.0 ==>
      v.totalSqft == FieldNumber(home.sqftEach) * FieldNumber(home.count)
    ensures IsHalf(v.mulch) && v.mulch >= 0.0
  {
    var totalSqft := FieldNumber(home.sqftEach) * FieldNumber(home.count);
    if rates.None? || totalSqft <= 0.0 then HomeValues(0.0, 0.0, 0.0)
    else
      var eff := PageEfficiency(TableOrEmpty(rates.value, "handEfficiency"), home.efficiency);
      var prox := Or(Get(TableOrEmpty(rates.value, "proximity"), PropertyKey(home.proximity)), 1.0);
      var depth := Or(Get(TableOrEmpty(rates.value, "depthInches"), PropertyKey(home.depth)), 0.0);
      var mulch := PageYards(totalSqft, depth);
      HomeValues(HandHours(mulch, eff, prox), mulch, totalSqft)
  }

  /** With the default catalog every efficiency tier, even one the catalog
      does not list, gives a positive efficiency on this screen. */
  lemma PageEfficiencyDefaultPositive(tier: Option<string>)
    ensures PageEfficiency(DefaultHandEfficiency(), tier) > 0.0
  {
    var t := DefaultHandEfficiency();
    assert AllPositive(t) by { assert t == DefaultMulchingRates()["handEfficiency"]; }
  }

  /** The shared calculations instead give no hours for an unlisted tier:
      their efficiency falls back to 0. */
  lemma UnlistedTierRevisionsDiffer(area: Area)
    requires FieldNumber(area.sqft) > 0.0
    requires PropertyKey(area.efficiency) !in DefaultHandEfficiency()
    ensures CommonAreaValues(area, Some(DefaultMulchingRates())).hours == 0.0
    ensures PageEfficiency(DefaultHandEfficiency(), area.efficiency) == 1.4
  {
  }

  /** Two negative entries for size and count make a positive combined size,
      which this screen prices while the shared calculations do not. */
  lemma NegativeHomeRevisionsDiffer(home: Home, rates: RateTables)
    requires FieldNumber(home.sqftEach) < 0.0 && FieldNumber(home.count) < 0.0
    ensures HomeRowValues(home, Some(rates)) == HomeValues(0.0, 0.0, 0.0)
    ensures PageHomeValues(home, Some(rates)).totalSqft > 0.0
  {
    var a, b := FieldNumber(home.sqftEach), FieldNumber(home.count);
    MulPositive(-a, -b);
    assert a * b == (-a) * (-b);
  }

  /** `override != null ? override : computed`. */
  function Display(override: Num, computed: real): real
  {
    if override.Some? then override.value else computed
  }

  /** The hours and yards a common area shows. */
  function DisplayedArea(a: Area, rates: RateTables): AreaValues
  {
    var c := PageCommonAreaValues(a, Some(rates));
    AreaValues(Display(a.hoursOverride, c.hours), Display(a.mulchOverride, c.mulch))
  }

  /** The hours and yards a home row shows. */
  function DisplayedHome(h: Home, rates: RateTables): AreaValues
  {
    var c := PageHomeValues(h, Some(rates));
    AreaValues(Display(h.hoursOverride, c.hours), Display(h.mulchOverride, c.mulch))
  }

  /** The shown hours and yards of the areas `keys`, added up in order. */
  function SumAreas(keys: seq<string>, areas: map<string, Area>, rates: RateTables): AreaValues
    requires forall k | k in keys :: k in areas
  {
    if |keys| == 0 then AreaValues(0.0, 0.0)
    else
      var s := SumAreas(keys[..|keys| - 1], areas, rates);
      var v := DisplayedArea(areas[keys[|keys| - 1]], rates);
      AreaValues(s.hours + v.hours, s.mulch + v.mulch)
  }

  /** The shown hours and yards of the home rows `keys`, added up in order. */
  function SumHomes(keys: seq<string>, homes: map<string, Home>, rates: RateTables): AreaValues
    requires forall k | k in keys :: k in homes
  {
    if |keys| == 0 then AreaValues(0.0, 0.0)
    else
      var s := SumHomes(keys[..|keys| - 1], homes, rates);
      var v := DisplayedHome(homes[keys[|keys| - 1]], rates);
      AreaValues(s.hours + v.hours, s.mulch + v.mulch)
  }

  /** The hours a small-power or loader block shows: the mulch total over the
      tier's yards an hour (Average when no tier is set), nothing without a
      positive rate and a positive total, unless an override is stored. */
  function BlockHours(b: Block, table: map<string, real>, totalMulch: real): (h: real)
    ensures b.hoursOverride.Some? ==> h == b.hoursOverride.value
    ensures b.hoursOverride.None? ==>
      var rate := Or(Get(table, OrText(b.selection, "Average")), 0.0);
      && (rate > 0.0 && totalMulch > 0.0 ==> h * rate == totalMulch)
      && (rate <= 0.0 || totalMulch <= 0.0 ==> h == 0.0)
  {
    var rate := Or(Get(table, OrText(b.selection, "Average")), 0.0);
    var computed := if rate > 0.0 && totalMulch > 0.0 then totalMulch / rate else 0.0;
    Display(b.hoursOverride, computed)
  }

  /** The live totals of the screen. */
  datatype MulchingTotals = MulchingTotals(
    commonHours: real,
    commonMulch: real,
    homesHours: real,
    homesMulch: real,
    smPwrCommon: real,
    loaderCommon: real,
    smPwrHomes: real,
    loaderHomes: real,
    totalHours: real,
    totalMulchYards: real)

  /** The totals the screen shows for a merged table. */
  function TotalsOf(d: MulchingData, rates: RateTables): (t: MulchingTotals)
    requires Complete(d)
    ensures t.totalHours == t.commonHours + t.homesHours + t.smPwrCommon + t.smPwrHomes + t.loaderCommon + t.loaderHomes
    ensures t.totalMulchYards == t.commonMulch + t.homesMulch
    ensures t.smPwrCommon == BlockHours(d.smPwrCommon, TableOrEmpty(rates, "smPowerManHours"), t.commonMulch)
    ensures t.loaderCommon == BlockHours(d.loaderCommon, TableOrEmpty(rates, "loaderManHours"), t.commonMulch)
    ensures t.smPwrHomes == BlockHours(d.smPwrHomes, TableOrEmpty(rates, "smPowerManHours"), t.homesMulch)
    ensures t.loaderHomes == BlockHours(d.loaderHomes, TableOrEmpty(rates, "loaderManHours"), t.homesMulch)
  {
    var common := SumAreas(CommonAreaKeys, d.handCommonAreas, rates);
    var homes := SumHomes(HomeKeys, d.handHomes, rates);
    var smPwr := TableOrEmpty(rates, "smPowerManHours");
    var loader := TableOrEmpty(rates, "loaderManHours");
    var spc := BlockHours(d.smPwrCommon, smPwr, common.mulch);
    var lc := BlockHours(d.loaderCommon, loader, common.mulch);
    var sph := BlockHours(d.smPwrHomes, smPwr, homes.mulch);
    var lh := BlockHours(d.loaderHomes, loader, homes.mulch);
    MulchingTotals(common.hours, common.mulch, homes.hours, homes.mulch, spc, lc, sph, lh,
                   common.hours + homes.hours + (spc + sph) + (lc + lh),
                   common.mulch + homes.mulch)
  }

  /** The common-area loop of the screen. */
  method SumCommonAreas(areas: map<string, Area>, rates: RateTables, keys: seq<string>)
    returns (hours: real, mulch: real)
    requires forall k | k in keys :: k in areas
    ensures AreaValues(hours, mulch) == SumAreas(keys, areas, rates)
  {
    hours, mulch := 0.0, 0.0;
    for i := 0 to |keys|
      invariant AreaValues(hours, mulch) == SumAreas(keys[..i], areas, rates)
    {
      assert keys[..i + 1][..i] == keys[..i];
      var v := DisplayedArea(areas[keys[i]], rates);
      hours := hours + v.hours;
      mulch := mulch + v.mulch;
    }
    assert keys[..|keys|] == keys;
  }

  /** The home-row loop of the screen. */
  method SumHomeRows(homes: map<string, Home>, rates: RateTables, keys: seq<string>)
    returns (hours: real, mulch: real)
    requires forall k | k in keys :: k in homes
    ensures AreaValues(hours, mulch) == SumHomes(keys, homes, rates)
  {
    hours, mulch := 0.0, 0.0;
    for i := 0 to |keys|
      invariant AreaValues(hours, mulch) == SumHomes(keys[..i], homes, rates)
    {
      assert keys[..i + 1][..i] == keys[..i];
      var v := DisplayedHome(homes[keys[i]], rates);
      hours := hours + v.hours;
      mulch := mulch + v.mulch;
    }
    assert keys[..|keys|] == keys;
  }

  /** The totals section of the screen. */
  method ComputeTotals(d: MulchingData, rates: RateTables) returns (t: MulchingTotals)
    requires Complete(d)
    ensures t == TotalsOf(d, rates)
  {
    var commonHours, commonMulch := SumCommonAreas(d.handCommonAreas, rates, CommonAreaKeys);
    var homesHours, homesMulch := SumHomeRows(d.handHomes, rates, HomeKeys);
    var smPwr := TableOrEmpty(rates, "smPowerManHours");
    var loader := TableOrEmpty(rates, "loaderManHours");
    var spc := BlockHours(d.smPwrCommon, smPwr, commonMulch);
    var lc := BlockHours(d.loaderCommon, loader, commonMulch);
    var sph := BlockHours(d.smPwrHomes, smPwr, homesMulch);
    var lh := BlockHours(d.loaderHomes, loader, homesMulch);
    var totalSmPwr := spc + sph;
    var totalLoader := lc + lh;
    t := MulchingTotals(commonHours, commonMulch, homesHours, homesMulch, spc, lc, sph, lh,
                        commonHours + homesHours + totalSmPwr + totalLoader, commonMulch + homesMulch);
  }

  // Input handlers

  /** A field of a common area that the row's inputs set. */
  datatype AreaField =
    | AreaSqft(text: Input)
    | AreaEfficiency(tier: string)
    | AreaDepth(depth: string)
    | AreaProximity(tier: string)

  /** A field of a home row that the row's inputs set. */
  datatype HomeField =
    | HomeSqftEach(text: Input)
    | HomeCount(text: Input)
    | HomeEfficiency(tier: string)
    | HomeDepth(depth: string)
    | HomeProximity(tier: string)

  /** `{ ...area, [field]: value }`. */
  function SetAreaField(a: Area, f: AreaField): Area
  {
    match f
    case AreaSqft(t) => a.(sqft := Some(t))
    case AreaEfficiency(t) => a.(efficiency := Some(t))
    case AreaDepth(t) => a.(depth := Some(t))
    case AreaProximity(t) => a.(proximity := Some(t))
  }

  /** `{ ...home, [field]: value }`. */
  function SetHomeField(h: Home, f: HomeField): Home
  {
    match f
    case HomeSqftEach(t) => h.(sqftEach := Some(t))
    case HomeCount(t) => h.(count := Some(t))
    case HomeEfficiency(t) => h.(efficiency := Some(t))
    case HomeDepth(t) => h.(depth := Some(t))
    case HomeProximity(t) => h.(proximity := Some(t))
  }

  /** `areas[key]` spread into a new row: `{}` when there is none. */
  function AreaAt(areas: map<string, Area>, key: string): Area
  {
    if key in areas then areas[key] else Area(None, None, None, None, None, None)
  }

  /** `homes[key]` spread into a new row: `{}` when there is none. */
  function HomeAt(homes: map<string, Home>, key: string): Home
  {
    if key in homes then homes[key] else Home(None, None, None, None, None, None, None)
  }

  /** `handleCommonFieldChange(areaKey, field, value)`: sets the field, clears
      the area's hours and mulch overrides and the common small-power and
      loader overrides. The homes side is untouched. */
  function CommonFieldChanged(d: MulchingData, areaKey: string, f: AreaField): (r: MulchingData)
    ensures r.handCommonAreas.Keys == d.handCommonAreas.Keys + {areaKey}
    ensures forall k | k in d.handCommonAreas && k != areaKey :: r.handCommonAreas[k] == d.handCommonAreas[k]
    ensures var a := r.handCommonAreas[areaKey];
      a.hoursOverride.None? && a.mulchOverride.None? && a == SetAreaField(AreaAt(d.handCommonAreas, areaKey), f).(hoursOverride := None, mulchOverride := None)
    ensures r.smPwrCommon == d.smPwrCommon.(hoursOverride := None)
    ensures r.loaderCommon == d.loaderCommon.(hoursOverride := None)
    ensures r.handHomes == d.handHomes && r.smPwrHomes == d.smPwrHomes && r.loaderHomes == d.loaderHomes
    ensures r.summary == d.summary
  {
    var a := SetAreaField(AreaAt(d.handCommonAreas, areaKey), f).(hoursOverride := None, mulchOverride := None);
    d.(handCommonAreas := d.handCommonAreas[areaKey := a],
       smPwrCommon := d.smPwrCommon.(hoursOverride := None),
       loaderCommon := d.loaderCommon.(hoursOverride := None))
  }

  /** `handleCommonHoursOverrideChange(areaKey, value)`: an emptied or
      non-numeric entry clears the override; nothing else changes. */
  function CommonHoursOverrideChanged(d: MulchingData, areaKey: string, i: Input): (r: MulchingData)
    ensures r == d.(handCommonAreas := d.handCommonAreas[areaKey := AreaAt(d.handCommonAreas, areaKey).(hoursOverride := ParseFloat(i))])
    ensures (i.Blank? || i.parsed.None?) ==> r.handCommonAreas[areaKey].hoursOverride.None?
  {
    d.(handCommonAreas := d.handCommonAreas[areaKey := AreaAt(d.handCommonAreas, areaKey).(hoursOverride := ParseFloat(i))])
  }

  /** `handleCommonMulchOverrideChange(areaKey, value)`: sets the area's mulch
      override and clears the common small-power and loader overrides. */
  function CommonMulchOverrideChanged(d: MulchingData, areaKey: string, i: Input): (r: MulchingData)
    ensures r == d.(handCommonAreas := d.handCommonAreas[areaKey := AreaAt(d.handCommonAreas, areaKey).(mulchOverride := ParseFloat(i))],
                    smPwrCommon := d.smPwrCommon.(hoursOverride := None),
                    loaderCommon := d.loaderCommon.(hoursOverride := None))
  {
    d.(handCommonAreas := d.handCommonAreas[areaKey := AreaAt(d.handCommonAreas, areaKey).(mulchOverride := ParseFloat(i))],
       smPwrCommon := d.smPwrCommon.(hoursOverride := None),
       loaderCommon := d.loaderCommon.(hoursOverride := None))
  }

  /** `handleHomeFieldChange(homeKey, field, value)`: the home-side mirror of
      the common-area field handler. */
  function HomeFieldChanged(d: MulchingData, homeKey: string, f: HomeField): (r: MulchingData)
    ensures r.handHomes.Keys == d.handHomes.Keys + {homeKey}
    ensures forall k | k in d.handHomes && k != homeKey :: r.handHomes[k] == d.handHomes[k]
    ensures var h := r.handHomes[homeKey];
      h.hoursOverride.None? && h.mulchOverride.None? && h == SetHomeField(HomeAt(d.handHomes, homeKey), f).(hoursOverride := None, mulchOverride := None)
    ensures r.smPwrHomes == d.smPwrHomes.(hoursOverride := None)
    ensures r.loaderHomes == d.loaderHomes.(hoursOverride := None)
    ensures r.handCommonAreas == d.handCommonAreas && r.smPwrCommon == d.smPwrCommon && r.loaderCommon == d.loaderCommon
    ensures r.summary == d.summary
  {
    var h := SetHomeField(HomeAt(d.handHomes, homeKey), f).(hoursOverride := None, mulchOverride := None);
    d.(handHomes := d.handHomes[homeKey := h],
       smPwrHomes := d.smPwrHomes.(hoursOverride := None),
       loaderHomes := d.loaderHomes.(hoursOverride := None))
  }

  /** `handleHomeHoursOverrideChange(homeKey, value)`. */
  function HomeHoursOverrideChanged(d: MulchingData, homeKey: string, i: Input): (r: MulchingData)
    ensures r == d.(handHomes := d.handHomes[homeKey := HomeAt(d.handHomes, homeKey).(hoursOverride := ParseFloat(i))])
    ensures (i.Blank? || i.parsed.None?) ==> r.handHomes[homeKey].hoursOverride.None?
  {
    d.(handHomes := d.handHomes[homeKey := HomeAt(d.handHomes, homeKey).(hoursOverride := ParseFloat(i))])
  }

  /** `handleHomeMulchOverrideChange(homeKey, value)`. */
  function HomeMulchOverrideChanged(d: MulchingData, homeKey: string, i: Input): (r: MulchingData)
    ensures r == d.(handHomes := d.handHomes[homeKey := HomeAt(d.handHomes, homeKey).(mulchOverride := ParseFloat(i))],
                    smPwrHomes := d.smPwrHomes.(hoursOverride := None),
                    loaderHomes := d.loaderHomes.(hoursOverride := None))
  {
    d.(handHomes := d.handHomes[homeKey := HomeAt(d.handHomes, homeKey).(mulchOverride := ParseFloat(i))],
       smPwrHomes := d.smPwrHomes.(hoursOverride := None),
       loaderHomes := d.loaderHomes.(hoursOverride := None))
  }

  /** The four small-power and loader blocks. */
  datatype BlockId = SmPwrCommonBlock | LoaderCommonBlock | SmPwrHomesBlock | LoaderHomesBlock

  function BlockOf(d: MulchingData, id: BlockId): Block
  {
    match id
    case SmPwrCommonBlock => d.smPwrCommon
    case LoaderCommonBlock => d.loaderCommon
    case SmPwrHomesBlock => d.smPwrHomes
    case LoaderHomesBlock => d.loaderHomes
  }

  /** The table with one block replaced and everything else as it was. */
  function WithBlock(d: MulchingData, id: BlockId, b: Block): (r: MulchingData)
    ensures BlockOf(r, id) == b
    ensures forall other | other != id :: BlockOf(r, other) == BlockOf(d, other)
    ensures r.summary == d.summary && r.handCommonAreas == d.handCommonAreas && r.handHomes == d.handHomes
  {
    match id
    case SmPwrCommonBlock => d.(smPwrCommon := b)
    case LoaderCommonBlock => d.(loaderCommon := b)
    case SmPwrHomesBlock => d.(smPwrHomes := b)
    case LoaderHomesBlock => d.(loaderHomes := b)
  }

  /** The four `handle...SelectionChange(value)` handlers: the block takes the
      tier and drops its override. */
  function SelectionChanged(d: MulchingData, id: BlockId, tier: string): (r: MulchingData)
    ensures BlockOf(r, id) == Block(Some(tier), None)
    ensures r == WithBlock(d, id, BlockOf(r, id))
  {
    WithBlock(d, id, BlockOf(d, id).(selection := Some(tier), hoursOverride := None))
  }

  /** The four `handle...OverrideChange(value)` handlers. */
  function BlockOverrideChanged(d: MulchingData, id: BlockId, i: Input): (r: MulchingData)
    ensures BlockOf(r, id) == BlockOf(d, id).(hoursOverride := ParseFloat(i))
    ensures r == WithBlock(d, id, BlockOf(r, id))
  {
    WithBlock(d, id, BlockOf(d, id).(hoursOverride := ParseFloat(i)))
  }

  /** One input event of the screen. */
  datatype MulchingEdit =
    | EditCommonField(areaKey: string, field: AreaField)
    | EditCommonHours(areaKey: string, input: Input)
    | EditCommonMulch(areaKey: string, input: Input)
    | EditHomeField(homeKey: string, hfield: HomeField)
    | EditHomeHours(homeKey: string, input: Input)
    | EditHomeMulch(homeKey: string, input: Input)
    | EditSelection(block: BlockId, tier: string)
    | EditBlockOverride(block: BlockId, input: Input)

  /** The record an input event hands to `updateMulchingData`. */
  function Apply(d: MulchingData, e: MulchingEdit): (r: MulchingData)
    ensures r.summary == d.summary
  {
    match e
    case EditCommonField(k, f) => CommonFieldChanged(d, k, f)
    case EditCommonHours(k, i) => CommonHoursOverrideChanged(d, k, i)
    case EditCommonMulch(k, i) => CommonMulchOverrideChanged(d, k, i)
    case EditHomeField(k, f) => HomeFieldChanged(d, k, f)
    case EditHomeHours(k, i) => HomeHoursOverrideChanged(d, k, i)
    case EditHomeMulch(k, i) => HomeMulchOverrideChanged(d, k, i)
    case EditSelection(b, t) => SelectionChanged(d, b, t)
    case EditBlockOverride(b, i) => BlockOverrideChanged(d, b, i)
  }

  /** The service collection the screen writes. */
  const MulchingService: string := "mulching"

  /** `updateMulchingData(newData)`: the table is replaced where it stands,
      or appended when the list has none with that id. */
  function UpdateMulchingData(list: seq<Entry<MulchingData>>, tableId: string, newData: MulchingData)
    : (w: StoreWrite<MulchingData>)
    ensures w.service == MulchingService
    ensures Find(w.list, tableId) == Some(Entry(tableId, newData))
    ensures forall other | other != tableId :: Find(w.list, other) == Find(list, other)
    ensures HasId(list, tableId) ==> |w.list| == |list|
    ensures !HasId(list, tableId) ==> w.list == list + [Entry(tableId, newData)]
  {
    UpsertThenFind(list, tableId, newData);
    forall other | other != tableId ensures Find(Upsert(list, tableId, newData), other) == Find(list, other) {
      UpsertOtherFind(list, tableId, newData, other);
    }
    StoreWrite(MulchingService, Upsert(list, tableId, newData))
  }

  /** The table with this id, merged over the defaults; `{}` when the list
      has none. */
  function Loaded(list: seq<Entry<MulchingData>>, tableId: string): (d: MulchingData)
    ensures Complete(d)
    ensures !HasId(list, tableId) ==> d == InitialMulchingData()
    ensures HasId(list, tableId) ==> d == MergeMulchingData(Find(list, tableId).value.data)
  {
    var entry := Find(list, tableId);
    MergeEmpty();
    MergeMulchingData(if entry.Some? then entry.value.data else EmptyMulchingData())
  }

  /** The store write an input event makes. */
  function HandleEdit(list: seq<Entry<MulchingData>>, tableId: string, e: MulchingEdit): (w: StoreWrite<MulchingData>)
    ensures w.service == MulchingService
    ensures Find(w.list, tableId) == Some(Entry(tableId, Apply(Loaded(list, tableId), e)))
    ensures forall other | other != tableId :: Find(w.list, other) == Find(list, other)
  {
    UpdateMulchingData(list, tableId, Apply(Loaded(list, tableId), e))
  }

  // Properties

  /** Every handler keeps a merged table complete. */
  lemma ApplyKeepsComplete(d: MulchingData, e: MulchingEdit)
    requires Complete(d)
    ensures Complete(Apply(d, e))
  {
    match e
    case EditSelection(b, t) =>
    case EditBlockOverride(b, i) =>
    case _ =>
  }

  /** After any input event the table reads back as exactly the edited
      record: the save loses nothing and the merge adds nothing. */
  lemma EditReadsBack(list: seq<Entry<MulchingData>>, tableId: string, e: MulchingEdit)
    ensures Loaded(HandleEdit(list, tableId, e).list, tableId) == Apply(Loaded(list, tableId), e)
  {
    var u := Apply(Loaded(list, tableId), e);
    ApplyKeepsComplete(Loaded(list, tableId), e);
    MergeComplete(u);
  }

  /** Two area maps that agree on `keys` give the same sums. */
  lemma {:induction false} SumAreasAgree(keys: seq<string>, a1: map<string, Area>, a2: map<string, Area>, rates: RateTables)
    requires forall k | k in keys :: k in a1 && k in a2 && a1[k] == a2[k]
    ensures SumAreas(keys, a1, rates) == SumAreas(keys, a2, rates)
  {
    if |keys| > 0 {
      SumAreasAgree(keys[..|keys| - 1], a1, a2, rates);
    }
  }

  /** Editing a common area's hours override changes no yardage, so neither
      the mulch totals nor any small-power or loader hours move. */
  lemma HoursOverrideKeepsMulch(d: MulchingData, rates: RateTables, areaKey: string, i: Input)
    requires Complete(d) && areaKey in CommonAreaKeys
    ensures Complete(CommonHoursOverrideChanged(d, areaKey, i))
    ensures var t0, t1 := TotalsOf(d, rates), TotalsOf(CommonHoursOverrideChanged(d, areaKey, i), rates);
      && t1.commonMulch == t0.commonMulch && t1.homesMulch == t0.homesMulch
      && t1.smPwrCommon == t0.smPwrCommon && t1.loaderCommon == t0.loaderCommon
      && t1.smPwrHomes == t0.smPwrHomes && t1.loaderHomes == t0.loaderHomes
  {
    var r := CommonHoursOverrideChanged(d, areaKey, i);
    ApplyKeepsComplete(d, EditCommonHours(areaKey, i));
    assert forall k | k in CommonAreaKeys :: DisplayedArea(r.handCommonAreas[k], rates).mulch == DisplayedArea(d.handCommonAreas[k], rates).mulch;
    SumAreasMulchAgree(CommonAreaKeys, d.handCommonAreas, r.handCommonAreas, rates);
  }

  /** Only the shown yardage of each area enters the mulch total. */
  lemma {:induction false} SumAreasMulchAgree(keys: seq<string>, a1: map<string, Area>, a2: map<string, Area>, rates: RateTables)
    requires forall k | k in keys :: k in a1 && k in a2
    requires forall k | k in keys :: DisplayedArea(a1[k], rates).mulch == DisplayedArea(a2[k], rates).mulch
    ensures SumAreas(keys, a1, rates).mulch == SumAreas(keys, a2, rates).mulch
  {
    if |keys| > 0 {
      SumAreasMulchAgree(keys[..|keys| - 1], a1, a2, rates);
    }
  }

  /** Editing an input of a common area leaves every homes-side total as it
      was, and the common small-power and loader hours follow the new mulch
      total at their tiers. */
  lemma CommonFieldEditTotals(d: MulchingData, rates: RateTables, areaKey: string, f: AreaField)
    requires Complete(d) && areaKey in CommonAreaKeys
    ensures Complete(CommonFieldChanged(d, areaKey, f))
    ensures var t0, t1 := TotalsOf(d, rates), TotalsOf(CommonFieldChanged(d, areaKey, f), rates);
      var r := CommonFieldChanged(d, areaKey, f);
      && t1.homesHours == t0.homesHours && t1.homesMulch == t0.homesMulch
      && t1.smPwrHomes == t0.smPwrHomes && t1.loaderHomes == t0.loaderHomes
      && t1.smPwrCommon == BlockHours(r.smPwrCommon, TableOrEmpty(rates, "smPowerManHours"), t1.commonMulch)
      && r.smPwrCommon.hoursOverride.None? && r.loaderCommon.hoursOverride.None?
  {
    ApplyKeepsComplete(d, EditCommonField(areaKey, f));
  }

  /** A block's new tier takes effect at once: the block drops its override,
      so its hours are the computed hours at that tier. */
  lemma SelectionTakesEffect(d: MulchingData, rates: RateTables, tier: string)
    requires Complete(d)
    ensures Complete(SelectionChanged(d, SmPwrCommonBlock, tier))
    ensures var t := TotalsOf(SelectionChanged(d, SmPwrCommonBlock, tier), rates);
      var rate := Or(Get(TableOrEmpty(rates, "smPowerManHours"), OrText(Some(tier), "Average")), 0.0);
      t.smPwrCommon == (if rate > 0.0 && t.commonMulch > 0.0 then t.commonMulch / rate else 0.0)
  {
    ApplyKeepsComplete(d, EditSelection(SmPwrCommonBlock, tier));
  }

  /** Rows that each show nothing add up to nothing. */
  lemma {:induction false} SumAreasZero(keys: seq<string>, areas: map<string, Area>, rates: RateTables)
    requires forall k | k in keys :: k in areas && DisplayedArea(areas[k], rates) == AreaValues(0.0, 0.0)
    ensures SumAreas(keys, areas, rates) == AreaValues(0.0, 0.0)
  {
    if |keys| > 0 {
      SumAreasZero(keys[..|keys| - 1], areas, rates);
    }
  }

  lemma {:induction false} SumHomesZero(keys: seq<string>, homes: map<string, Home>, rates: RateTables)
    requires forall k | k in keys :: k in homes && DisplayedHome(homes[k], rates) == AreaValues(0.0, 0.0)
    ensures SumHomes(keys, homes, rates) == AreaValues(0.0, 0.0)
  {
    if |keys| > 0 {
      SumHomesZero(keys[..|keys| - 1], homes, rates);
    }
  }

  /** A table with no data yet shows no hours and no yardage. */
  lemma NewTableShowsNothing(rates: RateTables)
    ensures Complete(InitialMulchingData())
    ensures var t := TotalsOf(InitialMulchingData(), rates);
      t.totalHours == 0.0 && t.totalMulchYards == 0.0
  {
    var d := InitialMulchingData();
    InitialComplete();
    assert DisplayedArea(InitialArea(), rates) == AreaValues(0.0, 0.0);
    assert DisplayedHome(InitialHome(), rates) == AreaValues(0.0, 0.0);
    SumAreasZero(CommonAreaKeys, d.handCommonAreas, rates);
    SumHomesZero(HomeKeys, d.handHomes, rates);
  }
  /** Every rate of every table of a catalog is at least zero. */
  predicate NonnegativeRates(rates: RateTables)
  {
    forall name | name in rates :: forall k | k in rates[name] :: rates[name][k] >= 0.0
  }

  /** Every override stored in a table is at least zero. */
  predicate NonnegativeOverrides(d: MulchingData)
  {
    && (forall k | k in d.handCommonAreas :: Or(d.handCommonAreas[k].hoursOverride, 0.0) >= 0.0 && Or(d.handCommonAreas[k].mulchOverride, 0.0) >= 0.0)
    && (forall k | k in d.handHomes :: Or(d.handHomes[k].hoursOverride, 0.0) >= 0.0 && Or(d.handHomes[k].mulchOverride, 0.0) >= 0.0)
    && Or(d.smPwrCommon.hoursOverride, 0.0) >= 0.0 && Or(d.loaderCommon.hoursOverride, 0.0) >= 0.0
    && Or(d.smPwrHomes.hoursOverride, 0.0) >= 0.0 && Or(d.loaderHomes.hoursOverride, 0.0) >= 0.0
  }

  lemma HandHoursNonnegative(mulch: real, eff: real, prox: real)
    requires mulch >= 0.0 && prox >= 0.0
    ensures HandHours(mulch, eff, prox) >= 0.0
  {
    if eff > 0.0 {
      MulNonnegative(mulch, prox);
    }
  }

  lemma TableNonnegative(rates: RateTables, name: string)
    requires NonnegativeRates(rates)
    ensures forall k | k in TableOrEmpty(rates, name) :: TableOrEmpty(rates, name)[k] >= 0.0
  {
  }

  /** With a catalog of non-negative rates and non-negative overrides, every
      shown row is non-negative. */
  lemma DisplayedAreaNonnegative(a: Area, rates: RateTables)
    requires NonnegativeRates(rates)
    requires Or(a.hoursOverride, 0.0) >= 0.0 && Or(a.mulchOverride, 0.0) >= 0.0
    ensures DisplayedArea(a, rates).hours >= 0.0 && DisplayedArea(a, rates).mulch >= 0.0
  {
    var sqft := FieldNumber(a.sqft);
    if sqft > 0.0 {
      var depth := Or(Get(TableOrEmpty(rates, "depthInches"), PropertyKey(a.depth)), 0.0);
      var prox := Or(Get(TableOrEmpty(rates, "proximity"), PropertyKey(a.proximity)), 1.0);
      TableNonnegative(rates, "proximity");
      var eff := PageEfficiency(TableOrEmpty(rates, "handEfficiency"), a.efficiency);
      HandHoursNonnegative(PageYards(sqft, depth), eff, prox);
    }
  }

  lemma DisplayedHomeNonnegative(h: Home, rates: RateTables)
    requires NonnegativeRates(rates)
    requires Or(h.hoursOverride, 0.0) >= 0.0 && Or(h.mulchOverride, 0.0) >= 0.0
    ensures DisplayedHome(h, rates).hours >= 0.0 && DisplayedHome(h, rates).mulch >= 0.0
  {
    var total := FieldNumber(h.sqftEach) * FieldNumber(h.count);
    if total > 0.0 {
      var depth := Or(Get(TableOrEmpty(rates, "depthInches"), PropertyKey(h.depth)), 0.0);
      var prox := Or(Get(TableOrEmpty(rates, "proximity"), PropertyKey(h.proximity)), 1.0);
      TableNonnegative(rates, "proximity");
      var eff := PageEfficiency(TableOrEmpty(rates, "handEfficiency"), h.efficiency);
      HandHoursNonnegative(PageYards(total, depth), eff, prox);
    }
  }

  lemma {:induction false} SumAreasNonnegative(keys: seq<string>, d: MulchingData, rates: RateTables)
    requires forall k | k in keys :: k in d.handCommonAreas
    requires NonnegativeRates(rates) && NonnegativeOverrides(d)
    ensures SumAreas(keys, d.handCommonAreas, rates).hours >= 0.0 && SumAreas(keys, d.handCommonAreas, rates).mulch >= 0.0
  {
    if |keys| > 0 {
      SumAreasNonnegative(keys[..|keys| - 1], d, rates);
      DisplayedAreaNonnegative(d.handCommonAreas[keys[|keys| - 1]], rates);
    }
  }

  lemma {:induction false} SumHomesNonnegative(keys: seq<string>, d: MulchingData, rates: RateTables)
    requires forall k | k in keys :: k in d.handHomes
    requires NonnegativeRates(rates) && NonnegativeOverrides(d)
    ensures SumHomes(keys, d.handHomes, rates).hours >= 0.0 && SumHomes(keys, d.handHomes, rates).mulch >= 0.0
  {
    if |keys| > 0 {
      SumHomesNonnegative(keys[..|keys| - 1], d, rates);
      DisplayedHomeNonnegative(d.handHomes[keys[|keys| - 1]], rates);
    }
  }

  lemma BlockHoursNonnegative(b: Block, table: map<string, real>, totalMulch: real)
    requires Or(b.hoursOverride, 0.0) >= 0.0 && totalMulch >= 0.0
    ensures BlockHours(b, table, totalMulch) >= 0.0
  {
  }

  /** A catalog of non-negative rates and non-negative overrides never show
      negative hours or yards. */
  lemma TotalsNonnegative(d: MulchingData, rates: RateTables)
    requires Complete(d) && NonnegativeRates(rates) && NonnegativeOverrides(d)
    ensures var t := TotalsOf(d, rates);
      t.commonHours >= 0.0 && t.commonMulch >= 0.0 && t.homesHours >= 0.0 && t.homesMulch >= 0.0
      && t.totalHours >= 0.0 && t.totalMulchYards >= 0.0
  {
    var common := SumAreas(CommonAreaKeys, d.handCommonAreas, rates);
    var homes := SumHomes(HomeKeys, d.handHomes, rates);
    SumAreasNonnegative(CommonAreaKeys, d, rates);
    SumHomesNonnegative(HomeKeys, d, rates);
    var smPwr := TableOrEmpty(rates, "smPowerManHours");
    var loader := TableOrEmpty(rates, "loaderManHours");
    BlockHoursNonnegative(d.smPwrCommon, smPwr, common.mulch);
    BlockHoursNonnegative(d.loaderCommon, loader, common.mulch);
    BlockHoursNonnegative(d.smPwrHomes, smPwr, homes.mulch);
    BlockHoursNonnegative(d.loaderHomes, loader, homes.mulch);
  }
}
