/** Mowing hours and dollars. Hours for each mowed key come from its acreage
    and the deck's acres-per-hour rate, snapped to a quarter hour, unless a
    manual override is stored; dollars are hours times the row's price, summed,
    adjusted by a percentage and multiplied by the number of occurrences. */
module MowingCalculations {
  import opened Js
  import opened Rounding
  import opened Sums
  import opened MowingDefaults

  /** `acresPerHour[size][tier]`: acres a deck of that width mows in an hour. */
  type AcresPerHour = map<string, map<string, real>>

  /** The acres-per-hour catalog a new estimate starts with, one tier table
      per deck width. */
  function DefaultAcresPerHour(): (r: AcresPerHour)
    ensures forall size | size in DeckSizes :: size in r && forall t | t in EfficiencyOptions :: t in r[size] && r[size][t] > 0.0
  {
    map["72" := DefaultTiers72(), "60" := DefaultTiers60(), "48" := DefaultTiers48()]
  }

  function DefaultTiers72(): map<string, real>
  {
    map["OBSTACLES" := 0.65, "HOA_HOMES" := 0.85, "AVERAGE" := 0.95, "OPEN_LAWN" := 1.3,
        "FIELDS" := 1.45, "MONTHLY" := 0.6, "DOUBLE_CUT" := 0.7]
  }

  function DefaultTiers60(): map<string, real>
  {
    map["OBSTACLES" := 0.6, "HOA_HOMES" := 0.75, "AVERAGE" := 0.85, "OPEN_LAWN" := 1.0,
        "FIELDS" := 1.25, "MONTHLY" := 0.55, "DOUBLE_CUT" := 0.7]
  }

  function DefaultTiers48(): map<string, real>
  {
    map["OBSTACLES" := 0.4, "HOA_HOMES" := 0.6, "AVERAGE" := 0.65, "OPEN_LAWN" := 0.75,
        "FIELDS" := 0.9, "MONTHLY" := 0.35, "DOUBLE_CUT" := 0.45]
  }

  /** `key.split("-")[0]`: the text before the first dash, the whole key when
      it has none. */
  function SizePrefix(key: string): (r: string)
    ensures r <= key
    ensures '-' !in r
    ensures |r| < |key| ==> key[|r|] == '-'
  {
    if |key| == 0 || key[0] == '-' then ""
    else [key[0]] + SizePrefix(key[1..])
  }

  /** `acresPerHour?.[size]?.[eff]`, and 0 when that lookup is undefined. */
  function DeckRate(aph: AcresPerHour, size: string, eff: Option<string>): (r: real)
    ensures size in aph && PropertyKey(eff) in aph[size] ==> r == aph[size][PropertyKey(eff)]
    ensures size !in aph || PropertyKey(eff) !in aph[size] ==> r == 0.0
  {
    var tier := PropertyKey(eff);
    if size in aph && tier in aph[size] then aph[size][tier] else 0.0
  }

  /** Hours to mow `acres` at `rate` acres an hour, to the nearest quarter
      hour; no rate (or a non-positive one) gives no hours. */
  function AutoHours(acres: real, rate: real): (h: real)
    ensures rate <= 0.0 ==> h == 0.0
    ensures rate > 0.0 ==> IsQuarter(h) && h - 0.125 <= acres / rate < h + 0.125
  {
    if rate > 0.0 then SnapQuarter(acres / rate) else 0.0
  }

  /** The computed hours of one key: its acreage at its deck's rate for the
      key's tier. */
  function ComputedHours(eff: map<string, string>, acres: map<string, real>, aph: AcresPerHour,
                         key: string): real
  {
    AutoHours(Or(NumAt(acres, key), 0.0), DeckRate(aph, SizePrefix(key), Get(eff, key)))
  }

  /** The hours written for one key of `acres`: the override when the entry
      is not null. A key with no override entry at all reads undefined, which
      is not null either, so it gets that undefined. */
  function KeyHours(eff: map<string, string>, acres: map<string, real>, overrides: map<string, Num>,
                    aph: AcresPerHour, key: string): (h: Num)
    ensures key !in overrides ==> h.None?
    ensures key in overrides && overrides[key].Some? ==> h == overrides[key]
    ensures key in overrides && overrides[key].None? ==> h.Some? && IsQuarter(h.value)
  {
    if key !in overrides then None
    else if overrides[key].Some? then overrides[key]
    else Some(ComputedHours(eff, acres, aph, key))
  }

  /** A copy of `qty` in which every key of `acres` is replaced by its hours. */
  function HoursOver(eff: map<string, string>, acres: map<string, real>, qty: map<string, real>,
                     overrides: map<string, Num>, aph: AcresPerHour): (h: map<string, Num>)
  {
    map k | k in qty.Keys + acres.Keys ::
      if k in acres then KeyHours(eff, acres, overrides, aph, k) else Some(qty[k])
  }

  /** What `computeHours(targetData, acresPerHour)` returns. */
  function HoursSpec(d: MowingData, aph: AcresPerHour): map<string, Num>
  {
    HoursOver(d.selectedEfficiency, d.acres, d.qtyUnit, d.manualOverrides, aph)
  }

  /** `computeHours(targetData, acresPerHour)`. */
  method ComputeHours(d: MowingData, aph: AcresPerHour) returns (out: map<string, Num>)
    ensures out == HoursSpec(d, aph)
  {
    var eff, acres, qty, overrides := d.selectedEfficiency, d.acres, d.qtyUnit, d.manualOverrides;
    ghost var spec := HoursOver(eff, acres, qty, overrides, aph);
    out := map k | k in qty :: Some(qty[k]);
    var rest := acres.Keys;
    while rest != {}
      invariant rest <= acres.Keys
      invariant forall k :: k in out <==> k in qty || (k in acres && k !in rest)
      invariant forall k | k in out :: out[k] == if k in acres && k !in rest then spec[k] else Some(qty[k])
      decreases rest
    {
      var k :| k in rest;
      out := out[k := KeyHours(eff, acres, overrides, aph, k)];
      rest := rest - {k};
    }
    assert out.Keys == spec.Keys;
  }

  /** Keys outside `acres` keep their `qtyUnit` value. */
  lemma HoursKeepOtherRows(d: MowingData, aph: AcresPerHour, k: string)
    requires k in d.qtyUnit && k !in d.acres
    ensures HoursSpec(d, aph)[k] == Some(d.qtyUnit[k])
  {
  }

  /** For a key of `acres`: a typed override wins whatever the acreage; a null
      override yields the quarter-hour snap of acres over rate (0 without a
      positive rate). */
  lemma HoursOverridePrecedence(d: MowingData, aph: AcresPerHour, k: string)
    requires k in d.acres && k in d.manualOverrides
    ensures d.manualOverrides[k].Some? ==> HoursSpec(d, aph)[k] == d.manualOverrides[k]
    ensures d.manualOverrides[k].None? ==>
      var rate := DeckRate(aph, SizePrefix(k), Get(d.selectedEfficiency, k));
      && HoursSpec(d, aph)[k].Some?
      && (rate <= 0.0 ==> HoursSpec(d, aph)[k].value == 0.0)
      && (rate > 0.0 ==> HoursSpec(d, aph)[k] == Some(SnapQuarter(d.acres[k] / rate)))
  {
  }

  /** A key of `acres` without any override entry (TRIMMER, BLOWER and ROTARY
      in the default record) gets undefined hours, and whatever quantity was
      entered for it in `qtyUnit` is lost. */
  lemma HoursDropQtyOfUnoverriddenKey(d: MowingData, aph: AcresPerHour, k: string, v: real)
    requires k in d.acres && k !in d.manualOverrides
    ensures HoursSpec(d, aph)[k] == None
    ensures HoursSpec(d.(qtyUnit := d.qtyUnit[k := v]), aph)[k] == None
  {
  }

  /** A key without a dash is its own size, so it is priced from the table
      under its whole name; the default catalog has none of TRIMMER, BLOWER
      or ROTARY, so they get no rate. */
  lemma {:induction false} NoDashKeyIsOwnSize(key: string)
    requires '-' !in key
    ensures SizePrefix(key) == key
  {
    if |key| > 0 {
      assert key[0] in key;
      assert '-' !in key[1..] by {
        forall i | 0 <= i < |key| - 1 ensures key[1..][i] != '-' {
          assert key[1..][i] == key[i + 1];
        }
      }
      NoDashKeyIsOwnSize(key[1..]);
    }
  }

  /** A dashless key missing from the catalog's deck widths gets no rate,
      whatever its tier; the default catalog has none of TRIMMER, BLOWER or
      ROTARY. */
  lemma UnlistedKeyHasNoRate(aph: AcresPerHour, key: string, eff: Option<string>)
    requires '-' !in key && key !in aph
    ensures DeckRate(aph, SizePrefix(key), eff) == 0.0
  {
    NoDashKeyIsOwnSize(key);
  }

  /** The default catalog lists only the three deck widths. */
  lemma DefaultCatalogWidths()
    ensures DefaultAcresPerHour().Keys == {"72", "60", "48"}
    ensures forall i | 0 <= i < |SmPwrKeys| :: SmPwrKeys[i] !in DefaultAcresPerHour() && '-' !in SmPwrKeys[i]
    ensures RotaryKey !in DefaultAcresPerHour() && '-' !in RotaryKey
  {
  }

  /** Each deck key is priced under its deck width. */
  lemma DeckKeySize(i: nat)
    requires i < |DeckKeys()|
    ensures SizePrefix(DeckKeys()[i]) == DeckSizes[i / 2]
  {
    var k := DeckKeys()[i];
    assert k[..2] == DeckSizes[i / 2] && k[2] == '-';
    var p := SizePrefix(k);
    assert '-' !in k[..2];
    assert |p| == 2;
  }

  /** One scenario: 1.9 acres on the 72" deck at the AVERAGE tier of the
      default catalog (0.95 acres an hour) is two hours. */
  lemma DefaultDeckScenario()
    ensures AutoHours(1.9, DeckRate(DefaultAcresPerHour(), SizePrefix("72-area1"), Some("AVERAGE"))) == 2.0
  {
    DeckKeySize(0);
    assert DeckRate(DefaultAcresPerHour(), "72", Some("AVERAGE")) == 0.95;
    SnapQuarterUnique(1.9 / 0.95, 2.0);
  }

  /** The dollar value of one row: its hours times its price, missing values
      counting as 0. */
  function RowTotal(qty: map<string, Num>, dollars: map<string, real>, k: string): (r: real)
    requires k in qty
    ensures qty[k].Some? && k in dollars ==> r == qty[k].value * dollars[k]
    ensures qty[k].None? || k !in dollars ==> r == 0.0
  {
    Or(qty[k], 0.0) * Or(NumAt(dollars, k), 0.0)
  }

  /** The row totals, one per key of `qty`. */
  function RowsOf(qty: map<string, Num>, dollars: map<string, real>): map<string, real>
  {
    map k | k in qty :: RowTotal(qty, dollars, k)
  }

  /** The hours of each row, missing values counting as 0. */
  function HoursOf(qty: map<string, Num>): map<string, real>
  {
    map k | k in qty :: Or(qty[k], 0.0)
  }

  /** The per-occurrence amount after the percentage adjustment; a missing
      percentage counts as 0. */
  function Adjusted(totalOcc: real, summary: map<string, real>): real
  {
    totalOcc * (1.0 + Or(NumAt(summary, "adjPercent"), 0.0) / 100.0)
  }

  /** The adjusted amount times the number of occurrences, where zero or a
      missing count is taken as 1. */
  function Billed(adjDollar: real, summary: map<string, real>): (r: real)
    ensures Falsy(NumAt(summary, "numOccurrences")) ==> r == adjDollar
    ensures "numOccurrences" in summary && summary["numOccurrences"] != 0.0 ==>
      r == adjDollar * summary["numOccurrences"]
  {
    adjDollar * Or(NumAt(summary, "numOccurrences"), 1.0)
  }

  /** What `computeTotals(targetData, qtyUnit, mowingDollars)` returns for a
      table with these acres and summary. */
  ghost function TotalsOf(acres: map<string, real>, summary: map<string, real>,
                          qty: map<string, Num>, dollars: map<string, real>): MowingTotals
  {
    var totalOcc := SumMap(RowsOf(qty, dollars));
    MowingTotals(
      SumMap(HoursOf(qty)),
      SumMap(acres),
      totalOcc,
      Adjusted(totalOcc, summary),
      Billed(Adjusted(totalOcc, summary), summary),
      RowsOf(qty, dollars))
  }

  /** The row loop of `computeTotals`: each row's subtotal, and their sum. */
  method SumRows(qty: map<string, Num>, dollars: map<string, real>)
    returns (rowTotals: map<string, real>, totalOcc: real)
    ensures rowTotals == RowsOf(qty, dollars)
    ensures totalOcc == SumMap(rowTotals)
  {
    totalOcc := 0.0;
    rowTotals := map[];
    var rest := qty.Keys;
    while rest != {}
      invariant rest <= qty.Keys
      invariant rowTotals.Keys == qty.Keys - rest
      invariant forall k | k in rowTotals :: rowTotals[k] == RowTotal(qty, dollars, k)
      invariant totalOcc == SumMap(rowTotals)
      decreases rest
    {
      var k :| k in rest;
      var subtotal := RowTotal(qty, dollars, k);
      SumMapAdd(rowTotals, k, subtotal);
      rowTotals := rowTotals[k := subtotal];
      totalOcc := totalOcc + subtotal;
      rest := rest - {k};
    }
  }

  /** `computeTotals(targetData, qtyUnit, mowingDollars)`. */
  method ComputeTotals(d: MowingData, qty: map<string, Num>, dollars: map<string, real>)
    returns (t: MowingTotals)
    ensures t == TotalsOf(d.acres, d.summary, qty, dollars)
  {
    var rowTotals, totalOcc := SumRows(qty, dollars);
    var totalHours := SumValues(HoursOf(qty));
    var totalAcres := SumValues(d.acres);
    var adjDollar := totalOcc * (1.0 + Or(NumAt(d.summary, "adjPercent"), 0.0) / 100.0);
    var final := adjDollar * Or(NumAt(d.summary, "numOccurrences"), 1.0);
    t := MowingTotals(totalHours, totalAcres, totalOcc, adjDollar, final, rowTotals);
  }

  /** Re-entering one row's hours changes that row's total and no other. */
  lemma RowsOfEdit(qty: map<string, Num>, dollars: map<string, real>, k: string, v: Num)
    requires k in qty
    ensures RowsOf(qty[k := v], dollars) == RowsOf(qty, dollars)[k := RowTotal(qty[k := v], dollars, k)]
  {
    var l := RowsOf(qty[k := v], dollars);
    var r := RowsOf(qty, dollars)[k := RowTotal(qty[k := v], dollars, k)];
    assert l.Keys == r.Keys;
    forall j | j in l ensures l[j] == r[j] {
      if j != k {
        assert RowTotal(qty[k := v], dollars, j) == RowTotal(qty, dollars, j);
      }
    }
  }

  /** Re-entering one row's hours swaps that row's old total for its new one
      in the sum. */
  lemma OccRowEdit(qty: map<string, Num>, dollars: map<string, real>, k: string, v: Num)
    requires k in qty
    ensures SumMap(RowsOf(qty[k := v], dollars)) ==
      SumMap(RowsOf(qty, dollars)) - RowTotal(qty, dollars, k) + RowTotal(qty[k := v], dollars, k)
  {
    RowsOfEdit(qty, dollars, k, v);
    SumMapUpdate(RowsOf(qty, dollars), k, RowTotal(qty[k := v], dollars, k));
  }

  /** Re-entering one row's hours moves the hours sum by the change. */
  lemma HoursRowEdit(qty: map<string, Num>, k: string, v: Num)
    requires k in qty
    ensures SumMap(HoursOf(qty[k := v])) == SumMap(HoursOf(qty)) + Or(v, 0.0) - Or(qty[k], 0.0)
  {
    assert HoursOf(qty[k := v]) == HoursOf(qty)[k := Or(v, 0.0)];
    SumMapUpdate(HoursOf(qty), k, Or(v, 0.0));
  }

  /** Re-entering one row's hours moves that row's dollars by the change in
      hours times the row's price. */
  lemma RowTotalDelta(qty: map<string, Num>, dollars: map<string, real>, k: string, v: Num)
    requires k in qty
    ensures RowTotal(qty[k := v], dollars, k) - RowTotal(qty, dollars, k) ==
      (Or(v, 0.0) - Or(qty[k], 0.0)) * Or(NumAt(dollars, k), 0.0)
  {
    var p := Or(NumAt(dollars, k), 0.0);
    assert Or(v, 0.0) * p - Or(qty[k], 0.0) * p == (Or(v, 0.0) - Or(qty[k], 0.0)) * p;
  }

  /** Re-entering one row's hours moves the per-occurrence dollars by that
      row's change (see `RowTotalDelta`), and the hours total by the change
      in hours; acreage is untouched. */
  lemma TotalsRowEdit(acres: map<string, real>, summary: map<string, real>,
                      qty: map<string, Num>, dollars: map<string, real>, k: string, v: Num)
    requires k in qty
    ensures TotalsOf(acres, summary, qty[k := v], dollars).totalOcc ==
      TotalsOf(acres, summary, qty, dollars).totalOcc - RowTotal(qty, dollars, k) + RowTotal(qty[k := v], dollars, k)
    ensures TotalsOf(acres, summary, qty[k := v], dollars).totalHours ==
      TotalsOf(acres, summary, qty, dollars).totalHours + Or(v, 0.0) - Or(qty[k], 0.0)
    ensures TotalsOf(acres, summary, qty[k := v], dollars).totalAcres == TotalsOf(acres, summary, qty, dollars).totalAcres
  {
    OccRowEdit(qty, dollars, k, v);
    HoursRowEdit(qty, k, v);
  }

  /** Non-negative hours, prices, acreage and occurrences, and a discount of
      at most 100%, never produce a negative amount. */
  lemma TotalsNonnegative(acres: map<string, real>, summary: map<string, real>,
                          qty: map<string, Num>, dollars: map<string, real>)
    requires forall k | k in qty :: Or(qty[k], 0.0) >= 0.0
    requires forall k | k in dollars :: dollars[k] >= 0.0
    requires forall k | k in acres :: acres[k] >= 0.0
    requires Or(NumAt(summary, "adjPercent"), 0.0) >= -100.0
    requires Or(NumAt(summary, "numOccurrences"), 1.0) >= 0.0
    ensures var t := TotalsOf(acres, summary, qty, dollars);
      t.totalHours >= 0.0 && t.totalAcres >= 0.0 && t.totalOcc >= 0.0 && t.adjDollar >= 0.0 && t.final >= 0.0
  {
    var rows := RowsOf(qty, dollars);
    forall k | k in rows ensures rows[k] >= 0.0 {
      var h, p := Or(qty[k], 0.0), Or(NumAt(dollars, k), 0.0);
      MulNonnegative(h, p);
    }
    SumMapNonnegative(rows);
    SumMapNonnegative(HoursOf(qty));
    SumMapNonnegative(acres);
    var occ := SumMap(rows);
    var factor := 1.0 + Or(NumAt(summary, "adjPercent"), 0.0) / 100.0;
    MulNonnegative(occ, factor);
    MulNonnegative(Adjusted(occ, summary), Or(NumAt(summary, "numOccurrences"), 1.0));
  }

  /** With no acreage, no quantities and no typed overrides, every row has
      zero hours. */
  lemma NoAcresNoHours(eff: map<string, string>, acres: map<string, real>, qty: map<string, real>,
                       overrides: map<string, Num>, aph: AcresPerHour)
    requires forall k | k in acres :: acres[k] == 0.0
    requires forall k | k in qty :: qty[k] == 0.0
    requires forall k | k in overrides :: overrides[k] == None
    ensures forall k | k in HoursOver(eff, acres, qty, overrides, aph) :: Or(HoursOver(eff, acres, qty, overrides, aph)[k], 0.0) == 0.0
  {
    SnapQuarterUnique(0.0, 0.0);
  }

  /** A new table costs nothing: no acreage and no hours give all-zero totals. */
  lemma FreshTableTotals(aph: AcresPerHour, dollars: map<string, real>)
    ensures var d := InitialMowingData();
      var t := TotalsOf(d.acres, d.summary, HoursSpec(d, aph), dollars);
      t.totalHours == 0.0 && t.totalAcres == 0.0 && t.totalOcc == 0.0 && t.final == 0.0
  {
    var d := InitialMowingData();
    var h := HoursSpec(d, aph);
    NoAcresNoHours(d.selectedEfficiency, d.acres, d.qtyUnit, d.manualOverrides, aph);
    SumMapZero(RowsOf(h, dollars));
    SumMapZero(HoursOf(h));
    SumMapZero(d.acres);
  }
}
