/** The earlier revision of the mowing table screen. It shares the defaults,
    the merge and the input handlers of the current screen, but it recomputes
    the hours of the six decks only, totals only the displayed dollar rows,
    and its MISC hours input writes the MISC_HRS row. */
module MowingLegacyTable {
  import opened Js
  import opened Sums
  import opened Rounding
  import opened ServiceStore
  import opened MowingDefaults
  import opened MowingCalculations
  import opened MowingSave
  import opened MowingTable

  /** A copy of `qty` in which each key of `decks` is replaced by its
      override or computed hours. */
  function DeckHoursOver(eff: map<string, string>, acres: map<string, real>, qty: map<string, real>,
                         overrides: map<string, Num>, aph: AcresPerHour, decks: seq<string>): map<string, Num>
  {
    map k | k in qty.Keys + (set j | j in decks) ::
      if k in decks then KeyHours(eff, acres, overrides, aph, k) else Some(qty[k])
  }

  /** The hours the earlier screen shows: only the six deck keys are
      recomputed. Other rows, the trimmer, blower and rotary among them,
      keep their typed hours. */
  function LegacyHoursSpec(d: MowingData, aph: AcresPerHour): map<string, Num>
  {
    DeckHoursOver(d.selectedEfficiency, d.acres, d.qtyUnit, d.manualOverrides, aph, DeckKeys())
  }

  /** The `DECK_KEYS.forEach` loop over a copy of `qty`. */
  method OverwriteDeckHours(eff: map<string, string>, acres: map<string, real>, qty: map<string, real>,
                            overrides: map<string, Num>, aph: AcresPerHour, decks: seq<string>)
    returns (out: map<string, Num>)
    ensures out == DeckHoursOver(eff, acres, qty, overrides, aph, decks)
  {
    out := map k | k in qty :: Some(qty[k]);
    for i := 0 to |decks|
      invariant forall k :: k in out <==> k in qty || k in decks[..i]
      invariant forall k | k in out ::
        out[k] == if k in decks[..i] then KeyHours(eff, acres, overrides, aph, k) else Some(qty[k])
    {
      out := out[decks[i] := KeyHours(eff, acres, overrides, aph, decks[i])];
      assert decks[..i + 1] == decks[..i] + [decks[i]];
    }
    assert decks[..|decks|] == decks;
    assert out.Keys == DeckHoursOver(eff, acres, qty, overrides, aph, decks).Keys;
  }

  /** The `computedQtyUnit` memo of the earlier screen. */
  method LegacyComputeHours(d: MowingData, aph: AcresPerHour) returns (out: map<string, Num>)
    ensures out == LegacyHoursSpec(d, aph)
  {
    out := OverwriteDeckHours(d.selectedEfficiency, d.acres, d.qtyUnit, d.manualOverrides, aph, DeckKeys());
  }

  /** The hours one displayed row counts: a row missing from the hours reads
      undefined and counts as 0, like a null or missing value. */
  function ShownHours(qty: map<string, Num>, k: string): real
  {
    if k in qty then Or(qty[k], 0.0) else 0.0
  }

  /** One displayed row's dollars: its hours times its price. */
  function ShownRow(qty: map<string, Num>, dollars: map<string, real>, k: string): real
  {
    ShownHours(qty, k) * Or(NumAt(dollars, k), 0.0)
  }

  /** The dollars of `keys`, added up in order. */
  function RowsSum(keys: seq<string>, qty: map<string, Num>, dollars: map<string, real>): real
  {
    if |keys| == 0 then 0.0
    else RowsSum(keys[..|keys| - 1], qty, dollars) + ShownRow(qty, dollars, keys[|keys| - 1])
  }

  /** The hours of `keys`, added up in order. */
  function HoursSum(keys: seq<string>, qty: map<string, Num>): real
  {
    if |keys| == 0 then 0.0
    else HoursSum(keys[..|keys| - 1], qty) + ShownHours(qty, keys[|keys| - 1])
  }

  /** Totals over the rows `keys` only: dollars and hours from the hours
      `qty`, acreage and adjustments from `acres` and `summary`. */
  ghost function TotalsOver(acres: map<string, real>, summary: map<string, real>,
                            qty: map<string, Num>, dollars: map<string, real>, keys: seq<string>): MowingTotals
  {
    var totalOcc := RowsSum(keys, qty, dollars);
    MowingTotals(
      HoursSum(keys, qty),
      SumMap(acres),
      totalOcc,
      Adjusted(totalOcc, summary),
      Billed(Adjusted(totalOcc, summary), summary),
      map k | k in keys :: ShownRow(qty, dollars, k))
  }

  /** What the earlier `computeTotals(targetData)` returns: totals over the
      displayed rows. */
  ghost function LegacyTotalsOf(acres: map<string, real>, summary: map<string, real>,
                                qty: map<string, Num>, dollars: map<string, real>): MowingTotals
  {
    TotalsOver(acres, summary, qty, dollars, DisplayKeys())
  }

  /** The `forEach` and `reduce` loops of the earlier `computeTotals`: each
      row's dollars, their sum and the sum of the hours, over the rows `keys`. */
  method SumShownRows(qty: map<string, Num>, dollars: map<string, real>, keys: seq<string>)
    returns (rowTotals: map<string, real>, totalOcc: real, totalHours: real)
    ensures rowTotals == map k | k in keys :: ShownRow(qty, dollars, k)
    ensures totalOcc == RowsSum(keys, qty, dollars)
    ensures totalHours == HoursSum(keys, qty)
  {
    totalOcc := 0.0;
    totalHours := 0.0;
    rowTotals := map[];
    for i := 0 to |keys|
      invariant totalOcc == RowsSum(keys[..i], qty, dollars)
      invariant totalHours == HoursSum(keys[..i], qty)
      invariant forall k :: k in rowTotals <==> k in keys[..i]
      invariant forall k | k in rowTotals :: rowTotals[k] == ShownRow(qty, dollars, k)
    {
      assert keys[..i + 1][..i] == keys[..i];
      var subtotal := ShownRow(qty, dollars, keys[i]);
      rowTotals := rowTotals[keys[i] := subtotal];
      totalOcc := totalOcc + subtotal;
      totalHours := totalHours + ShownHours(qty, keys[i]);
      assert keys[..i + 1] == keys[..i] + [keys[i]];
    }
    assert keys[..|keys|] == keys;
  }

  /** The earlier `computeTotals` over the rows `keys`. */
  method SumKeys(target: MowingData, qty: map<string, Num>, dollars: map<string, real>, keys: seq<string>)
    returns (t: MowingTotals)
    ensures t == TotalsOver(target.acres, target.summary, qty, dollars, keys)
  {
    var rowTotals, totalOcc, totalHours := SumShownRows(qty, dollars, keys);
    var totalAcres := SumValues(target.acres);
    var adjDollar := totalOcc * (1.0 + Or(NumAt(target.summary, "adjPercent"), 0.0) / 100.0);
    var final := adjDollar * Or(NumAt(target.summary, "numOccurrences"), 1.0);
    t := MowingTotals(totalHours, totalAcres, totalOcc, adjDollar, final, rowTotals);
  }

  /** The earlier `computeTotals(targetData)`, given the hours it reads. */
  method LegacyComputeTotals(target: MowingData, qty: map<string, Num>, dollars: map<string, real>)
    returns (t: MowingTotals)
    ensures t == LegacyTotalsOf(target.acres, target.summary, qty, dollars)
  {
    t := SumKeys(target, qty, dollars, DisplayKeys());
  }

  /** The store write an input event makes on the earlier screen: acreage and
      adjustments come from the edited record, hours and dollars from the
      hours the screen showed before the edit. */
  ghost function LegacyEditWrite(list: seq<Entry<MowingData>>, tableId: string, aph: AcresPerHour,
                                 dollars: map<string, real>, e: MowingEdit): StoreWrite<MowingData>
  {
    var d := Loaded(list, tableId);
    var u := Apply(d, e);
    SaveMowing(tableId, u, list, LegacyTotalsOf(u.acres, u.summary, LegacyHoursSpec(d, aph), dollars))
  }

  /** One input event on the earlier screen. */
  method LegacyHandleEdit(list: seq<Entry<MowingData>>, tableId: string, aph: AcresPerHour,
                          dollars: map<string, real>, e: MowingEdit) returns (w: StoreWrite<MowingData>)
    ensures w == LegacyEditWrite(list, tableId, aph, dollars, e)
  {
    var data := Loaded(list, tableId);
    var computedQtyUnit := LegacyComputeHours(data, aph);
    var updated := Apply(data, e);
    var totals := LegacyComputeTotals(updated, computedQtyUnit, dollars);
    w := SaveMowing(tableId, updated, list, totals);
  }

  /** The key the earlier screen's MISC hours input writes. */
  const LegacyMiscKey: string := "MISC_HRS"

  /** Dollars over `keys` ignore the hours of a key not among them. */
  lemma {:induction false} RowsSumIgnores(keys: seq<string>, qty: map<string, Num>, dollars: map<string, real>,
                                         k: string, v: Num)
    requires k !in keys
    ensures RowsSum(keys, qty[k := v], dollars) == RowsSum(keys, qty, dollars)
    ensures HoursSum(keys, qty[k := v]) == HoursSum(keys, qty)
  {
    if |keys| > 0 {
      assert keys[|keys| - 1] in keys;
      RowsSumIgnores(keys[..|keys| - 1], qty, dollars, k, v);
    }
  }

  /** Totals over `keys` ignore the hours of a key not among them. */
  lemma TotalsOverIgnores(acres: map<string, real>, summary: map<string, real>,
                          qty: map<string, Num>, dollars: map<string, real>, keys: seq<string>, k: string, v: Num)
    requires k !in keys
    ensures TotalsOver(acres, summary, qty[k := v], dollars, keys) == TotalsOver(acres, summary, qty, dollars, keys)
  {
    RowsSumIgnores(keys, qty, dollars, k, v);
    forall j | j in keys ensures ShownRow(qty[k := v], dollars, j) == ShownRow(qty, dollars, j) {
      assert j != k;
    }
    assert (map j | j in keys :: ShownRow(qty[k := v], dollars, j)) == (map j | j in keys :: ShownRow(qty, dollars, j));
  }

  /** The earlier totals look at the displayed rows only: hours stored under
      any other key change nothing. */
  lemma LegacyTotalsIgnoreUndisplayed(acres: map<string, real>, summary: map<string, real>,
                                      qty: map<string, Num>, dollars: map<string, real>, k: string, v: Num)
    requires k !in DisplayKeys()
    ensures LegacyTotalsOf(acres, summary, qty[k := v], dollars) == LegacyTotalsOf(acres, summary, qty, dollars)
  {
    TotalsOverIgnores(acres, summary, qty, dollars, DisplayKeys(), k, v);
  }

  /** Shown hours are never negative when the hours are not. */
  lemma {:induction false} HoursSumNonnegative(keys: seq<string>, qty: map<string, Num>)
    requires forall k | k in qty && qty[k].Some? :: qty[k].value >= 0.0
    ensures HoursSum(keys, qty) >= 0.0
  {
    if |keys| > 0 {
      HoursSumNonnegative(keys[..|keys| - 1], qty);
    }
  }

  /** Both revisions give a deck with acreage the same hours. */
  lemma RevisionsAgreeOnDecks(d: MowingData, aph: AcresPerHour, k: string)
    requires k in DeckKeySet() && k in d.acres
    ensures k in LegacyHoursSpec(d, aph) && k in HoursSpec(d, aph)
    ensures LegacyHoursSpec(d, aph)[k] == HoursSpec(d, aph)[k]
  {
  }

  /** Both revisions keep the typed hours of a row that is neither a deck nor
      has acreage. */
  lemma RevisionsAgreeOnTypedRows(d: MowingData, aph: AcresPerHour, k: string)
    requires k in d.qtyUnit && k !in DeckKeySet() && k !in d.acres
    ensures LegacyHoursSpec(d, aph)[k] == HoursSpec(d, aph)[k] == Some(d.qtyUnit[k])
  {
  }

  /** The revisions part on a row with acreage that is not a deck and has no
      override entry, such as TRIMMER in a merged record: the earlier screen
      keeps its typed hours, the current one reads its override as undefined. */
  lemma RevisionsDifferOnSmallPower(d: MowingData, aph: AcresPerHour, k: string)
    requires k in d.qtyUnit && k in d.acres && k !in DeckKeySet() && k !in d.manualOverrides
    ensures LegacyHoursSpec(d, aph)[k] == Some(d.qtyUnit[k])
    ensures HoursSpec(d, aph)[k] == None
  {
  }

  /** The merged TRIMMER row is such a row whenever the saved table has no
      override entry for it. */
  lemma MergedTrimmerRow(saved: Option<MowingData>)
    requires saved.Some? ==> "TRIMMER" !in saved.value.manualOverrides
    ensures var d := Merge(saved);
      "TRIMMER" in d.qtyUnit && "TRIMMER" in d.acres && "TRIMMER" !in DeckKeySet()
      && "TRIMMER" !in d.manualOverrides
  {
    assert "TRIMMER" !in DeckKeySet();
  }

  /** Typing hours into a row that is not among `decks` sets that row and
      leaves every other row alone. */
  lemma DeckHoursQtyEdit(eff: map<string, string>, acres: map<string, real>, qty: map<string, real>,
                         overrides: map<string, Num>, aph: AcresPerHour, decks: seq<string>, k: string, x: real)
    requires k !in decks
    ensures DeckHoursOver(eff, acres, qty[k := x], overrides, aph, decks) ==
      DeckHoursOver(eff, acres, qty, overrides, aph, decks)[k := Some(x)]
  {
    var l := DeckHoursOver(eff, acres, qty[k := x], overrides, aph, decks);
    var r := DeckHoursOver(eff, acres, qty, overrides, aph, decks)[k := Some(x)];
    assert l.Keys == r.Keys;
  }

  /** On the earlier screen the MISC hours input reaches the MISC_HRS row:
      its hours become the snapped number, and no other row changes. */
  lemma LegacyMiscInputSetsMiscRow(d: MowingData, aph: AcresPerHour, i: Input)
    ensures LegacyHoursSpec(Apply(d, EditQty(LegacyMiscKey, i)), aph) ==
      LegacyHoursSpec(d, aph)[LegacyMiscKey := Some(SnapQuarter(NumberOrZero(i)))]
  {
    ApplyIsHandler(d, EditQty(LegacyMiscKey, i));
    assert LegacyMiscKey !in DeckKeySet();
    DeckHoursQtyEdit(d.selectedEfficiency, d.acres, d.qtyUnit, d.manualOverrides, aph, DeckKeys(),
                     LegacyMiscKey, SnapQuarter(NumberOrZero(i)));
  }

  /** The earlier save stores hours and dollars that do not depend on the
      edit: every input event on the same table stores the same totals
      except for acreage and adjustments, which are current. */
  lemma LegacySavedDollarsIgnoreEdit(list: seq<Entry<MowingData>>, tableId: string, aph: AcresPerHour,
                                     dollars: map<string, real>, e1: MowingEdit, e2: MowingEdit)
    ensures var s1 := Find(LegacyEditWrite(list, tableId, aph, dollars, e1).list, tableId);
      var s2 := Find(LegacyEditWrite(list, tableId, aph, dollars, e2).list, tableId);
      && s1.Some? && s2.Some? && s1.value.data.totals.Some? && s2.value.data.totals.Some?
      && s1.value.data.totals.value.totalOcc == s2.value.data.totals.value.totalOcc
      && s1.value.data.totals.value.totalHours == s2.value.data.totals.value.totalHours
      && s1.value.data.totals.value.totalAcres == SumMap(s1.value.data.acres)
  {
  }
}
