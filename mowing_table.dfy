/** The mowing table screen: it merges the saved table over the defaults,
    shows computed hours and totals, and saves an edited copy of the record on
    every input. */
module MowingTable {
  import opened Js
  import opened Rounding
  import opened ServiceStore
  import opened MowingDefaults
  import opened MowingCalculations
  import opened MowingSave

  /** The record the screen works on: each map of the saved table laid over
      the default one, the saved name or else the default one, and the saved
      totals (`{}` when there are none). A table that is not in the list yet
      shows the defaults. Whatever was saved, every deck row has an acreage
      and an override entry, and every default hours row has hours. */
  function Merge(saved: Option<MowingData>): (d: MowingData)
    ensures saved.None? ==> d == InitialMowingData()
    ensures saved.Some? ==>
      && (saved.value.name.Some? ==> d.name == saved.value.name)
      && (saved.value.name.None? ==> d.name == InitialMowingData().name)
      && Overlays(d.selectedEfficiency, InitialEfficiency(), saved.value.selectedEfficiency)
      && Overlays(d.acres, InitialAcres(), saved.value.acres)
      && Overlays(d.qtyUnit, InitialQtyUnit(), saved.value.qtyUnit)
      && Overlays(d.manualOverrides, InitialOverrides(), saved.value.manualOverrides)
      && Overlays(d.summary, InitialSummary(), saved.value.summary)
      && d.totals == saved.value.totals
    ensures forall k | k in DeckKeySet() :: k in d.acres && k in d.manualOverrides
    ensures forall k | k in InitialQtyUnit() :: k in d.qtyUnit
  {
    if saved.None? then InitialMowingData()
    else
      var s := saved.value;
      MowingData(
        if s.name.Some? then s.name else InitialMowingData().name,
        Overlay(InitialEfficiency(), s.selectedEfficiency),
        Overlay(InitialAcres(), s.acres),
        Overlay(InitialQtyUnit(), s.qtyUnit),
        Overlay(InitialOverrides(), s.manualOverrides),
        Overlay(InitialSummary(), s.summary),
        s.totals)
  }

  /** The table with this id in the stored list, merged over the defaults. */
  function Loaded(list: seq<Entry<MowingData>>, tableId: string): (d: MowingData)
    ensures !HasId(list, tableId) ==> d == InitialMowingData()
    ensures HasId(list, tableId) ==> d == Merge(Some(Find(list, tableId).value.data))
  {
    var entry := Find(list, tableId);
    Merge(if entry.Some? then Some(entry.value.data) else None)
  }

  /** `handleNameChange`: only the name changes. */
  function NameChanged(d: MowingData, name: string): (r: MowingData)
    ensures r.name == Some(name) && r == d.(name := r.name)
  {
    d.(name := Some(name))
  }

  /** `handleAcresChange(key)`: stores the parsed acreage (0 when blank or not
      a number) and nulls the key's override, so its hours are recomputed. */
  function AcresChanged(d: MowingData, key: string, i: Input): (r: MowingData)
    ensures r.acres == d.acres[key := NumberOrZero(i)]
    ensures r.manualOverrides == d.manualOverrides[key := None]
    ensures r == d.(acres := r.acres, manualOverrides := r.manualOverrides)
  {
    d.(acres := d.acres[key := NumberOrZero(i)], manualOverrides := d.manualOverrides[key := None])
  }

  /** `handleEfficiencyChange(key)`: stores the chosen tier and nulls the
      key's override. */
  function EfficiencyChanged(d: MowingData, key: string, tier: string): (r: MowingData)
    ensures r.selectedEfficiency == d.selectedEfficiency[key := tier]
    ensures r.manualOverrides == d.manualOverrides[key := None]
    ensures r == d.(selectedEfficiency := r.selectedEfficiency, manualOverrides := r.manualOverrides)
  {
    d.(selectedEfficiency := d.selectedEfficiency[key := tier], manualOverrides := d.manualOverrides[key := None])
  }

  /** `handleSummaryChange(k)`: stores the parsed number, 0 when blank or not
      a number. */
  function SummaryChanged(d: MowingData, field: string, i: Input): (r: MowingData)
    ensures r.summary == d.summary[field := NumberOrZero(i)]
    ensures r == d.(summary := r.summary)
  {
    d.(summary := d.summary[field := NumberOrZero(i)])
  }

  /** `handleManualOverride(key)`: an emptied field nulls the override; any
      other text is parsed (0 when not a number) and snapped to a quarter hour. */
  function OverrideChanged(d: MowingData, key: string, i: Input): (r: MowingData)
    ensures key in r.manualOverrides
    ensures i.Blank? ==> r.manualOverrides[key] == None
    ensures i.Typed? ==> r.manualOverrides[key].Some? && IsQuarter(r.manualOverrides[key].value)
    ensures i.Blank? ==> r == d.(manualOverrides := d.manualOverrides[key := None])
    ensures i.Typed? ==> r == d.(manualOverrides := d.manualOverrides[key := Some(SnapQuarter(NumberOrZero(i)))])
  {
    d.(manualOverrides := d.manualOverrides[key := if i.Blank? then None else Some(SnapQuarter(NumberOrZero(i)))])
  }

  /** `handleQtyChange(key)`: the parsed number (an emptied field is 0),
      snapped to a quarter hour. */
  function QtyChanged(d: MowingData, key: string, i: Input): (r: MowingData)
    ensures key in r.qtyUnit && IsQuarter(r.qtyUnit[key])
    ensures r == d.(qtyUnit := d.qtyUnit[key := SnapQuarter(NumberOrZero(i))])
  {
    d.(qtyUnit := d.qtyUnit[key := SnapQuarter(NumberOrZero(i))])
  }

  /** One input event of the screen. */
  datatype MowingEdit =
    | EditName(name: string)
    | EditAcres(key: string, input: Input)
    | EditEfficiency(key: string, tier: string)
    | EditSummary(field: string, input: Input)
    | EditOverride(key: string, input: Input)
    | EditQty(key: string, input: Input)

  /** The record an input event hands to `save`. */
  function Apply(d: MowingData, e: MowingEdit): (r: MowingData)
    ensures r.totals == d.totals
  {
    match e
    case EditName(n) => NameChanged(d, n)
    case EditAcres(k, i) => AcresChanged(d, k, i)
    case EditEfficiency(k, t) => EfficiencyChanged(d, k, t)
    case EditSummary(f, i) => SummaryChanged(d, f, i)
    case EditOverride(k, i) => OverrideChanged(d, k, i)
    case EditQty(k, i) => QtyChanged(d, k, i)
  }

  /** Changing one key's acreage, tier and override leaves the hours of
      every other row as they were. */
  lemma HoursOtherRows(eff: map<string, string>, acres: map<string, real>, qty: map<string, real>,
                       overrides: map<string, Num>, aph: AcresPerHour,
                       eff': map<string, string>, acres': map<string, real>, overrides': map<string, Num>, k: string)
    requires qty.Keys + acres.Keys + {k} == qty.Keys + acres'.Keys + {k}
    requires forall j | j != k :: (j in acres <==> j in acres') && (j in overrides <==> j in overrides')
    requires forall j | j in acres && j != k :: acres'[j] == acres[j]
    requires forall j | j in eff && j != k :: j in eff' && eff'[j] == eff[j]
    requires forall j | j in eff' && j != k :: j in eff
    requires forall j | j in overrides && j != k :: overrides'[j] == overrides[j]
    ensures forall j | j in HoursOver(eff, acres, qty, overrides, aph) && j != k ::
      j in HoursOver(eff', acres', qty, overrides', aph) &&
      HoursOver(eff', acres', qty, overrides', aph)[j] == HoursOver(eff, acres, qty, overrides, aph)[j]
  {
    forall j | j in acres && j != k
      ensures ComputedHours(eff', acres', aph, j) == ComputedHours(eff, acres, aph, j)
    {
      assert Get(eff', j) == Get(eff, j);
    }
  }

  /** A new acreage clears the row's override, so the row shows the hours
      computed from the new acreage at its deck's rate. */
  lemma AcresEditHours(d: MowingData, aph: AcresPerHour, k: string, i: Input)
    ensures var h := HoursSpec(AcresChanged(d, k, i), aph);
      && h.Keys == HoursSpec(d, aph).Keys + {k}
      && h[k] == Some(AutoHours(NumberOrZero(i), DeckRate(aph, SizePrefix(k), Get(d.selectedEfficiency, k))))
  {
  }

  /** A new acreage leaves the hours of every other row as they were. */
  lemma AcresEditKeepsOtherRows(d: MowingData, aph: AcresPerHour, k: string, i: Input)
    ensures forall j | j in HoursSpec(d, aph) && j != k ::
      HoursSpec(AcresChanged(d, k, i), aph)[j] == HoursSpec(d, aph)[j]
  {
    var u := AcresChanged(d, k, i);
    HoursOtherRows(d.selectedEfficiency, d.acres, d.qtyUnit, d.manualOverrides, aph,
                   u.selectedEfficiency, u.acres, u.manualOverrides, k);
  }

  /** A new tier clears the row's override, so a row with acreage shows the
      hours computed at the new tier; other rows keep their hours. */
  lemma EfficiencyEditHours(d: MowingData, aph: AcresPerHour, k: string, tier: string)
    requires k in d.acres
    ensures var h := HoursSpec(EfficiencyChanged(d, k, tier), aph);
      && h.Keys == HoursSpec(d, aph).Keys
      && h[k] == Some(AutoHours(d.acres[k], DeckRate(aph, SizePrefix(k), Some(tier))))
      && forall j | j in HoursSpec(d, aph) && j != k :: h[j] == HoursSpec(d, aph)[j]
  {
    var u := EfficiencyChanged(d, k, tier);
    HoursOtherRows(d.selectedEfficiency, d.acres, d.qtyUnit, d.manualOverrides, aph,
                   u.selectedEfficiency, u.acres, u.manualOverrides, k);
  }

  /** On a row with acreage, a typed override is shown as the row's hours
      (snapped to a quarter hour), and emptying the field brings back the
      computed hours; other rows keep their hours. */
  lemma OverrideEditHours(d: MowingData, aph: AcresPerHour, k: string, i: Input)
    requires k in d.acres
    ensures var h := HoursSpec(OverrideChanged(d, k, i), aph);
      && h.Keys == HoursSpec(d, aph).Keys
      && (i.Typed? ==> h[k] == Some(SnapQuarter(NumberOrZero(i))))
      && (i.Blank? ==> h[k] == Some(ComputedHours(d.selectedEfficiency, d.acres, aph, k)))
      && forall j | j in HoursSpec(d, aph) && j != k :: h[j] == HoursSpec(d, aph)[j]
  {
    var u := OverrideChanged(d, k, i);
    HoursOtherRows(d.selectedEfficiency, d.acres, d.qtyUnit, d.manualOverrides, aph,
                   u.selectedEfficiency, u.acres, u.manualOverrides, k);
  }

  /** Name and summary edits leave every row's hours as they were. */
  lemma NameAndSummaryEditsKeepHours(d: MowingData, aph: AcresPerHour, name: string, field: string, i: Input)
    ensures HoursSpec(NameChanged(d, name), aph) == HoursSpec(d, aph)
    ensures HoursSpec(SummaryChanged(d, field, i), aph) == HoursSpec(d, aph)
  {
  }

  /** A quantity input is handled by `QtyChanged`; stated on its own so that
      proofs about a whole save can use it without unfolding `Apply`. */
  lemma ApplyIsHandler(d: MowingData, e: MowingEdit)
    ensures e.EditQty? ==> Apply(d, e) == QtyChanged(d, e.key, e.input)
  {
  }

  /** The store write an input event makes: the edited record, saved with the
      totals the screen computed from the record BEFORE the edit. */
  ghost function EditWrite(list: seq<Entry<MowingData>>, tableId: string, aph: AcresPerHour,
                           dollars: map<string, real>, e: MowingEdit): (w: StoreWrite<MowingData>)
    ensures var d := Loaded(list, tableId);
      Find(w.list, tableId) ==
        Some(Entry(tableId, Apply(d, e).(totals := Some(TotalsOf(d.acres, d.summary, HoursSpec(d, aph), dollars)))))
  {
    var d := Loaded(list, tableId);
    SaveMowing(tableId, Apply(d, e), list, TotalsOf(d.acres, d.summary, HoursSpec(d, aph), dollars))
  }

  /** One input event: load, compute the hours and totals shown, and save. */
  method HandleEdit(list: seq<Entry<MowingData>>, tableId: string, aph: AcresPerHour,
                    dollars: map<string, real>, e: MowingEdit) returns (w: StoreWrite<MowingData>)
    ensures w == EditWrite(list, tableId, aph, dollars, e)
  {
    var data := Loaded(list, tableId);
    var computedQtyUnit := ComputeHours(data, aph);
    var totals := ComputeTotals(data, computedQtyUnit, dollars);
    w := SaveMowing(tableId, Apply(data, e), list, totals);
  }

  /** The store write with totals computed from the edited record, which is
      what the save helper's "always save corrected totals" asks for. */
  ghost function EditWriteFresh(list: seq<Entry<MowingData>>, tableId: string, aph: AcresPerHour,
                                dollars: map<string, real>, e: MowingEdit): StoreWrite<MowingData>
  {
    var u := Apply(Loaded(list, tableId), e);
    SaveMowing(tableId, u, list, TotalsOf(u.acres, u.summary, HoursSpec(u, aph), dollars))
  }

  /** One input event, computing the totals from the updated record. */
  method HandleEditFresh(list: seq<Entry<MowingData>>, tableId: string, aph: AcresPerHour,
                         dollars: map<string, real>, e: MowingEdit) returns (w: StoreWrite<MowingData>)
    ensures w == EditWriteFresh(list, tableId, aph, dollars, e)
  {
    var updated := Apply(Loaded(list, tableId), e);
    var computedQtyUnit := ComputeHours(updated, aph);
    var totals := ComputeTotals(updated, computedQtyUnit, dollars);
    w := SaveMowing(tableId, updated, list, totals);
  }

  /** The totals stored with a record are the ones the record itself yields. */
  ghost predicate TotalsCurrent(d: MowingData, aph: AcresPerHour, dollars: map<string, real>)
  {
    d.totals == Some(TotalsOf(d.acres, d.summary, HoursSpec(d, aph), dollars))
  }

  /** The hours of a record do not depend on the totals stored with it. */
  lemma HoursIgnoreTotals(d: MowingData, aph: AcresPerHour, t: Option<MowingTotals>)
    ensures HoursSpec(d.(totals := t), aph) == HoursSpec(d, aph)
  {
  }

  /** With fresh totals, the saved table reads back with totals that match its
      own data, and no other table is touched. */
  lemma FreshEditStoresCurrentTotals(list: seq<Entry<MowingData>>, tableId: string, aph: AcresPerHour,
                                     dollars: map<string, real>, e: MowingEdit)
    ensures var w := EditWriteFresh(list, tableId, aph, dollars, e);
      && Find(w.list, tableId).Some?
      && TotalsCurrent(Find(w.list, tableId).value.data, aph, dollars)
      && forall other | other != tableId :: Find(w.list, other) == Find(list, other)
  {
    var u := Apply(Loaded(list, tableId), e);
    var t := TotalsOf(u.acres, u.summary, HoursSpec(u, aph), dollars);
    HoursIgnoreTotals(u, aph, Some(t));
  }

  /** Typing a quantity into a row without acreage (MISC, 5111) sets that
      row's hours to the snapped number and leaves every other row alone. */
  lemma QtyEditHours(d: MowingData, aph: AcresPerHour, k: string, i: Input)
    requires k !in d.acres
    ensures HoursSpec(QtyChanged(d, k, i), aph) == HoursSpec(d, aph)[k := Some(SnapQuarter(NumberOrZero(i)))]
  {
    var l, r := HoursSpec(QtyChanged(d, k, i), aph), HoursSpec(d, aph)[k := Some(SnapQuarter(NumberOrZero(i)))];
    assert l.Keys == r.Keys;
  }

  /** On a row with acreage (TRIMMER, BLOWER, ROTARY) the typed quantity has
      no effect on the hours. */
  lemma QtyEditIgnoredOnAcreageRow(d: MowingData, aph: AcresPerHour, k: string, i: Input)
    requires k in d.acres
    ensures HoursSpec(QtyChanged(d, k, i), aph) == HoursSpec(d, aph)
  {
    var l, r := HoursSpec(QtyChanged(d, k, i), aph), HoursSpec(d, aph);
    assert l.Keys == r.Keys;
  }

  /** The MISC hours input writes the key MISC_H_HRS, so the MISC_HRS row the
      screen shows and prices keeps its hours. */
  lemma MiscInputMissesMiscRow(d: MowingData, aph: AcresPerHour, i: Input)
    requires "MISC_HRS" in d.qtyUnit && "MISC_HRS" !in d.acres && "MISC_H_HRS" !in d.acres
    ensures HoursSpec(QtyChanged(d, "MISC_H_HRS", i), aph)["MISC_HRS"] == HoursSpec(d, aph)["MISC_HRS"]
  {
    QtyEditHours(d, aph, "MISC_H_HRS", i);
  }

  /** Written to MISC_HRS, the key of the row the input shows, the typed hours
      become that row's hours (snapped to a quarter hour). */
  lemma MiscInputOnMiscRow(d: MowingData, aph: AcresPerHour, i: Input)
    requires "MISC_HRS" !in d.acres
    ensures HoursSpec(QtyChanged(d, "MISC_HRS", i), aph)["MISC_HRS"] == Some(SnapQuarter(NumberOrZero(i)))
  {
    QtyEditHours(d, aph, "MISC_HRS", i);
  }

  /** On a record whose row `k` (without acreage) has no hours and whose
      dollars total zero, typing 1 hour into that row and storing the old
      totals leaves a record whose totals disagree with its own hours. */
  lemma StaleTotalsAfterQtyEdit(d: MowingData, aph: AcresPerHour, dollars: map<string, real>, k: string)
    requires k in d.qtyUnit && k !in d.acres && d.qtyUnit[k] == 0.0
    requires k in dollars && dollars[k] > 0.0
    requires TotalsOf(d.acres, d.summary, HoursSpec(d, aph), dollars).totalOcc == 0.0
    ensures var t0 := TotalsOf(d.acres, d.summary, HoursSpec(d, aph), dollars);
      var stored := QtyChanged(d, k, Typed(Some(1.0))).(totals := Some(t0));
      && TotalsOf(stored.acres, stored.summary, HoursSpec(stored, aph), dollars).totalOcc == dollars[k]
      && !TotalsCurrent(stored, aph, dollars)
  {
    var h := HoursSpec(d, aph);
    var t0 := TotalsOf(d.acres, d.summary, h, dollars);
    var u := QtyChanged(d, k, Typed(Some(1.0)));
    var stored := u.(totals := Some(t0));
    SnapQuarterUnique(1.0, 1.0);
    QtyEditHours(d, aph, k, Typed(Some(1.0)));
    HoursIgnoreTotals(u, aph, Some(t0));
    assert HoursSpec(stored, aph) == h[k := Some(1.0)];
    TotalsRowEdit(d.acres, d.summary, h, dollars, k, Some(1.0));
    assert RowTotal(h, dollars, k) == 0.0;
  }

  /** The empty `{}` data of a new table merges to the default record. */
  lemma MergeEmptyData()
    ensures Merge(Some(EmptyMowingData())) == InitialMowingData()
  {
    OverlayNothing(InitialEfficiency());
    OverlayNothing(InitialAcres());
    OverlayNothing(InitialQtyUnit());
    OverlayNothing(InitialOverrides());
    OverlayNothing(InitialSummary());
  }

  /** A table created as `{ id, data: {} }` loads as the default record,
      named "Mowing Area", just as one not in the list yet does. */
  lemma EmptyEntryLoadsDefaults(list: seq<Entry<MowingData>>, tableId: string)
    requires Find(list, tableId) == Some(Entry(tableId, EmptyMowingData()))
    ensures Loaded(list, tableId) == InitialMowingData()
    ensures Loaded(list, tableId).name == Some("Mowing Area")
  {
    MergeEmptyData();
  }

  /** A table that is not in the list yet shows all-zero totals. */
  lemma NewTableCostsNothing(list: seq<Entry<MowingData>>, tableId: string, aph: AcresPerHour,
                             dollars: map<string, real>)
    requires !HasId(list, tableId)
    ensures var d := Loaded(list, tableId);
      TotalsOf(d.acres, d.summary, HoursSpec(d, aph), dollars).totalOcc == 0.0
  {
    FreshTableTotals(aph, dollars);
  }

  /** The hours and totals a row without acreage shows in a new table. */
  lemma NewTableQtyRow(list: seq<Entry<MowingData>>, tableId: string, k: string)
    requires !HasId(list, tableId)
    requires k in InitialQtyUnit() && k !in InitialAcres()
    ensures var d := Loaded(list, tableId);
      k in d.qtyUnit && k !in d.acres && d.qtyUnit[k] == 0.0
  {
  }

  /** As written, the stored totals lag one edit behind: on a table not yet in
      the list, typing 1 hour into a priced row without acreage (the "5111"
      row, say; see `InitialRow5111`) stores a per-occurrence total of 0,
      while the stored record itself is worth that row's price. */
  lemma StaleTotalsWitness(list: seq<Entry<MowingData>>, tableId: string, aph: AcresPerHour,
                           dollars: map<string, real>, k: string)
    requires !HasId(list, tableId)
    requires k in InitialQtyUnit() && k !in InitialAcres()
    requires k in dollars && dollars[k] > 0.0
    ensures var w := EditWrite(list, tableId, aph, dollars, EditQty(k, Typed(Some(1.0))));
      && Find(w.list, tableId).Some?
      && var stored := Find(w.list, tableId).value.data;
      && stored.totals.Some? && stored.totals.value.totalOcc == 0.0
      && TotalsOf(stored.acres, stored.summary, HoursSpec(stored, aph), dollars).totalOcc == dollars[k]
      && !TotalsCurrent(stored, aph, dollars)
  {
    NewTableCostsNothing(list, tableId, aph, dollars);
    NewTableQtyRow(list, tableId, k);
    var d := Loaded(list, tableId);
    ApplyIsHandler(d, EditQty(k, Typed(Some(1.0))));
    StaleTotalsAfterQtyEdit(d, aph, dollars, k);
  }
}
