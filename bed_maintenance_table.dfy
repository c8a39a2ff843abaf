/** The bed-maintenance table: three priced columns, the default merge, and a
    save that keeps exactly one table in "bedMaintenance". */
module BedMaintenanceTable {
  import opened Js
  import opened ServiceStore
  import opened FlatRate

  /** One bed-maintenance table; missing totals read as `{}` (`None`). */
  type BedData = FlatTable

  /** The columns and their default hourly prices; the totals start empty. */
  function InitialBedData(): (d: BedData)
    ensures d.qtyUnit.Keys == d.unitPrice.Keys
    ensures forall k | k in d.qtyUnit :: d.qtyUnit[k] == 0.0 && d.unitPrice[k] > 0.0
    ensures NumAt(d.summary, "numOccurrences") == Some(1.0)
  {
    FlatTable(map["HAND" := 0.0, "BACKPACK" := 0.0, "ROUNDUP" := 0.0],
              map["HAND" := 55.0, "BACKPACK" := 55.0, "ROUNDUP" := 50.0],
              map["adjPercent" := 0.0, "numOccurrences" := 1.0],
              None)
  }

  /** The table as stored with no data: `{}`. */
  function EmptyBedData(): BedData
  {
    FlatTable(map[], map[], map[], None)
  }

  /** The collection the screen works on: the stored one, or a single table
      with no data when there is none or it is empty. */
  function Collection(stored: seq<Entry<BedData>>, tableId: string): (c: seq<Entry<BedData>>)
    ensures |c| > 0
    ensures |stored| == 0 ==> c == [Entry(tableId, EmptyBedData())]
  {
    if |stored| > 0 then stored else [Entry(tableId, EmptyBedData())]
  }

  /** The default merge: each record is the defaults overlaid with what was
      saved; the totals are the saved ones, if any. */
  function MergeBed(saved: BedData): (d: BedData)
    ensures Overlays(d.qtyUnit, InitialBedData().qtyUnit, saved.qtyUnit)
    ensures Overlays(d.unitPrice, InitialBedData().unitPrice, saved.unitPrice)
    ensures Overlays(d.summary, InitialBedData().summary, saved.summary)
    ensures d.totals == saved.totals
  {
    var init := InitialBedData();
    FlatTable(Overlay(init.qtyUnit, saved.qtyUnit), Overlay(init.unitPrice, saved.unitPrice),
            Overlay(init.summary, saved.summary), saved.totals)
  }

  /** The table the screen shows for `tableId`. */
  function Loaded(stored: seq<Entry<BedData>>, tableId: string): (d: BedData)
    ensures !HasId(stored, tableId) ==> d == InitialBedData()
    ensures HasId(stored, tableId) ==> d == MergeBed(Find(stored, tableId).value.data)
  {
    var entry := Find(Collection(stored, tableId), tableId);
    var init := InitialBedData();
    OverlayNothing(init.qtyUnit);
    OverlayNothing(init.unitPrice);
    OverlayNothing(init.summary);
    assert |stored| == 0 ==> entry == Some(Entry(tableId, EmptyBedData()));
    MergeBed(if entry.Some? then entry.value.data else EmptyBedData())
  }

  /** The service collection the table writes. */
  const BedService: string := "bedMaintenance"

  /** What `save(updated)` writes: a one-table list holding the updated
      record with its own totals. */
  ghost function SaveWrite(tableId: string, updated: BedData): StoreWrite<BedData>
  {
    StoreWrite(BedService, [Entry(tableId, updated.(totals := Some(TotalsOf(updated))))])
  }

  /** `save(updated)`. */
  method Save(tableId: string, updated: BedData) returns (w: StoreWrite<BedData>)
    ensures w == SaveWrite(tableId, updated)
  {
    var totals := ComputeFlatTotals(updated.qtyUnit, updated.unitPrice, updated.summary);
    w := StoreWrite(BedService, [Entry(tableId, updated.(totals := Some(totals)))]);
  }


  /** `handleRowChange(rowKey, keyName)(e)` on a number input: NaN is stored as 0. */
  method HandleRowChange(stored: seq<Entry<BedData>>, tableId: string, row: RowKey, keyName: string, i: Input)
    returns (w: StoreWrite<BedData>)
    ensures w == SaveWrite(tableId, SetCell(Loaded(stored, tableId), row, keyName, NumberOrZero(i)))
  {
    w := Save(tableId, SetCell(Loaded(stored, tableId), row, keyName, NumberOrZero(i)));
  }

  // Properties

  /** A save keeps exactly one table: every other table of the collection is
      dropped, and the saved one reads back with its own totals. */
  lemma SaveKeepsOneTable(tableId: string, updated: BedData, other: string)
    requires other != tableId
    ensures |SaveWrite(tableId, updated).list| == 1
    ensures Find(SaveWrite(tableId, updated).list, tableId) == Some(Entry(tableId, updated.(totals := Some(TotalsOf(updated)))))
    ensures Find(SaveWrite(tableId, updated).list, other).None?
  {
  }

  /** The merge keeps a record that already has every default key. */
  lemma MergeKeepsMerged(d: BedData)
    requires InitialBedData().qtyUnit.Keys <= d.qtyUnit.Keys
    requires InitialBedData().unitPrice.Keys <= d.unitPrice.Keys
    requires InitialBedData().summary.Keys <= d.summary.Keys
    ensures MergeBed(d) == d
  {
    var m := MergeBed(d);
    assert m.qtyUnit == d.qtyUnit;
    assert m.unitPrice == d.unitPrice;
    assert m.summary == d.summary;
  }

  /** After a row input the table reads back as the edited record with the
      totals of that record. */
  lemma RowChangeReadsBack(stored: seq<Entry<BedData>>, tableId: string, row: RowKey, keyName: string, i: Input)
    ensures var updated := SetCell(Loaded(stored, tableId), row, keyName, NumberOrZero(i));
      Loaded(SaveWrite(tableId, updated).list, tableId) == updated.(totals := Some(TotalsOf(updated)))
  {
    var updated := SetCell(Loaded(stored, tableId), row, keyName, NumberOrZero(i));
    MergeKeepsMerged(updated.(totals := Some(TotalsOf(updated))));
  }
}
