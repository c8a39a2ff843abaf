/** The edging table: two priced columns, the default merge, the row input
    handler that saves fresh totals, and the upsert into "edging". */
module EdgingTable {
  import opened Js
  import opened Sums
  import opened ServiceStore
  import opened FlatRate

  /** One edging table. A saved table may lack any of the records (read as
      `{}`) or its totals. */
  type EdgingData = FlatTable

  /** The columns and their default hourly prices. */
  function InitialEdgingData(): (d: EdgingData)
    ensures d.qtyUnit.Keys == d.unitPrice.Keys
    ensures forall k | k in d.qtyUnit :: d.qtyUnit[k] == 0.0 && d.unitPrice[k] > 0.0
    ensures NumAt(d.summary, "numOccurrences") == Some(1.0)
  {
    FlatTable(map["EDGER" := 0.0, "BLOWER" := 0.0],
              map["EDGER" := 55.0, "BLOWER" := 55.0],
              map["adjPercent" := 0.0, "numOccurrences" := 1.0],
              Some(FlatTotals(0.0, 0.0, 0.0, map[])))
  }

  /** The table as stored for an id that has no data yet: `{}`. */
  function EmptyEdgingData(): EdgingData
  {
    FlatTable(map[], map[], map[], None)
  }

  /** The default merge: each record is the defaults overlaid with what was
      saved, and saved totals replace the default ones. */
  function MergeEdging(saved: EdgingData): (d: EdgingData)
    ensures Overlays(d.qtyUnit, InitialEdgingData().qtyUnit, saved.qtyUnit)
    ensures Overlays(d.unitPrice, InitialEdgingData().unitPrice, saved.unitPrice)
    ensures Overlays(d.summary, InitialEdgingData().summary, saved.summary)
    ensures d.totals == if saved.totals.Some? then saved.totals else InitialEdgingData().totals
  {
    var init := InitialEdgingData();
    FlatTable(Overlay(init.qtyUnit, saved.qtyUnit), Overlay(init.unitPrice, saved.unitPrice),
              Overlay(init.summary, saved.summary),
              if saved.totals.Some? then saved.totals else init.totals)
  }

  /** The table with this id, merged over the defaults. */
  function Loaded(list: seq<Entry<EdgingData>>, tableId: string): (d: EdgingData)
    ensures !HasId(list, tableId) ==> d == InitialEdgingData()
    ensures HasId(list, tableId) ==> d == MergeEdging(Find(list, tableId).value.data)
  {
    var entry := Find(list, tableId);
    var init := InitialEdgingData();
    OverlayNothing(init.qtyUnit);
    OverlayNothing(init.unitPrice);
    OverlayNothing(init.summary);
    MergeEdging(if entry.Some? then entry.value.data else EmptyEdgingData())
  }


  /** The service collection the table writes. */
  const EdgingService: string := "edging"

  /** `save(updated)`: replace the table where it stands, or append it. */
  function Save(list: seq<Entry<EdgingData>>, tableId: string, updated: EdgingData): (w: StoreWrite<EdgingData>)
    ensures w.service == EdgingService
    ensures Find(w.list, tableId) == Some(Entry(tableId, updated))
    ensures forall other | other != tableId :: Find(w.list, other) == Find(list, other)
    ensures HasId(list, tableId) ==> |w.list| == |list|
    ensures !HasId(list, tableId) ==> w.list == list + [Entry(tableId, updated)]
  {
    UpsertThenFind(list, tableId, updated);
    forall other | other != tableId ensures Find(Upsert(list, tableId, updated), other) == Find(list, other) {
      UpsertOtherFind(list, tableId, updated, other);
    }
    StoreWrite(EdgingService, Upsert(list, tableId, updated))
  }

  /** The write a row input makes: the parsed value (NaN and empty read 0)
      set in one cell, with the totals of the edited table. */
  ghost function RowChangeWrite(list: seq<Entry<EdgingData>>, tableId: string, row: RowKey, inputKey: string, i: Input)
    : StoreWrite<EdgingData>
  {
    var updated := SetCell(Loaded(list, tableId), row, inputKey, NumberOrZero(i));
    Save(list, tableId, updated.(totals := Some(TotalsOf(updated))))
  }

  /** `handleRowChange(rowKey, inputKey)(e)`. */
  method HandleRowChange(list: seq<Entry<EdgingData>>, tableId: string, row: RowKey, inputKey: string, i: Input)
    returns (w: StoreWrite<EdgingData>)
    ensures w == RowChangeWrite(list, tableId, row, inputKey, i)
  {
    var updated := SetCell(Loaded(list, tableId), row, inputKey, NumberOrZero(i));
    var totals := ComputeFlatTotals(updated.qtyUnit, updated.unitPrice, updated.summary);
    w := Save(list, tableId, updated.(totals := Some(totals)));
  }

  // Properties

  /** The merge keeps a record that already has every default key. */
  lemma MergeKeepsMerged(d: EdgingData)
    requires InitialEdgingData().qtyUnit.Keys <= d.qtyUnit.Keys
    requires InitialEdgingData().unitPrice.Keys <= d.unitPrice.Keys
    requires InitialEdgingData().summary.Keys <= d.summary.Keys
    requires d.totals.Some?
    ensures MergeEdging(d) == d
  {
    var m := MergeEdging(d);
    assert m.qtyUnit == d.qtyUnit;
    assert m.unitPrice == d.unitPrice;
    assert m.summary == d.summary;
  }

  /** After a row input the table reads back as the edited record, and the
      totals stored with it are those of that record. */
  lemma RowChangeReadsBack(list: seq<Entry<EdgingData>>, tableId: string, row: RowKey, inputKey: string, i: Input)
    ensures var updated := SetCell(Loaded(list, tableId), row, inputKey, NumberOrZero(i));
      && Loaded(RowChangeWrite(list, tableId, row, inputKey, i).list, tableId) == updated.(totals := Some(TotalsOf(updated)))
  {
    var updated := SetCell(Loaded(list, tableId), row, inputKey, NumberOrZero(i));
    MergeKeepsMerged(updated.(totals := Some(TotalsOf(updated))));
  }

  /** A quantity input moves the dollar total by the change in that
      column's subtotal, and the hours by the change in that quantity. With
      `RowChangeReadsBack` these are the totals the input stores. */
  lemma QtyInputShiftsTotals(d: EdgingData, col: string, v: real)
    requires col in d.qtyUnit && col in d.unitPrice
    ensures var t := TotalsOf(SetCell(d, QtyUnitRow, col, v));
      && t.totalOccDollar == TotalsOf(d).totalOccDollar - FlatRow(d.qtyUnit, d.unitPrice, col) + v * d.unitPrice[col]
      && t.sumHours == TotalsOf(d).sumHours - d.qtyUnit[col] + v
  {
    QtyEditDollars(d.qtyUnit, d.unitPrice, col, v);
    SumMapUpdate(d.qtyUnit, col, v);
  }

  /** A new edging table starts with zero hours and dollars, and its totals
      agree with what the default record computes to. */
  lemma InitialTotalsAgree()
    ensures InitialEdgingData().totals.value.sumHours == TotalsOf(InitialEdgingData()).sumHours
    ensures InitialEdgingData().totals.value.totalOccDollar == TotalsOf(InitialEdgingData()).totalOccDollar
    ensures InitialEdgingData().totals.value.finalTotal == TotalsOf(InitialEdgingData()).finalTotal
  {
    var d := InitialEdgingData();
    SumMapZero(d.qtyUnit);
    SumMapZero(FlatRows(d.qtyUnit, d.unitPrice));
  }
}
