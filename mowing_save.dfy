/** Saving a mowing table: the edited record is stored with the totals handed
    in, replacing the table with the same id or appended as a new table. */
module MowingSave {
  import opened Js
  import opened ServiceStore
  import opened MowingDefaults

  /** The name under which the mowing tables are stored. */
  const MowingService: string := "mowing"

  /** `saveMowing(tableId, updatedData, mowingList, updateService, totals)`:
      the one store write it makes. */
  function SaveMowing(tableId: string, updatedData: MowingData, list: seq<Entry<MowingData>>,
                      totals: MowingTotals): (w: StoreWrite<MowingData>)
    ensures w.service == MowingService
    ensures Find(w.list, tableId) == Some(Entry(tableId, updatedData.(totals := Some(totals))))
    ensures forall other | other != tableId :: Find(w.list, other) == Find(list, other)
    ensures |w.list| == if HasId(list, tableId) then |list| else |list| + 1
  {
    var updated := updatedData.(totals := Some(totals));
    var w := StoreWrite(MowingService, Upsert(list, tableId, updated));
    UpsertThenFind(list, tableId, updated);
    forall other | other != tableId ensures Find(w.list, other) == Find(list, other) {
      UpsertOtherFind(list, tableId, updated, other);
    }
    w
  }
}
