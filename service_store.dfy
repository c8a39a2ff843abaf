/** The per-service collections of the estimate: each service keeps a list of
    `{id, data}` tables, and a screen hands a whole new list to the store's
    `updateService(service, list)` callback. */
module ServiceStore {
  import opened Js

  /** One table of a service: `{ id, data }`. */
  datatype Entry<D> = Entry(id: string, data: D)

  /** One call of `updateService(service, list)`. */
  datatype StoreWrite<D> = StoreWrite(service: string, list: seq<Entry<D>>)

  /** `list.some((t) => t.id === id)`. */
  predicate HasId<D>(list: seq<Entry<D>>, id: string)
  {
    exists i | 0 <= i < |list| :: list[i].id == id
  }

  /** `list.find((t) => t.id === id)`: the first table with that id. */
  function Find<D>(list: seq<Entry<D>>, id: string): (r: Option<Entry<D>>)
    ensures r.Some? <==> HasId(list, id)
    ensures r.Some? ==> r.value.id == id && r.value in list
    ensures |list| > 0 && list[0].id == id ==> r == Some(list[0])
    ensures r.Some? && list[0].id != id ==> r == Find(list[1..], id)
  {
    if |list| == 0 then None
    else if list[0].id == id then Some(list[0])
    else
      assert forall i | 1 <= i < |list| :: list[i] == list[1..][i - 1];
      Find(list[1..], id)
  }

  /** What `find` returns is the entry at the first position holding that id. */
  lemma {:induction false} FindFirst<D>(list: seq<Entry<D>>, id: string)
    requires HasId(list, id)
    ensures exists i | 0 <= i < |list| ::
      Find(list, id) == Some(list[i]) && forall j | 0 <= j < i :: list[j].id != id
  {
    if list[0].id != id {
      assert HasId(list[1..], id) by {
        var i :| 0 <= i < |list| && list[i].id == id;
        assert list[1..][i - 1].id == id;
      }
      FindFirst(list[1..], id);
      var i :| 0 <= i < |list[1..]| && Find(list[1..], id) == Some(list[1..][i])
        && forall j | 0 <= j < i :: list[1..][j].id != id;
      assert list[1..][i] == list[i + 1];
      assert forall j | 0 <= j < i + 1 :: list[j].id != id by {
        forall j | 0 <= j < i + 1
          ensures list[j].id != id
        {
          if j > 0 { assert list[j] == list[1..][j - 1]; }
        }
      }
    }
  }

  /** The save rule shared by the list-based screens: every table with that id
      is replaced where it stands, and a new table is appended when there is
      none. */
  function Upsert<D>(list: seq<Entry<D>>, id: string, data: D): (r: seq<Entry<D>>)
    ensures HasId(list, id) ==> |r| == |list|
    ensures HasId(list, id) ==>
      forall i | 0 <= i < |list| ::
        (list[i].id == id ==> r[i] == Entry(id, data)) && (list[i].id != id ==> r[i] == list[i])
    ensures !HasId(list, id) ==> r == list + [Entry(id, data)]
  {
    if HasId(list, id) then
      seq(|list|, i requires 0 <= i < |list| => if list[i].id == id then Entry(id, data) else list[i])
    else list + [Entry(id, data)]
  }

  /** After an upsert, looking the table up again yields exactly what was saved. */
  lemma {:induction false} UpsertThenFind<D>(list: seq<Entry<D>>, id: string, data: D)
    ensures Find(Upsert(list, id, data), id) == Some(Entry(id, data))
    decreases |list|
  {
    var r := Upsert(list, id, data);
    if |list| > 0 && list[0].id != id {
      assert r[0] == list[0];
      if HasId(list, id) {
        var j :| 0 <= j < |list| && list[j].id == id;
        assert list[1..][j - 1].id == id;
        assert HasId(list[1..], id);
      } else {
        assert !HasId(list[1..], id) by {
          forall i | 0 <= i < |list[1..]| ensures list[1..][i].id != id {
            assert list[1..][i] == list[i + 1];
          }
        }
      }
      assert r[1..] == Upsert(list[1..], id, data);
      UpsertThenFind(list[1..], id, data);
    }
  }

  /** An upsert leaves every other table exactly as it finds it. */
  lemma {:induction false} UpsertOtherFind<D>(list: seq<Entry<D>>, id: string, data: D, other: string)
    requires other != id
    ensures Find(Upsert(list, id, data), other) == Find(list, other)
    decreases |list|
  {
    var r := Upsert(list, id, data);
    if |list| > 0 {
      if HasId(list, id) {
        assert r[0] == (if list[0].id == id then Entry(id, data) else list[0]);
        if list[0].id != other {
          if HasId(list[1..], id) {
            assert r[1..] == Upsert(list[1..], id, data);
            UpsertOtherFind(list[1..], id, data, other);
          } else {
            assert r[1..] == list[1..];
          }
        }
      } else {
        assert r[0] == list[0];
        if list[0].id != other {
          assert !HasId(list[1..], id) by {
            forall i | 0 <= i < |list[1..]| ensures list[1..][i].id != id {
              assert list[1..][i] == list[i + 1];
            }
          }
          assert r[1..] == Upsert(list[1..], id, data);
          UpsertOtherFind(list[1..], id, data, other);
        }
      }
    } else {
      assert !HasId(r, other);
    }
  }
}
