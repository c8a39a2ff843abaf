/** The mulching rate editor: a deep set along a key path on a clone of the
    rate catalog, creating `{}` for every missing or falsy step, and the
    number input that stores NaN as 0. */
module MulchingRatesPage {
  import opened Js
  import opened JsonValue

  /** The key path the final assignment uses: an empty path assigns to
      `path[-1]`, which is undefined and names the key "undefined". */
  function EditedPath(path: seq<string>): (p: seq<string>)
    ensures |p| >= 1
    ensures |path| > 0 ==> p == path
  {
    if |path| == 0 then ["undefined"] else path
  }

  /** The object the walk starts from: the clone of `prev || {}`. A truthy
      value that is not an object cannot take a property in strict mode, so
      the assignment throws (`None`). */
  function RootOf(prev: Option<Json>): (r: Option<map<string, Json>>)
    ensures prev.None? || !Truthy(prev.value) ==> r == Some(map[])
    ensures prev.Some? && prev.value.Obj? ==> r == Some(prev.value.fields)
    ensures prev.Some? && Truthy(prev.value) && !prev.value.Obj? ==> r.None?
  {
    if prev.None? || !Truthy(prev.value) then Some(map[])
    else if prev.value.Obj? then Some(prev.value.fields)
    else None
  }

  /** The step the cursor takes: the field when it is truthy, otherwise the
      `{}` the loop stores there. */
  function Child(fields: map<string, Json>, key: string): Json
  {
    if key in fields && Truthy(fields[key]) then fields[key] else Obj(map[])
  }

  /** The object after setting `path` to `v` inside it; `None` when the walk
      reaches a truthy value that is not an object, where the source throws. */
  function SetIn(fields: map<string, Json>, path: seq<string>, v: Json): Option<map<string, Json>>
    requires |path| >= 1
    decreases |path|
  {
    if |path| == 1 then Some(fields[path[0] := v])
    else
      var child := Child(fields, path[0]);
      if !child.Obj? then None
      else
        var inner := SetIn(child.fields, path[1..], v);
        if inner.None? then None else Some(fields[path[0] := Obj(inner.value)])
  }

  /** `handleNestedChange(path, value)` applied to the previous rates. */
  function NestedChange(prev: Option<Json>, path: seq<string>, v: Json): Option<Json>
  {
    var root := RootOf(prev);
    if root.None? then None
    else
      var r := SetIn(root.value, EditedPath(path), v);
      if r.None? then None else Some(Obj(r.value))
  }

  /** The objects `trail` the cursor passed, with the keys it followed,
      rebuilt around a new innermost object. */
  function Plug(trail: seq<map<string, Json>>, keys: seq<string>, inner: map<string, Json>): map<string, Json>
    requires |trail| == |keys|
    decreases |trail|
  {
    if |trail| == 0 then inner
    else trail[0][keys[0] := Obj(Plug(trail[1..], keys[1..], inner))]
  }

  /** `Plug` lifted to a result that may have failed. */
  function Lift(trail: seq<map<string, Json>>, keys: seq<string>, inner: Option<map<string, Json>>): Option<map<string, Json>>
    requires |trail| == |keys|
  {
    if inner.None? then None else Some(Plug(trail, keys, inner.value))
  }

  /** Plugging into one more object at the end is plugging a changed inner object. */
  lemma {:induction false} PlugSnoc(trail: seq<map<string, Json>>, keys: seq<string>, m: map<string, Json>, k: string, inner: map<string, Json>)
    requires |trail| == |keys|
    ensures Plug(trail + [m], keys + [k], inner) == Plug(trail, keys, m[k := Obj(inner)])
    decreases |trail|
  {
    if |trail| > 0 {
      assert (trail + [m])[1..] == trail[1..] + [m];
      assert (keys + [k])[1..] == keys[1..] + [k];
      PlugSnoc(trail[1..], keys[1..], m, k, inner);
    }
  }

  /** The handler's loop: the cursor walks down the clone, creating `{}` for
      every missing or falsy step, and the new value is assigned at the last
      key; the objects it passed are then rebuilt around the changed one. */
  method HandleNestedChange(prev: Option<Json>, path: seq<string>, v: Json) returns (r: Option<Json>)
    ensures r == NestedChange(prev, path, v)
  {
    var p := EditedPath(path);
    var root := RootOf(prev);
    if root.None? {
      return None;
    }
    var cur := root.value;
    var trail: seq<map<string, Json>> := [];
    var i := 0;
    while i < |p| - 1
      invariant 0 <= i <= |p| - 1
      invariant |trail| == i
      invariant SetIn(root.value, p, v) == Lift(trail, p[..i], SetIn(cur, p[i..], v))
    {
      var child := Child(cur, p[i]);
      assert p[i..][0] == p[i] && p[i..][1..] == p[i + 1..];
      if !child.Obj? {
        return None;
      }
      assert p[..i + 1] == p[..i] + [p[i]];
      var next := SetIn(child.fields, p[i + 1..], v);
      if next.Some? {
        PlugSnoc(trail, p[..i], cur, p[i], next.value);
      }
      trail := trail + [cur];
      cur := child.fields;
      i := i + 1;
    }
    assert p[i..] == [p[i]];
    var inner := cur[p[i] := v];
    var j := |trail|;
    assert trail[..j] == trail;
    while j > 0
      invariant 0 <= j <= |trail|
      invariant Plug(trail, p[..i], cur[p[i] := v]) == Plug(trail[..j], p[..j], inner)
    {
      j := j - 1;
      assert trail[..j + 1] == trail[..j] + [trail[j]];
      assert p[..j + 1] == p[..j] + [p[j]];
      PlugSnoc(trail[..j], p[..j], trail[j], p[j], inner);
      inner := trail[j][p[j] := Obj(inner)];
    }
    r := Some(Obj(inner));
  }

  /** `handleNumberChange(path)`: the parsed number, or 0 for NaN, is set at
      the path. */
  method HandleNumberChange(prev: Option<Json>, path: seq<string>, i: Input) returns (r: Option<Json>)
    ensures r == NestedChange(prev, path, Num(NumberOrZero(i)))
    ensures (i.Blank? || i.parsed.None?) && r.Some? ==> GetPath(r.value, EditedPath(path)) == Some(Num(0.0))
  {
    r := HandleNestedChange(prev, path, Num(NumberOrZero(i)));
    if r.Some? {
      NestedChangeReadBack(prev, path, Num(NumberOrZero(i)));
    }
  }

  // Properties

  /** After a successful set the path reads back the new value. */
  lemma {:induction false} SetInReadBack(fields: map<string, Json>, path: seq<string>, v: Json)
    requires |path| >= 1 && SetIn(fields, path, v).Some?
    ensures GetPath(Obj(SetIn(fields, path, v).value), path) == Some(v)
    decreases |path|
  {
    if |path| > 1 {
      SetInReadBack(Child(fields, path[0]).fields, path[1..], v);
    }
  }

  lemma NestedChangeReadBack(prev: Option<Json>, path: seq<string>, v: Json)
    requires NestedChange(prev, path, v).Some?
    ensures GetPath(NestedChange(prev, path, v).value, EditedPath(path)) == Some(v)
  {
    SetInReadBack(RootOf(prev).value, EditedPath(path), v);
  }

  /** Every path that is neither a prefix nor an extension of the edited path
      reads what it read before, also through the steps replaced by `{}`. */
  lemma {:induction false} SetInKeepsOthers(fields: map<string, Json>, path: seq<string>, v: Json, q: seq<string>)
    requires |path| >= 1 && SetIn(fields, path, v).Some?
    requires !(q <= path) && !(path <= q)
    ensures GetPath(Obj(SetIn(fields, path, v).value), q) == GetPath(Obj(fields), q)
    decreases |path|
  {
    var m := SetIn(fields, path, v).value;
    if q[0] != path[0] {
      assert q[0] in m <==> q[0] in fields;
    } else {
      assert [path[0]] <= q;
      assert |path| > 1 && |q| > 1;
      var child := Child(fields, path[0]);
      assert q[1..] <= path[1..] ==> q <= path;
      assert path[1..] <= q[1..] ==> path <= q;
      SetInKeepsOthers(child.fields, path[1..], v, q[1..]);
      assert GetPath(Obj(m), q) == GetPath(Obj(SetIn(child.fields, path[1..], v).value), q[1..]);
      if !(path[0] in fields && Truthy(fields[path[0]])) {
        assert GetPath(Obj(map[]), q[1..]).None?;
      }
    }
  }

  lemma NestedChangeKeepsOthers(prev: Option<Json>, path: seq<string>, v: Json, q: seq<string>)
    requires NestedChange(prev, path, v).Some?
    requires !(q <= EditedPath(path)) && !(EditedPath(path) <= q)
    ensures GetPath(NestedChange(prev, path, v).value, q) == GetPath(Obj(RootOf(prev).value), q)
  {
    SetInKeepsOthers(RootOf(prev).value, EditedPath(path), v, q);
  }

  /** The walk goes wrong at a step that holds a truthy value that is not an object. */
  predicate Stuck(o: Option<Json>)
  {
    o.Some? && Truthy(o.value) && !o.value.Obj?
  }

  /** Setting inside a new `{}` never fails. */
  lemma {:induction false} SetInEmpty(path: seq<string>, v: Json)
    requires |path| >= 1
    ensures SetIn(map[], path, v).Some?
    decreases |path|
  {
    if |path| > 1 {
      SetInEmpty(path[1..], v);
    }
  }

  /** A nonempty path leads nowhere from a value that is not an object. */
  lemma NoPathThroughLeaf(j: Json, q: seq<string>)
    requires !j.Obj? && |q| >= 1
    ensures GetPath(j, q).None?
  {
  }

  /** The set fails exactly when some proper prefix of the path reaches a
      truthy value that is not an object. */
  lemma {:induction false} SetInFailsIff(fields: map<string, Json>, path: seq<string>, v: Json)
    requires |path| >= 1
    ensures SetIn(fields, path, v).None? <==> exists i | 1 <= i < |path| :: Stuck(GetPath(Obj(fields), path[..i]))
    decreases |path|
  {
    if |path| > 1 {
      var k := path[0];
      assert path[..1] == [k];
      assert GetPath(Obj(fields), path[..1]) == (if k in fields then Some(fields[k]) else None);
      if k in fields && Truthy(fields[k]) {
        var c := fields[k];
        if c.Obj? {
          SetInFailsIff(c.fields, path[1..], v);
          forall i | 1 <= i < |path|
            ensures GetPath(Obj(fields), path[..i]) == GetPath(Obj(c.fields), path[1..][..i - 1])
          {
            assert path[..i][0] == k && path[..i][1..] == path[1..][..i - 1];
          }
          if exists i | 1 <= i < |path| - 1 :: Stuck(GetPath(Obj(c.fields), path[1..][..i])) {
            var i :| 1 <= i < |path| - 1 && Stuck(GetPath(Obj(c.fields), path[1..][..i]));
            assert Stuck(GetPath(Obj(fields), path[..i + 1]));
          }
          if exists i | 1 <= i < |path| :: Stuck(GetPath(Obj(fields), path[..i])) {
            var i :| 1 <= i < |path| && Stuck(GetPath(Obj(fields), path[..i]));
            assert i > 1;
            assert Stuck(GetPath(Obj(c.fields), path[1..][..i - 1]));
          }
        } else {
          assert Stuck(GetPath(Obj(fields), path[..1]));
        }
      } else {
        SetInEmpty(path[1..], v);
        forall i | 1 <= i < |path|
          ensures !Stuck(GetPath(Obj(fields), path[..i]))
        {
          if i > 1 {
            assert path[..i][0] == k && path[..i][1..] == path[1..][..i - 1];
            if k in fields {
              NoPathThroughLeaf(fields[k], path[1..][..i - 1]);
            }
          }
        }
      }
    }
  }

  /** On the rates object itself: the handler fails exactly when the rates
      are a truthy non-object or the path runs through a truthy non-object. */
  lemma NestedChangeFailsIff(prev: Option<Json>, path: seq<string>, v: Json)
    requires RootOf(prev).Some?
    ensures NestedChange(prev, path, v).None? <==>
      exists i | 1 <= i < |EditedPath(path)| :: Stuck(GetPath(Obj(RootOf(prev).value), EditedPath(path)[..i]))
  {
    SetInFailsIff(RootOf(prev).value, EditedPath(path), v);
  }
}
