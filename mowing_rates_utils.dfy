/** The mowing rate catalog as edited on the rates page: a record of
    categories, each a nested record of rates. */
module MowingRatesUtils {
  import opened Js
  import opened JsonValue

  /** What `mergeRates(defaults, current)` returns: every default category
      that is an object gets the current category's fields laid over its own;
      every other default is kept as it is. */
  function MergedRates(defaults: map<string, Json>, current: Option<Json>): (r: map<string, Json>)
    ensures r.Keys == defaults.Keys
    ensures forall k | k in defaults && !defaults[k].Obj? :: r[k] == defaults[k]
    ensures forall k | k in defaults && defaults[k].Obj? ::
      r[k].Obj? && Overlays(r[k].fields, defaults[k].fields, Spread(Field(current, k)))
  {
    map k | k in defaults ::
      if defaults[k].Obj? then Obj(defaults[k].fields + Spread(Field(current, k))) else defaults[k]
  }

  /** `mergeRates(defaults, current)`. */
  method MergeRates(defaults: map<string, Json>, current: Option<Json>) returns (out: map<string, Json>)
    ensures out == MergedRates(defaults, current)
  {
    out := defaults;
    var rest := defaults.Keys;
    while rest != {}
      invariant rest <= defaults.Keys
      invariant out.Keys == defaults.Keys
      invariant forall k | k in out ::
        out[k] == if k in rest then defaults[k] else MergedRates(defaults, current)[k]
      decreases rest
    {
      var key :| key in rest;
      if defaults[key].Obj? {
        out := out[key := Obj(defaults[key].fields + Spread(Field(current, key)))];
      }
      rest := rest - {key};
    }
  }

  /** With nothing saved, the defaults come back unchanged. */
  lemma MergeWithoutCurrent(defaults: map<string, Json>)
    ensures MergedRates(defaults, None) == defaults
  {
    var r := MergedRates(defaults, None);
    forall k | k in defaults ensures r[k] == defaults[k] {
      if defaults[k].Obj? {
        assert defaults[k].fields + map[] == defaults[k].fields;
      }
    }
  }

  /** Merging is stable: merging the saved catalog into the merged result
      again changes nothing. */
  lemma MergeIdempotent(defaults: map<string, Json>, current: Option<Json>)
    ensures MergedRates(MergedRates(defaults, current), current) == MergedRates(defaults, current)
  {
    var m := MergedRates(defaults, current);
    var r := MergedRates(m, current);
    forall k | k in m ensures r[k] == m[k] {
      if m[k].Obj? {
        var s := Spread(Field(current, k));
        assert defaults[k].Obj?;
        assert m[k].fields + s == m[k].fields;
      }
    }
  }

  /** `updateNestedRate(prev, category, key1, key2, value)`: sets
      `prev[category][key1][key2]`, copying each level; the two spreads copy
      whatever the old values hold, the characters of a string included.
      Reading `prev[category][key1]` throws when the category is missing or
      null, which is `None` here. */
  function UpdateNestedRate(prev: map<string, Json>, category: string, key1: string, key2: string,
                            value: Json): (r: Option<map<string, Json>>)
    ensures r.None? <==> category !in prev || prev[category] == Null
    ensures r.Some? ==>
      && r.value.Keys == prev.Keys
      && r.value[category].Obj?
      && key1 in r.value[category].fields
      && r.value[category].fields[key1].Obj?
      && key2 in r.value[category].fields[key1].fields
      && r.value[category].fields[key1].fields[key2] == value
    ensures r.Some? ==> forall c | c in prev && c != category :: r.value[c] == prev[c]
    ensures r.Some? ==>
      var old0 := Spread(Some(prev[category]));
      r.value[category].fields.Keys == old0.Keys + {key1} &&
      forall k | k in old0 && k != key1 :: r.value[category].fields[k] == old0[k]
    ensures r.Some? ==>
      var old1 := Spread(Field(Some(prev[category]), key1));
      r.value[category].fields[key1].fields.Keys == old1.Keys + {key2} &&
      forall k | k in old1 && k != key2 :: r.value[category].fields[key1].fields[k] == old1[k]
  {
    if category !in prev || prev[category] == Null then None
    else
      var cat := prev[category];
      var inner := Spread(Field(Some(cat), key1))[key2 := value];
      Some(prev[category := Obj(Spread(Some(cat))[key1 := Obj(inner)])])
  }

  /** Reading the edited rate back by its path yields the value written. */
  lemma UpdateNestedRateReadBack(prev: map<string, Json>, category: string, key1: string, key2: string,
                                 value: Json)
    requires category in prev && prev[category] != Null
    ensures UpdateNestedRate(prev, category, key1, key2, value).Some?
    ensures GetPath(Obj(UpdateNestedRate(prev, category, key1, key2, value).value), [category, key1, key2]) == Some(value)
  {
    var r := UpdateNestedRate(prev, category, key1, key2, value).value;
    var c := r[category];
    var k := c.fields[key1];
    assert [category, key1, key2][1..] == [key1, key2];
    assert [key1, key2][1..] == [key2];
    assert [key2][1..] == [];
    calc {
      GetPath(Obj(r), [category, key1, key2]);
      GetPath(c, [key1, key2]);
      GetPath(k, [key2]);
      GetPath(value, []);
    }
  }
}
