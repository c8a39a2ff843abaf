/** Plain JSON-like values, as the rate catalogs are stored: nested objects
    whose leaves are numbers, strings or null. */
module JsonValue {
  import opened Js

  datatype Json = Null | Num(n: real) | Str(s: string) | Obj(fields: map<string, Json>)

  /** JavaScript truthiness of a stored value: null, 0 and "" are falsy, an
      object (even an empty one) is truthy. */
  predicate Truthy(j: Json)
  {
    match j
    case Null => false
    case Num(n) => n != 0.0
    case Str(s) => s != ""
    case Obj(_) => true
  }

  /** One decimal digit. */
  function Digit(d: nat): (c: char)
    requires d < 10
    ensures '0' <= c <= '9'
    ensures c as int - '0' as int == d
  {
    ('0' as int + d) as char
  }

  /** The property name JavaScript gives array index `i`: its decimal digits,
      without leading zeros. */
  function IndexKey(i: nat): (s: string)
    ensures 1 <= |s|
    ensures |s| == 1 <==> i < 10
    ensures forall c | c in s :: '0' <= c <= '9'
    ensures s[|s| - 1] == Digit(i % 10)
  {
    if i < 10 then [Digit(i)] else IndexKey(i / 10) + [Digit(i % 10)]
  }

  /** Different indices have different names. */
  lemma {:induction false} IndexKeyInjective(i: nat, j: nat)
    ensures IndexKey(i) == IndexKey(j) ==> i == j
    decreases i
  {
    if IndexKey(i) == IndexKey(j) && i >= 10 && j >= 10 {
      var a, b := IndexKey(i), IndexKey(j);
      assert i % 10 == j % 10 by {
        assert Digit(i % 10) == a[|a| - 1] == b[|b| - 1] == Digit(j % 10);
      }
      assert IndexKey(i / 10) == a[..|a| - 1] == b[..|b| - 1] == IndexKey(j / 10);
      IndexKeyInjective(i / 10, j / 10);
    }
  }

  /** No index is named "length". */
  lemma IndexKeyNotLength(i: nat)
    ensures IndexKey(i) != "length"
  {
  }

  /** The index of `s` named `key`, searching from `from` on. */
  function IndexNamed(key: string, n: nat, from: nat): (r: Option<nat>)
    ensures r.Some? ==> from <= r.value < n && IndexKey(r.value) == key
    ensures r.None? ==> forall i | from <= i < n :: IndexKey(i) != key
    decreases n - from
  {
    if from >= n then None
    else if IndexKey(from) == key then Some(from)
    else IndexNamed(key, n, from + 1)
  }

  /** The names of the indices below `n`. */
  function IndexKeys(n: nat): (r: set<string>)
    ensures forall i | 0 <= i < n :: IndexKey(i) in r
  {
    if n == 0 then {} else IndexKeys(n - 1) + {IndexKey(n - 1)}
  }

  /** And nothing else: each of those names is the name of an index below `n`. */
  lemma {:induction false} IndexKeysOnly(n: nat)
    ensures forall k | k in IndexKeys(n) :: IndexNamed(k, n, 0).Some?
  {
    if n > 0 {
      IndexKeysOnly(n - 1);
      forall k | k in IndexKeys(n) ensures IndexNamed(k, n, 0).Some? {
        if k != IndexKey(n - 1) {
          IndexNamedGrows(k, n - 1, 0);
        }
      }
    }
  }

  /** A name found below `n` is found below `n + 1` too. */
  lemma {:induction false} IndexNamedGrows(key: string, n: nat, from: nat)
    requires IndexNamed(key, n, from).Some?
    ensures IndexNamed(key, n + 1, from).Some?
    decreases n - from
  {
    if IndexKey(from) != key {
      IndexNamedGrows(key, n, from + 1);
    }
  }

  /** The own enumerable properties of a string: one per character, named by
      its index. */
  function Chars(s: string): (r: map<string, Json>)
    ensures r.Keys == IndexKeys(|s|)
    ensures forall i | 0 <= i < |s| :: IndexKey(i) in r && r[IndexKey(i)] == Str([s[i]])
    decreases |s|
  {
    if |s| == 0 then map[]
    else
      var n := |s| - 1;
      forall i | 0 <= i < n ensures IndexKey(i) != IndexKey(n) {
        IndexKeyInjective(i, n);
      }
      var rest := Chars(s[..n]);
      var r := rest[IndexKey(n) := Str([s[n]])];
      assert r.Keys == rest.Keys + {IndexKey(n)} == IndexKeys(n + 1);
      r
  }

  /** The own keys that `{ ...x }` copies out of `x`: the fields of an object,
      one entry per character of a string, and nothing for null, undefined or
      a number. */
  function Spread(x: Option<Json>): (r: map<string, Json>)
    ensures x.Some? && x.value.Obj? ==> r == x.value.fields
    ensures x.Some? && x.value.Str? ==>
      && r.Keys == IndexKeys(|x.value.s|)
      && (forall i | 0 <= i < |x.value.s| :: IndexKey(i) in r && r[IndexKey(i)] == Str([x.value.s[i]]))
    ensures x.None? || x.value.Null? || x.value.Num? ==> r == map[]
  {
    if x.None? then map[]
    else match x.value
      case Obj(fields) => fields
      case Str(s) => Chars(s)
      case _ => map[]
  }

  /** `x[key]` on a value: the field of an object; for a string, the
      character at an index key, or its length; undefined for anything else. */
  function Field(x: Option<Json>, key: string): (r: Option<Json>)
    ensures x.Some? && x.value.Obj? ==>
      (r.Some? <==> key in x.value.fields) && (r.Some? ==> r.value == x.value.fields[key])
    ensures x.Some? && x.value.Str? && key == "length" ==> r == Some(Num(|x.value.s| as real))
    ensures x.Some? && x.value.Str? ==>
      forall i | 0 <= i < |x.value.s| && IndexKey(i) == key :: r == Some(Str([x.value.s[i]]))
    ensures x.Some? && x.value.Str? && key != "length" && (forall i | 0 <= i < |x.value.s| :: IndexKey(i) != key) ==>
      r.None?
    ensures x.None? || x.value.Null? || x.value.Num? ==> r.None?
  {
    if x.None? then None
    else match x.value
      case Obj(fields) => if key in fields then Some(fields[key]) else None
      case Str(s) =>
        if key == "length" then
          forall i: nat ensures IndexKey(i) != key {
            IndexKeyNotLength(i);
          }
          Some(Num(|s| as real))
        else
          var i := IndexNamed(key, |s|, 0);
          if i.Some? then
            forall j: nat | IndexKey(j) == key ensures j == i.value {
              IndexKeyInjective(j, i.value);
            }
            Some(Str([s[i.value]]))
          else None
      case _ => None
  }

  /** The value reached by following `path` from `j`, if every step exists. */
  function GetPath(j: Json, path: seq<string>): Option<Json>
    decreases |path|
  {
    if |path| == 0 then Some(j)
    else if j.Obj? && path[0] in j.fields then GetPath(j.fields[path[0]], path[1..])
    else None
  }
}
