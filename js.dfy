/** The values the estimation screens handle: JavaScript numbers that may be
    missing, null or NaN, and the text a user types into an input box. */
module Js {

  datatype Option<+T> = None | Some(value: T)

  /** A numeric field as the screens store it. `None` stands for every value
      that is not a usable number: undefined, null or NaN. */
  type Num = Option<real>

  /** The field at `key` of a record, `None` when the key is absent. */
  function Get<V>(m: map<string, V>, key: string): Option<V>
  {
    if key in m then Some(m[key]) else None
  }

  /** The field at `key` of a numeric record; an absent key reads as undefined. */
  function NumAt(m: map<string, real>, key: string): Num
  {
    if key in m then Some(m[key]) else None
  }

  /** `r` is `{ ...base, ...top }`: every key of either record, the value of
      `top` winning where both have one. */
  predicate Overlays<V(==)>(r: map<string, V>, base: map<string, V>, top: map<string, V>)
  {
    && r.Keys == base.Keys + top.Keys
    && (forall k | k in top :: r[k] == top[k])
    && (forall k | k in base && k !in top :: r[k] == base[k])
  }

  /** `{ ...base, ...top }`. */
  function Overlay<V(==)>(base: map<string, V>, top: map<string, V>): (r: map<string, V>)
    ensures Overlays(r, base, top)
  {
    base + top
  }

  /** Spreading `{}` over an object changes nothing. */
  lemma OverlayNothing<V>(base: map<string, V>)
    ensures Overlay(base, map[]) == base
  {
  }

  /** The property name `obj[key]` looks up when `key` is a stored text
      field: a missing field reads undefined, which names "undefined". */
  function PropertyKey(key: Option<string>): string
  {
    if key.Some? then key.value else "undefined"
  }

  /** True when `x || d` falls back to `d`: the value is missing, null, NaN or zero. */
  predicate Falsy(x: Num)
  {
    x.None? || x.value == 0.0
  }

  /** `x || d` on a numeric field (also `Number(x) || d` and `Number(x || d)`). */
  function Or(x: Num, d: real): real
  {
    if Falsy(x) then d else x.value
  }

  /** `s || d` on a text field: the empty string and a missing value fall back. */
  function OrText(s: Option<string>, d: string): string
  {
    if s.None? || s.value == "" then d else s.value
  }

  /** The content of an input box: the empty string, or some text that
      `parseFloat`/`Number` reads either as a number or as NaN. */
  datatype Input = Blank | Typed(parsed: Num)

  /** What `parseFloat(text)` yields; the empty string parses to NaN. */
  function ParseFloat(i: Input): Num
  {
    match i
    case Blank => None
    case Typed(p) => p
  }

  /** The common "NaN becomes 0" coercion: `parseFloat(text) || 0`. */
  function NumberOrZero(i: Input): (r: real)
    ensures i.Typed? && i.parsed.Some? ==> r == i.parsed.value
    ensures i.Blank? || i.parsed.None? ==> r == 0.0
  {
    Or(ParseFloat(i), 0.0)
  }

  /** `Number(m[k])`: a missing field reads NaN. */
  function Reading(m: map<string, Num>, k: string): Num
  {
    if k in m then m[k] else None
  }

  /** A record of plain numbers as stored numbers. */
  function AsNums(m: map<string, real>): (r: map<string, Num>)
    ensures r.Keys == m.Keys
    ensures forall k | k in m :: r[k] == Some(m[k])
  {
    map k | k in m :: Some(m[k])
  }

  /** `a + b` on JavaScript numbers: NaN is contagious. */
  function NumAdd(a: Num, b: Num): Num
  {
    if a.Some? && b.Some? then Some(a.value + b.value) else None
  }

  /** `a * b` on JavaScript numbers: NaN is contagious. */
  function NumMul(a: Num, b: Num): Num
  {
    if a.Some? && b.Some? then Some(a.value * b.value) else None
  }
}
