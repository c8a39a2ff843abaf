/** Sums over the values of a record. The screens add up `Object.keys` or
    `Object.values` of an object; over exact numbers the order of the keys does
    not matter, so the sum is defined over the map itself. */
module Sums {

  /** Some element of a non-empty key set. */
  ghost function PickKey(keys: set<string>): (k: string)
    requires keys != {}
    ensures k in keys
  {
    var k :| k in keys; k
  }

  /** The sum of `m` over `keys`. */
  ghost function SumOver(keys: set<string>, m: map<string, real>): real
    requires keys <= m.Keys
    decreases keys
  {
    if keys == {} then 0.0
    else
      var k := PickKey(keys);
      m[k] + SumOver(keys - {k}, m)
  }

  /** The sum of all values of `m`. */
  ghost function SumMap(m: map<string, real>): real
  {
    SumOver(m.Keys, m)
  }

  /** Any key may be taken out first. */
  lemma {:induction false} SumOverRemove(keys: set<string>, m: map<string, real>, k: string)
    requires keys <= m.Keys && k in keys
    ensures SumOver(keys, m) == m[k] + SumOver(keys - {k}, m)
    decreases keys
  {
    var j := PickKey(keys);
    if j != k {
      SumOverRemove(keys - {j}, m, k);
      SumOverRemove(keys - {k}, m, j);
      assert keys - {j} - {k} == keys - {k} - {j};
    }
  }

  /** Only the values at `keys` matter. */
  lemma {:induction false} SumOverAgree(keys: set<string>, m1: map<string, real>, m2: map<string, real>)
    requires keys <= m1.Keys && keys <= m2.Keys
    requires forall k | k in keys :: m1[k] == m2[k]
    ensures SumOver(keys, m1) == SumOver(keys, m2)
    decreases keys
  {
    if keys != {} {
      var k := PickKey(keys);
      SumOverAgree(keys - {k}, m1, m2);
    }
  }

  /** Adding a new key adds its value. */
  lemma SumMapAdd(m: map<string, real>, k: string, v: real)
    requires k !in m
    ensures SumMap(m[k := v]) == SumMap(m) + v
  {
    var m' := m[k := v];
    SumOverRemove(m'.Keys, m', k);
    assert m'.Keys - {k} == m.Keys;
    SumOverAgree(m.Keys, m', m);
  }

  /** Replacing the value at a key shifts the sum by the difference. */
  lemma SumMapUpdate(m: map<string, real>, k: string, v: real)
    requires k in m
    ensures SumMap(m[k := v]) == SumMap(m) - m[k] + v
  {
    var m' := m[k := v];
    SumOverRemove(m'.Keys, m', k);
    SumOverRemove(m.Keys, m, k);
    assert m'.Keys == m.Keys;
    SumOverAgree(m.Keys - {k}, m', m);
  }

  /** Non-negative values have a non-negative sum. */
  lemma {:induction false} SumOverNonnegative(keys: set<string>, m: map<string, real>)
    requires keys <= m.Keys
    requires forall k | k in keys :: m[k] >= 0.0
    ensures SumOver(keys, m) >= 0.0
    decreases keys
  {
    if keys != {} {
      var k := PickKey(keys);
      SumOverNonnegative(keys - {k}, m);
    }
  }

  /** A record of non-negative values has a non-negative sum. */
  lemma SumMapNonnegative(m: map<string, real>)
    requires forall k | k in m :: m[k] >= 0.0
    ensures SumMap(m) >= 0.0
  {
    SumOverNonnegative(m.Keys, m);
  }

  /** Zeros sum to zero. */
  lemma {:induction false} SumOverZero(keys: set<string>, m: map<string, real>)
    requires keys <= m.Keys
    requires forall k | k in keys :: m[k] == 0.0
    ensures SumOver(keys, m) == 0.0
    decreases keys
  {
    if keys != {} {
      var k := PickKey(keys);
      SumOverZero(keys - {k}, m);
    }
  }

  /** A record of zeros sums to zero. */
  lemma SumMapZero(m: map<string, real>)
    requires forall k | k in m :: m[k] == 0.0
    ensures SumMap(m) == 0.0
  {
    SumOverZero(m.Keys, m);
  }

  /** The `reduce((sum, v) => sum + v, 0)` fold over the values of a record. */
  method SumValues(m: map<string, real>) returns (s: real)
    ensures s == SumMap(m)
  {
    s := 0.0;
    var rest := m.Keys;
    while rest != {}
      invariant rest <= m.Keys
      invariant s + SumOver(rest, m) == SumMap(m)
      decreases rest
    {
      var k :| k in rest;
      SumOverRemove(rest, m, k);
      s := s + m[k];
      rest := rest - {k};
    }
  }

  /** A product of two non-negative numbers is non-negative. */
  lemma MulNonnegative(x: real, y: real)
    requires x >= 0.0 && y >= 0.0
    ensures x * y >= 0.0
  {
  }

  /** A product of two positive numbers is positive. */
  lemma MulPositive(x: real, y: real)
    requires x > 0.0 && y > 0.0
    ensures x * y > 0.0
  {
  }
}
