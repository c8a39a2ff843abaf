/** `computePruningTotals`: hours and dollars per occurrence over the five
    pruning columns, and the total over the occurrences. */
module PruningCalculations {
  import opened Js
  import opened Sums
  import opened PruningDefaults

  /** `{ ...DEFAULT_PRUNING_RATES, ...data.unitPrice, ...overrideRates }`. */
  function EffectiveRates(data: PruningTable, overrideRates: map<string, Num>): (r: map<string, Num>)
    ensures forall k :: (Reading(r, k) ==
      if k in overrideRates then overrideRates[k]
      else if k in data.unitPrice then data.unitPrice[k]
      else Reading(AsNums(DefaultPruningRates()), k))
  {
    Overlay(Overlay(AsNums(DefaultPruningRates()), data.unitPrice), overrideRates)
  }

  /** Σ `Number(qty[k]) || 0` over `keys`, in order. */
  function HoursOver(keys: seq<string>, qty: map<string, Num>): real
  {
    if |keys| == 0 then 0.0
    else HoursOver(keys[..|keys| - 1], qty) + Or(Reading(qty, keys[|keys| - 1]), 0.0)
  }

  /** Σ `(Number(qty[k]) || 0) * (Number(rates[k]) || 0)` over `keys`, in order. */
  function DollarsOver(keys: seq<string>, qty: map<string, Num>, rates: map<string, Num>): real
  {
    if |keys| == 0 then 0.0
    else
      var k := keys[|keys| - 1];
      DollarsOver(keys[..|keys| - 1], qty, rates) + Or(Reading(qty, k), 0.0) * Or(Reading(rates, k), 0.0)
  }

  datatype PruningTotals = PruningTotals(hoursPerOcc: real, dollarsPerOcc: real, finalTotal: real)

  /** The totals from the quantities, the merged rates and the occurrences. */
  function TotalsWith(qty: map<string, Num>, rates: map<string, Num>, occurrences: Num): (t: PruningTotals)
    ensures t.finalTotal == t.dollarsPerOcc * Or(occurrences, 0.0)
    ensures Or(occurrences, 0.0) == 0.0 ==> t.finalTotal == 0.0
  {
    var dollars := DollarsOver(PruningKeys, qty, rates);
    PruningTotals(HoursOver(PruningKeys, qty), dollars, dollars * Or(occurrences, 0.0))
  }

  /** `computePruningTotals(data, overrideRates)`; a missing `overrideRates`
      is the empty record. Non-numeric occurrences count as 0. */
  function ComputePruningTotals(data: PruningTable, overrideRates: map<string, Num>): (t: PruningTotals)
    ensures t.hoursPerOcc == HoursOver(PruningKeys, data.qty)
    ensures t.dollarsPerOcc == DollarsOver(PruningKeys, data.qty, EffectiveRates(data, overrideRates))
    ensures t.finalTotal == t.dollarsPerOcc * Or(data.occurrences, 0.0)
  {
    TotalsWith(data.qty, EffectiveRates(data, overrideRates), data.occurrences)
  }

  /** The table `computePruningTotals()` sees when called with no data: `{}`. */
  function EmptyPruningTable(): PruningTable
  {
    PruningTable("", None, map[], map[], map[])
  }

  // Properties

  /** The two records read the same at every key of `keys`. */
  predicate AgreeOn(keys: seq<string>, m1: map<string, Num>, m2: map<string, Num>)
  {
    forall k | k in keys :: Reading(m1, k) == Reading(m2, k)
  }

  /** Columns whose quantities agree give the same sums. */
  lemma {:induction false} SumsAgree(keys: seq<string>, q1: map<string, Num>, q2: map<string, Num>, r1: map<string, Num>, r2: map<string, Num>)
    requires AgreeOn(keys, q1, q2) && AgreeOn(keys, r1, r2)
    ensures HoursOver(keys, q1) == HoursOver(keys, q2)
    ensures DollarsOver(keys, q1, r1) == DollarsOver(keys, q2, r2)
  {
    if |keys| > 0 {
      SumsAgree(keys[..|keys| - 1], q1, q2, r1, r2);
    }
  }

  /** Only the five pruning columns count: quantities and rates of any other
      key are ignored. */
  lemma OnlyPruningKeysCount(q1: map<string, Num>, q2: map<string, Num>, r1: map<string, Num>, r2: map<string, Num>, occurrences: Num)
    requires AgreeOn(PruningKeys, q1, q2) && AgreeOn(PruningKeys, r1, r2)
    ensures TotalsWith(q1, r1, occurrences) == TotalsWith(q2, r2, occurrences)
  {
    SumsAgree(PruningKeys, q1, q2, r1, r2);
  }

  /** Columns whose quantities all count as zero add up to nothing. */
  lemma {:induction false} SumsZero(keys: seq<string>, qty: map<string, Num>, rates: map<string, Num>)
    requires forall k | k in keys :: Or(Reading(qty, k), 0.0) == 0.0
    ensures HoursOver(keys, qty) == 0.0 && DollarsOver(keys, qty, rates) == 0.0
  {
    if |keys| > 0 {
      SumsZero(keys[..|keys| - 1], qty, rates);
    }
  }

  /** Columns with no negative quantity or rate add up to no negative
      hours and no negative dollars. */
  lemma {:induction false} SumsNonnegative(keys: seq<string>, qty: map<string, Num>, rates: map<string, Num>)
    requires forall k | k in keys :: Or(Reading(qty, k), 0.0) >= 0.0 && Or(Reading(rates, k), 0.0) >= 0.0
    ensures HoursOver(keys, qty) >= 0.0 && DollarsOver(keys, qty, rates) >= 0.0
  {
    if |keys| > 0 {
      var k := keys[|keys| - 1];
      SumsNonnegative(keys[..|keys| - 1], qty, rates);
      MulNonnegative(Or(Reading(qty, k), 0.0), Or(Reading(rates, k), 0.0));
    }
  }

  /** Called with no data, the totals are all zero, whatever the override rates. */
  lemma NoDataNoTotals(overrideRates: map<string, Num>)
    ensures ComputePruningTotals(EmptyPruningTable(), overrideRates) == PruningTotals(0.0, 0.0, 0.0)
  {
    SumsZero(PruningKeys, map[], EffectiveRates(EmptyPruningTable(), overrideRates));
  }

  /** A new table totals nothing. */
  lemma InitialTableNoTotals()
    ensures ComputePruningTotals(InitialPruningTable(), map[]) == PruningTotals(0.0, 0.0, 0.0)
  {
    var t := InitialPruningTable();
    SumsZero(PruningKeys, t.qty, EffectiveRates(t, map[]));
  }

  /** Changing one column's quantity moves the hours by the change in that
      column and nothing else. */
  lemma {:induction false} HoursEdit(keys: seq<string>, qty: map<string, Num>, k: string, x: Num)
    requires forall i, j | 0 <= i < j < |keys| :: keys[i] != keys[j]
    ensures HoursOver(keys, qty[k := x]) ==
      HoursOver(keys, qty) + (if k in keys then Or(x, 0.0) - Or(Reading(qty, k), 0.0) else 0.0)
  {
    if |keys| > 0 {
      var init := keys[..|keys| - 1];
      HoursEdit(init, qty, k, x);
      assert k in keys <==> k in init || k == keys[|keys| - 1];
      assert k == keys[|keys| - 1] ==> k !in init;
    }
  }
}
