/** `computeSpringTotals`: the six columns are added and multiplied with no
    fallback, so a missing or non-numeric value makes the result NaN. */
module SpringCalculations {
  import opened Js
  import opened SpringDefaults

  /** `Number(qty.A) + Number(qty.B) + ...` over `keys`, in order. */
  function HoursOver(keys: seq<string>, qty: map<string, Num>): Num
  {
    if |keys| == 0 then Some(0.0)
    else NumAdd(HoursOver(keys[..|keys| - 1], qty), Reading(qty, keys[|keys| - 1]))
  }

  /** `qty.A * unitPrice.A + qty.B * unitPrice.B + ...` over `keys`, in order. */
  function DollarsOver(keys: seq<string>, qty: map<string, Num>, price: map<string, Num>): Num
  {
    if |keys| == 0 then Some(0.0)
    else
      var k := keys[|keys| - 1];
      NumAdd(DollarsOver(keys[..|keys| - 1], qty, price), NumMul(Reading(qty, k), Reading(price, k)))
  }

  datatype SpringTotals = SpringTotals(hoursPerOcc: Num, dollarsPerOcc: Num, totalDollars: Num)

  /** `computeSpringTotals({ qty, unitPrice, occurrences })`. */
  function ComputeSpringTotals(qty: map<string, Num>, unitPrice: map<string, Num>, occurrences: Num): (t: SpringTotals)
    ensures t.totalDollars == NumMul(t.dollarsPerOcc, occurrences)
    ensures occurrences == Some(0.0) && t.dollarsPerOcc.Some? ==> t.totalDollars == Some(0.0)
  {
    var dollars := DollarsOver(SpringKeys, qty, unitPrice);
    SpringTotals(HoursOver(SpringKeys, qty), dollars, NumMul(dollars, occurrences))
  }

  // Properties

  /** The hours are a number exactly when every column reads as a number. */
  lemma {:induction false} HoursDefinedIff(keys: seq<string>, qty: map<string, Num>)
    ensures HoursOver(keys, qty).Some? <==> forall k | k in keys :: Reading(qty, k).Some?
  {
    if |keys| > 0 {
      var init := keys[..|keys| - 1];
      HoursDefinedIff(init, qty);
      assert forall k | k in keys :: k in init || k == keys[|keys| - 1];
    }
  }

  /** The dollars are a number exactly when every column's quantity and price
      read as numbers. */
  lemma {:induction false} DollarsDefinedIff(keys: seq<string>, qty: map<string, Num>, price: map<string, Num>)
    ensures DollarsOver(keys, qty, price).Some? <==>
      forall k | k in keys :: Reading(qty, k).Some? && Reading(price, k).Some?
  {
    if |keys| > 0 {
      var init := keys[..|keys| - 1];
      DollarsDefinedIff(init, qty, price);
      assert forall k | k in keys :: k in init || k == keys[|keys| - 1];
    }
  }

  /** A table missing one of the six quantities totals NaN throughout, where
      the pruning totals would count the column as 0. */
  lemma MissingColumnGivesNaN(qty: map<string, Num>, unitPrice: map<string, Num>, occurrences: Num, k: string)
    requires k in SpringKeys && k !in qty
    ensures ComputeSpringTotals(qty, unitPrice, occurrences) == SpringTotals(None, None, None)
  {
    HoursDefinedIff(SpringKeys, qty);
    DollarsDefinedIff(SpringKeys, qty, unitPrice);
  }

  /** The two records read the same at every key of `keys`. */
  predicate AgreeOn(keys: seq<string>, m1: map<string, Num>, m2: map<string, Num>)
  {
    forall k | k in keys :: Reading(m1, k) == Reading(m2, k)
  }

  lemma {:induction false} SumsAgree(keys: seq<string>, q1: map<string, Num>, q2: map<string, Num>, p1: map<string, Num>, p2: map<string, Num>)
    requires AgreeOn(keys, q1, q2) && AgreeOn(keys, p1, p2)
    ensures HoursOver(keys, q1) == HoursOver(keys, q2)
    ensures DollarsOver(keys, q1, p1) == DollarsOver(keys, q2, p2)
  {
    if |keys| > 0 {
      SumsAgree(keys[..|keys| - 1], q1, q2, p1, p2);
    }
  }

  /** Only the six fixed columns contribute to the totals. */
  lemma OnlySpringKeysCount(q1: map<string, Num>, q2: map<string, Num>, p1: map<string, Num>, p2: map<string, Num>, occurrences: Num)
    requires AgreeOn(SpringKeys, q1, q2) && AgreeOn(SpringKeys, p1, p2)
    ensures ComputeSpringTotals(q1, p1, occurrences) == ComputeSpringTotals(q2, p2, occurrences)
  {
    SumsAgree(SpringKeys, q1, q2, p1, p2);
  }

  /** Columns that all read zero hours add up to zero. */
  lemma {:induction false} SumsZero(keys: seq<string>, qty: map<string, Num>, price: map<string, Num>)
    requires forall k | k in keys :: Reading(qty, k) == Some(0.0) && Reading(price, k).Some?
    ensures HoursOver(keys, qty) == Some(0.0) && DollarsOver(keys, qty, price) == Some(0.0)
  {
    if |keys| > 0 {
      SumsZero(keys[..|keys| - 1], qty, price);
    }
  }

  /** A new table totals zero hours and zero dollars. */
  lemma InitialTableTotalsZero()
    ensures var t := InitialSpringTable();
      ComputeSpringTotals(t.qty, t.unitPrice, t.occurrences) == SpringTotals(Some(0.0), Some(0.0), Some(0.0))
  {
    var t := InitialSpringTable();
    SumsZero(SpringKeys, t.qty, t.unitPrice);
  }
}
