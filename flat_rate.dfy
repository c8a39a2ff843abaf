/** The totals of the flat-rate tables (edging and bed maintenance): a
    subtotal per priced column, their sum, the hours, and the sum billed per
    occurrence, where 0 or missing occurrences bill once. */
module FlatRate {
  import opened Js
  import opened Sums

  /** `{ sumHours, totalOccDollar, finalTotal, totalRow }`. */
  datatype FlatTotals = FlatTotals(
    sumHours: real,
    totalOccDollar: real,
    finalTotal: real,
    rowTotals: map<string, real>)

  /** `(qty[col] || 0) * (price[col] || 0)`. */
  function FlatRow(qty: map<string, real>, price: map<string, real>, col: string): real
    requires col in price
  {
    Or(NumAt(qty, col), 0.0) * price[col]
  }

  /** The subtotal of every priced column. */
  function FlatRows(qty: map<string, real>, price: map<string, real>): (r: map<string, real>)
    ensures r.Keys == price.Keys
  {
    map col | col in price :: FlatRow(qty, price, col)
  }

  /** `numOccurrences || 1`. */
  function Occurrences(summary: map<string, real>): (n: real)
    ensures n != 0.0
    ensures "numOccurrences" !in summary || summary["numOccurrences"] == 0.0 ==> n == 1.0
    ensures "numOccurrences" in summary && summary["numOccurrences"] != 0.0 ==> n == summary["numOccurrences"]
  {
    Or(NumAt(summary, "numOccurrences"), 1.0)
  }

  /** What `computeTotals` returns for a table. */
  ghost function FlatTotalsOf(qty: map<string, real>, price: map<string, real>, summary: map<string, real>): FlatTotals
  {
    var rows := FlatRows(qty, price);
    FlatTotals(SumMap(qty), SumMap(rows), SumMap(rows) * Occurrences(summary), rows)
  }

  /** A flat-rate table: quantities and prices per column, the summary, and
      the totals saved with it (`None` when they are missing or `{}`). */
  datatype FlatTable = FlatTable(
    qtyUnit: map<string, real>,
    unitPrice: map<string, real>,
    summary: map<string, real>,
    totals: Option<FlatTotals>)

  /** The totals of a table. */
  ghost function TotalsOf(d: FlatTable): FlatTotals
  {
    FlatTotalsOf(d.qtyUnit, d.unitPrice, d.summary)
  }

  /** The record a row input edits: `qtyUnit`, `unitPrice` or `summary`. */
  datatype RowKey = QtyUnitRow | UnitPriceRow | SummaryRow

  /** `{ ...data, [rowKey]: { ...data[rowKey], [key]: value } }`. */
  function SetCell(d: FlatTable, row: RowKey, key: string, value: real): (r: FlatTable)
    ensures r.totals == d.totals
    ensures row == QtyUnitRow ==> r == d.(qtyUnit := d.qtyUnit[key := value])
    ensures row == UnitPriceRow ==> r == d.(unitPrice := d.unitPrice[key := value])
    ensures row == SummaryRow ==> r == d.(summary := d.summary[key := value])
  {
    match row
    case QtyUnitRow => d.(qtyUnit := d.qtyUnit[key := value])
    case UnitPriceRow => d.(unitPrice := d.unitPrice[key := value])
    case SummaryRow => d.(summary := d.summary[key := value])
  }

  /** The column loop of `computeTotals`. */
  method SumPricedRows(qty: map<string, real>, price: map<string, real>)
    returns (rowTotals: map<string, real>, total: real)
    ensures rowTotals == FlatRows(qty, price)
    ensures total == SumMap(rowTotals)
  {
    rowTotals := map[];
    total := 0.0;
    var rest := price.Keys;
    while rest != {}
      invariant rest <= price.Keys
      invariant rowTotals.Keys == price.Keys - rest
      invariant forall col | col in rowTotals :: rowTotals[col] == FlatRow(qty, price, col)
      invariant total == SumMap(rowTotals)
      decreases rest
    {
      var col :| col in rest;
      var t := FlatRow(qty, price, col);
      SumMapAdd(rowTotals, col, t);
      rowTotals := rowTotals[col := t];
      total := total + t;
      rest := rest - {col};
    }
  }

  /** `computeTotals(d)`. */
  method ComputeFlatTotals(qty: map<string, real>, price: map<string, real>, summary: map<string, real>)
    returns (t: FlatTotals)
    ensures t == FlatTotalsOf(qty, price, summary)
  {
    var rowTotals, totalOccDollar := SumPricedRows(qty, price);
    var sumHours := SumValues(qty);
    t := FlatTotals(sumHours, totalOccDollar, totalOccDollar * Occurrences(summary), rowTotals);
  }

  // Properties

  /** Entering a new quantity for a priced column changes that column's
      subtotal only. */
  lemma QtyEditRows(qty: map<string, real>, price: map<string, real>, col: string, v: real)
    requires col in price
    ensures FlatRows(qty[col := v], price) == FlatRows(qty, price)[col := v * price[col]]
  {
    var l := FlatRows(qty[col := v], price);
    var r := FlatRows(qty, price)[col := v * price[col]];
    forall j | j in l ensures l[j] == r[j] {
      if j != col {
        assert FlatRow(qty[col := v], price, j) == FlatRow(qty, price, j);
      }
    }
  }

  /** ... and moves the dollar total by the change in that subtotal. */
  lemma QtyEditDollars(qty: map<string, real>, price: map<string, real>, col: string, v: real)
    requires col in price
    ensures SumMap(FlatRows(qty[col := v], price)) ==
      SumMap(FlatRows(qty, price)) - FlatRow(qty, price, col) + v * price[col]
  {
    QtyEditRows(qty, price, col, v);
    SumMapUpdate(FlatRows(qty, price), col, v * price[col]);
  }

  /** A quantity for a column without a price counts in the hours but in no
      subtotal. */
  lemma UnpricedQtyOnlyHours(qty: map<string, real>, price: map<string, real>, col: string, v: real)
    requires col !in price && col !in qty
    ensures FlatRows(qty[col := v], price) == FlatRows(qty, price)
    ensures SumMap(qty[col := v]) == SumMap(qty) + v
  {
    var l := FlatRows(qty[col := v], price);
    forall j | j in l ensures l[j] == FlatRows(qty, price)[j] {
      assert FlatRow(qty[col := v], price, j) == FlatRow(qty, price, j);
    }
    SumMapAdd(qty, col, v);
  }

  /** With no negative quantity or price and a positive occurrence count,
      nothing totals below zero. */
  lemma FlatTotalsNonnegative(qty: map<string, real>, price: map<string, real>, summary: map<string, real>)
    requires forall k | k in qty :: qty[k] >= 0.0
    requires forall k | k in price :: price[k] >= 0.0
    requires Occurrences(summary) > 0.0
    ensures var t := FlatTotalsOf(qty, price, summary);
      t.sumHours >= 0.0 && t.totalOccDollar >= 0.0 && t.finalTotal >= 0.0
  {
    var rows := FlatRows(qty, price);
    forall k | k in rows ensures rows[k] >= 0.0 {
      MulNonnegative(Or(NumAt(qty, k), 0.0), price[k]);
    }
    SumMapNonnegative(qty);
    SumMapNonnegative(rows);
    MulNonnegative(SumMap(rows), Occurrences(summary));
  }
}
