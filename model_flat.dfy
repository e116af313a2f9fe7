/** `FlatTransaction` and `FlatBudget` of `iatiflattener/model.py`: one
    transaction or one activity's budget rows fanned out over its allocation
    lists. Both write every row into one shared dictionary and return a copy
    of it; the transaction version rescales the `value_local` it finds there,
    so the local values compound from row to row, while the budget version
    first copies the quarter row's own `value_local` back in. */
module ModelFlat {
  import opened Wrappers
  import opened Utils
  import opened Iati
  import opened IatiHelpers
  import opened Slots
  import opened Fanout
  import opened ModelBudgets
  import opened ModelRecords

  /** `dict([(k, v * f) for k, v in d.items()])`: same keys in the same order. */
  function ScaleValues(d: seq<(string, real)>, f: real): seq<(string, real)> {
    seq(|d|, i requires 0 <= i < |d| => (d[i].0, d[i].1 * f))
  }

  /** Scaling twice is scaling once by the product. */
  lemma {:induction false} ScaleValuesTwice(d: seq<(string, real)>, f: real, g: real, h: real)
    requires h == f * g
    ensures ScaleValues(ScaleValues(d, f), g) == ScaleValues(d, h)
  {
    var l := ScaleValues(ScaleValues(d, f), g);
    var r := ScaleValues(d, h);
    forall i | 0 <= i < |d| ensures l[i] == r[i] {
      MulAssoc(d[i].1, f, g);
      assert l[i].1 == ScaleValues(d, f)[i].1 * g;
      assert ScaleValues(d, f)[i].1 == d[i].1 * f;
      assert l[i].0 == r[i].0 && l[i].1 == r[i].1;
    }
  }

  lemma {:induction false} MulAssoc(a: real, b: real, c: real)
    ensures (a * b) * c == a * (b * c)
  {
  }

  // ------------------------------------------------------------ FlatTransaction

  /** The adjustment of one sector x country row. */
  function PctAdjustment(sector: Allocation, country: Allocation): real {
    (country.percentage / 100.0) * (sector.percentage / 100.0)
  }

  /** It is the fan-out share of the combination `[sector, country]`. */
  lemma {:induction false} PctAdjustmentIsFactor(sector: Allocation, country: Allocation)
    ensures PctAdjustment(sector, country) == Factor([sector, country])
  {
    var s, c := sector.percentage / 100.0, country.percentage / 100.0;
    assert [sector, country][1..] == [country];
    assert [country][1..] == [];
    assert Factor([country]) == c;
    assert Factor([sector, country]) == s * c;
  }

  /** Sector x country combinations: the sector first, as the outer loop. */
  predicate Pairs(cs: seq<Combo>) {
    forall k :: 0 <= k < |cs| ==> |cs[k]| == 2
  }

  /** The product of the adjustments of the first `n` combinations. */
  function AdjustmentProduct(cs: seq<Combo>, n: nat): real
    requires Pairs(cs) && n <= |cs|
  {
    if n == 0 then 1.0 else AdjustmentProduct(cs, n - 1) * PctAdjustment(cs[n - 1][0], cs[n - 1][1])
  }

  /** The columns `make_flattened(sector, country)` writes, with the
      transaction's identifier, type, currency, dates and rate copied from its
      record; the `countries` and `sectors` lists are not in the row. */
  datatype FlatTransactionRow = FlatTransactionRow(
    iatiIdentifier: string, transactionType: string, currencyOriginal: Option<string>,
    valueDate: Date, fiscalYear: int, fiscalQuarter: string, exchangeRate: PosReal,
    countryCode: string, sectorCode: string, sectorCategory: string,
    valueOriginal: real, valueUsd: real, valueEur: real, valueLocal: seq<(string, real)>)

  /** The row returned for one combination once the shared `value_local` is `local`. */
  function TransactionRowOf(t: TransactionRecord, categories: map<string, string>,
                            sector: Allocation, country: Allocation, local: seq<(string, real)>): FlatTransactionRow
  {
    var f := PctAdjustment(sector, country);
    FlatTransactionRow(t.iatiIdentifier, t.transactionType, t.currencyOriginal,
                       t.valueDate, t.fiscalYear, t.fiscalQuarter, t.exchangeRate,
                       country.code, sector.code, GetSectorCategory(Some(sector.code), categories),
                       t.valueOriginal * f, t.valueUsd * f, t.valueEur * f, local)
  }

  /** The shared `value_local` after the first `n` rows have each rescaled it. */
  function LocalAfter(local: seq<(string, real)>, cs: seq<Combo>, n: nat): seq<(string, real)>
    requires Pairs(cs) && n <= |cs|
  {
    if n == 0 then local else ScaleValues(LocalAfter(local, cs, n - 1), PctAdjustment(cs[n - 1][0], cs[n - 1][1]))
  }

  /** The compounded local values are the starting ones scaled by the product
      of every adjustment applied so far. */
  lemma {:induction false} LocalAfterIsProduct(local: seq<(string, real)>, cs: seq<Combo>, n: nat)
    requires Pairs(cs) && n <= |cs|
    ensures LocalAfter(local, cs, n) == ScaleValues(local, AdjustmentProduct(cs, n))
    decreases n
  {
    if n == 0 {
      var r := ScaleValues(local, 1.0);
      forall i | 0 <= i < |local| ensures r[i] == local[i] {
        assert r[i].0 == local[i].0 && r[i].1 == local[i].1;
      }
    } else {
      LocalAfterIsProduct(local, cs, n - 1);
      ScaleValuesTwice(local, AdjustmentProduct(cs, n - 1), PctAdjustment(cs[n - 1][0], cs[n - 1][1]), AdjustmentProduct(cs, n));
    }
  }

  /** The local values each row of `flatten()` returns: row `k` gets the
      shared ones after rows `0..k` have all rescaled them. */
  function Locals(local: seq<(string, real)>, cs: seq<Combo>): (r: seq<seq<(string, real)>>)
    requires Pairs(cs)
    ensures |r| == |cs|
  {
    seq(|cs|, k requires 0 <= k < |cs| => LocalAfter(local, cs, k + 1))
  }

  /** The first `n` rows of `flatten()` over the combinations `cs`, row `k`
      carrying the local values `locals[k]`: each row scales the record's
      values by its own adjustment. */
  function TransactionRows(t: TransactionRecord, categories: map<string, string>,
                           locals: seq<seq<(string, real)>>, cs: seq<Combo>, n: nat): (r: seq<FlatTransactionRow>)
    requires Pairs(cs) && n <= |cs| && n <= |locals|
  {
    seq(n, k requires 0 <= k < n => TransactionRowOf(t, categories, cs[k][0], cs[k][1], locals[k]))
  }

  /** `for sector in sectors: for country in countries`. */
  function TransactionCombos(t: TransactionRecord): seq<Combo> {
    Combos([t.sectors, t.countries])
  }

  lemma {:induction false} TransactionCombosArePairs(t: TransactionRecord)
    ensures Pairs(TransactionCombos(t))
  {
    var cs := TransactionCombos(t);
    CombosShape([t.sectors, t.countries]);
    forall k | 0 <= k < |cs| ensures |cs[k]| == 2 {
      assert cs[k] in cs;
    }
  }

  /** Every row `flatten()` yields. */
  function FlattenedRows(t: TransactionRecord, categories: map<string, string>,
                         local: seq<(string, real)>): (r: seq<FlatTransactionRow>)
  {
    TransactionCombosArePairs(t);
    var cs := TransactionCombos(t);
    TransactionRows(t, categories, Locals(local, cs), cs, |cs|)
  }

  lemma {:induction false} TransactionRowsSnoc(t: TransactionRecord, categories: map<string, string>,
                            locals: seq<seq<(string, real)>>, cs: seq<Combo>, n: nat)
    requires Pairs(cs) && 0 < n <= |cs| && n <= |locals|
    ensures TransactionRows(t, categories, locals, cs, n) ==
      TransactionRows(t, categories, locals, cs, n - 1) +
      [TransactionRowOf(t, categories, cs[n - 1][0], cs[n - 1][1], locals[n - 1])]
  {
  }

  class FlatTransaction {
    const transaction: TransactionRecord
    const sectorCategories: map<string, string>
    /** The `value_local` entry of the shared `flat_transaction` dictionary. */
    var valueLocal: seq<(string, real)>

    /** The shared dictionary starts as the record's CSV dictionary. */
    constructor (transaction: TransactionRecord, sectorCategories: map<string, string>)
      ensures this.transaction == transaction && this.sectorCategories == sectorCategories
      ensures valueLocal == transaction.valueLocal
    {
      this.transaction := transaction;
      this.sectorCategories := sectorCategories;
      valueLocal := transaction.valueLocal;
    }

    /** `make_flattened(sector, country)`: the record's values scaled by the
        two percentages, and the shared local values rescaled in place. */
    method MakeFlattened(sector: Allocation, country: Allocation) returns (row: FlatTransactionRow)
      modifies this
      ensures valueLocal == ScaleValues(old(valueLocal), PctAdjustment(sector, country))
      ensures row == TransactionRowOf(transaction, sectorCategories, sector, country, valueLocal)
    {
      var adjustment := PctAdjustment(sector, country);
      valueLocal := ScaleValues(valueLocal, adjustment);
      row := FlatTransactionRow(transaction.iatiIdentifier, transaction.transactionType,
                                transaction.currencyOriginal, transaction.valueDate,
                                transaction.fiscalYear, transaction.fiscalQuarter, transaction.exchangeRate,
                                country.code, sector.code, GetSectorCategory(Some(sector.code), sectorCategories),
                                transaction.valueOriginal * adjustment, transaction.valueUsd * adjustment,
                                transaction.valueEur * adjustment, valueLocal);
    }

    /** `flatten()`: one row per sector x country combination, in loop order. */
    method Flatten() returns (rows: seq<FlatTransactionRow>)
      modifies this
      ensures rows == FlattenedRows(transaction, sectorCategories, old(valueLocal))
      ensures Pairs(TransactionCombos(transaction))
      ensures valueLocal == LocalAfter(old(valueLocal), TransactionCombos(transaction), |TransactionCombos(transaction)|)
    {
      var cs := TransactionCombos(transaction);
      TransactionCombosArePairs(transaction);
      ghost var local := valueLocal;
      rows := [];
      for k := 0 to |cs|
        invariant valueLocal == LocalAfter(local, cs, k)
        invariant rows == TransactionRows(transaction, sectorCategories, Locals(local, cs), cs, k)
      {
        TransactionRowsSnoc(transaction, sectorCategories, Locals(local, cs), cs, k + 1);
        var row := MakeFlattened(cs[k][0], cs[k][1]);
        rows := rows + [row];
      }
    }
  }

  /** Element `i * |ys| + j` of `for x in xs: for y in ys` is `[xs[i], ys[j]]`. */
  lemma {:induction false} PairCombosAt(xs: seq<Allocation>, ys: seq<Allocation>, i: nat, j: nat)
    requires i < |xs| && j < |ys|
    ensures |Combos([xs, ys])| == |xs| * |ys|
    ensures i * |ys| + j < |xs| * |ys|
    ensures Combos([xs, ys])[i * |ys| + j] == [xs[i], ys[j]]
  {
    var inner := Combos([ys]);
    assert [xs, ys][1..] == [ys];
    assert [ys][1..] == [];
    assert Combos([ys][1..]) == [[]];
    assert inner == Prefixed(ys, [[]]);
    PrefixedAt(ys, [[]], j, 0);
    assert inner[j] == [ys[j]];
    PrefixedAt(xs, inner, i, j);
    PrefixedLength(ys, [[]]);
    PrefixedLength(xs, inner);
  }

  /** Row `i * |countries| + j` is sector `i` with country `j`, and its dollar
      value is the transaction's times both percentages over 100. */
  lemma {:induction false} TransactionRowAt(t: TransactionRecord, categories: map<string, string>,
                         local: seq<(string, real)>, i: nat, j: nat)
    requires i < |t.sectors| && j < |t.countries|
    ensures |FlattenedRows(t, categories, local)| == |t.sectors| * |t.countries|
    ensures i * |t.countries| + j < |t.sectors| * |t.countries|
    ensures var row := FlattenedRows(t, categories, local)[i * |t.countries| + j];
      row.sectorCode == t.sectors[i].code && row.countryCode == t.countries[j].code &&
      row.valueUsd == t.valueUsd * ((t.countries[j].percentage / 100.0) * (t.sectors[i].percentage / 100.0))
  {
    TransactionCombosArePairs(t);
    PairCombosAt(t.sectors, t.countries, i, j);
  }

  /** The three value columns of a flattened transaction row. */
  datatype ValueColumn = UsdColumn | OriginalColumn | EurColumn

  /** A row's value in a column. */
  function ColumnValue(r: FlatTransactionRow, col: ValueColumn): real
  {
    match col
    case UsdColumn => r.valueUsd
    case OriginalColumn => r.valueOriginal
    case EurColumn => r.valueEur
  }

  /** The sum of a column over the rows. */
  function ColumnSum(rows: seq<FlatTransactionRow>, col: ValueColumn): real
  {
    if rows == [] then 0.0 else ColumnValue(rows[0], col) + ColumnSum(rows[1..], col)
  }

  /** The record's own value in a column. */
  function RecordValue(t: TransactionRecord, col: ValueColumn): real
  {
    match col
    case UsdColumn => t.valueUsd
    case OriginalColumn => t.valueOriginal
    case EurColumn => t.valueEur
  }

  /** Row `k` carries the record's value in a column times the adjustment
      of its combination. */
  lemma {:induction false} TransactionRowShare(t: TransactionRecord, categories: map<string, string>,
                            col: ValueColumn, c: Combo, local: seq<(string, real)>)
    requires |c| == 2
    ensures ColumnValue(TransactionRowOf(t, categories, c[0], c[1], local), col) == RecordValue(t, col) * Factor(c)
  {
    PctAdjustmentIsFactor(c[0], c[1]);
    assert [c[0], c[1]] == c;
  }

  /** Rows each worth `v` times the share of their combination sum to `v`
      times the sum of the shares. */
  lemma {:induction false} ShareTotal(rows: seq<FlatTransactionRow>, cs: seq<Combo>, col: ValueColumn, v: real)
    requires |rows| == |cs|
    requires forall k :: 0 <= k < |rows| ==> ColumnValue(rows[k], col) == v * Factor(cs[k])
    ensures ColumnSum(rows, col) == ScaledSum(cs, v)
    decreases |rows|
  {
    if rows != [] {
      assert forall k :: 0 <= k < |rows[1..]| ==> rows[1..][k] == rows[k + 1] && cs[1..][k] == cs[k + 1];
      ShareTotal(rows[1..], cs[1..], col, v);
    }
  }

  /** Each value column of the rows sums to the record's value in it times
      each combination's share, summed over the combinations. */
  lemma {:induction false} TransactionColumnTotal(t: TransactionRecord, categories: map<string, string>,
                                                  local: seq<(string, real)>, col: ValueColumn)
    ensures ColumnSum(FlattenedRows(t, categories, local), col) == ScaledSum(TransactionCombos(t), RecordValue(t, col))
  {
    var cs := TransactionCombos(t);
    TransactionCombosArePairs(t);
    var rows := FlattenedRows(t, categories, local);
    forall k | 0 <= k < |rows| ensures ColumnValue(rows[k], col) == RecordValue(t, col) * Factor(cs[k]) {
      TransactionRowShare(t, categories, col, cs[k], Locals(local, cs)[k]);
    }
    ShareTotal(rows, cs, col, RecordValue(t, col));
  }

  /** With normalised sector and country lists the rows together carry the
      transaction's whole original, dollar and euro values. */
  lemma {:induction false} TransactionRowsConserve(t: TransactionRecord, categories: map<string, string>, local: seq<(string, real)>)
    requires SumPct(t.sectors) == 100.0 && SumPct(t.countries) == 100.0
    ensures var rows := FlattenedRows(t, categories, local);
      ColumnSum(rows, UsdColumn) == t.valueUsd && ColumnSum(rows, OriginalColumn) == t.valueOriginal &&
      ColumnSum(rows, EurColumn) == t.valueEur
  {
    var axes := [t.sectors, t.countries];
    assert forall k :: 0 <= k < |axes| ==> SumPct(axes[k]) == 100.0;
    forall col: ValueColumn ensures ColumnSum(FlattenedRows(t, categories, local), col) == RecordValue(t, col) {
      TransactionColumnTotal(t, categories, local, col);
      FanOutConserves(axes, RecordValue(t, col));
    }
  }

  /** The local values compound: each row rescales the previous row's
      already-scaled local values, while the dollar value is scaled afresh. */
  lemma {:induction false} TransactionLocalCompounds(t: TransactionRecord, categories: map<string, string>,
                                  local: seq<(string, real)>, k: nat)
    requires 0 < k < |FlattenedRows(t, categories, local)|
    ensures Pairs(TransactionCombos(t)) && k < |TransactionCombos(t)|
    ensures var cs := TransactionCombos(t);
      var rows := FlattenedRows(t, categories, local);
      rows[k].valueLocal == ScaleValues(rows[k - 1].valueLocal, PctAdjustment(cs[k][0], cs[k][1])) &&
      rows[k].valueUsd == t.valueUsd * PctAdjustment(cs[k][0], cs[k][1])
  {
    TransactionCombosArePairs(t);
  }

  /** Row `k`'s local values are the record's scaled by the adjustments of
      rows `0..k` together. */
  lemma {:induction false} TransactionLocalIsProduct(t: TransactionRecord, categories: map<string, string>,
                                  local: seq<(string, real)>, k: nat)
    requires k < |FlattenedRows(t, categories, local)|
    ensures Pairs(TransactionCombos(t)) && k < |TransactionCombos(t)|
    ensures FlattenedRows(t, categories, local)[k].valueLocal == ScaleValues(local, AdjustmentProduct(TransactionCombos(t), k + 1))
  {
    TransactionCombosArePairs(t);
    LocalAfterIsProduct(local, TransactionCombos(t), k + 1);
  }

  /** One sector at 100% and two countries at 50%: the second row's local
      value is a quarter of the transaction's, not half as its dollar value is. */
  lemma {:induction false} SecondRowLocalIsQuartered(t: TransactionRecord, categories: map<string, string>)
    requires t.sectors == [Allocation("151", 100.0)]
    requires t.countries == [Allocation("KE", 50.0), Allocation("UG", 50.0)]
    requires t.valueLocal == [("KE", 100.0), ("UG", 100.0)] && t.valueUsd == 100.0
    ensures var rows := FlattenedRows(t, categories, t.valueLocal);
      |rows| == 2 && rows[1].valueUsd == 50.0 && rows[1].valueLocal == [("KE", 25.0), ("UG", 25.0)]
  {
    TransactionCombosArePairs(t);
    var cs := TransactionCombos(t);
    var rows := FlattenedRows(t, categories, t.valueLocal);
    PairCombosAt(t.sectors, t.countries, 0, 0);
    PairCombosAt(t.sectors, t.countries, 0, 1);
    assert cs[0] == [t.sectors[0], t.countries[0]];
    assert cs[1] == [t.sectors[0], t.countries[1]];
    var half := ScaleValues(t.valueLocal, 0.5);
    assert LocalAfter(t.valueLocal, cs, 1) == half;
    assert half == [("KE", 50.0), ("UG", 50.0)];
    assert rows[1].valueLocal == ScaleValues(half, 0.5);
  }

  // ------------------------------------------------------------ FlatBudget

  /** The adjustment of a sector, country, aid, finance, flow combination:
      the product of the five percentages over 100. */
  function BudgetAdjustment(c: Combo): real
    requires |c| == 5
  {
    Factor(c)
  }

  /** It is `(country%/100) * (sector%/100) * (aid%/100) * (finance%/100) * (flow%/100)`. */
  lemma {:induction false} BudgetAdjustmentIsProduct(c: Combo)
    requires |c| == 5
    ensures BudgetAdjustment(c) == (c[1].percentage / 100.0) * (c[0].percentage / 100.0) *
      (c[2].percentage / 100.0) * (c[3].percentage / 100.0) * (c[4].percentage / 100.0)
  {
    var p0, p1, p2, p3, p4 := c[0].percentage / 100.0, c[1].percentage / 100.0, c[2].percentage / 100.0,
                              c[3].percentage / 100.0, c[4].percentage / 100.0;
    assert c[1..][1..][1..][1..][1..] == [];
    assert Factor(c[1..][1..][1..][1..]) == p4;
    assert Factor(c[1..][1..][1..]) == p3 * p4;
    assert Factor(c[1..][1..]) == p2 * (p3 * p4);
    assert Factor(c[1..]) == p1 * (p2 * (p3 * p4));
    assert Factor(c) == p0 * (p1 * (p2 * (p3 * p4)));
    assert p0 * (p1 * (p2 * (p3 * p4))) == p1 * p0 * p2 * p3 * p4;
  }

  /** The five allocation lists, outermost first. */
  function BudgetAxes(b: BudgetRecord): seq<seq<Allocation>> {
    [b.sectors, b.countries, b.aidTypes, b.financeTypes, b.flowTypes]
  }

  predicate Quintuples(cs: seq<Combo>) {
    forall k :: 0 <= k < |cs| ==> |cs[k]| == 5
  }

  lemma {:induction false} BudgetCombosAreQuintuples(b: BudgetRecord)
    ensures Quintuples(Combos(BudgetAxes(b)))
  {
    var cs := Combos(BudgetAxes(b));
    CombosShape(BudgetAxes(b));
    forall k | 0 <= k < |cs| ensures |cs[k]| == 5 {
      assert cs[k] in cs;
    }
  }

  /** A quarter row with its four values scaled. */
  function ScaledPeriod(q: QuarterRow, f: real): QuarterRow {
    q.(valueOriginal := q.valueOriginal * f, valueUsd := q.valueUsd * f, valueEur := q.valueEur * f,
       valueLocal := ScaleValues(q.valueLocal, f))
  }

  /** The columns of one flattened budget row: the activity's columns other
      than `countries` and `sectors`, the quarter row's columns with its values
      scaled, and the codes of the combination. */
  datatype FlatBudgetRow = FlatBudgetRow(
    iatiIdentifier: string, multiCountry: int, humanitarian: int, transactionType: string, url: string,
    period: QuarterRow, countryCode: string, sectorCode: string, sectorCategory: string,
    aidType: string, financeType: string, flowType: string)

  function BudgetRowOf(b: BudgetRecord, categories: map<string, string>, c: Combo, q: QuarterRow): FlatBudgetRow
    requires |c| == 5
  {
    FlatBudgetRow(b.iatiIdentifier, b.multiCountry, b.humanitarian, b.transactionType, b.url,
                  ScaledPeriod(q, BudgetAdjustment(c)), c[1].code, c[0].code,
                  GetSectorCategory(Some(c[0].code), categories), c[2].code, c[3].code, c[4].code)
  }

  /** The rows of one combination: one per quarter row, in order. */
  function ComboRows(b: BudgetRecord, categories: map<string, string>, c: Combo, qs: seq<QuarterRow>): (r: seq<FlatBudgetRow>)
    requires |c| == 5
    ensures |r| == |qs| && forall m :: 0 <= m < |qs| ==> r[m] == BudgetRowOf(b, categories, c, qs[m])
  {
    seq(|qs|, m requires 0 <= m < |qs| => BudgetRowOf(b, categories, c, qs[m]))
  }

  /** The rows the six nested loops of `flatten()` yield. */
  function BudgetRows(b: BudgetRecord, categories: map<string, string>, cs: seq<Combo>, qs: seq<QuarterRow>): seq<FlatBudgetRow>
    requires Quintuples(cs)
    decreases |cs|
  {
    if cs == [] then []
    else ComboRows(b, categories, cs[0], qs) + BudgetRows(b, categories, cs[1..], qs)
  }

  class FlatBudget {
    const budget: BudgetRecord
    const sectorCategories: map<string, string>
    /** The `value_local` entry of the shared `flat_budget` dictionary, absent
        from the activity's CSV dictionary until the first row is made. */
    var valueLocal: Option<seq<(string, real)>>

    constructor (budget: BudgetRecord, sectorCategories: map<string, string>)
      ensures this.budget == budget && this.sectorCategories == sectorCategories
      ensures valueLocal == None
    {
      this.budget := budget;
      this.sectorCategories := sectorCategories;
      valueLocal := None;
    }

    /** `make_flattened(country, sector, aid_type, finance_type, flow_type,
        budget)`: the quarter row is copied in first, so the local values are
        scaled from the row's own and nothing carries over between calls. */
    method MakeFlattened(c: Combo, q: QuarterRow) returns (row: FlatBudgetRow)
      requires |c| == 5
      modifies this
      ensures valueLocal == Some(ScaleValues(q.valueLocal, BudgetAdjustment(c)))
      ensures row == BudgetRowOf(budget, sectorCategories, c, q)
    {
      var country, sector, aidType, financeType, flowType := c[1], c[0], c[2], c[3], c[4];
      var adjustment := BudgetAdjustment(c);
      valueLocal := Some(q.valueLocal);
      valueLocal := Some(ScaleValues(valueLocal.value, adjustment));
      var period := q.(valueOriginal := q.valueOriginal * adjustment, valueUsd := q.valueUsd * adjustment,
                       valueEur := q.valueEur * adjustment, valueLocal := valueLocal.value);
      row := FlatBudgetRow(budget.iatiIdentifier, budget.multiCountry, budget.humanitarian,
                           budget.transactionType, budget.url, period, country.code, sector.code,
                           GetSectorCategory(Some(sector.code), sectorCategories),
                           aidType.code, financeType.code, flowType.code);
    }

    /** The inner `for budget in self.budget.budgets.value` loop. */
    method FlattenCombo(c: Combo) returns (rows: seq<FlatBudgetRow>)
      requires |c| == 5
      modifies this
      ensures rows == ComboRows(budget, sectorCategories, c, budget.budgets)
      ensures valueLocal == if budget.budgets == [] then old(valueLocal) else Some(rows[|rows| - 1].period.valueLocal)
    {
      rows := [];
      for m := 0 to |budget.budgets|
        invariant rows == ComboRows(budget, sectorCategories, c, budget.budgets[..m])
        invariant valueLocal == if m == 0 then old(valueLocal) else Some(rows[m - 1].period.valueLocal)
      {
        var row := MakeFlattened(c, budget.budgets[m]);
        rows := rows + [row];
      }
      assert budget.budgets[..|budget.budgets|] == budget.budgets;
    }

    /** `flatten()`: sector, country, aid type, finance type and flow type
        outermost to innermost, then the quarter rows. */
    method Flatten() returns (rows: seq<FlatBudgetRow>)
      modifies this
      ensures Quintuples(Combos(BudgetAxes(budget)))
      ensures rows == BudgetRows(budget, sectorCategories, Combos(BudgetAxes(budget)), budget.budgets)
    {
      var cs := Combos(BudgetAxes(budget));
      BudgetCombosAreQuintuples(budget);
      rows := [];
      assert cs[0..] == cs;
      for k := 0 to |cs|
        invariant Quintuples(cs[k..])
        invariant rows + BudgetRows(budget, sectorCategories, cs[k..], budget.budgets) ==
          BudgetRows(budget, sectorCategories, cs, budget.budgets)
      {
        var more := FlattenCombo(cs[k]);
        assert cs[k..][1..] == cs[k + 1..];
        rows := rows + more;
      }
    }
  }

  /** `flatten()` yields one row per combination of the five lists per quarter
      row: the product of the six lengths. */
  lemma {:induction false} BudgetRowsCount(b: BudgetRecord, categories: map<string, string>, cs: seq<Combo>, qs: seq<QuarterRow>)
    requires Quintuples(cs)
    ensures |BudgetRows(b, categories, cs, qs)| == |cs| * |qs|
    decreases |cs|
  {
    if cs != [] {
      BudgetRowsCount(b, categories, cs[1..], qs);
      assert |cs| * |qs| == |qs| + (|cs| - 1) * |qs|;
    }
  }

  lemma {:induction false} FiveAxesCount(a: seq<Allocation>, b: seq<Allocation>, c: seq<Allocation>, d: seq<Allocation>, e: seq<Allocation>)
    ensures CountProduct([a, b, c, d, e]) == |a| * (|b| * (|c| * (|d| * (|e| * 1))))
  {
    var axes := [a, b, c, d, e];
    assert axes[1..] == [b, c, d, e];
    assert axes[1..][1..] == [c, d, e];
    assert axes[1..][1..][1..] == [d, e];
    assert axes[1..][1..][1..][1..] == [e];
    assert axes[1..][1..][1..][1..][1..] == [];
    assert CountProduct([e]) == |e| * 1;
    assert CountProduct([d, e]) == |d| * (|e| * 1);
    assert CountProduct([c, d, e]) == |c| * (|d| * (|e| * 1));
    assert CountProduct([b, c, d, e]) == |b| * (|c| * (|d| * (|e| * 1)));
  }

  lemma {:induction false} BudgetFlattenCount(b: BudgetRecord, categories: map<string, string>)
    ensures Quintuples(Combos(BudgetAxes(b)))
    ensures |BudgetRows(b, categories, Combos(BudgetAxes(b)), b.budgets)| ==
      |b.sectors| * (|b.countries| * (|b.aidTypes| * (|b.financeTypes| * (|b.flowTypes| * 1)))) * |b.budgets|
  {
    BudgetCombosAreQuintuples(b);
    CombosShape(BudgetAxes(b));
    BudgetRowsCount(b, categories, Combos(BudgetAxes(b)), b.budgets);
    FiveAxesCount(b.sectors, b.countries, b.aidTypes, b.financeTypes, b.flowTypes);
  }

  lemma {:induction false} BlockShift(k: nat, q: nat, m: nat)
    requires k > 0
    ensures k * q + m == q + ((k - 1) * q + m)
  {
  }

  /** The blocks laid end to end. */
  function Concat<T>(blocks: seq<seq<T>>): seq<T> {
    if blocks == [] then [] else blocks[0] + Concat(blocks[1..])
  }

  /** Where block `k` starts when every block holds `q` elements. */
  function Offset(k: nat, q: nat): nat {
    if k == 0 then 0 else q + Offset(k - 1, q)
  }

  lemma {:induction false} OffsetIsProduct(k: nat, q: nat)
    ensures Offset(k, q) == k * q
    decreases k
  {
    if k > 0 {
      OffsetIsProduct(k - 1, q);
      BlockShift(k, q, 0);
    }
  }

  /** Element `m` of block `k`, when every block holds `q` elements, is
      element `Offset(k, q) + m` of the whole. */
  lemma {:induction false} ConcatAt<T>(blocks: seq<seq<T>>, q: nat, k: nat, m: nat)
    requires forall i :: 0 <= i < |blocks| ==> |blocks[i]| == q
    requires k < |blocks| && m < q
    ensures |Concat(blocks)| == Offset(|blocks|, q)
    ensures Offset(k, q) + m < Offset(|blocks|, q)
    ensures Concat(blocks)[Offset(k, q) + m] == blocks[k][m]
    decreases |blocks|
  {
    assert forall i :: 0 <= i < |blocks[1..]| ==> blocks[1..][i] == blocks[i + 1];
    ConcatCount(blocks[1..], q);
    if k > 0 {
      ConcatAt(blocks[1..], q, k - 1, m);
    }
  }

  lemma {:induction false} ConcatCount<T>(blocks: seq<seq<T>>, q: nat)
    requires forall i :: 0 <= i < |blocks| ==> |blocks[i]| == q
    ensures |Concat(blocks)| == Offset(|blocks|, q)
    decreases |blocks|
  {
    if blocks != [] {
      assert forall i :: 0 <= i < |blocks[1..]| ==> blocks[1..][i] == blocks[i + 1];
      ConcatCount(blocks[1..], q);
    }
  }

  /** The rows of each combination, in loop order. */
  function ComboBlocks(b: BudgetRecord, categories: map<string, string>, cs: seq<Combo>, qs: seq<QuarterRow>): (r: seq<seq<FlatBudgetRow>>)
    requires Quintuples(cs)
    ensures |r| == |cs| && forall k :: 0 <= k < |cs| ==> r[k] == ComboRows(b, categories, cs[k], qs)
  {
    seq(|cs|, k requires 0 <= k < |cs| => ComboRows(b, categories, cs[k], qs))
  }

  lemma {:induction false} BudgetRowsAreBlocks(b: BudgetRecord, categories: map<string, string>, cs: seq<Combo>, qs: seq<QuarterRow>)
    requires Quintuples(cs)
    ensures BudgetRows(b, categories, cs, qs) == Concat(ComboBlocks(b, categories, cs, qs))
    decreases |cs|
  {
    if cs != [] {
      BudgetRowsAreBlocks(b, categories, cs[1..], qs);
      assert ComboBlocks(b, categories, cs, qs)[1..] == ComboBlocks(b, categories, cs[1..], qs);
    }
  }

  /** Row `k * |qs| + m` is combination `k` with quarter row `m`: the quarter
      loop is innermost. */
  lemma {:induction false} BudgetRowIndex(b: BudgetRecord, categories: map<string, string>, cs: seq<Combo>,
                                          qs: seq<QuarterRow>, k: nat, m: nat)
    requires Quintuples(cs) && k < |cs| && m < |qs|
    ensures |BudgetRows(b, categories, cs, qs)| == |cs| * |qs|
    ensures k * |qs| + m < |cs| * |qs|
    ensures BudgetRows(b, categories, cs, qs)[k * |qs| + m] == BudgetRowOf(b, categories, cs[k], qs[m])
  {
    BudgetRowsAreBlocks(b, categories, cs, qs);
    ConcatAt(ComboBlocks(b, categories, cs, qs), |qs|, k, m);
    OffsetIsProduct(k, |qs|);
    OffsetIsProduct(|cs|, |qs|);
  }

  /** Each row carries its combination's five codes and its quarter row
      with the four values scaled by that one combination: the local values
      are the quarter row's own scaled, nothing carried over from the rows
      before. */
  lemma {:induction false} BudgetRowAt(b: BudgetRecord, categories: map<string, string>, cs: seq<Combo>,
                                       qs: seq<QuarterRow>, k: nat, m: nat)
    requires Quintuples(cs) && k < |cs| && m < |qs|
    ensures |BudgetRows(b, categories, cs, qs)| == |cs| * |qs|
    ensures k * |qs| + m < |cs| * |qs|
    ensures var row := BudgetRows(b, categories, cs, qs)[k * |qs| + m];
      row.sectorCode == cs[k][0].code && row.countryCode == cs[k][1].code &&
      row.aidType == cs[k][2].code && row.financeType == cs[k][3].code && row.flowType == cs[k][4].code &&
      row.period == ScaledPeriod(qs[m], BudgetAdjustment(cs[k])) &&
      row.period.valueLocal == ScaleValues(qs[m].valueLocal, BudgetAdjustment(cs[k]))
  {
    BudgetRowIndex(b, categories, cs, qs, k, m);
  }

  /** The dollar value of the quarter rows together. */
  function QuarterUsdSum(qs: seq<QuarterRow>): real {
    if qs == [] then 0.0 else qs[0].valueUsd + QuarterUsdSum(qs[1..])
  }

  /** The dollar value of the flattened rows together. */
  function FlatBudgetUsdSum(rows: seq<FlatBudgetRow>): real {
    if rows == [] then 0.0 else rows[0].period.valueUsd + FlatBudgetUsdSum(rows[1..])
  }

  /** `sum(q.value_usd * f)` over the quarter rows. */
  function QuarterShares(qs: seq<QuarterRow>, f: real): real {
    if qs == [] then 0.0 else qs[0].valueUsd * f + QuarterShares(qs[1..], f)
  }

  lemma {:induction false} QuarterSharesIsScaled(qs: seq<QuarterRow>, f: real)
    ensures QuarterShares(qs, f) == QuarterUsdSum(qs) * f
    decreases |qs|
  {
    if qs != [] {
      QuarterSharesIsScaled(qs[1..], f);
      Distribute2(f, qs[0].valueUsd, QuarterUsdSum(qs[1..]));
    }
  }

  lemma {:induction false} Distribute2(f: real, x: real, y: real)
    ensures x * f + y * f == (x + y) * f
  {
  }

  lemma {:induction false} FlatBudgetUsdSumAppend(a: seq<FlatBudgetRow>, b: seq<FlatBudgetRow>)
    ensures FlatBudgetUsdSum(a + b) == FlatBudgetUsdSum(a) + FlatBudgetUsdSum(b)
    decreases |a|
  {
    if a != [] {
      assert (a + b)[0] == a[0] && (a + b)[1..] == a[1..] + b;
      FlatBudgetUsdSumAppend(a[1..], b);
    } else {
      assert a + b == b;
    }
  }

  /** One combination's rows carry each quarter row's dollar value times
      the combination's adjustment. */
  lemma {:induction false} ComboRowsTotal(b: BudgetRecord, categories: map<string, string>, c: Combo, qs: seq<QuarterRow>)
    requires |c| == 5
    ensures FlatBudgetUsdSum(ComboRows(b, categories, c, qs)) == QuarterShares(qs, BudgetAdjustment(c))
    decreases |qs|
  {
    if qs != [] {
      ComboRowsTotal(b, categories, c, qs[1..]);
      assert ComboRows(b, categories, c, qs)[1..] == ComboRows(b, categories, c, qs[1..]);
    }
  }

  /** `sum(q.value_usd * factor)` over the combinations and the quarter rows. */
  function BudgetShares(cs: seq<Combo>, qs: seq<QuarterRow>): real {
    if cs == [] then 0.0 else QuarterShares(qs, Factor(cs[0])) + BudgetShares(cs[1..], qs)
  }

  /** It is the quarter rows' dollar total fanned out over the combinations. */
  lemma {:induction false} BudgetSharesIsScaled(cs: seq<Combo>, qs: seq<QuarterRow>)
    ensures BudgetShares(cs, qs) == ScaledSum(cs, QuarterUsdSum(qs))
    decreases |cs|
  {
    if cs != [] {
      BudgetSharesIsScaled(cs[1..], qs);
      QuarterSharesIsScaled(qs, Factor(cs[0]));
    }
  }

  /** Over the combinations `cs` the rows carry each quarter row's dollar
      value times each combination's share. */
  lemma {:induction false} BudgetRowsTotal(b: BudgetRecord, categories: map<string, string>, cs: seq<Combo>, qs: seq<QuarterRow>)
    requires Quintuples(cs)
    ensures FlatBudgetUsdSum(BudgetRows(b, categories, cs, qs)) == BudgetShares(cs, qs)
    decreases |cs|
  {
    if cs != [] {
      BudgetRowsTotal(b, categories, cs[1..], qs);
      ComboRowsTotal(b, categories, cs[0], qs);
      FlatBudgetUsdSumAppend(ComboRows(b, categories, cs[0], qs), BudgetRows(b, categories, cs[1..], qs));
      assert BudgetAdjustment(cs[0]) == Factor(cs[0]);
    }
  }

  /** With all five lists normalised the flattened rows carry exactly the
      dollar value of the quarter rows. */
  lemma {:induction false} BudgetRowsConserve(b: BudgetRecord, categories: map<string, string>)
    requires SumPct(b.sectors) == 100.0 && SumPct(b.countries) == 100.0 && SumPct(b.aidTypes) == 100.0
    requires SumPct(b.financeTypes) == 100.0 && SumPct(b.flowTypes) == 100.0
    ensures Quintuples(Combos(BudgetAxes(b)))
    ensures FlatBudgetUsdSum(BudgetRows(b, categories, Combos(BudgetAxes(b)), b.budgets)) == QuarterUsdSum(b.budgets)
  {
    BudgetCombosAreQuintuples(b);
    BudgetRowsTotal(b, categories, Combos(BudgetAxes(b)), b.budgets);
    BudgetSharesIsScaled(Combos(BudgetAxes(b)), b.budgets);
    var axes := BudgetAxes(b);
    assert forall k :: 0 <= k < |axes| ==> SumPct(axes[k]) == 100.0;
    FanOutConserves(axes, QuarterUsdSum(b.budgets));
  }
}
