/** `iatiflattener/lib/iati_budget_helpers.py`: reading an activity's budget
    elements, letting revised budgets replace originals with the same start
    date, and splitting each budget evenly over the quarters of its period. */
module BudgetHelpers {
  import opened Wrappers
  import opened Utils
  import opened Iati
  import opened Dicts
  import opened Slots

  datatype BudgetKind = Original | Revised

  /** The `original_revised` string. */
  function KindLabel(k: BudgetKind): string {
    match k
    case Original => "original"
    case Revised => "revised"
  }

  /** The dictionary `get_budget_data` builds for one budget element. */
  datatype BudgetData = BudgetData(periodStart: Day, periodEnd: Day, currency: Option<string>,
                                   value: real, valueDate: Day, kind: BudgetKind)

  type PeriodKey = (Date, Date)

  /** `get_budget_data(budget_element, default_currency, original_revised)`:
      the `(period_start, period_end)` key and the budget's data. The dates are
      parsed in the order period-start, period-end, value-date; the first that
      fails to parse is the error. */
  function GetBudgetData(b: BudgetEl, defaultCurrency: Option<string>, kind: BudgetKind): (r: Result<(PeriodKey, BudgetData)>)
    ensures r.Ok? <==> GetDateOpt(b.periodStart).Ok? && GetDateOpt(b.periodEnd).Ok? && GetDateOpt(b.value.valueDate).Ok?
    ensures GetDateOpt(b.periodStart).Err? ==> r == Err(GetDateOpt(b.periodStart).error)
    ensures GetDateOpt(b.periodStart).Ok? && GetDateOpt(b.periodEnd).Err? ==> r == Err(GetDateOpt(b.periodEnd).error)
    ensures GetDateOpt(b.periodStart).Ok? && GetDateOpt(b.periodEnd).Ok? && GetDateOpt(b.value.valueDate).Err? ==>
      r == Err(GetDateOpt(b.value.valueDate).error)
    ensures r.Ok? ==> var (key, d) := r.value;
      key == (d.periodStart, d.periodEnd) &&
      d.periodStart == GetDateOpt(b.periodStart).value && d.periodEnd == GetDateOpt(b.periodEnd).value &&
      d.valueDate == GetDateOpt(b.value.valueDate).value &&
      d.currency == EffectiveCurrency(b.value, defaultCurrency) &&
      d.value == b.value.amount && d.kind == kind
  {
    var currency := EffectiveCurrency(b.value, defaultCurrency);
    var start :- GetDateOpt(b.periodStart);
    var end :- GetDateOpt(b.periodEnd);
    var valueDate :- GetDateOpt(b.value.valueDate);
    Ok(((start, end), BudgetData(start, end, currency, b.value.amount, valueDate, kind)))
  }

  /** `map(lambda budget: get_budget_data(...), els)` consumed by `dict`: each
      element in order, or the first error. */
  function DataList(bs: seq<BudgetEl>, defaultCurrency: Option<string>, kind: BudgetKind): (r: Result<seq<(PeriodKey, BudgetData)>>)
    ensures r.Ok? <==> forall i :: 0 <= i < |bs| ==> GetBudgetData(bs[i], defaultCurrency, kind).Ok?
    ensures r.Ok? ==> |r.value| == |bs|
    ensures r.Ok? ==> forall i :: 0 <= i < |bs| ==> r.value[i] == GetBudgetData(bs[i], defaultCurrency, kind).value
  {
    MapResult(bs, b => GetBudgetData(b, defaultCurrency, kind))
  }

  /** `budget[not(@type) or @type='1']`. */
  predicate IsOriginal(b: BudgetEl) {
    b.budgetType.None? || b.budgetType == Some("1")
  }

  /** `budget[@type='2']`. */
  predicate IsRevised(b: BudgetEl) {
    b.budgetType == Some("2")
  }

  /** The budget elements of one kind, in document order. */
  function OfKind(bs: seq<BudgetEl>, kind: BudgetKind): (r: seq<BudgetEl>)
    ensures forall b :: b in r <==> b in bs && (if kind == Original then IsOriginal(b) else IsRevised(b))
  {
    if bs == [] then []
    else
      var keep := if kind == Original then IsOriginal(bs[0]) else IsRevised(bs[0]);
      (if keep then [bs[0]] else []) + OfKind(bs[1..], kind)
  }

  /** The test of `filter_budgets`: `start <= s and start >= s` for some revised
      start date `s`. */
  predicate StartRevised(start: Date, revisedStarts: seq<Date>) {
    exists i :: 0 <= i < |revisedStarts| && DateLe(start, revisedStarts[i]) && DateLe(revisedStarts[i], start)
  }

  /** `filter(filter_budgets, original_budgets.items())`. */
  function KeptOriginals<V>(items: seq<(PeriodKey, V)>, revisedStarts: seq<Date>): (r: seq<(PeriodKey, V)>)
    ensures forall i :: 0 <= i < |r| ==> r[i] in items && !StartRevised(r[i].0.0, revisedStarts)
    ensures forall i :: 0 <= i < |items| ==> (items[i] in r <==> !StartRevised(items[i].0.0, revisedStarts))
    ensures |r| <= |items|
  {
    if items == [] then []
    else (if StartRevised(items[0].0.0, revisedStarts) then [] else [items[0]]) + KeptOriginals(items[1..], revisedStarts)
  }

  /** `dict(map(lambda budget: get_budget_data(...), els))` for the elements of
      one kind. */
  function KindDict(budgets: seq<BudgetEl>, currencyOriginal: Option<string>, kind: BudgetKind): (r: Result<seq<(PeriodKey, BudgetData)>>)
    ensures r.Ok? <==> DataList(OfKind(budgets, kind), currencyOriginal, kind).Ok?
    ensures r.Ok? ==> r.value == DictFromPairs(DataList(OfKind(budgets, kind), currencyOriginal, kind).value)
  {
    var pairs :- DataList(OfKind(budgets, kind), currencyOriginal, kind);
    Ok(DictFromPairs(pairs))
  }

  /** The budget list `get_budgets` hands to `get_budget_periods`: the original
      budgets no revised budget shares a start date with, then all the revised
      budgets. */
  function BudgetList(budgets: seq<BudgetEl>, currencyOriginal: Option<string>): Result<seq<BudgetData>>
  {
    var originals :- KindDict(budgets, currencyOriginal, Original);
    var revised :- KindDict(budgets, currencyOriginal, Revised);
    var revisedStarts := KeysOf(KeysOf(revised));
    Ok(ValuesOf(DictFromPairs(KeptOriginals(originals, revisedStarts))) + ValuesOf(revised))
  }

  /** Every entry of a kind's dictionary is keyed by its own `(start, end)`
      and carries that kind. Keys are distinct, in order of first occurrence
      among the elements, and an entry holds the data of the last element
      with its key. */
  lemma KindDictEntries(budgets: seq<BudgetEl>, currencyOriginal: Option<string>, kind: BudgetKind)
    requires KindDict(budgets, currencyOriginal, kind).Ok?
    ensures var d := KindDict(budgets, currencyOriginal, kind).value;
      DistinctKeys(d) &&
      forall x :: x in d ==> x.0 == (x.1.periodStart, x.1.periodEnd) && x.1.kind == kind
  {
    var pairs := DataList(OfKind(budgets, kind), currencyOriginal, kind).value;
    DictEntriesArePairs(pairs);
  }

  lemma {:induction false} KeptOriginalsDistinct<V>(items: seq<(PeriodKey, V)>, revisedStarts: seq<Date>)
    requires DistinctKeys(items)
    ensures DistinctKeys(KeptOriginals(items, revisedStarts))
  {
    if items != [] {
      var rest := items[1..];
      assert DistinctKeys(rest) by {
        forall i, j | 0 <= i < j < |rest| ensures rest[i].0 != rest[j].0 {
          assert rest[i] == items[i + 1] && rest[j] == items[j + 1];
        }
      }
      KeptOriginalsDistinct(rest, revisedStarts);
      var kept := KeptOriginals(rest, revisedStarts);
      forall x | x in kept ensures x.0 != items[0].0 {
        var j :| 0 <= j < |rest| && rest[j] == x;
        assert items[j + 1] == x;
      }
    }
  }

  /** `filter_budgets` compares start dates with `<=` and `>=`: that is
      equality of dates. */
  lemma StartRevisedIsMembership(start: Date, revisedStarts: seq<Date>)
    ensures StartRevised(start, revisedStarts) <==> start in revisedStarts
  {
    if start in revisedStarts {
      var i :| 0 <= i < |revisedStarts| && revisedStarts[i] == start;
      DateLeAntisymmetric(start, revisedStarts[i]);
    }
    if StartRevised(start, revisedStarts) {
      var i :| 0 <= i < |revisedStarts| && DateLe(start, revisedStarts[i]) && DateLe(revisedStarts[i], start);
      DateLeAntisymmetric(start, revisedStarts[i]);
    }
  }

  /** The revised budgets, one per distinct period, end the list. */
  lemma RevisedAppended(budgets: seq<BudgetEl>, currencyOriginal: Option<string>)
    requires BudgetList(budgets, currencyOriginal).Ok?
    ensures KindDict(budgets, currencyOriginal, Revised).Ok?
    ensures var r := BudgetList(budgets, currencyOriginal).value;
      var revised := KindDict(budgets, currencyOriginal, Revised).value;
      |revised| <= |r| && r[|r| - |revised|..] == ValuesOf(revised)
  {
    var r := BudgetList(budgets, currencyOriginal).value;
    var originals := KindDict(budgets, currencyOriginal, Original).value;
    var revised := KindDict(budgets, currencyOriginal, Revised).value;
    var front := ValuesOf(DictFromPairs(KeptOriginals(originals, KeysOf(KeysOf(revised)))));
    assert r == front + ValuesOf(revised);
    assert r[|front|..] == ValuesOf(revised);
  }

  /** The revision override: an original budget is in the list exactly when
      no revised budget starts on its start date, whatever the end dates. */
  lemma OriginalDroppedIffRevisedStart(budgets: seq<BudgetEl>, currencyOriginal: Option<string>)
    requires BudgetList(budgets, currencyOriginal).Ok?
    ensures KindDict(budgets, currencyOriginal, Original).Ok? && KindDict(budgets, currencyOriginal, Revised).Ok?
    ensures var r := BudgetList(budgets, currencyOriginal).value;
      var originals := KindDict(budgets, currencyOriginal, Original).value;
      var revised := KindDict(budgets, currencyOriginal, Revised).value;
      forall x :: x in originals ==> (x.1 in r <==> x.0.0 !in KeysOf(KeysOf(revised)))
  {
    var r := BudgetList(budgets, currencyOriginal).value;
    var originals := KindDict(budgets, currencyOriginal, Original).value;
    var revised := KindDict(budgets, currencyOriginal, Revised).value;
    var starts := KeysOf(KeysOf(revised));
    KindDictEntries(budgets, currencyOriginal, Original);
    KindDictEntries(budgets, currencyOriginal, Revised);
    var kept := KeptOriginals(originals, starts);
    KeptOriginalsDistinct(originals, starts);
    DictFromDistinctPairs(kept);
    assert r == ValuesOf(kept) + ValuesOf(revised);
    forall x | x in originals ensures x.1 in r <==> x.0.0 !in starts {
      StartRevisedIsMembership(x.0.0, starts);
      if x.0.0 !in starts {
        KeptValue(kept, x);
      } else {
        NotKeptValue(originals, starts, x);
        NotRevisedValue(revised, x.1);
      }
    }
  }

  lemma KeptValue(kept: seq<(PeriodKey, BudgetData)>, x: (PeriodKey, BudgetData))
    requires x in kept
    ensures x.1 in ValuesOf(kept)
  {
    var i :| 0 <= i < |kept| && kept[i] == x;
    assert ValuesOf(kept)[i] == x.1;
  }

  /** An entry whose start is revised has no entry among the kept originals
      carrying the same data. */
  lemma NotKeptValue(originals: seq<(PeriodKey, BudgetData)>, starts: seq<Date>, x: (PeriodKey, BudgetData))
    requires forall y :: y in originals ==> y.0 == (y.1.periodStart, y.1.periodEnd)
    requires x in originals && x.0.0 in starts
    ensures x.1 !in ValuesOf(KeptOriginals(originals, starts))
  {
    var kept := KeptOriginals(originals, starts);
    if x.1 in ValuesOf(kept) {
      var i :| 0 <= i < |kept| && ValuesOf(kept)[i] == x.1;
      var y := kept[i];
      assert y in kept;
      StartRevisedIsMembership(y.0.0, starts);
    }
  }

  lemma NotRevisedValue(revised: seq<(PeriodKey, BudgetData)>, v: BudgetData)
    requires forall y :: y in revised ==> y.1.kind == Revised
    requires v.kind == Original
    ensures v !in ValuesOf(revised)
  {
  }

  // ------------------------------------------------------------ quarter rows

  /** One row of `get_budget_periods`. */
  datatype PeriodRow = PeriodRow(fiscalYear: int, fiscalQuarter: int, valueUsd: real, valueOriginal: real,
                                 valueDate: Day, exchangeRate: real, currency: Option<string>, kind: BudgetKind)

  /** The fiscal year and quarter of the period's start and end. */
  function BoundsOf(d: BudgetData): (b: Bounds)
    ensures WellFormed(b)
  {
    var (sfy, sfq) := GetFyFqNumeric(d.periodStart);
    var (efy, efq) := GetFyFqNumeric(d.periodEnd);
    Bounds(sfy, sfq, efy, efq)
  }

  /** The row of one quarter slot, at exchange rate `rate`. */
  function RowOf(d: BudgetData, rate: PosReal, s: Slot): PeriodRow {
    PeriodRow(s.year, s.quarter, Part(s, d.value / rate), Part(s, d.value), d.valueDate, rate, d.currency, d.kind)
  }

  function RowsOf(d: BudgetData, rate: PosReal, slots: seq<Slot>): (r: seq<PeriodRow>)
    ensures |r| == |slots| && forall i :: 0 <= i < |slots| ==> r[i] == RowOf(d, rate, slots[i])
  {
    seq(|slots|, i requires 0 <= i < |slots| => RowOf(d, rate, slots[i]))
  }

  lemma PrefixSnoc<T>(done: seq<T>, ys: seq<T>, k: nat)
    requires k < |ys|
    ensures done + ys[..k + 1] == (done + ys[..k]) + [ys[k]]
  {
    assert ys[..k + 1] == ys[..k] + [ys[k]];
  }

  lemma RowsOfAppend(d: BudgetData, rate: PosReal, xs: seq<Slot>, ys: seq<Slot>)
    ensures RowsOf(d, rate, xs + ys) == RowsOf(d, rate, xs) + RowsOf(d, rate, ys)
  {
    assert forall i :: 0 <= i < |xs| ==> (xs + ys)[i] == xs[i];
    assert forall i :: 0 <= i < |ys| ==> (xs + ys)[|xs| + i] == ys[i];
  }

  lemma RowsOfSnoc(d: BudgetData, rate: PosReal, slots: seq<Slot>, s: Slot)
    ensures RowsOf(d, rate, slots + [s]) == RowsOf(d, rate, slots) + [RowOf(d, rate, s)]
  {
    assert forall i :: 0 <= i < |slots| ==> (slots + [s])[i] == slots[i];
  }

  /** The rows one budget contributes: none when its value is 0; otherwise, one
      per quarter slot of its period, all at the rate looked up once for the
      budget's currency on its value date. */
  function BudgetRows(rates: RateTable, d: BudgetData): (r: Result<seq<PeriodRow>>)
    ensures d.value == 0.0 ==> r == Ok([])
    ensures d.value != 0.0 ==> r.Ok? == Lookup(rates, d.currency, d.valueDate).Ok?
    ensures r.Err? ==> r.error == UnknownCurrency
  {
    if d.value == 0.0 then Ok([])
    else
      var q :- Lookup(rates, d.currency, d.valueDate);
      Ok(RowsOf(d, q.rate, AllSlots(BoundsOf(d))))
  }

  /** `get_budget_periods(exchange_rates, budgets)`: the rows of every budget
      in order, or the first lookup failure. */
  function Periods(rates: RateTable, ds: seq<BudgetData>): Result<seq<PeriodRow>> {
    if ds == [] then Ok([])
    else
      var before :- Periods(rates, ds[..|ds| - 1]);
      var rows :- BudgetRows(rates, ds[|ds| - 1]);
      Ok(before + rows)
  }

  /** The loops of `get_budget_periods`. */
  method GetBudgetPeriods(rates: RateTable, budgets: seq<BudgetData>) returns (r: Result<seq<PeriodRow>>)
    ensures r == Periods(rates, budgets)
  {
    var out: seq<PeriodRow> := [];
    for bi := 0 to |budgets|
      invariant Periods(rates, budgets[..bi]) == Ok(out)
    {
      var budget := budgets[bi];
      assert budgets[..bi + 1][..bi] == budgets[..bi];
      if budget.value != 0.0 {
        var closest := Lookup(rates, budget.currency, budget.valueDate);
        if closest.Err? {
          PeriodsStopAtError(rates, budgets, bi + 1);
          return Err(closest.error);
        }
        var rows := SplitBudget(budget, closest.value.rate);
        assert BudgetRows(rates, budget) == Ok(rows);
        out := out + rows;
      } else {
        assert BudgetRows(rates, budget) == Ok([]);
        assert out + [] == out;
      }
    }
    assert budgets[..|budgets|] == budgets;
    return Ok(out);
  }

  /** The year loop of `get_budget_periods` for one budget at its rate. */
  method SplitBudget(budget: BudgetData, exchangeRate: PosReal) returns (rows: seq<PeriodRow>)
    ensures rows == RowsOf(budget, exchangeRate, AllSlots(BoundsOf(budget)))
  {
    var (sfy, sfq) := GetFyFqNumeric(budget.periodStart);
    var (efy, efq) := GetFyFqNumeric(budget.periodEnd);
    var b := Bounds(sfy, sfq, efy, efq);
    assert b == BoundsOf(budget);
    var ny := RangeLen(sfy, efy);
    rows := [];
    var year := sfy;
    while year <= efy
      invariant sfy <= year && (ny > 0 ==> year <= efy + 1) && (ny == 0 ==> year == sfy)
      invariant rows == RowsOf(budget, exchangeRate, SlotsUpTo(b, year - sfy))
    {
      var lo, hi;
      if year == sfy && year == efy {
        lo, hi := sfq, efq;
      } else if year == sfy {
        lo, hi := sfq, 4;
      } else if year == efy {
        lo, hi := 1, efq;
      } else {
        lo, hi := 1, 4;
      }
      assert (lo, hi) == QuarterBounds(b, year);
      var yearRows := QuarterRows(budget, exchangeRate, b, year, lo, hi);
      RowsOfAppend(budget, exchangeRate, SlotsUpTo(b, year - sfy), YearSlots(b, year));
      rows := rows + yearRows;
      year := year + 1;
    }
  }

  /** The inner loop of the enumeration: one row per quarter of `year`, each
      with `value_usd / len(quarter_range) / len(year_range)`. */
  method QuarterRows(budget: BudgetData, exchangeRate: PosReal, b: Bounds, year: int, lo: int, hi: int)
    returns (rows: seq<PeriodRow>)
    requires b.startFy <= year <= b.endFy && (lo, hi) == QuarterBounds(b, year)
    ensures rows == RowsOf(budget, exchangeRate, YearSlots(b, year))
  {
    var ny := RangeLen(b.startFy, b.endFy);
    var nq := RangeLen(lo, hi);
    var valueUsd := budget.value / exchangeRate;
    ghost var ys := YearSlots(b, year);
    rows := [];
    var quarter := lo;
    while quarter <= hi
      invariant lo <= quarter && (nq > 0 ==> quarter <= hi + 1) && (nq == 0 ==> quarter == lo)
      invariant rows == RowsOf(budget, exchangeRate, ys[..quarter - lo])
    {
      var row := PeriodRow(year, quarter, valueUsd / nq as real / ny as real,
                           budget.value / nq as real / ny as real,
                           budget.valueDate, exchangeRate, budget.currency, budget.kind);
      assert row == RowOf(budget, exchangeRate, ys[quarter - lo]);
      PrefixSnoc([], ys, quarter - lo);
      RowsOfSnoc(budget, exchangeRate, ys[..quarter - lo], ys[quarter - lo]);
      rows := rows + [row];
      quarter := quarter + 1;
    }
    assert ys[..quarter - lo] == ys;
  }


  /** Once a prefix of the budgets fails, the whole list fails the same way. */
  lemma {:induction false} PeriodsStopAtError(rates: RateTable, ds: seq<BudgetData>, k: nat)
    requires k <= |ds| && Periods(rates, ds[..k]).Err?
    ensures Periods(rates, ds) == Periods(rates, ds[..k])
    decreases |ds| - k
  {
    if k < |ds| {
      assert ds[..k + 1][..k] == ds[..k];
      PeriodsStopAtError(rates, ds, k + 1);
    } else {
      assert ds[..k] == ds;
    }
  }

  /** `get_budgets(activity, currency_original, exchange_rates)`. */
  method GetBudgets(budgets: seq<BudgetEl>, currencyOriginal: Option<string>, rates: RateTable)
    returns (r: Result<seq<PeriodRow>>)
    ensures BudgetList(budgets, currencyOriginal).Err? ==> r == Err(BudgetList(budgets, currencyOriginal).error)
    ensures BudgetList(budgets, currencyOriginal).Ok? ==> r == Periods(rates, BudgetList(budgets, currencyOriginal).value)
  {
    var list := BudgetList(budgets, currencyOriginal);
    if list.Err? {
      return Err(list.error);
    }
    r := GetBudgetPeriods(rates, list.value);
  }

  // ------------------------------------------------------------ row properties

  function ValueOriginalOf(r: PeriodRow): real { r.valueOriginal }
  function ValueUsdOf(r: PeriodRow): real { r.valueUsd }

  /** Conservation: the quarter rows of a budget add up to its value, and
      their US-dollar values to the value over the one rate looked up. */
  lemma BudgetRowsConserve(rates: RateTable, d: BudgetData)
    requires d.value != 0.0 && Lookup(rates, d.currency, d.valueDate).Ok? && !Inverted(BoundsOf(d))
    ensures BudgetRows(rates, d).Ok?
    ensures Total(BudgetRows(rates, d).value, ValueOriginalOf) == d.value
    ensures Total(BudgetRows(rates, d).value, ValueUsdOf) == d.value / Lookup(rates, d.currency, d.valueDate).value.rate
  {
    var rate := Lookup(rates, d.currency, d.valueDate).value.rate;
    var slots := AllSlots(BoundsOf(d));
    var rows := BudgetRows(rates, d).value;
    assert rows == RowsOf(d, rate, slots);
    TotalOfParts(rows, ValueOriginalOf, slots, d.value);
    TotalOfParts(rows, ValueUsdOf, slots, d.value / rate);
    PartsSumToWhole(BoundsOf(d), d.value);
    PartsSumToWhole(BoundsOf(d), d.value / rate);
  }

  /** A period that ends before it starts gives no rows (the rate is still
      looked up first, so an unknown currency still fails). */
  lemma InvertedBudgetHasNoRows(rates: RateTable, d: BudgetData)
    requires Inverted(BoundsOf(d))
    ensures BudgetRows(rates, d).Ok? ==> BudgetRows(rates, d).value == []
  {
    InvertedHasNoSlots(BoundsOf(d));
  }

  lemma PartOverRate(s: Slot, v: real, rate: PosReal)
    ensures Part(s, v / rate) == Part(s, v) / rate
  {
    if s.quarters > 0 && s.years > 0 {
      var q := s.quarters as real;
      var y := s.years as real;
      var r: real := rate;
      DivDiv(v, r, q);
      DivDiv(v, r * q, y);
      DivDiv(v, q, y);
      DivDiv(v, q * y, r);
      assert r * q * y == q * y * r;
    }
  }

  lemma DivDiv(a: real, b: real, c: real)
    requires b != 0.0 && c != 0.0
    ensures a / b / c == a / (b * c)
  {
    var x := a / b / c;
    assert x * c == a / b;
    assert x * c * b == a;
    assert x * (b * c) == a;
  }

  /** Every row of a budget carries the one rate, its currency, value date and
      kind; its quarter lies in 1..4 and its year in the period; its dollar
      value is its original value over the rate; and the rows run in
      ascending year, then quarter, order. */
  lemma BudgetRowsShape(rates: RateTable, d: BudgetData)
    requires d.value != 0.0 && Lookup(rates, d.currency, d.valueDate).Ok?
    ensures BudgetRows(rates, d).Ok?
    ensures var rate := Lookup(rates, d.currency, d.valueDate).value.rate;
      var rows := BudgetRows(rates, d).value;
      forall i :: 0 <= i < |rows| ==>
        rows[i].exchangeRate == rate && rows[i].currency == d.currency &&
        rows[i].valueDate == d.valueDate && rows[i].kind == d.kind &&
        1 <= rows[i].fiscalQuarter <= 4 &&
        d.periodStart.year <= rows[i].fiscalYear <= d.periodEnd.year &&
        rows[i].valueUsd == rows[i].valueOriginal / rate
    ensures var rows := BudgetRows(rates, d).value;
      forall i, j :: 0 <= i < j < |rows| ==>
        rows[i].fiscalYear < rows[j].fiscalYear ||
        (rows[i].fiscalYear == rows[j].fiscalYear && rows[i].fiscalQuarter < rows[j].fiscalQuarter)
  {
    var rate := Lookup(rates, d.currency, d.valueDate).value.rate;
    var b := BoundsOf(d);
    var slots := AllSlots(b);
    var rows := BudgetRows(rates, d).value;
    assert rows == RowsOf(d, rate, slots);
    AllSlotsInside(b);
    AllSlotsAscending(b);
    forall i | 0 <= i < |rows| ensures rows[i].valueUsd == rows[i].valueOriginal / rate {
      PartOverRate(slots[i], d.value, rate);
    }
    assert forall i :: 0 <= i < |slots| ==> slots[i] in slots;
  }

  /** Every row carries the currency and rate of its budget's one lookup, so a
      row always has a currency and a positive rate; its quarter lies in 1..4
      and its dollar value is its original value over the rate. */
  lemma {:induction false} PeriodsHaveCurrency(rates: RateTable, ds: seq<BudgetData>)
    requires Periods(rates, ds).Ok?
    ensures forall r :: r in Periods(rates, ds).value ==>
      r.currency.Some? && rates(r.currency.value, r.valueDate).Some? &&
      r.exchangeRate == rates(r.currency.value, r.valueDate).value.rate &&
      1 <= r.fiscalQuarter <= 4 && r.valueUsd == r.valueOriginal / r.exchangeRate
    decreases |ds|
  {
    if ds != [] {
      PeriodsHaveCurrency(rates, ds[..|ds| - 1]);
      var d := ds[|ds| - 1];
      var rows := BudgetRows(rates, d).value;
      if d.value != 0.0 {
        BudgetRowsShape(rates, d);
      }
      forall r | r in rows
        ensures r.currency.Some? && rates(r.currency.value, r.valueDate).Some? &&
          r.exchangeRate == rates(r.currency.value, r.valueDate).value.rate &&
          1 <= r.fiscalQuarter <= 4 && r.valueUsd == r.valueOriginal / r.exchangeRate
      {
        var q := Lookup(rates, d.currency, d.valueDate).value;
        var slots := AllSlots(BoundsOf(d));
        var i :| 0 <= i < |rows| && rows[i] == r;
        assert r == RowOf(d, q.rate, slots[i]);
      }
    }
  }
}
