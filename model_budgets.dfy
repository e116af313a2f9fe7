/** `Budget` and the quarter split of `ActivityBudget` in
    `iatiflattener/model.py`: one budget element with its conversions, the
    list of budgets after the revision override, and one row per fiscal
    quarter of each budget's period. */
module ModelBudgets {
  import opened Wrappers
  import opened Text
  import opened Utils
  import opened Iati
  import opened Dicts
  import opened Slots
  import opened BudgetHelpers
  import opened ModelValues

  // ------------------------------------------------------------ Budget.generate

  /** A generated `Budget`: the data of the element, its value in each
      country's currency, in euros, the rate to the dollar, the dollar value and
      the date of the rate. */
  datatype BudgetValue = BudgetValue(data: BudgetData, valueLocal: seq<(string, real)>, valueEur: real,
                                     exchangeRate: PosReal, valueUsd: real, exchangeRateDate: string)

  /** The conversions of `Budget.generate()` once the element's dates have
      parsed: the rate to the dollar, the euro value, then the local values. */
  function ConvertBudget(rates: RateTable, currencies: map<string, string>, d: BudgetData,
                         countries: seq<Allocation>)
    : (r: Result<BudgetValue>)
    ensures r.Ok? <==> Lookup(rates, d.currency, d.valueDate).Ok? && rates("EUR", d.valueDate).Some?
    ensures r.Err? ==> r.error == UnknownCurrency
    ensures r.Ok? ==> r.value.data == d && Converted(rates, currencies, countries, r.value)
  {
    var u := ExchangeRateUsd(rates, d.currency, d.valueDate, d.value);
    if u.Err? then Err(u.error)
    else
      var e := ExchangeRateEur(rates, u.value.valueUsd, d.valueDate);
      if e.Err? then Err(e.error)
      else
        var v := BudgetValue(d, DictFromPairs(LocalPairs(rates, currencies, countries, u.value.valueUsd, d.valueDate)),
                             e.value, u.value.exchangeRate, u.value.valueUsd, u.value.exchangeRateDate);
        ConvertedOf(rates, currencies, countries, v);
        Ok(v)
  }

  /** The value built from the two conversions satisfies `Converted`. */
  lemma ConvertedOf(rates: RateTable, currencies: map<string, string>, countries: seq<Allocation>, v: BudgetValue)
    requires ExchangeRateUsd(rates, v.data.currency, v.data.valueDate, v.data.value) ==
      Ok(UsdConversion(v.exchangeRate, v.valueUsd, v.exchangeRateDate))
    requires ExchangeRateEur(rates, v.valueUsd, v.data.valueDate) == Ok(v.valueEur)
    requires v.valueLocal == DictFromPairs(LocalPairs(rates, currencies, countries, v.valueUsd, v.data.valueDate))
    ensures Converted(rates, currencies, countries, v)
  {
    RatesOf(rates, v);
  }

  /** The rate, the dollar value and the euro value of the two conversions
      satisfy `RatesConverted`. */
  lemma RatesOf(rates: RateTable, v: BudgetValue)
    requires ExchangeRateUsd(rates, v.data.currency, v.data.valueDate, v.data.value) ==
      Ok(UsdConversion(v.exchangeRate, v.valueUsd, v.exchangeRateDate))
    requires ExchangeRateEur(rates, v.valueUsd, v.data.valueDate) == Ok(v.valueEur)
    ensures RatesConverted(rates, v)
  {
    var usd := UsdConversion(v.exchangeRate, v.valueUsd, v.exchangeRateDate);
    var eur := rates("EUR", v.data.valueDate).value.rate;
    EurIsCrossRate(rates, v.data.currency, v.data.valueDate, v.data.value, usd, eur);
    RatioIs(v.valueEur, v.data.value, eur, rates("EUR", v.data.valueDate).value.rate, usd.exchangeRate, v.exchangeRate);
  }

  /** `x == a * e / r` carries over to an equal factor and an equal divisor. */
  lemma RatioIs(x: real, a: real, e: real, e2: real, r: PosReal, r2: PosReal)
    requires x == a * e / r && e == e2 && r == r2
    ensures x == a * e2 / r2
  {
  }

  /** What a converted budget satisfies: the rates of `RatesConverted`, and
      the local values are those of each recipient country. */
  predicate Converted(rates: RateTable, currencies: map<string, string>, countries: seq<Allocation>, v: BudgetValue) {
    RatesConverted(rates, v) &&
    v.valueLocal == DictFromPairs(LocalPairs(rates, currencies, countries, v.valueUsd, v.data.valueDate))
  }

  /** The rate is the one the table quotes for the budget's currency on its
      value date, the dollar value times the rate is the value, and the euro
      value is the value at the cross rate euro/original. */
  predicate RatesConverted(rates: RateTable, v: BudgetValue) {
    var d := v.data;
    Lookup(rates, d.currency, d.valueDate).Ok? &&
    v.exchangeRate == Lookup(rates, d.currency, d.valueDate).value.rate &&
    v.valueUsd * v.exchangeRate == d.value &&
    rates("EUR", d.valueDate).Some? &&
    v.valueEur == d.value * rates("EUR", d.valueDate).value.rate / v.exchangeRate
  }

  /** `Budget(budget, currency, original_revised, countries, ...).value`: the
      dates are parsed first (start, end, value date), then the budget is
      converted; the key is its `(period_start, period_end)`. */
  function GenerateBudget(rates: RateTable, currencies: map<string, string>, b: BudgetEl,
                          defaultCurrency: Option<string>, kind: BudgetKind, countries: seq<Allocation>)
    : (r: Result<(PeriodKey, BudgetValue)>)
    ensures GetBudgetData(b, defaultCurrency, kind).Err? ==> r == Err(GetBudgetData(b, defaultCurrency, kind).error)
    ensures r.Ok? <==> (GetBudgetData(b, defaultCurrency, kind).Ok? &&
      ConvertBudget(rates, currencies, GetBudgetData(b, defaultCurrency, kind).value.1, countries).Ok?)
    ensures r.Ok? ==> r.value.0 == GetBudgetData(b, defaultCurrency, kind).value.0
    ensures r.Ok? ==> r.value.1 == ConvertBudget(rates, currencies, GetBudgetData(b, defaultCurrency, kind).value.1, countries).value
    ensures r.Err? && GetBudgetData(b, defaultCurrency, kind).Ok? ==> r.error == UnknownCurrency
  {
    var (key, d) :- GetBudgetData(b, defaultCurrency, kind);
    var v :- ConvertBudget(rates, currencies, d, countries);
    Ok((key, v))
  }

  /** `map(lambda budget: Budget(...).value, els)` consumed by `dict`. */
  function GenerateBudgets(rates: RateTable, currencies: map<string, string>, bs: seq<BudgetEl>,
                           defaultCurrency: Option<string>, kind: BudgetKind, countries: seq<Allocation>)
    : Result<seq<(PeriodKey, BudgetValue)>>
  {
    MapResult(bs, b => GenerateBudget(rates, currencies, b, defaultCurrency, kind, countries))
  }

  /** `_get_budgets()` up to the quarter split: the originals no revised
      budget shares a start date with, then the revised budgets. */
  function BudgetValues(rates: RateTable, currencies: map<string, string>, a: ActivityEl, countries: seq<Allocation>)
    : (r: Result<(seq<(PeriodKey, BudgetValue)>, seq<(PeriodKey, BudgetValue)>)>)
    ensures r.Ok? ==> DistinctKeys(r.value.0) && DistinctKeys(r.value.1)
    ensures var originals := GenerateBudgets(rates, currencies, OfKind(a.budgets, Original), a.defaultCurrency, Original, countries);
      var revised := GenerateBudgets(rates, currencies, OfKind(a.budgets, Revised), a.defaultCurrency, Revised, countries);
      (r.Ok? <==> originals.Ok? && revised.Ok?) &&
      (originals.Err? ==> r == Err(originals.error)) &&
      (originals.Ok? && revised.Err? ==> r == Err(revised.error)) &&
      (r.Ok? ==> r.value == (DictFromPairs(originals.value), DictFromPairs(revised.value)))
  {
    var originals :- GenerateBudgets(rates, currencies, OfKind(a.budgets, Original), a.defaultCurrency, Original, countries);
    var revised :- GenerateBudgets(rates, currencies, OfKind(a.budgets, Revised), a.defaultCurrency, Revised, countries);
    Ok((DictFromPairs(originals), DictFromPairs(revised)))
  }

  /** The list `_get_budgets` hands to `_get_budget_periods`. */
  function BudgetValueList(originals: seq<(PeriodKey, BudgetValue)>, revised: seq<(PeriodKey, BudgetValue)>)
    : seq<BudgetValue>
  {
    ValuesOf(DictFromPairs(KeptOriginals(originals, KeysOf(KeysOf(revised))))) + ValuesOf(revised)
  }

  /** The revision override of the twin: an original period stays exactly when
      no revised period starts on its start date, and the list then holds the
      kept originals followed by every revised period. */
  lemma BudgetValueListOverride(originals: seq<(PeriodKey, BudgetValue)>, revised: seq<(PeriodKey, BudgetValue)>)
    requires DistinctKeys(originals)
    ensures var kept := KeptOriginals(originals, KeysOf(KeysOf(revised)));
      BudgetValueList(originals, revised) == ValuesOf(kept) + ValuesOf(revised) &&
      forall i :: 0 <= i < |originals| ==> (originals[i] in kept <==> originals[i].0.0 !in KeysOf(KeysOf(revised)))
  {
    var starts := KeysOf(KeysOf(revised));
    var kept := KeptOriginals(originals, starts);
    KeptOriginalsDistinct(originals, starts);
    DictFromDistinctPairs(kept);
    forall i | 0 <= i < |originals| ensures originals[i] in kept <==> originals[i].0.0 !in starts {
      StartRevisedIsMembership(originals[i].0.0, starts);
    }
  }

  // ------------------------------------------------------------ ActivityBudget._get_budget_periods

  /** One row of `ActivityBudget._get_budget_periods`. */
  datatype QuarterRow = QuarterRow(fiscalYear: int, fiscalQuarter: int,
                                   valueUsd: real, valueEur: real, valueLocal: seq<(string, real)>,
                                   valueOriginal: real, valueDate: Date,
                                   exchangeRate: PosReal, exchangeRateDate: string,
                                   currency: Option<string>, kind: BudgetKind)
  {
    /** The row's `fiscal_year_quarter`. */
    function FiscalYearQuarter(): string {
      YearQuarterLabel(fiscalYear, fiscalQuarter)
    }

    /** The row's `transaction_date`. */
    function TransactionDate(): string {
      QuarterDate(fiscalYear, fiscalQuarter)
    }
  }

  /** `"{}-{}-01".format(year, (quarter - 1) * 3)`: unpadded, and month 0 for
      the first quarter. */
  function QuarterDate(year: int, quarter: int): string {
    IntToString(year) + "-" + IntToString((quarter - 1) * 3) + "-01"
  }

  /** `"{} {}".format(year, quarter)`. */
  function YearQuarterLabel(year: int, quarter: int): string {
    IntToString(year) + " " + IntToString(quarter)
  }

  /** Each local value split like the others. */
  function LocalParts(local: seq<(string, real)>, s: Slot): (r: seq<(string, real)>)
    ensures |r| == |local| && forall i :: 0 <= i < |local| ==> r[i] == (local[i].0, Part(s, local[i].1))
  {
    seq(|local|, i requires 0 <= i < |local| => (local[i].0, Part(s, local[i].1)))
  }

  function QuarterRowOf(b: BudgetValue, s: Slot): QuarterRow {
    QuarterRow(s.year, s.quarter, Part(s, b.valueUsd), Part(s, b.valueEur),
               LocalParts(b.valueLocal, s), Part(s, b.data.value), b.data.valueDate,
               b.exchangeRate, b.exchangeRateDate, b.data.currency, b.data.kind)
  }

  function QuarterRowsOf(b: BudgetValue, slots: seq<Slot>): (r: seq<QuarterRow>)
    ensures |r| == |slots| && forall i :: 0 <= i < |slots| ==> r[i] == QuarterRowOf(b, slots[i])
  {
    seq(|slots|, i requires 0 <= i < |slots| => QuarterRowOf(b, slots[i]))
  }

  lemma QuarterRowsPrefix(b: BudgetValue, slots: seq<Slot>, k: nat)
    requires k < |slots|
    ensures QuarterRowsOf(b, slots[..k + 1]) == QuarterRowsOf(b, slots[..k]) + [QuarterRowOf(b, slots[k])]
  {
    assert slots[..k + 1] == slots[..k] + [slots[k]];
  }

  /** The rows of one budget: one per quarter slot, whatever its value (the
      zero-value guard compares a wrapper object with 0 and never holds). */
  function ValueRows(b: BudgetValue): seq<QuarterRow> {
    QuarterRowsOf(b, AllSlots(BoundsOf(b.data)))
  }

  /** `_get_budget_periods(exchange_rates, budgets)`: the rows of every budget
      in order. No lookup happens here, so it cannot fail. */
  function ModelPeriods(bs: seq<BudgetValue>): seq<QuarterRow> {
    if bs == [] then [] else ModelPeriods(bs[..|bs| - 1]) + ValueRows(bs[|bs| - 1])
  }

  method GetModelBudgetPeriods(budgets: seq<BudgetValue>) returns (out: seq<QuarterRow>)
    ensures out == ModelPeriods(budgets)
  {
    out := [];
    for bi := 0 to |budgets|
      invariant out == ModelPeriods(budgets[..bi])
    {
      assert budgets[..bi + 1][..bi] == budgets[..bi];
      var rows := SplitBudgetValue(budgets[bi]);
      out := out + rows;
    }
    assert budgets[..|budgets|] == budgets;
  }

  /** The year loop for one budget. */
  method SplitBudgetValue(budget: BudgetValue) returns (rows: seq<QuarterRow>)
    ensures rows == ValueRows(budget)
  {
    var (sfy, sfq) := GetFyFqNumeric(budget.data.periodStart);
    var (efy, efq) := GetFyFqNumeric(budget.data.periodEnd);
    var b := Bounds(sfy, sfq, efy, efq);
    assert b == BoundsOf(budget.data);
    var ny := RangeLen(sfy, efy);
    rows := [];
    var year := sfy;
    while year <= efy
      invariant sfy <= year && (ny > 0 ==> year <= efy + 1) && (ny == 0 ==> year == sfy)
      invariant rows == QuarterRowsOf(budget, SlotsUpTo(b, year - sfy))
    {
      var yearRows := SplitYear(budget, b, year);
      QuarterRowsAppend(budget, SlotsUpTo(b, year - sfy), YearSlots(b, year));
      assert SlotsUpTo(b, year - sfy + 1) == SlotsUpTo(b, year - sfy) + YearSlots(b, year);
      rows := rows + yearRows;
      year := year + 1;
    }
  }

  /** The quarter loop of one year of the period. */
  method SplitYear(budget: BudgetValue, b: Bounds, year: int) returns (rows: seq<QuarterRow>)
    ensures rows == QuarterRowsOf(budget, YearSlots(b, year))
  {
    var lo, hi;
    if year == b.startFy && year == b.endFy {
      lo, hi := b.startFq, b.endFq;
    } else if year == b.startFy {
      lo, hi := b.startFq, 4;
    } else if year == b.endFy {
      lo, hi := 1, b.endFq;
    } else {
      lo, hi := 1, 4;
    }
    assert (lo, hi) == QuarterBounds(b, year);
    var nq := RangeLen(lo, hi);
    var ny := RangeLen(b.startFy, b.endFy);
    var ys := YearSlots(b, year);
    rows := [];
    var quarter := lo;
    while quarter <= hi
      invariant lo <= quarter && (nq > 0 ==> quarter <= hi + 1) && (nq == 0 ==> quarter == lo)
      invariant rows == QuarterRowsOf(budget, ys[..quarter - lo])
    {
      assert ys[quarter - lo] == Slot(year, quarter, nq, ny);
      var row := QuarterRowOf(budget, ys[quarter - lo]);
      QuarterRowsPrefix(budget, ys, quarter - lo);
      rows := rows + [row];
      quarter := quarter + 1;
    }
    assert ys[..quarter - lo] == ys;
  }

  lemma QuarterRowsAppend(b: BudgetValue, xs: seq<Slot>, ys: seq<Slot>)
    ensures QuarterRowsOf(b, xs + ys) == QuarterRowsOf(b, xs) + QuarterRowsOf(b, ys)
  {
  }

  function RowValueOriginal(r: QuarterRow): real { r.valueOriginal }
  function RowValueUsd(r: QuarterRow): real { r.valueUsd }
  function RowValueEur(r: QuarterRow): real { r.valueEur }

  /** The quarter rows of a budget whose period is not inverted add up to its
      value, its dollar value and its euro value. */
  lemma ValueRowsConserve(b: BudgetValue)
    requires !Inverted(BoundsOf(b.data))
    ensures Total(ValueRows(b), RowValueOriginal) == b.data.value
    ensures Total(ValueRows(b), RowValueUsd) == b.valueUsd
    ensures Total(ValueRows(b), RowValueEur) == b.valueEur
  {
    var slots := AllSlots(BoundsOf(b.data));
    var rows := ValueRows(b);
    TotalOfParts(rows, RowValueOriginal, slots, b.data.value);
    TotalOfParts(rows, RowValueUsd, slots, b.valueUsd);
    TotalOfParts(rows, RowValueEur, slots, b.valueEur);
    PartsSumToWhole(BoundsOf(b.data), b.data.value);
    PartsSumToWhole(BoundsOf(b.data), b.valueUsd);
    PartsSumToWhole(BoundsOf(b.data), b.valueEur);
  }

  /** Unlike `get_budget_periods`, a zero budget is not skipped: it still gives
      one zero-valued row per quarter of its period. */
  lemma ZeroBudgetKeepsRows(rates: RateTable, b: BudgetValue)
    requires b.data.value == 0.0 && !Inverted(BoundsOf(b.data))
    ensures BudgetRows(rates, b.data) == Ok([])
    ensures |ValueRows(b)| > 0
    ensures forall i :: 0 <= i < |ValueRows(b)| ==> ValueRows(b)[i].valueOriginal == 0.0
  {
    var bounds := BoundsOf(b.data);
    var rows := ValueRows(b);
    assert |rows| > 0 by {
      SlotCount(bounds);
    }
    forall i | 0 <= i < |rows| ensures rows[i].valueOriginal == 0.0 {
      assert rows[i] == QuarterRowOf(b, AllSlots(bounds)[i]);
    }
  }

  /** Every row lies in a fiscal year of the period and a quarter 1..4, and
      the transaction date of a first-quarter row, with its month 0, is not a
      date `get_date` accepts. */
  lemma QuarterRowLabels(b: BudgetValue, i: nat)
    requires i < |ValueRows(b)|
    ensures var row := ValueRows(b)[i];
      1 <= row.fiscalQuarter <= 4 && BoundsOf(b.data).startFy <= row.fiscalYear <= BoundsOf(b.data).endFy
    ensures ValueRows(b)[i].fiscalQuarter == 1 ==> GetDate(ValueRows(b)[i].TransactionDate()).Err?
  {
    var slots := AllSlots(BoundsOf(b.data));
    AllSlotsInside(BoundsOf(b.data));
    assert slots[i] in slots;
    if ValueRows(b)[i].fiscalQuarter == 1 {
      FirstQuarterDateIsNotADate(ValueRows(b)[i].fiscalYear);
    }
  }

  /** The first-quarter transaction date is not a date `get_date` accepts. */
  lemma FirstQuarterDateIsNotADate(year: int)
    ensures GetDate(QuarterDate(year, 1)).Err?
  {
    var y := IntToString(year);
    var s := QuarterDate(year, 1);
    assert IntToString(0) == "0";
    assert s == y + "-0-01";
    if year >= 0 {
      var n := |y|;
      assert forall k :: 0 <= k < n ==> s[k] == y[k];
      assert s[n] == '-';
      if n == 4 {
        assert s[5..] == "0-01";
        assert MonthToken(s[5..]).None?;
      }
    } else {
      assert s[0] == '-';
    }
  }

}
