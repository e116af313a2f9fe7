/** The records of `iatiflattener/model.py`: `Budget.generate` (one budget
    element with its conversions), `ActivityBudget` (the activity's budget
    record and its quarter rows) and `Transaction.generate` (one transaction
    record). Each record resolves its fields in the order the source does,
    threading the activity's memo object through the resolvers. */
module ModelRecords {
  import opened Wrappers
  import opened Text
  import opened Utils
  import opened Iati
  import opened Dicts
  import opened Slots
  import opened BudgetHelpers
  import opened Activity
  import opened ModelCache
  import opened ModelFields
  import opened ModelValues
  import opened ModelBudgets

  /** What every record is built with: the exchange-rate table, the currency of
      each country, the organisation names and the output languages. */
  datatype Context = Context(rates: RateTable, currencies: map<string, string>,
                             organisations: map<string, string>, langs: seq<string>)

  const DportalUrl: string := "https://d-portal.org/q.html?aid="

  /** `_multi_country()`. */
  function MultiCountry(countries: seq<Allocation>): (m: int)
    ensures m == 1 <==> |countries| > 1
    ensures m == 0 <==> |countries| <= 1
  {
    if |countries| > 1 then 1 else 0
  }

  // ------------------------------------------------------------ ActivityBudget.generate

  /** The fields `ActivityBudget.generate()` computes (provider and receiver
      organisations are not part of this model). */
  datatype BudgetRecord = BudgetRecord(
    iatiIdentifier: string, title: LangMap<string>, reportingOrg: LangMap<OrgRecord>, reportingOrgType: Option<string>,
    sectors: seq<Allocation>, countries: seq<Allocation>, budgets: seq<QuarterRow>, multiCountry: int,
    humanitarian: int, aidTypes: seq<Allocation>, financeTypes: seq<Allocation>, flowTypes: seq<Allocation>,
    transactionType: string, url: string)

  /** `list(self.reporting_org.value.values())[0].get('type')`. */
  function FirstOrgType(org: LangMap<OrgRecord>): (r: Result<Option<string>>)
    ensures org == [] ==> r == Err(IndexError)
    ensures org != [] ==> r == Ok(org[0].1.orgType)
  {
    if org == [] then Err(IndexError) else Ok(org[0].1.orgType)
  }

  /** `ActivityBudget.generate()`. Its `self.countries.value == False` test
      never holds: the budget country resolution gives a list. */
  function GenerateActivityBudget(ctx: Context, derive: ClassificationDerivation, a: ActivityEl, s: CacheState)
    : (r: Resolved<BudgetRecord>)
    ensures r.value.Ok? ==> var rec := r.value.value;
      rec.iatiIdentifier == a.identifier && rec.transactionType == "budget" &&
      rec.url == DportalUrl + a.identifier &&
      rec.multiCountry == MultiCountry(rec.countries) &&
      rec.humanitarian == Humanitarian(a, None) &&
      (rec.sectors != [] && SumPct(rec.sectors) == 100.0) &&
      (rec.countries != [] ==> SumPct(rec.countries) == 100.0)
    ensures r.value.Ok? ==>
      var title := Title(a, ctx.langs, s);
      var org := ModelFields.ReportingOrg(a, ctx.organisations, ctx.langs, title.cache);
      var sectors := SectorForBudget(a, org.cache);
      var countries := CountryRegionForBudget(a, sectors.cache);
      var aid := DefaultFieldForBudget(a, AidType, derive, countries.cache);
      var finance := DefaultFieldForBudget(a, FinanceType, derive, aid.cache);
      var flow := DefaultFieldForBudget(a, FlowType, derive, finance.cache);
      var rec := r.value.value;
      var values := BudgetValues(ctx.rates, ctx.currencies, a, rec.countries);
      title.value == Ok(rec.title) && org.value == Ok(rec.reportingOrg) &&
      FirstOrgType(rec.reportingOrg) == Ok(rec.reportingOrgType) &&
      sectors.value == Ok(rec.sectors) && countries.value == Ok(rec.countries) &&
      values.Ok? && rec.budgets == ModelPeriods(BudgetValueList(values.value.0, values.value.1)) &&
      aid.value == Ok(rec.aidTypes) && finance.value == Ok(rec.financeTypes) && flow.value == Ok(rec.flowTypes) &&
      r.cache == flow.cache
  {
    var title := Title(a, ctx.langs, s);
    if title.value.Err? then Resolved(Err(title.value.error), title.cache) else
    var org := ModelFields.ReportingOrg(a, ctx.organisations, ctx.langs, title.cache);
    if org.value.Err? then Resolved(Err(org.value.error), org.cache) else
    var orgType := FirstOrgType(org.value.value);
    if orgType.Err? then Resolved(Err(orgType.error), org.cache) else
    var sectors := SectorForBudget(a, org.cache);
    if sectors.value.Err? then Resolved(Err(sectors.value.error), sectors.cache) else
    var countries := CountryRegionForBudget(a, sectors.cache);
    if countries.value.Err? then Resolved(Err(countries.value.error), countries.cache) else
    var cs := countries.value.value;
    var values := BudgetValues(ctx.rates, ctx.currencies, a, cs);
    if values.Err? then Resolved(Err(values.error), countries.cache) else
    var rows := ModelPeriods(BudgetValueList(values.value.0, values.value.1));
    var aid := DefaultFieldForBudget(a, AidType, derive, countries.cache);
    if aid.value.Err? then Resolved(Err(aid.value.error), aid.cache) else
    var finance := DefaultFieldForBudget(a, FinanceType, derive, aid.cache);
    if finance.value.Err? then Resolved(Err(finance.value.error), finance.cache) else
    var flow := DefaultFieldForBudget(a, FlowType, derive, finance.cache);
    if flow.value.Err? then Resolved(Err(flow.value.error), flow.cache) else
    Resolved(Ok(BudgetRecord(a.identifier, title.value.value, org.value.value, orgType.value,
                             sectors.value.value, cs, rows, MultiCountry(cs), Humanitarian(a, None),
                             aid.value.value, finance.value.value, flow.value.value,
                             "budget", DportalUrl + a.identifier)),
             flow.cache)
  }

  method ActivityBudgetGenerate(ctx: Context, derive: ClassificationDerivation, a: ActivityEl,
                                cache: ActivityCacheActivity)
    returns (r: Result<BudgetRecord>)
    modifies cache
    ensures Resolved(r, cache.State()) == GenerateActivityBudget(ctx, derive, a, old(cache.State()))
  {
    var title := ResolveTitle(a, ctx.langs, cache);
    if title.Err? { return Err(title.error); }
    var org := ResolveReportingOrg(a, ctx.organisations, ctx.langs, cache);
    if org.Err? { return Err(org.error); }
    var orgType := FirstOrgType(org.value);
    if orgType.Err? { return Err(orgType.error); }
    var sectors := ResolveSectorForBudget(a, cache);
    if sectors.Err? { return Err(sectors.error); }
    var countries := ResolveCountryRegionForBudget(a, cache);
    if countries.Err? { return Err(countries.error); }
    var values := BudgetValues(ctx.rates, ctx.currencies, a, countries.value);
    if values.Err? { return Err(values.error); }
    var rows := GetModelBudgetPeriods(BudgetValueList(values.value.0, values.value.1));
    var aid := ResolveDefaultFieldForBudget(a, AidType, derive, cache);
    if aid.Err? { return Err(aid.error); }
    var finance := ResolveDefaultFieldForBudget(a, FinanceType, derive, cache);
    if finance.Err? { return Err(finance.error); }
    var flow := ResolveDefaultFieldForBudget(a, FlowType, derive, cache);
    if flow.Err? { return Err(flow.error); }
    r := Ok(BudgetRecord(a.identifier, title.value, org.value, orgType.value,
                         sectors.value, countries.value, rows, MultiCountry(countries.value), Humanitarian(a, None),
                         aid.value, finance.value, flow.value, "budget", DportalUrl + a.identifier));
  }

  // ------------------------------------------------------------ Transaction.generate

  /** The fields `Transaction.generate()` computes (provider and receiver
      organisations are not part of this model). */
  datatype TransactionRecord = TransactionRecord(
    iatiIdentifier: string, title: LangMap<string>, reportingOrg: LangMap<OrgRecord>, reportingOrgType: Option<string>,
    countries: seq<Allocation>, sectors: seq<Allocation>, multiCountry: int, transactionType: string,
    aidType: Option<string>, financeType: Option<string>, flowType: Option<string>, humanitarian: int,
    valueOriginal: real, currencyOriginal: Option<string>, valueDate: Date, transactionDate: Option<string>,
    fiscalYear: int, fiscalQuarter: string,
    exchangeRate: PosReal, exchangeRateDate: string, valueUsd: real, valueEur: real,
    valueLocal: seq<(string, real)>)
  {
    /** `"{} {}".format(fiscal_year, fiscal_quarter)`. */
    function FiscalYearQuarter(): string {
      IntToString(fiscalYear) + " " + fiscalQuarter
    }

    /** `DPORTAL_URL.format(iati_identifier)`. */
    function Url(): string {
      DportalUrl + iatiIdentifier
    }
  }

  predicate CountedType(txType: string) {
    txType in ["1", "2", "3", "4"]
  }

  /** The fields `Transaction.generate()` resolves before it can return False. */
  datatype TransactionHeader = TransactionHeader(title: LangMap<string>, reportingOrg: LangMap<OrgRecord>,
                                                 reportingOrgType: Option<string>, countries: seq<Allocation>,
                                                 sectors: seq<Allocation>)

  /** Title, reporting organisation and its type, places, then sectors;
      `Ok(None)` when there is no place (the first `return False`). */
  function TransactionHeaderOf(ctx: Context, a: ActivityEl, t: TransactionEl, s: CacheState)
    : (r: Resolved<Option<TransactionHeader>>)
    ensures r.value.Ok? && r.value.value.Some? ==> var h := r.value.value.value;
      h.countries != [] && SumPct(h.countries) == 100.0 && h.sectors != [] && SumPct(h.sectors) == 100.0
    ensures r.value.Ok? ==>
      var title := Title(a, ctx.langs, s);
      var org := ModelFields.ReportingOrg(a, ctx.organisations, ctx.langs, title.cache);
      var countries := CountryRegionForTransaction(a, t, org.cache);
      title.value.Ok? && org.value.Ok? && FirstOrgType(org.value.value).Ok? && countries.value.Ok? &&
      (r.value.value.None? <==> countries.value.value.None?) &&
      (r.value.value.None? ==> r.cache == countries.cache) &&
      (r.value.value.Some? ==>
         var h := r.value.value.value;
         var sectors := SectorForTransaction(a, t, countries.cache);
         h.title == title.value.value && h.reportingOrg == org.value.value &&
         h.reportingOrgType == FirstOrgType(org.value.value).value &&
         countries.value.value == Some(h.countries) && sectors.value == Ok(h.sectors) && r.cache == sectors.cache)
  {
    var title := Title(a, ctx.langs, s);
    if title.value.Err? then Resolved(Err(title.value.error), title.cache) else
    var org := ModelFields.ReportingOrg(a, ctx.organisations, ctx.langs, title.cache);
    if org.value.Err? then Resolved(Err(org.value.error), org.cache) else
    var orgType := FirstOrgType(org.value.value);
    if orgType.Err? then Resolved(Err(orgType.error), org.cache) else
    var countries := CountryRegionForTransaction(a, t, org.cache);
    if countries.value.Err? then Resolved(Err(countries.value.error), countries.cache) else
    if countries.value.value.None? then Resolved(Ok(None), countries.cache) else
    var sectors := SectorForTransaction(a, t, countries.cache);
    if sectors.value.Err? then Resolved(Err(sectors.value.error), sectors.cache) else
    Resolved(Ok(Some(TransactionHeader(title.value.value, org.value.value, orgType.value,
                                       countries.value.value.value, sectors.value.value))), sectors.cache)
  }

  /** The dates and amounts of a transaction: value date, fiscal year and
      quarter, the rate to the dollar and the converted values. */
  datatype Amounts = Amounts(valueDate: Date, fiscalYear: int, fiscalQuarter: string, usd: UsdConversion,
                             valueEur: real, valueLocal: seq<(string, real)>)

  /** `get_date` of the value date, `get_fy_fq` of the transaction date, then
      the three conversions; they read no memo field. */
  function TransactionAmounts(ctx: Context, t: TransactionEl, currency: Option<string>, countries: seq<Allocation>)
    : (r: Result<Amounts>)
    ensures r.Ok? ==> GetDateOpt(t.value.valueDate) == Ok(r.value.valueDate)
    ensures r.Ok? ==> GetFyFq(t.transactionDate) == Ok((r.value.fiscalYear, r.value.fiscalQuarter))
    ensures r.Ok? ==> ExchangeRateUsd(ctx.rates, currency, r.value.valueDate, t.value.amount).Ok?
    ensures r.Ok? ==> ExchangeRateUsd(ctx.rates, currency, r.value.valueDate, t.value.amount).value == r.value.usd
    ensures r.Ok? ==> ExchangeRateEur(ctx.rates, r.value.usd.valueUsd, r.value.valueDate) == Ok(r.value.valueEur)
    ensures r.Ok? ==> (r.value.valueLocal ==
      DictFromPairs(LocalPairs(ctx.rates, ctx.currencies, countries, r.value.usd.valueUsd, r.value.valueDate)))
    ensures r.Err? ==> (GetDateOpt(t.value.valueDate).Err? || GetFyFq(t.transactionDate).Err? ||
      r.error == UnknownCurrency)
  {
    var valueDate :- GetDateOpt(t.value.valueDate);
    var (fy, fq) :- GetFyFq(t.transactionDate);
    var usd :- ExchangeRateUsd(ctx.rates, currency, valueDate, t.value.amount);
    var eur :- ExchangeRateEur(ctx.rates, usd.valueUsd, valueDate);
    var local := DictFromPairs(LocalPairs(ctx.rates, ctx.currencies, countries, usd.valueUsd, valueDate));
    Ok(Amounts(valueDate, fy, fq, usd, eur, local))
  }

  /** The fields after the type test: classifications, currency, then the
      dates and amounts. */
  function TransactionRecordOf(ctx: Context, a: ActivityEl, t: TransactionEl, h: TransactionHeader, s: CacheState)
    : (r: Resolved<TransactionRecord>)
    ensures r.value.Ok? ==> var rec := r.value.value;
      rec.iatiIdentifier == a.identifier && rec.transactionType == t.txType &&
      rec.countries == h.countries && rec.sectors == h.sectors &&
      rec.multiCountry == MultiCountry(h.countries) &&
      rec.humanitarian == Humanitarian(a, None) &&
      rec.valueOriginal == t.value.amount &&
      rec.currencyOriginal == EffectiveCurrency(t.value, a.defaultCurrency)
    ensures r.value.Ok? ==> var rec := r.value.value;
      TransactionAmounts(ctx, t, rec.currencyOriginal, h.countries).Ok? &&
      TransactionAmounts(ctx, t, rec.currencyOriginal, h.countries).value ==
        Amounts(rec.valueDate, rec.fiscalYear, rec.fiscalQuarter,
                UsdConversion(rec.exchangeRate, rec.valueUsd, rec.exchangeRateDate), rec.valueEur, rec.valueLocal)
    ensures var amounts := TransactionAmounts(ctx, t, EffectiveCurrency(t.value, a.defaultCurrency), h.countries);
      (r.value.Err? <==> amounts.Err?) && (r.value.Err? ==> r.value.error == amounts.error)
    ensures var aid := DefaultFieldForTransaction(a, t, AidType, s);
      var finance := DefaultFieldForTransaction(a, t, FinanceType, aid.cache);
      var flow := DefaultFieldForTransaction(a, t, FlowType, finance.cache);
      r.cache == Currency(a, t, flow.cache).cache &&
      (r.value.Ok? ==>
         var rec := r.value.value;
         aid.value == Ok(rec.aidType) && finance.value == Ok(rec.financeType) && flow.value == Ok(rec.flowType) &&
         rec.title == h.title && rec.reportingOrg == h.reportingOrg && rec.reportingOrgType == h.reportingOrgType &&
         rec.transactionDate == t.transactionDate)
  {
    var aid := DefaultFieldForTransaction(a, t, AidType, s);
    var finance := DefaultFieldForTransaction(a, t, FinanceType, aid.cache);
    var flow := DefaultFieldForTransaction(a, t, FlowType, finance.cache);
    var currency := Currency(a, t, flow.cache);
    var amounts := TransactionAmounts(ctx, t, currency.value.value, h.countries);
    if amounts.Err? then Resolved(Err(amounts.error), currency.cache) else
    var m := amounts.value;
    Resolved(Ok(TransactionRecord(
      a.identifier, h.title, h.reportingOrg, h.reportingOrgType, h.countries, h.sectors, MultiCountry(h.countries),
      t.txType, aid.value.value, finance.value.value, flow.value.value, Humanitarian(a, None),
      t.value.amount, currency.value.value, m.valueDate, t.transactionDate, m.fiscalYear, m.fiscalQuarter,
      m.usd.exchangeRate, m.usd.exchangeRateDate, m.usd.valueUsd, m.valueEur, m.valueLocal)), currency.cache)
  }

  /** `Transaction.generate()`: `Ok(None)` is its `return False`, for a
      transaction with no place, or, when transaction types are limited, of a
      type other than 1 to 4 (checked after the sectors are resolved). The
      humanitarian flag is resolved with the default `budget=True` of
      `_humanitarian()`, so only the activity's attribute counts. */
  function GenerateTransaction(ctx: Context, limitTypes: bool, a: ActivityEl, t: TransactionEl, s: CacheState)
    : (r: Resolved<Option<TransactionRecord>>)
    ensures r.value.Ok? && r.value.value.Some? ==> var rec := r.value.value.value;
      rec.countries != [] && SumPct(rec.countries) == 100.0 &&
      rec.sectors != [] && SumPct(rec.sectors) == 100.0 &&
      (limitTypes ==> CountedType(rec.transactionType))
    ensures (TransactionHeaderOf(ctx, a, t, s).value.Ok? && TransactionHeaderOf(ctx, a, t, s).value.value.Some? &&
      limitTypes && !CountedType(t.txType)) ==> r.value == Ok(None)
    ensures var header := TransactionHeaderOf(ctx, a, t, s);
      (header.value.Err? ==> r == Resolved(Err(header.value.error), header.cache)) &&
      (header.value == Ok(None) ==> r == Resolved(Ok(None), header.cache)) &&
      (header.value.Ok? && header.value.value.Some? && !(limitTypes && !CountedType(t.txType)) ==>
         var rec := TransactionRecordOf(ctx, a, t, header.value.value.value, header.cache);
         r.cache == rec.cache && (r.value.Err? <==> rec.value.Err?) &&
         (r.value.Err? ==> r.value.error == rec.value.error) &&
         (r.value.Ok? ==> r.value.value == Some(rec.value.value)))
  {
    var header := TransactionHeaderOf(ctx, a, t, s);
    if header.value.Err? then Resolved(Err(header.value.error), header.cache) else
    if header.value.value.None? then Resolved(Ok(None), header.cache) else
    if limitTypes && !CountedType(t.txType) then Resolved(Ok(None), header.cache) else
    var rec := TransactionRecordOf(ctx, a, t, header.value.value.value, header.cache);
    if rec.value.Err? then Resolved(Err(rec.value.error), rec.cache) else
    Resolved(Ok(Some(rec.value.value)), rec.cache)
  }

  /** A transaction's rate, dollar value and rate date are the conversion of
      its original value in its currency on its value date, so its dollar value
      at that rate is its original value. */
  lemma RecordValueConverted(ctx: Context, a: ActivityEl, t: TransactionEl, h: TransactionHeader, s: CacheState)
    requires TransactionRecordOf(ctx, a, t, h, s).value.Ok?
    ensures var rec := TransactionRecordOf(ctx, a, t, h, s).value.value;
      ExchangeRateUsd(ctx.rates, rec.currencyOriginal, rec.valueDate, rec.valueOriginal).Ok?
    ensures var rec := TransactionRecordOf(ctx, a, t, h, s).value.value;
      ExchangeRateUsd(ctx.rates, rec.currencyOriginal, rec.valueDate, rec.valueOriginal).value ==
        UsdConversion(rec.exchangeRate, rec.valueUsd, rec.exchangeRateDate)
  {
    var rec := TransactionRecordOf(ctx, a, t, h, s).value.value;
    var m := TransactionAmounts(ctx, t, rec.currencyOriginal, h.countries).value;
    assert m.usd == UsdConversion(rec.exchangeRate, rec.valueUsd, rec.exchangeRateDate);
  }

  /** A transaction with no country or region anywhere is not flattened, once
      its title and reporting organisation resolve. */
  lemma NoPlaceNoTransaction(ctx: Context, limitTypes: bool, a: ActivityEl, t: TransactionEl, s: CacheState)
    requires t.countries == [] && Dac(t.regions) == [] && a.countries == [] && Dac(a.regions) == []
    requires s.countries.None? && s.regions.None?
    requires Title(a, ctx.langs, s).value.Ok?
    requires ModelFields.ReportingOrg(a, ctx.organisations, ctx.langs, Title(a, ctx.langs, s).cache).value.Ok?
    requires ModelFields.ReportingOrg(a, ctx.organisations, ctx.langs, Title(a, ctx.langs, s).cache).value.value != []
    ensures GenerateTransaction(ctx, limitTypes, a, t, s).value == Ok(None)
  {
    var c := ModelFields.ReportingOrg(a, ctx.organisations, ctx.langs, Title(a, ctx.langs, s).cache).cache;
    NoPlaceAnywhereIsFalse(a, t, c);
  }

  method ResolveTransactionHeader(ctx: Context, a: ActivityEl, t: TransactionEl, cache: ActivityCacheActivity)
    returns (r: Result<Option<TransactionHeader>>)
    modifies cache
    ensures Resolved(r, cache.State()) == TransactionHeaderOf(ctx, a, t, old(cache.State()))
  {
    var title := ResolveTitle(a, ctx.langs, cache);
    if title.Err? { return Err(title.error); }
    var org := ResolveReportingOrg(a, ctx.organisations, ctx.langs, cache);
    if org.Err? { return Err(org.error); }
    var orgType := FirstOrgType(org.value);
    if orgType.Err? { return Err(orgType.error); }
    var countries := ResolveCountryRegionForTransaction(a, t, cache);
    if countries.Err? { return Err(countries.error); }
    if countries.value.None? { return Ok(None); }
    var sectors := ResolveSectorForTransaction(a, t, cache);
    if sectors.Err? { return Err(sectors.error); }
    r := Ok(Some(TransactionHeader(title.value, org.value, orgType.value, countries.value.value, sectors.value)));
  }

  method ResolveTransactionRecord(ctx: Context, a: ActivityEl, t: TransactionEl, h: TransactionHeader,
                                  cache: ActivityCacheActivity)
    returns (r: Result<TransactionRecord>)
    modifies cache
    ensures Resolved(r, cache.State()) == TransactionRecordOf(ctx, a, t, h, old(cache.State()))
  {
    var aid := ResolveDefaultFieldForTransaction(a, t, AidType, cache);
    var finance := ResolveDefaultFieldForTransaction(a, t, FinanceType, cache);
    var flow := ResolveDefaultFieldForTransaction(a, t, FlowType, cache);
    var currency := ResolveCurrency(a, t, cache);
    var amounts := TransactionAmounts(ctx, t, currency, h.countries);
    if amounts.Err? { return Err(amounts.error); }
    var m := amounts.value;
    r := Ok(TransactionRecord(
      a.identifier, h.title, h.reportingOrg, h.reportingOrgType, h.countries, h.sectors, MultiCountry(h.countries),
      t.txType, aid, finance, flow, Humanitarian(a, None),
      t.value.amount, currency, m.valueDate, t.transactionDate, m.fiscalYear, m.fiscalQuarter,
      m.usd.exchangeRate, m.usd.exchangeRateDate, m.usd.valueUsd, m.valueEur, m.valueLocal));
  }

  /** `generate()` of a `Transaction`, updating the activity's memo object in place. */
  method TransactionGenerate(ctx: Context, limitTypes: bool, a: ActivityEl, t: TransactionEl,
                             cache: ActivityCacheActivity)
    returns (r: Result<Option<TransactionRecord>>)
    modifies cache
    ensures Resolved(r, cache.State()) == GenerateTransaction(ctx, limitTypes, a, t, old(cache.State()))
  {
    var header := ResolveTransactionHeader(ctx, a, t, cache);
    if header.Err? { return Err(header.error); }
    if header.value.None? { return Ok(None); }
    if limitTypes && !CountedType(t.txType) { return Ok(None); }
    var rec := ResolveTransactionRecord(ctx, a, t, header.value.value, cache);
    if rec.Err? { return Err(rec.error); }
    r := Ok(Some(rec.value));
  }
}
