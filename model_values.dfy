/** `FinancialValues` of `iatiflattener/model.py`: the US-dollar value and the
    exchange rate used, the euro value, and the value in each recipient
    country's local currency. */
module ModelValues {
  import opened Wrappers
  import opened Utils
  import opened Iati
  import opened Dicts

  /** What `_exchange_rate_usd()` returns: the rate, the value in dollars and
      the ISO date of the rate. */
  datatype UsdConversion = UsdConversion(exchangeRate: PosReal, valueUsd: real, exchangeRateDate: string)

  /** `_exchange_rate_usd()`: one lookup of the original currency on the value
      date; the value divided by the rate. */
  function ExchangeRateUsd(rates: RateTable, currency: Option<string>, valueDate: Date, valueOriginal: real): (r: Result<UsdConversion>)
    ensures r.Ok? <==> Lookup(rates, currency, valueDate).Ok?
    ensures r.Err? ==> r.error == UnknownCurrency
    ensures r.Ok? ==> r.value.exchangeRate == Lookup(rates, currency, valueDate).value.rate
    ensures r.Ok? ==> r.value.valueUsd * r.value.exchangeRate == valueOriginal
    ensures r.Ok? ==> r.value.exchangeRateDate == IsoFormat(Lookup(rates, currency, valueDate).value.closestDate)
  {
    var q :- Lookup(rates, currency, valueDate);
    Ok(UsdConversion(q.rate, valueOriginal / q.rate, IsoFormat(q.closestDate)))
  }

  /** The rate date `_exchange_rate_usd()` records reads back, through
      `get_date`, as the date of the quote. */
  lemma ExchangeRateDateParses(rates: RateTable, currency: Option<string>, valueDate: Date, valueOriginal: real)
    requires ExchangeRateUsd(rates, currency, valueDate, valueOriginal).Ok?
    ensures GetDate(ExchangeRateUsd(rates, currency, valueDate, valueOriginal).value.exchangeRateDate) ==
      Ok(Lookup(rates, currency, valueDate).value.closestDate)
  {
    GetDateIsoRoundTrip(Lookup(rates, currency, valueDate).value.closestDate);
  }

  /** `_exchange_rate_eur()`: the dollar value times the euro rate of the value date. */
  function ExchangeRateEur(rates: RateTable, valueUsd: real, valueDate: Date): (r: Result<real>)
    ensures r.Ok? <==> rates("EUR", valueDate).Some?
    ensures r.Err? ==> r.error == UnknownCurrency
    ensures r.Ok? ==> r.value / rates("EUR", valueDate).value.rate == valueUsd
  {
    match rates("EUR", valueDate)
    case None => Err(UnknownCurrency)
    case Some(q) => Ok(valueUsd * q.rate)
  }

  /** The euro value is the original value at the cross rate euro/original. */
  lemma EurIsCrossRate(rates: RateTable, currency: Option<string>, valueDate: Date, valueOriginal: real,
                       usd: UsdConversion, eur: PosReal)
    requires ExchangeRateUsd(rates, currency, valueDate, valueOriginal) == Ok(usd)
    requires rates("EUR", valueDate).Some? && rates("EUR", valueDate).value.rate == eur
    ensures ExchangeRateEur(rates, usd.valueUsd, valueDate).Ok?
    ensures ExchangeRateEur(rates, usd.valueUsd, valueDate).value == valueOriginal * eur / usd.exchangeRate
  {
    assert usd.valueUsd == valueOriginal / usd.exchangeRate;
    DivThenScale(valueOriginal, usd.exchangeRate, eur);
  }

  lemma DivThenScale(a: real, r: real, e: real)
    requires r > 0.0
    ensures (a / r) * e == a * e / r
  {
  }

  // ------------------------------------------------------------ local currencies

  /** The local value of one country: the dollar value times the rate of the
      country's currency, 0.00 when the table does not know that currency (or
      the country has none listed). */
  function LocalValue(rates: RateTable, currencies: map<string, string>, code: string, valueUsd: real, valueDate: Date): (v: real)
    ensures var c := if code in currencies then Some(currencies[code]) else None;
      (Lookup(rates, c, valueDate).Err? ==> v == 0.0) &&
      (Lookup(rates, c, valueDate).Ok? ==> v == valueUsd * Lookup(rates, c, valueDate).value.rate)
  {
    var c := if code in currencies then Some(currencies[code]) else None;
    match Lookup(rates, c, valueDate)
    case Ok(q) => valueUsd * q.rate
    case Err(_) => 0.0
  }

  /** The `(code, value)` assignments `_values_local` makes, in order. */
  function LocalPairs(rates: RateTable, currencies: map<string, string>, countries: seq<Allocation>,
                      valueUsd: real, valueDate: Date): (r: seq<(string, real)>)
    ensures |r| == |countries|
    ensures forall i :: 0 <= i < |r| ==>
      r[i] == (countries[i].code, LocalValue(rates, currencies, countries[i].code, valueUsd, valueDate))
  {
    seq(|countries|, i requires 0 <= i < |countries| =>
      (countries[i].code, LocalValue(rates, currencies, countries[i].code, valueUsd, valueDate)))
  }

  /** `_values_local()`: the dictionary `{country code: local value}`. */
  method ValuesLocal(rates: RateTable, currencies: map<string, string>, countries: seq<Allocation>,
                     valueUsd: real, valueDate: Date)
    returns (out: seq<(string, real)>)
    ensures out == DictFromPairs(LocalPairs(rates, currencies, countries, valueUsd, valueDate))
  {
    ghost var ps := LocalPairs(rates, currencies, countries, valueUsd, valueDate);
    out := [];
    for i := 0 to |countries|
      invariant out == DictFromPairs(ps[..i])
    {
      var code := countries[i].code;
      var currencyCode := if code in currencies then Some(currencies[code]) else None;
      var rate := Lookup(rates, currencyCode, valueDate);
      var value := if rate.Ok? then valueUsd * rate.value.rate else 0.0;
      assert value == LocalValue(rates, currencies, code, valueUsd, valueDate);
      assert ps[..i + 1] == ps[..i] + [(code, value)];
      DictFromPairsSnoc(ps[..i], (code, value));
      out := Put(out, code, value);
    }
    assert ps[..|countries|] == ps;
  }

  /** Every recipient country has its entry: the converted value when its
      currency is known, 0.00 otherwise; one unknown currency does not affect
      the other countries. */
  lemma LocalValuePerCountry(rates: RateTable, currencies: map<string, string>, countries: seq<Allocation>,
                             valueUsd: real, valueDate: Date, i: nat)
    requires i < |countries|
    ensures var d := DictFromPairs(LocalPairs(rates, currencies, countries, valueUsd, valueDate));
      Get(d, countries[i].code) == Some(LocalValue(rates, currencies, countries[i].code, valueUsd, valueDate))
  {
    var ps := LocalPairs(rates, currencies, countries, valueUsd, valueDate);
    var k := countries[i].code;
    assert KeysOf(ps)[i] == k;
    GetKeyed(ps, k, code => LocalValue(rates, currencies, code, valueUsd, valueDate));
  }
}
