/** The parsed IATI XML the flattener reads, as values, and the exchange-rate
    table it consults.

    An XPath query of the source becomes a field or a filter here: an activity
    has its transactions, budgets, recipient countries and regions, sectors and
    optional default classifications; a transaction has its own. */
module Iati {
  import opened Wrappers
  import opened Utils

  /** A `percentage` attribute: missing, or present as text together with the
      value `float(text)` gives (None when `float` raises ValueError), or a float
      already stored in a `{'code', 'percentage'}` dictionary the cleaners built. */
  datatype Pct = Absent | Raw(text: string, parsed: Option<real>) | Number(value: real)

  /** An element with a `code`, an optional `vocabulary` and an optional
      `percentage`: sector, recipient-country, recipient-region, aid-type,
      finance-type, flow-type, or a dictionary of the same shape. */
  datatype Coded = Coded(code: string, vocabulary: Option<string>, percentage: Pct)

  /** A `{'code': c, 'percentage': p}` dictionary as the cleaners return it. */
  datatype Allocation = Allocation(code: string, percentage: real)

  /** A `narrative` element: its `xml:lang` attribute and its text. */
  datatype Narrative = Narrative(lang: Option<string>, text: Option<string>)

  /** An organisation element (reporting-org, participating-org, provider-org,
      receiver-org). */
  datatype OrgEl = OrgEl(ref: Option<string>, orgType: Option<string>, role: Option<string>,
                         narratives: seq<Narrative>)

  /** A `value` element: its text as a float, `currency` and `value-date`. */
  datatype ValueEl = ValueEl(amount: real, currency: Option<string>, valueDate: Option<string>)

  datatype TransactionEl = TransactionEl(
    txType: string,                    // transaction-type/@code
    value: ValueEl,
    transactionDate: Option<string>,   // transaction-date/@iso-date
    sectors: seq<Coded>,
    countries: seq<Coded>,
    regions: seq<Coded>,
    aidTypes: seq<Coded>,
    financeTypes: seq<Coded>,
    flowTypes: seq<Coded>,
    providerOrg: Option<OrgEl>,
    receiverOrg: Option<OrgEl>,
    humanitarian: Option<string>)      // @humanitarian

  datatype BudgetEl = BudgetEl(
    budgetType: Option<string>,        // @type
    periodStart: Option<string>,       // period-start/@iso-date
    periodEnd: Option<string>,         // period-end/@iso-date
    value: ValueEl)

  datatype ActivityEl = ActivityEl(
    identifier: string,                // iati-identifier text
    defaultCurrency: Option<string>,   // @default-currency
    humanitarian: Option<string>,      // @humanitarian
    title: Option<seq<Narrative>>,     // the narratives of `title`, None without a title element
    reportingOrg: Option<OrgEl>,
    participatingOrgs: seq<OrgEl>,
    sectors: seq<Coded>,
    countries: seq<Coded>,
    regions: seq<Coded>,
    defaultAidType: Option<Coded>,
    defaultFinanceType: Option<Coded>,
    defaultFlowType: Option<Coded>,
    transactions: seq<TransactionEl>,
    budgets: seq<BudgetEl>)

  /** The `[not(@vocabulary) or @vocabulary='1']` XPath predicate. */
  predicate IsDac(x: Coded) {
    x.vocabulary.None? || x.vocabulary == Some("1")
  }

  /** The elements an XPath query with the DAC vocabulary predicate selects, in
      document order. */
  function Dac(xs: seq<Coded>): (r: seq<Coded>)
    ensures |r| <= |xs|
    ensures forall x :: x in r <==> x in xs && IsDac(x)
    ensures (forall i :: 0 <= i < |xs| ==> IsDac(xs[i])) ==> r == xs
  {
    if xs == [] then []
    else if IsDac(xs[0]) then [xs[0]] + Dac(xs[1..])
    else Dac(xs[1..])
  }

  /** Selection keeps document order: the DAC elements of a concatenation are
      those of each part, in turn. */
  lemma {:induction false} DacAppend(xs: seq<Coded>, ys: seq<Coded>)
    ensures Dac(xs + ys) == Dac(xs) + Dac(ys)
  {
    if xs != [] {
      var zs := xs + ys;
      assert zs[0] == xs[0] && zs[1..] == xs[1..] + ys;
      DacAppend(xs[1..], ys);
      if IsDac(xs[0]) {
        assert Dac(zs) == [xs[0]] + (Dac(xs[1..]) + Dac(ys));
      }
    } else {
      assert xs + ys == ys;
    }
  }

  /** `value/@currency`, else the activity's default currency. */
  function EffectiveCurrency(v: ValueEl, defaultCurrency: Option<string>): (c: Option<string>)
    ensures v.currency.Some? ==> c == v.currency
    ensures v.currency.None? ==> c == defaultCurrency
  {
    if v.currency.Some? then v.currency else defaultCurrency
  }

  /** Sum of the percentages of a list of allocations. */
  function SumPct(xs: seq<Allocation>): real {
    if xs == [] then 0.0 else xs[0].percentage + SumPct(xs[1..])
  }

  /** The codes of a list of allocations, in order. */
  function Codes(xs: seq<Allocation>): (r: seq<string>)
    ensures |r| == |xs| && forall i :: 0 <= i < |xs| ==> r[i] == xs[i].code
  {
    seq(|xs|, i requires 0 <= i < |xs| => xs[i].code)
  }

  // ------------------------------------------------------------ exchange rates

  type PosReal = r: real | r > 0.0 witness 1.0
  type Day = d: Date | ValidDate(d) witness Date(2000, 1, 1)

  /** What `closest_rate(currency, date)` returns: the units of the currency per
      US dollar on the nearest date the table has, and that date. */
  datatype Quote = Quote(rate: PosReal, closestDate: Day)

  /** The exchange-rate table: None where it raises UnknownCurrency. */
  type RateTable = (string, Date) -> Option<Quote>

  /** A lookup; a missing currency is treated as one the table does not know. */
  function Lookup(rates: RateTable, currency: Option<string>, date: Date): (r: Result<Quote>)
    ensures r.Err? ==> r.error == UnknownCurrency
    ensures r.Ok? <==> currency.Some? && rates(currency.value, date).Some?
    ensures r.Ok? ==> r.value == rates(currency.value, date).value
  {
    match currency
    case None => Err(UnknownCurrency)
    case Some(c) =>
      match rates(c, date)
      case None => Err(UnknownCurrency)
      case Some(q) => Ok(q)
  }
}
