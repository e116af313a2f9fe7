/** `FlatIATITransaction` of `iatiflattener/transaction.py`: one transaction of
    an activity. `process_transaction` resolves its places and sectors, transaction
    level first, then the lists memoised for the activity, then the activity
    element (memoising what it finds); `transaction_data` completes the record
    from the memo and converts the value to dollars; `flatten_transaction`
    produces one CSV row per sector and wanted country. */
module Transaction {
  import opened Wrappers
  import opened Utils
  import opened Iati
  import opened IatiHelpers
  import opened Activity
  import ModelRecords
  import ModelFlat

  /** `get_org(organisations, activity_data, transaction, provider)` of
      `lib/iati_helpers.py`, which is not part of this model: a parameter. */
  type OrgResolver = (map<string, string>, Entry, TransactionEl, bool) -> OrgRecord

  /** `get_covid_matches(transaction)`, likewise not part of this model. */
  type CovidMatcher = TransactionEl -> bool

  /** The record's attributes (None where the source's attribute is None or was
      never set; `countries` and `sectors` are only ever set to lists, so their
      None is "never set"). The activity-level ones `set_data` fills live in
      `attrs`. */
  datatype TxState = TxState(
    iatiIdentifier: Option<string>,
    attrs: Attrs,
    countries: Option<seq<Allocation>>,
    sectors: Option<seq<Allocation>>,
    multiCountry: Option<int>,
    transactionType: Option<string>,
    providerOrg: Option<OrgRecord>,
    receiverOrg: Option<OrgRecord>,
    valueOriginal: Option<real>,
    valueDate: Option<Day>,
    transactionDate: Option<string>,
    fiscalYear: Option<int>,
    fiscalQuarter: Option<string>,
    covid19: Option<int>,
    exchangeRate: Option<PosReal>,
    valueUsd: Option<real>,
    output: bool)

  /** The activity-level attributes, all None. */
  const BlankAttrs: Attrs := map k | k in ActivityFunctions :: None

  /** The record after `set_headers()`. */
  const Initial: TxState :=
    TxState(None, BlankAttrs, None, None, None, None, None, None, None, None, None, None, None, None, None, None, false)

  /** One row of the transaction CSV, in the column order of the output list;
      the budget rows of `budget.py` have the same columns. */
  datatype CsvRow = CsvRow(
    iatiIdentifier: Option<string>,
    title: Option<Val>,
    reportingOrgDisplay: string,
    reportingOrgType: Option<string>,
    aidType: string,
    financeType: string,
    providerOrgDisplay: string,
    providerOrgType: Option<string>,
    receiverOrgDisplay: string,
    receiverOrgType: Option<string>,
    transactionType: Option<string>,
    valueOriginal: real,
    currencyOriginal: string,
    valueUsd: real,
    valueDate: string,
    exchangeRate: real,
    transactionDate: Option<string>,
    country: string,
    multiCountry: Option<int>,
    sectorCategory: string,
    sector: string,
    covid19: Option<int>,
    fiscalYear: Option<int>,
    fiscalQuarter: Option<string>)

  // ------------------------------------------------------------ small accessors

  /** `getattr(record, key)` for an attribute `set_headers` created. */
  function AttrValue(attrs: Attrs, key: string): Option<Val> {
    if key in attrs then attrs[key] else None
  }

  /** A currency attribute as the rate table is asked for it. */
  function CurrencyOf(v: Option<Val>): Option<string> {
    if v.Some? && v.value.Str? then Some(v.value.s) else None
  }

  /** `transaction.find(tag)`: the first such element, or None. */
  function FirstElement(xs: seq<Coded>): (v: Option<Val>)
    ensures xs == [] <==> v.None?
  {
    if xs == [] then None else Some(Element(xs[0]))
  }

  /** A string attribute, or None. */
  function StrOrNone(s: Option<string>): (v: Option<Val>)
    ensures CurrencyOf(v) == s
  {
    if s.Some? then Some(Str(s.value)) else None
  }

  /** `record.reporting_org`: a dictionary, else `.get` fails on None. */
  function OrgOf(v: Option<Val>): (r: Result<OrgRecord>)
    ensures r.Ok? <==> v.Some? && v.value.Org?
  {
    if v.Some? && v.value.Org? then Ok(v.value.org) else Err(AttributeError)
  }

  /** `record.provider_org` / `receiver_org`: `.get` fails on None. */
  function Present(o: Option<OrgRecord>): (r: Result<OrgRecord>)
    ensures r.Ok? <==> o.Some?
  {
    if o.Some? then Ok(o.value) else Err(AttributeError)
  }

  /** `value.get('code', '')` on an element or a dictionary; None has no `.get`. */
  function CodeOf(v: Option<Val>): (r: Result<string>)
    ensures v == None ==> r == Err(AttributeError)
    ensures v == Some(EmptyDict) ==> r == Ok("")
  {
    match v
    case None => Err(AttributeError)
    case Some(x) =>
      match x
      case Element(el) => Ok(el.code)
      case EmptyDict => Ok("")
      case Org(_) => Ok("")
      case _ => Err(AttributeError)
  }

  /** `activity_data.get(key, [])` for a list this file stores there. */
  function StoredList(entry: Entry, key: string): seq<Coded> {
    if key in entry && entry[key].Some? && entry[key].value.Items? then entry[key].value.xs else []
  }

  /** `activity_data[key] = xs`, done only for a non-empty list. */
  function Store(entry: Entry, key: string, xs: seq<Coded>): (e: Entry)
    ensures xs == [] ==> e == entry
    ensures xs != [] ==> e == entry[key := Some(Items(xs))]
  {
    if xs != [] then entry[key := Some(Items(xs))] else entry
  }

  // ------------------------------------------------------------ process_transaction

  /** A resolved list (None when nothing was found) and the activity's memo
      entry with what the resolution wrote to it. */
  datatype Resolution = Resolution(found: Option<seq<Allocation>>, entry: Entry)

  /** A cleaner's outcome as a resolution that leaves `entry` in the memo;
      the cleaner's exception propagates. */
  function Found(cleaned: Result<seq<Allocation>>, entry: Entry): Result<Resolution> {
    match cleaned
    case Ok(xs) => Ok(Resolution(Some(xs), entry))
    case Err(e) => Err(e)
  }

  /** Countries and regions: the transaction's own, else the memoised lists,
      else the activity's, which are memoised (each list only when non-empty).
      A cleaner that raises leaves the entry as it was. */
  function ResolveCountries(a: ActivityEl, t: TransactionEl, entry: Entry): (r: Result<Resolution>)
    ensures t.countries != [] || Dac(t.regions) != [] ==>
      r == Found(CleanCountries(t.countries, Dac(t.regions)), entry)
    ensures (t.countries == [] && Dac(t.regions) == [] &&
             (StoredList(entry, "recipient_countries") != [] || StoredList(entry, "recipient_regions") != [])) ==>
      r == Found(CleanCountries(StoredList(entry, "recipient_countries"), StoredList(entry, "recipient_regions")), entry)
    ensures (t.countries == [] && Dac(t.regions) == [] &&
             StoredList(entry, "recipient_countries") == [] && StoredList(entry, "recipient_regions") == []) ==>
      if a.countries == [] && Dac(a.regions) == [] then r == Ok(Resolution(None, entry))
      else r == Found(CleanCountries(a.countries, Dac(a.regions)),
                      Store(Store(entry, "recipient_countries", a.countries), "recipient_regions", Dac(a.regions)))
  {
    if t.countries != [] || Dac(t.regions) != [] then
      var cs :- CleanCountries(t.countries, Dac(t.regions));
      Ok(Resolution(Some(cs), entry))
    else
      var cc := StoredList(entry, "recipient_countries");
      var cr := StoredList(entry, "recipient_regions");
      if cc != [] || cr != [] then
        var cs :- CleanCountries(cc, cr);
        Ok(Resolution(Some(cs), entry))
      else if a.countries == [] && Dac(a.regions) == [] then
        Ok(Resolution(None, entry))
      else
        var cs :- CleanCountries(a.countries, Dac(a.regions));
        Ok(Resolution(Some(cs), Store(Store(entry, "recipient_countries", a.countries), "recipient_regions", Dac(a.regions))))
  }

  /** Sectors: the transaction's DAC sectors, else the memoised list, else the
      activity's DAC sectors (memoised), else the sentinel `[{'percentage': 100.0,
      'code': ''}]`, which is memoised as well. */
  function ResolveSectors(a: ActivityEl, t: TransactionEl, entry: Entry): (r: Result<Resolution>)
    ensures r.Ok? ==> r.value.found.Some?
    ensures Dac(t.sectors) != [] ==> r == Found(CleanSectors(Dac(t.sectors)), entry)
    ensures Dac(t.sectors) == [] && StoredList(entry, "sectors") != [] ==>
      r == Found(CleanSectors(StoredList(entry, "sectors")), entry)
    ensures Dac(t.sectors) == [] && StoredList(entry, "sectors") == [] && Dac(a.sectors) != [] ==>
      r == Found(CleanSectors(Dac(a.sectors)), entry["sectors" := Some(Items(Dac(a.sectors)))])
    ensures Dac(t.sectors) == [] && StoredList(entry, "sectors") == [] && Dac(a.sectors) == [] ==>
      r == Ok(Resolution(Some(Sentinel), entry["sectors" := Some(Items(AsItems(Sentinel)))]))
  {
    if Dac(t.sectors) != [] then
      var ss :- CleanSectors(Dac(t.sectors));
      Ok(Resolution(Some(ss), entry))
    else if StoredList(entry, "sectors") != [] then
      var ss :- CleanSectors(StoredList(entry, "sectors"));
      Ok(Resolution(Some(ss), entry))
    else if Dac(a.sectors) != [] then
      var ss :- CleanSectors(Dac(a.sectors));
      Ok(Resolution(Some(ss), entry["sectors" := Some(Items(Dac(a.sectors)))]))
    else
      Ok(Resolution(Some(Sentinel), entry["sectors" := Some(Items(AsItems(Sentinel)))]))
  }

  /** The record and the memo after `process_transaction`, and the exception
      it raised, if any. */
  datatype Processed = Processed(state: TxState, data: map<string, Entry>, error: Option<Error>)

  /** The parses `process_transaction` makes of the transaction's value date
      (`get_date`) and of its transaction date (`get_fy_fq`). */
  datatype Dates = Dates(valueDate: Result<Date>, fiscal: Result<(int, string)>)

  /** A parsed value date is a calendar date. */
  predicate WellParsed(d: Dates) {
    d.valueDate.Ok? ==> ValidDate(d.valueDate.value)
  }

  /** The two parses of transaction `t`. */
  function DatesOf(t: TransactionEl): (d: Dates)
    ensures WellParsed(d)
  {
    Dates(GetDateOpt(t.value.valueDate), GetFyFq(t.transactionDate))
  }

  /** `process_transaction()` from record `s` and memo `data`, `dates` being
      the transaction's parsed dates (`DatesOf`): the identifier, an entry for
      it in the memo, then the places. */
  function Process(organisations: map<string, string>, getOrg: OrgResolver, covid: CovidMatcher,
                   a: ActivityEl, t: TransactionEl, limit: bool, dates: Dates, s: TxState, data: map<string, Entry>)
    : Processed
    requires WellParsed(dates)
  {
    var id := a.identifier;
    var d0 := if id in data then data else data[id := map[]];
    ProcessFromPlaces(organisations, getOrg, covid, a, t, limit, dates, ResolveCountries(a, t, d0[id]),
                      s.(iatiIdentifier := Some(id)), d0)
  }

  /** The places, `places` being their resolution on the activity's memo
      entry; without any, the record stays without output. */
  function ProcessFromPlaces(organisations: map<string, string>, getOrg: OrgResolver, covid: CovidMatcher,
                             a: ActivityEl, t: TransactionEl, limit: bool, dates: Dates, places: Result<Resolution>,
                             s: TxState, data: map<string, Entry>): Processed
    requires WellParsed(dates) && a.identifier in data
  {
    var id := a.identifier;
    match places
    case Err(e) => Processed(s, data, Some(e))
    case Ok(rc) =>
      var d1 := data[id := rc.entry];
      var s1 := if rc.found.Some? then s.(countries := rc.found) else s;
      if s1.countries.None? then Processed(s1, d1, None)
      else ProcessFromSectors(organisations, getOrg, covid, a, t, limit, dates, ResolveSectors(a, t, rc.entry), s1, d1)
  }

  /** The sectors, `sectors` being their resolution on the activity's memo
      entry, then `multi_country` and the transaction type; a type outside
      1–4 ends processing when types are limited. */
  function ProcessFromSectors(organisations: map<string, string>, getOrg: OrgResolver, covid: CovidMatcher,
                              a: ActivityEl, t: TransactionEl, limit: bool, dates: Dates, sectors: Result<Resolution>,
                              s: TxState, data: map<string, Entry>): Processed
    requires WellParsed(dates) && a.identifier in data && s.countries.Some?
  {
    var id := a.identifier;
    match sectors
    case Err(e) => Processed(s, data, Some(e))
    case Ok(rs) =>
      var d2 := data[id := rs.entry];
      var s2 := s.(sectors := rs.found, multiCountry := Some(ModelRecords.MultiCountry(s.countries.value)),
                   transactionType := Some(t.txType));
      if limit && !ModelRecords.CountedType(t.txType) then Processed(s2, d2, None)
      else ProcessFromValues(organisations, getOrg, covid, t, rs.entry, dates, s2, d2)
  }

  /** The classifications, the organisations, the value, its dates, the fiscal
      year and quarter, the COVID-19 flag, and `output = True`. */
  function ProcessFromValues(organisations: map<string, string>, getOrg: OrgResolver, covid: CovidMatcher,
                             t: TransactionEl, entry: Entry, dates: Dates, s: TxState, data: map<string, Entry>)
    : Processed
    requires WellParsed(dates)
  {
    var s1 := s.(attrs := s.attrs["aid_type" := FirstElement(t.aidTypes)]["finance_type" := FirstElement(t.financeTypes)],
                 providerOrg := Some(getOrg(organisations, entry, t, true)),
                 receiverOrg := Some(getOrg(organisations, entry, t, false)),
                 valueOriginal := Some(t.value.amount));
    var s2 := s1.(attrs := s1.attrs["currency_original" := StrOrNone(t.value.currency)]);
    match dates.valueDate
    case Err(e) => Processed(s2, data, Some(e))
    case Ok(vd) =>
      var s3 := s2.(valueDate := Some(vd), transactionDate := t.transactionDate);
      match dates.fiscal
      case Err(e) => Processed(s3, data, Some(e))
      case Ok(fyq) =>
        Processed(s3.(fiscalYear := Some(fyq.0), fiscalQuarter := Some(fyq.1),
                      covid19 := Some(if covid(t) then 1 else 0), output := true), data, None)
  }

  // ------------------------------------------------------------ transaction_data

  /** `v * (country%/100) * (sector%/100)`. */
  function Scale2(v: real, country: Allocation, sector: Allocation): real {
    v * (country.percentage / 100.0) * (sector.percentage / 100.0)
  }

  /** The output list of a completed record for one country and sector. */
  function RowOf(s: TxState, country: Allocation, sector: Allocation, sectorCategory: string): Result<CsvRow>
    requires s.valueOriginal.Some? && s.valueUsd.Some? && s.valueDate.Some? && s.exchangeRate.Some?
    requires CurrencyOf(AttrValue(s.attrs, "currency_original")).Some?
  {
    var ro :- OrgOf(AttrValue(s.attrs, "reporting_org"));
    var aid :- CodeOf(AttrValue(s.attrs, "aid_type"));
    var fin :- CodeOf(AttrValue(s.attrs, "finance_type"));
    var po :- Present(s.providerOrg);
    var rv :- Present(s.receiverOrg);
    Ok(CsvRow(s.iatiIdentifier, AttrValue(s.attrs, "title"), ro.display, ro.orgType, aid, fin,
              po.display, po.orgType, rv.display, rv.orgType, s.transactionType,
              Scale2(s.valueOriginal.value, country, sector),
              CurrencyOf(AttrValue(s.attrs, "currency_original")).value,
              Scale2(s.valueUsd.value, country, sector),
              IsoFormat(s.valueDate.value), s.exchangeRate.value, s.transactionDate,
              country.code, s.multiCountry, sectorCategory, sector.code, s.covid19, s.fiscalYear, s.fiscalQuarter))
  }

  /** The record and the memo after `transaction_data`, and the row or the
      exception raised. */
  datatype Prepared = Prepared(state: TxState, data: map<string, Entry>, row: Result<CsvRow>)

  /** `transaction_data(country, sector, sector_category)`: the memo fill, the
      three presence checks, the `USS` alias, one rate lookup, the row. Only
      the activity-level attributes, the rate and the dollar value of the
      record change. */
  function TxData(organisations: map<string, string>, rates: RateTable, a: ActivityEl, s: TxState,
                  data: map<string, Entry>, country: Allocation, sector: Allocation, sectorCategory: string)
    : (r: Prepared)
    ensures r.state == s.(attrs := r.state.attrs, exchangeRate := r.state.exchangeRate, valueUsd := r.state.valueUsd)
  {
    var f := Fill(a, organisations, a.identifier, Memo(s.attrs, data), ActivityFunctions);
    if f.error.Some? then Prepared(s.(attrs := f.memo.attrs), f.memo.data, Err(f.error.value))
    else Convert(rates, s.(attrs := f.memo.attrs), f.memo.data, country, sector, sectorCategory)
  }

  /** The part of `transaction_data` after the memo fill. */
  function Convert(rates: RateTable, s1: TxState, d1: map<string, Entry>,
                   country: Allocation, sector: Allocation, sectorCategory: string): (r: Prepared)
    ensures r.state == s1.(attrs := r.state.attrs, exchangeRate := r.state.exchangeRate, valueUsd := r.state.valueUsd)
  {
    if s1.valueDate.None? then Prepared(s1, d1, Err(MissingValue("value_date")))
    else if AttrValue(s1.attrs, "currency_original").None? then Prepared(s1, d1, Err(MissingValue("currency")))
    else if s1.valueOriginal.None? then Prepared(s1, d1, Err(MissingValue("value")))
    else
      var s2 := if AttrValue(s1.attrs, "currency_original") == Some(Str("USS"))
                then s1.(attrs := s1.attrs["currency_original" := Some(Str("USD"))]) else s1;
      match Lookup(rates, CurrencyOf(AttrValue(s2.attrs, "currency_original")), s2.valueDate.value)
      case Err(e) => Prepared(s2, d1, Err(e))
      case Ok(q) =>
        var s3 := s2.(exchangeRate := Some(q.rate), valueUsd := Some(s2.valueOriginal.value / q.rate));
        Prepared(s3, d1, RowOf(s3, country, sector, sectorCategory))
  }

  // ------------------------------------------------------------ flatten_transaction

  /** The `(sector, country)` pairs the inner loop visits for one sector: the
      countries in order, those outside `wanted` skipped. */
  function Block(sector: Allocation, cs: seq<Allocation>, wanted: set<string>): seq<(Allocation, Allocation)> {
    if cs == [] then []
    else (if cs[0].code in wanted then [(sector, cs[0])] else []) + Block(sector, cs[1..], wanted)
  }

  /** The pair one inner iteration visits: none when the country is not wanted. */
  function Visit(sector: Allocation, country: Allocation, wanted: set<string>): seq<(Allocation, Allocation)> {
    if country.code in wanted then [(sector, country)] else []
  }

  /** All pairs, sector outer and country inner. */
  function Visits(ss: seq<Allocation>, cs: seq<Allocation>, wanted: set<string>): seq<(Allocation, Allocation)> {
    if ss == [] then [] else Block(ss[0], cs, wanted) + Visits(ss[1..], cs, wanted)
  }

  /** What the generator has yielded when it stops: the record, the memo, the
      rows in order, and the exception that ended it early, if any. */
  datatype Flattened = Flattened(state: TxState, data: map<string, Entry>, rows: seq<CsvRow>, error: Option<Error>)

  /** `rows` yielded before everything `f` describes. */
  function Then(rows: seq<CsvRow>, f: Flattened): Flattened {
    Flattened(f.state, f.data, rows + f.rows, f.error)
  }

  /** `transaction_data` called for each visited pair in turn, the record and
      the memo threaded through. */
  function FlattenFrom(organisations: map<string, string>, rates: RateTable, categories: map<string, string>,
                       a: ActivityEl, s: TxState, data: map<string, Entry>, vs: seq<(Allocation, Allocation)>)
    : Flattened
    decreases |vs|
  {
    if vs == [] then Flattened(s, data, [], None)
    else
      var p := TxData(organisations, rates, a, s, data, vs[0].1, vs[0].0, GetSectorCategory(Some(vs[0].0.code), categories));
      if p.row.Err? then Flattened(p.state, p.data, [], Some(p.row.error))
      else Then([p.row.value], FlattenFrom(organisations, rates, categories, a, p.state, p.data, vs[1..]))
  }

  /** `flatten_transaction()`, consumed to the end. `sectors` and `countries`
      are not among the attributes `set_headers` creates, and they are only
      ever set to lists, so a None there is an attribute never set: the loop
      that reaches it raises AttributeError. */
  function Flatten(organisations: map<string, string>, rates: RateTable, categories: map<string, string>,
                   wanted: set<string>, a: ActivityEl, s: TxState, data: map<string, Entry>): Flattened
  {
    if s.sectors.None? || (s.sectors.value != [] && s.countries.None?) then Flattened(s, data, [], Some(AttributeError))
    else
      var cs := if s.countries.Some? then s.countries.value else [];
      FlattenFrom(organisations, rates, categories, a, s, data, Visits(s.sectors.value, cs, wanted))
  }

  // ------------------------------------------------------------ the record

  /** A `FlatIATITransaction` object. The source sets and reads its attributes
      by name (`setattr` over the header list, `hasattr`, `getattr` in
      `set_data`); here they are one record value, `record`, that the methods
      update in place. */
  class FlatIatiTransaction {
    const flattener: Flattener
    const activity: ActivityEl
    const transaction: TransactionEl
    const limitTransactionTypes: bool
    var record: TxState

    /** `__init__` up to `set_headers()`; `ProcessTransaction` is the rest. */
    constructor (flattener: Flattener, activity: ActivityEl, transaction: TransactionEl, limitTransactionTypes: bool)
      ensures this.flattener == flattener && this.activity == activity && this.transaction == transaction
      ensures this.limitTransactionTypes == limitTransactionTypes
      ensures record == Initial
    {
      this.flattener := flattener;
      this.activity := activity;
      this.transaction := transaction;
      this.limitTransactionTypes := limitTransactionTypes;
      record := Initial;
    }

    /** `process_transaction()`. */
    method ProcessTransaction(getOrg: OrgResolver, covid: CovidMatcher) returns (error: Option<Error>)
      modifies this, flattener
      ensures Processed(record, flattener.activityData, error) ==
        Process(flattener.organisations, getOrg, covid, activity, transaction, limitTransactionTypes,
                DatesOf(transaction), old(record), old(flattener.activityData))
    {
      var id := activity.identifier;
      record := record.(iatiIdentifier := Some(id));
      if id !in flattener.activityData {
        flattener.activityData := flattener.activityData[id := map[]];
      }
      error := StepPlaces(getOrg, covid);
    }

    /** The countries and regions, resolved as `PlacesOf` does, then the
        sectors when any place was found. */
    method StepPlaces(getOrg: OrgResolver, covid: CovidMatcher) returns (error: Option<Error>)
      requires activity.identifier in flattener.activityData
      modifies this, flattener
      ensures Processed(record, flattener.activityData, error) ==
        ProcessFromPlaces(flattener.organisations, getOrg, covid, activity, transaction, limitTransactionTypes,
                          DatesOf(transaction), ResolveCountries(activity, transaction, old(flattener.activityData)[activity.identifier]),
                          old(record), old(flattener.activityData))
    {
      var id := activity.identifier;
      var resolved := PlacesOf(flattener.activityData[id]);
      if resolved.Err? {
        return Some(resolved.error);
      }
      flattener.activityData := flattener.activityData[id := resolved.value.entry];
      if resolved.value.found.Some? {
        record := record.(countries := resolved.value.found);
      }
      if record.countries.None? {
        return None;
      }
      error := StepSectors(getOrg, covid);
    }

    /** The country and region lookups of `process_transaction` on the
        activity's memo entry: the transaction's own lists, else the memoised
        ones, else the activity's, which are memoised. */
    method PlacesOf(activityData: Entry) returns (r: Result<Resolution>)
      ensures r == ResolveCountries(activity, transaction, activityData)
    {
      var entry := activityData;
      var transactionCountries := transaction.countries;
      var transactionRegions := Dac(transaction.regions);
      if |transactionCountries| != 0 || |transactionRegions| != 0 {
        var cleaned := CleanCountries(transactionCountries, transactionRegions);
        if cleaned.Err? {
          return Err(cleaned.error);
        }
        return Ok(Resolution(Some(cleaned.value), entry));
      }
      var dataCountries := StoredList(entry, "recipient_countries");
      var dataRegions := StoredList(entry, "recipient_regions");
      if |dataCountries| != 0 || |dataRegions| != 0 {
        var cleaned := CleanCountries(dataCountries, dataRegions);
        if cleaned.Err? {
          return Err(cleaned.error);
        }
        return Ok(Resolution(Some(cleaned.value), entry));
      }
      dataCountries := activity.countries;
      dataRegions := Dac(activity.regions);
      var found := None;
      if |dataCountries| != 0 || |dataRegions| != 0 {
        var cleaned := CleanCountries(dataCountries, dataRegions);
        if cleaned.Err? {
          return Err(cleaned.error);
        }
        found := Some(cleaned.value);
      }
      if |dataCountries| != 0 {
        entry := entry["recipient_countries" := Some(Items(dataCountries))];
      }
      if |dataRegions| != 0 {
        entry := entry["recipient_regions" := Some(Items(dataRegions))];
      }
      return Ok(Resolution(found, entry));
    }

    /** The sectors, resolved as `SectorsOf` does, `multi_country` and the
        transaction type; a type outside 1–4 ends processing when types are
        limited. */
    method StepSectors(getOrg: OrgResolver, covid: CovidMatcher) returns (error: Option<Error>)
      requires activity.identifier in flattener.activityData && record.countries.Some?
      modifies this, flattener
      ensures Processed(record, flattener.activityData, error) ==
        ProcessFromSectors(flattener.organisations, getOrg, covid, activity, transaction, limitTransactionTypes,
                           DatesOf(transaction), ResolveSectors(activity, transaction, old(flattener.activityData)[activity.identifier]),
                           old(record), old(flattener.activityData))
    {
      var id := activity.identifier;
      var resolved := SectorsOf(flattener.activityData[id]);
      if resolved.Err? {
        return Some(resolved.error);
      }
      var activityData := resolved.value.entry;
      flattener.activityData := flattener.activityData[id := activityData];
      record := record.(sectors := resolved.value.found,
                        multiCountry := Some(if |record.countries.value| > 1 then 1 else 0),
                        transactionType := Some(transaction.txType));
      if limitTransactionTypes {
        if transaction.txType !in ["1", "2", "3", "4"] {
          return None;
        }
      }
      var dates := Dates(GetDateOpt(transaction.value.valueDate), GetFyFq(transaction.transactionDate));
      error := StepValues(getOrg, covid, activityData, dates);
    }

    /** The sector lookups of `process_transaction` on the activity's memo
        entry: the transaction's DAC sectors, else the memoised list, else the
        activity's DAC sectors, else the sentinel; the last two are memoised. */
    method SectorsOf(activityData: Entry) returns (r: Result<Resolution>)
      ensures r == ResolveSectors(activity, transaction, activityData)
    {
      var transactionSectors := Dac(transaction.sectors);
      if |transactionSectors| != 0 {
        var cleaned := CleanSectors(transactionSectors);
        if cleaned.Err? {
          return Err(cleaned.error);
        }
        return Ok(Resolution(Some(cleaned.value), activityData));
      }
      var dataSectors := StoredList(activityData, "sectors");
      if |dataSectors| != 0 {
        var cleaned := CleanSectors(dataSectors);
        if cleaned.Err? {
          return Err(cleaned.error);
        }
        return Ok(Resolution(Some(cleaned.value), activityData));
      }
      dataSectors := Dac(activity.sectors);
      if |dataSectors| != 0 {
        var cleaned := CleanSectors(dataSectors);
        if cleaned.Err? {
          return Err(cleaned.error);
        }
        return Ok(Resolution(Some(cleaned.value), activityData["sectors" := Some(Items(dataSectors))]));
      }
      return Ok(Resolution(Some(Sentinel), activityData["sectors" := Some(Items(AsItems(Sentinel)))]));
    }

    /** From the classifications to `output = True`, `dates` being the parsed
        dates. */
    method StepValues(getOrg: OrgResolver, covid: CovidMatcher, activityData: Entry, dates: Dates)
      returns (error: Option<Error>)
      requires WellParsed(dates)
      modifies this
      ensures Processed(record, flattener.activityData, error) ==
        ProcessFromValues(flattener.organisations, getOrg, covid, transaction, activityData, dates,
                          old(record), flattener.activityData)
    {
      record := record.(attrs := record.attrs["aid_type" := FirstElement(transaction.aidTypes)]);
      record := record.(attrs := record.attrs["finance_type" := FirstElement(transaction.financeTypes)]);
      record := record.(providerOrg := Some(getOrg(flattener.organisations, activityData, transaction, true)));
      record := record.(receiverOrg := Some(getOrg(flattener.organisations, activityData, transaction, false)));
      record := record.(valueOriginal := Some(transaction.value.amount));
      record := record.(attrs := record.attrs["currency_original" := StrOrNone(transaction.value.currency)]);
      if dates.valueDate.Err? {
        return Some(dates.valueDate.error);
      }
      record := record.(valueDate := Some(dates.valueDate.value));
      record := record.(transactionDate := transaction.transactionDate);
      if dates.fiscal.Err? {
        return Some(dates.fiscal.error);
      }
      record := record.(fiscalYear := Some(dates.fiscal.value.0), fiscalQuarter := Some(dates.fiscal.value.1));
      record := record.(covid19 := Some(if covid(transaction) then 1 else 0));
      record := record.(output := true);
      return None;
    }

    /** `transaction_data(country, sector, sector_category)`. */
    method TransactionData(country: Allocation, sector: Allocation, sectorCategory: string)
      returns (row: Result<CsvRow>)
      modifies this, flattener
      ensures Prepared(record, flattener.activityData, row) ==
        TxData(flattener.organisations, flattener.exchangeRates, activity, old(record),
               old(flattener.activityData), country, sector, sectorCategory)
    {
      var filled, error := SetData(flattener, activity, record.attrs);
      record := record.(attrs := filled);
      if error.Some? {
        return Err(error.value);
      }
      row := Converted(country, sector, sectorCategory);
    }

    /** The checks, the alias, the lookup and the row. */
    method Converted(country: Allocation, sector: Allocation, sectorCategory: string)
      returns (row: Result<CsvRow>)
      modifies this
      ensures Prepared(record, flattener.activityData, row) ==
        Convert(flattener.exchangeRates, old(record), flattener.activityData, country, sector, sectorCategory)
    {
      if record.valueDate.None? {
        return Err(MissingValue("value_date"));
      }
      if AttrValue(record.attrs, "currency_original").None? {
        return Err(MissingValue("currency"));
      }
      if record.valueOriginal.None? {
        return Err(MissingValue("value"));
      }
      if AttrValue(record.attrs, "currency_original") == Some(Str("USS")) {
        record := record.(attrs := record.attrs["currency_original" := Some(Str("USD"))]);
      }
      var closest := Lookup(flattener.exchangeRates, CurrencyOf(AttrValue(record.attrs, "currency_original")),
                            record.valueDate.value);
      if closest.Err? {
        return Err(closest.error);
      }
      record := record.(exchangeRate := Some(closest.value.rate));
      record := record.(valueUsd := Some(record.valueOriginal.value / closest.value.rate));
      row := RowOf(record, country, sector, sectorCategory);
    }

    /** `flatten_transaction()`, consumed to the end: the rows yielded and the
        exception that stopped the generator, if any. */
    method FlattenTransaction() returns (rows: seq<CsvRow>, error: Option<Error>)
      modifies this, flattener
      ensures Flattened(record, flattener.activityData, rows, error) ==
        Flatten(flattener.organisations, flattener.exchangeRates, flattener.categoryGroup, flattener.countries,
                activity, old(record), old(flattener.activityData))
    {
      rows, error := [], None;
      if record.sectors.None? || (record.sectors.value != [] && record.countries.None?) {
        error := Some(AttributeError);
        return;
      }
      var ss := record.sectors.value;
      var cs := if record.countries.Some? then record.countries.value else [];
      ghost var orgs, rates, cats, wanted := flattener.organisations, flattener.exchangeRates,
                                             flattener.categoryGroup, flattener.countries;
      ghost var whole := FlattenFrom(orgs, rates, cats, activity, record, flattener.activityData, Visits(ss, cs, wanted));
      for i := 0 to |ss|
        invariant record.sectors == Some(ss) && (ss != [] ==> record.countries == Some(cs))
        invariant Then(rows, FlattenFrom(orgs, rates, cats, activity, record, flattener.activityData,
                                         Visits(ss[i..], cs, wanted))) == whole
      {
        var sector := ss[i];
        var sectorCategory := GetSectorCategory(Some(sector.code), flattener.categoryGroup);
        ghost var later := Visits(ss[i + 1..], cs, wanted);
        VisitsStep(ss, cs, wanted, i);
        assert cs[0..] == cs;
        var sectorRows, sectorError := FlattenSector(sector, sectorCategory, cs, later);
        ThenThen(rows, sectorRows, FlattenFrom(orgs, rates, cats, activity, record, flattener.activityData, later));
        rows := rows + sectorRows;
        if sectorError.Some? {
          error := sectorError;
          return;
        }
      }
      assert ss[|ss|..] == [];
    }

    /** The inner loop of `flatten_transaction()` for one sector: the rows of
        the wanted countries in order, up to the first failing row. */
    method FlattenSector(sector: Allocation, sectorCategory: string, cs: seq<Allocation>,
                         ghost later: seq<(Allocation, Allocation)>)
      returns (rows: seq<CsvRow>, error: Option<Error>)
      requires sectorCategory == GetSectorCategory(Some(sector.code), flattener.categoryGroup)
      modifies this, flattener
      ensures record.sectors == old(record.sectors) && record.countries == old(record.countries)
      ensures FlattenFrom(flattener.organisations, flattener.exchangeRates, flattener.categoryGroup, activity,
                          old(record), old(flattener.activityData), Block(sector, cs, flattener.countries) + later) ==
        if error.Some? then Flattened(record, flattener.activityData, rows, error)
        else Then(rows, FlattenFrom(flattener.organisations, flattener.exchangeRates, flattener.categoryGroup,
                                    activity, record, flattener.activityData, later))
    {
      ghost var whole := FlattenFrom(flattener.organisations, flattener.exchangeRates, flattener.categoryGroup,
                                     activity, record, flattener.activityData,
                                     Block(sector, cs, flattener.countries) + later);
      rows, error := [], None;
      assert cs[0..] == cs;
      for j := 0 to |cs|
        invariant record.sectors == old(record.sectors) && record.countries == old(record.countries)
        invariant Then(rows, FlattenFrom(flattener.organisations, flattener.exchangeRates, flattener.categoryGroup,
                                         activity, record, flattener.activityData,
                                         Block(sector, cs[j..], flattener.countries) + later)) == whole
      {
        var countryError;
        rows, countryError := VisitNext(sector, sectorCategory, cs, j, later, rows, whole);
        if countryError.Some? {
          error := countryError;
          return;
        }
      }
      BlockEnd(sector, cs, flattener.countries, later);
    }

    /** The `j`-th country of a sector's loop, carrying the rows so far and the
        run the loop reproduces. */
    method VisitNext(sector: Allocation, sectorCategory: string, cs: seq<Allocation>, j: nat,
                     ghost later: seq<(Allocation, Allocation)>, done: seq<CsvRow>, ghost whole: Flattened)
      returns (rows: seq<CsvRow>, error: Option<Error>)
      requires j < |cs|
      requires sectorCategory == GetSectorCategory(Some(sector.code), flattener.categoryGroup)
      requires Then(done, FlattenFrom(flattener.organisations, flattener.exchangeRates, flattener.categoryGroup,
                                      activity, record, flattener.activityData,
                                      Block(sector, cs[j..], flattener.countries) + later)) == whole
      modifies this, flattener
      ensures record.sectors == old(record.sectors) && record.countries == old(record.countries)
      ensures error.Some? ==> whole == Flattened(record, flattener.activityData, rows, error)
      ensures error.None? ==>
        Then(rows, FlattenFrom(flattener.organisations, flattener.exchangeRates, flattener.categoryGroup,
                               activity, record, flattener.activityData,
                               Block(sector, cs[j + 1..], flattener.countries) + later)) == whole
    {
      ghost var wanted := flattener.countries;
      ghost var rest := Block(sector, cs[j + 1..], wanted) + later;
      ghost var before, beforeData := record, flattener.activityData;
      BlockStep(sector, cs, wanted, j, later);
      var countryRows;
      countryRows, error := VisitCountry(sector, sectorCategory, cs[j], rest);
      StepThen(flattener.organisations, flattener.exchangeRates, flattener.categoryGroup, activity,
               before, beforeData, record, flattener.activityData,
               Visit(sector, cs[j], wanted) + rest, rest, done, countryRows, error, whole);
      rows := done + countryRows;
    }

    /** One iteration of the inner loop: a country outside `countries` is
        skipped; otherwise `transaction_data` yields its row or raises. */
    method VisitCountry(sector: Allocation, sectorCategory: string, country: Allocation,
                        ghost rest: seq<(Allocation, Allocation)>)
      returns (rows: seq<CsvRow>, error: Option<Error>)
      requires sectorCategory == GetSectorCategory(Some(sector.code), flattener.categoryGroup)
      modifies this, flattener
      ensures record.sectors == old(record.sectors) && record.countries == old(record.countries)
      ensures FlattenFrom(flattener.organisations, flattener.exchangeRates, flattener.categoryGroup, activity,
                          old(record), old(flattener.activityData), Visit(sector, country, flattener.countries) + rest) ==
        if error.Some? then Flattened(record, flattener.activityData, rows, error)
        else Then(rows, FlattenFrom(flattener.organisations, flattener.exchangeRates, flattener.categoryGroup,
                                    activity, record, flattener.activityData, rest))
    {
      rows, error := [], None;
      if country.code !in flattener.countries {
        assert Visit(sector, country, flattener.countries) + rest == rest;
        return;
      }
      ghost var before, beforeData := record, flattener.activityData;
      var row := TransactionData(country, sector, sectorCategory);
      FlattenFromCons(flattener.organisations, flattener.exchangeRates, flattener.categoryGroup, activity,
                      before, beforeData, (sector, country), rest);
      if row.Err? {
        error := Some(row.error);
        return;
      }
      rows := [row.value];
    }

  }

  /** One outer iteration: the block of sector `i`, then the later sectors. */
  lemma VisitsStep(ss: seq<Allocation>, cs: seq<Allocation>, wanted: set<string>, i: nat)
    requires i < |ss|
    ensures Visits(ss[i..], cs, wanted) == Block(ss[i], cs[0..], wanted) + Visits(ss[i + 1..], cs, wanted)
  {
    assert ss[i..][0] == ss[i] && ss[i..][1..] == ss[i + 1..];
    assert cs[0..] == cs;
  }

  /** One inner iteration: country `j` is visited first when it is wanted, and
      skipped otherwise. */
  lemma BlockStep(sector: Allocation, cs: seq<Allocation>, wanted: set<string>, j: nat,
                  later: seq<(Allocation, Allocation)>)
    requires j < |cs|
    ensures Block(sector, cs[j..], wanted) + later == Visit(sector, cs[j], wanted) + (Block(sector, cs[j + 1..], wanted) + later)
  {
    assert cs[j..][0] == cs[j] && cs[j..][1..] == cs[j + 1..];
  }


  /** After the inner loop: nothing of the block is left. */
  lemma BlockEnd(sector: Allocation, cs: seq<Allocation>, wanted: set<string>, later: seq<(Allocation, Allocation)>)
    ensures Block(sector, cs[|cs|..], wanted) + later == later
  {
    assert cs[|cs|..] == [];
  }

  /** The first visit of a non-empty list. */
  lemma FlattenFromCons(organisations: map<string, string>, rates: RateTable, categories: map<string, string>,
                        a: ActivityEl, s: TxState, data: map<string, Entry>, v: (Allocation, Allocation),
                        rest: seq<(Allocation, Allocation)>)
    ensures var p := TxData(organisations, rates, a, s, data, v.1, v.0, GetSectorCategory(Some(v.0.code), categories));
      FlattenFrom(organisations, rates, categories, a, s, data, [v] + rest) ==
        if p.row.Err? then Flattened(p.state, p.data, [], Some(p.row.error))
        else Then([p.row.value], FlattenFrom(organisations, rates, categories, a, p.state, p.data, rest))
  {
    assert ([v] + rest)[0] == v && ([v] + rest)[1..] == rest;
  }

  /** One step of a loop over visits: the rows so far, then the step's rows,
      then (without an exception) the rest of the run. */
  lemma StepThen(organisations: map<string, string>, rates: RateTable, categories: map<string, string>,
                 a: ActivityEl, s0: TxState, d0: map<string, Entry>, s1: TxState, d1: map<string, Entry>,
                 vs: seq<(Allocation, Allocation)>, rest: seq<(Allocation, Allocation)>,
                 rows: seq<CsvRow>, stepRows: seq<CsvRow>, error: Option<Error>, whole: Flattened)
    requires Then(rows, FlattenFrom(organisations, rates, categories, a, s0, d0, vs)) == whole
    requires FlattenFrom(organisations, rates, categories, a, s0, d0, vs) ==
      if error.Some? then Flattened(s1, d1, stepRows, error)
      else Then(stepRows, FlattenFrom(organisations, rates, categories, a, s1, d1, rest))
    ensures error.Some? ==> whole == Flattened(s1, d1, rows + stepRows, error)
    ensures error.None? ==> Then(rows + stepRows, FlattenFrom(organisations, rates, categories, a, s1, d1, rest)) == whole
  {
    if error.None? {
      ThenThen(rows, stepRows, FlattenFrom(organisations, rates, categories, a, s1, d1, rest));
    }
  }

  lemma ThenThen(a: seq<CsvRow>, b: seq<CsvRow>, f: Flattened)
    ensures Then(a, Then(b, f)) == Then(a + b, f)
  {
    assert a + (b + f.rows) == (a + b) + f.rows;
  }

  // ------------------------------------------------------------ properties of process_transaction

  /** Resolving the places writes the memo only at the two place keys, and
      only when the lists came from the activity element. */
  lemma PlacesWriteOnlyPlaceKeys(a: ActivityEl, t: TransactionEl, entry: Entry)
    requires ResolveCountries(a, t, entry).Ok?
    ensures var r := ResolveCountries(a, t, entry).value;
      forall k :: k != "recipient_countries" && k != "recipient_regions" ==>
        (k in r.entry <==> k in entry) && (k in entry ==> r.entry[k] == entry[k])
    ensures var r := ResolveCountries(a, t, entry).value;
      r.entry != entry ==>
        t.countries == [] && Dac(t.regions) == [] &&
        StoredList(entry, "recipient_countries") == [] && StoredList(entry, "recipient_regions") == []
  {
  }

  /** A second transaction of the same activity without places of its own
      gets the places the first one found on the activity, now from the memo,
      and writes nothing more. */
  lemma PlacesMemoised(a: ActivityEl, t: TransactionEl, u: TransactionEl, entry: Entry)
    requires t.countries == [] && Dac(t.regions) == [] && u.countries == [] && Dac(u.regions) == []
    requires StoredList(entry, "recipient_countries") == [] && StoredList(entry, "recipient_regions") == []
    requires ResolveCountries(a, t, entry).Ok?
    ensures var first := ResolveCountries(a, t, entry).value;
      ResolveCountries(a, u, first.entry) == Ok(first)
  {
    var first := ResolveCountries(a, t, entry).value;
    assert StoredList(first.entry, "recipient_countries") == a.countries;
    assert StoredList(first.entry, "recipient_regions") == Dac(a.regions);
  }

  /** Resolving the sectors writes the memo only at `sectors`, and only when
      the list came from the activity element or is the sentinel. */
  lemma SectorsWriteOnlySectorKey(a: ActivityEl, t: TransactionEl, entry: Entry)
    requires ResolveSectors(a, t, entry).Ok?
    ensures var r := ResolveSectors(a, t, entry).value;
      forall k :: k != "sectors" ==> (k in r.entry <==> k in entry) && (k in entry ==> r.entry[k] == entry[k])
    ensures var r := ResolveSectors(a, t, entry).value;
      r.entry != entry ==> Dac(t.sectors) == [] && StoredList(entry, "sectors") == []
    ensures var r := ResolveSectors(a, t, entry).value;
      Dac(t.sectors) == [] && StoredList(entry, "sectors") == [] && Dac(a.sectors) == [] ==>
        r.found == Some(Sentinel) && StoredList(r.entry, "sectors") == AsItems(Sentinel)
  {
  }

  /** A second transaction of the same activity without sectors of its own
      gets the sectors the first one found on the activity, or the sentinel
      the first one stored, from the memo, and writes nothing more. */
  lemma SectorsMemoised(a: ActivityEl, t: TransactionEl, u: TransactionEl, entry: Entry)
    requires Dac(t.sectors) == [] && Dac(u.sectors) == []
    requires StoredList(entry, "sectors") == []
    requires ResolveSectors(a, t, entry).Ok?
    ensures var first := ResolveSectors(a, t, entry).value;
      ResolveSectors(a, u, first.entry) == Ok(first)
  {
    var first := ResolveSectors(a, t, entry).value;
    if Dac(a.sectors) == [] {
      var items := AsItems(Sentinel);
      assert StoredList(first.entry, "sectors") == items;
      assert Survivors(items) == items;
      assert Total(items) == 100.0;
      assert Rescale(items, 100.0) == Sentinel;
    } else {
      assert StoredList(first.entry, "sectors") == Dac(a.sectors);
    }
  }

  /** What the last layer of `process_transaction` sets: it either raises or
      sets `output`, and it leaves the memo, the places and the sectors alone. */
  lemma ValuesOutcome(organisations: map<string, string>, getOrg: OrgResolver, covid: CovidMatcher,
                      t: TransactionEl, entry: Entry, dates: Dates, s: TxState, data: map<string, Entry>)
    requires WellParsed(dates)
    ensures var p := ProcessFromValues(organisations, getOrg, covid, t, entry, dates, s, data);
      p.data == data && p.state.iatiIdentifier == s.iatiIdentifier &&
      p.state.countries == s.countries && p.state.sectors == s.sectors &&
      p.state.multiCountry == s.multiCountry && p.state.transactionType == s.transactionType &&
      p.state.valueOriginal == Some(t.value.amount)
    ensures var p := ProcessFromValues(organisations, getOrg, covid, t, entry, dates, s, data);
      (p.error.None? <==> dates.valueDate.Ok? && dates.fiscal.Ok?) &&
      (p.error.None? ==> p.state.output) && (p.error.Some? ==> p.state.output == s.output)
    ensures var p := ProcessFromValues(organisations, getOrg, covid, t, entry, dates, s, data);
      p.error.None? ==>
        p.state.valueDate == Some(dates.valueDate.value) && p.state.transactionDate == t.transactionDate &&
        p.state.fiscalYear == Some(dates.fiscal.value.0) && p.state.fiscalQuarter == Some(dates.fiscal.value.1) &&
        p.state.covid19 == Some(if covid(t) then 1 else 0)
  {
  }

  /** The middle layer, `sectors` being the sector resolution: a count of
      places fixes `multi_country`, and a type outside 1–4 stops before
      `output` when types are limited. */
  lemma SectorsOutcome(organisations: map<string, string>, getOrg: OrgResolver, covid: CovidMatcher,
                       a: ActivityEl, t: TransactionEl, limit: bool, dates: Dates, sectors: Result<Resolution>,
                       s: TxState, data: map<string, Entry>)
    requires WellParsed(dates) && a.identifier in data && s.countries.Some?
    ensures var p := ProcessFromSectors(organisations, getOrg, covid, a, t, limit, dates, sectors, s, data);
      a.identifier in p.data && p.data == data[a.identifier := p.data[a.identifier]] &&
      p.state.iatiIdentifier == s.iatiIdentifier && p.state.countries == s.countries
    ensures var p := ProcessFromSectors(organisations, getOrg, covid, a, t, limit, dates, sectors, s, data);
      !s.output ==> (p.state.output <==> p.error.None? && (!limit || ModelRecords.CountedType(t.txType)))
    ensures var p := ProcessFromSectors(organisations, getOrg, covid, a, t, limit, dates, sectors, s, data);
      p.error.None? ==>
        sectors.Ok? && p.state.sectors == sectors.value.found &&
        p.state.multiCountry == Some(ModelRecords.MultiCountry(s.countries.value)) &&
        p.state.transactionType == Some(t.txType)
    ensures var p := ProcessFromSectors(organisations, getOrg, covid, a, t, limit, dates, sectors, s, data);
      p.state.output && !s.output ==>
        p.state.valueOriginal == Some(t.value.amount) &&
        p.state.valueDate.Some? && dates.valueDate == Ok(p.state.valueDate.value) &&
        p.state.fiscalYear.Some? && p.state.fiscalQuarter.Some? &&
        dates.fiscal == Ok((p.state.fiscalYear.value, p.state.fiscalQuarter.value))
  {
    if sectors.Ok? {
      var rs := sectors.value;
      var s2 := s.(sectors := rs.found, multiCountry := Some(ModelRecords.MultiCountry(s.countries.value)),
                   transactionType := Some(t.txType));
      if !(limit && !ModelRecords.CountedType(t.txType)) {
        ValuesOutcome(organisations, getOrg, covid, t, rs.entry, dates, s2, data[a.identifier := rs.entry]);
      }
    }
  }

  /** The first layer, `places` being the place resolution: no place found
      leaves the record without output. */
  lemma PlacesOutcome(organisations: map<string, string>, getOrg: OrgResolver, covid: CovidMatcher,
                      a: ActivityEl, t: TransactionEl, limit: bool, dates: Dates, places: Result<Resolution>,
                      s: TxState, data: map<string, Entry>)
    requires WellParsed(dates) && a.identifier in data && !s.output && s.countries.None?
    ensures var p := ProcessFromPlaces(organisations, getOrg, covid, a, t, limit, dates, places, s, data);
      a.identifier in p.data && p.data == data[a.identifier := p.data[a.identifier]] &&
      p.state.iatiIdentifier == s.iatiIdentifier
    ensures var p := ProcessFromPlaces(organisations, getOrg, covid, a, t, limit, dates, places, s, data);
      p.state.output <==> p.error.None? && p.state.countries.Some? && (!limit || ModelRecords.CountedType(t.txType))
    ensures var p := ProcessFromPlaces(organisations, getOrg, covid, a, t, limit, dates, places, s, data);
      p.error.None? ==> places.Ok? && p.state.countries == places.value.found
    ensures var p := ProcessFromPlaces(organisations, getOrg, covid, a, t, limit, dates, places, s, data);
      p.state.output ==>
        p.state.sectors.Some? && p.state.transactionType == Some(t.txType) &&
        p.state.multiCountry == Some(ModelRecords.MultiCountry(p.state.countries.value)) &&
        p.state.valueOriginal == Some(t.value.amount) &&
        p.state.valueDate.Some? && dates.valueDate == Ok(p.state.valueDate.value) &&
        p.state.fiscalYear.Some? && p.state.fiscalQuarter.Some? &&
        dates.fiscal == Ok((p.state.fiscalYear.value, p.state.fiscalQuarter.value))
  {
    var id := a.identifier;
    if places.Ok? && places.value.found.Some? {
      var rc := places.value;
      var d1 := data[id := rc.entry];
      var s1 := s.(countries := rc.found);
      var sectors := ResolveSectors(a, t, rc.entry);
      SectorsOutcome(organisations, getOrg, covid, a, t, limit, dates, sectors, s1, d1);
      var p := ProcessFromSectors(organisations, getOrg, covid, a, t, limit, dates, sectors, s1, d1);
      assert p.data == d1[id := p.data[id]];
    }
  }

  /** `process_transaction()` on a record without places and without output:
      `output` ends True exactly when nothing raised, some place was found and
      the type passes the limit; then the record holds the sectors found, the
      `multi_country` flag (1 exactly for several places), the transaction
      type, the value and the two parsed dates. */
  lemma ProcessOutcome(organisations: map<string, string>, getOrg: OrgResolver, covid: CovidMatcher,
                       a: ActivityEl, t: TransactionEl, limit: bool, dates: Dates, s: TxState, data: map<string, Entry>)
    requires WellParsed(dates) && !s.output && s.countries.None?
    ensures var p := Process(organisations, getOrg, covid, a, t, limit, dates, s, data);
      p.state.output <==> p.error.None? && p.state.countries.Some? && (!limit || ModelRecords.CountedType(t.txType))
    ensures var p := Process(organisations, getOrg, covid, a, t, limit, dates, s, data);
      p.state.output ==>
        p.state.sectors.Some? && p.state.transactionType == Some(t.txType) &&
        (p.state.multiCountry == Some(1) <==> |p.state.countries.value| > 1) &&
        (p.state.multiCountry == Some(0) <==> |p.state.countries.value| <= 1) &&
        p.state.valueOriginal == Some(t.value.amount) &&
        p.state.valueDate.Some? && dates.valueDate == Ok(p.state.valueDate.value) &&
        p.state.fiscalYear.Some? && p.state.fiscalQuarter.Some? &&
        dates.fiscal == Ok((p.state.fiscalYear.value, p.state.fiscalQuarter.value))
  {
    var id := a.identifier;
    var d0 := if id in data then data else data[id := map[]];
    PlacesOutcome(organisations, getOrg, covid, a, t, limit, dates, ResolveCountries(a, t, d0[id]),
                  s.(iatiIdentifier := Some(id)), d0);
  }

  /** `process_transaction()` sets the identifier and creates or changes
      the activity's memo entry only. */
  lemma ProcessMemo(organisations: map<string, string>, getOrg: OrgResolver, covid: CovidMatcher,
                    a: ActivityEl, t: TransactionEl, limit: bool, dates: Dates, s: TxState, data: map<string, Entry>)
    requires WellParsed(dates) && !s.output && s.countries.None?
    ensures var p := Process(organisations, getOrg, covid, a, t, limit, dates, s, data);
      p.state.iatiIdentifier == Some(a.identifier) &&
      a.identifier in p.data && p.data == data[a.identifier := p.data[a.identifier]]
  {
    var id := a.identifier;
    var d0 := if id in data then data else data[id := map[]];
    var places := ResolveCountries(a, t, d0[id]);
    var s0 := s.(iatiIdentifier := Some(id));
    PlacesOutcome(organisations, getOrg, covid, a, t, limit, dates, places, s0, d0);
    var p := ProcessFromPlaces(organisations, getOrg, covid, a, t, limit, dates, places, s0, d0);
    OverwriteFresh(data, id, p.data[id]);
  }

  /** Writing an entry over a freshly created one is writing it. */
  lemma OverwriteFresh(data: map<string, Entry>, id: string, e: Entry)
    ensures (if id in data then data else data[id := map[]])[id := e] == data[id := e]
  {
  }

  /** When nothing raised, the places `process_transaction()` keeps are their
      resolution on the activity's memo entry, an empty one for a new
      identifier. */
  lemma ProcessPlaces(organisations: map<string, string>, getOrg: OrgResolver, covid: CovidMatcher,
                      a: ActivityEl, t: TransactionEl, limit: bool, dates: Dates, s: TxState, data: map<string, Entry>)
    requires WellParsed(dates) && !s.output && s.countries.None?
    ensures var p := Process(organisations, getOrg, covid, a, t, limit, dates, s, data);
      var entry := if a.identifier in data then data[a.identifier] else map[];
      p.error.None? ==>
        ResolveCountries(a, t, entry).Ok? && p.state.countries == ResolveCountries(a, t, entry).value.found
  {
    var id := a.identifier;
    var d0 := if id in data then data else data[id := map[]];
    PlacesOutcome(organisations, getOrg, covid, a, t, limit, dates, ResolveCountries(a, t, d0[id]),
                  s.(iatiIdentifier := Some(id)), d0);
  }

  /** With no place on the transaction, in the memo or on the activity, the
      record gets its identifier and nothing else: `output` stays False. */
  lemma NoPlaceNoOutput(organisations: map<string, string>, getOrg: OrgResolver, covid: CovidMatcher,
                        a: ActivityEl, t: TransactionEl, limit: bool, dates: Dates, s: TxState, data: map<string, Entry>)
    requires t.countries == [] && Dac(t.regions) == [] && a.countries == [] && Dac(a.regions) == []
    requires a.identifier in data ==>
      StoredList(data[a.identifier], "recipient_countries") == [] &&
      StoredList(data[a.identifier], "recipient_regions") == []
    requires WellParsed(dates) && s.countries.None?
    ensures var p := Process(organisations, getOrg, covid, a, t, limit, dates, s, data);
      p.error.None? && p.state == s.(iatiIdentifier := Some(a.identifier)) && p.state.output == s.output
  {
  }

  // ------------------------------------------------------------ properties of transaction_data

  /** A record without value date, currency or value raises MissingValue,
      in that order of checks and before any rate lookup: the outcome is the
      same whatever the rate table. A fill that raises ends it first. */
  lemma ChecksBeforeLookup(organisations: map<string, string>, rates: RateTable, other: RateTable, a: ActivityEl,
                           s: TxState, data: map<string, Entry>, country: Allocation, sector: Allocation,
                           sectorCategory: string)
    ensures var f := Fill(a, organisations, a.identifier, Memo(s.attrs, data), ActivityFunctions);
      var p := TxData(organisations, rates, a, s, data, country, sector, sectorCategory);
      f.error.None? ==>
        (s.valueDate.None? ==> p.row == Err(MissingValue("value_date"))) &&
        (s.valueDate.Some? && AttrValue(f.memo.attrs, "currency_original").None? ==>
           p.row == Err(MissingValue("currency"))) &&
        (s.valueDate.Some? && AttrValue(f.memo.attrs, "currency_original").Some? && s.valueOriginal.None? ==>
           p.row == Err(MissingValue("value")))
    ensures var f := Fill(a, organisations, a.identifier, Memo(s.attrs, data), ActivityFunctions);
      f.error.Some? || s.valueDate.None? || AttrValue(f.memo.attrs, "currency_original").None? ||
      s.valueOriginal.None? ==>
        TxData(organisations, rates, a, s, data, country, sector, sectorCategory) ==
        TxData(organisations, other, a, s, data, country, sector, sectorCategory)
  {
  }

  /** The currency a record is converted from: `USS` is read as `USD`. */
  function Asked(currency: Option<Val>): (c: Option<string>)
    ensures currency == Some(Str("USS")) ==> c == Some("USD")
    ensures currency != Some(Str("USS")) ==> c == CurrencyOf(currency)
  {
    if currency == Some(Str("USS")) then Some("USD") else CurrencyOf(currency)
  }

  /** Without a fill error, `transaction_data` is the conversion of the filled
      record against the filled memo. */
  lemma TxDataConverts(organisations: map<string, string>, rates: RateTable, a: ActivityEl,
                       s: TxState, data: map<string, Entry>, country: Allocation, sector: Allocation,
                       sectorCategory: string)
    ensures var f := Fill(a, organisations, a.identifier, Memo(s.attrs, data), ActivityFunctions);
      var p := TxData(organisations, rates, a, s, data, country, sector, sectorCategory);
      (f.error.Some? ==> p == Prepared(s.(attrs := f.memo.attrs), f.memo.data, Err(f.error.value))) &&
      (f.error.None? ==> p == Convert(rates, s.(attrs := f.memo.attrs), f.memo.data, country, sector, sectorCategory))
  {
  }

  /** With the value date, the currency and the value present, one lookup is
      made, for the currency with `USS` read as `USD` on the value date; its
      failure is the outcome, and otherwise the record keeps the rate and
      `value_usd = value_original / rate`; the memo is untouched. */
  lemma OneLookup(rates: RateTable, s1: TxState, d1: map<string, Entry>,
                  country: Allocation, sector: Allocation, sectorCategory: string)
    requires s1.valueDate.Some? && s1.valueOriginal.Some? && AttrValue(s1.attrs, "currency_original").Some?
    ensures var p := Convert(rates, s1, d1, country, sector, sectorCategory);
      p.data == d1 && p.state.valueOriginal == s1.valueOriginal &&
      match Lookup(rates, Asked(AttrValue(s1.attrs, "currency_original")), s1.valueDate.value)
      case Err(e) => p.row == Err(e)
      case Ok(q) => p.state.exchangeRate == Some(q.rate) && p.state.valueUsd == Some(s1.valueOriginal.value / q.rate)
  {
  }

  /** `v * (c/100) * (s/100) / r * r` is `v * (c/100) * (s/100)`. */
  lemma ScaleOverRate(v: real, rate: real, country: Allocation, sector: Allocation)
    requires rate > 0.0
    ensures Scale2(v / rate, country, sector) * rate == Scale2(v, country, sector)
  {
    var k := (country.percentage / 100.0) * (sector.percentage / 100.0);
    assert Scale2(v / rate, country, sector) == (v / rate) * k;
    assert Scale2(v, country, sector) == v * k;
    assert (v / rate) * k * rate == v * k;
  }

  /** A successful conversion ends in the row of the converted record, whose
      dollar value is its value divided by the rate of the lookup. */
  lemma ConvertRow(rates: RateTable, s1: TxState, d1: map<string, Entry>,
                   country: Allocation, sector: Allocation, sectorCategory: string)
    requires Convert(rates, s1, d1, country, sector, sectorCategory).row.Ok?
    ensures var p := Convert(rates, s1, d1, country, sector, sectorCategory);
      p.state.valueOriginal == s1.valueOriginal && s1.valueOriginal.Some? &&
      p.state.valueDate.Some? && p.state.exchangeRate.Some? &&
      p.state.valueUsd == Some(s1.valueOriginal.value / p.state.exchangeRate.value) &&
      CurrencyOf(AttrValue(p.state.attrs, "currency_original")).Some? &&
      p.row == RowOf(p.state, country, sector, sectorCategory)
  {
  }

  /** A row holds the record's value and dollar value scaled by the country's
      and the sector's share and the record's rate; when the dollar value is
      the value over the rate, the row's dollar value times its rate is its
      value. */
  lemma RowScaled(s: TxState, country: Allocation, sector: Allocation, sectorCategory: string)
    requires s.valueOriginal.Some? && s.valueUsd.Some? && s.valueDate.Some? && s.exchangeRate.Some?
    requires CurrencyOf(AttrValue(s.attrs, "currency_original")).Some?
    requires RowOf(s, country, sector, sectorCategory).Ok?
    requires s.valueUsd.value == s.valueOriginal.value / s.exchangeRate.value
    ensures var row := RowOf(s, country, sector, sectorCategory).value;
      row.valueOriginal == Scale2(s.valueOriginal.value, country, sector) &&
      row.valueUsd == Scale2(s.valueUsd.value, country, sector) &&
      row.exchangeRate == s.exchangeRate.value &&
      row.valueUsd * row.exchangeRate == row.valueOriginal
  {
    ScaleOverRate(s.valueOriginal.value, s.exchangeRate.value, country, sector);
  }

  /** The row's currency is the one looked up, so never `USS`; its country,
      sector and category are those of the call, and its identifier, type and
      multi-country flag those of the record. */
  lemma RowFields(rates: RateTable, s1: TxState, d1: map<string, Entry>,
                  country: Allocation, sector: Allocation, sectorCategory: string)
    requires Convert(rates, s1, d1, country, sector, sectorCategory).row.Ok?
    ensures var row := Convert(rates, s1, d1, country, sector, sectorCategory).row.value;
      Some(row.currencyOriginal) == Asked(AttrValue(s1.attrs, "currency_original")) &&
      row.currencyOriginal != "USS" &&
      row.country == country.code && row.sector == sector.code && row.sectorCategory == sectorCategory &&
      row.iatiIdentifier == s1.iatiIdentifier && row.transactionType == s1.transactionType &&
      row.multiCountry == s1.multiCountry
  {
  }

  // ------------------------------------------------------------ properties of flatten_transaction

  /** The countries of `cs` whose code is wanted, in order. */
  function Kept(cs: seq<Allocation>, wanted: set<string>): (r: seq<Allocation>)
    ensures |r| <= |cs|
  {
    if cs == [] then [] else (if cs[0].code in wanted then [cs[0]] else []) + Kept(cs[1..], wanted)
  }

  lemma {:induction false} KeptMembers(cs: seq<Allocation>, wanted: set<string>, c: Allocation)
    ensures c in Kept(cs, wanted) <==> c in cs && c.code in wanted
    decreases |cs|
  {
    if cs != [] {
      KeptMembers(cs[1..], wanted, c);
      assert c in cs <==> c == cs[0] || c in cs[1..];
    }
  }

  /** The block of a sector pairs it with each kept country, in order. */
  lemma {:induction false} BlockIsKept(sector: Allocation, cs: seq<Allocation>, wanted: set<string>)
    ensures |Block(sector, cs, wanted)| == |Kept(cs, wanted)|
    ensures forall j :: 0 <= j < |Kept(cs, wanted)| ==> Block(sector, cs, wanted)[j] == (sector, Kept(cs, wanted)[j])
    decreases |cs|
  {
    if cs != [] {
      BlockIsKept(sector, cs[1..], wanted);
    }
  }

  /** Visit `Offset(i, |Kept|) + j` is sector `i` with kept country `j`: the
      sectors in order, and within each the wanted countries in order. */
  lemma {:induction false} VisitsAt(ss: seq<Allocation>, cs: seq<Allocation>, wanted: set<string>, i: nat, j: nat)
    requires i < |ss| && j < |Kept(cs, wanted)|
    ensures ModelFlat.Offset(i, |Kept(cs, wanted)|) + j < |Visits(ss, cs, wanted)|
    ensures Visits(ss, cs, wanted)[ModelFlat.Offset(i, |Kept(cs, wanted)|) + j] == (ss[i], Kept(cs, wanted)[j])
    decreases |ss|
  {
    if i > 0 {
      VisitsAt(ss[1..], cs, wanted, i - 1, j);
      VisitsAtLater(ss, cs, wanted, i, j);
    } else {
      VisitsAtFirst(ss, cs, wanted, j);
    }
  }

  /** The first visits are the first sector's with each kept country. */
  lemma VisitsAtFirst(ss: seq<Allocation>, cs: seq<Allocation>, wanted: set<string>, j: nat)
    requires ss != [] && j < |Kept(cs, wanted)|
    ensures j < |Visits(ss, cs, wanted)| && Visits(ss, cs, wanted)[j] == (ss[0], Kept(cs, wanted)[j])
  {
    BlockAt(ss[0], cs, wanted, j);
    VisitsIndex(ss, cs, wanted, j);
  }

  lemma BlockLength(sector: Allocation, cs: seq<Allocation>, wanted: set<string>)
    ensures |Block(sector, cs, wanted)| == |Kept(cs, wanted)|
  {
    BlockIsKept(sector, cs, wanted);
  }

  lemma BlockAt(sector: Allocation, cs: seq<Allocation>, wanted: set<string>, j: nat)
    requires j < |Kept(cs, wanted)|
    ensures |Block(sector, cs, wanted)| == |Kept(cs, wanted)| && Block(sector, cs, wanted)[j] == (sector, Kept(cs, wanted)[j])
  {
    BlockIsKept(sector, cs, wanted);
  }


  /** Block `i` of `n` blocks of `q` ends before the blocks do. */
  lemma {:induction false} OffsetBelow(i: nat, n: nat, q: nat, j: nat)
    requires i < n && j < q
    ensures ModelFlat.Offset(i, q) + j < ModelFlat.Offset(n, q)
    decreases n
  {
    if i < n - 1 {
      OffsetBelow(i, n - 1, q, j);
    }
  }

  /** Visit `Offset(i, |Kept|) + j` of all sectors is visit
      `Offset(i - 1, |Kept|) + j` of the sectors after the first. */
  lemma VisitsAtLater(ss: seq<Allocation>, cs: seq<Allocation>, wanted: set<string>, i: nat, j: nat)
    requires 0 < i < |ss| && j < |Kept(cs, wanted)|
    requires ModelFlat.Offset(i - 1, |Kept(cs, wanted)|) + j < |Visits(ss[1..], cs, wanted)|
    requires Visits(ss[1..], cs, wanted)[ModelFlat.Offset(i - 1, |Kept(cs, wanted)|) + j] == (ss[1..][i - 1], Kept(cs, wanted)[j])
    ensures ModelFlat.Offset(i, |Kept(cs, wanted)|) + j < |Visits(ss, cs, wanted)|
    ensures Visits(ss, cs, wanted)[ModelFlat.Offset(i, |Kept(cs, wanted)|) + j] == (ss[i], Kept(cs, wanted)[j])
  {
    var k := Kept(cs, wanted);
    var m := ModelFlat.Offset(i - 1, |k|) + j;
    assert ss[1..][i - 1] == ss[i];
    BlockLength(ss[0], cs, wanted);
    VisitsShift(ss, cs, wanted, m);
    assert ModelFlat.Offset(i, |k|) + j == |k| + m;
  }

  /** Past the first sector's block, the visits are those of the other sectors. */
  lemma VisitsShift(ss: seq<Allocation>, cs: seq<Allocation>, wanted: set<string>, m: nat)
    requires ss != [] && m < |Visits(ss[1..], cs, wanted)|
    ensures |Block(ss[0], cs, wanted)| + m < |Visits(ss, cs, wanted)|
    ensures Visits(ss, cs, wanted)[|Block(ss[0], cs, wanted)| + m] == Visits(ss[1..], cs, wanted)[m]
  {
  }

  /** Visit `n` of a non-empty list is in the first sector's block or after it. */
  lemma VisitsIndex(ss: seq<Allocation>, cs: seq<Allocation>, wanted: set<string>, n: nat)
    requires ss != [] && n < |Visits(ss, cs, wanted)|
    ensures var b := Block(ss[0], cs, wanted);
      Visits(ss, cs, wanted)[n] == if n < |b| then b[n] else Visits(ss[1..], cs, wanted)[n - |b|]
  {
  }



  lemma {:induction false} VisitsCount(ss: seq<Allocation>, cs: seq<Allocation>, wanted: set<string>)
    ensures |Visits(ss, cs, wanted)| == ModelFlat.Offset(|ss|, |Kept(cs, wanted)|)
    decreases |ss|
  {
    if ss != [] {
      BlockIsKept(ss[0], cs, wanted);
      VisitsCount(ss[1..], cs, wanted);
    }
  }

  /** A pair is visited exactly when its sector is one of the record's, its
      country one of the record's, and the country's code is wanted. */
  lemma {:induction false} VisitsMembers(ss: seq<Allocation>, cs: seq<Allocation>, wanted: set<string>,
                                         v: (Allocation, Allocation))
    ensures v in Visits(ss, cs, wanted) <==> v.0 in ss && v.1 in cs && v.1.code in wanted
    decreases |ss|
  {
    if ss != [] {
      VisitsMembers(ss[1..], cs, wanted, v);
      BlockIsKept(ss[0], cs, wanted);
      KeptMembers(cs, wanted, v.1);
      var b := Block(ss[0], cs, wanted);
      var k := Kept(cs, wanted);
      if v in b {
        var j :| 0 <= j < |b| && b[j] == v;
        assert k[j] == v.1;
      }
      if v.0 == ss[0] && v.1 in k {
        var j :| 0 <= j < |k| && k[j] == v.1;
        assert b[j] == v;
      }
      assert v.0 in ss <==> v.0 == ss[0] || v.0 in ss[1..];
    }
  }

  /** A row of `transaction_data` is for the country, sector and category of
      the call. */
  lemma TxDataRowFields(organisations: map<string, string>, rates: RateTable, a: ActivityEl,
                        s: TxState, data: map<string, Entry>, country: Allocation, sector: Allocation,
                        sectorCategory: string)
    requires TxData(organisations, rates, a, s, data, country, sector, sectorCategory).row.Ok?
    ensures var row := TxData(organisations, rates, a, s, data, country, sector, sectorCategory).row.value;
      row.country == country.code && row.sector == sector.code && row.sectorCategory == sectorCategory
  {
    TxDataConverts(organisations, rates, a, s, data, country, sector, sectorCategory);
    var f := Fill(a, organisations, a.identifier, Memo(s.attrs, data), ActivityFunctions);
    RowFields(rates, s.(attrs := f.memo.attrs), f.memo.data, country, sector, sectorCategory);
  }

  /** Only the activity-level attributes, the rate and the dollar value of
      the record change while flattening. */
  lemma {:induction false} FlattenFromKeeps(organisations: map<string, string>, rates: RateTable,
                                            categories: map<string, string>, a: ActivityEl, s: TxState,
                                            data: map<string, Entry>, vs: seq<(Allocation, Allocation)>)
    ensures var f := FlattenFrom(organisations, rates, categories, a, s, data, vs);
      f.state == s.(attrs := f.state.attrs, exchangeRate := f.state.exchangeRate, valueUsd := f.state.valueUsd)
    decreases |vs|
  {
    if vs != [] {
      var v := vs[0];
      var p := TxData(organisations, rates, a, s, data, v.1, v.0, GetSectorCategory(Some(v.0.code), categories));
      if p.row.Ok? {
        FlattenFromKeeps(organisations, rates, categories, a, p.state, p.data, vs[1..]);
      }
    }
  }

  /** Without an exception, one row per visit; with one, fewer rows than
      visits. */
  lemma {:induction false} FlattenFromCount(organisations: map<string, string>, rates: RateTable,
                                            categories: map<string, string>, a: ActivityEl, s: TxState,
                                            data: map<string, Entry>, vs: seq<(Allocation, Allocation)>)
    ensures var f := FlattenFrom(organisations, rates, categories, a, s, data, vs);
      (f.error.None? ==> |f.rows| == |vs|) && (f.error.Some? ==> |f.rows| < |vs|)
    decreases |vs|
  {
    if vs != [] {
      var v := vs[0];
      var p := TxData(organisations, rates, a, s, data, v.1, v.0, GetSectorCategory(Some(v.0.code), categories));
      if p.row.Ok? {
        FlattenFromCount(organisations, rates, categories, a, p.state, p.data, vs[1..]);
      }
    }
  }

  /** `row` is for the country and sector of visit `v` and the sector's
      category. */
  predicate RowFor(row: CsvRow, v: (Allocation, Allocation), categories: map<string, string>) {
    row.country == v.1.code && row.sector == v.0.code &&
    row.sectorCategory == GetSectorCategory(Some(v.0.code), categories)
  }

  /** Row `k` is for visit `k`: the rows come in the order of the visits. */
  lemma {:induction false} FlattenFromOrder(organisations: map<string, string>, rates: RateTable,
                                            categories: map<string, string>, a: ActivityEl, s: TxState,
                                            data: map<string, Entry>, vs: seq<(Allocation, Allocation)>, k: nat)
    requires k < |FlattenFrom(organisations, rates, categories, a, s, data, vs).rows|
    ensures k < |vs| && RowFor(FlattenFrom(organisations, rates, categories, a, s, data, vs).rows[k], vs[k], categories)
    decreases |vs|
  {
    var v := vs[0];
    var p := TxData(organisations, rates, a, s, data, v.1, v.0, GetSectorCategory(Some(v.0.code), categories));
    var rest := FlattenFrom(organisations, rates, categories, a, p.state, p.data, vs[1..]);
    var rows := FlattenFrom(organisations, rates, categories, a, s, data, vs).rows;
    assert p.row.Ok? && rows == [p.row.value] + rest.rows;
    if k == 0 {
      TxDataRowFields(organisations, rates, a, s, data, v.1, v.0, GetSectorCategory(Some(v.0.code), categories));
      assert RowFor(p.row.value, v, categories);
      assert rows[0] == p.row.value;
    } else {
      FlattenFromOrder(organisations, rates, categories, a, p.state, p.data, vs[1..], k - 1);
      ConsAt(p.row.value, rest.rows, k);
      assert rows[k] == rest.rows[k - 1];
      assert vs[1..][k - 1] == vs[k];
    }
  }

  /** Flattening the visits of sectors `ss` and countries `cs` without an
      exception yields one row per sector and wanted country, sector outer and
      country inner: row `Offset(i, |Kept|) + j` is for sector `i` and the
      `j`-th wanted country. */
  lemma FlattenFromLayout(organisations: map<string, string>, rates: RateTable, categories: map<string, string>,
                          a: ActivityEl, s: TxState, data: map<string, Entry>,
                          ss: seq<Allocation>, cs: seq<Allocation>, wanted: set<string>, i: nat, j: nat)
    requires FlattenFrom(organisations, rates, categories, a, s, data, Visits(ss, cs, wanted)).error.None?
    requires i < |ss| && j < |Kept(cs, wanted)|
    ensures var rows := FlattenFrom(organisations, rates, categories, a, s, data, Visits(ss, cs, wanted)).rows;
      var n := ModelFlat.Offset(i, |Kept(cs, wanted)|) + j;
      |rows| == ModelFlat.Offset(|ss|, |Kept(cs, wanted)|) && n < |rows| &&
      RowFor(rows[n], (ss[i], Kept(cs, wanted)[j]), categories)
  {
    var vs, kept := Visits(ss, cs, wanted), Kept(cs, wanted);
    VisitsCount(ss, cs, wanted);
    VisitsAt(ss, cs, wanted, i, j);
    RowAt(organisations, rates, categories, a, s, data, vs,
          ModelFlat.Offset(i, |kept|) + j, (ss[i], kept[j]), ModelFlat.Offset(|ss|, |kept|));
  }

  /** Row `n` of a complete flattening of `count` visits is for visit `n`,
      and there are `count` rows. */
  lemma RowAt(organisations: map<string, string>, rates: RateTable, categories: map<string, string>,
              a: ActivityEl, s: TxState, data: map<string, Entry>,
              vs: seq<(Allocation, Allocation)>, n: nat, v: (Allocation, Allocation), count: nat)
    requires FlattenFrom(organisations, rates, categories, a, s, data, vs).error.None?
    requires |vs| == count && n < count && vs[n] == v
    ensures var rows := FlattenFrom(organisations, rates, categories, a, s, data, vs).rows;
      |rows| == count && n < |rows| && RowFor(rows[n], v, categories)
  {
    FlattenFromCount(organisations, rates, categories, a, s, data, vs);
    FlattenFromOrder(organisations, rates, categories, a, s, data, vs, n);
  }

  /** `flatten_transaction` raises AttributeError, having yielded nothing,
      when the sectors were never set, or there are sectors and the countries
      were never set (the record `process_transaction` left at its `hasattr`
      return); otherwise it flattens the visits. */
  lemma FlattenVisits(organisations: map<string, string>, rates: RateTable, categories: map<string, string>,
                      wanted: set<string>, a: ActivityEl, s: TxState, data: map<string, Entry>)
    ensures var f := Flatten(organisations, rates, categories, wanted, a, s, data);
      if s.sectors.None? || (s.sectors.value != [] && s.countries.None?) then f.error == Some(AttributeError) && f.rows == []
      else f == FlattenFrom(organisations, rates, categories, a, s, data,
                            Visits(s.sectors.value, if s.countries.Some? then s.countries.value else [], wanted))
  {
  }

  lemma ConsAt<T>(x: T, ys: seq<T>, k: nat)
    requires 0 < k <= |ys|
    ensures ([x] + ys)[k] == ys[k - 1]
  {
  }
}
