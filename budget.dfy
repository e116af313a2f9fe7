/** `FlatIATIBudget` of `iatiflattener/budget.py`: the budgets of one activity.
    `process_activity` fills the activity-level attributes from the memo,
    splits the budgets into quarters, and resolves sectors, places, aid types
    and finance types (memo first, then the activity element, then the
    activity's transactions); `budget_data` turns one quarter into a CSV row
    scaled by the four allocations; `flatten_budget` produces the rows, sector
    outermost and budget period innermost. */
module Budget {
  import opened Wrappers
  import opened Text
  import opened Utils
  import opened Iati
  import opened IatiHelpers
  import opened TransactionHelpers
  import opened BudgetHelpers
  import opened Activity
  import Transaction
  import ModelRecords
  import ModelBudgets
  import ModelFlat
  import Fanout

  /** `get_org(organisations, activity_data, activity, provider)` of
      `lib/iati_helpers.py`, which is not part of this model: a parameter. */
  type ActivityOrgResolver = (map<string, string>, Entry, ActivityEl, bool) -> OrgRecord

  /** The record's attributes (None where the source's attribute is None or was
      never set). `attrs` holds the activity-level ones `set_data` fills;
      `aidTypes` and `financeTypes` are the lists `process_activity` puts in
      place of the `aid_type` and `finance_type` attributes; `period` is the
      budget period whose keys `budget_data` last copied onto the record. */
  datatype BudgetState = BudgetState(
    iatiIdentifier: Option<string>,
    attrs: Attrs,
    budgets: Option<seq<PeriodRow>>,
    sectors: Option<seq<Allocation>>,
    countries: Option<seq<Allocation>>,
    multiCountry: Option<int>,
    aidTypes: Option<seq<Allocation>>,
    financeTypes: Option<seq<Allocation>>,
    providerOrg: Option<OrgRecord>,
    receiverOrg: Option<OrgRecord>,
    period: Option<PeriodRow>,
    output: bool)

  /** The record after `set_headers()`. */
  const Initial: BudgetState :=
    BudgetState(None, Transaction.BlankAttrs, None, None, None, None, None, None, None, None, None, false)

  /** `self.currency_original` as the rate table and the derivations use it. */
  function Currency(s: BudgetState): Option<string> {
    Transaction.CurrencyOf(Transaction.AttrValue(s.attrs, "currency_original"))
  }

  // ------------------------------------------------------------ process_activity

  /** `get_budgets(activity, currency_original, exchange_rates)`. */
  function BudgetsOf(a: ActivityEl, currency: Option<string>, rates: RateTable): Result<seq<PeriodRow>> {
    var list :- BudgetList(a.budgets, currency);
    Periods(rates, list)
  }

  /** Sectors: the memoised list, else the activity's DAC sectors, else the
      derivation from the activity's commitment transactions. Nothing is
      memoised. */
  function SectorsFor(a: ActivityEl, entry: Entry, currency: Option<string>): (r: Result<seq<Allocation>>)
    ensures Transaction.StoredList(entry, "sectors") != [] ==> r == CleanSectors(Transaction.StoredList(entry, "sectors"))
    ensures Transaction.StoredList(entry, "sectors") == [] && Dac(a.sectors) != [] ==> r == CleanSectors(Dac(a.sectors))
    ensures Transaction.StoredList(entry, "sectors") == [] && Dac(a.sectors) == [] ==> r == SectorsFromTransactions(a, currency)
  {
    if Transaction.StoredList(entry, "sectors") != [] then CleanSectors(Transaction.StoredList(entry, "sectors"))
    else if Dac(a.sectors) != [] then CleanSectors(Dac(a.sectors))
    else SectorsFromTransactions(a, currency)
  }

  /** A cleaner's or derivation's list as a found value; its exception propagates. */
  function FoundSome(cleaned: Result<seq<Allocation>>): Result<Option<seq<Allocation>>> {
    match cleaned
    case Ok(xs) => Ok(Some(xs))
    case Err(e) => Err(e)
  }

  /** Countries and regions: the memoised lists, else the activity's, else the
      derivation from the transactions when it finds any; None when nothing
      was found (the attribute is then never set). Nothing is memoised. */
  function CountriesFor(a: ActivityEl, entry: Entry, currency: Option<string>): (r: Result<Option<seq<Allocation>>>)
    ensures r.Ok? && r.value.None? <==>
      Transaction.StoredList(entry, "recipient_countries") == [] && Transaction.StoredList(entry, "recipient_regions") == [] &&
      a.countries == [] && Dac(a.regions) == [] && CountriesFromTransactions(a, currency) == Ok([])
    ensures Transaction.StoredList(entry, "recipient_countries") != [] || Transaction.StoredList(entry, "recipient_regions") != [] ==>
      r == FoundSome(CleanCountries(Transaction.StoredList(entry, "recipient_countries"), Transaction.StoredList(entry, "recipient_regions")))
    ensures (Transaction.StoredList(entry, "recipient_countries") == [] && Transaction.StoredList(entry, "recipient_regions") == [] &&
             (a.countries != [] || Dac(a.regions) != [])) ==>
      r == FoundSome(CleanCountries(a.countries, Dac(a.regions)))
    ensures (Transaction.StoredList(entry, "recipient_countries") == [] && Transaction.StoredList(entry, "recipient_regions") == [] &&
             a.countries == [] && Dac(a.regions) == [] && CountriesFromTransactions(a, currency) != Ok([])) ==>
      r == FoundSome(CountriesFromTransactions(a, currency))
  {
    var cc := Transaction.StoredList(entry, "recipient_countries");
    var cr := Transaction.StoredList(entry, "recipient_regions");
    if cc != [] || cr != [] then
      var cs :- CleanCountries(cc, cr);
      Ok(Some(cs))
    else if a.countries != [] || Dac(a.regions) != [] then
      var cs :- CleanCountries(a.countries, Dac(a.regions));
      Ok(Some(cs))
    else
      var derived :- CountriesFromTransactions(a, currency);
      if derived != [] then Ok(Some(derived)) else Ok(None)
  }

  /** The aid-type or finance-type list: `{}` (no default element) is derived
      from the transactions, anything else becomes one allocation of 100% to
      its code; `.get` on None or a list raises. */
  function TypeList(v: Option<Val>, derived: Result<seq<Allocation>>): (r: Result<seq<Allocation>>)
    ensures v == Some(EmptyDict) ==> r == derived
    ensures v != Some(EmptyDict) ==> r == (match Transaction.CodeOf(v) case Ok(c) => Ok([Allocation(c, 100.0)]) case Err(e) => Err(e))
  {
    if v == Some(EmptyDict) then derived
    else
      var code :- Transaction.CodeOf(v);
      Ok([Allocation(code, 100.0)])
  }

  /** The record and the memo after `process_activity`, and the exception
      raised, if any. */
  datatype BudgetProcessed = BudgetProcessed(state: BudgetState, data: map<string, Entry>, error: Option<Error>)

  /** The record after a step of `process_activity`, and the exception raised. */
  datatype Outcome = Outcome(state: BudgetState, error: Option<Error>)

  /** `process_activity()` from record `s` and memo `data`: the identifier, an
      entry for it, the memo fill, then the budgets. */
  function Process(organisations: map<string, string>, getOrg: ActivityOrgResolver, rates: RateTable,
                   a: ActivityEl, s: BudgetState, data: map<string, Entry>): BudgetProcessed
  {
    var id := a.identifier;
    var d0 := if id in data then data else data[id := map[]];
    var s0 := s.(iatiIdentifier := Some(id));
    var f := Fill(a, organisations, id, Memo(s0.attrs, d0), ActivityFunctions);
    var s1 := s0.(attrs := f.memo.attrs);
    if f.error.Some? then BudgetProcessed(s1, f.memo.data, f.error)
    else
      FillKeepsId(a, organisations, id, Memo(s0.attrs, d0), ActivityFunctions);
      var o := FromBudgets(organisations, getOrg, a, f.memo.data[id], BudgetsOf(a, Currency(s1), rates), s1);
      BudgetProcessed(o.state, f.memo.data, o.error)
  }

  /** The budgets, `budgets` being what `get_budgets` returned or raised; then
      the sectors. `entry` is the activity's memo entry. */
  function FromBudgets(organisations: map<string, string>, getOrg: ActivityOrgResolver, a: ActivityEl,
                       entry: Entry, budgets: Result<seq<PeriodRow>>, s: BudgetState): Outcome
  {
    match budgets
    case Err(e) => Outcome(s, Some(e))
    case Ok(ps) =>
      var s1 := s.(budgets := Some(ps));
      FromSectors(organisations, getOrg, a, entry, SectorsFor(a, entry, Currency(s1)), s1)
  }

  /** The sectors, `sectors` being their resolution; then the places. */
  function FromSectors(organisations: map<string, string>, getOrg: ActivityOrgResolver, a: ActivityEl,
                       entry: Entry, sectors: Result<seq<Allocation>>, s: BudgetState): Outcome
  {
    match sectors
    case Err(e) => Outcome(s, Some(e))
    case Ok(ss) =>
      var s1 := s.(sectors := Some(ss));
      FromCountries(organisations, getOrg, a, entry, CountriesFor(a, entry, Currency(s1)), s1)
  }

  /** The places, `countries` being their resolution; without any, the record
      stays without output. Then `multi_country` and the types. */
  function FromCountries(organisations: map<string, string>, getOrg: ActivityOrgResolver, a: ActivityEl,
                         entry: Entry, countries: Result<Option<seq<Allocation>>>, s: BudgetState): Outcome
  {
    match countries
    case Err(e) => Outcome(s, Some(e))
    case Ok(None) => Outcome(s, None)
    case Ok(Some(cs)) =>
      var s1 := s.(countries := Some(cs), multiCountry := Some(ModelRecords.MultiCountry(cs)));
      FromTypes(organisations, getOrg, a, entry,
                TypeList(Transaction.AttrValue(s1.attrs, "aid_type"), AidTypeFromTransactions(a, Currency(s1))),
                TypeList(Transaction.AttrValue(s1.attrs, "finance_type"), FinanceTypeFromTransactions(a, Currency(s1))), s1)
  }

  /** The aid-type and finance-type lists, the organisations, and
      `output = True`. */
  function FromTypes(organisations: map<string, string>, getOrg: ActivityOrgResolver, a: ActivityEl,
                     entry: Entry, aid: Result<seq<Allocation>>, finance: Result<seq<Allocation>>, s: BudgetState)
    : Outcome
  {
    match aid
    case Err(e) => Outcome(s, Some(e))
    case Ok(at) =>
      var s1 := s.(aidTypes := Some(at));
      match finance
      case Err(e) => Outcome(s1, Some(e))
      case Ok(ft) =>
        Outcome(s1.(financeTypes := Some(ft), providerOrg := Some(getOrg(organisations, entry, a, true)),
                    receiverOrg := Some(getOrg(organisations, entry, a, false)), output := true), None)
  }

  // ------------------------------------------------------------ budget_data

  /** `v * (country%/100) * (sector%/100) * (aid%/100) * (finance%/100)`. */
  function Scale4(v: real, country: Allocation, sector: Allocation, aid: Allocation, finance: Allocation): real {
    v * (country.percentage / 100.0) * (sector.percentage / 100.0) * (aid.percentage / 100.0) * (finance.percentage / 100.0)
  }

  /** The record once `budget_data` has copied the period's keys onto it:
      among them `currency_original`. */
  function WithPeriod(s: BudgetState, p: PeriodRow): BudgetState {
    s.(period := Some(p), attrs := s.attrs["currency_original" := Transaction.StrOrNone(p.currency)])
  }

  /** The output list of `budget_data` for one quarter of a period and one
      country, sector, aid type and finance type; `s` is the record with the
      period's keys copied onto it. The period always has a value date and a
      value, so of the three checks only the currency one can raise. */
  function BudgetRowOf(s: BudgetState, p: PeriodRow, country: Allocation, sector: Allocation,
                       sectorCategory: string, aid: Allocation, finance: Allocation): Result<Transaction.CsvRow>
  {
    if Currency(s).None? then Err(MissingValue("currency"))
    else
      var ro :- Transaction.OrgOf(Transaction.AttrValue(s.attrs, "reporting_org"));
      var po :- Transaction.Present(s.providerOrg);
      var rv :- Transaction.Present(s.receiverOrg);
      Ok(Transaction.CsvRow(s.iatiIdentifier, Transaction.AttrValue(s.attrs, "title"), ro.display, ro.orgType, aid.code, finance.code,
                po.display, po.orgType, rv.display, rv.orgType, Some("budget"),
                Scale4(p.valueOriginal, country, sector, aid, finance), Currency(s).value,
                Scale4(p.valueUsd, country, sector, aid, finance), IsoFormat(p.valueDate), p.exchangeRate,
                Some(ModelBudgets.QuarterDate(p.fiscalYear, p.fiscalQuarter)), country.code, s.multiCountry,
                sectorCategory, sector.code, Some(0), Some(p.fiscalYear), Some("Q" + IntToString(p.fiscalQuarter))))
  }

  // ------------------------------------------------------------ flatten_budget

  /** `for x in xs: for y in ys: (x, y)`. */
  function Product<A, B>(xs: seq<A>, ys: seq<B>): seq<(A, B)> {
    if xs == [] then [] else Pairs(xs[0], ys) + Product(xs[1..], ys)
  }

  function Pairs<A, B>(x: A, ys: seq<B>): (r: seq<(A, B)>)
    ensures |r| == |ys| && forall j :: 0 <= j < |ys| ==> r[j] == (x, ys[j])
  {
    seq(|ys|, j requires 0 <= j < |ys| => (x, ys[j]))
  }

  /** What the five nested loops visit: sector, country, aid type, finance
      type, budget period. */
  type Visit = ((((Allocation, Allocation), Allocation), Allocation), PeriodRow)

  function SectorOf(v: Visit): Allocation { v.0.0.0.0 }
  function CountryOf(v: Visit): Allocation { v.0.0.0.1 }
  function AidOf(v: Visit): Allocation { v.0.0.1 }
  function FinanceOf(v: Visit): Allocation { v.0.1 }
  function PeriodOf(v: Visit): PeriodRow { v.1 }

  /** The visits in loop order, countries outside `wanted` skipped. */
  function BudgetVisits(ss: seq<Allocation>, cs: seq<Allocation>, wanted: set<string>, aids: seq<Allocation>,
                        fins: seq<Allocation>, ps: seq<PeriodRow>): seq<Visit>
  {
    Product(Product(Product(Product(ss, Transaction.Kept(cs, wanted)), aids), fins), ps)
  }

  /** What the generator has yielded when it stops: the record, the rows in
      order, and the exception that ended it early, if any. */
  datatype BudgetFlattened = BudgetFlattened(state: BudgetState, rows: seq<Transaction.CsvRow>, error: Option<Error>)

  /** `budget_data` called for each visit in turn, the record threaded through. */
  function FlattenFrom(categories: map<string, string>, s: BudgetState, vs: seq<Visit>): BudgetFlattened
    decreases |vs|
  {
    if vs == [] then BudgetFlattened(s, [], None)
    else
      var v := vs[0];
      var s1 := WithPeriod(s, PeriodOf(v));
      var row := BudgetRowOf(s1, PeriodOf(v), CountryOf(v), SectorOf(v),
                             GetSectorCategory(Some(SectorOf(v).code), categories), AidOf(v), FinanceOf(v));
      if row.Err? then BudgetFlattened(s1, [], Some(row.error))
      else
        var rest := FlattenFrom(categories, s1, vs[1..]);
        BudgetFlattened(rest.state, [row.value] + rest.rows, rest.error)
  }

  /** A list attribute that is iterated: None where no list was set. */
  function Listed<T>(o: Option<seq<T>>): seq<T> {
    if o.Some? then o.value else []
  }

  /** The exception the nested loops of `flatten_budget` raise on reaching a
      list that is not there, before any row is yielded, or None. `sectors`,
      `countries` and `budgets` are not among the attributes `set_headers`
      creates, so a None there is an attribute never set (AttributeError).
      `aidTypes` and `financeTypes` are None while the `aid_type` and
      `finance_type` attributes still hold the None `set_headers` gave them,
      and iterating None raises TypeError; `process_activity` never leaves a
      record with countries but without these two lists. A loop is reached
      only when every loop around it has an element to visit. */
  function LoopError(s: BudgetState, wanted: set<string>): Option<Error> {
    if s.sectors.None? then Some(AttributeError)
    else if s.sectors.value == [] then None
    else if s.countries.None? then Some(AttributeError)
    else if Transaction.Kept(s.countries.value, wanted) == [] then None
    else if s.aidTypes.None? then Some(TypeError)
    else if s.aidTypes.value == [] then None
    else if s.financeTypes.None? then Some(TypeError)
    else if s.financeTypes.value == [] then None
    else if s.budgets.None? then Some(AttributeError)
    else None
  }

  /** `flatten_budget()`, consumed to the end. */
  function Flatten(categories: map<string, string>, wanted: set<string>, s: BudgetState): BudgetFlattened {
    if LoopError(s, wanted).Some? then BudgetFlattened(s, [], LoopError(s, wanted))
    else
      FlattenFrom(categories, s, BudgetVisits(Listed(s.sectors), Listed(s.countries), wanted, Listed(s.aidTypes),
                                              Listed(s.financeTypes), Listed(s.budgets)))
  }

  // ------------------------------------------------------------ the record

  /** A `FlatIATIBudget` object; its attributes are one record value,
      `record`, that the methods update in place. */
  class FlatIatiBudget {
    const flattener: Flattener
    const activity: ActivityEl
    var record: BudgetState

    /** `__init__` up to `set_headers()`; `ProcessActivity` is the rest. */
    constructor (flattener: Flattener, activity: ActivityEl)
      ensures this.flattener == flattener && this.activity == activity && record == Initial
    {
      this.flattener := flattener;
      this.activity := activity;
      record := Initial;
    }

    /** `process_activity()`. */
    method ProcessActivity(getOrg: ActivityOrgResolver) returns (error: Option<Error>)
      modifies this, flattener
      ensures BudgetProcessed(record, flattener.activityData, error) ==
        Process(flattener.organisations, getOrg, flattener.exchangeRates, activity, old(record),
                old(flattener.activityData))
    {
      var id := activity.identifier;
      record := record.(iatiIdentifier := Some(id));
      if id !in flattener.activityData {
        flattener.activityData := flattener.activityData[id := map[]];
      }
      ghost var before := Memo(record.attrs, flattener.activityData);
      var filled, failed := SetData(flattener, activity, record.attrs);
      record := record.(attrs := filled);
      if failed.Some? {
        return failed;
      }
      FillKeepsId(activity, flattener.organisations, id, before, ActivityFunctions);
      var entry := flattener.activityData[id];
      var budgets := GetBudgets(activity.budgets, Currency(record), flattener.exchangeRates);
      if budgets.Err? {
        return Some(budgets.error);
      }
      record := record.(budgets := Some(budgets.value));
      error := StepSectors(getOrg, entry);
    }

    /** The sectors: the memoised list, else the activity's DAC sectors, else
        the transactions'; then the places. */
    method StepSectors(getOrg: ActivityOrgResolver, entry: Entry) returns (error: Option<Error>)
      modifies this
      ensures Outcome(record, error) ==
        FromSectors(flattener.organisations, getOrg, activity, entry,
                    SectorsFor(activity, entry, Currency(old(record))), old(record))
    {
      var sectors;
      var dataSectors := Transaction.StoredList(entry, "sectors");
      if |dataSectors| != 0 {
        sectors := CleanSectors(dataSectors);
      } else {
        dataSectors := Dac(activity.sectors);
        if |dataSectors| != 0 {
          sectors := CleanSectors(dataSectors);
        } else {
          sectors := SectorsFromTransactions(activity, Currency(record));
        }
      }
      if sectors.Err? {
        return Some(sectors.error);
      }
      record := record.(sectors := Some(sectors.value));
      error := StepCountries(getOrg, entry);
    }

    /** The places: the memoised lists, else the activity's, else the
        transactions' when there are any; without any, processing ends. */
    method StepCountries(getOrg: ActivityOrgResolver, entry: Entry) returns (error: Option<Error>)
      modifies this
      ensures Outcome(record, error) ==
        FromCountries(flattener.organisations, getOrg, activity, entry,
                      CountriesFor(activity, entry, Currency(old(record))), old(record))
    {
      var found: Option<seq<Allocation>> := None;
      var dataCountries := Transaction.StoredList(entry, "recipient_countries");
      var dataRegions := Transaction.StoredList(entry, "recipient_regions");
      if |dataCountries| != 0 || |dataRegions| != 0 {
        var cleaned := CleanCountries(dataCountries, dataRegions);
        if cleaned.Err? {
          return Some(cleaned.error);
        }
        found := Some(cleaned.value);
      } else {
        dataCountries := activity.countries;
        dataRegions := Dac(activity.regions);
        if |dataCountries| != 0 || |dataRegions| != 0 {
          var cleaned := CleanCountries(dataCountries, dataRegions);
          if cleaned.Err? {
            return Some(cleaned.error);
          }
          found := Some(cleaned.value);
        } else {
          var derived := CountriesFromTransactions(activity, Currency(record));
          if derived.Err? {
            return Some(derived.error);
          }
          if |derived.value| != 0 {
            found := Some(derived.value);
          }
        }
      }
      if found.None? {
        return None;
      }
      record := record.(countries := found, multiCountry := Some(if |found.value| > 1 then 1 else 0));
      error := StepTypes(getOrg, entry);
    }

    /** The aid-type and finance-type lists, the organisations, `output`. */
    method StepTypes(getOrg: ActivityOrgResolver, entry: Entry) returns (error: Option<Error>)
      modifies this
      ensures Outcome(record, error) ==
        FromTypes(flattener.organisations, getOrg, activity, entry,
                  TypeList(Transaction.AttrValue(old(record).attrs, "aid_type"), AidTypeFromTransactions(activity, Currency(old(record)))),
                  TypeList(Transaction.AttrValue(old(record).attrs, "finance_type"), FinanceTypeFromTransactions(activity, Currency(old(record)))),
                  old(record))
    {
      var currency := Currency(record);
      var aidType := Transaction.AttrValue(record.attrs, "aid_type");
      var financeType := Transaction.AttrValue(record.attrs, "finance_type");
      if aidType == Some(EmptyDict) {
        var derived := AidTypeFromTransactions(activity, currency);
        if derived.Err? {
          return Some(derived.error);
        }
        record := record.(aidTypes := Some(derived.value));
      } else {
        var code := Transaction.CodeOf(aidType);
        if code.Err? {
          return Some(code.error);
        }
        record := record.(aidTypes := Some([Allocation(code.value, 100.0)]));
      }
      if financeType == Some(EmptyDict) {
        var derived := FinanceTypeFromTransactions(activity, currency);
        if derived.Err? {
          return Some(derived.error);
        }
        record := record.(financeTypes := Some(derived.value));
      } else {
        var code := Transaction.CodeOf(financeType);
        if code.Err? {
          return Some(code.error);
        }
        record := record.(financeTypes := Some([Allocation(code.value, 100.0)]));
      }
      record := record.(providerOrg := Some(getOrg(flattener.organisations, entry, activity, true)));
      record := record.(receiverOrg := Some(getOrg(flattener.organisations, entry, activity, false)));
      record := record.(output := true);
      return None;
    }

    /** `budget_data(country, sector, sector_category, aid_type, finance_type,
        budget)`: the period's keys copied onto the record, the checks, the
        row. */
    method BudgetData(country: Allocation, sector: Allocation, sectorCategory: string, aid: Allocation,
                      finance: Allocation, budget: PeriodRow) returns (row: Result<Transaction.CsvRow>)
      modifies this
      ensures record == WithPeriod(old(record), budget)
      ensures row == BudgetRowOf(record, budget, country, sector, sectorCategory, aid, finance)
    {
      record := record.(period := Some(budget));
      record := record.(attrs := record.attrs["currency_original" := Transaction.StrOrNone(budget.currency)]);
      if Currency(record).None? {
        return Err(MissingValue("currency"));
      }
      row := BudgetRowOf(record, budget, country, sector, sectorCategory, aid, finance);
    }

    /** `flatten_budget()`, consumed to the end: the rows yielded and the
        exception that stopped the generator, if any. The five nested loops
        run over their visits in order, as one loop. */
    method FlattenBudget() returns (rows: seq<Transaction.CsvRow>, error: Option<Error>)
      modifies this
      ensures BudgetFlattened(record, rows, error) ==
        Flatten(flattener.categoryGroup, flattener.countries, old(record))
    {
      rows, error := [], None;
      error := LoopError(record, flattener.countries);
      if error.Some? {
        return;
      }
      var cats := flattener.categoryGroup;
      var vs := BudgetVisits(Listed(record.sectors), Listed(record.countries), flattener.countries,
                             Listed(record.aidTypes), Listed(record.financeTypes), Listed(record.budgets));
      ghost var whole := FlattenFrom(cats, record, vs);
      for k := 0 to |vs|
        invariant var rest := FlattenFrom(cats, record, vs[k..]);
          BudgetFlattened(rest.state, rows + rest.rows, rest.error) == whole
      {
        var v := vs[k];
        assert vs[k..][0] == v && vs[k..][1..] == vs[k + 1..];
        var row := BudgetData(CountryOf(v), SectorOf(v), GetSectorCategory(Some(SectorOf(v).code), cats),
                              AidOf(v), FinanceOf(v), PeriodOf(v));
        if row.Err? {
          error := Some(row.error);
          return;
        }
        assert rows + ([row.value] + FlattenFrom(cats, record, vs[k + 1..]).rows) ==
          (rows + [row.value]) + FlattenFrom(cats, record, vs[k + 1..]).rows;
        rows := rows + [row.value];
      }
      assert vs[|vs|..] == [];
      assert rows + [] == rows;
    }
  }

  // ------------------------------------------------------------ properties of flatten_budget

  /** A pair is in the product exactly when each half is in its list. */
  lemma {:induction false} ProductMembers<A, B>(xs: seq<A>, ys: seq<B>, p: (A, B))
    ensures p in Product(xs, ys) <==> p.0 in xs && p.1 in ys
    decreases |xs|
  {
    if xs != [] {
      ProductMembers(xs[1..], ys, p);
      var b := Pairs(xs[0], ys);
      if p in b {
        var j :| 0 <= j < |b| && b[j] == p;
      }
      if p.0 == xs[0] && p.1 in ys {
        var j :| 0 <= j < |ys| && ys[j] == p.1;
        assert b[j] == p;
      }
      assert p.0 in xs <==> p.0 == xs[0] || p.0 in xs[1..];
    }
  }

  /** Pair `Offset(i, |ys|) + j` of the product is `(xs[i], ys[j])`: the first
      list outermost. */
  lemma {:induction false} ProductAt<A, B>(xs: seq<A>, ys: seq<B>, i: nat, j: nat)
    requires i < |xs| && j < |ys|
    ensures |Product(xs, ys)| == ModelFlat.Offset(|xs|, |ys|)
    ensures ModelFlat.Offset(i, |ys|) + j < |Product(xs, ys)|
    ensures Product(xs, ys)[ModelFlat.Offset(i, |ys|) + j] == (xs[i], ys[j])
    decreases |xs|
  {
    ProductCount(xs[1..], ys);
    if i > 0 {
      ProductAt(xs[1..], ys, i - 1, j);
    }
  }

  lemma {:induction false} ProductCount<A, B>(xs: seq<A>, ys: seq<B>)
    ensures |Product(xs, ys)| == ModelFlat.Offset(|xs|, |ys|)
    decreases |xs|
  {
    if xs != [] {
      ProductCount(xs[1..], ys);
    }
  }

  /** The product has `|xs| * |ys|` pairs. */
  lemma ProductSize<A, B>(xs: seq<A>, ys: seq<B>)
    ensures |Product(xs, ys)| == |xs| * |ys|
  {
    ProductCount(xs, ys);
    ModelFlat.OffsetIsProduct(|xs|, |ys|);
  }

  /** A visit is made exactly when its sector, country, aid type, finance type
      and period are in their lists and the country's code is wanted. */
  lemma VisitMembers(ss: seq<Allocation>, cs: seq<Allocation>, wanted: set<string>, aids: seq<Allocation>,
                     fins: seq<Allocation>, ps: seq<PeriodRow>, v: Visit)
    ensures v in BudgetVisits(ss, cs, wanted, aids, fins, ps) <==>
      SectorOf(v) in ss && CountryOf(v) in cs && CountryOf(v).code in wanted &&
      AidOf(v) in aids && FinanceOf(v) in fins && PeriodOf(v) in ps
  {
    var k := Transaction.Kept(cs, wanted);
    ProductMembers(Product(Product(Product(ss, k), aids), fins), ps, v);
    ProductMembers(Product(Product(ss, k), aids), fins, v.0);
    ProductMembers(Product(ss, k), aids, v.0.0);
    ProductMembers(ss, k, v.0.0.0);
    Transaction.KeptMembers(cs, wanted, v.0.0.0.1);
  }

  /** `|sectors| * |wanted countries| * |aid types| * |finance types| * |periods|` visits. */
  lemma VisitsCount(ss: seq<Allocation>, cs: seq<Allocation>, wanted: set<string>, aids: seq<Allocation>,
                    fins: seq<Allocation>, ps: seq<PeriodRow>)
    ensures |BudgetVisits(ss, cs, wanted, aids, fins, ps)| ==
      |ss| * |Transaction.Kept(cs, wanted)| * |aids| * |fins| * |ps|
  {
    var k := Transaction.Kept(cs, wanted);
    ProductSize(ss, k);
    ProductSize(Product(ss, k), aids);
    ProductSize(Product(Product(ss, k), aids), fins);
    ProductSize(Product(Product(Product(ss, k), aids), fins), ps);
  }

  /** The period loop is innermost: for one sector, country, aid type and
      finance type, the periods in order. */
  lemma PeriodsInnermost(ss: seq<Allocation>, cs: seq<Allocation>, wanted: set<string>, aids: seq<Allocation>,
                         fins: seq<Allocation>, ps: seq<PeriodRow>, i: nat, j: nat)
    requires var outer := Product(Product(Product(ss, Transaction.Kept(cs, wanted)), aids), fins);
      i < |outer| && j < |ps|
    ensures var outer := Product(Product(Product(ss, Transaction.Kept(cs, wanted)), aids), fins);
      var n := ModelFlat.Offset(i, |ps|) + j;
      n < |BudgetVisits(ss, cs, wanted, aids, fins, ps)| &&
      BudgetVisits(ss, cs, wanted, aids, fins, ps)[n] == (outer[i], ps[j])
  {
    ProductAt(Product(Product(Product(ss, Transaction.Kept(cs, wanted)), aids), fins), ps, i, j);
  }

  // ------------------------------------------------------------ properties of budget_data

  /** The period's currency becomes the record's. */
  lemma WithPeriodCurrency(s: BudgetState, p: PeriodRow)
    ensures Currency(WithPeriod(s, p)) == p.currency
    ensures WithPeriod(s, p).(attrs := s.attrs, period := s.period) == s
  {
  }

  /** A row is refused only for a missing currency (MissingValue) or a missing
      reporting, provider or receiver organisation (AttributeError). */
  lemma BudgetRowChecks(s: BudgetState, p: PeriodRow, country: Allocation, sector: Allocation,
                        sectorCategory: string, aid: Allocation, finance: Allocation)
    ensures var r := BudgetRowOf(s, p, country, sector, sectorCategory, aid, finance);
      r.Err? <==> (Currency(s).None? || Transaction.OrgOf(Transaction.AttrValue(s.attrs, "reporting_org")).Err? ||
                   s.providerOrg.None? || s.receiverOrg.None?)
    ensures var r := BudgetRowOf(s, p, country, sector, sectorCategory, aid, finance);
      Currency(s).None? ==> r == Err(MissingValue("currency"))
    ensures var r := BudgetRowOf(s, p, country, sector, sectorCategory, aid, finance);
      Currency(s).Some? && r.Err? ==> r.error == AttributeError
  {
  }

  /** `v * c * s * a * f` is `v` times the combination's factor. */
  lemma Scale4IsFactor(v: real, country: Allocation, sector: Allocation, aid: Allocation, finance: Allocation)
    ensures Scale4(v, country, sector, aid, finance) == v * Fanout.Factor([country, sector, aid, finance])
  {
    var c := [country, sector, aid, finance];
    assert c[1..] == [sector, aid, finance] && c[1..][1..] == [aid, finance] && c[1..][1..][1..] == [finance];
    assert c[1..][1..][1..][1..] == [];
    var x := country.percentage / 100.0;
    var y := sector.percentage / 100.0;
    var z := aid.percentage / 100.0;
    var w := finance.percentage / 100.0;
    assert Fanout.Factor(c[1..][1..][1..]) == w * 1.0;
    assert Fanout.Factor(c[1..][1..]) == z * (w * 1.0);
    assert Fanout.Factor(c[1..]) == y * (z * (w * 1.0));
    assert Fanout.Factor(c) == x * (y * (z * (w * 1.0)));
    assert v * x * y * z * w == v * (x * (y * (z * (w * 1.0))));
  }

  /** Both values are the quarter's scaled by the four allocations' factor in
      the order country, sector, aid type, finance type; where the quarter's
      dollar value is its original value over the rate, so is the row's. */
  lemma BudgetRowScaled(s: BudgetState, p: PeriodRow, country: Allocation, sector: Allocation,
                        sectorCategory: string, aid: Allocation, finance: Allocation)
    requires BudgetRowOf(s, p, country, sector, sectorCategory, aid, finance).Ok?
    ensures var row := BudgetRowOf(s, p, country, sector, sectorCategory, aid, finance).value;
      row.valueOriginal == p.valueOriginal * Fanout.Factor([country, sector, aid, finance]) &&
      row.valueUsd == p.valueUsd * Fanout.Factor([country, sector, aid, finance]) &&
      row.exchangeRate == p.exchangeRate &&
      (p.exchangeRate != 0.0 && p.valueUsd == p.valueOriginal / p.exchangeRate ==>
        row.valueUsd == row.valueOriginal / row.exchangeRate)
  {
    Scale4IsFactor(p.valueOriginal, country, sector, aid, finance);
    Scale4IsFactor(p.valueUsd, country, sector, aid, finance);
    if p.exchangeRate != 0.0 && p.valueUsd == p.valueOriginal / p.exchangeRate {
      var f := Fanout.Factor([country, sector, aid, finance]);
      assert p.valueOriginal / p.exchangeRate * f == p.valueOriginal * f / p.exchangeRate;
    }
  }

  /** The flow type plays no part in a budget row. */
  lemma BudgetRowIgnoresFlowType(s: BudgetState, p: PeriodRow, country: Allocation, sector: Allocation,
                                 sectorCategory: string, aid: Allocation, finance: Allocation, flow: Option<Val>)
    ensures BudgetRowOf(s.(attrs := s.attrs["flow_type" := flow]), p, country, sector, sectorCategory, aid, finance) ==
      BudgetRowOf(s, p, country, sector, sectorCategory, aid, finance)
  {
    var t := s.(attrs := s.attrs["flow_type" := flow]);
    assert Transaction.AttrValue(t.attrs, "reporting_org") == Transaction.AttrValue(s.attrs, "reporting_org");
    assert Transaction.AttrValue(t.attrs, "title") == Transaction.AttrValue(s.attrs, "title");
    assert Currency(t) == Currency(s);
  }

  /** A budget row's labels: type "budget", no COVID-19 match, the period's
      year, "Q1".."Q4", a transaction date on the first of the quarter's month
      "0", "3", "6" or "9" (unpadded, as written), and the period's value date. */
  lemma BudgetRowLabels(s: BudgetState, p: PeriodRow, country: Allocation, sector: Allocation,
                        sectorCategory: string, aid: Allocation, finance: Allocation)
    requires BudgetRowOf(s, p, country, sector, sectorCategory, aid, finance).Ok?
    requires 1 <= p.fiscalQuarter <= 4
    ensures var row := BudgetRowOf(s, p, country, sector, sectorCategory, aid, finance).value;
      row.transactionType == Some("budget") && row.covid19 == Some(0) &&
      row.fiscalYear == Some(p.fiscalYear) &&
      row.fiscalQuarter == Some(['Q', ('0' as int + p.fiscalQuarter) as char]) &&
      row.transactionDate == Some(IntToString(p.fiscalYear) + "-" + ["0", "3", "6", "9"][p.fiscalQuarter - 1] + "-01") &&
      row.valueDate == IsoFormat(p.valueDate) &&
      row.currencyOriginal == Currency(s).value
  {
    QuarterStrings(p.fiscalQuarter);
  }

  lemma QuarterStrings(q: int)
    requires 1 <= q <= 4
    ensures "Q" + IntToString(q) == ['Q', ('0' as int + q) as char]
    ensures IntToString((q - 1) * 3) == ["0", "3", "6", "9"][q - 1]
  {
    assert IntToString(q) == [('0' as int + q) as char];
    var m := (q - 1) * 3;
    assert 0 <= m < 10;
    assert IntToString(m) == [('0' as int + m) as char];
  }

  // ------------------------------------------------------------ properties of flatten_budget rows

  /** `row` is for visit `v`: its country, sector, category, aid and finance
      codes, its year, and its values scaled from the visit's period. */
  predicate BudgetRowFor(row: Transaction.CsvRow, v: Visit, categories: map<string, string>) {
    row.country == CountryOf(v).code && row.sector == SectorOf(v).code &&
    row.sectorCategory == GetSectorCategory(Some(SectorOf(v).code), categories) &&
    row.aidType == AidOf(v).code && row.financeType == FinanceOf(v).code &&
    row.fiscalYear == Some(PeriodOf(v).fiscalYear) &&
    row.valueOriginal == Scale4(PeriodOf(v).valueOriginal, CountryOf(v), SectorOf(v), AidOf(v), FinanceOf(v)) &&
    row.valueUsd == Scale4(PeriodOf(v).valueUsd, CountryOf(v), SectorOf(v), AidOf(v), FinanceOf(v))
  }

  /** Without an exception, one row per visit; with one, fewer rows than
      visits. */
  lemma {:induction false} FlattenFromCount(categories: map<string, string>, s: BudgetState, vs: seq<Visit>)
    ensures var f := FlattenFrom(categories, s, vs);
      (f.error.None? ==> |f.rows| == |vs|) && (f.error.Some? ==> |f.rows| < |vs|)
    decreases |vs|
  {
    if vs != [] {
      FlattenFromCount(categories, WithPeriod(s, PeriodOf(vs[0])), vs[1..]);
    }
  }

  /** Row `k` is for visit `k`. */
  lemma {:induction false} FlattenFromOrder(categories: map<string, string>, s: BudgetState, vs: seq<Visit>, k: nat)
    requires k < |FlattenFrom(categories, s, vs).rows|
    ensures k < |vs| && BudgetRowFor(FlattenFrom(categories, s, vs).rows[k], vs[k], categories)
    decreases |vs|
  {
    var v := vs[0];
    var s1 := WithPeriod(s, PeriodOf(v));
    var row := BudgetRowOf(s1, PeriodOf(v), CountryOf(v), SectorOf(v),
                           GetSectorCategory(Some(SectorOf(v).code), categories), AidOf(v), FinanceOf(v));
    var rest := FlattenFrom(categories, s1, vs[1..]);
    assert row.Ok? && FlattenFrom(categories, s, vs).rows == [row.value] + rest.rows;
    if k == 0 {
      BudgetRowOfFor(categories, s, v);
    } else {
      FlattenFromOrder(categories, s1, vs[1..], k - 1);
      Transaction.ConsAt(row.value, rest.rows, k);
      assert vs[1..][k - 1] == vs[k];
    }
  }

  /** The row `budget_data` yields for a visit is for that visit. */
  lemma BudgetRowOfFor(categories: map<string, string>, s: BudgetState, v: Visit)
    ensures var s1 := WithPeriod(s, PeriodOf(v));
      var row := BudgetRowOf(s1, PeriodOf(v), CountryOf(v), SectorOf(v),
                             GetSectorCategory(Some(SectorOf(v).code), categories), AidOf(v), FinanceOf(v));
      row.Ok? ==> BudgetRowFor(row.value, v, categories)
  {
  }

  /** Flattening the visits without an exception: the row for outer
      combination `i` (sector, country, aid type, finance type) and period `j`
      is at `Offset(i, |ps|) + j`. */
  lemma FlattenFromLayout(categories: map<string, string>, s: BudgetState, ss: seq<Allocation>, cs: seq<Allocation>,
                          wanted: set<string>, aids: seq<Allocation>, fins: seq<Allocation>, ps: seq<PeriodRow>,
                          i: nat, j: nat)
    requires FlattenFrom(categories, s, BudgetVisits(ss, cs, wanted, aids, fins, ps)).error.None?
    requires i < |Product(Product(Product(ss, Transaction.Kept(cs, wanted)), aids), fins)| && j < |ps|
    ensures var rows := FlattenFrom(categories, s, BudgetVisits(ss, cs, wanted, aids, fins, ps)).rows;
      var outer := Product(Product(Product(ss, Transaction.Kept(cs, wanted)), aids), fins);
      var n := ModelFlat.Offset(i, |ps|) + j;
      n < |rows| && BudgetRowFor(rows[n], (outer[i], ps[j]), categories)
  {
    var vs := BudgetVisits(ss, cs, wanted, aids, fins, ps);
    var outer := Product(Product(Product(ss, Transaction.Kept(cs, wanted)), aids), fins);
    var n := ModelFlat.Offset(i, |ps|) + j;
    var rows := FlattenFrom(categories, s, vs).rows;
    PeriodsInnermost(ss, cs, wanted, aids, fins, ps, i, j);
    FlattenFromCount(categories, s, vs);
    FlattenFromOrder(categories, s, vs, n);
    assert vs[n] == (outer[i], ps[j]);
    assert BudgetRowFor(rows[n], vs[n], categories);
  }

  /** A refused row raises MissingValue or AttributeError, never TypeError. */
  lemma {:induction false} FlattenFromNoTypeError(categories: map<string, string>, s: BudgetState, vs: seq<Visit>)
    ensures FlattenFrom(categories, s, vs).error != Some(TypeError)
    decreases |vs|
  {
    if vs != [] {
      var v := vs[0];
      BudgetRowChecks(WithPeriod(s, PeriodOf(v)), PeriodOf(v), CountryOf(v), SectorOf(v),
                      GetSectorCategory(Some(SectorOf(v).code), categories), AidOf(v), FinanceOf(v));
      FlattenFromNoTypeError(categories, WithPeriod(s, PeriodOf(v)), vs[1..]);
    }
  }

  /** `flatten_budget` stops with the loops' exception, having yielded
      nothing, when a loop reaches a list that is not there; TypeError comes
      from nowhere else. */
  lemma FlattenLoopError(categories: map<string, string>, wanted: set<string>, s: BudgetState)
    ensures LoopError(s, wanted).Some? ==>
      Flatten(categories, wanted, s).error == LoopError(s, wanted) && Flatten(categories, wanted, s).rows == []
    ensures Flatten(categories, wanted, s).error == Some(TypeError) <==> LoopError(s, wanted) == Some(TypeError)
  {
    if LoopError(s, wanted).None? {
      FlattenFromNoTypeError(categories, s, BudgetVisits(Listed(s.sectors), Listed(s.countries), wanted,
                                                         Listed(s.aidTypes), Listed(s.financeTypes), Listed(s.budgets)));
    }
  }

  /** The record's other attributes are as before: only the period and
      `currency_original` move. */
  lemma {:induction false} FlattenFromKeeps(categories: map<string, string>, s: BudgetState, vs: seq<Visit>)
    ensures var f := FlattenFrom(categories, s, vs);
      f.state == s.(attrs := f.state.attrs, period := f.state.period) &&
      f.state.attrs.Keys == s.attrs.Keys + (if vs == [] then {} else {"currency_original"}) &&
      forall key :: key in s.attrs && key != "currency_original" ==> f.state.attrs[key] == s.attrs[key]
    decreases |vs|
  {
    if vs != [] {
      FlattenFromKeeps(categories, WithPeriod(s, PeriodOf(vs[0])), vs[1..]);
    }
  }

  /** When every visited period has a currency and the organisations are
      present, no row is refused; otherwise the one exception is never the
      missing currency. */
  lemma {:induction false} FlattenFromChecks(categories: map<string, string>, s: BudgetState, vs: seq<Visit>)
    requires forall k :: 0 <= k < |vs| ==> PeriodOf(vs[k]).currency.Some?
    ensures var f := FlattenFrom(categories, s, vs);
      (f.error.Some? ==> f.error == Some(AttributeError)) &&
      ((Transaction.OrgOf(Transaction.AttrValue(s.attrs, "reporting_org")).Ok? && s.providerOrg.Some? &&
        s.receiverOrg.Some?) ==> f.error.None?) &&
      (Transaction.OrgOf(Transaction.AttrValue(s.attrs, "reporting_org")).Err? ==> f.rows == [])
    decreases |vs|
  {
    if vs != [] {
      var v := vs[0];
      var s1 := WithPeriod(s, PeriodOf(v));
      WithPeriodCurrency(s, PeriodOf(v));
      assert Transaction.AttrValue(s1.attrs, "reporting_org") == Transaction.AttrValue(s.attrs, "reporting_org");
      BudgetRowChecks(s1, PeriodOf(v), CountryOf(v), SectorOf(v),
                      GetSectorCategory(Some(SectorOf(v).code), categories), AidOf(v), FinanceOf(v));
      assert forall k :: 0 <= k < |vs[1..]| ==> vs[1..][k] == vs[k + 1];
      FlattenFromChecks(categories, s1, vs[1..]);
    }
  }

  // ------------------------------------------------------------ properties of process_activity

  /** The record `process_activity` leaves, `entry` being the activity's memo
      entry and `error` the exception raised: with output, no exception and
      every list resolved as the derivations say; without output and without
      an exception, no place was found. */
  predicate Resolved(organisations: map<string, string>, getOrg: ActivityOrgResolver, a: ActivityEl, entry: Entry,
                     st: BudgetState, error: Option<Error>)
  {
    var cur := Currency(st);
    (st.output ==> (error.None? &&
      st.sectors.Some? && SectorsFor(a, entry, cur) == Ok(st.sectors.value) &&
      st.countries.Some? && CountriesFor(a, entry, cur) == Ok(st.countries) &&
      st.multiCountry == Some(ModelRecords.MultiCountry(st.countries.value)) &&
      st.aidTypes.Some? &&
      TypeList(Transaction.AttrValue(st.attrs, "aid_type"), AidTypeFromTransactions(a, cur)) == Ok(st.aidTypes.value) &&
      st.financeTypes.Some? &&
      TypeList(Transaction.AttrValue(st.attrs, "finance_type"), FinanceTypeFromTransactions(a, cur)) == Ok(st.financeTypes.value) &&
      st.providerOrg == Some(getOrg(organisations, entry, a, true)) &&
      st.receiverOrg == Some(getOrg(organisations, entry, a, false)))) &&
    (error.None? && !st.output ==> st.countries.None? && CountriesFor(a, entry, cur) == Ok(None))
  }

  /** The types step: output exactly when both type lists resolved; only the
      type lists, the organisations and `output` move. */
  lemma TypesOutcome(organisations: map<string, string>, getOrg: ActivityOrgResolver, a: ActivityEl,
                     entry: Entry, aid: Result<seq<Allocation>>, finance: Result<seq<Allocation>>, s: BudgetState)
    requires !s.output
    ensures var o := FromTypes(organisations, getOrg, a, entry, aid, finance, s);
      (o.state.output <==> o.error.None?) &&
      (o.error.None? <==> aid.Ok? && finance.Ok?) &&
      (o.state.output ==> (o.state.aidTypes.Some? && aid == Ok(o.state.aidTypes.value) &&
        o.state.financeTypes.Some? && finance == Ok(o.state.financeTypes.value) &&
        o.state.providerOrg == Some(getOrg(organisations, entry, a, true)) &&
        o.state.receiverOrg == Some(getOrg(organisations, entry, a, false)))) &&
      o.state.(aidTypes := s.aidTypes, financeTypes := s.financeTypes, providerOrg := s.providerOrg,
               receiverOrg := s.receiverOrg, output := false) == s
  {
  }

  /** The places step: output exactly when places were found and both type
      lists resolved; the earlier attributes stay. */
  lemma CountriesOutcome(organisations: map<string, string>, getOrg: ActivityOrgResolver, a: ActivityEl,
                         entry: Entry, s: BudgetState)
    requires !s.output && s.countries.None? && s.sectors.Some? && SectorsFor(a, entry, Currency(s)) == Ok(s.sectors.value)
    ensures var o := FromCountries(organisations, getOrg, a, entry, CountriesFor(a, entry, Currency(s)), s);
      Resolved(organisations, getOrg, a, entry, o.state, o.error) &&
      o.state.attrs == s.attrs && o.state.budgets == s.budgets && o.state.iatiIdentifier == s.iatiIdentifier &&
      (o.error.None? ==> (o.state.output <==> CountriesFor(a, entry, Currency(s)) != Ok(None)))
  {
    var countries := CountriesFor(a, entry, Currency(s));
    if countries.Ok? && countries.value.Some? {
      var cs := countries.value.value;
      var s1 := s.(countries := Some(cs), multiCountry := Some(ModelRecords.MultiCountry(cs)));
      TypesOutcome(organisations, getOrg, a, entry,
                   TypeList(Transaction.AttrValue(s1.attrs, "aid_type"), AidTypeFromTransactions(a, Currency(s1))),
                   TypeList(Transaction.AttrValue(s1.attrs, "finance_type"), FinanceTypeFromTransactions(a, Currency(s1))), s1);
    }
  }

  /** The sectors step, then the places step. */
  lemma SectorsOutcome(organisations: map<string, string>, getOrg: ActivityOrgResolver, a: ActivityEl,
                       entry: Entry, s: BudgetState)
    requires !s.output && s.countries.None?
    ensures var o := FromSectors(organisations, getOrg, a, entry, SectorsFor(a, entry, Currency(s)), s);
      Resolved(organisations, getOrg, a, entry, o.state, o.error) &&
      o.state.attrs == s.attrs && o.state.budgets == s.budgets && o.state.iatiIdentifier == s.iatiIdentifier
  {
    var sectors := SectorsFor(a, entry, Currency(s));
    if sectors.Ok? {
      CountriesOutcome(organisations, getOrg, a, entry, s.(sectors := Some(sectors.value)));
    }
  }

  /** The budgets step, then the sectors and places steps. */
  lemma BudgetsOutcome(organisations: map<string, string>, getOrg: ActivityOrgResolver, rates: RateTable,
                       a: ActivityEl, entry: Entry, s: BudgetState)
    requires !s.output && s.countries.None?
    ensures var o := FromBudgets(organisations, getOrg, a, entry, BudgetsOf(a, Currency(s), rates), s);
      Resolved(organisations, getOrg, a, entry, o.state, o.error) &&
      o.state.attrs == s.attrs && o.state.iatiIdentifier == s.iatiIdentifier &&
      (o.state.output ==> o.state.budgets.Some? && BudgetsOf(a, Currency(s), rates) == Ok(o.state.budgets.value))
  {
    var budgets := BudgetsOf(a, Currency(s), rates);
    if budgets.Ok? {
      SectorsOutcome(organisations, getOrg, a, entry, s.(budgets := Some(budgets.value)));
    }
  }

  /** All of `process_activity`: the identifier is set and has a memo entry;
      with output, the budgets are the quarters of the activity's budgets in
      the record's currency and the other lists are resolved as `Resolved`
      says; without output and without an exception, no place was found. */
  lemma ProcessOutcome(organisations: map<string, string>, getOrg: ActivityOrgResolver, rates: RateTable,
                       a: ActivityEl, s: BudgetState, data: map<string, Entry>)
    requires !s.output && s.countries.None?
    ensures var p := Process(organisations, getOrg, rates, a, s, data);
      p.state.iatiIdentifier == Some(a.identifier) && a.identifier in p.data &&
      Resolved(organisations, getOrg, a, p.data[a.identifier], p.state, p.error) &&
      (p.state.output ==> p.state.budgets.Some? && BudgetsOf(a, Currency(p.state), rates) == Ok(p.state.budgets.value))
  {
    var id := a.identifier;
    var d0 := if id in data then data else data[id := map[]];
    var s0 := s.(iatiIdentifier := Some(id));
    var m0 := Memo(s0.attrs, d0);
    var f := Fill(a, organisations, id, m0, ActivityFunctions);
    var s1 := s0.(attrs := f.memo.attrs);
    FillKeepsId(a, organisations, id, m0, ActivityFunctions);
    if f.error.None? {
      var o := FromBudgets(organisations, getOrg, a, f.memo.data[id], BudgetsOf(a, Currency(s1), rates), s1);
      assert Process(organisations, getOrg, rates, a, s, data) == BudgetProcessed(o.state, f.memo.data, o.error);
      BudgetsOutcome(organisations, getOrg, rates, a, f.memo.data[id], s1);
    } else {
      assert Process(organisations, getOrg, rates, a, s, data) == BudgetProcessed(s1, f.memo.data, f.error);
    }
  }

  /** Flattening a record that has output: every visited period has a
      currency (each came from a rate lookup), so a row is refused only for a
      missing reporting organisation, and then none is produced; with the
      reporting organisation present, one row per visit. */
  lemma ReadyFlatten(rates: RateTable, categories: map<string, string>, wanted: set<string>, a: ActivityEl,
                     st: BudgetState)
    requires st.budgets.Some? && BudgetsOf(a, Currency(st), rates) == Ok(st.budgets.value)
    requires st.sectors.Some? && st.countries.Some? && st.aidTypes.Some? && st.financeTypes.Some?
    requires st.providerOrg.Some? && st.receiverOrg.Some?
    ensures var f := Flatten(categories, wanted, st);
      var ok := Transaction.OrgOf(Transaction.AttrValue(st.attrs, "reporting_org")).Ok?;
      (ok ==> (f.error.None? &&
        |f.rows| == |st.sectors.value| * |Transaction.Kept(st.countries.value, wanted)| * |st.aidTypes.value| *
          |st.financeTypes.value| * |st.budgets.value|)) &&
      (!ok ==> f.rows == [])
  {
    var list := BudgetList(a.budgets, Currency(st)).value;
    PeriodsHaveCurrency(rates, list);
    var vs := BudgetVisits(st.sectors.value, st.countries.value, wanted, st.aidTypes.value,
                           st.financeTypes.value, st.budgets.value);
    assert forall k :: 0 <= k < |vs| ==> PeriodOf(vs[k]).currency.Some? by {
      forall k | 0 <= k < |vs| ensures PeriodOf(vs[k]).currency.Some? {
        VisitMembers(st.sectors.value, st.countries.value, wanted, st.aidTypes.value,
                     st.financeTypes.value, st.budgets.value, vs[k]);
      }
    }
    assert LoopError(st, wanted).None?;
    FlattenFromChecks(categories, st, vs);
    FlattenFromCount(categories, st, vs);
    VisitsCount(st.sectors.value, st.countries.value, wanted, st.aidTypes.value, st.financeTypes.value, st.budgets.value);
  }
}
