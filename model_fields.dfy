/** The field resolvers of `iatiflattener/model.py` (`Title`, `ReportingOrg`,
    `CountryRegion`, `Sector`, `Humanitarian`, `Currency`,
    `DefaultActivityField`): each looks at the transaction first, then at the
    activity's memo object, then at the activity element, writing what it
    read from the activity into the memo, and finally falls back to the
    sibling transactions or to a sentinel.

    Each resolver is specified by a function from the memo's state before the
    call to its result and the memo's state after it, and implemented by a
    method that updates the memo object in place. */
module ModelFields {
  import opened Wrappers
  import opened Iati
  import opened IatiHelpers
  import opened TransactionHelpers
  import opened Dicts
  import opened Activity
  import opened ModelCache

  /** What a resolver gives back, and the memo's state it leaves behind (also
      when it raises: a write made before the exception stays). */
  datatype Resolved<T> = Resolved(value: Result<T>, cache: CacheState)

  // ------------------------------------------------------------ per-language dictionaries

  /** `[(lang, f(lang)) for lang in langs]`, stopping at the first exception. */
  function PerLang<V>(langs: seq<string>, f: string -> Result<V>): (r: Result<seq<(string, V)>>)
    ensures r.Ok? <==> forall i :: 0 <= i < |langs| ==> f(langs[i]).Ok?
    ensures r.Ok? ==> |r.value| == |langs|
    ensures r.Ok? ==> forall i :: 0 <= i < |langs| ==> r.value[i] == (langs[i], f(langs[i]).value)
    ensures r.Err? ==> exists i :: 0 <= i < |langs| && f(langs[i]) == Err(r.error)
  {
    if langs == [] then Ok([])
    else
      var first :- f(langs[0]);
      var rest :- PerLang(langs[1..], f);
      assert forall i :: 1 <= i < |langs| ==> langs[1..][i - 1] == langs[i];
      Ok([(langs[0], first)] + rest)
  }

  /** In `dict(PerLang(langs, f))` every requested language finds its value. */
  lemma PerLangLookup<V>(langs: seq<string>, f: string -> Result<V>, i: nat)
    requires PerLang(langs, f).Ok? && i < |langs|
    ensures Get(DictFromPairs(PerLang(langs, f).value), langs[i]) == Some(f(langs[i]).value)
  {
    var ps := PerLang(langs, f).value;
    assert KeysOf(ps)[i] == langs[i];
    GetKeyed(ps, langs[i], lang => if f(lang).Ok? then f(lang).value else f(langs[i]).value);
  }

  // ------------------------------------------------------------ Title

  function TitleIn(a: ActivityEl): string -> Result<string> {
    lang => GetNarrative(a.title, lang)
  }

  /** `Title.generate()`. */
  function Title(a: ActivityEl, langs: seq<string>, s: CacheState): (r: Resolved<LangMap<string>>)
    ensures s.title.Some? ==> r == Resolved(Ok(s.title.value), s)
    ensures s.title.None? ==> (r.value.Ok? <==> PerLang(langs, TitleIn(a)).Ok?)
    ensures s.title.None? && r.value.Ok? ==>
      r.value.value == DictFromPairs(PerLang(langs, TitleIn(a)).value) &&
      r.cache == s.(title := Some(r.value.value))
    ensures r.value.Err? ==> r.cache == s
  {
    if s.title.Some? then Resolved(Ok(s.title.value), s)
    else
      match PerLang(langs, TitleIn(a))
      case Err(e) => Resolved(Err(e), s)
      case Ok(ps) =>
        var title := DictFromPairs(ps);
        Resolved(Ok(title), s.(title := Some(title)))
  }

  /** A computed title holds, for each language, that language's narrative. */
  lemma TitlePerLanguage(a: ActivityEl, langs: seq<string>, s: CacheState, i: nat)
    requires s.title.None? && Title(a, langs, s).value.Ok? && i < |langs|
    ensures Get(Title(a, langs, s).value.value, langs[i]) == Some(GetNarrative(a.title, langs[i]).value)
  {
    PerLangLookup(langs, TitleIn(a), i);
  }

  /** Once a title is stored every later call returns it and changes nothing,
      whatever the activity and languages it is given. */
  lemma TitleMemoised(a: ActivityEl, langs: seq<string>, s: CacheState, b: ActivityEl, other: seq<string>)
    requires Title(a, langs, s).value.Ok?
    ensures var first := Title(a, langs, s);
      Title(b, other, first.cache) == first
  {
  }

  method ResolveTitle(a: ActivityEl, langs: seq<string>, cache: ActivityCacheActivity)
    returns (r: Result<LangMap<string>>)
    modifies cache
    ensures Resolved(r, cache.State()) == Title(a, langs, old(cache.State()))
  {
    if cache.title.Some? {
      return Ok(cache.title.value);
    }
    var pairs := PerLang(langs, TitleIn(a));
    if pairs.Err? {
      return Err(pairs.error);
    }
    var title := DictFromPairs(pairs.value);
    cache.title := Some(title);
    r := Ok(title);
  }

  // ------------------------------------------------------------ ReportingOrg

  function ReportingOrgIn(a: ActivityEl, organisations: map<string, string>): string -> Result<OrgRecord> {
    lang => Activity.ReportingOrg(a, organisations, lang)
  }

  /** `ReportingOrg.generate()`. */
  function ReportingOrg(a: ActivityEl, organisations: map<string, string>, langs: seq<string>, s: CacheState)
    : (r: Resolved<LangMap<OrgRecord>>)
    ensures s.reportingOrg.Some? ==> r == Resolved(Ok(s.reportingOrg.value), s)
    ensures s.reportingOrg.None? && a.reportingOrg.None? && langs != [] ==> r == Resolved(Err(AttributeError), s)
    ensures s.reportingOrg.None? ==> (r.value.Ok? <==> PerLang(langs, ReportingOrgIn(a, organisations)).Ok?)
    ensures s.reportingOrg.None? && r.value.Ok? ==>
      r.value.value == DictFromPairs(PerLang(langs, ReportingOrgIn(a, organisations)).value) &&
      r.cache == s.(reportingOrg := Some(r.value.value))
    ensures r.value.Err? ==> r.cache == s
  {
    if s.reportingOrg.Some? then Resolved(Ok(s.reportingOrg.value), s)
    else
      match PerLang(langs, ReportingOrgIn(a, organisations))
      case Err(e) => Resolved(Err(e), s)
      case Ok(ps) =>
        var org := DictFromPairs(ps);
        Resolved(Ok(org), s.(reportingOrg := Some(org)))
  }

  /** A computed reporting organisation holds, for each language, the record
      with that language's narrative and display `"{text} [{ref}]"`. */
  lemma ReportingOrgPerLanguage(a: ActivityEl, organisations: map<string, string>, langs: seq<string>,
                                s: CacheState, i: nat)
    requires s.reportingOrg.None? && ReportingOrg(a, organisations, langs, s).value.Ok? && i < |langs|
    ensures var o := Get(ReportingOrg(a, organisations, langs, s).value.value, langs[i]);
      o == Some(Activity.ReportingOrg(a, organisations, langs[i]).value) &&
      o.value.display == o.value.text.value + " [" + Text.Render(o.value.ref) + "]"
  {
    PerLangLookup(langs, ReportingOrgIn(a, organisations), i);
  }

  lemma ReportingOrgMemoised(a: ActivityEl, organisations: map<string, string>, langs: seq<string>,
                             s: CacheState, b: ActivityEl, other: seq<string>)
    requires ReportingOrg(a, organisations, langs, s).value.Ok?
    ensures var first := ReportingOrg(a, organisations, langs, s);
      ReportingOrg(b, organisations, other, first.cache) == first
  {
  }

  method ResolveReportingOrg(a: ActivityEl, organisations: map<string, string>, langs: seq<string>,
                             cache: ActivityCacheActivity)
    returns (r: Result<LangMap<OrgRecord>>)
    modifies cache
    ensures Resolved(r, cache.State()) == ReportingOrg(a, organisations, langs, old(cache.State()))
  {
    if cache.reportingOrg.Some? {
      return Ok(cache.reportingOrg.value);
    }
    var pairs := PerLang(langs, ReportingOrgIn(a, organisations));
    if pairs.Err? {
      return Err(pairs.error);
    }
    var org := DictFromPairs(pairs.value);
    cache.reportingOrg := Some(org);
    r := Ok(org);
  }

  // ------------------------------------------------------------ CountryRegion

  /** `clean_countries` on the memo's lists, either of which may be None:
      filtering None raises TypeError, and so does `len(None)` for the regions,
      once the country percentages have been summed. */
  function CleanCountriesOpt(cs: Option<seq<Coded>>, rs: Option<seq<Coded>>): (r: Result<seq<Allocation>>)
    ensures cs.Some? && rs.Some? ==> r == CleanCountries(cs.value, rs.value)
    ensures cs.None? ==> r == Err(TypeError)
    ensures cs.Some? && rs.None? ==> r.Err?
  {
    match cs
    case None => Err(TypeError)
    case Some(c) =>
      match rs
      case None => if AllParse(Survivors(c)) then Err(TypeError) else Err(ValueError)
      case Some(g) => CleanCountries(c, g)
  }

  /** `country_region_activity()`: the memo's lists when either is set,
      otherwise the activity's countries and DAC regions, both written to the
      memo when either is non-empty; `[]` when the activity has neither. */
  function CountryRegionActivity(a: ActivityEl, s: CacheState): (r: Resolved<seq<Allocation>>)
    ensures s.countries.Some? || s.regions.Some? ==> r == Resolved(CleanCountriesOpt(s.countries, s.regions), s)
    ensures s.countries.None? && s.regions.None? && (a.countries != [] || Dac(a.regions) != []) ==>
      r == Resolved(CleanCountries(a.countries, Dac(a.regions)),
                    s.(countries := Some(a.countries), regions := Some(Dac(a.regions))))
    ensures s.countries.None? && s.regions.None? && a.countries == [] && Dac(a.regions) == [] ==>
      r == Resolved(Ok([]), s)
    ensures r.value.Ok? && r.value.value != [] ==> SumPct(r.value.value) == 100.0
  {
    if s.countries.Some? || s.regions.Some? then Resolved(CleanCountriesOpt(s.countries, s.regions), s)
    else
      var cs := a.countries;
      var rs := Dac(a.regions);
      if cs != [] || rs != [] then
        Resolved(CleanCountries(cs, rs), s.(countries := Some(cs), regions := Some(rs)))
      else Resolved(Ok([]), s)
  }

  /** `country_region_transaction()`. */
  function CountryRegionTransaction(t: TransactionEl): (r: Result<seq<Allocation>>)
    ensures t.countries == [] && Dac(t.regions) == [] ==> r == Ok([])
    ensures t.countries != [] || Dac(t.regions) != [] ==> r == CleanCountries(t.countries, Dac(t.regions))
  {
    if t.countries != [] || Dac(t.regions) != [] then CleanCountries(t.countries, Dac(t.regions)) else Ok([])
  }

  /** `CountryRegion.generate_from_transaction()`: the transaction's own
      countries and regions, else the activity's (through the memo), else
      `False`, here `None`. */
  function CountryRegionForTransaction(a: ActivityEl, t: TransactionEl, s: CacheState)
    : (r: Resolved<Option<seq<Allocation>>>)
    ensures r.value.Ok? && r.value.value.Some? ==> r.value.value.value != [] && SumPct(r.value.value.value) == 100.0
    ensures CountryRegionTransaction(t).Ok? && CountryRegionTransaction(t).value != [] ==>
      r == Resolved(Ok(Some(CountryRegionTransaction(t).value)), s)
    ensures CountryRegionTransaction(t) == Ok([]) ==>
      r.cache == CountryRegionActivity(a, s).cache &&
      (CountryRegionActivity(a, s).value.Err? ==> r.value == Err(CountryRegionActivity(a, s).value.error)) &&
      (CountryRegionActivity(a, s).value.Ok? ==>
        r.value == Ok(if CountryRegionActivity(a, s).value.value == [] then None else Some(CountryRegionActivity(a, s).value.value)))
  {
    match CountryRegionTransaction(t)
    case Err(e) => Resolved(Err(e), s)
    case Ok(own) =>
      if own != [] then
        CleanCountriesSum(t.countries, Dac(t.regions));
        Resolved(Ok(Some(own)), s)
      else
        var act := CountryRegionActivity(a, s);
        match act.value
        case Err(e) => Resolved(Err(e), act.cache)
        case Ok(fromActivity) =>
          Resolved(Ok(if fromActivity == [] then None else Some(fromActivity)), act.cache)
  }

  lemma CleanCountriesSum(cs: seq<Coded>, rs: seq<Coded>)
    ensures CleanCountries(cs, rs).Ok? && CleanCountries(cs, rs).value != [] ==>
      SumPct(CleanCountries(cs, rs).value) == 100.0
  {
  }

  /** `CountryRegion.generate_from_budget()`: the activity's countries and
      regions (through the memo), else those derived from the transactions.
      `len(...) >= 0` always holds, so an empty derivation is returned as it
      is and never turns into `False`. */
  function CountryRegionForBudget(a: ActivityEl, s: CacheState): (r: Resolved<seq<Allocation>>)
    ensures r.cache == CountryRegionActivity(a, s).cache
    ensures CountryRegionActivity(a, s).value.Ok? && CountryRegionActivity(a, s).value.value != [] ==>
      r.value == CountryRegionActivity(a, s).value
    ensures CountryRegionActivity(a, s).value == Ok([]) ==>
      r.value == CountriesFromTransactions(a, a.defaultCurrency)
    ensures r.value.Ok? && r.value.value != [] ==> SumPct(r.value.value) == 100.0
  {
    var act := CountryRegionActivity(a, s);
    match act.value
    case Err(e) => Resolved(Err(e), act.cache)
    case Ok(fromActivity) =>
      if fromActivity != [] then Resolved(Ok(fromActivity), act.cache)
      else Resolved(CountriesFromTransactions(a, a.defaultCurrency), act.cache)
  }

  /** After the activity's lists have been read into the memo, the next
      transaction that needs them gets the same countries from the memo. */
  lemma CountryRegionMemoised(a: ActivityEl, s: CacheState, b: ActivityEl)
    ensures var first := CountryRegionActivity(a, s);
      first.cache != s ==> CountryRegionActivity(b, first.cache) == Resolved(first.value, first.cache)
  {
  }

  /** A transaction with no countries or regions of its own, in an activity
      that has none either and nothing in the memo, is not flattened. */
  lemma NoPlaceAnywhereIsFalse(a: ActivityEl, t: TransactionEl, s: CacheState)
    requires t.countries == [] && Dac(t.regions) == []
    requires a.countries == [] && Dac(a.regions) == []
    requires s.countries.None? && s.regions.None?
    ensures CountryRegionForTransaction(a, t, s) == Resolved(Ok(None), s)
  {
  }

  method ResolveCountryRegionActivity(a: ActivityEl, cache: ActivityCacheActivity)
    returns (r: Result<seq<Allocation>>)
    modifies cache
    ensures Resolved(r, cache.State()) == CountryRegionActivity(a, old(cache.State()))
  {
    if cache.countries.Some? || cache.regions.Some? {
      return CleanCountriesOpt(cache.countries, cache.regions);
    }
    var countries := a.countries;
    var regions := Dac(a.regions);
    if countries != [] || regions != [] {
      cache.countries := Some(countries);
      cache.regions := Some(regions);
      return CleanCountries(countries, regions);
    }
    r := Ok([]);
  }

  method ResolveCountryRegionForTransaction(a: ActivityEl, t: TransactionEl, cache: ActivityCacheActivity)
    returns (r: Result<Option<seq<Allocation>>>)
    modifies cache
    ensures Resolved(r, cache.State()) == CountryRegionForTransaction(a, t, old(cache.State()))
  {
    var own := CountryRegionTransaction(t);
    if own.Err? {
      return Err(own.error);
    }
    if own.value != [] {
      return Ok(Some(own.value));
    }
    var fromActivity := ResolveCountryRegionActivity(a, cache);
    if fromActivity.Err? {
      return Err(fromActivity.error);
    }
    r := Ok(if fromActivity.value == [] then None else Some(fromActivity.value));
  }

  method ResolveCountryRegionForBudget(a: ActivityEl, cache: ActivityCacheActivity)
    returns (r: Result<seq<Allocation>>)
    modifies cache
    ensures Resolved(r, cache.State()) == CountryRegionForBudget(a, old(cache.State()))
  {
    var fromActivity := ResolveCountryRegionActivity(a, cache);
    if fromActivity.Err? {
      return Err(fromActivity.error);
    }
    if fromActivity.value != [] {
      return fromActivity;
    }
    r := CountriesFromTransactions(a, a.defaultCurrency);
  }

  // ------------------------------------------------------------ Sector

  /** `sector_transaction()`: the transaction's cleaned DAC sectors, `False`
      (here `[]`) when it has none. */
  function SectorTransaction(t: TransactionEl): (r: Result<seq<Allocation>>)
    ensures Dac(t.sectors) == [] ==> r == Ok([])
    ensures Dac(t.sectors) != [] ==> r == CleanSectors(Dac(t.sectors))
  {
    if Dac(t.sectors) != [] then CleanSectors(Dac(t.sectors)) else Ok([])
  }

  /** `sector_activity()`: the memo's sectors when set, otherwise the
      activity's DAC sectors, written to the memo when there are any. */
  function SectorActivity(a: ActivityEl, s: CacheState): (r: Resolved<seq<Allocation>>)
    ensures s.sectors.Some? ==> r == Resolved(CleanSectors(s.sectors.value), s)
    ensures s.sectors.None? && Dac(a.sectors) != [] ==>
      r == Resolved(CleanSectors(Dac(a.sectors)), s.(sectors := Some(Dac(a.sectors))))
    ensures s.sectors.None? && Dac(a.sectors) == [] ==> r == Resolved(Ok([]), s)
  {
    if s.sectors.Some? then Resolved(CleanSectors(s.sectors.value), s)
    else if Dac(a.sectors) != [] then
      Resolved(CleanSectors(Dac(a.sectors)), s.(sectors := Some(Dac(a.sectors))))
    else Resolved(Ok([]), s)
  }

  /** `Sector.generate_from_transaction()`: the transaction's sectors, else the
      activity's (through the memo), else the sentinel, which is also stored in
      the memo. */
  function SectorForTransaction(a: ActivityEl, t: TransactionEl, s: CacheState): (r: Resolved<seq<Allocation>>)
    ensures r.value.Ok? ==> r.value.value != [] && SumPct(r.value.value) == 100.0
    ensures SectorTransaction(t).Ok? && SectorTransaction(t).value != [] ==> r == Resolved(SectorTransaction(t), s)
    ensures SectorTransaction(t) == Ok([]) && SectorActivity(a, s).value.Ok? && SectorActivity(a, s).value.value != [] ==>
      r == SectorActivity(a, s)
    ensures SectorTransaction(t) == Ok([]) && SectorActivity(a, s).value == Ok([]) ==>
      r == Resolved(Ok(Sentinel), SectorActivity(a, s).cache.(sectors := Some(AsItems(Sentinel))))
  {
    match SectorTransaction(t)
    case Err(e) => Resolved(Err(e), s)
    case Ok(own) =>
      if own != [] then Resolved(Ok(own), s)
      else
        var act := SectorActivity(a, s);
        match act.value
        case Err(e) => Resolved(Err(e), act.cache)
        case Ok(fromActivity) =>
          if fromActivity != [] then act
          else Resolved(Ok(Sentinel), act.cache.(sectors := Some(AsItems(Sentinel))))
  }

  /** The stored sentinel cleans back to the sentinel, so every later
      transaction of the activity without sectors of its own gets it from the
      memo. */
  lemma SentinelReused(a: ActivityEl, t: TransactionEl, s: CacheState, b: ActivityEl, u: TransactionEl)
    requires SectorTransaction(t) == Ok([]) && SectorActivity(a, s).value == Ok([])
    requires SectorTransaction(u) == Ok([])
    ensures var first := SectorForTransaction(a, t, s);
      SectorForTransaction(b, u, first.cache) == first
  {
    var items := AsItems(Sentinel);
    assert Survivors(items) == items;
    assert Total(items) == 100.0;
    assert Rescale(items, 100.0) == Sentinel;
  }

  /** `Sector.generate_from_budget()`: the activity's sectors (through the
      memo), else those derived from the transactions. */
  function SectorForBudget(a: ActivityEl, s: CacheState): (r: Resolved<seq<Allocation>>)
    ensures r.cache == SectorActivity(a, s).cache
    ensures SectorActivity(a, s).value.Ok? && SectorActivity(a, s).value.value != [] ==> r == SectorActivity(a, s)
    ensures SectorActivity(a, s).value == Ok([]) ==> r.value == SectorsFromTransactions(a, a.defaultCurrency)
    ensures r.value.Ok? ==> r.value.value != [] && SumPct(r.value.value) == 100.0
  {
    var act := SectorActivity(a, s);
    match act.value
    case Err(e) => act
    case Ok(fromActivity) =>
      if fromActivity != [] then act
      else Resolved(SectorsFromTransactions(a, a.defaultCurrency), act.cache)
  }

  method ResolveSectorActivity(a: ActivityEl, cache: ActivityCacheActivity) returns (r: Result<seq<Allocation>>)
    modifies cache
    ensures Resolved(r, cache.State()) == SectorActivity(a, old(cache.State()))
  {
    if cache.sectors.Some? {
      return CleanSectors(cache.sectors.value);
    }
    var sectors := Dac(a.sectors);
    if sectors != [] {
      cache.sectors := Some(sectors);
      return CleanSectors(sectors);
    }
    r := Ok([]);
  }

  method ResolveSectorForTransaction(a: ActivityEl, t: TransactionEl, cache: ActivityCacheActivity)
    returns (r: Result<seq<Allocation>>)
    modifies cache
    ensures Resolved(r, cache.State()) == SectorForTransaction(a, t, old(cache.State()))
  {
    var own := SectorTransaction(t);
    if own.Err? || own.value != [] {
      return own;
    }
    r := ResolveSectorActivity(a, cache);
    if r.Err? || r.value != [] {
      return;
    }
    cache.sectors := Some(AsItems(Sentinel));
    r := Ok(Sentinel);
  }

  method ResolveSectorForBudget(a: ActivityEl, cache: ActivityCacheActivity) returns (r: Result<seq<Allocation>>)
    modifies cache
    ensures Resolved(r, cache.State()) == SectorForBudget(a, old(cache.State()))
  {
    r := ResolveSectorActivity(a, cache);
    if r.Err? || r.value != [] {
      return;
    }
    r := SectorsFromTransactions(a, a.defaultCurrency);
  }

  // ------------------------------------------------------------ Humanitarian

  predicate IsFlag(v: string) {
    v == "true" || v == "1"
  }

  /** The attribute `Humanitarian.generate()` consults: the transaction's when
      it has one, else the activity's. */
  function HumanitarianAttr(a: ActivityEl, t: Option<TransactionEl>): Option<string> {
    if t.Some? && t.value.humanitarian.Some? then t.value.humanitarian else a.humanitarian
  }

  /** `Humanitarian(activity, transaction).value`: 1 when the attribute it
      consults is `'true'` or `'1'`, 0 otherwise, also when neither has one. */
  function Humanitarian(a: ActivityEl, t: Option<TransactionEl>): (h: int)
    ensures h == 0 || h == 1
    ensures h == 1 <==> HumanitarianAttr(a, t).Some? && IsFlag(HumanitarianAttr(a, t).value)
    ensures t.Some? && t.value.humanitarian.Some? ==> (h == 1 <==> IsFlag(t.value.humanitarian.value))
    ensures (t.None? || t.value.humanitarian.None?) ==> (h == 1 <==> a.humanitarian.Some? && IsFlag(a.humanitarian.value))
  {
    var g :=
      if t.Some? && t.value.humanitarian.Some? then (if IsFlag(t.value.humanitarian.value) then 1 else 0)
      else if a.humanitarian.Some? then (if IsFlag(a.humanitarian.value) then 1 else 0)
      else -1;   // `False`
    if g == 1 then 1 else 0
  }

  // ------------------------------------------------------------ Currency

  /** `Currency.generate()`: the transaction value's currency, else the
      activity default, which is then written to the memo; the memo is never
      read. */
  function Currency(a: ActivityEl, t: TransactionEl, s: CacheState): (r: Resolved<Option<string>>)
    ensures r.value == Ok(EffectiveCurrency(t.value, a.defaultCurrency))
    ensures t.value.currency.None? && a.defaultCurrency.Some? ==> r.cache == s.(currency := a.defaultCurrency)
    ensures t.value.currency.Some? || a.defaultCurrency.None? ==> r.cache == s
  {
    if t.value.currency.Some? then Resolved(Ok(t.value.currency), s)
    else if a.defaultCurrency.Some? then Resolved(Ok(a.defaultCurrency), s.(currency := a.defaultCurrency))
    else Resolved(Ok(None), s)
  }

  method ResolveCurrency(a: ActivityEl, t: TransactionEl, cache: ActivityCacheActivity) returns (r: Option<string>)
    modifies cache
    ensures Resolved(Ok(r), cache.State()) == Currency(a, t, old(cache.State()))
  {
    if t.value.currency.Some? {
      return t.value.currency;
    }
    if a.defaultCurrency.Some? {
      cache.currency := a.defaultCurrency;
      return a.defaultCurrency;
    }
    r := None;
  }

  // ------------------------------------------------------------ DefaultActivityField

  /** The `field_name` of a `DefaultActivityField`. */
  datatype Classification = AidType | FinanceType | FlowType

  /** `transaction.find(field_name)`: the transaction's elements of that kind,
      any vocabulary. */
  function TransactionElements(t: TransactionEl, k: Classification): seq<Coded> {
    match k
    case AidType => t.aidTypes
    case FinanceType => t.financeTypes
    case FlowType => t.flowTypes
  }

  /** `activity.find('default-' + field_name)`. */
  function ActivityDefault(a: ActivityEl, k: Classification): Option<Coded> {
    match k
    case AidType => a.defaultAidType
    case FinanceType => a.defaultFinanceType
    case FlowType => a.defaultFlowType
  }

  /** The memo field named by `field_name` with `-` replaced by `_`. */
  function CachedCode(s: CacheState, k: Classification): Option<string> {
    match k
    case AidType => s.aidType
    case FinanceType => s.financeType
    case FlowType => s.flowType
  }

  function WithCode(s: CacheState, k: Classification, code: string): (r: CacheState)
    ensures CachedCode(r, k) == Some(code)
    ensures forall j :: j != k ==> CachedCode(r, j) == CachedCode(s, j)
    ensures r.(aidType := s.aidType, financeType := s.financeType, flowType := s.flowType) == s
  {
    match k
    case AidType => s.(aidType := Some(code))
    case FinanceType => s.(financeType := Some(code))
    case FlowType => s.(flowType := Some(code))
  }

  /** `field_activity()`: the default element; its code is written to the memo
      when it exists. */
  function FieldActivity(a: ActivityEl, k: Classification, s: CacheState): (r: (Option<Coded>, CacheState))
    ensures r.0 == ActivityDefault(a, k)
    ensures r.0.Some? ==> r.1 == WithCode(s, k, r.0.value.code)
    ensures r.0.None? ==> r.1 == s
  {
    match ActivityDefault(a, k)
    case Some(el) => (Some(el), WithCode(s, k, el.code))
    case None => (None, s)
  }

  /** `DefaultActivityField.generate_from_transaction()`: the code of the
      transaction's first element of the kind, else the memo's code, else the
      activity default's code (stored in the memo), else None. */
  function DefaultFieldForTransaction(a: ActivityEl, t: TransactionEl, k: Classification, s: CacheState)
    : (r: Resolved<Option<string>>)
    ensures r.value.Ok?
    ensures TransactionElements(t, k) != [] ==> r == Resolved(Ok(Some(TransactionElements(t, k)[0].code)), s)
    ensures TransactionElements(t, k) == [] && CachedCode(s, k).Some? ==> r == Resolved(Ok(CachedCode(s, k)), s)
    ensures TransactionElements(t, k) == [] && CachedCode(s, k).None? && ActivityDefault(a, k).Some? ==>
      var code := ActivityDefault(a, k).value.code;
      r == Resolved(Ok(Some(code)), WithCode(s, k, code))
    ensures TransactionElements(t, k) == [] && CachedCode(s, k).None? && ActivityDefault(a, k).None? ==>
      r == Resolved(Ok(None), s)
  {
    var els := TransactionElements(t, k);
    if els != [] then Resolved(Ok(Some(els[0].code)), s)
    else if CachedCode(s, k).Some? then Resolved(Ok(CachedCode(s, k)), s)
    else
      var (el, s') := FieldActivity(a, k, s);
      Resolved(Ok(if el.Some? then Some(el.value.code) else None), s')
  }

  /** Once the activity default has been read, later transactions of the
      activity without their own element get the same code from the memo. */
  lemma DefaultFieldMemoised(a: ActivityEl, t: TransactionEl, k: Classification, s: CacheState,
                             b: ActivityEl, u: TransactionEl)
    requires TransactionElements(u, k) == []
    ensures var first := DefaultFieldForTransaction(a, t, k, s);
      first.cache != s ==> DefaultFieldForTransaction(b, u, k, first.cache) == first
  {
  }

  /** `get_classification_from_transactions(activity, currency, rates, field_name)`,
      whose definition is not part of this model. */
  type ClassificationDerivation = (ActivityEl, Option<string>, Classification) -> Result<seq<Allocation>>

  /** `DefaultActivityField.generate_from_budget()`: the activity default as a
      single allocation of 100%, else the derivation from the transactions.
      The memo is written but never read. */
  function DefaultFieldForBudget(a: ActivityEl, k: Classification, derive: ClassificationDerivation, s: CacheState)
    : (r: Resolved<seq<Allocation>>)
    ensures ActivityDefault(a, k).Some? ==>
      var code := ActivityDefault(a, k).value.code;
      r == Resolved(Ok([Allocation(code, 100.0)]), WithCode(s, k, code))
    ensures ActivityDefault(a, k).None? ==> r == Resolved(derive(a, a.defaultCurrency, k), s)
  {
    var (el, s') := FieldActivity(a, k, s);
    match el
    case Some(e) => Resolved(Ok([Allocation(e.code, 100.0)]), s')
    case None => Resolved(derive(a, a.defaultCurrency, k), s')
  }

  /** The budget resolution does not depend on what the memo held. */
  lemma DefaultFieldForBudgetIgnoresMemo(a: ActivityEl, k: Classification, derive: ClassificationDerivation,
                                         s: CacheState, s': CacheState)
    ensures DefaultFieldForBudget(a, k, derive, s).value == DefaultFieldForBudget(a, k, derive, s').value
  {
  }

  method ResolveDefaultFieldForTransaction(a: ActivityEl, t: TransactionEl, k: Classification,
                                           cache: ActivityCacheActivity)
    returns (r: Option<string>)
    modifies cache
    ensures Resolved(Ok(r), cache.State()) == DefaultFieldForTransaction(a, t, k, old(cache.State()))
  {
    var els := TransactionElements(t, k);
    if els != [] {
      return Some(els[0].code);
    }
    var cached := match k
      case AidType => cache.aidType
      case FinanceType => cache.financeType
      case FlowType => cache.flowType;
    if cached.Some? {
      return cached;
    }
    r := StoreActivityDefault(a, k, cache);
  }

  method ResolveDefaultFieldForBudget(a: ActivityEl, k: Classification, derive: ClassificationDerivation,
                                      cache: ActivityCacheActivity)
    returns (r: Result<seq<Allocation>>)
    modifies cache
    ensures Resolved(r, cache.State()) == DefaultFieldForBudget(a, k, derive, old(cache.State()))
  {
    var code := StoreActivityDefault(a, k, cache);
    if code.Some? {
      return Ok([Allocation(code.value, 100.0)]);
    }
    r := derive(a, a.defaultCurrency, k);
  }

  /** `field_activity()` on the memo object; gives the default's code. */
  method StoreActivityDefault(a: ActivityEl, k: Classification, cache: ActivityCacheActivity)
    returns (code: Option<string>)
    modifies cache
    ensures var (el, s') := FieldActivity(a, k, old(cache.State()));
      cache.State() == s' && code == (if el.Some? then Some(el.value.code) else None)
  {
    var el := ActivityDefault(a, k);
    if el.None? {
      return None;
    }
    match k {
      case AidType => cache.aidType := Some(el.value.code);
      case FinanceType => cache.financeType := Some(el.value.code);
      case FlowType => cache.flowType := Some(el.value.code);
    }
    code := Some(el.value.code);
  }
}
