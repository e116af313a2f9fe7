/** `iatiflattener/lib/iati_helpers.py`: the role table, narrative selection,
    organisation names, the percentage cleaners for sectors and for
    countries/regions, the sector and country queries, sector categories and the
    USD conversion. */
module IatiHelpers {
  import opened Wrappers
  import opened Text
  import opened Utils
  import opened Iati

  // ------------------------------------------------------------ role table

  /** Which side of a transaction each organisation role stands on: `'1'`
      (funding) and `'4'` (implementing) are participating-org roles, `'reporter'`
      is the reporting organisation. */
  datatype Roles = Roles(provider: string, receiver: string)

  const TransactionTypesRules: map<string, Roles> := map[
    "1" := Roles("1", "reporter"),
    "2" := Roles("reporter", "4"),
    "3" := Roles("reporter", "4"),
    "4" := Roles("reporter", "4"),
    "5" := Roles("4", "reporter"),
    "6" := Roles("4", "reporter"),
    "7" := Roles("reporter", "4"),
    "8" := Roles("reporter", "4"),
    "11" := Roles("1", "reporter"),
    "12" := Roles("reporter", "4"),
    "13" := Roles("1", "reporter"),
    "activity" := Roles("reporter", "4")
  ]

  /** The reporting organisation is on exactly one side of every transaction
      type, and the other side is the funding or the implementing role. */
  lemma RulesOneReporterSide()
    ensures forall k :: k in TransactionTypesRules ==>
      (TransactionTypesRules[k].provider == "reporter") != (TransactionTypesRules[k].receiver == "reporter")
    ensures forall k :: k in TransactionTypesRules ==>
      TransactionTypesRules[k].provider in {"1", "4", "reporter"} &&
      TransactionTypesRules[k].receiver in {"4", "reporter"}
  {
  }

  // ------------------------------------------------------------ narratives

  /** `el_lang in (lang, lang.upper())`. */
  predicate InLang(n: Narrative, lang: string) {
    n.lang == Some(lang) || n.lang == Some(Upper(lang))
  }

  /** `el_lang in (None, 'en', 'EN')`. */
  predicate IsEnglish(n: Narrative) {
    n.lang.None? || n.lang == Some("en") || n.lang == Some("EN")
  }

  /** The first filter of `get_narrative`: the requested language, or English
      and untagged narratives when English is requested. */
  predicate Requested(n: Narrative, lang: string) {
    if lang != "en" then InLang(n, lang) else IsEnglish(n)
  }

  /** The index of the first narrative the predicate accepts. */
  function FirstIndex(ns: seq<Narrative>, p: Narrative -> bool): (r: Option<nat>)
    ensures r.None? <==> forall i :: 0 <= i < |ns| ==> !p(ns[i])
    ensures r.Some? ==> r.value < |ns| && p(ns[r.value]) && forall j :: 0 <= j < r.value ==> !p(ns[j])
  {
    if ns == [] then None
    else if p(ns[0]) then Some(0)
    else
      var r := FirstIndex(ns[1..], p);
      assert forall i :: 1 <= i < |ns| ==> ns[i] == ns[1..][i - 1];
      if r.None? then None else Some(r.value + 1)
  }

  /** `narrative.text.strip()`; AttributeError when the element has no text. */
  function StrippedText(n: Narrative): (r: Result<string>)
    ensures r.Err? <==> n.text.None?
    ensures r.Err? ==> r.error == AttributeError
    ensures r.Ok? ==> r.value == Strip(n.text.value)
  {
    match n.text
    case None => Err(AttributeError)
    case Some(t) => Ok(Strip(t))
  }

  /** `get_narrative(container, lang)`; `container` is None when the element the
      caller looked for is missing (`None.xpath` raises AttributeError). */
  function GetNarrative(container: Option<seq<Narrative>>, lang: string): (r: Result<string>)
    ensures container.None? ==> r == Err(AttributeError)
    ensures container == Some([]) ==> r == Ok("")
    ensures r.Ok? ==> Trimmed(r.value)
    ensures r.Ok? && r.value != "" ==>
      exists i :: 0 <= i < |container.value| && container.value[i].text.Some? &&
                  r.value == Strip(container.value[i].text.value)
  {
    match container
    case None => Err(AttributeError)
    case Some(ns) =>
      if |ns| == 0 then Ok("")
      else if |ns| == 1 then
        (if ns[0].text.None? || ns[0].text == Some("") then Ok("") else StrippedText(ns[0]))
      else
        match FirstIndex(ns, n => Requested(n, lang))
        case Some(i) => StrippedText(ns[i])
        case None =>
          match FirstIndex(ns, IsEnglish)
          case Some(j) => StrippedText(ns[j])
          case None => StrippedText(ns[0])
  }

  /** One narrative gives its stripped text, whatever its language. */
  lemma NarrativeSingle(n: Narrative, lang: string)
    ensures n.text.Some? ==> GetNarrative(Some([n]), lang) == Ok(Strip(n.text.value))
    ensures n.text.None? ==> GetNarrative(Some([n]), lang) == Ok("")
  {
    var ns := [n];
    assert ns[0] == n;
    if n.text == Some("") {
      assert Strip("") == "";
      assert GetNarrative(Some(ns), lang) == Ok("");
    } else if n.text.Some? {
      assert GetNarrative(Some(ns), lang) == StrippedText(n);
    }
  }

  /** Several narratives: the first in the requested language wins. */
  lemma NarrativePrefersRequested(ns: seq<Narrative>, lang: string, i: nat)
    requires |ns| > 1 && i < |ns| && Requested(ns[i], lang)
    requires forall j :: 0 <= j < i ==> !Requested(ns[j], lang)
    ensures GetNarrative(Some(ns), lang) == StrippedText(ns[i])
  {
    var f := FirstIndex(ns, n => Requested(n, lang));
    assert f.Some? && f.value == i;
  }

  /** Several narratives, none in the requested language: the first English or
      untagged one wins. */
  lemma NarrativeFallsBackToEnglish(ns: seq<Narrative>, lang: string, i: nat)
    requires |ns| > 1 && i < |ns| && IsEnglish(ns[i])
    requires forall j :: 0 <= j < |ns| ==> !Requested(ns[j], lang)
    requires forall j :: 0 <= j < i ==> !IsEnglish(ns[j])
    ensures GetNarrative(Some(ns), lang) == StrippedText(ns[i])
  {
    var f := FirstIndex(ns, n => Requested(n, lang));
    assert f.None?;
    var g := FirstIndex(ns, IsEnglish);
    assert g.Some? && g.value == i;
  }

  /** Several narratives, none requested and none English: the first one. */
  lemma NarrativeFallsBackToFirst(ns: seq<Narrative>, lang: string)
    requires |ns| > 1
    requires forall j :: 0 <= j < |ns| ==> !Requested(ns[j], lang) && !IsEnglish(ns[j])
    ensures GetNarrative(Some(ns), lang) == StrippedText(ns[0])
  {
    var f := FirstIndex(ns, n => Requested(n, lang));
    assert f.None?;
    var g := FirstIndex(ns, IsEnglish);
    assert g.None?;
  }

  // ------------------------------------------------------------ organisation names

  predicate IsBlank(s: string) {
    Strip(s) == ""
  }

  /** `get_org_name(organisations, ref, text)`. */
  function GetOrgName(organisations: map<string, string>, ref: Option<string>, text: Option<string>): (r: Option<string>)
    ensures ref.None? || IsBlank(ref.value) ==> r == text
    ensures ref.Some? && !IsBlank(ref.value) && ref.value in organisations ==> r == Some(organisations[ref.value])
    ensures ref.Some? && !IsBlank(ref.value) && ref.value !in organisations ==> r == Some(text.GetOr(""))
  {
    if ref.None? || IsBlank(ref.value) then text
    else if ref.value in organisations then Some(organisations[ref.value])
    else if text.None? then Some("")
    else text
  }

  /** `get_sector_category(code, category_group)`: the category of the code's
      first three characters, `""` when unknown or when there is no code. */
  function GetSectorCategory(code: Option<string>, categories: map<string, string>): (r: string)
    ensures code.None? ==> r == ""
    ensures code.Some? ==> var key := code.value[..if |code.value| < 3 then |code.value| else 3];
      (key in categories ==> r == categories[key]) && (key !in categories ==> r == "")
  {
    match code
    case None => ""
    case Some(c) =>
      var key := c[..if |c| < 3 then |c| else 3];
      if key in categories then categories[key] else ""
  }

  /** Two codes that share their first three characters share their category. */
  lemma SectorCategoryByPrefix(a: string, b: string, categories: map<string, string>)
    requires |a| >= 3 && |b| >= 3 && a[..3] == b[..3]
    ensures GetSectorCategory(Some(a), categories) == GetSectorCategory(Some(b), categories)
  {
  }

  // ------------------------------------------------------------ percentage cleaners

  /** `item.get('percentage', 100) not in ["", "0", "0.0"]`: only the literal texts
      are dropped; a missing attribute (100) and a stored float survive. */
  predicate Survives(p: Pct) {
    !(p.Raw? && (p.text == "" || p.text == "0" || p.text == "0.0"))
  }

  /** `float(item.get('percentage', 100.0))`; None when `float` raises. */
  function PctValue(p: Pct): Option<real> {
    match p
    case Absent => Some(100.0)
    case Raw(_, v) => v
    case Number(v) => Some(v)
  }

  /** The codes of a list of items, in order. */
  function ItemCodes(xs: seq<Coded>): (r: seq<string>)
    ensures |r| == |xs| && forall i :: 0 <= i < |xs| ==> r[i] == xs[i].code
  {
    seq(|xs|, i requires 0 <= i < |xs| => xs[i].code)
  }

  /** The list the `filter` builds. */
  function Survivors(xs: seq<Coded>): (r: seq<Coded>)
    ensures |r| <= |xs|
    ensures forall x :: x in r <==> x in xs && Survives(x.percentage)
    ensures (forall i :: 0 <= i < |xs| ==> Survives(xs[i].percentage)) ==> r == xs
  {
    if xs == [] then []
    else if Survives(xs[0].percentage) then [xs[0]] + Survivors(xs[1..])
    else Survivors(xs[1..])
  }

  lemma {:induction false} SurvivorsAppend(a: seq<Coded>, b: seq<Coded>)
    ensures Survivors(a + b) == Survivors(a) + Survivors(b)
  {
    if a == [] {
      assert a + b == b;
    } else {
      assert (a + b)[1..] == a[1..] + b;
      SurvivorsAppend(a[1..], b);
    }
  }

  /** Survivors keep their order: an item dropped from a list is one whose text
      is filtered, and the survivors appear as they did in the input. */
  lemma {:induction false} SurvivorsDropExactly(xs: seq<Coded>, i: nat)
    requires i < |xs|
    ensures Survives(xs[i].percentage) ==>
      Survivors(xs) == Survivors(xs[..i]) + [xs[i]] + Survivors(xs[i + 1..])
    ensures !Survives(xs[i].percentage) ==>
      Survivors(xs) == Survivors(xs[..i]) + Survivors(xs[i + 1..])
  {
    assert xs == xs[..i] + ([xs[i]] + xs[i + 1..]);
    SurvivorsAppend(xs[..i], [xs[i]] + xs[i + 1..]);
    assert ([xs[i]] + xs[i + 1..])[1..] == xs[i + 1..];
  }

  predicate AllParse(xs: seq<Coded>) {
    forall i :: 0 <= i < |xs| ==> PctValue(xs[i].percentage).Some?
  }

  /** `sum(map(float(percentage), items))`. */
  function Total(xs: seq<Coded>): real
    requires AllParse(xs)
  {
    if xs == [] then 0.0 else PctValue(xs[0].percentage).value + Total(xs[1..])
  }

  lemma {:induction false} TotalAppend(a: seq<Coded>, b: seq<Coded>)
    requires AllParse(a) && AllParse(b)
    ensures AllParse(a + b) && Total(a + b) == Total(a) + Total(b)
  {
    if a == [] {
      assert a + b == b;
    } else {
      assert (a + b)[1..] == a[1..] + b;
      TotalAppend(a[1..], b);
    }
  }

  /** `[{'percentage': float(p)/(total/100), 'code': code} for item in items]`. */
  function Rescale(xs: seq<Coded>, total: real): (r: seq<Allocation>)
    requires AllParse(xs) && total != 0.0
    ensures |r| == |xs|
    ensures forall i :: 0 <= i < |xs| ==> r[i].code == xs[i].code
    ensures forall i :: 0 <= i < |xs| ==> r[i].percentage == PctValue(xs[i].percentage).value * 100.0 / total
    ensures Codes(r) == ItemCodes(xs)
  {
    seq(|xs|, i requires 0 <= i < |xs| => Allocation(xs[i].code, PctValue(xs[i].percentage).value / (total / 100.0)))
  }

  lemma {:induction false} RescaleSum(xs: seq<Coded>, total: real)
    requires AllParse(xs) && total != 0.0
    ensures SumPct(Rescale(xs, total)) == Total(xs) * 100.0 / total
  {
    if xs != [] {
      var r := Rescale(xs, total);
      assert r[1..] == Rescale(xs[1..], total);
      RescaleSum(xs[1..], total);
      var h := PctValue(xs[0].percentage).value;
      assert SumPct(r) == r[0].percentage + SumPct(r[1..]);
      assert Total(xs) == h + Total(xs[1..]);
      SumOfShares(SumPct(r), r[0].percentage, SumPct(r[1..]), h, Total(xs[1..]), Total(xs), total);
    }
  }

  /** Two shares of a total, each scaled by `100 / t`, add up to their sum scaled. */
  lemma SumOfShares(s: real, p: real, q: real, h: real, rest: real, all: real, t: real)
    requires t != 0.0
    requires s == p + q && p == h * 100.0 / t && q == rest * 100.0 / t && all == h + rest
    ensures s == all * 100.0 / t
  {
  }

  /** The comprehension that ends both cleaners: nothing to divide for an empty
      list, a float division by zero when the items total 0. */
  function Normalise(xs: seq<Coded>, total: real): (r: Result<seq<Allocation>>)
    requires AllParse(xs) && total == Total(xs)
    ensures xs == [] ==> r == Ok([])
    ensures xs != [] && total == 0.0 ==> r == Err(ZeroDivisionError)
    ensures xs != [] && total != 0.0 ==> r == Ok(Rescale(xs, total))
    ensures r.Err? <==> xs != [] && total == 0.0
    ensures r.Err? ==> r.error == ZeroDivisionError
    ensures r == Ok([]) <==> xs == []
    ensures r.Ok? ==> |r.value| == |xs|
    ensures r.Ok? ==> Codes(r.value) == ItemCodes(xs)
    ensures r.Ok? ==> forall i :: 0 <= i < |r.value| ==>
      r.value[i].percentage == PctValue(xs[i].percentage).value * 100.0 / total
    ensures r.Ok? && r.value != [] ==> SumPct(r.value) == 100.0
  {
    if xs == [] then Ok([])
    else if total == 0.0 then Err(ZeroDivisionError)
    else
      RescaleSum(xs, total);
      assert total * 100.0 / total == 100.0;
      Ok(Rescale(xs, total))
  }

  /** `clean_sectors(items)`: the surviving items, parsed and normalised. */
  function CleanSectors(xs: seq<Coded>): (r: Result<seq<Allocation>>)
    ensures r.Err? ==> r.error == ValueError || r.error == ZeroDivisionError
    ensures r.Err? && r.error == ValueError <==> !AllParse(Survivors(xs))
    ensures r.Err? && r.error == ZeroDivisionError <==>
      AllParse(Survivors(xs)) && Survivors(xs) != [] && Total(Survivors(xs)) == 0.0
    ensures r == Ok([]) <==> Survivors(xs) == []
    ensures r.Ok? ==> |r.value| == |Survivors(xs)|
    ensures r.Ok? ==> Codes(r.value) == ItemCodes(Survivors(xs))
    ensures r.Ok? ==> forall i :: 0 <= i < |r.value| ==>
      r.value[i].percentage == PctValue(Survivors(xs)[i].percentage).value * 100.0 / Total(Survivors(xs))
    ensures r.Ok? && r.value != [] ==> SumPct(r.value) == 100.0
  {
    CleanParsed(Survivors(xs))
  }

  /** The `float` of every percentage, then the normalisation. */
  function CleanParsed(s: seq<Coded>): (r: Result<seq<Allocation>>)
    ensures r.Err? ==> r.error == ValueError || r.error == ZeroDivisionError
    ensures r.Err? && r.error == ValueError <==> !AllParse(s)
    ensures r.Err? && r.error == ZeroDivisionError <==> AllParse(s) && s != [] && Total(s) == 0.0
    ensures r == Ok([]) <==> s == []
    ensures r.Ok? ==> |r.value| == |s|
    ensures r.Ok? ==> Codes(r.value) == ItemCodes(s)
    ensures r.Ok? ==> forall i :: 0 <= i < |r.value| ==>
      r.value[i].percentage == PctValue(s[i].percentage).value * 100.0 / Total(s)
    ensures r.Ok? && r.value != [] ==> SumPct(r.value) == 100.0
  {
    if !AllParse(s) then Err(ValueError)
    else Normalise(s, Total(s))
  }

  /** The cleaned form of an allocation list, as the next call would see it. */
  function AsItems(xs: seq<Allocation>): (r: seq<Coded>)
    ensures |r| == |xs|
    ensures forall i :: 0 <= i < |xs| ==> r[i] == Coded(xs[i].code, None, Number(xs[i].percentage))
  {
    seq(|xs|, i requires 0 <= i < |xs| => Coded(xs[i].code, None, Number(xs[i].percentage)))
  }

  lemma {:induction false} AsItemsTotal(xs: seq<Allocation>)
    ensures AllParse(AsItems(xs)) && Total(AsItems(xs)) == SumPct(xs)
  {
    if xs != [] {
      assert AsItems(xs)[1..] == AsItems(xs[1..]);
      AsItemsTotal(xs[1..]);
    }
  }

  /** `clean_sectors(clean_sectors(xs)) == clean_sectors(xs)`: the output already
      sums to 100 and its float percentages never match the string filter. */
  lemma CleanSectorsIdempotent(xs: seq<Coded>)
    requires CleanSectors(xs).Ok?
    ensures CleanSectors(AsItems(CleanSectors(xs).value)) == CleanSectors(xs)
  {
    var r := CleanSectors(xs).value;
    var items := AsItems(r);
    assert forall i :: 0 <= i < |items| ==> Survives(items[i].percentage);
    assert Survivors(items) == items;
    AsItemsTotal(r);
    if r != [] {
      assert Total(items) == 100.0;
      var again := Rescale(items, 100.0);
      assert CleanSectors(items) == Ok(again);
      forall i | 0 <= i < |r| ensures again[i] == r[i] {
        assert again[i].percentage == r[i].percentage * 100.0 / 100.0;
      }
      assert again == r;
    }
  }

  /** Python's `round(x)` to an integer: to the nearest, ties to even. */
  function RoundHalfEven(x: real): (n: int)
    ensures -0.5 <= x - n as real <= 0.5
    ensures (x - n as real == 0.5 || n as real - x == 0.5) ==> n % 2 == 0
  {
    var f := x.Floor;
    var frac := x - f as real;
    if frac < 0.5 then f
    else if frac > 0.5 then f + 1
    else if f % 2 == 0 then f else f + 1
  }

  /** The region-inclusion test of `clean_countries`: regions are given, the
      country percentages do not round to 100, and they are zero or do not round
      to 100 for each country. */
  predicate TakeRegions(regions: seq<Coded>, countries: seq<Coded>, total: real) {
    |regions| > 0 && RoundHalfEven(total) != 100 &&
    (total == 0.0 || RoundHalfEven(total) != 100 * |countries|)
  }

  /** `clean_countries(countries, regions)`. */
  function CleanCountries(cs: seq<Coded>, rs: seq<Coded>): (r: Result<seq<Allocation>>)
    ensures !AllParse(Survivors(cs)) ==> r == Err(ValueError)
    ensures AllParse(Survivors(cs)) && !TakeRegions(rs, Survivors(cs), Total(Survivors(cs))) ==>
      r == CleanSectors(cs)
    ensures AllParse(Survivors(cs)) && TakeRegions(rs, Survivors(cs), Total(Survivors(cs))) ==>
      r == CleanParsed(Survivors(cs) + Survivors(rs))
  {
    var c := Survivors(cs);
    if !AllParse(c) then Err(ValueError)
    else
      var t := Total(c);
      if TakeRegions(rs, c, t) then
        var g := Survivors(rs);
        if !AllParse(g) then
          UnparsedAppend(c, g);
          Err(ValueError)
        else
          TotalAppend(c, g);
          Normalise(c + g, t + Total(g))
      else Normalise(c, t)
  }

  /** A list with an unparsable percentage keeps it after anything is put before it. */
  lemma UnparsedAppend(a: seq<Coded>, b: seq<Coded>)
    requires !AllParse(b)
    ensures !AllParse(a + b)
  {
    var j :| 0 <= j < |b| && PctValue(b[j].percentage).None?;
    assert (a + b)[|a| + j] == b[j];
  }

  /** Without regions the country cleaner is the sector cleaner. */
  lemma CleanCountriesWithoutRegions(cs: seq<Coded>)
    ensures CleanCountries(cs, []) == CleanSectors(cs)
  {
  }

  /** Country percentages that already round to 100 keep the regions out. */
  lemma CountriesRoundingTo100IgnoreRegions(cs: seq<Coded>, rs: seq<Coded>)
    requires AllParse(Survivors(cs)) && RoundHalfEven(Total(Survivors(cs))) == 100
    ensures CleanCountries(cs, rs) == CleanSectors(cs)
  {
  }

  /** Countries without percentages (each counted as 100) keep the regions out. */
  lemma UnweightedCountriesIgnoreRegions(cs: seq<Coded>, rs: seq<Coded>)
    requires cs != [] && forall i :: 0 <= i < |cs| ==> cs[i].percentage == Absent
    ensures CleanCountries(cs, rs) == CleanSectors(cs)
  {
    assert Survivors(cs) == cs;
    UnweightedTotal(cs);
  }

  lemma {:induction false} UnweightedTotal(cs: seq<Coded>)
    requires forall i :: 0 <= i < |cs| ==> cs[i].percentage == Absent
    ensures AllParse(cs) && Total(cs) == 100.0 * |cs| as real
  {
    if cs != [] {
      UnweightedTotal(cs[1..]);
    }
  }

  /** Regions join when the countries carry a partial share: one country at 40%
      and one region make the region take part of the total. */
  lemma PartialCountryTakesRegions(c: string, g: string)
    ensures CleanCountries([Coded(c, None, Raw("40", Some(40.0)))], [Coded(g, None, Absent)]) ==
      Ok([Allocation(c, 40.0 * 100.0 / 140.0), Allocation(g, 100.0 * 100.0 / 140.0)])
  {
    var cs := [Coded(c, None, Raw("40", Some(40.0)))];
    var rs := [Coded(g, None, Absent)];
    assert Survivors(cs) == cs;
    assert Survivors(rs) == rs;
    assert Total(cs) == 40.0;
    assert (40.0).Floor == 40;
    assert RoundHalfEven(40.0) == 40;
    assert TakeRegions(rs, cs, 40.0);
    assert Total(rs) == 100.0;
    TotalAppend(cs, rs);
    var all := cs + rs;
    assert Rescale(all, 140.0) == [Allocation(c, 40.0 * 100.0 / 140.0), Allocation(g, 100.0 * 100.0 / 140.0)];
  }

  // ------------------------------------------------------------ activity/transaction queries

  /** `get_countries(activity, transaction)`: the transaction's countries (else the
      activity's) with the transaction's DAC regions (else the activity's). */
  function GetCountries(a: ActivityEl, t: TransactionEl): (r: Result<seq<Allocation>>)
    ensures t.countries != [] ==> r == CleanCountries(t.countries, FirstNonEmpty(Dac(t.regions), Dac(a.regions)))
    ensures t.countries == [] ==> r == CleanCountries(a.countries, FirstNonEmpty(Dac(t.regions), Dac(a.regions)))
    ensures r.Ok? && r.value != [] ==> SumPct(r.value) == 100.0
  {
    CleanCountries(FirstNonEmpty(t.countries, a.countries), FirstNonEmpty(Dac(t.regions), Dac(a.regions)))
  }

  /** The allocation used when nothing else is known. */
  const Sentinel: seq<Allocation> := [Allocation("", 100.0)]

  /** `get_sectors(activity, transaction)`: the cleaned DAC sectors of the
      transaction, else of the activity, else the sentinel. */
  function GetSectors(a: ActivityEl, t: TransactionEl): (r: Result<seq<Allocation>>)
    ensures r.Ok? ==> r.value != [] && SumPct(r.value) == 100.0
    ensures Dac(t.sectors) != [] && CleanSectors(Dac(t.sectors)).Ok? && CleanSectors(Dac(t.sectors)).value != [] ==>
      r == CleanSectors(Dac(t.sectors))
    ensures Dac(t.sectors) == [] && CleanSectors(Dac(a.sectors)).Ok? && CleanSectors(Dac(a.sectors)).value != [] ==>
      r == CleanSectors(Dac(a.sectors))
    ensures CleanSectors(FirstNonEmpty(Dac(t.sectors), Dac(a.sectors))) == Ok([]) ==> r == Ok(Sentinel)
    ensures CleanSectors(FirstNonEmpty(Dac(t.sectors), Dac(a.sectors))).Err? ==>
      r == Err(CleanSectors(FirstNonEmpty(Dac(t.sectors), Dac(a.sectors))).error)
  {
    var cleaned :- CleanSectors(FirstNonEmpty(Dac(t.sectors), Dac(a.sectors)));
    if |cleaned| > 0 then Ok(cleaned) else Ok(Sentinel)
  }

  // ------------------------------------------------------------ USD conversion

  /** `value_in_usd(value, currency, value_date, rates)`: the value divided by the
      currency's rate to the dollar. */
  function ValueInUsd(value: real, currency: Option<string>, valueDate: Date, rates: RateTable): (r: Result<real>)
    ensures r.Ok? <==> Lookup(rates, currency, valueDate).Ok?
    ensures r.Ok? ==> r.value * Lookup(rates, currency, valueDate).value.rate == value
    ensures r.Err? ==> r.error == UnknownCurrency
  {
    var q :- Lookup(rates, currency, valueDate);
    Ok(value / q.rate)
  }
}
