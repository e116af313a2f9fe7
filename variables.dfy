/** `iatiflattener/lib/variables.py`: the output columns and their expansion
    into one column per language for the multilingual headers. */
module Variables {
  import ModelFlat

  /** The column types of `HEADERS`. */
  datatype DType = Str | Float64 | Int32

  /** The header names of `HEADERS` and `GROUP_BY_HEADERS`. */
  datatype Header =
    | IatiIdentifier | Title | ReportingOrg | ReportingOrgType | AidType | FinanceType | FlowType
    | ProviderOrg | ProviderOrgType | ReceiverOrg | ReceiverOrgType | TransactionType | ValueOriginal
    | CurrencyOriginal | ValueUsd | ExchangeRateDate | ExchangeRate | ValueEur | ValueLocal | TransactionDate
    | CountryCode | MultiCountry | SectorCategory | SectorCode | Humanitarian | FiscalYear | FiscalQuarter
    | FiscalYearQuarter | Url

  function Name(h: Header): string {
    match h
    case IatiIdentifier => "iati_identifier"
    case Title => "title"
    case ReportingOrg => "reporting_org"
    case ReportingOrgType => "reporting_org_type"
    case AidType => "aid_type"
    case FinanceType => "finance_type"
    case FlowType => "flow_type"
    case ProviderOrg => "provider_org"
    case ProviderOrgType => "provider_org_type"
    case ReceiverOrg => "receiver_org"
    case ReceiverOrgType => "receiver_org_type"
    case TransactionType => "transaction_type"
    case ValueOriginal => "value_original"
    case CurrencyOriginal => "currency_original"
    case ValueUsd => "value_usd"
    case ExchangeRateDate => "exchange_rate_date"
    case ExchangeRate => "exchange_rate"
    case ValueEur => "value_eur"
    case ValueLocal => "value_local"
    case TransactionDate => "transaction_date"
    case CountryCode => "country_code"
    case MultiCountry => "multi_country"
    case SectorCategory => "sector_category"
    case SectorCode => "sector_code"
    case Humanitarian => "humanitarian"
    case FiscalYear => "fiscal_year"
    case FiscalQuarter => "fiscal_quarter"
    case FiscalYearQuarter => "fiscal_year_quarter"
    case Url => "url"
  }

  /** The type `HEADERS` gives each header. */
  function TypeOf(h: Header): DType {
    match h
    case ValueUsd | ValueEur | ValueLocal => Float64
    case MultiCountry | Humanitarian | FiscalYear => Int32
    case _ => Str
  }

  /** `HEADERS`, in order. */
  const Headers: seq<Header> := [
    IatiIdentifier, Title, ReportingOrg, ReportingOrgType, AidType, FinanceType, FlowType, ProviderOrg,
    ProviderOrgType, ReceiverOrg, ReceiverOrgType, TransactionType, ValueOriginal, CurrencyOriginal, ValueUsd,
    ExchangeRateDate, ExchangeRate, ValueEur, ValueLocal, TransactionDate, CountryCode, MultiCountry,
    SectorCategory, SectorCode, Humanitarian, FiscalYear, FiscalQuarter, FiscalYearQuarter, Url]

  /** Membership in `MULTILANG_HEADERS` (title, reporting_org, provider_org,
      receiver_org). */
  predicate Multilang(h: Header) {
    h == Title || h == ReportingOrg || h == ProviderOrg || h == ReceiverOrg
  }

  const MultilangHeaders: seq<Header> := [Title, ReportingOrg, ProviderOrg, ReceiverOrg]

  const GroupByHeaders: seq<Header> := [
    IatiIdentifier, Title, ReportingOrg, ReportingOrgType, AidType, FinanceType, FlowType, ProviderOrg,
    ProviderOrgType, ReceiverOrg, ReceiverOrgType, TransactionType, CountryCode, MultiCountry, SectorCategory,
    SectorCode, Humanitarian, FiscalYear, FiscalQuarter, FiscalYearQuarter, Url]

  /** An output column: a header, or a multilingual header for one language. */
  datatype Column = Plain(header: Header) | Tagged(header: Header, lang: string)

  /** The column's name: `'{}#{}'.format(header, lang)` for a tagged one. */
  function ColumnName(c: Column): string {
    match c
    case Plain(h) => Name(h)
    case Tagged(h, lang) => Name(h) + "#" + lang
  }

  /** The columns one header contributes: one per language for a
      multilingual header, else the header itself. */
  function Block(h: Header, langs: seq<string>): (r: seq<Column>)
    ensures Multilang(h) ==> |r| == |langs| && forall k :: 0 <= k < |langs| ==> r[k] == Tagged(h, langs[k])
    ensures !Multilang(h) ==> r == [Plain(h)]
  {
    if Multilang(h) then seq(|langs|, k requires 0 <= k < |langs| => Tagged(h, langs[k])) else [Plain(h)]
  }

  /** The `out +=` loops of `headers` and `group_by_headers_with_langs`. */
  function Expand(hs: seq<Header>, langs: seq<string>): seq<Column>
    decreases |hs|
  {
    if hs == [] then [] else Block(hs[0], langs) + Expand(hs[1..], langs)
  }

  /** The `out +=` loop of `dtypes`: a multilingual header's type once per
      language. */
  function ExpandTypes(hs: seq<Header>, langs: seq<string>): seq<DType>
    decreases |hs|
  {
    if hs == [] then [] else TypeBlock(hs[0], langs) + ExpandTypes(hs[1..], langs)
  }

  /** The types one header contributes: its type once per column of its block. */
  function TypeBlock(h: Header, langs: seq<string>): (r: seq<DType>)
    ensures |r| == |Block(h, langs)| && forall k :: 0 <= k < |r| ==> r[k] == TypeOf(Block(h, langs)[k].header)
  {
    if Multilang(h) then seq(|langs|, k requires 0 <= k < |langs| => TypeOf(h)) else [TypeOf(h)]
  }

  /** `headers(langs)`, as columns; `ColumnName` gives the strings. */
  function HeaderColumns(langs: seq<string>): seq<Column> {
    Expand(Headers, langs)
  }

  /** `dtypes(langs)`. */
  function DTypes(langs: seq<string>): seq<DType> {
    ExpandTypes(Headers, langs)
  }

  /** `headers_dtypes(langs)`: the loop tests the header's type, not its name,
      for membership in the list of multilingual header names, which never
      holds; so each header contributes one `{header: dtype}` whatever the
      languages. */
  function HeadersDTypes(langs: seq<string>): seq<(Header, DType)> {
    HeadersDTypesFrom(Headers, langs)
  }

  function HeadersDTypesFrom(hs: seq<Header>, langs: seq<string>): (r: seq<(Header, DType)>)
    ensures |r| == |hs| && forall i :: 0 <= i < |hs| ==> r[i] == (hs[i], TypeOf(hs[i]))
    decreases |hs|
  {
    if hs == [] then [] else [(hs[0], TypeOf(hs[0]))] + HeadersDTypesFrom(hs[1..], langs)
  }

  /** `headers_with_langs(langs)`: the identifier, then for each language in
      order the multilingual headers tagged with it. */
  function HeadersWithLangs(langs: seq<string>): seq<Column> {
    [Plain(IatiIdentifier)] + PerLanguage(langs)
  }

  function PerLanguage(langs: seq<string>): seq<Column>
    decreases |langs|
  {
    if langs == [] then []
    else
      seq(|MultilangHeaders|, j requires 0 <= j < |MultilangHeaders| => Tagged(MultilangHeaders[j], langs[0])) +
      PerLanguage(langs[1..])
  }

  /** `group_by_headers_with_langs(langs)`. */
  function GroupByHeadersWithLangs(langs: seq<string>): seq<Column> {
    Expand(GroupByHeaders, langs)
  }

  /** `group_by_headers_with_lang(lang)`, written out. */
  function GroupByHeadersWithLang(lang: string): seq<Column> {
    [Plain(IatiIdentifier), Tagged(Title, lang), Tagged(ReportingOrg, lang), Plain(ReportingOrgType),
     Plain(AidType), Plain(FinanceType), Plain(FlowType), Tagged(ProviderOrg, lang), Plain(ProviderOrgType),
     Tagged(ReceiverOrg, lang), Plain(ReceiverOrgType), Plain(TransactionType), Plain(CountryCode),
     Plain(MultiCountry), Plain(SectorCategory), Plain(SectorCode), Plain(Humanitarian), Plain(FiscalYear),
     Plain(FiscalQuarter), Plain(FiscalYearQuarter), Plain(Url)]
  }

  /** `OUTPUT_HEADERS`: the column titles of the grouped output per language. */
  const OutputHeaders: map<string, seq<string>> := map[
    "en" := [
      "IATI Identifier", "Title", "Reporting Organisation", "Reporting Organisation Type", "Aid Type",
      "Finance Type", "Flow Type", "Provider Organisation", "Provider Organisation Type", "Receiver Organisation",
      "Receiver Organisation Type", "Transaction Type", "Recipient Country or Region", "Multi Country",
      "Sector Category", "Sector", "Humanitarian", "Calendar Year", "Calendar Quarter",
      "Calendar Year and Quarter", "URL", "Value (USD)", "Value (EUR)", "Value (Local currrency)"],
    "fr" := [
      "Identifiant de l’IITA", "Titre", "Organisme déclarant", "Type d’organisme déclarant", "Type d’aide",
      "Type de financement", "Type de flux", "Organisme prestataire", "Type d’organisme prestataire",
      "Organisme bénéficiaire", "Type d’organisme bénéficiaire", "Type de transaction",
      "Pays ou région bénéficiaire", "Multipays", "Catégorie de secteur", "Secteur", "Humanitaire",
      "Année civile", "Trimestre civil", "Année et trimestre civils", "URL", "Valeur (USD)", "Valeur (EUR)",
      "Valeur (Monnaie locale)"],
    "es" := [
      "Identificador de la IATI", "Título", "Organización informante", "Tipo de organización informante",
      "Tipo de ayuda", "Tipo de financiación", "Tipo de flujo", "Organización proveedora",
      "Tipo de organización proveedora", "Organización beneficiaria", "Tipo de organización beneficiaria",
      "Tipo de transacción", "País o región beneficiario", "Multinacional", "Categoría del sector", "Sector",
      "Humanitario", "Año natural", "Trimestre natural", "Año y trimestre naturales", "URL", "Valor (USD)",
      "Valor (EUR)", "Valor (Divisa local)"],
    "pt" := [
      "Identificador da IATI", "Título", "Organização relatora", "Tipo de organização relatora", "Tipo de ajuda",
      "Tipo de financiamento", "Tipo de fluxo", "Organização provedora", "Tipo de organização provedora",
      "Organização destinatária", "Tipo de organização destinatária", "Tipo de transação",
      "País/região destinatário", "Plurinacional", "Categoria de setor", "Setor", "Humanitária", "Ano civil",
      "Trimestre civil", "Ano e trimestre civis", "URL", "Valor (USD)", "Valor (EUR)", "Valor (Moeda local)"]]

  // ------------------------------------------------------------ properties

  /** Expanding a concatenation is the concatenation of the expansions: the
      header order is kept. */
  lemma {:induction false} ExpandAppend(a: seq<Header>, b: seq<Header>, langs: seq<string>)
    ensures Expand(a + b, langs) == Expand(a, langs) + Expand(b, langs)
    decreases |a|
  {
    if a != [] {
      assert (a + b)[0] == a[0] && (a + b)[1..] == a[1..] + b;
      ExpandAppend(a[1..], b, langs);
      calc {
        Expand(a + b, langs);
        Block(a[0], langs) + Expand(a[1..] + b, langs);
        Block(a[0], langs) + (Expand(a[1..], langs) + Expand(b, langs));
        (Block(a[0], langs) + Expand(a[1..], langs)) + Expand(b, langs);
      }
    } else {
      assert a + b == b;
    }
  }

  /** The number of multilingual headers among `hs`. */
  function CountMultilang(hs: seq<Header>): nat
    decreases |hs|
  {
    if hs == [] then 0 else (if Multilang(hs[0]) then 1 else 0) + CountMultilang(hs[1..])
  }

  /** Each multilingual header becomes `|langs|` columns, each other header
      one, for names and types alike. */
  lemma {:induction false} ExpandLength(hs: seq<Header>, langs: seq<string>)
    ensures |Expand(hs, langs)| + CountMultilang(hs) == |hs| + ModelFlat.Offset(CountMultilang(hs), |langs|)
    ensures |ExpandTypes(hs, langs)| == |Expand(hs, langs)|
    decreases |hs|
  {
    if hs != [] {
      ExpandLength(hs[1..], langs);
      var c := CountMultilang(hs[1..]);
      if Multilang(hs[0]) {
        assert CountMultilang(hs) == c + 1;
        assert ModelFlat.Offset(c + 1, |langs|) == |langs| + ModelFlat.Offset(c, |langs|);
      } else {
        assert CountMultilang(hs) == c;
      }
    }
  }

  /** `dtypes` aligns with `headers` position by position: column `i` carries
      the type of the header it was made from. */
  lemma {:induction false} ExpandAligned(hs: seq<Header>, langs: seq<string>, i: nat)
    requires i < |Expand(hs, langs)|
    ensures |ExpandTypes(hs, langs)| == |Expand(hs, langs)|
    ensures ExpandTypes(hs, langs)[i] == TypeOf(Expand(hs, langs)[i].header)
    decreases |hs|
  {
    ExpandLength(hs, langs);
    var b, tb := Block(hs[0], langs), TypeBlock(hs[0], langs);
    var e, t := Expand(hs[1..], langs), ExpandTypes(hs[1..], langs);
    assert Expand(hs, langs) == b + e && ExpandTypes(hs, langs) == tb + t;
    if i < |b| {
      assert (b + e)[i] == b[i] && (tb + t)[i] == tb[i];
    } else {
      ExpandAligned(hs[1..], langs, i - |b|);
      assert (b + e)[i] == e[i - |b|] && (tb + t)[i] == t[i - |b|];
    }
  }


  /** `headers(langs)` and `dtypes(langs)` have the same length, 25 single
      columns plus four per language, and agree position by position. */
  lemma HeadersLength(langs: seq<string>)
    ensures |HeaderColumns(langs)| == |DTypes(langs)| == 25 + 4 * |langs|
    ensures forall i :: 0 <= i < |DTypes(langs)| ==> DTypes(langs)[i] == TypeOf(HeaderColumns(langs)[i].header)
  {
    HeadersChunks();
    ExpandAppend(OrgHeaders + ValueHeaders, TailHeaders, langs);
    ExpandAppend(OrgHeaders, ValueHeaders, langs);
    OrgWidth(langs);
    PlainWidth(ValueHeaders, langs);
    PlainWidth(TailHeaders, langs);
    ExpandAligned(Headers, langs, 0);
    forall i | 0 <= i < |DTypes(langs)| ensures DTypes(langs)[i] == TypeOf(HeaderColumns(langs)[i].header) {
      ExpandAligned(Headers, langs, i);
    }
  }

  /** `HEADERS` in three runs: the twelve that hold the four multilingual
      ones, then nine and eight headers that are all single columns. */
  const OrgHeaders: seq<Header> :=
    [IatiIdentifier, Title, ReportingOrg] + [ReportingOrgType, AidType, FinanceType] +
    [FlowType, ProviderOrg, ProviderOrgType] + [ReceiverOrg, ReceiverOrgType, TransactionType]

  const ValueHeaders: seq<Header> :=
    [ValueOriginal, CurrencyOriginal, ValueUsd, ExchangeRateDate, ExchangeRate, ValueEur,
     ValueLocal, TransactionDate, CountryCode]

  const TailHeaders: seq<Header> :=
    [MultiCountry, SectorCategory, SectorCode, Humanitarian, FiscalYear, FiscalQuarter, FiscalYearQuarter, Url]

  lemma HeadersChunks()
    ensures Headers == OrgHeaders + ValueHeaders + TailHeaders
    ensures forall i :: 0 <= i < |ValueHeaders| ==> !Multilang(ValueHeaders[i])
    ensures forall i :: 0 <= i < |TailHeaders| ==> !Multilang(TailHeaders[i])
  {
  }

  lemma OrgWidth(langs: seq<string>)
    ensures |Expand(OrgHeaders, langs)| == 8 + 4 * |langs|
  {
    var c1, c2, c3, c4 := [IatiIdentifier, Title, ReportingOrg], [ReportingOrgType, AidType, FinanceType],
                          [FlowType, ProviderOrg, ProviderOrgType], [ReceiverOrg, ReceiverOrgType, TransactionType];
    ExpandAppend(c1 + c2 + c3, c4, langs);
    ExpandAppend(c1 + c2, c3, langs);
    ExpandAppend(c1, c2, langs);
    ThreeLength(IatiIdentifier, Title, ReportingOrg, langs);
    ThreeLength(ReportingOrgType, AidType, FinanceType, langs);
    ThreeLength(FlowType, ProviderOrg, ProviderOrgType, langs);
    ThreeLength(ReceiverOrg, ReceiverOrgType, TransactionType, langs);
  }

  /** Headers none of which is multilingual keep one column each. */
  lemma {:induction false} PlainWidth(hs: seq<Header>, langs: seq<string>)
    requires forall i :: 0 <= i < |hs| ==> !Multilang(hs[i])
    ensures |Expand(hs, langs)| == |hs|
    decreases |hs|
  {
    if hs != [] {
      PlainWidth(hs[1..], langs);
    }
  }

  /** The width of three headers' columns, the last two of them standing for
      the final pair. */
  lemma ThreeLength(a: Header, b: Header, c: Header, langs: seq<string>)
    ensures |Expand([a, b, c], langs)| == |Block(a, langs)| + |Block(b, langs)| + |Block(c, langs)|
    ensures |Expand([a, b], langs)| == |Block(a, langs)| + |Block(b, langs)|
  {
    assert [a, b, c][1..] == [b, c] && [b, c][1..] == [c] && [c][1..] == [];
    assert [a, b][1..] == [b] && [b][1..] == [];
    assert |Expand([c], langs)| == |Block(c, langs)|;
    assert |Expand([b], langs)| == |Block(b, langs)|;
  }

  lemma {:induction false} CountAppend(a: seq<Header>, b: seq<Header>)
    ensures CountMultilang(a + b) == CountMultilang(a) + CountMultilang(b)
    decreases |a|
  {
    if a != [] {
      assert (a + b)[0] == a[0] && (a + b)[1..] == a[1..] + b;
      CountAppend(a[1..], b);
      assert CountMultilang(a + b) == (if Multilang(a[0]) then 1 else 0) + CountMultilang(a[1..] + b);
    } else {
      assert a + b == b;
    }
  }

  /** The languages play no part in `headers_dtypes`. */
  lemma HeadersDTypesIgnoresLangs(langs: seq<string>, others: seq<string>)
    ensures HeadersDTypes(langs) == HeadersDTypes(others)
  {
    DTypesFromIgnoresLangs(Headers, langs, others);
  }

  lemma {:induction false} DTypesFromIgnoresLangs(hs: seq<Header>, langs: seq<string>, others: seq<string>)
    ensures HeadersDTypesFrom(hs, langs) == HeadersDTypesFrom(hs, others)
    decreases |hs|
  {
    if hs != [] {
      DTypesFromIgnoresLangs(hs[1..], langs, others);
    }
  }

  /** For one language, each multilingual header is tagged with it and every
      other header is kept. */
  lemma {:induction false} ExpandOneLanguage(hs: seq<Header>, lang: string)
    ensures |Expand(hs, [lang])| == |hs|
    ensures forall i :: 0 <= i < |hs| ==>
      Expand(hs, [lang])[i] == (if Multilang(hs[i]) then Tagged(hs[i], lang) else Plain(hs[i]))
    decreases |hs|
  {
    if hs != [] {
      ExpandOneLanguage(hs[1..], lang);
      BlockOne(hs[0], lang);
      var rest := Expand(hs[1..], [lang]);
      assert Expand(hs, [lang]) == [OneColumn(hs[0], lang)] + rest;
      forall i | 0 <= i < |hs|
        ensures Expand(hs, [lang])[i] == (if Multilang(hs[i]) then Tagged(hs[i], lang) else Plain(hs[i]))
      {
        if i > 0 {
          assert hs[1..][i - 1] == hs[i];
        }
      }
    }
  }

  /** `group_by_headers_with_langs([lang]) == group_by_headers_with_lang(lang)`,
      three headers at a time. */
  lemma GroupByOneLanguage(lang: string)
    ensures GroupByHeadersWithLangs([lang]) == GroupByHeadersWithLang(lang)
  {
    var l := [lang];
    GroupByChunks();
    ExpandSeven([IatiIdentifier, Title, ReportingOrg], [ReportingOrgType, AidType, FinanceType],
                [FlowType, ProviderOrg, ProviderOrgType], [ReceiverOrg, ReceiverOrgType, TransactionType],
                [CountryCode, MultiCountry, SectorCategory], [SectorCode, Humanitarian, FiscalYear],
                [FiscalQuarter, FiscalYearQuarter, Url], l);
    ExpandThree(IatiIdentifier, Title, ReportingOrg, lang);
    ExpandThree(ReportingOrgType, AidType, FinanceType, lang);
    ExpandThree(FlowType, ProviderOrg, ProviderOrgType, lang);
    ExpandThree(ReceiverOrg, ReceiverOrgType, TransactionType, lang);
    ExpandThree(CountryCode, MultiCountry, SectorCategory, lang);
    ExpandThree(SectorCode, Humanitarian, FiscalYear, lang);
    ExpandThree(FiscalQuarter, FiscalYearQuarter, Url, lang);
    WithLangChunks(lang);
  }

  lemma GroupByChunks()
    ensures GroupByHeaders ==
      [IatiIdentifier, Title, ReportingOrg] + [ReportingOrgType, AidType, FinanceType] +
      [FlowType, ProviderOrg, ProviderOrgType] + [ReceiverOrg, ReceiverOrgType, TransactionType] +
      [CountryCode, MultiCountry, SectorCategory] + [SectorCode, Humanitarian, FiscalYear] +
      [FiscalQuarter, FiscalYearQuarter, Url]
  {
  }

  lemma WithLangChunks(lang: string)
    ensures GroupByHeadersWithLang(lang) ==
      [Plain(IatiIdentifier), Tagged(Title, lang), Tagged(ReportingOrg, lang)] +
      [Plain(ReportingOrgType), Plain(AidType), Plain(FinanceType)] +
      [Plain(FlowType), Tagged(ProviderOrg, lang), Plain(ProviderOrgType)] +
      [Tagged(ReceiverOrg, lang), Plain(ReceiverOrgType), Plain(TransactionType)] +
      [Plain(CountryCode), Plain(MultiCountry), Plain(SectorCategory)] +
      [Plain(SectorCode), Plain(Humanitarian), Plain(FiscalYear)] +
      [Plain(FiscalQuarter), Plain(FiscalYearQuarter), Plain(Url)]
  {
  }

  lemma ExpandSeven(c1: seq<Header>, c2: seq<Header>, c3: seq<Header>, c4: seq<Header>, c5: seq<Header>,
                    c6: seq<Header>, c7: seq<Header>, langs: seq<string>)
    ensures Expand(c1 + c2 + c3 + c4 + c5 + c6 + c7, langs) ==
      Expand(c1, langs) + Expand(c2, langs) + Expand(c3, langs) + Expand(c4, langs) + Expand(c5, langs) +
      Expand(c6, langs) + Expand(c7, langs)
  {
    ExpandAppend(c1 + c2 + c3 + c4 + c5 + c6, c7, langs);
    ExpandAppend(c1 + c2 + c3 + c4 + c5, c6, langs);
    ExpandAppend(c1 + c2 + c3 + c4, c5, langs);
    ExpandAppend(c1 + c2 + c3, c4, langs);
    ExpandAppend(c1 + c2, c3, langs);
    ExpandAppend(c1, c2, langs);
  }

  /** The column of `h` for a single language. */
  function OneColumn(h: Header, lang: string): Column {
    if Multilang(h) then Tagged(h, lang) else Plain(h)
  }

  lemma ExpandThree(a: Header, b: Header, c: Header, lang: string)
    ensures Expand([a, b, c], [lang]) == [OneColumn(a, lang), OneColumn(b, lang), OneColumn(c, lang)]
  {
    assert [a, b, c][1..] == [b, c] && [b, c][1..] == [c] && [c][1..] == [];
    BlockOne(a, lang);
    BlockOne(b, lang);
    BlockOne(c, lang);
    assert Expand([c], [lang]) == [OneColumn(c, lang)];
    assert Expand([b, c], [lang]) == [OneColumn(b, lang), OneColumn(c, lang)];
  }

  lemma BlockOne(h: Header, lang: string)
    ensures Block(h, [lang]) == [OneColumn(h, lang)]
  {
    var b := Block(h, [lang]);
    assert |b| == 1 && b[0] == OneColumn(h, lang);
  }

  /** Column `Offset(k, 4) + j` after the identifier is multilingual header
      `j` tagged with language `k`: language outer, header inner. */
  lemma {:induction false} PerLanguageAt(langs: seq<string>, k: nat, j: nat)
    requires k < |langs| && j < |MultilangHeaders|
    ensures |PerLanguage(langs)| == ModelFlat.Offset(|langs|, |MultilangHeaders|)
    ensures ModelFlat.Offset(k, |MultilangHeaders|) + j < |PerLanguage(langs)|
    ensures PerLanguage(langs)[ModelFlat.Offset(k, |MultilangHeaders|) + j] == Tagged(MultilangHeaders[j], langs[k])
    decreases |langs|
  {
    PerLanguageLength(langs[1..]);
    if k > 0 {
      PerLanguageAt(langs[1..], k - 1, j);
    }
  }

  lemma {:induction false} PerLanguageLength(langs: seq<string>)
    ensures |PerLanguage(langs)| == ModelFlat.Offset(|langs|, |MultilangHeaders|)
    decreases |langs|
  {
    if langs != [] {
      PerLanguageLength(langs[1..]);
    }
  }

  /** `headers_with_langs`: the identifier, then four columns per language. */
  lemma HeadersWithLangsLayout(langs: seq<string>, k: nat, j: nat)
    requires k < |langs| && j < |MultilangHeaders|
    ensures |HeadersWithLangs(langs)| == 1 + 4 * |langs|
    ensures HeadersWithLangs(langs)[0] == Plain(IatiIdentifier)
    ensures 1 + ModelFlat.Offset(k, 4) + j < |HeadersWithLangs(langs)|
    ensures HeadersWithLangs(langs)[1 + ModelFlat.Offset(k, 4) + j] == Tagged(MultilangHeaders[j], langs[k])
  {
    PerLanguageAt(langs, k, j);
    ModelFlat.OffsetIsProduct(|langs|, 4);
  }

  /** Every language's column titles cover the group-by headers and the three
      value columns. */
  lemma OutputHeadersLength()
    ensures OutputHeaders.Keys == {"en", "fr", "es", "pt"}
    ensures forall lang :: lang in OutputHeaders ==> |OutputHeaders[lang]| == |GroupByHeaders| + 3
  {
  }
}
