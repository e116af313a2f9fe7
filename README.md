# iati-flattener, modelled in Dafny

iati-flattener reads IATI activity files and writes flat rows: one row per
transaction, or per budget quarter, for each combination of recipient
country or region, sector and (for budgets) aid type, finance type and
flow type. Each row's value is the original value scaled by every
combination percentage over 100. This project models the logic that
produces those rows and proves properties of it:

- **Percentage normalisers** (`IatiHelpers`). `clean_sectors` and
  `clean_countries` drop items whose percentage text is `""`, `"0"` or
  `"0.0"`, and rescale the rest to sum to 100. `clean_countries` also has
  its region-inclusion rule. `get_sectors` and `get_countries` pick
  transaction-level lists before activity-level ones.
- **Codes derived from sibling transactions** (`TransactionHelpers`). This
  covers `get_codes_from_transactions` and the four
  `get_*_from_transactions` selectors. A single distinct code is 100%;
  otherwise each code's share follows its summed value, and the
  mixed-currency branch always fails.
- **Budgets** (`BudgetHelpers`, `Slots`, `ModelBudgets`). A revised period
  replaces the original with the same start date. Periods are split
  evenly into calendar quarters, with one exchange-rate lookup per
  period. The object-model twin in `model.py` is modelled as well.
- **The per-activity memo** (`Activity`, `ModelCache`, `ModelFields`).
  `ActivityDataSetter.set_data` and the model's `ActivityCache` are
  classes over a `map` keyed by activity identifier. Each field is looked
  up in order: the transaction, the memo, the activity element (which is
  then memoised), and finally the sibling transactions or a sentinel.
- **Currency arithmetic** (`Iati`, `ModelValues`) against an exchange-rate
  table given as a function `RateTable`. `value_usd` is the value over
  the rate and `value_eur` is `value_usd` times the euro rate. A currency
  the table does not know gives a local value of 0.
- **Fan-out** (`Fanout`, `ModelFlat`, `Transaction`, `Budget`). `FlatBudget`
  and `FlatTransaction` of `model.py`, and `FlatIATITransaction` and
  `FlatIATIBudget` of `transaction.py` and `budget.py`, are classes with
  the records' fields. Their `process_*`, `*_data` and `flatten_*`
  methods are proved against specification functions. Rows come in
  nested-loop order, their values are scaled by the combination, and
  with normalised lists they conserve the total.
- **Organisation roles** (`Generate`). `get_org` of `generate.py`, with
  `_make_org_output` and its narrative helpers. An explicit
  provider/receiver element wins; otherwise the transaction-type table
  picks a role, and the result is memoised in `activity_data`.
- **Header lists** (`Variables`). These are `headers`, `dtypes`,
  `headers_dtypes`, `headers_with_langs`, the group-by header lists and
  `OUTPUT_HEADERS`.
- **Shared helpers** (`Text`, `Utils`, `Dicts`, `Wrappers`). These are
  dates, fiscal quarters, `get_first`, the integer renderings, and
  dictionaries built from key/value pairs.

The code is modelled as written. Several behaviours follow from that,
each stated in a lemma:

- Sectors are not weighted by days.
- An inverted budget period yields no rows.
- The zero-budget guard in `model.py` never fires.
- `value_local` compounds across the rows of one `FlatTransaction`.
- Finance types derived from transactions never look at incoming
  commitments.
- `headers_dtypes` ignores its languages.

Exceptions are modelled as `Result` values whose `Error` names the Python
exception. Money and percentages are `real`.

`generate.py` repeats `get_first`, `clean_sectors`, `clean_countries`,
`get_countries` and `get_sectors` from the library with the same logic;
each is modelled once, by the library's member. Its
`TRANSACTION_TYPES_RULES` is the library's table without the `activity`
row (`Generate.RulesAreLibraryRules`).

## Model

| member | source | states |
|---|---|---|
| Text.KeepFrom | iatiflattener/lib/iati_helpers.py:20 | the leading-whitespace scan of `strip()` stops at the first character that is not whitespace (or the end), and everything it skipped is whitespace |
| Text.KeepUntil | iatiflattener/lib/iati_helpers.py:20 | the trailing-whitespace scan stops just after the last character that is not whitespace (or at the start of the kept part), and everything it skipped is whitespace |
| Text.Strip | iatiflattener/lib/iati_helpers.py:20 | `str.strip()` (with the 29 characters `str.isspace()` accepts) leaves a text that neither starts nor ends with whitespace, no longer than the input, and is the input itself when the input has no whitespace at all |
| Text.StripCuts | iatiflattener/lib/iati_helpers.py:20 | `strip()` leaves `s[i..j]` where everything before `i` and from `j` on is whitespace: it removes a whitespace run at each end and nothing else |
| Text.StripUnique | iatiflattener/lib/iati_helpers.py:20 | the contracts of `Strip` and `StripCuts` determine the result: any trimmed text cut from the input by removing whitespace at both ends is `strip()` of it |
| Text.StripIdempotent | iatiflattener/lib/iati_helpers.py:28 | stripping an already stripped text changes nothing, so the double `strip()` of a single narrative is one strip |
| Text.Upper | iatiflattener/lib/iati_helpers.py:34 | `lang.upper()` keeps the length and maps exactly the ASCII lower-case letters to upper case |
| Text.NatToString | iatiflattener/lib/utils.py:26 | the decimal rendering of a natural number is non-empty, all digits, with no leading zero |
| Text.IntToString | iatiflattener/lib/utils.py:26 | `str(i)` is non-empty and starts with a minus sign exactly when `i` is negative |
| Text.DropUnderscoresDigits | iatiflattener/lib/utils.py:26 | leaving the underscores out of a literal's digits and underscores leaves only digits, keeps a leading digit first, and changes nothing in plain digits |
| Text.DropUnderscoresAppend | iatiflattener/lib/utils.py:26 | leaving out underscores distributes over concatenation |
| Text.ParseRun | iatiflattener/lib/utils.py:26 | the unsigned part of `int()` succeeds exactly on a digit run (digits, single underscores only between digits) and otherwise raises ValueError |
| Text.ParseSigned | iatiflattener/lib/utils.py:26 | after stripping, `int()` fails only with ValueError |
| Text.ParseInt | iatiflattener/lib/utils.py:26 | `int(s)` of a string fails only with ValueError |
| Text.RunTrimmed | iatiflattener/lib/utils.py:26 | `strip()` keeps a string of digits and underscores as it is |
| Text.ParseUnsigned | iatiflattener/lib/utils.py:26 | without padding or sign, `int()` of digits and underscores is the digit-run parse |
| Text.UnsignedRun | iatiflattener/lib/utils.py:26 | a stripped literal that starts with a digit or an underscore has no sign and is read as a digit run |
| Text.PlainRun | iatiflattener/lib/utils.py:26 | plain digits are a digit run worth their decimal value |
| Text.ParsePlain | iatiflattener/lib/utils.py:26 | `int()` of a string of plain digits is its decimal value |
| Text.GroupedIsRun | iatiflattener/lib/utils.py:26 | two digit groups joined by one underscore form a valid literal |
| Text.GroupedDigits | iatiflattener/lib/utils.py:26 | leaving out the joining underscore gives the concatenated digits |
| Text.ParseGrouped | iatiflattener/lib/utils.py:26 | `int("a_b") == int("ab")`: an underscore between digit groups is ignored |
| Text.ParseMisplacedUnderscore | iatiflattener/lib/utils.py:26 | a leading, trailing or doubled underscore makes `int()` raise ValueError, so `float_int_string` falls back to `str` |
| Text.ParseNoBreakSpace | iatiflattener/lib/utils.py:26 | `int("\xa07") == 7`: a no-break space pads like a space |
| Text.NatToStringValue | iatiflattener/lib/utils.py:26 | the decimal rendering of `n` is worth `n` |
| Text.MinusDigitsTrimmed | iatiflattener/lib/utils.py:26 | a minus sign followed by digits has no whitespace to strip |
| Text.SignedMinus | iatiflattener/lib/utils.py:26 | a minus sign before digits reads as the digits' value negated |
| Text.ParseNegative | iatiflattener/lib/utils.py:26 | `int("-" + d)` is minus the value of the digits `d` |
| Text.NegativeRoundTrip | iatiflattener/lib/utils.py:26 | `int(str(i)) == i` for every negative integer |
| Text.NegativeRendering | iatiflattener/lib/utils.py:26 | `str(-n)` of a positive `n` is a minus sign followed by the decimal digits of `n` |
| Text.IntToStringRoundTrip | iatiflattener/lib/utils.py:26 | `int(str(i)) == i` for every integer |
| Utils.DateLeAntisymmetric | iatiflattener/lib/iati_budget_helpers.py:68 | two dates each `<=` the other are the same date |
| Utils.MonthToken | iatiflattener/lib/utils.py:6 | the `%m` directive reads a month in 1..12 and consumes at least one character |
| Utils.DayToken | iatiflattener/lib/utils.py:6 | the `%d` directive reads a day in 1..31 from one or two characters |
| Utils.GetDate | iatiflattener/lib/utils.py:5-6 | a parsed date is a calendar date; a string `strptime` refuses raises ValueError |
| Utils.GetDateOpt | iatiflattener/lib/utils.py:5-6 | a missing attribute raises TypeError; a present one is parsed by `get_date` |
| Utils.IsoFormat | iatiflattener/transaction.py:63 | `isoformat()` is ten characters with `-` at positions 4 and 7 |
| Utils.GetDateIsoRoundTrip | iatiflattener/lib/utils.py:5-6 | every valid date parses back from its ISO form |
| Utils.GetDateZeroPaddedRoundTrip | iatiflattener/lib/utils.py:5-6 | a zero-padded string that parses is the ISO form of its date |
| Utils.GetDateExamples | iatiflattener/lib/utils.py:5-6 | a leap day parses, a non-existent day and a thirteenth month raise, unpadded fields are accepted, trailing text is refused |
| Utils.Quarter | iatiflattener/lib/utils.py:15 | `ceil(month / 3)` is the quarter 1..4 whose three months contain the month |
| Utils.GetFyFqNumeric | iatiflattener/lib/utils.py:14-15 | the year is the date's year and the quarter is the one containing its month |
| Utils.QuarterOfMonths | iatiflattener/lib/utils.py:15 | the first and last month of each quarter fall in that quarter |
| Utils.QuarterLabel | iatiflattener/lib/utils.py:11 | the label is `Q` followed by the quarter's digit |
| Utils.GetFyFq | iatiflattener/lib/utils.py:9-11 | succeeds exactly when the date parses, with the same error otherwise; the year is the date's and the label names the quarter containing its month |
| Utils.GetFyFqExample | iatiflattener/lib/utils.py:9-11 | `get_fy_fq("2010-05-27")` is `(2010, "Q2")` |
| Utils.GetFirst | iatiflattener/lib/utils.py:18-21 | the result is the first argument that is neither None nor `[]`, and the default when every argument is |
| Utils.FirstNonEmpty | iatiflattener/lib/iati_helpers.py:107-110 | two XPath results: the first when it is non-empty, else the second |
| Utils.Trunc | iatiflattener/lib/utils.py:26 | `int(x)` of a float truncates toward zero |
| Utils.FloatIntString | iatiflattener/lib/utils.py:24-28 | an int or float renders as the decimal of its (truncated) value; a string that `int` accepts renders as that integer, any other string is returned as it is; NaN renders as `nan` |
| Utils.GetIfExists | iatiflattener/lib/utils.py:31-36 | the entry under the normalised key, `""` when the table has none |
| Utils.GetIfExistsNormalises | iatiflattener/lib/utils.py:31-36 | an integer code finds the same entry as an int, as a float and as its decimal string |
| Wrappers.MapResult | iatiflattener/lib/iati_budget_helpers.py:62 | a `map` whose function may raise: all results in order when every element succeeds, else the error of the first element that fails |
| Iati.Dac | iatiflattener/lib/iati_helpers.py:120-121 | the `[not(@vocabulary) or @vocabulary='1']` predicate keeps exactly the DAC-vocabulary elements and drops nothing when all are DAC |
| Iati.DacAppend | iatiflattener/lib/iati_helpers.py:120-121 | the selection keeps document order: the DAC elements of a concatenation are those of the first part followed by those of the second |
| Iati.EffectiveCurrency | iatiflattener/lib/iati_budget_helpers.py:5-9 | the value's own currency when it has one, else the default currency |
| Iati.Codes | iatiflattener/lib/iati_transaction_helpers.py:32 | the codes of an allocation list, position by position |
| Iati.Lookup | iatiflattener/lib/iati_helpers.py:135-138 | `closest_rate` succeeds exactly when the currency is present and the table knows it, with the table's quote; it fails otherwise with UnknownCurrency |
| IatiHelpers.RulesOneReporterSide | iatiflattener/lib/iati_helpers.py:3-16 | in every row of the transaction-type table the reporter is on exactly one side, the provider role is `1`, `4` or the reporter and the receiver role `4` or the reporter |
| IatiHelpers.FirstIndex | iatiflattener/lib/iati_helpers.py:42 | the first narrative the language filter accepts, or none when it accepts none |
| IatiHelpers.StrippedText | iatiflattener/lib/iati_helpers.py:47 | `narrative.text.strip()` is the text with `str.isspace()` padding removed (no surrounding whitespace, the text itself when it has none); a narrative without text raises AttributeError |
| IatiHelpers.GetNarrative | iatiflattener/lib/iati_helpers.py:23-47 | a missing container raises AttributeError, no narrative gives `""`, and any non-empty result is the stripped text of one of the narratives |
| IatiHelpers.NarrativeSingle | iatiflattener/lib/iati_helpers.py:26-29 | a single narrative gives its stripped text, or `""` without text, whatever its language |
| IatiHelpers.NarrativePrefersRequested | iatiflattener/lib/iati_helpers.py:31-36 | with several narratives, the first in the requested language wins |
| IatiHelpers.NarrativeFallsBackToEnglish | iatiflattener/lib/iati_helpers.py:38-44 | with none in the requested language, the first English or untagged one wins |
| IatiHelpers.NarrativeFallsBackToFirst | iatiflattener/lib/iati_helpers.py:45-46 | with none requested and none English, the first narrative wins |
| IatiHelpers.GetOrgName | iatiflattener/lib/iati_helpers.py:50-57 | a missing or blank reference gives the text; a known reference gives the registry name; an unknown one gives the text, `""` when there is none |
| IatiHelpers.GetSectorCategory | iatiflattener/lib/iati_helpers.py:129-131 | no code gives `""`; otherwise the category of the code's first three characters, `""` when unknown |
| IatiHelpers.SectorCategoryByPrefix | iatiflattener/lib/iati_helpers.py:131 | two codes with the same three-character prefix have the same category |
| IatiHelpers.Survivors | iatiflattener/lib/iati_helpers.py:71 | the filter keeps exactly the items whose percentage is not `""`, `"0"` or `"0.0"`, and drops nothing when none is |
| IatiHelpers.SurvivorsDropExactly | iatiflattener/lib/iati_helpers.py:71 | the filter keeps the surviving items in input order and removes exactly the filtered ones |
| IatiHelpers.Rescale | iatiflattener/lib/iati_helpers.py:74-77 | each output keeps its item's code and carries its percentage over the total, times 100 |
| IatiHelpers.RescaleSum | iatiflattener/lib/iati_helpers.py:74-77 | the rescaled percentages sum to the items' total times 100 over the divisor |
| IatiHelpers.Normalise | iatiflattener/lib/iati_helpers.py:100-103 | an empty list gives `[]`, a zero total with items raises ZeroDivisionError, and any non-empty result sums to 100 |
| IatiHelpers.CleanSectors | iatiflattener/lib/iati_helpers.py:70-77 | ValueError exactly when a surviving percentage does not parse, ZeroDivisionError exactly when the survivors total 0; otherwise the survivors' codes in order with proportional percentages that sum to 100 |
| IatiHelpers.CleanParsed | iatiflattener/lib/iati_helpers.py:72-77 | summing the `float` of each percentage of an already filtered list and normalising: ValueError exactly when one does not parse, ZeroDivisionError exactly when the list is non-empty and totals 0, `[]` exactly for the empty list, otherwise the codes in order, each percentage rescaled by the total, summing to 100 |
| IatiHelpers.AsItems | iatiflattener/lib/iati_helpers.py:74-77 | a cleaned list read back as items keeps the codes and carries the float percentages |
| IatiHelpers.CleanSectorsIdempotent | iatiflattener/lib/iati_helpers.py:70-77 | cleaning an already cleaned list gives it back |
| IatiHelpers.RoundHalfEven | iatiflattener/lib/iati_helpers.py:91-92 | Python's `round` gives the nearest integer, ties to even |
| IatiHelpers.CleanCountries | iatiflattener/lib/iati_helpers.py:80-103 | a surviving country percentage that does not parse raises ValueError; without the region condition the result is `clean_sectors` of the countries; with it the result is exactly the cleaner (`CleanParsed`) applied to the countries' survivors followed by the regions' survivors: ValueError when a region percentage does not parse, ZeroDivisionError when the joint total is 0, otherwise each percentage rescaled by the joint total, summing to 100 |
| IatiHelpers.CleanCountriesWithoutRegions | iatiflattener/lib/iati_helpers.py:89-90 | no regions: the country cleaner is the sector cleaner |
| IatiHelpers.CountriesRoundingTo100IgnoreRegions | iatiflattener/lib/iati_helpers.py:91 | countries whose total rounds to 100 keep the regions out |
| IatiHelpers.UnweightedCountriesIgnoreRegions | iatiflattener/lib/iati_helpers.py:92 | countries without percentages (100 each) keep the regions out |
| IatiHelpers.PartialCountryTakesRegions | iatiflattener/lib/iati_helpers.py:94-103 | one country at 40% with one region gives the country 40/140 and the region 100/140 of the whole |
| IatiHelpers.GetCountries | iatiflattener/lib/iati_helpers.py:106-115 | the transaction's countries, else the activity's, with the transaction's DAC regions, else the activity's, cleaned; a non-empty result sums to 100 |
| IatiHelpers.GetSectors | iatiflattener/lib/iati_helpers.py:118-126 | a result is never empty and sums to 100: the cleaned DAC sectors of the transaction, else of the activity, else the 100% sentinel with code `""`; when cleaning the chosen list raises, that exception is the result |
| IatiHelpers.ValueInUsd | iatiflattener/lib/iati_helpers.py:134-140 | succeeds exactly when the lookup does, and the dollar value times the rate is the value; otherwise UnknownCurrency |
| Dicts.KeysOf | iatiflattener/lib/iati_budget_helpers.py:65 | the keys of a dictionary's items, in order |
| Dicts.ValuesOf | iatiflattener/lib/iati_budget_helpers.py:71-72 | `d.values()`: the values of the items, in order |
| Dicts.Dedup | iatiflattener/lib/iati_budget_helpers.py:62-63 | the keys a dictionary ends with: every given key, nothing else, each once |
| Dicts.DedupOrder | iatiflattener/lib/iati_budget_helpers.py:62-63 | the keys keep the order of their first occurrence: a key listed before another was first seen before it |
| Dicts.Get | iatiflattener/transaction.py:153 | `d.get(k)` is None exactly when the key is missing, and otherwise a value stored under it |
| Dicts.Put | iatiflattener/lib/iati_transaction_helpers.py:29-30 | item assignment: an existing key keeps its place and takes the new value, a new key goes last, keys stay distinct |
| Dicts.PutNew | iatiflattener/activity.py:68 | assigning a new key appends it |
| Dicts.DictFromPairs | iatiflattener/lib/iati_budget_helpers.py:62-63 | `dict(pairs)`: one entry per distinct key in order of first occurrence, holding the value of the last pair with that key |
| Dicts.DictFromPairsSnoc | iatiflattener/lib/iati_budget_helpers.py:62-63 | `dict(pairs + [x])` is `dict(pairs)` followed by the assignment of `x` |
| Dicts.DictEntriesArePairs | iatiflattener/lib/iati_budget_helpers.py:62-63 | every entry of `dict(pairs)` is one of the pairs |
| Dicts.DictFromDistinctPairs | iatiflattener/lib/iati_budget_helpers.py:71 | pairs whose keys are distinct pass through `dict` unchanged |
| Dicts.GetKeyed | iatiflattener/lib/iati_budget_helpers.py:62-63 | when each pair's value is a function of its key, the dictionary maps every given key to that function's value |
| TransactionHelpers.Distinct | iatiflattener/lib/iati_transaction_helpers.py:26-29 | the keys of `_out`: exactly the candidates' codes, each once |
| TransactionHelpers.SharesOver | iatiflattener/lib/iati_transaction_helpers.py:32 | one `{'code', 'percentage'}` entry per listed code, carrying that code's accumulated share |
| TransactionHelpers.GetCodesFromTransactions | iatiflattener/lib/iati_transaction_helpers.py:5-32 | the loop over the candidates, accumulating into the insertion-ordered `_out`, computes `CodesFromTransactions` |
| TransactionHelpers.PrefixStep | iatiflattener/lib/iati_transaction_helpers.py:28-30 | one loop step adds the candidate's code last if it is new and adds its share to that code alone |
| TransactionHelpers.CodeShareIsProportional | iatiflattener/lib/iati_transaction_helpers.py:30 | each code's share is its summed value over the total, times 100 |
| TransactionHelpers.SingleCodeIsWhole | iatiflattener/lib/iati_transaction_helpers.py:7-9 | candidates with one code give that code 100%, whatever their values and currencies |
| TransactionHelpers.WeightedSplitProperties | iatiflattener/lib/iati_transaction_helpers.py:25-32 | the value-weighted split lists each distinct code once in order of first occurrence, with its summed value over the total times 100, and sums to 100 |
| TransactionHelpers.ValueWeightedSplit | iatiflattener/lib/iati_transaction_helpers.py:10-12 | several codes in a single currency with a non-zero total give the value-weighted split |
| TransactionHelpers.CodesSumTo100 | iatiflattener/lib/iati_transaction_helpers.py:5-32 | any successful derivation lists each code once, only codes of the candidates, with percentages summing to 100 |
| TransactionHelpers.MixedCurrencyFails | iatiflattener/lib/iati_transaction_helpers.py:12-23 | several codes in several currencies reach the conversion branch, whose lambda names an undefined `t`, and raise NameError |
| TransactionHelpers.Candidates | iatiflattener/lib/iati_transaction_helpers.py:38-40 | the query keeps exactly the transactions that have the element and the given type |
| TransactionHelpers.Preferred | iatiflattener/lib/iati_transaction_helpers.py:37-45 | the outgoing commitments when any qualifies, else the incoming ones |
| TransactionHelpers.MapCandidates | iatiflattener/lib/iati_transaction_helpers.py:48-53 | one `(code, currency, value, value date)` tuple per transaction, in order |
| TransactionHelpers.SectorsFromTransactions | iatiflattener/lib/iati_transaction_helpers.py:35-55 | no qualifying transaction gives the sentinel; otherwise the result is `get_codes_from_transactions` of the preferred transactions' sector candidates; any result is non-empty and sums to 100 |
| TransactionHelpers.CountriesFromTransactions | iatiflattener/lib/iati_transaction_helpers.py:58-81 | no qualifying transaction gives `[]`; otherwise the result is `get_codes_from_transactions` of the preferred transactions' place candidates; a non-empty result sums to 100 |
| TransactionHelpers.AidTypeFromTransactions | iatiflattener/lib/iati_transaction_helpers.py:84-103 | no qualifying transaction gives the sentinel; otherwise the result is `get_codes_from_transactions` of the preferred transactions' aid-type candidates; any result is non-empty and sums to 100 |
| TransactionHelpers.FinanceTypeFromTransactions | iatiflattener/lib/iati_transaction_helpers.py:106-123 | no type-2 transaction with a finance type gives the sentinel; otherwise the result is `get_codes_from_transactions` of their finance-type candidates; any result is non-empty and sums to 100 |
| TransactionHelpers.SectorsPreferOutgoing | iatiflattener/lib/iati_transaction_helpers.py:37-45 | once an outgoing commitment qualifies, only outgoing commitments are used |
| TransactionHelpers.FinanceTypeIgnoresIncoming | iatiflattener/lib/iati_transaction_helpers.py:108-114 | both queries ask for type `2`, so an incoming commitment is never consulted |
| TransactionHelpers.PlaceCodePrefersCountry | iatiflattener/lib/iati_transaction_helpers.py:72-75 | a transaction's place code is its first recipient country, else its first DAC region |
| BudgetHelpers.GetBudgetData | iatiflattener/lib/iati_budget_helpers.py:4-19 | succeeds exactly when the start, end and value dates all parse; otherwise the error is that of the first of the three, in that order, that does not; the key is `(start, end)` and the data carries those dates, the effective currency, the value and the kind |
| BudgetHelpers.DataList | iatiflattener/lib/iati_budget_helpers.py:62-63 | `get_budget_data` of each element, in order, or failure when any element fails |
| BudgetHelpers.OfKind | iatiflattener/lib/iati_budget_helpers.py:59-60 | originals are budgets without a type or of type 1, revised ones those of type 2 |
| BudgetHelpers.KeptOriginals | iatiflattener/lib/iati_budget_helpers.py:66-71 | `filter(filter_budgets, ...)` keeps exactly the original items whose start date no revised budget starts on |
| BudgetHelpers.KindDict | iatiflattener/lib/iati_budget_helpers.py:62-63 | the dictionary of one kind is `dict` of that kind's budget data, failing when any element fails |
| BudgetHelpers.KindDictEntries | iatiflattener/lib/iati_budget_helpers.py:62-63 | a kind's dictionary has distinct keys, each its entry's own `(start, end)`, and every entry carries that kind |
| BudgetHelpers.KeptOriginalsDistinct | iatiflattener/lib/iati_budget_helpers.py:71 | filtering keeps the keys distinct, so the outer `dict` changes nothing |
| BudgetHelpers.StartRevisedIsMembership | iatiflattener/lib/iati_budget_helpers.py:66-69 | `<=` and `>=` against some revised start is membership among the revised starts |
| BudgetHelpers.RevisedAppended | iatiflattener/lib/iati_budget_helpers.py:72 | the revised budgets, one per distinct period, end the list |
| BudgetHelpers.OriginalDroppedIffRevisedStart | iatiflattener/lib/iati_budget_helpers.py:65-72 | an original budget is in the list exactly when no revised budget starts on its start date, whatever the end dates |
| BudgetHelpers.NotKeptValue | iatiflattener/lib/iati_budget_helpers.py:71 | an original whose start is revised leaves no value among the kept ones |
| BudgetHelpers.BoundsOf | iatiflattener/lib/iati_budget_helpers.py:26-27 | the start and end fiscal years and quarters of a budget are well formed |
| BudgetHelpers.RowsOf | iatiflattener/lib/iati_budget_helpers.py:45-54 | one row per quarter slot, in slot order |
| BudgetHelpers.BudgetRows | iatiflattener/lib/iati_budget_helpers.py:25-54 | a zero budget gives no rows; otherwise the rows exist exactly when the rate lookup succeeds, failing with UnknownCurrency |
| BudgetHelpers.GetBudgetPeriods | iatiflattener/lib/iati_budget_helpers.py:22-55 | the loops compute `Periods`: each budget's rows in order, stopping at the first failing lookup |
| BudgetHelpers.SplitBudget | iatiflattener/lib/iati_budget_helpers.py:35-54 | the year and quarter loops of one budget give its rows over all the slots of its period |
| BudgetHelpers.PeriodsStopAtError | iatiflattener/lib/iati_budget_helpers.py:30-33 | once a prefix of the budgets fails, the whole list fails the same way |
| BudgetHelpers.GetBudgets | iatiflattener/lib/iati_budget_helpers.py:58-74 | a parse failure of any budget is the result; otherwise the quarter rows of the kept originals followed by the revised budgets |
| BudgetHelpers.BudgetRowsConserve | iatiflattener/lib/iati_budget_helpers.py:34-49 | the quarter rows of a non-zero budget whose period is not inverted add up to its value, and their dollar values to its value over the one rate |
| BudgetHelpers.InvertedBudgetHasNoRows | iatiflattener/lib/iati_budget_helpers.py:28 | a period that ends before it starts gives no rows |
| BudgetHelpers.BudgetRowsShape | iatiflattener/lib/iati_budget_helpers.py:45-54 | every row carries the one rate, the currency, value date and kind, a quarter in 1..4, a year in the period and a dollar value equal to its value over the rate; rows ascend by year then quarter |
| BudgetHelpers.PeriodsHaveCurrency | iatiflattener/lib/iati_budget_helpers.py:30-52 | every row of every budget has a currency the table knows at its value date, that quote's rate, a quarter in 1..4 and its value over the rate in dollars |
| Slots.RangeLen | iatiflattener/lib/iati_budget_helpers.py:28 | `len(range(a, b + 1))` is `b - a + 1`, or 0 when `b < a` |
| Slots.YearSlots | iatiflattener/lib/iati_budget_helpers.py:36-44 | one slot per quarter of the year's quarter range, ascending, each knowing both range lengths |
| Slots.InvertedHasNoSlots | iatiflattener/lib/iati_budget_helpers.py:28 | an inverted period has no slot |
| Slots.YearHasQuarters | iatiflattener/lib/iati_budget_helpers.py:36-43 | in a period that is not inverted every year has a non-empty quarter range within 1..4 |
| Slots.AllSlotsInside | iatiflattener/lib/iati_budget_helpers.py:35-44 | every slot lies inside the period with a quarter in 1..4 |
| Slots.AllSlotsAscending | iatiflattener/lib/iati_budget_helpers.py:35-44 | slots ascend by year, then quarter, so no quarter repeats |
| Slots.SlotCount | iatiflattener/lib/iati_budget_helpers.py:35-44 | the number of quarter rows of a period within one year, and across several years |
| Slots.YearTotal | iatiflattener/lib/iati_budget_helpers.py:48-49 | the parts of one year add up to the value over the number of years |
| Slots.PartsSumToWhole | iatiflattener/lib/iati_budget_helpers.py:48-49 | the parts of all the slots of a period that is not inverted add up to the value |
| Fanout.Cons | iatiflattener/model.py:116-124 | one outer allocation put in front of each inner combination, position by position |
| Fanout.PrefixedLength | iatiflattener/model.py:116-124 | two nested loops visit `|xs| * |cs|` combinations |
| Fanout.PrefixedAt | iatiflattener/model.py:116-124 | visit `i * |cs| + j` of two nested loops is outer element `i` before inner combination `j` |
| Fanout.CombosShape | iatiflattener/model.py:116-127 | the nested loops visit the product of the list lengths, each combination taking one allocation from each list in list order |
| Fanout.PrefixedMembers | iatiflattener/model.py:116-124 | every visited combination is an outer element before an inner combination |
| Fanout.FactorSumPrefixed | iatiflattener/model.py:100-102 | the adjustments of a nested loop add up to the outer list's share times the inner loops' |
| Fanout.FactorsSumToShares | iatiflattener/model.py:100-102 | the adjustments of all combinations add up to the product of the lists' totals, each over 100 |
| Fanout.NormalisedAxesConserve | iatiflattener/model.py:100-102 | with every list summing to 100 the adjustments add up to 1 |
| Fanout.FanOutConserves | iatiflattener/model.py:100-111 | a value fanned out over normalised lists is carried whole by the rows together |
| Activity.Flattener.constructor | iatiflattener/activity.py:75-79 | a flattener starts with an empty memo and the given organisations, countries, categories and rates |
| Activity.ReportingOrg | iatiflattener/activity.py:18-33 | no reporting-org element raises AttributeError; otherwise the record has a text, the element's reference and type, and displays as `"{text} [{ref}]"` |
| Activity.ElementOrEmpty | iatiflattener/activity.py:38-51 | a default classification element, or `{}` exactly when there is none |
| Activity.GetData | iatiflattener/activity.py:7-54 | unknown keys, `reporting_org_type` among them, give None; the title is the English narrative and fails exactly, and with the same exception, when it does; the reporting organisation is `get_reporting_org` in English and fails exactly, and with the same exception, when it does; each classification is its default element, `{}` exactly without one; the currency is the default currency, None exactly without one |
| Activity.SetData | iatiflattener/activity.py:5-73 | the loop over the keys leaves the record and the memo as `Fill` does, with the first exception raised |
| Activity.SkipWhenSet | iatiflattener/activity.py:62 | a key the record already holds is skipped and nothing changes |
| Activity.CacheHit | iatiflattener/activity.py:63-65 | a memo hit is copied onto the record, the memo is unchanged and the activity is not read |
| Activity.MissWrites | iatiflattener/activity.py:66-73 | on a miss the computed value goes to the record and the memo, failing exactly when `get_data` does; an absent identifier gets a fresh entry holding only that key, otherwise the other keys are kept |
| Activity.ReportingOrgTypeIsNone | iatiflattener/activity.py:7-13 | `reporting_org_type` has no case in `get_data`, so it resolves to None |
| Activity.FillKeepsOtherIds | iatiflattener/activity.py:61-73 | other identifiers' memo entries are left as they were |
| Activity.FillFrame | iatiflattener/activity.py:61-73 | a key outside the list keeps its attribute and memo value |
| Activity.FillAgrees | iatiflattener/activity.py:61-73 | after a fill that raised nothing, every key that was None on the record holds exactly the memo's value |
| Activity.StepAgrees | iatiflattener/activity.py:61-73 | one step of the fill that raised nothing leaves the key it visited, if it was None, equal to the memo's value under that key, and every other key as it was |
| Activity.ActivityFunctionsDistinct | iatiflattener/activity.py:56-57 | the keys `set_data` fills are distinct |
| Activity.FillKeepsId | iatiflattener/activity.py:63-73 | once the identifier has an entry, it keeps one |
| ModelCache.ActivityCacheActivity.constructor | iatiflattener/model.py:37-46 | a new memo object carries the identifier and has every cached field None |
| ModelCache.ActivityCache.constructor | iatiflattener/model.py:56-57 | the cache starts empty |
| ModelCache.ActivityCache.Get | iatiflattener/model.py:50-54 | a known identifier returns its object and changes nothing; an unknown one gets a fresh empty object, which is stored and returned |
| ModelFields.PerLang | iatiflattener/model.py:610 | `[(lang, f(lang)) for lang in langs]`: one pair per language in order when every language succeeds, else the error of one that fails |
| ModelFields.PerLangLookup | iatiflattener/model.py:610 | in the dictionary built from those pairs every requested language finds its own value |
| ModelFields.Title | iatiflattener/model.py:607-612 | a memoised title is returned with the memo unchanged; otherwise the per-language narratives, stored in the memo, and a failure leaves the memo as it was |
| ModelFields.TitlePerLanguage | iatiflattener/model.py:610 | a computed title holds, for each language, that language's narrative |
| ModelFields.TitleMemoised | iatiflattener/model.py:608-609 | once a title is stored every later call returns it and changes nothing, whatever activity and languages it is given |
| ModelFields.ResolveTitle | iatiflattener/model.py:607-612 | the method on the memo object returns and stores what `Title` says |
| ModelFields.ReportingOrg | iatiflattener/model.py:642-647 | a memoised value is returned unchanged; without an element it raises AttributeError; otherwise the per-language records, stored in the memo |
| ModelFields.ReportingOrgPerLanguage | iatiflattener/model.py:625-640 | each language's record is `get_reporting_org(lang)` and displays as `"{text} [{ref}]"` |
| ModelFields.ReportingOrgMemoised | iatiflattener/model.py:643-644 | once stored, every later call returns the stored organisation and changes nothing |
| ModelFields.ResolveReportingOrg | iatiflattener/model.py:642-647 | the method on the memo object returns and stores what `ReportingOrg` says |
| ModelFields.CleanCountriesOpt | iatiflattener/model.py:704-706 | `clean_countries` on two memo lists: both present gives the cleaner's result, a None list raises |
| ModelFields.CountryRegionActivity | iatiflattener/model.py:703-715 | memo lists when either is set; otherwise the activity's countries and DAC regions, cleaned and written to the memo when any exists; `[]` when there are none; a non-empty result sums to 100 |
| ModelFields.CountryRegionTransaction | iatiflattener/model.py:689-694 | the transaction's own countries and DAC regions cleaned, `[]` when it has none |
| ModelFields.CountryRegionForTransaction | iatiflattener/model.py:717-724 | the transaction's places when it has any, else the activity's through the memo, else `False` (None); a result is non-empty and sums to 100 |
| ModelFields.CountryRegionForBudget | iatiflattener/model.py:726-733 | the activity's places through the memo, else the derivation from the transactions; a non-empty result sums to 100 |
| ModelFields.CountryRegionMemoised | iatiflattener/model.py:704-706 | once the activity's lists are in the memo, the next call gets the same countries from it |
| ModelFields.NoPlaceAnywhereIsFalse | iatiflattener/model.py:717-724 | no places on the transaction, the activity or the memo gives `False` and leaves the memo alone |
| ModelFields.ResolveCountryRegionActivity | iatiflattener/model.py:703-715 | the method on the memo object returns and stores what `CountryRegionActivity` says |
| ModelFields.ResolveCountryRegionForTransaction | iatiflattener/model.py:717-724 | the method returns and stores what `CountryRegionForTransaction` says |
| ModelFields.ResolveCountryRegionForBudget | iatiflattener/model.py:726-733 | the method returns and stores what `CountryRegionForBudget` says |
| ModelFields.SectorTransaction | iatiflattener/model.py:754-758 | the transaction's DAC sectors cleaned, `False` (`[]`) without any |
| ModelFields.SectorActivity | iatiflattener/model.py:767-774 | the memo's sectors cleaned when set; otherwise the activity's DAC sectors, written to the memo when any exists |
| ModelFields.SectorForTransaction | iatiflattener/model.py:776-784 | the transaction's sectors, else the activity's, else the sentinel, which is stored in the memo; a result is non-empty and sums to 100 |
| ModelFields.SentinelReused | iatiflattener/model.py:768-769 | the stored sentinel cleans back to itself, so later transactions without sectors get the same answer and memo |
| ModelFields.SectorForBudget | iatiflattener/model.py:786-790 | the activity's sectors through the memo, else those derived from the transactions; a result is non-empty and sums to 100 |
| ModelFields.ResolveSectorActivity | iatiflattener/model.py:767-774 | the method returns and stores what `SectorActivity` says |
| ModelFields.ResolveSectorForTransaction | iatiflattener/model.py:776-784 | the method returns and stores what `SectorForTransaction` says |
| ModelFields.ResolveSectorForBudget | iatiflattener/model.py:786-790 | the method returns and stores what `SectorForBudget` says |
| ModelFields.Humanitarian | iatiflattener/model.py:814-825 | 0 or 1; 1 exactly when the attribute consulted (the transaction's when it has one, else the activity's) is `true` or `1` |
| ModelFields.Currency | iatiflattener/model.py:835-843 | the transaction value's currency, else the activity default, which alone is written to the memo |
| ModelFields.ResolveCurrency | iatiflattener/model.py:835-843 | the method returns and stores what `Currency` says |
| ModelFields.WithCode | iatiflattener/model.py:859 | `setattr` on one classification's memo field sets that field and no other |
| ModelFields.FieldActivity | iatiflattener/model.py:856-860 | the activity's default element, whose code is written to the memo when it exists |
| ModelFields.DefaultFieldForTransaction | iatiflattener/model.py:869-878 | never fails: the transaction's own code, else the memo's, else the activity default's (then memoised), else None |
| ModelFields.DefaultFieldMemoised | iatiflattener/model.py:872-873 | once the default is in the memo, later transactions without their own element get the same code and memo |
| ModelFields.DefaultFieldForBudget | iatiflattener/model.py:880-887 | the activity default as one allocation of 100% (memoised), else the derivation from the transactions |
| ModelFields.DefaultFieldForBudgetIgnoresMemo | iatiflattener/model.py:880-887 | the budget resolution does not read the memo |
| ModelFields.ResolveDefaultFieldForTransaction | iatiflattener/model.py:869-878 | the method returns and stores what `DefaultFieldForTransaction` says |
| ModelFields.ResolveDefaultFieldForBudget | iatiflattener/model.py:880-887 | the method returns and stores what `DefaultFieldForBudget` says |
| ModelFields.StoreActivityDefault | iatiflattener/model.py:856-860 | the method leaves the memo as `FieldActivity` says and returns the default's code |
| ModelValues.ExchangeRateUsd | iatiflattener/model.py:203-210 | succeeds exactly when the lookup does (UnknownCurrency otherwise); the rate is the quote's, the dollar value times the rate is the original value, and the rate date is the ISO form of the quote's date |
| ModelValues.ExchangeRateEur | iatiflattener/model.py:212-218 | succeeds exactly when the table knows EUR on the value date; the euro value over that rate is the dollar value |
| ModelValues.EurIsCrossRate | iatiflattener/model.py:203-218 | the euro value is the original value at the cross rate EUR over the original currency |
| ModelValues.LocalValue | iatiflattener/model.py:223-232 | the dollar value times the rate of the country's currency, 0.00 when the lookup fails |
| ModelValues.LocalPairs | iatiflattener/model.py:222-232 | one `(code, local value)` assignment per country, in order |
| ModelValues.ValuesLocal | iatiflattener/model.py:220-233 | the loop builds the dictionary of those assignments |
| ModelValues.LocalValuePerCountry | iatiflattener/model.py:220-233 | every recipient country has its entry, 0.00 exactly for an unknown currency, independently of the others |
| ModelRecords.MultiCountry | iatiflattener/model.py:305-306 | 1 exactly when there is more than one country, otherwise 0 |
| ModelRecords.FirstOrgType | iatiflattener/model.py:254-255 | the type of the first language's record; IndexError without languages |
| ModelRecords.GenerateActivityBudget | iatiflattener/model.py:429-454 | a generated budget record carries the activity's identifier, type `budget`, its d-portal URL, the multi-country flag of its countries, the activity's humanitarian flag, non-empty sectors summing to 100 and countries summing to 100; each field is what its resolver gives on the memo the previous one left (title, reporting organisation and the type of its first language, `sector_for_budget`, `country_region_for_budget`, then the aid, finance and flow types), the budgets are the quarter rows of the budget list of `BudgetValues` for those countries, and the memo ends as the flow type left it |
| ModelRecords.ActivityBudgetGenerate | iatiflattener/model.py:429-454 | the method on the memo object returns and stores what `GenerateActivityBudget` says |
| ModelRecords.TransactionHeaderOf | iatiflattener/model.py:509-515 | a header that is not `False` has non-empty countries and sectors, each summing to 100; a successful call has resolved title, reporting organisation and its type and places in turn, each on the memo the previous one left; it is `False` exactly when no place was found, leaving the memo as the place resolution did; otherwise the header holds those values and the sectors `sector_for_transaction` resolves next, and the memo ends as the sectors left it |
| ModelRecords.TransactionAmounts | iatiflattener/model.py:530-536 | the value date parses, the fiscal year and quarter are `get_fy_fq` of the transaction date, and the dollar, euro and local values are the three conversions; a failure is a date error or UnknownCurrency |
| ModelRecords.TransactionRecordOf | iatiflattener/model.py:517-537 | a record carries the activity's identifier, the transaction's type, value and transaction date, the header's title, organisation, places and sectors, the multi-country flag of its countries, the humanitarian flag, the effective currency, the aid, finance and flow types resolved in turn on the memo, and the amounts of `TransactionAmounts`; it fails exactly when `TransactionAmounts` does, with its exception; the memo ends as the currency resolution left it |
| ModelRecords.GenerateTransaction | iatiflattener/model.py:508-538 | a generated record has non-empty countries and sectors summing to 100 and, with types limited, a type in 1..4; an exception of the header is the result; a header that is `False` gives `False`; a type outside 1..4 gives `False` when types are limited; otherwise the result is `TransactionRecordOf` of the header on the memo the header left, with the same exception or the same record and memo |
| ModelRecords.RecordValueConverted | iatiflattener/model.py:534 | a record's rate, dollar value and rate date are the conversion of its value in its currency on its value date |
| ModelRecords.NoPlaceNoTransaction | iatiflattener/model.py:513-514 | a transaction with no place anywhere gives `False` once the title and reporting organisation resolve |
| ModelRecords.ResolveTransactionHeader | iatiflattener/model.py:509-515 | the method returns and stores what `TransactionHeaderOf` says |
| ModelRecords.ResolveTransactionRecord | iatiflattener/model.py:517-537 | the method returns and stores what `TransactionRecordOf` says |
| ModelRecords.TransactionGenerate | iatiflattener/model.py:508-538 | the method returns and stores what `GenerateTransaction` says |
| ModelBudgets.ConvertBudget | iatiflattener/model.py:333-335 | the conversions of a budget succeed exactly when the currency and EUR lookups do, failing with UnknownCurrency, and keep the budget's data |
| ModelBudgets.GenerateBudget | iatiflattener/model.py:322-350 | a date error is the result; otherwise the key is `(start, end)` and the value is the conversion, which fails only with UnknownCurrency |
| ModelBudgets.BudgetValues | iatiflattener/model.py:410-416 | the original and revised dictionaries have distinct keys; it succeeds exactly when every original and every revised budget generates, failing with the originals' exception first and then the revised ones'; the dictionaries are `dict()` of the generated originals and of the generated revised budgets |
| ModelBudgets.BudgetValueListOverride | iatiflattener/model.py:418-425 | the list is the kept originals' values then the revised values, and an original is kept exactly when no revised period starts on its start date |
| ModelBudgets.LocalParts | iatiflattener/model.py:390 | each local value is split like the other values |
| ModelBudgets.QuarterRowsOf | iatiflattener/model.py:389-405 | one quarter row per slot, in order |
| ModelBudgets.GetModelBudgetPeriods | iatiflattener/model.py:373-406 | the loops compute `ModelPeriods`: each budget's quarter rows in order |
| ModelBudgets.SplitBudgetValue | iatiflattener/model.py:379-405 | the year loop of one budget gives its quarter rows |
| ModelBudgets.SplitYear | iatiflattener/model.py:381-405 | the quarter loop of one year gives one row per slot of that year |
| ModelBudgets.ValueRowsConserve | iatiflattener/model.py:395-398 | the quarter rows of a period that is not inverted add up to the budget's value, dollar value and euro value |
| ModelBudgets.ZeroBudgetKeepsRows | iatiflattener/model.py:376 | the zero test compares a field object with 0, so a zero budget is not skipped: it still gives zero-valued quarter rows, unlike `get_budget_periods` |
| ModelBudgets.QuarterRowLabels | iatiflattener/model.py:392-400 | every row has a quarter in 1..4 and a year in the period; a first-quarter transaction date (month `0`) is not a date `get_date` accepts |
| ModelBudgets.FirstQuarterDateIsNotADate | iatiflattener/model.py:400 | `"{year}-0-01"` does not parse |
| ModelFlat.ScaleValuesTwice | iatiflattener/model.py:182 | rescaling the local values twice is rescaling once by the product |
| ModelFlat.PctAdjustmentIsFactor | iatiflattener/model.py:172 | `(country%/100) * (sector%/100)` is the fan-out adjustment of the combination |
| ModelFlat.LocalAfterIsProduct | iatiflattener/model.py:182 | after `n` rows the shared local values are the starting ones scaled by the product of the first `n` adjustments |
| ModelFlat.Locals | iatiflattener/model.py:182-183 | one local-value dictionary per row |
| ModelFlat.TransactionCombosArePairs | iatiflattener/model.py:186-187 | every combination of the two loops is a sector and a country |
| ModelFlat.FlatTransaction.constructor | iatiflattener/model.py:195-199 | the shared dictionary starts with the record's local values |
| ModelFlat.FlatTransaction.MakeFlattened | iatiflattener/model.py:168-183 | the shared local values are rescaled in place by the combination's adjustment and the row carries the record's values scaled by it together with those rescaled local values |
| ModelFlat.FlatTransaction.Flatten | iatiflattener/model.py:185-188 | the rows are `FlattenedRows` of the starting local values, one per sector and country in loop order, and the shared local values end scaled by every adjustment |
| ModelFlat.PairCombosAt | iatiflattener/model.py:186-187 | visit `i * |ys| + j` of the two loops is `[xs[i], ys[j]]` |
| ModelFlat.TransactionRowAt | iatiflattener/model.py:168-188 | row `i * |countries| + j` is sector `i` with country `j`, its dollar value the transaction's times both percentages over 100 |
| ModelFlat.TransactionRowShare | iatiflattener/model.py:172-181 | a row's value in each column is the record's times its combination's adjustment |
| ModelFlat.TransactionColumnTotal | iatiflattener/model.py:172-188 | each value column of the rows sums to the record's value fanned out over the combinations |
| ModelFlat.TransactionRowsConserve | iatiflattener/model.py:172-188 | with normalised sector and country lists the rows carry the whole original, dollar and euro values |
| ModelFlat.TransactionLocalCompounds | iatiflattener/model.py:176-182 | each row's local values rescale the previous row's already scaled ones, while its dollar value is scaled afresh |
| ModelFlat.TransactionLocalIsProduct | iatiflattener/model.py:182 | row `k`'s local values are the record's scaled by the adjustments of rows `0..k` together |
| ModelFlat.SecondRowLocalIsQuartered | iatiflattener/model.py:182 | one sector at 100% and two countries at 50%: the second row's local values are a quarter of the transaction's while its dollar value is half |
| ModelFlat.BudgetAdjustmentIsProduct | iatiflattener/model.py:100-102 | the budget adjustment is the product of the five percentages, each over 100 |
| ModelFlat.BudgetCombosAreQuintuples | iatiflattener/model.py:116-123 | every combination of the five loops has one sector, country, aid type, finance type and flow type |
| ModelFlat.ComboRows | iatiflattener/model.py:124-127 | one row per quarter row for a combination, in order |
| ModelFlat.FlatBudget.constructor | iatiflattener/model.py:143-147 | the flattener keeps the record and the categories and has not set local values yet |
| ModelFlat.FlatBudget.MakeFlattened | iatiflattener/model.py:90-113 | the quarter row is copied in first, so the local values are the quarter row's scaled once by the adjustment; the row is `BudgetRowOf` |
| ModelFlat.FlatBudget.FlattenCombo | iatiflattener/model.py:124-127 | the innermost loop gives one row per quarter row and leaves the last row's local values |
| ModelFlat.FlatBudget.Flatten | iatiflattener/model.py:115-127 | the rows are `BudgetRows` over all combinations of the five lists, quarter rows innermost |
| ModelFlat.BudgetRowsCount | iatiflattener/model.py:115-127 | one row per combination per quarter row |
| ModelFlat.BudgetFlattenCount | iatiflattener/model.py:115-127 | the number of rows is the product of the six list lengths |
| ModelFlat.ConcatAt | iatiflattener/model.py:124-127 | element `m` of block `k`, with every block of length `q`, is element `k * q + m` of the whole |
| ModelFlat.BudgetRowIndex | iatiflattener/model.py:115-127 | row `k * |qs| + m` is combination `k` with quarter row `m` |
| ModelFlat.BudgetRowAt | iatiflattener/model.py:92-112 | that row carries its combination's five codes and its quarter row with the values, local values included, scaled by that combination alone |
| ModelFlat.ComboRowsTotal | iatiflattener/model.py:106-108 | one combination's rows carry the quarter rows' dollar values times its adjustment |
| ModelFlat.BudgetRowsTotal | iatiflattener/model.py:106-108 | over all combinations the rows carry each quarter's dollar value times each combination's adjustment |
| ModelFlat.BudgetRowsConserve | iatiflattener/model.py:100-127 | with all five lists normalised the rows together carry exactly the quarter rows' dollar value |
| ModelFlat.FiveAxesCount | iatiflattener/model.py:115-127 | a budget's five category lists give `|sectors| * |countries| * |aid types| * |finance types| * |flow types|` combinations, each a quintuple, and that count times the quarter rows is the number of rows |
| Transaction.FirstElement | iatiflattener/transaction.py:192-193 | `find` gives None exactly when there is no such element |
| Transaction.StrOrNone | iatiflattener/transaction.py:199 | the stored value reads back as the attribute's string, or None |
| Transaction.OrgOf | iatiflattener/transaction.py:51-52 | `reporting_org.get` succeeds exactly on a dictionary |
| Transaction.Present | iatiflattener/transaction.py:55-58 | `provider_org.get` and `receiver_org.get` succeed exactly when the organisation is not None |
| Transaction.CodeOf | iatiflattener/transaction.py:53-54 | `.get('code', '')` fails on None and gives `""` on an empty dictionary |
| Transaction.Store | iatiflattener/transaction.py:162-165 | the memo entry changes only for a non-empty list, and then only at that key |
| Transaction.ResolveSectors | iatiflattener/transaction.py:171-185 | a successful resolution always finds some sectors, the sentinel at worst; the order is the transaction's DAC sectors, else the memoised list, else the activity's DAC sectors (which are then memoised), else the sentinel (memoised too); a cleaner's exception is the result; the memo changes only in the last two cases |
| Transaction.ResolveCountries | iatiflattener/transaction.py:147-168 | the order is the transaction's countries and DAC regions, else the memoised lists, else the activity's (which are then memoised, each list when non-empty); nothing is found, leaving the memo as it was, only when all three are empty; a cleaner's exception is the result |
| Transaction.DatesOf | iatiflattener/transaction.py:201-203 | the parsed value date and fiscal year and quarter are well formed |
| Transaction.TxData | iatiflattener/transaction.py:12-73 | building a row changes only the record's activity attributes, its rate and its dollar value |
| Transaction.Convert | iatiflattener/transaction.py:16-31 | the checks, the alias and the lookup change only the rate and the dollar value |
| Transaction.FlatIatiTransaction.constructor | iatiflattener/transaction.py:207-218 | the record keeps its flattener, activity, transaction and type limit, with every header None and `output` False |
| Transaction.FlatIatiTransaction.ProcessTransaction | iatiflattener/transaction.py:138-205 | the new record, memo and exception are those of `Process` on the old ones |
| Transaction.FlatIatiTransaction.StepPlaces | iatiflattener/transaction.py:147-168 | the new state is `ProcessFromPlaces` of the place resolution on the activity's memo entry |
| Transaction.FlatIatiTransaction.PlacesOf | iatiflattener/transaction.py:148-165 | the places found and the memo entry written are `ResolveCountries` of the entry |
| Transaction.FlatIatiTransaction.StepSectors | iatiflattener/transaction.py:170-190 | the new state is `ProcessFromSectors` of the sector resolution on the activity's memo entry |
| Transaction.FlatIatiTransaction.SectorsOf | iatiflattener/transaction.py:171-185 | the sectors found and the memo entry written are `ResolveSectors` of the entry |
| Transaction.FlatIatiTransaction.StepValues | iatiflattener/transaction.py:192-205 | the new state is `ProcessFromValues` of the old one |
| Transaction.FlatIatiTransaction.TransactionData | iatiflattener/transaction.py:12-73 | the row or exception and the new record and memo are `TxData` of the old ones |
| Transaction.FlatIatiTransaction.Converted | iatiflattener/transaction.py:16-73 | the row or exception and the new record are `Convert` of the filled record |
| Transaction.FlatIatiTransaction.FlattenTransaction | iatiflattener/transaction.py:103-111 | the rows yielded, the exception that ended the generator and the final record and memo are `Flatten` of the old ones |
| Transaction.PlacesWriteOnlyPlaceKeys | iatiflattener/transaction.py:148-165 | resolving the places writes only the two place keys of the memo, and only when neither the transaction nor the memo had places |
| Transaction.PlacesMemoised | iatiflattener/transaction.py:153-165 | a later transaction of the same activity without places gets the places the first one took from the activity, from the memo |
| Transaction.SectorsWriteOnlySectorKey | iatiflattener/transaction.py:171-185 | resolving the sectors writes only the `sectors` key, and only when neither the transaction nor the memo had sectors; with none on the activity either it stores and returns the 100% sentinel |
| Transaction.SectorsMemoised | iatiflattener/transaction.py:175-185 | a later transaction of the same activity without sectors gets what the first one found, from the memo |
| Transaction.ValuesOutcome | iatiflattener/transaction.py:192-205 | the last layer raises exactly when a date does not parse, otherwise sets `output` with the value, dates, fiscal year and quarter and covid flag, and never touches memo, places or sectors |
| Transaction.SectorsOutcome | iatiflattener/transaction.py:170-205 | the middle layer sets `output` exactly when nothing raises and the type is counted or types are not limited; `multi_country` follows the count of places |
| Transaction.PlacesOutcome | iatiflattener/transaction.py:147-205 | from the first layer, `output` is set exactly when nothing raises, places were found and the type passes the limit, and then every field of the record is set from the transaction |
| Transaction.ProcessOutcome | iatiflattener/transaction.py:138-205 | `output` ends True exactly when nothing raised, a place was found and the type passes the limit; then `multi_country` is 1 exactly for more than one place and value, dates and type come from the transaction |
| Transaction.ProcessMemo | iatiflattener/transaction.py:142-145 | processing sets the identifier and changes only the activity's own memo entry |
| Transaction.ProcessPlaces | iatiflattener/transaction.py:143-165 | the places kept are those resolved on the activity's memo entry, an empty one for a new identifier |
| Transaction.NoPlaceNoOutput | iatiflattener/transaction.py:167-168 | with no place anywhere the record gets its identifier and nothing else |
| Transaction.ChecksBeforeLookup | iatiflattener/transaction.py:16-27 | a missing value date, currency or value raises, in that order, before any rate is looked up, so the rate table does not matter |
| Transaction.Asked | iatiflattener/transaction.py:26 | `USS` is converted as `USD`, any other currency as itself |
| Transaction.TxDataConverts | iatiflattener/transaction.py:14-31 | a failing memo fill is the outcome; otherwise the outcome is the conversion of the filled record |
| Transaction.OneLookup | iatiflattener/transaction.py:26-31 | exactly one lookup, for the aliased currency on the value date: its failure is the outcome, its rate gives the dollar value as value over rate |
| Transaction.ConvertRow | iatiflattener/transaction.py:26-73 | a successful conversion yields the row of the converted record, whose dollar value is its value over the looked-up rate |
| Transaction.RowScaled | iatiflattener/transaction.py:33-64 | the row's value and dollar value are the record's times both shares, and dollar value times rate is the value |
| Transaction.RowFields | iatiflattener/transaction.py:48-73 | the row's currency is the one looked up, never `USS`; its country, sector, category, identifier, type and `multi_country` are those of the call and the record |
| Transaction.Kept | iatiflattener/transaction.py:108-110 | the countries kept are no more than the countries |
| Transaction.KeptMembers | iatiflattener/transaction.py:108-110 | a country is kept exactly when it is one of the record's and its code is wanted |
| Transaction.BlockIsKept | iatiflattener/transaction.py:108-111 | the inner loop pairs its sector with each kept country, in order |
| Transaction.VisitsAt | iatiflattener/transaction.py:104-111 | visit `i * |kept| + j` is sector `i` with kept country `j` |
| Transaction.VisitsCount | iatiflattener/transaction.py:104-111 | there are `|sectors| * |kept|` visits |
| Transaction.VisitsMembers | iatiflattener/transaction.py:104-111 | a pair is visited exactly when its sector and its country are the record's and the country's code is wanted |
| Transaction.TxDataRowFields | iatiflattener/transaction.py:66-69 | a row is for the country, sector and category of its call |
| Transaction.FlattenFromKeeps | iatiflattener/transaction.py:103-111 | flattening changes only the record's activity attributes, its rate and its dollar value |
| Transaction.FlattenFromCount | iatiflattener/transaction.py:103-111 | without an exception one row per visit; with an exception, fewer rows than visits |
| Transaction.FlattenFromOrder | iatiflattener/transaction.py:103-111 | row `k` is for visit `k` |
| Transaction.RowAt | iatiflattener/transaction.py:103-111 | without an exception there is one row per visit and row `n` is for the visit at position `n` |
| Transaction.FlattenFromLayout | iatiflattener/transaction.py:103-111 | without an exception row `i * |kept| + j` is for sector `i` and kept country `j`, and there are `|sectors| * |kept|` rows |
| Transaction.FlattenVisits | iatiflattener/transaction.py:103-111 | iterating sectors that were never set, or countries never set under some sector, raises AttributeError with no row; otherwise flattening walks the visits |
| Budget.SectorsFor | iatiflattener/budget.py:164-178 | the sectors come from the memo when it has any, else from the activity's DAC sectors, else from its commitment transactions |
| Budget.CountriesFor | iatiflattener/budget.py:180-196 | no places are found exactly when the memo, the activity and its transactions have none; the order is the memoised lists, else the activity's countries and DAC regions, else the derivation from the transactions when it gives a list or an exception; a cleaner's or the derivation's exception is the result |
| Budget.TypeList | iatiflattener/budget.py:203-223 | a missing default type (`{}`) is derived from the transactions; any other becomes one 100% allocation to its code, or raises when `.get` fails |
| Budget.Pairs | iatiflattener/budget.py:118-120 | one element paired with each of a list, in order |
| Budget.FlatIatiBudget.constructor | iatiflattener/budget.py:230-240 | the record keeps its flattener and activity, with every header None and `output` False |
| Budget.FlatIatiBudget.ProcessActivity | iatiflattener/budget.py:154-227 | the new record, memo and exception are those of `Process` on the old ones |
| Budget.FlatIatiBudget.StepSectors | iatiflattener/budget.py:164-178 | the new state is `FromSectors` of the sector resolution |
| Budget.FlatIatiBudget.StepCountries | iatiflattener/budget.py:180-199 | the new state is `FromCountries` of the place resolution |
| Budget.FlatIatiBudget.StepTypes | iatiflattener/budget.py:201-227 | the new state is `FromTypes` of the aid-type and finance-type lists |
| Budget.FlatIatiBudget.BudgetData | iatiflattener/budget.py:17-80 | the period's keys are copied onto the record and the row is that record's `BudgetRowOf` |
| Budget.FlatIatiBudget.FlattenBudget | iatiflattener/budget.py:110-123 | the rows yielded, the exception that ended the generator and the final record are `Flatten` of the old record |
| Budget.ProductMembers | iatiflattener/budget.py:118-120 | a pair is in the product of two loops exactly when each half is in its list |
| Budget.ProductAt | iatiflattener/budget.py:118-120 | pair `i * |ys| + j` of the product is `(xs[i], ys[j])` |
| Budget.ProductSize | iatiflattener/budget.py:118-120 | the product has `|xs| * |ys|` pairs |
| Budget.VisitMembers | iatiflattener/budget.py:111-123 | a visit is made exactly when its sector, country, aid type, finance type and period are in their lists and the country's code is wanted |
| Budget.VisitsCount | iatiflattener/budget.py:111-123 | the number of visits is the product of the five list lengths, with only wanted countries counted |
| Budget.PeriodsInnermost | iatiflattener/budget.py:120-123 | for each sector, country, aid type and finance type the periods come in order, innermost |
| Budget.WithPeriodCurrency | iatiflattener/budget.py:19-20 | copying a period in sets the record's currency to the period's and changes nothing else |
| Budget.BudgetRowChecks | iatiflattener/budget.py:22-65 | a row is refused exactly for a missing currency, which raises first, or a missing reporting, provider or receiver organisation, whose `.get` fails |
| Budget.Scale4IsFactor | iatiflattener/budget.py:32-53 | scaling by the four percentages over 100 is scaling by the fan-out factor of the four allocations |
| Budget.BudgetRowScaled | iatiflattener/budget.py:32-71 | both values are the period's times the four allocations' factor, the rate is the period's, and dollar value stays value over rate |
| Budget.BudgetRowIgnoresFlowType | iatiflattener/budget.py:55-80 | the flow type plays no part in a budget row |
| Budget.BudgetRowLabels | iatiflattener/budget.py:66-79 | the row has type `budget`, COVID-19 flag 0, the period's fiscal year, `Q1`..`Q4`, a transaction date `year-{0,3,6,9}-01`, the period's value date and the record's currency |
| Budget.QuarterStrings | iatiflattener/budget.py:72-79 | `"Q{}"` of quarter 1..4 is the two-character label and `(q-1)*3` prints as 0, 3, 6 or 9 |
| Budget.FlattenFromCount | iatiflattener/budget.py:110-123 | without an exception one row per visit; with an exception, fewer rows than visits |
| Budget.FlattenFromOrder | iatiflattener/budget.py:110-123 | row `k` is for visit `k` |
| Budget.BudgetRowOfFor | iatiflattener/budget.py:110-123 | the row `budget_data` yields for a visit, when it yields one, carries that visit's sector, country, aid type, finance type and period |
| Budget.FlattenFromLayout | iatiflattener/budget.py:110-123 | without an exception the row for outer combination `i` and period `j` is at `i * |periods| + j` |
| Budget.FlattenFromNoTypeError | iatiflattener/budget.py:17-80 | a refused row raises a missing value or an attribute error, never a TypeError |
| Budget.FlattenLoopError | iatiflattener/budget.py:110-120 | a loop reaching a list that was never set raises in loop order (AttributeError for sectors, countries and budgets, which `set_headers` does not create; TypeError for the aid and finance types, which it sets to None) and yields nothing; TypeError arises exactly then |
| Budget.FlattenFromKeeps | iatiflattener/budget.py:19-20 | flattening moves only the period's attributes and `currency_original`; every other attribute stays |
| Budget.FlattenFromChecks | iatiflattener/budget.py:22-65 | when every visited period has a currency, the only possible exception is an attribute error, none arises when the organisations are present, and a missing reporting organisation yields no row |
| Budget.TypesOutcome | iatiflattener/budget.py:203-227 | `output` is set exactly when both type lists resolve, and then the lists and the provider and receiver organisations are set; nothing else moves |
| Budget.CountriesOutcome | iatiflattener/budget.py:180-227 | without an exception `output` is set exactly when places were found; the earlier attributes stay |
| Budget.SectorsOutcome | iatiflattener/budget.py:164-227 | from the sectors on, the record ends resolved and keeps its attributes, budgets and identifier |
| Budget.BudgetsOutcome | iatiflattener/budget.py:162-227 | the budgets kept are those of `get_budgets` on the activity's currency and the rates |
| Budget.ProcessOutcome | iatiflattener/budget.py:154-227 | processing sets the identifier, creates its memo entry and ends resolved; with output, the budgets are the activity's |
| Budget.ReadyFlatten | iatiflattener/budget.py:110-123 | a processed record with output flattens without exception to the product of its list lengths when its reporting organisation is present, and otherwise yields no row |
| Variables.Block | iatiflattener/lib/variables.py:51-54 | a multilingual header gives one `header#lang` column per language in order, any other header itself |
| Variables.HeadersDTypesFrom | iatiflattener/lib/variables.py:68-75 | exactly one `{header: dtype}` entry per header, in order: the test at line 71 compares a type with header names and never holds, so no entry is repeated per language |
| Variables.ExpandAppend | iatiflattener/lib/variables.py:48-55 | expanding a concatenation of headers concatenates the expansions, so the header order is kept |
| Variables.ExpandLength | iatiflattener/lib/variables.py:48-65 | each multilingual header gives `|langs|` columns and each other header one, for names and types alike |
| Variables.ExpandAligned | iatiflattener/lib/variables.py:48-65 | `dtypes` lines up with `headers`: column `i` has the type of the header it came from |
| Variables.HeadersLength | iatiflattener/lib/variables.py:7-65 | `headers(langs)` and `dtypes(langs)` both have 25 + 4 * |langs| entries and agree position by position |
| Variables.PlainWidth | iatiflattener/lib/variables.py:53-54 | headers that are not multilingual keep one column each |
| Variables.HeadersDTypesIgnoresLangs | iatiflattener/lib/variables.py:68-75 | `headers_dtypes` gives the same list for any languages |
| Variables.ExpandOneLanguage | iatiflattener/lib/variables.py:48-55 | with one language each multilingual header is tagged with it and every other header is kept, position by position |
| Variables.GroupByOneLanguage | iatiflattener/lib/variables.py:105-137 | `group_by_headers_with_langs([lang])` is `group_by_headers_with_lang(lang)` |
| Variables.PerLanguageAt | iatiflattener/lib/variables.py:78 | column `k * 4 + j` of the per-language part is multilingual header `j` tagged with language `k`: languages outer |
| Variables.HeadersWithLangsLayout | iatiflattener/lib/variables.py:77-78 | `headers_with_langs` is the identifier followed by four columns per language |
| Variables.OutputHeadersLength | iatiflattener/lib/variables.py:140-245 | the column titles exist for en, fr, es and pt, each covering the group-by headers and the three value columns |
| Generate.GetFyFqNumber | generate.py:90-92 | a date that parses gives its year and the quarter holding its month, 1 to 4; one that does not parse gives the parse's error |
| Generate.FyFqAgreesWithLibrary | generate.py:90-92 | the library's `get_fy_fq` agrees with this one, its quarter written `Qn` |
| Generate.FixNarrative | generate.py:136-139 | the result is the text with a whitespace run cut from each end and neither starts nor ends with `str.isspace()` whitespace, so by `Text.StripUnique` it is exactly `text.strip()` |
| Generate.GetNarrative | generate.py:142-154 | the text is stripped; only a chosen narrative without text raises, an attribute error, and never with fewer than two narratives |
| Generate.NarrativeOne | generate.py:145-148 | one narrative gives its stripped text, or `""` without text |
| Generate.NarrativePrefersEnglish | generate.py:149-154 | of several narratives the first English or untagged one decides |
| Generate.NarrativeFallsBackToFirst | generate.py:153 | of several narratives none English or untagged, the first decides |
| Generate.GetOrgName | generate.py:157-160 | a missing text gives `""`, any other the text itself |
| Generate.GetNarrativeText | generate.py:170-174 | the first narrative's text, None without narratives |
| Generate.MakeOrgOutput | generate.py:186-191 | the text falls back to the reference and the reference to the text; the type is kept |
| Generate.MakeOrgOutputDisplay | generate.py:179-185 | the display joins reference and text with `" - "` exactly when both are there, and is whichever is there otherwise |
| Generate.RulesAreLibraryRules | generate.py:64-76 | this role table is the library's without the `activity` row |
| Generate.ReporterCaseIsRole | generate.py:209-211 | the extra type tests of the reporter condition add nothing to the table's `reporter` role |
| Generate.ParticipatingKey | generate.py:227 | a participating key never clashes with the reporting-organisation key |
| Generate.ExplicitOrg | generate.py:195-204 | the transaction's own element gives its narrative, reference and type through `_make_org_output`, or raises exactly when its narrative does |
| Generate.ReportingOrgOut | generate.py:213-224 | a missing `reporting-org` raises an attribute error; otherwise its narrative, type and reference, displayed `"{ref} - {text}"` |
| Generate.WithRole | generate.py:228 | the organisations kept are exactly those with the role |
| Generate.SingleOrg | generate.py:229-237 | a role held by one organisation gives its first narrative's text or `""`, its reference falling back to that text, and its type |
| Generate.PartOrg | generate.py:239-245 | one of several organisations gives its narrative and its reference and type, missing ones read as `""` |
| Generate.Join | generate.py:247-250 | `"; ".join` of nothing is `""` and of one string is that string |
| Generate.JoinOrgs | generate.py:247-257 | the joined record has every field set |
| Generate.JoinTwoOrgs | generate.py:247-257 | two organisations give each field as the two fields with `"; "` between |
| Generate.Participating | generate.py:227-257 | no organisation with the role gives nothing, one gives its own record, and only an attribute error can be raised |
| Generate.ParticipatingSeveral | generate.py:238-257 | several organisations succeed exactly when every narrative can be read, and then give the field-by-field join of their parts in document order |
| Generate.ActivityData.constructor | generate.py:177 | the memo starts empty |
| Generate.ActivityData.GetOrg | generate.py:177-266 | the result and the new memo are `GetOrgOutcome` of the old memo |
| Generate.OwnOrgWins | generate.py:195-204 | the transaction's own element decides before the role table is read, and the memo is not touched |
| Generate.UnknownTypeRaises | generate.py:206-208 | without its own element, a type missing from the table raises KeyError |
| Generate.ReporterSide | generate.py:209-225 | the reporter's side gives the memoised record, else the activity's reporting organisation, memoised, or its error with the memo unchanged |
| Generate.ParticipatingSide | generate.py:227-266 | a participating side gives the memoised record, else the empty record when no organisation holds the role, else the one organisation's record, memoised |
| Generate.SeveralParticipants | generate.py:238-260 | several organisations succeed exactly when each narrative can be read, and then give the joined record, memoised |
| Generate.MemoOnlyGrows | generate.py:177-266 | the memo only grows, by at most one entry, and an exception leaves it unchanged |
| Generate.OutcomeKey | generate.py:206-228 | resolving through the role table either leaves the memo as it was or adds the one answer found, under the reporter or participating key the role selects, which was not there before |
| Generate.GetOrgIdempotent | generate.py:177-266 | asking again gives the same answer and leaves the memo as the first call left it |

## Left out

- The library-level `get_org` and `get_covid_matches` that `transaction.py:7` and `model.py:4` import from `lib/iati_helpers.py` are not part of this model: that file does not define them. The transaction and budget records take them as parameters (`OrgResolver`, `CovidMatcher`, `ActivityOrgResolver`). The script's own `get_org` at `generate.py:177` is modelled, by `Generate.GetOrgOutcome` and `Generate.ActivityData.GetOrg`; its `get_covid_matches` at `generate.py:116` is not. `get_classification_from_transactions`, imported at `model.py:5`, is defined in none of the files modelled.
- `CSV_HEADERS` and `_DTYPES` are not part of this model. `iatiflattener/__init__.py:11`, `transaction.py:8` and `budget.py:12` import them from `lib/variables.py`, which does not define them; the only definitions in view are the script's at `generate.py:13` and `generate.py:52`, which have no `flow_type`. `set_headers` is modelled as creating, all None, the record attributes the model reads: the identifier, the activity-level attributes `title`, `reporting_org`, `reporting_org_type`, `aid_type`, `finance_type`, `flow_type` and `currency_original`, and (for transactions) `multi_country`, `transaction_type`, `provider_org`, `receiver_org`, `value_original`, `exchange_rate_date`, `transaction_date`, `fiscal_year`, `fiscal_quarter`, `covid_19`, `exchange_rate` and `value_usd`. It does not create `countries`, `sectors` or `budgets`, so reading them before they are set raises AttributeError.
- The `__init__` methods of `FlatIATITransaction` and `FlatIATIBudget` call `process_*` at their end. In the model the constructor stops after `set_headers`, and `ProcessTransaction`/`ProcessActivity` is the separate next call. Together they do what `__init__` does.
- File and network I/O are left out: CSV and Excel writing, `output_transaction`/`output_budget`, `CSVFilesWriter`, `FlatTransactionBudgetCSV`, the codelist fetches and the exchange-rate download.
- Serialisation is left out: `as_dict`/`as_csv_dict`, `field_with_lang`, `JSONEncoder`, `jsonify` and `flatten_json` are reflection or output formatting.
- Floating point is modelled as exact `real` arithmetic, so float rounding and the exact float strings of the output are not modelled.
- The nearest-date search of `exchangerates`' `closest_rate` is not modelled. It is an oracle `RateTable` that gives a positive rate and the date found, or fails with UnknownCurrency. A None currency is treated as an unknown currency, because the library's behaviour on None is not visible.
- lxml and XPath navigation are replaced by datatypes for the parsed elements. The `vocabulary` filter (absent or `'1'`) is a function over them.
- Each flattener is modelled on one record at a time, not on a stream of records.
- `Transaction.DatesOf` parses the two dates once, up front. The source parses them in `process_transaction` after the earlier steps; this does not change the outcome, since the parses read only the transaction.
- Each group of nested `for` loops in the `flatten_*` generators is modelled as one loop over the Cartesian product of the lists, in the same order.
- A generator consumed to the end is modelled as the list of rows yielded plus the exception that stopped it, if any.
- `Transaction.StoredList` reads a memo value that is not a list as `[]`. This file only ever stores lists under those keys.
- Header names are an enumeration `Variables.Header`, rendered to the source's strings by `Variables.Name`.
- The `transaction-type` element is assumed present: its code is a string field of the transaction (`txType`).
- Transaction-level fan-out is left out of `FlattenIATIData` and `FlatIATITransaction` of `generate.py`. Both are I/O drivers, and the latter raises a NameError at `generate.py:467`. Of `generate.py` only the helpers listed above are modelled.
- Text.Upper: maps only the ASCII letters. Python's `str.upper()` maps every Unicode letter and can change the length (`'ß'` becomes `'SS'`).
- Text.ParseInt: reads only the ASCII digits. Python's `int()` also accepts the other Unicode decimal digits (Arabic-Indic, full-width and so on).
- BudgetHelpers.GetBudgetData: the `value` element is taken to be present with a text that `float()` reads, so the AttributeError, TypeError or ValueError of `find('value')` and `float()` is not modelled. A missing `period-start` or `period-end` element (AttributeError from `.get` on None, `iati_budget_helpers.py:10-11`) and a missing `iso-date` attribute are one None (`Iati.BudgetEl.periodStart`/`periodEnd`), and the model gives TypeError for both.
- ModelBudgets.GenerateBudget: as for `BudgetHelpers.GetBudgetData`, the `value` element and `float()` of its text are taken to succeed (`model.py:323`, `model.py:330-331`), and a missing `period-start` or `period-end` element gives TypeError where the source raises AttributeError (`model.py:328-329`).
- ModelRecords.TransactionRecordOf: the transaction's `value` element is taken to be present with a text that `float()` reads (`model.py:497`), so the AttributeError, TypeError or ValueError there is not modelled.
- ModelRecords.TransactionAmounts: the `value` element is taken to be present (`model.py:503`), so the AttributeError of `.get` on a missing element is not modelled; and, as for `Transaction.DatesOf`, a missing `transaction-date` element (AttributeError, `model.py:506`) and a missing `iso-date` attribute are one None.
- TransactionHelpers.MapCandidates: each candidate's `value` element is taken to be present with a text that `float()` reads (`iati_transaction_helpers.py:51`, `77`, `99`, `119`), so its `amount` is a number and the AttributeError, TypeError or ValueError there is not modelled.
- Utils.GetDate: `%Y` and the `[12]\d` of `%d` read only ASCII digits. `strptime`'s patterns are `str` regular expressions whose `\d` matches every Unicode decimal digit, so the source reads `"٢٠١٠-05-27"` as a date where the model raises ValueError.
- Iati.Coded: the `code` attribute of a sector, country, region or other classification element is assumed present and is a string field, as is `Iati.Allocation.code`. lxml's `.get('code')` gives None for an element without it, and the source carries that None on into the cleaned lists, the `_out` keys of `get_codes_from_transactions` and the flattened rows; the model does not represent it.
- Transaction.FlatIatiTransaction.StepValues: the transaction's `value` element is taken to be present with a text that `float()` reads, so the errors of `find('value')` and `float()` are not modelled.
- Transaction.DatesOf: one None `transactionDate` stands for both a missing `transaction-date` element (AttributeError in the source, from `.get` on None) and a missing `iso-date` attribute (TypeError from `get_fy_fq`); the model gives TypeError for both.
- A `Raw` percentage (`Pct`) carries its text and the result of `float()` on it side by side; the model does not tie the two together, so every pairing is allowed.
- The memo `activity_data` of `generate.py`'s `get_org` is modelled as holding only the organisation records `get_org` stores there, so its test `activity_data.get(key) is None` is read as the key being absent.
- Variables.HeadersDTypes: it carries no contract of its own. The pointwise contract is on `Variables.HeadersDTypesFrom`, and `Variables.HeadersDTypesIgnoresLangs` states that the languages play no part.
- Generate.JoinOrgs: it is defined only on records whose text, reference and type are all set (`Complete`). That always holds for the parts `get_org` joins, since `_make_org_output` falls back between text and reference and the type defaults to `""`.
- `iatiflattener/__init__.py` (`FlattenIATIData`), `group_data.py` and `data_quality.py` are not part of this model. They do directory walking, pandas grouping and Excel/JSON output.
