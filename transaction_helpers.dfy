/** `iatiflattener/lib/iati_transaction_helpers.py`: deriving an activity's
    sector, country, aid-type or finance-type split from its transactions,
    weighted by transaction value. */
module TransactionHelpers {
  import opened Wrappers
  import opened Utils
  import opened Iati
  import opened IatiHelpers

  /** The `(code, currency, value, value_date)` tuple a selector builds for one
      transaction. */
  datatype Candidate = Candidate(code: string, currency: Option<string>, value: real, valueDate: Option<string>)

  function CodeSet(cs: seq<Candidate>): set<string> {
    set i | 0 <= i < |cs| :: cs[i].code
  }

  function CurrencySet(cs: seq<Candidate>): set<Option<string>> {
    set i | 0 <= i < |cs| :: cs[i].currency
  }

  /** `sum(map(lambda t: float(t[2]), transactions))`. */
  function SumValues(cs: seq<Candidate>): real {
    if cs == [] then 0.0 else SumValues(cs[..|cs| - 1]) + cs[|cs| - 1].value
  }

  /** The codes in order of first occurrence: the key order of `_out`. */
  function Distinct(cs: seq<Candidate>): (d: seq<string>)
    ensures forall c :: c in d <==> c in CodeSet(cs)
    ensures forall i, j :: 0 <= i < j < |d| ==> d[i] != d[j]
  {
    if cs == [] then []
    else
      var prefix := cs[..|cs| - 1];
      var d := Distinct(prefix);
      var c := cs[|cs| - 1].code;
      assert CodeSet(cs) == CodeSet(prefix) + {c} by {
        assert forall i :: 0 <= i < |prefix| ==> prefix[i] == cs[i];
      }
      if c in d then d else d + [c]
  }

  /** One transaction's contribution, `(value / total) * 100`. */
  function Share(v: real, total: real): real
    requires total != 0.0
  {
    (v / total) * 100.0
  }

  /** What the loop has added to `_out[code]`: the sum of `(value/total)*100`
      over the candidates with that code. */
  function CodeShare(cs: seq<Candidate>, code: string, total: real): real
    requires total != 0.0
  {
    if cs == [] then 0.0
    else
      var last := cs[|cs| - 1];
      CodeShare(cs[..|cs| - 1], code, total) + (if last.code == code then Share(last.value, total) else 0.0)
  }

  /** The sum of the values of the candidates with the given code. */
  function CodeTotal(cs: seq<Candidate>, code: string): real {
    if cs == [] then 0.0
    else
      var last := cs[|cs| - 1];
      CodeTotal(cs[..|cs| - 1], code) + (if last.code == code then last.value else 0.0)
  }

  /** `list(map(lambda c: {'code': c[0], 'percentage': c[1]}, _out.items()))` for
      the codes `d`. */
  function SharesOver(d: seq<string>, cs: seq<Candidate>, total: real): (r: seq<Allocation>)
    requires total != 0.0
    ensures |r| == |d|
    ensures forall k :: 0 <= k < |d| ==> r[k] == Allocation(d[k], CodeShare(cs, d[k], total))
  {
    if d == [] then []
    else SharesOver(d[..|d| - 1], cs, total) + [Allocation(d[|d| - 1], CodeShare(cs, d[|d| - 1], total))]
  }

  /** `get_codes_from_transactions(transactions, rates)`. The rates are never
      consulted: the only branch that would use them fails on an undefined name. */
  function CodesFromTransactions(cs: seq<Candidate>): Result<seq<Allocation>> {
    if |CodeSet(cs)| == 1 then Ok([Allocation(cs[0].code, 100.0)])
    else if cs == [] then Ok([])
    else if |CurrencySet(cs)| != 1 then Err(NameError)
    else
      var total := SumValues(cs);
      if total == 0.0 then Err(ZeroDivisionError)
      else Ok(WeightedSplit(cs))
  }

  /** The shares of the distinct codes, in order of first occurrence. */
  function WeightedSplit(cs: seq<Candidate>): seq<Allocation>
    requires SumValues(cs) != 0.0
  {
    SharesOver(Distinct(cs), cs, SumValues(cs))
  }

  /** The loop of `get_codes_from_transactions`, accumulating per-code shares in
      the insertion-ordered dictionary `_out` (its key order is kept in `order`). */
  method GetCodesFromTransactions(cs: seq<Candidate>) returns (r: Result<seq<Allocation>>)
    ensures r == CodesFromTransactions(cs)
  {
    var uniqueCodes := CodeSet(cs);
    if |uniqueCodes| == 1 {
      assert cs != [];
      return Ok([Allocation(cs[0].code, 100.0)]);
    }
    var uniqueCurrencies := CurrencySet(cs);
    if |uniqueCurrencies| != 1 && cs != [] {
      return Err(NameError);
    }
    var total := SumValues(cs);
    var order: seq<string> := [];
    var acc: map<string, real> := map[];
    var i := 0;
    while i < |cs|
      invariant 0 <= i <= |cs|
      invariant i > 0 ==> total != 0.0
      invariant order == Distinct(cs[..i])
      invariant forall c :: c in acc <==> c in order
      invariant total != 0.0 ==> forall c :: c in acc ==> acc[c] == CodeShare(cs[..i], c, total)
    {
      if total == 0.0 {
        assert |CurrencySet(cs)| == 1;
        return Err(ZeroDivisionError);
      }
      var t := cs[i];
      PrefixStep(cs, i, total);
      if t.code !in acc {
        acc := acc[t.code := 0.0];
        order := order + [t.code];
      }
      acc := acc[t.code := acc[t.code] + Share(t.value, total)];
      i := i + 1;
    }
    assert cs[..|cs|] == cs;
    if cs == [] {
      return Ok([]);
    }
    var out := seq(|order|, k requires 0 <= k < |order| => Allocation(order[k], acc[order[k]]));
    assert out == WeightedSplit(cs) by {
      var w := SharesOver(order, cs, total);
      assert |out| == |w|;
      forall k | 0 <= k < |out| ensures out[k] == w[k] {
        assert order[k] in order;
      }
    }
    r := Ok(out);
  }

  // ------------------------------------------------------------ properties

  /** How the key order and the per-code shares change when the loop reads
      candidate `i`. */
  lemma PrefixStep(cs: seq<Candidate>, i: nat, total: real)
    requires i < |cs| && total != 0.0
    ensures Distinct(cs[..i + 1]) ==
      if cs[i].code in Distinct(cs[..i]) then Distinct(cs[..i]) else Distinct(cs[..i]) + [cs[i].code]
    ensures forall c :: (CodeShare(cs[..i + 1], c, total) ==
      CodeShare(cs[..i], c, total) + (if cs[i].code == c then Share(cs[i].value, total) else 0.0))
    ensures cs[i].code !in Distinct(cs[..i]) ==> CodeShare(cs[..i], cs[i].code, total) == 0.0
  {
    assert cs[..i + 1][..i] == cs[..i];
    if cs[i].code !in Distinct(cs[..i]) {
      CodeShareAbsent(cs[..i], cs[i].code, total);
    }
  }

  lemma {:induction false} CodeShareAbsent(cs: seq<Candidate>, code: string, total: real)
    requires total != 0.0 && code !in CodeSet(cs)
    ensures CodeShare(cs, code, total) == 0.0
  {
    if cs != [] {
      var prefix := cs[..|cs| - 1];
      assert forall i :: 0 <= i < |prefix| ==> prefix[i] == cs[i];
      assert CodeSet(prefix) <= CodeSet(cs);
      CodeShareAbsent(prefix, code, total);
    }
  }

  /** Each code's share is its summed value over the total, times 100. */
  lemma {:induction false} CodeShareIsProportional(cs: seq<Candidate>, code: string, total: real)
    requires total != 0.0
    ensures CodeShare(cs, code, total) == CodeTotal(cs, code) / total * 100.0
  {
    if cs != [] {
      CodeShareIsProportional(cs[..|cs| - 1], code, total);
      var last := cs[|cs| - 1];
      var a := CodeTotal(cs[..|cs| - 1], code);
      if last.code == code {
        assert a / total * 100.0 + Share(last.value, total) == (a + last.value) / total * 100.0;
      }
    }
  }

  function ShareSum(cs: seq<Candidate>, total: real): real
    requires total != 0.0
  {
    if cs == [] then 0.0 else ShareSum(cs[..|cs| - 1], total) + Share(cs[|cs| - 1].value, total)
  }

  lemma {:induction false} ShareSumIsRatio(cs: seq<Candidate>, total: real)
    requires total != 0.0
    ensures ShareSum(cs, total) == SumValues(cs) / total * 100.0
  {
    if cs != [] {
      ShareSumIsRatio(cs[..|cs| - 1], total);
      var a := SumValues(cs[..|cs| - 1]);
      var v := cs[|cs| - 1].value;
      assert a / total * 100.0 + Share(v, total) == (a + v) / total * 100.0;
    }
  }

  lemma {:induction false} SumPctAppend(a: seq<Allocation>, x: Allocation)
    ensures SumPct(a + [x]) == SumPct(a) + x.percentage
  {
    if a == [] {
      assert a + [x] == [x];
    } else {
      assert (a + [x])[1..] == a[1..] + [x];
      SumPctAppend(a[1..], x);
    }
  }

  /** Adding one candidate adds its share to the code it carries, if that code is
      listed (once) in `d`. */
  lemma {:induction false} SharesOverExtend(d: seq<string>, cs: seq<Candidate>, x: Candidate, total: real)
    requires total != 0.0
    requires forall i, j :: 0 <= i < j < |d| ==> d[i] != d[j]
    ensures SumPct(SharesOver(d, cs + [x], total)) ==
      SumPct(SharesOver(d, cs, total)) + (if x.code in d then Share(x.value, total) else 0.0)
  {
    if d != [] {
      var d0 := d[..|d| - 1];
      var e := d[|d| - 1];
      SharesOverExtend(d0, cs, x, total);
      assert (cs + [x])[..|cs + [x]| - 1] == cs;
      SumPctAppend(SharesOver(d0, cs + [x], total), Allocation(e, CodeShare(cs + [x], e, total)));
      SumPctAppend(SharesOver(d0, cs, total), Allocation(e, CodeShare(cs, e, total)));
      assert x.code in d <==> x.code in d0 || x.code == e;
      assert x.code == e ==> x.code !in d0;
    }
  }

  lemma {:induction false} SharesSumAll(cs: seq<Candidate>, total: real)
    requires total != 0.0
    ensures SumPct(SharesOver(Distinct(cs), cs, total)) == ShareSum(cs, total)
  {
    if cs != [] {
      var prefix := cs[..|cs| - 1];
      var x := cs[|cs| - 1];
      var sx := Share(x.value, total);
      assert cs == prefix + [x];
      SharesSumAll(prefix, total);
      assert ShareSum(cs, total) == ShareSum(prefix, total) + sx;
      var d := Distinct(prefix);
      SharesOverExtend(d, prefix, x, total);
      if x.code in d {
        assert Distinct(cs) == d;
      } else {
        var dd := d + [x.code];
        assert Distinct(cs) == dd;
        SharesOverSnoc(d, x.code, cs, total);
        CodeShareAbsent(prefix, x.code, total);
        assert CodeShare(cs, x.code, total) == sx;
        assert SumPct(SharesOver(dd, cs, total)) == SumPct(SharesOver(d, cs, total)) + sx;
      }
    }
  }

  lemma SharesOverSnoc(d: seq<string>, c: string, cs: seq<Candidate>, total: real)
    requires total != 0.0
    ensures SumPct(SharesOver(d + [c], cs, total)) == SumPct(SharesOver(d, cs, total)) + CodeShare(cs, c, total)
  {
    var dd := d + [c];
    assert dd[..|dd| - 1] == d;
    SumPctAppend(SharesOver(d, cs, total), Allocation(c, CodeShare(cs, c, total)));
  }

  /** All candidates with one code give that code 100%, whatever their values
      and currencies. */
  lemma SingleCodeIsWhole(cs: seq<Candidate>, code: string)
    requires cs != [] && forall i :: 0 <= i < |cs| ==> cs[i].code == code
    ensures CodesFromTransactions(cs) == Ok([Allocation(code, 100.0)])
  {
    assert CodeSet(cs) == {code};
  }

  /** The value-weighted split: each distinct code appears once, in order of
      first occurrence, with its summed value over the total times 100; the
      percentages sum to 100. */
  lemma WeightedSplitProperties(cs: seq<Candidate>)
    requires SumValues(cs) != 0.0
    ensures Codes(WeightedSplit(cs)) == Distinct(cs)
    ensures forall k :: 0 <= k < |WeightedSplit(cs)| ==>
      WeightedSplit(cs)[k].percentage == CodeTotal(cs, WeightedSplit(cs)[k].code) / SumValues(cs) * 100.0
    ensures SumPct(WeightedSplit(cs)) == 100.0
  {
    WeightedSplitShares(cs);
    WeightedSplitSum(cs);
  }

  lemma WeightedSplitShares(cs: seq<Candidate>)
    requires SumValues(cs) != 0.0
    ensures forall k :: 0 <= k < |WeightedSplit(cs)| ==>
      WeightedSplit(cs)[k].percentage == CodeTotal(cs, WeightedSplit(cs)[k].code) / SumValues(cs) * 100.0
  {
    var total := SumValues(cs);
    var r := WeightedSplit(cs);
    forall k | 0 <= k < |r| ensures r[k].percentage == CodeTotal(cs, r[k].code) / total * 100.0 {
      CodeShareIsProportional(cs, r[k].code, total);
    }
  }

  lemma WeightedSplitSum(cs: seq<Candidate>)
    requires SumValues(cs) != 0.0
    ensures SumPct(WeightedSplit(cs)) == 100.0
  {
    var total := SumValues(cs);
    SharesSumAll(cs, total);
    ShareSumIsRatio(cs, total);
    WholeOverWhole(total);
  }

  lemma WholeOverWhole(t: real)
    requires t != 0.0
    ensures t / t * 100.0 == 100.0
  {
  }

  /** Several codes in one currency with a non-zero total give the value-weighted
      split. */
  lemma ValueWeightedSplit(cs: seq<Candidate>)
    requires |CodeSet(cs)| != 1 && cs != [] && |CurrencySet(cs)| == 1 && SumValues(cs) != 0.0
    ensures CodesFromTransactions(cs) == Ok(WeightedSplit(cs))
  {
  }

  /** Whenever the derivation succeeds on some candidates, every code it returns
      appears once and the percentages sum to 100. */
  lemma CodesSumTo100(cs: seq<Candidate>)
    requires cs != [] && CodesFromTransactions(cs).Ok?
    ensures var r := CodesFromTransactions(cs).value;
      SumPct(r) == 100.0 && (forall i, j :: 0 <= i < j < |r| ==> r[i].code != r[j].code) &&
      (forall k :: 0 <= k < |r| ==> r[k].code in CodeSet(cs))
  {
    if |CodeSet(cs)| == 1 {
      assert cs[0].code in CodeSet(cs);
    } else {
      ValueWeightedSplit(cs);
      WeightedSplitProperties(cs);
    }
  }

  /** Several codes in several currencies: the branch that would convert them
      refers to undefined names and fails. */
  lemma MixedCurrencyFails(cs: seq<Candidate>)
    requires |CodeSet(cs)| != 1 && cs != [] && |CurrencySet(cs)| != 1
    ensures CodesFromTransactions(cs) == Err(NameError)
  {
  }

  // ------------------------------------------------------------ the selectors

  /** `transaction[<has>][transaction-type/@code='<txType>']`. */
  function Candidates(txs: seq<TransactionEl>, has: TransactionEl -> bool, txType: string): (r: seq<TransactionEl>)
    ensures forall t :: t in r <==> t in txs && has(t) && t.txType == txType
  {
    if txs == [] then []
    else if has(txs[0]) && txs[0].txType == txType then [txs[0]] + Candidates(txs[1..], has, txType)
    else Candidates(txs[1..], has, txType)
  }

  /** The transactions of the first type that has any, else of the second. */
  function Preferred(a: ActivityEl, has: TransactionEl -> bool, first: string, second: string): (r: seq<TransactionEl>)
    ensures Candidates(a.transactions, has, first) != [] ==> r == Candidates(a.transactions, has, first)
    ensures Candidates(a.transactions, has, first) == [] ==> r == Candidates(a.transactions, has, second)
  {
    var p := Candidates(a.transactions, has, first);
    if p != [] then p else Candidates(a.transactions, has, second)
  }

  /** The candidate tuple of a transaction: `value/@currency` defaulting to the
      activity currency. */
  function ToCandidate(t: TransactionEl, code: string, defaultCurrency: Option<string>): Candidate {
    Candidate(code, EffectiveCurrency(t.value, defaultCurrency), t.value.amount, t.value.valueDate)
  }

  function MapCandidates(txs: seq<TransactionEl>, code: TransactionEl -> string, defaultCurrency: Option<string>): (r: seq<Candidate>)
    ensures |r| == |txs|
    ensures forall i :: 0 <= i < |txs| ==> r[i] == ToCandidate(txs[i], code(txs[i]), defaultCurrency)
  {
    seq(|txs|, i requires 0 <= i < |txs| => ToCandidate(txs[i], code(txs[i]), defaultCurrency))
  }

  predicate HasDacSector(t: TransactionEl) { Dac(t.sectors) != [] }
  predicate HasPlace(t: TransactionEl) { t.countries != [] || Dac(t.regions) != [] }
  predicate HasDacAidType(t: TransactionEl) { Dac(t.aidTypes) != [] }
  predicate HasFinanceType(t: TransactionEl) { t.financeTypes != [] }

  /** Code of the first DAC sector (only read for transactions that have one). */
  function SectorCode(t: TransactionEl): string {
    if HasDacSector(t) then Dac(t.sectors)[0].code else ""
  }

  /** Code of the first recipient-country, else of the first DAC region. */
  function PlaceCode(t: TransactionEl): string {
    var places := FirstNonEmpty(t.countries, Dac(t.regions));
    if places != [] then places[0].code else ""
  }

  function AidTypeCode(t: TransactionEl): string {
    if HasDacAidType(t) then Dac(t.aidTypes)[0].code else ""
  }

  /** `transaction.find("finance-type")`: the first finance-type, any vocabulary. */
  function FinanceTypeCode(t: TransactionEl): string {
    if HasFinanceType(t) then t.financeTypes[0].code else ""
  }

  /** `get_sectors_from_transactions(activity, default_currency, rates)`. */
  function SectorsFromTransactions(a: ActivityEl, defaultCurrency: Option<string>): (r: Result<seq<Allocation>>)
    ensures Preferred(a, HasDacSector, "2", "11") == [] ==> r == Ok(Sentinel)
    ensures Preferred(a, HasDacSector, "2", "11") != [] ==>
      r == CodesFromTransactions(MapCandidates(Preferred(a, HasDacSector, "2", "11"), SectorCode, defaultCurrency))
    ensures r.Ok? ==> r.value != [] && SumPct(r.value) == 100.0
  {
    var txs := Preferred(a, HasDacSector, "2", "11");
    if txs == [] then Ok(Sentinel)
    else
      var cs := MapCandidates(txs, SectorCode, defaultCurrency);
      var r := CodesFromTransactions(cs);
      if r.Ok? then CodesSumTo100(cs); assert r.value != []; r else r
  }

  /** `get_countries_from_transactions(activity, default_currency, rates)`. */
  function CountriesFromTransactions(a: ActivityEl, defaultCurrency: Option<string>): (r: Result<seq<Allocation>>)
    ensures Preferred(a, HasPlace, "2", "11") == [] ==> r == Ok([])
    ensures Preferred(a, HasPlace, "2", "11") != [] ==>
      r == CodesFromTransactions(MapCandidates(Preferred(a, HasPlace, "2", "11"), PlaceCode, defaultCurrency))
    ensures r.Ok? && r.value != [] ==> SumPct(r.value) == 100.0
  {
    var txs := Preferred(a, HasPlace, "2", "11");
    if txs == [] then Ok([])
    else
      var cs := MapCandidates(txs, PlaceCode, defaultCurrency);
      var r := CodesFromTransactions(cs);
      if r.Ok? then CodesSumTo100(cs); r else r
  }

  /** `get_aid_type_from_transactions(activity, default_currency, rates)`. */
  function AidTypeFromTransactions(a: ActivityEl, defaultCurrency: Option<string>): (r: Result<seq<Allocation>>)
    ensures Preferred(a, HasDacAidType, "2", "11") == [] ==> r == Ok(Sentinel)
    ensures Preferred(a, HasDacAidType, "2", "11") != [] ==>
      r == CodesFromTransactions(MapCandidates(Preferred(a, HasDacAidType, "2", "11"), AidTypeCode, defaultCurrency))
    ensures r.Ok? ==> r.value != [] && SumPct(r.value) == 100.0
  {
    var txs := Preferred(a, HasDacAidType, "2", "11");
    if txs == [] then Ok(Sentinel)
    else
      var cs := MapCandidates(txs, AidTypeCode, defaultCurrency);
      var r := CodesFromTransactions(cs);
      if r.Ok? then CodesSumTo100(cs); assert r.value != []; r else r
  }

  /** `get_finance_type_from_transactions(activity, default_currency, rates)`:
      both queries ask for type '2'. */
  function FinanceTypeFromTransactions(a: ActivityEl, defaultCurrency: Option<string>): (r: Result<seq<Allocation>>)
    ensures Candidates(a.transactions, HasFinanceType, "2") == [] ==> r == Ok(Sentinel)
    ensures Preferred(a, HasFinanceType, "2", "2") != [] ==>
      r == CodesFromTransactions(MapCandidates(Preferred(a, HasFinanceType, "2", "2"), FinanceTypeCode, defaultCurrency))
    ensures r.Ok? ==> r.value != [] && SumPct(r.value) == 100.0
  {
    var txs := Preferred(a, HasFinanceType, "2", "2");
    if txs == [] then Ok(Sentinel)
    else
      var cs := MapCandidates(txs, FinanceTypeCode, defaultCurrency);
      var r := CodesFromTransactions(cs);
      if r.Ok? then CodesSumTo100(cs); assert r.value != []; r else r
  }

  /** Outgoing commitments (type '2') are used whenever one qualifies; incoming
      commitments (type '11') only otherwise. */
  lemma SectorsPreferOutgoing(a: ActivityEl, t: TransactionEl)
    requires t in a.transactions && t.txType == "2" && HasDacSector(t)
    ensures forall u :: u in Preferred(a, HasDacSector, "2", "11") ==> u.txType == "2"
  {
    assert t in Candidates(a.transactions, HasDacSector, "2");
  }

  /** The finance-type derivation never consults an incoming commitment. */
  lemma FinanceTypeIgnoresIncoming(a: ActivityEl)
    ensures forall u :: u in Preferred(a, HasFinanceType, "2", "2") ==> u.txType == "2"
  {
  }

  /** Within a transaction a recipient-country is preferred over a region. */
  lemma PlaceCodePrefersCountry(t: TransactionEl)
    ensures t.countries != [] ==> PlaceCode(t) == t.countries[0].code
    ensures t.countries == [] && Dac(t.regions) != [] ==> PlaceCode(t) == Dac(t.regions)[0].code
  {
  }
}
