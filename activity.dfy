/** `ActivityDataSetter`: before a transaction or a budget is flattened, each
    activity-level field the record still lacks is filled, from the per-activity
    memo `flattener.activity_data[id]` when it holds a value, otherwise from the
    activity element, in which case the value is also written to the memo. */
module Activity {
  import opened Wrappers
  import opened Text
  import opened Iati
  import opened IatiHelpers

  /** The `{'text', 'type', 'ref', 'display'}` dictionary of an organisation. */
  datatype OrgRecord = OrgRecord(text: Option<string>, orgType: Option<string>, ref: Option<string>, display: string)

  /** A value stored on a record or in the memo (Python `None` is `Option.None`). */
  datatype Val =
    | Str(s: string)                    // a title, a currency code
    | Org(org: OrgRecord)
    | Element(el: Coded)                // a default-aid-type / -finance-type / -flow-type element
    | EmptyDict                         // `{}`
    | Items(xs: seq<Coded>)             // a list of elements or of `{'code', 'percentage'}` dictionaries

  /** One activity's memo, `activity_data[iati_identifier]`. */
  type Entry = map<string, Option<Val>>

  /** The record's attributes, by name. */
  type Attrs = map<string, Option<Val>>

  /** The shared state of a flattening run that the core reads and writes: the
      per-activity memo, and the tables it was set up with (organisation names,
      the recipient countries output is produced for, the DAC sector category
      table and the exchange rates). */
  class Flattener {
    var activityData: map<string, Entry>
    const organisations: map<string, string>
    const countries: set<string>
    const categoryGroup: map<string, string>
    const exchangeRates: RateTable

    constructor (organisations: map<string, string>, countries: set<string>,
                 categoryGroup: map<string, string>, exchangeRates: RateTable)
      ensures activityData == map[]
      ensures this.organisations == organisations && this.countries == countries
      ensures this.categoryGroup == categoryGroup && this.exchangeRates == exchangeRates
    {
      activityData := map[];
      this.organisations := organisations;
      this.countries := countries;
      this.categoryGroup := categoryGroup;
      this.exchangeRates := exchangeRates;
    }
  }

  /** The keys `set_data` fills, in order. */
  const ActivityFunctions: seq<string> :=
    ["title", "reporting_org", "reporting_org_type", "aid_type", "finance_type", "flow_type", "currency_original"]

  /** `get_reporting_org()` with the narrative in language `lang`:
      AttributeError without a reporting-org element. */
  function ReportingOrg(a: ActivityEl, organisations: map<string, string>, lang: string): (r: Result<OrgRecord>)
    ensures a.reportingOrg.None? ==> r == Err(AttributeError)
    ensures r.Ok? ==> r.value.text.Some?
    ensures r.Ok? ==> r.value.ref == a.reportingOrg.value.ref && r.value.orgType == a.reportingOrg.value.orgType
    ensures r.Ok? ==> r.value.display == r.value.text.value + " [" + Render(r.value.ref) + "]"
  {
    match a.reportingOrg
    case None => Err(AttributeError)
    case Some(ro) =>
      var narrative :- GetNarrative(Some(ro.narratives), lang);
      var text := GetOrgName(organisations, ro.ref, Some(narrative));
      Ok(OrgRecord(text, ro.orgType, ro.ref, Render(text) + " [" + Render(ro.ref) + "]"))
  }

  /** A default classification element, or `{}` when the activity has none. */
  function ElementOrEmpty(el: Option<Coded>): (v: Val)
    ensures v == EmptyDict <==> el.None?
    ensures el.Some? ==> v == Element(el.value)
  {
    if el.Some? then Element(el.value) else EmptyDict
  }

  /** `get_data(attr)`: a key it has no case for, `reporting_org_type` among
      them, gives None. */
  function GetData(a: ActivityEl, organisations: map<string, string>, key: string): (r: Result<Option<Val>>)
    ensures key !in ["title", "reporting_org", "aid_type", "finance_type", "flow_type", "currency_original"] ==>
      r == Ok(None)
    ensures key == "title" ==> (r.Err? <==> a.title.None? || GetNarrative(a.title, "en").Err?)
    ensures key == "title" && r.Ok? ==> r.value == Some(Str(GetNarrative(a.title, "en").value))
    ensures key == "title" && r.Err? ==> r.error == GetNarrative(a.title, "en").error
    ensures key == "reporting_org" ==> (r.Err? <==> ReportingOrg(a, organisations, "en").Err?)
    ensures key == "reporting_org" && r.Ok? ==> r.value == Some(Org(ReportingOrg(a, organisations, "en").value))
    ensures key == "reporting_org" && r.Err? ==> r.error == ReportingOrg(a, organisations, "en").error
    ensures key == "aid_type" ==> r == Ok(Some(ElementOrEmpty(a.defaultAidType)))
    ensures key == "aid_type" ==> (r.value == Some(EmptyDict) <==> a.defaultAidType.None?)
    ensures key == "finance_type" ==> r == Ok(Some(ElementOrEmpty(a.defaultFinanceType)))
    ensures key == "finance_type" ==> (r.value == Some(EmptyDict) <==> a.defaultFinanceType.None?)
    ensures key == "flow_type" ==> r == Ok(Some(ElementOrEmpty(a.defaultFlowType)))
    ensures key == "flow_type" ==> (r.value == Some(EmptyDict) <==> a.defaultFlowType.None?)
    ensures key == "currency_original" ==> r.Ok? && (r.value.None? <==> a.defaultCurrency.None?)
    ensures key == "currency_original" && a.defaultCurrency.Some? ==> r == Ok(Some(Str(a.defaultCurrency.value)))
  {
    if key == "title" then
      var t :- GetNarrative(a.title, "en");
      Ok(Some(Str(t)))
    else if key == "reporting_org" then
      var o :- ReportingOrg(a, organisations, "en");
      Ok(Some(Org(o)))
    else if key == "aid_type" then Ok(Some(ElementOrEmpty(a.defaultAidType)))
    else if key == "finance_type" then Ok(Some(ElementOrEmpty(a.defaultFinanceType)))
    else if key == "flow_type" then Ok(Some(ElementOrEmpty(a.defaultFlowType)))
    else if key == "currency_original" then
      (if a.defaultCurrency.None? then Ok(None) else Ok(Some(Str(a.defaultCurrency.value))))
    else Ok(None)
  }

  // ------------------------------------------------------------ the fill, as a function

  /** The record's attributes and the whole memo. */
  datatype Memo = Memo(attrs: Attrs, data: map<string, Entry>)

  /** What `set_data` leaves behind: the state, and the exception that ended it
      early, if any. */
  datatype Filled = Filled(memo: Memo, error: Option<Error>)

  /** `getattr(record, key)`: AttributeError for an attribute the record lacks. */
  function Attr(attrs: Attrs, key: string): Result<Option<Val>> {
    if key in attrs then Ok(attrs[key]) else Err(AttributeError)
  }

  /** `activity_data[id].get(key)`. */
  function Cached(data: map<string, Entry>, id: string, key: string): Option<Val> {
    if id in data && key in data[id] then data[id][key] else None
  }

  /** One iteration of the loop over `activity_functions`. */
  function Step(a: ActivityEl, organisations: map<string, string>, id: string, m: Memo, key: string): Result<Memo> {
    var current :- Attr(m.attrs, key);
    if current.Some? then Ok(m)
    else if id in m.data then
      if Cached(m.data, id, key).Some? then
        Ok(Memo(m.attrs[key := Cached(m.data, id, key)], m.data))
      else
        var v :- GetData(a, organisations, key);
        Ok(Memo(m.attrs[key := v], m.data[id := m.data[id][key := v]]))
    else
      var v :- GetData(a, organisations, key);
      Ok(Memo(m.attrs[key := v], m.data[id := map[key := v]]))
  }

  /** The loop over `keys`; a raised exception stops it with the state reached. */
  function Fill(a: ActivityEl, organisations: map<string, string>, id: string, m: Memo, keys: seq<string>): Filled
    decreases |keys|
  {
    if keys == [] then Filled(m, None)
    else
      match Step(a, organisations, id, m, keys[0])
      case Err(e) => Filled(m, Some(e))
      case Ok(m') => Fill(a, organisations, id, m', keys[1..])
  }

  /** `ActivityDataSetter(record).set_data()`: returns the record's new
      attributes and the exception, if one was raised. */
  method SetData(flattener: Flattener, activity: ActivityEl, attrs: Attrs)
    returns (newAttrs: Attrs, error: Option<Error>)
    modifies flattener
    ensures Filled(Memo(newAttrs, flattener.activityData), error) ==
      Fill(activity, flattener.organisations, activity.identifier,
           Memo(attrs, old(flattener.activityData)), ActivityFunctions)
  {
    var id := activity.identifier;
    var keys := ActivityFunctions;
    newAttrs := attrs;
    error := None;
    var i := 0;
    while i < |keys|
      invariant 0 <= i <= |keys|
      invariant Fill(activity, flattener.organisations, id, Memo(attrs, old(flattener.activityData)), keys) ==
        Fill(activity, flattener.organisations, id, Memo(newAttrs, flattener.activityData), keys[i..])
    {
      var key := keys[i];
      assert keys[i..][0] == key && keys[i..][1..] == keys[i + 1..];
      if key !in newAttrs {
        error := Some(AttributeError);
        return;
      }
      if newAttrs[key].Some? {
        i := i + 1;
        continue;
      }
      if id in flattener.activityData {
        if key in flattener.activityData[id] && flattener.activityData[id][key].Some? {
          newAttrs := newAttrs[key := flattener.activityData[id][key]];
        } else {
          var v := GetData(activity, flattener.organisations, key);
          if v.Err? {
            error := Some(v.error);
            return;
          }
          newAttrs := newAttrs[key := v.value];
          flattener.activityData := flattener.activityData[id := flattener.activityData[id][key := v.value]];
        }
      } else {
        var v := GetData(activity, flattener.organisations, key);
        if v.Err? {
          error := Some(v.error);
          return;
        }
        newAttrs := newAttrs[key := v.value];
        flattener.activityData := flattener.activityData[id := map[key := v.value]];
      }
      i := i + 1;
    }
  }

  // ------------------------------------------------------------ properties of one step

  /** A key the record already holds is skipped and the memo is left as it is. */
  lemma SkipWhenSet(a: ActivityEl, organisations: map<string, string>, id: string, m: Memo, key: string)
    requires key in m.attrs && m.attrs[key].Some?
    ensures Step(a, organisations, id, m, key) == Ok(m)
  {
  }

  /** A memo hit is copied onto the record; the activity element is not read. */
  lemma CacheHit(a: ActivityEl, b: ActivityEl, organisations: map<string, string>, id: string, m: Memo, key: string)
    requires key in m.attrs && m.attrs[key].None?
    requires id in m.data && key in m.data[id] && m.data[id][key].Some?
    ensures Step(a, organisations, id, m, key) == Step(b, organisations, id, m, key)
    ensures Step(a, organisations, id, m, key).Ok?
    ensures var m' := Step(a, organisations, id, m, key).value;
      m'.data == m.data && m'.attrs == m.attrs[key := m.data[id][key]]
  {
  }

  /** On a miss the computed value goes both to the record and to the memo; the
      identifier's entry is created fresh only when it is absent, otherwise its
      other keys are kept. */
  lemma MissWrites(a: ActivityEl, organisations: map<string, string>, id: string, m: Memo, key: string)
    requires key in m.attrs && m.attrs[key].None?
    requires Cached(m.data, id, key).None?
    ensures GetData(a, organisations, key).Err? <==> Step(a, organisations, id, m, key).Err?
    ensures Step(a, organisations, id, m, key).Ok? ==>
      var v := GetData(a, organisations, key).value;
      var m' := Step(a, organisations, id, m, key).value;
      m'.attrs == m.attrs[key := v] && id in m'.data && key in m'.data[id] && m'.data[id][key] == v &&
      m'.data[id].Keys == (if id in m.data then m.data[id].Keys + {key} else {key}) &&
      (id in m.data ==> forall k :: k in m.data[id] && k != key ==> m'.data[id][k] == m.data[id][k])
  {
  }

  /** `reporting_org_type` never resolves to a value. */
  lemma ReportingOrgTypeIsNone(a: ActivityEl, organisations: map<string, string>)
    ensures GetData(a, organisations, "reporting_org_type") == Ok(None)
  {
  }

  // ------------------------------------------------------------ properties of the fill

  /** Only the identifier's own entry is touched. */
  lemma {:induction false} FillKeepsOtherIds(a: ActivityEl, organisations: map<string, string>, id: string, m: Memo,
                                              keys: seq<string>, other: string)
    requires other != id
    ensures var d := Fill(a, organisations, id, m, keys).memo.data;
      (other in d <==> other in m.data) && (other in m.data ==> d[other] == m.data[other])
    decreases |keys|
  {
    if keys != [] {
      var s := Step(a, organisations, id, m, keys[0]);
      if s.Ok? {
        FillKeepsOtherIds(a, organisations, id, s.value, keys[1..], other);
      }
    }
  }

  /** A key outside the list keeps its attribute and its memo value. */
  lemma {:induction false} FillFrame(a: ActivityEl, organisations: map<string, string>, id: string, m: Memo,
                                      keys: seq<string>, k: string)
    requires k !in keys && k in m.attrs && id in m.data && k in m.data[id]
    ensures var m' := Fill(a, organisations, id, m, keys).memo;
      k in m'.attrs && m'.attrs[k] == m.attrs[k] &&
      id in m'.data && k in m'.data[id] && m'.data[id][k] == m.data[id][k]
    decreases |keys|
  {
    if keys != [] {
      var s := Step(a, organisations, id, m, keys[0]);
      if s.Ok? {
        FillFrame(a, organisations, id, s.value, keys[1..], k);
      }
    }
  }

  /** After a fill that raised nothing, every key that was None on the record
      holds exactly what the memo holds for it. */
  lemma {:induction false} FillAgrees(a: ActivityEl, organisations: map<string, string>, id: string, m: Memo,
                                       keys: seq<string>)
    requires forall i, j :: 0 <= i < j < |keys| ==> keys[i] != keys[j]
    requires Fill(a, organisations, id, m, keys).error.None?
    ensures var m' := Fill(a, organisations, id, m, keys).memo;
      forall k :: k in keys && k in m.attrs && m.attrs[k].None? ==>
        k in m'.attrs && id in m'.data && k in m'.data[id] && m'.attrs[k] == m'.data[id][k]
    decreases |keys|
  {
    if keys != [] {
      var k0 := keys[0];
      var s := Step(a, organisations, id, m, k0);
      assert s.Ok?;
      var rest := keys[1..];
      assert forall i, j :: 0 <= i < j < |rest| ==> rest[i] != rest[j] by {
        forall i, j | 0 <= i < j < |rest| ensures rest[i] != rest[j] {
          assert rest[i] == keys[i + 1] && rest[j] == keys[j + 1];
        }
      }
      FillAgrees(a, organisations, id, s.value, rest);
      StepAgrees(a, organisations, id, m, k0);
      if k0 in m.attrs && m.attrs[k0].None? {
        assert k0 !in rest;
        FillFrame(a, organisations, id, s.value, rest, k0);
      }
      forall k | k in rest && k in m.attrs && m.attrs[k].None?
        ensures k in s.value.attrs && s.value.attrs[k].None?
      {
        assert k != k0;
      }
    }
  }

  /** One iteration that raised nothing: a key that was None now holds what the
      memo holds for it, and every other attribute is as it was. */
  lemma StepAgrees(a: ActivityEl, organisations: map<string, string>, id: string, m: Memo, key: string)
    requires Step(a, organisations, id, m, key).Ok?
    ensures var m' := Step(a, organisations, id, m, key).value;
      (key in m.attrs && m.attrs[key].None? ==>
         key in m'.attrs && id in m'.data && key in m'.data[id] && m'.attrs[key] == m'.data[id][key]) &&
      forall k :: k != key && k in m.attrs ==> k in m'.attrs && m'.attrs[k] == m.attrs[k]
  {
  }

  /** The keys `set_data` fills are distinct, so `FillAgrees` applies to it. */
  lemma ActivityFunctionsDistinct()
    ensures forall i, j :: 0 <= i < j < |ActivityFunctions| ==> ActivityFunctions[i] != ActivityFunctions[j]
  {
  }

  /** The identifier's entry, once it exists, stays. */
  lemma {:induction false} FillKeepsId(a: ActivityEl, organisations: map<string, string>, id: string, m: Memo,
                                        keys: seq<string>)
    requires id in m.data
    ensures id in Fill(a, organisations, id, m, keys).memo.data
    decreases |keys|
  {
    if keys != [] {
      var s := Step(a, organisations, id, m, keys[0]);
      if s.Ok? {
        FillKeepsId(a, organisations, id, s.value, keys[1..]);
      }
    }
  }
}
