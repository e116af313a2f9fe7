/** `generate.py`: the older flattening script's helpers. Its `get_first`,
    `clean_sectors`, `clean_countries`, `get_countries` and `get_sectors` are
    the library's own code over again and are modelled once, in `Utils` and
    `IatiHelpers`; what differs is modelled here: the numeric `get_fy_fq`, its
    own `get_narrative`, `get_org_name` and `get_narrative_text`, its role table
    and `get_org`, which resolves the provider or the receiver of a
    transaction and memoises what it found in a per-activity dictionary. */
module Generate {
  import opened Wrappers
  import opened Text
  import opened Utils
  import opened Iati
  import IatiHelpers
  import Activity

  type OrgRecord = Activity.OrgRecord

  // ------------------------------------------------------------ get_fy_fq

  /** `get_fy_fq(date)`: the calendar year and the quarter `ceil(month / 3)`
      as a number. */
  function GetFyFqNumber(s: Option<string>): (r: Result<(int, int)>)
    ensures r.Ok? <==> GetDateOpt(s).Ok?
    ensures r.Err? ==> r.error == GetDateOpt(s).error
    ensures r.Ok? ==> (r.value.0 == GetDateOpt(s).value.year && 1 <= r.value.1 <= 4 &&
      3 * (r.value.1 - 1) < GetDateOpt(s).value.month <= 3 * r.value.1)
  {
    var d :- GetDateOpt(s);
    Ok(GetFyFqNumeric(d))
  }

  /** The library's `get_fy_fq` is this one with the quarter written `"Qn"`. */
  lemma FyFqAgreesWithLibrary(s: Option<string>)
    ensures GetFyFq(s).Ok? <==> GetFyFqNumber(s).Ok?
    ensures GetFyFq(s).Err? ==> GetFyFq(s).error == GetFyFqNumber(s).error
    ensures GetFyFq(s).Ok? ==> GetFyFq(s).value == (GetFyFqNumber(s).value.0, QuarterLabel(GetFyFqNumber(s).value.1))
  {
  }

  // ------------------------------------------------------------ narratives

  /** `lang in (None, 'en')`: unlike the library, `'EN'` does not count. */
  predicate EnglishOrUntagged(n: Narrative) {
    n.lang.None? || n.lang == Some("en")
  }

  /** `fix_narrative(ref, text)`: only the `strip()` before its dead code. */
  function FixNarrative(text: string): (r: string)
    ensures Trimmed(r) && CutsSpace(text, r)
  {
    StripCuts(text);
    Strip(text)
  }

  /** `get_narrative(container)` of generate.py: `""` without narratives; one
      narrative gives its stripped text, `""` when it has none; of several, the
      first English or untagged one, else the first, and `None.strip()` raises
      AttributeError on a narrative without text. */
  function GetNarrative(ns: seq<Narrative>): (r: Result<string>)
    ensures r.Ok? ==> Trimmed(r.value)
    ensures r.Err? ==> r.error == AttributeError
    ensures |ns| <= 1 ==> r.Ok?
  {
    if |ns| == 0 then Ok("")
    else if |ns| == 1 then
      (if ns[0].text.Some? && ns[0].text.value != "" then Ok(FixNarrative(Strip(ns[0].text.value))) else Ok(""))
    else
      var chosen := match IatiHelpers.FirstIndex(ns, EnglishOrUntagged)
        case None => ns[0]
        case Some(i) => ns[i];
      var t :- IatiHelpers.StrippedText(chosen);
      Ok(FixNarrative(t))
  }

  /** One narrative: its stripped text, or `""`. */
  lemma NarrativeOne(n: Narrative)
    ensures GetNarrative([n]) == Ok(if n.text.Some? then Strip(n.text.value) else "")
  {
    if n.text.Some? {
      StripIdempotent(n.text.value);
      if n.text.value == "" {
        assert Strip("") == "";
      }
    }
  }

  /** Several narratives: the first English or untagged one decides. */
  lemma NarrativePrefersEnglish(ns: seq<Narrative>, i: nat)
    requires |ns| > 1 && i < |ns| && EnglishOrUntagged(ns[i])
    requires forall j :: 0 <= j < i ==> !EnglishOrUntagged(ns[j])
    ensures ns[i].text.None? ==> GetNarrative(ns) == Err(AttributeError)
    ensures ns[i].text.Some? ==> GetNarrative(ns) == Ok(Strip(ns[i].text.value))
  {
    var f := IatiHelpers.FirstIndex(ns, EnglishOrUntagged);
    assert f.Some? && f.value == i;
    if ns[i].text.Some? {
      StripIdempotent(ns[i].text.value);
    }
  }

  /** Several narratives, all in other languages: the first one decides. */
  lemma NarrativeFallsBackToFirst(ns: seq<Narrative>)
    requires |ns| > 1
    requires forall j :: 0 <= j < |ns| ==> !EnglishOrUntagged(ns[j])
    ensures ns[0].text.None? ==> GetNarrative(ns) == Err(AttributeError)
    ensures ns[0].text.Some? ==> GetNarrative(ns) == Ok(Strip(ns[0].text.value))
  {
    var f := IatiHelpers.FirstIndex(ns, EnglishOrUntagged);
    assert f.None?;
    if ns[0].text.Some? {
      StripIdempotent(ns[0].text.value);
    }
  }

  /** `get_org_name(ref, text)` of generate.py: `""` for a missing text, else
      the text; the reference plays no part. */
  function GetOrgName(text: Option<string>): (r: string)
    ensures text.Some? ==> r == text.value
    ensures text.None? ==> r == ""
  {
    if text == None then "" else text.value
  }

  /** `get_narrative_text(element)`: the text of the first narrative, None
      without one. */
  function GetNarrativeText(ns: seq<Narrative>): (r: Option<string>)
    ensures ns == [] ==> r.None?
    ensures ns != [] ==> r == ns[0].text
  {
    if |ns| > 0 then ns[0].text else None
  }

  // ------------------------------------------------------------ _make_org_output

  /** A reference that makes it into the display: present and not `""`. */
  predicate Shown(ref: Option<string>) {
    ref.Some? && ref.value != ""
  }

  /** `_make_org_output(text, ref, type)`: the display is the reference, a
      `" - "` when there was a reference and there is a text, and the text;
      `text` falls back to the reference and `ref` to the text (`get_first`
      keeps `""`, which is neither None nor `[]`). */
  function MakeOrgOutput(text: Option<string>, ref: Option<string>, orgType: Option<string>): (r: OrgRecord)
    ensures r.text == (if text.Some? then text else ref)
    ensures r.ref == (if ref.Some? then ref else text)
    ensures r.orgType == orgType
  {
    var display := if Shown(ref) then ref.value else "";
    var display := if display != "" && text.Some? then display + " - " else display;
    var display := if text.Some? then display + text.value else display;
    var neverEmpty := (_: string) => false;
    Activity.OrgRecord(GetFirst([text, ref], neverEmpty, None), orgType, GetFirst([ref, text], neverEmpty, None), display)
  }

  /** The display joins reference and text with `" - "` exactly when both are
      there, and is whichever one is there otherwise. */
  lemma MakeOrgOutputDisplay(text: Option<string>, ref: Option<string>, orgType: Option<string>)
    ensures Shown(ref) && text.Some? ==> MakeOrgOutput(text, ref, orgType).display == ref.value + " - " + text.value
    ensures Shown(ref) && text.None? ==> MakeOrgOutput(text, ref, orgType).display == ref.value
    ensures !Shown(ref) && text.Some? ==> MakeOrgOutput(text, ref, orgType).display == text.value
    ensures !Shown(ref) && text.None? ==> MakeOrgOutput(text, ref, orgType).display == ""
  {
  }

  /** The record of an organisation with nothing to say: every field `""`. */
  const EmptyOrg: OrgRecord := Activity.OrgRecord(Some(""), Some(""), Some(""), "")

  // ------------------------------------------------------------ the role table

  /** `TRANSACTION_TYPES_RULES` of generate.py. */
  const TypesRules: map<string, IatiHelpers.Roles> := map[
    "1" := IatiHelpers.Roles("1", "reporter"),
    "2" := IatiHelpers.Roles("reporter", "4"),
    "3" := IatiHelpers.Roles("reporter", "4"),
    "4" := IatiHelpers.Roles("reporter", "4"),
    "5" := IatiHelpers.Roles("4", "reporter"),
    "6" := IatiHelpers.Roles("4", "reporter"),
    "7" := IatiHelpers.Roles("reporter", "4"),
    "8" := IatiHelpers.Roles("reporter", "4"),
    "11" := IatiHelpers.Roles("1", "reporter"),
    "12" := IatiHelpers.Roles("reporter", "4"),
    "13" := IatiHelpers.Roles("1", "reporter")
  ]

  /** It is the library's table without the `"activity"` row. */
  lemma RulesAreLibraryRules()
    ensures TypesRules == IatiHelpers.TransactionTypesRules - {"activity"}
  {
  }

  function Role(rules: IatiHelpers.Roles, provider: bool): string {
    if provider then rules.provider else rules.receiver
  }

  /** The test of `get_org` for the reporting organisation's case. */
  predicate ReporterCase(role: string, provider: bool, txType: string) {
    role == "reporter" || (provider && txType in ["3", "4"]) || (!provider && txType in ["1", "11", "13"])
  }

  /** The extra conditions of that test add nothing: per the table, the
      provider of types 3 and 4 and the receiver of types 1, 11 and 13 are
      the reporter already. */
  lemma ReporterCaseIsRole(txType: string, provider: bool)
    requires txType in TypesRules
    ensures ReporterCase(Role(TypesRules[txType], provider), provider, txType) <==>
      Role(TypesRules[txType], provider) == "reporter"
  {
  }

  // ------------------------------------------------------------ get_org's branches

  /** The memo key of the reporting organisation. */
  const ReportingOrgKey: string := "reporting_org"

  /** The memo key `participating_org_{role}`. */
  function ParticipatingKey(role: string): (k: string)
    ensures k != ReportingOrgKey
  {
    assert ("participating_org_" + role)[0] == 'p';
    "participating_org_" + role
  }

  /** The transaction's own `provider-org` or `receiver-org` element. */
  function OwnOrg(tx: TransactionEl, provider: bool): Option<OrgEl> {
    if provider then tx.providerOrg else tx.receiverOrg
  }

  /** The transaction's own element: its narrative through `get_narrative`;
      the test `_ref is not None or _text is not None` always holds, since
      `get_org_name` returns a string, so the element decides. */
  function ExplicitOrg(el: OrgEl): (r: Result<OrgRecord>)
    ensures r.Ok? <==> GetNarrative(el.narratives).Ok?
    ensures r.Err? ==> r.error == AttributeError
    ensures r.Ok? ==> r.value == MakeOrgOutput(Some(GetNarrative(el.narratives).value), el.ref, el.orgType)
  {
    var n :- GetNarrative(el.narratives);
    Ok(MakeOrgOutput(Some(GetOrgName(Some(n))), el.ref, el.orgType))
  }

  /** The activity's `reporting-org`: AttributeError without one, else its
      narrative, type and reference, displayed `"{ref} - {text}"` with a missing
      reference rendered `None`. */
  function ReportingOrgOut(ro: Option<OrgEl>): (r: Result<OrgRecord>)
    ensures ro.None? ==> r == Err(AttributeError)
    ensures ro.Some? ==> (r.Ok? <==> GetNarrative(ro.value.narratives).Ok?)
    ensures r.Err? ==> r.error == AttributeError
    ensures r.Ok? ==> var n := GetNarrative(ro.value.narratives).value;
      r.value == Activity.OrgRecord(Some(n), ro.value.orgType, ro.value.ref, Render(ro.value.ref) + " - " + n)
  {
    match ro
    case None => Err(AttributeError)
    case Some(el) =>
      var n :- GetNarrative(el.narratives);
      Ok(Activity.OrgRecord(Some(n), el.orgType, el.ref, Render(el.ref) + " - " + n))
  }

  /** `participating-org[@role='{role}']`, in document order. */
  function WithRole(orgs: seq<OrgEl>, role: string): (r: seq<OrgEl>)
    ensures |r| <= |orgs|
    ensures forall p :: p in r <==> p in orgs && p.role == Some(role)
    decreases |orgs|
  {
    if orgs == [] then []
    else if orgs[0].role == Some(role) then [orgs[0]] + WithRole(orgs[1..], role)
    else WithRole(orgs[1..], role)
  }

  /** The record for a role held by one organisation: its first narrative's
      text, `""` without one. */
  function SingleOrg(p: OrgEl): (r: OrgRecord)
    ensures r.text == Some(GetOrgName(GetNarrativeText(p.narratives)))
    ensures r.ref == (if p.ref.Some? then p.ref else r.text)
    ensures r.orgType == p.orgType
  {
    MakeOrgOutput(Some(GetOrgName(GetNarrativeText(p.narratives))), p.ref, p.orgType)
  }

  /** One of several organisations holding a role: its narrative through
      `get_narrative`, a missing reference or type read as `""`. */
  function PartOrg(p: OrgEl): (r: Result<OrgRecord>)
    ensures r.Ok? <==> GetNarrative(p.narratives).Ok?
    ensures r.Ok? ==> r.value.text.Some? && r.value.ref.Some? && r.value.orgType.Some?
    ensures r.Ok? ==> (r.value.text == Some(GetNarrative(p.narratives).value) &&
      r.value.ref == Some(p.ref.GetOr("")) && r.value.orgType == Some(p.orgType.GetOr("")))
  {
    var n :- GetNarrative(p.narratives);
    Ok(MakeOrgOutput(Some(GetOrgName(Some(n))), Some(p.ref.GetOr("")), Some(p.orgType.GetOr(""))))
  }

  /** `"; ".join(xs)`. */
  function Join(xs: seq<string>): (r: string)
    ensures xs == [] ==> r == ""
    ensures |xs| == 1 ==> r == xs[0]
    decreases |xs|
  {
    if xs == [] then "" else if |xs| == 1 then xs[0] else xs[0] + "; " + Join(xs[1..])
  }

  /** Every part carries a text, a reference and a type. */
  predicate Complete(parts: seq<OrgRecord>) {
    forall i :: 0 <= i < |parts| ==> parts[i].text.Some? && parts[i].ref.Some? && parts[i].orgType.Some?
  }

  /** The parts' texts, types, references and displays, in order. */
  function Texts(parts: seq<OrgRecord>): (r: seq<string>)
    requires Complete(parts)
    ensures |r| == |parts| && forall i :: 0 <= i < |parts| ==> Some(r[i]) == parts[i].text
  {
    seq(|parts|, i requires 0 <= i < |parts| => parts[i].text.value)
  }

  function Types(parts: seq<OrgRecord>): (r: seq<string>)
    requires Complete(parts)
    ensures |r| == |parts| && forall i :: 0 <= i < |parts| ==> Some(r[i]) == parts[i].orgType
  {
    seq(|parts|, i requires 0 <= i < |parts| => parts[i].orgType.value)
  }

  function Refs(parts: seq<OrgRecord>): (r: seq<string>)
    requires Complete(parts)
    ensures |r| == |parts| && forall i :: 0 <= i < |parts| ==> Some(r[i]) == parts[i].ref
  {
    seq(|parts|, i requires 0 <= i < |parts| => parts[i].ref.value)
  }

  function Displays(parts: seq<OrgRecord>): (r: seq<string>)
    ensures |r| == |parts| && forall i :: 0 <= i < |parts| ==> r[i] == parts[i].display
  {
    seq(|parts|, i requires 0 <= i < |parts| => parts[i].display)
  }

  /** Several organisations: each field the `"; "`-join of the parts' fields,
      in order. */
  function JoinOrgs(parts: seq<OrgRecord>): (r: OrgRecord)
    requires Complete(parts)
    ensures r.text.Some? && r.ref.Some? && r.orgType.Some?
  {
    Activity.OrgRecord(Some(Join(Texts(parts))), Some(Join(Types(parts))), Some(Join(Refs(parts))),
                       Join(Displays(parts)))
  }

  /** Two organisations holding a role: their fields, `"; "` between. */
  lemma JoinTwoOrgs(p: OrgRecord, q: OrgRecord)
    requires Complete([p, q])
    ensures JoinOrgs([p, q]) == Activity.OrgRecord(
      Some(p.text.value + "; " + q.text.value), Some(p.orgType.value + "; " + q.orgType.value),
      Some(p.ref.value + "; " + q.ref.value), p.display + "; " + q.display)
  {
    assert [p, q][0] == p && [p, q][1] == q;
    assert Texts([p, q]) == [p.text.value, q.text.value];
    assert Types([p, q]) == [p.orgType.value, q.orgType.value];
    assert Refs([p, q]) == [p.ref.value, q.ref.value];
    assert Displays([p, q]) == [p.display, q.display];
    assert [p.display, q.display][1..] == [q.display];
    assert [p.text.value, q.text.value][1..] == [q.text.value];
    assert [p.orgType.value, q.orgType.value][1..] == [q.orgType.value];
    assert [p.ref.value, q.ref.value][1..] == [q.ref.value];
  }

  /** What the activity's participating organisations say about a role:
      nothing when none holds it, one organisation's record, or the joined
      records of several; a narrative without text among several raises. */
  function Participating(orgs: seq<OrgEl>, role: string): (r: Result<Option<OrgRecord>>)
    ensures |WithRole(orgs, role)| == 0 ==> r == Ok(None)
    ensures |WithRole(orgs, role)| == 1 ==> r == Ok(Some(SingleOrg(WithRole(orgs, role)[0])))
    ensures r.Err? ==> r.error == AttributeError
  {
    var ps := WithRole(orgs, role);
    if |ps| == 1 then Ok(Some(SingleOrg(ps[0])))
    else if |ps| > 1 then
      var parts :- MapResult(ps, PartOrg);
      assert Complete(parts) by {
        forall i | 0 <= i < |parts| ensures parts[i].text.Some? && parts[i].ref.Some? && parts[i].orgType.Some? {
          assert parts[i] == PartOrg(ps[i]).value;
        }
      }
      Ok(Some(JoinOrgs(parts)))
    else Ok(None)
  }

  /** Several organisations holding the role: one part per organisation, in
      document order, joined field by field; the first part whose narratives
      cannot be read raises. */
  lemma ParticipatingSeveral(orgs: seq<OrgEl>, role: string)
    requires |WithRole(orgs, role)| > 1
    ensures var ps := WithRole(orgs, role);
      var r := Participating(orgs, role);
      (r.Ok? <==> forall i :: 0 <= i < |ps| ==> GetNarrative(ps[i].narratives).Ok?) &&
      (r.Ok? ==> (MapResult(ps, PartOrg).Ok? && Complete(MapResult(ps, PartOrg).value) &&
                  r.value == Some(JoinOrgs(MapResult(ps, PartOrg).value))))
  {
  }

  // ------------------------------------------------------------ get_org

  /** What `get_org` returns, and the memo it leaves behind. */
  datatype Outcome = Outcome(result: Result<OrgRecord>, data: map<string, OrgRecord>)

  /** `get_org(activity_data, transaction, provider)` on the memo `data`. */
  function GetOrgOutcome(data: map<string, OrgRecord>, tx: TransactionEl, a: ActivityEl, provider: bool): Outcome {
    if OwnOrg(tx, provider).Some? then Outcome(ExplicitOrg(OwnOrg(tx, provider).value), data)
    else if tx.txType !in TypesRules then Outcome(Err(KeyError), data)
    else
      var role := Role(TypesRules[tx.txType], provider);
      if ReporterCase(role, provider, tx.txType) then
        if ReportingOrgKey in data then Outcome(Ok(data[ReportingOrgKey]), data)
        else
          match ReportingOrgOut(a.reportingOrg)
          case Err(e) => Outcome(Err(e), data)
          case Ok(o) => Outcome(Ok(o), data[ReportingOrgKey := o])
      else
        var key := ParticipatingKey(role);
        if key in data then Outcome(Ok(data[key]), data)
        else
          match Participating(a.participatingOrgs, role)
          case Err(e) => Outcome(Err(e), data)
          case Ok(None) => Outcome(Ok(EmptyOrg), data)
          case Ok(Some(o)) => Outcome(Ok(o), data[key := o])
  }

  /** The per-activity dictionary `activity_data` that `get_org` reads and
      fills. */
  class ActivityData {
    var data: map<string, OrgRecord>

    constructor ()
      ensures data == map[]
    {
      data := map[];
    }

    /** `get_org(self.data, transaction, provider)`. */
    method GetOrg(tx: TransactionEl, a: ActivityEl, provider: bool) returns (r: Result<OrgRecord>)
      modifies this
      ensures Outcome(r, data) == GetOrgOutcome(old(data), tx, a, provider)
    {
      var el := OwnOrg(tx, provider);
      if el.Some? {
        r := ExplicitOrg(el.value);
        return;
      }
      if tx.txType !in TypesRules {
        r := Err(KeyError);
        return;
      }
      var role := Role(TypesRules[tx.txType], provider);
      if ReporterCase(role, provider, tx.txType) {
        if ReportingOrgKey !in data {
          var ro := ReportingOrgOut(a.reportingOrg);
          if ro.Err? {
            r := Err(ro.error);
            return;
          }
          data := data[ReportingOrgKey := ro.value];
        }
        r := Ok(data[ReportingOrgKey]);
        return;
      }
      var key := ParticipatingKey(role);
      if key !in data {
        var found := Participating(a.participatingOrgs, role);
        if found.Err? {
          r := Err(found.error);
          return;
        }
        if found.value.Some? {
          data := data[key := found.value.value];
        }
      }
      if key in data {
        r := Ok(data[key]);
      } else {
        r := Ok(EmptyOrg);
      }
    }
  }

  // ------------------------------------------------------------ properties of get_org

  /** The transaction's own element decides, before the role table is
      consulted: no KeyError for an unknown type, and the memo is untouched. */
  lemma OwnOrgWins(data: map<string, OrgRecord>, tx: TransactionEl, a: ActivityEl, provider: bool)
    requires OwnOrg(tx, provider).Some?
    ensures GetOrgOutcome(data, tx, a, provider).data == data
    ensures GetOrgOutcome(data, tx, a, provider).result == ExplicitOrg(OwnOrg(tx, provider).value)
  {
  }

  /** Without its own element, a transaction type missing from the table
      raises KeyError. */
  lemma UnknownTypeRaises(data: map<string, OrgRecord>, tx: TransactionEl, a: ActivityEl, provider: bool)
    requires OwnOrg(tx, provider).None? && tx.txType !in TypesRules
    ensures GetOrgOutcome(data, tx, a, provider) == Outcome(Err(KeyError), data)
  {
  }

  /** The reporter's side: the memoised record when there is one, else the
      activity's reporting organisation, which is then memoised. */
  lemma ReporterSide(data: map<string, OrgRecord>, tx: TransactionEl, a: ActivityEl, provider: bool)
    requires OwnOrg(tx, provider).None? && tx.txType in TypesRules
    requires Role(TypesRules[tx.txType], provider) == "reporter"
    ensures ReportingOrgKey in data ==>
      GetOrgOutcome(data, tx, a, provider) == Outcome(Ok(data[ReportingOrgKey]), data)
    ensures ReportingOrgKey !in data && ReportingOrgOut(a.reportingOrg).Ok? ==>
      var o := ReportingOrgOut(a.reportingOrg).value;
      GetOrgOutcome(data, tx, a, provider) == Outcome(Ok(o), data[ReportingOrgKey := o])
    ensures ReportingOrgKey !in data && ReportingOrgOut(a.reportingOrg).Err? ==>
      GetOrgOutcome(data, tx, a, provider) == Outcome(ReportingOrgOut(a.reportingOrg), data)
  {
  }

  /** The participating side: the memoised record, else the one organisation
      holding the role, memoised, else the empty record with the memo left
      as it was. */
  lemma ParticipatingSide(data: map<string, OrgRecord>, tx: TransactionEl, a: ActivityEl, provider: bool)
    requires OwnOrg(tx, provider).None? && tx.txType in TypesRules
    requires Role(TypesRules[tx.txType], provider) != "reporter"
    ensures var key := ParticipatingKey(Role(TypesRules[tx.txType], provider));
      key in data ==> GetOrgOutcome(data, tx, a, provider) == Outcome(Ok(data[key]), data)
    ensures var role := Role(TypesRules[tx.txType], provider);
      ParticipatingKey(role) !in data && |WithRole(a.participatingOrgs, role)| == 0 ==>
      GetOrgOutcome(data, tx, a, provider) == Outcome(Ok(EmptyOrg), data)
    ensures var role := Role(TypesRules[tx.txType], provider);
      ParticipatingKey(role) !in data && |WithRole(a.participatingOrgs, role)| == 1 ==>
      var o := SingleOrg(WithRole(a.participatingOrgs, role)[0]);
      GetOrgOutcome(data, tx, a, provider) == Outcome(Ok(o), data[ParticipatingKey(role) := o])
  {
    ReporterCaseIsRole(tx.txType, provider);
  }

  /** Several organisations holding the role: one part per organisation in
      document order, each field joined with `"; "`, and the record is
      memoised; a part whose narratives cannot be read raises. */
  lemma SeveralParticipants(data: map<string, OrgRecord>, tx: TransactionEl, a: ActivityEl, provider: bool)
    requires OwnOrg(tx, provider).None? && tx.txType in TypesRules
    requires Role(TypesRules[tx.txType], provider) != "reporter"
    requires ParticipatingKey(Role(TypesRules[tx.txType], provider)) !in data
    requires |WithRole(a.participatingOrgs, Role(TypesRules[tx.txType], provider))| > 1
    ensures var role := Role(TypesRules[tx.txType], provider);
      var ps := WithRole(a.participatingOrgs, role);
      var out := GetOrgOutcome(data, tx, a, provider);
      (out.result.Ok? <==> forall i :: 0 <= i < |ps| ==> GetNarrative(ps[i].narratives).Ok?) &&
      (out.result.Ok? ==> (out.data == data[ParticipatingKey(role) := out.result.value] &&
        out.result.value == JoinOrgs(MapResult(ps, PartOrg).value)))
  {
    ReporterCaseIsRole(tx.txType, provider);
    ParticipatingSeveral(a.participatingOrgs, Role(TypesRules[tx.txType], provider));
  }

  /** `after` is `before` with at most one entry added and none changed. */
  predicate GrowsByAtMostOne(before: map<string, OrgRecord>, after: map<string, OrgRecord>) {
    before.Keys <= after.Keys && (forall k :: k in before ==> after[k] == before[k]) &&
    |after.Keys - before.Keys| <= 1
  }

  lemma AddOne(before: map<string, OrgRecord>, k: string, v: OrgRecord)
    ensures k !in before ==> GrowsByAtMostOne(before, before[k := v])
    ensures GrowsByAtMostOne(before, before)
  {
    assert before.Keys - before.Keys == {};
    if k !in before {
      assert before[k := v].Keys - before.Keys == {k};
    }
  }

  /** The memo only grows: no entry is changed or removed, at most one is
      added, and a call that raises leaves it as it was. */
  lemma MemoOnlyGrows(data: map<string, OrgRecord>, tx: TransactionEl, a: ActivityEl, provider: bool)
    ensures GrowsByAtMostOne(data, GetOrgOutcome(data, tx, a, provider).data)
    ensures GetOrgOutcome(data, tx, a, provider).result.Err? ==> GetOrgOutcome(data, tx, a, provider).data == data
  {
    var out := GetOrgOutcome(data, tx, a, provider);
    if OwnOrg(tx, provider).Some? || tx.txType !in TypesRules {
      AddOne(data, ReportingOrgKey, EmptyOrg);
    } else {
      var role := Role(TypesRules[tx.txType], provider);
      var k := if ReporterCase(role, provider, tx.txType) then ReportingOrgKey else ParticipatingKey(role);
      OutcomeKey(data, tx, a, provider, k);
      AddOne(data, k, if out.result.Ok? then out.result.value else EmptyOrg);
    }
  }

  /** The one key a call can add: the reporting organisation's, or the
      participating organisation's of the transaction type's role. */
  lemma OutcomeKey(data: map<string, OrgRecord>, tx: TransactionEl, a: ActivityEl, provider: bool, k: string)
    requires OwnOrg(tx, provider).None? && tx.txType in TypesRules
    requires var role := Role(TypesRules[tx.txType], provider);
      k == if ReporterCase(role, provider, tx.txType) then ReportingOrgKey else ParticipatingKey(role)
    ensures var out := GetOrgOutcome(data, tx, a, provider);
      out.data == data || (k !in data && out.result.Ok? && out.data == data[k := out.result.value])
  {
  }

  /** Asking twice gives the same answer and leaves the memo as the first
      call left it. */
  lemma GetOrgIdempotent(data: map<string, OrgRecord>, tx: TransactionEl, a: ActivityEl, provider: bool)
    ensures var out := GetOrgOutcome(data, tx, a, provider);
      GetOrgOutcome(out.data, tx, a, provider) == out
  {
    if OwnOrg(tx, provider).None? && tx.txType in TypesRules {
      ReporterCaseIsRole(tx.txType, provider);
    }
  }
}
