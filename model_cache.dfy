/** `ActivityCacheActivity` and `ActivityCache` of `iatiflattener/model.py`:
    one memo object per activity identifier, created on first use with every
    field None, that the field resolvers fill as they fall back to the
    activity element. */
module ModelCache {
  import opened Wrappers
  import opened Iati
  import opened Activity

  /** A per-language dictionary `{lang: value}`, as its list of items. */
  type LangMap<V> = seq<(string, V)>

  /** The fields of one memo object, as a value. */
  datatype CacheState = CacheState(
    title: Option<LangMap<string>>,
    currency: Option<string>,
    sectors: Option<seq<Coded>>,
    countries: Option<seq<Coded>>,
    regions: Option<seq<Coded>>,
    aidType: Option<string>,
    financeType: Option<string>,
    flowType: Option<string>,
    reportingOrg: Option<LangMap<OrgRecord>>,
    participatingOrgs: seq<Option<OrgRecord>>)   // participating_org_1 .. participating_org_4

  /** The state of a fresh memo object: every listed field None. */
  const EmptyCache: CacheState :=
    CacheState(None, None, None, None, None, None, None, None, None, [None, None, None, None])

  class ActivityCacheActivity {
    const iatiIdentifier: string
    var title: Option<LangMap<string>>
    var currency: Option<string>
    var sectors: Option<seq<Coded>>
    var countries: Option<seq<Coded>>
    var regions: Option<seq<Coded>>
    var aidType: Option<string>
    var financeType: Option<string>
    var flowType: Option<string>
    var reportingOrg: Option<LangMap<OrgRecord>>
    var participatingOrgs: seq<Option<OrgRecord>>

    function State(): CacheState
      reads this
    {
      CacheState(title, currency, sectors, countries, regions, aidType, financeType, flowType,
                 reportingOrg, participatingOrgs)
    }

    constructor (iatiIdentifier: string)
      ensures this.iatiIdentifier == iatiIdentifier
      ensures State() == EmptyCache
    {
      this.iatiIdentifier := iatiIdentifier;
      title := None;
      currency := None;
      sectors := None;
      countries := None;
      regions := None;
      aidType := None;
      financeType := None;
      flowType := None;
      reportingOrg := None;
      participatingOrgs := [None, None, None, None];
    }
  }

  class ActivityCache {
    var data: map<string, ActivityCacheActivity>

    constructor ()
      ensures data == map[]
    {
      data := map[];
    }

    /** `get(iati_identifier)`: the identifier's memo object, created empty on
        first use; later calls return that same object and other identifiers'
        objects are never replaced. */
    method Get(iatiIdentifier: string) returns (entry: ActivityCacheActivity)
      modifies this
      ensures iatiIdentifier in old(data) ==> entry == old(data)[iatiIdentifier] && data == old(data)
      ensures iatiIdentifier !in old(data) ==>
        fresh(entry) && entry.State() == EmptyCache && entry.iatiIdentifier == iatiIdentifier &&
        data == old(data)[iatiIdentifier := entry]
      ensures iatiIdentifier in data && data[iatiIdentifier] == entry
    {
      if iatiIdentifier in data {
        entry := data[iatiIdentifier];
      } else {
        entry := new ActivityCacheActivity(iatiIdentifier);
        data := data[iatiIdentifier := entry];
      }
    }
  }
}
