/**
 * The MSP inventory crawl of MSPInventory.py: list the organizations of an MSP, the sites
 * of each organization and the device statistics of each site, and build one flat record
 * per device. HTTP GETs are replaced by a given API: a total function from the request to
 * its decoded JSON list, `None` standing for a response that is not OK.
 */
module Inventory {
  import opened Wrappers
  import opened Regions

  /** A decoded JSON value. Numbers keep their text: the crawl copies them, never computes. */
  datatype Json =
    | JNull
    | JBool(b: bool)
    | JNum(repr: string)
    | JStr(s: string)
    | JArr(items: seq<Json>)
    | JObj(fields: map<string, Json>)

  /** A JSON object: an organization, a site or a device. */
  type Object = map<string, Json>

  /** `o.get(key)`: the value under `key`, or null when the key is absent. */
  function Get(o: Object, key: string): Json
  {
    if key in o then o[key] else JNull
  }

  /** The three GETs of the crawl, each against the base URL. */
  datatype Request =
      /** GET {base}/msps/{mspId}/orgs */
    | ListOrgs(base: string, mspId: string)
      /** GET {base}/orgs/{orgId}/sites */
    | ListSites(base: string, orgId: Json)
      /** GET {base}/sites/{siteId}/stats/devices?type=all&status=all */
    | ListDevices(base: string, siteId: Json)

  /** The API: the JSON list a request returns, `None` when the response is not OK. */
  type Api = Request -> Option<seq<Object>>

  /** The shared shape of the three helpers: the payload when OK, the empty list otherwise. */
  function Fetch(api: Api, req: Request): (r: seq<Object>)
    ensures api(req).Some? ==> r == api(req).value
    ensures api(req).None? ==> r == []
  {
    match api(req)
    case Some(payload) => payload
    case None => []
  }

  /** `get_orgs_in_msp`: the organizations of the MSP when the listing is OK, none otherwise. */
  function GetOrgsInMsp(api: Api, base: string, mspId: string): (orgs: seq<Object>)
    ensures api(ListOrgs(base, mspId)).Some? ==> orgs == api(ListOrgs(base, mspId)).value
    ensures api(ListOrgs(base, mspId)).None? ==> orgs == []
  {
    Fetch(api, ListOrgs(base, mspId))
  }

  /** `get_sites_in_org`: the sites of the organization when the listing is OK, none otherwise. */
  function GetSitesInOrg(api: Api, base: string, orgId: Json): (sites: seq<Object>)
    ensures api(ListSites(base, orgId)).Some? ==> sites == api(ListSites(base, orgId)).value
    ensures api(ListSites(base, orgId)).None? ==> sites == []
  {
    Fetch(api, ListSites(base, orgId))
  }

  /** `get_device_stats`: the device statistics of the site when the listing is OK, none otherwise. */
  function GetDeviceStats(api: Api, base: string, siteId: Json): (devices: seq<Object>)
    ensures api(ListDevices(base, siteId)).Some? ==> devices == api(ListDevices(base, siteId)).value
    ensures api(ListDevices(base, siteId)).None? ==> devices == []
  {
    Fetch(api, ListDevices(base, siteId))
  }

  /** Where a record column takes its value from. */
  datatype Source =
    | FromOrg(key: string)
    | FromSite(key: string)
    | FromDevice(key: string)
    | FromEnv(key: string)

  /** The record columns, in the order the record is built, with their sources. */
  const Columns: seq<(string, Source)> :=
    [("Org Name", FromOrg("name")), ("Org ID", FromOrg("id")), ("Site Name", FromSite("name")),
     ("MAC", FromDevice("mac")), ("Type", FromDevice("type")), ("Model", FromDevice("model")),
     ("Serial", FromDevice("serial")), ("Name", FromDevice("name")), ("Hostname", FromDevice("hostname")),
     ("IP", FromDevice("ip")), ("External IP", FromDevice("ext_ip")), ("Status", FromDevice("status")),
     ("Firmware", FromDevice("version")), ("Uptime (s)", FromDevice("uptime")),
     ("# Clients", FromDevice("num_clients")), ("# WLANs", FromDevice("num_wlans")),
     ("Tx bps", FromDevice("tx_bps")), ("Rx bps", FromDevice("rx_bps")),
     ("Tx bytes", FromDevice("tx_bytes")), ("Rx bytes", FromDevice("rx_bytes")),
     ("Tx pkts", FromDevice("tx_pkts")), ("Rx pkts", FromDevice("rx_pkts")),
     ("CPU Temp (C)", FromEnv("cpu_temp")), ("Ambient Temp (C)", FromEnv("ambient_temp")),
     ("Humidity (%)", FromEnv("humidity")), ("Power Source", FromDevice("power_src")),
     ("PoE Budget", FromDevice("power_budget")), ("Locked", FromDevice("locked"))]

  /** A device whose `env_stat`, when present, is an object (otherwise the script raises). */
  predicate EnvOk(d: Object)
  {
    "env_stat" in d ==> d["env_stat"].JObj?
  }

  /** `d.get("env_stat", {}).get(key)`. */
  function EnvGet(d: Object, key: string): Json
    requires EnvOk(d)
  {
    if "env_stat" in d then Get(d["env_stat"].fields, key) else JNull
  }

  /** The value of one column for a device of a site of an organization. */
  function Field(org: Object, site: Object, d: Object, src: Source): Json
    requires EnvOk(d)
  {
    match src
    case FromOrg(key) => Get(org, key)
    case FromSite(key) => Get(site, key)
    case FromDevice(key) => Get(d, key)
    case FromEnv(key) => EnvGet(d, key)
  }

  /** One record: the values of the columns, in column order. */
  type Record = seq<Json>

  /** The record appended for device `d` of `site` of `org`. */
  function DeviceRecord(org: Object, site: Object, d: Object): (r: Record)
    requires EnvOk(d)
    ensures |r| == |Columns| == 28
  {
    seq(|Columns|, i requires 0 <= i < |Columns| => Field(org, site, d, Columns[i].1))
  }

  /** Every device list the API can return has a well-formed `env_stat` in each device. */
  ghost predicate DevicesOk(api: Api)
  {
    forall req: Request :: req.ListDevices? && api(req).Some? ==>
      forall i :: 0 <= i < |api(req).value| ==> EnvOk(api(req).value[i])
  }

  /** Each element of a device list fetched from such an API is well-formed. */
  lemma FetchedDevicesOk(api: Api, base: string, siteId: Json)
    requires DevicesOk(api)
    ensures forall i :: 0 <= i < |GetDeviceStats(api, base, siteId)| ==> EnvOk(GetDeviceStats(api, base, siteId)[i])
  {
    var req := ListDevices(base, siteId);
    assert req.ListDevices?;
  }

  /** The records of the devices of one site, in device order. */
  function DeviceRecords(org: Object, site: Object, devices: seq<Object>): seq<Record>
    requires forall i :: 0 <= i < |devices| ==> EnvOk(devices[i])
    decreases |devices|
  {
    if devices == [] then []
    else DeviceRecords(org, site, devices[..|devices| - 1]) + [DeviceRecord(org, site, devices[|devices| - 1])]
  }

  /** The records of the sites of one organization: site after site, each site's devices in order. */
  function SiteRecords(api: Api, base: string, org: Object, sites: seq<Object>): seq<Record>
    requires DevicesOk(api)
    decreases |sites|
  {
    if sites == [] then []
    else
      var site := sites[|sites| - 1];
      FetchedDevicesOk(api, base, Get(site, "id"));
      SiteRecords(api, base, org, sites[..|sites| - 1])
        + DeviceRecords(org, site, GetDeviceStats(api, base, Get(site, "id")))
  }

  /** The records of a list of organizations: organization after organization. */
  function OrgRecords(api: Api, base: string, orgs: seq<Object>): seq<Record>
    requires DevicesOk(api)
    decreases |orgs|
  {
    if orgs == [] then []
    else
      var org := orgs[|orgs| - 1];
      OrgRecords(api, base, orgs[..|orgs| - 1])
        + SiteRecords(api, base, org, GetSitesInOrg(api, base, Get(org, "id")))
  }

  /** The requests of the site level: one device listing per site, in site order. */
  function SiteCalls(base: string, sites: seq<Object>): seq<Request>
    decreases |sites|
  {
    if sites == [] then []
    else SiteCalls(base, sites[..|sites| - 1]) + [ListDevices(base, Get(sites[|sites| - 1], "id"))]
  }

  /** The requests of the organization level: per organization, its site listing and then its sites' requests. */
  function OrgCalls(api: Api, base: string, orgs: seq<Object>): seq<Request>
    decreases |orgs|
  {
    if orgs == [] then []
    else
      var org := orgs[|orgs| - 1];
      OrgCalls(api, base, orgs[..|orgs| - 1])
        + [ListSites(base, Get(org, "id"))] + SiteCalls(base, GetSitesInOrg(api, base, Get(org, "id")))
  }

  /** `collect_full_inventory`, as a function of the API: its records and its requests in order. */
  function Crawl(api: Api, base: string, mspId: string): (seq<Record>, seq<Request>)
    requires DevicesOk(api)
  {
    var orgs := GetOrgsInMsp(api, base, mspId);
    (OrgRecords(api, base, orgs), [ListOrgs(base, mspId)] + OrgCalls(api, base, orgs))
  }

  /** The innermost loop: one record per device of the site, appended in device order. */
  method CollectDevices(org: Object, site: Object, devices: seq<Object>) returns (recs: seq<Record>)
    requires forall i :: 0 <= i < |devices| ==> EnvOk(devices[i])
    ensures recs == DeviceRecords(org, site, devices)
  {
    recs := [];
    for k := 0 to |devices|
      invariant recs == DeviceRecords(org, site, devices[..k])
    {
      assert devices[..k + 1][..k] == devices[..k];
      recs := recs + [DeviceRecord(org, site, devices[k])];
    }
    assert devices[..|devices|] == devices;
  }

  /** The sites of one organization, in order; the organization's part of the records and of the requests. */
  method CollectSites(api: Api, base: string, org: Object, sites: seq<Object>) returns (recs: seq<Record>, calls: seq<Request>)
    requires DevicesOk(api)
    ensures recs == SiteRecords(api, base, org, sites)
    ensures calls == SiteCalls(base, sites)
  {
    recs, calls := [], [];
    for j := 0 to |sites|
      invariant recs == SiteRecords(api, base, org, sites[..j])
      invariant calls == SiteCalls(base, sites[..j])
    {
      var site := sites[j];
      var siteId := Get(site, "id");
      var devices := GetDeviceStats(api, base, siteId);
      calls := calls + [ListDevices(base, siteId)];
      FetchedDevicesOk(api, base, siteId);
      var more := CollectDevices(org, site, devices);
      assert sites[..j + 1][..j] == sites[..j];
      recs := recs + more;
    }
    assert sites[..|sites|] == sites;
  }

  /**
   * `collect_full_inventory`: the organizations of the MSP, in order; for each, its sites
   * and their devices, one record per device appended to the result.
   */
  method CollectFullInventory(api: Api, base: string, mspId: string) returns (all: seq<Record>, calls: seq<Request>)
    requires DevicesOk(api)
    ensures (all, calls) == Crawl(api, base, mspId)
  {
    var orgs := GetOrgsInMsp(api, base, mspId);
    all, calls := [], [ListOrgs(base, mspId)];
    for i := 0 to |orgs|
      invariant all == OrgRecords(api, base, orgs[..i])
      invariant calls == [ListOrgs(base, mspId)] + OrgCalls(api, base, orgs[..i])
    {
      var org := orgs[i];
      var orgId := Get(org, "id");
      var sites := GetSitesInOrg(api, base, orgId);
      var recs, siteCalls := CollectSites(api, base, org, sites);
      assert orgs[..i + 1][..i] == orgs[..i];
      all := all + recs;
      calls := calls + [ListSites(base, orgId)] + siteCalls;
    }
    assert orgs[..|orgs|] == orgs;
  }

  /**
   * The whole script: the base URL of the configured region, then the crawl; no base URL
   * and so no request at all when the region is not a key of the lookup table.
   */
  function Script(region: string, api: Api, mspId: string): (r: Option<(seq<Record>, seq<Request>)>)
    requires DevicesOk(api)
    ensures r.None? <==> region !in RegionLookup
  {
    match BaseUrl(region)
    case None => None
    case Some(url) => Some(Crawl(api, url, mspId))
  }
}
