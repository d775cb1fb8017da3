/**
 * What the MSP inventory crawl promises: the fetch helpers never fail, each record copies
 * its device's fields or null, records come out in organization, site and device order,
 * one per listed device, attributed to their own organization and site, and every
 * organization and site is listed whatever became of the ones before it.
 */
module InventoryProps {
  import opened Wrappers
  import opened Regions
  import opened Inventory

  // ---------------------------------------------------------------- one record

  /** The three attribution columns come first, named and sourced as the script builds them. */
  lemma AttributionColumns()
    ensures Columns[0] == ("Org Name", FromOrg("name"))
    ensures Columns[1] == ("Org ID", FromOrg("id"))
    ensures Columns[2] == ("Site Name", FromSite("name"))
  {
  }

  /** A record's organization and site columns: the organization's name and id, the site's name. */
  predicate Attributed(r: Record, org: Object, site: Object)
  {
    |r| == |Columns| && r[0] == Get(org, "name") && r[1] == Get(org, "id") && r[2] == Get(site, "name")
  }

  /** The record of a device is attributed to the organization and site it was listed under. */
  lemma DeviceRecordAttributed(org: Object, site: Object, d: Object)
    requires EnvOk(d)
    ensures Attributed(DeviceRecord(org, site, d), org, site)
  {
    AttributionColumns();
  }

  /** Each device column is the device's same-named top-level value, or null when that key is absent. */
  lemma DeviceFieldsCopied(org: Object, site: Object, d: Object)
    requires EnvOk(d)
    ensures forall i :: 0 <= i < |Columns| && Columns[i].1.FromDevice? ==>
              DeviceRecord(org, site, d)[i] == (if Columns[i].1.key in d then d[Columns[i].1.key] else JNull)
  {
  }

  /** The three environment columns, named and sourced as the script builds them. */
  lemma EnvColumns()
    ensures Columns[22] == ("CPU Temp (C)", FromEnv("cpu_temp"))
    ensures Columns[23] == ("Ambient Temp (C)", FromEnv("ambient_temp"))
    ensures Columns[24] == ("Humidity (%)", FromEnv("humidity"))
    ensures forall i :: 0 <= i < |Columns| && Columns[i].1.FromEnv? ==> 22 <= i <= 24
  {
  }

  /** Without `env_stat`, the three environment columns are null. */
  lemma NoEnvStatMeansNull(org: Object, site: Object, d: Object)
    requires "env_stat" !in d
    ensures var r := DeviceRecord(org, site, d); r[22] == JNull && r[23] == JNull && r[24] == JNull
  {
    EnvColumns();
  }

  /** With `env_stat`, each environment column is its sub-key's value, or null when that sub-key is absent. */
  lemma EnvStatCopied(org: Object, site: Object, d: Object)
    requires "env_stat" in d && d["env_stat"].JObj?
    ensures var r, env := DeviceRecord(org, site, d), d["env_stat"].fields;
            && r[22] == (if "cpu_temp" in env then env["cpu_temp"] else JNull)
            && r[23] == (if "ambient_temp" in env then env["ambient_temp"] else JNull)
            && r[24] == (if "humidity" in env then env["humidity"] else JNull)
  {
    EnvColumns();
  }

  // ---------------------------------------------------------------- device level

  /** The records of a site are its devices' records, one per device, in device order. */
  lemma {:induction false} DeviceRecordsAt(org: Object, site: Object, devices: seq<Object>)
    requires forall i :: 0 <= i < |devices| ==> EnvOk(devices[i])
    ensures |DeviceRecords(org, site, devices)| == |devices|
    ensures forall k :: 0 <= k < |devices| ==> DeviceRecords(org, site, devices)[k] == DeviceRecord(org, site, devices[k])
  {
    if devices != [] {
      DeviceRecordsAt(org, site, devices[..|devices| - 1]);
    }
  }

  // ---------------------------------------------------------------- site level

  /** The device total of a list of sites: the sum of the lengths of their device lists. */
  function SiteDeviceTotal(api: Api, base: string, sites: seq<Object>): nat
    decreases |sites|
  {
    if sites == [] then 0
    else SiteDeviceTotal(api, base, sites[..|sites| - 1]) + |GetDeviceStats(api, base, Get(sites[|sites| - 1], "id"))|
  }

  /** An organization yields one record per device listed for each of its sites. */
  lemma {:induction false} SiteRecordsCount(api: Api, base: string, org: Object, sites: seq<Object>)
    requires DevicesOk(api)
    ensures |SiteRecords(api, base, org, sites)| == SiteDeviceTotal(api, base, sites)
  {
    if sites != [] {
      var site := sites[|sites| - 1];
      FetchedDevicesOk(api, base, Get(site, "id"));
      SiteRecordsCount(api, base, org, sites[..|sites| - 1]);
      DeviceRecordsAt(org, site, GetDeviceStats(api, base, Get(site, "id")));
    }
  }

  /** Every record of a site is attributed to the site's organization and to the site. */
  lemma DeviceRecordsAttributed(org: Object, site: Object, devices: seq<Object>)
    requires forall i :: 0 <= i < |devices| ==> EnvOk(devices[i])
    ensures forall k :: 0 <= k < |DeviceRecords(org, site, devices)| ==> Attributed(DeviceRecords(org, site, devices)[k], org, site)
  {
    DeviceRecordsAt(org, site, devices);
    forall k | 0 <= k < |devices| ensures Attributed(DeviceRecords(org, site, devices)[k], org, site) {
      DeviceRecordAttributed(org, site, devices[k]);
    }
  }

  /** A record attributed to `org` and to one of `sites`. */
  ghost predicate AttributedToOneOf(r: Record, org: Object, sites: seq<Object>)
  {
    exists j :: 0 <= j < |sites| && Attributed(r, org, sites[j])
  }

  /** Each of `recs` is attributed to `org` and to one of `sites`. */
  ghost predicate AttributedWithin(recs: seq<Record>, org: Object, sites: seq<Object>)
  {
    forall k :: 0 <= k < |recs| ==> AttributedToOneOf(recs[k], org, sites)
  }

  /** Appending the records of one more site keeps every record attributed within the longer site list. */
  lemma AttributedWithinStep(prev: seq<Record>, last: seq<Record>, org: Object, init: seq<Object>, site: Object)
    requires AttributedWithin(prev, org, init)
    requires forall k :: 0 <= k < |last| ==> Attributed(last[k], org, site)
    ensures AttributedWithin(prev + last, org, init + [site])
  {
    var recs, sites := prev + last, init + [site];
    forall k | 0 <= k < |recs| ensures AttributedToOneOf(recs[k], org, sites) {
      if k < |prev| {
        var j :| 0 <= j < |init| && Attributed(prev[k], org, init[j]);
        assert recs[k] == prev[k] && sites[j] == init[j];
        assert Attributed(recs[k], org, sites[j]);
      } else {
        assert recs[k] == last[k - |prev|] && sites[|init|] == site;
        assert Attributed(recs[k], org, sites[|init|]);
      }
    }
  }

  /** Every record of an organization is attributed to that organization and to one of its sites. */
  lemma {:induction false} SiteRecordsAttributed(api: Api, base: string, org: Object, sites: seq<Object>)
    requires DevicesOk(api)
    ensures AttributedWithin(SiteRecords(api, base, org, sites), org, sites)
  {
    if sites != [] {
      var n := |sites| - 1;
      var site := sites[n];
      var devices := GetDeviceStats(api, base, Get(site, "id"));
      FetchedDevicesOk(api, base, Get(site, "id"));
      SiteRecordsAttributed(api, base, org, sites[..n]);
      DeviceRecordsAttributed(org, site, devices);
      AttributedWithinStep(SiteRecords(api, base, org, sites[..n]), DeviceRecords(org, site, devices), org, sites[..n], site);
      assert sites[..n] + [site] == sites;
    }
  }

  /** The site level issues exactly one device listing per site, in site order. */
  lemma {:induction false} SiteCallsAreListings(base: string, sites: seq<Object>)
    ensures SiteCalls(base, sites) == seq(|sites|, j requires 0 <= j < |sites| => ListDevices(base, Get(sites[j], "id")))
  {
    if sites != [] {
      SiteCallsAreListings(base, sites[..|sites| - 1]);
    }
  }

  /** The blocks `f` gives the elements of `xs`, one after the other. */
  ghost function FlatMap<X, Y>(f: X -> seq<Y>, xs: seq<X>): seq<Y>
    decreases |xs|
  {
    if xs == [] then [] else FlatMap(f, xs[..|xs| - 1]) + f(xs[|xs| - 1])
  }

  /** The blocks of two runs, one after the other. */
  lemma {:induction false} FlatMapAppend<X, Y>(f: X -> seq<Y>, a: seq<X>, b: seq<X>)
    ensures FlatMap(f, a + b) == FlatMap(f, a) + FlatMap(f, b)
    decreases |b|
  {
    if b == [] {
      assert a + b == a;
    } else {
      var n := |b| - 1;
      assert (a + b)[..|a + b| - 1] == a + b[..n];
      FlatMapAppend(f, a, b[..n]);
    }
  }

  /** The site level's requests are the device listing of each site, one after the other. */
  lemma {:induction false} SiteCallsFlat(base: string, sites: seq<Object>)
    ensures SiteCalls(base, sites) == FlatMap(site => [ListDevices(base, Get(site, "id"))], sites)
    decreases |sites|
  {
    if sites != [] {
      SiteCallsFlat(base, sites[..|sites| - 1]);
    }
  }

  /** The device listings of two runs of sites, one after the other. */
  lemma SiteCallsAppend(base: string, a: seq<Object>, b: seq<Object>)
    ensures SiteCalls(base, a + b) == SiteCalls(base, a) + SiteCalls(base, b)
  {
    SiteCallsFlat(base, a);
    SiteCallsFlat(base, b);
    SiteCallsFlat(base, a + b);
    FlatMapAppend(site => [ListDevices(base, Get(site, "id"))], a, b);
  }

  /** The records of one site: those of the devices listed for it. */
  ghost function SiteBlock(api: Api, base: string, org: Object, site: Object): seq<Record>
  {
    if DevicesOk(api) then
      FetchedDevicesOk(api, base, Get(site, "id"));
      DeviceRecords(org, site, GetDeviceStats(api, base, Get(site, "id")))
    else []
  }

  /** The site level's records are each site's block, one after the other. */
  lemma {:induction false} SiteRecordsFlat(api: Api, base: string, org: Object, sites: seq<Object>)
    requires DevicesOk(api)
    ensures SiteRecords(api, base, org, sites) == FlatMap(site => SiteBlock(api, base, org, site), sites)
    decreases |sites|
  {
    if sites != [] {
      SiteRecordsFlat(api, base, org, sites[..|sites| - 1]);
    }
  }

  /** The records of two runs of sites of one organization, one after the other: no resorting. */
  lemma SiteRecordsAppend(api: Api, base: string, org: Object, a: seq<Object>, b: seq<Object>)
    requires DevicesOk(api)
    ensures SiteRecords(api, base, org, a + b) == SiteRecords(api, base, org, a) + SiteRecords(api, base, org, b)
  {
    SiteRecordsFlat(api, base, org, a);
    SiteRecordsFlat(api, base, org, b);
    SiteRecordsFlat(api, base, org, a + b);
    FlatMapAppend(site => SiteBlock(api, base, org, site), a, b);
  }

  // ---------------------------------------------------------------- organization level

  /** The sites listed for an organization: empty when its site listing fails. */
  function SitesOf(api: Api, base: string, org: Object): seq<Object>
  {
    GetSitesInOrg(api, base, Get(org, "id"))
  }

  /** The device total of a list of organizations: the device totals of their listed sites, summed. */
  function OrgDeviceTotal(api: Api, base: string, orgs: seq<Object>): nat
    decreases |orgs|
  {
    if orgs == [] then 0
    else OrgDeviceTotal(api, base, orgs[..|orgs| - 1]) + SiteDeviceTotal(api, base, SitesOf(api, base, orgs[|orgs| - 1]))
  }

  /** The crawl yields exactly one record per device listed for any site of any organization. */
  lemma {:induction false} OrgRecordsCount(api: Api, base: string, orgs: seq<Object>)
    requires DevicesOk(api)
    ensures |OrgRecords(api, base, orgs)| == OrgDeviceTotal(api, base, orgs)
  {
    if orgs != [] {
      var org := orgs[|orgs| - 1];
      OrgRecordsCount(api, base, orgs[..|orgs| - 1]);
      SiteRecordsCount(api, base, org, SitesOf(api, base, org));
    }
  }

  /** A record attributed to one of `orgs` and to one of the sites listed for that organization. */
  ghost predicate AttributedUnder(r: Record, api: Api, base: string, orgs: seq<Object>)
  {
    exists i :: 0 <= i < |orgs| && AttributedToOneOf(r, orgs[i], SitesOf(api, base, orgs[i]))
  }

  /** Each of `recs` is attributed to one of `orgs` and to one of that organization's sites. */
  ghost predicate AttributedAcross(recs: seq<Record>, api: Api, base: string, orgs: seq<Object>)
  {
    forall k :: 0 <= k < |recs| ==> AttributedUnder(recs[k], api, base, orgs)
  }

  /** Appending the records of one more organization keeps every record attributed. */
  lemma AttributedAcrossStep(prev: seq<Record>, last: seq<Record>, api: Api, base: string, init: seq<Object>, org: Object)
    requires AttributedAcross(prev, api, base, init)
    requires AttributedWithin(last, org, SitesOf(api, base, org))
    ensures AttributedAcross(prev + last, api, base, init + [org])
  {
    var recs, orgs := prev + last, init + [org];
    forall k | 0 <= k < |recs| ensures AttributedUnder(recs[k], api, base, orgs) {
      if k < |prev| {
        var i :| 0 <= i < |init| && AttributedToOneOf(prev[k], init[i], SitesOf(api, base, init[i]));
        assert recs[k] == prev[k] && orgs[i] == init[i];
        assert AttributedToOneOf(recs[k], orgs[i], SitesOf(api, base, orgs[i]));
      } else {
        assert recs[k] == last[k - |prev|] && orgs[|init|] == org;
        assert AttributedToOneOf(recs[k], orgs[|init|], SitesOf(api, base, orgs[|init|]));
      }
    }
  }

  /**
   * Every record of the crawl carries the name and id of one organization and the name of
   * one of the sites listed for that same organization.
   */
  lemma {:induction false} OrgRecordsAttributed(api: Api, base: string, orgs: seq<Object>)
    requires DevicesOk(api)
    ensures AttributedAcross(OrgRecords(api, base, orgs), api, base, orgs)
  {
    if orgs != [] {
      var n := |orgs| - 1;
      var org := orgs[n];
      OrgRecordsAttributed(api, base, orgs[..n]);
      SiteRecordsAttributed(api, base, org, SitesOf(api, base, org));
      AttributedAcrossStep(OrgRecords(api, base, orgs[..n]), SiteRecords(api, base, org, SitesOf(api, base, org)),
                           api, base, orgs[..n], org);
      assert orgs[..n] + [org] == orgs;
    }
  }

  /** The records of one organization: those of the sites listed for it. */
  ghost function OrgBlock(api: Api, base: string, org: Object): seq<Record>
  {
    if DevicesOk(api) then SiteRecords(api, base, org, SitesOf(api, base, org)) else []
  }

  /** The organization level's records are each organization's block, one after the other. */
  lemma {:induction false} OrgRecordsFlat(api: Api, base: string, orgs: seq<Object>)
    requires DevicesOk(api)
    ensures OrgRecords(api, base, orgs) == FlatMap(org => OrgBlock(api, base, org), orgs)
    decreases |orgs|
  {
    if orgs != [] {
      OrgRecordsFlat(api, base, orgs[..|orgs| - 1]);
    }
  }

  /** The records of two runs of organizations, one after the other: no resorting. */
  lemma OrgRecordsAppend(api: Api, base: string, a: seq<Object>, b: seq<Object>)
    requires DevicesOk(api)
    ensures OrgRecords(api, base, a + b) == OrgRecords(api, base, a) + OrgRecords(api, base, b)
  {
    OrgRecordsFlat(api, base, a);
    OrgRecordsFlat(api, base, b);
    OrgRecordsFlat(api, base, a + b);
    FlatMapAppend(org => OrgBlock(api, base, org), a, b);
  }

  /** The organization level's requests are, per organization, its site listing and then its sites' requests. */
  lemma {:induction false} OrgCallsFlat(api: Api, base: string, orgs: seq<Object>)
    ensures OrgCalls(api, base, orgs) ==
              FlatMap(org => [ListSites(base, Get(org, "id"))] + SiteCalls(base, SitesOf(api, base, org)), orgs)
    decreases |orgs|
  {
    if orgs != [] {
      OrgCallsFlat(api, base, orgs[..|orgs| - 1]);
    }
  }

  /** The requests of two runs of organizations, one after the other. */
  lemma OrgCallsAppend(api: Api, base: string, a: seq<Object>, b: seq<Object>)
    ensures OrgCalls(api, base, a + b) == OrgCalls(api, base, a) + OrgCalls(api, base, b)
  {
    OrgCallsFlat(api, base, a);
    OrgCallsFlat(api, base, b);
    OrgCallsFlat(api, base, a + b);
    FlatMapAppend(org => [ListSites(base, Get(org, "id"))] + SiteCalls(base, SitesOf(api, base, org)), a, b);
  }

  /** An organization whose site listing fails adds no record and only that listing to the requests. */
  lemma FailedOrg(api: Api, base: string, pre: seq<Object>, org: Object)
    requires DevicesOk(api)
    requires api(ListSites(base, Get(org, "id"))).None?
    ensures OrgRecords(api, base, pre + [org]) == OrgRecords(api, base, pre)
    ensures OrgCalls(api, base, pre + [org]) == OrgCalls(api, base, pre) + [ListSites(base, Get(org, "id"))]
  {
    assert (pre + [org])[..|pre|] == pre;
    assert SitesOf(api, base, org) == [];
  }

  /**
   * An organization whose site listing fails contributes no record and no request beyond
   * that listing, and the organizations after it are crawled as if it were not there.
   */
  lemma FailedSiteListing(api: Api, base: string, orgs: seq<Object>, i: nat)
    requires DevicesOk(api)
    requires i < |orgs| && api(ListSites(base, Get(orgs[i], "id"))).None?
    ensures OrgRecords(api, base, orgs) == OrgRecords(api, base, orgs[..i]) + OrgRecords(api, base, orgs[i + 1..])
    ensures OrgCalls(api, base, orgs) ==
              OrgCalls(api, base, orgs[..i]) + [ListSites(base, Get(orgs[i], "id"))] + OrgCalls(api, base, orgs[i + 1..])
  {
    var pre, org, post := orgs[..i], orgs[i], orgs[i + 1..];
    assert orgs == (pre + [org]) + post;
    FailedOrg(api, base, pre, org);
    OrgRecordsAppend(api, base, pre + [org], post);
    OrgCallsAppend(api, base, pre + [org], post);
  }

  /** The site listings among a list of requests, in order. */
  function SiteListings(calls: seq<Request>): seq<Request>
    decreases |calls|
  {
    if calls == [] then []
    else SiteListings(calls[..|calls| - 1]) + (if calls[|calls| - 1].ListSites? then [calls[|calls| - 1]] else [])
  }

  /** Listing the site listings of two request lists, one after the other. */
  lemma {:induction false} SiteListingsAppend(a: seq<Request>, b: seq<Request>)
    ensures SiteListings(a + b) == SiteListings(a) + SiteListings(b)
  {
    if b == [] {
      assert a + b == a;
    } else {
      var n := |b| - 1;
      assert (a + b)[..|a + b| - 1] == a + b[..n];
      SiteListingsAppend(a, b[..n]);
    }
  }

  /** The site level lists no sites. */
  lemma {:induction false} SiteCallsListNoSites(base: string, sites: seq<Object>)
    ensures SiteListings(SiteCalls(base, sites)) == []
  {
    if sites != [] {
      var n := |sites| - 1;
      SiteCallsListNoSites(base, sites[..n]);
      SiteListingsAppend(SiteCalls(base, sites[..n]), [ListDevices(base, Get(sites[n], "id"))]);
      assert [ListDevices(base, Get(sites[n], "id"))][..0] == [];
    }
  }

  /**
   * The sites of every organization are listed exactly once, in organization order,
   * whatever became of the organizations before it.
   */
  lemma {:induction false} EveryOrgListed(api: Api, base: string, orgs: seq<Object>)
    ensures SiteListings(OrgCalls(api, base, orgs)) == seq(|orgs|, i requires 0 <= i < |orgs| => ListSites(base, Get(orgs[i], "id")))
  {
    if orgs != [] {
      var n := |orgs| - 1;
      var listing := ListSites(base, Get(orgs[n], "id"));
      var siteCalls := SiteCalls(base, SitesOf(api, base, orgs[n]));
      EveryOrgListed(api, base, orgs[..n]);
      SiteListingsAppend(OrgCalls(api, base, orgs[..n]) + [listing], siteCalls);
      SiteListingsAppend(OrgCalls(api, base, orgs[..n]), [listing]);
      assert [listing][..0] == [];
      SiteCallsListNoSites(base, SitesOf(api, base, orgs[n]));
    }
  }

  // ---------------------------------------------------------------- the whole crawl

  /** Every request of the crawl is made against the one base URL it was given. */
  lemma {:induction false} OrgCallsUseBase(api: Api, base: string, orgs: seq<Object>)
    ensures forall k :: 0 <= k < |OrgCalls(api, base, orgs)| ==> OrgCalls(api, base, orgs)[k].base == base
  {
    if orgs != [] {
      var n := |orgs| - 1;
      OrgCallsUseBase(api, base, orgs[..n]);
      SiteCallsAreListings(base, SitesOf(api, base, orgs[n]));
    }
  }

  /**
   * The crawl opens with the one organization listing and makes every request against its
   * base URL; when that listing fails it makes no other request and yields no record.
   */
  lemma InventoryShape(api: Api, base: string, mspId: string)
    requires DevicesOk(api)
    ensures var (recs, calls) := Crawl(api, base, mspId);
            && calls[0] == ListOrgs(base, mspId)
            && (forall k :: 0 <= k < |calls| ==> calls[k].base == base)
            && (forall k :: 1 <= k < |calls| ==> !calls[k].ListOrgs?)
            && |recs| == OrgDeviceTotal(api, base, GetOrgsInMsp(api, base, mspId))
            && (api(ListOrgs(base, mspId)).None? ==> recs == [] && calls == [ListOrgs(base, mspId)])
  {
    var orgs := GetOrgsInMsp(api, base, mspId);
    OrgCallsUseBase(api, base, orgs);
    OrgCallsListNoOrgs(api, base, orgs);
    OrgRecordsCount(api, base, orgs);
  }

  /** Below the organization listing, no request lists organizations. */
  lemma {:induction false} OrgCallsListNoOrgs(api: Api, base: string, orgs: seq<Object>)
    ensures forall k :: 0 <= k < |OrgCalls(api, base, orgs)| ==> !OrgCalls(api, base, orgs)[k].ListOrgs?
  {
    if orgs != [] {
      var n := |orgs| - 1;
      OrgCallsListNoOrgs(api, base, orgs[..n]);
      SiteCallsAreListings(base, SitesOf(api, base, orgs[n]));
    }
  }

  /** For every cloud of the reference table, the script crawls from that cloud's documented base URL. */
  lemma ScriptRegion(api: Api, mspId: string)
    requires DevicesOk(api)
    ensures forall i :: 0 <= i < |ReferenceTable| ==>
              Script(ReferenceTable[i].cloud, api, mspId) == Some(Crawl(api, ReferenceTable[i].apiBaseUrl, mspId))
  {
    BaseUrlMatchesReference();
  }
}
