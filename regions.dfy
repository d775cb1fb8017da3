/**
 * The cloud-region table of MSPInventory.py and the API base URL derived from the chosen
 * region, checked against the reference table the script documents.
 */
module Regions {
  import opened Wrappers

  /** Region key to the domain infix inserted after "https://api". */
  const RegionLookup: map<string, string> :=
    map["Global01" := "", "Global02" := ".gc1", "Global03" := ".ac2", "Global04" := ".gc2",
        "EMEA01" := ".eu", "EMEA02" := ".gc3", "APAC01" := ".ac5"]

  /** One row of the documented reference table: cloud name, key and API base URL. */
  datatype RegionRow = RegionRow(cloud: string, key: string, apiBaseUrl: string)

  /** The documented reference table. */
  const ReferenceTable: seq<RegionRow> :=
    [RegionRow("Global01", "mist", "https://api.mist.com/api/v1"),
     RegionRow("Global02", "gc1", "https://api.gc1.mist.com/api/v1"),
     RegionRow("Global03", "ac2", "https://api.ac2.mist.com/api/v1"),
     RegionRow("Global04", "gc2", "https://api.gc2.mist.com/api/v1"),
     RegionRow("EMEA01", "eu", "https://api.eu.mist.com/api/v1"),
     RegionRow("EMEA02", "gc3", "https://api.gc3.mist.com/api/v1"),
     RegionRow("APAC01", "ac5", "https://api.ac5.mist.com/api/v1")]

  /**
   * `API_BASE_URL` for a region: "https://api" + the region's domain + ".mist.com/api/v1";
   * a key missing from the table raises `KeyError` at start-up, modelled as `None`.
   */
  function BaseUrl(region: string): (url: Option<string>)
    ensures url.Some? <==> region in RegionLookup
    ensures url.Some? ==> |url.value| >= 27 && url.value[..11] == "https://api" && url.value[|url.value| - 16..] == ".mist.com/api/v1"
  {
    if region in RegionLookup then Some("https://api" + RegionLookup[region] + ".mist.com/api/v1")
    else None
  }

  /** The lookup table has exactly the cloud names of the reference table as keys. */
  lemma LookupCoversReference()
    ensures RegionLookup.Keys == set i | 0 <= i < |ReferenceTable| :: ReferenceTable[i].cloud
  {
    var names := set i | 0 <= i < |ReferenceTable| :: ReferenceTable[i].cloud;
    assert ReferenceTable[0].cloud in names && ReferenceTable[1].cloud in names;
    assert ReferenceTable[2].cloud in names && ReferenceTable[3].cloud in names;
    assert ReferenceTable[4].cloud in names && ReferenceTable[5].cloud in names;
    assert ReferenceTable[6].cloud in names;
  }

  // The seven lemmas below are the steps of BaseUrlMatchesReference, one per row of the
  // reference table; each evaluates one lookup and one concatenation.

  /** Region Global01 gets the documented base URL https://api.mist.com/api/v1. */
  lemma Global01Url()
    ensures BaseUrl("Global01") == Some("https://api.mist.com/api/v1")
  {
    assert RegionLookup["Global01"] == "";
    assert "https://api" + "" + ".mist.com/api/v1" == "https://api.mist.com/api/v1";
  }

  /** Region Global02 gets the documented base URL https://api.gc1.mist.com/api/v1. */
  lemma Global02Url()
    ensures BaseUrl("Global02") == Some("https://api.gc1.mist.com/api/v1")
  {
    assert RegionLookup["Global02"] == ".gc1";
    assert "https://api" + ".gc1" + ".mist.com/api/v1" == "https://api.gc1.mist.com/api/v1";
  }

  /** Region Global03 gets the documented base URL https://api.ac2.mist.com/api/v1. */
  lemma Global03Url()
    ensures BaseUrl("Global03") == Some("https://api.ac2.mist.com/api/v1")
  {
    assert RegionLookup["Global03"] == ".ac2";
    assert "https://api" + ".ac2" + ".mist.com/api/v1" == "https://api.ac2.mist.com/api/v1";
  }

  /** Region Global04 gets the documented base URL https://api.gc2.mist.com/api/v1. */
  lemma Global04Url()
    ensures BaseUrl("Global04") == Some("https://api.gc2.mist.com/api/v1")
  {
    assert RegionLookup["Global04"] == ".gc2";
    assert "https://api" + ".gc2" + ".mist.com/api/v1" == "https://api.gc2.mist.com/api/v1";
  }

  /** Region EMEA01 gets the documented base URL https://api.eu.mist.com/api/v1. */
  lemma EMEA01Url()
    ensures BaseUrl("EMEA01") == Some("https://api.eu.mist.com/api/v1")
  {
    assert RegionLookup["EMEA01"] == ".eu";
    assert "https://api" + ".eu" + ".mist.com/api/v1" == "https://api.eu.mist.com/api/v1";
  }

  /** Region EMEA02 gets the documented base URL https://api.gc3.mist.com/api/v1. */
  lemma EMEA02Url()
    ensures BaseUrl("EMEA02") == Some("https://api.gc3.mist.com/api/v1")
  {
    assert RegionLookup["EMEA02"] == ".gc3";
    assert "https://api" + ".gc3" + ".mist.com/api/v1" == "https://api.gc3.mist.com/api/v1";
  }

  /** Region APAC01 gets the documented base URL https://api.ac5.mist.com/api/v1. */
  lemma APAC01Url()
    ensures BaseUrl("APAC01") == Some("https://api.ac5.mist.com/api/v1")
  {
    assert RegionLookup["APAC01"] == ".ac5";
    assert "https://api" + ".ac5" + ".mist.com/api/v1" == "https://api.ac5.mist.com/api/v1";
  }

  /** For every region of the reference table, the derived base URL is the documented one. */
  lemma BaseUrlMatchesReference()
    ensures forall i :: 0 <= i < |ReferenceTable| ==>
              BaseUrl(ReferenceTable[i].cloud) == Some(ReferenceTable[i].apiBaseUrl)
  {
    Global01Url(); Global02Url(); Global03Url(); Global04Url();
    EMEA01Url(); EMEA02Url(); APAC01Url();
    forall i | 0 <= i < |ReferenceTable|
      ensures BaseUrl(ReferenceTable[i].cloud) == Some(ReferenceTable[i].apiBaseUrl)
    {
      if i == 0 { } else if i == 1 { } else if i == 2 { } else if i == 3 { }
      else if i == 4 { } else if i == 5 { } else { }
    }
  }

  /** A base URL exists only for the clouds of the reference table. */
  lemma BaseUrlOnlyDocumented(region: string)
    ensures BaseUrl(region).Some? ==> exists i :: 0 <= i < |ReferenceTable| && ReferenceTable[i].cloud == region
  {
    if region in RegionLookup {
      LookupCoversReference();
    }
  }
}
