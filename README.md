# Mist provisioning and MSP inventory, modelled in Dafny

This project models the decision core of two Mist cloud scripts.

**Site provisioning** (`Cookie.py`) reads the "Org Details" sheet of a deployment
workbook and then runs these steps in order:

1. It checks the source organization id in H2. An empty id, or one that spells "nan",
   stops the run before any request.
2. It clones the source organization under the name in A2. Only status 200 or 201 lets
   the run continue.
3. It scans the header row (sheet row 5) from column K onward for `{{...}}` template
   columns, and stops at the first blank header.
4. For each non-blank sheet row from index 5 onward, it builds the site payload and
   replaces NaN or infinite top-level floats by `None`. It then creates the site. Only
   when the create returns 200 or 201 does it build the row's variable bindings and PUT
   them into the site's settings. A failed request never stops the rows after it.

Every request body is JSON-encoded before it is sent, and the encoding raises on a NaN
or infinite float at any depth and on a date or time. That exception is not caught: the
request is not sent and the script ends there. The sheet can also be too small for the
cells the script reads, which ends the script after the clone. The model has an outcome
for each of these ends.

**MSP inventory** (`MSPInventory.py`) works as follows:

1. It derives the API base URL from a cloud-region key.
2. It lists the organizations of an MSP, the sites of each organization and the device
   statistics of each site. A response that is not OK is read as an empty list.
3. It builds one flat 28-column record per device, in organization, site and device
   order. Every absent key reads as null, including the three `env_stat` sub-keys.

## How the model is built

HTTP is replaced by given inputs:

- The provisioning server is a total function from the step of the run and the request
  to a response, made of a status and an optional `id`. Step 0 is the clone, and step
  `i + 1` handles site row `i`.
- The inventory API is a total function from a GET request to `Option<seq<Object>>`,
  where `None` is a response that is not OK.

Each script is written in two forms:

- **The imperative form follows the source.** `Provision`, `ProvisionRows`,
  `ProvisionRow`, `DetectVariableColumns`, `NormaliseSiteData`, `BuildBindings`,
  `CollectFullInventory`, `CollectSites` and `CollectDevices` keep the source's loops,
  its `break` and its in-place dictionary updates.
- **A reference function states what each loop computes.** These are `ProvisionRun`,
  `RowsRun`, `RowRun`, `ScanHeader`, `Normalised`, `Bindings` and `Crawl` with
  `OrgRecords` and `OrgCalls`.

A stretch of site rows is a `Segment`: the row outcomes, the calls, and whether the
script raised in it. Joining a stopped segment to another leaves it unchanged, so
`RowsRun` is the loop up to the first row that raises.

Each method's postcondition equates its result with its reference function. The
properties the scripts promise are proved as lemmas about those functions. For
provisioning, they are stated over the run's outcome and its call trace: every request,
in order, with the response it got.

Modules:

| module | contents |
|---|---|
| `Wrappers` | `Option` |
| `PyText` | `str.strip`, ASCII `lower`, the missing-id test |
| `Sheet` | cells, rows, JSON encodability, `dropna(how="all")`, site-row selection |
| `Template` | header scan, variable names, bindings |
| `SiteData` | site payload and its clean-up pass |
| `Provisioning` | requests, responses, the run and its loops |
| `ProvisioningTrace` | per-row and loop-level trace properties |
| `RunProperties` | whole-run properties |
| `Regions` | region table and base URL |
| `Inventory` | fetch helpers, records, the crawl and its loops |
| `InventoryProps` | crawl properties |

Notes on what the code does:

- The variable name is `header.strip("{}")`, which removes every leading and trailing
  brace, not exactly one pair.
- Success is exactly status 200 or 201, both for the clone and for each site.
- A blank plain site cell is sent as `None`, and a blank template cell is bound to `None`.
- `latlng` is a nested object that the clean-up pass never inspects. An empty latitude or
  longitude is a NaN inside it, so the payload does not encode and the script ends
  before that site is created (see "Findings").
- The encoding fails in two places with the same effect. The debug `json.dumps` at
  Cookie.py:73 and :90 raises `TypeError` on a date. The requests library encodes a
  `json=` body with `allow_nan=False`, so Cookie.py:31, :75 and :92 raise
  `InvalidJSONError` on a NaN or infinite float. Either way the request is not sent.
  The model therefore has one test, `Encodable`.
- An infinite template cell passes `pd.notna` (Cookie.py:84) and is bound as it is, so
  it ends the script at the settings update.
- A sheet with fewer than 5 rows and more than 10 columns raises in the header scan
  (Cookie.py:43). A sheet with 8 or 9 columns raises at its first site row,
  if it has one (Cookie.py:63-64). Both happen after the clone.

## Model

| member | source | states |
|---|---|---|
| PyText.StripTrims | Cookie.py:22 | `strip` leaves an infix that neither starts nor ends with a stripped character, and everything removed on either side is a stripped character |
| PyText.IsMissingId | Cookie.py:24 | the id test can only hold for the empty string or a three-letter id |
| PyText.MissingIdSpellings | Cookie.py:24-26 | the id test holds exactly for the empty string and the eight case spellings of "nan" |
| Sheet.DropBlankRows | Cookie.py:49 | `dropna(how="all")` keeps no all-blank row, keeps only rows of its input, and never grows the input |
| Sheet.DropBlankRowsAppend | Cookie.py:49 | dropping distributes over concatenation, so surviving rows keep the sheet's order and each row's fate depends on that row alone |
| Sheet.DropBlankRowsKeeps | Cookie.py:49 | a row survives exactly when it is in the input and is not entirely blank |
| Sheet.SiteRows | Cookie.py:49 | site rows come from index 5 onward and none is entirely blank; a sheet of 5 rows or fewer has none |
| Sheet.SiteRowsSelection | Cookie.py:49 | a row is a site row exactly when it stands at index 5 or later and is not entirely blank |
| Sheet.SiteRowsWidth | Cookie.py:49 | site rows keep the width of the sheet |
| Provisioning.SiteRowsFit | Cookie.py:42-64 | when the header scan and the loop can read the sheet, every site row holds the ten fixed columns and every template column |
| Template.VarName | Cookie.py:47 | the stored variable name neither starts nor ends with a brace |
| Template.ScanHeaderEntries | Cookie.py:41-47 | the kept columns ascend, and each lies at or after column 10, before the first blank, has a marked header, and is named by its header with the braces stripped |
| Template.ScanHeaderKept | Cookie.py:42-47 | entry by entry: a kept column is in range, marked, correctly named, with no blank header from the start up to it |
| Template.ScanHeaderOrdered | Cookie.py:42-47 | kept columns come out in strictly ascending column order |
| Template.ScanHeaderComplete | Cookie.py:44-47 | before the first blank, a column is kept exactly when its header is a string starting with "{{" and ending with "}}"; unmarked headers are skipped without ending the scan |
| Template.StopsAtBlank | Cookie.py:44-45 | no column at or after a blank header is kept |
| Template.DetectVariableColumns | Cookie.py:41-47 | the `for`/`break` loop computes the header scan from column 10, ascending and inside the row |
| Template.BindingsLastWins | Cookie.py:82-85 | the bindings have exactly one key per variable name, and each name is bound to the cell of the last column carrying it, with a missing cell as `None` |
| Template.BindingsKeys | Cookie.py:82-85 | the keys of the bindings are exactly the variable names |
| Template.BindingAt | Cookie.py:83-85 | a column that no later column renames has its cell, or `None`, as its name's value |
| Template.BindingsEncodable | Cookie.py:83-92 | the bindings encode exactly when the last column of every name holds a blank, text or a finite number; an infinite float or a date makes the update's encoding raise |
| Template.BuildBindings | Cookie.py:82-85 | the loop filling `site_variables` computes the bindings |
| SiteData.FieldNamesDistinct | Cookie.py:52-65 | distinct payload keys have distinct JSON field names |
| SiteData.RawSiteDataKeys | Cookie.py:52-65 | the freshly built `site_data` has all nine keys |
| SiteData.NormaliseSiteData | Cookie.py:67-70 | the in-place clean-up loop keeps the key set, leaves no NaN or infinite top-level float, and changes exactly those values to `None` |
| SiteData.CleanedRawIsPayload | Cookie.py:52-70 | cleaning the built `site_data` gives the row's payload |
| SiteData.SitePayloadFields | Cookie.py:52-70 | each plain key holds its column's cell, or `None` when that cell is NaN or infinite; `latlng` holds latitude and longitude uninspected; no top-level value is non-finite |
| SiteData.CleanEncodable | Cookie.py:67-73 | a cleaned top-level value encodes exactly when its cell is not a date or time |
| SiteData.SitePayloadEncodable | Cookie.py:52-75 | a row's payload encodes exactly when no plain column holds a date or time and latitude and longitude are both text or finite numbers |
| SiteData.BlankLatitudeNotEncodable | Cookie.py:56-75 | a row with an empty latitude cell has a payload that does not encode |
| SiteData.IntendedPayloadEncodable | Cookie.py:67-70 | the clean-up applied at every depth changes only `latlng`, nulling a non-finite latitude or longitude, and gives a payload that encodes for every row without a date or time |
| Provisioning.ProvisionRow | Cookie.py:52-100 | one row: a payload that does not encode stops the run before any request; otherwise create it, and only on 200/201 build the bindings, which stop the run before the update when they do not encode and are otherwise PUT to the returned id |
| Provisioning.RowsRunExtend | Cookie.py:51 | one more turn of the loop extends the rows before it by that row |
| Provisioning.RowsRunStopped | Cookie.py:51-100 | once a row has made the script raise, the rows after it change nothing |
| Provisioning.ProvisionRows | Cookie.py:51-100 | the per-row loop attempts the site rows in order, whatever the requests of the rows before got, up to the first row that makes the script raise |
| Provisioning.StopsAtIdCheck | Cookie.py:22-26 | a missing source id ends the run with no request at all |
| Provisioning.StopsAtName | Cookie.py:29-31 | a new name that does not encode ends the run with no request at all |
| Provisioning.StopsAtClone | Cookie.py:31-38 | a clone answered with a status other than 200/201 ends the run after the clone, carrying that status |
| Provisioning.StopsAfterClone | Cookie.py:42-64 | a sheet the header scan or the loop cannot read aborts the run straight after a successful clone, with no site created |
| Provisioning.ContinuesAfterClone | Cookie.py:33-51 | after a successful clone on a readable sheet, the run is the clone followed by the per-row loop in the new organization, completed or aborted as the loop ended |
| Provisioning.Provision | Cookie.py:21-100 | the script's outcome and call trace are those of the reference run |
| ProvisioningTrace.RowRunCreates | Cookie.py:73-75 | a row with an encodable payload sends exactly one create request, carrying that payload, and has one outcome; otherwise it stops with neither |
| ProvisioningTrace.RowRunStatuses | Cookie.py:75-100 | a row counts as created exactly when its create got 200/201, and a failure records the create's status |
| ProvisioningTrace.RowRunBindings | Cookie.py:77-92 | a row sends its bindings exactly when its site was created and its update was sent |
| ProvisioningTrace.RowRunStops | Cookie.py:73-92 | a row stops the run exactly when its payload, or, after a successful create, its bindings, do not encode |
| ProvisioningTrace.RowRunUpdatesFollow | Cookie.py:77-92 | within a row, the settings PUT comes straight after a successful create and goes to the id it returned |
| ProvisioningTrace.RowRunCreatesFollowed | Cookie.py:77-92 | within a row, a successful create is followed straight away by the settings PUT, unless the row stopped there |
| ProvisioningTrace.RowRunIntoOrg | Cookie.py:75-92 | a row only creates sites in the new organization or updates settings |
| ProvisioningTrace.RowsRunCreates | Cookie.py:51-75 | the loop creates sites for a prefix of the rows, one per row, in row order, with each row's payload, one outcome per row sent; only a stopped loop leaves rows out |
| ProvisioningTrace.RowsRunStatuses | Cookie.py:51-100 | in the loop, row `i` counts as created exactly when the `i`-th create got 200/201 |
| ProvisioningTrace.RowsRunBindings | Cookie.py:51-92 | the loop's settings PUTs carry the bindings of exactly the rows created and updated, in row order |
| ProvisioningTrace.RowsRunStops | Cookie.py:51-92 | every row sent had an encodable payload; only the last can stop at its update, whose bindings then do not encode; the loop stopped exactly when it left rows out or its last row stopped at its update, and otherwise the first row left out has a payload that does not encode |
| ProvisioningTrace.RowsRunUpdatesFollow | Cookie.py:51-92 | every PUT of the loop comes straight after the successful create of its site and goes to that create's id |
| ProvisioningTrace.RowsRunCreatesFollowed | Cookie.py:51-92 | every successful create of the loop is followed straight away by its PUT, except a last one whose bindings stopped the loop |
| ProvisioningTrace.RowsRunIntoOrg | Cookie.py:51-92 | every call of the loop creates a site in the new organization or updates a site's settings |
| RunProperties.SourceIdCheck | Cookie.py:22-31 | the run ends at the id check exactly when the stripped H2 text is empty or "nan" in any case, at the clone body exactly when the A2 name does not encode, and sends nothing at all exactly in those two cases |
| RunProperties.CloneGate | Cookie.py:29-38 | the first call clones the source org under A2's name; the run goes past the clone exactly on 200/201, into the returned id; otherwise it ends with that status and nothing after the clone |
| RunProperties.StoppedRunsCreateNothing | Cookie.py:24-38 | a run stopped before or at the clone sends no site create and no settings request |
| RunProperties.ClonedRunShape | Cookie.py:33-64 | past the clone, an unreadable sheet aborts with the clone alone; otherwise the run is the clone followed by the per-row loop, completed or aborted as the loop ended |
| RunProperties.ClonedRunSites | Cookie.py:49-77 | past the clone, the run sends one create for each of the first site rows, in sheet order, with each row's cleaned payload, for all of them when it completed, and marks a row created exactly when its create got 200/201 |
| RunProperties.ClonedRunBindings | Cookie.py:49-92 | past the clone, the settings PUTs carry the bindings of exactly the rows created and updated, in sheet order |
| RunProperties.ClonedRunStops | Cookie.py:42-92 | past the clone, the run aborted exactly when the sheet was unreadable, rows were left out, or the last row stopped at its update; each row sent had an encodable payload, with bindings that encode exactly when its update was sent |
| RunProperties.BlankLatitudeAbortsRun | Cookie.py:56-75 | an empty latitude in the first site row aborts the run with no site created and no settings sent |
| RunProperties.RunOrder | Cookie.py:31-100 | the clone is the first call and the only clone; every PUT follows the successful create of its site, addressed to its id; every successful create is followed by its PUT but for the last call of an aborted run; all sites go into the new org |
| Regions.BaseUrl | MSPInventory.py:47-48 | a base URL exists exactly for the keys of the lookup table (otherwise `KeyError`), and it starts with "https://api" and ends with ".mist.com/api/v1" |
| Regions.LookupCoversReference | MSPInventory.py:9-29 | the lookup table's keys are exactly the cloud names of the documented reference table |
| Regions.Global01Url | MSPInventory.py:47-48 | Global01 yields https://api.mist.com/api/v1 |
| Regions.Global02Url | MSPInventory.py:47-48 | Global02 yields https://api.gc1.mist.com/api/v1 |
| Regions.Global03Url | MSPInventory.py:47-48 | Global03 yields https://api.ac2.mist.com/api/v1 |
| Regions.Global04Url | MSPInventory.py:47-48 | Global04 yields https://api.gc2.mist.com/api/v1 |
| Regions.EMEA01Url | MSPInventory.py:47-48 | EMEA01 yields https://api.eu.mist.com/api/v1 |
| Regions.EMEA02Url | MSPInventory.py:47-48 | EMEA02 yields https://api.gc3.mist.com/api/v1 |
| Regions.APAC01Url | MSPInventory.py:47-48 | APAC01 yields https://api.ac5.mist.com/api/v1 |
| Regions.BaseUrlMatchesReference | MSPInventory.py:11-17 | for every row of the reference table, the derived base URL is the documented one |
| Regions.BaseUrlOnlyDocumented | MSPInventory.py:47-48 | a base URL exists only for the clouds of the documented reference table |
| Inventory.Fetch | MSPInventory.py:56-69 | a fetch returns the payload when the response is OK, and the empty list otherwise |
| Inventory.GetOrgsInMsp | MSPInventory.py:56-59 | the MSP's organizations when the listing is OK, and `[]` otherwise |
| Inventory.GetSitesInOrg | MSPInventory.py:61-64 | the organization's sites when the listing is OK, and `[]` otherwise |
| Inventory.GetDeviceStats | MSPInventory.py:66-69 | the site's device statistics when the listing is OK, and `[]` otherwise |
| Inventory.DeviceRecord | MSPInventory.py:89-118 | every record has the 28 columns |
| Inventory.CollectDevices | MSPInventory.py:88-118 | the device loop appends one record per device, in device order |
| Inventory.CollectSites | MSPInventory.py:82-118 | the site loop yields the organization's records and one device listing per site, in site order |
| Inventory.CollectFullInventory | MSPInventory.py:72-118 | `collect_full_inventory` yields the crawl's records and requests |
| Inventory.Script | MSPInventory.py:42-48 | the script makes no request at all exactly when the configured region is not a lookup key |
| InventoryProps.AttributionColumns | MSPInventory.py:90-92 | the first three columns are "Org Name", "Org ID" and "Site Name", taken from the org's name, the org's id and the site's name |
| InventoryProps.DeviceRecordAttributed | MSPInventory.py:90-92 | a record's org name, org id and site name are the enclosing org's and site's, or null when absent |
| InventoryProps.DeviceFieldsCopied | MSPInventory.py:93-117 | each device column holds the same-named top-level key of the device payload, or null when it is absent |
| InventoryProps.EnvColumns | MSPInventory.py:112-114 | the `env_stat` columns are exactly CPU temp, ambient temp and humidity |
| InventoryProps.NoEnvStatMeansNull | MSPInventory.py:112-114 | without `env_stat`, the three temperature and humidity columns are null |
| InventoryProps.EnvStatCopied | MSPInventory.py:112-114 | with an `env_stat` object, each of the three columns is its sub-key's value, or null when that sub-key is absent |
| InventoryProps.DeviceRecordsAt | MSPInventory.py:88-118 | a site's records are its devices' records, one per device, at the device's position |
| InventoryProps.SiteRecordsCount | MSPInventory.py:82-89 | an organization's record count is the sum of its sites' device-list lengths |
| InventoryProps.DeviceRecordsAttributed | MSPInventory.py:88-92 | every record of a site names that site and its organization |
| InventoryProps.SiteRecordsAttributed | MSPInventory.py:82-92 | every record of an organization names it and one of its listed sites |
| InventoryProps.SiteCallsAreListings | MSPInventory.py:82-87 | the site level issues exactly one device listing per site, in site order |
| InventoryProps.SiteCallsAppend | MSPInventory.py:82-87 | the requests of two runs of sites are those of each, one after the other |
| InventoryProps.SiteRecordsAppend | MSPInventory.py:82-89 | the records of two runs of sites are those of each, one after the other, with no resorting |
| InventoryProps.OrgRecordsCount | MSPInventory.py:74-89 | the number of records is the sum of the device-list lengths over all sites of all orgs |
| InventoryProps.OrgRecordsAttributed | MSPInventory.py:76-92 | every record carries the name and id of one org and the name of one of the sites listed for that org |
| InventoryProps.OrgRecordsAppend | MSPInventory.py:76-89 | the records of two runs of orgs are those of each, one after the other, with no resorting |
| InventoryProps.OrgCallsAppend | MSPInventory.py:76-87 | the requests of two runs of orgs are those of each, one after the other |
| InventoryProps.FailedOrg | MSPInventory.py:81-82 | an org whose site listing fails adds no record and only that listing to the requests |
| InventoryProps.FailedSiteListing | MSPInventory.py:74-88 | such an org contributes nothing else, and the orgs after it are crawled as if it were absent |
| InventoryProps.EveryOrgListed | MSPInventory.py:76-81 | the sites of every org are listed exactly once, in org order |
| InventoryProps.OrgCallsUseBase | MSPInventory.py:57-67 | every request goes to the one base URL |
| InventoryProps.OrgCallsListNoOrgs | MSPInventory.py:74-87 | the org level never lists orgs again |
| InventoryProps.InventoryShape | MSPInventory.py:72-118 | the crawl first lists the orgs, and only once; all requests use the base URL; the record count is the device total; a failed org listing gives no record and no further request |
| InventoryProps.ScriptRegion | MSPInventory.py:123-124 | for every cloud of the reference table, the script crawls from that cloud's documented base URL |

## Left out

- HTTP transport, headers, credentials and JSON decoding are not modelled: responses are
  given inputs. The provisioning server is indexed by step and request rather than by
  call. The two calls of a step differ by request kind, so this is equally expressive.
- The request URLs are not modelled as text. Each request records its path parameters.
- pandas: reading the workbook and building the inventory DataFrame and CSV are not
  modelled. A sheet is a rectangular grid of cells.
- Provisioning.Provision: requires a sheet of at least 2 rows and 8 columns. A smaller
  sheet raises `IndexError` at Cookie.py:21-22, before any request, so that requirement
  only leaves out runs that send nothing. Larger sheets that are still too small for the
  header scan or for the site rows are modelled, as the `Aborted` outcome after the clone.
- Cell values beyond their kind and `str()` text are not modelled. A cell is blank, a
  string, a finite number, an infinite float (with its sign), or a date or time. Only
  string, finite and date cells carry their `str()` text, since only the finiteness
  test, encodability and the text matter. NumPy
  scalar types are read as the Python values they stand for. No float arithmetic is
  modelled.
- PyText.Lower: folds ASCII letters only, not Python's full Unicode case mapping. No
  character outside ASCII lowers to "n" or "a", so the "nan" test is unaffected.
- `print` messages and emoji logging are not modelled. `exit()` is a terminal outcome:
  `NoSourceOrg` or `CloneFailed`. An uncaught exception is one too: `NameRejected`
  before the clone, `Aborted` after it. The exception's message is not modelled.
- The site payload's keys are an enumeration, `SiteKey`, with their JSON field names
  proved distinct. The payload and bindings of each row are computed up front as a
  `RowPlan`, which is the same, since both are pure in the row.
- Inventory: a device whose `env_stat` is present but not an object makes the script
  raise `AttributeError`. The crawl's precondition `DevicesOk` excludes such devices; no
  null output is claimed for them. `DevicesOk` asks this of every device listing the API
  could answer, not only of the listings the crawl reaches, which is stronger than needed:
  an API with a malformed listing that the crawl never requests is excluded too, although
  the script would not raise on it.
- Inventory: the API is a function of the request, so the same GET always gets the same
  answer. In the script each GET is a separate call whose answer could differ. The two
  only part when two organizations or two sites share an id and are listed twice.
- Inventory: a payload that is not a list of objects is not modelled. An OK response is
  a sequence of objects.
- Records are sequences aligned with `Columns` rather than dictionaries. The column
  names are the dictionary's keys in insertion order.

## Findings

| source | as written | input that shows it | evidently intended | confidence | as-written member | corrected member |
|---|---|---|---|---|---|---|
| Cookie.py:67-70 | the clean-up nulls only non-finite top-level floats and never looks inside `latlng` | a site row whose latitude cell is empty: the payload holds NaN in `latlng`, encoding it raises, and the script ends before that site is created | non-finite values nulled at every depth, so every row without a date encodes | not executed | SiteData.BlankLatitudeNotEncodable | SiteData.IntendedPayloadEncodable |

The run (`Provisioning.ProvisionRun`) models the clean-up as written, so
`RunProperties.BlankLatitudeAbortsRun` states the effect on a whole run.
