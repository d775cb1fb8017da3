/**
 * The provisioning run of Cookie.py: validate the source organization id, clone it into
 * a new organization, then create one site per site row and bind that row's template
 * variables to the site. HTTP calls are replaced by a given server: a total function from
 * the step of the run and the request to the response, so that every run is determined by
 * the sheet and the server, and every request is recorded, with the response it got, in
 * call order.
 */
module Provisioning {
  import opened Wrappers
  import opened PyText
  import opened Sheet
  import opened Template
  import opened SiteData

  /** The requests the script issues. */
  datatype Request =
      /** POST /orgs/{sourceOrgId}/clone with body {"name": name}. */
    | CloneOrg(sourceOrgId: string, name: Cell)
      /** POST /orgs/{orgId}/sites with the site payload as body. */
    | CreateSite(orgId: Option<string>, site: map<SiteKey, Value>)
      /** PUT /sites/{siteId}/setting with body {"vars": vars}. */
    | SetSiteVariables(siteId: Option<string>, vars: map<string, Value>)

  /** A response: its status code and the "id" of its JSON body (`None` when absent). */
  datatype Response = Response(status: int, id: Option<string>)

  /**
   * The server's answers: `server(s, r)` is the response to request `r` sent at step `s` of
   * the run, where step 0 is the clone and step `i + 1` handles site row `i`. Answers may
   * change from step to step, as the state of a real server does.
   */
  type Server = (nat, Request) -> Response

  /** One exchange with the server: a request and the response it got. */
  datatype Call = Call(request: Request, response: Response)

  /** The script's success test: status 200 or 201. */
  predicate Succeeded(status: int)
  {
    status == 200 || status == 201
  }

  /** What became of one site row whose create request was sent. */
  datatype RowOutcome =
    | SiteCreationFailed(status: int)
    | SiteCreated(siteId: Option<string>, variablesSet: bool)
      /** The site was created, but its bindings do not encode: no update is sent and the script ends. */
    | VariablesRejected(siteId: Option<string>)
  {
    /** The create request got 200 or 201. */
    predicate Created()
    {
      SiteCreated? || VariablesRejected?
    }
  }

  /**
   * How the run ended: stopped by the id check; stopped because the clone body does not
   * encode (the script raises before sending it); stopped by a refused clone; through
   * every row; or aborted after the clone, when the script raised while reading the sheet
   * or encoding a request body. `rows` holds the outcomes of the rows whose create was sent.
   */
  datatype Outcome =
    | NoSourceOrg
    | NameRejected
    | CloneFailed(status: int)
    | Completed(orgId: Option<string>, rows: seq<RowOutcome>)
    | Aborted(orgId: Option<string>, rows: seq<RowOutcome>)
  {
    /** The clone succeeded and the run went on past it. */
    predicate Cloned()
    {
      Completed? || Aborted?
    }
  }

  /**
   * The outcomes and calls of a stretch of site rows, and whether the script raised in it,
   * which ends the run: nothing after a stopped stretch is ever run.
   */
  datatype Segment = Segment(outcomes: seq<RowOutcome>, calls: seq<Call>, stopped: bool)
  {
    /** This stretch followed by `next`, which only runs when this one did not stop. */
    function Then(next: Segment): Segment
    {
      if stopped then this else Segment(outcomes + next.outcomes, calls + next.calls, next.stopped)
    }
  }

  /** A whole run: how it ended, and every call it made, in order. */
  datatype Run = Run(outcome: Outcome, trace: seq<Call>)

  /**
   * A sheet from which the script reads the new name (A2) and the source id (H2) without
   * raising: rectangular, with at least 2 rows and 8 columns.
   */
  predicate Readable(grid: seq<Row>, width: nat)
  {
    Rectangular(grid, width) && |grid| >= 2 && width >= 8
  }

  /**
   * The header scan reads row 5 only from column K on: it raises on a sheet with fewer
   * than 5 rows and more than 10 columns.
   */
  predicate HeaderScannable(grid: seq<Row>, width: nat)
  {
    |grid| > HeaderRow || width <= FirstVariableColumn
  }

  /** The per-row loop reads columns A to J of every site row: it raises on the first site row of a narrower sheet. */
  predicate RowsReadable(grid: seq<Row>, width: nat)
  {
    width >= 10 || SiteRows(grid) == []
  }

  /** The template columns the header scan finds: none when the sheet has no column past J. */
  function HeaderColumns(grid: seq<Row>): seq<VarColumn>
  {
    if |grid| > HeaderRow then ScanHeader(grid[HeaderRow], FirstVariableColumn) else []
  }

  /** Rows that hold the ten site columns and every template column. */
  predicate RowsFit(cols: seq<VarColumn>, rows: seq<Row>)
  {
    forall i :: 0 <= i < |rows| ==> |rows[i]| >= 10 && Fits(cols, rows[i])
  }

  /** When the sheet can be scanned and read, every site row holds the ten site columns and every template column. */
  lemma SiteRowsFit(grid: seq<Row>, width: nat)
    requires Readable(grid, width) && HeaderScannable(grid, width) && RowsReadable(grid, width)
    ensures RowsFit(HeaderColumns(grid), SiteRows(grid))
  {
    var cols := HeaderColumns(grid);
    var rows := SiteRows(grid);
    SiteRowsWidth(grid, width);
    if |grid| > HeaderRow {
      ScanHeaderEntries(grid[HeaderRow], FirstVariableColumn);
    }
    forall i | 0 <= i < |rows| ensures |rows[i]| >= 10 && Fits(cols, rows[i]) {
      forall k | 0 <= k < |cols| ensures cols[k].col < |rows[i]| {
        assert KeptAt(grid[HeaderRow], FirstVariableColumn, cols[k]);
      }
    }
  }

  /** The source organization id: `str()` of cell H2, stripped of surrounding whitespace. */
  function SourceOrgId(grid: seq<Row>): string
    requires |grid| >= 2 && |grid[1]| >= 8
  {
    Strip(Str(grid[1][7]), Whitespace)
  }

  /** What one site row asks of the server: its site payload, and the bindings for its variables. */
  datatype RowPlan = RowPlan(site: map<SiteKey, Value>, vars: map<string, Value>)

  /** The plan of a site row: its cleaned `site_data` and its `site_variables`. */
  function PlanOf(cols: seq<VarColumn>, row: Row): RowPlan
    requires |row| >= 10 && Fits(cols, row)
  {
    RowPlan(SitePayload(row), Bindings(cols, row))
  }

  /** The plans of the site rows, row by row. */
  function Plans(cols: seq<VarColumn>, rows: seq<Row>): seq<RowPlan>
    requires RowsFit(cols, rows)
  {
    seq(|rows|, i requires 0 <= i < |rows| => PlanOf(cols, rows[i]))
  }

  /**
   * One site row, handled at step `step`. A payload that does not encode makes the script
   * raise before the create is sent. Otherwise create the site; only when that succeeds,
   * send the row's variable bindings to the new site, unless they do not encode, which
   * makes the script raise before the update is sent.
   */
  function RowRun(orgId: Option<string>, plan: RowPlan, step: nat, server: Server): Segment
  {
    if !Encodable(plan.site) then Segment([], [], true)
    else
      var create := CreateSite(orgId, plan.site);
      var created := server(step, create);
      if !Succeeded(created.status) then
        Segment([SiteCreationFailed(created.status)], [Call(create, created)], false)
      else if !Encodable(plan.vars) then
        Segment([VariablesRejected(created.id)], [Call(create, created)], true)
      else
        var put := SetSiteVariables(created.id, plan.vars);
        var updated := server(step, put);
        Segment([SiteCreated(created.id, Succeeded(updated.status))], [Call(create, created), Call(put, updated)], false)
  }

  /** The site rows one after another, row `i` at step `i + 1`, up to the first that stops the run. */
  function RowsRun(orgId: Option<string>, plans: seq<RowPlan>, server: Server): Segment
    decreases |plans|
  {
    if plans == [] then Segment([], [], false)
    else RowsRun(orgId, plans[..|plans| - 1], server).Then(RowRun(orgId, plans[|plans| - 1], |plans|, server))
  }

  /** The outcome of a run whose clone succeeded into `orgId` and whose loop made `seg`. */
  function LoopOutcome(orgId: Option<string>, seg: Segment): Outcome
  {
    if seg.stopped then Aborted(orgId, seg.outcomes) else Completed(orgId, seg.outcomes)
  }

  /** The whole run, as a function of the sheet and the server. */
  function ProvisionRun(grid: seq<Row>, width: nat, server: Server): Run
    requires Readable(grid, width)
  {
    var sourceId := SourceOrgId(grid);
    if IsMissingId(sourceId) then Run(NoSourceOrg, [])
    else if !EncodableCell(grid[1][0]) then Run(NameRejected, [])
    else
      var clone := CloneOrg(sourceId, grid[1][0]);
      var cloned := server(0, clone);
      if !Succeeded(cloned.status) then Run(CloneFailed(cloned.status), [Call(clone, cloned)])
      else if !HeaderScannable(grid, width) || !RowsReadable(grid, width) then
        Run(Aborted(cloned.id, []), [Call(clone, cloned)])
      else
        SiteRowsFit(grid, width);
        var seg := RowsRun(cloned.id, Plans(HeaderColumns(grid), SiteRows(grid)), server);
        Run(LoopOutcome(cloned.id, seg), [Call(clone, cloned)] + seg.calls)
  }

  /**
   * The body of the per-row loop, at step `step`: build and clean the site payload, create
   * the site, and only on success build the bindings and update the site's settings. The
   * JSON encoding of each body comes first; where it raises, the segment is marked stopped.
   */
  method ProvisionRow(orgId: Option<string>, cols: seq<VarColumn>, row: Row, step: nat, server: Server)
    returns (seg: Segment)
    requires |row| >= 10 && Fits(cols, row)
    ensures seg == RowRun(orgId, PlanOf(cols, row), step, server)
  {
    RawSiteDataKeys(row);
    var site := NormaliseSiteData(RawSiteData(row));
    CleanedRawIsPayload(row);
    if !Encodable(site) {
      return Segment([], [], true);
    }
    var create := CreateSite(orgId, site);
    var created := server(step, create);
    if !Succeeded(created.status) {
      return Segment([SiteCreationFailed(created.status)], [Call(create, created)], false);
    }
    var vars := BuildBindings(cols, row);
    if !Encodable(vars) {
      return Segment([VariablesRejected(created.id)], [Call(create, created)], true);
    }
    var put := SetSiteVariables(created.id, vars);
    var updated := server(step, put);
    seg := Segment([SiteCreated(created.id, Succeeded(updated.status))], [Call(create, created), Call(put, updated)], false);
  }

  /** One more turn of the per-row loop: the rows before row `i`, then row `i`, make the rows up to row `i`. */
  lemma RowsRunExtend(orgId: Option<string>, plans: seq<RowPlan>, i: nat, server: Server, done: Segment, seg: Segment)
    requires i < |plans|
    requires done == RowsRun(orgId, plans[..i], server)
    requires seg == RowRun(orgId, plans[i], i + 1, server)
    ensures done.Then(seg) == RowsRun(orgId, plans[..i + 1], server)
  {
    assert plans[..i + 1][..i] == plans[..i];
  }

  /** Once the rows up to row `i` have stopped the run, the rows after it change nothing. */
  lemma {:induction false} RowsRunStopped(orgId: Option<string>, plans: seq<RowPlan>, i: nat, server: Server)
    requires i <= |plans| && RowsRun(orgId, plans[..i], server).stopped
    ensures RowsRun(orgId, plans, server) == RowsRun(orgId, plans[..i], server)
    decreases |plans|
  {
    if i < |plans| {
      var init := plans[..|plans| - 1];
      assert init[..i] == plans[..i];
      RowsRunStopped(orgId, init, i, server);
    } else {
      assert plans[..i] == plans;
    }
  }

  /**
   * The per-row loop: every row is attempted, in order, whatever became of the requests of
   * the rows before it, until one of them makes the script raise.
   */
  method ProvisionRows(orgId: Option<string>, cols: seq<VarColumn>, rows: seq<Row>, server: Server)
    returns (done: Segment)
    requires RowsFit(cols, rows)
    ensures done == RowsRun(orgId, Plans(cols, rows), server)
  {
    ghost var plans := Plans(cols, rows);
    done := Segment([], [], false);
    var i := 0;
    while i < |rows| && !done.stopped
      invariant i <= |rows|
      invariant done == RowsRun(orgId, plans[..i], server)
    {
      var seg := ProvisionRow(orgId, cols, rows[i], i + 1, server);
      RowsRunExtend(orgId, plans, i, server, done, seg);
      done := done.Then(seg);
      i := i + 1;
    }
    if done.stopped {
      RowsRunStopped(orgId, plans, i, server);
    } else {
      assert plans[..i] == plans;
    }
  }

  /** A sheet whose source id is missing stops the run before any request. */
  lemma StopsAtIdCheck(grid: seq<Row>, width: nat, server: Server)
    requires Readable(grid, width) && IsMissingId(SourceOrgId(grid))
    ensures ProvisionRun(grid, width, server) == Run(NoSourceOrg, [])
  {
  }

  /** A new name that does not encode stops the run before any request. */
  lemma StopsAtName(grid: seq<Row>, width: nat, server: Server)
    requires Readable(grid, width) && !IsMissingId(SourceOrgId(grid)) && !EncodableCell(grid[1][0])
    ensures ProvisionRun(grid, width, server) == Run(NameRejected, [])
  {
  }

  /** A refused clone stops the run after the clone, with the refusal's status. */
  lemma StopsAtClone(grid: seq<Row>, width: nat, server: Server)
    requires Readable(grid, width) && !IsMissingId(SourceOrgId(grid)) && EncodableCell(grid[1][0])
    requires !Succeeded(server(0, CloneOrg(SourceOrgId(grid), grid[1][0])).status)
    ensures var clone := CloneOrg(SourceOrgId(grid), grid[1][0]);
            ProvisionRun(grid, width, server) == Run(CloneFailed(server(0, clone).status), [Call(clone, server(0, clone))])
  {
  }

  /** A sheet the header scan or the loop cannot read aborts the run straight after a successful clone. */
  lemma StopsAfterClone(grid: seq<Row>, width: nat, server: Server)
    requires Readable(grid, width) && !IsMissingId(SourceOrgId(grid)) && EncodableCell(grid[1][0])
    requires Succeeded(server(0, CloneOrg(SourceOrgId(grid), grid[1][0])).status)
    requires !HeaderScannable(grid, width) || !RowsReadable(grid, width)
    ensures var clone := CloneOrg(SourceOrgId(grid), grid[1][0]);
            ProvisionRun(grid, width, server) == Run(Aborted(server(0, clone).id, []), [Call(clone, server(0, clone))])
  {
  }

  /** A run whose clone succeeded on a sheet that can be read: the clone, then the per-row loop. */
  lemma ContinuesAfterClone(grid: seq<Row>, width: nat, server: Server, done: Segment)
    requires Readable(grid, width) && !IsMissingId(SourceOrgId(grid)) && EncodableCell(grid[1][0])
    requires Succeeded(server(0, CloneOrg(SourceOrgId(grid), grid[1][0])).status)
    requires HeaderScannable(grid, width) && RowsReadable(grid, width)
    requires RowsFit(HeaderColumns(grid), SiteRows(grid))
    requires done == RowsRun(server(0, CloneOrg(SourceOrgId(grid), grid[1][0])).id,
                             Plans(HeaderColumns(grid), SiteRows(grid)), server)
    ensures var clone := CloneOrg(SourceOrgId(grid), grid[1][0]);
            ProvisionRun(grid, width, server)
              == Run(LoopOutcome(server(0, clone).id, done), [Call(clone, server(0, clone))] + done.calls)
  {
  }

  /**
   * The script itself: the id check, the clone with its status gate, the header scan, and
   * the per-row loop in which a failed create or a failed variable update never stops
   * the rows after it, while a request body that does not encode, or a sheet too small
   * for the cells the script reads, ends the run where the script raises.
   */
  method Provision(grid: seq<Row>, width: nat, server: Server) returns (outcome: Outcome, trace: seq<Call>)
    requires Readable(grid, width)
    ensures Run(outcome, trace) == ProvisionRun(grid, width, server)
  {
    var orgName := grid[1][0];
    var sourceId := Strip(Str(grid[1][7]), Whitespace);
    assert sourceId == SourceOrgId(grid);
    if IsMissingId(sourceId) {
      StopsAtIdCheck(grid, width, server);
      return NoSourceOrg, [];
    }
    if !EncodableCell(orgName) {
      StopsAtName(grid, width, server);
      return NameRejected, [];
    }
    var clone := CloneOrg(sourceId, orgName);
    var cloned := server(0, clone);
    if !Succeeded(cloned.status) {
      StopsAtClone(grid, width, server);
      return CloneFailed(cloned.status), [Call(clone, cloned)];
    }
    var newOrgId := cloned.id;
    if !HeaderScannable(grid, width) || !RowsReadable(grid, width) {
      StopsAfterClone(grid, width, server);
      return Aborted(newOrgId, []), [Call(clone, cloned)];
    }
    var cols := [];
    if |grid| > HeaderRow {
      cols := DetectVariableColumns(grid[HeaderRow]);
    }
    var rows := SiteRows(grid);
    SiteRowsFit(grid, width);
    var done := ProvisionRows(newOrgId, cols, rows, server);
    ContinuesAfterClone(grid, width, server, done);
    outcome := if done.stopped then Aborted(newOrgId, done.outcomes) else Completed(newOrgId, done.outcomes);
    trace := [Call(clone, cloned)] + done.calls;
  }
}
