/**
 * What a whole provisioning run does, stated over its outcome and its call trace: the id
 * check, the clone gate, the per-row loop seen from the top, and where the run aborts.
 */
module RunProperties {
  import opened Wrappers
  import opened PyText
  import opened Sheet
  import opened Template
  import opened SiteData
  import opened Provisioning
  import opened ProvisioningTrace

  /**
   * The checks before the clone: the run ends at the id check exactly when the stripped
   * text of H2 is empty or spells "nan" in any case; past it, it ends at the clone body
   * exactly when the name in A2 does not encode; and the run makes no request at all
   * exactly when it ends at one of the two.
   */
  lemma SourceIdCheck(grid: seq<Row>, width: nat, server: Server)
    requires Readable(grid, width)
    ensures var run := ProvisionRun(grid, width, server);
            && (run.outcome.NoSourceOrg? <==> IsMissingId(SourceOrgId(grid)))
            && (run.outcome.NameRejected? <==> !IsMissingId(SourceOrgId(grid)) && !EncodableCell(grid[1][0]))
            && (run.trace == [] <==> IsMissingId(SourceOrgId(grid)) || !EncodableCell(grid[1][0]))
  {
    var run := ProvisionRun(grid, width, server);
    if !IsMissingId(SourceOrgId(grid)) && EncodableCell(grid[1][0]) {
      assert |run.trace| >= 1;
    }
  }

  /**
   * The clone gate: the first request clones the source organization under the name in A2;
   * only status 200 or 201 lets the run go on, into the new organization's id; any other
   * status ends the run with that status and no request after the clone.
   */
  lemma CloneGate(grid: seq<Row>, width: nat, server: Server)
    requires Readable(grid, width) && !IsMissingId(SourceOrgId(grid)) && EncodableCell(grid[1][0])
    ensures var run := ProvisionRun(grid, width, server);
            var clone := CloneOrg(SourceOrgId(grid), grid[1][0]);
            && |run.trace| >= 1 && run.trace[0] == Call(clone, server(0, clone))
            && (run.outcome.Cloned() <==> Succeeded(server(0, clone).status))
            && (run.outcome.CloneFailed? <==> !Succeeded(server(0, clone).status))
            && (run.outcome.CloneFailed? ==>
                  run.trace == [Call(clone, server(0, clone))] && run.outcome.status == server(0, clone).status)
            && (run.outcome.Cloned() ==> run.outcome.orgId == server(0, clone).id)
  {
    var clone := CloneOrg(SourceOrgId(grid), grid[1][0]);
    if Succeeded(server(0, clone).status) && HeaderScannable(grid, width) && RowsReadable(grid, width) {
      SiteRowsFit(grid, width);
      var seg := RowsRun(server(0, clone).id, Plans(HeaderColumns(grid), SiteRows(grid)), server);
      assert ([Call(clone, server(0, clone))] + seg.calls)[0] == Call(clone, server(0, clone));
    }
  }

  /** A run that stops before or at the clone creates no site and sets no variables. */
  lemma StoppedRunsCreateNothing(grid: seq<Row>, width: nat, server: Server)
    requires Readable(grid, width)
    requires !ProvisionRun(grid, width, server).outcome.Cloned()
    ensures var run := ProvisionRun(grid, width, server);
            CreatedSites(run.trace) == [] && SentBindings(run.trace) == []
  {
    var run := ProvisionRun(grid, width, server);
    if run.trace != [] {
      var clone := CloneOrg(SourceOrgId(grid), grid[1][0]);
      assert run.trace == [Call(clone, server(0, clone))];
      OneCall(run.trace[0]);
    }
  }

  /**
   * A run past the clone: a sheet the header scan or the loop cannot read aborts straight
   * after the clone; any other is the clone followed by the per-row loop over the plans of
   * the site rows, completed or aborted as the loop ended.
   */
  lemma ClonedRunShape(grid: seq<Row>, width: nat, server: Server)
    requires Readable(grid, width)
    requires ProvisionRun(grid, width, server).outcome.Cloned()
    ensures !IsMissingId(SourceOrgId(grid)) && EncodableCell(grid[1][0])
    ensures var clone := CloneOrg(SourceOrgId(grid), grid[1][0]);
            var orgId := server(0, clone).id;
            && Succeeded(server(0, clone).status)
            && (!HeaderScannable(grid, width) || !RowsReadable(grid, width) ==>
                  ProvisionRun(grid, width, server) == Run(Aborted(orgId, []), [Call(clone, server(0, clone))]))
            && (HeaderScannable(grid, width) && RowsReadable(grid, width) ==>
                  && RowsFit(HeaderColumns(grid), SiteRows(grid))
                  && var seg := RowsRun(orgId, Plans(HeaderColumns(grid), SiteRows(grid)), server);
                     ProvisionRun(grid, width, server) == Run(LoopOutcome(orgId, seg), [Call(clone, server(0, clone))] + seg.calls))
  {
    if HeaderScannable(grid, width) && RowsReadable(grid, width) {
      SiteRowsFit(grid, width);
    }
  }

  /** Putting the clone in front of the loop's calls changes no site, binding or create status. */
  lemma CloneInFront(c: Call, calls: seq<Call>)
    requires c.request.CloneOrg?
    ensures CreatedSites([c] + calls) == CreatedSites(calls)
    ensures SentBindings([c] + calls) == SentBindings(calls)
    ensures CreateStatuses([c] + calls) == CreateStatuses(calls)
  {
    OneCall(c);
    CreatedSitesAppend([c], calls);
    SentBindingsAppend([c], calls);
    CreateStatusesAppend([c], calls);
  }

  /** Putting the clone in front of the loop's calls keeps their order properties. */
  lemma CloneInFrontOrder(c: Call, calls: seq<Call>, orgId: Option<string>, open: bool)
    requires c.request.CloneOrg?
    requires UpdatesFollowCreates(calls) && CreatesAreFollowed(calls, open) && IntoOrg(calls, orgId)
    ensures var trace := [c] + calls;
            && (forall j :: 0 < j < |trace| ==> !trace[j].request.CloneOrg?)
            && UpdatesFollowCreates(trace) && CreatesAreFollowed(trace, open)
            && IntoOrg(trace[1..], orgId)
  {
    var trace := [c] + calls;
    assert UpdateFollowsCreate([c], 0);
    assert CreateIsFollowed([c], 0, false);
    UpdatesFollowAppend([c], calls);
    CreatesFollowedAppend([c], calls, open);
    assert trace[1..] == calls;
    forall j | 0 < j < |trace| ensures !trace[j].request.CloneOrg? {
      assert trace[j] == calls[j - 1];
    }
  }

  /**
   * A run past the clone creates one site for each of the first site rows, in sheet order,
   * with that row's cleaned payload, all of them when the run completed; and a row counts as
   * created exactly when its create returned 200 or 201.
   */
  lemma ClonedRunSites(grid: seq<Row>, width: nat, server: Server)
    requires Readable(grid, width)
    requires ProvisionRun(grid, width, server).outcome.Cloned()
    ensures var run := ProvisionRun(grid, width, server);
            var rows, k := SiteRows(grid), |run.outcome.rows|;
            && k <= |rows| && (run.outcome.Completed? ==> k == |rows|)
            && RowsFit(HeaderColumns(grid), rows[..k])
            && CreatedSites(run.trace) == SitePayloads(rows[..k])
            && OutcomesMatch(run.outcome.rows, CreateStatuses(run.trace))
  {
    ClonedRunShape(grid, width, server);
    var cols, rows := HeaderColumns(grid), SiteRows(grid);
    var clone := CloneOrg(SourceOrgId(grid), grid[1][0]);
    var c := Call(clone, server(0, clone));
    if !HeaderScannable(grid, width) || !RowsReadable(grid, width) {
      OneCall(c);
      assert rows[..0] == [];
    } else {
      var plans := Plans(cols, rows);
      var seg := RowsRun(server(0, clone).id, plans, server);
      PlansAt(cols, rows);
      RowsRunCreates(server(0, clone).id, plans, server);
      RowsRunStatuses(server(0, clone).id, plans, server);
      PlansPrefix(cols, rows, |seg.outcomes|);
      PlanSitesOfRows(cols, rows[..|seg.outcomes|]);
      CloneInFront(c, seg.calls);
    }
  }

  /**
   * In a run past the clone, the settings updates carry the bindings of exactly the rows
   * whose site was created and whose update was sent, in sheet order.
   */
  lemma ClonedRunBindings(grid: seq<Row>, width: nat, server: Server)
    requires Readable(grid, width)
    requires ProvisionRun(grid, width, server).outcome.Cloned()
    ensures var run := ProvisionRun(grid, width, server);
            var cols, rows, k := HeaderColumns(grid), SiteRows(grid), |run.outcome.rows|;
            && k <= |rows| && RowsFit(cols, rows[..k])
            && SentBindings(run.trace) == BindingsOfCreated(cols, rows[..k], run.outcome.rows)
  {
    ClonedRunShape(grid, width, server);
    var cols, rows := HeaderColumns(grid), SiteRows(grid);
    var clone := CloneOrg(SourceOrgId(grid), grid[1][0]);
    var c := Call(clone, server(0, clone));
    if !HeaderScannable(grid, width) || !RowsReadable(grid, width) {
      OneCall(c);
      assert rows[..0] == [];
    } else {
      var plans := Plans(cols, rows);
      var seg := RowsRun(server(0, clone).id, plans, server);
      PlansAt(cols, rows);
      RowsRunBindings(server(0, clone).id, plans, server);
      PlansPrefix(cols, rows, |seg.outcomes|);
      CreatedVarsOfRows(cols, rows[..|seg.outcomes|], seg.outcomes);
      CloneInFront(c, seg.calls);
    }
  }

  /**
   * Why a run past the clone aborted, or did not: every row whose create was sent had a
   * payload that encodes, with bindings that do not encode when it stopped at its update
   * and that do when its update was sent; only the last of them can have stopped at its
   * update; and the run aborted exactly when the sheet could not be scanned or read, when
   * rows were left out, or when its last row stopped at its update, the first row left
   * out otherwise having a payload that does not encode.
   */
  lemma ClonedRunStops(grid: seq<Row>, width: nat, server: Server)
    requires Readable(grid, width)
    requires ProvisionRun(grid, width, server).outcome.Cloned()
    ensures var run := ProvisionRun(grid, width, server);
            var cols, rows, outs := HeaderColumns(grid), SiteRows(grid), run.outcome.rows;
            var k := |outs|;
            var stoppedAtUpdate := k > 0 && outs[k - 1].VariablesRejected?;
            var readable := HeaderScannable(grid, width) && RowsReadable(grid, width);
            && k <= |rows|
            && (forall i :: 0 <= i < k ==>
                  |rows[i]| >= 10 && Fits(cols, rows[i]) && RowDecided(PlanOf(cols, rows[i]), outs[i]))
            && (forall i :: 0 <= i < k - 1 ==> !outs[i].VariablesRejected?)
            && (run.outcome.Aborted? <==> !readable || k < |rows| || stoppedAtUpdate)
            && (readable && k < |rows| && !stoppedAtUpdate ==> |rows[k]| >= 10 && !Encodable(SitePayload(rows[k])))
  {
    ClonedRunShape(grid, width, server);
    if HeaderScannable(grid, width) && RowsReadable(grid, width) {
      var cols, rows := HeaderColumns(grid), SiteRows(grid);
      var clone := CloneOrg(SourceOrgId(grid), grid[1][0]);
      var seg := RowsRun(server(0, clone).id, Plans(cols, rows), server);
      RowsRunStops(server(0, clone).id, Plans(cols, rows), server);
      StopsOfRows(cols, rows, seg);
    }
  }

  /** The loop's stopping facts over the plans, restated over the site rows they come from. */
  lemma StopsOfRows(cols: seq<VarColumn>, rows: seq<Row>, seg: Segment)
    requires RowsFit(cols, rows)
    requires StopsExplained(Plans(cols, rows), seg)
    ensures var outs, k := seg.outcomes, |seg.outcomes|;
            var stoppedAtUpdate := k > 0 && outs[k - 1].VariablesRejected?;
            && k <= |rows|
            && (forall i :: 0 <= i < k ==>
                  |rows[i]| >= 10 && Fits(cols, rows[i]) && RowDecided(PlanOf(cols, rows[i]), outs[i]))
            && (forall i :: 0 <= i < k - 1 ==> !outs[i].VariablesRejected?)
            && (seg.stopped <==> k < |rows| || stoppedAtUpdate)
            && (k < |rows| && !stoppedAtUpdate ==> |rows[k]| >= 10 && !Encodable(SitePayload(rows[k])))
  {
    PlansAt(cols, rows);
  }

  /**
   * An empty latitude in the first site row aborts the run before any site is created:
   * the clean-up leaves `latlng` alone, so the first payload does not encode.
   */
  lemma BlankLatitudeAbortsRun(grid: seq<Row>, width: nat, server: Server)
    requires Readable(grid, width)
    requires ProvisionRun(grid, width, server).outcome.Cloned()
    requires |SiteRows(grid)| > 0 && |SiteRows(grid)[0]| > 3 && SiteRows(grid)[0][3].Blank?
    ensures var run := ProvisionRun(grid, width, server);
            && run.outcome.Aborted? && run.outcome.rows == []
            && CreatedSites(run.trace) == [] && SentBindings(run.trace) == []
  {
    var run := ProvisionRun(grid, width, server);
    var rows := SiteRows(grid);
    ClonedRunStops(grid, width, server);
    ClonedRunSites(grid, width, server);
    ClonedRunBindings(grid, width, server);
    if |run.outcome.rows| > 0 {
      BlankLatitudeNotEncodable(rows[0]);
    }
    assert rows[..0] == [];
  }

  /**
   * Order in every run: the clone, if any, is the first call and the only clone; every
   * settings update comes straight after the successful create of its site and goes to the
   * id that create returned; every successful create is followed by its update, except the
   * last call of an aborted run; and past the clone every site is created in the new
   * organization.
   */
  lemma RunOrder(grid: seq<Row>, width: nat, server: Server)
    requires Readable(grid, width)
    ensures var run := ProvisionRun(grid, width, server);
            && (forall j :: 0 < j < |run.trace| ==> !run.trace[j].request.CloneOrg?)
            && UpdatesFollowCreates(run.trace)
            && CreatesAreFollowed(run.trace, run.outcome.Aborted?)
            && (run.outcome.Cloned() ==> IntoOrg(run.trace[1..], run.outcome.orgId))
  {
    var run := ProvisionRun(grid, width, server);
    if run.outcome.Cloned() && HeaderScannable(grid, width) && RowsReadable(grid, width) {
      ClonedRunShape(grid, width, server);
      var cols, rows := HeaderColumns(grid), SiteRows(grid);
      var clone := CloneOrg(SourceOrgId(grid), grid[1][0]);
      var orgId := server(0, clone).id;
      var plans := Plans(cols, rows);
      var seg := RowsRun(orgId, plans, server);
      RowsRunUpdatesFollow(orgId, plans, server);
      RowsRunCreatesFollowed(orgId, plans, server);
      RowsRunIntoOrg(orgId, plans, server);
      CloneInFrontOrder(Call(clone, server(0, clone)), seg.calls, orgId, seg.stopped);
    } else if run.trace != [] {
      assert UpdateFollowsCreate(run.trace, 0);
      assert CreateIsFollowed(run.trace, 0, run.outcome.Aborted?);
      assert run.trace[1..] == [];
    }
  }
}
