/**
 * Properties of the per-row loop of the provisioning run, stated over its outcomes and the
 * calls it makes: which requests are sent, in which order, and after which responses.
 */
module ProvisioningTrace {
  import opened Wrappers
  import opened Sheet
  import opened Template
  import opened SiteData
  import opened Provisioning

  /** The site payloads of the create-site requests, in call order. */
  function CreatedSites(calls: seq<Call>): seq<map<SiteKey, Value>>
    decreases |calls|
  {
    if calls == [] then []
    else
      var last := calls[|calls| - 1].request;
      CreatedSites(calls[..|calls| - 1]) + (if last.CreateSite? then [last.site] else [])
  }

  /** The variable bindings of the settings updates, in call order. */
  function SentBindings(calls: seq<Call>): seq<map<string, Value>>
    decreases |calls|
  {
    if calls == [] then []
    else
      var last := calls[|calls| - 1].request;
      SentBindings(calls[..|calls| - 1]) + (if last.SetSiteVariables? then [last.vars] else [])
  }

  /** The status codes the create-site requests got, in call order. */
  function CreateStatuses(calls: seq<Call>): seq<int>
    decreases |calls|
  {
    if calls == [] then []
    else
      var last := calls[|calls| - 1];
      CreateStatuses(calls[..|calls| - 1]) + (if last.request.CreateSite? then [last.response.status] else [])
  }

  /** The site payloads of `rows`, one per row, in order. */
  function SitePayloads(rows: seq<Row>): seq<map<SiteKey, Value>>
    requires forall i :: 0 <= i < |rows| ==> |rows[i]| >= 10
    decreases |rows|
  {
    if rows == [] then [] else SitePayloads(rows[..|rows| - 1]) + [SitePayload(rows[|rows| - 1])]
  }

  /** The bindings of the rows whose site was created, in row order. */
  function BindingsOfCreated(cols: seq<VarColumn>, rows: seq<Row>, outcomes: seq<RowOutcome>): seq<map<string, Value>>
    requires RowsFit(cols, rows) && |outcomes| == |rows|
    decreases |rows|
  {
    if rows == [] then []
    else
      var n := |rows| - 1;
      BindingsOfCreated(cols, rows[..n], outcomes[..n])
        + (if outcomes[n].SiteCreated? then [Bindings(cols, rows[n])] else [])
  }

  /** The site payloads of a list of plans, in order. */
  function PlanSites(plans: seq<RowPlan>): seq<map<SiteKey, Value>>
    decreases |plans|
  {
    if plans == [] then [] else PlanSites(plans[..|plans| - 1]) + [plans[|plans| - 1].site]
  }

  /** The bindings of the plans whose site was created, in order. */
  function CreatedVars(plans: seq<RowPlan>, outcomes: seq<RowOutcome>): seq<map<string, Value>>
    requires |outcomes| == |plans|
    decreases |plans|
  {
    if plans == [] then []
    else
      var n := |plans| - 1;
      CreatedVars(plans[..n], outcomes[..n]) + (if outcomes[n].SiteCreated? then [plans[n].vars] else [])
  }

  /** Row `i` counts as created exactly when its create got 200 or 201, whose status a failure records. */
  predicate OutcomesMatch(outcomes: seq<RowOutcome>, statuses: seq<int>)
  {
    && |outcomes| == |statuses|
    && forall i :: 0 <= i < |outcomes| ==>
         && (outcomes[i].Created() <==> Succeeded(statuses[i]))
         && (outcomes[i].SiteCreationFailed? ==> outcomes[i].status == statuses[i])
  }

  /**
   * Call `j`, when it is a settings update, comes straight after a create-site request that
   * got 200 or 201, and is addressed to the site id that create returned.
   */
  predicate UpdateFollowsCreate(calls: seq<Call>, j: nat)
    requires j < |calls|
  {
    calls[j].request.SetSiteVariables? ==>
      && 0 < j
      && calls[j - 1].request.CreateSite?
      && Succeeded(calls[j - 1].response.status)
      && calls[j].request.siteId == calls[j - 1].response.id
  }

  /** Every settings update comes straight after the successful create of its site. */
  predicate UpdatesFollowCreates(calls: seq<Call>)
  {
    forall j {:trigger UpdateFollowsCreate(calls, j)} :: 0 <= j < |calls| ==> UpdateFollowsCreate(calls, j)
  }

  /**
   * Call `j`, when it is a create-site request that got 200 or 201, is followed straight
   * away by a settings update, unless it is the last call of a stretch that is `open`:
   * one that ends where the script raised.
   */
  predicate CreateIsFollowed(calls: seq<Call>, j: nat, open: bool)
    requires j < |calls|
  {
    calls[j].request.CreateSite? && Succeeded(calls[j].response.status) ==>
      (j + 1 < |calls| && calls[j + 1].request.SetSiteVariables?) || (open && j + 1 == |calls|)
  }

  /** Every successful create is followed straight away by a settings update, but for the last call of an open stretch. */
  predicate CreatesAreFollowed(calls: seq<Call>, open: bool)
  {
    forall j {:trigger CreateIsFollowed(calls, j, open)} :: 0 <= j < |calls| ==> CreateIsFollowed(calls, j, open)
  }

  /** Every call creates a site in organization `orgId` or updates a site's settings: none clones. */
  predicate IntoOrg(calls: seq<Call>, orgId: Option<string>)
  {
    forall j :: 0 <= j < |calls| ==>
      (calls[j].request.CreateSite? && calls[j].request.orgId == orgId) || calls[j].request.SetSiteVariables?
  }

  /**
   * What a row whose create was sent says about its plan: the payload encoded, the
   * bindings of a row stopped at its update do not encode, and those of a row whose
   * update was sent do.
   */
  predicate RowDecided(plan: RowPlan, outcome: RowOutcome)
  {
    && Encodable(plan.site)
    && (outcome.VariablesRejected? ==> !Encodable(plan.vars))
    && (outcome.SiteCreated? ==> Encodable(plan.vars))
  }

  /**
   * Why the stretch `seg` of the loop over `plans` went on or stopped: every row whose
   * create was sent is decided by its plan; only the last of them can be stopped at its
   * update; the stretch stopped exactly when it left rows out or its last row was stopped
   * at its update; and otherwise the first row left out has a payload that does not encode.
   */
  predicate StopsExplained(plans: seq<RowPlan>, seg: Segment)
  {
    var outs, k := seg.outcomes, |seg.outcomes|;
    && k <= |plans|
    && (forall i :: 0 <= i < k ==> RowDecided(plans[i], outs[i]))
    && (forall i :: 0 <= i < k - 1 ==> !outs[i].VariablesRejected?)
    && (seg.stopped <==> k < |plans| || (k > 0 && outs[k - 1].VariablesRejected?))
    && (k < |plans| && !(k > 0 && outs[k - 1].VariablesRejected?) ==> !Encodable(plans[k].site))
  }

  lemma {:induction false} CreatedSitesAppend(a: seq<Call>, b: seq<Call>)
    ensures CreatedSites(a + b) == CreatedSites(a) + CreatedSites(b)
    decreases |b|
  {
    if b == [] {
      assert a + b == a;
    } else {
      assert (a + b)[..|a + b| - 1] == a + b[..|b| - 1];
      CreatedSitesAppend(a, b[..|b| - 1]);
    }
  }

  lemma {:induction false} SentBindingsAppend(a: seq<Call>, b: seq<Call>)
    ensures SentBindings(a + b) == SentBindings(a) + SentBindings(b)
    decreases |b|
  {
    if b == [] {
      assert a + b == a;
    } else {
      assert (a + b)[..|a + b| - 1] == a + b[..|b| - 1];
      SentBindingsAppend(a, b[..|b| - 1]);
    }
  }

  lemma {:induction false} CreateStatusesAppend(a: seq<Call>, b: seq<Call>)
    ensures CreateStatuses(a + b) == CreateStatuses(a) + CreateStatuses(b)
    decreases |b|
  {
    if b == [] {
      assert a + b == a;
    } else {
      assert (a + b)[..|a + b| - 1] == a + b[..|b| - 1];
      CreateStatusesAppend(a, b[..|b| - 1]);
    }
  }

  /** Row-wise agreement of outcomes and statuses carries over to concatenations. */
  lemma OutcomesMatchAppend(o1: seq<RowOutcome>, s1: seq<int>, o2: seq<RowOutcome>, s2: seq<int>)
    requires OutcomesMatch(o1, s1) && OutcomesMatch(o2, s2)
    ensures OutcomesMatch(o1 + o2, s1 + s2)
  {
    var o, st := o1 + o2, s1 + s2;
    forall i | 0 <= i < |o|
      ensures (o[i].Created() <==> Succeeded(st[i]))
              && (o[i].SiteCreationFailed? ==> o[i].status == st[i])
    {
      if i < |o1| {
        assert o[i] == o1[i] && st[i] == s1[i];
      } else {
        assert o[i] == o2[i - |o1|] && st[i] == s2[i - |o1|];
      }
    }
  }

  /** Updates still follow their creates when two stretches of calls are joined. */
  lemma UpdatesFollowAppend(a: seq<Call>, b: seq<Call>)
    requires UpdatesFollowCreates(a) && UpdatesFollowCreates(b)
    ensures UpdatesFollowCreates(a + b)
  {
    var ab := a + b;
    forall j | 0 <= j < |ab| ensures UpdateFollowsCreate(ab, j) {
      if j >= |a| {
        var j' := j - |a|;
        assert UpdateFollowsCreate(b, j');
        assert b[j'] == ab[j];
        if 0 < j' { assert b[j' - 1] == ab[j - 1]; }
      } else {
        assert UpdateFollowsCreate(a, j);
        assert a[j] == ab[j];
        if 0 < j { assert a[j - 1] == ab[j - 1]; }
      }
    }
  }

  /** Successful creates are still followed by their updates when a closed stretch of calls is followed by another. */
  lemma CreatesFollowedAppend(a: seq<Call>, b: seq<Call>, open: bool)
    requires CreatesAreFollowed(a, false) && CreatesAreFollowed(b, open)
    ensures CreatesAreFollowed(a + b, open)
  {
    var ab := a + b;
    forall j | 0 <= j < |ab| ensures CreateIsFollowed(ab, j, open) {
      if j >= |a| {
        assert CreateIsFollowed(b, j - |a|, open);
        assert b[j - |a|] == ab[j];
        if j + 1 < |ab| { assert ab[j + 1] == b[j - |a| + 1]; }
      } else {
        assert CreateIsFollowed(a, j, false);
        assert a[j] == ab[j];
        if j + 1 < |a| { assert ab[j + 1] == a[j + 1]; }
      }
    }
  }

  /** Two stretches of calls into one organization make one such stretch. */
  lemma IntoOrgAppend(a: seq<Call>, b: seq<Call>, orgId: Option<string>)
    requires IntoOrg(a, orgId) && IntoOrg(b, orgId)
    ensures IntoOrg(a + b, orgId)
  {
    var ab := a + b;
    forall j | 0 <= j < |ab|
      ensures (ab[j].request.CreateSite? && ab[j].request.orgId == orgId) || ab[j].request.SetSiteVariables?
    {
      if j < |a| { assert ab[j] == a[j]; } else { assert ab[j] == b[j - |a|]; }
    }
  }

  /** What a single call contributes to the request projections. */
  lemma OneCall(c: Call)
    ensures CreatedSites([c]) == (if c.request.CreateSite? then [c.request.site] else [])
    ensures SentBindings([c]) == (if c.request.SetSiteVariables? then [c.request.vars] else [])
    ensures CreateStatuses([c]) == (if c.request.CreateSite? then [c.response.status] else [])
  {
    assert [c][..0] == [];
  }

  /** The projections of two calls in a row, one call at a time. */
  lemma TwoCalls(c0: Call, c1: Call)
    ensures CreatedSites([c0, c1]) == CreatedSites([c0]) + CreatedSites([c1])
    ensures SentBindings([c0, c1]) == SentBindings([c0]) + SentBindings([c1])
    ensures CreateStatuses([c0, c1]) == CreateStatuses([c0]) + CreateStatuses([c1])
  {
    assert [c0] + [c1] == [c0, c1];
    CreatedSitesAppend([c0], [c1]);
    SentBindingsAppend([c0], [c1]);
    CreateStatusesAppend([c0], [c1]);
    OneCall(c1);
  }

  /** A row whose payload encodes sends one create request, carrying that payload, and has one outcome; otherwise it stops at once. */
  lemma RowRunCreates(orgId: Option<string>, plan: RowPlan, step: nat, server: Server)
    ensures var seg := RowRun(orgId, plan, step, server);
            && |seg.outcomes| <= 1 && (seg.outcomes == [] ==> seg.stopped)
            && (seg.outcomes != [] <==> Encodable(plan.site))
            && CreatedSites(seg.calls) == (if seg.outcomes == [] then [] else [plan.site])
  {
    if Encodable(plan.site) {
      var create := CreateSite(orgId, plan.site);
      var created := server(step, create);
      OneCall(Call(create, created));
      if Succeeded(created.status) && Encodable(plan.vars) {
        var put := SetSiteVariables(created.id, plan.vars);
        TwoCalls(Call(create, created), Call(put, server(step, put)));
      }
    }
  }

  /** A row counts as created exactly when its create request got 200 or 201. */
  lemma RowRunStatuses(orgId: Option<string>, plan: RowPlan, step: nat, server: Server)
    ensures var seg := RowRun(orgId, plan, step, server);
            OutcomesMatch(seg.outcomes, CreateStatuses(seg.calls))
  {
    if Encodable(plan.site) {
      var create := CreateSite(orgId, plan.site);
      var created := server(step, create);
      OneCall(Call(create, created));
      if Succeeded(created.status) && Encodable(plan.vars) {
        var put := SetSiteVariables(created.id, plan.vars);
        TwoCalls(Call(create, created), Call(put, server(step, put)));
      }
    }
  }

  /** A row sends its bindings exactly when its site was created and the update was sent. */
  lemma RowRunBindings(orgId: Option<string>, plan: RowPlan, step: nat, server: Server)
    ensures var seg := RowRun(orgId, plan, step, server);
            && |seg.outcomes| <= 1 && (seg.outcomes == [] ==> seg.stopped)
            && SentBindings(seg.calls) == (if |seg.outcomes| == 1 && seg.outcomes[0].SiteCreated? then [plan.vars] else [])
  {
    if Encodable(plan.site) {
      var create := CreateSite(orgId, plan.site);
      var created := server(step, create);
      OneCall(Call(create, created));
      if Succeeded(created.status) && Encodable(plan.vars) {
        var put := SetSiteVariables(created.id, plan.vars);
        TwoCalls(Call(create, created), Call(put, server(step, put)));
      }
    }
  }

  /** A row stops the run exactly when its payload, or the bindings it was about to send, do not encode. */
  lemma RowRunStops(orgId: Option<string>, plan: RowPlan, step: nat, server: Server)
    ensures StopsExplained([plan], RowRun(orgId, plan, step, server))
  {
  }

  /** Within a row, the settings update follows the successful create, addressed to its id. */
  lemma RowRunUpdatesFollow(orgId: Option<string>, plan: RowPlan, step: nat, server: Server)
    ensures UpdatesFollowCreates(RowRun(orgId, plan, step, server).calls)
  {
    var calls := RowRun(orgId, plan, step, server).calls;
    forall j | 0 <= j < |calls| ensures UpdateFollowsCreate(calls, j) {
    }
  }

  /** Within a row, a successful create is followed by the settings update, unless the row stopped there. */
  lemma RowRunCreatesFollowed(orgId: Option<string>, plan: RowPlan, step: nat, server: Server)
    ensures var seg := RowRun(orgId, plan, step, server);
            CreatesAreFollowed(seg.calls, seg.stopped)
  {
    var seg := RowRun(orgId, plan, step, server);
    forall j | 0 <= j < |seg.calls| ensures CreateIsFollowed(seg.calls, j, seg.stopped) {
    }
  }

  /** A row creates its site in the given organization, and never clones. */
  lemma RowRunIntoOrg(orgId: Option<string>, plan: RowPlan, step: nat, server: Server)
    ensures IntoOrg(RowRun(orgId, plan, step, server).calls, orgId)
  {
  }

  /** One more row extends the created sites by that row's payload, when its create was sent. */
  lemma CreatesStep(plans: seq<RowPlan>, prev: Segment, last: Segment)
    requires plans != []
    requires var k := |prev.outcomes|;
             && k <= |plans| - 1 && (k < |plans| - 1 ==> prev.stopped)
             && CreatedSites(prev.calls) == PlanSites(plans[..|plans| - 1][..k])
    requires && |last.outcomes| <= 1 && (last.outcomes == [] ==> last.stopped)
             && CreatedSites(last.calls) == (if last.outcomes == [] then [] else [plans[|plans| - 1].site])
    ensures var seg := prev.Then(last);
            && |seg.outcomes| <= |plans| && (|seg.outcomes| < |plans| ==> seg.stopped)
            && CreatedSites(seg.calls) == PlanSites(plans[..|seg.outcomes|])
  {
    var n := |plans| - 1;
    if prev.stopped {
      assert plans[..n][..|prev.outcomes|] == plans[..|prev.outcomes|];
    } else {
      CreatedSitesAppend(prev.calls, last.calls);
      assert plans[..n][..n] == plans[..n];
      if last.outcomes != [] {
        assert plans[..n + 1] == plans;
      }
    }
  }

  /** One more row extends the matching of outcomes and create statuses. */
  lemma StatusesStep(prev: Segment, last: Segment)
    requires OutcomesMatch(prev.outcomes, CreateStatuses(prev.calls))
    requires OutcomesMatch(last.outcomes, CreateStatuses(last.calls))
    ensures OutcomesMatch(prev.Then(last).outcomes, CreateStatuses(prev.Then(last).calls))
  {
    if !prev.stopped {
      CreateStatusesAppend(prev.calls, last.calls);
      OutcomesMatchAppend(prev.outcomes, CreateStatuses(prev.calls), last.outcomes, CreateStatuses(last.calls));
    }
  }

  /** One more row extends the sent bindings by that row's, when its update was sent. */
  lemma BindingsStep(plans: seq<RowPlan>, prev: Segment, last: Segment)
    requires plans != []
    requires var k := |prev.outcomes|;
             && k <= |plans| - 1 && (k < |plans| - 1 ==> prev.stopped)
             && SentBindings(prev.calls) == CreatedVars(plans[..|plans| - 1][..k], prev.outcomes)
    requires && |last.outcomes| <= 1 && (last.outcomes == [] ==> last.stopped)
             && SentBindings(last.calls)
                  == (if |last.outcomes| == 1 && last.outcomes[0].SiteCreated? then [plans[|plans| - 1].vars] else [])
    ensures var seg := prev.Then(last);
            && |seg.outcomes| <= |plans| && (|seg.outcomes| < |plans| ==> seg.stopped)
            && SentBindings(seg.calls) == CreatedVars(plans[..|seg.outcomes|], seg.outcomes)
  {
    var n := |plans| - 1;
    if prev.stopped {
      assert plans[..n][..|prev.outcomes|] == plans[..|prev.outcomes|];
    } else {
      SentBindingsAppend(prev.calls, last.calls);
      assert plans[..n][..n] == plans[..n];
      if last.outcomes != [] {
        var seg := prev.Then(last);
        assert plans[..n + 1] == plans;
        assert seg.outcomes[..n] == prev.outcomes && seg.outcomes[n] == last.outcomes[0];
        assert CreatedVars(plans, seg.outcomes)
            == CreatedVars(plans[..n], prev.outcomes) + (if last.outcomes[0].SiteCreated? then [plans[n].vars] else []);
      } else {
        assert prev.Then(last).outcomes == prev.outcomes;
      }
    }
  }

  /** One more row keeps the stops of the loop explained. */
  lemma StopsStep(plans: seq<RowPlan>, prev: Segment, last: Segment)
    requires plans != []
    requires StopsExplained(plans[..|plans| - 1], prev)
    requires StopsExplained([plans[|plans| - 1]], last)
    ensures StopsExplained(plans, prev.Then(last))
  {
    var n := |plans| - 1;
    var init := plans[..n];
    var k := |prev.outcomes|;
    forall i | 0 <= i < k ensures RowDecided(plans[i], prev.outcomes[i]) {
      assert init[i] == plans[i];
    }
    if k < n {
      assert init[k] == plans[k];
    }
    if !prev.stopped {
      var seg := prev.Then(last);
      assert [plans[n]][0] == plans[n];
      forall i | 0 <= i < |seg.outcomes| ensures RowDecided(plans[i], seg.outcomes[i]) {
        if i < k {
          assert seg.outcomes[i] == prev.outcomes[i];
        } else {
          assert seg.outcomes[i] == last.outcomes[0];
        }
      }
      forall i | 0 <= i < |seg.outcomes| - 1 ensures !seg.outcomes[i].VariablesRejected? {
        assert seg.outcomes[i] == prev.outcomes[i];
      }
    }
  }

  /**
   * The per-row loop sends the creates of a prefix of the rows, one per row, in row order,
   * each with the payload of its row, and records one outcome per row sent: a failed
   * request never stops the rows after it, and only a stopped loop leaves rows out.
   */
  lemma {:induction false} RowsRunCreates(orgId: Option<string>, plans: seq<RowPlan>, server: Server)
    ensures var seg := RowsRun(orgId, plans, server);
            && |seg.outcomes| <= |plans| && (|seg.outcomes| < |plans| ==> seg.stopped)
            && CreatedSites(seg.calls) == PlanSites(plans[..|seg.outcomes|])
    decreases |plans|
  {
    if plans != [] {
      RowsRunCreates(orgId, plans[..|plans| - 1], server);
      RowRunCreates(orgId, plans[|plans| - 1], |plans|, server);
      CreatesStep(plans, RowsRun(orgId, plans[..|plans| - 1], server), RowRun(orgId, plans[|plans| - 1], |plans|, server));
    }
  }

  /** In the per-row loop, a row counts as created exactly when its create request got 200 or 201. */
  lemma {:induction false} RowsRunStatuses(orgId: Option<string>, plans: seq<RowPlan>, server: Server)
    ensures var seg := RowsRun(orgId, plans, server);
            OutcomesMatch(seg.outcomes, CreateStatuses(seg.calls))
    decreases |plans|
  {
    if plans != [] {
      RowsRunStatuses(orgId, plans[..|plans| - 1], server);
      RowRunStatuses(orgId, plans[|plans| - 1], |plans|, server);
      StatusesStep(RowsRun(orgId, plans[..|plans| - 1], server), RowRun(orgId, plans[|plans| - 1], |plans|, server));
    }
  }

  /** The settings updates of the loop carry the bindings of exactly the rows created and updated, in row order. */
  lemma {:induction false} RowsRunBindings(orgId: Option<string>, plans: seq<RowPlan>, server: Server)
    ensures var seg := RowsRun(orgId, plans, server);
            && |seg.outcomes| <= |plans| && (|seg.outcomes| < |plans| ==> seg.stopped)
            && SentBindings(seg.calls) == CreatedVars(plans[..|seg.outcomes|], seg.outcomes)
    decreases |plans|
  {
    if plans != [] {
      RowsRunBindings(orgId, plans[..|plans| - 1], server);
      RowRunBindings(orgId, plans[|plans| - 1], |plans|, server);
      BindingsStep(plans, RowsRun(orgId, plans[..|plans| - 1], server), RowRun(orgId, plans[|plans| - 1], |plans|, server));
    }
  }

  /**
   * The loop stops exactly at the first row whose payload, or whose bindings once its site
   * was created, do not encode; every row before it went through.
   */
  lemma {:induction false} RowsRunStops(orgId: Option<string>, plans: seq<RowPlan>, server: Server)
    ensures StopsExplained(plans, RowsRun(orgId, plans, server))
    decreases |plans|
  {
    if plans != [] {
      RowsRunStops(orgId, plans[..|plans| - 1], server);
      RowRunStops(orgId, plans[|plans| - 1], |plans|, server);
      StopsStep(plans, RowsRun(orgId, plans[..|plans| - 1], server), RowRun(orgId, plans[|plans| - 1], |plans|, server));
    }
  }

  /**
   * Every settings update of the loop comes straight after the successful create of its
   * site, addressed to the id that create returned.
   */
  lemma {:induction false} RowsRunUpdatesFollow(orgId: Option<string>, plans: seq<RowPlan>, server: Server)
    ensures UpdatesFollowCreates(RowsRun(orgId, plans, server).calls)
    decreases |plans|
  {
    if plans != [] {
      var prev := RowsRun(orgId, plans[..|plans| - 1], server);
      RowsRunUpdatesFollow(orgId, plans[..|plans| - 1], server);
      RowRunUpdatesFollow(orgId, plans[|plans| - 1], |plans|, server);
      if !prev.stopped {
        UpdatesFollowAppend(prev.calls, RowRun(orgId, plans[|plans| - 1], |plans|, server).calls);
      }
    }
  }

  /**
   * Every successful create of the loop is followed straight away by its settings update,
   * except a last one whose bindings stopped the run.
   */
  lemma {:induction false} RowsRunCreatesFollowed(orgId: Option<string>, plans: seq<RowPlan>, server: Server)
    ensures var seg := RowsRun(orgId, plans, server);
            CreatesAreFollowed(seg.calls, seg.stopped)
    decreases |plans|
  {
    if plans != [] {
      var prev := RowsRun(orgId, plans[..|plans| - 1], server);
      var last := RowRun(orgId, plans[|plans| - 1], |plans|, server);
      RowsRunCreatesFollowed(orgId, plans[..|plans| - 1], server);
      RowRunCreatesFollowed(orgId, plans[|plans| - 1], |plans|, server);
      if !prev.stopped {
        CreatesFollowedAppend(prev.calls, last.calls, last.stopped);
      }
    }
  }

  /** The per-row loop creates every site in the given organization, and never clones. */
  lemma {:induction false} RowsRunIntoOrg(orgId: Option<string>, plans: seq<RowPlan>, server: Server)
    ensures IntoOrg(RowsRun(orgId, plans, server).calls, orgId)
    decreases |plans|
  {
    if plans != [] {
      var prev := RowsRun(orgId, plans[..|plans| - 1], server);
      RowsRunIntoOrg(orgId, plans[..|plans| - 1], server);
      RowRunIntoOrg(orgId, plans[|plans| - 1], |plans|, server);
      if !prev.stopped {
        IntoOrgAppend(prev.calls, RowRun(orgId, plans[|plans| - 1], |plans|, server).calls, orgId);
      }
    }
  }

  /** The plans of the site rows: one per row, the row's payload with the row's bindings. */
  lemma PlansAt(cols: seq<VarColumn>, rows: seq<Row>)
    requires RowsFit(cols, rows)
    ensures |Plans(cols, rows)| == |rows|
    ensures forall i :: 0 <= i < |rows| ==> Plans(cols, rows)[i] == RowPlan(SitePayload(rows[i]), Bindings(cols, rows[i]))
  {
  }

  /** Rows that fit still fit when the last ones are dropped. */
  lemma RowsFitPrefix(cols: seq<VarColumn>, rows: seq<Row>, n: nat)
    requires RowsFit(cols, rows) && n <= |rows|
    ensures RowsFit(cols, rows[..n])
  {
    forall i | 0 <= i < n ensures |rows[..n][i]| >= 10 && Fits(cols, rows[..n][i]) {
      assert rows[..n][i] == rows[i];
    }
  }

  /** The plans of a prefix of the rows are the prefix of the plans. */
  lemma PlansPrefix(cols: seq<VarColumn>, rows: seq<Row>, n: nat)
    requires RowsFit(cols, rows) && n <= |rows|
    ensures RowsFit(cols, rows[..n]) && Plans(cols, rows)[..n] == Plans(cols, rows[..n])
  {
    RowsFitPrefix(cols, rows, n);
    PlansAt(cols, rows);
    PlansAt(cols, rows[..n]);
    assert forall i :: 0 <= i < n ==> rows[..n][i] == rows[i];
  }

  /** The payloads of the plans of the rows are the payloads of the rows. */
  lemma {:induction false} PlanSitesOfRows(cols: seq<VarColumn>, rows: seq<Row>)
    requires RowsFit(cols, rows)
    ensures PlanSites(Plans(cols, rows)) == SitePayloads(rows)
    decreases |rows|
  {
    if rows != [] {
      var n := |rows| - 1;
      PlansPrefix(cols, rows, n);
      PlanSitesOfRows(cols, rows[..n]);
      PlansAt(cols, rows);
    }
  }

  /** The bindings of the created plans of the rows are the bindings of the created rows. */
  lemma {:induction false} CreatedVarsOfRows(cols: seq<VarColumn>, rows: seq<Row>, outcomes: seq<RowOutcome>)
    requires RowsFit(cols, rows) && |outcomes| == |rows|
    ensures CreatedVars(Plans(cols, rows), outcomes) == BindingsOfCreated(cols, rows, outcomes)
    decreases |rows|
  {
    if rows != [] {
      var n := |rows| - 1;
      PlansPrefix(cols, rows, n);
      CreatedVarsOfRows(cols, rows[..n], outcomes[..n]);
      PlansAt(cols, rows);
    }
  }
}
