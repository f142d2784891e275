/** What a discard of one group does to the content of another. */
module OtherGroups {
  import opened Prelude
  import opened Tables
  import opened RestorePlan
  import opened Discard
  import opened RoundTrip
  import opened DiscardTheorems

  predicate Foreign(db: Db, g: Id, a: Id) {
    a in db.apps && db.apps[a].group != g
  }

  /** The rows of all groups but `g`, domains aside, are the same in `x` and `y`. */
  ghost predicate SameOutside(g: Id, x: Db, y: Db) {
    && (forall a :: Foreign(x, g, a) <==> Foreign(y, g, a))
    && (forall a :: Foreign(x, g, a) ==> y.apps[a] == x.apps[a])
    && (forall t :: t in x.attachments && Foreign(x, g, x.attachments[t].app) ==>
          t in y.attachments && y.attachments[t] == x.attachments[t])
    && (forall t :: t in y.attachments && Foreign(y, g, y.attachments[t].app) ==>
          t in x.attachments && x.attachments[t] == y.attachments[t])
    && (forall e :: e in x.endpoints && Foreign(x, g, x.endpoints[e].app) ==>
          e in y.endpoints && y.endpoints[e] == x.endpoints[e])
    && (forall e :: e in y.endpoints && Foreign(y, g, y.endpoints[e].app) ==>
          e in x.endpoints && x.endpoints[e] == y.endpoints[e])
    && (forall key :: key in x.resources && x.resources[key].group != g ==>
          key in y.resources && y.resources[key] == x.resources[key])
  }

  lemma Transitive(g: Id, x: Db, y: Db, z: Db)
    requires SameOutside(g, x, y) && SameOutside(g, y, z)
    ensures SameOutside(g, x, z)
  {
  }

  lemma DeleteOutside(g: Id, x: Db, gone: set<Id>)
    requires gone <= AppsOf(x, g)
    ensures SameOutside(g, x, DeleteApps(x, gone))
  {
  }

  lemma UpdateOutside(g: Id, x: Db, ids: set<Id>, b: Db, y: Db)
    requires AppsSetBack(x, ids, b, y) && (forall a :: a in ids ==> x.apps[a].group == g)
    ensures SameOutside(g, x, y)
  {
    assert forall a :: a in x.apps <==> a in y.apps;
  }

  lemma AttachmentsClearedOutside(g: Id, x: Db)
    ensures SameOutside(g, x, ClearAttachments(x, g))
  {
  }

  lemma EndpointsClearedOutside(g: Id, x: Db)
    ensures SameOutside(g, x, ClearEndpoints(x, g))
  {
  }

  lemma CreateOutside(g: Id, x: Db, k: Kind, rows: seq<AttRow>, y: Db)
    requires CreateAttachments(x, k, rows) == Ok(y)
    requires forall r :: r in rows ==> r.row.app in AppsOf(x, g)
    ensures SameOutside(g, x, y)
  {
    CreateAttachmentsFacts(x, k, rows);
  }

  lemma CreateEndpointsOutside(g: Id, x: Db, rows: seq<EndpointRow>, y: Db)
    requires CreateEndpoints(x, rows) == Ok(y)
    requires forall r :: r in rows ==> r.row.app in AppsOf(x, g)
    ensures SameOutside(g, x, y)
  {
    CreateEndpointsFacts(x, rows);
  }

  /** The restored ids were issued for the group, so no row of another group is rewritten. */
  lemma ResourcesOutside(g: Id, x: Db, k: Kind, rows: seq<ResourceRow>, attachments: seq<AttRow>, b: Db, y: Db)
    requires ResourceRowsMatch(b, k, rows)
    requires RestoredResources(x, g, k, rows, attachments) == Ok(y)
    requires forall r :: r in rows && (k, r.id) in x.resources ==> x.resources[(k, r.id)].group == g
    requires forall r :: r in attachments ==> r.row.app in AppsOf(x, g)
    ensures SameOutside(g, x, y)
  {
    var cleaned, upserted := ResourcesSteps(x, g, k, rows, attachments, y);
    NamesakesFacts(x, g, k, rows, cleaned);
    UpsertAllFacts(cleaned, g, k, rows, b);
    forall key | key in x.resources && x.resources[key].group != g
      ensures key.0 != k || key.1 !in RowIds(rows)
    {
      assert key == (key.0, key.1);
    }
    CreateOutside(g, upserted, k, attachments, y);
    assert SameOutside(g, x, upserted);
    Transitive(g, x, upserted, y);
  }

  // ---- Composition ------------------------------------------------------------------

  /** The rows planned for restoring belonged to the group. */
  lemma PlannedIdsOwned(b: Db, g: Id, k: Kind, list: AppEntry -> seq<AttEntry>)
    requires Tidy(b) && g in b.groups && (k.Variable? || k.Config?)
    requires forall a :: a in b.apps ==> list(AppEntryOf(b, a)) == AttEntries(b, a, k)
    ensures forall r :: r in Collect(FlatMap(BuildStack(b, g).apps, list)) ==> ResourceOf(b, g, k, r.id)
  {
    var entries := FlatMap(BuildStack(b, g).apps, list);
    PlannedEntries(b, g, k, list);
    CollectedFromEntries(entries);
    forall r | r in Collect(entries) ensures ResourceOf(b, g, k, r.id) {
      var x :| x in entries && r == RowOf(x);
      assert EntryIn(b, g, k, x);
      var t := (k, x.id);
      assert b.attachments[t].source == r.id;
    }
  }

  predicate ResourceOf(db: Db, g: Id, k: Kind, id: Id) {
    (k, id) in db.resources && db.resources[(k, id)].group == g
  }

  /** The plan has the rows of the state that the configuration was built from. */
  lemma PlanFits(b: Db, g: Id)
    requires g in b.groups && SourcesFit(b) && Tidy(b)
    ensures var plan := PlanOf(BuildStack(b, g).apps);
      && ResourceRowsMatch(b, Variable, plan.variables) && SourcesCovered(b, g, Variable, plan.variables)
      && ResourceRowsMatch(b, Config, plan.configs) && SourcesCovered(b, g, Config, plan.configs)
      && (forall r :: r in plan.variables ==> ResourceOf(b, g, Variable, r.id))
      && (forall r :: r in plan.configs ==> ResourceOf(b, g, Config, r.id))
      && AttachmentRowsMatch(b, g, Variable, plan.variableAttachments)
      && AttachmentRowsMatch(b, g, Config, plan.configAttachments)
      && AttachmentRowsMatch(b, g, Volume, plan.volumeAttachments)
      && EndpointRowsMatch(b, g, plan.endpoints)
    ensures AttachmentRowsMatch(b, g, Secret, FlatMap(BuildStack(b, g).apps, SecretRows))
  {
    hide Constraints, SourcesFit, Tidy, FlatMap, BuildStack, ResourceRowsMatch, SourcesCovered, ResourceOf,
      EndpointRowsMatch;
    PlannedAttachments(b, g, Variable, VariableRows);
    PlannedAttachments(b, g, Config, ConfigRows);
    PlannedAttachments(b, g, Volume, VolumeRows);
    PlannedAttachments(b, g, Secret, SecretRows);
    PlannedResources(b, g, Variable, VariablesOf);
    PlannedResources(b, g, Config, ConfigsOf);
    PlannedIdsOwned(b, g, Variable, VariablesOf);
    PlannedIdsOwned(b, g, Config, ConfigsOf);
    PlannedEndpoints(b, g);
  }

  /** The rows of other groups, their domains aside, survive a discard. */
  lemma RowsOutside(b: Db, now: Db, g: Id, r: Db)
    returns (volumes: Db, endpoints: Db)
    requires g in b.groups && SourcesFit(b) && DomainsFit(now) && KeepGroup(b, now) && Tidy(b)
    requires RestoredDraft(now, g, BuildStack(b, g)) == Ok(r)
    ensures SameOutside(g, now, r)
    ensures RestoredEndpoints(volumes, g, PlanOf(BuildStack(b, g).apps)) == Ok(endpoints)
    ensures r == endpoints.(attachments := r.attachments) && AppsOf(volumes, g) == LiveApps(b, g)
    ensures SameOutside(g, now, volumes) && SameOutside(g, now, endpoints)
    ensures volumes.domains == DeleteApps(now, AppsOf(now, g) - LiveApps(b, g)).domains
  {
    hide Constraints, RestoredDraft, RestoredApps, RestoredResources, RestoredVolumes, RestoredEndpoints, CreateAttachments,
      SameOutside, KeepGroup, SourcesFit, DomainsFit, Tidy, FlatMap, BuildStack, PlanOf, LiveApps, ClearAttachments,
      ResourceRowsMatch, SourcesCovered, AttachmentRowsMatch, EndpointRowsMatch, ResourceOf;
    var plan := PlanOf(BuildStack(b, g).apps);
    var secrets := FlatMap(BuildStack(b, g).apps, SecretRows);
    var apps, variables, configs;
    apps, variables, configs, volumes, endpoints := DraftSteps(now, g, BuildStack(b, g), r);
    AppsOutside(b, now, g, apps);
    PlanFits(b, g);
    KeptIds(b, now, g, Variable, plan.variables);
    KeptIds(b, now, g, Config, plan.configs);
    ResourceStagesOutside(b, now, g, plan, apps, variables, configs);
    LastStagesOutside(b, now, g, plan, secrets, configs, volumes, endpoints, r);
  }

  lemma EndpointsKeepResources(x: Db, g: Id, plan: Plan, y: Db)
    requires RestoredEndpoints(x, g, plan) == Ok(y)
    ensures y.resources == x.resources
  {
    var cleared := ClearEndpoints(x, g);
    CreateEndpointsFacts(cleared, plan.endpoints);
    AssignOnlyDomains(CreateEndpoints(cleared, plan.endpoints).value, plan.domainAssignments);
  }

  lemma ResourceStagesKeepSecrets(b: Db, g: Id, plan: Plan, cleared: Db, variables: Db, configs: Db)
    requires ResourceRowsMatch(b, Variable, plan.variables) && SourcesCovered(b, g, Variable, plan.variables)
    requires ResourceRowsMatch(b, Config, plan.configs) && SourcesCovered(b, g, Config, plan.configs)
    requires RestoredResources(cleared, g, Variable, plan.variables, plan.variableAttachments) == Ok(variables)
    requires RestoredResources(variables, g, Config, plan.configs, plan.configAttachments) == Ok(configs)
    ensures SameSecrets(cleared, configs)
  {
    hide RestoredResources, ResourceRowsMatch, SourcesCovered, SourcesBack;
    var v := ResourcesStage(b, g, cleared, Variable, plan.variables, plan.variableAttachments, variables);
    var c := ResourcesStage(b, g, variables, Config, plan.configs, plan.configAttachments, configs);
  }

  /** The rows of secrets are the same in `x` and `y`. */
  ghost predicate SameSecrets(x: Db, y: Db) {
    && (forall s :: (Secret, s) in y.resources <==> (Secret, s) in x.resources)
    && (forall s :: (Secret, s) in x.resources ==> y.resources[(Secret, s)] == x.resources[(Secret, s)])
  }

  /** A discard does not touch the rows of secrets. */
  lemma SecretRowsStay(b: Db, now: Db, g: Id, r: Db)
    requires g in b.groups && SourcesFit(b) && DomainsFit(now) && KeepGroup(b, now) && Tidy(b)
    requires RestoredDraft(now, g, BuildStack(b, g)) == Ok(r)
    ensures SameSecrets(now, r)
  {
    hide Constraints, RestoredDraft, RestoredApps, RestoredResources, RestoredEndpoints, CreateAttachments,
      SameOutside, KeepGroup, SourcesFit, DomainsFit, Tidy, FlatMap, BuildStack, PlanOf, LiveApps,
      ResourceRowsMatch, SourcesCovered, AttachmentRowsMatch, EndpointRowsMatch, ResourceOf;
    var plan := PlanOf(BuildStack(b, g).apps);
    var apps, variables, configs, volumes, endpoints := DraftSteps(now, g, BuildStack(b, g), r);
    AppsOutside(b, now, g, apps);
    PlanFits(b, g);
    ResourceStagesKeepSecrets(b, g, plan, ClearAttachments(apps, g), variables, configs);
    CreateAttachmentsFacts(configs, Volume, plan.volumeAttachments);
    EndpointsKeepResources(volumes, g, plan, endpoints);
    CreateAttachmentsFacts(endpoints, Secret, FlatMap(BuildStack(b, g).apps, SecretRows));
    assert r.resources == configs.resources && ClearAttachments(apps, g).resources == now.resources;
  }

  lemma KeptIds(b: Db, now: Db, g: Id, k: Kind, rows: seq<ResourceRow>)
    requires KeepGroup(b, now) && forall r :: r in rows ==> ResourceOf(b, g, k, r.id)
    ensures forall r :: r in rows && (k, r.id) in now.resources ==> now.resources[(k, r.id)].group == g
  {
  }

  lemma AppsOutside(b: Db, now: Db, g: Id, apps: Db)
    requires g in b.groups && KeepGroup(b, now) && DomainsFit(now)
    requires RestoredApps(now, g, BuildStack(b, g).apps) == Ok(apps)
    ensures SameOutside(g, now, apps) && AppsOf(apps, g) == LiveApps(b, g)
    ensures apps == DeleteApps(now, AppsOf(now, g) - LiveApps(b, g)).(apps := apps.apps)
  {
    var kept := DeleteApps(now, AppsOf(now, g) - LiveApps(b, g));
    AppsSteps(b, now, g, apps);
    AppsStage(b, now, g, apps);
    DeleteOutside(g, now, AppsOf(now, g) - LiveApps(b, g));
    UpdateOutside(g, kept, LiveApps(b, g), b, apps);
    Transitive(g, now, kept, apps);
  }

  lemma ResourceStagesOutside(b: Db, now: Db, g: Id, plan: Plan, apps: Db, variables: Db, configs: Db)
    requires SameOutside(g, now, apps) && apps.resources == now.resources
    requires AppsOf(apps, g) == LiveApps(b, g)
    requires ResourceRowsMatch(b, Variable, plan.variables) && ResourceRowsMatch(b, Config, plan.configs)
    requires forall r :: r in plan.variables && (Variable, r.id) in now.resources ==> now.resources[(Variable, r.id)].group == g
    requires forall r :: r in plan.configs && (Config, r.id) in now.resources ==> now.resources[(Config, r.id)].group == g
    requires AttachmentRowsMatch(b, g, Variable, plan.variableAttachments) && SourcesCovered(b, g, Variable, plan.variables)
    requires AttachmentRowsMatch(b, g, Config, plan.configAttachments) && SourcesCovered(b, g, Config, plan.configs)
    requires RestoredResources(ClearAttachments(apps, g), g, Variable, plan.variables, plan.variableAttachments) == Ok(variables)
    requires RestoredResources(variables, g, Config, plan.configs, plan.configAttachments) == Ok(configs)
    ensures SameOutside(g, now, configs)
    ensures configs == apps.(resources := configs.resources, attachments := configs.attachments)
  {
    AttachmentsClearedOutside(g, apps);
    var cleared := ClearAttachments(apps, g);
    Transitive(g, now, apps, cleared);
    ResourcesOutside(g, cleared, Variable, plan.variables, plan.variableAttachments, b, variables);
    Transitive(g, now, cleared, variables);
    var v := ResourcesStage(b, g, cleared, Variable, plan.variables, plan.variableAttachments, variables);
    ResourcesOutside(g, variables, Config, plan.configs, plan.configAttachments, b, configs);
    Transitive(g, now, variables, configs);
    var c := ResourcesStage(b, g, variables, Config, plan.configs, plan.configAttachments, configs);
  }

  lemma LastStagesOutside(b: Db, now: Db, g: Id, plan: Plan, secrets: seq<AttRow>, configs: Db,
                          volumes: Db, endpoints: Db, r: Db)
    requires SameOutside(g, now, configs) && AppsOf(configs, g) == LiveApps(b, g)
    requires AttachmentRowsMatch(b, g, Volume, plan.volumeAttachments) && AttachmentRowsMatch(b, g, Secret, secrets)
    requires EndpointRowsMatch(b, g, plan.endpoints)
    requires RestoredVolumes(configs, plan.volumeAttachments) == Ok(volumes)
    requires RestoredEndpoints(volumes, g, plan) == Ok(endpoints)
    requires CreateAttachments(endpoints, Secret, secrets) == Ok(r)
    ensures SameOutside(g, now, r) && SameOutside(g, now, volumes) && SameOutside(g, now, endpoints)
    ensures volumes == configs.(attachments := volumes.attachments) && r == endpoints.(attachments := r.attachments)
  {
    CreateAttachmentsFacts(configs, Volume, plan.volumeAttachments);
    CreateOutside(g, configs, Volume, plan.volumeAttachments, volumes);
    Transitive(g, now, configs, volumes);
    EndpointsOutside(b, g, volumes, plan, endpoints);
    Transitive(g, now, volumes, endpoints);
    CreateAttachmentsFacts(endpoints, Secret, secrets);
    CreateOutside(g, endpoints, Secret, secrets, r);
    Transitive(g, now, endpoints, r);
  }

  lemma {:induction false} AssignOnlyDomains(db: Db, rows: seq<Assignment>)
    requires AssignAll(db, rows).Ok?
    ensures AssignAll(db, rows).value == db.(domains := AssignAll(db, rows).value.domains)
  {
    if rows != [] {
      AssignOnlyDomains(db, rows[..|rows| - 1]);
    }
  }

  lemma EndpointsOutside(b: Db, g: Id, x: Db, plan: Plan, y: Db)
    requires RestoredEndpoints(x, g, plan) == Ok(y) && AppsOf(x, g) == LiveApps(b, g)
    requires EndpointRowsMatch(b, g, plan.endpoints)
    ensures SameOutside(g, x, y) && y.apps == x.apps
  {
    EndpointsClearedOutside(g, x);
    var cleared := ClearEndpoints(x, g);
    var created := CreateEndpoints(cleared, plan.endpoints).value;
    CreateEndpointsFacts(cleared, plan.endpoints);
    CreateEndpointsOutside(g, cleared, plan.endpoints, created);
    Transitive(g, x, cleared, created);
    AssignOnlyDomains(created, plan.domainAssignments);
    assert SameOutside(g, created, y);
    Transitive(g, x, created, y);
  }

  // ---- Domains ------------------------------------------------------------------------

  /** Domain `d` is held by a live endpoint of group `h`. */
  predicate HeldBy(db: Db, h: Id, d: Id) {
    d in db.domains && db.domains[d].endpoint.Some? && HeldIn(db, h, Assignment(d, db.domains[d].endpoint.value))
  }

  /** Some domain of the deployed configuration is held by a live endpoint of group `h` now. */
  predicate Steals(b: Db, now: Db, g: Id, h: Id) {
    exists d | d in now.domains :: HeldBy(b, g, d) && HeldBy(now, h, d)
  }

  lemma AssignedAreHeld(b: Db, g: Id, rows: seq<Assignment>)
    requires forall r :: r in rows <==> HeldIn(b, g, r)
    ensures forall d :: d in AssignedIds(rows) <==> HeldBy(b, g, d)
  {
    forall d | HeldBy(b, g, d) ensures d in AssignedIds(rows) {
      assert Assignment(d, b.domains[d].endpoint.value) in rows;
    }
  }

  lemma SameLive(g: Id, h: Id, x: Db, y: Db, a: Id)
    requires h != g && SameOutside(g, x, y)
    ensures Live(x, h, a) <==> Live(y, h, a)
    ensures Live(x, h, a) ==> Foreign(x, g, a) && y.apps[a] == x.apps[a]
  {
    assert Live(x, h, a) ==> Foreign(x, g, a);
    assert Live(y, h, a) ==> Foreign(y, g, a);
  }

  lemma ForeignEndpoint(g: Id, h: Id, x: Db, y: Db, e: Id)
    requires SameOutside(g, x, y) && h != g
    ensures e in x.endpoints && Live(x, h, x.endpoints[e].app) <==> e in y.endpoints && Live(y, h, y.endpoints[e].app)
  {
    if e in x.endpoints { SameLive(g, h, x, y, x.endpoints[e].app); }
    if e in y.endpoints { SameLive(g, h, x, y, y.endpoints[e].app); }
  }

  /** The domains that group `h` holds afterwards: those it held, but for the assigned ones. */
  lemma DomainsOutside(b: Db, now: Db, g: Id, h: Id, volumes: Db, endpoints: Db, d: Id)
    requires h != g && g in b.groups && DomainsFit(now)
    requires SameOutside(g, now, volumes) && SameOutside(g, now, endpoints)
    requires volumes.domains == DeleteApps(now, AppsOf(now, g) - LiveApps(b, g)).domains
    requires AppsOf(volumes, g) == LiveApps(b, g)
    requires RestoredEndpoints(volumes, g, PlanOf(BuildStack(b, g).apps)) == Ok(endpoints)
    ensures HeldBy(endpoints, h, d) <==> HeldBy(now, h, d) && !HeldBy(b, g, d)
    ensures HeldBy(endpoints, h, d) ==> endpoints.domains[d].endpoint == now.domains[d].endpoint
  {
    var rows := PlanOf(BuildStack(b, g).apps).domainAssignments;
    PlannedDomains(b, g);
    AssignedAreHeld(b, g, rows);
    PlannedEndpoints(b, g);
    var cleared := ClearEndpoints(volumes, g);
    var created := CreateEndpoints(cleared, PlanOf(BuildStack(b, g).apps).endpoints).value;
    CreateEndpointsFacts(cleared, PlanOf(BuildStack(b, g).apps).endpoints);
    AssignAllFacts(created, g, rows, b);
    AssignOnlyDomains(created, rows);
    CreatedAreThere(b, g, cleared, PlanOf(BuildStack(b, g).apps).endpoints, created);
    ForeignDomain(b, now, g, h, volumes, created, endpoints, rows, d);
  }

  lemma CreatedAreThere(b: Db, g: Id, cleared: Db, rows: seq<EndpointRow>, created: Db)
    requires EndpointRowsMatch(b, g, rows) && CreateEndpoints(cleared, rows) == Ok(created)
    ensures forall e :: e in b.endpoints && b.endpoints[e].app in LiveApps(b, g) ==>
              e in created.endpoints && created.endpoints[e] == b.endpoints[e]
  {
    CreateEndpointsFacts(cleared, rows);
    forall e | e in b.endpoints && b.endpoints[e].app in LiveApps(b, g)
      ensures e in created.endpoints && created.endpoints[e] == b.endpoints[e]
    {
      assert EndpointRow(e, b.endpoints[e]) in rows;
    }
  }

  lemma ForeignDomain(b: Db, now: Db, g: Id, h: Id, volumes: Db, created: Db, endpoints: Db,
                      rows: seq<Assignment>, d: Id)
    requires h != g && DomainsFit(now)
    requires SameOutside(g, now, volumes) && SameOutside(g, now, endpoints)
    requires volumes.domains == DeleteApps(now, AppsOf(now, g) - LiveApps(b, g)).domains
    requires created.domains == ClearEndpoints(volumes, g).domains && created.endpoints == endpoints.endpoints
    requires DomainsSetBack(created, AssignedIds(rows), b, endpoints)
    requires forall d :: d in AssignedIds(rows) <==> HeldBy(b, g, d)
    requires forall e :: e in b.endpoints && b.endpoints[e].app in LiveApps(b, g) ==>
      e in endpoints.endpoints && endpoints.endpoints[e] == b.endpoints[e]
    requires AppsOf(endpoints, g) == LiveApps(b, g)
    ensures HeldBy(endpoints, h, d) <==> HeldBy(now, h, d) && !HeldBy(b, g, d)
    ensures HeldBy(endpoints, h, d) ==> endpoints.domains[d].endpoint == now.domains[d].endpoint
  {
    if d in now.domains && now.domains[d].endpoint.Some? {
      ForeignEndpoint(g, h, now, volumes, now.domains[d].endpoint.value);
      ForeignEndpoint(g, h, now, endpoints, now.domains[d].endpoint.value);
    }
    if d in endpoints.domains && endpoints.domains[d].endpoint.Some? {
      ForeignEndpoint(g, h, now, endpoints, endpoints.domains[d].endpoint.value);
    }
  }

  lemma SameAppContent(g: Id, h: Id, x: Db, y: Db)
    requires h != g && SameOutside(g, x, y)
    ensures ContentOf(y, h).apps == ContentOf(x, h).apps
  {
    forall a ensures Live(x, h, a) <==> Live(y, h, a)
      ensures Live(x, h, a) ==> y.apps[a] == x.apps[a]
    {
      SameLive(g, h, x, y, a);
    }
  }

  lemma SamePayload(g: Id, h: Id, x: Db, y: Db, t: (Kind, Id))
    requires h != g && SameOutside(g, x, y) && Tidy(x) && SourcesFit(x) && SourcesFit(y)
    requires t in x.attachments && Live(x, h, x.attachments[t].app)
    ensures t in y.attachments && y.attachments[t] == x.attachments[t] && Live(y, h, x.attachments[t].app)
    ensures PayloadIn(y.resources, t.0, x.attachments[t].source) == PayloadIn(x.resources, t.0, x.attachments[t].source)
  {
    SameLive(g, h, x, y, x.attachments[t].app);
    var key := (t.0, x.attachments[t].source);
    if !t.0.Volume? {
      assert key in x.resources && x.resources[key].group != g;
    }
  }

  lemma AttachmentShown(h: Id, x: Db, t: (Kind, Id))
    ensures t in ContentOf(x, h).attachments <==> t in x.attachments && Live(x, h, x.attachments[t].app)
    ensures t in x.attachments && Live(x, h, x.attachments[t].app) ==>
      var shown := PayloadIn(x.resources, t.0, x.attachments[t].source);
      ContentOf(x, h).attachments[t] == (x.attachments[t], shown.1, shown.2)
  {
  }

  lemma SameAttachment(g: Id, h: Id, x: Db, y: Db, t: (Kind, Id))
    requires h != g && SameOutside(g, x, y) && Tidy(x) && SourcesFit(x) && SourcesFit(y)
    ensures var (p, q) := (ContentOf(x, h).attachments, ContentOf(y, h).attachments);
      (t in p ==> t in q && q[t] == p[t]) && (t in q ==> t in p)
  {
    AttachmentShown(h, x, t);
    AttachmentShown(h, y, t);
    hide Tidy, SourcesFit, ContentOf;
    if t in x.attachments && Live(x, h, x.attachments[t].app) { SamePayload(g, h, x, y, t); }
    if t in y.attachments { SameLive(g, h, x, y, y.attachments[t].app); }
  }

  lemma EndpointShown(h: Id, x: Db, e: Id)
    ensures e in ContentOf(x, h).endpoints <==> e in x.endpoints && Live(x, h, x.endpoints[e].app)
    ensures e in ContentOf(x, h).endpoints ==> ContentOf(x, h).endpoints[e] == x.endpoints[e]
  {
  }

  lemma SameEndpointContent(g: Id, h: Id, x: Db, y: Db)
    requires h != g && SameOutside(g, x, y)
    ensures ContentOf(y, h).endpoints == ContentOf(x, h).endpoints
  {
    hide ContentOf;
    var p, q := ContentOf(x, h).endpoints, ContentOf(y, h).endpoints;
    forall e ensures e in p <==> e in q ensures e in p ==> q[e] == p[e] {
      EndpointShown(h, x, e);
      EndpointShown(h, y, e);
      ForeignEndpoint(g, h, x, y, e);
      if e in x.endpoints { SameLive(g, h, x, y, x.endpoints[e].app); }
    }
  }

  lemma ContentFromParts(g: Id, h: Id, x: Db, y: Db)
    requires h != g && SameOutside(g, x, y) && Tidy(x) && SourcesFit(x) && SourcesFit(y)
    ensures ContentOf(y, h) == ContentOf(x, h).(domains := ContentOf(y, h).domains)
  {
    hide *;
    SameAppContent(g, h, x, y);
    SameEndpointContent(g, h, x, y);
    forall t: (Kind, Id)
      ensures t in ContentOf(x, h).attachments ==>
        t in ContentOf(y, h).attachments && ContentOf(y, h).attachments[t] == ContentOf(x, h).attachments[t]
      ensures t in ContentOf(y, h).attachments ==> t in ContentOf(x, h).attachments
    {
      SameAttachment(g, h, x, y, t);
    }
    assert ContentOf(y, h).attachments == ContentOf(x, h).attachments;
  }

  lemma HeldDomains(h: Id, x: Db, d: Id)
    ensures d in ContentOf(x, h).domains <==> HeldBy(x, h, d)
    ensures HeldBy(x, h, d) ==> ContentOf(x, h).domains[d] == x.domains[d].endpoint.value
  {
  }

  /** The rows a deployment of another group reads, after the endpoint stage and at the end. */
  lemma DraftOutside(b: Db, now: Db, g: Id, after: Db)
    returns (volumes: Db, endpoints: Db)
    requires g in b.groups && g in now.groups && SourcesFit(b) && DomainsFit(now) && KeepGroup(b, now) && Tidy(b)
    requires DiscardTx(now, g, BuildStack(b, g)) == Ok(after)
    ensures SameOutside(g, now, after) && SourcesFit(after)
    ensures RestoredEndpoints(volumes, g, PlanOf(BuildStack(b, g).apps)) == Ok(endpoints)
    ensures AppsOf(volumes, g) == LiveApps(b, g)
    ensures SameOutside(g, now, volumes) && SameOutside(g, now, endpoints)
    ensures volumes.domains == DeleteApps(now, AppsOf(now, g) - LiveApps(b, g)).domains
    ensures after == endpoints.(attachments := after.attachments, groups := after.groups)
  {
    hide Constraints;
    var r := TxSteps(now, g, BuildStack(b, g), after);
    volumes, endpoints := RowsOutside(b, now, g, r);
    SameButGroups(g, now, r, after);
  }

  lemma SameButGroups(g: Id, now: Db, r: Db, after: Db)
    requires SameOutside(g, now, r) && after == r.(groups := after.groups)
    ensures SameOutside(g, now, after)
  {
  }

  lemma DomainsAfter(b: Db, now: Db, g: Id, h: Id, volumes: Db, endpoints: Db, after: Db)
    requires h != g && g in b.groups && DomainsFit(now)
    requires SameOutside(g, now, volumes) && SameOutside(g, now, endpoints)
    requires volumes.domains == DeleteApps(now, AppsOf(now, g) - LiveApps(b, g)).domains
    requires AppsOf(volumes, g) == LiveApps(b, g)
    requires RestoredEndpoints(volumes, g, PlanOf(BuildStack(b, g).apps)) == Ok(endpoints)
    requires after == endpoints.(attachments := after.attachments, groups := after.groups)
    ensures ContentOf(after, h).domains == ContentOf(now, h).domains <==> !Steals(b, now, g, h)
  {
    forall d ensures HeldBy(endpoints, h, d) <==> HeldBy(now, h, d) && !HeldBy(b, g, d)
      ensures HeldBy(endpoints, h, d) ==> endpoints.domains[d].endpoint == now.domains[d].endpoint
    {
      DomainsOutside(b, now, g, h, volumes, endpoints, d);
    }
    DomainContent(b, now, g, h, endpoints);
  }

  lemma DomainContent(b: Db, now: Db, g: Id, h: Id, after: Db)
    requires forall d :: HeldBy(after, h, d) <==> HeldBy(now, h, d) && !HeldBy(b, g, d)
    requires forall d :: HeldBy(after, h, d) ==>
      d in now.domains && after.domains[d].endpoint == now.domains[d].endpoint
    ensures ContentOf(after, h).domains == ContentOf(now, h).domains <==> !Steals(b, now, g, h)
  {
    forall d ensures d in ContentOf(after, h).domains <==> HeldBy(after, h, d)
      ensures d in ContentOf(now, h).domains <==> HeldBy(now, h, d)
      ensures d in ContentOf(after, h).domains ==>
        d in ContentOf(now, h).domains && ContentOf(after, h).domains[d] == ContentOf(now, h).domains[d]
    {
      HeldDomains(h, after, d);
      HeldDomains(h, now, d);
    }
    if Steals(b, now, g, h) {
      var d :| d in now.domains && HeldBy(b, g, d) && HeldBy(now, h, d);
      assert d in ContentOf(now, h).domains && d !in ContentOf(after, h).domains;
    }
  }

  /** Discarding the draft of `g` leaves what a deployment of another group `h` would run as it
      was exactly when `h` holds none of the domains that the configuration of `g` had. Its
      revision stays the same in both cases. */
  lemma DiscardKeepsOtherContent(b: Db, now: Db, g: Id, h: Id)
    requires Descends(b, now, g) && Tidy(b) && Tidy(now) && h in now.groups && h != g
    requires DiscardTx(now, g, BuildStack(b, g)).Ok?
    ensures var after := DiscardTx(now, g, BuildStack(b, g)).value;
      && h in after.groups && after.groups[h] == now.groups[h]
      && ContentOf(after, h) == ContentOf(now, h).(domains := ContentOf(after, h).domains)
      && (ContentOf(after, h) == ContentOf(now, h) <==> !Steals(b, now, g, h))
  {
    hide Constraints;
    var after := DiscardTx(now, g, BuildStack(b, g)).value;
    DiscardIsARoundTrip(b, now, g);
    DescentFacts(b, now, g);
    var volumes, endpoints := DraftOutside(b, now, g, after);
    ContentAfter(b, now, g, h, volumes, endpoints, after);
  }

  lemma ContentAfter(b: Db, now: Db, g: Id, h: Id, volumes: Db, endpoints: Db, after: Db)
    requires h != g && g in b.groups && Tidy(now) && DomainsFit(now) && SourcesFit(now) && SourcesFit(after)
    requires SameOutside(g, now, after) && SameOutside(g, now, volumes) && SameOutside(g, now, endpoints)
    requires volumes.domains == DeleteApps(now, AppsOf(now, g) - LiveApps(b, g)).domains
    requires AppsOf(volumes, g) == LiveApps(b, g)
    requires RestoredEndpoints(volumes, g, PlanOf(BuildStack(b, g).apps)) == Ok(endpoints)
    requires after == endpoints.(attachments := after.attachments, groups := after.groups)
    ensures ContentOf(after, h) == ContentOf(now, h).(domains := ContentOf(after, h).domains)
    ensures ContentOf(after, h) == ContentOf(now, h) <==> !Steals(b, now, g, h)
  {
    hide Constraints;
    ContentFromParts(g, h, now, after);
    DomainsAfter(b, now, g, h, volumes, endpoints, after);
  }
}
