/** The main results about discarding: the round trip, and what it does to other groups. */
module DiscardTheorems {
  import opened Prelude
  import opened Tables
  import opened RestorePlan
  import opened Discard
  import opened RoundTrip

  // ---- Apps ---------------------------------------------------------------------

  ghost predicate AppsBack(b: Db, g: Id, db: Db) {
    && AppsOf(db, g) == LiveApps(b, g)
    && (forall a :: a in LiveApps(b, g) ==> db.apps[a] == RestoredApp(b, g, a))
  }

  /** The configuration was built from `b`, and `now` is a later state of the same tables. */
  ghost predicate Descends(b: Db, now: Db, g: Id) {
    && Constraints(b) && Owned(b) && g in b.groups
    && Constraints(now) && Owned(now) && g in now.groups
    && Later(b, now)
  }

  lemma DescentFacts(b: Db, now: Db, g: Id)
    requires Descends(b, now, g)
    ensures SourcesFit(b) && SourcesFit(now) && DomainsFit(now) && KeepGroup(b, now)
    ensures g in b.groups && g in now.groups
  {
    ConstraintsFit(b);
    ConstraintsFit(now);
    IssuedOnce(b, now);
  }

  lemma AppIdsOfStack(b: Db, g: Id)
    requires g in b.groups
    ensures AppIds(BuildStack(b, g).apps) == LiveApps(b, g)
    ensures EntriesFrom(b, BuildStack(b, g).apps)
  {
    StackApps(b, g);
    forall a | a in LiveApps(b, g) ensures a in AppIds(BuildStack(b, g).apps) {
      assert AppEntryOf(b, a) in BuildStack(b, g).apps && AppEntryOf(b, a).id == a;
    }
  }

  /** No app of the group is left that the configuration does not list. */
  ghost predicate OnlyListed(now: Db, listed: set<Id>, g: Id, kept: Db) {
    && (forall a :: a in kept.apps <==> a in now.apps && (now.apps[a].group == g ==> a in listed))
    && (forall a :: a in kept.apps ==> kept.apps[a] == now.apps[a])
  }

  lemma KeepListed(now: Db, listed: set<Id>, g: Id)
    ensures OnlyListed(now, listed, g, DeleteApps(now, AppsOf(now, g) - listed))
  {
  }

  lemma DomainsStillFit(now: Db, gone: set<Id>)
    requires DomainsFit(now)
    ensures DomainsFit(DeleteApps(now, gone))
  {
  }

  lemma AppsSteps(b: Db, now: Db, g: Id, r: Db)
    requires g in b.groups && RestoredApps(now, g, BuildStack(b, g).apps) == Ok(r)
    ensures AppsSetBack(DeleteApps(now, AppsOf(now, g) - LiveApps(b, g)), LiveApps(b, g), b, r)
  {
    var apps := BuildStack(b, g).apps;
    AppIdsOfStack(b, g);
    assert (set a | a in apps :: a.id) == LiveApps(b, g);
    UpdateAppsFacts(DeleteApps(now, AppsOf(now, g) - LiveApps(b, g)), apps, b);
  }

  lemma AppsStage(b: Db, now: Db, g: Id, r: Db)
    requires forall a :: a in LiveApps(b, g) && a in now.apps ==> now.apps[a].group == g
    requires DomainsFit(now)
    requires AppsSetBack(DeleteApps(now, AppsOf(now, g) - LiveApps(b, g)), LiveApps(b, g), b, r)
    ensures AppsBack(b, g, r) && DomainsFit(r)
    ensures r == DeleteApps(now, AppsOf(now, g) - LiveApps(b, g)).(apps := r.apps)
  {
    var kept := DeleteApps(now, AppsOf(now, g) - LiveApps(b, g));
    KeepListed(now, LiveApps(b, g), g);
    DomainsStillFit(now, AppsOf(now, g) - LiveApps(b, g));
    AppsStageRows(b, now, g, kept, r);
  }

  lemma AppsStageRows(b: Db, now: Db, g: Id, kept: Db, r: Db)
    requires forall a :: a in LiveApps(b, g) && a in now.apps ==> now.apps[a].group == g
    requires OnlyListed(now, LiveApps(b, g), g, kept) && AppsSetBack(kept, LiveApps(b, g), b, r)
    ensures AppsBack(b, g, r)
  {
  }

  // ---- Attachments ----------------------------------------------------------------

  /** Of the attachments of the live apps, exactly those of the given kinds are back. */
  ghost predicate Filled(b: Db, g: Id, table: map<(Kind, Id), Attachment>, kinds: set<Kind>) {
    && (forall t :: t in table && table[t].app in LiveApps(b, g) ==>
          t.0 in kinds && t in b.attachments && b.attachments[t] == table[t])
    && (forall t :: t in b.attachments && b.attachments[t].app in LiveApps(b, g) && t.0 in kinds ==>
          t in table && table[t] == b.attachments[t])
  }

  lemma FillStep(b: Db, g: Id, db: Db, k: Kind, rows: seq<AttRow>, kinds: set<Kind>)
    requires Filled(b, g, db.attachments, kinds) && AttachmentRowsMatch(b, g, k, rows)
    requires CreateAttachments(db, k, rows).Ok?
    ensures Filled(b, g, CreateAttachments(db, k, rows).value.attachments, kinds + {k})
  {
    CreateAttachmentsFacts(db, k, rows);
    var r := CreateAttachments(db, k, rows).value.attachments;
    forall t | t in r && r[t].app in LiveApps(b, g)
      ensures t.0 in kinds + {k} && t in b.attachments && b.attachments[t] == r[t]
    {
      if t !in db.attachments {
        assert AttRow(t.1, r[t]) in rows;
        assert t == (k, t.1);
      }
    }
    forall t | t in b.attachments && b.attachments[t].app in LiveApps(b, g) && t.0 in kinds + {k}
      ensures t in r && r[t] == b.attachments[t]
    {
      if t.0 == k {
        assert t == (k, t.1);
        assert AttRow(t.1, b.attachments[t]) in rows;
      }
    }
  }

  // ---- Variables and configs ---------------------------------------------------------

  /** Every attachment of kind `k` of a live app points to a row with the deployed contents. */
  ghost predicate SourcesBack(b: Db, g: Id, k: Kind, resources: map<(Kind, Id), Resource>) {
    forall t :: t in b.attachments && t.0 == k && b.attachments[t].app in LiveApps(b, g) ==>
      var key := (k, b.attachments[t].source);
      key in b.resources && key in resources &&
      resources[key] == b.resources[key].(group := resources[key].group)
  }

  lemma ResourcesSteps(db: Db, g: Id, k: Kind, rows: seq<ResourceRow>, attachments: seq<AttRow>, r: Db)
    returns (cleaned: Db, upserted: Db)
    requires RestoredResources(db, g, k, rows, attachments) == Ok(r)
    ensures DeleteNamesakes(db, g, k, rows) == Ok(cleaned)
    ensures UpsertAll(cleaned, g, k, rows) == Ok(upserted)
    ensures CreateAttachments(upserted, k, attachments) == Ok(r)
  {
    cleaned := DeleteNamesakes(db, g, k, rows).value;
    upserted := UpsertAll(cleaned, g, k, rows).value;
  }

  /** Only rows of kind `k` of the group go, and none with a listed id. */
  ghost predicate OnlyNamesakesGo(table: ResourceTable, g: Id, k: Kind, rows: seq<ResourceRow>, r: ResourceTable) {
    && (forall key :: key in r ==> key in table && r[key] == table[key])
    && (forall key :: key in table && key !in r ==>
          key.0 == k && table[key].group == g && key.1 !in RowIds(rows))
  }

  lemma WithoutNamesakesFacts(table: ResourceTable, g: Id, k: Kind, rows: seq<ResourceRow>)
    ensures OnlyNamesakesGo(table, g, k, rows, WithoutNamesakes(table, g, k, rows))
    ensures OnlyNamesakesGo(table, g, k, rows, table)
  {
  }

  lemma CheckedIs(x: Db, r: Db)
    requires Checked(x) == Ok(r)
    ensures r == x
  {
    hide Constraints;
  }

  lemma NamesakesGo(db: Db, g: Id, k: Kind, rows: seq<ResourceRow>, r: Db)
    requires DeleteNamesakes(db, g, k, rows) == Ok(r)
    ensures r == if rows == [] then db else db.(resources := WithoutNamesakes(db.resources, g, k, rows))
  {
    hide Constraints, WithoutNamesakes, Checked;
    if rows != [] {
      CheckedIs(db.(resources := WithoutNamesakes(db.resources, g, k, rows)), r);
    }
  }

  lemma NamesakesFacts(db: Db, g: Id, k: Kind, rows: seq<ResourceRow>, r: Db)
    requires DeleteNamesakes(db, g, k, rows) == Ok(r)
    ensures r == db.(resources := r.resources) && OnlyNamesakesGo(db.resources, g, k, rows, r.resources)
  {
    hide *;
    NamesakesGo(db, g, k, rows, r);
    WithoutNamesakesFacts(db.resources, g, k, rows);
  }

  /** `after` has the same rows as `before` in every table but the one of kind `k`. */
  ghost predicate SameOtherKinds(k: Kind, before: ResourceTable, after: ResourceTable) {
    && (forall key: (Kind, Id) :: key.0 != k ==> (key in after <==> key in before))
    && (forall key: (Kind, Id) :: key.0 != k && key in before ==> after[key] == before[key])
  }

  lemma ResourcesStage(b: Db, g: Id, db: Db, k: Kind, rows: seq<ResourceRow>, attachments: seq<AttRow>, r: Db)
    returns (upserted: Db)
    requires ResourceRowsMatch(b, k, rows) && SourcesCovered(b, g, k, rows)
    requires RestoredResources(db, g, k, rows, attachments) == Ok(r)
    ensures upserted == db.(resources := r.resources) && r == upserted.(attachments := r.attachments)
    ensures CreateAttachments(upserted, k, attachments) == Ok(r)
    ensures SourcesBack(b, g, k, r.resources) && SameOtherKinds(k, db.resources, r.resources)
  {
    var cleaned;
    cleaned, upserted := ResourcesSteps(db, g, k, rows, attachments, r);
    NamesakesFacts(db, g, k, rows, cleaned);
    UpsertAllFacts(cleaned, g, k, rows, b);
    CreateAttachmentsFacts(upserted, k, attachments);
    forall t | t in b.attachments && t.0 == k && b.attachments[t].app in LiveApps(b, g)
      ensures var key := (k, b.attachments[t].source);
        key in b.resources && key in r.resources && r.resources[key] == b.resources[key].(group := r.resources[key].group)
    {
      var row :| row in rows && row.id == b.attachments[t].source;
      assert row.id in RowIds(rows);
    }
  }

  // ---- Endpoints and domains ------------------------------------------------------------

  ghost predicate EndpointsBack(b: Db, g: Id, db: Db) {
    && (forall e :: e in db.endpoints && db.endpoints[e].app in LiveApps(b, g) ==>
          e in b.endpoints && b.endpoints[e] == db.endpoints[e])
    && (forall e :: e in b.endpoints && b.endpoints[e].app in LiveApps(b, g) ==>
          e in db.endpoints && db.endpoints[e] == b.endpoints[e] && DomainsOf(db, e) == DomainsOf(b, e))
  }

  lemma EndpointsStage(b: Db, g: Id, db: Db, plan: Plan)
    requires AppsOf(db, g) == LiveApps(b, g) && DomainsFit(db)
    requires EndpointRowsMatch(b, g, plan.endpoints)
    requires forall r :: r in plan.domainAssignments <==> HeldIn(b, g, r)
    requires RestoredEndpoints(db, g, plan).Ok?
    ensures var r := RestoredEndpoints(db, g, plan).value;
      r == db.(endpoints := r.endpoints, domains := r.domains) && EndpointsBack(b, g, r)
  {
    var cleared := ClearEndpoints(db, g);
    CreateEndpointsFacts(cleared, plan.endpoints);
    var created := CreateEndpoints(cleared, plan.endpoints).value;
    AssignAllFacts(created, g, plan.domainAssignments, b);
    var r := RestoredEndpoints(db, g, plan).value;
    forall e | e in r.endpoints && r.endpoints[e].app in LiveApps(b, g)
      ensures e in b.endpoints && b.endpoints[e] == r.endpoints[e]
    {
      assert e !in cleared.endpoints;
      assert EndpointRow(e, r.endpoints[e]) in plan.endpoints;
    }
    forall e | e in b.endpoints && b.endpoints[e].app in LiveApps(b, g)
      ensures e in r.endpoints && r.endpoints[e] == b.endpoints[e] && DomainsOf(r, e) == DomainsOf(b, e)
    {
      var row := EndpointRow(e, b.endpoints[e]);
      assert row in plan.endpoints && e !in cleared.endpoints;
      DomainsBack(b, g, cleared, created, r, plan.domainAssignments, e);
    }
  }

  lemma DomainsBack(b: Db, g: Id, cleared: Db, created: Db, r: Db, rows: seq<Assignment>, e: Id)
    requires e in b.endpoints && b.endpoints[e].app in LiveApps(b, g)
    requires DomainsFit(cleared) && e !in cleared.endpoints && created.domains == cleared.domains
    requires forall row :: row in rows <==> HeldIn(b, g, row)
    requires DomainsSetBack(created, AssignedIds(rows), b, r)
    ensures DomainsOf(r, e) == DomainsOf(b, e)
  {
    forall d ensures d in DomainsOf(r, e) <==> d in DomainsOf(b, e) {
      if d in DomainsOf(b, e) {
        assert HeldIn(b, g, Assignment(d, e));
        assert Assignment(d, e) in rows && Assignment(d, e).domain in AssignedIds(rows);
      }
      if d in DomainsOf(r, e) {
        assert d in AssignedIds(rows);
      }
    }
  }

  // ---- The configuration of the rebuilt draft --------------------------------------------

  function EraseVersions(entries: seq<AttEntry>): seq<AttEntry> {
    seq(|entries|, i requires 0 <= i < |entries| => entries[i].(version := 0))
  }

  /** Secret values are not part of a configuration, so a discard cannot restore their versions. */
  function WithoutSecretVersions(s: Stack): Stack {
    s.(apps := seq(|s.apps|, i requires 0 <= i < |s.apps| =>
      s.apps[i].(secrets := EraseVersions(s.apps[i].secrets))))
  }

  ghost predicate Rebuilt(b: Db, g: Id, r: Db) {
    && AppsBack(b, g, r)
    && Filled(b, g, r.attachments, {Variable, Config, Secret, Volume})
    && SourcesBack(b, g, Variable, r.resources) && SourcesBack(b, g, Config, r.resources)
    && EndpointsBack(b, g, r)
    && SourcesFit(r) && SourcesFit(b)
  }

  lemma AttEntriesBack(b: Db, g: Id, r: Db, a: Id, k: Kind)
    requires Rebuilt(b, g, r) && a in LiveApps(b, g)
    ensures AttachmentsOf(r, a, k) == AttachmentsOf(b, a, k)
    ensures !k.Secret? ==> AttEntries(r, a, k) == AttEntries(b, a, k)
    ensures EraseVersions(AttEntries(r, a, k)) == EraseVersions(AttEntries(b, a, k))
  {
    assert AttachmentsOf(r, a, k) == AttachmentsOf(b, a, k);
    var ids := Ordered(AttachmentsOf(b, a, k));
    var xs, ys := AttEntries(b, a, k), AttEntries(r, a, k);
    forall i | 0 <= i < |ids|
      ensures ys[i].(version := 0) == xs[i].(version := 0)
      ensures !k.Secret? ==> ys[i] == xs[i]
    {
      assert ids[i] in ids;
      var t := (k, ids[i]);
      assert b.attachments[t].app in LiveApps(b, g) && r.attachments[t] == b.attachments[t];
    }
  }

  lemma EndpointEntriesBack(b: Db, g: Id, r: Db, a: Id)
    requires Rebuilt(b, g, r) && a in LiveApps(b, g)
    ensures EndpointEntries(r, a) == EndpointEntries(b, a)
  {
    assert EndpointsOf(r, a) == EndpointsOf(b, a);
    var ids := Ordered(EndpointsOf(b, a));
    forall i | 0 <= i < |ids| ensures EndpointEntries(r, a)[i] == EndpointEntries(b, a)[i] {
      assert ids[i] in ids;
    }
  }

  lemma TextOnlyTwice(spec: Spec)
    ensures TextOnly(TextOnly(spec)) == TextOnly(spec)
  {
    assert TextOnly(TextOnly(spec)).environment == TextOnly(spec).environment;
  }

  predicate SecretsAsDeployed(b: Db, r: Db, a: Id) {
    forall t | t in AttachmentsOf(b, a, Secret) ::
      Payload(r, Secret, b.attachments[(Secret, t)].source) == Payload(b, Secret, b.attachments[(Secret, t)].source)
  }

  lemma SecretEntriesBack(b: Db, g: Id, r: Db, a: Id)
    requires Rebuilt(b, g, r) && a in LiveApps(b, g)
    ensures AttEntries(r, a, Secret) == AttEntries(b, a, Secret) <==> SecretsAsDeployed(b, r, a)
  {
    AttEntriesBack(b, g, r, a, Secret);
    var ids := Ordered(AttachmentsOf(b, a, Secret));
    var xs, ys := AttEntries(b, a, Secret), AttEntries(r, a, Secret);
    if xs == ys {
      forall t | t in AttachmentsOf(b, a, Secret)
        ensures Payload(r, Secret, b.attachments[(Secret, t)].source) == Payload(b, Secret, b.attachments[(Secret, t)].source)
      {
        var i :| 0 <= i < |ids| && ids[i] == t;
        assert xs[i] == ys[i];
        assert xs[i] == EntryOf(b, Secret, t) && ys[i] == EntryOf(r, Secret, t);
        assert b.attachments[(Secret, t)].app in LiveApps(b, g);
      }
    }
    if SecretsAsDeployed(b, r, a) {
      forall i | 0 <= i < |ids| ensures xs[i] == ys[i] {
        assert ids[i] in ids;
        assert b.attachments[(Secret, ids[i])].app in LiveApps(b, g);
      }
    }
  }

  lemma AppEntryBack(b: Db, g: Id, r: Db, a: Id)
    requires Rebuilt(b, g, r) && a in LiveApps(b, g)
    ensures AppEntryOf(r, a).(secrets := []) == AppEntryOf(b, a).(secrets := [])
    ensures EraseVersions(AppEntryOf(r, a).secrets) == EraseVersions(AppEntryOf(b, a).secrets)
    ensures AppEntryOf(r, a) == AppEntryOf(b, a) <==> SecretsAsDeployed(b, r, a)
  {
    AttEntriesBack(b, g, r, a, Variable);
    AttEntriesBack(b, g, r, a, Config);
    AttEntriesBack(b, g, r, a, Volume);
    AttEntriesBack(b, g, r, a, Secret);
    EndpointEntriesBack(b, g, r, a);
    SecretEntriesBack(b, g, r, a);
    TextOnlyTwice(b.apps[a].spec);
  }

  lemma LiveBack(b: Db, g: Id, r: Db)
    requires AppsBack(b, g, r)
    ensures LiveApps(r, g) == LiveApps(b, g)
  {
    forall a ensures a in LiveApps(r, g) <==> a in LiveApps(b, g) {
      if a in LiveApps(r, g) { assert a in AppsOf(r, g); }
    }
  }

  predicate AllSecretsAsDeployed(b: Db, g: Id, r: Db) {
    forall a | a in LiveApps(b, g) :: SecretsAsDeployed(b, r, a)
  }

  lemma StackEntryBack(b: Db, g: Id, r: Db, i: nat)
    requires Rebuilt(b, g, r) && g in b.groups && g in r.groups
    requires |BuildStack(b, g).apps| == |BuildStack(r, g).apps| == |Ordered(LiveApps(b, g))|
    requires i < |BuildStack(b, g).apps|
    ensures var x, y := BuildStack(b, g).apps[i], BuildStack(r, g).apps[i];
      && x.(secrets := []) == y.(secrets := []) && EraseVersions(x.secrets) == EraseVersions(y.secrets)
      && x.id in LiveApps(b, g) && (x == y <==> SecretsAsDeployed(b, r, x.id))
  {
    LiveBack(b, g, r);
    var ids := Ordered(LiveApps(b, g));
    assert ids[i] in ids;
    AppEntryBack(b, g, r, ids[i]);
  }

  /** The apps of two configurations, entry by entry: the same but for secret versions, and the same
      exactly if the secrets are as deployed. */
  ghost predicate EntriesBack(xs: seq<AppEntry>, ys: seq<AppEntry>, b: Db, g: Id, r: Db) {
    && |xs| == |ys| == |Ordered(LiveApps(b, g))|
    && (forall i :: 0 <= i < |xs| ==>
          && xs[i].(secrets := []) == ys[i].(secrets := []) && EraseVersions(xs[i].secrets) == EraseVersions(ys[i].secrets)
          && xs[i].id == Ordered(LiveApps(b, g))[i] && (xs[i] == ys[i] <==> SecretsAsDeployed(b, r, xs[i].id)))
  }

  lemma StackEntriesBack(b: Db, g: Id, r: Db)
    requires Rebuilt(b, g, r) && g in b.groups && g in r.groups
    ensures EntriesBack(BuildStack(b, g).apps, BuildStack(r, g).apps, b, g, r)
  {
    hide SecretsAsDeployed, EraseVersions, AttEntries, EndpointEntries;
    LiveBack(b, g, r);
    forall i | 0 <= i < |Ordered(LiveApps(b, g))|
      ensures var x, y := BuildStack(b, g).apps[i], BuildStack(r, g).apps[i];
        && x.(secrets := []) == y.(secrets := []) && EraseVersions(x.secrets) == EraseVersions(y.secrets)
        && x.id == Ordered(LiveApps(b, g))[i] && (x == y <==> SecretsAsDeployed(b, r, x.id))
    {
      StackEntryBack(b, g, r, i);
    }
  }

  lemma EntriesWithoutVersions(xs: seq<AppEntry>, ys: seq<AppEntry>, b: Db, g: Id, r: Db, x: Stack, y: Stack)
    requires EntriesBack(xs, ys, b, g, r) && x.apps == xs && y == x.(apps := ys)
    ensures WithoutSecretVersions(y) == WithoutSecretVersions(x)
  {
    hide SecretsAsDeployed, EraseVersions, LiveApps, Ordered;
    assert WithoutSecretVersions(y).apps == WithoutSecretVersions(x).apps;
  }

  lemma EqualExactlyIfAsDeployed(xs: seq<AppEntry>, ys: seq<AppEntry>, b: Db, g: Id, r: Db)
    requires EntriesBack(xs, ys, b, g, r)
    ensures xs == ys <==> AllSecretsAsDeployed(b, g, r)
  {
    hide SecretsAsDeployed, EraseVersions;
    var ids := Ordered(LiveApps(b, g));
    if xs == ys {
      forall a | a in LiveApps(b, g) ensures SecretsAsDeployed(b, r, a) {
        var i :| 0 <= i < |ids| && ids[i] == a;
        assert xs[i] == ys[i];
      }
    }
    if AllSecretsAsDeployed(b, g, r) {
      forall i | 0 <= i < |xs| ensures xs[i] == ys[i] {
        assert ids[i] in ids;
      }
    }
  }

  lemma StackBack(b: Db, g: Id, r: Db)
    requires Rebuilt(b, g, r) && g in b.groups && g in r.groups
    requires r.groups[g].runtimeState == b.groups[g].runtimeState
    ensures WithoutSecretVersions(BuildStack(r, g)) == WithoutSecretVersions(BuildStack(b, g))
    ensures BuildStack(r, g) == BuildStack(b, g) <==> AllSecretsAsDeployed(b, g, r)
  {
    hide Rebuilt, EntriesBack, WithoutSecretVersions, AllSecretsAsDeployed;
    var x, y := BuildStack(b, g), BuildStack(r, g);
    StackEntriesBack(b, g, r);
    EntriesWithoutVersions(x.apps, y.apps, b, g, r, x, y);
    EqualExactlyIfAsDeployed(x.apps, y.apps, b, g, r);
  }

  // ---- The whole transaction ----------------------------------------------------------

  lemma DraftSteps(db: Db, g: Id, snapshot: Stack, r: Db)
    returns (apps: Db, variables: Db, configs: Db, volumes: Db, endpoints: Db)
    requires RestoredDraft(db, g, snapshot) == Ok(r)
    ensures var plan := PlanOf(snapshot.apps);
      && RestoredApps(db, g, snapshot.apps) == Ok(apps)
      && RestoredResources(ClearAttachments(apps, g), g, Variable, plan.variables, plan.variableAttachments) == Ok(variables)
      && RestoredResources(variables, g, Config, plan.configs, plan.configAttachments) == Ok(configs)
      && RestoredVolumes(configs, plan.volumeAttachments) == Ok(volumes)
      && RestoredEndpoints(volumes, g, plan) == Ok(endpoints)
      && CreateAttachments(endpoints, Secret, FlatMap(snapshot.apps, SecretRows)) == Ok(r)
  {
    var plan := PlanOf(snapshot.apps);
    apps := RestoredApps(db, g, snapshot.apps).value;
    variables := RestoredResources(ClearAttachments(apps, g), g, Variable, plan.variables, plan.variableAttachments).value;
    configs := RestoredResources(variables, g, Config, plan.configs, plan.configAttachments).value;
    volumes := RestoredVolumes(configs, plan.volumeAttachments).value;
    endpoints := RestoredEndpoints(volumes, g, plan).value;
  }

  lemma NothingLeft(b: Db, g: Id, db: Db)
    requires AppsOf(db, g) == LiveApps(b, g)
    ensures Filled(b, g, ClearAttachments(db, g).attachments, {})
  {
  }

  lemma FillStage(b: Db, g: Id, db: Db, k: Kind, rows: seq<AttRow>, kinds: set<Kind>, r: Db)
    requires Filled(b, g, db.attachments, kinds) && AttachmentRowsMatch(b, g, k, rows)
    requires CreateAttachments(db, k, rows) == Ok(r)
    ensures r == db.(attachments := r.attachments) && Filled(b, g, r.attachments, kinds + {k})
  {
    CreateAttachmentsFacts(db, k, rows);
    FillStep(b, g, db, k, rows, kinds);
  }

  lemma OneResourceStage(b: Db, g: Id, db: Db, k: Kind, rows: seq<ResourceRow>, attachments: seq<AttRow>,
                         kinds: set<Kind>, r: Db)
    requires ResourceRowsMatch(b, k, rows) && SourcesCovered(b, g, k, rows) && AttachmentRowsMatch(b, g, k, attachments)
    requires Filled(b, g, db.attachments, kinds)
    requires RestoredResources(db, g, k, rows, attachments) == Ok(r)
    ensures r == db.(resources := r.resources, attachments := r.attachments)
    ensures Filled(b, g, r.attachments, kinds + {k})
    ensures SourcesBack(b, g, k, r.resources) && SameOtherKinds(k, db.resources, r.resources)
  {
    var upserted := ResourcesStage(b, g, db, k, rows, attachments, r);
    FillStage(b, g, upserted, k, attachments, kinds, r);
  }

  lemma SourcesStayBack(b: Db, g: Id, k: Kind, other: Kind, before: ResourceTable, after: ResourceTable)
    requires SourcesBack(b, g, k, before) && SameOtherKinds(other, before, after) && k != other
    ensures SourcesBack(b, g, k, after)
  {
  }

  /** Variables, configs and their attachments. */
  lemma ResourcesHalf(b: Db, g: Id, plan: Plan, apps: Db, variables: Db, configs: Db)
    requires SourcesFit(b) && g in b.groups && AppsOf(apps, g) == LiveApps(b, g)
    requires plan == PlanOf(BuildStack(b, g).apps)
    requires RestoredResources(ClearAttachments(apps, g), g, Variable, plan.variables, plan.variableAttachments) == Ok(variables)
    requires RestoredResources(variables, g, Config, plan.configs, plan.configAttachments) == Ok(configs)
    ensures configs == apps.(resources := configs.resources, attachments := configs.attachments)
    ensures Filled(b, g, configs.attachments, {Variable, Config})
    ensures SourcesBack(b, g, Variable, configs.resources) && SourcesBack(b, g, Config, configs.resources)
  {
    PlannedResources(b, g, Variable, VariablesOf);
    PlannedAttachments(b, g, Variable, VariableRows);
    PlannedResources(b, g, Config, ConfigsOf);
    PlannedAttachments(b, g, Config, ConfigRows);
    TwoResourceStages(b, g, plan, apps, variables, configs);
  }

  lemma TwoResourceStages(b: Db, g: Id, plan: Plan, apps: Db, variables: Db, configs: Db)
    requires AppsOf(apps, g) == LiveApps(b, g)
    requires ResourceRowsMatch(b, Variable, plan.variables) && SourcesCovered(b, g, Variable, plan.variables)
    requires AttachmentRowsMatch(b, g, Variable, plan.variableAttachments)
    requires ResourceRowsMatch(b, Config, plan.configs) && SourcesCovered(b, g, Config, plan.configs)
    requires AttachmentRowsMatch(b, g, Config, plan.configAttachments)
    requires RestoredResources(ClearAttachments(apps, g), g, Variable, plan.variables, plan.variableAttachments) == Ok(variables)
    requires RestoredResources(variables, g, Config, plan.configs, plan.configAttachments) == Ok(configs)
    ensures configs == apps.(resources := configs.resources, attachments := configs.attachments)
    ensures Filled(b, g, configs.attachments, {Variable, Config})
    ensures SourcesBack(b, g, Variable, configs.resources) && SourcesBack(b, g, Config, configs.resources)
  {
    NothingLeft(b, g, apps);
    OneResourceStage(b, g, ClearAttachments(apps, g), Variable, plan.variables, plan.variableAttachments, {}, variables);
    OneResourceStage(b, g, variables, Config, plan.configs, plan.configAttachments, {} + {Variable}, configs);
    SourcesStayBack(b, g, Variable, Config, variables.resources, configs.resources);
    assert {} + {Variable} + {Config} == {Variable, Config};
  }

  lemma RestHalf(b: Db, g: Id, plan: Plan, secrets: seq<AttRow>, configs: Db, volumes: Db, endpoints: Db, r: Db)
    requires g in b.groups && AppsOf(configs, g) == LiveApps(b, g) && DomainsFit(configs)
    requires Filled(b, g, configs.attachments, {Variable, Config})
    requires plan == PlanOf(BuildStack(b, g).apps) && secrets == FlatMap(BuildStack(b, g).apps, SecretRows)
    requires RestoredVolumes(configs, plan.volumeAttachments) == Ok(volumes)
    requires RestoredEndpoints(volumes, g, plan) == Ok(endpoints)
    requires CreateAttachments(endpoints, Secret, secrets) == Ok(r)
    ensures r == configs.(attachments := r.attachments, endpoints := r.endpoints, domains := r.domains)
    ensures Filled(b, g, r.attachments, {Variable, Config, Secret, Volume})
    ensures EndpointsBack(b, g, r)
  {
    PlannedAttachments(b, g, Volume, VolumeRows);
    PlannedAttachments(b, g, Secret, SecretRows);
    PlannedEndpoints(b, g);
    PlannedDomains(b, g);
    ThreeStages(b, g, plan, secrets, configs, volumes, endpoints, r);
  }

  lemma ThreeStages(b: Db, g: Id, plan: Plan, secrets: seq<AttRow>, configs: Db, volumes: Db, endpoints: Db, r: Db)
    requires AppsOf(configs, g) == LiveApps(b, g) && DomainsFit(configs)
    requires Filled(b, g, configs.attachments, {Variable, Config})
    requires AttachmentRowsMatch(b, g, Volume, plan.volumeAttachments) && AttachmentRowsMatch(b, g, Secret, secrets)
    requires EndpointRowsMatch(b, g, plan.endpoints)
    requires forall r :: r in plan.domainAssignments <==> HeldIn(b, g, r)
    requires RestoredVolumes(configs, plan.volumeAttachments) == Ok(volumes)
    requires RestoredEndpoints(volumes, g, plan) == Ok(endpoints)
    requires CreateAttachments(endpoints, Secret, secrets) == Ok(r)
    ensures r == configs.(attachments := r.attachments, endpoints := r.endpoints, domains := r.domains)
    ensures Filled(b, g, r.attachments, {Variable, Config, Secret, Volume})
    ensures EndpointsBack(b, g, r)
  {
    FillStage(b, g, configs, Volume, plan.volumeAttachments, {Variable, Config}, volumes);
    EndpointsStage(b, g, volumes, plan);
    FillStage(b, g, endpoints, Secret, secrets, {Variable, Config} + {Volume}, r);
    assert {Variable, Config} + {Volume} + {Secret} == {Variable, Config, Secret, Volume};
    SameDomains(endpoints, r);
    assert EndpointsBack(b, g, r);
  }

  lemma SameDomains(p: Db, q: Db)
    requires p.domains == q.domains
    ensures forall e :: DomainsOf(p, e) == DomainsOf(q, e)
  {
  }

  lemma DraftRebuilt(b: Db, now: Db, g: Id, r: Db)
    requires g in b.groups && SourcesFit(b) && DomainsFit(now) && KeepGroup(b, now)
    requires RestoredDraft(now, g, BuildStack(b, g)) == Ok(r) && SourcesFit(r)
    ensures Rebuilt(b, g, r)
    ensures r == now.(apps := r.apps, resources := r.resources, attachments := r.attachments,
                      endpoints := r.endpoints, domains := r.domains)
  {
    var apps, variables, configs, volumes, endpoints := DraftSteps(now, g, BuildStack(b, g), r);
    AppsSteps(b, now, g, apps);
    AppsStage(b, now, g, apps);
    var plan := PlanOf(BuildStack(b, g).apps);
    ResourcesHalf(b, g, plan, apps, variables, configs);
    RestHalf(b, g, plan, FlatMap(BuildStack(b, g).apps, SecretRows), configs, volumes, endpoints, r);
  }

  predicate Drifted(db: Db, s: AttEntry) {
    (Secret, s.source) !in db.resources || db.resources[(Secret, s.source)].version != s.version
  }

  lemma SecretEntryDrift(b: Db, g: Id, r: Db, a: Id, s: AttEntry)
    requires Rebuilt(b, g, r) && a in LiveApps(b, g) && s in AttEntries(b, a, Secret)
    ensures s.id in AttachmentsOf(b, a, Secret) && b.attachments[(Secret, s.id)].source == s.source
    ensures Drifted(r, s) <==> Payload(r, Secret, s.source) != Payload(b, Secret, s.source)
  {
    AttEntriesIn(b, a, Secret);
    var t := (Secret, s.id);
    assert b.attachments[t].app in LiveApps(b, g);
    assert t in r.attachments && r.attachments[t].source == s.source;
  }

  lemma DriftedEntry(b: Db, g: Id, r: Db, e: AppEntry)
    requires Rebuilt(b, g, r) && g in b.groups && e in BuildStack(b, g).apps
    requires exists s :: s in e.secrets && Drifted(r, s)
    ensures !AllSecretsAsDeployed(b, g, r)
  {
    StackApps(b, g);
    var s :| s in e.secrets && Drifted(r, s);
    SecretEntryDrift(b, g, r, e.id, s);
    assert !SecretsAsDeployed(b, r, e.id);
  }

  lemma DriftedSecret(b: Db, g: Id, r: Db, a: Id) returns (s: AttEntry)
    requires Rebuilt(b, g, r) && a in LiveApps(b, g) && !SecretsAsDeployed(b, r, a)
    ensures s in AttEntries(b, a, Secret) && Drifted(r, s)
  {
    var t :| t in AttachmentsOf(b, a, Secret) &&
      Payload(r, Secret, b.attachments[(Secret, t)].source) != Payload(b, Secret, b.attachments[(Secret, t)].source);
    s := EntryOf(b, Secret, t);
    AttEntriesIn(b, a, Secret);
    SecretEntryDrift(b, g, r, a, s);
  }

  /** The marker that the discard leaves on the draft is true exactly when a secret of the
      configuration has another version now. */
  lemma DriftIsSecretDrift(b: Db, g: Id, r: Db)
    requires Rebuilt(b, g, r) && g in b.groups
    ensures HasSecretVersionDrift(r, BuildStack(b, g).apps) <==> !AllSecretsAsDeployed(b, g, r)
  {
    var apps := BuildStack(b, g).apps;
    if HasSecretVersionDrift(r, apps) {
      var e :| e in apps && exists s :: s in e.secrets && Drifted(r, s);
      DriftedEntry(b, g, r, e);
    }
    if !AllSecretsAsDeployed(b, g, r) {
      var a :| a in LiveApps(b, g) && !SecretsAsDeployed(b, r, a);
      var s := DriftedSecret(b, g, r, a);
      StackApps(b, g);
      assert AppEntryOf(b, a) in apps && s in AppEntryOf(b, a).secrets;
    }
  }

  lemma TxSteps(now: Db, g: Id, snapshot: Stack, after: Db) returns (r: Db)
    requires g in now.groups && DiscardTx(now, g, snapshot) == Ok(after)
    ensures RestoredDraft(now, g, snapshot) == Ok(r) && after == Stamped(r, g, snapshot)
    ensures after.groups.Keys == r.groups.Keys && after == r.(groups := after.groups)
    ensures Constraints(after) && SourcesFit(after)
  {
    hide Constraints;
    r := RestoredDraft(now, g, snapshot).value;
    ConstraintsFit(after);
  }

  /** Discard is a round trip. Let `b` be the state from which the deployed configuration was
      built and `now` any later state. If the discard commits, the configuration built from the
      rebuilt draft is the deployed one up to secret versions; the draft revision grows by one;
      and the draft counts as unchanged exactly when the two configurations are equal. */
  lemma DiscardIsARoundTrip(b: Db, now: Db, g: Id)
    requires Descends(b, now, g)
    requires DiscardTx(now, g, BuildStack(b, g)).Ok?
    ensures var after := DiscardTx(now, g, BuildStack(b, g)).value;
      && Constraints(after) && g in after.groups
      && WithoutSecretVersions(BuildStack(after, g)) == WithoutSecretVersions(BuildStack(b, g))
      && after.groups[g].revision == now.groups[g].revision + 1 && after.groups[g].deployed == now.groups[g].deployed
      && after.groups.Keys == now.groups.Keys
      && (after.groups[g].hasPendingChanges <==> BuildStack(after, g) != BuildStack(b, g))
      && (forall h :: h in now.groups && h != g ==> h in after.groups && after.groups[h] == now.groups[h])
  {
    hide Constraints;
    var stack := BuildStack(b, g);
    var after := DiscardTx(now, g, stack).value;
    var r := TxSteps(now, g, stack, after);
    DescentFacts(b, now, g);
    DraftRebuilt(b, now, g, r);
    FinishRoundTrip(b, g, r, after);
  }

  lemma FinishRoundTrip(b: Db, g: Id, r: Db, after: Db)
    requires g in b.groups && g in r.groups && Rebuilt(b, g, r)
    requires after == Stamped(r, g, BuildStack(b, g))
    ensures g in after.groups
    ensures WithoutSecretVersions(BuildStack(after, g)) == WithoutSecretVersions(BuildStack(b, g))
    ensures after.groups[g].revision == r.groups[g].revision + 1 && after.groups[g].deployed == r.groups[g].deployed
    ensures after.groups[g].hasPendingChanges <==> BuildStack(after, g) != BuildStack(b, g)
  {
    DriftIsSecretDrift(b, g, r);
    SameTables(b, g, r, after);
    StackBack(b, g, after);
  }

  lemma SameTables(b: Db, g: Id, r: Db, after: Db)
    requires after == r.(groups := after.groups) && Rebuilt(b, g, r)
    ensures Rebuilt(b, g, after)
    ensures AllSecretsAsDeployed(b, g, after) <==> AllSecretsAsDeployed(b, g, r)
  {
    assert forall e :: DomainsOf(r, e) == DomainsOf(after, e);
    assert forall s :: Payload(r, Secret, s) == Payload(after, Secret, s);
  }
}
