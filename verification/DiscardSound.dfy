/** A discard keeps what holds of the tables at all times: ids stay with what they were issued for,
    and attachments stay within a group. */
module DiscardSound {
  import opened Prelude
  import opened Tables
  import opened RestorePlan
  import opened Discard
  import opened RoundTrip
  import opened DiscardTheorems
  import opened OtherGroups

  predicate Sound(db: Db) {
    Constraints(db) && Owned(db) && Tidy(db)
  }

  // ---- Where the rows come from --------------------------------------------------------

  /** Every resource of `r` was there at `x`, in the same group, or is a listed one of group `g`. */
  ghost predicate ResourcesFrom(x: ResourceTable, g: Id, b: Db, r: ResourceTable) {
    forall key :: key in r ==>
      (key in x && r[key].group == x[key].group) || (r[key].group == g && ResourceOf(b, g, key.0, key.1))
  }

  lemma StageResourcesFrom(x: Db, g: Id, k: Kind, rows: seq<ResourceRow>, attachments: seq<AttRow>, b: Db, y: Db)
    requires ResourceRowsMatch(b, k, rows) && RestoredResources(x, g, k, rows, attachments) == Ok(y)
    requires forall r :: r in rows ==> ResourceOf(b, g, k, r.id)
    ensures ResourcesFrom(x.resources, g, b, y.resources)
  {
    var cleaned, upserted := ResourcesSteps(x, g, k, rows, attachments, y);
    NamesakesFacts(x, g, k, rows, cleaned);
    UpsertAllFacts(cleaned, g, k, rows, b);
    CreateAttachmentsFacts(upserted, k, attachments);
    SetBackFrom(x.resources, cleaned.resources, g, k, rows, b, y.resources);
  }

  lemma SetBackFrom(x: ResourceTable, cleaned: ResourceTable, g: Id, k: Kind, rows: seq<ResourceRow>, b: Db, y: ResourceTable)
    requires forall key :: key in cleaned ==> key in x && cleaned[key] == x[key]
    requires ResourcesSetBack(cleaned, g, k, RowIds(rows), b.resources, y)
    requires forall r :: r in rows ==> ResourceOf(b, g, k, r.id)
    ensures ResourcesFrom(x, g, b, y)
  {
    forall key | key in y
      ensures (key in x && y[key].group == x[key].group) || (y[key].group == g && ResourceOf(b, g, key.0, key.1))
    {
      if key.0 == k && key.1 in RowIds(rows) {
        var r :| r in rows && r.id == key.1;
        assert key == (k, r.id);
      }
    }
  }

  lemma ResourcesFromDraft(b: Db, now: Db, g: Id, r: Db)
    requires g in b.groups && SourcesFit(b) && DomainsFit(now) && KeepGroup(b, now) && Tidy(b)
    requires RestoredDraft(now, g, BuildStack(b, g)) == Ok(r)
    ensures ResourcesFrom(now.resources, g, b, r.resources)
  {
    var plan := PlanOf(BuildStack(b, g).apps);
    var apps, variables, configs, volumes, endpoints := DraftSteps(now, g, BuildStack(b, g), r);
    AppsOutside(b, now, g, apps);
    PlannedResources(b, g, Variable, VariablesOf);
    PlannedResources(b, g, Config, ConfigsOf);
    PlannedIdsOwned(b, g, Variable, VariablesOf);
    PlannedIdsOwned(b, g, Config, ConfigsOf);
    StageResourcesFrom(ClearAttachments(apps, g), g, Variable, plan.variables, plan.variableAttachments, b, variables);
    StageResourcesFrom(variables, g, Config, plan.configs, plan.configAttachments, b, configs);
    LastStagesKeepResources(configs, g, plan, volumes, endpoints, FlatMap(BuildStack(b, g).apps, SecretRows), r);
  }

  lemma LastStagesKeepResources(configs: Db, g: Id, plan: Plan, volumes: Db, endpoints: Db, secrets: seq<AttRow>, r: Db)
    requires RestoredVolumes(configs, plan.volumeAttachments) == Ok(volumes)
    requires RestoredEndpoints(volumes, g, plan) == Ok(endpoints)
    requires CreateAttachments(endpoints, Secret, secrets) == Ok(r)
    ensures r.resources == configs.resources
  {
    CreateAttachmentsFacts(configs, Volume, plan.volumeAttachments);
    var created := CreateEndpoints(ClearEndpoints(volumes, g), plan.endpoints).value;
    CreateEndpointsFacts(ClearEndpoints(volumes, g), plan.endpoints);
    AssignOnlyDomains(created, plan.domainAssignments);
    CreateAttachmentsFacts(endpoints, Secret, secrets);
  }

  // ---- Owners -----------------------------------------------------------------------------

  /** What is in `b` still belongs to its owner in the owner tables of `now`. */
  ghost predicate StillOwner(b: Db, now: Db) {
    && (forall a :: a in b.apps ==> a in now.appOwner && now.appOwner[a] == b.apps[a].group)
    && (forall k :: k in b.resources ==> k in now.resourceOwner && now.resourceOwner[k] == b.resources[k].group)
    && (forall t :: t in b.attachments ==> t in now.attachmentOwner && now.attachmentOwner[t] == b.attachments[t].app)
    && (forall e :: e in b.endpoints ==> e in now.endpointOwner && now.endpointOwner[e] == b.endpoints[e].app)
  }

  lemma OwnersStay(b: Db, now: Db)
    requires Owned(b) && Later(b, now)
    ensures StillOwner(b, now)
  {
    forall a | a in b.apps ensures a in now.appOwner && now.appOwner[a] == b.apps[a].group {
      assert (a, b.appOwner[a]) in b.appOwner.Items;
      assert (a, b.appOwner[a]) in now.appOwner.Items;
    }
    forall k | k in b.resources ensures k in now.resourceOwner && now.resourceOwner[k] == b.resources[k].group {
      assert (k, b.resourceOwner[k]) in b.resourceOwner.Items;
      assert (k, b.resourceOwner[k]) in now.resourceOwner.Items;
    }
    forall t | t in b.attachments ensures t in now.attachmentOwner && now.attachmentOwner[t] == b.attachments[t].app {
      assert (t, b.attachmentOwner[t]) in b.attachmentOwner.Items;
      assert (t, b.attachmentOwner[t]) in now.attachmentOwner.Items;
    }
    forall e | e in b.endpoints ensures e in now.endpointOwner && now.endpointOwner[e] == b.endpoints[e].app {
      assert (e, b.endpointOwner[e]) in b.endpointOwner.Items;
      assert (e, b.endpointOwner[e]) in now.endpointOwner.Items;
    }
  }

  lemma RebuiltOwned(b: Db, now: Db, g: Id, y: Db)
    requires StillOwner(b, now) && Owned(now) && Rebuilt(b, g, y) && SameOutside(g, now, y)
    requires ResourcesFrom(now.resources, g, b, y.resources)
    requires y.appOwner == now.appOwner && y.resourceOwner == now.resourceOwner
    requires y.attachmentOwner == now.attachmentOwner && y.endpointOwner == now.endpointOwner
    requires forall t :: t in y.attachments ==> y.attachments[t].app in y.apps
    requires forall e :: e in y.endpoints ==> y.endpoints[e].app in y.apps
    ensures Owned(y)
  {
    forall a | a in y.apps ensures a in y.appOwner && y.appOwner[a] == y.apps[a].group {
      if y.apps[a].group == g {
        assert a in AppsOf(y, g);
        assert a in LiveApps(b, g);
      } else {
        assert Foreign(y, g, a);
      }
    }
    forall k | k in y.resources ensures k in y.resourceOwner && y.resourceOwner[k] == y.resources[k].group {
      assert k == (k.0, k.1);
    }
    forall t | t in y.attachments ensures t in y.attachmentOwner && y.attachmentOwner[t] == y.attachments[t].app {
      var a := y.attachments[t].app;
      if y.apps[a].group == g { assert a in AppsOf(y, g); } else { assert Foreign(y, g, a); }
    }
    forall e | e in y.endpoints ensures e in y.endpointOwner && y.endpointOwner[e] == y.endpoints[e].app {
      var a := y.endpoints[e].app;
      if y.apps[a].group == g { assert a in AppsOf(y, g); } else { assert Foreign(y, g, a); }
    }
  }

  lemma RebuiltTidy(b: Db, now: Db, g: Id, y: Db)
    requires StillOwner(b, now) && Tidy(b) && Tidy(now) && Rebuilt(b, g, y) && SameOutside(g, now, y)
    requires y.resourceOwner == now.resourceOwner && SourcesFit(y)
    requires forall k :: k in y.resources ==> k in y.resourceOwner && y.resourceOwner[k] == y.resources[k].group
    requires forall t :: t in y.attachments ==> y.attachments[t].app in y.apps
    ensures Tidy(y)
  {
    forall t | t in y.attachments && !t.0.Volume?
      ensures var key := (t.0, y.attachments[t].source);
        key in y.resources && y.resources[key].group == y.apps[y.attachments[t].app].group
    {
      var a := y.attachments[t].app;
      var key := (t.0, y.attachments[t].source);
      if y.apps[a].group == g {
        assert a in AppsOf(y, g);
        assert t in b.attachments && b.attachments[t] == y.attachments[t];
        assert key in b.resources && b.resources[key].group == g;
      } else {
        assert Foreign(y, g, a);
        assert key in now.resources && now.resources[key].group != g;
      }
    }
  }

  lemma DiscardStaysSound(b: Db, now: Db, g: Id, y: Db)
    requires Sound(b) && Sound(now) && Later(b, now) && g in b.groups && g in now.groups
    requires DiscardTx(now, g, BuildStack(b, g)) == Ok(y)
    ensures Sound(y) && Later(now, y)
  {
    DescentFacts(b, now, g);
    OwnersStay(b, now);
    assert Owned(now) && Tidy(b) && Tidy(now);
    TxStaysSound(b, now, g, y);
  }

  lemma AppsThere(y: Db)
    requires Constraints(y)
    ensures SourcesFit(y)
    ensures forall t :: t in y.attachments ==> y.attachments[t].app in y.apps
    ensures forall e :: e in y.endpoints ==> y.endpoints[e].app in y.apps
  {
  }

  lemma TxStaysSound(b: Db, now: Db, g: Id, y: Db)
    requires g in b.groups && g in now.groups && StillOwner(b, now) && Owned(now) && Tidy(b) && Tidy(now)
    requires SourcesFit(b) && DomainsFit(now) && KeepGroup(b, now)
    requires DiscardTx(now, g, BuildStack(b, g)) == Ok(y)
    ensures Constraints(y) && Owned(y) && Tidy(y) && Later(now, y)
  {
    hide Constraints, DiscardTx, BuildStack, StillOwner, Tidy, SourcesFit, DomainsFit, KeepGroup, Rebuilt, SameOutside,
      ResourcesFrom;
    var r := TxSteps(now, g, BuildStack(b, g), y);
    AppsThere(y);
    DraftRebuilt(b, now, g, r);
    SameTables(b, g, r, y);
    ResourcesFromDraft(b, now, g, r);
    var volumes, endpoints := DraftOutside(b, now, g, y);
    RebuiltOwned(b, now, g, y);
    RebuiltTidy(b, now, g, y);
  }
}
