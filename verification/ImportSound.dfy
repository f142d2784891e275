/** An import leaves the tables sound, and everything that was there before as it was. */
module ImportSound {
  import opened Tables
  import opened DiscardSound
  import opened DraftSteps
  import opened DraftRuns
  import I = ManifestImport
  import M = Manifest
  import R = ManifestRules

  /** The row of an app has the name that the manifest gives it. */
  ghost predicate StoresNames(store: I.Store) {
    forall app: M.AppSpec :: store(app).name == app.basics.name
  }

  // ---- The constraints of the tables ---------------------------------------------------------

  lemma ResourceRowsFit(x: Db, y: Db, g: Id)
    requires ResourceRows(x) && g !in x.groups && y.groups.Keys == x.groups.Keys + {g}
    requires I.Extends(x.resources, y.resources) && I.ResourcesApart(x.resources, y.resources)
    requires forall k :: k in y.resources && k !in x.resources ==> y.resources[k].group == g && !k.0.Volume?
    ensures ResourceRows(y)
  {
  }

  ghost predicate AppsApart(x: map<Id, App>, y: map<Id, App>) {
    forall a, b :: a in y && b in y && a !in x && b !in x && y[a].spec.name == y[b].spec.name ==> a == b
  }

  lemma AppRowsFit(x: Db, y: Db, g: Id)
    requires AppRows(x) && g !in x.groups && y.groups.Keys == x.groups.Keys + {g}
    requires I.Extends(x.apps, y.apps) && AppsApart(x.apps, y.apps)
    requires forall a :: a in y.apps && a !in x.apps ==> y.apps[a].group == g
    ensures AppRows(y)
  {
  }

  ghost predicate SourceThere(y: Db, t: (Kind, Id))
    requires t in y.attachments
  {
    if t.0.Volume? then y.attachments[t].source in y.volumes else (t.0, y.attachments[t].source) in y.resources
  }

  lemma AttachmentRowsFit(x: Db, y: Db)
    requires AttachmentRows(x) && y.volumes == x.volumes
    requires I.Extends(x.apps, y.apps) && I.Extends(x.resources, y.resources) && I.Extends(x.attachments, y.attachments)
    requires I.AttachmentsApart(x.attachments, y.attachments)
    requires forall t :: t in y.attachments && t !in x.attachments ==>
      y.attachments[t].app in y.apps && SourceThere(y, t)
    ensures AttachmentRows(y)
  {
    forall t | t in y.attachments ensures y.attachments[t].app in y.apps && SourceThere(y, t) {
      if t in x.attachments { assert y.attachments[t] == x.attachments[t]; }
    }
  }

  lemma EndpointRowsFit(x: Db, y: Db, base: nat)
    requires EndpointRows(x) && I.Extends(x.apps, y.apps) && I.Extends(x.endpoints, y.endpoints)
    requires I.EndpointsApart(x.endpoints, y.endpoints) && I.DomainsTaken(x.domains, y.domains, y.endpoints, base)
    requires forall e :: e in y.endpoints && e !in x.endpoints ==> y.endpoints[e].app in y.apps
    ensures EndpointRows(y)
  {
    forall d | d in y.domains && y.domains[d].endpoint.Some? ensures y.domains[d].endpoint.value in y.endpoints {
      assert d in x.domains;
    }
  }

  // ---- Ids and groups -----------------------------------------------------------------------------

  lemma OwnersFit(x: Db, y: Db, base: nat)
    requires Owned(x) && I.IdsUnused(x, base) && I.Issued(x, y)
    requires I.Extends(x.resources, y.resources) && I.RowsExtend(I.RowsOf(x), I.RowsOf(y))
    ensures Owned(y)
  {
  }

  lemma IdsStayIssued(x: Db, y: Db, base: nat)
    requires I.IdsUnused(x, base) && I.Issued(x, y)
    requires forall a :: a in y.apps && a !in x.apps ==> base <= a
    requires forall k :: k in y.resources && k !in x.resources ==> base <= k.1
    requires forall t :: t in y.attachments && t !in x.attachments ==> base <= t.1
    requires forall e :: e in y.endpoints && e !in x.endpoints ==> base <= e
    ensures Later(x, y)
  {
  }

  lemma TidyFit(x: Db, y: Db, g: Id)
    requires Tidy(x) && I.Extends(x.apps, y.apps) && I.Extends(x.resources, y.resources)
    requires I.Extends(x.attachments, y.attachments)
    requires forall t :: t in y.attachments && t !in x.attachments ==> NewAttachmentFits(y, g, t)
    ensures Tidy(y)
  {
    forall t | t in y.attachments && !t.0.Volume?
      ensures var key := (t.0, y.attachments[t].source);
        key in y.resources && y.attachments[t].app in y.apps && y.resources[key].group == y.apps[y.attachments[t].app].group
    {
      if t in x.attachments { assert y.attachments[t] == x.attachments[t]; } else { assert NewAttachmentFits(y, g, t); }
    }
  }

  /** The attachment joins an app and a resource of group `g`. */
  ghost predicate NewAttachmentFits(y: Db, g: Id, t: (Kind, Id))
    requires t in y.attachments
  {
    && y.attachments[t].app in y.apps && y.apps[y.attachments[t].app].group == g && SourceThere(y, t)
    && (!t.0.Volume? ==> y.resources[(t.0, y.attachments[t].source)].group == g)
  }

  // ---- What a committed import has made --------------------------------------------------------------

  /** A committed import: the manifest is well-formed and its ids are new. */
  ghost predicate Imports(x: Db, m: M.Manifest, external: I.External, store: I.Store, base: nat, made: I.Imported) {
    && R.ValidManifest(m) && I.IdsUnused(x, base) && StoresNames(store)
    && I.Committed(x, m, external, store, base, made)
  }

  lemma NameStored(rows: I.Rows, names: I.Names, external: I.External, store: I.Store, g: Id, ids: seq<Id>,
                   endpoints: seq<seq<Id>>, apps: seq<M.AppSpec>, j: nat)
    requires I.AppsMade(rows, names, external, store, g, ids, endpoints, apps) && j < |apps| && StoresNames(store)
    ensures ids[j] in rows.apps && rows.apps[ids[j]].spec.name == apps[j].basics.name
  {
    hide I.Linked, I.Mounted, I.AllServed, StoresNames;
    assert I.AppMade(rows, names, external, store, g, ids[j], apps[j], endpoints[j]);
    NameOfStored(store, apps[j]);
  }

  lemma NameOfStored(store: I.Store, app: M.AppSpec)
    requires StoresNames(store)
    ensures store(app).name == app.basics.name
  {
  }

  lemma ListedApart(x: map<Id, App>, y: map<Id, App>, ids: seq<Id>, names: seq<string>)
    requires |ids| == |names| && R.Distinct(names) && forall a :: a in y && a !in x ==> a in ids
    requires forall j :: 0 <= j < |ids| ==> ids[j] in y && y[ids[j]].spec.name == names[j]
    ensures AppsApart(x, y)
  {
  }

  lemma NewAppsApart(db: Db, m: M.Manifest, external: I.External, store: I.Store, base: nat, made: I.Imported)
    requires I.Committed(db, m, external, store, base, made) && R.ValidManifest(m) && StoresNames(store)
    ensures AppsApart(db.apps, made.db.apps)
  {
    hide I.TablesMade, I.Issued, I.RowsNew, I.RowsExtend, I.AppMade, I.DomainListed, StoresNames, AppsApart,
      R.ValidApp, R.ValidVariable, R.ValidSecret, R.ValidConfig, R.Closed;
    forall j | 0 <= j < |m.apps|
      ensures made.apps[j] in made.db.apps && made.db.apps[made.apps[j]].spec.name == M.AppNames(m.apps)[j]
    {
      NameStored(I.RowsOf(made.db), made.names, external, store, made.group, made.apps, made.endpoints, m.apps, j);
    }
    ListedApart(db.apps, made.db.apps, made.apps, M.AppNames(m.apps));
  }

  lemma NamedSource(before: I.Resources, after: I.Resources, g: Id, m: M.Manifest, names: I.Names, base: nat, k: Kind, source: Id)
    requires I.TablesMade(before, after, g, m, names, base) && I.SourceOk(source, k, names, {}) && !k.Volume?
    ensures (k, source) in after && after[(k, source)].group == g
  {
    hide I.TextsMade, I.SecretsMade, I.ResourcesApart, I.Extends;
  }

  lemma NewAttachmentsFit(db: Db, m: M.Manifest, external: I.External, store: I.Store, base: nat, made: I.Imported)
    requires I.Committed(db, m, external, store, base, made)
    ensures forall t :: t in made.db.attachments && t !in db.attachments ==> NewAttachmentFits(made.db, made.group, t)
  {
    hide I.Issued, I.TablesMade, I.AttachmentsApart, I.EndpointsApart, I.AppsMade, I.DomainsTaken, I.DomainListed, I.HeldStay;
    forall t | t in made.db.attachments && t !in db.attachments ensures NewAttachmentFits(made.db, made.group, t) {
      assert I.SourceOk(made.db.attachments[t].source, t.0, made.names, db.volumes);
      if !t.0.Volume? { NamedSource(db.resources, made.db.resources, made.group, m, made.names, base, t.0, made.db.attachments[t].source); }
    }
  }

  /** Every other row is as it was. */
  lemma RowsStay(db: Db, m: M.Manifest, external: I.External, store: I.Store, base: nat, made: I.Imported)
    requires I.Committed(db, m, external, store, base, made)
    ensures I.Extends(db.apps, made.db.apps) && I.Extends(db.resources, made.db.resources)
    ensures I.Extends(db.attachments, made.db.attachments) && I.Extends(db.endpoints, made.db.endpoints)
    ensures made.group !in db.groups && made.db.groups.Keys == db.groups.Keys + {made.group}
    ensures made.db.volumes == db.volumes
  {
    hide I.Issued, I.TextsMade, I.SecretsMade, I.NamesNew, I.ResourcesApart, I.RowsNew, I.AppsMade, I.DomainListed,
      I.HeldStay, I.Extends;
  }

  lemma NewRowsFit(db: Db, m: M.Manifest, external: I.External, store: I.Store, base: nat, made: I.Imported)
    requires I.Committed(db, m, external, store, base, made)
    ensures I.ResourcesApart(db.resources, made.db.resources)
    ensures I.AttachmentsApart(db.attachments, made.db.attachments) && I.EndpointsApart(db.endpoints, made.db.endpoints)
    ensures I.DomainsTaken(db.domains, made.db.domains, made.db.endpoints, base)
    ensures forall k :: k in made.db.resources && k !in db.resources ==>
      made.db.resources[k].group == made.group && !k.0.Volume? && base <= k.1
    ensures forall a :: a in made.db.apps && a !in db.apps ==> made.db.apps[a].group == made.group && base <= a
    ensures forall e :: e in made.db.endpoints && e !in db.endpoints ==>
      made.db.endpoints[e].app in made.db.apps && base <= e
    ensures forall t :: t in made.db.attachments && t !in db.attachments ==> base <= t.1
  {
    hide I.Issued, I.TextsMade, I.SecretsMade, I.NamesNew, I.AppsMade, I.DomainListed, I.HeldStay, I.Extends, I.SourceOk,
      I.ResourcesApart, I.AttachmentsApart, I.EndpointsApart, I.DomainsTaken;
  }

  lemma ImportFits(db: Db, m: M.Manifest, external: I.External, store: I.Store, base: nat, made: I.Imported)
    requires Sound(db) && R.ValidManifest(m) && I.IdsUnused(db, base) && StoresNames(store)
    requires I.Committed(db, m, external, store, base, made)
    ensures Constraints(made.db) && Tidy(made.db)
  {
    hide ResourceRows, AppRows, AttachmentRows, EndpointRows, Tidy, Owned, R.ValidManifest, I.IdsUnused, I.Committed,
      I.Extends, I.ResourcesApart, I.AttachmentsApart, I.EndpointsApart, I.DomainsTaken, AppsApart;
    var y, g := made.db, made.group;
    RowsStay(db, m, external, store, base, made);
    NewRowsFit(db, m, external, store, base, made);
    NewAppsApart(db, m, external, store, base, made);
    NewAttachmentsFit(db, m, external, store, base, made);
    ResourceRowsFit(db, y, g);
    AppRowsFit(db, y, g);
    AttachmentRowsFit(db, y);
    EndpointRowsFit(db, y, base);
    TidyFit(db, y, g);
  }

  /** An import keeps the constraints and owners, and ids stay with what they were issued for. */
  lemma ImportStaysSound(db: Db, m: M.Manifest, external: I.External, store: I.Store, base: nat, made: I.Imported)
    requires Sound(db) && Imports(db, m, external, store, base, made)
    ensures Sound(made.db) && Later(db, made.db)
  {
    ImportFits(db, m, external, store, base, made);
    RowsStay(db, m, external, store, base, made);
    NewRowsFit(db, m, external, store, base, made);
    CommittedIsIssued(db, m, external, store, base, made);
    hide Constraints, Tidy, Owned, Later, R.ValidManifest, I.IdsUnused, I.Committed, I.Extends, I.ResourcesApart,
      I.AttachmentsApart, I.EndpointsApart, I.DomainsTaken, I.Issued;
    OwnersFit(db, made.db, base);
    IdsStayIssued(db, made.db, base);
  }

  lemma CommittedIsIssued(db: Db, m: M.Manifest, external: I.External, store: I.Store, base: nat, made: I.Imported)
    requires I.Committed(db, m, external, store, base, made)
    ensures I.Issued(db, made.db) && I.RowsExtend(I.RowsOf(db), I.RowsOf(made.db))
  {
    hide I.Issued, I.TablesMade, I.RowsNew, I.AppsMade, I.DomainListed, I.RowsExtend;
  }

  /** The group it adds has not been deployed. */
  lemma ImportAddsOne(db: Db, m: M.Manifest, external: I.External, store: I.Store, base: nat, made: I.Imported)
    requires Imports(db, m, external, store, base, made)
    ensures forall h :: h in made.db.groups && h !in db.groups ==> made.db.groups[h].deployed.None?
    ensures forall h :: h in db.groups ==> h in made.db.groups && made.db.groups[h] == db.groups[h]
  {
    hide I.TablesMade, I.RowsNew, I.RowsExtend, I.AppsMade, I.DomainListed, I.Issued, I.IdsUnused, R.ValidManifest, StoresNames;
  }

  /** It marks no group and changes nothing that a deployment of another group would run. */
  lemma ImportIsQuiet(db: Db, m: M.Manifest, external: I.External, store: I.Store, base: nat, made: I.Imported)
    requires SourcesFit(db) && Imports(db, m, external, store, base, made)
    ensures Quiet(db, made.db)
  {
    hide I.Committed, I.IdsUnused, R.ValidManifest, StoresNames, ContentOf;
    ImportAddsOne(db, m, external, store, base, made);
    forall h | h in db.groups ensures ContentOf(made.db, h) == ContentOf(db, h) {
      I.ImportKeepsOtherContent(db, m, external, store, base, made, h);
    }
  }

  lemma ResourcesStay(db: Db, m: M.Manifest, external: I.External, store: I.Store, base: nat, made: I.Imported)
    requires Imports(db, m, external, store, base, made)
    ensures forall key :: key in db.resources ==> key in made.db.resources && made.db.resources[key] == db.resources[key]
  {
    hide I.Committed, I.IdsUnused, R.ValidManifest, StoresNames;
    RowsStay(db, m, external, store, base, made);
  }

  lemma SoundFits(db: Db)
    requires Sound(db)
    ensures SourcesFit(db)
  {
    ConstraintsFit(db);
  }

  /** Every committed import is a step of the runs. */
  lemma ImportIsAStep(db: Db, m: M.Manifest, external: I.External, store: I.Store, base: nat, made: I.Imported)
    requires Sound(db) && Imports(db, m, external, store, base, made)
    ensures GroupsAdded(db, made.db)
  {
    hide Imports, Sound, Later, SourcesFit, Quiet;
    SoundFits(db);
    ImportStaysSound(db, m, external, store, base, made);
    ImportAddsOne(db, m, external, store, base, made);
    ResourcesStay(db, m, external, store, base, made);
    ImportIsQuiet(db, m, external, store, base, made);
  }
}
