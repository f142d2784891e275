/**
 The stored configuration also shows the names of variables and configs. A rename alone does not
 mark a group, so with names the revision is a version stamp under one more condition.
 */
module DraftNames {
  import opened Prelude
  import opened Tables
  import opened Discard
  import opened DiscardTheorems
  import opened OtherGroups
  import opened DiscardSound
  import opened Drafts
  import opened DraftSteps
  import opened DraftStamp
  import opened DraftContent
  import opened DraftRequests
  import opened DraftRuns

  /** A configuration without runtime states. */
  function Stateless(s: Stack): Stack {
    Stack(Running, seq(|s.apps|, i requires 0 <= i < |s.apps| => s.apps[i].(runtimeState := Running)))
  }

  /** The names that the attachments of live apps show. */
  function NamesShown(apps: map<Id, App>, attachments: map<(Kind, Id), Attachment>,
                      resources: map<(Kind, Id), Resource>, g: Id): map<(Kind, Id), string> {
    map t | t in attachments && LiveIn(apps, g, attachments[t].app) :: PayloadIn(resources, t.0, attachments[t].source).0
  }

  function NamesOf(db: Db, g: Id): map<(Kind, Id), string> {
    NamesShown(db.apps, db.attachments, db.resources, g)
  }

  // ---- Content and names are the configuration ---------------------------------------------------

  lemma EntriesWithNames(x: Db, y: Db, a: Id, k: Kind)
    requires SameAttached(x, y, a)
    requires forall t :: t in x.attachments && x.attachments[t].app == a ==>
      Payload(y, t.0, x.attachments[t].source).0 == Payload(x, t.0, x.attachments[t].source).0
    ensures AttEntries(x, a, k) == AttEntries(y, a, k)
  {
    hide Payload;
    AttachedIds(x, a, k);
    AttachedIds(y, a, k);
    assert AttachmentsOf(x, a, k) == AttachmentsOf(y, a, k);
    var ids := Ordered(AttachmentsOf(x, a, k));
    forall i | 0 <= i < |ids| ensures AttEntries(x, a, k)[i] == AttEntries(y, a, k)[i] {
      assert ids[i] in ids;
      assert (k, ids[i]) in x.attachments && x.attachments[(k, ids[i])].app == a;
    }
  }

  lemma AttachedIds(x: Db, a: Id, k: Kind)
    ensures forall id :: id in AttachmentsOf(x, a, k) <==> (k, id) in x.attachments && x.attachments[(k, id)].app == a
  {
    forall id ensures id in AttachmentsOf(x, a, k) <==> (k, id) in x.attachments && x.attachments[(k, id)].app == a {
      if id in AttachmentsOf(x, a, k) {
        var t :| t in x.attachments && t.0 == k && x.attachments[t].app == a && t.1 == id;
        assert t == (k, id);
      }
      if (k, id) in x.attachments && x.attachments[(k, id)].app == a { assert (k, id).1 == id; }
    }
  }

  lemma SameNamedEntry(x: Db, y: Db, g: Id, a: Id)
    requires ContentOf(x, g) == ContentOf(y, g) && NamesOf(x, g) == NamesOf(y, g) && Live(x, g, a) && Live(y, g, a)
    ensures AppEntryOf(x, a).(runtimeState := Running) == AppEntryOf(y, a).(runtimeState := Running)
  {
    AttachedInContent(x, y, g, a);
    ServedInContent(x, y, g, a);
    assert ContentOf(x, g).apps[a] == ContentOf(y, g).apps[a];
    forall t | t in x.attachments && x.attachments[t].app == a
      ensures Payload(y, t.0, x.attachments[t].source).0 == Payload(x, t.0, x.attachments[t].source).0
    {
      assert t in NamesOf(x, g) && NamesOf(x, g)[t] == NamesOf(y, g)[t];
    }
    hide ContentOf, NamesOf, Payload;
    EntriesWithNames(x, y, a, Variable);
    EntriesWithNames(x, y, a, Secret);
    EntriesWithNames(x, y, a, Config);
    EntriesWithNames(x, y, a, Volume);
    SameEndpointEntries(x, y, a);
  }

  lemma SameNamesSameStack(x: Db, y: Db, g: Id)
    requires g in x.groups && g in y.groups && ContentOf(x, g) == ContentOf(y, g) && NamesOf(x, g) == NamesOf(y, g)
    ensures Stateless(BuildStack(x, g)) == Stateless(BuildStack(y, g))
  {
    forall a ensures a in LiveApps(x, g) <==> a in LiveApps(y, g) {
      assert a in LiveApps(x, g) <==> a in ContentOf(x, g).apps;
      assert a in LiveApps(y, g) <==> a in ContentOf(y, g).apps;
    }
    assert LiveApps(x, g) == LiveApps(y, g);
    var ids := Ordered(LiveApps(x, g));
    forall i | 0 <= i < |ids|
      ensures Stateless(BuildStack(x, g)).apps[i] == Stateless(BuildStack(y, g)).apps[i]
    {
      assert ids[i] in ids;
      SameNamedEntry(x, y, g, ids[i]);
    }
  }

  /** The configuration of `y` has everything that a live app of `x` shows. */
  lemma ShownInStack(x: Db, y: Db, g: Id, a: Id)
    requires g in x.groups && g in y.groups && Stateless(BuildStack(x, g)) == Stateless(BuildStack(y, g)) && Live(x, g, a)
    ensures Live(y, g, a) && AppEntryOf(x, a).(runtimeState := Running) == AppEntryOf(y, a).(runtimeState := Running)
  {
    hide AppEntryOf;
    var xs, ys := BuildStack(x, g).apps, BuildStack(y, g).apps;
    var p, q := Ordered(LiveApps(x, g)), Ordered(LiveApps(y, g));
    assert a in LiveApps(x, g);
    var i :| 0 <= i < |p| && p[i] == a;
    assert Stateless(BuildStack(x, g)).apps[i] == Stateless(BuildStack(y, g)).apps[i];
    assert q[i] in q;
    EntryId(x, a);
    EntryId(y, q[i]);
  }

  lemma EntryId(x: Db, a: Id)
    requires a in x.apps
    ensures AppEntryOf(x, a).id == a
  {
  }

  function EntriesOfKind(e: AppEntry, k: Kind): seq<AttEntry> {
    match k
    case Variable => e.variables
    case Config => e.configs
    case Secret => e.secrets
    case Volume => e.volumes
  }

  lemma AttachmentInStack(x: Db, y: Db, g: Id, t: (Kind, Id))
    requires g in x.groups && g in y.groups && Stateless(BuildStack(x, g)) == Stateless(BuildStack(y, g))
    requires t in x.attachments && Live(x, g, x.attachments[t].app)
    ensures t in y.attachments && y.attachments[t] == x.attachments[t] && Live(y, g, x.attachments[t].app)
    ensures Payload(y, t.0, x.attachments[t].source) == Payload(x, t.0, x.attachments[t].source)
  {
    var a := x.attachments[t].app;
    ShownInStack(x, y, g, a);
    hide BuildStack, Stateless;
    assert EntriesOfKind(AppEntryOf(x, a), t.0) == EntriesOfKind(AppEntryOf(y, a), t.0);
    assert AttEntries(x, a, t.0) == AttEntries(y, a, t.0);
    hide AppEntryOf, Payload;
    AttachedIds(x, a, t.0);
    AttachedIds(y, a, t.0);
    var p, q := Ordered(AttachmentsOf(x, a, t.0)), Ordered(AttachmentsOf(y, a, t.0));
    var i :| 0 <= i < |p| && p[i] == t.1;
    assert AttEntries(x, a, t.0)[i] == AttEntries(y, a, t.0)[i];
    assert q[i] in q;
    assert t == (t.0, t.1);
  }

  lemma EndpointInStack(x: Db, y: Db, g: Id, e: Id)
    requires g in x.groups && g in y.groups && Stateless(BuildStack(x, g)) == Stateless(BuildStack(y, g))
    requires e in x.endpoints && Live(x, g, x.endpoints[e].app)
    ensures e in y.endpoints && y.endpoints[e] == x.endpoints[e] && Live(y, g, x.endpoints[e].app)
    ensures DomainsOf(x, e) == DomainsOf(y, e)
  {
    var a := x.endpoints[e].app;
    ShownInStack(x, y, g, a);
    hide BuildStack, Stateless;
    assert EndpointEntries(x, a) == EndpointEntries(y, a);
    var p, q := Ordered(EndpointsOf(x, a)), Ordered(EndpointsOf(y, a));
    assert e in EndpointsOf(x, a);
    var i :| 0 <= i < |p| && p[i] == e;
    assert EndpointEntries(x, a)[i] == EndpointEntries(y, a)[i];
    assert q[i] in q;
    forall d ensures d in DomainsOf(x, e) <==> d in DomainsOf(y, e) {
      assert d in DomainsOf(x, e) <==> d in Ordered(DomainsOf(x, e));
      assert d in DomainsOf(y, e) <==> d in Ordered(DomainsOf(y, e));
    }
  }

  /** What a live app shows in `x` is in the content and among the names of `y`. */
  lemma StackShowsAll(x: Db, y: Db, g: Id)
    requires g in x.groups && g in y.groups && Stateless(BuildStack(x, g)) == Stateless(BuildStack(y, g))
    ensures forall a :: a in ContentOf(x, g).apps ==> a in ContentOf(y, g).apps && ContentOf(y, g).apps[a] == ContentOf(x, g).apps[a]
    ensures forall t :: t in ContentOf(x, g).attachments ==>
      t in ContentOf(y, g).attachments && ContentOf(y, g).attachments[t] == ContentOf(x, g).attachments[t]
    ensures forall e :: e in ContentOf(x, g).endpoints ==>
      e in ContentOf(y, g).endpoints && ContentOf(y, g).endpoints[e] == ContentOf(x, g).endpoints[e]
    ensures forall d :: d in ContentOf(x, g).domains ==>
      d in ContentOf(y, g).domains && ContentOf(y, g).domains[d] == ContentOf(x, g).domains[d]
    ensures forall t :: t in NamesOf(x, g) ==> t in NamesOf(y, g) && NamesOf(y, g)[t] == NamesOf(x, g)[t]
  {
    hide BuildStack, Stateless;
    forall a | a in ContentOf(x, g).apps
      ensures a in ContentOf(y, g).apps && ContentOf(y, g).apps[a] == ContentOf(x, g).apps[a]
    {
      ShownInStack(x, y, g, a);
    }
    forall t | t in NamesOf(x, g)
      ensures t in NamesOf(y, g) && NamesOf(y, g)[t] == NamesOf(x, g)[t]
      ensures t in ContentOf(y, g).attachments && ContentOf(y, g).attachments[t] == ContentOf(x, g).attachments[t]
    {
      AttachmentInStack(x, y, g, t);
    }
    forall e | e in ContentOf(x, g).endpoints
      ensures e in ContentOf(y, g).endpoints && ContentOf(y, g).endpoints[e] == ContentOf(x, g).endpoints[e]
    {
      EndpointInStack(x, y, g, e);
    }
    forall d | d in ContentOf(x, g).domains
      ensures d in ContentOf(y, g).domains && ContentOf(y, g).domains[d] == ContentOf(x, g).domains[d]
    {
      EndpointInStack(x, y, g, x.domains[d].endpoint.value);
      assert d in DomainsOf(x, x.domains[d].endpoint.value);
    }
  }

  /** Two states give a group the same configuration, up to runtime states, exactly if its content
      and the names it shows are the same. */
  lemma SameConfigurationExactly(x: Db, y: Db, g: Id)
    requires g in x.groups && g in y.groups
    ensures Stateless(BuildStack(x, g)) == Stateless(BuildStack(y, g)) <==>
      ContentOf(x, g) == ContentOf(y, g) && NamesOf(x, g) == NamesOf(y, g)
  {
    hide ContentOf, NamesOf, BuildStack, Stateless;
    if Stateless(BuildStack(x, g)) == Stateless(BuildStack(y, g)) {
      StackShowsAll(x, y, g);
      StackShowsAll(y, x, g);
      SameMaps(ContentOf(x, g).apps, ContentOf(y, g).apps);
      SameMaps(ContentOf(x, g).attachments, ContentOf(y, g).attachments);
      SameMaps(ContentOf(x, g).endpoints, ContentOf(y, g).endpoints);
      SameMaps(ContentOf(x, g).domains, ContentOf(y, g).domains);
      SameMaps(NamesOf(x, g), NamesOf(y, g));
    } else if ContentOf(x, g) == ContentOf(y, g) && NamesOf(x, g) == NamesOf(y, g) {
      SameNamesSameStack(x, y, g);
    }
  }

  lemma SameMaps<K, V>(m: map<K, V>, n: map<K, V>)
    requires forall k :: k in m ==> k in n && n[k] == m[k]
    requires forall k :: k in n ==> k in m
    ensures m == n
  {
  }

  // ---- One request -----------------------------------------------------------------------------------

  /** The revision does not decrease, and if it stays so does the configuration, names included. */
  ghost predicate NamedFaithful(x: Db, y: Db, h: Id) {
    && h in x.groups && h in y.groups && x.groups[h].revision <= y.groups[h].revision
    && (x.groups[h].revision == y.groups[h].revision ==> Stateless(BuildStack(y, h)) == Stateless(BuildStack(x, h)))
  }

  ghost predicate AllNamedFaithful(x: Db, y: Db) {
    forall h :: h in x.groups ==> NamedFaithful(x, y, h)
  }

  /** A request keeps the names of the groups whose revision stays. */
  ghost predicate NamesKept(x: Db, y: Db) {
    forall h :: h in x.groups && h in y.groups && x.groups[h].revision == y.groups[h].revision ==> NamesOf(y, h) == NamesOf(x, h)
  }

  lemma FaithfulWithNames(x: Db, y: Db)
    ensures AllNamedFaithful(x, y) <==> AllFaithful(x, y) && NamesKept(x, y)
  {
    hide ContentOf, NamesOf, BuildStack, Stateless;
    forall h | h in x.groups && h in y.groups
      ensures NamedFaithful(x, y, h) <==>
        (Faithful(x, y, h) && (x.groups[h].revision == y.groups[h].revision ==> NamesOf(y, h) == NamesOf(x, h)))
    {
      SameConfigurationExactly(y, x, h);
    }
  }

  /** An update that does not mark the group leaves the name, or no deployment shows it. */
  predicate KeepsName(seen: Db, db: Db, r: Request) {
    r.UpdateResource? && ResourceIn(seen, r.group, r.kind, r.id) && (r.kind, r.id) in db.resources ==>
      || (Changes(r.kind, seen.resources[(r.kind, r.id)], r.value) && Attached(seen, r.kind, r.id))
      || r.kind.Secret? || !LiveAttached(db, r.group, r.kind, r.id)
      || r.rename.None? || r.rename.value == db.resources[(r.kind, r.id)].name
  }

  /** A resource that an attachment of a live app of `h` uses. */
  predicate UsedBy(db: Db, h: Id, key: (Kind, Id)) {
    LiveAttached(db, h, key.0, key.1)
  }

  lemma NameFollows(x: Db, y: Db, h: Id, t: (Kind, Id))
    requires ContentOf(x, h).attachments == ContentOf(y, h).attachments
    requires forall key: (Kind, Id) :: UsedBy(x, h, key) ==>
      PayloadIn(y.resources, key.0, key.1).0 == PayloadIn(x.resources, key.0, key.1).0
    ensures t in NamesOf(x, h) <==> t in NamesOf(y, h)
    ensures t in NamesOf(x, h) ==> NamesOf(y, h)[t] == NamesOf(x, h)[t]
  {
    hide PayloadIn;
    var p, q := ContentOf(x, h).attachments, ContentOf(y, h).attachments;
    assert t in NamesOf(x, h) <==> t in p;
    assert t in NamesOf(y, h) <==> t in q;
    if t in p {
      assert p[t].0 == x.attachments[t] && q[t].0 == y.attachments[t];
      assert UsedBy(x, h, (t.0, x.attachments[t].source));
    }
  }

  lemma NamesFollow(x: Db, y: Db, h: Id)
    requires ContentOf(x, h) == ContentOf(y, h)
    requires forall key: (Kind, Id) :: UsedBy(x, h, key) ==>
      PayloadIn(y.resources, key.0, key.1).0 == PayloadIn(x.resources, key.0, key.1).0
    ensures NamesOf(x, h) == NamesOf(y, h)
  {
    hide PayloadIn, ContentOf, NamesOf, UsedBy;
    forall t ensures t in NamesOf(x, h) <==> t in NamesOf(y, h)
      ensures t in NamesOf(x, h) ==> NamesOf(y, h)[t] == NamesOf(x, h)[t]
    {
      NameFollows(x, y, h, t);
    }
  }

  /** Sources of attachments exist before and after. */
  lemma UsedExists(x: Db, h: Id, key: (Kind, Id))
    requires SourcesFit(x) && UsedBy(x, h, key) && !key.0.Volume?
    ensures key in x.resources
  {
  }

  lemma StillUsed(x: Db, y: Db, h: Id, key: (Kind, Id))
    requires ContentOf(x, h) == ContentOf(y, h) && UsedBy(x, h, key)
    ensures UsedBy(y, h, key)
  {
    var t :| t in x.attachments && t.0 == key.0 && x.attachments[t].source == key.1 && Live(x, h, x.attachments[t].app);
    assert t in ContentOf(x, h).attachments && ContentOf(x, h).attachments[t] == ContentOf(y, h).attachments[t];
  }

  /** Resources that are there before and after have the same name. */
  ghost predicate SameNames(x: Db, y: Db) {
    forall key :: key in x.resources && key in y.resources ==> y.resources[key].name == x.resources[key].name
  }

  lemma SameNamesShown(x: Db, y: Db, h: Id)
    requires ContentOf(x, h) == ContentOf(y, h) && SourcesFit(x) && SourcesFit(y)
    requires forall key :: key in x.resources && key in y.resources && UsedBy(x, h, key) ==>
      y.resources[key].name == x.resources[key].name
    ensures NamesOf(x, h) == NamesOf(y, h)
  {
    hide ContentOf, NamesOf;
    forall key: (Kind, Id) | UsedBy(x, h, key)
      ensures PayloadIn(y.resources, key.0, key.1).0 == PayloadIn(x.resources, key.0, key.1).0
    {
      if !key.0.Volume? {
        UsedExists(x, h, key);
        StillUsed(x, y, h, key);
        UsedExists(y, h, key);
      }
    }
    NamesFollow(x, y, h);
  }

  lemma CreateResourceNames(seen: Db, db: Db, g: Id, k: Kind, id: Id, name: string, content: string, y: Db)
    requires CreatedResource(seen, db, g, k, id, name, content) == Ok(y) && Owned(db)
    ensures SameNames(db, y)
  {
    hide Constraints;
  }

  lemma DeleteResourceNames(seen: Db, db: Db, g: Id, k: Kind, id: Id, y: Db)
    requires DeletedResource(seen, db, g, k, id) == Ok(y)
    ensures SameNames(db, y)
  {
    hide Constraints;
  }

  lemma AttachNames(seen: Db, db: Db, g: Id, k: Kind, id: Id, row: Attachment, y: Db)
    requires AttachedTo(seen, db, g, k, id, row) == Ok(y)
    ensures y.resources == db.resources
  {
    hide Constraints;
  }

  lemma DetachNames(seen: Db, db: Db, g: Id, k: Kind, a: Id, id: Id, y: Db)
    requires DetachedFrom(seen, db, g, k, a, id) == Ok(y)
    ensures y.resources == db.resources
  {
    hide Constraints;
  }

  lemma SameTableSameNames(x: Db, y: Db)
    requires y.resources == x.resources
    ensures SameNames(x, y)
  {
  }

  lemma ResourceNamesStay(seen: Db, db: Db, r: Request, y: Db)
    requires Apply(seen, db, r) == Ok(y) && AboutResources(r) && !r.UpdateResource? && Owned(db)
    ensures SameNames(db, y)
  {
    hide *;
    ResourceRequestIs(seen, db, r);
    match r
    case CreateResource(g, k, id, name, content) => CreateResourceNames(seen, db, g, k, id, name, content, y);
    case DeleteResource(g, k, id) => DeleteResourceNames(seen, db, g, k, id, y);
    case Attach(g, k, id, row) =>
      AttachNames(seen, db, g, k, id, row, y);
      SameTableSameNames(db, y);
    case Detach(g, k, a, id) =>
      DetachNames(seen, db, g, k, a, id, y);
      SameTableSameNames(db, y);
  }

  lemma CreateAppNames(seen: Db, db: Db, g: Id, a: Id, spec: Spec, state: RuntimeState, y: Db)
    requires CreatedApp(seen, db, g, a, spec, state) == Ok(y)
    ensures y.resources == db.resources
  {
    hide Constraints;
  }

  lemma UpdateAppNames(seen: Db, db: Db, g: Id, a: Id, change: Spec -> Spec, state: Option<RuntimeState>, y: Db)
    requires UpdatedApp(seen, db, g, a, change, state) == Ok(y)
    ensures y.resources == db.resources
  {
    hide Constraints;
  }

  lemma MarkForDeletionNames(seen: Db, db: Db, g: Id, a: Id, y: Db)
    requires MarkedForDeletion(seen, db, g, a) == Ok(y)
    ensures y.resources == db.resources
  {
    hide Constraints;
  }

  lemma SetEnvironmentNames(seen: Db, db: Db, g: Id, a: Id, merge: Option<map<string, EnvValue> -> map<string, EnvValue>>, y: Db)
    requires EnvironmentSet(seen, db, g, a, merge) == Ok(y)
    ensures y.resources == db.resources
  {
    hide Constraints;
  }

  lemma SetAppStateNames(db: Db, g: Id, a: Id, state: RuntimeState, y: Db)
    requires AppStateSet(db, g, a, state) == Ok(y)
    ensures y.resources == db.resources
  {
    hide Constraints;
  }

  lemma AppNamesStay(seen: Db, db: Db, r: Request, y: Db)
    requires Apply(seen, db, r) == Ok(y) && AboutApps(r)
    ensures y.resources == db.resources
  {
    hide *;
    AppRequestIs(seen, db, r);
    match r
    case CreateApp(g, a, spec, state) => CreateAppNames(seen, db, g, a, spec, state, y);
    case UpdateApp(g, a, change, state) => UpdateAppNames(seen, db, g, a, change, state, y);
    case MarkForDeletion(g, a) => MarkForDeletionNames(seen, db, g, a, y);
    case SetEnvironment(g, a, merge) => SetEnvironmentNames(seen, db, g, a, merge, y);
    case SetAppState(g, a, state) => SetAppStateNames(db, g, a, state, y);
  }

  lemma CreateEndpointNames(seen: Db, db: Db, g: Id, id: Id, row: Endpoint, y: Db)
    requires CreatedEndpoint(seen, db, g, id, row) == Ok(y)
    ensures y.resources == db.resources
  {
    hide Constraints;
  }

  lemma UpdateEndpointNames(seen: Db, db: Db, g: Id, a: Id, id: Id, edit: Endpoint -> Endpoint, y: Db)
    requires UpdatedEndpoint(seen, db, g, a, id, edit) == Ok(y)
    ensures y.resources == db.resources
  {
    hide Constraints;
  }

  lemma DeleteEndpointNames(seen: Db, db: Db, g: Id, a: Id, id: Id, y: Db)
    requires DeletedEndpoint(seen, db, g, a, id) == Ok(y)
    ensures y.resources == db.resources
  {
    hide Constraints;
  }

  lemma EndpointNamesStay(seen: Db, db: Db, r: Request, y: Db)
    requires Apply(seen, db, r) == Ok(y) && AboutEndpoints(r)
    ensures y.resources == db.resources
  {
    hide *;
    EndpointRequestIs(seen, db, r);
    match r
    case CreateEndpoint(g, id, row) => CreateEndpointNames(seen, db, g, id, row, y);
    case UpdateEndpoint(g, a, id, edit) => UpdateEndpointNames(seen, db, g, a, id, edit, y);
    case DeleteEndpoint(g, a, id) => DeleteEndpointNames(seen, db, g, a, id, y);
  }

  lemma CreateDomainNames(seen: Db, db: Db, d: Id, hostname: string, holder: Option<Id>, y: Db)
    requires CreatedDomain(seen, db, d, hostname, holder) == Ok(y)
    ensures y.resources == db.resources
  {
    hide Constraints, HolderOf;
  }

  lemma MoveDomainNames(seen: Db, db: Db, d: Id, to: Option<Option<Id>>, y: Db)
    requires MovedDomain(seen, db, d, to) == Ok(y)
    ensures y.resources == db.resources
  {
    hide Constraints, MovedDomainRows;
    MoveDomainStep(seen, db, d, to, y);
  }

  lemma DeleteDomainNames(seen: Db, db: Db, d: Id, y: Db)
    requires DeletedDomain(seen, db, d) == Ok(y)
    ensures y.resources == db.resources
  {
    hide Constraints, HolderOf;
  }

  lemma DomainNamesStay(seen: Db, db: Db, r: Request, y: Db)
    requires Apply(seen, db, r) == Ok(y) && AboutDomains(r)
    ensures y.resources == db.resources
  {
    hide *;
    DomainRequestIs(seen, db, r);
    match r
    case CreateDomain(d, hostname, holder) => CreateDomainNames(seen, db, d, hostname, holder, y);
    case MoveDomain(d, to) => MoveDomainNames(seen, db, d, to, y);
    case DeleteDomain(d) => DeleteDomainNames(seen, db, d, y);
  }

  lemma DeleteGroupNames(seen: Db, db: Db, g: Id, y: Db)
    requires DeletedGroup(seen, db, g) == Ok(y)
    ensures y.resources == db.resources
  {
    hide Constraints;
  }

  lemma AcceptNames(seen: Db, db: Db, g: Id, force: bool, y: Db)
    requires Accepted(seen, db, g, force) == Ok(y)
    ensures y.resources == db.resources
  {
    hide Constraints;
  }

  lemma EndNames(db: Db, g: Id, outcome: Option<Finished>, y: Db)
    requires Ended(db, g, outcome) == Ok(y)
    ensures y.resources == db.resources
  {
    hide Constraints;
  }

  lemma CreateGroupNames(db: Db, g: Id, state: RuntimeState, y: Db)
    requires CreatedGroup(db, g, state) == Ok(y)
    ensures y.resources == db.resources
  {
    hide Constraints;
  }

  lemma SetGroupStateNames(db: Db, g: Id, state: RuntimeState, y: Db)
    requires GroupStateSet(db, g, state) == Ok(y)
    ensures y.resources == db.resources
  {
    hide Constraints;
  }

  lemma GroupNamesStay(seen: Db, db: Db, r: Request, y: Db)
    requires Apply(seen, db, r) == Ok(y) && AboutGroups(r)
    ensures y.resources == db.resources
  {
    hide *;
    GroupRequestIs(seen, db, r);
    match r
    case CreateGroup(g, state) => CreateGroupNames(db, g, state, y);
    case DeleteGroup(g) => DeleteGroupNames(seen, db, g, y);
    case SetGroupState(g, state) => SetGroupStateNames(db, g, state, y);
    case AcceptDeployment(g, force) => AcceptNames(seen, db, g, force, y);
  }

  lemma NamesStay(seen: Db, db: Db, r: Request, y: Db)
    requires Apply(seen, db, r) == Ok(y) && !r.UpdateResource? && !r.DiscardDraft? && Owned(db)
    ensures SameNames(db, y)
  {
    hide Apply, SameNames, Owned;
    if AboutResources(r) {
      ResourceNamesStay(seen, db, r, y);
    } else {
      if AboutApps(r) { AppNamesStay(seen, db, r, y); }
      else if AboutEndpoints(r) { EndpointNamesStay(seen, db, r, y); }
      else if AboutDomains(r) { DomainNamesStay(seen, db, r, y); }
      else if AboutGroups(r) { GroupNamesStay(seen, db, r, y); }
      else {
        EndOrDiscardIs(seen, db, r);
        EndNames(db, r.group, r.outcome, y);
      }
      SameTableSameNames(db, y);
    }
  }

  lemma SameNamesKept(x: Db, y: Db)
    requires AllFaithful(x, y) && SameNames(x, y) && SourcesFit(x) && SourcesFit(y)
    ensures NamesKept(x, y)
  {
    hide ContentOf, NamesOf, SourcesFit;
    forall h | h in x.groups && h in y.groups && x.groups[h].revision == y.groups[h].revision
      ensures NamesOf(y, h) == NamesOf(x, h)
    {
      assert Faithful(x, y, h);
      SameNamesShown(x, y, h);
    }
  }

  // ---- Updates and discards ---------------------------------------------------------------------------

  lemma UpdateSteps(seen: Db, db: Db, g: Id, k: Kind, id: Id, rename: Option<string>, value: Option<string>, y: Db)
    requires UpdatedResource(seen, db, g, k, id, rename, value) == Ok(y)
    ensures ResourceIn(seen, g, k, id) && (k, id) in db.resources
    ensures var row := UpdatedRow(k, seen.resources[(k, id)], db.resources[(k, id)], rename, value);
      var w := db.(resources := db.resources[(k, id) := row]);
      if Changes(k, seen.resources[(k, id)], value) && Attached(seen, k, id)
      then g in db.groups && y == Marked(w, g) else y == w
  {
    hide Constraints;
  }

  /** Only the group of a resource shows its name. */
  lemma NameAtHome(x: Db, y: Db, g: Id, k: Kind, id: Id, h: Id)
    requires Tidy(x) && SourcesFit(x) && SourcesFit(y) && ResourceIn(x, g, k, id) && !k.Volume? && h != g
    requires ContentOf(x, h) == ContentOf(y, h)
    requires forall key :: key in x.resources && key in y.resources && key != (k, id) ==>
      y.resources[key].name == x.resources[key].name
    ensures NamesOf(x, h) == NamesOf(y, h)
  {
    if UsedBy(x, h, (k, id)) { UsedAtHome(x, g, h, k, id); }
    hide Tidy, ContentOf, NamesOf, UsedBy, SourcesFit;
    SameNamesShown(x, y, h);
  }

  /** The group itself shows the name if a live app uses the resource, unless it is a secret. */
  lemma NameHereExactly(x: Db, y: Db, g: Id, k: Kind, id: Id, row: Resource)
    requires (k, id) in x.resources && !k.Volume? && y == x.(resources := x.resources[(k, id) := row])
    ensures NamesOf(x, g) == NamesOf(y, g) <==>
      k.Secret? || !LiveAttached(x, g, k, id) || row.name == x.resources[(k, id)].name
  {
    if k.Secret? || !LiveAttached(x, g, k, id) || row.name == x.resources[(k, id)].name {
      forall t | t in NamesOf(x, g) ensures NamesOf(y, g)[t] == NamesOf(x, g)[t] {
        if (t.0, x.attachments[t].source) == (k, id) { assert LiveAttached(x, g, k, id); }
      }
      assert NamesOf(x, g) == NamesOf(y, g);
    } else {
      var t :| t in x.attachments && t.0 == k && x.attachments[t].source == id && Live(x, g, x.attachments[t].app);
      assert NamesOf(x, g)[t] != NamesOf(y, g)[t];
    }
  }

  lemma QuietUpdateNames(db: Db, g: Id, k: Kind, id: Id, row: Resource, y: Db)
    requires y == db.(resources := db.resources[(k, id) := row]) && AllFaithful(db, y)
    requires Tidy(db) && SourcesFit(db) && SourcesFit(y) && ResourceIn(db, g, k, id) && !k.Volume? && g in db.groups
    ensures NamesKept(db, y) <==>
      k.Secret? || !LiveAttached(db, g, k, id) || row.name == db.resources[(k, id)].name
  {
    NameHereExactly(db, y, g, k, id, row);
    hide Tidy, ContentOf, NamesOf, SourcesFit, LiveAttached;
    forall h | h in db.groups && h != g ensures NamesOf(y, h) == NamesOf(db, h) {
      assert Faithful(db, y, h);
      NameAtHome(db, y, g, k, id, h);
    }
  }

  lemma MarkedUpdateNames(db: Db, g: Id, k: Kind, id: Id, row: Resource, y: Db)
    requires g in db.groups && y == Marked(db.(resources := db.resources[(k, id) := row]), g) && AllFaithful(db, y)
    requires Tidy(db) && SourcesFit(db) && SourcesFit(y) && ResourceIn(db, g, k, id) && !k.Volume?
    ensures NamesKept(db, y)
  {
    hide Tidy, ContentOf, NamesOf, SourcesFit;
    forall h | h in db.groups && h in y.groups && db.groups[h].revision == y.groups[h].revision
      ensures NamesOf(y, h) == NamesOf(db, h)
    {
      assert h != g && Faithful(db, y, h);
      NameAtHome(db, y, g, k, id, h);
    }
  }

  lemma UpdateKeepsNames(seen: Db, db: Db, r: Request, y: Db)
    requires r.UpdateResource? && Apply(seen, db, r) == Ok(y) && AllFaithful(db, y)
    requires Tidy(db) && SourcesFit(db) && SourcesFit(y) && KeepGroup(seen, db) && Homes(db)
    ensures NamesKept(db, y) <==> KeepsName(seen, db, r)
  {
    hide UpdatedResource, Tidy, SourcesFit, AllFaithful, NamesKept;
    UpdateSteps(seen, db, r.group, r.kind, r.id, r.rename, r.value, y);
    var key := (r.kind, r.id);
    var row := UpdatedRow(r.kind, seen.resources[key], db.resources[key], r.rename, r.value);
    NoVolumes(db, key);
    if Changes(r.kind, seen.resources[key], r.value) && Attached(seen, r.kind, r.id) {
      MarkedUpdateNames(db, r.group, r.kind, r.id, row, y);
    } else {
      QuietUpdateNames(db, r.group, r.kind, r.id, row, y);
    }
  }

  lemma NoVolumes(db: Db, key: (Kind, Id))
    requires SourcesFit(db) && key in db.resources
    ensures !key.0.Volume?
  {
  }

  /** A discard rewrites rows of its own group only. */
  lemma DiscardKeepsNames(b: Db, db: Db, g: Id, y: Db)
    requires Descends(b, db, g) && Tidy(b) && Tidy(db) && AllFaithful(db, y) && SourcesFit(db) && SourcesFit(y)
    requires DiscardTx(db, g, BuildStack(b, g)) == Ok(y)
    ensures NamesKept(db, y)
  {
    hide Constraints, ContentOf, NamesOf, SourcesFit, Tidy, BuildStack, DiscardTx;
    DescentFacts(b, db, g);
    DiscardIsARoundTrip(b, db, g);
    var _, _ := DraftOutside(b, db, g, y);
    forall h | h in db.groups && h in y.groups && db.groups[h].revision == y.groups[h].revision
      ensures NamesOf(y, h) == NamesOf(db, h)
    {
      assert h != g && Faithful(db, y, h);
      forall key | key in db.resources && key in y.resources && UsedBy(db, h, key)
        ensures y.resources[key].name == db.resources[key].name
      {
        UsedOutside(db, g, h, key);
      }
      SameNamesShown(db, y, h);
    }
  }

  lemma UsedOutside(db: Db, g: Id, h: Id, key: (Kind, Id))
    requires Tidy(db) && SourcesFit(db) && h != g && key in db.resources && UsedBy(db, h, key)
    ensures db.resources[key].group != g
  {
  }

  // ---- Any request --------------------------------------------------------------------------------------

  lemma SoundSources(db: Db)
    requires Sound(db)
    ensures SourcesFit(db) && Tidy(db) && Owned(db)
  {
  }

  lemma RequestSound(seen: Db, db: Db, r: Request, b: Db, y: Db)
    requires Ready(seen, db) && Apply(seen, db, r) == Ok(y)
    requires r.DiscardDraft? && r.group in seen.groups && seen.groups[r.group].deployed.Some? ==>
      BuiltFrom(seen, r.group, b, db)
    ensures Sound(y) && Later(db, y)
  {
    hide Constraints, Ended, Discarded;
    if r.EndDeployment? {
      SoundSources(db);
      EndRequest(db, r.group, r.outcome, y);
    } else if r.DiscardDraft? {
      DiscardSoundly(seen, db, r.group, b, y);
    } else {
      RequestOrderly(seen, db, r, y);
    }
  }

  lemma DiscardSoundly(seen: Db, db: Db, g: Id, b: Db, y: Db)
    requires Ready(seen, db) && Discarded(seen, db, g) == Ok(y)
    requires g in seen.groups && seen.groups[g].deployed.Some? ==> BuiltFrom(seen, g, b, db)
    ensures Sound(y) && Later(db, y)
  {
    hide Constraints, DiscardTx;
    if seen.groups[g].hasPendingChanges {
      DiscardedSteps(seen, db, g, BuildStack(b, g), y);
      DiscardRequest(b, db, g, y);
    }
  }

  /** Exactly the fresh requests that keep their names keep the configurations at every revision. */
  lemma NamedStampKeptExactly(seen: Db, db: Db, r: Request, b: Db, y: Db)
    requires Ready(seen, db) && Apply(seen, db, r) == Ok(y)
    requires r.DiscardDraft? && r.group in seen.groups && seen.groups[r.group].deployed.Some? ==>
      BuiltFrom(seen, r.group, b, db)
    ensures AllNamedFaithful(db, y) <==> Fresh(seen, db, r) && KeepsName(seen, db, r)
  {
    hide Apply, Fresh, KeepsName, AllNamedFaithful, AllFaithful, NamesKept, Sound, Later, BuiltFrom;
    RequestSound(seen, db, r, b, y);
    StampKeptExactlyIfFresh(seen, db, r, b, y);
    FaithfulWithNames(db, y);
    if AllFaithful(db, y) { FreshKeepsNames(seen, db, r, b, y); }
  }

  lemma FreshKeepsNames(seen: Db, db: Db, r: Request, b: Db, y: Db)
    requires Ready(seen, db) && Apply(seen, db, r) == Ok(y) && Sound(y) && AllFaithful(db, y)
    requires r.DiscardDraft? && r.group in seen.groups && seen.groups[r.group].deployed.Some? ==>
      BuiltFrom(seen, r.group, b, db)
    ensures NamesKept(db, y) <==> KeepsName(seen, db, r)
  {
    ReadyFacts(seen, db);
    SoundSources(db);
    SoundSources(y);
    hide Sound, Later, SourcesFit, Tidy, Owned, AllFaithful, NamesKept;
    if r.UpdateResource? {
      UpdateKeepsNames(seen, db, r, y);
    } else if r.DiscardDraft? {
      hide Apply;
      DiscardRequestKeepsNames(seen, db, r.group, b, y);
    } else {
      hide Apply;
      NamesStay(seen, db, r, y);
      SameNamesKept(db, y);
    }
  }

  lemma NamesKeptSelf(x: Db)
    ensures NamesKept(x, x)
  {
  }

  lemma PendingDiscardKeepsNames(seen: Db, db: Db, g: Id, b: Db, y: Db)
    requires Sound(db) && Sound(y) && AllFaithful(db, y) && BuiltFrom(seen, g, b, db)
    requires Discarded(seen, db, g) == Ok(y) && seen.groups[g].hasPendingChanges
    ensures NamesKept(db, y)
  {
    hide Discarded, DiscardTx, Sound, Later, AllFaithful, BuildStack, NamesKept, Descends, SourcesFit, Tidy, Owned;
    DiscardedSteps(seen, db, g, BuildStack(b, g), y);
    DiscardRequest(b, db, g, y);
    SoundSources(db);
    SoundSources(y);
    SoundSources(b);
    DiscardKeepsNames(b, db, g, y);
  }

  lemma DiscardRequestKeepsNames(seen: Db, db: Db, g: Id, b: Db, y: Db)
    requires Ready(seen, db) && Apply(seen, db, DiscardDraft(g)) == Ok(y) && Sound(y) && AllFaithful(db, y)
    requires g in seen.groups && seen.groups[g].deployed.Some? ==> BuiltFrom(seen, g, b, db)
    ensures NamesKept(db, y)
  {
    EndOrDiscardIs(seen, db, DiscardDraft(g));
    hide Apply, Sound, Later, AllFaithful, BuiltFrom, NamesKept, DiscardTx;
    if seen.groups[g].hasPendingChanges {
      PendingDiscardKeepsNames(seen, db, g, b, y);
    } else {
      NamesKeptSelf(db);
    }
  }

  // ---- Runs -----------------------------------------------------------------------------------------------

  ghost predicate AllKeepNames(states: seq<Db>, steps: seq<Step>)
    requires Run(states, steps)
  {
    forall i :: 0 <= i < |steps| ==> NameKeepingStep(states, i, steps[i])
  }

  ghost predicate NameKeepingStep(states: seq<Db>, i: nat, step: Step)
    requires i < |states| && (step.Step? ==> step.seen <= i)
  {
    step.Step? ==> KeepsName(states[step.seen], states[i], step.request)
  }

  lemma AddedNamed(x: Db, y: Db)
    requires Sound(x) && GroupsAdded(x, y)
    ensures AllNamedFaithful(x, y)
  {
    AddedFaithful(x, y);
    hide Sound, Later, AllKept, AllFaithful, NamesKept, AllNamedFaithful, SourcesFit, Tidy, Owned;
    SoundSources(x);
    SoundSources(y);
    SameNamesKept(x, y);
    FaithfulWithNames(x, y);
  }

  lemma StepNamed(states: seq<Db>, i: nat, step: Step)
    requires i + 1 < |states| && OneStep(states, i, step) && ReachableUpTo(states, i)
    requires FreshStep(states, i, step) && NameKeepingStep(states, i, step)
    ensures AllNamedFaithful(states[i], states[i + 1])
  {
    hide Apply, Sound, Later, Fresh, KeepsName, BuiltFrom, GroupsAdded, NamedFaithful;
    var past, db, y := states[..i + 1], states[i], states[i + 1];
    assert Reachable(states, i);
    if step.Import? {
      AddedNamed(db, y);
    } else if Apply(states[step.seen], db, step.request).Ok? {
      var seen, r, b := states[step.seen], step.request, db;
      assert Reachable(states, step.seen);
      if r.DiscardDraft? && r.group in seen.groups && seen.groups[r.group].deployed.Some? {
        TraceableLonger(states[..step.seen + 1], past, seen);
        b := Source(past, seen, db, r.group);
      }
      NamedStampKeptExactly(seen, db, r, b, y);
    } else {
      forall g | g in db.groups ensures NamedFaithful(db, y, g) { NamedSelf(db, g); }
    }
  }

  lemma NextNamed(states: seq<Db>, steps: seq<Step>, i: nat)
    requires Run(states, steps) && AllFresh(states, steps) && AllKeepNames(states, steps)
    requires i < |steps| && ReachableUpTo(states, i)
    ensures AllNamedFaithful(states[i], states[i + 1])
  {
    hide Apply, Fresh, KeepsName, NamedFaithful;
    assert OneStep(states, i, steps[i]) && FreshStep(states, i, steps[i]) && NameKeepingStep(states, i, steps[i]);
    StepNamed(states, i, steps[i]);
  }

  lemma NamedSelf(x: Db, g: Id)
    requires g in x.groups
    ensures NamedFaithful(x, x, g)
  {
  }

  lemma NamedNamed(x: Db, y: Db, z: Db, g: Id)
    requires NamedFaithful(x, y, g) && AllNamedFaithful(y, z)
    ensures NamedFaithful(x, z, g)
  {
    assert NamedFaithful(y, z, g);
    hide BuildStack, Stateless;
  }

  /** In a run of fresh requests that keep names, equal revisions of a group mean equal configurations. */
  lemma {:induction false} NamedVersionStamp(states: seq<Db>, steps: seq<Step>, i: nat, j: nat, g: Id)
    requires Run(states, steps) && AllFresh(states, steps) && AllKeepNames(states, steps)
    requires i <= j < |states| && g in states[i].groups
    ensures NamedFaithful(states[i], states[j], g)
  {
    hide NamedFaithful, AllNamedFaithful;
    if i < j {
      NamedVersionStamp(states, steps, i, j - 1, g);
      AllReachable(states, steps, j - 1);
      NextNamed(states, steps, j - 1);
      NamedNamed(states[i], states[j - 1], states[j], g);
    } else {
      NamedSelf(states[i], g);
    }
  }

  /** Then the stored configuration of a deployment depends on its source revision only, up to
      runtime states. */
  lemma StoredConfigurationIsAFunctionOfRevision(states: seq<Db>, steps: seq<Step>, i: nat, j: nat, g: Id)
    requires Run(states, steps) && AllFresh(states, steps) && AllKeepNames(states, steps) && i < |states| && j < |states|
    requires g in states[i].groups && g in states[j].groups
    requires states[i].groups[g].revision == states[j].groups[g].revision
    ensures Stateless(BuildStack(states[i], g)) == Stateless(BuildStack(states[j], g))
  {
    hide Run, AllFresh, AllKeepNames;
    var p, q := if i <= j then i else j, if i <= j then j else i;
    NamedVersionStamp(states, steps, p, q, g);
  }
}
