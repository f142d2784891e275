/** What one request does to the draft of its own group and to those of the others. */
module DraftSteps {
  import opened Prelude
  import opened Tables
  import opened OtherGroups
  import opened Drafts

  /** Attachments and endpoints of `now` that were there at `b` belong to the same app. */
  predicate KeepApp(b: Db, now: Db) {
    && (forall t | t in b.attachments && t in now.attachments :: now.attachments[t].app == b.attachments[t].app)
    && (forall e | e in b.endpoints && e in now.endpoints :: now.endpoints[e].app == b.endpoints[e].app)
  }

  /** Rows belong to groups and apps that exist. */
  predicate Homes(db: Db) {
    && (forall k | k in db.resources :: db.resources[k].group in db.groups)
    && (forall t | t in db.attachments :: db.attachments[t].app in db.apps)
    && (forall e | e in db.endpoints :: db.endpoints[e].app in db.apps)
  }

  lemma SameOwner(b: Db, now: Db)
    requires Owned(b) && Owned(now) && Later(b, now)
    ensures KeepApp(b, now)
  {
    forall t | t in b.attachments && t in now.attachments ensures now.attachments[t].app == b.attachments[t].app {
      assert (t, b.attachmentOwner[t]) in b.attachmentOwner.Items;
      assert (t, b.attachmentOwner[t]) in now.attachmentOwner.Items;
    }
    forall e | e in b.endpoints && e in now.endpoints ensures now.endpoints[e].app == b.endpoints[e].app {
      assert (e, b.endpointOwner[e]) in b.endpointOwner.Items;
      assert (e, b.endpointOwner[e]) in now.endpointOwner.Items;
    }
  }

  // ---- Changes inside one group -------------------------------------------------------

  predicate HeldOutside(db: Db, g: Id, d: Id) {
    d in db.domains && db.domains[d].endpoint.Some? && db.domains[d].endpoint.value in db.endpoints &&
    Foreign(db, g, db.endpoints[db.domains[d].endpoint.value].app)
  }

  ghost predicate SameHolders(g: Id, x: Db, y: Db) {
    && (forall d :: HeldOutside(x, g, d) <==> HeldOutside(y, g, d))
    && (forall d :: HeldOutside(x, g, d) ==> y.domains[d].endpoint == x.domains[d].endpoint)
  }

  /** Only rows of group `g` differ. */
  ghost predicate OwnChange(g: Id, x: Db, y: Db) {
    SameOutside(g, x, y) && SameHolders(g, x, y)
  }

  lemma DomainsElsewhere(g: Id, h: Id, x: Db, y: Db)
    requires h != g && OwnChange(g, x, y)
    ensures ContentOf(y, h).domains == ContentOf(x, h).domains
  {
    forall d ensures HeldBy(x, h, d) <==> HeldBy(y, h, d)
      ensures HeldBy(x, h, d) ==> y.domains[d].endpoint == x.domains[d].endpoint
    {
      if HeldBy(x, h, d) {
        assert HeldOutside(x, g, d);
        ForeignEndpoint(g, h, x, y, x.domains[d].endpoint.value);
      }
      if HeldBy(y, h, d) {
        assert HeldOutside(y, g, d);
        ForeignEndpoint(g, h, x, y, y.domains[d].endpoint.value);
      }
    }
    forall d ensures d in ContentOf(x, h).domains <==> HeldBy(x, h, d)
      ensures d in ContentOf(y, h).domains <==> HeldBy(y, h, d)
    {
      HeldDomains(h, x, d);
      HeldDomains(h, y, d);
    }
    assert ContentOf(y, h).domains == ContentOf(x, h).domains;
  }

  lemma ContentElsewhere(g: Id, h: Id, x: Db, y: Db)
    requires h != g && OwnChange(g, x, y) && Tidy(x) && SourcesFit(x) && SourcesFit(y)
    ensures ContentOf(y, h) == ContentOf(x, h)
  {
    ContentFromParts(g, h, x, y);
    DomainsElsewhere(g, h, x, y);
  }

  /** The request marked group `g` and left what the others would deploy as it was. */
  ghost predicate Touches(g: Id, x: Db, y: Db) {
    && g in x.groups && y.groups.Keys == x.groups.Keys
    && y.groups[g].revision == x.groups[g].revision + 1 && y.groups[g].hasPendingChanges
    && (forall h :: h in x.groups && h != g ==> y.groups[h] == x.groups[h] && ContentOf(y, h) == ContentOf(x, h))
  }

  /** The request marked nothing and changed nothing that a deployment would see. */
  ghost predicate Quiet(x: Db, y: Db) {
    forall h :: h in x.groups ==>
      h in y.groups && ContentOf(y, h) == ContentOf(x, h) &&
      y.groups[h].revision == x.groups[h].revision && y.groups[h].deployed == x.groups[h].deployed &&
      y.groups[h].hasPendingChanges == x.groups[h].hasPendingChanges
  }

  lemma MarkTouches(g: Id, x: Db, w: Db, y: Db)
    requires OwnChange(g, x, w) && w.groups == x.groups && MarkAndCheck(w, g) == Ok(y)
    requires Tidy(x) && SourcesFit(x)
    ensures Touches(g, x, y)
  {
    ConstraintsFit(y);
    MarkedTouches(g, x, w, y);
  }

  lemma MarkedTouches(g: Id, x: Db, w: Db, y: Db)
    requires OwnChange(g, x, w) && w.groups == x.groups && g in w.groups && y == Marked(w, g)
    requires Tidy(x) && SourcesFit(x) && SourcesFit(y)
    ensures Touches(g, x, y)
  {
    assert OwnChange(g, x, y) by { SameRowsOwn(g, x, w, y); }
    forall h | h in x.groups && h != g ensures ContentOf(y, h) == ContentOf(x, h) {
      ContentElsewhere(g, h, x, y);
    }
  }

  lemma SameRowsOwn(g: Id, x: Db, w: Db, y: Db)
    requires OwnChange(g, x, w) && y == w.(groups := y.groups)
    ensures OwnChange(g, x, y)
  {
    forall d ensures HeldOutside(w, g, d) <==> HeldOutside(y, g, d) {
    }
  }

  // ---- The requests that mark their group ------------------------------------------------

  lemma Committed(w: Db, g: Id, y: Db)
    requires MarkAndCheck(w, g) == Ok(y)
    ensures y == w.(groups := y.groups) && AttachmentRows(y)
  {
    hide ResourceRows, AppRows, AttachmentRows, EndpointRows;
  }

  lemma AttachGives(seen: Db, db: Db, g: Id, k: Kind, id: Id, row: Attachment, y: Db)
    requires AttachedTo(seen, db, g, k, id, row) == Ok(y) && KeepGroup(seen, db) && Owned(db)
    ensures AppIn(db, g, row.app) && (k, id) !in db.attachments
    ensures MarkAndCheck(db.(attachments := db.attachments[(k, id) := row],
                             attachmentOwner := db.attachmentOwner[(k, id) := row.app]), g) == Ok(y)
  {
    hide MarkAndCheck, AttachmentRows;
    Committed(db.(attachments := db.attachments[(k, id) := row],
                  attachmentOwner := db.attachmentOwner[(k, id) := row.app]), g, y);
    AppOfAttachment(y, (k, id));
  }

  lemma AppOfAttachment(y: Db, t: (Kind, Id))
    requires AttachmentRows(y) && t in y.attachments
    ensures y.attachments[t].app in y.apps
  {
  }

  lemma AttachTouches(seen: Db, db: Db, g: Id, k: Kind, id: Id, row: Attachment, y: Db)
    requires AttachedTo(seen, db, g, k, id, row) == Ok(y) && KeepGroup(seen, db) && Tidy(db) && SourcesFit(db)
    requires Owned(db)
    ensures Touches(g, db, y)
  {
    hide *;
    var w := db.(attachments := db.attachments[(k, id) := row], attachmentOwner := db.attachmentOwner[(k, id) := row.app]);
    AttachGives(seen, db, g, k, id, row, y);
    AttachmentOwn(g, db, k, id, row, w);
    MarkTouches(g, db, w, y);
  }

  lemma AttachmentOwn(g: Id, x: Db, k: Kind, id: Id, row: Attachment, w: Db)
    requires AppIn(x, g, row.app) && (k, id) !in x.attachments
    requires w == x.(attachments := x.attachments[(k, id) := row], attachmentOwner := w.attachmentOwner)
    ensures OwnChange(g, x, w)
  {
    assert forall d :: HeldOutside(w, g, d) <==> HeldOutside(x, g, d);
  }

  lemma DetachGives(seen: Db, db: Db, g: Id, k: Kind, a: Id, id: Id, y: Db)
    requires DetachedFrom(seen, db, g, k, a, id) == Ok(y) && KeepGroup(seen, db) && KeepApp(seen, db)
    ensures (k, id) in db.attachments && !Foreign(db, g, db.attachments[(k, id)].app)
    ensures MarkAndCheck(db.(attachments := db.attachments - {(k, id)}), g) == Ok(y)
  {
    hide MarkAndCheck;
  }

  lemma AttachmentGone(g: Id, x: Db, t: (Kind, Id))
    requires t in x.attachments && !Foreign(x, g, x.attachments[t].app)
    ensures OwnChange(g, x, x.(attachments := x.attachments - {t}))
  {
    var w := x.(attachments := x.attachments - {t});
    assert SameOutside(g, x, w);
    assert forall d :: HeldOutside(w, g, d) <==> HeldOutside(x, g, d);
  }

  lemma DetachTouches(seen: Db, db: Db, g: Id, k: Kind, a: Id, id: Id, y: Db)
    requires DetachedFrom(seen, db, g, k, a, id) == Ok(y) && Tidy(db) && SourcesFit(db)
    requires KeepGroup(seen, db) && KeepApp(seen, db)
    ensures Touches(g, db, y)
  {
    hide *;
    DetachGives(seen, db, g, k, a, id, y);
    AttachmentGone(g, db, (k, id));
    MarkTouches(g, db, db.(attachments := db.attachments - {(k, id)}), y);
  }

  lemma CreateAppGives(seen: Db, db: Db, g: Id, a: Id, spec: Spec, state: RuntimeState, y: Db)
    requires CreatedApp(seen, db, g, a, spec, state) == Ok(y) && Owned(db)
    ensures a !in db.apps
    ensures MarkAndCheck(db.(apps := db.apps[a := App(g, spec, state, false)], appOwner := db.appOwner[a := g]), g) == Ok(y)
  {
    hide MarkAndCheck;
  }

  lemma NewAppOwn(g: Id, x: Db, a: Id, row: App, w: Db)
    requires a !in x.apps && row.group == g && Homes(x)
    requires w == x.(apps := x.apps[a := row], appOwner := w.appOwner)
    ensures OwnChange(g, x, w)
  {
    assert forall b :: Foreign(w, g, b) <==> Foreign(x, g, b);
    assert forall d :: HeldOutside(w, g, d) <==> HeldOutside(x, g, d);
  }

  lemma CreateAppTouches(seen: Db, db: Db, g: Id, a: Id, spec: Spec, state: RuntimeState, y: Db)
    requires CreatedApp(seen, db, g, a, spec, state) == Ok(y) && Tidy(db) && SourcesFit(db)
    requires Owned(db) && Homes(db)
    ensures Touches(g, db, y)
  {
    hide *;
    var row := App(g, spec, state, false);
    var w := db.(apps := db.apps[a := row], appOwner := db.appOwner[a := g]);
    CreateAppGives(seen, db, g, a, spec, state, y);
    NewAppOwn(g, db, a, row, w);
    MarkTouches(g, db, w, y);
  }

  /** A new row for an app of the group. */
  lemma AppOwn(g: Id, x: Db, a: Id, row: App, w: Db)
    requires AppIn(x, g, a) && row.group == g && w == x.(apps := x.apps[a := row])
    ensures OwnChange(g, x, w)
  {
    assert forall b :: Foreign(w, g, b) <==> Foreign(x, g, b);
    assert forall d :: HeldOutside(w, g, d) <==> HeldOutside(x, g, d);
  }

  lemma UpdateAppTouches(seen: Db, db: Db, g: Id, a: Id, change: Spec -> Spec, state: Option<RuntimeState>, y: Db)
    requires UpdatedApp(seen, db, g, a, change, state) == Ok(y) && Tidy(db) && SourcesFit(db)
    ensures Touches(g, db, y)
  {
    var row := db.apps[a].(spec := change(db.apps[a].spec),
                           runtimeState := if state.Some? then state.value else db.apps[a].runtimeState);
    AppOwn(g, db, a, row, db.(apps := db.apps[a := row]));
    MarkTouches(g, db, db.(apps := db.apps[a := row]), y);
  }

  lemma MarkForDeletionTouches(seen: Db, db: Db, g: Id, a: Id, y: Db)
    requires MarkedForDeletion(seen, db, g, a) == Ok(y) && KeepGroup(seen, db) && Tidy(db) && SourcesFit(db)
    requires a in seen.apps && !seen.apps[a].pendingDeletion
    ensures Touches(g, db, y)
  {
    var row := db.apps[a].(pendingDeletion := true);
    AppOwn(g, db, a, row, db.(apps := db.apps[a := row]));
    MarkTouches(g, db, db.(apps := db.apps[a := row]), y);
  }

  lemma SetEnvironmentTouches(seen: Db, db: Db, g: Id, a: Id,
                              merge: Option<map<string, EnvValue> -> map<string, EnvValue>>, y: Db)
    requires EnvironmentSet(seen, db, g, a, merge) == Ok(y) && KeepGroup(seen, db) && Tidy(db) && SourcesFit(db)
    ensures Touches(g, db, y)
  {
    if merge.None? {
      MarkTouches(g, db, db, y);
    } else {
      var spec := db.apps[a].spec.(environment := merge.value(seen.apps[a].spec.environment));
      var row := db.apps[a].(spec := spec);
      AppOwn(g, db, a, row, db.(apps := db.apps[a := row]));
      MarkTouches(g, db, db.(apps := db.apps[a := row]), y);
    }
  }

  lemma CreateEndpointTouches(seen: Db, db: Db, g: Id, id: Id, row: Endpoint, y: Db)
    requires CreatedEndpoint(seen, db, g, id, row) == Ok(y) && KeepGroup(seen, db) && Tidy(db) && SourcesFit(db)
    requires DomainsFit(db) && Owned(db)
    ensures Touches(g, db, y)
  {
    var w := db.(endpoints := db.endpoints[id := row], endpointOwner := db.endpointOwner[id := row.app]);
    assert MarkAndCheck(w, g) == Ok(y);
    assert row.app in db.apps by { assert y.endpoints[id].app in y.apps; }
    EndpointOwn(g, db, id, row, w);
    MarkTouches(g, db, w, y);
  }

  lemma EndpointOwn(g: Id, x: Db, id: Id, row: Endpoint, w: Db)
    requires AppIn(x, g, row.app) && (id in x.endpoints ==> x.endpoints[id].app == row.app) && DomainsFit(x)
    requires w == x.(endpoints := x.endpoints[id := row], endpointOwner := w.endpointOwner)
    ensures OwnChange(g, x, w)
  {
    assert SameOutside(g, x, w);
    assert forall d :: HeldOutside(w, g, d) <==> HeldOutside(x, g, d);
  }

  lemma UpdateEndpointTouches(seen: Db, db: Db, g: Id, a: Id, id: Id, edit: Endpoint -> Endpoint, y: Db)
    requires UpdatedEndpoint(seen, db, g, a, id, edit) == Ok(y) && KeepGroup(seen, db) && KeepApp(seen, db)
    requires Tidy(db) && SourcesFit(db) && DomainsFit(db) && Homes(db)
    ensures Touches(g, db, y)
  {
    var row := edit(db.endpoints[id]).(app := db.endpoints[id].app);
    var w := db.(endpoints := db.endpoints[id := row]);
    EndpointOwn(g, db, id, row, w);
    MarkTouches(g, db, w, y);
  }

  lemma DeleteEndpointTouches(seen: Db, db: Db, g: Id, a: Id, id: Id, y: Db)
    requires DeletedEndpoint(seen, db, g, a, id) == Ok(y) && KeepGroup(seen, db) && KeepApp(seen, db)
    requires Tidy(db) && SourcesFit(db) && DomainsFit(db) && Homes(db)
    ensures Touches(g, db, y)
  {
    var w := WithoutEndpoint(db, id);
    EndpointGone(g, db, id);
    MarkTouches(g, db, w, y);
  }

  function WithoutEndpoint(db: Db, id: Id): Db {
    db.(endpoints := db.endpoints - {id},
        domains := map d | d in db.domains ::
          if db.domains[d].endpoint == Some(id) then db.domains[d].(endpoint := None) else db.domains[d])
  }

  lemma EndpointGone(g: Id, x: Db, id: Id)
    requires id in x.endpoints && AppIn(x, g, x.endpoints[id].app)
    ensures OwnChange(g, x, WithoutEndpoint(x, id))
  {
    var w := WithoutEndpoint(x, id);
    assert SameOutside(g, x, w);
    assert forall d :: HeldOutside(w, g, d) <==> HeldOutside(x, g, d);
  }

  lemma DeleteGroupGives(seen: Db, db: Db, g: Id, y: Db)
    requires DeletedGroup(seen, db, g) == Ok(y)
    ensures y == db.(apps := StoppedApps(db.apps, g), groups := y.groups) && SourcesFit(y)
    ensures g in db.groups && y.groups == db.groups[g := y.groups[g]]
    ensures y.groups[g].revision == db.groups[g].revision + 1 && y.groups[g].hasPendingChanges
  {
    hide StoppedApps, ResourceRows, AppRows, AttachmentRows, EndpointRows, SourcesFit;
    ConstraintsFit(y);
  }

  lemma StoppedOwn(g: Id, x: Db, y: Db)
    requires y == x.(apps := StoppedApps(x.apps, g), groups := y.groups)
    ensures OwnChange(g, x, y)
  {
    assert forall b :: Foreign(y, g, b) <==> Foreign(x, g, b);
    assert SameOutside(g, x, y);
    assert forall d :: HeldOutside(y, g, d) <==> HeldOutside(x, g, d);
  }

  lemma DeleteGroupTouches(seen: Db, db: Db, g: Id, y: Db)
    requires DeletedGroup(seen, db, g) == Ok(y) && Tidy(db) && SourcesFit(db)
    ensures Touches(g, db, y)
  {
    hide DeletedGroup, StoppedApps, Constraints, OwnChange, SourcesFit, Tidy, ContentOf;
    DeleteGroupGives(seen, db, g, y);
    StoppedOwn(g, db, y);
    forall h | h in db.groups && h != g ensures ContentOf(y, h) == ContentOf(db, h) {
      ContentElsewhere(g, h, db, y);
    }
  }

  // ---- The requests that mark nothing --------------------------------------------------

  lemma SameContent(x: Db, y: Db, h: Id)
    requires y.apps == x.apps && y.attachments == x.attachments && y.resources == x.resources
    requires y.endpoints == x.endpoints && y.domains == x.domains
    ensures ContentOf(y, h) == ContentOf(x, h)
  {
  }

  lemma CreateGroupQuiet(db: Db, g: Id, state: RuntimeState, y: Db)
    requires CreatedGroup(db, g, state) == Ok(y)
    ensures Quiet(db, y)
  {
    forall h | h in db.groups ensures ContentOf(y, h) == ContentOf(db, h) { SameContent(db, y, h); }
  }

  lemma SetGroupStateQuiet(db: Db, g: Id, state: RuntimeState, y: Db)
    requires GroupStateSet(db, g, state) == Ok(y)
    ensures Quiet(db, y)
  {
    forall h | h in db.groups ensures ContentOf(y, h) == ContentOf(db, h) { SameContent(db, y, h); }
  }

  lemma AcceptQuiet(seen: Db, db: Db, g: Id, force: bool, y: Db)
    requires Accepted(seen, db, g, force) == Ok(y)
    ensures Quiet(db, y)
  {
    forall h | h in db.groups ensures ContentOf(y, h) == ContentOf(db, h) { SameContent(db, y, h); }
  }

  lemma SetAppStateQuiet(db: Db, g: Id, a: Id, state: RuntimeState, y: Db)
    requires AppStateSet(db, g, a, state) == Ok(y)
    ensures Quiet(db, y)
  {
    forall h | h in db.groups ensures ContentOf(y, h) == ContentOf(db, h) { StateNotInContent(db, a, state, y, h); }
  }

  lemma StateNotInContent(x: Db, a: Id, state: RuntimeState, y: Db, h: Id)
    requires a in x.apps && y == x.(apps := x.apps[a := x.apps[a].(runtimeState := state)])
    ensures ContentOf(y, h) == ContentOf(x, h)
  {
    SameAppContents(x.apps, y.apps, h);
    assert AttachmentContents(y.apps, x.attachments, x.resources, h) == AttachmentContents(x.apps, x.attachments, x.resources, h);
    assert EndpointContents(y.apps, x.endpoints, h) == EndpointContents(x.apps, x.endpoints, h);
    assert DomainContents(y.apps, x.endpoints, x.domains, h) == DomainContents(x.apps, x.endpoints, x.domains, h);
  }

  lemma SameAppContents(p: map<Id, App>, q: map<Id, App>, h: Id)
    requires forall a :: LiveIn(p, h, a) <==> LiveIn(q, h, a)
    requires forall a :: LiveIn(p, h, a) ==> a in q && q[a].spec == p[a].spec
    ensures AppContents(q, h) == AppContents(p, h)
  {
  }

  /** What a deployment sees of a resource through an attachment. */
  function Shown(k: Kind, row: Resource): (string, nat) {
    (if k.Secret? then "" else row.content, row.version)
  }

  predicate LiveAttached(db: Db, h: Id, k: Kind, id: Id) {
    exists t | t in db.attachments :: t.0 == k && db.attachments[t].source == id && Live(db, h, db.attachments[t].app)
  }

  /** The contents of group `h` differ exactly if a resource that a live app uses shows something else. */
  lemma ResourceContent(x: Db, y: Db, h: Id, k: Kind, id: Id)
    requires y == x.(resources := y.resources, resourceOwner := y.resourceOwner)
    requires forall key: (Kind, Id) :: key != (k, id) ==> (key in x.resources <==> key in y.resources)
    requires forall key: (Kind, Id) :: key != (k, id) && key in x.resources ==> y.resources[key] == x.resources[key]
    requires LiveAttached(x, h, k, id) ==> (k, id) in x.resources && (k, id) in y.resources
    ensures ContentOf(y, h) == ContentOf(x, h) <==>
      (LiveAttached(x, h, k, id) ==> Shown(k, y.resources[(k, id)]) == Shown(k, x.resources[(k, id)]))
  {
    var p, q := ContentOf(x, h), ContentOf(y, h);
    assert q == p.(attachments := q.attachments);
    assert q.attachments.Keys == p.attachments.Keys;
    forall t | t in p.attachments && !(t.0 == k && x.attachments[t].source == id)
      ensures q.attachments[t] == p.attachments[t]
    {
      assert (t.0, x.attachments[t].source) != (k, id);
    }
    if LiveAttached(x, h, k, id) {
      var t :| t in x.attachments && t.0 == k && x.attachments[t].source == id && Live(x, h, x.attachments[t].app);
      assert t in p.attachments;
      if Shown(k, y.resources[(k, id)]) != Shown(k, x.resources[(k, id)]) {
        assert q.attachments[t] != p.attachments[t];
      }
    }
  }

  lemma CreateResourceQuiet(seen: Db, db: Db, g: Id, k: Kind, id: Id, name: string, content: string, y: Db)
    requires CreatedResource(seen, db, g, k, id, name, content) == Ok(y) && SourcesFit(db)
    requires Owned(db)
    ensures Quiet(db, y)
  {
    forall h | h in db.groups ensures ContentOf(y, h) == ContentOf(db, h) {
      ResourceContent(db, y, h, k, id);
    }
  }

  lemma DeleteResourceQuiet(seen: Db, db: Db, g: Id, k: Kind, id: Id, y: Db)
    requires DeletedResource(seen, db, g, k, id) == Ok(y) && SourcesFit(db)
    ensures Quiet(db, y)
  {
    ConstraintsFit(y);
    forall h | h in db.groups ensures ContentOf(y, h) == ContentOf(db, h) {
      assert !LiveAttached(db, h, k, id);
      ResourceContent(db, y, h, k, id);
    }
  }
}
