/**
 The revision of a draft as a version stamp: equal revisions, equal contents. A few requests
 decide whether to mark a group by what they read before their transaction; exactly when that
 was out of date, and for a discard that takes a domain away from another group, does the
 stamp fail.
 */
module DraftStamp {
  import opened Prelude
  import opened Tables
  import opened RestorePlan
  import opened Discard
  import opened RoundTrip
  import opened DiscardTheorems
  import opened OtherGroups
  import opened Drafts
  import opened DraftSteps

  /** From `x` to `y` the revision of group `h` does not decrease, and if it stays so does the content. */
  ghost predicate Faithful(x: Db, y: Db, h: Id) {
    && h in x.groups && h in y.groups && x.groups[h].revision <= y.groups[h].revision
    && (x.groups[h].revision == y.groups[h].revision ==> ContentOf(y, h) == ContentOf(x, h))
  }

  /** `Faithful`, and the marker of the draft went along: it was set, or nothing happened to it. */
  ghost predicate Kept(x: Db, y: Db, h: Id) {
    && h in x.groups && h in y.groups
    && if x.groups[h].revision < y.groups[h].revision then y.groups[h].hasPendingChanges else
       && x.groups[h].revision == y.groups[h].revision && ContentOf(y, h) == ContentOf(x, h)
       && y.groups[h].hasPendingChanges == x.groups[h].hasPendingChanges
       && y.groups[h].deployed == x.groups[h].deployed
  }

  ghost predicate AllKept(x: Db, y: Db) {
    forall h :: h in x.groups ==> Kept(x, y, h)
  }

  ghost predicate AllFaithful(x: Db, y: Db) {
    forall h :: h in x.groups ==> Faithful(x, y, h)
  }

  lemma TouchesKeeps(g: Id, x: Db, y: Db)
    requires Touches(g, x, y)
    ensures AllKept(x, y)
  {
  }

  // ---- Updates of variables, configs and secrets -----------------------------------------

  /** The update marks the group, or no deployment would see a difference. */
  predicate FreshUpdate(seen: Db, db: Db, g: Id, k: Kind, id: Id, rename: Option<string>, value: Option<string>) {
    ResourceIn(seen, g, k, id) && (k, id) in db.resources ==>
      var existing, row := seen.resources[(k, id)], db.resources[(k, id)];
      || (Changes(k, existing, value) && Attached(seen, k, id))
      || !LiveAttached(db, g, k, id)
      || Shown(k, UpdatedRow(k, existing, row, rename, value)) == Shown(k, row)
  }

  /** Only the group of a resource uses it. */
  lemma UsedAtHome(db: Db, g: Id, h: Id, k: Kind, id: Id)
    requires Tidy(db) && ResourceIn(db, g, k, id) && !k.Volume? && LiveAttached(db, h, k, id)
    ensures h == g
  {
    var t :| t in db.attachments && t.0 == k && db.attachments[t].source == id && Live(db, h, db.attachments[t].app);
  }

  lemma UpdateResourceKeeps(seen: Db, db: Db, g: Id, k: Kind, id: Id, rename: Option<string>, value: Option<string>, y: Db)
    requires UpdatedResource(seen, db, g, k, id, rename, value) == Ok(y)
    requires KeepGroup(seen, db) && Tidy(db) && SourcesFit(db) && Homes(db)
    ensures FreshUpdate(seen, db, g, k, id, rename, value) ==> AllKept(db, y)
    ensures !FreshUpdate(seen, db, g, k, id, rename, value) ==> !AllFaithful(db, y)
  {
    var row := UpdatedRow(k, seen.resources[(k, id)], db.resources[(k, id)], rename, value);
    var w := db.(resources := db.resources[(k, id) := row]);
    if Changes(k, seen.resources[(k, id)], value) && Attached(seen, k, id) {
      ResourceOwn(g, db, k, id, row);
      MarkTouches(g, db, w, y);
      TouchesKeeps(g, db, y);
    } else {
      assert y == w;
      SilentUpdate(db, g, k, id, row, y);
    }
  }

  lemma SilentUpdate(db: Db, g: Id, k: Kind, id: Id, row: Resource, y: Db)
    requires y == db.(resources := db.resources[(k, id) := row])
    requires ResourceIn(db, g, k, id) && !k.Volume? && g in db.groups && Tidy(db)
    ensures var unseen := !LiveAttached(db, g, k, id) || Shown(k, row) == Shown(k, db.resources[(k, id)]);
      (unseen ==> AllKept(db, y)) && (!unseen ==> !Faithful(db, y, g))
  {
    forall h | h in db.groups
      ensures ContentOf(y, h) == ContentOf(db, h) <==>
        (LiveAttached(db, h, k, id) ==> Shown(k, row) == Shown(k, db.resources[(k, id)]))
      ensures LiveAttached(db, h, k, id) ==> h == g
    {
      ResourceContent(db, y, h, k, id);
      if LiveAttached(db, h, k, id) { UsedAtHome(db, g, h, k, id); }
    }
  }

  lemma ResourceOwn(g: Id, x: Db, k: Kind, id: Id, row: Resource)
    requires ResourceIn(x, g, k, id)
    ensures OwnChange(g, x, x.(resources := x.resources[(k, id) := row]))
  {
    var w := x.(resources := x.resources[(k, id) := row]);
    assert forall d :: HeldOutside(w, g, d) <==> HeldOutside(x, g, d);
  }

  // ---- Domains -----------------------------------------------------------------------------

  /** Every group that would lose the domain is among those the request marks. */
  predicate FreshMove(db: Db, d: Id, to: Option<Id>, marked: set<Id>) {
    d in db.domains && db.domains[d].endpoint != to ==>
      forall h | h in db.groups :: HeldBy(db, h, d) ==> h in marked
  }

  function Someone(holder: Option<Id>): set<Id> {
    if holder.Some? then {holder.value} else {}
  }

  /** `y` is `x` with another row for domain `d` (or none), and with the groups in `marked` marked. */
  ghost predicate DomainStep(x: Db, y: Db, d: Id, to: Option<Id>, marked: set<Id>) {
    && y == x.(groups := y.groups, domains := y.domains)
    && (forall c :: c != d ==> (c in x.domains <==> c in y.domains))
    && (forall c :: c != d && c in x.domains ==> y.domains[c] == x.domains[c])
    && (d in y.domains ==> y.domains[d].endpoint == to) && (d !in y.domains ==> to == None)
    && marked <= x.groups.Keys && y.groups.Keys == x.groups.Keys
    && (forall h :: h in x.groups ==> y.groups[h] == if h in marked then Bump(x.groups[h]) else x.groups[h])
  }

  predicate RowHeld(apps: map<Id, App>, endpoints: map<Id, Endpoint>, endpoint: Option<Id>, h: Id) {
    endpoint.Some? && endpoint.value in endpoints && LiveIn(apps, h, endpoints[endpoint.value].app)
  }

  lemma DomainRowChange(apps: map<Id, App>, endpoints: map<Id, Endpoint>, p: map<Id, Domain>, q: map<Id, Domain>,
                        d: Id, h: Id)
    requires forall c :: c != d ==> (c in p <==> c in q)
    requires forall c :: c != d && c in p ==> q[c] == p[c]
    requires d in q && RowHeld(apps, endpoints, q[d].endpoint, h) ==> d in p && p[d].endpoint == q[d].endpoint
    ensures DomainContents(apps, endpoints, q, h) == DomainContents(apps, endpoints, p, h) <==>
      (d in p && RowHeld(apps, endpoints, p[d].endpoint, h) ==> d in q && q[d].endpoint == p[d].endpoint)
  {
    var m, n := DomainContents(apps, endpoints, p, h), DomainContents(apps, endpoints, q, h);
    forall c | c != d ensures c in m <==> c in n {
    }
    if d in p && RowHeld(apps, endpoints, p[d].endpoint, h) {
      assert d in m;
    }
  }

  lemma DomainContentStep(x: Db, y: Db, d: Id, to: Option<Id>, marked: set<Id>, h: Id)
    requires DomainStep(x, y, d, to, marked) && h in x.groups && h !in marked
    requires to.Some? ==> HolderOf(x, to) == None || HolderOf(x, to).value in marked || (d in x.domains && x.domains[d].endpoint == to)
    ensures ContentOf(y, h) == ContentOf(x, h) <==> (HeldBy(x, h, d) ==> x.domains[d].endpoint == to)
  {
    DomainRowChange(x.apps, x.endpoints, x.domains, y.domains, d, h);
  }

  lemma DomainKeeps(x: Db, y: Db, d: Id, to: Option<Id>, marked: set<Id>)
    requires DomainStep(x, y, d, to, marked)
    requires to.Some? ==> HolderOf(x, to) == None || HolderOf(x, to).value in marked || (d in x.domains && x.domains[d].endpoint == to)
    ensures FreshMove(x, d, to, marked) ==> AllKept(x, y)
    ensures !FreshMove(x, d, to, marked) ==> !AllFaithful(x, y)
  {
    forall h | h in x.groups && h !in marked
      ensures ContentOf(y, h) == ContentOf(x, h) <==> (HeldBy(x, h, d) ==> x.domains[d].endpoint == to)
    {
      DomainContentStep(x, y, d, to, marked, h);
    }
    if !FreshMove(x, d, to, marked) {
      var h :| h in x.groups && HeldBy(x, h, d) && h !in marked;
      assert !Faithful(x, y, h);
    }
  }

  /** An endpoint still serves the group it served when it was read. */
  lemma SameHolder(seen: Db, db: Db, e: Option<Id>)
    requires KeepGroup(seen, db) && KeepApp(seen, db) && HolderOf(seen, e).Some?
    ensures HolderOf(db, e) == None || HolderOf(db, e) == HolderOf(seen, e)
  {
  }

  lemma CreateDomainStep(seen: Db, db: Db, d: Id, hostname: string, holder: Option<Id>, y: Db)
    requires CreatedDomainRows(seen, db, d, hostname, holder) == Ok(y)
    ensures DomainStep(db, y, d, holder, Someone(HolderOf(seen, holder))) && d !in db.domains
    ensures holder.Some? ==> HolderOf(seen, holder).Some?
  {
  }

  lemma CreateDomainKeeps(seen: Db, db: Db, d: Id, hostname: string, holder: Option<Id>, y: Db)
    requires CreatedDomain(seen, db, d, hostname, holder) == Ok(y) && KeepGroup(seen, db) && KeepApp(seen, db)
    ensures AllKept(db, y)
  {
    CreateDomainStep(seen, db, d, hostname, holder, y);
    if holder.Some? { SameHolder(seen, db, holder); }
    DomainKeeps(db, y, d, holder, Someone(HolderOf(seen, holder)));
  }

  function MarkedByMove(seen: Db, d: Id, to: Option<Option<Id>>): set<Id>
    requires d in seen.domains
  {
    Someone(HolderOf(seen, seen.domains[d].endpoint)) + Someone(if to.Some? then HolderOf(seen, to.value) else None)
  }

  lemma MarkHolderFacts(db: Db, holder: Option<Id>, y: Db)
    requires MarkHolder(db, holder) == Ok(y)
    ensures y == db.(groups := y.groups) && y.groups.Keys == db.groups.Keys && Someone(holder) <= db.groups.Keys
    ensures forall h :: h in db.groups ==>
              y.groups[h] == if Some(h) == holder then Bump(db.groups[h]) else db.groups[h]
  {
  }

  lemma MoveDomainStep(seen: Db, db: Db, d: Id, to: Option<Option<Id>>, y: Db)
    requires MovedDomainRows(seen, db, d, to) == Ok(y)
    ensures d in seen.domains && d in db.domains
    ensures DomainStep(db, y, d, if to.Some? then to.value else db.domains[d].endpoint, MarkedByMove(seen, d, to))
    ensures to.Some? && to.value.Some? ==> HolderOf(seen, to.value).Some?
  {
    var next := if to.Some? then HolderOf(seen, to.value) else None;
    var current := HolderOf(seen, seen.domains[d].endpoint);
    var row := if to.Some? then db.domains[d].(endpoint := to.value) else db.domains[d];
    var moved := db.(domains := db.domains[d := row]);
    var first := MarkHolder(moved, current).value;
    MarkHolderFacts(moved, current, first);
    MarkHolderFacts(first, if next == current then None else next, y);
    MarkedTwice(db.groups, first.groups, y.groups, current, next);
  }

  lemma MarkedTwice(p: map<Id, Group>, q: map<Id, Group>, r: map<Id, Group>, current: Option<Id>, next: Option<Id>)
    requires p.Keys == q.Keys == r.Keys
    requires forall h :: h in p ==> q[h] == if Some(h) == current then Bump(p[h]) else p[h]
    requires forall h :: h in p ==> r[h] == if Some(h) == (if next == current then None else next) then Bump(q[h]) else q[h]
    ensures forall h :: h in p ==> r[h] == if h in Someone(current) + Someone(next) then Bump(p[h]) else p[h]
  {
  }

  lemma MoveDomainKeeps(seen: Db, db: Db, d: Id, to: Option<Option<Id>>, y: Db)
    requires MovedDomain(seen, db, d, to) == Ok(y) && KeepGroup(seen, db) && KeepApp(seen, db)
    ensures d in seen.domains && d in db.domains
    ensures var after := if to.Some? then to.value else db.domains[d].endpoint;
      var ok := FreshMove(db, d, after, MarkedByMove(seen, d, to));
      (ok ==> AllKept(db, y)) && (!ok ==> !AllFaithful(db, y))
  {
    MoveDomainStep(seen, db, d, to, y);
    var after := if to.Some? then to.value else db.domains[d].endpoint;
    if to.Some? && to.value.Some? { SameHolder(seen, db, to.value); }
    DomainKeeps(db, y, d, after, MarkedByMove(seen, d, to));
  }

  lemma DeleteDomainStep(seen: Db, db: Db, d: Id, y: Db)
    requires DeletedDomain(seen, db, d) == Ok(y)
    ensures d in seen.domains && DomainStep(db, y, d, None, Someone(HolderOf(seen, seen.domains[d].endpoint)))
  {
  }

  lemma DeleteDomainKeeps(seen: Db, db: Db, d: Id, y: Db)
    requires DeletedDomain(seen, db, d) == Ok(y)
    ensures d in seen.domains
    ensures var ok := FreshMove(db, d, None, Someone(HolderOf(seen, seen.domains[d].endpoint)));
      (ok ==> AllKept(db, y)) && (!ok ==> !AllFaithful(db, y))
  {
    DeleteDomainStep(seen, db, d, y);
    DomainKeeps(db, y, d, None, Someone(HolderOf(seen, seen.domains[d].endpoint)));
  }

  // ---- Deployments and discards ------------------------------------------------------------

  /** Removing the apps that are pending deletion is not seen by a deployment. */
  lemma RemovalNotSeen(x: Db, g: Id, h: Id, y: Db)
    requires y == DeleteApps(x, PendingApps(x, g)).(groups := y.groups)
    ensures ContentOf(y, h) == ContentOf(x, h)
  {
    forall a ensures LiveIn(y.apps, h, a) <==> LiveIn(x.apps, h, a)
      ensures LiveIn(x.apps, h, a) ==> a !in PendingApps(x, g) && y.apps[a] == x.apps[a]
    {
    }
    SameAppContents(x.apps, y.apps, h);
    SameAttachmentContents(x.apps, y.apps, x.attachments, y.attachments, x.resources, h);
    SameEndpointContents(x.apps, y.apps, x.endpoints, y.endpoints, h);
    RemovedDomains(x, PendingApps(x, g), h, y);
  }

  lemma SameAttachmentContents(p: map<Id, App>, q: map<Id, App>, m: map<(Kind, Id), Attachment>,
                               n: map<(Kind, Id), Attachment>, resources: map<(Kind, Id), Resource>, h: Id)
    requires forall a :: LiveIn(p, h, a) <==> LiveIn(q, h, a)
    requires forall t :: t in n ==> t in m && m[t] == n[t]
    requires forall t :: t in m && LiveIn(p, h, m[t].app) ==> t in n
    ensures AttachmentContents(q, n, resources, h) == AttachmentContents(p, m, resources, h)
  {
  }

  lemma SameEndpointContents(p: map<Id, App>, q: map<Id, App>, m: map<Id, Endpoint>, n: map<Id, Endpoint>, h: Id)
    requires forall a :: LiveIn(p, h, a) <==> LiveIn(q, h, a)
    requires forall e :: e in n ==> e in m && m[e] == n[e]
    requires forall e :: e in m && LiveIn(p, h, m[e].app) ==> e in n
    ensures EndpointContents(q, n, h) == EndpointContents(p, m, h)
  {
  }

  lemma RemovedDomains(x: Db, gone: set<Id>, h: Id, y: Db)
    requires y == DeleteApps(x, gone).(groups := y.groups)
    requires forall a :: LiveIn(y.apps, h, a) <==> LiveIn(x.apps, h, a)
    requires forall a :: LiveIn(x.apps, h, a) ==> a !in gone
    ensures DomainContents(y.apps, y.endpoints, y.domains, h) == DomainContents(x.apps, x.endpoints, x.domains, h)
  {
  }

  /** The end of a deployment keeps every content and revision, and the other groups' markers. */
  lemma EndKeeps(db: Db, g: Id, outcome: Option<Finished>, y: Db)
    requires g in db.groups && y == EndedRows(db, g, outcome)
    ensures AllFaithful(db, y)
    ensures forall h :: h in db.groups && (h != g || outcome.None?) ==> Kept(db, y, h)
    ensures outcome.Some? ==> g in y.groups && y.groups[g].deployed == Some(outcome.value.stack)
    ensures outcome.Some? ==>
      (y.groups[g].hasPendingChanges <==> !outcome.value.ending.Deployed? || y.groups[g].revision != outcome.value.source)
  {
    forall h | h in db.groups ensures ContentOf(y, h) == ContentOf(db, h) {
      EndContent(db, g, outcome.Some? && !outcome.value.ending.FellBack?, h, y);
    }
  }

  lemma EndContent(x: Db, g: Id, ok: bool, h: Id, y: Db)
    requires y == (if ok then DeleteApps(x, PendingApps(x, g)) else x).(groups := y.groups)
    ensures ContentOf(y, h) == ContentOf(x, h)
  {
    if ok { RemovalNotSeen(x, g, h, y); } else { SameContent(x, y, h); }
  }

  /** The configuration lists a domain that group `h` holds now. */
  predicate Takes(stack: Stack, db: Db, h: Id) {
    exists r | r in PlanOf(stack.apps).domainAssignments :: HeldBy(db, h, r.domain)
  }

  lemma TakesIsSteals(b: Db, now: Db, g: Id, h: Id)
    requires g in b.groups
    ensures Takes(BuildStack(b, g), now, h) <==> Steals(b, now, g, h)
  {
    PlannedDomains(b, g);
    if Steals(b, now, g, h) {
      var d :| d in now.domains && HeldBy(b, g, d) && HeldBy(now, h, d);
      assert Assignment(d, b.domains[d].endpoint.value) in PlanOf(BuildStack(b, g).apps).domainAssignments;
    }
  }

  predicate FreshDiscard(db: Db, g: Id, stack: Stack) {
    forall h | h in db.groups :: h != g ==> !Takes(stack, db, h)
  }

  lemma DiscardKeeps(b: Db, db: Db, g: Id, y: Db)
    requires Descends(b, db, g) && Tidy(b) && Tidy(db) && DiscardTx(db, g, BuildStack(b, g)) == Ok(y)
    ensures FreshDiscard(db, g, BuildStack(b, g)) ==> AllFaithful(db, y) && forall h :: h in db.groups && h != g ==> Kept(db, y, h)
    ensures !FreshDiscard(db, g, BuildStack(b, g)) ==> !AllFaithful(db, y)
  {
    DiscardIsARoundTrip(b, db, g);
    forall h | h in db.groups && h != g
      ensures h in y.groups && y.groups[h] == db.groups[h]
      ensures ContentOf(y, h) == ContentOf(db, h) <==> !Takes(BuildStack(b, g), db, h)
    {
      DiscardKeepsOtherContent(b, db, g, h);
      TakesIsSteals(b, db, g, h);
    }
    DiscardOutcome(db, g, BuildStack(b, g), y);
  }

  lemma DiscardOutcome(db: Db, g: Id, stack: Stack, y: Db)
    requires g in db.groups && g in y.groups && y.groups[g].revision == db.groups[g].revision + 1
    requires forall h :: h in db.groups && h != g ==> h in y.groups && y.groups[h] == db.groups[h]
    requires forall h :: h in db.groups && h != g ==> (ContentOf(y, h) == ContentOf(db, h) <==> !Takes(stack, db, h))
    ensures FreshDiscard(db, g, stack) ==> AllFaithful(db, y) && forall h :: h in db.groups && h != g ==> Kept(db, y, h)
    ensures !FreshDiscard(db, g, stack) ==> !AllFaithful(db, y)
  {
    if !FreshDiscard(db, g, stack) {
      var h :| h in db.groups && h != g && Takes(stack, db, h);
      assert !Faithful(db, y, h);
    }
  }
}
