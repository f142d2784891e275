/** Single requests, all kinds together: what they keep, and when they keep the stamp. */
module DraftRequests {
  import opened Prelude
  import opened Tables
  import opened Discard
  import opened DiscardTheorems
  import opened DiscardSound
  import opened Drafts
  import opened DraftSteps
  import opened DraftStamp

  // ---- Soundness of single requests ----------------------------------------------------

  /** No request but the end of a deployment changes what is deployed. */
  predicate DeployedStays(x: Db, y: Db) {
    forall h | h in y.groups && y.groups[h].deployed.Some? ::
      h in x.groups && x.groups[h].deployed == y.groups[h].deployed
  }

  /** Ids and groups after a request, given that they were right before it. */
  ghost predicate OrderlyRows(x: Db, y: Db) {
    Owned(y) && Tidy(y) && Later(x, y)
  }

  ghost predicate Orderly(x: Db, y: Db) {
    OrderlyRows(x, y) && DeployedStays(x, y)
  }

  lemma CreateResourceOrderly(seen: Db, db: Db, g: Id, k: Kind, id: Id, name: string, content: string, y: Db)
    requires CreatedResource(seen, db, g, k, id, name, content) == Ok(y) && Owned(db) && Tidy(db)
    ensures Orderly(db, y) && (Constraints(y) || y == db)
  {
    hide Constraints;
  }

  lemma ResourceRowOrderly(x: Db, k: Kind, id: Id, row: Resource, y: Db)
    requires Owned(x) && Tidy(x) && (k, id) in x.resources && row.group == x.resources[(k, id)].group
    requires y == x.(resources := x.resources[(k, id) := row], groups := y.groups) && DeployedStays(x, y)
    ensures Orderly(x, y)
  {
  }

  lemma UpdateResourceOrderly(seen: Db, db: Db, g: Id, k: Kind, id: Id, rename: Option<string>, value: Option<string>, y: Db)
    requires UpdatedResource(seen, db, g, k, id, rename, value) == Ok(y) && Owned(db) && Tidy(db)
    ensures Orderly(db, y) && (Constraints(y) || y == db)
  {
    hide Constraints;
    var row := UpdatedRow(k, seen.resources[(k, id)], db.resources[(k, id)], rename, value);
    ResourceRowOrderly(db, k, id, row, y);
  }

  lemma DeleteResourceOrderly(seen: Db, db: Db, g: Id, k: Kind, id: Id, y: Db)
    requires DeletedResource(seen, db, g, k, id) == Ok(y) && Owned(db) && Tidy(db)
    ensures Orderly(db, y) && (Constraints(y) || y == db)
  {
  }

  lemma AttachmentRowOrderly(x: Db, g: Id, k: Kind, id: Id, row: Attachment, y: Db)
    requires Owned(x) && Tidy(x) && (k, id) !in x.attachmentOwner && AppIn(x, g, row.app)
    requires !k.Volume? ==> ResourceIn(x, g, k, row.source)
    requires y == x.(attachments := x.attachments[(k, id) := row],
                     attachmentOwner := x.attachmentOwner[(k, id) := row.app], groups := y.groups)
    requires DeployedStays(x, y)
    ensures Orderly(x, y)
  {
  }

  lemma AttachedSteps(seen: Db, db: Db, g: Id, k: Kind, id: Id, row: Attachment, y: Db)
    requires AttachedTo(seen, db, g, k, id, row) == Ok(y) && KeepGroup(seen, db)
    ensures (k, id) !in db.attachmentOwner && AppIn(db, g, row.app) && (!k.Volume? ==> ResourceIn(db, g, k, row.source))
    ensures y == db.(attachments := db.attachments[(k, id) := row],
                     attachmentOwner := db.attachmentOwner[(k, id) := row.app], groups := y.groups)
    ensures DeployedStays(db, y) && Constraints(y)
  {
    assert y.attachments[(k, id)] == row;
    assert row.app in y.apps;
    assert !k.Volume? ==> (k, row.source) in y.resources;
  }

  lemma AttachOrderly(seen: Db, db: Db, g: Id, k: Kind, id: Id, row: Attachment, y: Db)
    requires AttachedTo(seen, db, g, k, id, row) == Ok(y) && Owned(db) && Tidy(db) && KeepGroup(seen, db)
    ensures Orderly(db, y) && (Constraints(y) || y == db)
  {
    hide Constraints, Owned, Tidy;
    AttachedSteps(seen, db, g, k, id, row, y);
    AttachmentRowOrderly(db, g, k, id, row, y);
  }

  lemma DetachOrderly(seen: Db, db: Db, g: Id, k: Kind, a: Id, id: Id, y: Db)
    requires DetachedFrom(seen, db, g, k, a, id) == Ok(y) && Owned(db) && Tidy(db)
    ensures Orderly(db, y) && (Constraints(y) || y == db)
  {
    hide Constraints;
  }

  /** Marking a group keeps what is deployed. */
  lemma CommittedSoundly(w: Db, g: Id, y: Db)
    requires MarkAndCheck(w, g) == Ok(y)
    ensures y == w.(groups := y.groups) && DeployedStays(w, y) && Constraints(y)
  {
    hide Constraints;
  }

  lemma NewAppOrderly(x: Db, a: Id, row: App, y: Db)
    requires Owned(x) && Tidy(x) && a !in x.apps && a !in x.appOwner && DeployedStays(x, y)
    requires y == x.(apps := x.apps[a := row], appOwner := x.appOwner[a := row.group], groups := y.groups)
    ensures Orderly(x, y)
  {
  }

  lemma CreateAppOrderly(seen: Db, db: Db, g: Id, a: Id, spec: Spec, state: RuntimeState, y: Db)
    requires CreatedApp(seen, db, g, a, spec, state) == Ok(y) && Owned(db) && Tidy(db)
    ensures Orderly(db, y) && (Constraints(y) || y == db)
  {
    hide Constraints, Owned, Tidy, Orderly;
    CreateAppGives(seen, db, g, a, spec, state, y);
    NewAppOrderly(db, a, App(g, spec, state, false), y);
    CommittedSoundly(db.(apps := db.apps[a := App(g, spec, state, false)], appOwner := db.appOwner[a := g]), g, y);
  }

  lemma AppRowOrderly(x: Db, a: Id, row: App, y: Db)
    requires Owned(x) && Tidy(x) && a in x.apps && row.group == x.apps[a].group
    requires y == x.(apps := x.apps[a := row], groups := y.groups) && DeployedStays(x, y)
    ensures Orderly(x, y)
  {
  }

  lemma UpdateAppOrderly(seen: Db, db: Db, g: Id, a: Id, change: Spec -> Spec, state: Option<RuntimeState>, y: Db)
    requires UpdatedApp(seen, db, g, a, change, state) == Ok(y) && Owned(db) && Tidy(db)
    ensures Orderly(db, y) && (Constraints(y) || y == db)
  {
    hide Constraints, Owned, Tidy;
    AppRowOrderly(db, a, y.apps[a], y);
  }

  lemma MarkForDeletionOrderly(seen: Db, db: Db, g: Id, a: Id, y: Db)
    requires MarkedForDeletion(seen, db, g, a) == Ok(y) && Owned(db) && Tidy(db)
    ensures Orderly(db, y) && (Constraints(y) || y == db)
  {
    hide Constraints, Tidy;
    if !seen.apps[a].pendingDeletion { AppRowOrderly(db, a, y.apps[a], y); }
  }

  lemma SetEnvironmentOrderly(seen: Db, db: Db, g: Id, a: Id,
                              merge: Option<map<string, EnvValue> -> map<string, EnvValue>>, y: Db)
    requires EnvironmentSet(seen, db, g, a, merge) == Ok(y) && Owned(db) && Tidy(db)
    ensures Orderly(db, y) && (Constraints(y) || y == db)
  {
    hide Constraints, Tidy;
    if merge.Some? { AppRowOrderly(db, a, y.apps[a], y); } else { SameRowsOrderly(db, y); }
  }

  lemma CreateEndpointOrderly(seen: Db, db: Db, g: Id, id: Id, row: Endpoint, y: Db)
    requires CreatedEndpoint(seen, db, g, id, row) == Ok(y) && Owned(db) && Tidy(db)
    ensures Orderly(db, y) && (Constraints(y) || y == db)
  {
    hide Constraints;
  }

  lemma UpdateEndpointOrderly(seen: Db, db: Db, g: Id, a: Id, id: Id, edit: Endpoint -> Endpoint, y: Db)
    requires UpdatedEndpoint(seen, db, g, a, id, edit) == Ok(y) && Owned(db) && Tidy(db)
    ensures Orderly(db, y) && (Constraints(y) || y == db)
  {
    hide Constraints;
  }

  lemma DeleteEndpointOrderly(seen: Db, db: Db, g: Id, a: Id, id: Id, y: Db)
    requires DeletedEndpoint(seen, db, g, a, id) == Ok(y) && Owned(db) && Tidy(db)
    ensures Orderly(db, y) && (Constraints(y) || y == db)
  {
    hide Constraints;
  }

  lemma SameRowsOrderly(x: Db, y: Db)
    requires y == x.(groups := y.groups, domains := y.domains) && Owned(x) && Tidy(x) && DeployedStays(x, y)
    ensures Orderly(x, y)
  {
  }

  lemma CreateDomainOrderly(seen: Db, db: Db, d: Id, hostname: string, holder: Option<Id>, y: Db)
    requires CreatedDomain(seen, db, d, hostname, holder) == Ok(y) && Owned(db) && Tidy(db)
    ensures Orderly(db, y) && Constraints(y)
  {
    hide Constraints;
    SameRowsOrderly(db, y);
  }

  lemma MoveDomainOrderly(seen: Db, db: Db, d: Id, to: Option<Option<Id>>, y: Db)
    requires MovedDomain(seen, db, d, to) == Ok(y) && Owned(db) && Tidy(db)
    ensures Orderly(db, y) && Constraints(y)
  {
    hide Constraints;
    MoveDomainStep(seen, db, d, to, y);
    SameRowsOrderly(db, y);
  }

  lemma DeleteDomainOrderly(seen: Db, db: Db, d: Id, y: Db)
    requires DeletedDomain(seen, db, d) == Ok(y) && Owned(db) && Tidy(db)
    ensures Orderly(db, y) && Constraints(y)
  {
    hide Constraints;
    SameRowsOrderly(db, y);
  }

  lemma CreateGroupOrderly(db: Db, g: Id, state: RuntimeState, y: Db)
    requires CreatedGroup(db, g, state) == Ok(y) && Owned(db) && Tidy(db)
    ensures Orderly(db, y) && Constraints(y)
  {
    hide Constraints;
    SameRowsOrderly(db, y);
  }

  lemma SetGroupStateOrderly(db: Db, g: Id, state: RuntimeState, y: Db)
    requires GroupStateSet(db, g, state) == Ok(y) && Owned(db) && Tidy(db)
    ensures Orderly(db, y) && Constraints(y)
  {
    hide Constraints;
    SameRowsOrderly(db, y);
  }

  lemma AcceptOrderly(seen: Db, db: Db, g: Id, force: bool, y: Db)
    requires Accepted(seen, db, g, force) == Ok(y) && Owned(db) && Tidy(db)
    ensures Orderly(db, y) && Constraints(y)
  {
    hide Constraints;
    SameRowsOrderly(db, y);
  }

  lemma DeleteGroupOrderly(seen: Db, db: Db, g: Id, y: Db)
    requires DeletedGroup(seen, db, g) == Ok(y) && Owned(db) && Tidy(db)
    ensures Orderly(db, y) && (Constraints(y) || y == db)
  {
    hide Constraints;
  }

  lemma SetAppStateOrderly(db: Db, g: Id, a: Id, state: RuntimeState, y: Db)
    requires AppStateSet(db, g, a, state) == Ok(y) && Owned(db) && Tidy(db)
    ensures Orderly(db, y) && (Constraints(y) || y == db)
  {
    hide Constraints, Owned, Tidy;
    AppRowOrderly(db, a, y.apps[a], y);
  }

  lemma RemovalOrderly(db: Db, gone: set<Id>, y: Db)
    requires y == DeleteApps(db, gone).(groups := y.groups) && Owned(db) && Tidy(db)
    ensures OrderlyRows(db, y)
  {
  }

  lemma EndOrderly(db: Db, g: Id, outcome: Option<Finished>, y: Db)
    requires g in db.groups && y == EndedRows(db, g, outcome) && Owned(db) && Tidy(db)
    ensures OrderlyRows(db, y)
  {
    if outcome.Some? && !outcome.value.ending.FellBack? {
      hide OrderlyRows;
      RemovalOrderly(db, PendingApps(db, g), y);
    }
  }

  // ---- One request ------------------------------------------------------------------------

  /** A request that read `seen` and then runs on `db`. */
  ghost predicate Ready(seen: Db, db: Db) {
    Sound(seen) && Sound(db) && Later(seen, db)
  }

  lemma ReadyFacts(seen: Db, db: Db)
    requires Ready(seen, db)
    ensures KeepGroup(seen, db) && KeepApp(seen, db) && Owned(db) && Tidy(db) && SourcesFit(db) && DomainsFit(db)
    ensures Homes(db)
  {
    IssuedOnce(seen, db);
    SameOwner(seen, db);
    ConstraintsFit(db);
  }

  predicate AboutResources(r: Request) {
    r.CreateResource? || r.UpdateResource? || r.DeleteResource? || r.Attach? || r.Detach?
  }

  predicate AboutApps(r: Request) {
    r.CreateApp? || r.UpdateApp? || r.MarkForDeletion? || r.SetEnvironment? || r.SetAppState?
  }

  predicate AboutEndpoints(r: Request) {
    r.CreateEndpoint? || r.UpdateEndpoint? || r.DeleteEndpoint?
  }

  predicate AboutDomains(r: Request) {
    r.CreateDomain? || r.MoveDomain? || r.DeleteDomain?
  }

  predicate AboutGroups(r: Request) {
    r.CreateGroup? || r.DeleteGroup? || r.SetGroupState? || r.AcceptDeployment?
  }

  lemma ResourceRequestIs(seen: Db, db: Db, r: Request)
    requires AboutResources(r)
    ensures match r
      case CreateResource(g, k, id, name, content) => Apply(seen, db, r) == CreatedResource(seen, db, g, k, id, name, content)
      case UpdateResource(g, k, id, rename, value) => Apply(seen, db, r) == UpdatedResource(seen, db, g, k, id, rename, value)
      case DeleteResource(g, k, id) => Apply(seen, db, r) == DeletedResource(seen, db, g, k, id)
      case Attach(g, k, id, row) => Apply(seen, db, r) == AttachedTo(seen, db, g, k, id, row)
      case Detach(g, k, a, id) => Apply(seen, db, r) == DetachedFrom(seen, db, g, k, a, id)
      case _ => false
  {
    hide CreatedResource, UpdatedResource, DeletedResource, AttachedTo, DetachedFrom;
  }

  lemma AppRequestIs(seen: Db, db: Db, r: Request)
    requires AboutApps(r)
    ensures match r
      case CreateApp(g, a, spec, state) => Apply(seen, db, r) == CreatedApp(seen, db, g, a, spec, state)
      case UpdateApp(g, a, change, state) => Apply(seen, db, r) == UpdatedApp(seen, db, g, a, change, state)
      case MarkForDeletion(g, a) => Apply(seen, db, r) == MarkedForDeletion(seen, db, g, a)
      case SetEnvironment(g, a, merge) => Apply(seen, db, r) == EnvironmentSet(seen, db, g, a, merge)
      case SetAppState(g, a, state) => Apply(seen, db, r) == AppStateSet(db, g, a, state)
      case _ => false
  {
    hide CreatedApp, UpdatedApp, EnvironmentSet, AppStateSet, MarkedForDeletion;
  }

  lemma EndpointRequestIs(seen: Db, db: Db, r: Request)
    requires AboutEndpoints(r)
    ensures match r
      case CreateEndpoint(g, id, row) => Apply(seen, db, r) == CreatedEndpoint(seen, db, g, id, row)
      case UpdateEndpoint(g, a, id, edit) => Apply(seen, db, r) == UpdatedEndpoint(seen, db, g, a, id, edit)
      case DeleteEndpoint(g, a, id) => Apply(seen, db, r) == DeletedEndpoint(seen, db, g, a, id)
      case _ => false
  {
    hide CreatedEndpoint, UpdatedEndpoint, DeletedEndpoint;
  }

  lemma DomainRequestIs(seen: Db, db: Db, r: Request)
    requires AboutDomains(r)
    ensures match r
      case CreateDomain(d, hostname, holder) => Apply(seen, db, r) == CreatedDomain(seen, db, d, hostname, holder)
      case MoveDomain(d, to) => Apply(seen, db, r) == MovedDomain(seen, db, d, to)
      case DeleteDomain(d) => Apply(seen, db, r) == DeletedDomain(seen, db, d)
      case _ => false
  {
    hide CreatedDomain, MovedDomain, DeletedDomain;
  }

  lemma GroupRequestIs(seen: Db, db: Db, r: Request)
    requires AboutGroups(r)
    ensures match r
      case CreateGroup(g, state) => Apply(seen, db, r) == CreatedGroup(db, g, state)
      case DeleteGroup(g) => Apply(seen, db, r) == DeletedGroup(seen, db, g)
      case SetGroupState(g, state) => Apply(seen, db, r) == GroupStateSet(db, g, state)
      case AcceptDeployment(g, force) => Apply(seen, db, r) == Accepted(seen, db, g, force)
      case _ => false
  {
    hide CreatedGroup, DeletedGroup, GroupStateSet, Accepted;
  }

  lemma EndOrDiscardIs(seen: Db, db: Db, r: Request)
    requires r.EndDeployment? || r.DiscardDraft?
    ensures match r
      case EndDeployment(g, outcome) => Apply(seen, db, r) == Ended(db, g, outcome)
      case DiscardDraft(g) => Apply(seen, db, r) == Discarded(seen, db, g)
      case _ => false
  {
    hide Ended, Discarded;
  }

  lemma ResourceRequestOrderly(seen: Db, db: Db, r: Request, y: Db)
    requires AboutResources(r) && Apply(seen, db, r) == Ok(y) && Owned(db) && Tidy(db) && KeepGroup(seen, db)
    ensures Orderly(db, y) && (Constraints(y) || y == db)
  {
    hide *;
    ResourceRequestIs(seen, db, r);
    match r
    case CreateResource(g, k, id, name, content) => CreateResourceOrderly(seen, db, g, k, id, name, content, y);
    case UpdateResource(g, k, id, rename, value) => UpdateResourceOrderly(seen, db, g, k, id, rename, value, y);
    case DeleteResource(g, k, id) => DeleteResourceOrderly(seen, db, g, k, id, y);
    case Attach(g, k, id, row) => AttachOrderly(seen, db, g, k, id, row, y);
    case Detach(g, k, a, id) => DetachOrderly(seen, db, g, k, a, id, y);
  }

  lemma AppRequestOrderly(seen: Db, db: Db, r: Request, y: Db)
    requires AboutApps(r) && Apply(seen, db, r) == Ok(y) && Owned(db) && Tidy(db)
    ensures Orderly(db, y) && (Constraints(y) || y == db)
  {
    hide *;
    AppRequestIs(seen, db, r);
    match r
    case CreateApp(g, a, spec, state) => CreateAppOrderly(seen, db, g, a, spec, state, y);
    case UpdateApp(g, a, change, state) => UpdateAppOrderly(seen, db, g, a, change, state, y);
    case MarkForDeletion(g, a) => MarkForDeletionOrderly(seen, db, g, a, y);
    case SetEnvironment(g, a, merge) => SetEnvironmentOrderly(seen, db, g, a, merge, y);
    case SetAppState(g, a, state) => SetAppStateOrderly(db, g, a, state, y);
  }

  lemma EndpointRequestOrderly(seen: Db, db: Db, r: Request, y: Db)
    requires AboutEndpoints(r) && Apply(seen, db, r) == Ok(y) && Owned(db) && Tidy(db)
    ensures Orderly(db, y) && (Constraints(y) || y == db)
  {
    hide *;
    EndpointRequestIs(seen, db, r);
    match r
    case CreateEndpoint(g, id, row) => CreateEndpointOrderly(seen, db, g, id, row, y);
    case UpdateEndpoint(g, a, id, edit) => UpdateEndpointOrderly(seen, db, g, a, id, edit, y);
    case DeleteEndpoint(g, a, id) => DeleteEndpointOrderly(seen, db, g, a, id, y);
  }

  lemma DomainRequestOrderly(seen: Db, db: Db, r: Request, y: Db)
    requires AboutDomains(r) && Apply(seen, db, r) == Ok(y) && Owned(db) && Tidy(db)
    ensures Orderly(db, y) && (Constraints(y) || y == db)
  {
    hide *;
    DomainRequestIs(seen, db, r);
    match r
    case CreateDomain(d, hostname, holder) => CreateDomainOrderly(seen, db, d, hostname, holder, y);
    case MoveDomain(d, to) => MoveDomainOrderly(seen, db, d, to, y);
    case DeleteDomain(d) => DeleteDomainOrderly(seen, db, d, y);
  }

  lemma GroupRequestOrderly(seen: Db, db: Db, r: Request, y: Db)
    requires AboutGroups(r) && Apply(seen, db, r) == Ok(y) && Owned(db) && Tidy(db)
    ensures Orderly(db, y) && (Constraints(y) || y == db)
  {
    hide *;
    GroupRequestIs(seen, db, r);
    match r
    case CreateGroup(g, state) => CreateGroupOrderly(db, g, state, y);
    case DeleteGroup(g) => DeleteGroupOrderly(seen, db, g, y);
    case SetGroupState(g, state) => SetGroupStateOrderly(db, g, state, y);
    case AcceptDeployment(g, force) => AcceptOrderly(seen, db, g, force, y);
  }

  // ---- The stamp after one request ----------------------------------------------------------

  /** Nothing the request decided on by its early reads has changed in a way that matters. */
  predicate Fresh(seen: Db, db: Db, r: Request) {
    match r
    case UpdateResource(g, k, id, rename, value) => FreshUpdate(seen, db, g, k, id, rename, value)
    case MoveDomain(d, to) =>
      d in seen.domains && d in db.domains ==>
        FreshMove(db, d, if to.Some? then to.value else db.domains[d].endpoint, MarkedByMove(seen, d, to))
    case DeleteDomain(d) =>
      d in seen.domains ==> FreshMove(db, d, None, Someone(HolderOf(seen, seen.domains[d].endpoint)))
    case DiscardDraft(g) =>
      g in seen.groups && seen.groups[g].hasPendingChanges && seen.groups[g].deployed.Some? ==>
        FreshDiscard(db, g, seen.groups[g].deployed.value)
    case _ => true
  }

  /** The stamps and markers are kept if the request is fresh, and some stamp is broken if not. */
  ghost predicate KeptIfFresh(seen: Db, db: Db, r: Request, y: Db) {
    (Fresh(seen, db, r) ==> AllKept(db, y)) && (!Fresh(seen, db, r) ==> !AllFaithful(db, y))
  }

  lemma QuietKeeps(x: Db, y: Db)
    requires Quiet(x, y)
    ensures AllKept(x, y)
  {
  }

  lemma NothingHappened(x: Db)
    ensures AllKept(x, x)
  {
  }

  lemma KeptAsAlwaysFresh(seen: Db, db: Db, r: Request, y: Db)
    requires !r.UpdateResource? && !r.MoveDomain? && !r.DeleteDomain? && !r.DiscardDraft? && AllKept(db, y)
    ensures KeptIfFresh(seen, db, r, y)
  {
    hide AllKept, AllFaithful, FreshUpdate, FreshMove, FreshDiscard;
  }

  lemma UpdateKeptIfFresh(seen: Db, db: Db, g: Id, k: Kind, id: Id, rename: Option<string>, value: Option<string>, y: Db)
    requires UpdatedResource(seen, db, g, k, id, rename, value) == Ok(y)
    requires KeepGroup(seen, db) && Tidy(db) && SourcesFit(db) && Homes(db)
    ensures KeptIfFresh(seen, db, UpdateResource(g, k, id, rename, value), y)
  {
    UpdateResourceKeeps(seen, db, g, k, id, rename, value, y);
    hide UpdatedResource, FreshUpdate, AllKept, AllFaithful, Tidy, SourcesFit, KeepGroup, Homes;
  }

  lemma MoveKeptIfFresh(seen: Db, db: Db, d: Id, to: Option<Option<Id>>, y: Db)
    requires MovedDomain(seen, db, d, to) == Ok(y) && KeepGroup(seen, db) && KeepApp(seen, db)
    ensures KeptIfFresh(seen, db, MoveDomain(d, to), y)
  {
    MoveDomainKeeps(seen, db, d, to, y);
    hide MovedDomain, FreshMove, MarkedByMove, AllKept, AllFaithful, KeepGroup, KeepApp;
  }

  lemma DeleteKeptIfFresh(seen: Db, db: Db, d: Id, y: Db)
    requires DeletedDomain(seen, db, d) == Ok(y)
    ensures KeptIfFresh(seen, db, DeleteDomain(d), y)
  {
    DeleteDomainKeeps(seen, db, d, y);
    hide DeletedDomain, FreshMove, Someone, HolderOf, AllKept, AllFaithful;
  }

  lemma ResourceRequestKeeps(seen: Db, db: Db, r: Request, y: Db)
    requires AboutResources(r) && Apply(seen, db, r) == Ok(y)
    requires KeepGroup(seen, db) && KeepApp(seen, db) && Owned(db) && Tidy(db) && SourcesFit(db) && Homes(db)
    ensures KeptIfFresh(seen, db, r, y)
  {
    hide *;
    ResourceRequestIs(seen, db, r);
    match r
    case CreateResource(g, k, id, name, content) =>
      CreateResourceQuiet(seen, db, g, k, id, name, content, y);
      QuietKeeps(db, y);
      KeptAsAlwaysFresh(seen, db, r, y);
    case UpdateResource(g, k, id, rename, value) => UpdateKeptIfFresh(seen, db, g, k, id, rename, value, y);
    case DeleteResource(g, k, id) =>
      DeleteResourceQuiet(seen, db, g, k, id, y);
      QuietKeeps(db, y);
      KeptAsAlwaysFresh(seen, db, r, y);
    case Attach(g, k, id, row) =>
      AttachTouches(seen, db, g, k, id, row, y);
      TouchesKeeps(g, db, y);
      KeptAsAlwaysFresh(seen, db, r, y);
    case Detach(g, k, a, id) =>
      DetachTouches(seen, db, g, k, a, id, y);
      TouchesKeeps(g, db, y);
      KeptAsAlwaysFresh(seen, db, r, y);
  }

  lemma MarkForDeletionKeeps(seen: Db, db: Db, g: Id, a: Id, y: Db)
    requires MarkedForDeletion(seen, db, g, a) == Ok(y) && KeepGroup(seen, db) && Tidy(db) && SourcesFit(db) && Homes(db)
    ensures AllKept(db, y)
  {
    hide MarkAndCheck, AllKept, Touches, Tidy, SourcesFit, Homes, KeepGroup;
    NothingHappened(db);
    if !seen.apps[a].pendingDeletion {
      MarkForDeletionTouches(seen, db, g, a, y);
      TouchesKeeps(g, db, y);
    }
  }

  lemma AppRequestKeeps(seen: Db, db: Db, r: Request, y: Db)
    requires AboutApps(r) && Apply(seen, db, r) == Ok(y)
    requires KeepGroup(seen, db) && Owned(db) && Tidy(db) && SourcesFit(db) && Homes(db)
    ensures AllKept(db, y)
  {
    hide *;
    AppRequestIs(seen, db, r);
    match r
    case CreateApp(g, a, spec, state) =>
      CreateAppTouches(seen, db, g, a, spec, state, y);
      TouchesKeeps(g, db, y);
    case UpdateApp(g, a, change, state) =>
      UpdateAppTouches(seen, db, g, a, change, state, y);
      TouchesKeeps(g, db, y);
    case MarkForDeletion(g, a) => MarkForDeletionKeeps(seen, db, g, a, y);
    case SetEnvironment(g, a, merge) =>
      SetEnvironmentTouches(seen, db, g, a, merge, y);
      TouchesKeeps(g, db, y);
    case SetAppState(g, a, state) =>
      SetAppStateQuiet(db, g, a, state, y);
      QuietKeeps(db, y);
  }

  lemma EndpointRequestKeeps(seen: Db, db: Db, r: Request, y: Db)
    requires AboutEndpoints(r) && Apply(seen, db, r) == Ok(y)
    requires KeepGroup(seen, db) && KeepApp(seen, db) && Owned(db) && Tidy(db)
    requires SourcesFit(db) && DomainsFit(db) && Homes(db)
    ensures AllKept(db, y)
  {
    hide *;
    EndpointRequestIs(seen, db, r);
    match r
    case CreateEndpoint(g, id, row) =>
      CreateEndpointTouches(seen, db, g, id, row, y);
      TouchesKeeps(g, db, y);
    case UpdateEndpoint(g, a, id, edit) =>
      UpdateEndpointTouches(seen, db, g, a, id, edit, y);
      TouchesKeeps(g, db, y);
    case DeleteEndpoint(g, a, id) =>
      DeleteEndpointTouches(seen, db, g, a, id, y);
      TouchesKeeps(g, db, y);
  }

  lemma DomainRequestKeeps(seen: Db, db: Db, r: Request, y: Db)
    requires AboutDomains(r) && Apply(seen, db, r) == Ok(y) && KeepGroup(seen, db) && KeepApp(seen, db)
    ensures KeptIfFresh(seen, db, r, y)
  {
    hide *;
    DomainRequestIs(seen, db, r);
    match r
    case CreateDomain(d, hostname, holder) =>
      CreateDomainKeeps(seen, db, d, hostname, holder, y);
      KeptAsAlwaysFresh(seen, db, r, y);
    case MoveDomain(d, to) => MoveKeptIfFresh(seen, db, d, to, y);
    case DeleteDomain(d) => DeleteKeptIfFresh(seen, db, d, y);
  }

  lemma GroupRequestKeeps(seen: Db, db: Db, r: Request, y: Db)
    requires AboutGroups(r) && Apply(seen, db, r) == Ok(y) && Tidy(db) && SourcesFit(db)
    ensures AllKept(db, y)
  {
    hide *;
    GroupRequestIs(seen, db, r);
    match r
    case CreateGroup(g, state) =>
      CreateGroupQuiet(db, g, state, y);
      QuietKeeps(db, y);
    case DeleteGroup(g) =>
      DeleteGroupTouches(seen, db, g, y);
      TouchesKeeps(g, db, y);
    case SetGroupState(g, state) =>
      SetGroupStateQuiet(db, g, state, y);
      QuietKeeps(db, y);
    case AcceptDeployment(g, force) =>
      AcceptQuiet(seen, db, g, force, y);
      QuietKeeps(db, y);
  }

  // ---- Any request ---------------------------------------------------------------------------

  /** The configuration that a discard of `g` would restore was built from the earlier state `b`. */
  ghost predicate BuiltFrom(db: Db, g: Id, b: Db, now: Db) {
    && Sound(b) && Later(b, now) && g in b.groups
    && g in db.groups && db.groups[g].deployed == Some(BuildStack(b, g))
  }

  lemma RequestOrderly(seen: Db, db: Db, r: Request, y: Db)
    requires Ready(seen, db) && Apply(seen, db, r) == Ok(y) && !r.EndDeployment? && !r.DiscardDraft?
    ensures Sound(y) && Later(db, y) && DeployedStays(db, y)
  {
    ReadyFacts(seen, db);
    if AboutResources(r) { ResourceRequestOrderly(seen, db, r, y); }
    else if AboutApps(r) { AppRequestOrderly(seen, db, r, y); }
    else if AboutEndpoints(r) { EndpointRequestOrderly(seen, db, r, y); }
    else if AboutDomains(r) { DomainRequestOrderly(seen, db, r, y); }
    else { GroupRequestOrderly(seen, db, r, y); }
  }

  lemma RequestKeeps(seen: Db, db: Db, r: Request, y: Db)
    requires Ready(seen, db) && Apply(seen, db, r) == Ok(y) && !r.EndDeployment? && !r.DiscardDraft?
    ensures KeptIfFresh(seen, db, r, y)
  {
    ReadyFacts(seen, db);
    if AboutResources(r) { ResourceRequestKeeps(seen, db, r, y); }
    else if AboutApps(r) { AppRequestKeeps(seen, db, r, y); }
    else if AboutEndpoints(r) { EndpointRequestKeeps(seen, db, r, y); }
    else if AboutDomains(r) { DomainRequestKeeps(seen, db, r, y); }
    else { GroupRequestKeeps(seen, db, r, y); }
  }

  lemma EndedSteps(db: Db, g: Id, outcome: Option<Finished>, y: Db)
    requires Ended(db, g, outcome) == Ok(y)
    ensures g in db.groups && y == EndedRows(db, g, outcome) && Constraints(y)
  {
    hide Constraints;
  }

  lemma EndRequest(db: Db, g: Id, outcome: Option<Finished>, y: Db)
    requires Owned(db) && Tidy(db) && Ended(db, g, outcome) == Ok(y)
    ensures Sound(y) && Later(db, y) && g in db.groups && y == EndedRows(db, g, outcome)
  {
    hide Constraints;
    EndedSteps(db, g, outcome, y);
    EndOrderly(db, g, outcome, y);
  }

  lemma DiscardedSteps(seen: Db, db: Db, g: Id, stack: Stack, y: Db)
    requires Discarded(seen, db, g) == Ok(y)
    requires g in seen.groups && seen.groups[g].deployed == Some(stack) && seen.groups[g].hasPendingChanges
    ensures g in db.groups && DiscardTx(db, g, stack) == Ok(y)
  {
    hide Constraints;
  }

  lemma DiscardRequest(b: Db, db: Db, g: Id, y: Db)
    requires Sound(b) && Sound(db) && Later(b, db) && g in b.groups && g in db.groups
    requires DiscardTx(db, g, BuildStack(b, g)) == Ok(y)
    ensures Sound(y) && Later(db, y) && DeployedStays(db, y) && Descends(b, db, g)
  {
    hide Constraints;
    DiscardStaysSound(b, db, g, y);
    DiscardIsARoundTrip(b, db, g);
  }

  lemma EndIsFaithful(db: Db, g: Id, outcome: Option<Finished>, y: Db)
    requires Ended(db, g, outcome) == Ok(y)
    ensures AllFaithful(db, y)
  {
    EndedSteps(db, g, outcome, y);
    EndKeeps(db, g, outcome, y);
  }

  lemma DiscardTxKeeps(b: Db, db: Db, g: Id, y: Db)
    requires Sound(b) && Sound(db) && Later(b, db) && g in b.groups && g in db.groups
    requires DiscardTx(db, g, BuildStack(b, g)) == Ok(y)
    ensures AllFaithful(db, y) <==> FreshDiscard(db, g, BuildStack(b, g))
  {
    hide Constraints;
    DiscardKeeps(b, db, g, y);
  }

  lemma PendingDiscardKeeps(seen: Db, db: Db, g: Id, b: Db, y: Db)
    requires Sound(db) && BuiltFrom(seen, g, b, db) && seen.groups[g].hasPendingChanges
    requires Discarded(seen, db, g) == Ok(y)
    ensures AllFaithful(db, y) <==> FreshDiscard(db, g, BuildStack(b, g))
  {
    hide Constraints;
    DiscardedSteps(seen, db, g, BuildStack(b, g), y);
    DiscardTxKeeps(b, db, g, y);
  }

  lemma NothingToDiscard(seen: Db, db: Db, g: Id, y: Db)
    requires g in seen.groups && !seen.groups[g].hasPendingChanges && Discarded(seen, db, g) == Ok(y)
    ensures AllFaithful(db, y)
  {
    hide Constraints;
  }

  lemma DiscardedKeeps(seen: Db, db: Db, g: Id, b: Db, y: Db)
    requires Sound(db) && Apply(seen, db, DiscardDraft(g)) == Ok(y)
    requires g in seen.groups && seen.groups[g].deployed.Some? ==> BuiltFrom(seen, g, b, db)
    ensures AllFaithful(db, y) <==> Fresh(seen, db, DiscardDraft(g))
  {
    hide Constraints;
    if seen.groups[g].hasPendingChanges {
      PendingDiscardKeeps(seen, db, g, b, y);
    } else {
      NothingToDiscard(seen, db, g, y);
    }
  }

  /** Exactly the fresh requests keep every stamp. */
  lemma StampKeptExactlyIfFresh(seen: Db, db: Db, r: Request, b: Db, y: Db)
    requires Ready(seen, db) && Apply(seen, db, r) == Ok(y)
    requires r.DiscardDraft? && r.group in seen.groups && seen.groups[r.group].deployed.Some? ==>
      BuiltFrom(seen, r.group, b, db)
    ensures AllFaithful(db, y) <==> Fresh(seen, db, r)
  {
    hide Constraints;
    if r.EndDeployment? {
      EndIsFaithful(db, r.group, r.outcome, y);
    } else if r.DiscardDraft? {
      DiscardedKeeps(seen, db, r.group, b, y);
    } else {
      RequestKeeps(seen, db, r, y);
    }
  }
}
