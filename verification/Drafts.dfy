/**
 Everything that changes the draft of an App Group or the rows it is built from.

 A request first reads the tables, at a moment when they are `seen`, and later runs its
 transaction on the tables `db`, which others may have changed in between. A transaction
 that fails leaves `db` as it is.
 */
module Drafts {
  import opened Prelude
  import opened Tables
  import opened Discard

  /** A deployment succeeded, or was a rollback itself, or failed and fell back to an earlier one. */
  datatype Ending = Deployed | RolledBack | FellBack

  /** What runs after a deployment that did not fail for good, and the revision it was built at. */
  datatype Finished = Finished(stack: Stack, source: nat, ending: Ending)

  datatype Request =
    | CreateGroup(group: Id, state: RuntimeState)
    | CreateResource(group: Id, kind: Kind, id: Id, name: string, content: string)
    | UpdateResource(group: Id, kind: Kind, id: Id, rename: Option<string>, value: Option<string>)
    | DeleteResource(group: Id, kind: Kind, id: Id)
    | Attach(group: Id, kind: Kind, id: Id, attachment: Attachment)
    | Detach(group: Id, kind: Kind, app: Id, id: Id)
    | CreateApp(group: Id, app: Id, spec: Spec, state: RuntimeState)
    | UpdateApp(group: Id, app: Id, change: Spec -> Spec, newState: Option<RuntimeState>)
    | MarkForDeletion(group: Id, app: Id)
    | SetEnvironment(group: Id, app: Id, merge: Option<map<string, EnvValue> -> map<string, EnvValue>>)
    | CreateEndpoint(group: Id, id: Id, endpoint: Endpoint)
    | UpdateEndpoint(group: Id, app: Id, id: Id, edit: Endpoint -> Endpoint)
    | DeleteEndpoint(group: Id, app: Id, id: Id)
    | CreateDomain(domain: Id, hostname: string, holder: Option<Id>)
    | MoveDomain(domain: Id, to: Option<Option<Id>>)
    | DeleteDomain(domain: Id)
    | DeleteGroup(group: Id)
    | SetGroupState(group: Id, state: RuntimeState)
    | SetAppState(group: Id, app: Id, state: RuntimeState)
    | AcceptDeployment(group: Id, force: bool)
    | EndDeployment(group: Id, outcome: Option<Finished>)
    | DiscardDraft(group: Id)

  /** The draft counts as changed from now on, and its revision grows. */
  function Bump(group: Group): Group {
    group.(hasPendingChanges := true, revision := group.revision + 1)
  }

  function Marked(db: Db, g: Id): Db
    requires g in db.groups
  {
    db.(groups := db.groups[g := Bump(db.groups[g])])
  }

  /** The end of a transaction that marks the group. */
  function MarkAndCheck(db: Db, g: Id): Tx {
    if g !in db.groups then Err(RowMissing) else Checked(Marked(db, g))
  }

  predicate AppIn(db: Db, g: Id, a: Id) {
    a in db.apps && db.apps[a].group == g
  }

  /** What most requests look up first: the app is in the group and not pending deletion. */
  function EnsureLive(seen: Db, g: Id, a: Id): Result<(), Failure> {
    if !AppIn(seen, g, a) then Err(NotFound)
    else if seen.apps[a].pendingDeletion then Err(PendingDeletion) else Ok(())
  }

  predicate ResourceIn(db: Db, g: Id, k: Kind, id: Id) {
    (k, id) in db.resources && db.resources[(k, id)].group == g
  }

  predicate Attached(db: Db, k: Kind, id: Id) {
    exists t | t in db.attachments :: t.0 == k && db.attachments[t].source == id
  }

  // ---- Variables, configs and secrets ----------------------------------------------

  function CreatedResource(seen: Db, db: Db, g: Id, k: Kind, id: Id, name: string, content: string): Tx {
    if g !in seen.groups then Err(NotFound) else
    if (k, id) in db.resourceOwner then Err(ConstraintViolated) else
    var row := Resource(g, name, if k.Secret? then "" else content, if k.Variable? then 0 else 1);
    Checked(db.(resources := db.resources[(k, id) := row], resourceOwner := db.resourceOwner[(k, id) := g]))
  }

  /** Whether an update is taken to change the content, judged by the row that was read. */
  predicate Changes(k: Kind, existing: Resource, value: Option<string>) {
    value.Some? && (k.Secret? || value.value != existing.content)
  }

  function UpdatedRow(k: Kind, existing: Resource, row: Resource, rename: Option<string>, value: Option<string>): Resource {
    row.(name := if rename.Some? then rename.value else row.name,
         content := if value.Some? && !k.Secret? then value.value else row.content,
         version := if !k.Variable? && Changes(k, existing, value) then row.version + 1 else row.version)
  }

  function UpdatedResource(seen: Db, db: Db, g: Id, k: Kind, id: Id, rename: Option<string>, value: Option<string>): Tx {
    if !ResourceIn(seen, g, k, id) then Err(NotFound) else
    if (k, id) !in db.resources then Err(RowMissing) else
    var existing := seen.resources[(k, id)];
    var written := db.(resources := db.resources[(k, id) := UpdatedRow(k, existing, db.resources[(k, id)], rename, value)]);
    if Changes(k, existing, value) && Attached(seen, k, id) then MarkAndCheck(written, g) else Checked(written)
  }

  predicate InDeployed(db: Db, g: Id, secret: Id) {
    g in db.groups && db.groups[g].deployed.Some? &&
    exists a | a in db.groups[g].deployed.value.apps :: exists s | s in a.secrets :: s.source == secret
  }

  function DeletedResource(seen: Db, db: Db, g: Id, k: Kind, id: Id): Tx {
    if !ResourceIn(seen, g, k, id) then Err(NotFound) else
    if Attached(seen, k, id) || (k.Secret? && InDeployed(seen, g, id)) then Err(InUse) else
    if (k, id) !in db.resources then Err(RowMissing) else
    Checked(db.(resources := db.resources - {(k, id)}))
  }

  function AttachedTo(seen: Db, db: Db, g: Id, k: Kind, id: Id, row: Attachment): Tx {
    var _ :- EnsureLive(seen, g, row.app);
    if k.Volume? && row.source !in seen.volumes then Err(NotFound) else
    if !k.Volume? && !ResourceIn(seen, g, k, row.source) then Err(NotFound) else
    if k.Volume? && row.source !in db.volumes then Err(InUse) else
    if (k, id) in db.attachmentOwner then Err(ConstraintViolated) else
    MarkAndCheck(db.(attachments := db.attachments[(k, id) := row],
                     attachmentOwner := db.attachmentOwner[(k, id) := row.app]), g)
  }

  function DetachedFrom(seen: Db, db: Db, g: Id, k: Kind, a: Id, id: Id): Tx {
    if !AppIn(seen, g, a) || (k, id) !in seen.attachments || seen.attachments[(k, id)].app != a then Err(NotFound) else
    if (k, id) !in db.attachments then Err(RowMissing) else
    MarkAndCheck(db.(attachments := db.attachments - {(k, id)}), g)
  }

  // ---- Groups and apps ---------------------------------------------------------------

  function CreatedGroup(db: Db, g: Id, state: RuntimeState): Tx {
    if g in db.groups then Err(ConstraintViolated) else
    Checked(db.(groups := db.groups[g := Group(state, false, false, 0, false, None)]))
  }

  function CreatedApp(seen: Db, db: Db, g: Id, a: Id, spec: Spec, state: RuntimeState): Tx {
    if g !in seen.groups || g !in db.groups then Err(NotFound) else
    if a in db.appOwner then Err(ConstraintViolated) else
    MarkAndCheck(db.(apps := db.apps[a := App(g, spec, state, false)], appOwner := db.appOwner[a := g]), g)
  }

  function UpdatedApp(seen: Db, db: Db, g: Id, a: Id, change: Spec -> Spec, state: Option<RuntimeState>): Tx {
    var _ :- EnsureLive(seen, g, a);
    var _ :- EnsureLive(db, g, a);
    var row := db.apps[a].(spec := change(db.apps[a].spec),
                           runtimeState := if state.Some? then state.value else db.apps[a].runtimeState);
    MarkAndCheck(db.(apps := db.apps[a := row]), g)
  }

  function MarkedForDeletion(seen: Db, db: Db, g: Id, a: Id): Tx {
    if !AppIn(seen, g, a) then Err(NotFound) else
    if seen.apps[a].pendingDeletion then Ok(db) else
    if a !in db.apps then Err(RowMissing) else
    MarkAndCheck(db.(apps := db.apps[a := db.apps[a].(pendingDeletion := true)]), g)
  }

  /** The new environment is computed from the one that was read. */
  function EnvironmentSet(seen: Db, db: Db, g: Id, a: Id,
                          merge: Option<map<string, EnvValue> -> map<string, EnvValue>>): Tx {
    var _ :- EnsureLive(seen, g, a);
    if merge.None? then MarkAndCheck(db, g) else
    if a !in db.apps then Err(RowMissing) else
    var spec := db.apps[a].spec.(environment := merge.value(seen.apps[a].spec.environment));
    MarkAndCheck(db.(apps := db.apps[a := db.apps[a].(spec := spec)]), g)
  }

  function StoppedApps(apps: map<Id, App>, g: Id): map<Id, App> {
    map a | a in apps ::
      if apps[a].group == g then apps[a].(pendingDeletion := true, runtimeState := Stopped) else apps[a]
  }

  function DeletedGroup(seen: Db, db: Db, g: Id): Tx {
    if g !in seen.groups then Err(NotFound) else
    if g !in db.groups then Err(RowMissing) else
    if db.groups[g].busy then Err(Busy) else
    var group := Bump(db.groups[g]).(deleting := true, runtimeState := Stopped);
    Checked(db.(apps := StoppedApps(db.apps, g), groups := db.groups[g := group]))
  }

  function GroupStateSet(db: Db, g: Id, state: RuntimeState): Tx {
    if g !in db.groups then Err(NotFound) else
    if db.groups[g].busy then Err(Busy) else
    Checked(db.(groups := db.groups[g := db.groups[g].(runtimeState := state)]))
  }

  function AppStateSet(db: Db, g: Id, a: Id, state: RuntimeState): Tx {
    if g !in db.groups then Err(NotFound) else
    var _ :- EnsureLive(db, g, a);
    if db.groups[g].busy then Err(Busy) else
    Checked(db.(apps := db.apps[a := db.apps[a].(runtimeState := state)]))
  }

  // ---- Endpoints and domains ------------------------------------------------------------

  function CreatedEndpoint(seen: Db, db: Db, g: Id, id: Id, row: Endpoint): Tx {
    var _ :- EnsureLive(seen, g, row.app);
    if id in db.endpointOwner then Err(ConstraintViolated) else
    MarkAndCheck(db.(endpoints := db.endpoints[id := row], endpointOwner := db.endpointOwner[id := row.app]), g)
  }

  predicate EndpointIn(db: Db, a: Id, id: Id) {
    id in db.endpoints && db.endpoints[id].app == a
  }

  function UpdatedEndpoint(seen: Db, db: Db, g: Id, a: Id, id: Id, edit: Endpoint -> Endpoint): Tx {
    var _ :- EnsureLive(seen, g, a);
    if !EndpointIn(seen, a, id) then Err(NotFound) else
    if id !in db.endpoints then Err(RowMissing) else
    var row := edit(db.endpoints[id]).(app := db.endpoints[id].app);
    MarkAndCheck(db.(endpoints := db.endpoints[id := row]), g)
  }

  /** Domains of a deleted endpoint that were attached after the check become free. */
  function DeletedEndpoint(seen: Db, db: Db, g: Id, a: Id, id: Id): Tx {
    var _ :- EnsureLive(seen, g, a);
    if !EndpointIn(seen, a, id) then Err(NotFound) else
    if exists d | d in seen.domains :: seen.domains[d].endpoint == Some(id) then Err(InUse) else
    if id !in db.endpoints then Err(RowMissing) else
    MarkAndCheck(db.(endpoints := db.endpoints - {id},
                     domains := map d | d in db.domains ::
                       if db.domains[d].endpoint == Some(id) then db.domains[d].(endpoint := None) else db.domains[d]), g)
  }

  /** The group that an endpoint serves. */
  function HolderOf(db: Db, e: Option<Id>): Option<Id> {
    if e.Some? && e.value in db.endpoints && db.endpoints[e.value].app in db.apps
    then Some(db.apps[db.endpoints[e.value].app].group) else None
  }

  function MarkHolder(db: Db, holder: Option<Id>): Tx {
    if holder.None? then Ok(db) else
    if holder.value !in db.groups then Err(RowMissing) else Ok(Marked(db, holder.value))
  }

  /** The rows after the statements of the request, before the constraints are checked. */
  function CreatedDomainRows(seen: Db, db: Db, d: Id, hostname: string, holder: Option<Id>): Tx {
    if holder.Some? && HolderOf(seen, holder).None? then Err(NotFound) else
    if d in db.domains || exists o | o in db.domains :: db.domains[o].hostname == hostname then Err(ConstraintViolated) else
    MarkHolder(db.(domains := db.domains[d := Domain(hostname, holder)]), HolderOf(seen, holder))
  }

  function CreatedDomain(seen: Db, db: Db, d: Id, hostname: string, holder: Option<Id>): Tx {
    var rows :- CreatedDomainRows(seen, db, d, hostname, holder);
    Checked(rows)
  }

  /** Both the group that held the domain when it was read and the new one are marked, once. */
  function MovedDomainRows(seen: Db, db: Db, d: Id, to: Option<Option<Id>>): Tx {
    if d !in seen.domains then Err(NotFound) else
    var next := if to.Some? then HolderOf(seen, to.value) else None;
    var current := HolderOf(seen, seen.domains[d].endpoint);
    if to.Some? && to.value.Some? && next.None? then Err(NotFound) else
    if d !in db.domains then Err(RowMissing) else
    var row := if to.Some? then db.domains[d].(endpoint := to.value) else db.domains[d];
    var first :- MarkHolder(db.(domains := db.domains[d := row]), current);
    MarkHolder(first, if next == current then None else next)
  }

  function MovedDomain(seen: Db, db: Db, d: Id, to: Option<Option<Id>>): Tx {
    var rows :- MovedDomainRows(seen, db, d, to);
    Checked(rows)
  }

  function DeletedDomain(seen: Db, db: Db, d: Id): Tx {
    if d !in seen.domains then Err(NotFound) else
    if d !in db.domains then Err(RowMissing) else
    var marked :- MarkHolder(db.(domains := db.domains - {d}), HolderOf(seen, seen.domains[d].endpoint));
    Checked(marked)
  }

  // ---- Deployments and discard -------------------------------------------------------------

  function Accepted(seen: Db, db: Db, g: Id, force: bool): Tx {
    if g !in seen.groups then Err(NotFound) else
    if !force && !seen.groups[g].hasPendingChanges then Err(NoPendingChanges) else
    if !(exists a | a in seen.apps :: Live(seen, g, a)) then Err(NoActiveApps) else
    if exists e | e in seen.endpoints ::
         Live(seen, g, seen.endpoints[e].app) && !(1 <= seen.endpoints[e].containerPort <= 65535) then Err(Invalid) else
    if g !in db.groups then Err(RowMissing) else
    if db.groups[g].busy then Err(Busy) else
    Checked(db.(groups := db.groups[g := db.groups[g].(busy := true)]))
  }

  function PendingApps(db: Db, g: Id): set<Id> {
    set a | a in db.apps && db.apps[a].group == g && db.apps[a].pendingDeletion
  }

  /** Apps that were pending deletion are removed, unless the deployment fell back. The draft stays
      changed after a rollback of either kind, or if its revision moved since the configuration
      was built. */
  function EndedRows(db: Db, g: Id, outcome: Option<Finished>): Db
    requires g in db.groups
  {
    var group := db.groups[g].(busy := false);
    if outcome.None? then db.(groups := db.groups[g := group]) else
    var done := outcome.value;
    var changed := !done.ending.Deployed? || group.revision != done.source;
    var rows := if done.ending.FellBack? then db else DeleteApps(db, PendingApps(db, g));
    rows.(
      groups := db.groups[g := group.(deployed := Some(done.stack), hasPendingChanges := changed)])
  }

  function Ended(db: Db, g: Id, outcome: Option<Finished>): Tx {
    if g !in db.groups then Err(RowMissing) else Checked(EndedRows(db, g, outcome))
  }

  function Discarded(seen: Db, db: Db, g: Id): Tx {
    if g !in seen.groups then Err(NotFound) else
    if !seen.groups[g].hasPendingChanges then Ok(db) else
    if seen.groups[g].deployed.None? then Err(NothingDeployed) else
    if g !in db.groups then Err(RowMissing) else
    DiscardTx(db, g, seen.groups[g].deployed.value)
  }

  /** The transaction of a request. */
  function Apply(seen: Db, db: Db, r: Request): Tx {
    match r
    case CreateGroup(g, state) => CreatedGroup(db, g, state)
    case CreateResource(g, k, id, name, content) => CreatedResource(seen, db, g, k, id, name, content)
    case UpdateResource(g, k, id, rename, value) => UpdatedResource(seen, db, g, k, id, rename, value)
    case DeleteResource(g, k, id) => DeletedResource(seen, db, g, k, id)
    case Attach(g, k, id, row) => AttachedTo(seen, db, g, k, id, row)
    case Detach(g, k, a, id) => DetachedFrom(seen, db, g, k, a, id)
    case CreateApp(g, a, spec, state) => CreatedApp(seen, db, g, a, spec, state)
    case UpdateApp(g, a, change, state) => UpdatedApp(seen, db, g, a, change, state)
    case MarkForDeletion(g, a) => MarkedForDeletion(seen, db, g, a)
    case SetEnvironment(g, a, merge) => EnvironmentSet(seen, db, g, a, merge)
    case CreateEndpoint(g, id, row) => CreatedEndpoint(seen, db, g, id, row)
    case UpdateEndpoint(g, a, id, edit) => UpdatedEndpoint(seen, db, g, a, id, edit)
    case DeleteEndpoint(g, a, id) => DeletedEndpoint(seen, db, g, a, id)
    case CreateDomain(d, hostname, holder) => CreatedDomain(seen, db, d, hostname, holder)
    case MoveDomain(d, to) => MovedDomain(seen, db, d, to)
    case DeleteDomain(d) => DeletedDomain(seen, db, d)
    case DeleteGroup(g) => DeletedGroup(seen, db, g)
    case SetGroupState(g, state) => GroupStateSet(db, g, state)
    case SetAppState(g, a, state) => AppStateSet(db, g, a, state)
    case AcceptDeployment(g, force) => Accepted(seen, db, g, force)
    case EndDeployment(g, outcome) => Ended(db, g, outcome)
    case DiscardDraft(g) => Discarded(seen, db, g)
  }
}
