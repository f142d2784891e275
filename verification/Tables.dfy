/**
 The rows behind an App Group draft, the stack configuration built from them, and
 the part of a draft that a deployment can see.

 The services keep no state of their own: a transaction is a change of `Db`.
 Variables, configs and secrets have the same shape, and so have their attachments
 and those of volumes; a `Kind` stands for the table the row is in.
 */
module Tables {
  import opened Prelude

  type Id = nat

  datatype Kind = Variable | Config | Secret | Volume

  datatype RuntimeState = Running | Stopped

  datatype EnvValue = Text(text: string) | Other

  datatype Spec = Spec(
    name: string, image: string, registryId: Option<Id>, desiredReplicas: int,
    cpu: real, memoryBytes: int, gpu: int, environment: map<string, EnvValue>,
    healthCheck: Option<string>, entrypoint: Option<string>, command: seq<string>,
    workingDir: Option<string>, user: Option<string>, readOnlyRootFilesystem: bool,
    stopGracePeriodSeconds: int, restartPolicy: string, updatePolicy: string)

  datatype App = App(group: Id, spec: Spec, runtimeState: RuntimeState, pendingDeletion: bool)

  /** `content` is a variable's value or a config's text; it is empty for a secret.
      `version` counts the contents of a config and the values of a secret. */
  datatype Resource = Resource(group: Id, name: string, content: string, version: nat)

  datatype Attachment = Attachment(app: Id, source: Id, target: string, readOnly: bool)

  datatype Endpoint = Endpoint(app: Id, name: string, containerPort: int, protocolMode: string)

  datatype Domain = Domain(hostname: string, endpoint: Option<Id>)

  /** `busy` says that a deployment of the group is Pending, Deploying or RollingBack, and
      `deployed` is the stack configuration of the current version, if it has one. */
  datatype Group = Group(
    runtimeState: RuntimeState, deleting: bool, hasPendingChanges: bool, revision: nat,
    busy: bool, deployed: Option<Stack>)

  /** The owner maps remember what an id was issued for: the group of an app or of a resource,
      the app of an attachment or of an endpoint. */
  datatype Db = Db(
    groups: map<Id, Group>,
    apps: map<Id, App>,
    resources: map<(Kind, Id), Resource>,
    volumes: set<Id>,
    attachments: map<(Kind, Id), Attachment>,
    endpoints: map<Id, Endpoint>,
    domains: map<Id, Domain>,
    appOwner: map<Id, Id>,
    resourceOwner: map<(Kind, Id), Id>,
    attachmentOwner: map<(Kind, Id), Id>,
    endpointOwner: map<Id, Id>)

  // ---- Constraints of the schema ---------------------------------------------

  predicate ResourceRows(db: Db) {
    && (forall k | k in db.resources :: !k.0.Volume? && db.resources[k].group in db.groups)
    && (forall k, l | k in db.resources && l in db.resources && k.0 == l.0 &&
          db.resources[k].group == db.resources[l].group && db.resources[k].name == db.resources[l].name :: k == l)
  }

  predicate AppRows(db: Db) {
    && (forall a | a in db.apps :: db.apps[a].group in db.groups)
    && (forall a, b | a in db.apps && b in db.apps && db.apps[a].group == db.apps[b].group &&
          db.apps[a].spec.name == db.apps[b].spec.name :: a == b)
  }

  predicate AttachmentRows(db: Db) {
    && (forall t | t in db.attachments :: db.attachments[t].app in db.apps)
    && (forall t | t in db.attachments ::
          if t.0.Volume? then db.attachments[t].source in db.volumes
          else (t.0, db.attachments[t].source) in db.resources)
    && (forall t, u | t in db.attachments && u in db.attachments && t.0 == u.0 &&
          db.attachments[t].app == db.attachments[u].app &&
          (db.attachments[t].source == db.attachments[u].source ||
           db.attachments[t].target == db.attachments[u].target) :: t == u)
  }

  predicate EndpointRows(db: Db) {
    && (forall e | e in db.endpoints :: db.endpoints[e].app in db.apps)
    && (forall e, f | e in db.endpoints && f in db.endpoints &&
          db.endpoints[e].app == db.endpoints[f].app && db.endpoints[e].name == db.endpoints[f].name :: e == f)
    && (forall d | d in db.domains && db.domains[d].endpoint.Some? ::
          db.domains[d].endpoint.value in db.endpoints)
  }

  /** The foreign keys and unique indexes that the database enforces after every statement. */
  predicate Constraints(db: Db) {
    ResourceRows(db) && AppRows(db) && AttachmentRows(db) && EndpointRows(db)
  }

  /** Domains point to endpoints that exist. */
  predicate DomainsFit(db: Db) {
    forall d | d in db.domains && db.domains[d].endpoint.Some? :: db.domains[d].endpoint.value in db.endpoints
  }

  /** Attachments point to rows that exist, and volumes keep their attributes elsewhere. */
  predicate SourcesFit(db: Db) {
    && (forall k | k in db.resources :: !k.0.Volume?)
    && (forall t | t in db.attachments && !t.0.Volume? :: (t.0, db.attachments[t].source) in db.resources)
  }

  lemma ConstraintsFit(db: Db)
    requires Constraints(db)
    ensures SourcesFit(db) && DomainsFit(db)
  {
  }

  /** Attachments stay within a group: the services look both ends up in it. */
  predicate Tidy(db: Db) {
    forall t | t in db.attachments && !t.0.Volume? ::
      var key := (t.0, db.attachments[t].source);
      key in db.resources && db.attachments[t].app in db.apps &&
      db.resources[key].group == db.apps[db.attachments[t].app].group
  }

  /** Ids are random: one that was issued is never issued again for something else. */
  predicate Owned(db: Db) {
    && (forall a | a in db.apps :: a in db.appOwner && db.appOwner[a] == db.apps[a].group)
    && (forall k | k in db.resources :: k in db.resourceOwner && db.resourceOwner[k] == db.resources[k].group)
    && (forall t | t in db.attachments :: t in db.attachmentOwner && db.attachmentOwner[t] == db.attachments[t].app)
    && (forall e | e in db.endpoints :: e in db.endpointOwner && db.endpointOwner[e] == db.endpoints[e].app)
  }

  predicate Later(before: Db, after: Db) {
    && before.appOwner.Items <= after.appOwner.Items
    && before.resourceOwner.Items <= after.resourceOwner.Items
    && before.attachmentOwner.Items <= after.attachmentOwner.Items
    && before.endpointOwner.Items <= after.endpointOwner.Items
  }

  /** Rows of `now` that were there at `b` are in the same group. */
  predicate KeepGroup(b: Db, now: Db) {
    && (forall a | a in b.apps && a in now.apps :: now.apps[a].group == b.apps[a].group)
    && (forall k | k in b.resources && k in now.resources :: now.resources[k].group == b.resources[k].group)
  }

  lemma IssuedOnce(b: Db, now: Db)
    requires Owned(b) && Owned(now) && Later(b, now)
    ensures KeepGroup(b, now)
  {
    forall a | a in b.apps && a in now.apps ensures now.apps[a].group == b.apps[a].group {
      assert (a, b.appOwner[a]) in b.appOwner.Items;
      assert (a, b.appOwner[a]) in now.appOwner.Items;
    }
    forall k | k in b.resources && k in now.resources ensures now.resources[k].group == b.resources[k].group {
      assert (k, b.resourceOwner[k]) in b.resourceOwner.Items;
      assert (k, b.resourceOwner[k]) in now.resourceOwner.Items;
    }
  }

  // ---- The stack configuration ------------------------------------------------

  datatype AttEntry = AttEntry(id: Id, source: Id, name: string, target: string,
                               content: string, version: nat, readOnly: bool)

  datatype EndpointEntry = EndpointEntry(id: Id, name: string, containerPort: int, protocolMode: string,
                                         domains: seq<Id>)

  datatype AppEntry = AppEntry(
    id: Id, spec: Spec, runtimeState: RuntimeState,
    variables: seq<AttEntry>, secrets: seq<AttEntry>, configs: seq<AttEntry>,
    endpoints: seq<EndpointEntry>, volumes: seq<AttEntry>)

  datatype Stack = Stack(runtimeState: RuntimeState, apps: seq<AppEntry>)

  /** Lists are sorted by keys that are unique in their table, so the order of a list is
      settled by the set of rows in it. Which order that is does not matter here. */
  ghost function Ordered(s: set<Id>): (ids: seq<Id>)
    ensures forall x :: x in s <==> x in ids
    ensures forall i, j :: 0 <= i < j < |ids| ==> ids[i] != ids[j]
  {
    if s == {} then [] else
      var x :| x in s;
      [x] + Ordered(s - {x})
  }

  /** Only the text entries of the environment column are read. */
  function TextOnly(spec: Spec): Spec {
    spec.(environment := map n | n in spec.environment && spec.environment[n].Text? :: spec.environment[n])
  }

  predicate LiveIn(apps: map<Id, App>, g: Id, a: Id) {
    a in apps && apps[a].group == g && !apps[a].pendingDeletion
  }

  predicate Live(db: Db, g: Id, a: Id) {
    LiveIn(db.apps, g, a)
  }

  function AttachmentsOf(db: Db, a: Id, k: Kind): set<Id> {
    set t | t in db.attachments && t.0 == k && db.attachments[t].app == a :: t.1
  }

  function EndpointsOf(db: Db, a: Id): set<Id> {
    set e | e in db.endpoints && db.endpoints[e].app == a
  }

  function DomainsOf(db: Db, e: Id): set<Id> {
    set d | d in db.domains && db.domains[d].endpoint == Some(e)
  }

  /** What an entry shows of the row it points to: of a secret the version, of a volume nothing. */
  function PayloadIn(resources: map<(Kind, Id), Resource>, k: Kind, source: Id): (string, string, nat) {
    if (k, source) !in resources then ("", "", 0) else
      var row := resources[(k, source)];
      if k.Secret? then ("", "", row.version) else (row.name, row.content, row.version)
  }

  function Payload(db: Db, k: Kind, source: Id): (string, string, nat) {
    PayloadIn(db.resources, k, source)
  }

  function EntryOf(db: Db, k: Kind, t: Id): AttEntry
    requires (k, t) in db.attachments
  {
    var row := db.attachments[(k, t)];
    var (name, content, version) := Payload(db, k, row.source);
    AttEntry(t, row.source, name, row.target, content, version, row.readOnly)
  }

  ghost function AttEntries(db: Db, a: Id, k: Kind): seq<AttEntry> {
    var ids := Ordered(AttachmentsOf(db, a, k));
    seq(|ids|, i requires 0 <= i < |ids| => assert ids[i] in ids; EntryOf(db, k, ids[i]))
  }

  ghost function EndpointEntryOf(db: Db, e: Id): EndpointEntry
    requires e in db.endpoints
  {
    var row := db.endpoints[e];
    EndpointEntry(e, row.name, row.containerPort, row.protocolMode, Ordered(DomainsOf(db, e)))
  }

  ghost function EndpointEntries(db: Db, a: Id): seq<EndpointEntry> {
    var ids := Ordered(EndpointsOf(db, a));
    seq(|ids|, i requires 0 <= i < |ids| => assert ids[i] in ids; EndpointEntryOf(db, ids[i]))
  }

  ghost function AppEntryOf(db: Db, a: Id): AppEntry
    requires a in db.apps
  {
    AppEntry(a, TextOnly(db.apps[a].spec), db.apps[a].runtimeState,
             AttEntries(db, a, Variable), AttEntries(db, a, Secret), AttEntries(db, a, Config),
             EndpointEntries(db, a), AttEntries(db, a, Volume))
  }

  function LiveApps(db: Db, g: Id): set<Id> {
    set a | a in db.apps && Live(db, g, a)
  }

  ghost function BuildStack(db: Db, g: Id): Stack
    requires g in db.groups
  {
    var ids := Ordered(LiveApps(db, g));
    Stack(db.groups[g].runtimeState,
          seq(|ids|, i requires 0 <= i < |ids| => assert ids[i] in ids; AppEntryOf(db, ids[i])))
  }

  // ---- What a deployment of the draft would run --------------------------------

  /** Everything in the stack configuration except runtime states and the names of
      variables, configs and secrets. */
  datatype Content = Content(
    apps: map<Id, Spec>,
    attachments: map<(Kind, Id), (Attachment, string, nat)>,
    endpoints: map<Id, Endpoint>,
    domains: map<Id, Id>)

  function AppContents(apps: map<Id, App>, g: Id): map<Id, Spec> {
    map a | a in apps && LiveIn(apps, g, a) :: TextOnly(apps[a].spec)
  }

  function AttachmentContents(apps: map<Id, App>, attachments: map<(Kind, Id), Attachment>,
                              resources: map<(Kind, Id), Resource>, g: Id): map<(Kind, Id), (Attachment, string, nat)> {
    map t | t in attachments && LiveIn(apps, g, attachments[t].app) ::
      (attachments[t], PayloadIn(resources, t.0, attachments[t].source).1, PayloadIn(resources, t.0, attachments[t].source).2)
  }

  function EndpointContents(apps: map<Id, App>, endpoints: map<Id, Endpoint>, g: Id): map<Id, Endpoint> {
    map e | e in endpoints && LiveIn(apps, g, endpoints[e].app) :: endpoints[e]
  }

  function DomainContents(apps: map<Id, App>, endpoints: map<Id, Endpoint>, domains: map<Id, Domain>, g: Id): map<Id, Id> {
    map d | d in domains && domains[d].endpoint.Some? && domains[d].endpoint.value in endpoints &&
            LiveIn(apps, g, endpoints[domains[d].endpoint.value].app) :: domains[d].endpoint.value
  }

  function ContentOf(db: Db, g: Id): Content {
    Content(AppContents(db.apps, g), AttachmentContents(db.apps, db.attachments, db.resources, g),
            EndpointContents(db.apps, db.endpoints, g), DomainContents(db.apps, db.endpoints, db.domains, g))
  }
}
