/**
 Applying a manifest: one transaction that creates a group with everything in it, or leaves no
 trace. Ids are handed out in order from `base`, above which none is in use.
 */
module ManifestImport {
  import opened Prelude
  import T = Tables
  import M = Manifest
  import R = ManifestRules
  import X = ManifestText
  import Q = Quota

  type Id = T.Id
  type Attachments = map<(T.Kind, Id), T.Attachment>
  type Resources = map<(T.Kind, Id), T.Resource>
  type Endpoints = map<Id, T.Endpoint>
  type Domains = map<Id, T.Domain>

  datatype Failure = QuotaExceeded | MissingResource | Conflict | DomainAttachmentChanged

  /** What the transaction finds of the tenant under its lock: the names of its groups, its apps as
      the quota counts them, and its limits. */
  datatype Tenant = Tenant(groupNames: set<string>, apps: seq<Q.Row>, limits: Option<Q.Totals>)

  /** Volumes and domains of the tenant by name, as they were looked up before the transaction. */
  datatype External = External(volumes: map<string, Id>, domains: map<string, Id>)

  /** How the fields of an app are stored in its row. */
  type Store = M.AppSpec -> T.Spec

  /** Rows of one app go into these tables. */
  datatype Rows = Rows(apps: map<Id, T.App>, attachments: Attachments, endpoints: Endpoints, domains: Domains)

  datatype Names = Names(variables: map<string, Id>, secrets: map<string, Id>, configs: map<string, Id>)

  // ---- What stays and what is new ----------------------------------------------------------

  predicate Unused<V>(table: map<Id, V>, next: nat) {
    forall i | i in table :: i < next
  }

  predicate UnusedKeys<V>(table: map<(T.Kind, Id), V>, next: nat) {
    forall t | t in table :: t.1 < next
  }

  ghost predicate Extends<K(!new), V>(old_: map<K, V>, new_: map<K, V>) {
    forall k :: k in old_ ==> k in new_ && new_[k] == old_[k]
  }

  /** The row that a link of an app becomes. */
  function LinkRow(app: Id, ids: map<string, Id>, l: M.Link): T.Attachment
    requires l.source in ids
  {
    T.Attachment(app, ids[l.source], l.target, false)
  }

  ghost predicate Linked(table: Attachments, k: T.Kind, app: Id, ids: map<string, Id>, links: seq<M.Link>) {
    forall i :: 0 <= i < |links| ==> links[i].source in ids && HasRow(table, k, LinkRow(app, ids, links[i]))
  }

  ghost predicate HasRow(table: Attachments, k: T.Kind, row: T.Attachment) {
    exists t :: t in table && t.0 == k && table[t] == row
  }

  /** A new attachment has no source and no target in common with another one of its app. */
  ghost predicate AttachmentsApart(before: Attachments, after: Attachments) {
    forall t, u ::
      (t in after && u in after && t !in before && t.0 == u.0 && after[t].app == after[u].app &&
       (after[t].source == after[u].source || after[t].target == after[u].target)) ==> t == u
  }

  /** A new endpoint has a name that no other one of its app has. */
  ghost predicate EndpointsApart(before: Endpoints, after: Endpoints) {
    forall e, f ::
      (e in after && f in after && e !in before && after[e].app == after[f].app && after[e].name == after[f].name) ==> e == f
  }

  /** New resources of one kind have different names. */
  ghost predicate ResourcesApart(before: Resources, after: Resources) {
    forall k, l ::
      (k in after && l in after && k !in before && l !in before && k.0 == l.0 && after[k].name == after[l].name) ==> k == l
  }

  lemma ApartMore(x: Attachments, y: Attachments, z: Attachments)
    requires AttachmentsApart(x, y) && AttachmentsApart(y, z) && Extends(x, y) && Extends(y, z)
    ensures AttachmentsApart(x, z)
  {
  }

  lemma EndpointsApartMore(x: Endpoints, y: Endpoints, z: Endpoints)
    requires EndpointsApart(x, y) && EndpointsApart(y, z) && Extends(x, y) && Extends(y, z)
    ensures EndpointsApart(x, z)
  {
  }

  lemma OneMoreEndpointApart(endpoints: Endpoints, rows: Endpoints, id: Id, row: T.Endpoint)
    requires EndpointsApart(endpoints, rows) && id !in rows && !EndpointNamed(rows, row.app, row.name)
    ensures EndpointsApart(endpoints, rows[id := row])
  {
  }

  /** A changed domain was free and is now held by a new endpoint. */
  ghost predicate DomainsTaken(before: Domains, after: Domains, endpoints: Endpoints, base: nat) {
    && before.Keys == after.Keys
    && (forall d :: d in before ==> after[d] == before[d] || (before[d].endpoint == None && TakenBy(before[d], after[d], endpoints, base)))
  }

  ghost predicate TakenBy(before: T.Domain, after: T.Domain, endpoints: Endpoints, base: nat) {
    after.endpoint.Some? && after == before.(endpoint := after.endpoint) &&
    after.endpoint.value in endpoints && base <= after.endpoint.value
  }

  /** Endpoint `e` is there as written, and holds the domains it names. */
  ghost predicate Served(endpoints: Endpoints, domains: Domains, external: External, app: Id, e: Id, spec: M.EndpointSpec) {
    && e in endpoints && endpoints[e].app == app && endpoints[e].name == spec.name
    && endpoints[e].containerPort == spec.containerPort
    && (forall h :: h in spec.domains ==> HostHeld(domains, external, h, e))
  }

  // ---- Resources -------------------------------------------------------------------------------

  ghost predicate FoundByName(table: Resources, ids: map<string, Id>, t: (T.Kind, Id))
    requires t in table
  {
    table[t].name in ids && ids[table[t].name] == t.1
  }

  /** The rows made so far are those of `names`, and `ids` finds them. */
  ghost predicate RowsMade(table: Resources, after: Resources, g: Id, k: T.Kind, ids: map<string, Id>, names: seq<string>,
                           contents: seq<string>, version: nat, base: nat)
    requires |contents| == |names|
  {
    && Extends(table, after) && UnusedKeys(after, base + |names|)
    && ids.Keys == (set n | n in names)
    && (forall n :: n in ids ==> base <= ids[n] < base + |names| && (k, ids[n]) in after)
    && (forall i :: 0 <= i < |names| ==> after[(k, ids[names[i]])] == T.Resource(g, names[i], contents[i], version))
    && (forall t :: t in after && t !in table ==> t.0 == k && base <= t.1 && after[t].group == g && FoundByName(after, ids, t))
  }

  lemma NothingMade(table: Resources, g: Id, k: T.Kind, version: nat, base: nat)
    requires UnusedKeys(table, base)
    ensures RowsMade(table, table, g, k, map[], [], [], version, base)
  {
  }

  lemma RowsMadeFacts(table: Resources, after: Resources, g: Id, k: T.Kind, ids: map<string, Id>, names: seq<string>,
                      contents: seq<string>, version: nat, base: nat)
    requires |contents| == |names| && RowsMade(table, after, g, k, ids, names, contents, version, base)
    ensures forall n :: n in ids ==> after[(k, ids[n])].group == g && after[(k, ids[n])].name == n
  {
    forall n | n in ids ensures after[(k, ids[n])].group == g && after[(k, ids[n])].name == n {
      var i :| 0 <= i < |names| && names[i] == n;
    }
  }

  lemma OneMoreResource(table: Resources, after: Resources, g: Id, k: T.Kind, ids: map<string, Id>, names: seq<string>,
                        contents: seq<string>, version: nat, base: nat, name: string, content: string)
    requires |contents| == |names| && RowsMade(table, after, g, k, ids, names, contents, version, base) && name !in names
    ensures RowsMade(table, after[(k, base + |names|) := T.Resource(g, name, content, version)], g, k,
                     ids[name := base + |names|], names + [name], contents + [content], version, base)
  {
    var more := after[(k, base + |names|) := T.Resource(g, name, content, version)];
    forall t | t in more && t !in table ensures FoundByName(more, ids[name := base + |names|], t) {
      if t != (k, base + |names|) { assert FoundByName(after, ids, t); }
    }
  }

  /** One row for each text, and the ids by name. */
  method CreateResources(table: Resources, g: Id, k: T.Kind, names: seq<string>, contents: seq<string>, version: nat, base: nat)
    returns (after: Resources, ids: map<string, Id>, next: nat)
    requires |contents| == |names| && UnusedKeys(table, base) && R.Distinct(names)
    ensures next == base + |names| && RowsMade(table, after, g, k, ids, names, contents, version, base)
  {
    hide RowsMade, UnusedKeys;
    after, ids, next := table, map[], base;
    NothingMade(table, g, k, version, base);
    assert names[..0] == [] && contents[..0] == [];
    for i := 0 to |names|
      invariant next == base + i && RowsMade(table, after, g, k, ids, names[..i], contents[..i], version, base)
    {
      assert names[..i + 1] == names[..i] + [names[i]] && contents[..i + 1] == contents[..i] + [contents[i]];
      OneMoreResource(table, after, g, k, ids, names[..i], contents[..i], version, base, names[i], contents[i]);
      after := after[(k, next) := T.Resource(g, names[i], contents[i], version)];
      ids := ids[names[i] := next];
      next := next + 1;
    }
    assert names[..|names|] == names && contents[..|contents|] == contents;
  }

  // ---- Attachments --------------------------------------------------------------------------------

  /** The unique indexes of an attachment table. */
  predicate Collides(table: Attachments, k: T.Kind, row: T.Attachment) {
    exists t | t in table :: t.0 == k && table[t].app == row.app && (table[t].source == row.source || table[t].target == row.target)
  }

  /** Every source is there, and no source or target comes twice. */
  predicate LinksFit(ids: map<string, Id>, links: seq<M.Link>) {
    && (forall i | 0 <= i < |links| :: links[i].source in ids)
    && (forall i, j | 0 <= i < j < |links| :: ids[links[i].source] != ids[links[j].source] && links[i].target != links[j].target)
  }

  predicate NoRows(table: Attachments, k: T.Kind, app: Id) {
    forall t | t in table :: t.0 == k ==> table[t].app != app
  }

  /** The rows of the app are those of its first `n` links. */
  ghost predicate OnlyLinks(table: Attachments, k: T.Kind, app: Id, ids: map<string, Id>, links: seq<M.Link>, n: nat)
    requires n <= |links|
  {
    forall t :: t in table && t.0 == k && table[t].app == app ==> FromLink(table[t], app, ids, links, n)
  }

  ghost predicate FromLink(row: T.Attachment, app: Id, ids: map<string, Id>, links: seq<M.Link>, n: nat)
    requires n <= |links|
  {
    exists j :: 0 <= j < n && links[j].source in ids && row == LinkRow(app, ids, links[j])
  }

  lemma CollisionIsRepeat(table: Attachments, k: T.Kind, app: Id, ids: map<string, Id>, links: seq<M.Link>, i: nat)
    requires i < |links| && OnlyLinks(table, k, app, ids, links, i) && links[i].source in ids
    requires Collides(table, k, LinkRow(app, ids, links[i]))
    ensures !LinksFit(ids, links)
  {
    var row := LinkRow(app, ids, links[i]);
    var t :| t in table && t.0 == k && table[t].app == row.app && (table[t].source == row.source || table[t].target == row.target);
    assert FromLink(table[t], app, ids, links, i);
  }

  lemma NoCollisionFits(table: Attachments, k: T.Kind, app: Id, ids: map<string, Id>, links: seq<M.Link>, i: nat)
    requires i < |links| && Linked(table, k, app, ids, links[..i]) && LinksFit(ids, links[..i]) && links[i].source in ids
    requires !Collides(table, k, LinkRow(app, ids, links[i]))
    ensures LinksFit(ids, links[..i + 1])
  {
    forall j | 0 <= j < i
      ensures ids[links[j].source] != ids[links[i].source] && links[j].target != links[i].target
    {
      assert links[..i][j] == links[j];
      assert HasRow(table, k, LinkRow(app, ids, links[j]));
    }
    assert links[..i + 1] == links[..i] + [links[i]];
    forall p, q | 0 <= p < q < i
      ensures ids[links[p].source] != ids[links[q].source] && links[p].target != links[q].target
    {
      assert links[..i][p] == links[p] && links[..i][q] == links[q];
    }
    forall p | 0 <= p < i ensures links[p].source in ids { assert links[..i][p] == links[p]; }
  }

  lemma OneMoreApart(table: Attachments, before: Attachments, k: T.Kind, next: Id, row: T.Attachment)
    requires AttachmentsApart(table, before) && UnusedKeys(before, next) && !Collides(before, k, row)
    ensures AttachmentsApart(table, before[(k, next) := row])
  {
  }

  method AttachLinks(table: Attachments, k: T.Kind, app: Id, ids: map<string, Id>, links: seq<M.Link>, base: nat)
    returns (r: Result<Attachments, Failure>, next: nat)
    requires UnusedKeys(table, base) && NoRows(table, k, app)
    ensures r.Ok? <==> LinksFit(ids, links)
    ensures r.Ok? ==> next == base + |links| && Extends(table, r.value) && UnusedKeys(r.value, next)
    ensures r.Ok? ==> Linked(r.value, k, app, ids, links)
    ensures r.Ok? ==> forall t :: t in r.value && t !in table ==>
      base <= t.1 && t.0 == k && r.value[t].app == app && r.value[t].source in ids.Values
    ensures r.Ok? ==> AttachmentsApart(table, r.value)
  {
    var after: Attachments := table;
    next := base;
    for i := 0 to |links|
      invariant next == base + i && Extends(table, after) && UnusedKeys(after, next) && AttachmentsApart(table, after)
      invariant Linked(after, k, app, ids, links[..i]) && LinksFit(ids, links[..i]) && OnlyLinks(after, k, app, ids, links, i)
      invariant forall t :: t in after && t !in table ==>
        base <= t.1 && t.0 == k && after[t].app == app && after[t].source in ids.Values
    {
      if links[i].source !in ids { return Err(MissingResource), next; }
      var row := LinkRow(app, ids, links[i]);
      if Collides(after, k, row) {
        CollisionIsRepeat(after, k, app, ids, links, i);
        return Err(Conflict), next;
      }
      ghost var before := after;
      NoCollisionFits(before, k, app, ids, links, i);
      after := after[(k, next) := row];
      OneMoreApart(table, before, k, next, row);
      OnlyLinksMore(before, after, k, app, ids, links, i, next);
      LinkedMore(before, after, k, app, ids, links, i, next);
      next := next + 1;
    }
    assert links[..|links|] == links;
    r := Ok(after);
  }

  lemma OnlyLinksMore(before: Attachments, after: Attachments, k: T.Kind, app: Id, ids: map<string, Id>, links: seq<M.Link>,
                      i: nat, id: Id)
    requires i < |links| && links[i].source in ids && OnlyLinks(before, k, app, ids, links, i)
    requires after == before[(k, id) := LinkRow(app, ids, links[i])]
    ensures OnlyLinks(after, k, app, ids, links, i + 1)
  {
    forall t | t in after && t.0 == k && after[t].app == app ensures FromLink(after[t], app, ids, links, i + 1) {
      if t != (k, id) { assert FromLink(before[t], app, ids, links, i); }
    }
  }

  lemma LinkedMore(before: Attachments, after: Attachments, k: T.Kind, app: Id, ids: map<string, Id>, links: seq<M.Link>,
                   i: nat, id: Id)
    requires i < |links| && links[i].source in ids && Linked(before, k, app, ids, links[..i])
    requires Extends(before, after) && (k, id) in after && after[(k, id)] == LinkRow(app, ids, links[i])
    ensures Linked(after, k, app, ids, links[..i + 1])
  {
    forall j | 0 <= j < i + 1
      ensures links[j].source in ids && HasRow(after, k, LinkRow(app, ids, links[j]))
    {
      if j < i {
        assert links[..i][j] == links[j];
        RowStays(before, after, k, LinkRow(app, ids, links[j]));
      } else {
        assert (k, id).0 == k;
      }
    }
  }

  lemma RowStays(before: Attachments, after: Attachments, k: T.Kind, row: T.Attachment)
    requires HasRow(before, k, row) && Extends(before, after)
    ensures HasRow(after, k, row)
  {
    var t :| t in before && t.0 == k && before[t] == row;
    assert after[t] == row;
  }

  lemma LinkedStays(before: Attachments, after: Attachments, k: T.Kind, app: Id, ids: map<string, Id>, links: seq<M.Link>)
    requires Linked(before, k, app, ids, links) && Extends(before, after)
    ensures Linked(after, k, app, ids, links)
  {
    forall i | 0 <= i < |links| ensures links[i].source in ids && HasRow(after, k, LinkRow(app, ids, links[i])) {
      RowStays(before, after, k, LinkRow(app, ids, links[i]));
    }
  }

  function MountRow(app: Id, ids: map<string, Id>, l: M.VolumeLink): T.Attachment
    requires l.source in ids
  {
    T.Attachment(app, ids[l.source], l.mountPath, l.readOnly)
  }

  ghost predicate Mounted(table: Attachments, app: Id, ids: map<string, Id>, links: seq<M.VolumeLink>) {
    forall i :: 0 <= i < |links| ==> links[i].source in ids && HasRow(table, T.Volume, MountRow(app, ids, links[i]))
  }

  lemma MountedMore(before: Attachments, after: Attachments, app: Id, ids: map<string, Id>, links: seq<M.VolumeLink>, i: nat)
    requires i < |links| && links[i].source in ids && Mounted(before, app, ids, links[..i])
    requires Extends(before, after) && HasRow(after, T.Volume, MountRow(app, ids, links[i]))
    ensures Mounted(after, app, ids, links[..i + 1])
  {
    forall j | 0 <= j < i + 1
      ensures links[j].source in ids && HasRow(after, T.Volume, MountRow(app, ids, links[j]))
    {
      if j < i {
        assert links[..i][j] == links[j];
        RowStays(before, after, T.Volume, MountRow(app, ids, links[j]));
      }
    }
  }

  lemma MountedStays(before: Attachments, after: Attachments, app: Id, ids: map<string, Id>, links: seq<M.VolumeLink>)
    requires Mounted(before, app, ids, links) && Extends(before, after)
    ensures Mounted(after, app, ids, links)
  {
    forall i | 0 <= i < |links| ensures links[i].source in ids && HasRow(after, T.Volume, MountRow(app, ids, links[i])) {
      RowStays(before, after, T.Volume, MountRow(app, ids, links[i]));
    }
  }

  predicate MountsFit(volumes: set<Id>, ids: map<string, Id>, links: seq<M.VolumeLink>) {
    && (forall i | 0 <= i < |links| :: links[i].source in ids && ids[links[i].source] in volumes)
    && (forall i, j | 0 <= i < j < |links| ::
          ids[links[i].source] != ids[links[j].source] && links[i].mountPath != links[j].mountPath)
  }

  ghost predicate FromMount(row: T.Attachment, app: Id, ids: map<string, Id>, links: seq<M.VolumeLink>, n: nat)
    requires n <= |links|
  {
    exists j :: 0 <= j < n && links[j].source in ids && row == MountRow(app, ids, links[j])
  }

  ghost predicate OnlyMounts(table: Attachments, app: Id, ids: map<string, Id>, links: seq<M.VolumeLink>, n: nat)
    requires n <= |links|
  {
    forall t :: t in table && t.0 == T.Volume && table[t].app == app ==> FromMount(table[t], app, ids, links, n)
  }

  lemma MountCollisionIsRepeat(table: Attachments, volumes: set<Id>, app: Id, ids: map<string, Id>, links: seq<M.VolumeLink>, i: nat)
    requires i < |links| && OnlyMounts(table, app, ids, links, i) && links[i].source in ids
    requires Collides(table, T.Volume, MountRow(app, ids, links[i]))
    ensures !MountsFit(volumes, ids, links)
  {
    var row := MountRow(app, ids, links[i]);
    var t :| t in table && t.0 == T.Volume && table[t].app == row.app && (table[t].source == row.source || table[t].target == row.target);
    assert FromMount(table[t], app, ids, links, i);
  }

  lemma NoMountCollisionFits(table: Attachments, volumes: set<Id>, app: Id, ids: map<string, Id>, links: seq<M.VolumeLink>, i: nat)
    requires i < |links| && Mounted(table, app, ids, links[..i]) && MountsFit(volumes, ids, links[..i])
    requires links[i].source in ids && ids[links[i].source] in volumes
    requires !Collides(table, T.Volume, MountRow(app, ids, links[i]))
    ensures MountsFit(volumes, ids, links[..i + 1])
  {
    forall p | 0 <= p < i
      ensures links[p].source in ids && ids[links[p].source] in volumes
      ensures ids[links[p].source] != ids[links[i].source] && links[p].mountPath != links[i].mountPath
    {
      assert links[..i][p] == links[p];
      assert HasRow(table, T.Volume, MountRow(app, ids, links[p]));
    }
    forall p, q | 0 <= p < q < i
      ensures ids[links[p].source] != ids[links[q].source] && links[p].mountPath != links[q].mountPath
    {
      assert links[..i][p] == links[p] && links[..i][q] == links[q];
    }
    assert links[..i + 1] == links[..i] + [links[i]];
  }

  lemma OnlyMountsMore(before: Attachments, after: Attachments, app: Id, ids: map<string, Id>, links: seq<M.VolumeLink>, i: nat, id: Id)
    requires i < |links| && links[i].source in ids && OnlyMounts(before, app, ids, links, i)
    requires after == before[(T.Volume, id) := MountRow(app, ids, links[i])]
    ensures OnlyMounts(after, app, ids, links, i + 1)
  {
    forall t | t in after && t.0 == T.Volume && after[t].app == app ensures FromMount(after[t], app, ids, links, i + 1) {
      if t != (T.Volume, id) { assert FromMount(before[t], app, ids, links, i); }
    }
  }

  method AttachVolumes(table: Attachments, volumes: set<Id>, app: Id, ids: map<string, Id>, links: seq<M.VolumeLink>, base: nat)
    returns (r: Result<Attachments, Failure>, next: nat)
    requires UnusedKeys(table, base) && NoRows(table, T.Volume, app)
    ensures r.Ok? <==> MountsFit(volumes, ids, links)
    ensures r.Ok? ==> next == base + |links| && Extends(table, r.value) && UnusedKeys(r.value, next)
    ensures r.Ok? ==> forall t :: t in r.value && t !in table ==>
      base <= t.1 && t.0 == T.Volume && r.value[t].app == app && r.value[t].source in volumes
    ensures r.Ok? ==> Mounted(r.value, app, ids, links) && AttachmentsApart(table, r.value)
  {
    var after: Attachments := table;
    next := base;
    for i := 0 to |links|
      invariant next == base + i && Extends(table, after) && UnusedKeys(after, next) && AttachmentsApart(table, after)
      invariant forall t :: t in after && t !in table ==>
        base <= t.1 && t.0 == T.Volume && after[t].app == app && after[t].source in volumes
      invariant Mounted(after, app, ids, links[..i]) && MountsFit(volumes, ids, links[..i]) && OnlyMounts(after, app, ids, links, i)
    {
      if links[i].source !in ids || ids[links[i].source] !in volumes { return Err(MissingResource), next; }
      var row := MountRow(app, ids, links[i]);
      if Collides(after, T.Volume, row) {
        MountCollisionIsRepeat(after, volumes, app, ids, links, i);
        return Err(Conflict), next;
      }
      ghost var before := after;
      NoMountCollisionFits(before, volumes, app, ids, links, i);
      after := after[(T.Volume, next) := row];
      OneMoreApart(table, before, T.Volume, next, row);
      assert (T.Volume, next) in after && after[(T.Volume, next)] == row && (T.Volume, next).0 == T.Volume;
      OnlyMountsMore(before, after, app, ids, links, i, next);
      MountedMore(before, after, app, ids, links, i);
      next := next + 1;
    }
    assert links[..|links|] == links;
    r := Ok(after);
  }

  // ---- Endpoints ---------------------------------------------------------------------------------------

  predicate HostHeld(domains: Domains, external: External, host: string, e: Id) {
    host in external.domains && external.domains[host] in domains && domains[external.domains[host]].endpoint == Some(e)
  }

  predicate NamedBy(external: External, hosts: seq<string>, d: Id) {
    exists h | h in hosts :: h in external.domains && external.domains[h] == d
  }

  predicate NamedIn(external: External, specs: seq<M.EndpointSpec>, d: Id) {
    exists s | s in specs :: NamedBy(external, s.domains, d)
  }

  /** Takes the named domains, each only if it is free. */
  predicate HostFree(domains: Domains, external: External, host: string) {
    host in external.domains && external.domains[host] in domains && domains[external.domains[host]].endpoint == None
  }

  /** Every host is there and free, and none comes twice. */
  predicate HostsFree(domains: Domains, external: External, hosts: seq<string>) {
    && (forall i | 0 <= i < |hosts| :: HostFree(domains, external, hosts[i]))
    && (forall i, j | 0 <= i < j < |hosts| :: external.domains[hosts[i]] != external.domains[hosts[j]])
  }

  lemma TakenOrRepeated(domains: Domains, after: Domains, external: External, hosts: seq<string>, i: nat)
    requires i < |hosts| && after.Keys == domains.Keys && hosts[i] in external.domains
    requires forall d :: d in domains && after[d] != domains[d] ==> NamedBy(external, hosts[..i], d)
    requires external.domains[hosts[i]] !in after || after[external.domains[hosts[i]]].endpoint != None
    ensures !HostsFree(domains, external, hosts)
  {
    var d := external.domains[hosts[i]];
    if HostFree(domains, external, hosts[i]) {
      assert NamedBy(external, hosts[..i], d);
      var h :| h in hosts[..i] && h in external.domains && external.domains[h] == d;
      var j :| 0 <= j < i && hosts[j] == h;
    }
  }

  method TakeDomains(domains: Domains, external: External, e: Id, hosts: seq<string>)
    returns (r: Result<Domains, Failure>)
    ensures r.Ok? <==> HostsFree(domains, external, hosts)
    ensures r.Ok? ==> r.value.Keys == domains.Keys
    ensures r.Ok? ==> forall d :: d in domains ==>
      r.value[d] == domains[d] || (domains[d].endpoint == None && r.value[d] == domains[d].(endpoint := Some(e)))
    ensures r.Ok? ==> forall h :: h in hosts ==> HostHeld(r.value, external, h, e)
    ensures r.Ok? ==> forall d :: d in domains && r.value[d] != domains[d] ==> NamedBy(external, hosts, d)
  {
    var after: Domains := domains;
    for i := 0 to |hosts|
      invariant after.Keys == domains.Keys
      invariant forall d :: d in domains ==>
        after[d] == domains[d] || (domains[d].endpoint == None && after[d] == domains[d].(endpoint := Some(e)))
      invariant forall j :: 0 <= j < i ==> HostHeld(after, external, hosts[j], e)
      invariant HostsFree(domains, external, hosts[..i])
      invariant forall d :: d in domains && after[d] != domains[d] ==> NamedBy(external, hosts[..i], d)
      invariant forall d :: d in domains && after[d] != domains[d] ==> NamedBy(external, hosts, d)
    {
      if hosts[i] !in external.domains { return Err(MissingResource); }
      var d := external.domains[hosts[i]];
      if d !in after || after[d].endpoint != None {
        TakenOrRepeated(domains, after, external, hosts, i);
        return Err(DomainAttachmentChanged);
      }
      assert hosts[..i + 1] == hosts[..i] + [hosts[i]];
      assert hosts[i] in hosts && NamedBy(external, hosts, d) && hosts[i] in hosts[..i + 1] && NamedBy(external, hosts[..i + 1], d);
      after := after[d := after[d].(endpoint := Some(e))];
    }
    r := Ok(after);
  }

  /** `held` is what is left of the free domains when the hosts have been taken. */
  predicate Took(domains: Domains, held: Domains, external: External, hosts: seq<string>) {
    domains.Keys == held.Keys &&
    forall d | d in domains :: held[d].endpoint == None <==> domains[d].endpoint == None && !NamedBy(external, hosts, d)
  }

  lemma TookHosts(domains: Domains, held: Domains, external: External, hosts: seq<string>, e: Id)
    requires held.Keys == domains.Keys && HostsFree(domains, external, hosts)
    requires forall h :: h in hosts ==> HostHeld(held, external, h, e)
    requires forall d :: d in domains && held[d] != domains[d] ==> NamedBy(external, hosts, d)
    ensures Took(domains, held, external, hosts)
  {
    forall d | d in domains
      ensures held[d].endpoint == None <==> domains[d].endpoint == None && !NamedBy(external, hosts, d)
    {
      if NamedBy(external, hosts, d) {
        var h :| h in hosts && h in external.domains && external.domains[h] == d;
        assert HostHeld(held, external, h, e);
      }
    }
  }

  /** Taking hosts one list after the other is taking them all. */
  lemma TakingOneByOne(domains: Domains, held: Domains, external: External, a: seq<string>, b: seq<string>)
    requires Took(domains, held, external, a) && HostsFree(domains, external, a)
    ensures HostsFree(held, external, b) <==> HostsFree(domains, external, a + b)
  {
    var c := a + b;
    if HostsFree(domains, external, c) {
      forall j | 0 <= j < |b| ensures HostFree(held, external, b[j]) {
        assert c[|a| + j] == b[j] && HostFree(domains, external, c[|a| + j]);
        forall i | 0 <= i < |a| ensures external.domains[a[i]] != external.domains[b[j]] {
          assert c[i] == a[i] && c[|a| + j] == b[j];
        }
      }
      forall i, j | 0 <= i < j < |b| ensures external.domains[b[i]] != external.domains[b[j]] {
        assert c[|a| + i] == b[i] && c[|a| + j] == b[j];
      }
    }
    if HostsFree(held, external, b) {
      forall j | 0 <= j < |c| ensures HostFree(domains, external, c[j]) {
        if j < |a| { assert c[j] == a[j]; } else { assert c[j] == b[j - |a|] && HostFree(held, external, b[j - |a|]); }
      }
      forall i, j | 0 <= i < j < |c| ensures external.domains[c[i]] != external.domains[c[j]] {
        if j < |a| {
          assert c[i] == a[i] && c[j] == a[j];
        } else if i < |a| {
          assert c[i] == a[i] && c[j] == b[j - |a|] && HostFree(held, external, b[j - |a|]);
          assert a[i] in a && NamedBy(external, a, external.domains[a[i]]);
        } else {
          assert c[i] == b[i - |a|] && c[j] == b[j - |a|];
        }
      }
    }
  }

  lemma TookBoth(domains: Domains, held: Domains, after: Domains, external: External, a: seq<string>, b: seq<string>)
    requires Took(domains, held, external, a) && Took(held, after, external, b)
    ensures Took(domains, after, external, a + b)
  {
    forall d | d in domains ensures NamedBy(external, a + b, d) <==> NamedBy(external, a, d) || NamedBy(external, b, d) {
      if NamedBy(external, a, d) { var h :| h in a && h in external.domains && external.domains[h] == d; assert h in a + b; }
      if NamedBy(external, b, d) { var h :| h in b && h in external.domains && external.domains[h] == d; assert h in a + b; }
    }
  }

  function AllHosts(specs: seq<M.EndpointSpec>): seq<string> {
    if specs == [] then [] else AllHosts(specs[..|specs| - 1]) + specs[|specs| - 1].domains
  }

  lemma PrefixFree(domains: Domains, external: External, a: seq<string>, b: seq<string>)
    requires HostsFree(domains, external, a + b)
    ensures HostsFree(domains, external, a)
  {
    assert forall i | 0 <= i < |a| :: (a + b)[i] == a[i];
  }

  lemma {:induction false} HostsOfPrefix(specs: seq<M.EndpointSpec>, n: nat) returns (rest: seq<string>)
    requires n <= |specs|
    ensures AllHosts(specs) == AllHosts(specs[..n]) + rest
  {
    if n == |specs| {
      rest := [];
      assert specs[..n] == specs;
    } else {
      rest := HostsOfPrefix(specs[..|specs| - 1], n);
      assert specs[..|specs| - 1][..n] == specs[..n];
      rest := rest + specs[|specs| - 1].domains;
    }
  }

  ghost predicate AllServed(endpoints: Endpoints, domains: Domains, external: External, app: Id, ids: seq<Id>, specs: seq<M.EndpointSpec>) {
    |ids| == |specs| && forall i :: 0 <= i < |specs| ==> Served(endpoints, domains, external, app, ids[i], specs[i])
  }

  /** Held domains stay held: only free ones are taken. */
  ghost predicate HeldStay(before: Domains, after: Domains) {
    before.Keys == after.Keys && forall d :: d in before && before[d].endpoint.Some? ==> after[d] == before[d]
  }

  lemma DomainsTakenMore(first: Domains, before: Domains, after: Domains, endpoints: Endpoints, more: Endpoints, base: nat, next: nat)
    requires DomainsTaken(first, before, endpoints, base) && DomainsTaken(before, after, more, next)
    requires Extends(endpoints, more) && base <= next
    ensures DomainsTaken(first, after, more, base) && HeldStay(before, after)
  {
  }

  lemma DomainsTakenSince(before: Domains, after: Domains, endpoints: Endpoints, base: nat, next: nat)
    requires DomainsTaken(before, after, endpoints, next) && base <= next
    ensures DomainsTaken(before, after, endpoints, base) && HeldStay(before, after)
  {
  }

  lemma ServedStays(endpoints: Endpoints, domains: Domains, more: Endpoints, after: Domains, external: External, app: Id,
                    ids: seq<Id>, specs: seq<M.EndpointSpec>)
    requires AllServed(endpoints, domains, external, app, ids, specs) && Extends(endpoints, more) && HeldStay(domains, after)
    ensures AllServed(more, after, external, app, ids, specs)
  {
    forall i | 0 <= i < |specs| ensures Served(more, after, external, app, ids[i], specs[i]) {
      assert Served(endpoints, domains, external, app, ids[i], specs[i]);
    }
  }

  predicate EndpointNamed(endpoints: Endpoints, app: Id, name: string) {
    exists e | e in endpoints :: endpoints[e].app == app && endpoints[e].name == name
  }

  function EndpointRow(app: Id, spec: M.EndpointSpec): T.Endpoint {
    T.Endpoint(app, spec.name, spec.containerPort, R.ProtocolText(spec.protocol))
  }

  method CreateEndpoint(endpoints: Endpoints, domains: Domains, external: External, app: Id, spec: M.EndpointSpec, id: Id)
    returns (r: Result<(Endpoints, Domains), Failure>)
    requires Unused(endpoints, id)
    ensures r.Ok? <==> !EndpointNamed(endpoints, app, spec.name) && HostsFree(domains, external, spec.domains)
    ensures r.Ok? ==> r.value.0 == endpoints[id := EndpointRow(app, spec)]
    ensures r.Ok? ==> Served(r.value.0, r.value.1, external, app, id, spec) && DomainsTaken(domains, r.value.1, r.value.0, id)
    ensures r.Ok? ==> Took(domains, r.value.1, external, spec.domains)
    ensures r.Ok? ==> forall d :: d in domains && r.value.1[d] != domains[d] ==> NamedBy(external, spec.domains, d)
  {
    if EndpointNamed(endpoints, app, spec.name) { return Err(Conflict); }
    var rows := endpoints[id := EndpointRow(app, spec)];
    var taken := TakeDomains(domains, external, id, spec.domains);
    if taken.Err? { return Err(taken.error); }
    TookHosts(domains, taken.value, external, spec.domains, id);
    r := Ok((rows, taken.value));
  }

  /** The state of the loop over the endpoints of an app, after the first `i`. */
  ghost predicate SomeServed(endpoints: Endpoints, domains: Domains, rows: Endpoints, held: Domains, external: External, app: Id,
                             specs: seq<M.EndpointSpec>, i: nat, ids: seq<Id>, base: nat)
    requires i <= |specs|
  {
    && Extends(endpoints, rows) && Unused(rows, base + i)
    && (forall e :: e in rows && e !in endpoints ==> base <= e && rows[e].app == app) && EndpointsApart(endpoints, rows)
    && (forall e :: e in rows && rows[e].app == app ==> NamedBefore(rows[e].name, specs, i))
    && HostsFree(domains, external, AllHosts(specs[..i])) && Took(domains, held, external, AllHosts(specs[..i]))
    && DomainsTaken(domains, held, rows, base) && AllServed(rows, held, external, app, ids, specs[..i])
    && (forall d :: d in domains && held[d] != domains[d] ==> NamedIn(external, specs, d))
  }

  ghost predicate NamedBefore(name: string, specs: seq<M.EndpointSpec>, i: nat)
    requires i <= |specs|
  {
    exists j :: 0 <= j < i && name == specs[j].name
  }

  lemma SameDomains(first: Domains, before: Domains, after: Domains, endpoints: Endpoints, more: Endpoints, base: nat, next: nat)
    requires DomainsTaken(first, before, endpoints, base) && DomainsTaken(before, after, more, next)
    ensures first.Keys == before.Keys == after.Keys
  {
  }

  lemma OneMoreServed(endpoints: Endpoints, domains: Domains, rows: Endpoints, held: Domains, more: Endpoints, after: Domains,
                      external: External, app: Id, specs: seq<M.EndpointSpec>, i: nat, ids: seq<Id>, base: nat)
    requires i < |specs| && SomeServed(endpoints, domains, rows, held, external, app, specs, i, ids, base)
    requires more == rows[base + i := EndpointRow(app, specs[i])] && Served(more, after, external, app, base + i, specs[i])
    requires DomainsTaken(held, after, more, base + i) && Took(held, after, external, specs[i].domains)
    requires HostsFree(held, external, specs[i].domains) && !EndpointNamed(rows, app, specs[i].name)
    requires forall d :: d in held && after[d] != held[d] ==> NamedBy(external, specs[i].domains, d)
    ensures SomeServed(endpoints, domains, more, after, external, app, specs, i + 1, ids + [base + i], base)
  {
    hide EndpointsApart, EndpointNamed, HostsFree, Took, Served, DomainsTaken, HeldStay;
    DomainsTakenMore(domains, held, after, rows, more, base, base + i);
    SameDomains(domains, held, after, rows, more, base, base + i);
    OneMoreEndpointApart(endpoints, rows, base + i, EndpointRow(app, specs[i]));
    var before := AllHosts(specs[..i]);
    assert specs[..i + 1] == specs[..i] + [specs[i]];
    assert AllHosts(specs[..i + 1]) == before + specs[i].domains;
    TakingOneByOne(domains, held, external, before, specs[i].domains);
    TookBoth(domains, held, after, external, before, specs[i].domains);
    ServedStays(rows, held, more, after, external, app, ids, specs[..i]);
    forall e | e in more && more[e].app == app ensures NamedBefore(more[e].name, specs, i + 1) {
      if e in rows && e != base + i { assert NamedBefore(rows[e].name, specs, i); }
    }
    forall d | d in domains && after[d] != domains[d] ensures NamedIn(external, specs, d) {
      if after[d] != held[d] { assert specs[i] in specs; }
    }
  }

  lemma NotFree(domains: Domains, held: Domains, external: External, specs: seq<M.EndpointSpec>, i: nat)
    requires i < |specs| && HostsFree(domains, external, AllHosts(specs[..i])) && Took(domains, held, external, AllHosts(specs[..i]))
    requires !HostsFree(held, external, specs[i].domains)
    ensures !HostsFree(domains, external, AllHosts(specs))
  {
    hide HostsFree, Took;
    var before := AllHosts(specs[..i]);
    TakingOneByOne(domains, held, external, before, specs[i].domains);
    assert specs[..i + 1][..i] == specs[..i];
    assert AllHosts(specs[..i + 1]) == before + specs[i].domains;
    var rest := HostsOfPrefix(specs, i + 1);
    if HostsFree(domains, external, AllHosts(specs)) { PrefixFree(domains, external, before + specs[i].domains, rest); }
  }

  method CreateEndpoints(endpoints: Endpoints, domains: Domains, external: External, app: Id, specs: seq<M.EndpointSpec>, base: nat)
    returns (r: Result<(Endpoints, Domains), Failure>, ids: seq<Id>, next: nat)
    requires Unused(endpoints, base) && R.Distinct(M.EndpointNames(specs)) && forall e | e in endpoints :: endpoints[e].app != app
    ensures r.Ok? <==> HostsFree(domains, external, AllHosts(specs))
    ensures r.Ok? ==> Took(domains, r.value.1, external, AllHosts(specs))
    ensures r.Ok? ==> next == base + |specs| && Extends(endpoints, r.value.0) && Unused(r.value.0, next)
    ensures r.Ok? ==> forall e :: e in r.value.0 && e !in endpoints ==> base <= e && r.value.0[e].app == app
    ensures r.Ok? ==> EndpointsApart(endpoints, r.value.0)
    ensures r.Ok? ==> DomainsTaken(domains, r.value.1, r.value.0, base) && AllServed(r.value.0, r.value.1, external, app, ids, specs)
    ensures r.Ok? ==> forall d :: d in domains && r.value.1[d] != domains[d] ==> NamedIn(external, specs, d)
  {
    var rows: Endpoints, held: Domains := endpoints, domains;
    ids, next := [], base;
    for i := 0 to |specs|
      invariant next == base + i && SomeServed(endpoints, domains, rows, held, external, app, specs, i, ids, base)
    {
      var made := CreateEndpoint(rows, held, external, app, specs[i], next);
      assert !EndpointNamed(rows, app, specs[i].name) by { NameIsNew(rows, app, specs, i); }
      if made.Err? {
        NotFree(domains, held, external, specs, i);
        return Err(made.error), ids, next;
      }
      OneMoreServed(endpoints, domains, rows, held, made.value.0, made.value.1, external, app, specs, i, ids, base);
      rows, held := made.value.0, made.value.1;
      ids := ids + [next];
      next := next + 1;
    }
    assert specs[..|specs|] == specs;
    r := Ok((rows, held));
  }

  lemma NameIsNew(rows: Endpoints, app: Id, specs: seq<M.EndpointSpec>, i: nat)
    requires i < |specs| && R.Distinct(M.EndpointNames(specs))
    requires forall e :: e in rows && rows[e].app == app ==> NamedBefore(rows[e].name, specs, i)
    ensures !EndpointNamed(rows, app, specs[i].name)
  {
    forall e | e in rows && rows[e].app == app ensures rows[e].name != specs[i].name {
      var j :| 0 <= j < i && rows[e].name == specs[j].name;
      assert M.EndpointNames(specs)[j] != M.EndpointNames(specs)[i];
    }
  }

  // ---- Apps -------------------------------------------------------------------------------------------------

  /** Everything that the manifest says about one app is there. */
  ghost predicate AppMade(rows: Rows, names: Names, external: External, store: Store, g: Id, a: Id, app: M.AppSpec, endpoints: seq<Id>) {
    && a in rows.apps && rows.apps[a] == T.App(g, store(app), if app.basics.running then T.Running else T.Stopped, false)
    && Linked(rows.attachments, T.Variable, a, names.variables, app.links.variables)
    && Linked(rows.attachments, T.Secret, a, names.secrets, app.links.secrets)
    && Linked(rows.attachments, T.Config, a, names.configs, app.links.configs)
    && Mounted(rows.attachments, a, external.volumes, app.links.volumes)
    && AllServed(rows.endpoints, rows.domains, external, a, endpoints, app.links.endpoints)
  }

  ghost predicate RowsExtend(before: Rows, after: Rows) {
    && Extends(before.apps, after.apps) && Extends(before.attachments, after.attachments)
    && Extends(before.endpoints, after.endpoints) && HeldStay(before.domains, after.domains)
  }

  predicate RowsUnused(rows: Rows, next: nat) {
    && Unused(rows.apps, next) && UnusedKeys(rows.attachments, next) && Unused(rows.endpoints, next)
    && (forall t | t in rows.attachments :: rows.attachments[t].app < next)
    && (forall e | e in rows.endpoints :: rows.endpoints[e].app < next)
  }

  lemma AppMadeStays(before: Rows, after: Rows, names: Names, external: External, store: Store, g: Id, a: Id,
                     app: M.AppSpec, endpoints: seq<Id>)
    requires AppMade(before, names, external, store, g, a, app, endpoints) && RowsExtend(before, after)
    ensures AppMade(after, names, external, store, g, a, app, endpoints)
  {
    LinkedStays(before.attachments, after.attachments, T.Variable, a, names.variables, app.links.variables);
    LinkedStays(before.attachments, after.attachments, T.Secret, a, names.secrets, app.links.secrets);
    LinkedStays(before.attachments, after.attachments, T.Config, a, names.configs, app.links.configs);
    MountedStays(before.attachments, after.attachments, a, external.volumes, app.links.volumes);
    ServedStays(before.endpoints, before.domains, after.endpoints, after.domains, external, a, endpoints, app.links.endpoints);
  }

  /** New rows belong to new apps of group `g`; their sources are among the imported ones. */
  ghost predicate RowsNew(before: Rows, after: Rows, g: Id, base: nat, names: Names, volumes: set<Id>) {
    && (forall a :: a in after.apps && a !in before.apps ==> base <= a && after.apps[a].group == g)
    && (forall t :: t in after.attachments && t !in before.attachments ==>
          base <= t.1 && after.attachments[t].app in after.apps && after.attachments[t].app !in before.apps &&
          SourceOk(after.attachments[t].source, t.0, names, volumes))
    && (forall e :: e in after.endpoints && e !in before.endpoints ==>
          base <= e && after.endpoints[e].app in after.apps && after.endpoints[e].app !in before.apps)
    && DomainsTaken(before.domains, after.domains, after.endpoints, base)
    && AttachmentsApart(before.attachments, after.attachments) && EndpointsApart(before.endpoints, after.endpoints)
  }

  predicate SourceOk(source: Id, k: T.Kind, names: Names, volumes: set<Id>) {
    match k
    case Variable => source in names.variables.Values
    case Secret => source in names.secrets.Values
    case Config => source in names.configs.Values
    case Volume => source in volumes
  }

  /** Nothing stands against the attachments of the app. */
  predicate AttachmentsFit(volumes: set<Id>, names: Names, external: External, links: M.Links) {
    LinksFit(names.variables, links.variables) && LinksFit(names.secrets, links.secrets) &&
    LinksFit(names.configs, links.configs) && MountsFit(volumes, external.volumes, links.volumes)
  }

  method AttachAll(table: Attachments, volumes: set<Id>, names: Names, external: External, app: Id, links: M.Links, base: nat)
    returns (r: Result<Attachments, Failure>, next: nat)
    requires UnusedKeys(table, base) && forall t | t in table :: table[t].app != app
    ensures r.Ok? <==> AttachmentsFit(volumes, names, external, links)
    ensures r.Ok? ==> next >= base && Extends(table, r.value) && UnusedKeys(r.value, next)
    ensures r.Ok? ==> Linked(r.value, T.Variable, app, names.variables, links.variables)
    ensures r.Ok? ==> Linked(r.value, T.Secret, app, names.secrets, links.secrets)
    ensures r.Ok? ==> Linked(r.value, T.Config, app, names.configs, links.configs)
    ensures r.Ok? ==> Mounted(r.value, app, external.volumes, links.volumes)
    ensures r.Ok? ==> forall t :: t in r.value && t !in table ==>
      base <= t.1 && r.value[t].app == app && SourceOk(r.value[t].source, t.0, names, volumes)
    ensures r.Ok? ==> AttachmentsApart(table, r.value)
  {
    var r1, n1 := AttachLinks(table, T.Variable, app, names.variables, links.variables, base);
    if r1.Err? { return r1, n1; }
    var r2, n2 := AttachLinks(r1.value, T.Secret, app, names.secrets, links.secrets, n1);
    if r2.Err? { return r2, n2; }
    var r3, n3 := AttachLinks(r2.value, T.Config, app, names.configs, links.configs, n2);
    if r3.Err? { return r3, n3; }
    r, next := AttachVolumes(r3.value, volumes, app, external.volumes, links.volumes, n3);
    if r.Err? { return; }
    ApartMore(table, r1.value, r2.value);
    ApartMore(table, r2.value, r3.value);
    ApartMore(table, r3.value, r.value);
    LinkedStays(r1.value, r.value, T.Variable, app, names.variables, links.variables);
    LinkedStays(r2.value, r.value, T.Secret, app, names.secrets, links.secrets);
    LinkedStays(r3.value, r.value, T.Config, app, names.configs, links.configs);
  }

  method CreateApp(rows: Rows, g: Id, names: Names, external: External, volumes: set<Id>, store: Store, app: M.AppSpec, base: nat)
    returns (r: Result<Rows, Failure>, endpoints: seq<Id>, next: nat)
    requires RowsUnused(rows, base) && R.Distinct(M.EndpointNames(app.links.endpoints))
    ensures r.Ok? <==> AttachmentsFit(volumes, names, external, app.links) &&
                       HostsFree(rows.domains, external, AllHosts(app.links.endpoints))
    ensures r.Ok? ==> Took(rows.domains, r.value.domains, external, AllHosts(app.links.endpoints))
    ensures r.Ok? ==> next > base && RowsUnused(r.value, next) && RowsExtend(rows, r.value)
    ensures r.Ok? ==> RowsNew(rows, r.value, g, base, names, volumes) && r.value.apps.Keys == rows.apps.Keys + {base}
    ensures r.Ok? ==> AppMade(r.value, names, external, store, g, base, app, endpoints)
    ensures r.Ok? ==> forall d :: d in rows.domains && r.value.domains[d] != rows.domains[d] ==>
      NamedIn(external, app.links.endpoints, d)
  {
    hide Linked, Mounted, AllServed, AttachmentsFit, HostsFree, Took, AttachmentsApart, EndpointsApart, SourceOk, NamedIn,
      DomainsTaken;
    endpoints := [];
    var row := T.App(g, store(app), if app.basics.running then T.Running else T.Stopped, false);
    var apps := rows.apps[base := row];
    var attached, n1 := AttachAll(rows.attachments, volumes, names, external, base, app.links, base + 1);
    if attached.Err? { return Err(attached.error), endpoints, n1; }
    var served, ids, n2 := CreateEndpoints(rows.endpoints, rows.domains, external, base, app.links.endpoints, n1);
    if served.Err? { return Err(served.error), ids, n2; }
    DomainsTakenSince(rows.domains, served.value.1, served.value.0, base, n1);
    r := Ok(Rows(apps, attached.value, served.value.0, served.value.1));
    endpoints, next := ids, n2;
  }

  // ---- The whole manifest ----------------------------------------------------------------------------------------

  /** What the transaction made: the group, its resources by name, and its apps with their endpoints. */
  datatype Imported = Imported(db: T.Db, group: Id, names: Names, apps: seq<Id>, endpoints: seq<seq<Id>>)

  function RowsOf(db: T.Db): Rows {
    Rows(db.apps, db.attachments, db.endpoints, db.domains)
  }

  ghost predicate AppsMade(rows: Rows, names: Names, external: External, store: Store, g: Id, ids: seq<Id>,
                           endpoints: seq<seq<Id>>, apps: seq<M.AppSpec>) {
    |ids| == |apps| == |endpoints| &&
    forall i :: 0 <= i < |apps| ==> AppMade(rows, names, external, store, g, ids[i], apps[i], endpoints[i])
  }

  predicate DomainListed(external: External, apps: seq<M.AppSpec>, d: Id) {
    exists a | a in apps :: NamedIn(external, a.links.endpoints, d)
  }

  lemma RowsExtendMore(first: Rows, before: Rows, after: Rows)
    requires RowsExtend(first, before) && RowsExtend(before, after)
    ensures RowsExtend(first, after)
  {
  }

  lemma RowsNewMore(first: Rows, before: Rows, after: Rows, g: Id, base: nat, next: nat, names: Names, volumes: set<Id>)
    requires RowsNew(first, before, g, base, names, volumes) && RowsNew(before, after, g, next, names, volumes)
    requires RowsExtend(first, before) && RowsExtend(before, after) && base <= next
    ensures RowsNew(first, after, g, base, names, volumes) && RowsExtend(first, after)
  {
    hide AttachmentsApart, EndpointsApart, SourceOk, DomainsTaken;
    RowsExtendMore(first, before, after);
    DomainsTakenMore(first.domains, before.domains, after.domains, before.endpoints, after.endpoints, base, next);
    ApartMore(first.attachments, before.attachments, after.attachments);
    EndpointsApartMore(first.endpoints, before.endpoints, after.endpoints);
  }

  function AppHosts(apps: seq<M.AppSpec>): seq<string> {
    if apps == [] then [] else AppHosts(apps[..|apps| - 1]) + AllHosts(apps[|apps| - 1].links.endpoints)
  }

  lemma {:induction false} AppHostsOfPrefix(apps: seq<M.AppSpec>, n: nat) returns (rest: seq<string>)
    requires n <= |apps|
    ensures AppHosts(apps) == AppHosts(apps[..n]) + rest
  {
    if n == |apps| {
      rest := [];
      assert apps[..n] == apps;
    } else {
      rest := AppHostsOfPrefix(apps[..|apps| - 1], n);
      assert apps[..|apps| - 1][..n] == apps[..n];
      rest := rest + AllHosts(apps[|apps| - 1].links.endpoints);
    }
  }

  predicate AppsFit(domains: Domains, volumes: set<Id>, names: Names, external: External, apps: seq<M.AppSpec>) {
    && (forall a | a in apps :: AttachmentsFit(volumes, names, external, a.links))
    && HostsFree(domains, external, AppHosts(apps))
  }

  lemma AppDoesNotFit(domains: Domains, held: Domains, volumes: set<Id>, names: Names, external: External, apps: seq<M.AppSpec>, i: nat)
    requires i < |apps| && HostsFree(domains, external, AppHosts(apps[..i])) && Took(domains, held, external, AppHosts(apps[..i]))
    requires !AttachmentsFit(volumes, names, external, apps[i].links) || !HostsFree(held, external, AllHosts(apps[i].links.endpoints))
    ensures !AppsFit(domains, volumes, names, external, apps)
  {
    var before := AppHosts(apps[..i]);
    TakingOneByOne(domains, held, external, before, AllHosts(apps[i].links.endpoints));
    assert apps[..i + 1][..i] == apps[..i];
    assert AppHosts(apps[..i + 1]) == before + AllHosts(apps[i].links.endpoints);
    var rest := AppHostsOfPrefix(apps, i + 1);
    if HostsFree(domains, external, AppHosts(apps)) {
      PrefixFree(domains, external, before + AllHosts(apps[i].links.endpoints), rest);
    }
    assert apps[i] in apps;
  }

  lemma OneMoreApp(domains: Domains, held: Domains, after: Domains, external: External, apps: seq<M.AppSpec>, i: nat)
    requires i < |apps| && HostsFree(domains, external, AppHosts(apps[..i])) && Took(domains, held, external, AppHosts(apps[..i]))
    requires HostsFree(held, external, AllHosts(apps[i].links.endpoints))
    requires Took(held, after, external, AllHosts(apps[i].links.endpoints))
    ensures HostsFree(domains, external, AppHosts(apps[..i + 1])) && Took(domains, after, external, AppHosts(apps[..i + 1]))
  {
    TakingOneByOne(domains, held, external, AppHosts(apps[..i]), AllHosts(apps[i].links.endpoints));
    TookBoth(domains, held, after, external, AppHosts(apps[..i]), AllHosts(apps[i].links.endpoints));
    assert apps[..i + 1][..i] == apps[..i];
  }

  /** The state of the loop over the apps, after the first `i`. */
  ghost predicate SomeMade(rows: Rows, after: Rows, g: Id, names: Names, external: External, volumes: set<Id>, store: Store,
                           apps: seq<M.AppSpec>, i: nat, ids: seq<Id>, endpoints: seq<seq<Id>>, base: nat, next: nat)
    requires i <= |apps|
  {
    && base <= next && RowsUnused(after, next)
    && (forall a :: a in apps[..i] ==> AttachmentsFit(volumes, names, external, a.links))
    && HostsFree(rows.domains, external, AppHosts(apps[..i])) && Took(rows.domains, after.domains, external, AppHosts(apps[..i]))
    && RowsExtend(rows, after) && RowsNew(rows, after, g, base, names, volumes)
    && AppsMade(after, names, external, store, g, ids, endpoints, apps[..i])
    && (forall a :: a in after.apps && a !in rows.apps ==> a in ids)
    && (forall d :: d in rows.domains && after.domains[d] != rows.domains[d] ==> DomainListed(external, apps, d))
  }

  lemma AppsMadeMore(after: Rows, made: Rows, names: Names, external: External, store: Store, g: Id, ids: seq<Id>,
                     endpoints: seq<seq<Id>>, apps: seq<M.AppSpec>, i: nat, id: Id, served: seq<Id>)
    requires i < |apps| && AppsMade(after, names, external, store, g, ids, endpoints, apps[..i]) && RowsExtend(after, made)
    requires AppMade(made, names, external, store, g, id, apps[i], served)
    ensures AppsMade(made, names, external, store, g, ids + [id], endpoints + [served], apps[..i + 1])
  {
    forall j | 0 <= j < i ensures AppMade(made, names, external, store, g, ids[j], apps[j], endpoints[j]) {
      assert apps[..i][j] == apps[j];
      AppMadeStays(after, made, names, external, store, g, ids[j], apps[j], endpoints[j]);
    }
  }

  lemma OneMoreMade(rows: Rows, after: Rows, made: Rows, g: Id, names: Names, external: External, volumes: set<Id>, store: Store,
                    apps: seq<M.AppSpec>, i: nat, ids: seq<Id>, endpoints: seq<seq<Id>>, base: nat, next: nat, n: nat, served: seq<Id>)
    requires i < |apps| && SomeMade(rows, after, g, names, external, volumes, store, apps, i, ids, endpoints, base, next)
    requires next < n && RowsUnused(made, n) && RowsExtend(after, made) && RowsNew(after, made, g, next, names, volumes)
    requires AppMade(made, names, external, store, g, next, apps[i], served) && made.apps.Keys == after.apps.Keys + {next}
    requires AttachmentsFit(volumes, names, external, apps[i].links)
    requires HostsFree(after.domains, external, AllHosts(apps[i].links.endpoints))
    requires Took(after.domains, made.domains, external, AllHosts(apps[i].links.endpoints))
    requires forall d :: d in after.domains && made.domains[d] != after.domains[d] ==> NamedIn(external, apps[i].links.endpoints, d)
    ensures SomeMade(rows, made, g, names, external, volumes, store, apps, i + 1, ids + [next], endpoints + [served], base, n)
  {
    hide AppMade, AttachmentsFit, HostsFree, Took, RowsNew, NamedIn;
    OneMoreApp(rows.domains, after.domains, made.domains, external, apps, i);
    RowsNewMore(rows, after, made, g, base, next, names, volumes);
    AppsMadeMore(after, made, names, external, store, g, ids, endpoints, apps, i, next, served);
    assert apps[..i + 1] == apps[..i] + [apps[i]];
    assert apps[i] in apps;
  }

  lemma NothingMadeYet(rows: Rows, g: Id, names: Names, external: External, volumes: set<Id>, store: Store,
                       apps: seq<M.AppSpec>, base: nat)
    requires RowsUnused(rows, base)
    ensures SomeMade(rows, rows, g, names, external, volumes, store, apps, 0, [], [], base, base)
  {
  }

  method CreateApps(rows: Rows, g: Id, names: Names, external: External, volumes: set<Id>, store: Store, apps: seq<M.AppSpec>, base: nat)
    returns (r: Result<Rows, Failure>, ids: seq<Id>, endpoints: seq<seq<Id>>)
    requires RowsUnused(rows, base) && forall a | a in apps :: R.Distinct(M.EndpointNames(a.links.endpoints))
    ensures r.Ok? <==> AppsFit(rows.domains, volumes, names, external, apps)
    ensures r.Ok? ==> RowsExtend(rows, r.value) && RowsNew(rows, r.value, g, base, names, volumes)
    ensures r.Ok? ==> AppsMade(r.value, names, external, store, g, ids, endpoints, apps)
    ensures r.Ok? ==> forall a :: a in r.value.apps && a !in rows.apps ==> a in ids
    ensures r.Ok? ==> forall d :: d in rows.domains && r.value.domains[d] != rows.domains[d] ==> DomainListed(external, apps, d)
  {
    hide AppMade, AppsMade, RowsNew, RowsExtend, RowsUnused, AttachmentsFit, HostsFree, Took, DomainListed, NamedIn;
    var after := rows;
    ids, endpoints := [], [];
    var next := base;
    NothingMadeYet(rows, g, names, external, volumes, store, apps, base);
    for i := 0 to |apps|
      invariant SomeMade(rows, after, g, names, external, volumes, store, apps, i, ids, endpoints, base, next)
    {
      var made, served, n := CreateApp(after, g, names, external, volumes, store, apps[i], next);
      if made.Err? {
        AppDoesNotFit(rows.domains, after.domains, volumes, names, external, apps, i);
        return Err(made.error), ids, endpoints;
      }
      OneMoreMade(rows, after, made.value, g, names, external, volumes, store, apps, i, ids, endpoints, base, next, n, served);
      ids, endpoints := ids + [next], endpoints + [served];
      after, next := made.value, n;
    }
    assert apps[..|apps|] == apps;
    r := Ok(after);
  }

  function Contents(texts: seq<M.NamedText>): seq<string> {
    seq(|texts|, i requires 0 <= i < |texts| => texts[i].text)
  }

  function NoContents(n: nat): seq<string> {
    seq(n, _ => "")
  }

  /** The texts of the manifest are rows of group `g`, found by their names. */
  ghost predicate TextsMade(resources: Resources, g: Id, k: T.Kind, ids: map<string, Id>, texts: seq<M.NamedText>, version: nat) {
    && ids.Keys == (set n | n in M.NamesOf(texts))
    && (forall t :: t in texts ==>
          t.name in ids && (k, ids[t.name]) in resources &&
          resources[(k, ids[t.name])] == T.Resource(g, t.name, t.text, version))
  }

  ghost predicate SecretsMade(resources: Resources, g: Id, ids: map<string, Id>, texts: seq<M.SecretText>) {
    && ids.Keys == (set n | n in M.NamesOfSecrets(texts))
    && (forall t :: t in texts ==>
          t.name in ids && (T.Secret, ids[t.name]) in resources &&
          resources[(T.Secret, ids[t.name])] == T.Resource(g, t.name, "", 1))
  }

  /** The resources that the names stand for are new rows of group `g`. */
  ghost predicate NamesNew(before: Resources, after: Resources, g: Id, k: T.Kind, ids: map<string, Id>) {
    forall n :: n in ids ==> (k, ids[n]) !in before && (k, ids[n]) in after && after[(k, ids[n])].group == g
  }

  /** New rows of one kind, one for each name. */
  ghost predicate KindMade(before: Resources, after: Resources, g: Id, k: T.Kind, ids: map<string, Id>, base: nat, next: nat) {
    && Extends(before, after) && ResourcesApart(before, after) && base <= next && UnusedKeys(after, next)
    && NamesNew(before, after, g, k, ids) && OneNameEach(ids) && NewOf(before, after, g, {k}, base)
  }

  ghost predicate NewOf(before: Resources, after: Resources, g: Id, kinds: set<T.Kind>, base: nat) {
    forall t :: t in after && t !in before ==> after[t].group == g && t.0 in kinds && base <= t.1
  }

  lemma OtherKindsNext(x: Resources, y: Resources, z: Resources, g: Id, p: set<T.Kind>, q: set<T.Kind>, base: nat, next: nat)
    requires Extends(x, y) && Extends(y, z) && ResourcesApart(x, y) && ResourcesApart(y, z) && p !! q && base <= next
    requires NewOf(x, y, g, p, base) && NewOf(y, z, g, q, next)
    ensures Extends(x, z) && ResourcesApart(x, z) && NewOf(x, z, g, p + q, base)
  {
  }

  lemma NamesStayNew(x: Resources, y: Resources, z: Resources, w: Resources, g: Id, k: T.Kind, ids: map<string, Id>)
    requires NamesNew(y, z, g, k, ids) && Extends(x, y) && Extends(z, w)
    ensures NamesNew(x, w, g, k, ids)
  {
    forall n | n in ids ensures (k, ids[n]) !in x && (k, ids[n]) in w && w[(k, ids[n])].group == g {
      assert (k, ids[n]) in z;
    }
  }

  lemma TextsStay(x: Resources, y: Resources, g: Id, k: T.Kind, ids: map<string, Id>, texts: seq<M.NamedText>, version: nat)
    requires TextsMade(x, g, k, ids, texts, version) && Extends(x, y)
    ensures TextsMade(y, g, k, ids, texts, version)
  {
  }

  lemma ExtendsMore<K(!new), V>(x: map<K, V>, y: map<K, V>, z: map<K, V>)
    requires Extends(x, y) && Extends(y, z)
    ensures Extends(x, x) && Extends(x, z) && Extends(z, z)
  {
  }

  method CreateTexts(table: Resources, g: Id, k: T.Kind, texts: seq<M.NamedText>, version: nat, base: nat)
    returns (after: Resources, ids: map<string, Id>, next: nat)
    requires UnusedKeys(table, base) && R.Distinct(M.NamesOf(texts)) && !k.Volume?
    ensures KindMade(table, after, g, k, ids, base, next) && TextsMade(after, g, k, ids, texts, version)
  {
    after, ids, next := CreateResources(table, g, k, M.NamesOf(texts), Contents(texts), version, base);
    RowsMadeFacts(table, after, g, k, ids, M.NamesOf(texts), Contents(texts), version, base);
    forall t | t in texts ensures t.name in ids && after[(k, ids[t.name])] == T.Resource(g, t.name, t.text, version) {
      var i :| 0 <= i < |texts| && texts[i] == t;
      assert M.NamesOf(texts)[i] == t.name && Contents(texts)[i] == t.text;
    }
  }

  method CreateSecrets(table: Resources, g: Id, texts: seq<M.SecretText>, base: nat)
    returns (after: Resources, ids: map<string, Id>, next: nat)
    requires UnusedKeys(table, base) && R.Distinct(M.NamesOfSecrets(texts))
    ensures KindMade(table, after, g, T.Secret, ids, base, next) && SecretsMade(after, g, ids, texts)
  {
    after, ids, next := CreateResources(table, g, T.Secret, M.NamesOfSecrets(texts), NoContents(|texts|), 1, base);
    RowsMadeFacts(table, after, g, T.Secret, ids, M.NamesOfSecrets(texts), NoContents(|texts|), 1, base);
    forall t | t in texts ensures t.name in ids && after[(T.Secret, ids[t.name])] == T.Resource(g, t.name, "", 1) {
      var i :| 0 <= i < |texts| && texts[i] == t;
      assert M.NamesOfSecrets(texts)[i] == t.name && NoContents(|texts|)[i] == "";
    }
  }

  predicate IdsUnused(db: T.Db, base: nat) {
    && Unused(db.groups, base) && UnusedKeys(db.resources, base) && RowsUnused(RowsOf(db), base)
    && Unused(db.appOwner, base) && UnusedKeys(db.resourceOwner, base)
    && UnusedKeys(db.attachmentOwner, base) && Unused(db.endpointOwner, base)
  }

  function AppOwners(before: T.Db, apps: map<Id, T.App>): map<Id, Id> {
    before.appOwner + (map a | a in apps && a !in before.apps :: apps[a].group)
  }

  function ResourceOwners(before: T.Db, resources: Resources): map<(T.Kind, Id), Id> {
    before.resourceOwner + (map k | k in resources && k !in before.resources :: resources[k].group)
  }

  function AttachmentOwners(before: T.Db, attachments: Attachments): map<(T.Kind, Id), Id> {
    before.attachmentOwner + (map t | t in attachments && t !in before.attachments :: attachments[t].app)
  }

  function EndpointOwners(before: T.Db, endpoints: Endpoints): map<Id, Id> {
    before.endpointOwner + (map e | e in endpoints && e !in before.endpoints :: endpoints[e].app)
  }

  /** The ids of new rows are issued for what owns the rows. */
  predicate Issued(before: T.Db, after: T.Db) {
    && after.appOwner == AppOwners(before, after.apps) && after.resourceOwner == ResourceOwners(before, after.resources)
    && after.attachmentOwner == AttachmentOwners(before, after.attachments)
    && after.endpointOwner == EndpointOwners(before, after.endpoints)
  }

  function NewGroup(m: M.Manifest): T.Group {
    T.Group(if m.running then T.Running else T.Stopped, false, m.apps != [], if m.apps != [] then 1 else 0, false, None)
  }

  /** The tables after a committed import. */
  ghost predicate Committed(db: T.Db, m: M.Manifest, external: External, store: Store, base: nat, i: Imported) {
    && i.group == base && i.group !in db.groups && i.db.groups == db.groups[i.group := NewGroup(m)]
    && i.db.volumes == db.volumes
    && TablesMade(db.resources, i.db.resources, i.group, m, i.names, base) && Issued(db, i.db)
    && RowsExtend(RowsOf(db), RowsOf(i.db)) && RowsNew(RowsOf(db), RowsOf(i.db), i.group, base, i.names, db.volumes)
    && AppsMade(RowsOf(i.db), i.names, external, store, i.group, i.apps, i.endpoints, m.apps)
    && (forall a :: a in i.db.apps && a !in db.apps ==> a in i.apps)
    && (forall d :: d in db.domains && i.db.domains[d] != db.domains[d] ==> DomainListed(external, m.apps, d))
  }

  /** What the quota counts of the listed apps. */
  function ShapesOf(apps: seq<M.AppSpec>): seq<Q.Shape> {
    seq(|apps|, i requires 0 <= i < |apps| =>
      Q.Shape(apps[i].needs.cpu, apps[i].needs.memoryBytes, apps[i].needs.gpu, apps[i].basics.desiredReplicas))
  }

  /** The tenant has room for the apps and no group of that name. */
  predicate Admitted(tenant: Tenant, m: M.Manifest) {
    Q.ImportAllowed(Q.Usage(tenant.apps), tenant.limits, ShapesOf(m.apps)) && m.name !in tenant.groupNames
  }

  /** No app attaches one source twice, volumes and domains are still there, and every listed domain
      is free and listed once. */
  predicate Applies(db: T.Db, m: M.Manifest, external: External) {
    && (forall a | a in m.apps ::
          && R.Distinct(M.Sources(a.links.variables)) && R.Distinct(M.Sources(a.links.secrets))
          && R.Distinct(M.Sources(a.links.configs)) && MountsFit(db.volumes, external.volumes, a.links.volumes))
    && HostsFree(db.domains, external, AppHosts(m.apps))
  }

  lemma SourcesDecide(ids: map<string, Id>, links: seq<M.Link>)
    requires forall x | x in links :: x.source in ids
    requires forall n, p | n in ids && p in ids :: ids[n] == ids[p] ==> n == p
    requires R.Distinct(M.Targets(links))
    ensures LinksFit(ids, links) <==> R.Distinct(M.Sources(links))
  {
    forall i | 0 <= i < |links| ensures links[i].source in ids { assert links[i] in links; }
    forall i, j | 0 <= i < j < |links| ensures links[i].target != links[j].target {
      assert M.Targets(links)[i] != M.Targets(links)[j];
    }
    if LinksFit(ids, links) {
      forall i, j | 0 <= i < j < |links| ensures M.Sources(links)[i] != M.Sources(links)[j] {
        assert ids[links[i].source] != ids[links[j].source];
      }
    }
    if R.Distinct(M.Sources(links)) {
      forall i, j | 0 <= i < j < |links| ensures ids[links[i].source] != ids[links[j].source] {
        assert M.Sources(links)[i] != M.Sources(links)[j];
      }
    }
  }

  predicate OneNameEach(ids: map<string, Id>) {
    forall n, p | n in ids && p in ids :: ids[n] == ids[p] ==> n == p
  }

  lemma AppDecided(m: M.Manifest, a: M.AppSpec, names: Names, external: External, volumes: set<Id>)
    requires R.ValidManifest(m) && a in m.apps
    requires names.variables.Keys == (set n | n in M.NamesOf(m.variables)) && OneNameEach(names.variables)
    requires names.configs.Keys == (set n | n in M.NamesOf(m.configs)) && OneNameEach(names.configs)
    requires names.secrets.Keys == (set n | n in M.NamesOfSecrets(m.secrets)) && OneNameEach(names.secrets)
    ensures AttachmentsFit(volumes, names, external, a.links) <==>
      R.Distinct(M.Sources(a.links.variables)) && R.Distinct(M.Sources(a.links.secrets)) &&
      R.Distinct(M.Sources(a.links.configs)) && MountsFit(volumes, external.volumes, a.links.volumes)
  {
    assert R.ValidApp(a) && R.AppClosed(a.links, m);
    NamesAreNames(m);
    SourcesDecide(names.variables, a.links.variables);
    SourcesDecide(names.secrets, a.links.secrets);
    SourcesDecide(names.configs, a.links.configs);
  }

  lemma NamesAreNames(m: M.Manifest)
    ensures M.TextNames(m.variables) == (set n | n in M.NamesOf(m.variables))
    ensures M.TextNames(m.configs) == (set n | n in M.NamesOf(m.configs))
    ensures M.SecretNames(m.secrets) == (set n | n in M.NamesOfSecrets(m.secrets))
  {
    NamesOfTexts(m.variables);
    NamesOfTexts(m.configs);
    forall t | t in m.secrets ensures t.name in M.NamesOfSecrets(m.secrets) {
      var i :| 0 <= i < |m.secrets| && m.secrets[i] == t;
      assert M.NamesOfSecrets(m.secrets)[i] == t.name;
    }
    forall n | n in M.NamesOfSecrets(m.secrets) ensures n in M.SecretNames(m.secrets) {
      var i :| 0 <= i < |m.secrets| && M.NamesOfSecrets(m.secrets)[i] == n;
      assert m.secrets[i] in m.secrets;
    }
  }

  lemma NamesOfTexts(texts: seq<M.NamedText>)
    ensures M.TextNames(texts) == (set n | n in M.NamesOf(texts))
  {
    forall t | t in texts ensures t.name in M.NamesOf(texts) {
      var i :| 0 <= i < |texts| && texts[i] == t;
      assert M.NamesOf(texts)[i] == t.name;
    }
    forall n | n in M.NamesOf(texts) ensures n in M.TextNames(texts) {
      var i :| 0 <= i < |texts| && M.NamesOf(texts)[i] == n;
      assert texts[i] in texts;
    }
  }

  lemma ManifestDecided(db: T.Db, m: M.Manifest, names: Names, external: External)
    requires R.ValidManifest(m) && NamesFit(m, names)
    ensures AppsFit(db.domains, db.volumes, names, external, m.apps) <==> Applies(db, m, external)
  {
    hide AttachmentsFit, HostsFree, R.ValidManifest, MountsFit, OneNameEach;
    forall a | a in m.apps
      ensures AttachmentsFit(db.volumes, names, external, a.links) <==>
        R.Distinct(M.Sources(a.links.variables)) && R.Distinct(M.Sources(a.links.secrets)) &&
        R.Distinct(M.Sources(a.links.configs)) && MountsFit(db.volumes, external.volumes, a.links.volumes)
    {
      AppDecided(m, a, names, external, db.volumes);
    }
  }

  lemma EndpointNamesDistinct(m: M.Manifest)
    requires R.ValidManifest(m)
    ensures forall a | a in m.apps :: R.Distinct(M.EndpointNames(a.links.endpoints))
  {
    forall a | a in m.apps ensures R.Distinct(M.EndpointNames(a.links.endpoints)) {
      assert R.ValidApp(a);
    }
  }

  /** The import commits exactly if the tenant admits the manifest and it applies. A manifest that
      attaches one source twice under two targets is well-formed but never does. The name of the
      group is then taken, and what the quota counts has grown by the listed apps. */
  method ApplyManifest(tenant: Tenant, db: T.Db, m: M.Manifest, external: External, store: Store, base: nat)
    returns (r: Result<Imported, Failure>, after: Tenant)
    requires R.ValidManifest(m) && IdsUnused(db, base)
    ensures r.Ok? <==> Admitted(tenant, m) && Applies(db, m, external)
    ensures r.Ok? ==> Committed(db, m, external, store, base, r.value)
    ensures !Q.ImportAllowed(Q.Usage(tenant.apps), tenant.limits, ShapesOf(m.apps)) ==> r == Err(QuotaExceeded)
    ensures r.Err? ==> after == tenant
    ensures r.Ok? ==> after.groupNames == tenant.groupNames + {m.name} && after.limits == tenant.limits
    ensures r.Ok? ==> Q.Usage(after.apps) == Q.Total(Q.Usage(tenant.apps), ShapesOf(m.apps))
  {
    after := tenant;
    if !Q.ImportAllowed(Q.Usage(tenant.apps), tenant.limits, ShapesOf(m.apps)) { return Err(QuotaExceeded), tenant; }
    if m.name in tenant.groupNames { return Err(Conflict), tenant; }
    r := CreateGroup(db, m, external, store, base);
    if r.Ok? {
      Q.UsageOfNew(tenant.apps, ShapesOf(m.apps));
      after := tenant.(groupNames := tenant.groupNames + {m.name}, apps := tenant.apps + Q.NewRows(ShapesOf(m.apps)));
    }
  }

  /** The tables with the new rows, whose ids are issued for what owns them. */
  function WithRows(db: T.Db, g: Id, group: T.Group, resources: Resources, rows: Rows): T.Db {
    db.(groups := db.groups[g := group], resources := resources, apps := rows.apps,
        attachments := rows.attachments, endpoints := rows.endpoints, domains := rows.domains,
        appOwner := AppOwners(db, rows.apps), resourceOwner := ResourceOwners(db, resources),
        attachmentOwner := AttachmentOwners(db, rows.attachments), endpointOwner := EndpointOwners(db, rows.endpoints))
  }

  lemma RowsAreThere(db: T.Db, g: Id, group: T.Group, resources: Resources, rows: Rows)
    ensures var after := WithRows(db, g, group, resources, rows);
      && RowsOf(after) == rows && after.resources == resources && after.volumes == db.volumes
      && after.groups == db.groups[g := group] && Issued(db, after)
  {
    hide AppOwners, ResourceOwners, AttachmentOwners, EndpointOwners;
  }

  lemma UnusedLater(db: T.Db, base: nat, next: nat)
    requires IdsUnused(db, base) && base < next
    ensures base !in db.groups && UnusedKeys(db.resources, base + 1) && RowsUnused(RowsOf(db), next)
  {
  }

  /** The variables, configs and secrets of the manifest. */
  ghost predicate TablesMade(before: Resources, after: Resources, g: Id, m: M.Manifest, names: Names, base: nat) {
    && Extends(before, after) && ResourcesApart(before, after)
    && (forall k :: k in after && k !in before ==> after[k].group == g && !k.0.Volume? && base <= k.1)
    && TextsMade(after, g, T.Variable, names.variables, m.variables, 0)
    && TextsMade(after, g, T.Config, names.configs, m.configs, 1)
    && SecretsMade(after, g, names.secrets, m.secrets)
    && NamesNew(before, after, g, T.Variable, names.variables)
    && NamesNew(before, after, g, T.Config, names.configs)
    && NamesNew(before, after, g, T.Secret, names.secrets)
  }

  /** The names of the manifest have one id each. */
  predicate NamesFit(m: M.Manifest, names: Names) {
    && names.variables.Keys == (set n | n in M.NamesOf(m.variables)) && OneNameEach(names.variables)
    && names.configs.Keys == (set n | n in M.NamesOf(m.configs)) && OneNameEach(names.configs)
    && names.secrets.Keys == (set n | n in M.NamesOfSecrets(m.secrets)) && OneNameEach(names.secrets)
  }

  lemma KindsTogether(x: Resources, y: Resources, z: Resources, w: Resources, g: Id, m: M.Manifest, names: Names,
                      base: nat, n1: nat, n2: nat, n3: nat)
    requires KindMade(x, y, g, T.Variable, names.variables, base, n1)
    requires KindMade(y, z, g, T.Config, names.configs, n1, n2)
    requires KindMade(z, w, g, T.Secret, names.secrets, n2, n3)
    requires TextsMade(y, g, T.Variable, names.variables, m.variables, 0)
    requires TextsMade(z, g, T.Config, names.configs, m.configs, 1) && SecretsMade(w, g, names.secrets, m.secrets)
    ensures TablesMade(x, w, g, m, names, base)
  {
    hide Extends, ResourcesApart, UnusedKeys, NamesNew, OneNameEach, TextsMade, SecretsMade;
    OtherKindsNext(x, y, z, g, {T.Variable}, {T.Config}, base, n1);
    OtherKindsNext(x, z, w, g, {T.Variable, T.Config}, {T.Secret}, base, n2);
    ExtendsMore(y, z, w);
    ExtendsMore(x, y, z);
    NamesStayNew(x, x, y, w, g, T.Variable, names.variables);
    NamesStayNew(x, y, z, w, g, T.Config, names.configs);
    NamesStayNew(x, z, w, w, g, T.Secret, names.secrets);
    TextsStay(y, w, g, T.Variable, names.variables, m.variables, 0);
    TextsStay(z, w, g, T.Config, names.configs, m.configs, 1);
  }

  method CreateTables(table: Resources, g: Id, m: M.Manifest, base: nat)
    returns (after: Resources, names: Names, next: nat)
    requires UnusedKeys(table, base) && R.ValidManifest(m)
    ensures TablesMade(table, after, g, m, names, base) && next >= base && NamesFit(m, names)
  {
    hide Extends, ResourcesApart, NamesNew, OneNameEach, NewOf, TablesMade, UnusedKeys;
    var variables, variableIds, n1 := CreateTexts(table, g, T.Variable, m.variables, 0, base);
    var configs, configIds, n2 := CreateTexts(variables, g, T.Config, m.configs, 1, n1);
    var secrets, secretIds, n3 := CreateSecrets(configs, g, m.secrets, n2);
    after, names, next := secrets, Names(variableIds, secretIds, configIds), n3;
    KindsTogether(table, variables, configs, secrets, g, m, names, base, n1, n2, n3);
  }

  /** The group and everything in it. */
  method CreateGroup(db: T.Db, m: M.Manifest, external: External, store: Store, base: nat) returns (r: Result<Imported, Failure>)
    requires R.ValidManifest(m) && IdsUnused(db, base)
    ensures r.Ok? <==> Applies(db, m, external)
    ensures r.Ok? ==> Committed(db, m, external, store, base, r.value)
  {
    hide Applies, AppsMade, RowsNew, RowsExtend, TablesMade, NamesFit, AppsFit, DomainListed, Issued, IdsUnused, RowsUnused,
      R.ValidManifest, WithRows;
    var g := base;
    UnusedLater(db, base, base + 1);
    var table, names, n3 := CreateTables(db.resources, g, m, base + 1);
    ManifestDecided(db, m, names, external);
    EndpointNamesDistinct(m);
    UnusedLater(db, base, n3);
    var rows, apps, endpoints := CreateApps(RowsOf(db), g, names, external, db.volumes, store, m.apps, n3);
    if rows.Err? { return Err(rows.error); }
    NewFromLater(RowsOf(db), rows.value, g, base, n3, names, db.volumes);
    TablesFromLater(db.resources, table, g, m, names, base, base + 1);
    RowsAreThere(db, g, NewGroup(m), table, rows.value);
    r := Ok(Imported(WithRows(db, g, NewGroup(m), table, rows.value), g, names, apps, endpoints));
  }

  lemma TablesFromLater(before: Resources, after: Resources, g: Id, m: M.Manifest, names: Names, base: nat, next: nat)
    requires TablesMade(before, after, g, m, names, next) && base <= next
    ensures TablesMade(before, after, g, m, names, base)
  {
    hide Extends, ResourcesApart, NamesNew, TextsMade, SecretsMade;
  }

  /** One app that is given the variable V under two names. */
  const BARE := M.Options(([], map[]), None, None, [], None, None, false, 10, None, None)
  const TWO_LINKS := M.Links([M.Link("V", "A"), M.Link("V", "B")], [], [], [], [])
  const TWO_LINKS_APP := M.AppSpec(M.Basics("a", None, "i", None, 1, true), M.Needs(1.0, 134217728, 0), BARE, TWO_LINKS)
  const TWO_LINKS_MANIFEST := M.Manifest("g", None, true, [M.NamedText("V", None, "1")], [], [], [TWO_LINKS_APP])

  lemma OneLetter(c: char)
    requires c as int < 0x80
    ensures R.Within([c], 63) && R.Within([c], 128) && R.Within([c], 512) && X.Units([c]) == 1
  {
    assert [c][..0] == [];
  }

  lemma TwoLinksAreValid()
    ensures R.ValidApp(TWO_LINKS_APP)
  {
    OneLetter('a');
    OneLetter('i');
    OneLetter('A');
    OneLetter('B');
    var targets := M.Targets(TWO_LINKS.variables);
    assert targets[0] == "A" && targets[1] == "B" && "A"[0] != "B"[0];
  }

  /** A manifest can be well-formed and yet apply to no tables at all. */
  lemma WellFormedButNeverApplies(db: T.Db, external: External)
    ensures R.ValidManifest(TWO_LINKS_MANIFEST) && !Applies(db, TWO_LINKS_MANIFEST, external)
  {
    hide R.ValidApp;
    OneLetter('g');
    OneLetter('V');
    OneLetter('1');
    TwoLinksAreValid();
    var m := TWO_LINKS_MANIFEST;
    assert m.variables[0] in m.variables;
    assert "V" in M.TextNames(m.variables);
    var sources := M.Sources(TWO_LINKS.variables);
    assert sources[0] == sources[1] && TWO_LINKS_APP in m.apps;
  }

  lemma NewFromLater(before: Rows, after: Rows, g: Id, base: nat, next: nat, names: Names, volumes: set<Id>)
    requires RowsNew(before, after, g, next, names, volumes) && base <= next
    ensures RowsNew(before, after, g, base, names, volumes)
  {
    hide AttachmentsApart, EndpointsApart, SourceOk;
  }

  // ---- What a committed import means ----------------------------------------------------------------------------------

  /** Every new attachment belongs to an app of the new group, and unless it is of a volume, points
      to a resource that the same import created. */
  lemma ImportIsClosed(db: T.Db, m: M.Manifest, external: External, store: Store, base: nat, i: Imported, t: (T.Kind, Id))
    requires Committed(db, m, external, store, base, i) && t in i.db.attachments && t !in db.attachments
    ensures var row := i.db.attachments[t];
      && row.app in i.db.apps && row.app !in db.apps && i.db.apps[row.app].group == i.group
      && (!t.0.Volume? ==> (t.0, row.source) in i.db.resources && (t.0, row.source) !in db.resources &&
                           i.db.resources[(t.0, row.source)].group == i.group)
  {
    hide AttachmentsApart, EndpointsApart, ResourcesApart, Issued, TextsMade, SecretsMade, AppsMade, DomainsTaken, DomainListed, HeldStay;
  }

  /** Rows belong to groups and apps that exist. */
  predicate Homes(db: T.Db) {
    && (forall a | a in db.apps :: db.apps[a].group in db.groups)
    && (forall e | e in db.endpoints :: db.endpoints[e].app in db.apps)
  }

  /** Every listed host was free and is held by exactly the endpoint that names it; any other domain is as before. */
  lemma HostsGoWhereNamed(db: T.Db, m: M.Manifest, external: External, store: Store, base: nat, i: Imported, a: nat, e: nat, host: string)
    requires Committed(db, m, external, store, base, i) && T.DomainsFit(db) && Homes(db)
    requires a < |m.apps| && e < |m.apps[a].links.endpoints| && host in m.apps[a].links.endpoints[e].domains
    ensures a < |i.endpoints| && e < |i.endpoints[a]| && host in external.domains && external.domains[host] in db.domains
    ensures var d := external.domains[host];
      && db.domains[d].endpoint == None && d in i.db.domains
      && i.db.domains[d] == db.domains[d].(endpoint := Some(i.endpoints[a][e]))
      && i.endpoints[a][e] in i.db.endpoints && i.db.endpoints[i.endpoints[a][e]].name == m.apps[a].links.endpoints[e].name
  {
    hide AppMade, Linked, Mounted, TablesMade, Issued, DomainListed, AttachmentsApart, EndpointsApart, SourceOk;
    NamedEndpointHolds(RowsOf(i.db), i.names, external, store, i.group, i.apps, i.endpoints, m.apps, a, e, host);
    AppIsNew(db, m, external, store, base, i, a);
    assert i.endpoints[a][e] !in db.endpoints;
  }

  lemma NamedEndpointHolds(rows: Rows, names: Names, external: External, store: Store, g: Id, ids: seq<Id>,
                           endpoints: seq<seq<Id>>, apps: seq<M.AppSpec>, a: nat, e: nat, host: string)
    requires AppsMade(rows, names, external, store, g, ids, endpoints, apps) && a < |apps|
    requires e < |apps[a].links.endpoints| && host in apps[a].links.endpoints[e].domains
    ensures e < |endpoints[a]| && endpoints[a][e] in rows.endpoints && rows.endpoints[endpoints[a][e]].app == ids[a]
    ensures rows.endpoints[endpoints[a][e]].name == apps[a].links.endpoints[e].name
    ensures HostHeld(rows.domains, external, host, endpoints[a][e])
  {
    hide Linked, Mounted, HostHeld;
    assert AppMade(rows, names, external, store, g, ids[a], apps[a], endpoints[a]);
    assert Served(rows.endpoints, rows.domains, external, ids[a], endpoints[a][e], apps[a].links.endpoints[e]);
  }

  lemma AppIsNew(db: T.Db, m: M.Manifest, external: External, store: Store, base: nat, i: Imported, a: nat)
    requires Committed(db, m, external, store, base, i) && Homes(db) && a < |m.apps|
    ensures a < |i.apps| && i.apps[a] !in db.apps && i.apps[a] in i.db.apps && i.db.apps[i.apps[a]].group == i.group
  {
    hide Linked, Mounted, AllServed, TablesMade, Issued, RowsNew;
    assert AppMade(RowsOf(i.db), i.names, external, store, i.group, i.apps[a], m.apps[a], i.endpoints[a]);
  }

  lemma OtherDomainsStay(db: T.Db, m: M.Manifest, external: External, store: Store, base: nat, i: Imported, d: Id)
    requires Committed(db, m, external, store, base, i) && d in db.domains && !DomainListed(external, m.apps, d)
    ensures d in i.db.domains && i.db.domains[d] == db.domains[d]
  {
    hide AttachmentsApart, EndpointsApart, ResourcesApart, Issued, TextsMade, SecretsMade;
  }

  /** New rows beside the old ones, which stay: they belong to group `g`, or to apps that are new. */
  ghost predicate Beside(x: T.Db, y: T.Db, g: Id, base: nat) {
    && g !in x.groups && (forall h :: h in x.groups ==> h in y.groups && y.groups[h] == x.groups[h])
    && Extends(x.apps, y.apps) && Extends(x.resources, y.resources)
    && Extends(x.attachments, y.attachments) && Extends(x.endpoints, y.endpoints)
    && (forall a :: a in y.apps && a !in x.apps ==> y.apps[a].group == g)
    && (forall k :: k in y.resources && k !in x.resources ==> !k.0.Volume?)
    && (forall t :: t in y.attachments && t !in x.attachments ==> y.attachments[t].app !in x.apps)
    && (forall e :: e in y.endpoints && e !in x.endpoints ==> y.endpoints[e].app !in x.apps)
    && DomainsTaken(x.domains, y.domains, y.endpoints, base)
  }

  lemma CommittedBeside(db: T.Db, m: M.Manifest, external: External, store: Store, base: nat, i: Imported)
    requires Committed(db, m, external, store, base, i)
    ensures Beside(db, i.db, i.group, base)
  {
    hide AttachmentsApart, EndpointsApart, ResourcesApart, Issued, TextsMade, SecretsMade, NamesNew, AppsMade, SourceOk,
      DomainsTaken, DomainListed, HeldStay, Extends;
  }

  lemma SameLiveApps(x: T.Db, y: T.Db, g: Id, h: Id, base: nat)
    requires Beside(x, y, g, base) && h != g
    ensures forall a :: T.LiveIn(y.apps, h, a) <==> T.LiveIn(x.apps, h, a)
    ensures forall a :: T.LiveIn(x.apps, h, a) ==> a in y.apps && y.apps[a] == x.apps[a]
  {
    hide DomainsTaken;
  }

  /** An import changes nothing that a deployment of another group would run. */
  lemma ImportKeepsOtherContent(db: T.Db, m: M.Manifest, external: External, store: Store, base: nat, i: Imported, h: Id)
    requires Committed(db, m, external, store, base, i) && T.SourcesFit(db) && IdsUnused(db, base) && h in db.groups
    ensures T.ContentOf(i.db, h) == T.ContentOf(db, h)
    ensures h in i.db.groups && i.db.groups[h] == db.groups[h]
  {
    hide Committed, DomainsTaken, Extends, T.SourcesFit;
    var y := i.db;
    CommittedBeside(db, m, external, store, base, i);
    SameLiveApps(db, y, i.group, h, base);
    SameApps(db, y, h);
    AttachmentsElsewhere(db, y, h);
    DomainsElsewhere(db, y, h, base);
  }

  lemma SameApps(x: T.Db, y: T.Db, h: Id)
    requires forall a :: T.LiveIn(y.apps, h, a) <==> T.LiveIn(x.apps, h, a)
    requires forall a :: T.LiveIn(x.apps, h, a) ==> a in y.apps && y.apps[a] == x.apps[a]
    requires Extends(x.endpoints, y.endpoints)
    requires forall e :: e in y.endpoints && e !in x.endpoints ==> y.endpoints[e].app !in x.apps
    ensures T.AppContents(y.apps, h) == T.AppContents(x.apps, h)
    ensures T.EndpointContents(y.apps, y.endpoints, h) == T.EndpointContents(x.apps, x.endpoints, h)
  {
  }

  lemma AttachmentsElsewhere(x: T.Db, y: T.Db, h: Id)
    requires forall a :: T.LiveIn(y.apps, h, a) <==> T.LiveIn(x.apps, h, a)
    requires Extends(x.attachments, y.attachments) && Extends(x.resources, y.resources) && T.SourcesFit(x)
    requires forall t :: t in y.attachments && t !in x.attachments ==> y.attachments[t].app !in x.apps
    requires forall k :: k in y.resources && k !in x.resources ==> !k.0.Volume?
    ensures T.AttachmentContents(y.apps, y.attachments, y.resources, h) == T.AttachmentContents(x.apps, x.attachments, x.resources, h)
  {
  }

  lemma DomainsElsewhere(x: T.Db, y: T.Db, h: Id, base: nat)
    requires forall a :: T.LiveIn(y.apps, h, a) <==> T.LiveIn(x.apps, h, a)
    requires Extends(x.endpoints, y.endpoints) && DomainsTaken(x.domains, y.domains, y.endpoints, base)
    requires forall e :: e in y.endpoints && e !in x.endpoints ==> y.endpoints[e].app !in x.apps
    requires Unused(x.endpoints, base)
    ensures T.DomainContents(y.apps, y.endpoints, y.domains, h) == T.DomainContents(x.apps, x.endpoints, x.domains, h)
  {
  }
}
