/** A discard that commits rebuilds the draft of the deployed stack configuration. */
module RoundTrip {
  import opened Prelude
  import opened Tables
  import opened RestorePlan
  import opened Discard

  // ---- A built configuration is coherent ---------------------------------------

  lemma StackApps(b: Db, g: Id)
    requires g in b.groups
    ensures forall e :: e in BuildStack(b, g).apps ==> e.id in LiveApps(b, g) && e == AppEntryOf(b, e.id)
    ensures forall a :: a in LiveApps(b, g) ==> AppEntryOf(b, a) in BuildStack(b, g).apps
  {
    var ids := Ordered(LiveApps(b, g));
    var apps := BuildStack(b, g).apps;
    forall e | e in apps ensures e.id in LiveApps(b, g) && e == AppEntryOf(b, e.id) {
      var i :| 0 <= i < |apps| && apps[i] == e;
      assert ids[i] in ids;
    }
    forall a | a in LiveApps(b, g) ensures AppEntryOf(b, a) in apps {
      var i :| 0 <= i < |ids| && ids[i] == a;
      assert apps[i] == AppEntryOf(b, a);
    }
  }

  lemma AttEntriesIn(b: Db, a: Id, k: Kind)
    ensures forall x :: x in AttEntries(b, a, k) ==> x.id in AttachmentsOf(b, a, k) && x == EntryOf(b, k, x.id)
    ensures forall t :: t in AttachmentsOf(b, a, k) ==> EntryOf(b, k, t) in AttEntries(b, a, k)
  {
    var ids := Ordered(AttachmentsOf(b, a, k));
    var xs := AttEntries(b, a, k);
    forall x | x in xs ensures x.id in AttachmentsOf(b, a, k) && x == EntryOf(b, k, x.id) {
      var i :| 0 <= i < |xs| && xs[i] == x;
      assert ids[i] in ids;
    }
    forall t | t in AttachmentsOf(b, a, k) ensures EntryOf(b, k, t) in xs {
      var i :| 0 <= i < |ids| && ids[i] == t;
      assert xs[i] == EntryOf(b, k, t);
    }
  }

  lemma EndpointEntriesIn(b: Db, a: Id)
    ensures forall x :: x in EndpointEntries(b, a) ==> x.id in EndpointsOf(b, a) && x == EndpointEntryOf(b, x.id)
    ensures forall e :: e in EndpointsOf(b, a) ==> EndpointEntryOf(b, e) in EndpointEntries(b, a)
  {
    var ids := Ordered(EndpointsOf(b, a));
    var xs := EndpointEntries(b, a);
    forall x | x in xs ensures x.id in EndpointsOf(b, a) && x == EndpointEntryOf(b, x.id) {
      var i :| 0 <= i < |xs| && xs[i] == x;
      assert ids[i] in ids;
    }
    forall e | e in EndpointsOf(b, a) ensures EndpointEntryOf(b, e) in xs {
      var i :| 0 <= i < |ids| && ids[i] == e;
      assert xs[i] == EndpointEntryOf(b, e);
    }
  }

  /** A list taken over the apps of the configuration is one taken over the live apps. */
  lemma StackFlat<U(!new)>(b: Db, g: Id, list: AppEntry -> seq<U>)
    requires g in b.groups
    ensures forall u :: u in FlatMap(BuildStack(b, g).apps, list) <==>
              exists a :: a in LiveApps(b, g) && u in list(AppEntryOf(b, a))
  {
    var apps := BuildStack(b, g).apps;
    FlatMapIn(apps, list);
    StackApps(b, g);
    forall u ensures u in FlatMap(apps, list) <==> exists a :: a in LiveApps(b, g) && u in list(AppEntryOf(b, a)) {
      if i :| 0 <= i < |apps| && u in list(apps[i]) {
        assert apps[i] in apps;
        assert u in list(AppEntryOf(b, apps[i].id));
      }
      if a :| a in LiveApps(b, g) && u in list(AppEntryOf(b, a)) {
        var i :| 0 <= i < |apps| && apps[i] == AppEntryOf(b, a);
      }
    }
  }

  predicate AttachedIn(b: Db, k: Kind, a: Id, r: AttRow) {
    (k, r.id) in b.attachments && b.attachments[(k, r.id)] == r.row && r.row.app == a
  }

  lemma AppAttachmentRows(b: Db, a: Id, k: Kind)
    ensures forall r :: r in AttachmentRowsOf(a, AttEntries(b, a, k)) <==> AttachedIn(b, k, a, r)
  {
    AttEntriesIn(b, a, k);
    var xs := AttEntries(b, a, k);
    var rows := AttachmentRowsOf(a, xs);
    forall r ensures r in rows <==> AttachedIn(b, k, a, r) {
      if r in rows {
        var j :| 0 <= j < |rows| && rows[j] == r;
        assert xs[j] in xs;
      }
      if AttachedIn(b, k, a, r) {
        assert r.id in AttachmentsOf(b, a, k);
        var j :| 0 <= j < |xs| && xs[j] == EntryOf(b, k, r.id);
        assert rows[j] == r;
      }
    }
  }

  /** The attachments of kind `k` of the live apps, as rows of the plan. */
  ghost predicate AttachmentRowsMatch(b: Db, g: Id, k: Kind, rows: seq<AttRow>) {
    forall r :: r in rows <==> r.row.app in LiveApps(b, g) && AttachedIn(b, k, r.row.app, r)
  }

  lemma PlannedAttachments(b: Db, g: Id, k: Kind, list: AppEntry -> seq<AttRow>)
    requires g in b.groups
    requires forall a :: a in b.apps ==> list(AppEntryOf(b, a)) == AttachmentRowsOf(a, AttEntries(b, a, k))
    ensures AttachmentRowsMatch(b, g, k, FlatMap(BuildStack(b, g).apps, list))
  {
    hide AttachmentRowsOf, AttEntries, FlatMap, BuildStack, AppEntryOf;
    var rows := FlatMap(BuildStack(b, g).apps, list);
    StackFlat(b, g, list);
    forall r ensures r in rows <==> r.row.app in LiveApps(b, g) && AttachedIn(b, k, r.row.app, r) {
      if r in rows {
        var a :| a in LiveApps(b, g) && r in list(AppEntryOf(b, a));
        AppAttachmentRows(b, a, k);
      }
      if r.row.app in LiveApps(b, g) && AttachedIn(b, k, r.row.app, r) {
        AppAttachmentRows(b, r.row.app, k);
        assert r in list(AppEntryOf(b, r.row.app));
      }
    }
  }

  /** Rows that show exactly what the row of their id holds in `b`. */
  ghost predicate ResourceRowsMatch(b: Db, k: Kind, rows: seq<ResourceRow>) {
    forall r :: r in rows ==>
      (k, r.id) in b.resources &&
      var row := b.resources[(k, r.id)]; r == ResourceRow(r.id, row.name, row.content, row.version)
  }

  ghost predicate SourcesCovered(b: Db, g: Id, k: Kind, rows: seq<ResourceRow>) {
    forall t :: t in b.attachments && t.0 == k && b.attachments[t].app in LiveApps(b, g) ==>
      exists r :: r in rows && r.id == b.attachments[t].source
  }

  ghost predicate EntryIn(b: Db, g: Id, k: Kind, x: AttEntry) {
    (k, x.id) in b.attachments && b.attachments[(k, x.id)].app in LiveApps(b, g) && x == EntryOf(b, k, x.id)
  }

  lemma PlannedEntries(b: Db, g: Id, k: Kind, list: AppEntry -> seq<AttEntry>)
    requires g in b.groups
    requires forall a :: a in b.apps ==> list(AppEntryOf(b, a)) == AttEntries(b, a, k)
    ensures forall x :: x in FlatMap(BuildStack(b, g).apps, list) <==> EntryIn(b, g, k, x)
  {
    var entries := FlatMap(BuildStack(b, g).apps, list);
    StackFlat(b, g, list);
    forall x ensures x in entries <==> EntryIn(b, g, k, x) {
      if x in entries {
        var a :| a in LiveApps(b, g) && x in list(AppEntryOf(b, a));
        AttEntriesIn(b, a, k);
      }
      if EntryIn(b, g, k, x) {
        var a := b.attachments[(k, x.id)].app;
        AttEntriesIn(b, a, k);
        assert x.id in AttachmentsOf(b, a, k);
        assert x in list(AppEntryOf(b, a));
      }
    }
  }

  /** One value per variable or config id: entries of one id agree, so the plan has for every
      attachment the row it points to, and no other rows. */
  lemma PlannedResources(b: Db, g: Id, k: Kind, list: AppEntry -> seq<AttEntry>)
    requires g in b.groups && SourcesFit(b) && (k.Variable? || k.Config?)
    requires forall a :: a in b.apps ==> list(AppEntryOf(b, a)) == AttEntries(b, a, k)
    ensures var rows := Collect(FlatMap(BuildStack(b, g).apps, list));
      && ResourceRowsMatch(b, k, rows) && SourcesCovered(b, g, k, rows)
      && (forall r, q :: r in rows && q in rows && r.id == q.id ==> r == q)
  {
    var entries := FlatMap(BuildStack(b, g).apps, list);
    var rows := Collect(entries);
    PlannedEntries(b, g, k, list);
    PlanLosesNothing(entries);
    CollectedFromEntries(entries);
    forall r | r in rows
      ensures (k, r.id) in b.resources
      ensures r == ResourceRow(r.id, b.resources[(k, r.id)].name, b.resources[(k, r.id)].content,
                               b.resources[(k, r.id)].version)
    {
      var x :| x in entries && r == RowOf(x);
    }
    forall t | t in b.attachments && t.0 == k && b.attachments[t].app in LiveApps(b, g)
      ensures exists r :: r in rows && r.id == b.attachments[t].source
    {
      assert t == (k, t.1);
      var x := EntryOf(b, k, t.1);
      assert x in entries && RowOf(x) in rows;
    }
  }

  ghost predicate EndpointRowsMatch(b: Db, g: Id, rows: seq<EndpointRow>) {
    forall r :: r in rows <==> r.id in b.endpoints && b.endpoints[r.id] == r.row && r.row.app in LiveApps(b, g)
  }

  lemma AppEndpointRows(b: Db, a: Id)
    ensures forall r :: r in EndpointRowsOf(a, EndpointEntries(b, a)) <==>
              r.id in b.endpoints && b.endpoints[r.id] == r.row && r.row.app == a
  {
    EndpointEntriesIn(b, a);
    var xs := EndpointEntries(b, a);
    var rows := EndpointRowsOf(a, xs);
    forall r ensures r in rows <==> r.id in b.endpoints && b.endpoints[r.id] == r.row && r.row.app == a {
      if r in rows {
        var j :| 0 <= j < |rows| && rows[j] == r;
        assert xs[j] in xs;
      }
      if r.id in b.endpoints && b.endpoints[r.id] == r.row && r.row.app == a {
        assert r.id in EndpointsOf(b, a);
        var j :| 0 <= j < |xs| && xs[j] == EndpointEntryOf(b, r.id);
        assert rows[j] == r;
      }
    }
  }

  lemma PlannedEndpoints(b: Db, g: Id)
    requires g in b.groups
    ensures EndpointRowsMatch(b, g, FlatMap(BuildStack(b, g).apps, EndpointRowsOfApp))
  {
    var rows := FlatMap(BuildStack(b, g).apps, EndpointRowsOfApp);
    StackFlat(b, g, EndpointRowsOfApp);
    forall r ensures r in rows <==> r.id in b.endpoints && b.endpoints[r.id] == r.row && r.row.app in LiveApps(b, g) {
      if r in rows {
        var a :| a in LiveApps(b, g) && r in EndpointRowsOfApp(AppEntryOf(b, a));
        AppEndpointRows(b, a);
      }
      if r.id in b.endpoints && b.endpoints[r.id] == r.row && r.row.app in LiveApps(b, g) {
        AppEndpointRows(b, r.row.app);
        assert r in EndpointRowsOfApp(AppEntryOf(b, r.row.app));
      }
    }
  }

  /** Domain `r.domain` is held by endpoint `r.endpoint` of a live app of the group. */
  predicate HeldIn(b: Db, g: Id, r: Assignment) {
    r.domain in b.domains && b.domains[r.domain].endpoint == Some(r.endpoint) &&
    r.endpoint in b.endpoints && b.endpoints[r.endpoint].app in LiveApps(b, g)
  }

  predicate HeldByApp(b: Db, a: Id, r: Assignment) {
    r.endpoint in EndpointsOf(b, a) && r.domain in DomainsOf(b, r.endpoint)
  }

  lemma EndpointDomainRows(b: Db, e: Id)
    requires e in b.endpoints
    ensures forall r :: r in EndpointAssignments(EndpointEntryOf(b, e)) <==>
              r.endpoint == e && r.domain in DomainsOf(b, e)
  {
    var domains := Ordered(DomainsOf(b, e));
    var rows := EndpointAssignments(EndpointEntryOf(b, e));
    forall r ensures r in rows <==> r.endpoint == e && r.domain in DomainsOf(b, e) {
      if r in rows {
        var m :| 0 <= m < |rows| && rows[m] == r;
        assert domains[m] in domains;
      }
      if r.endpoint == e && r.domain in DomainsOf(b, e) {
        var m :| 0 <= m < |domains| && domains[m] == r.domain;
        assert rows[m] == r;
      }
    }
  }

  lemma AppDomainRows(b: Db, a: Id)
    requires a in b.apps
    ensures forall r :: r in DomainRows(AppEntryOf(b, a)) <==> HeldByApp(b, a, r)
  {
    EndpointEntriesIn(b, a);
    var xs := EndpointEntries(b, a);
    FlatMapIn(xs, EndpointAssignments);
    forall r ensures r in DomainRows(AppEntryOf(b, a)) <==> HeldByApp(b, a, r) {
      if r in DomainRows(AppEntryOf(b, a)) {
        var j :| 0 <= j < |xs| && r in EndpointAssignments(xs[j]);
        assert xs[j] in xs;
        EndpointDomainRows(b, xs[j].id);
      }
      if HeldByApp(b, a, r) {
        EndpointDomainRows(b, r.endpoint);
        var j :| 0 <= j < |xs| && xs[j] == EndpointEntryOf(b, r.endpoint);
      }
    }
  }

  /** Every domain is assigned at most once, and to the endpoint that holds it in `b`. */
  lemma PlannedDomains(b: Db, g: Id)
    requires g in b.groups
    ensures forall r :: r in FlatMap(BuildStack(b, g).apps, DomainRows) <==> HeldIn(b, g, r)
  {
    hide FlatMap, DomainRows, BuildStack, AppEntryOf;
    var rows := FlatMap(BuildStack(b, g).apps, DomainRows);
    StackFlat(b, g, DomainRows);
    forall r ensures r in rows <==> HeldIn(b, g, r) {
      if r in rows {
        var a :| a in LiveApps(b, g) && r in DomainRows(AppEntryOf(b, a));
        AppDomainRows(b, a);
      }
      if HeldIn(b, g, r) {
        var a := b.endpoints[r.endpoint].app;
        AppDomainRows(b, a);
        assert r in DomainRows(AppEntryOf(b, a));
      }
    }
  }

  // ---- What the statements do to the tables ------------------------------------

  ghost predicate EntriesFrom(b: Db, entries: seq<AppEntry>) {
    forall e :: e in entries ==> e.id in b.apps && e == AppEntryOf(b, e.id)
  }

  function AppIds(entries: seq<AppEntry>): set<Id> {
    set e | e in entries :: e.id
  }

  lemma AppIdsNext(entries: seq<AppEntry>)
    requires entries != []
    ensures AppIds(entries) == AppIds(entries[..|entries| - 1]) + {entries[|entries| - 1].id}
  {
    assert entries == entries[..|entries| - 1] + [entries[|entries| - 1]];
  }

  function RestoredApp(b: Db, group: Id, a: Id): App
    requires a in b.apps
  {
    App(group, TextOnly(b.apps[a].spec), b.apps[a].runtimeState, false)
  }

  /** After the updates, `r` has the deployed row for every listed app and the old one elsewhere. */
  ghost predicate AppsSetBack(db: Db, ids: set<Id>, b: Db, r: Db) {
    && r == db.(apps := r.apps) && r.apps.Keys == db.apps.Keys && ids <= db.apps.Keys && ids <= b.apps.Keys
    && (forall a :: a in db.apps ==>
          r.apps[a] == if a in ids then RestoredApp(b, db.apps[a].group, a) else db.apps[a])
  }

  lemma UpdateAppFacts(db: Db, ids: set<Id>, b: Db, m: Db, e: AppEntry, r: Db)
    requires AppsSetBack(db, ids, b, m) && EntriesFrom(b, [e]) && UpdateApp(m, e) == Ok(r)
    ensures AppsSetBack(db, ids + {e.id}, b, r)
  {
    hide Constraints;
    assert e in [e];
  }

  lemma {:induction false} UpdateAppsFacts(db: Db, entries: seq<AppEntry>, b: Db)
    requires EntriesFrom(b, entries) && UpdateApps(db, entries).Ok?
    ensures AppsSetBack(db, AppIds(entries), b, UpdateApps(db, entries).value)
  {
    hide Constraints, UpdateApp;
    if entries != [] {
      var init, last := entries[..|entries| - 1], entries[|entries| - 1];
      UpdateAppsFacts(db, init, b);
      AppIdsNext(entries);
      UpdateAppFacts(db, AppIds(init), b, UpdateApps(db, init).value, last, UpdateApps(db, entries).value);
    } else {
      assert AppIds(entries) == {};
    }
  }

  function RowIds(rows: seq<ResourceRow>): set<Id> {
    set r | r in rows :: r.id
  }

  lemma RowIdsNext(rows: seq<ResourceRow>)
    requires rows != []
    ensures RowIds(rows) == RowIds(rows[..|rows| - 1]) + {rows[|rows| - 1].id}
  {
    assert rows == rows[..|rows| - 1] + [rows[|rows| - 1]];
  }

  type ResourceTable = map<(Kind, Id), Resource>

  function SetBack(table: ResourceTable, g: Id, deployed: ResourceTable, key: (Kind, Id)): Resource
    requires key in deployed
  {
    var row := deployed[key];
    Resource(if key in table then table[key].group else g, row.name, row.content, row.version)
  }

  /** After the upserts, `r` has the deployed row for every listed id and the old one elsewhere. */
  ghost predicate ResourcesSetBack(table: ResourceTable, g: Id, k: Kind, ids: set<Id>, deployed: ResourceTable,
                                   r: ResourceTable) {
    && (forall id :: id in ids ==>
          (k, id) in r && (k, id) in deployed && r[(k, id)] == SetBack(table, g, deployed, (k, id)))
    && (forall key :: key in table ==> key in r)
    && (forall key :: key in r && !(key.0 == k && key.1 in ids) ==> key in table && r[key] == table[key])
  }

  lemma UpsertFacts(table: ResourceTable, m: ResourceTable, g: Id, k: Kind, ids: set<Id>, row: ResourceRow,
                    deployed: ResourceTable)
    requires ResourcesSetBack(table, g, k, ids, deployed, m)
    requires (k, row.id) in deployed
    requires var q := deployed[(k, row.id)]; row == ResourceRow(row.id, q.name, q.content, q.version)
    ensures ResourcesSetBack(table, g, k, ids + {row.id}, deployed, UpsertRow(m, g, k, row))
  {
    var own := (k, row.id);
    assert own in m ==> m[own].group == if own in table then table[own].group else g;
  }

  lemma {:induction false} UpsertAllFacts(db: Db, g: Id, k: Kind, rows: seq<ResourceRow>, b: Db)
    requires ResourceRowsMatch(b, k, rows) && UpsertAll(db, g, k, rows).Ok?
    ensures var r := UpsertAll(db, g, k, rows).value;
      r == db.(resources := r.resources) &&
      ResourcesSetBack(db.resources, g, k, RowIds(rows), b.resources, r.resources)
  {
    hide Constraints;
    if rows != [] {
      var init, last := rows[..|rows| - 1], rows[|rows| - 1];
      assert last in rows;
      UpsertAllFacts(db, g, k, init, b);
      UpsertFacts(db.resources, UpsertAll(db, g, k, init).value.resources, g, k, RowIds(init), last, b.resources);
      RowIdsNext(rows);
    }
  }

  lemma {:induction false} InsertRowsFacts<K, V>(table: map<K, V>, rows: seq<(K, V)>)
    requires InsertRows(table, rows).Some?
    ensures var r := InsertRows(table, rows).value;
      && (forall key :: key in table ==> key in r && r[key] == table[key])
      && (forall key :: key in r && key !in table ==> (key, r[key]) in rows)
      && (forall row :: row in rows ==> row.0 !in table && row.0 in r && r[row.0] == row.1)
  {
    if rows != [] {
      var init, last := rows[..|rows| - 1], rows[|rows| - 1];
      assert rows == init + [last];
      InsertRowsFacts(table, init);
    }
  }

  lemma CreateAttachmentsFacts(db: Db, k: Kind, rows: seq<AttRow>)
    requires CreateAttachments(db, k, rows).Ok?
    ensures var r := CreateAttachments(db, k, rows).value;
      && r == db.(attachments := r.attachments)
      && (forall t :: t in db.attachments ==> t in r.attachments && r.attachments[t] == db.attachments[t])
      && (forall t :: t in r.attachments && t !in db.attachments ==> t.0 == k && AttRow(t.1, r.attachments[t]) in rows)
      && (forall row :: row in rows ==> (k, row.id) in r.attachments && r.attachments[(k, row.id)] == row.row)
  {
    hide Constraints;
    if rows != [] {
      var keyed := Keyed(k, rows);
      InsertRowsFacts(db.attachments, keyed);
      var r := CreateAttachments(db, k, rows).value;
      forall t | t in r.attachments && t !in db.attachments
        ensures t.0 == k && AttRow(t.1, r.attachments[t]) in rows
      {
        var i :| 0 <= i < |keyed| && keyed[i] == (t, r.attachments[t]);
        assert rows[i] in rows;
      }
      forall row | row in rows ensures (k, row.id) in r.attachments && r.attachments[(k, row.id)] == row.row {
        var i :| 0 <= i < |rows| && rows[i] == row;
        assert keyed[i] in keyed;
      }
    }
  }

  lemma CreateEndpointsFacts(db: Db, rows: seq<EndpointRow>)
    requires CreateEndpoints(db, rows).Ok?
    ensures var r := CreateEndpoints(db, rows).value;
      && r == db.(endpoints := r.endpoints)
      && (forall e :: e in db.endpoints ==> e in r.endpoints && r.endpoints[e] == db.endpoints[e])
      && (forall e :: e in r.endpoints && e !in db.endpoints ==> EndpointRow(e, r.endpoints[e]) in rows)
      && (forall row :: row in rows ==>
            row.id !in db.endpoints && row.id in r.endpoints && r.endpoints[row.id] == row.row)
  {
    hide Constraints;
    if rows != [] {
      var keyed := KeyedEndpoints(rows);
      InsertRowsFacts(db.endpoints, keyed);
      var r := CreateEndpoints(db, rows).value;
      forall e | e in r.endpoints && e !in db.endpoints ensures EndpointRow(e, r.endpoints[e]) in rows {
        var i :| 0 <= i < |keyed| && keyed[i] == (e, r.endpoints[e]);
        assert rows[i] in rows;
      }
      forall row | row in rows
        ensures row.id !in db.endpoints && row.id in r.endpoints && r.endpoints[row.id] == row.row
      {
        var i :| 0 <= i < |rows| && rows[i] == row;
        assert keyed[i] in keyed;
      }
    }
  }

  /** After the assignments, a listed domain is held as in `b` and any other as before. */
  ghost predicate DomainsSetBack(db: Db, ids: set<Id>, b: Db, r: Db) {
    && r == db.(domains := r.domains) && r.domains.Keys == db.domains.Keys
    && ids <= db.domains.Keys && ids <= b.domains.Keys
    && (forall d :: d in db.domains ==>
          r.domains[d] == if d in ids then db.domains[d].(endpoint := b.domains[d].endpoint) else db.domains[d])
  }

  function AssignedIds(rows: seq<Assignment>): set<Id> {
    set a | a in rows :: a.domain
  }

  lemma AssignedIdsNext(rows: seq<Assignment>)
    requires rows != []
    ensures AssignedIds(rows) == AssignedIds(rows[..|rows| - 1]) + {rows[|rows| - 1].domain}
  {
    assert rows == rows[..|rows| - 1] + [rows[|rows| - 1]];
  }

  lemma AssignFacts(db: Db, g: Id, ids: set<Id>, b: Db, m: Db, a: Assignment, r: Db)
    requires DomainsSetBack(db, ids, b, m) && HeldIn(b, g, a) && Assign(m, a) == Ok(r)
    ensures DomainsSetBack(db, ids + {a.domain}, b, r)
  {
    hide Constraints;
  }

  lemma {:induction false} AssignAllFacts(db: Db, g: Id, rows: seq<Assignment>, b: Db)
    requires (forall r :: r in rows ==> HeldIn(b, g, r)) && AssignAll(db, rows).Ok?
    ensures DomainsSetBack(db, AssignedIds(rows), b, AssignAll(db, rows).value)
  {
    hide Constraints, Assign;
    if rows != [] {
      var init, last := rows[..|rows| - 1], rows[|rows| - 1];
      assert last in rows && HeldIn(b, g, last);
      AssignAllFacts(db, g, init, b);
      AssignedIdsNext(rows);
      AssignFacts(db, g, AssignedIds(init), b, AssignAll(db, init).value, last, AssignAll(db, rows).value);
    } else {
      assert AssignedIds(rows) == {};
    }
  }
}
