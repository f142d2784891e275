/**
 Discarding a draft: the transaction that rebuilds the rows of a group from the stack
 configuration of its current deployment. Every statement is followed by the constraint
 check of the database; a failed check or a thrown error leaves no trace.
 */
module Discard {
  import opened Prelude
  import opened Tables
  import opened RestorePlan

  datatype Failure =
    | NotFound | NothingDeployed | Busy | RowMissing | MissingVolume | MissingDomain | ConstraintViolated
    | InUse | PendingDeletion | Invalid | NoPendingChanges | NoActiveApps

  type Tx = Result<Db, Failure>

  function Checked(db: Db): Tx {
    if Constraints(db) then Ok(db) else Err(ConstraintViolated)
  }

  function AppsOf(db: Db, g: Id): set<Id> {
    set a | a in db.apps && db.apps[a].group == g
  }

  /** Deleting apps takes their attachments and endpoints along and frees their domains. */
  function DeleteApps(db: Db, gone: set<Id>): Db {
    db.(apps := map a | a in db.apps && a !in gone :: db.apps[a],
        attachments := map t | t in db.attachments && db.attachments[t].app !in gone :: db.attachments[t],
        endpoints := map e | e in db.endpoints && db.endpoints[e].app !in gone :: db.endpoints[e],
        domains := map d | d in db.domains ::
          if db.domains[d].endpoint.Some? && db.domains[d].endpoint.value in db.endpoints &&
             db.endpoints[db.domains[d].endpoint.value].app in gone
          then db.domains[d].(endpoint := None) else db.domains[d])
  }

  function UpdateApp(db: Db, e: AppEntry): Tx {
    if e.id !in db.apps then Err(RowMissing) else
    Checked(db.(apps := db.apps[e.id := App(db.apps[e.id].group, e.spec, e.runtimeState, false)]))
  }

  function UpdateApps(db: Db, entries: seq<AppEntry>): Tx {
    if entries == [] then Ok(db) else
      var before :- UpdateApps(db, entries[..|entries| - 1]);
      UpdateApp(before, entries[|entries| - 1])
  }

  function ClearAttachments(db: Db, g: Id): Db {
    db.(attachments := map t | t in db.attachments && db.attachments[t].app !in AppsOf(db, g) :: db.attachments[t])
  }

  /** A row of the group that would collide with a restored name. */
  predicate Namesake(row: Resource, key: (Kind, Id), g: Id, k: Kind, rows: seq<ResourceRow>) {
    && key.0 == k && row.group == g
    && (forall r | r in rows :: r.id != key.1) && (exists r | r in rows :: r.name == row.name)
  }

  function WithoutNamesakes(table: map<(Kind, Id), Resource>, g: Id, k: Kind, rows: seq<ResourceRow>):
      map<(Kind, Id), Resource> {
    map key | key in table && !Namesake(table[key], key, g, k, rows) :: table[key]
  }

  function DeleteNamesakes(db: Db, g: Id, k: Kind, rows: seq<ResourceRow>): Tx {
    if rows == [] then Ok(db) else
    Checked(db.(resources := WithoutNamesakes(db.resources, g, k, rows)))
  }

  function UpsertRow(table: map<(Kind, Id), Resource>, g: Id, k: Kind, row: ResourceRow): map<(Kind, Id), Resource> {
    var key := (k, row.id);
    var group := if key in table then table[key].group else g;
    table[key := Resource(group, row.name, row.content, row.version)]
  }

  function Upsert(db: Db, g: Id, k: Kind, row: ResourceRow): Tx {
    Checked(db.(resources := UpsertRow(db.resources, g, k, row)))
  }

  function UpsertAll(db: Db, g: Id, k: Kind, rows: seq<ResourceRow>): Tx {
    if rows == [] then Ok(db) else
      var before :- UpsertAll(db, g, k, rows[..|rows| - 1]);
      Upsert(before, g, k, rows[|rows| - 1])
  }

  /** A bulk insert; `None` when an id is taken. */
  function InsertRows<K, V>(table: map<K, V>, rows: seq<(K, V)>): Option<map<K, V>> {
    if rows == [] then Some(table) else
      var before := InsertRows(table, rows[..|rows| - 1]);
      var last := rows[|rows| - 1];
      if before.None? || last.0 in before.value then None else Some(before.value[last.0 := last.1])
  }

  function Keyed(k: Kind, rows: seq<AttRow>): seq<((Kind, Id), Attachment)> {
    seq(|rows|, i requires 0 <= i < |rows| => ((k, rows[i].id), rows[i].row))
  }

  function CreateAttachments(db: Db, k: Kind, rows: seq<AttRow>): Tx {
    if rows == [] then Ok(db) else
    match InsertRows(db.attachments, Keyed(k, rows))
    case None => Err(ConstraintViolated)
    case Some(table) => Checked(db.(attachments := table))
  }

  function RestoredResources(db: Db, g: Id, k: Kind, rows: seq<ResourceRow>, attachments: seq<AttRow>): Tx {
    var cleaned :- DeleteNamesakes(db, g, k, rows);
    var upserted :- UpsertAll(cleaned, g, k, rows);
    CreateAttachments(upserted, k, attachments)
  }

  function RestoredVolumes(db: Db, rows: seq<AttRow>): Tx {
    if exists r | r in rows :: r.row.source !in db.volumes then Err(MissingVolume)
    else CreateAttachments(db, Volume, rows)
  }

  function GroupEndpoints(db: Db, g: Id): set<Id> {
    set e | e in db.endpoints && db.endpoints[e].app in AppsOf(db, g)
  }

  /** Every domain of the group is detached and every endpoint deleted. */
  function ClearEndpoints(db: Db, g: Id): Db {
    var gone := GroupEndpoints(db, g);
    db.(domains := map d | d in db.domains ::
          if db.domains[d].endpoint.Some? && db.domains[d].endpoint.value in gone
          then db.domains[d].(endpoint := None) else db.domains[d],
        endpoints := map e | e in db.endpoints && e !in gone :: db.endpoints[e])
  }

  function KeyedEndpoints(rows: seq<EndpointRow>): seq<(Id, Endpoint)> {
    seq(|rows|, i requires 0 <= i < |rows| => (rows[i].id, rows[i].row))
  }

  function CreateEndpoints(db: Db, rows: seq<EndpointRow>): Tx {
    if rows == [] then Ok(db) else
    match InsertRows(db.endpoints, KeyedEndpoints(rows))
    case None => Err(ConstraintViolated)
    case Some(table) => Checked(db.(endpoints := table))
  }

  function Assign(db: Db, a: Assignment): Tx {
    if a.domain !in db.domains then Err(RowMissing) else
    Checked(db.(domains := db.domains[a.domain := db.domains[a.domain].(endpoint := Some(a.endpoint))]))
  }

  function AssignAll(db: Db, assignments: seq<Assignment>): Tx {
    if assignments == [] then Ok(db) else
      var before :- AssignAll(db, assignments[..|assignments| - 1]);
      Assign(before, assignments[|assignments| - 1])
  }

  function RestoredEndpoints(db: Db, g: Id, plan: Plan): Tx {
    var created :- CreateEndpoints(ClearEndpoints(db, g), plan.endpoints);
    if exists a | a in plan.domainAssignments :: a.domain !in created.domains then Err(MissingDomain)
    else AssignAll(created, plan.domainAssignments)
  }

  predicate HasSecretVersionDrift(db: Db, apps: seq<AppEntry>) {
    exists a | a in apps :: exists s | s in a.secrets ::
      (Secret, s.source) !in db.resources || db.resources[(Secret, s.source)].version != s.version
  }

  /** The rows of the apps: draft-only apps are deleted and the deployed ones set back. */
  function RestoredApps(db: Db, g: Id, apps: seq<AppEntry>): Tx {
    var kept := DeleteApps(db, AppsOf(db, g) - (set a | a in apps :: a.id));
    UpdateApps(kept, apps)
  }

  function RestoredDraft(db: Db, g: Id, snapshot: Stack): Tx {
    var plan := PlanOf(snapshot.apps);
    var apps :- RestoredApps(db, g, snapshot.apps);
    var variables :- RestoredResources(ClearAttachments(apps, g), g, Variable, plan.variables, plan.variableAttachments);
    var configs :- RestoredResources(variables, g, Config, plan.configs, plan.configAttachments);
    var volumes :- RestoredVolumes(configs, plan.volumeAttachments);
    var endpoints :- RestoredEndpoints(volumes, g, plan);
    CreateAttachments(endpoints, Secret, FlatMap(snapshot.apps, SecretRows))
  }

  function Stamped(db: Db, g: Id, snapshot: Stack): Db {
    if g !in db.groups then db else
    var group := db.groups[g];
    db.(groups := db.groups[g := group.(
      runtimeState := snapshot.runtimeState,
      hasPendingChanges := HasSecretVersionDrift(db, snapshot.apps),
      revision := group.revision + 1)])
  }

  function DiscardTx(db: Db, g: Id, snapshot: Stack): Tx
    requires g in db.groups
  {
    if db.groups[g].busy then Err(Busy) else
      var restored :- RestoredDraft(db, g, snapshot);
      Checked(Stamped(restored, g, snapshot))
  }

  // ---- The statements, one after the other -------------------------------------

  method UpdateEach(tx: Db, entries: seq<AppEntry>) returns (r: Tx)
    ensures r == UpdateApps(tx, entries)
  {
    var db := tx;
    for i := 0 to |entries|
      invariant UpdateApps(tx, entries[..i]) == Ok(db)
    {
      assert entries[..i + 1][..i] == entries[..i];
      var next := UpdateApp(db, entries[i]);
      assert next == UpdateApps(tx, entries[..i + 1]);
      if next.Err? {
        UpdateStops(tx, entries, i + 1);
        return next;
      }
      db := next.value;
    }
    assert entries[..|entries|] == entries;
    r := Ok(db);
  }

  lemma {:induction false} UpdateStops(db: Db, entries: seq<AppEntry>, n: nat)
    requires n <= |entries| && UpdateApps(db, entries[..n]).Err?
    ensures UpdateApps(db, entries) == UpdateApps(db, entries[..n])
  {
    if n < |entries| {
      assert entries[..|entries| - 1][..n] == entries[..n];
      UpdateStops(db, entries[..|entries| - 1], n);
    } else {
      assert entries[..n] == entries;
    }
  }

  lemma {:induction false} UpsertStops(db: Db, g: Id, k: Kind, rows: seq<ResourceRow>, n: nat)
    requires n <= |rows| && UpsertAll(db, g, k, rows[..n]).Err?
    ensures UpsertAll(db, g, k, rows) == UpsertAll(db, g, k, rows[..n])
  {
    if n < |rows| {
      assert rows[..|rows| - 1][..n] == rows[..n];
      UpsertStops(db, g, k, rows[..|rows| - 1], n);
    } else {
      assert rows[..n] == rows;
    }
  }

  lemma {:induction false} AssignStops(db: Db, rows: seq<Assignment>, n: nat)
    requires n <= |rows| && AssignAll(db, rows[..n]).Err?
    ensures AssignAll(db, rows) == AssignAll(db, rows[..n])
  {
    if n < |rows| {
      assert rows[..|rows| - 1][..n] == rows[..n];
      AssignStops(db, rows[..|rows| - 1], n);
    } else {
      assert rows[..n] == rows;
    }
  }

  method UpsertEach(tx: Db, g: Id, k: Kind, rows: seq<ResourceRow>) returns (r: Tx)
    ensures r == UpsertAll(tx, g, k, rows)
  {
    var db := tx;
    for i := 0 to |rows|
      invariant UpsertAll(tx, g, k, rows[..i]) == Ok(db)
    {
      assert rows[..i + 1][..i] == rows[..i];
      var next := Upsert(db, g, k, rows[i]);
      assert next == UpsertAll(tx, g, k, rows[..i + 1]);
      if next.Err? {
        UpsertStops(tx, g, k, rows, i + 1);
        return next;
      }
      db := next.value;
    }
    assert rows[..|rows|] == rows;
    r := Ok(db);
  }

  method AssignEach(tx: Db, assignments: seq<Assignment>) returns (r: Tx)
    ensures r == AssignAll(tx, assignments)
  {
    var db := tx;
    for i := 0 to |assignments|
      invariant AssignAll(tx, assignments[..i]) == Ok(db)
    {
      assert assignments[..i + 1][..i] == assignments[..i];
      var next := Assign(db, assignments[i]);
      assert next == AssignAll(tx, assignments[..i + 1]);
      if next.Err? {
        AssignStops(tx, assignments, i + 1);
        return next;
      }
      db := next.value;
    }
    assert assignments[..|assignments|] == assignments;
    r := Ok(db);
  }

  method RestoreResources(tx: Db, g: Id, k: Kind, rows: seq<ResourceRow>, attachments: seq<AttRow>)
    returns (r: Tx)
    ensures r == RestoredResources(tx, g, k, rows, attachments)
  {
    var cleaned := DeleteNamesakes(tx, g, k, rows);
    if cleaned.Err? { return cleaned; }
    r := UpsertEach(cleaned.value, g, k, rows);
    if r.Err? { return; }
    r := CreateAttachments(r.value, k, attachments);
  }

  method RestoreHttpEndpoints(tx: Db, g: Id, plan: Plan) returns (r: Tx)
    ensures r == RestoredEndpoints(tx, g, plan)
  {
    var created := CreateEndpoints(ClearEndpoints(tx, g), plan.endpoints);
    if created.Err? { return created; }
    var assignments := plan.domainAssignments;
    if exists a | a in assignments :: a.domain !in created.value.domains { return Err(MissingDomain); }
    r := AssignEach(created.value, assignments);
  }

  /** The body of the discard transaction. */
  method DiscardDraftChanges(db: Db, g: Id, snapshot: Stack) returns (r: Tx)
    requires g in db.groups
    ensures r == DiscardTx(db, g, snapshot)
  {
    var plan := BuildDiscardRestorePlan(snapshot);
    if db.groups[g].busy { return Err(Busy); }
    var gone := AppsOf(db, g) - (set a | a in snapshot.apps :: a.id);
    r := UpdateEach(DeleteApps(db, gone), snapshot.apps);
    if r.Err? { return; }
    r := RestoreResources(ClearAttachments(r.value, g), g, Variable, plan.variables, plan.variableAttachments);
    if r.Err? { return; }
    r := RestoreResources(r.value, g, Config, plan.configs, plan.configAttachments);
    if r.Err? { return; }
    r := RestoredVolumes(r.value, plan.volumeAttachments);
    if r.Err? { return; }
    r := RestoreHttpEndpoints(r.value, g, plan);
    if r.Err? { return; }
    r := CreateAttachments(r.value, Secret, FlatMap(snapshot.apps, SecretRows));
    if r.Err? { return; }
    r := Checked(Stamped(r.value, g, snapshot));
  }
}
