/** The restore plan that a discard computes from a deployed stack configuration. */
module RestorePlan {
  import opened Tables

  datatype ResourceRow = ResourceRow(id: Id, name: string, content: string, version: nat)
  datatype AttRow = AttRow(id: Id, row: Attachment)
  datatype EndpointRow = EndpointRow(id: Id, row: Endpoint)
  datatype Assignment = Assignment(domain: Id, endpoint: Id)

  datatype Plan = Plan(
    variables: seq<ResourceRow>, variableAttachments: seq<AttRow>,
    configs: seq<ResourceRow>, configAttachments: seq<AttRow>,
    volumeAttachments: seq<AttRow>,
    endpoints: seq<EndpointRow>, domainAssignments: seq<Assignment>)

  function FlatMap<T, U>(s: seq<T>, f: T -> seq<U>): seq<U> {
    if s == [] then [] else FlatMap(s[..|s| - 1], f) + f(s[|s| - 1])
  }

  lemma FlatMapNext<T, U>(s: seq<T>, f: T -> seq<U>, i: nat)
    requires i < |s|
    ensures FlatMap(s[..i + 1], f) == FlatMap(s[..i], f) + f(s[i])
  {
    assert s[..i + 1][..i] == s[..i];
  }

  lemma {:induction false} FlatMapIn<T, U(!new)>(s: seq<T>, f: T -> seq<U>)
    ensures forall u :: u in FlatMap(s, f) <==> exists i :: 0 <= i < |s| && u in f(s[i])
  {
    if s != [] {
      var init := s[..|s| - 1];
      FlatMapIn(init, f);
      forall u ensures u in FlatMap(s, f) <==> exists i :: 0 <= i < |s| && u in f(s[i]) {
        if u in FlatMap(init, f) {
          var i :| 0 <= i < |init| && u in f(init[i]);
          assert u in f(s[i]);
        }
        if i :| 0 <= i < |s| && u in f(s[i]) && u !in f(s[|s| - 1]) {
          assert u in f(init[i]);
        }
      }
    }
  }

  /** Setting a key of an insertion-ordered map: an old key keeps its place. */
  function SetRow(rows: seq<ResourceRow>, row: ResourceRow): seq<ResourceRow> {
    if rows == [] then [row]
    else if rows[0].id == row.id then [row] + rows[1..]
    else [rows[0]] + SetRow(rows[1..], row)
  }

  function RowOf(e: AttEntry): ResourceRow {
    ResourceRow(e.source, e.name, e.content, e.version)
  }

  function Collect(entries: seq<AttEntry>): seq<ResourceRow> {
    if entries == [] then [] else SetRow(Collect(entries[..|entries| - 1]), RowOf(entries[|entries| - 1]))
  }

  function AttachmentRow(app: Id, e: AttEntry): AttRow {
    AttRow(e.id, Attachment(app, e.source, e.target, e.readOnly))
  }

  function AttachmentRowsOf(app: Id, entries: seq<AttEntry>): seq<AttRow> {
    seq(|entries|, i requires 0 <= i < |entries| => AttachmentRow(app, entries[i]))
  }

  function EndpointRowsOf(app: Id, entries: seq<EndpointEntry>): seq<EndpointRow> {
    seq(|entries|, i requires 0 <= i < |entries| =>
      EndpointRow(entries[i].id, Endpoint(app, entries[i].name, entries[i].containerPort, entries[i].protocolMode)))
  }

  function AssignmentsOf(e: EndpointEntry, domains: seq<Id>): seq<Assignment> {
    seq(|domains|, i requires 0 <= i < |domains| => Assignment(domains[i], e.id))
  }

  // The lists of one app, as arguments for FlatMap.
  function VariablesOf(a: AppEntry): seq<AttEntry> { a.variables }
  function ConfigsOf(a: AppEntry): seq<AttEntry> { a.configs }
  function VariableRows(a: AppEntry): seq<AttRow> { AttachmentRowsOf(a.id, a.variables) }
  function ConfigRows(a: AppEntry): seq<AttRow> { AttachmentRowsOf(a.id, a.configs) }
  function VolumeRows(a: AppEntry): seq<AttRow> { AttachmentRowsOf(a.id, a.volumes) }
  function SecretRows(a: AppEntry): seq<AttRow> { AttachmentRowsOf(a.id, a.secrets) }
  function EndpointRowsOfApp(a: AppEntry): seq<EndpointRow> { EndpointRowsOf(a.id, a.endpoints) }
  function EndpointAssignments(e: EndpointEntry): seq<Assignment> { AssignmentsOf(e, e.domains) }
  function DomainRows(a: AppEntry): seq<Assignment> { FlatMap(a.endpoints, EndpointAssignments) }

  function PlanOf(apps: seq<AppEntry>): Plan {
    Plan(Collect(FlatMap(apps, VariablesOf)), FlatMap(apps, VariableRows),
         Collect(FlatMap(apps, ConfigsOf)), FlatMap(apps, ConfigRows),
         FlatMap(apps, VolumeRows), FlatMap(apps, EndpointRowsOfApp), FlatMap(apps, DomainRows))
  }

  lemma CollectNext(entries: seq<AttEntry>, e: AttEntry)
    ensures Collect(entries + [e]) == SetRow(Collect(entries), RowOf(e))
  {
    assert (entries + [e])[..|entries|] == entries;
  }

  /** One list of attachments of one app: rows to upsert and attachments to re-create. */
  method CollectAttachments(app: Id, entries: seq<AttEntry>, ghost done: seq<AttEntry>,
                            rows: seq<ResourceRow>, attachments: seq<AttRow>)
    returns (rows': seq<ResourceRow>, attachments': seq<AttRow>)
    requires rows == Collect(done)
    ensures rows' == Collect(done + entries)
    ensures attachments' == attachments + AttachmentRowsOf(app, entries)
  {
    rows', attachments' := rows, attachments;
    assert done + entries[..0] == done;
    for i := 0 to |entries|
      invariant rows' == Collect(done + entries[..i])
      invariant attachments' == attachments + AttachmentRowsOf(app, entries[..i])
    {
      CollectNext(done + entries[..i], entries[i]);
      assert done + entries[..i + 1] == (done + entries[..i]) + [entries[i]];
      assert AttachmentRowsOf(app, entries[..i + 1]) ==
             AttachmentRowsOf(app, entries[..i]) + [AttachmentRow(app, entries[i])];
      rows' := SetRow(rows', RowOf(entries[i]));
      attachments' := attachments' + [AttachmentRow(app, entries[i])];
    }
    assert entries[..|entries|] == entries;
  }

  method CollectEndpoints(app: AppEntry, endpoints: seq<EndpointRow>, assignments: seq<Assignment>)
    returns (endpoints': seq<EndpointRow>, assignments': seq<Assignment>)
    ensures endpoints' == endpoints + EndpointRowsOfApp(app)
    ensures assignments' == assignments + DomainRows(app)
  {
    endpoints', assignments' := endpoints, assignments;
    for i := 0 to |app.endpoints|
      invariant endpoints' == endpoints + EndpointRowsOf(app.id, app.endpoints[..i])
      invariant assignments' == assignments + FlatMap(app.endpoints[..i], EndpointAssignments)
    {
      var e := app.endpoints[i];
      ghost var before := assignments';
      endpoints' := endpoints' + [EndpointRow(e.id, Endpoint(app.id, e.name, e.containerPort, e.protocolMode))];
      for j := 0 to |e.domains|
        invariant assignments' == before + AssignmentsOf(e, e.domains[..j])
      {
        assert AssignmentsOf(e, e.domains[..j + 1]) ==
               AssignmentsOf(e, e.domains[..j]) + [Assignment(e.domains[j], e.id)];
        assignments' := assignments' + [Assignment(e.domains[j], e.id)];
      }
      assert e.domains[..|e.domains|] == e.domains;
      FlatMapNext(app.endpoints, EndpointAssignments, i);
    }
    assert app.endpoints[..|app.endpoints|] == app.endpoints;
  }

  method BuildDiscardRestorePlan(snapshot: Stack) returns (plan: Plan)
    ensures plan == PlanOf(snapshot.apps)
  {
    var apps := snapshot.apps;
    plan := Plan([], [], [], [], [], [], []);
    for i := 0 to |apps|
      invariant plan == PlanOf(apps[..i])
    {
      var app := apps[i];
      var variables, variableAttachments := CollectAttachments(app.id, app.variables,
        FlatMap(apps[..i], VariablesOf), plan.variables, plan.variableAttachments);
      var configs, configAttachments := CollectAttachments(app.id, app.configs,
        FlatMap(apps[..i], ConfigsOf), plan.configs, plan.configAttachments);
      var volumeAttachments := plan.volumeAttachments;
      for j := 0 to |app.volumes|
        invariant volumeAttachments == plan.volumeAttachments + AttachmentRowsOf(app.id, app.volumes[..j])
      {
        assert AttachmentRowsOf(app.id, app.volumes[..j + 1]) ==
               AttachmentRowsOf(app.id, app.volumes[..j]) + [AttachmentRow(app.id, app.volumes[j])];
        volumeAttachments := volumeAttachments + [AttachmentRow(app.id, app.volumes[j])];
      }
      assert app.volumes[..|app.volumes|] == app.volumes;
      var endpoints, assignments := CollectEndpoints(app, plan.endpoints, plan.domainAssignments);
      plan := Plan(variables, variableAttachments, configs, configAttachments,
                   volumeAttachments, endpoints, assignments);
      FlatMapNext(apps, VariablesOf, i);
      FlatMapNext(apps, VariableRows, i);
      FlatMapNext(apps, ConfigsOf, i);
      FlatMapNext(apps, ConfigRows, i);
      FlatMapNext(apps, VolumeRows, i);
      FlatMapNext(apps, EndpointRowsOfApp, i);
      FlatMapNext(apps, DomainRows, i);
    }
    assert apps[..|apps|] == apps;
  }

  // ---- What the plan keeps of the configuration --------------------------------

  lemma {:induction false} SetRowIn(rows: seq<ResourceRow>, row: ResourceRow)
    ensures forall r :: r in SetRow(rows, row) ==> r == row || r in rows
    ensures row in SetRow(rows, row)
    ensures forall r :: r in rows ==> exists q :: q in SetRow(rows, row) && q.id == r.id
  {
    if rows != [] && rows[0].id != row.id {
      SetRowIn(rows[1..], row);
      assert rows == [rows[0]] + rows[1..];
      forall r | r in rows ensures exists q :: q in SetRow(rows, row) && q.id == r.id {
        if r == rows[0] {
          assert r in SetRow(rows, row);
        } else {
          assert r in rows[1..];
          var q :| q in SetRow(rows[1..], row) && q.id == r.id;
          assert q in SetRow(rows, row);
        }
      }
    } else if rows != [] {
      assert rows == [rows[0]] + rows[1..];
      forall r | r in rows ensures exists q :: q in SetRow(rows, row) && q.id == r.id {
        if r.id != row.id { assert r in rows[1..]; }
        assert r.id == row.id || r in SetRow(rows, row);
      }
    }
  }

  /** Every row of the plan is the row of an entry. */
  lemma {:induction false} CollectedFromEntries(entries: seq<AttEntry>)
    ensures forall r :: r in Collect(entries) ==> exists e :: e in entries && r == RowOf(e)
  {
    if entries != [] {
      var init, last := entries[..|entries| - 1], entries[|entries| - 1];
      CollectedFromEntries(init);
      SetRowIn(Collect(init), RowOf(last));
      assert entries == init + [last];
      forall r | r in Collect(entries) ensures exists e :: e in entries && r == RowOf(e) {
        if r != RowOf(last) {
          var e :| e in init && r == RowOf(e);
          assert e in entries;
        }
      }
    }
  }

  /** Every id that occurs in an entry has a row in the plan. */
  lemma {:induction false} EveryIdCollected(entries: seq<AttEntry>, e: AttEntry)
    requires e in entries
    ensures exists r :: r in Collect(entries) && r.id == e.source
  {
    var init, last := entries[..|entries| - 1], entries[|entries| - 1];
    assert entries == init + [last];
    SetRowIn(Collect(init), RowOf(last));
    if e in init {
      EveryIdCollected(init, e);
      var r :| r in Collect(init) && r.id == e.source;
      var q :| q in SetRow(Collect(init), RowOf(last)) && q.id == r.id;
    }
  }

  /** Last write wins loses nothing when the entries of one id agree: the plan then holds,
      for each id, the row that every one of its entries shows. */
  lemma PlanLosesNothing(entries: seq<AttEntry>)
    requires forall d, e :: d in entries && e in entries && d.source == e.source ==> RowOf(d) == RowOf(e)
    ensures forall e :: e in entries ==> RowOf(e) in Collect(entries)
    ensures forall r, q :: r in Collect(entries) && q in Collect(entries) && r.id == q.id ==> r == q
  {
    CollectedFromEntries(entries);
    forall e | e in entries ensures RowOf(e) in Collect(entries) {
      EveryIdCollected(entries, e);
      var r :| r in Collect(entries) && r.id == e.source;
      var d :| d in entries && r == RowOf(d);
    }
    forall r, q | r in Collect(entries) && q in Collect(entries) && r.id == q.id ensures r == q {
      var d :| d in entries && r == RowOf(d);
      var e :| e in entries && q == RowOf(e);
    }
  }
}
