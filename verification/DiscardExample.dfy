/** A discard that takes a domain from another group. */
module DiscardExample {
  import opened Prelude
  import opened Tables
  import opened RestorePlan
  import opened Discard
  import opened OtherGroups
  import opened DiscardSound
  import opened Drafts

  /** Groups 1 and 2 with an app and an endpoint each, and a domain held by endpoint `holder`. */
  function Two(spec: Spec, holder: Id, gs: map<Id, Group>): Db {
    Db(gs,
       map[10 := App(1, spec, Running, false), 20 := App(2, spec, Running, false)],
       map[], {}, map[],
       map[30 := Endpoint(10, "web", 80, "HTTP"), 40 := Endpoint(20, "web", 80, "HTTP")],
       map[50 := Domain("example.org", Some(holder))],
       map[10 := 1, 20 := 2], map[], map[], map[30 := 10, 40 := 20])
  }

  lemma TwoKeepsConstraints(spec: Spec, holder: Id, gs: map<Id, Group>)
    requires (holder == 30 || holder == 40) && gs.Keys == {1, 2}
    ensures Constraints(Two(spec, holder, gs))
  {
    TwoEndpointRows(spec, holder, gs);
    hide EndpointRows;
  }

  lemma TwoEndpointRows(spec: Spec, holder: Id, gs: map<Id, Group>)
    requires holder == 30 || holder == 40
    ensures EndpointRows(Two(spec, holder, gs))
  {
  }

  lemma TwoIsSound(spec: Spec, holder: Id, gs: map<Id, Group>)
    requires (holder == 30 || holder == 40) && gs.Keys == {1, 2}
    ensures Sound(Two(spec, holder, gs)) && Constraints(Two(spec, holder, gs))
  {
    hide Constraints;
    TwoKeepsConstraints(spec, holder, gs);
  }

  lemma OrderedOne(s: set<Id>, x: Id)
    requires s == {x}
    ensures Ordered(s) == [x]
  {
    assert s - {x} == {};
    assert Ordered(s - {x}) == [];
  }

  /** The entry of app 10 while endpoint 30 holds the domain. */
  function Entry(spec: Spec): AppEntry {
    AppEntry(10, spec, Running, [], [], [], [EndpointEntry(30, "web", 80, "HTTP", [50])], [])
  }

  lemma NoAttachments(spec: Spec, k: Kind, gs: map<Id, Group>)
    requires gs.Keys == {1, 2}
    ensures AttEntries(Two(spec, 30, gs), 10, k) == []
  {
    assert AttachmentsOf(Two(spec, 30, gs), 10, k) == {};
  }

  lemma OneEndpoint(spec: Spec, gs: map<Id, Group>)
    requires gs.Keys == {1, 2}
    ensures EndpointEntries(Two(spec, 30, gs), 10) == [EndpointEntry(30, "web", 80, "HTTP", [50])]
  {
    var b := Two(spec, 30, gs);
    assert EndpointsOf(b, 10) == {30};
    OrderedOne(EndpointsOf(b, 10), 30);
    assert DomainsOf(b, 30) == {50};
    OrderedOne(DomainsOf(b, 30), 50);
  }

  lemma OneEntry(spec: Spec, gs: map<Id, Group>)
    requires gs.Keys == {1, 2} && gs[1].runtimeState.Running?
    requires TextOnly(spec) == spec
    ensures BuildStack(Two(spec, 30, gs), 1) == Stack(Running, [Entry(spec)])
  {
    hide AttEntries, EndpointEntries;
    var b := Two(spec, 30, gs);
    NoAttachments(spec, Variable, gs);
    NoAttachments(spec, Secret, gs);
    NoAttachments(spec, Config, gs);
    NoAttachments(spec, Volume, gs);
    OneEndpoint(spec, gs);
    assert LiveApps(b, 1) == {10};
    OrderedOne(LiveApps(b, 1), 10);
    assert AppEntryOf(b, 10) == Entry(spec);
    assert BuildStack(b, 1).apps == [Entry(spec)];
  }

  lemma FlatMapOne<T, U>(x: T, f: T -> seq<U>)
    ensures FlatMap([x], f) == f(x)
  {
    assert [x][..0] == [];
    assert FlatMap([x][..0], f) == [];
  }

  lemma OnePlan(spec: Spec, gs: map<Id, Group>)
    requires gs.Keys == {1, 2}
    ensures PlanOf([Entry(spec)]) ==
      Plan([], [], [], [], [], [EndpointRow(30, Endpoint(10, "web", 80, "HTTP"))], [Assignment(50, 30)])
    ensures FlatMap([Entry(spec)], SecretRows) == []
  {
    var a := Entry(spec);
    FlatMapOne(a, VariablesOf);
    FlatMapOne(a, VariableRows);
    FlatMapOne(a, ConfigsOf);
    FlatMapOne(a, ConfigRows);
    FlatMapOne(a, VolumeRows);
    FlatMapOne(a, SecretRows);
    FlatMapOne(a, EndpointRowsOfApp);
    FlatMapOne(a, DomainRows);
    FlatMapOne(a.endpoints[0], EndpointAssignments);
    assert DomainRows(a) == [Assignment(50, 30)];
    assert EndpointRowsOfApp(a) == [EndpointRow(30, Endpoint(10, "web", 80, "HTTP"))];
  }

  lemma NothingDeleted(spec: Spec, gs: map<Id, Group>)
    requires gs.Keys == {1, 2}
    ensures AppsOf(Two(spec, 40, gs), 1) - (set a | a in [Entry(spec)] :: a.id) == {}
    ensures DeleteApps(Two(spec, 40, gs), {}) == Two(spec, 40, gs)
    ensures ClearAttachments(Two(spec, 40, gs), 1) == Two(spec, 40, gs)
  {
    var now, e := Two(spec, 40, gs), [Entry(spec)];
    assert e[0] in e && e[0].id == 10;
    assert AppsOf(now, 1) == {10};
    assert DeleteApps(now, {}).apps == now.apps && DeleteApps(now, {}).endpoints == now.endpoints;
    assert DeleteApps(now, {}).domains == now.domains;
  }

  lemma SameAppWritten(spec: Spec, gs: map<Id, Group>)
    requires gs.Keys == {1, 2}
    ensures UpdateApps(Two(spec, 40, gs), [Entry(spec)]) == Ok(Two(spec, 40, gs))
  {
    hide Constraints;
    var now := Two(spec, 40, gs);
    TwoIsSound(spec, 40, gs);
    assert [Entry(spec)][..0] == [];
    assert now.apps[10 := App(1, spec, Running, false)] == now.apps;
    assert UpdateApps(now, [Entry(spec)][..0]) == Ok(now);
  }

  lemma AppsRestored(spec: Spec, gs: map<Id, Group>)
    requires gs.Keys == {1, 2}
    ensures RestoredApps(Two(spec, 40, gs), 1, [Entry(spec)]) == Ok(Two(spec, 40, gs))
  {
    hide Constraints, UpdateApps, DeleteApps;
    NothingDeleted(spec, gs);
    SameAppWritten(spec, gs);
  }

  /** The domain is free to be taken: only who holds it in the group's own rows is cleared. */
  lemma EndpointsRestored(spec: Spec, gs: map<Id, Group>)
    requires gs.Keys == {1, 2}
    ensures RestoredEndpoints(Two(spec, 40, gs), 1, PlanOf([Entry(spec)])) == Ok(Two(spec, 30, gs))
  {
    hide Constraints, PlanOf;
    var now := Two(spec, 40, gs);
    OnePlan(spec, gs);
    TwoIsSound(spec, 40, gs);
    TwoIsSound(spec, 30, gs);
    EndpointRecreated(spec, gs);
    DomainTaken(spec, gs);
    assert PlanOf([Entry(spec)]).domainAssignments == [Assignment(50, 30)];
    assert 50 in now.domains;
  }

  lemma EndpointCleared(spec: Spec, gs: map<Id, Group>)
    requires gs.Keys == {1, 2}
    ensures var now := Two(spec, 40, gs);
      ClearEndpoints(now, 1) == now.(endpoints := map[40 := Endpoint(20, "web", 80, "HTTP")])
  {
    var now := Two(spec, 40, gs);
    assert AppsOf(now, 1) == {10};
    assert GroupEndpoints(now, 1) == {30};
    assert ClearEndpoints(now, 1).domains == now.domains;
    assert ClearEndpoints(now, 1).endpoints == map[40 := Endpoint(20, "web", 80, "HTTP")];
  }

  lemma EndpointRecreated(spec: Spec, gs: map<Id, Group>)
    requires gs.Keys == {1, 2}
    ensures CreateEndpoints(ClearEndpoints(Two(spec, 40, gs), 1), [EndpointRow(30, Endpoint(10, "web", 80, "HTTP"))]) == Ok(Two(spec, 40, gs))
  {
    hide Constraints, ClearEndpoints;
    var now := Two(spec, 40, gs);
    var row := EndpointRow(30, Endpoint(10, "web", 80, "HTTP"));
    TwoIsSound(spec, 40, gs);
    EndpointCleared(spec, gs);
    var cleared := ClearEndpoints(now, 1);
    assert KeyedEndpoints([row]) == [(30, row.row)];
    assert [(30, row.row)][..0] == [];
    assert InsertRows(cleared.endpoints, [(30, row.row)][..0]) == Some(cleared.endpoints);
    assert cleared.endpoints[30 := row.row] == now.endpoints;
    assert cleared.(endpoints := now.endpoints) == now;
  }

  lemma DomainTaken(spec: Spec, gs: map<Id, Group>)
    requires gs.Keys == {1, 2}
    ensures AssignAll(Two(spec, 40, gs), [Assignment(50, 30)]) == Ok(Two(spec, 30, gs))
  {
    hide Constraints;
    var now := Two(spec, 40, gs);
    TwoIsSound(spec, 30, gs);
    assert [Assignment(50, 30)][..0] == [];
    assert AssignAll(now, [Assignment(50, 30)][..0]) == Ok(now);
    assert now.domains[50 := now.domains[50].(endpoint := Some(30))] == Two(spec, 30, gs).domains;
    assert now.(domains := Two(spec, 30, gs).domains) == Two(spec, 30, gs);
  }

  lemma DraftRestored(spec: Spec, gs: map<Id, Group>)
    requires gs.Keys == {1, 2}
    ensures RestoredDraft(Two(spec, 40, gs), 1, Stack(Running, [Entry(spec)])) == Ok(Two(spec, 30, gs))
  {
    hide Constraints, PlanOf, RestoredApps, RestoredEndpoints, ClearAttachments;
    AppsRestored(spec, gs);
    NothingDeleted(spec, gs);
    EndpointsRestored(spec, gs);
    OnePlan(spec, gs);
  }

  const EDITED := Group(Running, false, true, 5, false, None)

  /** Group 1 is deployed in the first state; then the domain moves to group 2. */
  function Before(spec: Spec): Db {
    Two(spec, 30, map[1 := EDITED, 2 := EDITED])
  }

  function After(spec: Spec): Db {
    Two(spec, 40, map[1 := EDITED.(revision := 6, deployed := Some(Stack(Running, [Entry(spec)]))),
                      2 := EDITED.(revision := 6)])
  }

  /** The requests in between, each with up-to-date reads. */
  lemma DeployedBefore(spec: Spec)
    requires TextOnly(spec) == spec
    ensures var b := Before(spec);
      var accepted := Two(spec, 30, map[1 := EDITED.(busy := true), 2 := EDITED]);
      var deployed := Two(spec, 30, map[1 := EDITED.(hasPendingChanges := false, deployed := Some(BuildStack(b, 1))), 2 := EDITED]);
      && Apply(b, b, AcceptDeployment(1, false)) == Ok(accepted)
      && Apply(accepted, accepted, EndDeployment(1, Some(Finished(BuildStack(b, 1), 5, Ending.Deployed)))) == Ok(deployed)
      && Apply(deployed, deployed, MoveDomain(50, Some(Some(40)))) == Ok(After(spec))
  {
    var b := Before(spec);
    OneEntry(spec, b.groups);
    var accepted := Two(spec, 30, map[1 := EDITED.(busy := true), 2 := EDITED]);
    var gs := map[1 := EDITED.(hasPendingChanges := false, deployed := Some(BuildStack(b, 1))), 2 := EDITED];
    DeploymentAccepted(spec);
    DeploymentEnded(spec, BuildStack(b, 1));
    DomainMoved(spec, gs);
    ThreeRequests(b, accepted, Two(spec, 30, gs), Finished(BuildStack(b, 1), 5, Ending.Deployed));
    hide Apply, Accepted, Ended, MovedDomain, BuildStack, Two;
  }

  lemma ThreeRequests(x: Db, y: Db, z: Db, done: Finished)
    ensures Apply(x, x, AcceptDeployment(1, false)) == Accepted(x, x, 1, false)
    ensures Apply(y, y, EndDeployment(1, Some(done))) == Ended(y, 1, Some(done))
    ensures Apply(z, z, MoveDomain(50, Some(Some(40)))) == MovedDomain(z, z, 50, Some(Some(40)))
    ensures Apply(z, z, DiscardDraft(1)) == Discarded(z, z, 1)
  {
    hide Accepted, Ended, MovedDomain, Discarded;
  }

  lemma DeploymentAccepted(spec: Spec)
    ensures var b := Before(spec);
      Accepted(b, b, 1, false) == Ok(Two(spec, 30, map[1 := EDITED.(busy := true), 2 := EDITED]))
  {
    hide Constraints;
    var b := Before(spec);
    assert Live(b, 1, 10);
    var gs := map[1 := EDITED.(busy := true), 2 := EDITED];
    TwoIsSound(spec, 30, gs);
    assert b.groups[1 := EDITED.(busy := true)] == gs;
  }

  lemma EndedWithoutRemoval(db: Db, g: Id, stack: Stack, hs: map<Id, Group>)
    requires g in db.groups && PendingApps(db, g) == {} && DeleteApps(db, {}) == db
    requires hs == db.groups[g := db.groups[g].(busy := false, deployed := Some(stack), hasPendingChanges := false)]
    requires Constraints(db.(groups := hs))
    ensures Ended(db, g, Some(Finished(stack, db.groups[g].revision, Ending.Deployed))) == Ok(db.(groups := hs))
  {
    hide PendingApps, DeleteApps, Constraints;
  }

  lemma TwoGroups(x: Group, y: Group, z: Group)
    ensures map[1 := x, 2 := y][1 := z] == map[1 := z, 2 := y]
  {
  }

  lemma DeploymentEnded(spec: Spec, stack: Stack)
    ensures Ended(Two(spec, 30, map[1 := EDITED.(busy := true), 2 := EDITED]), 1, Some(Finished(stack, 5, Ending.Deployed))) ==
      Ok(Two(spec, 30, map[1 := EDITED.(hasPendingChanges := false, deployed := Some(stack)), 2 := EDITED]))
  {
    var busy, done := EDITED.(busy := true), EDITED.(hasPendingChanges := false, deployed := Some(stack));
    var gs, hs := map[1 := busy, 2 := EDITED], map[1 := done, 2 := EDITED];
    NothingPending(spec, gs);
    TwoIsSound(spec, 30, hs);
    OtherGroupRows(spec, 30, gs, hs);
    TwoGroups(busy, EDITED, done);
    hide Constraints, PendingApps, DeleteApps, Two, Sound, Ended;
    EndedWithoutRemoval(Two(spec, 30, gs), 1, stack, hs);
  }

  lemma OtherGroupRows(spec: Spec, holder: Id, gs: map<Id, Group>, hs: map<Id, Group>)
    ensures Two(spec, holder, gs).groups == gs && Two(spec, holder, gs).(groups := hs) == Two(spec, holder, hs)
  {
  }

  lemma NothingPending(spec: Spec, gs: map<Id, Group>)
    requires gs.Keys == {1, 2}
    ensures PendingApps(Two(spec, 30, gs), 1) == {} && DeleteApps(Two(spec, 30, gs), {}) == Two(spec, 30, gs)
  {
    var db := Two(spec, 30, gs);
    assert DeleteApps(db, {}).apps == db.apps && DeleteApps(db, {}).endpoints == db.endpoints;
    assert DeleteApps(db, {}).domains == db.domains && DeleteApps(db, {}).attachments == db.attachments;
  }

  lemma DomainMoved(spec: Spec, hs: map<Id, Group>)
    requires hs == map[1 := EDITED.(hasPendingChanges := false, deployed := Some(Stack(Running, [Entry(spec)]))), 2 := EDITED]
    ensures var db := Two(spec, 30, hs); MovedDomain(db, db, 50, Some(Some(40))) == Ok(After(spec))
  {
    hide Constraints, MarkHolder, HolderOf;
    var db, gs := Two(spec, 30, hs), After(spec).groups;
    HoldersOfTwo(spec, hs);
    TwoIsSound(spec, 40, gs);
    assert db.domains[50 := db.domains[50].(endpoint := Some(40))] == After(spec).domains;
    var first, second := Two(spec, 40, hs), Two(spec, 40, hs[1 := Bump(hs[1])]);
    MarkedOne(first, 1);
    MarkedOne(second, 2);
    assert hs[1 := Bump(hs[1])][2 := Bump(hs[2])] == gs;
    assert db.(domains := first.domains) == first;
  }

  lemma HoldersOfTwo(spec: Spec, hs: map<Id, Group>)
    ensures HolderOf(Two(spec, 30, hs), Some(30)) == Some(1) && HolderOf(Two(spec, 30, hs), Some(40)) == Some(2)
  {
  }

  lemma MarkedOne(db: Db, g: Id)
    requires g in db.groups
    ensures MarkHolder(db, Some(g)) == Ok(db.(groups := db.groups[g := Bump(db.groups[g])]))
  {
  }

  /** Group 1 was deployed while it held the domain; since then group 2 holds it. Discarding the draft
      of group 1 gives it the domain back: what group 2 would deploy changes, its revision does not. */
  lemma DiscardTakesADomain(spec: Spec)
    requires TextOnly(spec) == spec
    ensures var b, now := Before(spec), After(spec);
      var tx := Apply(now, now, DiscardDraft(1));
      && Sound(b) && Sound(now) && Later(b, now) && now.groups[1].deployed == Some(BuildStack(b, 1))
      && tx.Ok? && 2 in tx.value.groups
      && tx.value.groups[2].revision == now.groups[2].revision && ContentOf(tx.value, 2) != ContentOf(now, 2)
  {
    var b, now := Before(spec), After(spec);
    BeforeAndAfter(spec);
    OneEntry(spec, b.groups);
    DomainComesBack(spec, now.groups);
    ThreeRequests(b, b, now, Finished(BuildStack(b, 1), 5, Ending.Deployed));
    var gs := Stamped(Two(spec, 30, now.groups), 1, Stack(Running, [Entry(spec)])).groups;
    DomainShows(spec, now.groups, gs);
    OtherGroupRows(spec, 30, gs, gs);
    OtherGroupRows(spec, 40, now.groups, now.groups);
    hide Apply, Constraints, DiscardTx, BuildStack, ContentOf, Stamped, Entry, Two, Before, After, Sound, Later;
    assert Discarded(now, now, 1) == Ok(Two(spec, 30, gs));
  }

  lemma BeforeAndAfter(spec: Spec)
    ensures var b, now := Before(spec), After(spec);
      && Sound(b) && Sound(now) && Later(b, now) && b == Two(spec, 30, b.groups) && now == Two(spec, 40, now.groups)
      && b.groups.Keys == now.groups.Keys == {1, 2} && b.groups[1].runtimeState.Running?
      && now.groups[1].hasPendingChanges && !now.groups[1].busy
      && now.groups[1].deployed == Some(Stack(Running, [Entry(spec)]))
  {
    hide Constraints;
    var b, now := Before(spec), After(spec);
    TwoIsSound(spec, 30, b.groups);
    TwoIsSound(spec, 40, now.groups);
  }

  lemma DomainShows(spec: Spec, gs: map<Id, Group>, hs: map<Id, Group>)
    ensures ContentOf(Two(spec, 40, gs), 2) != ContentOf(Two(spec, 30, hs), 2)
  {
    hide ContentOf;
    var x, y := Two(spec, 40, gs), Two(spec, 30, hs);
    HeldDomains(2, x, 50);
    HeldDomains(2, y, 50);
    assert HeldBy(x, 2, 50) && !HeldBy(y, 2, 50);
  }

  lemma DomainComesBack(spec: Spec, gs: map<Id, Group>)
    requires gs.Keys == {1, 2} && !gs[1].busy
    ensures var stack := Stack(Running, [Entry(spec)]);
      var hs := Stamped(Two(spec, 30, gs), 1, stack).groups;
      && hs.Keys == {1, 2} && hs[2] == gs[2] && DiscardTx(Two(spec, 40, gs), 1, stack) == Ok(Two(spec, 30, hs))
  {
    hide Constraints, RestoredDraft;
    DraftRestored(spec, gs);
    var y := Stamped(Two(spec, 30, gs), 1, Stack(Running, [Entry(spec)]));
    assert y.groups.Keys == {1, 2};
    TwoKeepsConstraints(spec, 30, y.groups);
    assert y == Two(spec, 30, y.groups);
  }
}
