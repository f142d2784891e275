/** A run in which a discard restores a configuration that is no longer deployed. */
module MarkerExample {
  import opened Prelude
  import opened Tables
  import opened RestorePlan
  import opened Discard
  import opened DiscardSound
  import opened DiscardExample
  import opened Drafts
  import opened DraftContent
  import opened DraftRequests
  import opened DraftRuns
  import opened DraftMarker

  /** Group 1 with one app. */
  function Lone(spec: Spec, group: Group): Db {
    Db(map[1 := group], map[10 := App(1, spec, Running, false)], map[], {}, map[], map[], map[],
       map[10 := 1], map[], map[], map[])
  }

  lemma LoneIsSound(spec: Spec, group: Group)
    ensures Sound(Lone(spec, group)) && Constraints(Lone(spec, group))
  {
  }

  function LoneStack(spec: Spec): Stack {
    Stack(Running, [AppEntry(10, spec, Running, [], [], [], [], [])])
  }

  lemma LoneBuilds(spec: Spec, group: Group)
    requires TextOnly(spec) == spec && group.runtimeState.Running?
    ensures BuildStack(Lone(spec, group), 1) == LoneStack(spec)
  {
    var b := Lone(spec, group);
    LoneEntries(spec, group);
    assert LiveApps(b, 1) == {10};
    OrderedOne(LiveApps(b, 1), 10);
    hide AttEntries, EndpointEntries;
    assert AppEntryOf(b, 10) == LoneStack(spec).apps[0];
    assert BuildStack(b, 1).apps == LoneStack(spec).apps;
  }

  lemma LoneEntries(spec: Spec, group: Group)
    ensures forall k :: AttEntries(Lone(spec, group), 10, k) == []
    ensures EndpointEntries(Lone(spec, group), 10) == []
  {
    var b := Lone(spec, group);
    forall k ensures AttEntries(b, 10, k) == [] {
      assert AttachmentsOf(b, 10, k) == {};
    }
    assert EndpointsOf(b, 10) == {};
  }

  // ---- Requests on the one group ----------------------------------------------------------------

  lemma LoneRows(spec: Spec, group: Group, other: Group)
    ensures Lone(spec, group).(groups := Lone(spec, group).groups[1 := other]) == Lone(spec, other)
  {
    assert map[1 := group][1 := other] == map[1 := other];
  }

  lemma LoneAccepted(spec: Spec, group: Group)
    requires group.hasPendingChanges && !group.busy
    ensures var db := Lone(spec, group); Accepted(db, db, 1, false) == Ok(Lone(spec, group.(busy := true)))
  {
    var db := Lone(spec, group);
    assert Live(db, 1, 10);
    LoneIsSound(spec, group.(busy := true));
    LoneRows(spec, group, group.(busy := true));
    hide Constraints;
  }

  lemma NothingDeleted(spec: Spec, group: Group, gone: set<Id>)
    requires gone == {}
    ensures PendingApps(Lone(spec, group), 1) == {} && DeleteApps(Lone(spec, group), gone) == Lone(spec, group)
  {
    var db := Lone(spec, group);
    var x := DeleteApps(db, gone);
    assert x.apps == db.apps;
    assert x.attachments == db.attachments && x.endpoints == db.endpoints && x.domains == db.domains;
  }

  lemma NothingCleared(spec: Spec, group: Group)
    ensures ClearAttachments(Lone(spec, group), 1) == Lone(spec, group)
    ensures ClearEndpoints(Lone(spec, group), 1) == Lone(spec, group)
  {
    hide AppsOf;
    var db := Lone(spec, group);
    assert ClearAttachments(db, 1).attachments == db.attachments;
    assert ClearEndpoints(db, 1).endpoints == db.endpoints && ClearEndpoints(db, 1).domains == db.domains;
  }

  lemma LoneEnded(spec: Spec, group: Group, stack: Stack)
    requires group.busy
    ensures Ended(Lone(spec, group), 1, Some(Finished(stack, group.revision, Ending.Deployed))) ==
      Ok(Lone(spec, group.(busy := false, deployed := Some(stack), hasPendingChanges := false)))
  {
    var done := group.(busy := false, deployed := Some(stack), hasPendingChanges := false);
    NothingDeleted(spec, group, {});
    LoneIsSound(spec, done);
    LoneRows(spec, group, done);
    hide Constraints, PendingApps, DeleteApps, Ended;
    EndedWithoutRemoval(Lone(spec, group), 1, stack, Lone(spec, done).groups);
  }

  lemma LoneUpdated(spec: Spec, other: Spec, group: Group)
    ensures var db := Lone(spec, group);
      UpdatedApp(db, db, 1, 10, (s: Spec) => other, None) == Ok(Lone(other, Bump(group)))
  {
    var db := Lone(spec, group);
    LoneIsSound(other, Bump(group));
    assert db.apps[10 := App(1, other, Running, false)] == Lone(other, group).apps;
    assert db.(apps := Lone(other, group).apps) == Lone(other, group);
    LoneRows(other, group, Bump(group));
    hide Constraints;
  }

  // ---- The discard -------------------------------------------------------------------------------

  lemma LonePlan(spec: Spec)
    ensures PlanOf(LoneStack(spec).apps) == Plan([], [], [], [], [], [], [])
    ensures FlatMap(LoneStack(spec).apps, SecretRows) == []
  {
    var a := LoneStack(spec).apps[0];
    FlatMapOne(a, VariablesOf);
    FlatMapOne(a, VariableRows);
    FlatMapOne(a, ConfigsOf);
    FlatMapOne(a, ConfigRows);
    FlatMapOne(a, VolumeRows);
    FlatMapOne(a, SecretRows);
    FlatMapOne(a, EndpointRowsOfApp);
    FlatMapOne(a, DomainRows);
  }

  lemma LoneAppsRestored(spec: Spec, other: Spec, group: Group)
    ensures RestoredApps(Lone(other, group), 1, LoneStack(spec).apps) == Ok(Lone(spec, group))
  {
    var now, e := Lone(other, group), LoneStack(spec).apps;
    assert e[0] in e && e[0].id == 10;
    assert AppsOf(now, 1) == {10};
    var gone := AppsOf(now, 1) - (set a | a in e :: a.id);
    assert gone == {};
    NothingDeleted(other, group, gone);
    LoneIsSound(spec, group);
    hide Constraints, DeleteApps;
    assert e[..0] == [] && UpdateApps(now, e[..0]) == Ok(now);
    assert now.apps[10 := App(1, spec, Running, false)] == Lone(spec, group).apps;
    assert now.(apps := Lone(spec, group).apps) == Lone(spec, group);
  }

  lemma LoneDraftRestored(spec: Spec, other: Spec, group: Group)
    ensures RestoredDraft(Lone(other, group), 1, LoneStack(spec)) == Ok(Lone(spec, group))
  {
    hide Constraints, PlanOf, RestoredApps, ClearAttachments, ClearEndpoints, Lone, LoneStack, FlatMap;
    LoneAppsRestored(spec, other, group);
    NothingCleared(spec, group);
    LonePlan(spec);
  }

  lemma LoneStamped(spec: Spec, group: Group)
    requires group.runtimeState.Running?
    ensures Stamped(Lone(spec, group), 1, LoneStack(spec)) ==
      Lone(spec, group.(hasPendingChanges := false, revision := group.revision + 1))
  {
    var done := group.(hasPendingChanges := false, revision := group.revision + 1);
    assert !HasSecretVersionDrift(Lone(spec, group), LoneStack(spec).apps);
    LoneRows(spec, group, done);
  }

  lemma LoneDiscarded(spec: Spec, other: Spec, group: Group)
    requires !group.busy && group.runtimeState.Running?
    ensures DiscardTx(Lone(other, group), 1, LoneStack(spec)) ==
      Ok(Lone(spec, group.(hasPendingChanges := false, revision := group.revision + 1)))
  {
    hide Constraints, RestoredDraft, Stamped, Sound;
    LoneDraftRestored(spec, other, group);
    LoneStamped(spec, group);
    LoneIsSound(spec, group.(hasPendingChanges := false, revision := group.revision + 1));
  }

  // ---- The run -------------------------------------------------------------------------------------

  function Version(revision: nat, pending: bool, busy: bool, deployed: Option<Stack>): Group {
    Group(Running, false, pending, revision, busy, deployed)
  }

  /** The first version is deployed, the app is edited, and the second one is accepted and deployed.
      A discard read the tables before the second deployment ended, and commits after it. */
  function Requests(v1: Spec, v2: Spec): seq<Step> {
    [Step(0, AcceptDeployment(1, false)),
     Step(1, EndDeployment(1, Some(Finished(LoneStack(v1), 5, Ending.Deployed)))),
     Step(2, UpdateApp(1, 10, (s: Spec) => v2, None)),
     Step(3, AcceptDeployment(1, false)),
     Step(4, EndDeployment(1, Some(Finished(LoneStack(v2), 6, Ending.Deployed)))),
     Step(4, DiscardDraft(1))]
  }

  function States(v1: Spec, v2: Spec): seq<Db> {
    var s1, s2 := Some(LoneStack(v1)), Some(LoneStack(v2));
    [Lone(v1, Version(5, true, false, None)),
     Lone(v1, Version(5, true, true, None)),
     Lone(v1, Version(5, false, false, s1)),
     Lone(v2, Version(6, true, false, s1)),
     Lone(v2, Version(6, true, true, s1)),
     Lone(v2, Version(6, false, false, s2)),
     Lone(v1, Version(7, false, false, s2))]
  }

  lemma AcceptedStep(states: seq<Db>, i: nat, spec: Spec, group: Group)
    requires i + 1 < |states| && states[i] == Lone(spec, group) && states[i + 1] == Lone(spec, group.(busy := true))
    requires group.hasPendingChanges && !group.busy
    ensures OneStep(states, i, Step(i, AcceptDeployment(1, false)))
  {
    hide Apply, Accepted;
    GroupRequestIs(states[i], states[i], AcceptDeployment(1, false));
    LoneAccepted(spec, group);
  }

  lemma EndedStep(states: seq<Db>, i: nat, spec: Spec, group: Group, j: nat, first: Group)
    requires i + 1 < |states| && states[i] == Lone(spec, group) && group.busy
    requires states[i + 1] ==
      Lone(spec, group.(busy := false, deployed := Some(LoneStack(spec)), hasPendingChanges := false))
    requires j <= i && states[j] == Lone(spec, first) && first.revision == group.revision
    requires first.runtimeState.Running? && TextOnly(spec) == spec
    ensures OneStep(states, i, Step(i, EndDeployment(1, Some(Finished(LoneStack(spec), group.revision, Ending.Deployed)))))
  {
    hide Apply, Ended, BuildStack, LoneStack;
    var done := Finished(LoneStack(spec), group.revision, Ending.Deployed);
    EndOrDiscardIs(states[i], states[i], EndDeployment(1, Some(done)));
    LoneEnded(spec, group, LoneStack(spec));
    LoneBuilds(spec, first);
    assert states[..i + 1][j] == states[j] && BuiltAt(states[j], 1, done);
  }

  lemma UpdatedStep(states: seq<Db>, i: nat, spec: Spec, other: Spec, group: Group)
    requires i + 1 < |states| && states[i] == Lone(spec, group) && states[i + 1] == Lone(other, Bump(group))
    ensures OneStep(states, i, Step(i, UpdateApp(1, 10, (s: Spec) => other, None)))
  {
    hide Apply, UpdatedApp;
    AppRequestIs(states[i], states[i], UpdateApp(1, 10, (s: Spec) => other, None));
    LoneUpdated(spec, other, group);
  }

  lemma DiscardedStep(states: seq<Db>, i: nat, j: nat, spec: Spec, other: Spec, group: Group)
    requires i + 1 < |states| && j <= i && states[i] == Lone(other, group) && !group.busy && group.runtimeState.Running?
    requires states[i + 1] == Lone(spec, group.(hasPendingChanges := false, revision := group.revision + 1))
    requires 1 in states[j].groups && states[j].groups[1].hasPendingChanges
    requires states[j].groups[1].deployed == Some(LoneStack(spec))
    ensures OneStep(states, i, Step(j, DiscardDraft(1)))
  {
    hide Apply, DiscardTx, LoneStack;
    EndOrDiscardIs(states[j], states[i], DiscardDraft(1));
    LoneDiscarded(spec, other, group);
  }

  /** All the requests but the discard, which read the tables as they found them. */
  lemma StepsFollow(v1: Spec, v2: Spec)
    requires TextOnly(v1) == v1 && TextOnly(v2) == v2
    ensures forall i :: 0 <= i < 6 ==> OneStep(States(v1, v2), i, Requests(v1, v2)[i])
  {
    hide OneStep, Lone, LoneStack;
    var states, s1 := States(v1, v2), Some(LoneStack(v1));
    AcceptedStep(states, 0, v1, Version(5, true, false, None));
    EndedStep(states, 1, v1, Version(5, true, true, None), 0, Version(5, true, false, None));
    UpdatedStep(states, 2, v1, v2, Version(5, false, false, s1));
    AcceptedStep(states, 3, v2, Version(6, true, false, s1));
    EndedStep(states, 4, v2, Version(6, true, true, s1), 3, Version(6, true, false, s1));
    GroupOfLone(v2, Version(6, true, true, s1));
    DiscardedStep(states, 5, 4, v1, v2, Version(6, false, false, Some(LoneStack(v2))));
  }

  lemma GroupOfLone(spec: Spec, group: Group)
    ensures Lone(spec, group).groups == map[1 := group]
  {
  }

  lemma RequestsAreFresh(v1: Spec, v2: Spec)
    requires Run(States(v1, v2), Requests(v1, v2))
    ensures AllFresh(States(v1, v2), Requests(v1, v2))
  {
    hide Run, OneStep, Apply, LoneStack;
    var states, steps := States(v1, v2), Requests(v1, v2);
    forall i | 0 <= i < |steps| ensures (steps[i].Step? ==> steps[i].seen <= i) && FreshStep(states, i, steps[i]) {
    }
  }

  lemma SpecsShow(v1: Spec, v2: Spec)
    requires v1 != v2
    ensures Plain(LoneStack(v1)) != Plain(LoneStack(v2))
  {
    assert Plain(LoneStack(v1)).apps[0].spec == v1 && Plain(LoneStack(v2)).apps[0].spec == v2;
  }

  /** In this run of fresh requests the last draft is that of the first version and counts as
      unchanged, while the second version is deployed. */
  lemma StaleDiscardIsUnmarked(v1: Spec, v2: Spec)
    requires TextOnly(v1) == v1 && TextOnly(v2) == v2 && v1 != v2
    ensures Run(States(v1, v2), Requests(v1, v2)) && AllFresh(States(v1, v2), Requests(v1, v2))
    ensures var last := States(v1, v2)[6];
      && 1 in last.groups && !last.groups[1].hasPendingChanges && last.groups[1].deployed == Some(LoneStack(v2))
      && BuildStack(last, 1) == LoneStack(v1) && !MarkerTells(last, 1)
  {
    hide OneStep, BuildStack, LoneStack, Plain, Sound;
    var states := States(v1, v2);
    StepsFollow(v1, v2);
    LoneIsSound(v1, Version(5, true, false, None));
    assert |states| == |Requests(v1, v2)| + 1;
    RequestsAreFresh(v1, v2);
    LoneBuilds(v1, Version(7, false, false, Some(LoneStack(v2))));
    SpecsShow(v1, v2);
  }
}
