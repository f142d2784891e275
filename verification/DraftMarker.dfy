/** When a draft that is not marked as changed would deploy what is already deployed. */
module DraftMarker {
  import opened Prelude
  import opened Tables
  import opened Discard
  import opened DiscardTheorems
  import opened OtherGroups
  import opened DiscardSound
  import opened Drafts
  import opened DraftStamp
  import opened DraftContent
  import opened DraftRequests
  import opened DraftRuns

  ghost predicate MarkerTells(db: Db, g: Id) {
    g in db.groups && !db.groups[g].hasPendingChanges && db.groups[g].deployed.Some? ==>
      Plain(BuildStack(db, g)) == Plain(db.groups[g].deployed.value)
  }

  lemma KeptMarkerTells(x: Db, y: Db, g: Id)
    requires Kept(x, y, g) && MarkerTells(x, g)
    ensures MarkerTells(y, g)
  {
    if !y.groups[g].hasPendingChanges && y.groups[g].deployed.Some? {
      SameContentSameStack(x, y, g);
    }
  }

  /** A discard restores what was deployed when it read the group. It is right if that is what is
      deployed when it commits, or if the draft stays marked because a secret has another version now. */
  predicate RestoresDeployed(seen: Db, db: Db, r: Request) {
    r.DiscardDraft? && r.group in seen.groups && r.group in db.groups && seen.groups[r.group].hasPendingChanges &&
    seen.groups[r.group].deployed.Some? && db.groups[r.group].deployed.Some? ==>
      || Plain(seen.groups[r.group].deployed.value) == Plain(db.groups[r.group].deployed.value)
      || HasSecretVersionDrift(db, seen.groups[r.group].deployed.value.apps)
  }

  lemma OrdinaryMarker(seen: Db, db: Db, r: Request, y: Db, g: Id)
    requires Ready(seen, db) && Apply(seen, db, r) == Ok(y) && Fresh(seen, db, r)
    requires !r.EndDeployment? && !r.DiscardDraft? && MarkerTells(db, g)
    ensures MarkerTells(y, g)
  {
    RequestKeeps(seen, db, r, y);
    RequestOrderly(seen, db, r, y);
    if g in db.groups { KeptMarkerTells(db, y, g); }
  }

  /** `p` is the state that the deployed configuration was built from. */
  lemma EndMarker(p: Db, db: Db, g: Id, done: Finished, y: Db)
    requires g in db.groups && y == EndedRows(db, g, Some(done)) && BuiltAt(p, g, done) && Faithful(p, db, g)
    ensures MarkerTells(y, g)
  {
    EndKeeps(db, g, Some(done), y);
    if !y.groups[g].hasPendingChanges {
      assert Faithful(db, y, g);
      SameContentSameStack(p, y, g);
    }
  }

  lemma EndMarkerOthers(db: Db, g: Id, outcome: Option<Finished>, y: Db, h: Id)
    requires g in db.groups && y == EndedRows(db, g, outcome) && MarkerTells(db, h) && (h != g || outcome.None?)
    ensures MarkerTells(y, h)
  {
    EndKeeps(db, g, outcome, y);
    if h in db.groups { KeptMarkerTells(db, y, h); }
  }

  lemma SameSecretsDrift(x: Db, y: Db, apps: seq<AppEntry>)
    requires SameSecrets(x, y)
    ensures HasSecretVersionDrift(y, apps) <==> HasSecretVersionDrift(x, apps)
  {
  }

  /** A committed discard leaves the draft marked exactly if a deployed secret has another version. */
  lemma MarkedByDrift(b: Db, db: Db, g: Id, y: Db)
    requires Descends(b, db, g) && Tidy(b) && DiscardTx(db, g, BuildStack(b, g)) == Ok(y)
    ensures g in y.groups && (y.groups[g].hasPendingChanges <==> HasSecretVersionDrift(db, BuildStack(b, g).apps))
  {
    hide Constraints, RestoredDraft, DiscardTx, HasSecretVersionDrift, SameSecrets, BuildStack, Tidy, Owned, Later,
      SourcesFit, DomainsFit, KeepGroup;
    DescentFacts(b, db, g);
    var r := TxSteps(db, g, BuildStack(b, g), y);
    DiscardIsARoundTrip(b, db, g);
    SecretRowsStay(b, db, g, r);
    SameSecretsDrift(db, r, BuildStack(b, g).apps);
  }

  /** After a discard of group `g` that restored something, its draft is what is deployed, or marked,
      exactly if it restored what is deployed. */
  lemma DiscardTxMarker(seen: Db, b: Db, db: Db, g: Id, y: Db)
    requires Sound(db) && BuiltFrom(seen, g, b, db) && g in db.groups && seen.groups[g].hasPendingChanges
    requires DiscardTx(db, g, BuildStack(b, g)) == Ok(y)
    ensures MarkerTells(y, g) <==> RestoresDeployed(seen, db, DiscardDraft(g))
    ensures g in y.groups
    ensures MarkerTells(y, g) <==>
      || y.groups[g].hasPendingChanges || db.groups[g].deployed.None?
      || Plain(seen.groups[g].deployed.value) == Plain(db.groups[g].deployed.value)
  {
    hide Constraints, DiscardTx, HasSecretVersionDrift, BuildStack, Plain, Owned, Tidy, Later;
    MarkedByDrift(b, db, g, y);
    DiscardIsARoundTrip(b, db, g);
  }

  lemma DiscardMarkerElsewhere(seen: Db, b: Db, db: Db, g: Id, y: Db, h: Id)
    requires Sound(db) && BuiltFrom(seen, g, b, db) && g in db.groups && h != g && MarkerTells(db, h)
    requires DiscardTx(db, g, BuildStack(b, g)) == Ok(y) && FreshDiscard(db, g, BuildStack(b, g))
    ensures MarkerTells(y, h)
  {
    hide DiscardTx, BuildStack, Constraints, FreshDiscard, Plain, Kept, Owned, Tidy, Later;
    DiscardIsARoundTrip(b, db, g);
    DiscardKeeps(b, db, g, y);
    if h in db.groups { KeptMarkerTells(db, y, h); }
  }

  /** A committed discard keeps the markers of the other groups, and that of its own group exactly if it
      restores what is deployed. */
  lemma DiscardMarkerExactly(past: seq<Db>, seen: Db, db: Db, g: Id, y: Db)
    requires Sound(db) && Traceable(past, seen) && Past(past, db) && MarkerTells(db, g)
    requires Discarded(seen, db, g) == Ok(y)
    ensures MarkerTells(y, g) <==> RestoresDeployed(seen, db, DiscardDraft(g))
  {
    hide DiscardTx, BuildStack, Sound, Plain, HasSecretVersionDrift, Past, Traceable;
    if seen.groups[g].hasPendingChanges {
      var b := Source(past, seen, db, g);
      DiscardedSteps(seen, db, g, BuildStack(b, g), y);
      DiscardTxMarker(seen, b, db, g, y);
    }
  }

  lemma DiscardMarker(past: seq<Db>, seen: Db, db: Db, g: Id, y: Db, h: Id)
    requires Sound(db) && Traceable(past, seen) && Past(past, db) && MarkerTells(db, h)
    requires Discarded(seen, db, g) == Ok(y) && Fresh(seen, db, DiscardDraft(g))
    requires h == g ==> RestoresDeployed(seen, db, DiscardDraft(g))
    ensures MarkerTells(y, h)
  {
    hide DiscardTx, BuildStack, Sound, MarkerTells, RestoresDeployed, Past, Traceable, FreshDiscard;
    if h == g {
      DiscardMarkerExactly(past, seen, db, g, y);
    } else if seen.groups[g].hasPendingChanges {
      var b := Source(past, seen, db, g);
      DiscardedSteps(seen, db, g, BuildStack(b, g), y);
      DiscardMarkerElsewhere(seen, b, db, g, y, h);
    }
  }

  /** Every discard of group `g` that commits restores what is deployed. */
  ghost predicate AllRestoreDeployed(states: seq<Db>, steps: seq<Step>, g: Id)
    requires Run(states, steps)
  {
    forall i :: 0 <= i < |steps| ==> RestoringStep(states, i, steps[i], g)
  }

  ghost predicate RestoringStep(states: seq<Db>, i: nat, step: Step, g: Id)
    requires i < |states| && (step.Step? ==> step.seen <= i)
  {
    step.Step? && step.request == DiscardDraft(g) && Apply(states[step.seen], states[i], step.request).Ok? ==>
      RestoresDeployed(states[step.seen], states[i], step.request)
  }

  lemma StepReady(states: seq<Db>, i: nat, s: nat)
    requires i < |states| && s <= i && Reachable(states, i) && Reachable(states, s)
    ensures Ready(states[s], states[i]) && Past(states[..i + 1], states[i]) && Traceable(states[..i + 1], states[s])
  {
    TraceableLonger(states[..s + 1], states[..i + 1], states[s]);
  }

  lemma OneStepMarker(past: seq<Db>, seen: Db, db: Db, r: Request, y: Db, g: Id)
    requires Ready(seen, db) && Past(past, db) && Traceable(past, seen) && MarkerTells(db, g)
    requires Apply(seen, db, r) == Ok(y) && Fresh(seen, db, r) && !r.EndDeployment?
    requires r == DiscardDraft(g) ==> RestoresDeployed(seen, db, r)
    ensures MarkerTells(y, g)
  {
    hide Sound, MarkerTells, RestoresDeployed, Past, Traceable, Fresh;
    if r.DiscardDraft? {
      DiscardMarker(past, seen, db, r.group, y, g);
    } else {
      OrdinaryMarker(seen, db, r, y, g);
    }
  }

  lemma AddedMarker(x: Db, y: Db, g: Id)
    requires GroupsAdded(x, y) && MarkerTells(x, g)
    ensures MarkerTells(y, g)
  {
    AddedFaithful(x, y);
    hide Kept, ContentOf, BuildStack, Sound, Later, Plain;
    if g in x.groups { KeptMarkerTells(x, y, g); }
  }

  lemma NextMarker(states: seq<Db>, steps: seq<Step>, i: nat, g: Id)
    requires Run(states, steps) && AllFresh(states, steps) && i < |steps| && RestoringStep(states, i, steps[i], g)
    requires ReachableUpTo(states, i) && MarkerTells(states[i], g)
    ensures MarkerTells(states[i + 1], g)
  {
    hide MarkerTells, RestoresDeployed, Fresh;
    var step := steps[i];
    assert OneStep(states, i, step) && FreshStep(states, i, step);
    if step.Import? {
      AddedMarker(states[i], states[i + 1], g);
    } else if Apply(states[step.seen], states[i], step.request).Ok? {
      if step.request.EndDeployment? {
        NextMarkerEnd(states, steps, i, g);
      } else {
        StepReady(states, i, step.seen);
        OneStepMarker(states[..i + 1], states[step.seen], states[i], step.request, states[i + 1], g);
      }
    }
  }

  /** A step that leaves the marker right restored what is deployed, if it is a discard of the group. */
  lemma RestoredIfTold(states: seq<Db>, steps: seq<Step>, i: nat, g: Id)
    requires Run(states, steps) && i < |steps| && ReachableUpTo(states, i)
    requires MarkerTells(states[i], g) && MarkerTells(states[i + 1], g)
    ensures RestoringStep(states, i, steps[i], g)
  {
    hide MarkerTells, RestoresDeployed;
    var step := steps[i];
    assert OneStep(states, i, step);
    if step.Step? && step.request == DiscardDraft(g) && Apply(states[step.seen], states[i], step.request).Ok? {
      StepReady(states, i, step.seen);
      EndOrDiscardIs(states[step.seen], states[i], step.request);
      DiscardMarkerExactly(states[..i + 1], states[step.seen], states[i], g, states[i + 1]);
    }
  }

  lemma NextMarkerEnd(states: seq<Db>, steps: seq<Step>, i: nat, g: Id)
    requires Run(states, steps) && AllFresh(states, steps) && i < |steps| && MarkerTells(states[i], g)
    requires steps[i].Step? && steps[i].request.EndDeployment? && steps[i].seen <= i
    requires Apply(states[steps[i].seen], states[i], steps[i].request) == Ok(states[i + 1])
    requires EndsWhatBegan(states[..i + 1], steps[i].request)
    ensures MarkerTells(states[i + 1], g)
  {
    hide Apply, Ended, EndedRows, MarkerTells, Faithful, OneStep;
    var r := steps[i].request;
    EndOrDiscardIs(states[steps[i].seen], states[i], r);
    EndedSteps(states[i], r.group, r.outcome, states[i + 1]);
    if g == r.group && r.outcome.Some? {
      var j :| 0 <= j < i + 1 && BuiltAt(states[..i + 1][j], g, r.outcome.value);
      RevisionIsAVersionStamp(states, steps, j, i, g);
      EndMarker(states[j], states[i], g, r.outcome.value, states[i + 1]);
    } else {
      EndMarkerOthers(states[i], r.group, r.outcome, states[i + 1], g);
    }
  }

  lemma StartMarker(states: seq<Db>, steps: seq<Step>, g: Id)
    requires Run(states, steps)
    ensures |states| == |steps| + 1 && MarkerTells(states[0], g)
  {
    hide OneStep, Sound;
  }

  lemma RestoringAt(states: seq<Db>, steps: seq<Step>, i: nat, g: Id)
    requires Run(states, steps) && AllRestoreDeployed(states, steps, g) && i < |steps|
    ensures |states| == |steps| + 1 && (steps[i].Step? ==> steps[i].seen <= i) && RestoringStep(states, i, steps[i], g)
  {
    hide RestoringStep;
    assert OneStep(states, i, steps[i]);
  }

  lemma {:induction false} MarkersTell(states: seq<Db>, steps: seq<Step>, i: nat, g: Id)
    requires Run(states, steps) && AllFresh(states, steps) && AllRestoreDeployed(states, steps, g) && i < |states|
    ensures MarkerTells(states[i], g)
  {
    hide Run, AllFresh, AllRestoreDeployed, RestoringStep, MarkerTells, ReachableUpTo;
    StartMarker(states, steps, g);
    if i > 0 {
      RestoringAt(states, steps, i - 1, g);
      MarkersTell(states, steps, i - 1, g);
      AllReachable(states, steps, i - 1);
      NextMarker(states, steps, i - 1, g);
    }
  }

  lemma RestoredIfAllTold(states: seq<Db>, steps: seq<Step>, g: Id)
    requires Run(states, steps) && forall i | 0 <= i < |states| :: MarkerTells(states[i], g)
    ensures AllRestoreDeployed(states, steps, g)
  {
    hide MarkerTells, ReachableUpTo, Apply, RestoresDeployed;
    forall i | 0 <= i < |steps|
      ensures (steps[i].Step? ==> steps[i].seen <= i) && RestoringStep(states, i, steps[i], g)
    {
      assert OneStep(states, i, steps[i]);
      AllReachable(states, steps, i);
      RestoredIfTold(states, steps, i, g);
    }
  }

  /** In a run of fresh requests, a group that is not marked as changed always has the deployed
      configuration as its draft, up to runtime states and names, exactly if every committed discard
      of the group restores what is deployed. */
  lemma UnmarkedDraftIsDeployed(states: seq<Db>, steps: seq<Step>, g: Id)
    requires Run(states, steps) && AllFresh(states, steps)
    ensures (forall i | 0 <= i < |states| :: MarkerTells(states[i], g)) <==> AllRestoreDeployed(states, steps, g)
  {
    hide Run, AllFresh, AllRestoreDeployed, RestoringStep, MarkerTells, ReachableUpTo;
    if AllRestoreDeployed(states, steps, g) {
      forall i | 0 <= i < |states| ensures MarkerTells(states[i], g) { MarkersTell(states, steps, i, g); }
    }
    if forall i | 0 <= i < |states| :: MarkerTells(states[i], g) { RestoredIfAllTold(states, steps, g); }
  }
}
