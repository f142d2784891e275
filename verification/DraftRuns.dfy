/**
 Runs of imports and of requests, each of which read the tables at some earlier moment. The main
 results: every state is sound, every discard is a round trip, and in runs of fresh requests the
 revision is a faithful version stamp and configurations built at one revision are the same.
 */
module DraftRuns {
  import opened Prelude
  import opened Tables
  import opened Discard
  import opened DiscardTheorems
  import opened DiscardSound
  import opened Drafts
  import opened DraftStamp
  import opened DraftContent
  import opened DraftSteps
  import opened DraftRequests

  /** A request, and the moment at which it read the tables; or an import, and what it leaves. */
  datatype Step = Step(seen: nat, request: Request) | Import(made: Db)

  /** Groups with everything in them have been added beside the others. */
  ghost predicate GroupsAdded(x: Db, y: Db) {
    && Sound(y) && Later(x, y) && Quiet(x, y)
    && (forall g :: g in y.groups && g !in x.groups ==> y.groups[g].deployed.None?)
    && (forall key :: key in x.resources ==> key in y.resources && y.resources[key] == x.resources[key])
  }

  function Outcome(seen: Db, db: Db, r: Request): Db {
    var tx := Apply(seen, db, r);
    if tx.Ok? then tx.value else db
  }

  /** A deployment that ends well ran the configuration of an earlier state, and was stamped with its revision. */
  ghost predicate EndsWhatBegan(past: seq<Db>, r: Request) {
    r.EndDeployment? && r.outcome.Some? ==>
      exists j :: 0 <= j < |past| && BuiltAt(past[j], r.group, r.outcome.value)
  }

  ghost predicate BuiltAt(b: Db, g: Id, done: Finished) {
    g in b.groups && done.stack == BuildStack(b, g) && (done.ending.Deployed? ==> done.source == b.groups[g].revision)
  }

  ghost predicate Run(states: seq<Db>, steps: seq<Step>) {
    && |states| == |steps| + 1
    && Sound(states[0]) && (forall g :: g in states[0].groups ==> states[0].groups[g].deployed.None?)
    && (forall i :: 0 <= i < |steps| ==> OneStep(states, i, steps[i]))
  }

  ghost predicate OneStep(states: seq<Db>, i: nat, step: Step)
    requires i + 1 < |states|
  {
    match step
    case Step(seen, request) =>
      && seen <= i && states[i + 1] == Outcome(states[seen], states[i], request)
      && EndsWhatBegan(states[..i + 1], request)
    case Import(made) => states[i + 1] == made && GroupsAdded(states[i], made)
  }

  /** What is deployed in `db` was built from some earlier state. */
  ghost predicate Traceable(past: seq<Db>, db: Db) {
    forall g :: g in db.groups && db.groups[g].deployed.Some? ==>
      exists j :: 0 <= j < |past| && g in past[j].groups && db.groups[g].deployed.value == BuildStack(past[j], g)
  }

  ghost predicate Reachable(states: seq<Db>, i: nat)
    requires i < |states|
  {
    && (forall j :: 0 <= j <= i ==> Sound(states[j]) && Later(states[j], states[i]))
    && Traceable(states[..i + 1], states[i])
  }

  // ---- What every reachable state satisfies ------------------------------------------------

  ghost predicate Past(past: seq<Db>, db: Db) {
    forall p :: p in past ==> Sound(p) && Later(p, db)
  }

  lemma TraceableStays(past: seq<Db>, db: Db, y: Db)
    requires Traceable(past, db) && DeployedStays(db, y)
    ensures Traceable(past, y)
  {
  }

  lemma EndTraceable(past: seq<Db>, db: Db, g: Id, outcome: Option<Finished>, y: Db)
    requires Traceable(past, db) && g in db.groups && y == EndedRows(db, g, outcome)
    requires EndsWhatBegan(past, EndDeployment(g, outcome))
    ensures Traceable(past, y)
  {
    forall h | h in y.groups && y.groups[h].deployed.Some?
      ensures exists j :: 0 <= j < |past| && h in past[j].groups && y.groups[h].deployed.value == BuildStack(past[j], h)
    {
      if h == g && outcome.Some? {
        var j :| 0 <= j < |past| && BuiltAt(past[j], g, outcome.value);
        assert g in past[j].groups;
      } else {
        assert h in db.groups && db.groups[h].deployed == y.groups[h].deployed;
      }
    }
  }

  /** The state from which the configuration to be restored was built. */
  lemma Source(past: seq<Db>, seen: Db, db: Db, g: Id) returns (b: Db)
    requires Traceable(past, seen) && Past(past, db) && g in seen.groups && seen.groups[g].deployed.Some?
    ensures BuiltFrom(seen, g, b, db)
  {
    var j :| 0 <= j < |past| && g in past[j].groups && seen.groups[g].deployed.value == BuildStack(past[j], g);
    b := past[j];
    assert b in past;
  }

  lemma OutcomeOrderly(past: seq<Db>, seen: Db, db: Db, r: Request, y: Db)
    requires Ready(seen, db) && Apply(seen, db, r) == Ok(y)
    requires Past(past, db) && Traceable(past, seen) && Traceable(past, db) && EndsWhatBegan(past, r)
    ensures Sound(y) && Later(db, y) && Traceable(past, y)
  {
    hide Ended, Discarded;
    if r.EndDeployment? {
      EndRequest(db, r.group, r.outcome, y);
      EndTraceable(past, db, r.group, r.outcome, y);
    } else if r.DiscardDraft? {
      DiscardOrderly(past, seen, db, r.group, y);
    } else {
      RequestOrderly(seen, db, r, y);
      TraceableStays(past, db, y);
    }
  }

  lemma DiscardOrderly(past: seq<Db>, seen: Db, db: Db, g: Id, y: Db)
    requires Sound(db) && Discarded(seen, db, g) == Ok(y)
    requires Past(past, db) && Traceable(past, seen) && Traceable(past, db)
    ensures Sound(y) && Later(db, y) && Traceable(past, y)
  {
    if seen.groups[g].hasPendingChanges {
      var b := Source(past, seen, db, g);
      DiscardedSteps(seen, db, g, BuildStack(b, g), y);
      DiscardRequest(b, db, g, y);
      TraceableStays(past, db, y);
    }
  }

  lemma LaterLater(x: Db, y: Db, z: Db)
    requires Later(x, y) && Later(y, z)
    ensures Later(x, z)
  {
  }

  lemma LaterSelf(x: Db)
    ensures Later(x, x)
  {
  }

  lemma TraceableLonger(past: seq<Db>, more: seq<Db>, db: Db)
    requires Traceable(past, db) && past <= more
    ensures Traceable(more, db)
  {
    forall g | g in db.groups && db.groups[g].deployed.Some?
      ensures exists j :: 0 <= j < |more| && g in more[j].groups && db.groups[g].deployed.value == BuildStack(more[j], g)
    {
      var j :| 0 <= j < |past| && g in past[j].groups && db.groups[g].deployed.value == BuildStack(past[j], g);
      assert more[j] == past[j];
    }
  }

  lemma AddedTraceable(past: seq<Db>, db: Db, y: Db)
    requires GroupsAdded(db, y) && Traceable(past, db)
    ensures Sound(y) && Later(db, y) && Traceable(past, y)
  {
    hide Sound, Later, ContentOf, BuildStack;
    forall h | h in y.groups && y.groups[h].deployed.Some? ensures h in db.groups && db.groups[h].deployed == y.groups[h].deployed {
    }
    TraceableStays(past, db, y);
  }

  lemma StepReachable(states: seq<Db>, i: nat, step: Step)
    requires i + 1 < |states| && OneStep(states, i, step)
    requires ReachableUpTo(states, i)
    ensures Reachable(states, i + 1)
  {
    hide Apply, Sound, Later, GroupsAdded;
    var past, db, y := states[..i + 1], states[i], states[i + 1];
    assert states[..i + 2] == past + [y];
    assert Reachable(states, i);
    LaterSelf(db);
    if step.Import? {
      AddedTraceable(past, db, y);
    } else {
      var seen := states[step.seen];
      assert Reachable(states, step.seen);
      TraceableLonger(states[..step.seen + 1], past, seen);
      if Apply(seen, db, step.request).Ok? { OutcomeOrderly(past, seen, db, step.request, y); }
    }
    TraceableLonger(past, states[..i + 2], y);
    forall j | 0 <= j <= i + 1 ensures Sound(states[j]) && Later(states[j], y) {
      if j <= i { LaterLater(states[j], db, y); } else { LaterSelf(y); }
    }
  }

  ghost predicate ReachableUpTo(states: seq<Db>, n: nat)
    requires n < |states|
  {
    forall k :: 0 <= k <= n ==> Reachable(states, k)
  }

  lemma NextReachable(states: seq<Db>, steps: seq<Step>, i: nat)
    requires Run(states, steps) && i < |steps| && ReachableUpTo(states, i)
    ensures Reachable(states, i + 1)
  {
    assert OneStep(states, i, steps[i]);
    StepReachable(states, i, steps[i]);
  }

  lemma StartReachable(states: seq<Db>)
    requires |states| > 0 && Sound(states[0])
    requires forall g :: g in states[0].groups ==> states[0].groups[g].deployed.None?
    ensures ReachableUpTo(states, 0)
  {
    forall k | 0 <= k <= 0 ensures Reachable(states, k) {
      assert k == 0;
      forall j | 0 <= j <= 0 ensures Sound(states[j]) && Later(states[j], states[0]) {
        assert j == 0;
      }
    }
  }

  lemma OneMoreReachable(states: seq<Db>, n: nat)
    requires n + 1 < |states| && ReachableUpTo(states, n) && Reachable(states, n + 1)
    ensures ReachableUpTo(states, n + 1)
  {
  }

  lemma {:induction false} AllReachable(states: seq<Db>, steps: seq<Step>, i: nat)
    requires Run(states, steps) && i < |states|
    ensures ReachableUpTo(states, i)
  {
    if i > 0 {
      AllReachable(states, steps, i - 1);
      NextReachable(states, steps, i - 1);
      OneMoreReachable(states, i - 1);
    } else {
      StartReachable(states);
    }
  }

  /** In every run, with reads of any age: a discard that commits rebuilds the configuration that was
      deployed when it read the group, up to secret versions, and its marker tells whether those differ. */
  lemma EveryDiscardIsARoundTrip(states: seq<Db>, steps: seq<Step>, i: nat, g: Id)
    requires Run(states, steps) && i < |steps| && steps[i].Step? && steps[i].request == DiscardDraft(g)
    requires steps[i].seen < |states| && Apply(states[steps[i].seen], states[i], steps[i].request).Ok?
    requires g in states[steps[i].seen].groups && states[steps[i].seen].groups[g].hasPendingChanges
    ensures var deployed, after := states[steps[i].seen].groups[g].deployed, states[i + 1];
      && deployed.Some? && g in after.groups && g in states[i].groups
      && WithoutSecretVersions(BuildStack(after, g)) == WithoutSecretVersions(deployed.value)
      && after.groups[g].revision == states[i].groups[g].revision + 1
      && (after.groups[g].hasPendingChanges <==> BuildStack(after, g) != deployed.value)
  {
    hide Apply, BuildStack, WithoutSecretVersions, Sound, Later;
    assert OneStep(states, i, steps[i]);
    AllReachable(states, steps, i);
    var past, seen, db := states[..i + 1], states[steps[i].seen], states[i];
    assert Reachable(states, steps[i].seen) && Reachable(states, i);
    TraceableLonger(states[..steps[i].seen + 1], past, seen);
    DiscardOfRun(past, seen, db, g, states[i + 1]);
  }

  lemma DiscardOfRun(past: seq<Db>, seen: Db, db: Db, g: Id, y: Db)
    requires Sound(db) && Past(past, db) && Traceable(past, seen)
    requires Apply(seen, db, DiscardDraft(g)) == Ok(y) && g in seen.groups && seen.groups[g].hasPendingChanges
    ensures seen.groups[g].deployed.Some? && g in y.groups && g in db.groups
    ensures WithoutSecretVersions(BuildStack(y, g)) == WithoutSecretVersions(seen.groups[g].deployed.value)
    ensures y.groups[g].revision == db.groups[g].revision + 1
    ensures y.groups[g].hasPendingChanges <==> BuildStack(y, g) != seen.groups[g].deployed.value
  {
    hide Constraints, DiscardTx;
    var b := Source(past, seen, db, g);
    DiscardedSteps(seen, db, g, BuildStack(b, g), y);
    DiscardIsARoundTrip(b, db, g);
  }

  // ---- The revision is a version stamp --------------------------------------------------------

  ghost predicate AllFresh(states: seq<Db>, steps: seq<Step>)
    requires Run(states, steps)
  {
    forall i :: 0 <= i < |steps| ==> FreshStep(states, i, steps[i])
  }

  ghost predicate FreshStep(states: seq<Db>, i: nat, step: Step)
    requires i < |states| && (step.Step? ==> step.seen <= i)
  {
    step.Step? ==> Fresh(states[step.seen], states[i], step.request)
  }

  lemma AddedFaithful(x: Db, y: Db)
    requires GroupsAdded(x, y)
    ensures AllKept(x, y) && AllFaithful(x, y)
  {
    hide Sound, Later, ContentOf;
    QuietKeeps(x, y);
  }

  lemma FaithfulSelf(x: Db)
    ensures AllFaithful(x, x)
  {
  }

  lemma StepFaithful(states: seq<Db>, i: nat, step: Step)
    requires i + 1 < |states| && OneStep(states, i, step) && ReachableUpTo(states, i) && FreshStep(states, i, step)
    ensures AllFaithful(states[i], states[i + 1])
  {
    hide Apply, Sound, Later, Fresh, BuiltFrom, GroupsAdded, AllFaithful;
    var past, db, y := states[..i + 1], states[i], states[i + 1];
    assert Reachable(states, i);
    if step.Import? {
      AddedFaithful(db, y);
    } else if Apply(states[step.seen], db, step.request).Ok? {
      var seen, r, b := states[step.seen], step.request, db;
      assert Reachable(states, step.seen);
      if r.DiscardDraft? && r.group in seen.groups && seen.groups[r.group].deployed.Some? {
        TraceableLonger(states[..step.seen + 1], past, seen);
        b := Source(past, seen, db, r.group);
      }
      StampKeptExactlyIfFresh(seen, db, r, b, y);
    } else {
      FaithfulSelf(db);
    }
  }

  lemma NextFaithful(states: seq<Db>, steps: seq<Step>, i: nat)
    requires Run(states, steps) && AllFresh(states, steps) && i < |steps| && ReachableUpTo(states, i)
    ensures AllFaithful(states[i], states[i + 1])
  {
    assert OneStep(states, i, steps[i]) && FreshStep(states, i, steps[i]);
    StepFaithful(states, i, steps[i]);
  }

  lemma RunLength(states: seq<Db>, steps: seq<Step>)
    requires Run(states, steps)
    ensures |states| == |steps| + 1
  {
  }

  lemma FaithfulFaithful(x: Db, y: Db, z: Db, g: Id)
    requires Faithful(x, y, g) && AllFaithful(y, z)
    ensures Faithful(x, z, g)
  {
    assert Faithful(y, z, g);
  }

  /** In a run of fresh requests the revision of a group never decreases, and whenever it is the
      same the group has the same content. */
  lemma {:induction false} RevisionIsAVersionStamp(states: seq<Db>, steps: seq<Step>, i: nat, j: nat, g: Id)
    requires Run(states, steps) && AllFresh(states, steps)
    requires i <= j < |states| && g in states[i].groups
    ensures Faithful(states[i], states[j], g)
  {
    if i < j {
      hide Run, AllFresh, Faithful, AllFaithful, ReachableUpTo;
      assert |states| == |steps| + 1 by { RunLength(states, steps); }
      RevisionIsAVersionStamp(states, steps, i, j - 1, g);
      AllReachable(states, steps, j - 1);
      NextFaithful(states, steps, j - 1);
      FaithfulFaithful(states[i], states[j - 1], states[j], g);
    }
  }

  /** The configuration of a deployment depends on its source revision only, up to runtime
      states and the names of variables, configs and secrets. */
  lemma ConfigurationIsAFunctionOfRevision(states: seq<Db>, steps: seq<Step>, i: nat, j: nat, g: Id)
    requires Run(states, steps) && AllFresh(states, steps) && i < |states| && j < |states|
    requires g in states[i].groups && g in states[j].groups
    requires states[i].groups[g].revision == states[j].groups[g].revision
    ensures Plain(BuildStack(states[i], g)) == Plain(BuildStack(states[j], g))
  {
    var p, q := if i <= j then i else j, if i <= j then j else i;
    RevisionIsAVersionStamp(states, steps, p, q, g);
    SameContentSameStack(states[p], states[q], g);
  }
}
