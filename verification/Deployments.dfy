/**
 Deployments of one App Group: any number of deploy and rollback requests, runtime operations
 that are refused while a deployment is active, and the worker, interleaved statement by
 statement. The database refuses a second row with the same version, with the same idempotency
 key, or with an active status.
 */
module Deployments {
  import opened Prelude

  datatype Status = Pending | Deploying | Succeeded | Failed | RollingBack | RolledBack | RollbackFailed

  predicate Active(s: Status) {
    s.Pending? || s.Deploying? || s.RollingBack?
  }

  /** `config` stands for the stack configuration; a row is named by its place in the table. */
  datatype Deployment = Deployment(
    version: nat, status: Status, config: string, source: nat, target: Option<nat>, key: Option<string>)

  datatype Refusal = NotFound | NotSucceeded | Busy | Conflict

  datatype Reply = Created(row: nat) | Replayed(row: nat) | Refused(why: Refusal) | Performed

  /** A deploy request carries the draft it has read; a rollback names a row. */
  datatype Aim = Deploy(source: nat, config: string) | Rollback(target: nat) | Operate

  datatype Phase =
    | Begun | KeyChecked | TargetRead(config: string, version: nat) | Clear(config: string, target: Option<nat>)
    | Numbered(config: string, target: Option<nat>, source: nat, version: nat)
    | OperationClear | Answered(reply: Reply)

  datatype Call = Call(aim: Aim, key: Option<string>, phase: Phase)

  /** `drafts` has the configuration of every revision the draft has had; the last is current. */
  datatype State = State(rows: seq<Deployment>, calls: seq<Call>, drafts: seq<string>)

  datatype Event =
    | Edit(config: string)
    | CallDeploy(key: Option<string>) | CallRollback(target: nat, key: Option<string>) | CallOperate
    | FindKey(call: nat) | FindTarget(call: nat) | FindActive(call: nat) | FindVersion(call: nat) | Insert(call: nat)
    | Perform(call: nat)
    | Work(row: nat, status: Status)

  predicate AnyActive(rows: seq<Deployment>) {
    exists d | d in rows :: Active(d.status)
  }

  predicate KeyTaken(rows: seq<Deployment>, key: Option<string>) {
    key.Some? && exists d | d in rows :: d.key == key
  }

  function RowOfKey(rows: seq<Deployment>, key: Option<string>): (i: nat)
    requires KeyTaken(rows, key)
    ensures i < |rows| && rows[i].key == key
  {
    if rows[0].key == key then 0 else 1 + RowOfKey(rows[1..], key)
  }

  /** The highest version, zero if there is none. */
  function Latest(rows: seq<Deployment>): nat {
    if rows == [] then 0 else
      var before := Latest(rows[..|rows| - 1]);
      var v := rows[|rows| - 1].version;
      if before < v then v else before
  }

  function Put(s: State, c: nat, phase: Phase): State
    requires c < |s.calls|
  {
    s.(calls := s.calls[c := s.calls[c].(phase := phase)])
  }

  function Refuse(s: State, c: nat, why: Refusal): State
    requires c < |s.calls|
  {
    Put(s, c, Answered(Refused(why)))
  }

  function FindKeyStep(s: State, c: nat): State
    requires c < |s.calls|
  {
    var call := s.calls[c];
    if !call.phase.Begun? || call.aim.Operate? then s else
    if KeyTaken(s.rows, call.key) then Put(s, c, Answered(Replayed(RowOfKey(s.rows, call.key)))) else
    Put(s, c, KeyChecked)
  }

  function FindTargetStep(s: State, c: nat): State
    requires c < |s.calls|
  {
    var call := s.calls[c];
    if !call.phase.KeyChecked? || !call.aim.Rollback? then s else
    if call.aim.target >= |s.rows| then Refuse(s, c, NotFound) else
    var row := s.rows[call.aim.target];
    if !row.status.Succeeded? then Refuse(s, c, NotSucceeded) else
    Put(s, c, TargetRead(row.config, row.version))
  }

  function FindActiveStep(s: State, c: nat): State
    requires c < |s.calls|
  {
    var call := s.calls[c];
    if call.aim.Deploy? && call.phase.KeyChecked? then
      if AnyActive(s.rows) then Refuse(s, c, Busy) else Put(s, c, Clear(call.aim.config, None))
    else if call.aim.Rollback? && call.phase.TargetRead? then
      if AnyActive(s.rows) then Refuse(s, c, Busy) else Put(s, c, Clear(call.phase.config, Some(call.phase.version)))
    else if call.aim.Operate? && call.phase.Begun? then
      if AnyActive(s.rows) then Refuse(s, c, Busy) else Put(s, c, OperationClear)
    else s
  }

  /** A rollback is stamped with the revision the draft has at this point. */
  function FindVersionStep(s: State, c: nat): State
    requires c < |s.calls|
  {
    var call := s.calls[c];
    if !call.phase.Clear? then s else
    var source := if call.aim.Deploy? then call.aim.source else if |s.drafts| > 0 then |s.drafts| - 1 else 0;
    Put(s, c, Numbered(call.phase.config, call.phase.target, source, Latest(s.rows) + 1))
  }

  predicate Admissible(rows: seq<Deployment>, d: Deployment) {
    && (forall e | e in rows :: e.version != d.version)
    && !KeyTaken(rows, d.key)
    && !AnyActive(rows)
  }

  function InsertStep(s: State, c: nat): State
    requires c < |s.calls|
  {
    var call := s.calls[c];
    if !call.phase.Numbered? then s else
    var p := call.phase;
    var row := Deployment(p.version, Pending, p.config, p.source, p.target, call.key);
    if !Admissible(s.rows, row) then Refuse(s, c, Conflict) else
    Put(s, c, Answered(Created(|s.rows|))).(rows := s.rows + [row])
  }

  /** The worker finishes active deployments; an explicit rollback never counts as succeeded. */
  function WorkStep(s: State, i: nat, status: Status): State {
    if i >= |s.rows| || !Active(s.rows[i].status) || (status.Succeeded? && s.rows[i].target.Some?) then s else
    s.(rows := s.rows[i := s.rows[i].(status := status)])
  }

  function Next(s: State, e: Event): State {
    match e
    case Edit(config) => s.(drafts := s.drafts + [config])
    case CallDeploy(key) =>
      if s.drafts == [] then s else
      var n := |s.drafts| - 1;
      s.(calls := s.calls + [Call(Deploy(n, s.drafts[n]), key, Begun)])
    case CallRollback(target, key) => s.(calls := s.calls + [Call(Rollback(target), key, Begun)])
    case CallOperate => s.(calls := s.calls + [Call(Operate, None, Begun)])
    case FindKey(c) => if c < |s.calls| then FindKeyStep(s, c) else s
    case FindTarget(c) => if c < |s.calls| then FindTargetStep(s, c) else s
    case FindActive(c) => if c < |s.calls| then FindActiveStep(s, c) else s
    case FindVersion(c) => if c < |s.calls| then FindVersionStep(s, c) else s
    case Insert(c) => if c < |s.calls| then InsertStep(s, c) else s
    case Perform(c) => if c < |s.calls| && s.calls[c].phase.OperationClear? then Put(s, c, Answered(Performed)) else s
    case Work(i, status) => WorkStep(s, i, status)
  }

  function Start(): State {
    State([], [], [])
  }

  function Run(events: seq<Event>): State {
    if events == [] then Start() else Next(Run(events[..|events| - 1]), events[|events| - 1])
  }

  // ---- What holds of every reachable state -------------------------------------------------

  /** The configuration is that of a row that has succeeded, which was not a rollback itself. */
  predicate FromSucceeded(rows: seq<Deployment>, config: string, version: nat) {
    1 <= version <= |rows| && rows[version - 1].status.Succeeded? && rows[version - 1].target.None? &&
    rows[version - 1].config == config
  }

  predicate FromDraft(drafts: seq<string>, config: string, source: nat) {
    source < |drafts| && drafts[source] == config
  }

  predicate RowsOk(rows: seq<Deployment>, drafts: seq<string>) {
    && (forall i | 0 <= i < |rows| :: rows[i].version == i + 1)
    && (forall i, j | 0 <= i < j < |rows| :: !(Active(rows[i].status) && Active(rows[j].status)))
    && (forall i, j | 0 <= i < j < |rows| :: rows[i].key.Some? ==> rows[i].key != rows[j].key)
    && (forall i | 0 <= i < |rows| ::
          if rows[i].target.Some? then FromSucceeded(rows, rows[i].config, rows[i].target.value)
          else FromDraft(drafts, rows[i].config, rows[i].source))
    && (forall i | 0 <= i < |rows| :: rows[i].target.Some? ==> !rows[i].status.Succeeded?)
  }

  predicate PhaseOk(s: State, call: Call) {
    match call.phase
    case TargetRead(config, version) => call.aim.Rollback? && FromSucceeded(s.rows, config, version)
    case Clear(config, target) => OriginOk(s, call.aim, config, target)
    case Numbered(config, target, source, version) =>
      OriginOk(s, call.aim, config, target) && 1 <= version <= |s.rows| + 1 &&
      (target.None? ==> FromDraft(s.drafts, config, source))
    case Answered(reply) =>
      (reply.Created? || reply.Replayed?) ==> reply.row < |s.rows| && s.rows[reply.row].key == call.key
    case _ => true
  }

  predicate OriginOk(s: State, aim: Aim, config: string, target: Option<nat>) {
    if target.Some? then aim.Rollback? && FromSucceeded(s.rows, config, target.value)
    else aim.Deploy? && aim.config == config
  }

  predicate CallOk(s: State, call: Call) {
    PhaseOk(s, call) && (call.aim.Deploy? ==> FromDraft(s.drafts, call.aim.config, call.aim.source))
  }

  predicate Inv(s: State) {
    RowsOk(s.rows, s.drafts) && forall c | c in s.calls :: CallOk(s, c)
  }

  lemma {:induction false} LatestIsCount(rows: seq<Deployment>)
    requires forall i | 0 <= i < |rows| :: rows[i].version == i + 1
    ensures Latest(rows) == |rows|
  {
    if rows != [] {
      LatestIsCount(rows[..|rows| - 1]);
    }
  }

  /** Rows are never removed, keep what they were created with, and once finished stay so. */
  ghost predicate Grows(s: State, t: State) {
    && |s.rows| <= |t.rows| && s.drafts <= t.drafts
    && (forall i :: 0 <= i < |s.rows| ==> t.rows[i] == s.rows[i].(status := t.rows[i].status))
    && (forall i :: 0 <= i < |s.rows| && !Active(s.rows[i].status) ==> t.rows[i].status == s.rows[i].status)
  }

  lemma NextGrows(s: State, e: Event)
    ensures Grows(s, Next(s, e))
  {
  }

  lemma CallStaysOk(s: State, t: State, call: Call)
    requires Grows(s, t) && CallOk(s, call)
    ensures CallOk(t, call)
  {
  }

  lemma WorkKeepsRows(s: State, i: nat, status: Status)
    requires RowsOk(s.rows, s.drafts)
    ensures RowsOk(WorkStep(s, i, status).rows, s.drafts)
  {
    var rows := WorkStep(s, i, status).rows;
    assert |rows| == |s.rows|;
    assert forall k | 0 <= k < |rows| :: rows[k] == s.rows[k].(status := rows[k].status);
    assert forall k | 0 <= k < |rows| && s.rows[k].status.Succeeded? :: rows[k] == s.rows[k];
    forall k | 0 <= k < |rows| && rows[k].target.Some?
      ensures FromSucceeded(rows, rows[k].config, rows[k].target.value)
    {
      assert FromSucceeded(s.rows, s.rows[k].config, s.rows[k].target.value);
    }
  }

  lemma RowsStayOk(s: State, e: Event)
    requires Inv(s)
    ensures RowsOk(Next(s, e).rows, Next(s, e).drafts)
  {
    if e.Work? {
      WorkKeepsRows(s, e.row, e.status);
    } else if e.Insert? && e.call < |s.calls| && s.calls[e.call].phase.Numbered? {
      var call := s.calls[e.call];
      assert CallOk(s, call);
      var p := call.phase;
      var row := Deployment(p.version, Pending, p.config, p.source, p.target, call.key);
      if Admissible(s.rows, row) { InsertKeepsRows(s, call, row); }
    } else {
      assert Next(s, e).rows == s.rows;
    }
  }

  /** The version was one more than the number of rows when it was read; if rows were added
      since, it is taken. */
  lemma AdmissibleIsNext(s: State, call: Call, row: Deployment)
    requires RowsOk(s.rows, s.drafts) && CallOk(s, call) && call.phase.Numbered? && Admissible(s.rows, row)
    requires row.version == call.phase.version && row.status.Pending?
    ensures row.version == |s.rows| + 1
    ensures forall i | 0 <= i < |s.rows| :: !Active(s.rows[i].status) && (s.rows[i].key.Some? ==> s.rows[i].key != row.key)
  {
    var k := if row.version <= |s.rows| then row.version - 1 else 0;
    assert k < |s.rows| ==> s.rows[k] in s.rows;
    forall i | 0 <= i < |s.rows| ensures !Active(s.rows[i].status) && (s.rows[i].key.Some? ==> s.rows[i].key != row.key) {
      assert s.rows[i] in s.rows;
    }
  }

  lemma InsertKeepsRows(s: State, call: Call, row: Deployment)
    requires RowsOk(s.rows, s.drafts) && CallOk(s, call) && call.phase.Numbered? && Admissible(s.rows, row)
    requires row == Deployment(call.phase.version, Pending, call.phase.config, call.phase.source, call.phase.target, call.key)
    ensures RowsOk(s.rows + [row], s.drafts)
  {
    AdmissibleIsNext(s, call, row);
    hide Admissible;
    var rows := s.rows + [row];
    assert forall k | 0 <= k < |s.rows| :: rows[k] == s.rows[k];
    forall k | 0 <= k < |s.rows| && s.rows[k].target.Some?
      ensures FromSucceeded(rows, s.rows[k].config, s.rows[k].target.value)
    {
      assert FromSucceeded(s.rows, s.rows[k].config, s.rows[k].target.value);
    }
  }

  lemma LookupOk(s: State, c: nat)
    requires Inv(s) && c < |s.calls|
    ensures CallOk(FindKeyStep(s, c), FindKeyStep(s, c).calls[c])
    ensures CallOk(FindTargetStep(s, c), FindTargetStep(s, c).calls[c])
    ensures CallOk(FindActiveStep(s, c), FindActiveStep(s, c).calls[c])
  {
    assert CallOk(s, s.calls[c]);
  }

  lemma VersionOk(s: State, c: nat)
    requires Inv(s) && c < |s.calls|
    ensures CallOk(FindVersionStep(s, c), FindVersionStep(s, c).calls[c])
  {
    assert CallOk(s, s.calls[c]);
    LatestIsCount(s.rows);
  }

  lemma InsertOk(s: State, c: nat)
    requires Inv(s) && c < |s.calls|
    ensures CallOk(InsertStep(s, c), InsertStep(s, c).calls[c])
  {
    assert CallOk(s, s.calls[c]);
  }

  lemma NewCallOk(s: State, e: Event)
    requires Inv(s) && |Next(s, e).calls| == |s.calls| + 1
    ensures CallOk(Next(s, e), Next(s, e).calls[|s.calls|])
  {
  }

  /** Only the call that an event is about changes. */
  lemma OthersStay(s: State, e: Event, c: nat)
    requires c < |s.calls|
    ensures |s.calls| <= |Next(s, e).calls| <= |s.calls| + 1
    ensures !((e.FindKey? || e.FindTarget? || e.FindActive? || e.FindVersion? || e.Insert? || e.Perform?) && e.call == c) ==>
              Next(s, e).calls[c] == s.calls[c]
  {
  }

  lemma CalledOk(s: State, e: Event, c: nat)
    requires Inv(s) && c < |s.calls| && Next(s, e).calls[c] != s.calls[c]
    ensures CallOk(Next(s, e), Next(s, e).calls[c])
  {
    OthersStay(s, e, c);
    match e
    case FindKey(_) => LookupOk(s, c);
    case FindTarget(_) => LookupOk(s, c);
    case FindActive(_) => LookupOk(s, c);
    case FindVersion(_) => VersionOk(s, c);
    case Insert(_) => InsertOk(s, c);
    case Perform(_) => assert CallOk(s, s.calls[c]);
    case _ =>
  }

  lemma NextKeepsInv(s: State, e: Event)
    requires Inv(s)
    ensures Inv(Next(s, e))
  {
    var t := Next(s, e);
    NextGrows(s, e);
    RowsStayOk(s, e);
    forall call | call in t.calls ensures CallOk(t, call) {
      var c :| 0 <= c < |t.calls| && t.calls[c] == call;
      if c >= |s.calls| {
        NewCallOk(s, e);
      } else if s.calls[c] == call {
        assert CallOk(s, call);
        CallStaysOk(s, t, call);
      } else {
        CalledOk(s, e, c);
      }
    }
  }

  lemma {:induction false} RunKeepsInv(events: seq<Event>)
    ensures Inv(Run(events))
  {
    if events != [] {
      RunKeepsInv(events[..|events| - 1]);
      NextKeepsInv(Run(events[..|events| - 1]), events[|events| - 1]);
    }
  }

  // ---- Main results -------------------------------------------------------------------------

  /** In every reachable state: versions are 1..n in the order of creation, at most one deployment is
      active, a key names at most one deployment, what a rollback runs is what a succeeded deployment
      ran, and what any other deployment runs is the draft at its source revision. */
  lemma ReachableDeployments(events: seq<Event>)
    ensures var s := Run(events);
      && (forall i | 0 <= i < |s.rows| :: s.rows[i].version == i + 1)
      && (forall i, j | 0 <= i < |s.rows| && 0 <= j < |s.rows| ::
            Active(s.rows[i].status) && Active(s.rows[j].status) ==> i == j)
      && (forall i, j | 0 <= i < |s.rows| && 0 <= j < |s.rows| ::
            s.rows[i].key.Some? && s.rows[i].key == s.rows[j].key ==> i == j)
      && (forall i | 0 <= i < |s.rows| ::
            if s.rows[i].target.Some? then FromSucceeded(s.rows, s.rows[i].config, s.rows[i].target.value)
            else FromDraft(s.drafts, s.rows[i].config, s.rows[i].source))
  {
    RunKeepsInv(events);
  }

  predicate AnsweredWith(call: Call, row: nat) {
    call.phase == Answered(Created(row)) || call.phase == Answered(Replayed(row))
  }

  /** Two calls with one key are never answered with different deployments. */
  lemma OneDeploymentPerKey(events: seq<Event>, c: nat, d: nat, i: nat, j: nat)
    requires var s := Run(events);
      && c < |s.calls| && d < |s.calls| && s.calls[c].key.Some? && s.calls[c].key == s.calls[d].key
      && AnsweredWith(s.calls[c], i) && AnsweredWith(s.calls[d], j)
    ensures i == j && i < |Run(events).rows| && Run(events).rows[i].key == Run(events).calls[c].key
  {
    RunKeepsInv(events);
    var s := Run(events);
    assert CallOk(s, s.calls[c]) && CallOk(s, s.calls[d]);
  }

  /** A lookup that finds the key answers with that row and changes nothing else. */
  lemma ReplayChangesNothing(events: seq<Event>, c: nat, i: nat)
    requires var s := Run(events);
      c < |s.calls| && s.calls[c].phase.Begun? && !s.calls[c].aim.Operate? &&
      s.calls[c].key.Some? && i < |s.rows| && s.rows[i].key == s.calls[c].key
    ensures Next(Run(events), FindKey(c)) == Put(Run(events), c, Answered(Replayed(i)))
  {
    hide CallOk, Run;
    RunKeepsInv(events);
    var s := Run(events);
    assert s.rows[i] in s.rows;
  }

  lemma {:induction false} Later(events: seq<Event>, more: seq<Event>)
    ensures Grows(Run(events), Run(events + more))
  {
    if more == [] {
      assert events + more == events;
    } else {
      var init := more[..|more| - 1];
      Later(events, init);
      assert (events + more)[..|events + more| - 1] == events + init;
      NextGrows(Run(events + init), more[|more| - 1]);
    }
  }

  /** Rows only appear by insertion and only the worker changes their status: a finished
      deployment is never active again. So an operation that found no active deployment can
      meet one when it commits only if that one was created in between. */
  lemma ActiveAtCommitWasCreatedSince(events: seq<Event>, more: seq<Event>, i: nat)
    requires !AnyActive(Run(events).rows)
    requires i < |Run(events + more).rows| && Active(Run(events + more).rows[i].status)
    ensures i >= |Run(events).rows|
  {
    Later(events, more);
    var rows := Run(events).rows;
    var k := if i < |rows| then i else 0;
    assert |rows| > 0 ==> rows[k] in rows;
  }

  /** With the check and the commit next to each other, no operation commits while a deployment is active. */
  lemma OperationMeetsNoDeployment(events: seq<Event>, c: nat)
    requires var s := Run(events); c < |s.calls| && s.calls[c].aim.Operate? && s.calls[c].phase.Begun?
    ensures var t := Run(events + [FindActive(c), Perform(c)]);
      && c < |t.calls| && t.rows == Run(events).rows
      && (t.calls[c].phase == Answered(Performed) <==> !AnyActive(t.rows))
      && (t.calls[c].phase == Answered(Refused(Busy)) <==> AnyActive(t.rows))
  {
    var two := events + [FindActive(c), Perform(c)];
    assert two[..|two| - 1] == events + [FindActive(c)];
    assert (events + [FindActive(c)])[..|events|] == events;
  }

  /** An answer is final. */
  lemma {:induction false} AnswerStays(events: seq<Event>, more: seq<Event>, c: nat)
    requires c < |Run(events).calls| && Run(events).calls[c].phase.Answered?
    ensures c < |Run(events + more).calls| && Run(events + more).calls[c].phase.Answered?
  {
    if more == [] {
      assert events + more == events;
    } else {
      var init, e := more[..|more| - 1], more[|more| - 1];
      AnswerStays(events, init, c);
      assert events + more == (events + init) + [e];
      RunOneMore(events + init, e);
      hide Run, Next;
      OthersStay(Run(events + init), e, c);
      AnsweredStep(Run(events + init), e, c);
    }
  }

  lemma AnsweredStep(s: State, e: Event, c: nat)
    requires c < |s.calls| && s.calls[c].phase.Answered?
    ensures c < |Next(s, e).calls| && Next(s, e).calls[c].phase.Answered?
  {
  }

  /** Statement `k` of `more` inserts row `i`. */
  predicate InsertedBy(events: seq<Event>, more: seq<Event>, k: nat, i: nat)
    requires k < |more|
  {
    && more[k].Insert? && |Run(events + more[..k]).rows| == i
    && |Next(Run(events + more[..k]), more[k]).rows| == i + 1
  }

  lemma OneRowAtATime(s: State, e: Event)
    ensures |Next(s, e).rows| == |s.rows| || (|Next(s, e).rows| == |s.rows| + 1 && e.Insert?)
  {
  }

  lemma {:induction false} NewRowsAreInserted(events: seq<Event>, more: seq<Event>, i: nat)
    requires |Run(events).rows| <= i < |Run(events + more).rows|
    ensures exists k: nat :: k < |more| && InsertedBy(events, more, k, i)
  {
    assert events + [] == events;
    var n := |more| - 1;
    var init, e := more[..n], more[n];
    assert more == init + [e] && events + more == (events + init) + [e];
    RunOneMore(events + init, e);
    hide Run, Next;
    OneRowAtATime(Run(events + init), e);
    if i < |Run(events + init).rows| {
      NewRowsAreInserted(events, init, i);
      var k: nat :| k < |init| && InsertedBy(events, init, k, i);
      assert init[..k] == more[..k];
      assert InsertedBy(events, more, k, i);
    } else {
      assert InsertedBy(events, more, n, i);
    }
  }

  /** Row `i` of `t` was inserted by a statement of `more` and is active. */
  ghost predicate ActiveNewcomer(events: seq<Event>, more: seq<Event>, t: State, i: nat) {
    && |Run(events).rows| <= i < |t.rows| && Active(t.rows[i].status)
    && exists k: nat :: k < |more| && InsertedBy(events, more, k, i)
  }

  /** An operation whose check passed, and which has not committed since, commits beside an active
      deployment exactly if one that was inserted after the check is still active. */
  lemma OperationCommitsBesideExactly(events: seq<Event>, more: seq<Event>, c: nat)
    requires var s := Run(events); c < |s.calls| && s.calls[c].aim.Operate? && s.calls[c].phase.Begun?
    requires var t := Run(events + [FindActive(c)] + more); c < |t.calls| && t.calls[c].phase.OperationClear?
    ensures var checked := events + [FindActive(c)];
      var u := Run(checked + more + [Perform(c)]);
      && c < |u.calls| && u.calls[c].phase == Answered(Performed) && u.rows == Run(checked + more).rows
      && (AnyActive(u.rows) <==> exists i: nat :: ActiveNewcomer(checked, more, u, i))
  {
    var checked := events + [FindActive(c)];
    RunOneMore(events, FindActive(c));
    RunOneMore(checked + more, Perform(c));
    var s, t := Run(checked), Run(checked + more);
    if AnyActive(s.rows) { AnswerStays(checked, more, c); }
    assert Run(events).rows == s.rows;
    hide Run, Next;
    if AnyActive(t.rows) {
      var d :| d in t.rows && Active(d.status);
      var i: nat :| i < |t.rows| && t.rows[i] == d;
      ActiveAtCommitWasCreatedSince(checked, more, i);
      NewRowsAreInserted(checked, more, i);
      assert ActiveNewcomer(checked, more, Run(checked + more + [Perform(c)]), i);
    }
  }

  /** A first deployment, up to its insertion. */
  const FIRST := Deployment(1, Pending, "v1", 0, None, None)

  lemma SecondHalf(s: State)
    requires s == State([], [Call(Operate, None, OperationClear), Call(Deploy(0, "v1"), None, Clear("v1", None))], ["v1"])
    ensures var t := Next(Next(Next(s, FindVersion(1)), Insert(1)), Perform(0));
      t.rows == [FIRST] && |t.calls| == 2 && t.calls[0].phase == Answered(Performed)
  {
    var numbered := Next(s, FindVersion(1));
    assert Latest([]) == 0;
    assert numbered.calls[1].phase == Numbered("v1", None, 0, 1);
    assert Admissible([], FIRST);
    assert [] + [FIRST] == [FIRST];
  }

  lemma FirstHalf()
    ensures Run([Edit("v1"), CallOperate, CallDeploy(None), FindActive(0), FindKey(1), FindActive(1)]) ==
      State([], [Call(Operate, None, OperationClear), Call(Deploy(0, "v1"), None, Clear("v1", None))], ["v1"])
  {
    var e := [Edit("v1"), CallOperate, CallDeploy(None), FindActive(0), FindKey(1), FindActive(1)];
    Prefixes(e);
    hide Run;
    var deploy := Deploy(0, "v1");
    assert Next(Start(), e[0]) == State([], [], ["v1"]);
    assert Run(e[..1]) == State([], [], ["v1"]);
    assert Run(e[..2]) == State([], [Call(Operate, None, Begun)], ["v1"]);
    assert Run(e[..3]) == State([], [Call(Operate, None, Begun), Call(deploy, None, Begun)], ["v1"]);
    assert !AnyActive([]) && !KeyTaken([], None);
    assert Run(e[..4]) == State([], [Call(Operate, None, OperationClear), Call(deploy, None, Begun)], ["v1"]);
    assert Run(e[..5]) == State([], [Call(Operate, None, OperationClear), Call(deploy, None, KeyChecked)], ["v1"]);
    assert Run(e[..6]) == State([], [Call(Operate, None, OperationClear), Call(deploy, None, Clear("v1", None))], ["v1"]);
  }

  lemma RunOneMore(e: seq<Event>, last: Event)
    ensures Run(e + [last]) == Next(Run(e), last)
  {
    assert (e + [last])[..|e|] == e;
  }

  /** With other statements between them it can: the check is not repeated. */
  lemma OperationBesideDeployment()
    ensures var half := [Edit("v1"), CallOperate, CallDeploy(None), FindActive(0), FindKey(1), FindActive(1)];
      var s := Run(half + [FindVersion(1)] + [Insert(1)] + [Perform(0)]);
      |s.calls| == 2 && s.calls[0].phase == Answered(Performed) && AnyActive(s.rows)
  {
    var half := [Edit("v1"), CallOperate, CallDeploy(None), FindActive(0), FindKey(1), FindActive(1)];
    FirstHalf();
    RunOneMore(half, FindVersion(1));
    RunOneMore(half + [FindVersion(1)], Insert(1));
    RunOneMore(half + [FindVersion(1)] + [Insert(1)], Perform(0));
    hide Run, Next;
    SecondHalf(Run(half));
    assert FIRST in [FIRST] && Active(FIRST.status);
  }

  lemma Prefixes(e: seq<Event>)
    ensures Run(e[..0]) == Start() && e[..|e|] == e
    ensures forall n :: 0 <= n < |e| ==> Run(e[..n + 1]) == Next(Run(e[..n]), e[n])
  {
    forall n | 0 <= n < |e| ensures Run(e[..n + 1]) == Next(Run(e[..n]), e[n]) {
      assert e[..n + 1][..n] == e[..n];
    }
  }
}
