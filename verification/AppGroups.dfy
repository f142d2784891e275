/**
 The services over the tables: every method is one request, statement by statement. `seen` is
 what the request read before its transaction; the transaction works on a copy of `db` and
 replaces it at the end, or throws and leaves it. Each method is shown to be the request of the
 runs, and says what its caller can count on.
 */
module AppGroups {
  import opened Prelude
  import opened Tables
  import opened Discard
  import opened DiscardTheorems
  import opened DiscardSound
  import opened Drafts
  import opened DraftSteps
  import opened DraftStamp
  import opened DraftRequests

  type Reply = Result<(), Failure>

  /** The request failed and `after` is `before`, or it committed what its transaction computes. */
  predicate Settled(tx: Tx, before: Db, after: Db, reply: Reply) {
    match tx
    case Ok(db) => after == db && reply.Ok?
    case Err(e) => after == before && reply == Err(e)
  }

  /** What a request to change the draft of `g` leaves. Refused, it leaves no trace. Otherwise the
      revision of `g` is one higher and its draft counts as changed, and every other group keeps its
      row and what it would deploy. The tables stay sound, and ids stay with their owners. */
  ghost predicate Changed(g: Id, before: Db, after: Db, reply: Reply) {
    && Sound(after) && Later(before, after)
    && (reply.Err? ==> after == before)
    && (reply.Ok? ==> Touches(g, before, after))
  }

  lemma Unchanged(seen: Db, db: Db)
    requires Ready(seen, db)
    ensures Sound(db) && Later(db, db)
  {
  }

  lemma SameAttachmentApp(seen: Db, db: Db, k: Kind, id: Id)
    requires Ready(seen, db) && (k, id) in seen.attachments && (k, id) in db.attachments
    ensures db.attachments[(k, id)].app == seen.attachments[(k, id)].app
  {
    hide Sound, Later;
    ReadyFacts(seen, db);
  }

  /** Ids of rows that are there have been issued. */
  lemma IdsIssued(db: Db)
    requires Sound(db)
    ensures forall t | t in db.attachments :: t in db.attachmentOwner
    ensures forall a | a in db.apps :: a in db.appOwner
  {
  }

  lemma EndedGroup(before: Db, g: Id, outcome: Option<Finished>, after: Db)
    requires g in before.groups && after == EndedRows(before, g, outcome)
    ensures g in after.groups && !after.groups[g].busy
    ensures outcome.Some? ==> after.groups[g].deployed == Some(outcome.value.stack)
    ensures outcome.Some? && !outcome.value.ending.FellBack? ==> PendingApps(after, g) == {}
  {
  }

  lemma AttachDone(seen: Db, before: Db, g: Id, k: Kind, id: Id, row: Attachment, after: Db, reply: Reply)
    requires Ready(seen, before) && Settled(AttachedTo(seen, before, g, k, id, row), before, after, reply)
    ensures Changed(g, before, after, reply)
  {
    hide AttachedTo, Sound, Later, Touches, KeepGroup, KeepApp, Owned, Tidy, SourcesFit, DomainsFit, Homes, Ready;
    Unchanged(seen, before);
    ReadyFacts(seen, before);
    if reply.Ok? {
      RequestOrderly(seen, before, Request.Attach(g, k, id, row), after);
      AttachTouches(seen, before, g, k, id, row, after);
    }
  }

  lemma DetachDone(seen: Db, before: Db, g: Id, k: Kind, app: Id, id: Id, after: Db, reply: Reply)
    requires Ready(seen, before) && Settled(DetachedFrom(seen, before, g, k, app, id), before, after, reply)
    ensures Changed(g, before, after, reply)
  {
    hide DetachedFrom, Sound, Later, Touches, KeepGroup, KeepApp, Owned, Tidy, SourcesFit, DomainsFit, Homes, Ready;
    Unchanged(seen, before);
    ReadyFacts(seen, before);
    if reply.Ok? {
      RequestOrderly(seen, before, Request.Detach(g, k, app, id), after);
      DetachTouches(seen, before, g, k, app, id, after);
    }
  }

  lemma CreateAppDone(seen: Db, before: Db, g: Id, app: Id, spec: Spec, state: RuntimeState, after: Db, reply: Reply)
    requires Ready(seen, before) && Settled(CreatedApp(seen, before, g, app, spec, state), before, after, reply)
    ensures Changed(g, before, after, reply)
  {
    hide CreatedApp, Sound, Later, Touches, KeepGroup, KeepApp, Owned, Tidy, SourcesFit, DomainsFit, Homes, Ready;
    Unchanged(seen, before);
    ReadyFacts(seen, before);
    if reply.Ok? {
      RequestOrderly(seen, before, CreateApp(g, app, spec, state), after);
      CreateAppTouches(seen, before, g, app, spec, state, after);
    }
  }

  lemma UpdateAppDone(seen: Db, before: Db, g: Id, app: Id, change: Spec -> Spec, state: Option<RuntimeState>,
                      after: Db, reply: Reply)
    requires Ready(seen, before) && Settled(UpdatedApp(seen, before, g, app, change, state), before, after, reply)
    ensures Changed(g, before, after, reply)
  {
    hide UpdatedApp, Sound, Later, Touches, KeepGroup, KeepApp, Owned, Tidy, SourcesFit, DomainsFit, Homes, Ready;
    Unchanged(seen, before);
    ReadyFacts(seen, before);
    if reply.Ok? {
      RequestOrderly(seen, before, UpdateApp(g, app, change, state), after);
      UpdateAppTouches(seen, before, g, app, change, state, after);
    }
  }

  lemma MarkDone(seen: Db, before: Db, g: Id, app: Id, after: Db, reply: Reply)
    requires Ready(seen, before) && Settled(MarkedForDeletion(seen, before, g, app), before, after, reply)
    requires AppIn(seen, g, app) && !seen.apps[app].pendingDeletion
    ensures Changed(g, before, after, reply)
  {
    hide MarkedForDeletion, Sound, Later, Touches, KeepGroup, KeepApp, Owned, Tidy, SourcesFit, DomainsFit, Homes, Ready;
    Unchanged(seen, before);
    ReadyFacts(seen, before);
    if reply.Ok? {
      RequestOrderly(seen, before, MarkForDeletion(g, app), after);
      MarkForDeletionTouches(seen, before, g, app, after);
    }
  }

  lemma DeleteEndpointDone(seen: Db, before: Db, g: Id, app: Id, id: Id, after: Db, reply: Reply)
    requires Ready(seen, before) && Settled(DeletedEndpoint(seen, before, g, app, id), before, after, reply)
    ensures Changed(g, before, after, reply)
  {
    hide DeletedEndpoint, Sound, Later, Touches, KeepGroup, KeepApp, Owned, Tidy, SourcesFit, DomainsFit, Homes, Ready;
    Unchanged(seen, before);
    ReadyFacts(seen, before);
    if reply.Ok? {
      RequestOrderly(seen, before, DeleteEndpoint(g, app, id), after);
      DeleteEndpointTouches(seen, before, g, app, id, after);
    }
  }

  lemma DeleteGroupDone(seen: Db, before: Db, g: Id, after: Db, reply: Reply)
    requires Ready(seen, before) && Settled(DeletedGroup(seen, before, g), before, after, reply)
    ensures Changed(g, before, after, reply)
  {
    hide DeletedGroup, Sound, Later, Touches, KeepGroup, KeepApp, Owned, Tidy, SourcesFit, DomainsFit, Homes, Ready;
    Unchanged(seen, before);
    ReadyFacts(seen, before);
    if reply.Ok? {
      RequestOrderly(seen, before, DeleteGroup(g), after);
      DeleteGroupTouches(seen, before, g, after);
    }
  }

  /** A request that decides by what it has read whether to mark a group: whatever it decided, the
      tables stay sound, and the stamps of all groups are kept exactly if it is fresh. */
  ghost predicate Decided(seen: Db, before: Db, r: Request, after: Db, reply: Reply) {
    && Sound(after) && Later(before, after)
    && (reply.Err? ==> after == before)
    && (reply.Ok? ==> (AllFaithful(before, after) <==> Fresh(seen, before, r)))
  }

  lemma DecidedDone(seen: Db, before: Db, r: Request, after: Db, reply: Reply)
    requires Ready(seen, before) && Settled(Apply(seen, before, r), before, after, reply)
    requires !r.EndDeployment? && !r.DiscardDraft?
    ensures Decided(seen, before, r, after, reply)
  {
    Unchanged(seen, before);
    hide Apply, Sound, Later, Fresh, AllFaithful;
    if reply.Ok? {
      RequestOrderly(seen, before, r, after);
      StampKeptExactlyIfFresh(seen, before, r, before, after);
    }
  }

  lemma UpdateWrites(seen: Db, before: Db, g: Id, k: Kind, id: Id, rename: Option<string>, value: Option<string>, after: Db)
    requires UpdatedResource(seen, before, g, k, id, rename, value) == Ok(after)
    ensures (k, id) in seen.resources && (k, id) in before.resources
    ensures var row := UpdatedRow(k, seen.resources[(k, id)], before.resources[(k, id)], rename, value);
      after == before.(resources := before.resources[(k, id) := row], groups := after.groups)
  {
    hide UpdatedRow, Changes, Attached, MarkAndCheck, Checked;
    var row := UpdatedRow(k, seen.resources[(k, id)], before.resources[(k, id)], rename, value);
    var written := before.(resources := before.resources[(k, id) := row]);
    if Checked(written) == Ok(after) {
      CheckedIs(written, after);
    } else {
      CommittedSoundly(written, g, after);
    }
  }

  /** What an update that commits leaves in the row, and that no other row differs. */
  lemma UpdateLeaves(seen: Db, before: Db, g: Id, k: Kind, id: Id, rename: Option<string>, value: Option<string>,
                     after: Db, reply: Reply)
    requires Settled(UpdatedResource(seen, before, g, k, id, rename, value), before, after, reply) && reply.Ok?
    ensures (k, id) in after.resources && (k, id) in before.resources
    ensures after == before.(resources := before.resources[(k, id) := after.resources[(k, id)]], groups := after.groups)
    ensures rename.Some? ==> after.resources[(k, id)].name == rename.value
    ensures value.Some? && !k.Secret? ==> after.resources[(k, id)].content == value.value
    ensures value.Some? && k.Secret? ==> after.resources[(k, id)].version == before.resources[(k, id)].version + 1
  {
    hide UpdatedResource;
    UpdateWrites(seen, before, g, k, id, rename, value, after);
  }

  lemma EndDone(before: Db, g: Id, outcome: Option<Finished>, after: Db, reply: Reply)
    requires Sound(before) && Settled(Ended(before, g, outcome), before, after, reply)
    ensures Sound(after) && Later(before, after)
    ensures reply.Ok? ==> AllFaithful(before, after) && g in before.groups && after == EndedRows(before, g, outcome)
    ensures reply.Ok? && outcome.Some? ==> g in after.groups
    ensures reply.Ok? && outcome.Some? ==>
      (after.groups[g].hasPendingChanges <==> !outcome.value.ending.Deployed? || after.groups[g].revision != outcome.value.source)
  {
    hide Constraints, Ended, AllFaithful, EndedRows;
    if reply.Ok? {
      EndRequest(before, g, outcome, after);
      EndKeeps(before, g, outcome, after);
    }
  }

  /** The draft is the deployed configuration again, up to secret versions, and its marker says
      whether those differ. */
  ghost predicate Restored(before: Db, g: Id, deployed: Option<Stack>, after: Db) {
    && deployed.Some? && g in before.groups && g in after.groups
    && WithoutSecretVersions(BuildStack(after, g)) == WithoutSecretVersions(deployed.value)
    && after.groups[g].revision == before.groups[g].revision + 1
    && (after.groups[g].hasPendingChanges <==> BuildStack(after, g) != deployed.value)
  }

  lemma DiscardDone(seen: Db, before: Db, g: Id, b: Db, after: Db, reply: Reply)
    requires Ready(seen, before) && Settled(Discarded(seen, before, g), before, after, reply) && reply.Ok?
    requires g in seen.groups && seen.groups[g].hasPendingChanges && BuiltFrom(seen, g, b, before)
    ensures Sound(after) && Later(before, after) && Restored(before, g, seen.groups[g].deployed, after)
    ensures AllFaithful(before, after) <==> Fresh(seen, before, Request.DiscardDraft(g))
  {
    hide Constraints, DiscardTx, AllFaithful, Fresh;
    DiscardedSteps(seen, before, g, BuildStack(b, g), after);
    DiscardRequest(b, before, g, after);
    DiscardIsARoundTrip(b, before, g);
    StampKeptExactlyIfFresh(seen, before, Request.DiscardDraft(g), b, after);
  }

  lemma NoDiscardNeeded(seen: Db, db: Db, g: Id)
    requires Ready(seen, db) && g in seen.groups && !seen.groups[g].hasPendingChanges
    ensures AllFaithful(db, db) && Fresh(seen, db, Request.DiscardDraft(g))
  {
  }

  /** Marks the groups one after the other. */
  function MarkEach(db: Db, ids: seq<Id>): Tx {
    if ids == [] then Ok(db) else
      var before :- MarkEach(db, ids[..|ids| - 1]);
      var g := ids[|ids| - 1];
      if g !in before.groups then Err(RowMissing) else Ok(Marked(before, g))
  }

  lemma {:induction false} MarkStops(db: Db, ids: seq<Id>, n: nat)
    requires n <= |ids| && MarkEach(db, ids[..n]).Err?
    ensures MarkEach(db, ids) == MarkEach(db, ids[..n])
  {
    if n < |ids| {
      assert ids[..|ids| - 1][..n] == ids[..n];
      MarkStops(db, ids[..|ids| - 1], n);
    } else {
      assert ids[..n] == ids;
    }
  }

  lemma MarkOne(db: Db, holder: Option<Id>)
    ensures MarkEach(db, if holder.Some? then [holder.value] else []) == MarkHolder(db, holder)
  {
    if holder.Some? {
      assert [holder.value][..0] == [];
      assert MarkEach(db, [holder.value][..0]) == Ok(db);
    }
  }

  lemma MarkBoth(db: Db, current: Option<Id>, next: Option<Id>, ids: seq<Id>)
    requires ids == (if current.Some? then [current.value] else []) +
                    (if next.Some? && next != current then [next.value] else [])
    ensures MarkEach(db, ids) ==
      match MarkHolder(db, current)
      case Err(e) => Err(e)
      case Ok(first) => MarkHolder(first, if next == current then None else next)
  {
    MarkOne(db, current);
    if current.Some? && next.Some? && next != current {
      assert ids[..1] == [current.value];
    } else {
      MarkOne(db, next);
      assert ids == if current.Some? then [current.value] else if next.Some? then [next.value] else [];
    }
  }

  method MarkGroups(tx: Db, ids: seq<Id>) returns (r: Tx)
    ensures r == MarkEach(tx, ids)
  {
    var marked := tx;
    for i := 0 to |ids|
      invariant MarkEach(tx, ids[..i]) == Ok(marked)
    {
      assert ids[..i + 1][..i] == ids[..i];
      if ids[i] !in marked.groups {
        MarkStops(tx, ids, i + 1);
        return Err(RowMissing);
      }
      marked := Marked(marked, ids[i]);
    }
    assert ids[..|ids|] == ids;
    r := Ok(marked);
  }

  class Store {
    var db: Db

    constructor (db: Db)
      ensures this.db == db
    {
      this.db := db;
    }

    /** The last two statements of most transactions. */
    method MarkAndCommit(tx: Db, g: Id) returns (reply: Reply)
      modifies this
      ensures Settled(MarkAndCheck(tx, g), old(db), db, reply)
    {
      hide Constraints;
      if g !in tx.groups { return Err(RowMissing); }
      var group := tx.groups[g];
      group := group.(hasPendingChanges := true, revision := group.revision + 1);
      reply := Commit(tx.(groups := tx.groups[g := group]));
    }

    method Commit(tx: Db) returns (reply: Reply)
      modifies this
      ensures Settled(Checked(tx), old(db), db, reply)
    {
      hide Constraints;
      if !Constraints(tx) { return Err(ConstraintViolated); }
      db := tx;
      reply := Ok(());
    }

    method UpdateResource(seen: Db, g: Id, k: Kind, id: Id, rename: Option<string>, value: Option<string>)
      returns (reply: Reply)
      requires Ready(seen, db)
      modifies this
      ensures Settled(Apply(seen, old(db), Request.UpdateResource(g, k, id, rename, value)), old(db), db, reply)
      ensures Decided(seen, old(db), Request.UpdateResource(g, k, id, rename, value), db, reply)
      ensures reply.Ok? ==> (k, id) in db.resources && (k, id) in old(db).resources
      ensures reply.Ok? ==> db == old(db).(resources := old(db).resources[(k, id) := db.resources[(k, id)]], groups := db.groups)
      ensures reply.Ok? && rename.Some? ==> db.resources[(k, id)].name == rename.value
      ensures reply.Ok? && value.Some? && !k.Secret? ==> db.resources[(k, id)].content == value.value
      ensures reply.Ok? && value.Some? && k.Secret? ==> db.resources[(k, id)].version == old(db).resources[(k, id)].version + 1
    {
      ResourceRequestIs(seen, db, Request.UpdateResource(g, k, id, rename, value));
      hide Apply, Constraints, Ready, Sound, Later, Touches, Fresh, AllFaithful, Decided;
      reply := UpdateRow(seen, g, k, id, rename, value);
      DecidedDone(seen, old(db), Request.UpdateResource(g, k, id, rename, value), db, reply);
      if reply.Ok? { UpdateLeaves(seen, old(db), g, k, id, rename, value, db, reply); }
    }

    /** The statements of an update. */
    method UpdateRow(seen: Db, g: Id, k: Kind, id: Id, rename: Option<string>, value: Option<string>)
      returns (reply: Reply)
      modifies this
      ensures Settled(UpdatedResource(seen, old(db), g, k, id, rename, value), old(db), db, reply)
    {
      hide Constraints, Attached;
      if !ResourceIn(seen, g, k, id) { return Err(NotFound); }
      var existing := seen.resources[(k, id)];
      var contentChanged := Changes(k, existing, value);
      if (k, id) !in db.resources { return Err(RowMissing); }
      var row := db.resources[(k, id)];
      if rename.Some? { row := row.(name := rename.value); }
      if value.Some? && !k.Secret? { row := row.(content := value.value); }
      if contentChanged && !k.Variable? { row := row.(version := row.version + 1); }
      var tx := db.(resources := db.resources[(k, id) := row]);
      if contentChanged && Attached(seen, k, id) {
        reply := MarkAndCommit(tx, g);
      } else {
        reply := Commit(tx);
      }
    }

    method Attach(seen: Db, g: Id, k: Kind, id: Id, row: Attachment) returns (reply: Reply)
      requires Ready(seen, db)
      modifies this
      ensures Settled(Apply(seen, old(db), Request.Attach(g, k, id, row)), old(db), db, reply)
      ensures Changed(g, old(db), db, reply)
      ensures reply.Ok? ==> (k, id) !in old(db).attachments && db.attachments == old(db).attachments[(k, id) := row]
      ensures reply.Ok? ==>
        db == old(db).(attachments := db.attachments, attachmentOwner := db.attachmentOwner, groups := db.groups)
    {
      hide Constraints, Ready, Sound, Later, Touches, Fresh, AllFaithful;
      Unchanged(seen, db);
      IdsIssued(db);
      if !AppIn(seen, g, row.app) { return Err(NotFound); }
      if seen.apps[row.app].pendingDeletion { return Err(PendingDeletion); }
      if k.Volume? {
        if row.source !in seen.volumes { return Err(NotFound); }
        if row.source !in db.volumes { return Err(InUse); }
      } else if !ResourceIn(seen, g, k, row.source) {
        return Err(NotFound);
      }
      if (k, id) in db.attachmentOwner { return Err(ConstraintViolated); }
      var tx := db.(attachments := db.attachments[(k, id) := row]);
      tx := tx.(attachmentOwner := tx.attachmentOwner[(k, id) := row.app]);
      reply := MarkAndCommit(tx, g);
      AttachDone(seen, old(db), g, k, id, row, db, reply);
    }

    method Detach(seen: Db, g: Id, k: Kind, app: Id, id: Id) returns (reply: Reply)
      requires Ready(seen, db)
      modifies this
      ensures Settled(Apply(seen, old(db), Request.Detach(g, k, app, id)), old(db), db, reply)
      ensures Changed(g, old(db), db, reply)
      ensures reply.Ok? ==> (k, id) in old(db).attachments && old(db).attachments[(k, id)].app == app
      ensures reply.Ok? ==> db == old(db).(attachments := old(db).attachments - {(k, id)}, groups := db.groups)
    {
      hide Constraints, Ready, Sound, Later, Touches, Fresh, AllFaithful;
      Unchanged(seen, db);
      if !AppIn(seen, g, app) { return Err(NotFound); }
      if (k, id) !in seen.attachments || seen.attachments[(k, id)].app != app { return Err(NotFound); }
      if (k, id) !in db.attachments { return Err(RowMissing); }
      SameAttachmentApp(seen, db, k, id);
      reply := MarkAndCommit(db.(attachments := db.attachments - {(k, id)}), g);
      DetachDone(seen, old(db), g, k, app, id, db, reply);
    }

    method CreateSingleApp(seen: Db, g: Id, app: Id, spec: Spec, state: RuntimeState) returns (reply: Reply)
      requires Ready(seen, db)
      modifies this
      ensures Settled(Apply(seen, old(db), CreateApp(g, app, spec, state)), old(db), db, reply)
      ensures Changed(g, old(db), db, reply)
      ensures reply.Ok? ==> app !in old(db).apps && db.apps == old(db).apps[app := App(g, spec, state, false)]
      ensures reply.Ok? ==> db == old(db).(apps := db.apps, appOwner := db.appOwner, groups := db.groups)
    {
      hide Constraints, Ready, Sound, Later, Touches, Fresh, AllFaithful;
      Unchanged(seen, db);
      IdsIssued(db);
      if g !in seen.groups { return Err(NotFound); }
      if g !in db.groups { return Err(NotFound); }
      if app in db.appOwner { return Err(ConstraintViolated); }
      var tx := db.(apps := db.apps[app := App(g, spec, state, false)]);
      tx := tx.(appOwner := tx.appOwner[app := g]);
      reply := MarkAndCommit(tx, g);
      CreateAppDone(seen, old(db), g, app, spec, state, db, reply);
    }

    method UpdateSingleApp(seen: Db, g: Id, app: Id, change: Spec -> Spec, state: Option<RuntimeState>)
      returns (reply: Reply)
      requires Ready(seen, db)
      modifies this
      ensures Settled(Apply(seen, old(db), UpdateApp(g, app, change, state)), old(db), db, reply)
      ensures Changed(g, old(db), db, reply)
      ensures reply.Ok? ==> app in old(db).apps && Live(old(db), g, app) && app in db.apps && Live(db, g, app)
      ensures reply.Ok? ==> db.apps[app].spec == change(old(db).apps[app].spec)
      ensures reply.Ok? ==> db == old(db).(apps := old(db).apps[app := db.apps[app]], groups := db.groups)
    {
      hide Constraints, Ready, Sound, Later, Touches, Fresh, AllFaithful;
      Unchanged(seen, db);
      if !AppIn(seen, g, app) { return Err(NotFound); }
      if seen.apps[app].pendingDeletion { return Err(PendingDeletion); }
      if !AppIn(db, g, app) { return Err(NotFound); }
      var current := db.apps[app];
      if current.pendingDeletion { return Err(PendingDeletion); }
      var row := current.(spec := change(current.spec));
      if state.Some? { row := row.(runtimeState := state.value); }
      reply := MarkAndCommit(db.(apps := db.apps[app := row]), g);
      UpdateAppDone(seen, old(db), g, app, change, state, db, reply);
    }

    method MarkSingleAppPendingDeletion(seen: Db, g: Id, app: Id) returns (reply: Reply)
      requires Ready(seen, db)
      modifies this
      ensures Settled(Apply(seen, old(db), MarkForDeletion(g, app)), old(db), db, reply)
      ensures if AppIn(seen, g, app) && seen.apps[app].pendingDeletion then reply.Ok? && db == old(db)
              else Changed(g, old(db), db, reply) && (reply.Ok? ==> !Live(db, g, app) && app in db.apps)
      ensures reply.Ok? ==> forall a :: a != app ==> (Live(db, g, a) <==> Live(old(db), g, a))
    {
      hide Constraints, Ready, Sound, Later, Touches, Fresh, AllFaithful;
      Unchanged(seen, db);
      if !AppIn(seen, g, app) { return Err(NotFound); }
      if seen.apps[app].pendingDeletion { return Ok(()); }
      if app !in db.apps { return Err(RowMissing); }
      reply := MarkAndCommit(db.(apps := db.apps[app := db.apps[app].(pendingDeletion := true)]), g);
      MarkDone(seen, old(db), g, app, db, reply);
    }

    method DeleteHttpEndpoint(seen: Db, g: Id, app: Id, id: Id) returns (reply: Reply)
      requires Ready(seen, db)
      modifies this
      ensures Settled(Apply(seen, old(db), DeleteEndpoint(g, app, id)), old(db), db, reply)
      ensures Changed(g, old(db), db, reply)
      ensures reply.Ok? ==> db == old(db).(endpoints := old(db).endpoints - {id}, domains := db.domains, groups := db.groups)
      ensures reply.Ok? ==> db.domains.Keys == old(db).domains.Keys && forall d | d in db.domains ::
        db.domains[d].endpoint != Some(id) && (old(db).domains[d].endpoint != Some(id) ==> db.domains[d] == old(db).domains[d])
    {
      hide Constraints, Ready, Sound, Later, Touches, Fresh, AllFaithful;
      Unchanged(seen, db);
      if !AppIn(seen, g, app) { return Err(NotFound); }
      if seen.apps[app].pendingDeletion { return Err(PendingDeletion); }
      if !EndpointIn(seen, app, id) { return Err(NotFound); }
      var domains := seen.domains;
      if exists d | d in domains :: domains[d].endpoint == Some(id) { return Err(InUse); }
      if id !in db.endpoints { return Err(RowMissing); }
      var rows := db.domains;
      var freed := map d | d in rows :: if rows[d].endpoint == Some(id) then rows[d].(endpoint := None) else rows[d];
      reply := MarkAndCommit(db.(endpoints := db.endpoints - {id}, domains := freed), g);
      DeleteEndpointDone(seen, old(db), g, app, id, db, reply);
    }

    method UpdateDomain(seen: Db, d: Id, to: Option<Option<Id>>) returns (reply: Reply)
      requires Ready(seen, db)
      modifies this
      ensures Settled(Apply(seen, old(db), MoveDomain(d, to)), old(db), db, reply)
      ensures Decided(seen, old(db), MoveDomain(d, to), db, reply)
    {
      DomainRequestIs(seen, db, MoveDomain(d, to));
      hide Apply, Ready, Sound, Later, Fresh, AllFaithful, Decided, MovedDomain;
      reply := MoveRow(seen, d, to);
      DecidedDone(seen, old(db), MoveDomain(d, to), db, reply);
    }

    /** The statements of a move. */
    method MoveRow(seen: Db, d: Id, to: Option<Option<Id>>) returns (reply: Reply)
      modifies this
      ensures Settled(MovedDomain(seen, old(db), d, to), old(db), db, reply)
    {
      hide Constraints, MarkEach;
      if d !in seen.domains { return Err(NotFound); }
      var next := None;
      if to.Some? && to.value.Some? {
        next := HolderOf(seen, to.value);
        if next.None? { return Err(NotFound); }
      }
      var current := HolderOf(seen, seen.domains[d].endpoint);
      if d !in db.domains { return Err(RowMissing); }
      var row := db.domains[d];
      if to.Some? { row := row.(endpoint := to.value); }
      var tx := db.(domains := db.domains[d := row]);
      var changed := [];
      if current.Some? { changed := [current.value]; }
      if next.Some? && next.value !in changed { changed := changed + [next.value]; }
      MarkBoth(tx, current, next, changed);
      var marked := MarkGroups(tx, changed);
      if marked.Err? { return Err(marked.error); }
      reply := Commit(marked.value);
    }

    method DeleteAppGroup(seen: Db, g: Id) returns (reply: Reply)
      requires Ready(seen, db)
      modifies this
      ensures Settled(Apply(seen, old(db), DeleteGroup(g)), old(db), db, reply)
      ensures Changed(g, old(db), db, reply)
      ensures reply.Ok? ==> g in old(db).groups && !old(db).groups[g].busy && LiveApps(db, g) == {}
      ensures reply.Ok? ==> db.groups[g].deleting && db.groups[g].runtimeState.Stopped?
    {
      hide Constraints, Ready, Sound, Later, Touches, Fresh, AllFaithful;
      Unchanged(seen, db);
      if g !in seen.groups { return Err(NotFound); }
      if g !in db.groups { return Err(RowMissing); }
      if db.groups[g].busy { return Err(Busy); }
      var stopped := StoppedApps(db.apps, g);
      var group := db.groups[g];
      group := group.(deleting := true, runtimeState := Stopped, hasPendingChanges := true, revision := group.revision + 1);
      reply := Commit(db.(apps := stopped, groups := db.groups[g := group]));
      DeleteGroupDone(seen, old(db), g, db, reply);
    }

    /** The worker's transaction at the end of a deployment. */
    method EndDeployment(g: Id, outcome: Option<Finished>) returns (reply: Reply)
      requires Sound(db)
      modifies this
      ensures Settled(Apply(old(db), old(db), Request.EndDeployment(g, outcome)), old(db), db, reply)
      ensures Sound(db) && Later(old(db), db) && (reply.Err? ==> db == old(db))
      ensures reply.Ok? ==> AllFaithful(old(db), db) && g in db.groups && !db.groups[g].busy
      ensures reply.Ok? && outcome.Some? ==> db.groups[g].deployed == Some(outcome.value.stack)
      ensures reply.Ok? && outcome.Some? ==>
        (db.groups[g].hasPendingChanges <==> !outcome.value.ending.Deployed? || db.groups[g].revision != outcome.value.source)
      ensures reply.Ok? && outcome.Some? && !outcome.value.ending.FellBack? ==> PendingApps(db, g) == {}
    {
      EndOrDiscardIs(db, db, Request.EndDeployment(g, outcome));
      hide Apply, Constraints, Sound, Later, AllFaithful, PendingApps, DeleteApps;
      if g !in db.groups { return Err(RowMissing); }
      var tx := db;
      if outcome.Some? && !outcome.value.ending.FellBack? { tx := DeleteApps(tx, PendingApps(tx, g)); }
      var group := db.groups[g].(busy := false);
      if outcome.Some? {
        var done := outcome.value;
        group := group.(deployed := Some(done.stack));
        group := group.(hasPendingChanges := if done.ending.Deployed? then group.revision != done.source else true);
      }
      reply := Commit(tx.(groups := tx.groups[g := group]));
      EndDone(old(db), g, outcome, db, reply);
      if reply.Ok? { EndedGroup(old(db), g, outcome, db); }
    }

    method DiscardDraft(seen: Db, g: Id, ghost b: Db) returns (reply: Reply)
      requires Ready(seen, db) && (g in seen.groups && seen.groups[g].deployed.Some? ==> BuiltFrom(seen, g, b, db))
      modifies this
      ensures Settled(Apply(seen, old(db), Request.DiscardDraft(g)), old(db), db, reply)
      ensures Sound(db) && Later(old(db), db) && (reply.Err? ==> db == old(db))
      ensures reply.Ok? ==> g in seen.groups && (!seen.groups[g].hasPendingChanges ==> db == old(db))
      ensures reply.Ok? && seen.groups[g].hasPendingChanges ==> Restored(old(db), g, seen.groups[g].deployed, db)
      ensures reply.Ok? ==> (AllFaithful(old(db), db) <==> Fresh(seen, old(db), Request.DiscardDraft(g)))
    {
      hide Constraints;
      if g !in seen.groups { return Err(NotFound); }
      if !seen.groups[g].hasPendingChanges {
        NoDiscardNeeded(seen, db, g);
        return Ok(());
      }
      if seen.groups[g].deployed.None? { return Err(NothingDeployed); }
      if g !in db.groups { return Err(RowMissing); }
      var tx := DiscardDraftChanges(db, g, seen.groups[g].deployed.value);
      if tx.Err? { return Err(tx.error); }
      db := tx.value;
      reply := Ok(());
      DiscardDone(seen, old(db), g, b, db, reply);
    }
  }
}
