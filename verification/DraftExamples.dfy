/** When early reads are good enough, and inputs on which the stamp fails. */
module DraftExamples {
  import opened Prelude
  import opened Tables
  import opened DiscardSound
  import opened OtherGroups
  import opened Drafts
  import opened DraftSteps
  import opened DraftStamp
  import opened DraftRequests

  /** The rows that a request decides by are the same at its transaction as when it read them. */
  predicate ReadsStillHold(seen: Db, db: Db, r: Request) {
    match r
    case UpdateResource(g, k, id, rename, value) =>
      ResourceIn(seen, g, k, id) && (k, id) in db.resources ==>
        seen.resources[(k, id)] == db.resources[(k, id)] && (Attached(db, k, id) ==> Attached(seen, k, id))
    case MoveDomain(d, to) => d in seen.domains && d in db.domains ==> seen.domains[d] == db.domains[d]
    case DeleteDomain(d) => d in seen.domains && d in db.domains ==> seen.domains[d] == db.domains[d]
    case DiscardDraft(g) => false
    case _ => true
  }

  lemma UpToDateUpdate(seen: Db, db: Db, g: Id, k: Kind, id: Id, rename: Option<string>, value: Option<string>)
    requires ReadsStillHold(seen, db, UpdateResource(g, k, id, rename, value))
    ensures FreshUpdate(seen, db, g, k, id, rename, value)
  {
    assert LiveAttached(db, g, k, id) ==> Attached(db, k, id);
  }

  lemma HolderRead(seen: Db, db: Db, d: Id)
    requires KeepGroup(seen, db) && KeepApp(seen, db) && DomainsFit(seen) && Homes(seen)
    requires d in seen.domains && d in db.domains && seen.domains[d] == db.domains[d]
    ensures forall h: Id :: HeldBy(db, h, d) ==> HolderOf(seen, seen.domains[d].endpoint) == Some(h)
  {
  }

  lemma SoundHomes(db: Db)
    requires Sound(db)
    ensures DomainsFit(db) && Homes(db)
  {
  }

  /** Only an out-of-date read can break a stamp, discards aside. */
  lemma UpToDateIsFresh(seen: Db, db: Db, r: Request)
    requires Ready(seen, db) && ReadsStillHold(seen, db, r)
    ensures Fresh(seen, db, r)
  {
    ReadyFacts(seen, db);
    SoundHomes(seen);
    UpToDate(seen, db, r);
  }

  lemma UpToDate(seen: Db, db: Db, r: Request)
    requires KeepGroup(seen, db) && KeepApp(seen, db) && DomainsFit(seen) && Homes(seen) && ReadsStillHold(seen, db, r)
    ensures Fresh(seen, db, r)
  {
    match r
    case UpdateResource(g, k, id, rename, value) => UpToDateUpdate(seen, db, g, k, id, rename, value);
    case MoveDomain(d, to) => if d in seen.domains && d in db.domains { HolderRead(seen, db, d); }
    case DeleteDomain(d) => if d in seen.domains && d in db.domains { HolderRead(seen, db, d); }
    case _ =>
  }

  // ---- Inputs ---------------------------------------------------------------------------

  /** One group with one app and one variable, which the app uses if `attached`. */
  function Small(spec: Spec, attached: bool): Db {
    Db(map[1 := Group(Running, false, true, if attached then 6 else 5, false, None)],
       map[10 := App(1, spec, Running, false)],
       map[(Variable, 20) := Resource(1, "LEVEL", "old", 0)],
       {},
       if attached then map[(Variable, 30) := Attachment(10, 20, "LEVEL", false)] else map[],
       map[], map[],
       map[10 := 1], map[(Variable, 20) := 1],
       if attached then map[(Variable, 30) := 10] else map[], map[])
  }

  lemma SmallIsSound(spec: Spec, attached: bool)
    ensures Sound(Small(spec, attached))
    ensures Later(Small(spec, false), Small(spec, attached))
  {
  }

  lemma SmallFits(spec: Spec, row: Resource)
    requires row.group == 1
    ensures Constraints(Small(spec, true).(resources := map[(Variable, 20) := row]))
  {
  }

  /** The small tables after an update of the variable that does not mark the group. */
  lemma SmallUpdate(spec: Spec, attached: bool, rename: Option<string>, value: Option<string>, row: Resource)
    requires row == UpdatedRow(Variable, Small(spec, true).resources[(Variable, 20)],
                               Small(spec, true).resources[(Variable, 20)], rename, value)
    requires attached ==> value.None?
    ensures var db := Small(spec, true);
      Apply(Small(spec, attached), db, UpdateResource(1, Variable, 20, rename, value)) ==
        Ok(db.(resources := map[(Variable, 20) := row]))
  {
    var db := Small(spec, true);
    assert db.resources[(Variable, 20) := row] == map[(Variable, 20) := row];
    SmallFits(spec, row);
    hide Constraints;
  }

  /** The attachment that takes the first of the small tables to the second. */
  lemma AttachedMeanwhile(spec: Spec)
    ensures Apply(Small(spec, false), Small(spec, false), Attach(1, Variable, 30, Attachment(10, 20, "LEVEL", false))) ==
      Ok(Small(spec, true))
  {
    var db, more := Small(spec, false), Small(spec, true);
    SmallFits(spec, more.resources[(Variable, 20)]);
    assert more.(resources := map[(Variable, 20) := more.resources[(Variable, 20)]]) == more;
    hide Constraints;
    assert db.groups[1 := Bump(db.groups[1])] == more.groups;
    assert map[][(Variable, 30) := Attachment(10, 20, "LEVEL", false)] == more.attachments;
    assert map[][(Variable, 30) := 10] == more.attachmentOwner;
  }

  /** The variable was read before it was attached: the new value changes what a deployment would
      run, and the revision stays. */
  lemma StaleUpdateBreaksTheStamp(spec: Spec)
    ensures var seen, db := Small(spec, false), Small(spec, true);
      var tx := Apply(seen, db, UpdateResource(1, Variable, 20, None, Some("new")));
      && Apply(seen, seen, Attach(1, Variable, 30, Attachment(10, 20, "LEVEL", false))) == Ok(db)
      && Ready(seen, db) && tx.Ok? && 1 in tx.value.groups
      && tx.value.groups[1].revision == db.groups[1].revision && ContentOf(tx.value, 1) != ContentOf(db, 1)
  {
    AttachedMeanwhile(spec);
    SmallIsSound(spec, false);
    SmallIsSound(spec, true);
    SmallUpdate(spec, false, None, Some("new"), Resource(1, "LEVEL", "new", 0));
    var db := Small(spec, true);
    var y := db.(resources := map[(Variable, 20) := Resource(1, "LEVEL", "new", 0)]);
    ValueShows(db, y);
  }

  lemma ValueShows(x: Db, y: Db)
    requires Live(x, 1, 10) && Live(y, 1, 10) && x.attachments == y.attachments && (Variable, 30) in x.attachments
    requires x.attachments[(Variable, 30)].app == 10
    requires Payload(x, Variable, x.attachments[(Variable, 30)].source).1 != Payload(y, Variable, x.attachments[(Variable, 30)].source).1
    ensures ContentOf(x, 1) != ContentOf(y, 1)
  {
    assert ContentOf(x, 1).attachments[(Variable, 30)] != ContentOf(y, 1).attachments[(Variable, 30)];
  }

  /** A rename does not mark the group, although the configuration shows the name of a variable. */
  lemma RenameChangesTheConfiguration(spec: Spec)
    ensures var db := Small(spec, true);
      var tx := Apply(db, db, UpdateResource(1, Variable, 20, Some("DEPTH"), None));
      && tx.Ok? && 1 in tx.value.groups && tx.value.groups[1].revision == db.groups[1].revision
      && BuildStack(tx.value, 1) != BuildStack(db, 1)
  {
    var db := Small(spec, true);
    SmallUpdate(spec, true, Some("DEPTH"), None, Resource(1, "DEPTH", "old", 0));
    NameShows(db, db.(resources := map[(Variable, 20) := Resource(1, "DEPTH", "old", 0)]));
  }

  lemma NameShows(x: Db, y: Db)
    requires 1 in x.groups && 1 in y.groups && x.apps == y.apps && x.attachments == y.attachments
    requires Live(x, 1, 10) && (Variable, 30) in x.attachments && x.attachments[(Variable, 30)].app == 10
    requires Payload(x, Variable, x.attachments[(Variable, 30)].source).0 != Payload(y, Variable, x.attachments[(Variable, 30)].source).0
    ensures BuildStack(x, 1) != BuildStack(y, 1)
  {
    assert LiveApps(x, 1) == LiveApps(y, 1) && AttachmentsOf(x, 10, Variable) == AttachmentsOf(y, 10, Variable);
    var apps := Ordered(LiveApps(x, 1));
    assert 10 in LiveApps(x, 1);
    var i :| 0 <= i < |apps| && apps[i] == 10;
    var ids := Ordered(AttachmentsOf(x, 10, Variable));
    assert 30 in AttachmentsOf(x, 10, Variable) by { assert (Variable, 30).1 == 30; }
    var j :| 0 <= j < |ids| && ids[j] == 30;
    assert BuildStack(x, 1).apps[i].variables[j].name != BuildStack(y, 1).apps[i].variables[j].name;
  }
}
