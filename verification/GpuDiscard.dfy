/**
 The base discard's decision about dedicated GPUs: which devices of a group are released, and
 what the deployment history has to show first. A GPU is never released on missing evidence.
 */
module GpuDiscard {
  import opened Prelude

  type Id = string

  datatype Json = Null | Bool(truth: bool) | Num(num: int) | Text(text: string) | List(items: seq<Json>) | Object(fields: map<string, Json>)

  /** How stored text is decoded; `None` when it is no JSON. Absent and empty text never is. */
  type Decoder = string -> Option<Json>

  function Field(j: Json, name: string): Option<Json> {
    if j.Object? && name in j.fields then Some(j.fields[name]) else None
  }

  function AppsIn(j: Json): Option<seq<Json>> {
    var apps := Field(j, "singleApps");
    if apps.Some? && apps.value.List? then Some(apps.value.items) else None
  }

  /** The apps of one persisted configuration, if it can be read. */
  function ReadApps(config: Option<string>, decode: Decoder): Option<seq<Json>> {
    if config.None? || config.value == "" then None else
    var j := decode(config.value);
    if j.None? then None else AppsIn(j.value)
  }

  function IdOf(app: Json): Option<Id> {
    var id := Field(app, "id");
    if id.Some? && id.value.Text? then Some(id.value.text) else None
  }

  /** The configuration can be read, and all its apps have ids. */
  predicate Readable(config: Option<string>, decode: Decoder) {
    ReadApps(config, decode).Some? && forall a | a in ReadApps(config, decode).value :: IdOf(a).Some?
  }

  predicate Mentions(config: Option<string>, decode: Decoder, id: Id) {
    ReadApps(config, decode).Some? && exists a | a in ReadApps(config, decode).value :: IdOf(a) == Some(id)
  }

  /** The entry of an app shows that it ran without a GPU. */
  predicate WithoutGpu(app: Json) {
    var resources := Field(app, "resources");
    && resources.Some? && Field(resources.value, "gpu") == Some(Num(0))
    && (Field(resources.value, "gpuUuid").None? || Field(resources.value, "gpuUuid") == Some(Null))
  }

  predicate NeverWithGpu(config: Option<string>, decode: Decoder, ids: set<Id>) {
    ReadApps(config, decode).Some? ==>
      forall a | a in ReadApps(config, decode).value :: IdOf(a).Some? && IdOf(a).value in ids ==> WithoutGpu(a)
  }

  // ---- The two assertions about history -----------------------------------------------------

  /** No configuration mentions any of the apps. */
  ghost predicate NoHistory(ids: set<Id>, history: seq<Option<string>>, decode: Decoder) {
    ids == {} || forall h :: h in history ==> Readable(h, decode) && forall id :: id in ids ==> !Mentions(h, decode, id)
  }

  /** Every app is mentioned, and wherever it is, without a GPU. */
  ghost predicate CpuHistory(ids: set<Id>, history: seq<Option<string>>, decode: Decoder) {
    ids == {} ||
      ((forall h :: h in history ==> Readable(h, decode) && NeverWithGpu(h, decode, ids)) &&
       (forall id :: id in ids ==> exists h :: h in history && Mentions(h, decode, id)))
  }

  /** Returns instead of throwing: `false` stands for the conflict. */
  method AssertNoDeploymentHistory(appIds: seq<Id>, history: seq<Option<string>>, decode: Decoder) returns (ok: bool)
    ensures ok <==> NoHistory((set id | id in appIds), history, decode)
  {
    var claimed := set id | id in appIds;
    if claimed == {} { return true; }
    for i := 0 to |history|
      invariant forall j :: 0 <= j < i ==> Readable(history[j], decode) && forall id :: id in claimed ==> !Mentions(history[j], decode, id)
    {
      var apps := ReadApps(history[i], decode);
      assert history[i] in history;
      if apps.None? { return false; }
      for k := 0 to |apps.value|
        invariant forall j :: 0 <= j < k ==> IdOf(apps.value[j]).Some? && IdOf(apps.value[j]).value !in claimed
      {
        var id := IdOf(apps.value[k]);
        assert apps.value[k] in apps.value;
        if id.None? { return false; }
        if id.value in claimed {
          assert Mentions(history[i], decode, id.value);
          return false;
        }
      }
    }
    ok := true;
  }

  method AssertNeverAttemptedGpu(appIds: seq<Id>, history: seq<Option<string>>, decode: Decoder) returns (ok: bool)
    ensures ok <==> CpuHistory((set id | id in appIds), history, decode)
  {
    var claimed := set id | id in appIds;
    if claimed == {} { return true; }
    if history == [] {
      var id :| id in claimed;
      return false;
    }
    var observed: set<Id> := {};
    for i := 0 to |history|
      invariant observed <= claimed
      invariant forall id :: id in observed ==> exists h :: h in history && Mentions(h, decode, id)
      invariant forall j :: 0 <= j < i ==> Readable(history[j], decode) && NeverWithGpu(history[j], decode, claimed)
      invariant forall j, id :: 0 <= j < i && id in claimed && Mentions(history[j], decode, id) ==> id in observed
    {
      var more, fine := Observe(history[i], decode, claimed, observed);
      assert history[i] in history;
      if !fine { return false; }
      observed := more;
    }
    if observed == claimed {
      ok := true;
    } else {
      SmallerWithin(observed, claimed);
      ok := false;
    }
    assert ok <==> |observed| == |claimed|;
  }

  /** One configuration: the apps it mentions are added to those observed. */
  method Observe(config: Option<string>, decode: Decoder, claimed: set<Id>, before: set<Id>) returns (observed: set<Id>, ok: bool)
    requires before <= claimed
    ensures ok <==> Readable(config, decode) && NeverWithGpu(config, decode, claimed)
    ensures ok ==> forall id :: id in observed <==> id in before || (id in claimed && Mentions(config, decode, id))
  {
    observed := before;
    var apps := ReadApps(config, decode);
    if apps.None? { return observed, false; }
    for k := 0 to |apps.value|
      invariant forall j :: 0 <= j < k ==> IdOf(apps.value[j]).Some?
      invariant forall j :: 0 <= j < k && IdOf(apps.value[j]).value in claimed ==>
                  WithoutGpu(apps.value[j]) && IdOf(apps.value[j]).value in observed
      invariant before <= observed
      invariant forall id :: id in observed ==> id in before || (id in claimed && Mentions(config, decode, id))
    {
      var app := apps.value[k];
      assert app in apps.value;
      var id := IdOf(app);
      if id.None? { return observed, false; }
      if id.value in claimed {
        assert Mentions(config, decode, id.value);
        observed := observed + {id.value};
        if !WithoutGpu(app) { return observed, false; }
      }
    }
    ok := true;
  }

  lemma SmallerWithin<T>(a: set<T>, b: set<T>)
    requires a <= b && a != b
    ensures |a| < |b|
  {
    var x :| x in b && x !in a;
    NoLarger(a, b - {x});
  }

  lemma {:induction false} NoLarger<T>(a: set<T>, b: set<T>)
    requires a <= b
    ensures |a| <= |b|
    decreases a
  {
    if a != {} {
      var x :| x in a;
      NoLarger(a - {x}, b - {x});
    }
  }

  // ---- Releasing devices ------------------------------------------------------------------------

  datatype SnapshotApp = SnapshotApp(id: Id, gpu: int)

  datatype Failure = AllocationMissing | CleanupRequired

  /** Devices by UUID, with the app that holds each. No app holds two. */
  type Devices = map<string, Option<Id>>

  predicate OneEach(devices: Devices) {
    forall d, e | d in devices && e in devices && devices[d].Some? && devices[d] == devices[e] :: d == e
  }

  function Holders(devices: Devices, apps: set<Id>): set<Id> {
    set d | d in devices && devices[d].Some? && devices[d].value in apps :: devices[d].value
  }

  function SnapshotIds(snapshot: seq<SnapshotApp>): set<Id> {
    set s | s in snapshot :: s.id
  }

  function Freed(devices: Devices, gone: set<Id>): Devices {
    map d | d in devices :: if devices[d].Some? && devices[d].value in gone then None else devices[d]
  }

  /** Apps that are only in the draft and hold a device. */
  function DraftReleases(groupApps: set<Id>, snapshot: seq<SnapshotApp>, devices: Devices): set<Id> {
    Holders(devices, groupApps) - SnapshotIds(snapshot)
  }

  /** Deployed apps without a GPU that hold one in the draft. */
  function ExistingReleases(groupApps: set<Id>, snapshot: seq<SnapshotApp>, devices: Devices): set<Id> {
    set s | s in snapshot && s.gpu == 0 && s.id in Holders(devices, groupApps) :: s.id
  }

  function Released(groupApps: set<Id>, snapshot: seq<SnapshotApp>, devices: Devices): set<Id> {
    DraftReleases(groupApps, snapshot, devices) + ExistingReleases(groupApps, snapshot, devices)
  }

  predicate AllocationsKept(groupApps: set<Id>, snapshot: seq<SnapshotApp>, devices: Devices) {
    forall s | s in snapshot :: s.gpu > 0 ==> s.id in Holders(devices, groupApps)
  }

  /** What lets the GPU part of the discard pass. */
  ghost predicate Releasable(groupApps: set<Id>, snapshot: seq<SnapshotApp>, devices: Devices,
                             history: seq<Option<string>>, decode: Decoder) {
    && AllocationsKept(groupApps, snapshot, devices)
    && NoHistory(DraftReleases(groupApps, snapshot, devices), history, decode)
    && CpuHistory(ExistingReleases(groupApps, snapshot, devices), history, decode)
  }

  /** Apps in the order of the snapshot that are to be released. */
  method CollectExisting(snapshot: seq<SnapshotApp>, holders: set<Id>) returns (ids: seq<Id>)
    ensures (set id | id in ids) == (set s | s in snapshot && s.gpu == 0 && s.id in holders :: s.id)
  {
    ids := [];
    for i := 0 to |snapshot|
      invariant forall id | id in ids :: exists s | s in snapshot :: s.gpu == 0 && s.id in holders && s.id == id
      invariant forall j | 0 <= j < i :: snapshot[j].gpu == 0 && snapshot[j].id in holders ==> snapshot[j].id in ids
    {
      assert snapshot[i] in snapshot;
      if snapshot[i].gpu == 0 && snapshot[i].id in holders { ids := ids + [snapshot[i].id]; }
    }
  }

  /** `draftOnly` lists the apps of the group that the snapshot does not have. */
  method ReleaseGpus(groupApps: set<Id>, draftOnly: seq<Id>, snapshot: seq<SnapshotApp>, devices: Devices,
                     history: seq<Option<string>>, decode: Decoder)
    returns (r: Result<Devices, Failure>)
    requires (set id | id in draftOnly) == groupApps - SnapshotIds(snapshot)
    ensures r.Ok? <==> Releasable(groupApps, snapshot, devices, history, decode)
    ensures r.Ok? ==> r.value == Freed(devices, Released(groupApps, snapshot, devices))
    ensures r == Err(AllocationMissing) <==> !AllocationsKept(groupApps, snapshot, devices)
  {
    var holders := Holders(devices, groupApps);
    if exists s | s in snapshot :: s.gpu > 0 && s.id !in holders { return Err(AllocationMissing); }
    var releaseDraft := [];
    for i := 0 to |draftOnly|
      invariant forall id :: id in releaseDraft <==> id in draftOnly[..i] && id in holders
    {
      assert draftOnly[..i + 1] == draftOnly[..i] + [draftOnly[i]];
      if draftOnly[i] in holders { releaseDraft := releaseDraft + [draftOnly[i]]; }
    }
    assert draftOnly[..|draftOnly|] == draftOnly;
    var releaseExisting := CollectExisting(snapshot, holders);
    assert holders <= groupApps;
    ghost var drafts := set id | id in draftOnly;
    assert drafts == groupApps - SnapshotIds(snapshot);
    forall id ensures id in releaseDraft <==> id in DraftReleases(groupApps, snapshot, devices) {
      assert id in drafts <==> id in draftOnly;
    }
    assert (set id | id in releaseDraft) == DraftReleases(groupApps, snapshot, devices);
    assert (set id | id in releaseExisting) == ExistingReleases(groupApps, snapshot, devices);
    if releaseDraft == [] && releaseExisting == [] {
      assert DraftReleases(groupApps, snapshot, devices) == {} && ExistingReleases(groupApps, snapshot, devices) == {};
      assert Freed(devices, {} + {}) == devices;
      return Ok(devices);
    }
    var fine := AssertNoDeploymentHistory(releaseDraft, history, decode);
    if !fine { return Err(CleanupRequired); }
    fine := AssertNeverAttemptedGpu(releaseExisting, history, decode);
    if !fine { return Err(CleanupRequired); }
    r := Ok(Freed(devices, (set id | id in releaseDraft) + (set id | id in releaseExisting)));
  }

  // ---- After the discard ---------------------------------------------------------------------------

  predicate CountsGpus(snapshot: seq<SnapshotApp>) {
    forall s | s in snapshot :: s.gpu >= 0
  }

  function GpuApps(snapshot: seq<SnapshotApp>): set<Id> {
    set s | s in snapshot && s.gpu > 0 :: s.id
  }

  function CpuApps(snapshot: seq<SnapshotApp>): set<Id> {
    set s | s in snapshot && s.gpu == 0 :: s.id
  }

  lemma HoldersLeft(devices: Devices, groupApps: set<Id>, gone: set<Id>)
    ensures Holders(Freed(devices, gone), groupApps) == Holders(devices, groupApps) - gone
  {
    var after := Freed(devices, gone);
    forall id ensures id in Holders(after, groupApps) <==> id in Holders(devices, groupApps) && id !in gone {
      if id in Holders(devices, groupApps) && id !in gone {
        var d :| d in devices && devices[d].Some? && devices[d].value in groupApps && devices[d].value == id;
        assert after[d] == devices[d];
      }
      if id in Holders(after, groupApps) {
        var d :| d in after && after[d].Some? && after[d].value in groupApps && after[d].value == id;
        assert devices[d] == after[d];
      }
    }
  }

  lemma AllKept(groupApps: set<Id>, snapshot: seq<SnapshotApp>, devices: Devices,
                history: seq<Option<string>>, decode: Decoder)
    requires Releasable(groupApps, snapshot, devices, history, decode)
    ensures GpuApps(snapshot) <= Holders(devices, groupApps)
    ensures Released(groupApps, snapshot, devices) <= groupApps
  {
  }

  lemma OthersStay(devices: Devices, groupApps: set<Id>, gone: set<Id>)
    requires gone <= groupApps
    ensures var after := Freed(devices, gone);
      && (forall d | d in devices && devices[d].Some? && devices[d].value !in groupApps :: after[d] == devices[d])
      && (OneEach(devices) ==> OneEach(after))
  {
  }

  /** Once the draft-only apps are gone, the apps of the group that hold a device are those that every
      entry of the snapshot gives a GPU: exactly the deployed ones with a GPU, as long as no app has an
      entry with one and an entry without. No device of another group has changed hands. */
  lemma HoldersAreDeployedGpuApps(groupApps: set<Id>, snapshot: seq<SnapshotApp>, devices: Devices,
                                  history: seq<Option<string>>, decode: Decoder)
    requires Releasable(groupApps, snapshot, devices, history, decode) && CountsGpus(snapshot)
    ensures var after := Freed(devices, Released(groupApps, snapshot, devices));
      && Holders(after, groupApps) == GpuApps(snapshot) - CpuApps(snapshot)
      && (Holders(after, groupApps) == GpuApps(snapshot) <==> GpuApps(snapshot) !! CpuApps(snapshot))
      && (forall d | d in devices && devices[d].Some? && devices[d].value !in groupApps :: after[d] == devices[d])
      && (OneEach(devices) ==> OneEach(after))
  {
    hide Releasable, Freed, Holders;
    var holders, released := Holders(devices, groupApps), Released(groupApps, snapshot, devices);
    HoldersLeft(devices, groupApps, released);
    AllKept(groupApps, snapshot, devices, history, decode);
    forall id ensures id in holders - released <==> id in GpuApps(snapshot) - CpuApps(snapshot) {
      if id in holders - released {
        var s :| s in snapshot && s.id == id;
        assert s.gpu > 0;
      }
    }
    OthersStay(devices, groupApps, released);
  }

  /** A released draft-only app is in no persisted deployment; a released deployed app is in some,
      and in none of them with a GPU. */
  lemma ReleasedOnEvidence(groupApps: set<Id>, snapshot: seq<SnapshotApp>, devices: Devices,
                           history: seq<Option<string>>, decode: Decoder, id: Id)
    requires Releasable(groupApps, snapshot, devices, history, decode)
    ensures id in DraftReleases(groupApps, snapshot, devices) ==> forall h :: h in history ==> Readable(h, decode) && !Mentions(h, decode, id)
    ensures id in ExistingReleases(groupApps, snapshot, devices) ==>
      (exists h :: h in history && Mentions(h, decode, id)) &&
      (forall h :: h in history ==> Readable(h, decode) && NeverWithGpu(h, decode, {id}))
  {
  }

  /** With two entries of one app in a snapshot the first statement fails: the app loses its device. */
  lemma TwoEntriesOfOneApp(history: seq<Option<string>>, decode: Decoder)
    requires CpuHistory({"a"}, history, decode)
    ensures var (apps, snapshot, devices) := ({"a"}, [SnapshotApp("a", 1), SnapshotApp("a", 0)], map["gpu" := Some("a")]);
      && Releasable(apps, snapshot, devices, history, decode)
      && Holders(Freed(devices, Released(apps, snapshot, devices)), apps) == {}
  {
    var (apps, snapshot, devices) := ({"a"}, [SnapshotApp("a", 1), SnapshotApp("a", 0)], map["gpu" := Some("a")]);
    assert devices["gpu"] == Some("a") && "a" in Holders(devices, apps);
    assert Holders(devices, apps) == {"a"};
    assert SnapshotApp("a", 0) in snapshot;
    assert ExistingReleases(apps, snapshot, devices) == {"a"};
    assert snapshot[0] in snapshot && SnapshotIds(snapshot) == {"a"};
    assert DraftReleases(apps, snapshot, devices) == {};
  }
}
