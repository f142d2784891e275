/**
 Quota admission. Creating, updating and importing apps happens under the tenant's lock; marking
 an app for deletion and changing the limits does not take it.
 */
module Quota {
  import opened Prelude

  /** What one app asks for. Requests are validated to be non-negative before they get here. */
  datatype Shape = Shape(cpu: real, memoryBytes: int, gpu: int, desiredReplicas: int)

  /** Sums over apps, and limits on them. */
  datatype Totals = Totals(cpu: real, memoryBytes: int, gpu: int, apps: int)

  predicate ValidShape(s: Shape) {
    s.cpu >= 0.0 && s.memoryBytes >= 0 && s.gpu >= 0 && s.desiredReplicas >= 0
  }

  function Cost(s: Shape): Totals {
    Totals(s.cpu * (s.desiredReplicas as real), s.memoryBytes * s.desiredReplicas, s.gpu * s.desiredReplicas, 1)
  }

  function Plus(a: Totals, b: Totals): Totals {
    Totals(a.cpu + b.cpu, a.memoryBytes + b.memoryBytes, a.gpu + b.gpu, a.apps + b.apps)
  }

  function Minus(a: Totals, b: Totals): Totals {
    Totals(a.cpu - b.cpu, a.memoryBytes - b.memoryBytes, a.gpu - b.gpu, a.apps - b.apps)
  }

  const NOTHING := Totals(0.0, 0, 0, 0)

  /** In every resource. */
  predicate AtMost(a: Totals, b: Totals) {
    a.cpu <= b.cpu && a.memoryBytes <= b.memoryBytes && a.gpu <= b.gpu && a.apps <= b.apps
  }

  /** In every resource, `a` is within the limit or no more than `b`. */
  predicate WithinOrNoMore(a: Totals, limits: Totals, b: Totals) {
    && (a.cpu <= limits.cpu || a.cpu <= b.cpu)
    && (a.memoryBytes <= limits.memoryBytes || a.memoryBytes <= b.memoryBytes)
    && (a.gpu <= limits.gpu || a.gpu <= b.gpu)
    && (a.apps <= limits.apps || a.apps <= b.apps)
  }

  // ---- Usage and the checks ---------------------------------------------------------------

  datatype Row = Row(shape: Shape, pendingDeletion: bool)

  function RowCost(r: Row): Totals {
    if r.pendingDeletion then NOTHING else Cost(r.shape)
  }

  function Usage(rows: seq<Row>): Totals {
    if rows == [] then NOTHING else Plus(Usage(rows[..|rows| - 1]), RowCost(rows[|rows| - 1]))
  }

  /** Creating one app: every total has to be within its limit. */
  predicate CreateAllowed(usage: Totals, limits: Option<Totals>, next: Shape) {
    limits.Some? ==> AtMost(Plus(usage, Cost(next)), limits.value)
  }

  /** Updating an app: a total over its limit is a violation only if the update increases it. */
  predicate UpdateAllowed(usage: Totals, limits: Option<Totals>, previous: Shape, next: Shape) {
    var requested := Plus(Minus(usage, Cost(previous)), Cost(next));
    limits.Some? ==>
      && (requested.cpu > limits.value.cpu ==> !(requested.cpu > usage.cpu))
      && (requested.memoryBytes > limits.value.memoryBytes ==> !(requested.memoryBytes > usage.memoryBytes))
      && (requested.gpu > limits.value.gpu ==> !(requested.gpu > usage.gpu))
      && (requested.apps > limits.value.apps ==> !(requested.apps > usage.apps))
  }

  function Total(usage: Totals, shapes: seq<Shape>): Totals {
    if shapes == [] then usage else Plus(Total(usage, shapes[..|shapes| - 1]), Cost(shapes[|shapes| - 1]))
  }

  /** Importing a manifest: all its apps at once. */
  predicate ImportAllowed(usage: Totals, limits: Option<Totals>, shapes: seq<Shape>) {
    limits.Some? ==> AtMost(Total(usage, shapes), limits.value)
  }

  // ---- An update passes exactly when ------------------------------------------------------------

  lemma CostNonNegative(s: Shape)
    requires ValidShape(s)
    ensures AtMost(NOTHING, Cost(s))
  {
    Products(s.memoryBytes, s.desiredReplicas);
    Products(s.gpu, s.desiredReplicas);
    RealProducts(s.cpu, s.desiredReplicas as real);
  }

  lemma Products(a: int, b: int)
    requires a >= 0 && b >= 0
    ensures a * b >= 0
  {
  }

  lemma RealProducts(a: real, b: real)
    requires a >= 0.0 && b >= 0.0
    ensures a * b >= 0.0
  {
  }

  /** Whether a resource is over its limit or not, the update passes if that resource does not grow;
      an update that grows a resource passes only if the new total is within the limit. */
  lemma UpdatePassesExactly(usage: Totals, limits: Totals, previous: Shape, next: Shape)
    ensures UpdateAllowed(usage, Some(limits), previous, next) <==>
      WithinOrNoMore(Plus(Minus(usage, Cost(previous)), Cost(next)), limits, usage)
    ensures AtMost(Cost(next), Cost(previous)) ==> UpdateAllowed(usage, Some(limits), previous, next)
    ensures UpdateAllowed(usage, Some(limits), previous, next) ==>
      (Cost(next).cpu > Cost(previous).cpu ==> usage.cpu - Cost(previous).cpu + Cost(next).cpu <= limits.cpu)
  {
  }

  // ---- All at once, and one after the other -------------------------------------------------------

  /** Each app is created if the check passes with those before it already there. */
  predicate OneByOne(usage: Totals, limits: Option<Totals>, shapes: seq<Shape>) {
    shapes == [] ||
      (OneByOne(usage, limits, shapes[..|shapes| - 1]) &&
       CreateAllowed(Total(usage, shapes[..|shapes| - 1]), limits, shapes[|shapes| - 1]))
  }

  lemma {:induction false} PrefixesFit(usage: Totals, limits: Totals, shapes: seq<Shape>)
    requires forall s | s in shapes :: ValidShape(s)
    requires shapes != [] ==> AtMost(Total(usage, shapes), limits)
    ensures OneByOne(usage, Some(limits), shapes)
  {
    if shapes != [] {
      CostNonNegative(shapes[|shapes| - 1]);
      PrefixesFit(usage, limits, shapes[..|shapes| - 1]);
    }
  }

  lemma {:induction false} TotalOfBag(usage: Totals, shapes: seq<Shape>, other: seq<Shape>)
    requires multiset(shapes) == multiset(other)
    ensures Total(usage, shapes) == Total(usage, other)
  {
    hide Cost;
    if shapes == [] {
      assert |multiset(other)| == 0;
    } else {
      var last := shapes[|shapes| - 1];
      assert last in multiset(shapes);
      var i :| 0 <= i < |other| && other[i] == last;
      var rest := other[..i] + other[i + 1..];
      assert shapes == shapes[..|shapes| - 1] + [last];
      SameBagWithout(shapes[..|shapes| - 1], last, other, i);
      TotalOfBag(usage, shapes[..|shapes| - 1], rest);
      PullOut(usage, other, i);
    }
  }

  lemma SameBagWithout(init: seq<Shape>, last: Shape, other: seq<Shape>, i: nat)
    requires i < |other| && other[i] == last && multiset(init + [last]) == multiset(other)
    ensures multiset(init) == multiset(other[..i] + other[i + 1..])
  {
    assert other == other[..i] + [last] + other[i + 1..];
    assert multiset(other) == multiset(other[..i] + other[i + 1..]) + multiset{last};
    assert multiset(init) + multiset{last} == multiset(other);
    assert multiset(init) == multiset(other) - multiset{last};
  }

  lemma {:induction false} PullOut(usage: Totals, shapes: seq<Shape>, i: nat)
    requires i < |shapes|
    ensures Total(usage, shapes) == Plus(Total(usage, shapes[..i] + shapes[i + 1..]), Cost(shapes[i]))
  {
    var last := |shapes| - 1;
    if i == last {
      assert shapes[..i] + shapes[i + 1..] == shapes[..last];
    } else {
      PullOut(usage, shapes[..last], i);
      var rest := shapes[..i] + shapes[i + 1..];
      assert rest[..|rest| - 1] == shapes[..last][..i] + shapes[..last][i + 1..];
    }
  }

  /** The check of an import passes exactly if creating its apps one after the other would pass every
      single check, in whatever order. Only an import without apps differs: it is refused
      when a lowered limit is already exceeded. */
  lemma ImportIsOneByOne(usage: Totals, limits: Option<Totals>, shapes: seq<Shape>, order: seq<Shape>)
    requires (forall s | s in shapes :: ValidShape(s)) && multiset(order) == multiset(shapes)
    ensures shapes != [] || limits.None? || AtMost(usage, limits.value) ==>
              (ImportAllowed(usage, limits, shapes) <==> OneByOne(usage, limits, order))
    ensures shapes == [] && limits.Some? && !AtMost(usage, limits.value) ==>
              !ImportAllowed(usage, limits, shapes) && OneByOne(usage, limits, order)
  {
    TotalOfBag(usage, shapes, order);
    assert |order| == |multiset(order)| == |shapes|;
    forall s | s in order ensures ValidShape(s) {
      assert s in multiset(order);
    }
    if limits.None? {
      NoLimits(usage, order);
    } else if ImportAllowed(usage, limits, shapes) {
      PrefixesFit(usage, limits.value, order);
    }
  }

  lemma {:induction false} NoLimits(usage: Totals, shapes: seq<Shape>)
    ensures OneByOne(usage, None, shapes)
  {
    if shapes != [] { NoLimits(usage, shapes[..|shapes| - 1]); }
  }

  // ---- Concurrent requests -----------------------------------------------------------------------------

  /** An update keeps what its request leaves out: `change` lays the request over the current shape. */
  datatype Aim = Create(shape: Shape) | Update(app: nat, change: Shape -> Shape) | Import(shapes: seq<Shape>)

  datatype Phase =
    | Waiting | Locked | LimitsRead(limits: Option<Totals>) | Admitted(limits: Option<Totals>, usage: Totals) | Finished(written: bool)

  datatype Job = Job(aim: Aim, phase: Phase)

  datatype State = State(rows: seq<Row>, limits: Option<Totals>, lock: Option<nat>, jobs: seq<Job>)

  datatype Event =
    | Begin(aim: Aim) | Acquire(job: nat) | ReadLimits(job: nat) | Check(job: nat) | Write(job: nat)
    | MarkForDeletion(app: nat) | SetLimits(limits: Option<Totals>)

  function Put(s: State, j: nat, phase: Phase): State
    requires j < |s.jobs|
  {
    s.(jobs := s.jobs[j := s.jobs[j].(phase := phase)])
  }

  /** The end of the transaction frees the lock. */
  function Finish(s: State, j: nat, written: bool): State
    requires j < |s.jobs|
  {
    Put(s, j, Finished(written)).(lock := None)
  }

  predicate Allowed(rows: seq<Row>, limits: Option<Totals>, aim: Aim) {
    match aim
    case Create(shape) => CreateAllowed(Usage(rows), limits, shape)
    case Import(shapes) => ImportAllowed(Usage(rows), limits, shapes)
    case Update(app, change) =>
      app < |rows| && !rows[app].pendingDeletion &&
      UpdateAllowed(Usage(rows), limits, rows[app].shape, change(rows[app].shape))
  }

  function NewRows(shapes: seq<Shape>): (rows: seq<Row>)
    ensures |rows| == |shapes| && forall i | 0 <= i < |shapes| :: rows[i] == Row(shapes[i], false)
  {
    if shapes == [] then [] else NewRows(shapes[..|shapes| - 1]) + [Row(shapes[|shapes| - 1], false)]
  }

  function Written(rows: seq<Row>, aim: Aim): seq<Row> {
    match aim
    case Create(shape) => rows + [Row(shape, false)]
    case Import(shapes) => rows + NewRows(shapes)
    case Update(app, change) => if app < |rows| then rows[app := rows[app].(shape := change(rows[app].shape))] else rows
  }

  function Next(s: State, e: Event): State {
    match e
    case Begin(aim) => s.(jobs := s.jobs + [Job(aim, Waiting)])
    case Acquire(j) =>
      if j < |s.jobs| && s.jobs[j].phase.Waiting? && s.lock.None? then Put(s, j, Locked).(lock := Some(j)) else s
    case ReadLimits(j) => if j < |s.jobs| && s.jobs[j].phase.Locked? then Put(s, j, LimitsRead(s.limits)) else s
    case Check(j) =>
      if j < |s.jobs| && s.jobs[j].phase.LimitsRead? then
        var limits := s.jobs[j].phase.limits;
        if Allowed(s.rows, limits, s.jobs[j].aim) then Put(s, j, Admitted(limits, Usage(s.rows))) else Finish(s, j, false)
      else s
    case Write(j) =>
      if j < |s.jobs| && s.jobs[j].phase.Admitted? then Finish(s.(rows := Written(s.rows, s.jobs[j].aim)), j, true) else s
    case MarkForDeletion(a) =>
      if a < |s.rows| then s.(rows := s.rows[a := s.rows[a].(pendingDeletion := true)]) else s
    case SetLimits(limits) => s.(limits := limits)
  }

  ghost predicate ValidAim(aim: Aim) {
    match aim
    case Create(shape) => ValidShape(shape)
    case Import(shapes) => forall s | s in shapes :: ValidShape(s)
    case Update(_, change) => forall s :: ValidShape(s) ==> ValidShape(change(s))
  }

  ghost predicate ValidEvents(events: seq<Event>) {
    forall e | e in events :: e.Begin? ==> ValidAim(e.aim)
  }

  function Run(events: seq<Event>): State {
    if events == [] then State([], None, None, []) else Next(Run(events[..|events| - 1]), events[|events| - 1])
  }

  // ---- Sums over rows ---------------------------------------------------------------------------------------

  lemma {:induction false} UsageOfUpdate(rows: seq<Row>, i: nat, r: Row)
    requires i < |rows|
    ensures Usage(rows[i := r]) == Plus(Minus(Usage(rows), RowCost(rows[i])), RowCost(r))
  {
    hide RowCost;
    var last := |rows| - 1;
    var updated := rows[i := r];
    if i == last {
      assert updated[..last] == rows[..last];
    } else {
      UsageOfUpdate(rows[..last], i, r);
      assert updated[..last] == rows[..last][i := r];
    }
  }

  lemma UsageOfOneMore(rows: seq<Row>, r: Row)
    ensures Usage(rows + [r]) == Plus(Usage(rows), RowCost(r))
  {
    assert (rows + [r])[..|rows|] == rows;
  }

  lemma {:induction false} UsageOfNew(rows: seq<Row>, shapes: seq<Shape>)
    ensures Usage(rows + NewRows(shapes)) == Total(Usage(rows), shapes)
  {
    if shapes == [] {
      assert rows + NewRows(shapes) == rows;
    } else {
      var init, last := shapes[..|shapes| - 1], Row(shapes[|shapes| - 1], false);
      UsageOfNew(rows, init);
      UsageOfOneMore(rows + NewRows(init), last);
      assert rows + NewRows(shapes) == rows + NewRows(init) + [last];
    }
  }

  lemma {:induction false} TotalGrowsWithUsage(a: Totals, b: Totals, shapes: seq<Shape>)
    requires AtMost(a, b)
    ensures AtMost(Total(a, shapes), Total(b, shapes))
  {
    if shapes != [] { TotalGrowsWithUsage(a, b, shapes[..|shapes| - 1]); }
  }

  // ---- Safety ---------------------------------------------------------------------------------------------------

  /** The check passed with this usage. */
  predicate Passed(rows: seq<Row>, aim: Aim, limits: Option<Totals>, usage: Totals) {
    match aim
    case Create(shape) => CreateAllowed(usage, limits, shape)
    case Import(shapes) => ImportAllowed(usage, limits, shapes)
    case Update(app, change) => app < |rows| && UpdateAllowed(usage, limits, rows[app].shape, change(rows[app].shape))
  }

  /** What is known of an admitted job until it writes: since its check usage can only have shrunk. */
  predicate AdmittedOk(s: State, j: nat)
    requires j < |s.jobs| && s.jobs[j].phase.Admitted?
  {
    var (aim, limits, usage) := (s.jobs[j].aim, s.jobs[j].phase.limits, s.jobs[j].phase.usage);
    AtMost(Usage(s.rows), usage) && Passed(s.rows, aim, limits, usage)
  }

  predicate Holding(phase: Phase) {
    phase.Locked? || phase.LimitsRead? || phase.Admitted?
  }

  ghost predicate Inv(s: State) {
    && (forall r | r in s.rows :: ValidShape(r.shape))
    && (forall j | 0 <= j < |s.jobs| :: ValidAim(s.jobs[j].aim))
    && (forall j | 0 <= j < |s.jobs| :: Holding(s.jobs[j].phase) ==> s.lock == Some(j))
    && (forall j | 0 <= j < |s.jobs| :: s.jobs[j].phase.Admitted? ==> AdmittedOk(s, j))
  }

  lemma MarkShrinks(rows: seq<Row>, a: nat)
    requires a < |rows| && forall r | r in rows :: ValidShape(r.shape)
    ensures AtMost(Usage(rows[a := rows[a].(pendingDeletion := true)]), Usage(rows))
  {
    UsageOfUpdate(rows, a, rows[a].(pendingDeletion := true));
    assert rows[a] in rows;
    CostNonNegative(rows[a].shape);
  }

  lemma WriteKeepsShapes(s: State, j: nat)
    requires Inv(s) && j < |s.jobs| && s.jobs[j].phase.Admitted?
    ensures forall r | r in Written(s.rows, s.jobs[j].aim) :: ValidShape(r.shape)
  {
    var aim := s.jobs[j].aim;
    assert ValidAim(aim);
    match aim
    case Create(_) =>
    case Import(shapes) =>
      forall r | r in NewRows(shapes) ensures ValidShape(r.shape) {
        var i :| 0 <= i < |shapes| && NewRows(shapes)[i] == r;
        assert shapes[i] in shapes;
      }
    case Update(app, change) => assert app < |s.rows| ==> s.rows[app] in s.rows;
  }

  lemma NextKeepsInv(s: State, e: Event)
    requires Inv(s) && (e.Begin? ==> ValidAim(e.aim))
    ensures Inv(Next(s, e))
  {
    match e
    case MarkForDeletion(a) => if a < |s.rows| { MarkShrinks(s.rows, a); MarkKeepsInv(s, a); }
    case Write(j) => if j < |s.jobs| && s.jobs[j].phase.Admitted? { WriteKeepsShapes(s, j); }
    case _ =>
  }

  lemma MarkKeepsInv(s: State, a: nat)
    requires Inv(s) && a < |s.rows| && AtMost(Usage(s.rows[a := s.rows[a].(pendingDeletion := true)]), Usage(s.rows))
    ensures Inv(s.(rows := s.rows[a := s.rows[a].(pendingDeletion := true)]))
  {
    var t := s.(rows := s.rows[a := s.rows[a].(pendingDeletion := true)]);
    forall r | r in t.rows ensures ValidShape(r.shape) {
      assert s.rows[a] in s.rows;
    }
    forall j | 0 <= j < |t.jobs| && t.jobs[j].phase.Admitted? ensures AdmittedOk(t, j) {
      assert AdmittedOk(s, j);
    }
  }

  lemma {:induction false} RunKeepsInv(events: seq<Event>)
    requires ValidEvents(events)
    ensures Inv(Run(events))
  {
    if events != [] {
      RunKeepsInv(events[..|events| - 1]);
      NextKeepsInv(Run(events[..|events| - 1]), events[|events| - 1]);
    }
  }

  lemma UpdateIsSafe(rows: seq<Row>, usage: Totals, limits: Totals, app: nat, next: Shape)
    requires app < |rows| && AtMost(Usage(rows), usage) && UpdateAllowed(usage, Some(limits), rows[app].shape, next)
    ensures WithinOrNoMore(Usage(rows[app := rows[app].(shape := next)]), limits, Usage(rows))
  {
    UsageOfUpdate(rows, app, rows[app].(shape := next));
    if !rows[app].pendingDeletion {
      UpdateDelta(Usage(rows), usage, limits, Cost(rows[app].shape), Cost(next));
    }
  }

  lemma UpdateDelta(now: Totals, usage: Totals, limits: Totals, previous: Totals, next: Totals)
    requires AtMost(now, usage) && WithinOrNoMore(Plus(Minus(usage, previous), next), limits, usage)
    ensures WithinOrNoMore(Plus(Minus(now, previous), next), limits, now)
  {
  }

  lemma WriteIsSafe(rows: seq<Row>, aim: Aim, limits: Totals, usage: Totals)
    requires AtMost(Usage(rows), usage) && Passed(rows, aim, Some(limits), usage)
    ensures WithinOrNoMore(Usage(Written(rows, aim)), limits, Usage(rows))
  {
    hide Cost, Usage;
    match aim
    case Create(shape) => UsageOfOneMore(rows, Row(shape, false));
    case Import(shapes) =>
      UsageOfNew(rows, shapes);
      TotalGrowsWithUsage(Usage(rows), usage, shapes);
    case Update(app, change) => UpdateIsSafe(rows, usage, limits, app, change(rows[app].shape));
  }

  /** Whatever the other requests do: when an admitted request writes, every resource is then within
      the limit that the request read under the lock, or no higher than before. */
  lemma AdmittedWriteIsSafe(events: seq<Event>, j: nat)
    requires ValidEvents(events) && j < |Run(events).jobs| && Run(events).jobs[j].phase.Admitted?
    ensures var s := Run(events);
      var limits := s.jobs[j].phase.limits;
      limits.Some? ==> WithinOrNoMore(Usage(Next(s, Write(j)).rows), limits.value, Usage(s.rows))
  {
    hide Cost, Usage, Total, UpdateAllowed;
    RunKeepsInv(events);
    var s := Run(events);
    assert AdmittedOk(s, j);
    if s.jobs[j].phase.limits.Some? {
      WriteIsSafe(s.rows, s.jobs[j].aim, s.jobs[j].phase.limits.value, s.jobs[j].phase.usage);
    }
  }

  // ---- The limits in force when a request writes -------------------------------------------------------------

  /** Whatever is asked of a resource fits beside what is used. */
  predicate FitsWhereAsked(usage: Totals, limits: Totals, asked: Totals) {
    && (asked.cpu > 0.0 ==> usage.cpu + asked.cpu <= limits.cpu)
    && (asked.memoryBytes > 0 ==> usage.memoryBytes + asked.memoryBytes <= limits.memoryBytes)
    && (asked.gpu > 0 ==> usage.gpu + asked.gpu <= limits.gpu)
    && (asked.apps > 0 ==> usage.apps + asked.apps <= limits.apps)
  }

  /** The check of the request, made again with the limits in force and the rows at the write. */
  predicate StillAllowed(rows: seq<Row>, limits: Totals, aim: Aim) {
    match aim
    case Create(shape) => FitsWhereAsked(Usage(rows), limits, Cost(shape))
    case Import(shapes) => FitsWhereAsked(Usage(rows), limits, Total(NOTHING, shapes))
    case Update(app, change) =>
      app < |rows| && !rows[app].pendingDeletion ==>
        UpdateAllowed(Usage(rows), Some(limits), rows[app].shape, change(rows[app].shape))
  }

  lemma {:induction false} TotalFrom(usage: Totals, shapes: seq<Shape>)
    ensures Total(usage, shapes) == Plus(usage, Total(NOTHING, shapes))
  {
    if shapes != [] { TotalFrom(usage, shapes[..|shapes| - 1]); }
  }

  lemma {:induction false} TotalNonNegative(shapes: seq<Shape>)
    requires forall s | s in shapes :: ValidShape(s)
    ensures AtMost(NOTHING, Total(NOTHING, shapes))
  {
    if shapes != [] {
      TotalNonNegative(shapes[..|shapes| - 1]);
      CostNonNegative(shapes[|shapes| - 1]);
    }
  }

  lemma AskedExactly(usage: Totals, limits: Totals, asked: Totals)
    requires AtMost(NOTHING, asked)
    ensures WithinOrNoMore(Plus(usage, asked), limits, usage) <==> FitsWhereAsked(usage, limits, asked)
  {
  }

  lemma WriteStaysWithinExactly(rows: seq<Row>, limits: Totals, aim: Aim)
    requires ValidAim(aim)
    ensures WithinOrNoMore(Usage(Written(rows, aim)), limits, Usage(rows)) <==> StillAllowed(rows, limits, aim)
  {
    hide Cost, Usage;
    match aim
    case Create(shape) =>
      UsageOfOneMore(rows, Row(shape, false));
      CostNonNegative(shape);
      AskedExactly(Usage(rows), limits, Cost(shape));
    case Import(shapes) =>
      UsageOfNew(rows, shapes);
      TotalFrom(Usage(rows), shapes);
      TotalNonNegative(shapes);
      AskedExactly(Usage(rows), limits, Total(NOTHING, shapes));
    case Update(app, change) =>
      if app < |rows| {
        UsageOfUpdate(rows, app, rows[app].(shape := change(rows[app].shape)));
        if !rows[app].pendingDeletion {
          UpdatePassesExactly(Usage(rows), limits, rows[app].shape, change(rows[app].shape));
        }
      }
  }

  /** Whatever happened since its check: the write of an admitted request leaves every resource within
      the limit in force, or no higher than before, exactly if its check would still pass. */
  lemma CurrentLimitKeptExactly(events: seq<Event>, j: nat)
    requires ValidEvents(events) && j < |Run(events).jobs| && Run(events).jobs[j].phase.Admitted?
    requires Run(events).limits.Some?
    ensures var s := Run(events);
      WithinOrNoMore(Usage(Next(s, Write(j)).rows), s.limits.value, Usage(s.rows)) <==>
      StillAllowed(s.rows, s.limits.value, s.jobs[j].aim)
  {
    hide Usage, Written, StillAllowed;
    RunKeepsInv(events);
    var s := Run(events);
    assert ValidAim(s.jobs[j].aim);
    WriteStaysWithinExactly(s.rows, s.limits.value, s.jobs[j].aim);
  }

  predicate NoLower(now: Option<Totals>, read: Option<Totals>) {
    now.Some? ==> read.Some? && AtMost(read.value, now.value)
  }

  /** In particular if the limits in force are no lower than those the request read. */
  lemma RaisedLimitsAreKept(events: seq<Event>, j: nat)
    requires ValidEvents(events) && j < |Run(events).jobs| && Run(events).jobs[j].phase.Admitted?
    requires NoLower(Run(events).limits, Run(events).jobs[j].phase.limits)
    ensures var s := Run(events);
      s.limits.Some? ==>
        && WithinOrNoMore(Usage(Next(s, Write(j)).rows), s.limits.value, Usage(s.rows))
        && StillAllowed(s.rows, s.limits.value, s.jobs[j].aim)
  {
    hide Usage, Written, StillAllowed;
    AdmittedWriteIsSafe(events, j);
    if Run(events).limits.Some? { CurrentLimitKeptExactly(events, j); }
  }

  const LONE := Shape(1.0, 0, 0, 1)
  const ONE := Totals(1.0, 0, 0, 1)
  const ADMISSION := [SetLimits(Some(ONE)), Begin(Create(LONE)), Acquire(0), ReadLimits(0), Check(0), SetLimits(Some(NOTHING))]

  lemma LoneFacts()
    ensures Cost(LONE) == ONE && Allowed([], Some(ONE), Create(LONE)) && Usage([]) == NOTHING
    ensures Usage([Row(LONE, false)]).cpu == 1.0
    ensures Written([], Create(LONE)) == [Row(LONE, false)]
  {
    assert [Row(LONE, false)][..0] == [];
  }

  lemma Admission()
    ensures Run(ADMISSION) == State([], Some(NOTHING), Some(0), [Job(Create(LONE), Admitted(Some(ONE), NOTHING))])
  {
    var e := ADMISSION;
    Steps(e);
    LoneFacts();
    hide Run, Cost, Allowed, Usage, Written;
    assert Run(e[..1]) == State([], Some(ONE), None, []);
    assert Run(e[..2]) == State([], Some(ONE), None, [Job(Create(LONE), Waiting)]);
    assert Run(e[..3]) == State([], Some(ONE), Some(0), [Job(Create(LONE), Locked)]);
    assert Run(e[..4]) == State([], Some(ONE), Some(0), [Job(Create(LONE), LimitsRead(Some(ONE)))]);
    assert Run(e[..5]) == State([], Some(ONE), Some(0), [Job(Create(LONE), Admitted(Some(ONE), NOTHING))]);
    assert Run(e[..6]) == State([], Some(NOTHING), Some(0), [Job(Create(LONE), Admitted(Some(ONE), NOTHING))]);
  }

  /** Changing the limits does not take the lock: a limit lowered between the check and the write is exceeded. */
  lemma LoweredLimitIsExceeded()
    ensures var s := Run(ADMISSION);
      && s.jobs != [] && s.jobs[0].phase.Admitted? && s.limits == Some(NOTHING) && Usage(s.rows) == NOTHING
      && Usage(Next(s, Write(0)).rows).cpu == 1.0
  {
    LoneFacts();
    Admission();
    hide Run, Usage, Written, Allowed;
  }

  lemma Steps(e: seq<Event>)
    ensures e[..|e|] == e && Run(e[..0]) == State([], None, None, [])
    ensures forall n :: 0 <= n < |e| ==> Run(e[..n + 1]) == Next(Run(e[..n]), e[n])
  {
    forall n | 0 <= n < |e| ensures Run(e[..n + 1]) == Next(Run(e[..n]), e[n]) {
      assert e[..n + 1][..n] == e[..n];
    }
  }
}
