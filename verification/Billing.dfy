/**
 Billing: minutes are billed in order, each once; charges never overdraw; and the check that
 lets an update pass without funds is sound for the cost function. Money and CPU are exact.
 */
module Billing {
  import opened Prelude

  // ---- Minutes -------------------------------------------------------------------------

  const MINUTE := 60000

  datatype Period = Period(start: int, end: int)

  /** The last full minute at `now`, in milliseconds. */
  function ClosedMinute(now: int): Period {
    var end := now - now % MINUTE;
    Period(end - MINUTE, end)
  }

  function AtLeastOne(n: int): nat {
    if n < 1 then 1 else n
  }

  /** `n` minutes from `start` on. */
  function Minutes(start: int, n: nat): seq<Period> {
    if n == 0 then [] else Minutes(start, n - 1) + [Period(start + (n - 1) * MINUTE, start + n * MINUTE)]
  }

  /** How many whole minutes lie between two moments. */
  function WholeMinutes(start: int, end: int): nat {
    if start >= end then 0 else (end - start) / MINUTE
  }

  function Smaller(a: nat, b: nat): nat {
    if a <= b then a else b
  }

  /** The periods of one run. */
  function Periods(now: int, last: Option<int>, max: int): seq<Period> {
    if last.None? then [ClosedMinute(now)]
    else Minutes(last.value, Smaller(AtLeastOne(max), WholeMinutes(last.value, ClosedMinute(now).end)))
  }

  method ReconciliationPeriods(now: int, last: Option<int>, max: int) returns (periods: seq<Period>)
    ensures periods == Periods(now, last, max)
  {
    var closed := ClosedMinute(now);
    var limit := AtLeastOne(max);
    if last.None? { return [closed]; }
    periods := [];
    var start := last.value;
    ghost var room := WholeMinutes(last.value, closed.end);
    while start < closed.end && |periods| < limit
      invariant start == last.value + |periods| * MINUTE
      invariant periods == Minutes(last.value, |periods|)
      invariant |periods| <= limit && |periods| <= room
      decreases limit - |periods|
    {
      var end := start + MINUTE;
      if end > closed.end {
        break;
      }
      periods := periods + [Period(start, end)];
      start := end;
    }
  }

  /** The run's worker state: a run may stop early, after `done` of its periods. */
  datatype RunInput = RunInput(now: int, max: int, done: nat)

  function AfterPeriods(last: Option<int>, periods: seq<Period>): Option<int> {
    if periods == [] then last else Some(periods[|periods| - 1].end)
  }

  /** What a run that starts at `at` bills. */
  function BilledNow(at: Option<int>, r: RunInput): seq<Period> {
    var all := Periods(r.now, at, r.max);
    all[..Smaller(r.done, |all|)]
  }

  /** What the first runs billed, and where they left the worker. */
  function Billed(last: Option<int>, runs: seq<RunInput>): (seq<Period>, Option<int>) {
    if runs == [] then ([], last) else
      var (before, at) := Billed(last, runs[..|runs| - 1]);
      var now := BilledNow(at, runs[|runs| - 1]);
      (before + now, AfterPeriods(at, now))
  }

  lemma {:induction false} MinutesFacts(start: int, n: nat)
    ensures |Minutes(start, n)| == n
    ensures forall i | 0 <= i < n :: Minutes(start, n)[i] == Period(start + i * MINUTE, start + (i + 1) * MINUTE)
  {
    if n > 0 { MinutesFacts(start, n - 1); }
  }

  lemma {:induction false} MinutesJoin(start: int, n: nat, m: nat)
    ensures Minutes(start, n) + Minutes(start + n * MINUTE, m) == Minutes(start, n + m)
  {
    if m == 0 {
      assert Minutes(start, n) + [] == Minutes(start, n);
    } else {
      MinutesJoin(start, n, m - 1);
    }
  }

  lemma MinutesPrefix(start: int, n: nat, k: nat)
    requires k <= n
    ensures |Minutes(start, n)| == n && Minutes(start, n)[..k] == Minutes(start, k)
  {
    MinutesFacts(start, n);
    MinutesFacts(start, k);
  }

  lemma RunBillsMinutes(at: int, r: RunInput) returns (k: nat)
    ensures BilledNow(Some(at), r) == Minutes(at, k)
    ensures AfterPeriods(Some(at), Minutes(at, k)) == Some(at + k * MINUTE)
  {
    var all := Smaller(AtLeastOne(r.max), WholeMinutes(at, ClosedMinute(r.now).end));
    k := Smaller(r.done, all);
    MinutesPrefix(at, all, k);
    MinutesFacts(at, k);
  }

  /** Whatever the moments, limits and interruptions: what has been billed is a row of minutes
      without gap or overlap, and the worker stands at its end. */
  lemma {:induction false} BilledWithoutGap(start: int, runs: seq<RunInput>) returns (n: nat)
    ensures Billed(Some(start), runs) == (Minutes(start, n), Some(start + n * MINUTE))
  {
    hide BilledNow, AfterPeriods;
    if runs == [] {
      n := 0;
    } else {
      var before := BilledWithoutGap(start, runs[..|runs| - 1]);
      var k := RunBillsMinutes(start + before * MINUTE, runs[|runs| - 1]);
      n := before + k;
      MinutesJoin(start, before, k);
    }
  }

  /** The very first run bills the closed minute, and the rest follows it. */
  lemma FirstRun(now: int, max: int)
    ensures Periods(now, None, max) == Minutes(ClosedMinute(now).start, 1)
    ensures AfterPeriods(None, Periods(now, None, max)) == Some(ClosedMinute(now).end)
  {
    assert Minutes(ClosedMinute(now).start, 0) == [];
  }

  /** No run bills a minute that is not over. */
  lemma NothingInTheFuture(now: int, last: Option<int>, max: int, i: nat)
    requires i < |Periods(now, last, max)|
    ensures Periods(now, last, max)[i].end <= ClosedMinute(now).end <= now
  {
    if last.Some? {
      var room := WholeMinutes(last.value, ClosedMinute(now).end);
      var n := Smaller(AtLeastOne(max), room);
      MinutesFacts(last.value, n);
      assert room * MINUTE <= ClosedMinute(now).end - last.value;
      assert (i + 1) * MINUTE <= room * MINUTE;
    }
  }

  /** Nor do any number of runs: nothing that has been billed ends after the latest of them. */
  lemma {:induction false} NothingBilledAhead(last: Option<int>, runs: seq<RunInput>, now: int)
    requires forall r | r in runs :: r.now <= now
    ensures forall p | p in Billed(last, runs).0 :: p.end <= now
  {
    if runs != [] {
      var init, r := runs[..|runs| - 1], runs[|runs| - 1];
      NothingBilledAhead(last, init, now);
      var all := Periods(r.now, Billed(last, init).1, r.max);
      forall i: nat | i < |all| ensures all[i].end <= now {
        NothingInTheFuture(r.now, Billed(last, init).1, r.max, i);
      }
      assert Billed(last, runs).0 == Billed(last, init).0 + all[..Smaller(r.done, |all|)];
    }
  }

  /** `count` runs at one moment with one limit. */
  function Repeated(now: int, max: int, count: nat): seq<RunInput> {
    if count == 0 then [] else Repeated(now, max, count - 1) + [RunInput(now, max, AtLeastOne(max))]
  }

  function Covered(count: nat, max: int, room: nat): nat {
    Smaller(count * AtLeastOne(max), room)
  }

  /** A run that starts after the first `before` minutes bills the next ones, up to the limit. */
  lemma OneRun(start: int, before: nat, now: int, max: int, room: nat)
    requires room == WholeMinutes(start, ClosedMinute(now).end) && before <= room
    ensures var at := start + before * MINUTE;
      var k := Smaller(AtLeastOne(max), room - before);
      && Periods(now, Some(at), max) == Minutes(at, k)
      && Minutes(start, before) + Minutes(at, k) == Minutes(start, before + k)
      && AfterPeriods(Some(at), Minutes(at, k)) == Some(start + (before + k) * MINUTE)
      && Smaller(AtLeastOne(max), |Minutes(at, k)|) == |Minutes(at, k)|
  {
    RoomLeft(start, ClosedMinute(now).end, before);
    var at := start + before * MINUTE;
    var k := Smaller(AtLeastOne(max), room - before);
    MinutesJoin(start, before, k);
    MinutesFacts(at, k);
  }

  /** After `count` undisturbed runs the worker has billed the limit times `count` minutes, or all there are. */
  lemma {:induction false} RepeatedRuns(start: int, now: int, max: int, count: nat)
    ensures var n := Covered(count, max, WholeMinutes(start, ClosedMinute(now).end));
      Billed(Some(start), Repeated(now, max, count)) == (Minutes(start, n), Some(start + n * MINUTE))
  {
    hide Periods, WholeMinutes, ClosedMinute, Minutes, AfterPeriods, Covered, Smaller, Billed;
    var room := WholeMinutes(start, ClosedMinute(now).end);
    NothingCovered(start, max, room);
    if count > 0 {
      RepeatedRuns(start, now, max, count - 1);
      var before := Covered(count - 1, max, room);
      var at := start + before * MINUTE;
      CoveredNext(count, max, room);
      OneRun(start, before, now, max, room);
      BilledNext(Some(start), Repeated(now, max, count - 1), RunInput(now, max, AtLeastOne(max)), Some(at),
                 Minutes(at, Smaller(AtLeastOne(max), room - before)));
    } else {
      NothingBilled(Some(start));
    }
  }

  lemma NothingBilled(last: Option<int>)
    ensures Billed(last, []) == ([], last)
  {
  }

  lemma BilledNext(last: Option<int>, runs: seq<RunInput>, r: RunInput, at: Option<int>, all: seq<Period>)
    requires Billed(last, runs).1 == at && Periods(r.now, at, r.max) == all && Smaller(r.done, |all|) == |all|
    ensures Billed(last, runs + [r]) == (Billed(last, runs).0 + all, AfterPeriods(at, all))
  {
    assert (runs + [r])[..|runs|] == runs && all[..|all|] == all;
  }

  lemma NothingCovered(start: int, max: int, room: nat)
    ensures Covered(0, max, room) == 0 && Minutes(start, 0) == []
  {
  }

  lemma RoomLeft(start: int, end: int, before: nat)
    requires before <= WholeMinutes(start, end)
    ensures WholeMinutes(start + before * MINUTE, end) == WholeMinutes(start, end) - before
  {
    if start < end {
      assert (end - start - before * MINUTE) / MINUTE == (end - start) / MINUTE - before;
    }
  }

  lemma CoveredNext(count: nat, max: int, room: nat)
    requires count > 0
    ensures var before := Covered(count - 1, max, room);
      before <= room && Covered(count, max, room) == before + Smaller(AtLeastOne(max), room - before)
  {
    var limit := AtLeastOne(max);
    assert count * limit == (count - 1) * limit + limit;
  }

  /** The minutes are all billed exactly when the runs times the limit cover them; then the result
      does not depend on the limit. */
  lemma CaughtUpExactly(start: int, now: int, max: int, count: nat)
    ensures var room := WholeMinutes(start, ClosedMinute(now).end);
      Billed(Some(start), Repeated(now, max, count)).0 == Minutes(start, room) <==> count * AtLeastOne(max) >= room
  {
    var room := WholeMinutes(start, ClosedMinute(now).end);
    RepeatedRuns(start, now, max, count);
    MinutesFacts(start, room);
    MinutesFacts(start, Covered(count, max, room));
  }

  // ---- The ledger -----------------------------------------------------------------------------

  /** A charge for one resource and one minute. */
  datatype Charge = Charge(resource: nat, period: Period, cost: real)

  datatype Account = Account(balance: real, ledger: set<(nat, Period)>)

  function ClampComputeCharge(cost: real, balance: real): real {
    if cost <= 0.0 || balance <= 0.0 then 0.0 else if cost <= balance then cost else balance
  }

  /** A second record for the same resource and minute is dropped. */
  function Record(a: Account, c: Charge): Account {
    var key := (c.resource, c.period);
    if key in a.ledger then a else
    Account(a.balance - ClampComputeCharge(c.cost, a.balance), a.ledger + {key})
  }

  function RecordAll(a: Account, charges: seq<Charge>): Account {
    if charges == [] then a else Record(RecordAll(a, charges[..|charges| - 1]), charges[|charges| - 1])
  }

  /** The first charge for every resource and minute. */
  function FirstOnly(charges: seq<Charge>, known: set<(nat, Period)>): seq<Charge> {
    if charges == [] then [] else
      var init, last := charges[..|charges| - 1], charges[|charges| - 1];
      var key := (last.resource, last.period);
      FirstOnly(init, known) + if key in known || Mentions(init, key) then [] else [last]
  }

  predicate Mentions(charges: seq<Charge>, key: (nat, Period)) {
    exists c | c in charges :: (c.resource, c.period) == key
  }

  lemma {:induction false} LedgerKnows(a: Account, charges: seq<Charge>)
    ensures RecordAll(a, charges).ledger == a.ledger + (set c | c in charges :: (c.resource, c.period))
  {
    if charges != [] {
      LedgerKnows(a, charges[..|charges| - 1]);
      assert charges == charges[..|charges| - 1] + [charges[|charges| - 1]];
    }
  }

  /** Billing a minute again, after an interruption or by another replica, charges nothing. */
  lemma {:induction false} EachMinuteOnce(a: Account, charges: seq<Charge>)
    ensures RecordAll(a, charges).balance == RecordAll(a, FirstOnly(charges, a.ledger)).balance
    ensures RecordAll(a, FirstOnly(charges, a.ledger)).ledger == RecordAll(a, charges).ledger
  {
    if charges != [] {
      var init, last := charges[..|charges| - 1], charges[|charges| - 1];
      EachMinuteOnce(a, init);
      LedgerKnows(a, init);
      var key := (last.resource, last.period);
      assert key in RecordAll(a, init).ledger <==> key in a.ledger || Mentions(init, key);
      var first := FirstOnly(init, a.ledger);
      if !(key in a.ledger || Mentions(init, key)) {
        assert (first + [last])[..|first + [last]| - 1] == first;
      } else {
        assert first + [] == first;
      }
    }
  }

  // ---- Clamped charges ----------------------------------------------------------------------------

  function ChargeAll(balance: real, costs: seq<real>): real {
    if costs == [] then balance else
      var before := ChargeAll(balance, costs[..|costs| - 1]);
      before - ClampComputeCharge(costs[|costs| - 1], before)
  }

  function PositivePart(cost: real): real {
    if cost <= 0.0 then 0.0 else cost
  }

  function PositiveSum(costs: seq<real>): real {
    if costs == [] then 0.0 else PositiveSum(costs[..|costs| - 1]) + PositivePart(costs[|costs| - 1])
  }

  /** What is left is what the positive costs leave of the balance, and never less than nothing. */
  lemma {:induction false} LeftAfterCharges(balance: real, costs: seq<real>)
    requires balance >= 0.0
    ensures ChargeAll(balance, costs) ==
              if PositiveSum(costs) <= balance then balance - PositiveSum(costs) else 0.0
    ensures 0.0 <= ChargeAll(balance, costs) <= balance && PositiveSum(costs) >= 0.0
  {
    if costs != [] { LeftAfterCharges(balance, costs[..|costs| - 1]); }
  }

  lemma {:induction false} PullOutCost(costs: seq<real>, i: nat)
    requires i < |costs|
    ensures PositiveSum(costs) == PositiveSum(costs[..i] + costs[i + 1..]) + PositivePart(costs[i])
  {
    var last := |costs| - 1;
    var rest := costs[..i] + costs[i + 1..];
    if i == last {
      assert rest == costs[..last];
    } else {
      PullOutCost(costs[..last], i);
      assert rest[..|rest| - 1] == costs[..last][..i] + costs[..last][i + 1..];
    }
  }

  lemma BagWithout(init: seq<real>, last: real, other: seq<real>, i: nat)
    requires i < |other| && other[i] == last && multiset(init + [last]) == multiset(other)
    ensures multiset(init) == multiset(other[..i] + other[i + 1..])
  {
    assert other == other[..i] + [last] + other[i + 1..];
    assert multiset(other) == multiset(other[..i] + other[i + 1..]) + multiset{last};
    assert multiset(init) + multiset{last} == multiset(other);
    assert multiset(init) == multiset(other) - multiset{last};
  }

  lemma {:induction false} SumOfBag(costs: seq<real>, other: seq<real>)
    requires multiset(costs) == multiset(other)
    ensures PositiveSum(costs) == PositiveSum(other)
  {
    if costs == [] {
      assert |multiset(other)| == 0;
    } else {
      var init, last := costs[..|costs| - 1], costs[|costs| - 1];
      assert costs == init + [last];
      assert last in multiset(other);
      var i :| 0 <= i < |other| && other[i] == last;
      BagWithout(init, last, other, i);
      SumOfBag(init, other[..i] + other[i + 1..]);
      PullOutCost(other, i);
    }
  }

  /** The order of charges does not matter for what they take together. */
  lemma OrderDoesNotMatter(balance: real, costs: seq<real>, other: seq<real>)
    requires balance >= 0.0 && multiset(costs) == multiset(other)
    ensures ChargeAll(balance, costs) == ChargeAll(balance, other)
  {
    SumOfBag(costs, other);
    LeftAfterCharges(balance, costs);
    LeftAfterCharges(balance, other);
  }

  // ---- Minute costs and the preflight --------------------------------------------------------------

  datatype Shape = Shape(cpu: real, memoryBytes: int, gpu: int, desiredReplicas: int)

  datatype Prices = Prices(cpu: real, memoryGb: real, gpu: real)

  datatype Flags = Flags(groupRunning: bool, appRunning: bool, billingActive: bool, pendingDeletion: bool)

  function EffectiveReplicas(desired: int, f: Flags): int {
    if !f.groupRunning || !f.appRunning || !f.billingActive || f.pendingDeletion then 0
    else if desired < 0 then 0 else desired
  }

  function BilledReplicas(actual: int, effective: int): int {
    var least := if actual < effective then actual else effective;
    if least < 0 then 0 else least
  }

  function HourlyCost(s: Shape, p: Prices): real {
    s.cpu * p.cpu + (s.memoryBytes as real / 1000000000.0) * p.memoryGb + (s.gpu as real) * p.gpu
  }

  function MinuteCost(s: Shape, replicas: int, p: Prices): real {
    if replicas <= 0 then 0.0 else HourlyCost(s, p) * (replicas as real) / 60.0
  }

  /** Fields that are not given keep their value. */
  datatype ShapeUpdate = ShapeUpdate(cpu: Option<real>, memoryBytes: Option<int>, gpu: Option<int>, desiredReplicas: Option<int>)

  function Or<T>(given: Option<T>, current: T): T {
    if given.Some? then given.value else current
  }

  function Updated(s: Shape, u: ShapeUpdate): Shape {
    Shape(Or(u.cpu, s.cpu), Or(u.memoryBytes, s.memoryBytes), Or(u.gpu, s.gpu), Or(u.desiredReplicas, s.desiredReplicas))
  }

  predicate IsCostIncreasing(s: Shape, u: ShapeUpdate) {
    || (u.cpu.Some? && u.cpu.value > s.cpu)
    || (u.memoryBytes.Some? && u.memoryBytes.value > s.memoryBytes)
    || (u.gpu.Some? && u.gpu.value > s.gpu)
    || (u.desiredReplicas.Some? && u.desiredReplicas.value > s.desiredReplicas)
  }

  predicate NonNegative(s: Shape) {
    s.cpu >= 0.0 && s.memoryBytes >= 0 && s.gpu >= 0
  }

  predicate ValidPrices(p: Prices) {
    p.cpu >= 0.0 && p.memoryGb >= 0.0 && p.gpu >= 0.0
  }

  lemma ProductGrows(a: real, b: real, p: real)
    requires a <= b && p >= 0.0
    ensures a * p <= b * p
  {
  }

  lemma ProductsGrow(a: real, b: real, p: real, q: real)
    requires 0.0 <= a <= b && 0.0 <= p <= q
    ensures 0.0 <= a * p <= b * q
  {
    ProductGrows(a, b, p);
    assert a * p <= b * p;
    assert b * (q - p) >= 0.0;
  }

  lemma HourlyGrows(s: Shape, t: Shape, p: Prices)
    requires NonNegative(s) && ValidPrices(p) && s.cpu <= t.cpu && s.memoryBytes <= t.memoryBytes && s.gpu <= t.gpu
    ensures 0.0 <= HourlyCost(s, p) <= HourlyCost(t, p)
  {
    ProductsGrow(s.cpu, t.cpu, p.cpu, p.cpu);
    ProductsGrow(s.memoryBytes as real / 1000000000.0, t.memoryBytes as real / 1000000000.0, p.memoryGb, p.memoryGb);
    ProductsGrow(s.gpu as real, t.gpu as real, p.gpu, p.gpu);
  }

  lemma MinuteGrows(s: Shape, t: Shape, m: int, n: int, p: Prices)
    requires NonNegative(s) && ValidPrices(p) && s.cpu <= t.cpu && s.memoryBytes <= t.memoryBytes && s.gpu <= t.gpu && m <= n
    ensures MinuteCost(s, m, p) <= MinuteCost(t, n, p)
  {
    hide HourlyCost;
    HourlyGrows(s, t, p);
    if m > 0 {
      ProductsGrow(HourlyCost(s, p), HourlyCost(t, p), m as real, n as real);
    } else if n > 0 {
      ProductsGrow(0.0, HourlyCost(t, p), n as real, n as real);
    }
  }

  /** What one minute of an app costs: `actual` of its replicas run. */
  function BilledMinute(s: Shape, actual: int, f: Flags, p: Prices): real {
    MinuteCost(s, BilledReplicas(actual, EffectiveReplicas(s.desiredReplicas, f)), p)
  }

  /** An update that the preflight lets pass never makes a minute dearer, whatever the prices, the
      replicas that run, and the run flags. */
  lemma PreflightIsSound(s: Shape, u: ShapeUpdate, p: Prices, actual: int, f: Flags)
    requires NonNegative(Updated(s, u)) && ValidPrices(p) && !IsCostIncreasing(s, u)
    ensures BilledMinute(Updated(s, u), actual, f, p) <= BilledMinute(s, actual, f, p)
  {
    hide HourlyCost, MinuteCost;
    var t := Updated(s, u);
    MinuteGrows(t, s, BilledReplicas(actual, EffectiveReplicas(t.desiredReplicas, f)),
                BilledReplicas(actual, EffectiveReplicas(s.desiredReplicas, f)), p);
  }

  // ---- When an update costs no more ----------------------------------------------------------------

  /** `t` costs no more than `s` at any prices, with any number of running replicas, and any flags. */
  ghost predicate NeverDearer(s: Shape, t: Shape) {
    forall p, actual, f :: ValidPrices(p) ==> BilledMinute(t, actual, f, p) <= BilledMinute(s, actual, f, p)
  }

  ghost predicate DearerSomewhere(s: Shape, t: Shape) {
    exists p, actual, f :: ValidPrices(p) && BilledMinute(t, actual, f, p) > BilledMinute(s, actual, f, p)
  }

  function AtLeastZero(n: int): nat {
    if n < 0 then 0 else n
  }

  /** Of one resource: no replica takes more than before, nor do all of them together. */
  predicate NoMoreOf(before: real, n: int, after: real, m: int) {
    && (n > 0 ==> after <= before)
    && (m as real) * after <= (AtLeastZero(n) as real) * before
  }

  predicate NoMore(s: Shape, t: Shape) {
    || t.desiredReplicas <= 0
    || (&& NoMoreOf(s.cpu, s.desiredReplicas, t.cpu, t.desiredReplicas)
        && NoMoreOf(s.memoryBytes as real, s.desiredReplicas, t.memoryBytes as real, t.desiredReplicas)
        && NoMoreOf(s.gpu as real, s.desiredReplicas, t.gpu as real, t.desiredReplicas))
  }

  /** What all replicas take of one resource. */
  function Taken(replicas: nat, each: real): real {
    (replicas as real) * each
  }

  function Bill(cpu: real, memoryBytes: real, gpu: real, p: Prices): real {
    (cpu * p.cpu + (memoryBytes / 1000000000.0) * p.memoryGb + gpu * p.gpu) / 60.0
  }

  lemma BillGrows(cpu: real, cpu': real, memoryBytes: real, memoryBytes': real, gpu: real, gpu': real, p: Prices)
    requires ValidPrices(p) && cpu <= cpu' && memoryBytes <= memoryBytes' && gpu <= gpu'
    ensures Bill(cpu, memoryBytes, gpu, p) <= Bill(cpu', memoryBytes', gpu', p)
  {
    var gb, gb' := memoryBytes / 1000000000.0, memoryBytes' / 1000000000.0;
    ProductGrows(cpu, cpu', p.cpu);
    ProductGrows(gb, gb', p.memoryGb);
    ProductGrows(gpu, gpu', p.gpu);
    assert cpu * p.cpu + gb * p.memoryGb + gpu * p.gpu <= cpu' * p.cpu + gb' * p.memoryGb + gpu' * p.gpu;
  }

  /** The cost of a minute, resource by resource. */
  lemma MinuteByResource(s: Shape, n: nat, p: Prices)
    ensures MinuteCost(s, n, p) == Bill(Taken(n, s.cpu), Taken(n, s.memoryBytes as real), Taken(n, s.gpu as real), p)
  {
    if n > 0 {
      var c, b, g, k := s.cpu, s.memoryBytes as real / 1000000000.0, s.gpu as real, n as real;
      assert Taken(n, s.memoryBytes as real) / 1000000000.0 == k * b;
      assert (c * p.cpu) * k == (k * c) * p.cpu;
      assert (b * p.memoryGb) * k == (k * b) * p.memoryGb;
      assert (g * p.gpu) * k == (k * g) * p.gpu;
      assert HourlyCost(s, p) * k == (c * p.cpu) * k + (b * p.memoryGb) * k + (g * p.gpu) * k;
    }
  }

  /** However many replicas run, those billed take no more of such a resource. */
  lemma BilledTakeNoMore(before: real, n: int, after: real, m: int, actual: int)
    requires before >= 0.0 && after >= 0.0 && m > 0 && NoMoreOf(before, n, after, m)
    ensures Taken(BilledReplicas(actual, m), after) <= Taken(BilledReplicas(actual, AtLeastZero(n)), before)
  {
    var b, a := BilledReplicas(actual, m), BilledReplicas(actual, AtLeastZero(n));
    if n <= 0 {
      ProductGrows(1.0, m as real, after);
      assert after == 0.0;
    } else if actual <= n {
      assert b <= a;
      ProductsGrow(b as real, a as real, after, before);
    } else {
      ProductsGrow(b as real, m as real, after, after);
    }
  }

  lemma TakenIsSome(n: nat, each: real)
    requires each >= 0.0
    ensures Taken(0, each) == 0.0 <= Taken(n, each)
  {
  }

  lemma NoMoreIsNeverDearer(s: Shape, t: Shape, p: Prices, actual: int, f: Flags)
    requires NonNegative(s) && NonNegative(t) && ValidPrices(p) && NoMore(s, t)
    ensures BilledMinute(t, actual, f, p) <= BilledMinute(s, actual, f, p)
  {
    hide HourlyCost, MinuteCost, NoMoreOf, Taken, Bill;
    var n, m := BilledReplicas(actual, EffectiveReplicas(s.desiredReplicas, f)),
                BilledReplicas(actual, EffectiveReplicas(t.desiredReplicas, f));
    MinuteByResource(s, n, p);
    MinuteByResource(t, m, p);
    if m == 0 {
      TakenIsSome(n, s.cpu);
      TakenIsSome(n, s.memoryBytes as real);
      TakenIsSome(n, s.gpu as real);
      TakenIsSome(0, t.cpu);
      TakenIsSome(0, t.memoryBytes as real);
      TakenIsSome(0, t.gpu as real);
    } else {
      BilledTakeNoMore(s.cpu, s.desiredReplicas, t.cpu, t.desiredReplicas, actual);
      BilledTakeNoMore(s.memoryBytes as real, s.desiredReplicas, t.memoryBytes as real, t.desiredReplicas, actual);
      BilledTakeNoMore(s.gpu as real, s.desiredReplicas, t.gpu as real, t.desiredReplicas, actual);
    }
    BillGrows(Taken(m, t.cpu), Taken(n, s.cpu),
              Taken(m, t.memoryBytes as real), Taken(n, s.memoryBytes as real),
              Taken(m, t.gpu as real), Taken(n, s.gpu as real), p);
  }

  const RUNNING := Flags(true, true, true, false)

  /** At the price of one resource alone the bill shows what the billed replicas take of it. */
  lemma BillOfOneResource(s: Shape, actual: nat)
    ensures var n := BilledReplicas(actual, AtLeastZero(s.desiredReplicas)) as real;
      && BilledMinute(s, actual, RUNNING, Prices(1.0, 0.0, 0.0)) == n * s.cpu / 60.0
      && BilledMinute(s, actual, RUNNING, Prices(0.0, 1000000000.0, 0.0)) == n * (s.memoryBytes as real) / 60.0
      && BilledMinute(s, actual, RUNNING, Prices(0.0, 0.0, 1.0)) == n * (s.gpu as real) / 60.0
  {
    hide MinuteCost;
    var n := BilledReplicas(actual, AtLeastZero(s.desiredReplicas));
    MinuteByResource(s, n, Prices(1.0, 0.0, 0.0));
    MinuteByResource(s, n, Prices(0.0, 1000000000.0, 0.0));
    MinuteByResource(s, n, Prices(0.0, 0.0, 1.0));
  }

  /** With `actual` replicas running, the bills at the three prices compare what each resource takes. */
  lemma NeverDearerTakesNoMore(s: Shape, t: Shape, actual: nat)
    requires NeverDearer(s, t)
    ensures var n, m := BilledReplicas(actual, AtLeastZero(s.desiredReplicas)) as real,
                        BilledReplicas(actual, AtLeastZero(t.desiredReplicas)) as real;
      && m * t.cpu <= n * s.cpu
      && m * (t.memoryBytes as real) <= n * (s.memoryBytes as real)
      && m * (t.gpu as real) <= n * (s.gpu as real)
  {
    hide BilledMinute, BilledReplicas, AtLeastZero;
    BillOfOneResource(s, actual);
    BillOfOneResource(t, actual);
  }

  /** One running replica shows what a single replica takes; enough of them show what all take. */
  lemma NeverDearerIsNoMore(s: Shape, t: Shape)
    requires NeverDearer(s, t)
    ensures NoMore(s, t)
  {
    hide NeverDearer;
    if t.desiredReplicas > 0 {
      NeverDearerTakesNoMore(s, t, 1);
      var n, m := AtLeastZero(s.desiredReplicas), t.desiredReplicas;
      NeverDearerTakesNoMore(s, t, n + m);
      assert BilledReplicas(n + m, n) == n && BilledReplicas(n + m, m) == m;
      assert n > 0 ==> BilledReplicas(1, n) == BilledReplicas(1, m) == 1;
    }
  }

  /** An app never costs more after a change of its shape exactly if no replica takes more of any
      resource and all of them together do not either, or none is wanted any more. */
  lemma NeverDearerExactly(s: Shape, t: Shape)
    requires NonNegative(s) && NonNegative(t)
    ensures NeverDearer(s, t) <==> NoMore(s, t)
    ensures DearerSomewhere(s, t) <==> !NoMore(s, t)
  {
    if NoMore(s, t) {
      forall p, actual, f | ValidPrices(p) ensures BilledMinute(t, actual, f, p) <= BilledMinute(s, actual, f, p) {
        NoMoreIsNeverDearer(s, t, p, actual, f);
      }
    } else if NeverDearer(s, t) {
      NeverDearerIsNoMore(s, t);
    }
  }

  lemma PassedIsNeverDearer(s: Shape, u: ShapeUpdate)
    requires NonNegative(Updated(s, u)) && !IsCostIncreasing(s, u)
    ensures NeverDearer(s, Updated(s, u))
  {
    hide BilledMinute;
    forall p, actual, f | ValidPrices(p)
      ensures BilledMinute(Updated(s, u), actual, f, p) <= BilledMinute(s, actual, f, p)
    {
      PreflightIsSound(s, u, p, actual, f);
    }
  }

  /** The preflight is right about an update exactly unless it stops one that takes no more: what it
      lets pass never costs more, and what it stops costs more somewhere exactly if `NoMore` fails. */
  lemma StoppedIsDearerExactly(s: Shape, u: ShapeUpdate)
    requires NonNegative(s) && NonNegative(Updated(s, u))
    ensures !IsCostIncreasing(s, u) ==> !DearerSomewhere(s, Updated(s, u))
    ensures (IsCostIncreasing(s, u) <==> DearerSomewhere(s, Updated(s, u)))
       <==> !(IsCostIncreasing(s, u) && NoMore(s, Updated(s, u)))
  {
    hide BilledMinute, NoMore;
    var t := Updated(s, u);
    NeverDearerExactly(s, t);
    if !IsCostIncreasing(s, u) {
      PassedIsNeverDearer(s, u);
    }
  }

  /** As long as replicas remain and no more are asked for, it is exact. */
  lemma ExactUnlessReplicasGrow(s: Shape, u: ShapeUpdate)
    requires 0 < Updated(s, u).desiredReplicas <= s.desiredReplicas
    ensures IsCostIncreasing(s, u) ==> DearerSomewhere(s, Updated(s, u))
    ensures NonNegative(Updated(s, u)) ==> (IsCostIncreasing(s, u) <==> DearerSomewhere(s, Updated(s, u)))
  {
    hide BilledMinute;
    var t := Updated(s, u);
    if IsCostIncreasing(s, u) {
      if NeverDearer(s, t) {
        NeverDearerIsNoMore(s, t);
        assert false;
      }
    } else if NonNegative(t) {
      PassedIsNeverDearer(s, u);
    }
  }

  /** With more replicas it can stop an update that never costs more: twice the replicas, each half as large. */
  lemma PreflightIsCautious()
    ensures var s, u := Shape(2.0, 2000000000, 0, 1), ShapeUpdate(Some(1.0), Some(1000000000), None, Some(2));
      IsCostIncreasing(s, u) && NeverDearer(s, Updated(s, u))
  {
    var s, u := Shape(2.0, 2000000000, 0, 1), ShapeUpdate(Some(1.0), Some(1000000000), None, Some(2));
    NeverDearerExactly(s, Updated(s, u));
  }

  function StorageMinuteCost(sizeBytes: int, price: real): real {
    (sizeBytes as real / 1000000000.0) * price / 60.0
  }

  /** For volumes the check is exact. */
  lemma VolumePreflightIsExact(current: int, requested: int, price: real)
    requires price > 0.0
    ensures StorageMinuteCost(requested, price) > StorageMinuteCost(current, price) <==> requested > current
  {
    var a, b := current as real / 1000000000.0, requested as real / 1000000000.0;
    if requested > current {
      assert (b - a) * price > 0.0;
    } else {
      assert (a - b) * price >= 0.0;
    }
  }
}
