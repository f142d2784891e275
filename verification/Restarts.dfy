/**
 Restarts of apps. Each transaction holds the runtime admission lock, so a request is one step:
 it finds the outstanding restart of the app, or queues a new one.
 */
module Restarts {
  datatype Operation = Operation(app: nat, outstanding: bool)

  /** `Settle` is the end of an operation, whatever its result. */
  datatype Event = Restart(app: nat) | Settle(operation: nat)

  datatype State = State(operations: seq<Operation>, answers: seq<nat>)

  predicate OutstandingAt(ops: seq<Operation>, app: nat, i: nat) {
    i < |ops| && ops[i] == Operation(app, true)
  }

  /** The newest outstanding restart of the app, or the number of operations if there is none. */
  function Newest(ops: seq<Operation>, app: nat): (i: nat)
    ensures i <= |ops| && (i < |ops| ==> OutstandingAt(ops, app, i))
    ensures forall j | i < j < |ops| :: !OutstandingAt(ops, app, j)
    ensures i == |ops| ==> forall j | 0 <= j < |ops| :: !OutstandingAt(ops, app, j)
  {
    if ops == [] then 0 else
      var last := |ops| - 1;
      if ops[last] == Operation(app, true) then last else
        var i := Newest(ops[..last], app);
        assert forall j | 0 <= j < last :: OutstandingAt(ops, app, j) == OutstandingAt(ops[..last], app, j);
        if i < last then i else |ops|
  }

  function Next(s: State, e: Event): State {
    match e
    case Restart(app) =>
      var i := Newest(s.operations, app);
      State(if i < |s.operations| then s.operations else s.operations + [Operation(app, true)], s.answers + [i])
    case Settle(i) =>
      if i < |s.operations| then s.(operations := s.operations[i := s.operations[i].(outstanding := false)]) else s
  }

  function Run(events: seq<Event>): State {
    if events == [] then State([], []) else Next(Run(events[..|events| - 1]), events[|events| - 1])
  }

  predicate OnePerApp(ops: seq<Operation>) {
    forall i, j | 0 <= i < j < |ops| :: ops[i].outstanding && ops[j].outstanding ==> ops[i].app != ops[j].app
  }

  /** At no time are two restarts of one app outstanding. */
  lemma {:induction false} NoSecondRestart(events: seq<Event>)
    ensures OnePerApp(Run(events).operations)
  {
    if events != [] {
      var before := Run(events[..|events| - 1]);
      NoSecondRestart(events[..|events| - 1]);
      if events[|events| - 1].Restart? {
        var ops, app := before.operations, events[|events| - 1].app;
        assert forall j | 0 <= j < |ops| :: OutstandingAt(ops, app, j) == (ops[j].app == app && ops[j].outstanding);
      }
    }
  }

  predicate Leaves(events: seq<Event>, operation: nat) {
    forall e | e in events :: e != Settle(operation)
  }

  lemma {:induction false} StaysOutstanding(events: seq<Event>, more: seq<Event>, app: nat, i: nat)
    requires OutstandingAt(Run(events).operations, app, i) && Leaves(more, i)
    ensures OutstandingAt(Run(events + more).operations, app, i)
  {
    if more == [] {
      assert events + more == events;
    } else {
      var init, e := more[..|more| - 1], more[|more| - 1];
      assert e in more && forall x | x in init :: x in more;
      StaysOutstanding(events, init, app, i);
      assert (events + more)[..|events + more| - 1] == events + init;
    }
  }

  /** A repeated request gets the operation of the first one, and queues nothing, as long as that
      operation has not been settled. */
  lemma RepeatedRestartIsTheSame(events: seq<Event>, app: nat, between: seq<Event>)
    requires Leaves(between, Newest(Run(events).operations, app))
    ensures var i := Newest(Run(events).operations, app);
      var s := Run(events + [Restart(app)] + between);
      Next(s, Restart(app)) == s.(answers := s.answers + [i])
  {
    var first := events + [Restart(app)];
    var i := Newest(Run(events).operations, app);
    assert first[..|first| - 1] == events;
    assert OutstandingAt(Run(first).operations, app, i);
    StaysOutstanding(first, between, app, i);
    NoSecondRestart(first + between);
    var ops := Run(first + between).operations;
    var j := Newest(ops, app);
    assert j < |ops| && OutstandingAt(ops, app, j);
  }
}
