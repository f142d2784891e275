/**
 A reconcile lane: tasks that run one at a time, each when its interval has passed since its
 last run settled, until the lane is told to stop. Time passes while a task runs and while
 the lane sleeps; a clock that steps back is not modelled.
 */
module Lane {
  /** Milliseconds must be a safe integer. */
  const MAX_SAFE_INTEGER := 9007199254740991

  datatype Task = Task(key: string, interval: int)

  /** One run, with the delay that was reported at its start. */
  datatype Run = Run(task: nat, due: int, start: int, end: int, delay: int, failed: bool)

  predicate ValidTask(t: Task) {
    t.key != "" && 0 < t.interval <= MAX_SAFE_INTEGER
  }

  predicate ValidTasks(tasks: seq<Task>) {
    && (forall i | 0 <= i < |tasks| :: ValidTask(tasks[i]))
    && (forall i, j | 0 <= i < j < |tasks| :: tasks[i].key != tasks[j].key)
  }

  /** When task `i` is due after the runs of `log`: an interval after its last run settled. */
  function Due(tasks: seq<Task>, t0: nat, log: seq<Run>, i: nat): int
    requires i < |tasks|
  {
    if log == [] then t0 else
      var last := log[|log| - 1];
      if last.task == i then last.end + tasks[i].interval else Due(tasks, t0, log[..|log| - 1], i)
  }

  /** The run `r`, after the runs of `before`, is of a task that was due, and is reported as it was. */
  predicate OnSchedule(tasks: seq<Task>, t0: nat, before: seq<Run>, r: Run) {
    && r.task < |tasks| && ValidTask(tasks[r.task])
    && r.due == Due(tasks, t0, before, r.task) && r.due <= r.start <= r.end
    && r.delay == r.start - r.due
    && (before != [] ==> before[|before| - 1].end <= r.start)
  }

  predicate Scheduled(tasks: seq<Task>, t0: nat, log: seq<Run>) {
    forall m | 0 <= m < |log| :: OnSchedule(tasks, t0, log[..m], log[m])
  }

  function Sum(limits: seq<nat>, n: nat): nat
    requires n <= |limits|
  {
    if n == 0 then 0 else Sum(limits, n - 1) + limits[n - 1]
  }

  lemma {:induction false} SumGrows(limits: seq<nat>, m: nat, n: nat)
    requires m <= n <= |limits|
    ensures Sum(limits, m) <= Sum(limits, n)
  {
    if m < n { SumGrows(limits, m, n - 1); }
  }

  /** The longest a due task waits: one sleep and one run of every other task. */
  function Lateness(limits: seq<nat>, poll: nat, i: nat): int
    requires i < |limits|
  {
    poll + Sum(limits, |limits|) - limits[i]
  }

  /** The keys seen so far decide whether the next one is a duplicate. */
  method Check(tasks: seq<Task>) returns (valid: bool)
    ensures valid <==> ValidTasks(tasks)
  {
    var keys := {};
    for i := 0 to |tasks|
      invariant ValidTasks(tasks[..i])
      invariant forall k :: k in keys <==> exists j :: 0 <= j < i && tasks[j].key == k
    {
      if !ValidTask(tasks[i]) || tasks[i].key in keys {
        assert tasks[..i + 1][i] == tasks[i];
        return false;
      }
      keys := keys + {tasks[i].key};
    }
    assert tasks[..|tasks|] == tasks;
    valid := true;
  }

  /** Waiting times while task `k` is the next to be looked at. */
  predicate Waiting(tasks: seq<Task>, limits: seq<nat>, poll: nat, next: map<string, int>, now: int, k: nat) {
    && |limits| == |tasks| && k <= |tasks| && (forall i | 0 <= i < |tasks| :: tasks[i].key in next)
    && (forall i | 0 <= i < k :: now - next[tasks[i].key] <= Sum(limits, k) - Sum(limits, i + 1))
    && (forall i | k <= i < |tasks| ::
          now - next[tasks[i].key] <= poll + Sum(limits, |limits|) - Sum(limits, i + 1) + Sum(limits, k))
  }

  predicate Agrees(tasks: seq<Task>, t0: nat, log: seq<Run>, next: map<string, int>) {
    forall i | 0 <= i < |tasks| :: tasks[i].key in next && next[tasks[i].key] == Due(tasks, t0, log, i)
  }

  lemma WaitingIsLateness(tasks: seq<Task>, limits: seq<nat>, poll: nat, next: map<string, int>, now: int, k: nat, i: nat)
    requires Waiting(tasks, limits, poll, next, now, k) && i < |tasks|
    ensures now - next[tasks[i].key] <= Lateness(limits, poll, i)
  {
    assert Sum(limits, i + 1) == Sum(limits, i) + limits[i];
    if i < k { SumGrows(limits, k, |limits|); } else { SumGrows(limits, k, i); }
  }

  lemma SettledKeepsWaiting(tasks: seq<Task>, limits: seq<nat>, poll: nat, next: map<string, int>, now: int,
                            k: nat, took: nat, due: int)
    requires Waiting(tasks, limits, poll, next, now, k) && k < |tasks| && took <= limits[k] && ValidTasks(tasks)
    requires due >= now + took
    ensures Waiting(tasks, limits, poll, next[tasks[k].key := due], now + took, k + 1)
  {
    assert Sum(limits, k + 1) == Sum(limits, k) + limits[k];
  }

  lemma SkippedKeepsWaiting(tasks: seq<Task>, limits: seq<nat>, poll: nat, next: map<string, int>, now: int, k: nat)
    requires Waiting(tasks, limits, poll, next, now, k) && k < |tasks| && now < next[tasks[k].key]
    ensures Waiting(tasks, limits, poll, next, now, k + 1)
  {
    assert Sum(limits, k + 1) == Sum(limits, k) + limits[k];
  }

  lemma SleptKeepsWaiting(tasks: seq<Task>, limits: seq<nat>, poll: nat, next: map<string, int>, now: int, slept: nat)
    requires Waiting(tasks, limits, poll, next, now, |tasks|) && slept <= poll
    ensures Waiting(tasks, limits, poll, next, now + slept, 0)
  {
  }

  lemma DueAfter(tasks: seq<Task>, t0: nat, log: seq<Run>, next: map<string, int>, r: Run)
    requires Agrees(tasks, t0, log, next) && ValidTasks(tasks) && r.task < |tasks|
    ensures Agrees(tasks, t0, log + [r], next[tasks[r.task].key := r.end + tasks[r.task].interval])
  {
    assert (log + [r])[..|log|] == log;
  }

  lemma ScheduledMore(tasks: seq<Task>, t0: nat, log: seq<Run>, r: Run)
    requires Scheduled(tasks, t0, log) && OnSchedule(tasks, t0, log, r)
    ensures Scheduled(tasks, t0, log + [r])
  {
    forall m | 0 <= m < |log| + 1 ensures OnSchedule(tasks, t0, (log + [r])[..m], (log + [r])[m]) {
      if m < |log| {
        assert (log + [r])[..m] == log[..m];
      } else {
        assert (log + [r])[..m] == log;
      }
    }
  }

  /** The run that starts now. */
  function Started(task: nat, due: int, now: nat, took: nat, failed: bool): Run {
    Run(task, due, now, now + took, now - due, failed)
  }

  predicate OnTime(tasks: seq<Task>, limits: seq<nat>, poll: nat, log: seq<Run>)
    requires |limits| == |tasks|
  {
    forall r | r in log :: r.task < |tasks| && r.delay <= Lateness(limits, poll, r.task)
  }

  predicate StartedBy(log: seq<Run>, t: int) {
    forall r | r in log :: r.start <= t
  }

  predicate EndedBy(log: seq<Run>, t: int) {
    log != [] ==> log[|log| - 1].end <= t
  }

  /** The lane at `now`, with task `k` next. */
  predicate Good(tasks: seq<Task>, limits: seq<nat>, poll: nat, t0: nat, log: seq<Run>, next: map<string, int>,
                 now: nat, k: nat) {
    && Waiting(tasks, limits, poll, next, now, k) && Agrees(tasks, t0, log, next)
    && Scheduled(tasks, t0, log) && OnTime(tasks, limits, poll, log)
    && EndedBy(log, now) && StartedBy(log, now)
  }

  lemma OneMoreRun(tasks: seq<Task>, limits: seq<nat>, poll: nat, t0: nat, log: seq<Run>, next: map<string, int>,
                   now: nat, k: nat, took: nat, failed: bool)
    requires ValidTasks(tasks) && k < |tasks| && Good(tasks, limits, poll, t0, log, next, now, k)
    requires next[tasks[k].key] <= now && took <= limits[k]
    ensures var more := log + [Started(k, next[tasks[k].key], now, took, failed)];
      && Good(tasks, limits, poll, t0, more, next[tasks[k].key := now + took + tasks[k].interval], now + took, k + 1)
      && StartedBy(more, now)
  {
    var r := Started(k, next[tasks[k].key], now, took, failed);
    WaitingIsLateness(tasks, limits, poll, next, now, k, k);
    ScheduledMore(tasks, t0, log, r);
    DueAfter(tasks, t0, log, next, r);
    SettledKeepsWaiting(tasks, limits, poll, next, now, k, took, r.end + tasks[k].interval);
  }

  lemma OneMoreSkip(tasks: seq<Task>, limits: seq<nat>, poll: nat, t0: nat, log: seq<Run>, next: map<string, int>,
                    now: nat, k: nat)
    requires k < |tasks| && Good(tasks, limits, poll, t0, log, next, now, k) && now < next[tasks[k].key]
    ensures Good(tasks, limits, poll, t0, log, next, now, k + 1)
  {
    SkippedKeepsWaiting(tasks, limits, poll, next, now, k);
  }

  lemma OneMoreSleep(tasks: seq<Task>, limits: seq<nat>, poll: nat, t0: nat, log: seq<Run>, next: map<string, int>,
                     now: nat, slept: nat)
    requires Good(tasks, limits, poll, t0, log, next, now, |tasks|) && slept <= poll
    ensures Good(tasks, limits, poll, t0, log, next, now + slept, 0) && StartedBy(log, now + slept)
  {
    SleptKeepsWaiting(tasks, limits, poll, next, now, slept);
  }

  lemma StopDuring(log: seq<Run>, now: nat, stop: nat)
    requires StartedBy(log, now) && now <= stop
    ensures StartedBy(log, stop)
  {
  }

  /** The body of the loop over the tasks. */
  method Turn(tasks: seq<Task>, poll: nat, limits: seq<nat>, t0: nat, past: seq<Run>, planned: map<string, int>,
              from: nat, k: nat)
    returns (log: seq<Run>, next: map<string, int>, now: nat, aborted: bool, stop: nat)
    requires ValidTasks(tasks) && k < |tasks| && Good(tasks, limits, poll, t0, past, planned, from, k)
    ensures Good(tasks, limits, poll, t0, log, next, now, k + 1)
    ensures aborted ==> stop <= now && StartedBy(log, stop)
  {
    hide Scheduled, OnTime, StartedBy;
    log, next, now, aborted, stop := past, planned, from, false, from;
    var task := tasks[k];
    var due := next[task.key];
    if now < due {
      OneMoreSkip(tasks, limits, poll, t0, log, next, now, k);
      return;
    }
    var took: nat :| took <= limits[k];
    var failed: bool := *;
    OneMoreRun(tasks, limits, poll, t0, log, next, now, k, took, failed);
    log := log + [Started(k, due, now, took, failed)];
    now := now + took;
    next := next[task.key := now + task.interval];
    aborted := *;
    if aborted {
      stop :| from <= stop <= now;
      StopDuring(log, from, stop);
    }
  }

  /** One pass over the tasks. It ends early when the lane is stopped while a task runs. */
  method Pass(tasks: seq<Task>, poll: nat, limits: seq<nat>, t0: nat, past: seq<Run>, planned: map<string, int>, from: nat)
    returns (log: seq<Run>, next: map<string, int>, now: nat, aborted: bool, stop: nat, k: nat)
    requires ValidTasks(tasks) && Good(tasks, limits, poll, t0, past, planned, from, 0)
    ensures k <= |tasks| && (!aborted ==> k == |tasks|) && Good(tasks, limits, poll, t0, log, next, now, k)
    ensures aborted ==> stop <= now && StartedBy(log, stop)
  {
    log, next, now, aborted, stop, k := past, planned, from, false, from, 0;
    while k < |tasks| && !aborted
      invariant k <= |tasks| && Good(tasks, limits, poll, t0, log, next, now, k)
      invariant aborted ==> stop <= now && StartedBy(log, stop)
    {
      log, next, now, aborted, stop := Turn(tasks, poll, limits, t0, log, next, now, k);
      k := k + 1;
    }
  }

  lemma AllWaiting(tasks: seq<Task>, limits: seq<nat>, poll: nat, t0: nat, log: seq<Run>, next: map<string, int>,
                   now: int, k: nat)
    requires Waiting(tasks, limits, poll, next, now, k) && Agrees(tasks, t0, log, next)
    ensures forall i | 0 <= i < |tasks| :: now - Due(tasks, t0, log, i) <= Lateness(limits, poll, i)
  {
    forall i | 0 <= i < |tasks| ensures now - Due(tasks, t0, log, i) <= Lateness(limits, poll, i) {
      WaitingIsLateness(tasks, limits, poll, next, now, k, i);
    }
  }

  lemma NobodyWaits(tasks: seq<Task>, limits: seq<nat>, poll: nat, t0: nat, next: map<string, int>)
    requires |limits| == |tasks| && forall i | 0 <= i < |tasks| :: tasks[i].key in next && next[tasks[i].key] == t0
    ensures Waiting(tasks, limits, poll, next, t0, 0) && Agrees(tasks, t0, [], next)
  {
    forall i: nat | i < |tasks| ensures t0 - next[tasks[i].key] <= poll + Sum(limits, |limits|) - Sum(limits, i + 1) + Sum(limits, 0) {
      SumGrows(limits, i + 1, |limits|);
    }
  }

  /** The lane. A run of task `i` takes at most `limits[i]`, fails or not; the lane is stopped at
      any moment, at the latest after `rounds` sleeps, and `stop` is that moment. However it went:
      every run was due, one at a time and by its schedule; no run started later than the bound
      after it was due, or after the stop; and no task was left waiting for longer than that. */
  method RunReconcileLane(tasks: seq<Task>, poll: nat, limits: seq<nat>, t0: nat, rounds: nat)
    returns (valid: bool, log: seq<Run>, stop: nat)
    requires |limits| == |tasks|
    ensures valid <==> ValidTasks(tasks)
    ensures !valid ==> log == []
    ensures Scheduled(tasks, t0, log) && OnTime(tasks, limits, poll, log) && StartedBy(log, stop)
    ensures valid ==>
      forall i | 0 <= i < |tasks| :: stop - Due(tasks, t0, log, i) <= Lateness(limits, poll, i)
  {
    log, stop := [], t0;
    valid := Check(tasks);
    if !valid { return; }
    var next := Initial(tasks, t0);
    NobodyWaits(tasks, limits, poll, t0, next);
    var now: nat, left: nat, k: nat := t0, rounds, 0;
    var aborted: bool := *;
    while !aborted
      invariant k <= |tasks| && (!aborted ==> k == 0) && Good(tasks, limits, poll, t0, log, next, now, k)
      invariant aborted ==> stop <= now && StartedBy(log, stop)
      decreases left, if aborted then 0 else 1
    {
      log, next, now, aborted, stop, k := Pass(tasks, poll, limits, t0, log, next, now);
      if !aborted {
        var slept: nat :| slept <= poll;
        OneMoreSleep(tasks, limits, poll, t0, log, next, now, slept);
        now, k := now + slept, 0;
        aborted := *;
        if aborted || left == 0 {
          aborted, stop := true, now;
        } else {
          left := left - 1;
        }
      }
    }
    AllWaiting(tasks, limits, poll, t0, log, next, now, k);
  }

  function Initial(tasks: seq<Task>, t0: nat): (next: map<string, int>)
    ensures forall i | 0 <= i < |tasks| :: tasks[i].key in next && next[tasks[i].key] == t0
  {
    if tasks == [] then map[] else
      var before := Initial(tasks[..|tasks| - 1], t0);
      before[tasks[|tasks| - 1].key := t0]
  }

  // ---- What the schedule means ------------------------------------------------------------

  lemma ScheduledSoFar(tasks: seq<Task>, t0: nat, log: seq<Run>)
    requires Scheduled(tasks, t0, log) && log != []
    ensures Scheduled(tasks, t0, log[..|log| - 1])
  {
    var init := log[..|log| - 1];
    forall m | 0 <= m < |init| ensures OnSchedule(tasks, t0, init[..m], init[m]) {
      assert init[..m] == log[..m] && OnSchedule(tasks, t0, log[..m], log[m]);
    }
  }

  lemma LastOnSchedule(tasks: seq<Task>, t0: nat, log: seq<Run>)
    requires Scheduled(tasks, t0, log) && log != []
    ensures OnSchedule(tasks, t0, log[..|log| - 1], log[|log| - 1])
  {
  }

  lemma {:induction false} DueIsAfterEveryRun(tasks: seq<Task>, t0: nat, log: seq<Run>, i: nat)
    requires Scheduled(tasks, t0, log) && i < |log|
    ensures log[i].task < |tasks| && Due(tasks, t0, log, log[i].task) >= log[i].end + tasks[log[i].task].interval
    ensures log[|log| - 1].end >= log[i].end
  {
    hide Scheduled;
    var init, last := log[..|log| - 1], log[|log| - 1];
    LastOnSchedule(tasks, t0, log);
    if i < |log| - 1 {
      ScheduledSoFar(tasks, t0, log);
      DueIsAfterEveryRun(tasks, t0, init, i);
      assert init[i] == log[i] && init[|init| - 1].end <= last.start;
    }
  }

  /** No two runs overlap, a task starts again no sooner than its interval after its last run
      settled, and none of this depends on whether runs failed. */
  lemma RunsAreSpaced(tasks: seq<Task>, t0: nat, log: seq<Run>, i: nat, j: nat)
    requires Scheduled(tasks, t0, log) && i < j < |log|
    ensures log[i].end <= log[j].start
    ensures log[i].task == log[j].task ==> log[j].start >= log[i].end + tasks[log[i].task].interval
    ensures log[j].delay == log[j].start - log[j].due >= 0
  {
    assert OnSchedule(tasks, t0, log[..j], log[j]);
    assert Scheduled(tasks, t0, log[..j]) by {
      forall m | 0 <= m < j ensures OnSchedule(tasks, t0, log[..j][..m], log[..j][m]) {
        assert log[..j][..m] == log[..m] && OnSchedule(tasks, t0, log[..m], log[m]);
      }
    }
    DueIsAfterEveryRun(tasks, t0, log[..j], i);
  }

  // ---- The reported metrics -----------------------------------------------------------------

  datatype Metric = Metric(key: string, delay: int, missedCycles: int, duration: int)

  /** One metric when a run starts (its duration is not known and reported as zero), and one when
      it settles if it took an interval or more. */
  function Metrics(tasks: seq<Task>, r: Run): seq<Metric>
    requires r.task < |tasks| && tasks[r.task].interval > 0
  {
    var t := tasks[r.task];
    var overrun := (r.end - r.start) / t.interval;
    [Metric(t.key, r.delay, r.delay / t.interval, 0)] +
    if overrun != 0 then [Metric(t.key, 0, overrun, r.end - r.start)] else []
  }

  /** The missed cycles are the whole intervals in the delay; a run is reported as an overrun
      exactly when it took at least its interval. */
  lemma MetricsAreExact(tasks: seq<Task>, t0: nat, before: seq<Run>, r: Run)
    requires OnSchedule(tasks, t0, before, r)
    ensures var m, t := Metrics(tasks, r), tasks[r.task];
      && m[0].missedCycles * t.interval <= r.delay < (m[0].missedCycles + 1) * t.interval
      && (|m| == 2 <==> r.end - r.start >= t.interval)
      && (|m| == 2 ==> m[1].missedCycles >= 1)
  {
    Floor(r.delay, tasks[r.task].interval);
    Floor(r.end - r.start, tasks[r.task].interval);
  }

  lemma Floor(d: int, interval: int)
    requires d >= 0 && interval > 0
    ensures (d / interval) * interval <= d < (d / interval + 1) * interval
    ensures d / interval >= 0 && (d / interval >= 1 <==> d >= interval)
  {
    var q := d / interval;
    assert d == q * interval + d % interval;
    if q >= 1 { assert q * interval >= interval; }
  }
}
