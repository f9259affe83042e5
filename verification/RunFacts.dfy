/**
  What the table invariant says about runs: the order tasks start in, the history of a task
  run's attempts, where a stop verdict comes from, and that no run is ever stuck.
 */
module RunFacts {
  import opened Options
  import opened Tables
  import opened TableInvariant

  // ---- Dependency order ----

  /** Each task run of the path depends directly on the next. */
  ghost predicate DependencyPath(d: Db, path: seq<nat>) {
    && (forall i :: 0 <= i < |path| ==> path[i] < |d.taskRuns|)
    && (forall i :: 0 <= i < |path| - 1 ==> path[i + 1] in d.taskRuns[path[i]].dependsOn)
  }

  /** A task run that has ever been Running has every transitive dependency Succeeded. */
  lemma {:induction false} DependenciesRanFirst(d: Db, path: seq<nat>, i: nat)
    requires Inv(d) && DependencyPath(d, path)
    requires 0 < i < |path| && d.taskRuns[path[0]].status.HasRun()
    ensures d.taskRuns[path[i]].status.Succeeded?
    decreases |path|
  {
    assert TaskOk(d, path[0]);
    var dep := path[0 + 1];
    var k :| 0 <= k < |d.taskRuns[path[0]].dependsOn| && d.taskRuns[path[0]].dependsOn[k] == dep;
    if i > 1 {
      var rest := path[1..];
      forall m | 0 <= m < |rest| - 1 ensures rest[m + 1] in d.taskRuns[rest[m]].dependsOn {
        assert path[m + 2] in d.taskRuns[path[m + 1]].dependsOn;
      }
      DependenciesRanFirst(d, rest, i - 1);
    }
  }

  // ---- Attempt history ----

  lemma {:induction false} NumbersIncrease(d: Db, a: nat, b: nat)
    requires Inv(d) && a < b < |d.attempts| && d.attempts[a].taskRun == d.attempts[b].taskRun
    ensures d.attempts[a].number < d.attempts[b].number
    decreases b
  {
    assert AttemptOk(d, b) && OfTask(d.attempts, a, d.attempts[b].taskRun);
    var before := LastBefore(d.attempts, b, d.attempts[b].taskRun).value;
    if a < before {
      NumbersIncrease(d, a, before);
    }
  }

  lemma {:induction false} NumbersReachBack(d: Db, a: nat, k: nat) returns (b: nat)
    requires Inv(d) && a < |d.attempts| && 1 <= k <= d.attempts[a].number
    ensures b <= a && d.attempts[b].taskRun == d.attempts[a].taskRun && d.attempts[b].number == k
    decreases a
  {
    assert AttemptOk(d, a);
    if d.attempts[a].number == k {
      return a;
    }
    var before := LastBefore(d.attempts, a, d.attempts[a].taskRun).value;
    b := NumbersReachBack(d, before, k);
  }

  /** How many attempts a task run has had: the number of its last one. */
  function Tries(d: Db, t: nat): nat {
    match Last(d, t)
    case None => 0
    case Some(a) => d.attempts[a].number
  }

  ghost predicate HasAttempt(d: Db, t: nat, number: nat) {
    exists a :: 0 <= a < |d.attempts| && OfTask(d.attempts, a, t) && d.attempts[a].number == number
  }

  /**
    The attempts of a task run are numbered exactly 1 to `Tries`, once each; there are never
    more than its retries allow, and every one but the last has failed.
   */
  lemma AttemptHistory(d: Db, t: nat)
    requires Inv(d) && t < |d.taskRuns|
    ensures Tries(d, t) <= d.taskRuns[t].maxRetries + 1
    ensures forall k :: 1 <= k <= Tries(d, t) ==> HasAttempt(d, t, k)
    ensures forall a :: 0 <= a < |d.attempts| && OfTask(d.attempts, a, t) ==>
      && 1 <= d.attempts[a].number <= Tries(d, t)
      && (d.attempts[a].number < Tries(d, t) ==> d.attempts[a].status.Failed?)
    ensures forall a, b ::
      0 <= a < b < |d.attempts| && OfTask(d.attempts, a, t) && OfTask(d.attempts, b, t)
      ==> d.attempts[a].number != d.attempts[b].number
  {
    var last := Last(d, t);
    if last.Some? {
      assert AttemptOk(d, last.value);
      forall k | 1 <= k <= Tries(d, t) ensures HasAttempt(d, t, k) {
        var a := NumbersReachBack(d, last.value, k);
        assert OfTask(d.attempts, a, t);
      }
      forall a | 0 <= a < |d.attempts| && OfTask(d.attempts, a, t) && a != last.value
        ensures 1 <= d.attempts[a].number < Tries(d, t) && d.attempts[a].status.Failed?
      {
        assert AttemptOk(d, a);
        NumbersIncrease(d, a, last.value);
      }
    }
    forall a, b | 0 <= a < b < |d.attempts| && OfTask(d.attempts, a, t) && OfTask(d.attempts, b, t)
      ensures d.attempts[a].number != d.attempts[b].number
    {
      NumbersIncrease(d, a, b);
    }
  }

  /** Each attempt is spawned for at most once, and one task run never has two shells alive. */
  lemma OneShellPerTask(d: Db, a: nat, b: nat)
    requires Inv(d) && a < |d.attempts| && b < |d.attempts| && a != b
    requires d.attempts[a].taskRun == d.attempts[b].taskRun
    ensures d.attempts[a].spawns <= 1
    ensures !(d.attempts[a].shell.Alive? && d.attempts[b].shell.Alive?)
  {
    assert AttemptOk(d, a) && AttemptOk(d, b);
    var earlier := if a < b then a else b;
    assert d.attempts[earlier].status.Failed?;
  }

  // ---- How a run ends ----

  /** The arm JobRunMonitor reports as a bug is never taken, whatever the task runs hold. */
  lemma JobVerdictDecided(d: Db, j: nat)
    ensures JobVerdict(d, j).Some?
    ensures JobVerdict(d, j) == Some(JobRunStatus.Running) <==>
      exists t :: 0 <= t < |d.taskRuns| && InJob(d, t, j) && !d.taskRuns[t].status.IsFinished()
  {}

  ghost predicate LastSucceeded(d: Db, t: nat) {
    Last(d, t).Some? && d.attempts[Last(d, t).value].status.Succeeded?
  }

  /** A run that went all the way succeeded exactly when the last attempt of every task did. */
  lemma SucceededIff(d: Db, j: nat)
    requires Inv(d) && j < |d.jobRuns|
    requires d.jobRuns[j].status.IsFinished() && !d.jobRuns[j].status.Skipped? && !d.jobRuns[j].status.Deleted?
    ensures d.jobRuns[j].status.Succeeded? <==>
      forall t :: 0 <= t < |d.taskRuns| && InJob(d, t, j) ==> LastSucceeded(d, t)
  {
    assert JobOk(d, j);
    JobVerdictDecided(d, j);
    forall t | 0 <= t < |d.taskRuns| && InJob(d, t, j)
      ensures d.taskRuns[t].status.Succeeded? <==> LastSucceeded(d, t)
    {
      assert TaskOk(d, t) && d.taskRuns[t].status.IsFinished();
      if LastSucceeded(d, t) {
        assert AttemptOk(d, Last(d, t).value);
      }
    }
  }

  /** A stopped verdict leads back, through skipped dependencies, to a stop. */
  lemma {:induction false} StopTraced(d: Db, t: nat)
    requires Inv(d) && t < |d.taskRuns| && d.taskRuns[t].status.IsStopped()
    requires d.taskRuns[t].jobRun < |d.jobRuns| && !d.jobRuns[d.taskRuns[t].jobRun].status.Deleted?
    requires forall u ::
      0 <= u < |d.taskRuns| && InJob(d, u, d.taskRuns[t].jobRun) && d.taskRuns[u].status.IsBad()
      ==> d.taskRuns[u].status.IsStopped()
    ensures d.taskRuns[t].jobRun in d.stops
    decreases d.taskRuns[t].rank
  {
    assert TaskOk(d, t);
    if d.taskRuns[t].status.Aborted? {
      assert AttemptOk(d, Last(d, t).value);
    } else if d.taskRuns[t].jobRun !in d.stops {
      var k :| 0 <= k < |d.taskRuns[t].dependsOn| && d.taskRuns[t].dependsOn[k] < |d.taskRuns|
        && d.taskRuns[d.taskRuns[t].dependsOn[k]].status.IsBad();
      assert InJob(d, d.taskRuns[t].dependsOn[k], d.taskRuns[t].jobRun);
      StopTraced(d, d.taskRuns[t].dependsOn[k]);
    }
  }

  /** A run is Aborted, or Skipped, only if a stop row for it exists. */
  lemma AbortedOnlyIfStopped(d: Db, j: nat)
    requires Inv(d) && j < |d.jobRuns| && (d.jobRuns[j].status.Aborted? || d.jobRuns[j].status.Skipped?)
    ensures j in d.stops
  {
    assert JobOk(d, j);
    if d.jobRuns[j].status.Aborted? {
      var t :| 0 <= t < |d.taskRuns| && InJob(d, t, j) && d.taskRuns[t].status.IsStopped();
      StopTraced(d, t);
    }
  }

  // ---- No run is stuck ----

  /** Some service's next look at the run, or at a row of it, decides a change. */
  ghost predicate ServiceCanMove(d: Db, j: nat) {
    || JobVerdict(d, j) != Some(JobRunStatus.Running)
    || exists t :: 0 <= t < |d.taskRuns| && InJob(d, t, j) && TaskCanMove(d, t)
  }

  ghost predicate TaskCanMove(d: Db, t: nat)
    requires t < |d.taskRuns|
  {
    || (d.taskRuns[t].status.Waiting? && TaskVerdict(d, t) != Some(TaskRunStatus.Waiting))
    || (d.taskRuns[t].status.Running? && !MonitorStep(d, t).Leave?)
  }

  ghost predicate AttemptInFlight(d: Db, j: nat) {
    exists a :: 0 <= a < |d.attempts| && InJob(d, d.attempts[a].taskRun, j) && !d.attempts[a].status.IsFinished()
  }

  /** The unfinished task run of the lowest rank below the given one. */
  lemma {:induction false} LowestUnfinished(d: Db, t: nat) returns (low: nat)
    requires Inv(d) && t < |d.taskRuns| && !d.taskRuns[t].status.IsFinished()
    ensures low < |d.taskRuns| && !d.taskRuns[low].status.IsFinished()
    ensures d.taskRuns[low].jobRun == d.taskRuns[t].jobRun
    ensures AllDependencies(d, low, (s: TaskRunStatus) => s.IsFinished())
    decreases d.taskRuns[t].rank
  {
    assert TaskOk(d, t);
    if AllDependencies(d, t, (s: TaskRunStatus) => s.IsFinished()) {
      return t;
    }
    var k :| 0 <= k < |d.taskRuns[t].dependsOn| && d.taskRuns[t].dependsOn[k] < |d.taskRuns|
      && !d.taskRuns[d.taskRuns[t].dependsOn[k]].status.IsFinished();
    low := LowestUnfinished(d, d.taskRuns[t].dependsOn[k]);
  }

  /**
    A Running run always has something left to happen to it: a service decides a change, or
    an attempt of it is queued or running.
   */
  lemma NoDeadlock(d: Db, j: nat)
    requires Inv(d) && j < |d.jobRuns| && d.jobRuns[j].status.Running?
    ensures ServiceCanMove(d, j) || AttemptInFlight(d, j)
  {
    assert JobOk(d, j);
    JobVerdictDecided(d, j);
    if JobVerdict(d, j) == Some(JobRunStatus.Running) {
      var t :| 0 <= t < |d.taskRuns| && InJob(d, t, j) && !d.taskRuns[t].status.IsFinished();
      var low := LowestUnfinished(d, t);
      assert InJob(d, low, j) && TaskOk(d, low);
      if d.taskRuns[low].status.Running? && MonitorStep(d, low).Leave? {
        assert !d.attempts[Last(d, low).value].status.IsFinished();
      } else {
        assert TaskCanMove(d, low);
      }
    }
  }

  /** The arm TaskRunDispatcher reports as a bug is never taken. */
  lemma TaskVerdictDecided(d: Db, t: nat)
    requires t < |d.taskRuns|
    ensures TaskVerdict(d, t).Some?
    ensures TaskVerdict(d, t) == Some(TaskRunStatus.Running) ==> AllDependencies(d, t, (s: TaskRunStatus) => s.Succeeded?)
  {}
}
