/**
  Whole executions: any interleaving of the seven services, users, commands, time, errors,
  crashes and restarts, from empty tables on. What follows holds of every one of them.
 */
module Executions {
  import opened Options
  import opened TaskGraph
  import opened Tables
  import opened TableInvariant
  import opened RunFacts
  import opened Termination
  import opened Pollers
  import opened PollerInvariant
  import opened PollerSteps
  import opened PollerEvents
  import opened ServerSafety

  /** A server that has just started over tables with no rows. */
  ghost predicate IsStart(s: Server) {
    && s.db == EMPTY && s.phase == Recovering([]) && AllIdle(s)
    && s.asked == map[] && s.lost == {}
  }

  datatype Execution = Execution(states: seq<Server>, events: seq<Event>)

  ghost predicate Step(s: Server, e: Event, n: Server) {
    Can(s, e) && InScope(s, e) && n == Next(s, e)
  }

  ghost predicate StepAt(x: Execution, i: nat)
    requires i < |x.events| && i + 1 < |x.states|
  {
    Step(x.states[i], x.events[i], x.states[i + 1])
  }

  ghost predicate Runs(x: Execution) {
    && |x.states| == |x.events| + 1
    && IsStart(x.states[0])
    && forall i :: 0 <= i < |x.events| ==> StepAt(x, i)
  }

  lemma {:induction false} AlwaysGood(x: Execution, i: nat)
    requires Runs(x) && i < |x.states|
    ensures Good(x.states[i])
  {
    if i == 0 {
      StartIsGood(x.states[0]);
    } else {
      AlwaysGood(x, i - 1);
      assert StepAt(x, i - 1);
      GoodKept(x.states[i - 1], x.events[i - 1]);
    }
  }

  lemma StartIsGood(s: Server)
    requires IsStart(s)
    ensures Good(s)
  {}

  // ---- Snapshots stay true, and what is finished stays so ----

  /** Every row a service still has to handle has the status it was selected with. */
  lemma SnapshotsStayTrue(x: Execution, i: nat)
    requires Runs(x) && i < |x.states|
    ensures var s := x.states[i];
      && JobsIn(s.db, s.releaser.Window(), JobRunStatus.Scheduled)
      && JobsIn(s.db, s.jobDispatcher.Window(), JobRunStatus.Queued)
      && JobsIn(s.db, s.jobMonitor.Window(), JobRunStatus.Running)
      && TasksIn(s.db, s.taskDispatcher.Window(), TaskRunStatus.Waiting)
      && TasksIn(s.db, s.taskMonitor.Window(), TaskRunStatus.Running)
      && AttemptsIn(s.db, s.spawner.Window(), AttemptStatus.Queued)
      && AttemptsIn(s.db, s.watcher.Window(), AttemptStatus.Running)
  {
    AlwaysGood(x, i);
  }

  /** Updates are keyed by id alone, yet none is ever made where its guard would have failed. */
  lemma EveryWriteIsEnabled(x: Execution, i: nat)
    requires Runs(x) && i < |x.events| && WriteOf(x.states[i], x.events[i]).Some?
    ensures Enabled(x.states[i].db, WriteOf(x.states[i], x.events[i]).value)
    ensures x.states[i + 1].db == Apply(x.states[i].db, WriteOf(x.states[i], x.events[i]).value)
  {
    AlwaysGood(x, i);
    assert StepAt(x, i);
    WritesAreEnabled(x.states[i], x.events[i]);
  }

  lemma OneStepExtends(x: Execution, i: nat)
    requires Runs(x) && i < |x.events|
    ensures Inv(x.states[i].db) && Inv(x.states[i + 1].db) && Extends(x.states[i].db, x.states[i + 1].db)
  {
    AlwaysGood(x, i);
    assert StepAt(x, i);
    TableStep(x.states[i], x.events[i]);
  }

  lemma ExtendsTransitively(d: Db, e: Db, f: Db)
    requires Extends(d, e) && Extends(e, f)
    ensures Extends(d, f)
  {}

  lemma ExtendsItself(d: Db)
    ensures Extends(d, d)
  {}

  lemma {:induction false} LaterExtends(x: Execution, i: nat, k: nat)
    requires Runs(x) && i <= k < |x.states|
    ensures Extends(x.states[i].db, x.states[k].db)
    decreases k
  {
    if i == k {
      ExtendsItself(x.states[i].db);
    } else {
      LaterExtends(x, i, k - 1);
      OneStepExtends(x, k - 1);
      ExtendsTransitively(x.states[i].db, x.states[k - 1].db, x.states[k].db);
    }
  }

  /** No finished status of any row ever changes again. */
  lemma FinishedIsForGood(x: Execution, i: nat, k: nat)
    requires Runs(x) && i <= k < |x.states|
    ensures var d, e := x.states[i].db, x.states[k].db;
      && |d.jobRuns| <= |e.jobRuns| && |d.taskRuns| <= |e.taskRuns| && |d.attempts| <= |e.attempts|
      && (forall j :: 0 <= j < |d.jobRuns| && d.jobRuns[j].status.IsFinished() ==> e.jobRuns[j].status == d.jobRuns[j].status)
      && (forall t :: 0 <= t < |d.taskRuns| && d.taskRuns[t].status.IsFinished() ==> e.taskRuns[t].status == d.taskRuns[t].status)
      && (forall a :: 0 <= a < |d.attempts| && d.attempts[a].status.IsFinished() ==> e.attempts[a].status == d.attempts[a].status)
  {
    LaterExtends(x, i, k);
    var d, e := x.states[i].db, x.states[k].db;
    assert forall j :: 0 <= j < |d.jobRuns| ==> JobExtends(d.jobRuns[j], e.jobRuns[j]);
    assert forall t :: 0 <= t < |d.taskRuns| ==> TaskExtends(d.taskRuns[t], e.taskRuns[t]);
    assert forall a :: 0 <= a < |d.attempts| ==> AttemptExtends(d.attempts[a], e.attempts[a]);
  }

  // ---- Order, history and ends of runs ----

  /**
    A task run that has been Running at any earlier moment has all its transitive
    dependencies Succeeded from then on; a Running run has no Planned task run.
   */
  lemma DependencyOrder(x: Execution, i: nat, k: nat, path: seq<nat>, m: nat)
    requires Runs(x) && i <= k < |x.states|
    requires DependencyPath(x.states[i].db, path) && 0 < m < |path|
    requires x.states[i].db.taskRuns[path[0]].status.HasRun()
    ensures path[m] < |x.states[k].db.taskRuns| && x.states[k].db.taskRuns[path[m]].status.Succeeded?
  {
    AlwaysGood(x, i);
    DependenciesRanFirst(x.states[i].db, path, m);
    FinishedIsForGood(x, i, k);
  }

  /**
    At every moment the attempts of a task run are numbered 1 up to its tries, within its
    retries, all but the last Failed; and a settled run succeeded exactly when the last attempt
    of each of its task runs did.
   */
  lemma HistoryHolds(x: Execution, i: nat, t: nat)
    requires Runs(x) && i < |x.states| && t < |x.states[i].db.taskRuns|
    ensures var d := x.states[i].db;
      && Tries(d, t) <= d.taskRuns[t].maxRetries + 1
      && (forall k :: 1 <= k <= Tries(d, t) ==> HasAttempt(d, t, k))
      && (forall a :: 0 <= a < |d.attempts| && OfTask(d.attempts, a, t) ==>
            1 <= d.attempts[a].number <= Tries(d, t) && (d.attempts[a].number < Tries(d, t) ==> d.attempts[a].status.Failed?))
  {
    AlwaysGood(x, i);
    AttemptHistory(x.states[i].db, t);
  }

  lemma SuccessHolds(x: Execution, i: nat, j: nat)
    requires Runs(x) && i < |x.states| && j < |x.states[i].db.jobRuns|
    requires var status := x.states[i].db.jobRuns[j].status; status.IsFinished() && !status.Skipped? && !status.Deleted?
    ensures var d := x.states[i].db;
      d.jobRuns[j].status.Succeeded? <==> forall t :: 0 <= t < |d.taskRuns| && InJob(d, t, j) ==> LastSucceeded(d, t)
  {
    AlwaysGood(x, i);
    SucceededIff(x.states[i].db, j);
  }

  lemma NoPlannedUnderRunning(x: Execution, i: nat, t: nat)
    requires Runs(x) && i < |x.states| && t < |x.states[i].db.taskRuns|
    ensures var d := x.states[i].db;
      && d.taskRuns[t].jobRun < |d.jobRuns|
      && (d.jobRuns[d.taskRuns[t].jobRun].status.Running? ==> !d.taskRuns[t].status.Planned?)
  {
    AlwaysGood(x, i);
    var d := x.states[i].db;
    assert TaskOk(d, t) && JobOk(d, d.taskRuns[t].jobRun) && InJob(d, t, d.taskRuns[t].jobRun);
  }

  /** A run once Aborted or Skipped had been stopped. */
  lemma StoppedFirst(x: Execution, i: nat, j: nat)
    requires Runs(x) && i < |x.states| && j < |x.states[i].db.jobRuns|
    requires x.states[i].db.jobRuns[j].status.Aborted? || x.states[i].db.jobRuns[j].status.Skipped?
    ensures exists k :: 0 <= k < i && x.events[k] == World(Stop(j))
  {
    AlwaysGood(x, i);
    AbortedOnlyIfStopped(x.states[i].db, j);
    StopWasMade(x, i, j);
  }

  lemma {:induction false} StopWasMade(x: Execution, i: nat, j: nat)
    requires Runs(x) && i < |x.states| && j in x.states[i].db.stops
    ensures exists k :: 0 <= k < i && x.events[k] == World(Stop(j))
  {
    if i > 0 {
      var s, e := x.states[i - 1], x.events[i - 1];
      assert StepAt(x, i - 1);
      if j in s.db.stops {
        StopWasMade(x, i - 1, j);
      } else {
        StopsGrowByStop(s.db, WriteOf(s, e).value);
        OnlyWorldStops(s, e);
      }
    }
  }

  lemma StopsGrowByStop(d: Db, w: Write)
    ensures Apply(d, w).stops == if w.Stop? then d.stops + {w.j} else d.stops
  {}

  lemma OnlyWorldStops(s: Server, e: Event)
    requires WriteOf(s, e).Some? && WriteOf(s, e).value.Stop?
    ensures e.World?
  {}

  // ---- Processes ----

  /** An attempt is spawned for at most once in a whole execution, restarts and all. */
  lemma SpawnedOnce(x: Execution, i: nat, k: nat, a: nat)
    requires Runs(x) && i < |x.events| && k < |x.events|
    requires WriteOf(x.states[i], x.events[i]) == Some(Spawn(a)) && WriteOf(x.states[k], x.events[k]) == Some(Spawn(a))
    ensures i == k
  {
    EveryWriteIsEnabled(x, i);
    EveryWriteIsEnabled(x, k);
    if i < k { SpawnIsSeen(x, i, k, a); }
    if k < i { SpawnIsSeen(x, k, i, a); }
  }

  lemma SpawnIsSeen(x: Execution, i: nat, k: nat, a: nat)
    requires Runs(x) && i < k < |x.states| && WriteOf(x.states[i], x.events[i]) == Some(Spawn(a))
    ensures a < |x.states[k].db.attempts| && !x.states[k].db.attempts[a].shell.NotSpawned?
  {
    EveryWriteIsEnabled(x, i);
    LaterExtends(x, i + 1, k);
    assert AttemptExtends(x.states[i + 1].db.attempts[a], x.states[k].db.attempts[a]);
  }

  lemma NeverTwoShells(x: Execution, i: nat, a: nat, b: nat)
    requires Runs(x) && i < |x.states| && a < |x.states[i].db.attempts| && b < |x.states[i].db.attempts| && a != b
    requires x.states[i].db.attempts[a].taskRun == x.states[i].db.attempts[b].taskRun
    ensures !(x.states[i].db.attempts[a].shell.Alive? && x.states[i].db.attempts[b].shell.Alive?)
  {
    AlwaysGood(x, i);
    OneShellPerTask(x.states[i].db, a, b);
  }

  // ---- Caps ----

  /** The Running attempts that were never marked waiting. */
  ghost function Unwaited(d: Db): set<nat> {
    set a: nat | a < |d.attempts| && d.attempts[a].status.Running? && !d.attempts[a].everWaited
  }

  ghost function UnwaitedClaiming(d: Db, limit: string): set<nat> {
    set a: nat | a < |d.attempts| && d.attempts[a].status.Running? && !d.attempts[a].everWaited
      && d.attempts[a].taskRun < |d.taskRuns| && limit in d.taskRuns[d.attempts[a].taskRun].limits
  }

  lemma UnwaitedCounts(d: Db, limit: string, jobId: string)
    ensures Count(|d.attempts|, NeverWaited(d)) == |Unwaited(d)|
    ensures Count(|d.attempts|, NeverWaitedClaiming(d, limit)) == |UnwaitedClaiming(d, limit)|
    ensures Count(|d.jobRuns|, RunningOf(d, jobId)) == |RunningRuns(d, jobId)|
  {
    CountIsSize(|d.attempts|, NeverWaited(d));
    CountIsSize(|d.attempts|, NeverWaitedClaiming(d, limit));
    CountIsSize(|d.jobRuns|, RunningOf(d, jobId));
    assert Unwaited(d) == set k: nat | k < |d.attempts| && NeverWaited(d)(k);
    assert UnwaitedClaiming(d, limit) == set k: nat | k < |d.attempts| && NeverWaitedClaiming(d, limit)(k);
    assert RunningRuns(d, jobId) == set k: nat | k < |d.jobRuns| && RunningOf(d, jobId)(k);
  }

  /**
    Outside recovery the attempts that never waited stay within the configured caps, though a
    restart may have changed them; and a job never has more Running runs than its maximum.
   */
  lemma CapsHold(x: Execution, i: nat, limit: string, jobId: string)
    requires Runs(x) && i < |x.states|
    ensures var s := x.states[i];
      && (s.phase.Serving? && s.config.maxRunning > 0 ==> |Unwaited(s.db)| <= s.config.maxRunning)
      && (s.phase.Serving? && limit in s.config.limits && s.config.limits[limit] != 0 ==>
            |UnwaitedClaiming(s.db, limit)| <= s.config.limits[limit])
      && (jobId in s.maxParallel && s.maxParallel[jobId] != 0 ==> |RunningRuns(s.db, jobId)| <= s.maxParallel[jobId])
      && s.maxParallel == x.states[0].maxParallel
  {
    AlwaysGood(x, i);
    SameMaximum(x, i);
    UnwaitedCounts(x.states[i].db, limit, jobId);
  }

  lemma {:induction false} SameMaximum(x: Execution, i: nat)
    requires Runs(x) && i < |x.states|
    ensures x.states[i].maxParallel == x.states[0].maxParallel
  {
    if i > 0 {
      SameMaximum(x, i - 1);
      assert StepAt(x, i - 1);
      SameMaxParallel(x.states[i - 1], x.events[i - 1]);
    }
  }

  // ---- Bounded work ----

  ghost predicate Changed(d: Db, e: Db, j: nat) {
    !(j < |d.jobRuns| && Extends(d, e) && SameProgress(d, e, j))
  }

  ghost function Sum(cost: nat -> nat, from: nat, till: nat): nat
    requires from <= till
    decreases till
  {
    if from == till then 0 else Sum(cost, from, till - 1) + cost(till - 1)
  }

  ghost function ChangeAt(x: Execution, j: nat): nat -> nat {
    (i: nat) => if i + 1 < |x.states| && Changed(x.states[i].db, x.states[i + 1].db, j) then 1 else 0
  }

  ghost function WorkAt(x: Execution, j: nat): nat -> nat {
    (i: nat) => if i < |x.states| then Work(x.states[i].db, j) else 0
  }

  /** How many of the events `from` up to `till` change anything about the run. */
  ghost function Changes(x: Execution, j: nat, from: nat, till: nat): nat
    requires from <= till < |x.states|
  {
    Sum(ChangeAt(x, j), from, till)
  }

  /** The step leaves no more work than it found, and less if it changes anything. */
  ghost predicate Paid(d: Db, e: Db, j: nat) {
    (if Changed(d, e, j) then 1 else 0) + Work(e, j) <= Work(d, j)
  }

  ghost predicate PaidAt(cost: nat -> nat, work: nat -> nat, i: nat) {
    cost(i) + work(i + 1) <= work(i)
  }

  lemma {:induction false} PaidAddsUp(cost: nat -> nat, work: nat -> nat, from: nat, till: nat)
    requires from <= till && forall i: nat :: from <= i < till ==> PaidAt(cost, work, i)
    ensures Sum(cost, from, till) + work(till) <= work(from)
    decreases till
  {
    if from < till {
      PaidAddsUp(cost, work, from, till - 1);
      assert PaidAt(cost, work, till - 1);
    }
  }

  lemma ChangesAreWork(x: Execution, j: nat, from: nat, till: nat)
    requires Runs(x) && from <= till <= |x.events| && j < |x.states[from].db.jobRuns|
    ensures Changes(x, j, from, till) + Work(x.states[till].db, j) <= Work(x.states[from].db, j)
  {
    forall i: nat | from <= i < till ensures PaidAt(ChangeAt(x, j), WorkAt(x, j), i) {
      RunsStay(x, from, i);
      StepWork(x, i, j);
      StepIsPaid(x, i, j);
    }
    PaidAddsUp(ChangeAt(x, j), WorkAt(x, j), from, till);
  }

  lemma StepIsPaid(x: Execution, i: nat, j: nat)
    requires i + 1 < |x.states| && Paid(x.states[i].db, x.states[i + 1].db, j)
    ensures PaidAt(ChangeAt(x, j), WorkAt(x, j), i)
  {}

  lemma RunsStay(x: Execution, i: nat, k: nat)
    requires Runs(x) && i <= k < |x.states|
    ensures |x.states[i].db.jobRuns| <= |x.states[k].db.jobRuns|
  {
    LaterExtends(x, i, k);
  }

  lemma StepWork(x: Execution, i: nat, j: nat)
    requires Runs(x) && i < |x.events| && j < |x.states[i].db.jobRuns|
    ensures Paid(x.states[i].db, x.states[i + 1].db, j)
  {
    AlwaysGood(x, i);
    assert StepAt(x, i);
    if WriteOf(x.states[i], x.events[i]).Some? {
      EveryWriteIsEnabled(x, i);
      WriteIsPaid(x.states[i].db, WriteOf(x.states[i], x.events[i]).value, j);
    } else {
      NothingIsPaid(x.states[i].db, j);
    }
  }

  lemma WriteIsPaid(d: Db, w: Write, j: nat)
    requires Inv(d) && Enabled(d, w) && j < |d.jobRuns|
    ensures Paid(d, Apply(d, w), j)
  {
    WorkDrops(d, w, j);
  }

  lemma NothingIsPaid(d: Db, j: nat)
    requires j < |d.jobRuns|
    ensures Paid(d, d, j)
  {
    ExtendsItself(d);
  }

  /**
    However the run fares, at most `Budget` of its tasks' status writes and attempt inserts are
    ever made for it: three for the run, three for each task and three for each try.
   */
  lemma RunIsBounded(x: Execution, i: nat, till: nat)
    requires Runs(x) && i < till <= |x.events| && x.events[i].World? && x.events[i].write.Submit?
    ensures |x.states[i].db.jobRuns| < |x.states[i + 1].db.jobRuns|
    ensures Changes(x, |x.states[i].db.jobRuns|, i + 1, till) <= Budget(x.events[i].write.tasks)
  {
    WorkAtSubmission(x, i);
    ChangesAreWork(x, |x.states[i].db.jobRuns|, i + 1, till);
  }

  lemma WorkAtSubmission(x: Execution, i: nat)
    requires Runs(x) && i < |x.events| && x.events[i].World? && x.events[i].write.Submit?
    ensures |x.states[i].db.jobRuns| < |x.states[i + 1].db.jobRuns|
    ensures Work(x.states[i + 1].db, |x.states[i].db.jobRuns|) == Budget(x.events[i].write.tasks)
  {
    AlwaysGood(x, i);
    EveryWriteIsEnabled(x, i);
    SubmittedWork(x.states[i].db, x.events[i].write);
  }

  // ---- No deadlock ----

  /** Some service can make a write that changes the run now. */
  ghost predicate SomeWriteChanges(d: Db, j: nat) {
    exists w :: IsPoller(WriterOf(w)) && Enabled(d, w) && Changing(d, w, j)
  }

  ghost predicate Changing(d: Db, w: Write, j: nat) {
    Changed(d, Apply(d, w), j)
  }

  /** What the services decide is a write they may make, and it changes the run. */
  lemma MoveIsAWrite(d: Db, j: nat)
    requires Inv(d) && j < |d.jobRuns| && d.jobRuns[j].status.Running? && ServiceCanMove(d, j)
    ensures SomeWriteChanges(d, j)
  {
    JobVerdictDecided(d, j);
    if JobVerdict(d, j) != Some(JobRunStatus.Running) {
      var w := SettleJob(j, JobVerdict(d, j).value);
      WriteExtends(d, w);
      assert Changing(d, w, j);
    } else {
      var t :| 0 <= t < |d.taskRuns| && InJob(d, t, j) && TaskCanMove(d, t);
      TaskMoveIsAWrite(d, j, t);
    }
  }

  lemma TaskMoveIsAWrite(d: Db, j: nat, t: nat)
    requires Inv(d) && j < |d.jobRuns| && t < |d.taskRuns| && InJob(d, t, j) && TaskCanMove(d, t)
    ensures SomeWriteChanges(d, j)
  {
    TaskVerdictDecided(d, t);
    if d.taskRuns[t].status.Waiting? {
      var w := if TaskVerdict(d, t) == Some(TaskRunStatus.Skipped) then SkipTask(t) else RunTask(t);
      WriteExtends(d, w);
      assert !SameProgress(d, Apply(d, w), j) by { assert Apply(d, w).taskRuns[t].status != d.taskRuns[t].status; }
      assert Changing(d, w, j);
    } else {
      AttemptMoveIsAWrite(d, j, t);
    }
  }

  lemma AttemptMoveIsAWrite(d: Db, j: nat, t: nat)
    requires Inv(d) && j < |d.jobRuns| && InJob(d, t, j)
    requires d.taskRuns[t].status.Running? && !MonitorStep(d, t).Leave?
    ensures SomeWriteChanges(d, j)
  {
    var step := MonitorStep(d, t);
    var w :=
      if step.Settle? then SettleTask(t, step.status, TaskRunMonitor)
      else InsertAttempt(t, if step.InsertNext? then step.number else 1, 0);
    var e := Apply(d, w);
    WriteExtends(d, w);
    assert !SameProgress(d, e, j) by {
      if w.SettleTask? {
        assert e.taskRuns[t].status != d.taskRuns[t].status;
      } else {
        assert InJob(e, e.attempts[|d.attempts|].taskRun, j);
      }
    }
    assert Changing(d, w, j);
  }

  /**
    A Running run always has a service able to change it, or an attempt Queued or Running; and
    a Queued attempt past its retry delay is held only while some attempt holds a slot.
   */
  lemma NeverStuck(x: Execution, i: nat, j: nat)
    requires Runs(x) && i < |x.states| && j < |x.states[i].db.jobRuns| && x.states[i].db.jobRuns[j].status.Running?
    ensures SomeWriteChanges(x.states[i].db, j) || AttemptInFlight(x.states[i].db, j)
  {
    AlwaysGood(x, i);
    NoDeadlock(x.states[i].db, j);
    if ServiceCanMove(x.states[i].db, j) { MoveIsAWrite(x.states[i].db, j); }
  }

  lemma HeldOnlyByRunning(s: Server, a: nat)
    requires ShouldStayQueued(s, a) && !InRetryDelay(s.db, s.now, a)
    ensures exists b :: 0 <= b < |s.db.attempts| && s.db.attempts[b].status.Running? && !s.db.attempts[b].waiting
  {
    if AtGlobalCap(s.db, s.config) {
      var b := SomeCounted(|s.db.attempts|, Working(s.db));
      assert Working(s.db)(b);
    } else {
      var limit :| limit in s.db.taskRuns[s.db.attempts[a].taskRun].limits && LimitFull(s.db, s.config, limit);
      var b := SomeCounted(|s.db.attempts|, Claiming(s.db, limit));
      assert Claiming(s.db, limit)(b) && Working(s.db)(b);
    }
  }

  lemma {:induction false} SomeCounted(n: nat, p: nat -> bool) returns (k: nat)
    requires Count(n, p) > 0
    ensures k < n && p(k)
  {
    if p(n - 1) {
      return n - 1;
    }
    k := SomeCounted(n - 1, p);
  }

  // ---- The child map ----

  /**
    While the monitor holds no process, every Running attempt has its process in the map,
    unless an error took it away; so only such an attempt is settled Invalid.
   */
  lemma ChildMapAgrees(x: Execution, i: nat, a: nat)
    requires Runs(x) && i < |x.states| && x.states[i].phase.Serving? && a < |x.states[i].db.attempts|
    ensures var s := x.states[i];
      && (s.db.attempts[a].status.Running? && s.watcher.at.Idle? ==> a in s.children || a in s.lost)
      && (s.watcher.at == Settling(a, AttemptStatus.Invalid) ==> a in s.lost)
  {
    AlwaysGood(x, i);
  }

  /** A process is lost only when settling its attempt fails. */
  lemma LostOnlyByError(x: Execution, i: nat, a: nat)
    requires Runs(x) && i < |x.events| && a in x.states[i + 1].lost && a !in x.states[i].lost
    ensures x.events[i] == Fail(TaskRunAttemptMonitor)
    ensures x.states[i].watcher.at.Settling? && x.states[i].watcher.at.a == a
  {
    assert StepAt(x, i);
    LostByFail(x.states[i], x.events[i], a);
  }

  lemma LostByFail(s: Server, e: Event, a: nat)
    requires Can(s, e) && a in Moved(s, e).lost && a !in s.lost
    ensures e == Fail(TaskRunAttemptMonitor) && s.watcher.at.Settling? && s.watcher.at.a == a
  {
    if !e.Crash? {
      OthersUntouched(s, e);
    }
  }

  /** Once sent SIGTERM, an attempt settles as what it was sent for, or Invalid if orphaned. */
  lemma AskedSettlesAsDecided(x: Execution, i: nat, k: nat, a: nat)
    requires Runs(x) && i <= k < |x.states| && a in x.states[i].asked
    ensures a in x.states[k].asked && x.states[k].asked[a] == x.states[i].asked[a]
    ensures a < |x.states[k].db.attempts| && var status := x.states[k].db.attempts[a].status;
      status.Running? || status == x.states[i].asked[a].status || status.Invalid?
  {
    AlwaysGood(x, k);
    AskedOnce(x, i, k, a);
  }

  lemma {:induction false} AskedOnce(x: Execution, i: nat, k: nat, a: nat)
    requires Runs(x) && i <= k < |x.states| && a in x.states[i].asked
    ensures a in x.states[k].asked && x.states[k].asked[a] == x.states[i].asked[a]
    decreases k
  {
    if i < k {
      AskedOnce(x, i, k - 1, a);
      AlwaysGood(x, k - 1);
      assert StepAt(x, k - 1);
      AskedStays(x.states[k - 1], x.events[k - 1], a);
    }
  }

  lemma AskedStays(s: Server, e: Event, a: nat)
    requires Good(s) && Can(s, e) && a in s.asked
    ensures a in Moved(s, e).asked && Moved(s, e).asked[a] == s.asked[a]
  {
    if e.Look? {
      assert s.watcher.at.a in s.watcher.Window();
      assert s.watcher.at.a in s.asked ==> AskedChildOk(s, s.watcher.at.a);
    } else if !e.Crash? {
      OthersUntouched(s, e);
    }
  }

  predicate GroupGone(d: Db, a: nat) {
    a < |d.attempts| && d.attempts[a].shell.Exited? && !d.attempts[a].shell.groupLeft
  }

  /** A process sent SIGTERM is not killed before its grace is over, unless its group is gone. */
  lemma GraceIsGiven(x: Execution, i: nat, a: nat)
    requires Runs(x) && i < |x.events| && x.events[i].Look? && a in x.states[i].asked
    requires WriteOf(x.states[i], x.events[i]) == Some(Kill(a))
    ensures x.states[i].now >= x.states[i].asked[a].killAt || GroupGone(x.states[i].db, a)
  {
    AlwaysGood(x, i);
    var s := x.states[i];
    assert StepAt(x, i);
    assert s.watcher.at.a in s.watcher.Window();
    assert AskedChildOk(s, a);
  }
}
