/**
  What the tables look like whatever the services have done to them so far, and that every
  enabled write keeps it so.
 */
module TableInvariant {
  import opened Options
  import opened TaskGraph
  import opened Tables

  // ---- The invariant, row by row ----

  ghost predicate TaskColumnsOk(d: Db, t: nat)
    requires t < |d.taskRuns|
  {
    var row := d.taskRuns[t];
    && row.jobRun < |d.jobRuns|
    && forall k :: 0 <= k < |row.dependsOn| ==>
         var dep := row.dependsOn[k];
         dep < |d.taskRuns| && d.taskRuns[dep].jobRun == row.jobRun && d.taskRuns[dep].rank < row.rank
  }

  ghost predicate TaskOk(d: Db, t: nat)
    requires t < |d.taskRuns|
  {
    var row := d.taskRuns[t];
    && TaskColumnsOk(d, t)
    // Started only after every dependency succeeded, and settled by its last attempt.
    && (row.status.HasRun() ==> AllDependencies(d, t, (s: TaskRunStatus) => s.Succeeded?))
    && (row.status.HasRun() && row.status.IsFinished() ==> MonitorStep(d, t) == Settle(row.status))
    // Skipped only for a stop, a delete or a dependency that did not succeed.
    && (row.status.Skipped? ==>
          || row.jobRun in d.stops || d.jobRuns[row.jobRun].status.Deleted?
          || SomeDependency(d, t, (s: TaskRunStatus) => s.IsBad()))
  }

  ghost predicate AttemptOk(d: Db, a: nat)
    requires a < |d.attempts|
  {
    var row := d.attempts[a];
    && row.taskRun < |d.taskRuns|
    && row.number == NumberAfter(d.attempts, a, row.taskRun)
    && 1 <= row.number <= d.taskRuns[row.taskRun].maxRetries + 1
    && d.taskRuns[row.taskRun].status.HasRun()
    && (row.status.IsStopped() ==> d.taskRuns[row.taskRun].jobRun in d.stops)
    && ProcessOk(row)
  }

  ghost predicate ProcessOk(row: Attempt) {
    && row.spawns <= 1
    && (row.shell.NotSpawned? <==> row.spawns == 0)
    && (row.status.Queued? && row.startedAt.None? ==> row.shell.NotSpawned?)
    && (row.status.Running? ==> !row.shell.NotSpawned?)
    && (row.status.Skipped? ==> row.shell.NotSpawned?)
    && (row.status.Succeeded? || row.status.Failed? ==> row.shell.Exited?)
    && (row.status.Succeeded? ==> row.shell.code == 0)
    && (row.waiting ==> row.everWaited)
  }

  ghost predicate JobOk(d: Db, j: nat)
    requires j < |d.jobRuns|
  {
    var status := d.jobRuns[j].status;
    && (status.Scheduled? ==> NoneReleased(d, j))
    && (status.Running? ==> AllTasks(d, j, (s: TaskRunStatus) => !s.Planned?))
    && (status.Skipped? ==> j in d.stops)
    && (status.Skipped? || status.Deleted? ==> AllTasks(d, j, (s: TaskRunStatus) => s.Skipped?))
    && (status.IsFinished() && !status.Skipped? && !status.Deleted? ==> JobVerdict(d, j) == Some(status))
  }

  /** Every attempt but the last of a task run has failed. */
  ghost predicate EarlierFailed(d: Db) {
    forall a, b :: 0 <= a < b < |d.attempts| && d.attempts[a].taskRun == d.attempts[b].taskRun
      ==> d.attempts[a].status.Failed?
  }

  ghost predicate Inv(d: Db) {
    && (forall j :: 0 <= j < |d.jobRuns| ==> JobOk(d, j))
    && (forall t :: 0 <= t < |d.taskRuns| ==> TaskOk(d, t))
    && (forall a :: 0 <= a < |d.attempts| ==> AttemptOk(d, a))
    && EarlierFailed(d)
  }

  // ---- What any write leaves alone ----

  /** Rows stay, their fixed columns stay, and a status only ever moves on: a settled one never. */
  ghost predicate Extends(d: Db, e: Db) {
    && |d.jobRuns| <= |e.jobRuns| && |d.taskRuns| <= |e.taskRuns| && |d.attempts| <= |e.attempts|
    && d.stops <= e.stops
    && (forall j :: 0 <= j < |d.jobRuns| ==> JobExtends(d.jobRuns[j], e.jobRuns[j]))
    && (forall t :: 0 <= t < |d.taskRuns| ==> TaskExtends(d.taskRuns[t], e.taskRuns[t]))
    && (forall a :: 0 <= a < |d.attempts| ==> AttemptExtends(d.attempts[a], e.attempts[a]))
    && (forall t :: |d.taskRuns| <= t < |e.taskRuns| ==> e.taskRuns[t].jobRun >= |d.jobRuns|)
  }

  ghost predicate JobExtends(x: JobRun, y: JobRun) {
    && x.jobId == y.jobId && x.scheduledAt == y.scheduledAt
    && (y.status == x.status || y.status.Rank() < x.status.Rank())
  }

  ghost predicate TaskExtends(x: TaskRun, y: TaskRun) {
    && y == x.(status := y.status)
    && (y.status == x.status || y.status.Rank() < x.status.Rank())
    && (x.status.HasRun() ==> y.status.HasRun())
    && (y.status.Planned? ==> x.status.Planned?)
  }

  ghost predicate AttemptExtends(x: Attempt, y: Attempt) {
    && x.taskRun == y.taskRun && x.number == y.number && x.createdAt == y.createdAt
    && (y.status == x.status || y.status.Rank() < x.status.Rank())
    && (!x.shell.NotSpawned? ==> !y.shell.NotSpawned?)
    && (x.shell.Exited? ==> y.shell.Exited? && y.shell.code == x.shell.code)
    && (x.everWaited ==> y.everWaited)
  }

  /** A row in a status is moved out of it by the one service that selects on it. */
  ghost predicate MovedBy(d: Db, e: Db, who: Service)
    requires Extends(d, e)
  {
    && (forall j :: 0 <= j < |d.jobRuns| ==> JobMovedBy(d.jobRuns[j], e.jobRuns[j], who))
    && (forall t :: 0 <= t < |d.taskRuns| ==> TaskMovedBy(d.taskRuns[t], e.taskRuns[t], who))
    && (forall a :: 0 <= a < |d.attempts| ==> AttemptMovedBy(d.attempts[a], e.attempts[a], who))
    && (who.TaskRunMonitor? || |e.attempts| == |d.attempts|)
    && (forall a :: |d.attempts| <= a < |e.attempts| ==> e.attempts[a].status.Queued?)
    && (forall j :: |d.jobRuns| <= j < |e.jobRuns| ==> e.jobRuns[j].status.Scheduled?)
  }

  ghost predicate JobMovedBy(x: JobRun, y: JobRun, who: Service) {
    y.status == x.status || match x.status
      case Scheduled => (who.JobRunReleaser? || who.Outside?) && !y.status.Running?
      case Queued => who.JobRunDispatcher?
      case Running => who.JobRunMonitor?
      case _ => false
  }

  ghost predicate TaskMovedBy(x: TaskRun, y: TaskRun, who: Service) {
    y.status == x.status || match x.status
      case Planned => true
      case Waiting => who.TaskRunDispatcher? || (who.JobRunDispatcher? && y.status.Skipped?)
      case Running => who.TaskRunMonitor?
      case _ => false
  }

  ghost predicate AttemptMovedBy(x: Attempt, y: Attempt, who: Service) {
    && (y.status == x.status || match x.status
         case Queued => who.TaskRunAttemptDispatcher?
         case Running => (who.TaskRunAttemptMonitor? || who.Recovery?) && y.status.IsFinished()
         case _ => false)
    && (who.TaskRunAttemptDispatcher? ||
         (y.startedAt == x.startedAt && (y.shell.NotSpawned? <==> x.shell.NotSpawned?)))
  }

  predicate IsJobWrite(w: Write) {
    w.Release? || w.SkipJob? || w.StartJob? || w.SettleJob?
  }

  predicate IsTasksWrite(w: Write) {
    w.SkipTasks? || w.StartTasks? || w.Delete?
  }

  predicate IsTaskWrite(w: Write) {
    w.SkipTask? || w.RunTask? || w.SettleTask?
  }

  predicate IsAttemptWrite(w: Write) {
    && !IsJobWrite(w) && !IsTasksWrite(w) && !IsTaskWrite(w)
    && !w.InsertAttempt? && !w.Submit? && !w.Stop?
  }

  /** Every write is a legal step of the tables, made by the one service that may make it. */
  lemma WriteExtends(d: Db, w: Write)
    requires Inv(d) && Enabled(d, w)
    ensures Extends(d, Apply(d, w)) && MovedBy(d, Apply(d, w), WriterOf(w))
  {
    if IsJobWrite(w) {
      JobWriteExtends(d, w);
    } else if IsTasksWrite(w) {
      TasksWriteExtends(d, w);
    } else if IsTaskWrite(w) {
      TaskWriteExtends(d, w);
    } else if IsAttemptWrite(w) {
      AttemptWriteExtends(d, w);
    }
  }

  lemma JobWriteExtends(d: Db, w: Write)
    requires Enabled(d, w) && IsJobWrite(w)
    ensures Extends(d, Apply(d, w)) && MovedBy(d, Apply(d, w), WriterOf(w))
  {}

  lemma TasksWriteExtends(d: Db, w: Write)
    requires Inv(d) && Enabled(d, w) && IsTasksWrite(w)
    ensures Extends(d, Apply(d, w)) && MovedBy(d, Apply(d, w), WriterOf(w))
  {
    var e := Apply(d, w);
    assert JobOk(d, w.j);
    forall t | 0 <= t < |d.taskRuns|
      ensures TaskExtends(d.taskRuns[t], e.taskRuns[t]) && TaskMovedBy(d.taskRuns[t], e.taskRuns[t], WriterOf(w))
    {
      assert d.taskRuns[t].jobRun == w.j ==> InJob(d, t, w.j);
    }
  }

  lemma TaskWriteExtends(d: Db, w: Write)
    requires Enabled(d, w) && IsTaskWrite(w)
    ensures Extends(d, Apply(d, w)) && MovedBy(d, Apply(d, w), WriterOf(w))
  {
    assert TaskMovedBy(d.taskRuns[w.t], Apply(d, w).taskRuns[w.t], WriterOf(w));
  }

  lemma AttemptWriteExtends(d: Db, w: Write)
    requires Inv(d) && Enabled(d, w) && IsAttemptWrite(w)
    ensures Extends(d, Apply(d, w)) && MovedBy(d, Apply(d, w), WriterOf(w))
  {
    assert AttemptOk(d, w.a);
    RowExtends(d.attempts[w.a], w);
  }

  lemma RowExtends(row: Attempt, w: Write)
    requires IsAttemptWrite(w) && ProcessOk(row)
    requires w.MarkStarted? || w.Spawn? || w.ClearStarted? || w.SetRunning? || w.SkipAttempt? || w.InvalidateAttempt?
      ==> row.status.Queued?
    requires w.SettleAttempt? ==> row.status.Running? && w.attemptStatus.IsFinished()
    requires w.Recover? ==> row.status.Running?
    requires w.Kill? || w.GroupEnds? ==> !row.shell.NotSpawned?
    requires w.Exit? ==> row.shell.Alive?
    requires w.Spawn? || w.ClearStarted? ==> row.shell.NotSpawned?
    ensures AttemptExtends(row, AttemptWrite(row, w)) && AttemptMovedBy(row, AttemptWrite(row, w), WriterOf(w))
  {}

  // ---- Every enabled write keeps the invariant ----

  lemma LastKept(d: Db, e: Db, n: nat, t: nat)
    requires Extends(d, e) && n <= |d.attempts|
    ensures LastBefore(e.attempts, n, t) == LastBefore(d.attempts, n, t)
    ensures NumberAfter(e.attempts, n, t) == NumberAfter(d.attempts, n, t)
  {}

  lemma {:induction false} LastSkipsOthers(d: Db, n: nat, m: nat, t: nat)
    requires n <= m <= |d.attempts|
    requires forall a :: n <= a < m ==> d.attempts[a].taskRun != t
    ensures LastBefore(d.attempts, m, t) == LastBefore(d.attempts, n, t)
    decreases m
  {}

  /** A task run whose last attempt has settled keeps that attempt until another is inserted. */
  lemma SettledStepKept(d: Db, e: Db, t: nat)
    requires Extends(d, e) && t < |d.taskRuns|
    requires MonitorStep(d, t).Settle? || MonitorStep(d, t).InsertNext?
    requires forall a :: |d.attempts| <= a < |e.attempts| ==> e.attempts[a].taskRun != t
    ensures MonitorStep(e, t) == MonitorStep(d, t)
  {
    LastKept(d, e, |d.attempts|, t);
    LastSkipsOthers(e, |d.attempts|, |e.attempts|, t);
    var a := Last(d, t).value;
    assert AttemptExtends(d.attempts[a], e.attempts[a]) && TaskExtends(d.taskRuns[t], e.taskRuns[t]);
  }

  lemma TaskKept(d: Db, w: Write, t: nat)
    requires Inv(d) && Enabled(d, w) && t < |d.taskRuns|
    requires Extends(d, Apply(d, w))
    ensures TaskOk(Apply(d, w), t)
  {
    var e := Apply(d, w);
    TaskColumnsKept(d, e, t);
    if e.taskRuns[t].status.HasRun() {
      StartKept(d, w, t);
      if e.taskRuns[t].status.IsFinished() { SettleKept(d, w, t); }
    }
    if e.taskRuns[t].status.Skipped? {
      SkipCauseKept(d, w, t);
    }
  }

  lemma TaskColumnsKept(d: Db, e: Db, t: nat)
    requires Inv(d) && Extends(d, e) && t < |d.taskRuns|
    ensures TaskColumnsOk(e, t)
  {
    var row := d.taskRuns[t];
    assert TaskOk(d, t) && TaskExtends(row, e.taskRuns[t]);
    assert forall k :: 0 <= k < |row.dependsOn| ==>
      TaskExtends(d.taskRuns[row.dependsOn[k]], e.taskRuns[row.dependsOn[k]]);
  }

  lemma StartKept(d: Db, w: Write, t: nat)
    requires Inv(d) && Enabled(d, w) && t < |d.taskRuns|
    requires Extends(d, Apply(d, w)) && Apply(d, w).taskRuns[t].status.HasRun()
    ensures AllDependencies(Apply(d, w), t, (s: TaskRunStatus) => s.Succeeded?)
  {
    assert TaskOk(d, t);
    if !d.taskRuns[t].status.HasRun() { NewlyStarted(d, w, t); }
    DependenciesStay(d, Apply(d, w), t);
  }

  lemma NewlyStarted(d: Db, w: Write, t: nat)
    requires Enabled(d, w) && t < |d.taskRuns| && !d.taskRuns[t].status.HasRun()
    requires t < |Apply(d, w).taskRuns| && Apply(d, w).taskRuns[t].status.HasRun()
    ensures w == RunTask(t)
  {}

  lemma DependenciesStay(d: Db, e: Db, t: nat)
    requires Extends(d, e) && t < |d.taskRuns| && TaskColumnsOk(d, t)
    requires AllDependencies(d, t, (s: TaskRunStatus) => s.Succeeded?)
    ensures AllDependencies(e, t, (s: TaskRunStatus) => s.Succeeded?)
  {}

  lemma SettleKept(d: Db, w: Write, t: nat)
    requires Inv(d) && Enabled(d, w) && t < |d.taskRuns|
    requires Extends(d, Apply(d, w))
    requires Apply(d, w).taskRuns[t].status.HasRun() && Apply(d, w).taskRuns[t].status.IsFinished()
    ensures MonitorStep(Apply(d, w), t) == Settle(Apply(d, w).taskRuns[t].status)
  {
    assert TaskOk(d, t);
    if d.taskRuns[t].status != Apply(d, w).taskRuns[t].status { NewlySettled(d, w, t); }
    NoAttemptOfSettled(d, w, t);
    SettledStepKept(d, Apply(d, w), t);
  }

  lemma NewlySettled(d: Db, w: Write, t: nat)
    requires Enabled(d, w) && t < |d.taskRuns| && t < |Apply(d, w).taskRuns|
    requires d.taskRuns[t].status != Apply(d, w).taskRuns[t].status
    requires Apply(d, w).taskRuns[t].status.HasRun() && Apply(d, w).taskRuns[t].status.IsFinished()
    ensures w.SettleTask? && w.t == t && MonitorStep(d, t) == Settle(Apply(d, w).taskRuns[t].status)
  {}

  lemma NoAttemptOfSettled(d: Db, w: Write, t: nat)
    requires Enabled(d, w) && t < |d.taskRuns| && t < |Apply(d, w).taskRuns|
    requires Apply(d, w).taskRuns[t].status.IsFinished()
    ensures forall a :: |d.attempts| <= a < |Apply(d, w).attempts| ==> Apply(d, w).attempts[a].taskRun != t
  {}

  ghost predicate SkipCause(d: Db, t: nat, j: nat)
    requires t < |d.taskRuns|
  {
    || j in d.stops || (j < |d.jobRuns| && d.jobRuns[j].status.Deleted?)
    || SomeDependency(d, t, (s: TaskRunStatus) => s.IsBad())
  }

  lemma SkipCauseKept(d: Db, w: Write, t: nat)
    requires Inv(d) && Enabled(d, w) && t < |d.taskRuns|
    requires Extends(d, Apply(d, w)) && Apply(d, w).taskRuns[t].status.Skipped?
    ensures SkipCause(Apply(d, w), t, d.taskRuns[t].jobRun)
  {
    assert TaskOk(d, t);
    if SkipCause(d, t, d.taskRuns[t].jobRun) {
      SkipCauseStays(d, Apply(d, w), t);
    } else {
      NewlySkipped(d, w, t);
    }
  }

  lemma SkipCauseStays(d: Db, e: Db, t: nat)
    requires Extends(d, e) && t < |d.taskRuns| && TaskColumnsOk(d, t) && SkipCause(d, t, d.taskRuns[t].jobRun)
    ensures SkipCause(e, t, d.taskRuns[t].jobRun)
  {}

  lemma BadDependencyStays(d: Db, e: Db, t: nat)
    requires Extends(d, e) && t < |d.taskRuns| && SomeDependency(d, t, (s: TaskRunStatus) => s.IsBad())
    ensures SomeDependency(e, t, (s: TaskRunStatus) => s.IsBad())
  {}

  lemma NewlySkipped(d: Db, w: Write, t: nat)
    requires Enabled(d, w) && t < |d.taskRuns| && TaskOk(d, t) && !d.taskRuns[t].status.Skipped?
    requires t < |Apply(d, w).taskRuns| && Apply(d, w).taskRuns[t].status.Skipped?
    requires !SkipCause(d, t, d.taskRuns[t].jobRun)
    ensures SkipCause(Apply(d, w), t, d.taskRuns[t].jobRun)
  {}

  lemma SubmittedTaskOk(d: Db, w: Write, t: nat)
    requires Inv(d) && Enabled(d, w) && w.Submit?
    requires |d.taskRuns| <= t < |Apply(d, w).taskRuns|
    ensures TaskOk(Apply(d, w), t)
  {
    var e := Apply(d, w);
    var i := t - |d.taskRuns|;
    var task := w.tasks[i];
    assert task.id in w.order;
    forall k | 0 <= k < |task.dependsOn|
      ensures var dep := e.taskRuns[t].dependsOn[k];
        dep < |e.taskRuns| && e.taskRuns[dep].jobRun == |d.jobRuns| && e.taskRuns[dep].rank < e.taskRuns[t].rank
    {
      var id := task.dependsOn[k];
      assert id in task.dependsOn;
      assert IsTask(w.tasks, id);
      var p := PositionOf(w.tasks, id);
      var r := PositionIn(w.order, task.id);
      assert id in w.order[..r];
      EarlierPosition(w.order, id, r);
    }
  }

  lemma EarlierPosition(order: seq<TaskId>, id: TaskId, r: nat)
    requires r <= |order| && id in order[..r]
    ensures id in order && PositionIn(order, id) < r
  {}

  lemma AttemptKept(d: Db, w: Write, a: nat)
    requires Inv(d) && Enabled(d, w) && a < |d.attempts|
    requires Extends(d, Apply(d, w))
    ensures AttemptOk(Apply(d, w), a)
  {
    var e := Apply(d, w);
    var t := d.attempts[a].taskRun;
    assert AttemptOk(d, a) && AttemptExtends(d.attempts[a], e.attempts[a]);
    LastKept(d, e, a, t);
    assert TaskExtends(d.taskRuns[t], e.taskRuns[t]);
    RowKept(d, w, a);
  }

  lemma RowKept(d: Db, w: Write, a: nat)
    requires Enabled(d, w) && a < |d.attempts| && AttemptOk(d, a)
    requires a < |Apply(d, w).attempts|
    ensures var row := Apply(d, w).attempts[a];
      row.taskRun == d.attempts[a].taskRun && ProcessOk(row) && (row.status.IsStopped() ==> d.taskRuns[row.taskRun].jobRun in d.stops)
  {
    if IsAttemptWrite(w) && w.a == a {
      ProcessKept(d.attempts[a], w);
    }
  }

  lemma ProcessKept(row: Attempt, w: Write)
    requires IsAttemptWrite(w) && ProcessOk(row)
    requires w.MarkStarted? || w.Spawn? || w.ClearStarted? || w.SetRunning? || w.SkipAttempt? || w.InvalidateAttempt?
      ==> row.status.Queued?
    requires w.SettleAttempt? ==> row.status.Running? && w.attemptStatus.IsFinished() && !w.attemptStatus.Skipped?
    requires w.SettleAttempt? && (w.attemptStatus.Succeeded? || w.attemptStatus.Failed?) ==> row.shell.Exited?
    requires w.SettleAttempt? && w.attemptStatus.Succeeded? ==> row.shell.code == 0
    requires w.SkipAttempt? ==> row.startedAt.None?
    requires w.Kill? || w.GroupEnds? || w.SetRunning? ==> !row.shell.NotSpawned?
    requires w.Exit? ==> row.shell.Alive?
    requires w.Spawn? || w.ClearStarted? ==> row.shell.NotSpawned?
    requires w.Spawn? || w.InvalidateAttempt? || w.SetRunning? ==> row.startedAt.Some?
    ensures ProcessOk(AttemptWrite(row, w))
  {}

  lemma InsertedAttemptOk(d: Db, w: Write)
    requires Inv(d) && Enabled(d, w) && w.InsertAttempt?
    ensures AttemptOk(Apply(d, w), |d.attempts|) && EarlierFailed(Apply(d, w))
  {
    var e := Apply(d, w);
    var n := |d.attempts|;
    LastBeforeAppended(d.attempts, e.attempts[n], n, w.t);
    var last := Last(d, w.t);
    if last.Some? {
      assert AttemptOk(d, last.value);
      assert d.attempts[last.value].status.Failed?;
    }
    forall b | 0 <= b < n && d.attempts[b].taskRun == w.t
      ensures d.attempts[b].status.Failed?
    {
      assert OfTask(d.attempts, b, w.t);
    }
  }

  lemma {:induction false} LastBeforeAppended(attempts: seq<Attempt>, row: Attempt, n: nat, t: nat)
    requires n <= |attempts|
    ensures LastBefore(attempts + [row], n, t) == LastBefore(attempts, n, t)
  {
    if n > 0 {
      LastBeforeAppended(attempts, row, n - 1, t);
    }
  }

  lemma JobKept(d: Db, w: Write, j: nat)
    requires Inv(d) && Enabled(d, w) && j < |d.jobRuns|
    requires Extends(d, Apply(d, w)) && MovedBy(d, Apply(d, w), WriterOf(w))
    ensures JobOk(Apply(d, w), j)
  {
    var e := Apply(d, w);
    assert JobOk(d, j) && JobExtends(d.jobRuns[j], e.jobRuns[j]);
    if d.jobRuns[j].status != e.jobRuns[j].status {
      MovedJobOk(d, w, j);
    } else {
      SameJobOk(d, w, j);
    }
  }

  lemma MovedJobOk(d: Db, w: Write, j: nat)
    requires Enabled(d, w) && j < |d.jobRuns| && JobOk(d, j)
    requires j < |Apply(d, w).jobRuns| && d.jobRuns[j].status != Apply(d, w).jobRuns[j].status
    ensures JobOk(Apply(d, w), j)
  {
    var e := Apply(d, w);
    if w.Delete? {
      forall t | 0 <= t < |e.taskRuns| && InJob(e, t, j) ensures e.taskRuns[t].status.Skipped? {}
    } else {
      assert e.taskRuns == d.taskRuns && IsJobWrite(w) && w.j == j;
      SameVerdict(d, e, j);
    }
  }

  lemma SameVerdict(d: Db, e: Db, j: nat)
    requires e.taskRuns == d.taskRuns
    ensures JobVerdict(e, j) == JobVerdict(d, j)
    ensures AllTasks(d, j, (s: TaskRunStatus) => s.Skipped?) ==> AllTasks(e, j, (s: TaskRunStatus) => s.Skipped?)
    ensures AllTasks(d, j, (s: TaskRunStatus) => !s.Planned?) ==> AllTasks(e, j, (s: TaskRunStatus) => !s.Planned?)
  {}

  lemma SameJobOk(d: Db, w: Write, j: nat)
    requires Inv(d) && Enabled(d, w) && j < |d.jobRuns|
    requires Extends(d, Apply(d, w)) && d.jobRuns[j].status == Apply(d, w).jobRuns[j].status
    ensures JobOk(Apply(d, w), j)
  {
    var e := Apply(d, w);
    assert JobOk(d, j);
    if d.jobRuns[j].status.Scheduled? { ScheduledStays(d, w, j); }
    TasksOfOldJob(d, e, j);
    if d.jobRuns[j].status.IsFinished() { SettledJobKept(d, e, j); }
  }

  /** Nobody releases a task run of a run that is still Scheduled. */
  lemma ScheduledStays(d: Db, w: Write, j: nat)
    requires Enabled(d, w) && j < |d.jobRuns| && d.jobRuns[j].status.Scheduled? && NoneReleased(d, j)
    ensures NoneReleased(Apply(d, w), j)
  {
    var e := Apply(d, w);
    forall t | 0 <= t < |e.taskRuns| && InJob(e, t, j)
      ensures e.taskRuns[t].status.Planned? || e.taskRuns[t].status.Skipped?
    {
      assert t < |d.taskRuns| && InJob(d, t, j);
    }
  }

  lemma TasksOfOldJob(d: Db, e: Db, j: nat)
    requires Extends(d, e) && j < |d.jobRuns|
    ensures AllTasks(d, j, (s: TaskRunStatus) => !s.Planned?) ==> AllTasks(e, j, (s: TaskRunStatus) => !s.Planned?)
    ensures AllTasks(d, j, (s: TaskRunStatus) => s.Skipped?) ==> AllTasks(e, j, (s: TaskRunStatus) => s.Skipped?)
  {
    forall t | 0 <= t < |e.taskRuns| && InJob(e, t, j)
      ensures t < |d.taskRuns| && InJob(d, t, j) && TaskExtends(d.taskRuns[t], e.taskRuns[t])
    {}
  }

  /** The verdict over task runs that have all settled does not change. */
  lemma SettledJobKept(d: Db, e: Db, j: nat)
    requires Inv(d) && Extends(d, e) && j < |d.jobRuns|
    requires AllTasks(d, j, (s: TaskRunStatus) => s.IsFinished())
    ensures JobVerdict(e, j) == JobVerdict(d, j)
    ensures forall t :: 0 <= t < |d.taskRuns| && InJob(d, t, j) ==> e.taskRuns[t].status == d.taskRuns[t].status
    ensures forall t :: 0 <= t < |e.taskRuns| && InJob(e, t, j) ==> t < |d.taskRuns| && InJob(d, t, j)
  {}

  /** Every write made where it is enabled keeps the tables in order. */
  lemma InvKept(d: Db, w: Write)
    requires Inv(d) && Enabled(d, w)
    ensures Inv(Apply(d, w))
  {
    var e := Apply(d, w);
    WriteExtends(d, w);
    forall j | 0 <= j < |e.jobRuns| ensures JobOk(e, j) {
      if j < |d.jobRuns| { JobKept(d, w, j); } else { NewJobOk(d, w); }
    }
    forall t | 0 <= t < |e.taskRuns| ensures TaskOk(e, t) {
      if t < |d.taskRuns| { TaskKept(d, w, t); } else { SubmittedTaskOk(d, w, t); }
    }
    forall a | 0 <= a < |e.attempts| ensures AttemptOk(e, a) {
      if a < |d.attempts| { AttemptKept(d, w, a); } else { InsertedAttemptOk(d, w); }
    }
    if w.InsertAttempt? { InsertedAttemptOk(d, w); } else { EarlierStayFailed(d, e); }
  }

  lemma EarlierStayFailed(d: Db, e: Db)
    requires EarlierFailed(d) && Extends(d, e) && |e.attempts| == |d.attempts|
    ensures EarlierFailed(e)
  {}

  lemma NewJobOk(d: Db, w: Write)
    requires Inv(d) && Enabled(d, w) && w.Submit?
    ensures JobOk(Apply(d, w), |d.jobRuns|)
  {
    var e := Apply(d, w);
    assert forall t :: 0 <= t < |d.taskRuns| ==> TaskOk(d, t) && e.taskRuns[t] == d.taskRuns[t];
    assert forall t :: |d.taskRuns| <= t < |e.taskRuns| ==> e.taskRuns[t].status.Planned?;
  }
}
