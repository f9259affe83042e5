/**
  How things end, said of the rows alone: which attempts and exits lie behind the status a task
  run settles as, and which of those behind a run's.
 */
module Outcomes {
  import opened Options
  import opened Tables
  import opened TableInvariant
  import opened RunFacts
  import opened PollerInvariant
  import opened Executions

  // ---- Task runs ----

  /** The newest attempt of the task run. */
  ghost predicate IsLast(d: Db, t: nat, a: nat) {
    OfTask(d.attempts, a, t) && forall b :: a < b < |d.attempts| ==> !OfTask(d.attempts, b, t)
  }

  ghost function AttemptsOf(d: Db, t: nat): set<nat> {
    AttemptsBefore(d, |d.attempts|, t)
  }

  ghost function AttemptsBefore(d: Db, n: nat, t: nat): set<nat> {
    set a: nat | a < n && OfTask(d.attempts, a, t)
  }

  lemma LastIs(d: Db, t: nat, a: nat)
    ensures IsLast(d, t, a) <==> Last(d, t) == Some(a)
  {}

  lemma {:induction false} CountedByNumber(d: Db, n: nat, t: nat)
    requires Inv(d) && n <= |d.attempts|
    ensures |AttemptsBefore(d, n, t)| + 1 == NumberAfter(d.attempts, n, t)
  {
    if n > 0 {
      CountedByNumber(d, n - 1, t);
      assert AttemptOk(d, n - 1);
      OneMoreBefore(d, n - 1, t);
    }
  }

  lemma OneMoreBefore(d: Db, n: nat, t: nat)
    requires n < |d.attempts|
    ensures |AttemptsBefore(d, n + 1, t)| == |AttemptsBefore(d, n, t)| + (if d.attempts[n].taskRun == t then 1 else 0)
  {
    var before := AttemptsBefore(d, n, t);
    assert AttemptsBefore(d, n + 1, t) == if d.attempts[n].taskRun == t then before + {n} else before;
  }

  /** The task run ended as its last attempt did, and as Failed only with no try left. */
  ghost predicate EndedAs(task: TaskRun, last: Attempt) {
    && last.status.IsFinished()
    && (task.status.Succeeded? <==> last.status.Succeeded?)
    && (task.status.Failed? <==> last.status.Failed?)
    && (task.status.TimedOut? <==> last.status.TimedOut?)
    && (task.status.Invalid? <==> last.status.Invalid?)
    && (task.status.Aborted? <==> last.status.Aborted? || last.status.Skipped?)
    && (last.status.Failed? ==> last.number == task.maxRetries + 1)
  }

  ghost predicate EndedAsLast(d: Db, t: nat)
    requires t < |d.taskRuns|
  {
    exists a: nat :: IsLast(d, t, a) && EndedAs(d.taskRuns[t], d.attempts[a])
  }

  /**
    Whatever has happened, a task run that ran and has settled did so as its last attempt; and
    never while that was Failed with a retry left.
   */
  lemma SettledAsLast(x: Execution, i: nat, t: nat)
    requires Runs(x) && i < |x.states| && t < |x.states[i].db.taskRuns|
    requires x.states[i].db.taskRuns[t].status.HasRun() && !x.states[i].db.taskRuns[t].status.Running?
    ensures EndedAsLast(x.states[i].db, t)
  {
    AlwaysGood(x, i);
    EndsAsLast(x.states[i].db, t);
  }

  lemma EndsAsLast(d: Db, t: nat)
    requires Inv(d) && t < |d.taskRuns| && d.taskRuns[t].status.HasRun() && !d.taskRuns[t].status.Running?
    ensures EndedAsLast(d, t)
  {
    assert TaskOk(d, t);
    var a := Last(d, t).value;
    LastIs(d, t, a);
    assert AttemptOk(d, a);
  }

  /** A Failed task run has used up its retries: max_retries + 1 attempts, every one Failed. */
  lemma RetriesUsedUp(x: Execution, i: nat, t: nat)
    requires Runs(x) && i < |x.states| && t < |x.states[i].db.taskRuns| && x.states[i].db.taskRuns[t].status.Failed?
    ensures var d := x.states[i].db;
      && |AttemptsOf(d, t)| == d.taskRuns[t].maxRetries + 1
      && forall a :: a in AttemptsOf(d, t) ==> d.attempts[a].status.Failed?
  {
    AlwaysGood(x, i);
    var d := x.states[i].db;
    EndsAsLast(d, t);
    var last: nat :| IsLast(d, t, last) && EndedAs(d.taskRuns[t], d.attempts[last]);
    LastIs(d, t, last);
    CountedByNumber(d, |d.attempts|, t);
    forall a | a in AttemptsOf(d, t) && a != last ensures d.attempts[a].status.Failed? {
      assert a < last;
    }
  }

  // ---- Runs ----

  ghost predicate HasTask(d: Db, j: nat, status: TaskRunStatus) {
    exists t: nat :: InJob(d, t, j) && d.taskRuns[t].status == status
  }

  /** An unknown outcome outranks every verdict, a failure a timeout, and both a stop. */
  ghost predicate RanksTo(d: Db, j: nat, status: JobRunStatus) {
    var invalid, failed := HasTask(d, j, TaskRunStatus.Invalid), HasTask(d, j, TaskRunStatus.Failed);
    var timedOut := HasTask(d, j, TaskRunStatus.TimedOut);
    var stopped := HasTask(d, j, TaskRunStatus.Aborted) || HasTask(d, j, TaskRunStatus.Skipped);
    && (forall t: nat :: InJob(d, t, j) ==> d.taskRuns[t].status.IsFinished())
    && (status.Invalid? <==> invalid)
    && (status.Failed? <==> !invalid && failed)
    && (status.TimedOut? <==> !invalid && !failed && timedOut)
    && (status.Aborted? <==> !invalid && !failed && !timedOut && stopped)
    && (status.Succeeded? <==> forall t: nat :: InJob(d, t, j) ==> d.taskRuns[t].status.Succeeded?)
  }

  /** In every state, a run that went all the way has the status its task runs' statuses rank to. */
  lemma RunSettledAs(x: Execution, i: nat, j: nat)
    requires Runs(x) && i < |x.states| && j < |x.states[i].db.jobRuns|
    requires var status := x.states[i].db.jobRuns[j].status; status.IsFinished() && !status.Skipped? && !status.Deleted?
    ensures RanksTo(x.states[i].db, j, x.states[i].db.jobRuns[j].status)
  {
    AlwaysGood(x, i);
    RunEndsAs(x.states[i].db, j);
  }

  lemma RunEndsAs(d: Db, j: nat)
    requires Inv(d) && j < |d.jobRuns|
    requires var status := d.jobRuns[j].status; status.IsFinished() && !status.Skipped? && !status.Deleted?
    ensures RanksTo(d, j, d.jobRuns[j].status)
  {
    assert JobOk(d, j);
    VerdictRanks(d, j, d.jobRuns[j].status);
  }

  lemma VerdictRanks(d: Db, j: nat, status: JobRunStatus)
    requires JobVerdict(d, j) == Some(status) && !status.Running?
    ensures RanksTo(d, j, status)
  {
    SomeIsHas(d, j, TaskRunStatus.Invalid, (s: TaskRunStatus) => s.Invalid?);
    SomeIsHas(d, j, TaskRunStatus.Failed, (s: TaskRunStatus) => s.Failed?);
    SomeIsHas(d, j, TaskRunStatus.TimedOut, (s: TaskRunStatus) => s.TimedOut?);
    StoppedIsHas(d, j);
  }

  lemma SomeIsHas(d: Db, j: nat, status: TaskRunStatus, p: TaskRunStatus -> bool)
    requires forall s :: p(s) <==> s == status
    ensures SomeTask(d, j, p) <==> HasTask(d, j, status)
  {}

  lemma StoppedIsHas(d: Db, j: nat)
    ensures SomeTask(d, j, (s: TaskRunStatus) => s.IsStopped()) <==>
      HasTask(d, j, TaskRunStatus.Aborted) || HasTask(d, j, TaskRunStatus.Skipped)
  {}

  // ---- Commands ----

  /** No attempt is ever Succeeded whose command has not exited with 0. */
  lemma SucceededExitedZero(x: Execution, i: nat, a: nat)
    requires Runs(x) && i < |x.states| && a < |x.states[i].db.attempts| && x.states[i].db.attempts[a].status.Succeeded?
    ensures x.states[i].db.attempts[a].shell.Exited? && x.states[i].db.attempts[a].shell.code == 0
  {
    AlwaysGood(x, i);
    assert AttemptOk(x.states[i].db, a);
  }

  ghost predicate LastExitedZero(d: Db, t: nat) {
    exists a: nat :: IsLast(d, t, a) && d.attempts[a].status.Succeeded? && d.attempts[a].shell.Exited? && d.attempts[a].shell.code == 0
  }

  /** So of a Succeeded run the last command of every task exited with 0. */
  lemma SuccessIsExitZero(x: Execution, i: nat, j: nat)
    requires Runs(x) && i < |x.states| && j < |x.states[i].db.jobRuns| && x.states[i].db.jobRuns[j].status.Succeeded?
    ensures forall t: nat :: InJob(x.states[i].db, t, j) ==> LastExitedZero(x.states[i].db, t)
  {
    AlwaysGood(x, i);
    var d := x.states[i].db;
    RunEndsAs(d, j);
    forall t: nat | InJob(d, t, j) ensures LastExitedZero(d, t) {
      EndsAsLast(d, t);
      var a: nat :| IsLast(d, t, a) && EndedAs(d.taskRuns[t], d.attempts[a]);
      assert AttemptOk(d, a);
    }
  }
}
