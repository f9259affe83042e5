/**
  What submitting a job inserts: one task run for each of its tasks, depending on the task runs
  of the tasks it names. So the order the tables keep is the order the job declares.
 */
module Submissions {
  import opened Options
  import opened TaskGraph
  import opened Tables
  import opened TableInvariant
  import opened RunFacts
  import opened Pollers
  import opened PollerInvariant
  import opened PollerSteps
  import opened Executions

  // ---- A run as its job declares it ----

  /** The task's columns, and for each dependency it names the row of that task in the same run. */
  ghost predicate AsDeclared(d: Db, t: nat, task: TaskYaml)
    requires t < |d.taskRuns|
  {
    var row := d.taskRuns[t];
    && row.taskId == task.id && row.limits == task.limits
    && row.timeout == task.timeout && row.idleTimeout == task.idleTimeout
    && row.maxRetries == task.maxRetries && row.retryDelay == task.retryDelay
    && |row.dependsOn| == |task.dependsOn|
    && forall k :: 0 <= k < |row.dependsOn| ==>
         InJob(d, row.dependsOn[k], row.jobRun) && d.taskRuns[row.dependsOn[k]].taskId == task.dependsOn[k]
  }

  ghost predicate RowOf(d: Db, t: nat, j: nat, task: TaskYaml) {
    InJob(d, t, j) && AsDeclared(d, t, task)
  }

  ghost predicate HasRow(d: Db, j: nat, task: TaskYaml) {
    exists t: nat :: RowOf(d, t, j, task)
  }

  /** Exactly one row for each task, and none for anything else. */
  ghost predicate RunAsDeclared(d: Db, j: nat, tasks: seq<TaskYaml>) {
    && (forall i :: 0 <= i < |tasks| ==> HasRow(d, j, tasks[i]))
    && (forall t :: 0 <= t < |d.taskRuns| && InJob(d, t, j) ==> IsTask(tasks, d.taskRuns[t].taskId))
    && (forall t, u :: 0 <= t < |d.taskRuns| && 0 <= u < |d.taskRuns| && SameTask(d, t, u, j) ==> t == u)
  }

  ghost predicate SameTask(d: Db, t: nat, u: nat, j: nat) {
    InJob(d, t, j) && InJob(d, u, j) && d.taskRuns[t].taskId == d.taskRuns[u].taskId
  }

  lemma NewRowAsDeclared(d: Db, w: Write, i: nat)
    requires Enabled(d, w) && w.Submit? && i < |w.tasks|
    ensures RowOf(Apply(d, w), |d.taskRuns| + i, |d.jobRuns|, w.tasks[i])
  {
    var e, task := Apply(d, w), w.tasks[i];
    forall k | 0 <= k < |task.dependsOn|
      ensures var dep := e.taskRuns[|d.taskRuns| + i].dependsOn[k];
        InJob(e, dep, |d.jobRuns|) && e.taskRuns[dep].taskId == task.dependsOn[k]
    {
      assert task.dependsOn[k] in task.dependsOn;
      assert IsTask(w.tasks, task.dependsOn[k]);
    }
  }

  /** What a submission adds, and that it changes nothing else. */
  ghost predicate Inserts(d: Db, e: Db, w: Write)
    requires w.Submit?
  {
    && e.jobRuns == d.jobRuns + [JobRun(w.jobId, w.scheduledAt, JobRunStatus.Scheduled)]
    && e.attempts == d.attempts && e.stops == d.stops
    && |e.taskRuns| == |d.taskRuns| + |w.tasks| && e.taskRuns[..|d.taskRuns|] == d.taskRuns
    && forall t :: |d.taskRuns| <= t < |e.taskRuns| ==> e.taskRuns[t].status.Planned? && InJob(e, t, |d.jobRuns|)
  }

  lemma NewRowsOnly(d: Db, w: Write)
    requires Inv(d) && w.Submit?
    ensures Inserts(d, Apply(d, w), w)
    ensures forall t :: 0 <= t < |Apply(d, w).taskRuns| && InJob(Apply(d, w), t, |d.jobRuns|) ==>
      t >= |d.taskRuns| && Apply(d, w).taskRuns[t].taskId == w.tasks[t - |d.taskRuns|].id
  {
    var e := Apply(d, w);
    forall t | 0 <= t < |d.taskRuns| ensures !InJob(e, t, |d.jobRuns|) {
      assert TaskOk(d, t) && e.taskRuns[t] == d.taskRuns[t];
    }
  }

  /**
    A submission adds one Scheduled run and, for each task, exactly one Planned task run with
    the task's columns, whose dependencies are the new rows of the tasks it names.
   */
  lemma SubmitInserts(d: Db, w: Write)
    requires Inv(d) && Enabled(d, w) && w.Submit?
    ensures Inserts(d, Apply(d, w), w) && RunAsDeclared(Apply(d, w), |d.jobRuns|, w.tasks)
  {
    var e, j, base := Apply(d, w), |d.jobRuns|, |d.taskRuns|;
    NewRowsOnly(d, w);
    forall i | 0 <= i < |w.tasks| ensures HasRow(e, j, w.tasks[i]) {
      NewRowAsDeclared(d, w, i);
    }
    forall t, u | 0 <= t < |e.taskRuns| && 0 <= u < |e.taskRuns| && SameTask(e, t, u, j) ensures t == u {
      assert w.tasks[t - base].id == w.tasks[u - base].id;
    }
  }

  lemma DeclarationStays(d: Db, e: Db, j: nat, tasks: seq<TaskYaml>)
    requires Extends(d, e) && j < |d.jobRuns| && RunAsDeclared(d, j, tasks)
    ensures RunAsDeclared(e, j, tasks)
  {
    forall t | 0 <= t < |e.taskRuns| && InJob(e, t, j)
      ensures t < |d.taskRuns| && InJob(d, t, j) && e.taskRuns[t].taskId == d.taskRuns[t].taskId
    {
      assert t < |d.taskRuns| ==> TaskExtends(d.taskRuns[t], e.taskRuns[t]);
    }
    forall t, u | 0 <= t < |e.taskRuns| && 0 <= u < |e.taskRuns| && SameTask(e, t, u, j) ensures t == u {
      assert SameTask(d, t, u, j);
    }
    forall i | 0 <= i < |tasks| ensures HasRow(e, j, tasks[i]) {
      var t: nat :| RowOf(d, t, j, tasks[i]);
      RowStays(d, e, t, j, tasks[i]);
    }
  }

  lemma RowStays(d: Db, e: Db, t: nat, j: nat, task: TaskYaml)
    requires Extends(d, e) && RowOf(d, t, j, task)
    ensures RowOf(e, t, j, task)
  {
    assert TaskExtends(d.taskRuns[t], e.taskRuns[t]);
    forall k | 0 <= k < |task.dependsOn|
      ensures var dep := d.taskRuns[t].dependsOn[k];
        InJob(e, dep, j) && e.taskRuns[dep].taskId == task.dependsOn[k]
    {
      assert TaskExtends(d.taskRuns[d.taskRuns[t].dependsOn[k]], e.taskRuns[d.taskRuns[t].dependsOn[k]]);
    }
  }

  // ---- The declared order ----

  ghost predicate Declares(tasks: seq<TaskYaml>, id: TaskId, dependency: TaskId) {
    exists i :: 0 <= i < |tasks| && tasks[i].id == id && dependency in tasks[i].dependsOn
  }

  /** Each task of the chain declares the next as a dependency. */
  ghost predicate DeclaredChain(tasks: seq<TaskYaml>, chain: seq<TaskId>) {
    forall n :: 0 <= n < |chain| - 1 ==> Declares(tasks, chain[n], chain[n + 1])
  }

  lemma DeclaredRow(d: Db, j: nat, tasks: seq<TaskYaml>, t: nat, dependency: TaskId) returns (dep: nat)
    requires RunAsDeclared(d, j, tasks) && InJob(d, t, j) && Declares(tasks, d.taskRuns[t].taskId, dependency)
    ensures dep in d.taskRuns[t].dependsOn && InJob(d, dep, j) && d.taskRuns[dep].taskId == dependency
  {
    var i :| 0 <= i < |tasks| && tasks[i].id == d.taskRuns[t].taskId && dependency in tasks[i].dependsOn;
    assert HasRow(d, j, tasks[i]);
    var u: nat :| RowOf(d, u, j, tasks[i]);
    assert SameTask(d, t, u, j);
    var k :| 0 <= k < |tasks[i].dependsOn| && tasks[i].dependsOn[k] == dependency;
    dep := d.taskRuns[t].dependsOn[k];
  }

  /** The task runs of a declared chain depend on each other as it says. */
  lemma {:induction false} ChainOfRows(d: Db, j: nat, tasks: seq<TaskYaml>, t: nat, chain: seq<TaskId>) returns (path: seq<nat>)
    requires RunAsDeclared(d, j, tasks) && InJob(d, t, j)
    requires DeclaredChain(tasks, chain) && chain != [] && chain[0] == d.taskRuns[t].taskId
    ensures |path| == |chain| && path[0] == t && DependencyPath(d, path)
    ensures forall n :: 0 <= n < |path| ==> InJob(d, path[n], j) && d.taskRuns[path[n]].taskId == chain[n]
    decreases |chain|
  {
    path := [t];
    if |chain| > 1 {
      assert Declares(tasks, chain[0], chain[0 + 1]);
      var dep := DeclaredRow(d, j, tasks, t, chain[1]);
      forall n | 0 <= n < |chain[1..]| - 1 ensures Declares(tasks, chain[1..][n], chain[1..][n + 1]) {
        assert Declares(tasks, chain[n + 1], chain[n + 1 + 1]);
      }
      var rest := ChainOfRows(d, j, tasks, dep, chain[1..]);
      path := [t] + rest;
    }
  }

  ghost predicate SubmittedAt(x: Execution, i: nat, tasks: seq<TaskYaml>) {
    i < |x.events| && x.events[i].World? && x.events[i].write.Submit? && x.events[i].write.tasks == tasks
  }

  /** In every later state a run has the task runs its job declared when it was submitted. */
  lemma RunStaysAsDeclared(x: Execution, i: nat, k: nat, tasks: seq<TaskYaml>)
    requires Runs(x) && SubmittedAt(x, i, tasks) && i < k < |x.states|
    ensures RunAsDeclared(x.states[k].db, |x.states[i].db.jobRuns|, tasks)
  {
    AlwaysGood(x, i);
    EveryWriteIsEnabled(x, i);
    SubmitInserts(x.states[i].db, x.events[i].write);
    LaterExtends(x, i + 1, k);
    DeclarationStays(x.states[i + 1].db, x.states[k].db, |x.states[i].db.jobRuns|, tasks);
  }

  /**
    Once the task run of a task has run, the task run in the same run of every task it declares
    as a dependency, directly or through others, is Succeeded from then on.
   */
  lemma DeclaredOrder(x: Execution, i: nat, k: nat, l: nat, tasks: seq<TaskYaml>, t: nat, chain: seq<TaskId>, n: nat, u: nat)
    requires Runs(x) && SubmittedAt(x, i, tasks) && i < k <= l < |x.states|
    requires InJob(x.states[k].db, t, |x.states[i].db.jobRuns|) && x.states[k].db.taskRuns[t].status.HasRun()
    requires DeclaredChain(tasks, chain) && 0 < n < |chain| && chain[0] == x.states[k].db.taskRuns[t].taskId
    requires InJob(x.states[l].db, u, |x.states[i].db.jobRuns|) && x.states[l].db.taskRuns[u].taskId == chain[n]
    ensures x.states[l].db.taskRuns[u].status.Succeeded?
  {
    var j := |x.states[i].db.jobRuns|;
    RunStaysAsDeclared(x, i, k, tasks);
    RunStaysAsDeclared(x, i, l, tasks);
    var path := ChainOfRows(x.states[k].db, j, tasks, t, chain);
    DependencyOrder(x, k, l, path, n);
    LaterExtends(x, k, l);
    assert TaskExtends(x.states[k].db.taskRuns[path[n]], x.states[l].db.taskRuns[path[n]]);
    assert SameTask(x.states[l].db, path[n], u, j);
  }
}
