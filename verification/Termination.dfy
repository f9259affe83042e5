/**
  Every run is a finite piece of work. One natural number per run drops with each status
  write and each attempt insert, whichever service makes it and however the services
  interleave, are stopped or are restarted.
 */
module Termination {
  import opened Options
  import opened TaskGraph
  import opened Tables
  import opened TableInvariant
  import opened RunFacts

  function Total(n: nat, cost: nat -> nat): nat {
    if n == 0 then 0 else Total(n - 1, cost) + cost(n - 1)
  }

  lemma {:induction false} TotalMonotone(n: nat, x: nat -> nat, y: nat -> nat)
    requires forall i :: 0 <= i < n ==> x(i) <= y(i)
    ensures Total(n, x) <= Total(n, y)
    ensures (exists i :: 0 <= i < n && x(i) < y(i)) ==> Total(n, x) < Total(n, y)
  {
    if n > 0 {
      TotalMonotone(n - 1, x, y);
    }
  }

  lemma {:induction false} TotalOfZeros(n: nat, m: nat, cost: nat -> nat)
    requires n <= m && forall i :: n <= i < m ==> cost(i) == 0
    ensures Total(m, cost) == Total(n, cost)
    decreases m - n
  {
    if n < m {
      TotalOfZeros(n, m - 1, cost);
    }
  }

  /** The attempts a task run may still be given. */
  function TriesLeft(d: Db, t: nat): nat
    requires t < |d.taskRuns|
  {
    if Tries(d, t) <= d.taskRuns[t].maxRetries + 1 then d.taskRuns[t].maxRetries + 1 - Tries(d, t) else 0
  }

  function TaskCost(d: Db, j: nat): nat -> nat {
    (t: nat) => if InJob(d, t, j) then d.taskRuns[t].status.Rank() + 3 * TriesLeft(d, t) else 0
  }

  function AttemptCost(d: Db, j: nat): nat -> nat {
    (a: nat) => if a < |d.attempts| && InJob(d, d.attempts[a].taskRun, j) then d.attempts[a].status.Rank() else 0
  }

  /** What is left to be written about a run. */
  function Work(d: Db, j: nat): nat {
    (if j < |d.jobRuns| then d.jobRuns[j].status.Rank() else 0)
    + Total(|d.taskRuns|, TaskCost(d, j)) + Total(|d.attempts|, AttemptCost(d, j))
  }

  /** No status of the run or of a row of it differs, and it has the same attempts. */
  ghost predicate SameProgress(d: Db, e: Db, j: nat)
    requires Extends(d, e) && j < |d.jobRuns|
  {
    && d.jobRuns[j].status == e.jobRuns[j].status
    && (forall t :: 0 <= t < |d.taskRuns| && InJob(d, t, j) ==> d.taskRuns[t].status == e.taskRuns[t].status)
    && (forall a :: 0 <= a < |d.attempts| && InJob(d, d.attempts[a].taskRun, j)
          ==> d.attempts[a].status == e.attempts[a].status)
    && (forall a :: |d.attempts| <= a < |e.attempts| ==> !InJob(e, e.attempts[a].taskRun, j))
  }

  ghost predicate NoNewAttempt(d: Db, e: Db, j: nat) {
    forall a :: |d.attempts| <= a < |e.attempts| ==> !InJob(e, e.attempts[a].taskRun, j)
  }

  /** Without a new attempt for it, a run's work only shrinks, and shrinks if anything changed. */
  lemma WorkOfSameAttempts(d: Db, e: Db, j: nat)
    requires Inv(d) && Inv(e) && Extends(d, e) && j < |d.jobRuns| && NoNewAttempt(d, e, j)
    ensures Work(e, j) <= Work(d, j)
    ensures !SameProgress(d, e, j) ==> Work(e, j) < Work(d, j)
  {
    assert JobExtends(d.jobRuns[j], e.jobRuns[j]);
    TaskWork(d, e, j);
    AttemptWork(d, e, j);
  }

  lemma TaskWork(d: Db, e: Db, j: nat)
    requires Extends(d, e) && j < |d.jobRuns| && NoNewAttempt(d, e, j)
    ensures Total(|e.taskRuns|, TaskCost(e, j)) <= Total(|d.taskRuns|, TaskCost(d, j))
    ensures (exists t :: 0 <= t < |d.taskRuns| && InJob(d, t, j) && d.taskRuns[t].status != e.taskRuns[t].status)
      ==> Total(|e.taskRuns|, TaskCost(e, j)) < Total(|d.taskRuns|, TaskCost(d, j))
  {
    forall t | 0 <= t < |d.taskRuns|
      ensures TaskCost(e, j)(t) <= TaskCost(d, j)(t)
      ensures InJob(d, t, j) && d.taskRuns[t].status != e.taskRuns[t].status ==> TaskCost(e, j)(t) < TaskCost(d, j)(t)
    {
      assert TaskExtends(d.taskRuns[t], e.taskRuns[t]);
      if InJob(d, t, j) { TriesKept(d, e, t, j); }
    }
    TotalMonotone(|d.taskRuns|, TaskCost(e, j), TaskCost(d, j));
    TotalOfZeros(|d.taskRuns|, |e.taskRuns|, TaskCost(e, j));
  }

  lemma AttemptWork(d: Db, e: Db, j: nat)
    requires Inv(d) && Extends(d, e) && j < |d.jobRuns| && NoNewAttempt(d, e, j)
    ensures Total(|e.attempts|, AttemptCost(e, j)) <= Total(|d.attempts|, AttemptCost(d, j))
    ensures (exists a :: 0 <= a < |d.attempts| && InJob(d, d.attempts[a].taskRun, j)
               && d.attempts[a].status != e.attempts[a].status)
      ==> Total(|e.attempts|, AttemptCost(e, j)) < Total(|d.attempts|, AttemptCost(d, j))
  {
    forall a | 0 <= a < |d.attempts|
      ensures AttemptCost(e, j)(a) <= AttemptCost(d, j)(a)
      ensures InJob(d, d.attempts[a].taskRun, j) && d.attempts[a].status != e.attempts[a].status
        ==> AttemptCost(e, j)(a) < AttemptCost(d, j)(a)
    {
      assert AttemptOk(d, a) && AttemptExtends(d.attempts[a], e.attempts[a]);
      assert TaskExtends(d.taskRuns[d.attempts[a].taskRun], e.taskRuns[d.attempts[a].taskRun]);
    }
    TotalMonotone(|d.attempts|, AttemptCost(e, j), AttemptCost(d, j));
    TotalOfZeros(|d.attempts|, |e.attempts|, AttemptCost(e, j));
  }

  lemma TriesKept(d: Db, e: Db, t: nat, j: nat)
    requires Extends(d, e) && InJob(d, t, j)
    requires forall a :: |d.attempts| <= a < |e.attempts| ==> !InJob(e, e.attempts[a].taskRun, j)
    ensures Tries(e, t) == Tries(d, t)
  {
    LastKept(d, e, |d.attempts|, t);
    LastSkipsOthers(e, |d.attempts|, |e.attempts|, t);
    assert TaskExtends(d.taskRuns[t], e.taskRuns[t]);
    if Last(d, t).Some? { assert AttemptExtends(d.attempts[Last(d, t).value], e.attempts[Last(d, t).value]); }
  }

  /** A new attempt is paid for by the try it uses up. */
  lemma WorkOfNewAttempt(d: Db, w: Write, j: nat)
    requires Inv(d) && Enabled(d, w) && w.InsertAttempt? && j < |d.jobRuns| && InJob(d, w.t, j)
    ensures Work(Apply(d, w), j) < Work(d, j)
  {
    var e := Apply(d, w);
    var n := |d.attempts|;
    InvKept(d, w);
    assert AttemptOk(e, n);
    forall t | 0 <= t < |d.taskRuns| && t != w.t
      ensures TaskCost(e, j)(t) == TaskCost(d, j)(t)
    {
      LastBeforeAppended(d.attempts, e.attempts[n], n, t);
    }
    assert Last(e, w.t) == Some(n);
    assert TaskCost(e, j)(w.t) + 3 <= TaskCost(d, j)(w.t) by {
      if Last(d, w.t).Some? { assert AttemptOk(d, Last(d, w.t).value); }
    }
    TotalDropsBy(|d.taskRuns|, TaskCost(e, j), TaskCost(d, j), w.t);
    TotalMonotone(n, AttemptCost(e, j), AttemptCost(d, j));
  }

  lemma {:induction false} TotalDropsBy(n: nat, x: nat -> nat, y: nat -> nat, k: nat)
    requires k < n && x(k) + 3 <= y(k) && forall i :: 0 <= i < n ==> x(i) <= y(i)
    ensures Total(n, x) + 3 <= Total(n, y)
  {
    if k < n - 1 {
      TotalDropsBy(n - 1, x, y, k);
    } else {
      TotalMonotone(n - 1, x, y);
    }
  }

  /** Every enabled write either leaves a run's statuses and attempts as they were or lowers its work. */
  lemma WorkDrops(d: Db, w: Write, j: nat)
    requires Inv(d) && Enabled(d, w) && j < |d.jobRuns|
    ensures Extends(d, Apply(d, w))
    ensures Work(Apply(d, w), j) <= Work(d, j)
    ensures !SameProgress(d, Apply(d, w), j) ==> Work(Apply(d, w), j) < Work(d, j)
  {
    InvKept(d, w);
    WriteExtends(d, w);
    if w.InsertAttempt? && InJob(d, w.t, j) {
      WorkOfNewAttempt(d, w, j);
    } else {
      WorkOfSameAttempts(d, Apply(d, w), j);
    }
  }

  // ---- A bound fixed at submission ----

  /** For each task of the job: its status writes, and three writes for each allowed attempt. */
  function TaskBudget(tasks: seq<TaskYaml>): nat {
    if tasks == [] then 0 else TaskBudget(tasks[..|tasks| - 1]) + 3 + 3 * (tasks[|tasks| - 1].maxRetries + 1)
  }

  function Budget(tasks: seq<TaskYaml>): nat {
    3 + TaskBudget(tasks)
  }

  lemma SubmittedWork(d: Db, w: Write)
    requires Inv(d) && Enabled(d, w) && w.Submit?
    ensures Work(Apply(d, w), |d.jobRuns|) == Budget(w.tasks)
  {
    var e, j, base := Apply(d, w), |d.jobRuns|, |d.taskRuns|;
    OldRowsElsewhere(d, w);
    forall i | 0 <= i < |w.tasks| ensures TaskCost(e, j)(base + i) == 3 + 3 * (w.tasks[i].maxRetries + 1) {
      NewTaskCost(d, w, i);
    }
    assert forall a :: 0 <= a < |e.attempts| ==> AttemptCost(e, j)(a) == 0;
    WorkOfFreshRun(e, j, base, w.tasks);
  }

  lemma WorkOfFreshRun(e: Db, j: nat, base: nat, tasks: seq<TaskYaml>)
    requires j < |e.jobRuns| && e.jobRuns[j].status.Scheduled? && |e.taskRuns| == base + |tasks|
    requires forall t :: 0 <= t < base ==> TaskCost(e, j)(t) == 0
    requires forall i :: 0 <= i < |tasks| ==> TaskCost(e, j)(base + i) == 3 + 3 * (tasks[i].maxRetries + 1)
    requires forall a :: 0 <= a < |e.attempts| ==> AttemptCost(e, j)(a) == 0
    ensures Work(e, j) == Budget(tasks)
  {
    TotalOfZeros(0, base, TaskCost(e, j));
    TotalOfZeros(0, |e.attempts|, AttemptCost(e, j));
    TotalOfTasks(base, tasks, |tasks|, TaskCost(e, j));
    assert tasks[..|tasks|] == tasks;
  }

  lemma OldRowsElsewhere(d: Db, w: Write)
    requires Inv(d) && w.Submit?
    ensures forall t :: 0 <= t < |d.taskRuns| ==> TaskCost(Apply(d, w), |d.jobRuns|)(t) == 0
    ensures forall a :: 0 <= a < |d.attempts| ==> AttemptCost(Apply(d, w), |d.jobRuns|)(a) == 0
  {
    var e := Apply(d, w);
    forall t | 0 <= t < |d.taskRuns| ensures !InJob(e, t, |d.jobRuns|) {
      assert TaskOk(d, t) && e.taskRuns[t] == d.taskRuns[t];
    }
    forall a | 0 <= a < |d.attempts| ensures !InJob(e, d.attempts[a].taskRun, |d.jobRuns|) {
      assert AttemptOk(d, a);
    }
  }

  lemma NewTaskCost(d: Db, w: Write, i: nat)
    requires Inv(d) && w.Submit? && i < |w.tasks|
    ensures TaskCost(Apply(d, w), |d.jobRuns|)(|d.taskRuns| + i) == 3 + 3 * (w.tasks[i].maxRetries + 1)
  {
    NoAttemptYet(d, |d.taskRuns| + i);
  }

  lemma NoAttemptYet(d: Db, t: nat)
    requires Inv(d) && t >= |d.taskRuns|
    ensures Last(d, t).None?
  {
    assert forall a :: 0 <= a < |d.attempts| ==> AttemptOk(d, a) && !OfTask(d.attempts, a, t);
  }

  lemma {:induction false} TotalOfTasks(base: nat, tasks: seq<TaskYaml>, n: nat, cost: nat -> nat)
    requires n <= |tasks|
    requires forall i :: 0 <= i < n ==> cost(base + i) == 3 + 3 * (tasks[i].maxRetries + 1)
    ensures Total(base + n, cost) == Total(base, cost) + TaskBudget(tasks[..n])
  {
    if n > 0 {
      TotalOfTasks(base, tasks, n - 1, cost);
      assert tasks[..n][..n - 1] == tasks[..n - 1];
    }
  }
}
