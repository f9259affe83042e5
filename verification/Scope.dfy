/**
  The two things the code takes on trust: exactly when each holds, and an execution from the
  start of a server in which it does not.
 */
module Scope {
  import opened Options
  import opened TaskGraph
  import opened Tables
  import opened TableInvariant
  import opened RunFacts
  import opened Pollers
  import opened PollerInvariant
  import opened PollerSteps
  import opened ServerSafety
  import opened Executions

  // ---- A delete under the releaser's feet ----

  /** A delete keeps the invariant exactly when the run is not in the releaser's snapshot. */
  lemma DeleteOutsideTheWindow(s: Server, j: nat)
    requires Good(s) && Can(s, World(Delete(j)))
    ensures Good(Next(s, World(Delete(j)))) <==> j !in s.releaser.Window()
  {
    var n := Next(s, World(Delete(j)));
    assert n.db.jobRuns[j].status.Deleted? && n.releaser == s.releaser;
    if j !in s.releaser.Window() { GoodKept(s, World(Delete(j))); }
  }

  /** Inside it, the update keyed by id alone brings the deleted run back. */
  lemma DeleteIsOverwritten(s: Server, j: nat)
    requires Can(s, World(Delete(j))) && s.phase.Serving?
    requires s.releaser.at == JobAt.Decided(j, JobRunStatus.Queued)
    ensures var deleted := Next(s, World(Delete(j)));
      && deleted.db.jobRuns[j].status.Deleted?
      && Can(deleted, Commit(JobRunReleaser))
      && Next(deleted, Commit(JobRunReleaser)).db.jobRuns[j].status.Queued?
  {}

  // ---- A skip after a half-finished start ----

  /**
    The dispatcher's skip keeps the invariant, and undoes nothing, exactly when no task run of
    the run has ever run and TaskRunDispatcher has none of them in its snapshot.
   */
  lemma SkipKeepsHistory(s: Server, j: nat)
    requires Good(s) && s.phase.Serving? && s.jobDispatcher.at == JobAt.Decided(j, JobRunStatus.Skipped)
    ensures Can(s, Commit(JobRunDispatcher))
    ensures var n := Next(s, Commit(JobRunDispatcher));
      Good(n) && Extends(s.db, n.db) <==> NeverRan(s.db, j) && OutsideTaskWindow(s, j)
  {
    var n := Next(s, Commit(JobRunDispatcher));
    assert n.db == Apply(s.db, SkipTasks(j, JobRunDispatcher)) && n.taskDispatcher == s.taskDispatcher;
    SkipTasksKeepsHistory(s.db, j);
    if NeverRan(s.db, j) && OutsideTaskWindow(s, j) {
      GoodKept(s, Commit(JobRunDispatcher));
    } else if !OutsideTaskWindow(s, j) {
      SkippedUnderneath(s, n, j);
    }
  }

  lemma SkippedUnderneath(s: Server, n: Server, j: nat)
    requires !OutsideTaskWindow(s, j) && n.db == Apply(s.db, SkipTasks(j, JobRunDispatcher))
    requires n.taskDispatcher == s.taskDispatcher
    ensures !TaskDispatcherOk(n.db, n.taskDispatcher)
  {
    var t :| t in s.taskDispatcher.Window() && InJob(s.db, t, j);
    assert n.db.taskRuns[t].status.Skipped?;
  }

  lemma SkipTasksKeepsHistory(d: Db, j: nat)
    ensures Extends(d, Apply(d, SkipTasks(j, JobRunDispatcher))) <==> NeverRan(d, j)
  {
    var e := Apply(d, SkipTasks(j, JobRunDispatcher));
    if NeverRan(d, j) {
      forall t | 0 <= t < |d.taskRuns| ensures TaskExtends(d.taskRuns[t], e.taskRuns[t]) {
        assert d.taskRuns[t].jobRun == j ==> InJob(d, t, j);
      }
    }
  }

  // ---- Both can be reached ----

  ghost predicate Reachable(s: Server, n: Server, steps: nat)
    decreases steps
  {
    if steps == 0 then n == s
    else exists m, e :: Reachable(s, m, steps - 1) && Leads(m, e, n)
  }

  ghost predicate Leads(s: Server, e: Event, n: Server) {
    Can(s, e) && n == Next(s, e)
  }

  ghost predicate CanReach(s: Server, n: Server) {
    exists steps: nat :: Reachable(s, n, steps)
  }

  /** One more event, named by the state it leads to. */
  lemma Then(s: Server, m: Server, e: Event, n: Server)
    requires CanReach(s, m) && Leads(m, e, n)
    ensures CanReach(s, n)
  {
    var steps: nat :| Reachable(s, m, steps);
    assert Reachable(s, n, steps + 1);
  }

  const LOAD := TaskYaml("load", [], [], 1, 0, 0, 0)
  const SUBMIT := Submit("nightly", 0, [LOAD], ["load"])

  /** One run of one task without dependencies. */
  function OneRun(job: JobRunStatus, task: TaskRunStatus, stops: set<nat>): Db {
    Db([JobRun("nightly", 0, job)], [TaskRun(0, "load", [], 0, [], 1, 0, 0, 0, task)], [], stops)
  }

  const NO_JOB := JobPoller([], JobAt.Idle)
  const ONE_JOB := JobPoller([0], JobAt.Idle)
  const NO_TASK := TaskPoller([], TaskAt.Idle)
  const ONE_TASK := TaskPoller([0], TaskAt.Idle)

  function InHandJob(at: JobAt): JobPoller { JobPoller([], at) }

  function Shown(s: Server, p: JobPoller, q: JobPoller, r: TaskPoller, d: Db): Server {
    s.(phase := Serving, releaser := p, jobDispatcher := q, taskDispatcher := r, db := d)
  }

  lemma SubmitLeads(s: Server)
    requires s.db == EMPTY
    ensures Leads(s, World(SUBMIT), s.(db := OneRun(JobRunStatus.Scheduled, TaskRunStatus.Planned, {})))
  {
    assert PlannedRow(0, 0, LOAD, [LOAD], ["load"]) == TaskRun(0, "load", [], 0, [], 1, 0, 0, 0, TaskRunStatus.Planned);
  }

  lemma ReleaserSelects(s: Server, task: TaskRunStatus)
    requires s.phase.Serving? && s.releaser == NO_JOB && s.db == OneRun(JobRunStatus.Scheduled, task, {})
    ensures Leads(s, Select(JobRunReleaser), s.(releaser := ONE_JOB))
  {}

  lemma ReleaserDecides(s: Server, task: TaskRunStatus)
    requires s.phase.Serving? && s.releaser == ONE_JOB && s.db == OneRun(JobRunStatus.Scheduled, task, {})
    ensures Leads(s, Decide(JobRunReleaser), s.(releaser := InHandJob(JobAt.Decided(0, JobRunStatus.Queued))))
  {}

  lemma ReleaserReleases(s: Server, task: TaskRunStatus)
    requires s.phase.Serving? && s.releaser == InHandJob(JobAt.Decided(0, JobRunStatus.Queued))
    requires s.db == OneRun(JobRunStatus.Scheduled, task, {})
    ensures Leads(s, Commit(JobRunReleaser), s.(releaser := NO_JOB, db := OneRun(JobRunStatus.Queued, task, {})))
  {}

  lemma DispatcherSelects(s: Server, task: TaskRunStatus, stops: set<nat>)
    requires s.phase.Serving? && s.jobDispatcher == NO_JOB && s.db == OneRun(JobRunStatus.Queued, task, stops)
    ensures Leads(s, Select(JobRunDispatcher), s.(jobDispatcher := ONE_JOB))
  {}

  lemma DispatcherDecides(s: Server, task: TaskRunStatus, stops: set<nat>)
    requires s.phase.Serving? && s.jobDispatcher == ONE_JOB && s.db == OneRun(JobRunStatus.Queued, task, stops)
    ensures Leads(s, Decide(JobRunDispatcher), s.(jobDispatcher :=
      InHandJob(JobAt.Decided(0, if 0 in stops then JobRunStatus.Skipped else JobRunStatus.Running))))
  {}

  lemma DispatcherHalfStarts(s: Server)
    requires s.phase.Serving? && s.jobDispatcher == InHandJob(JobAt.Decided(0, JobRunStatus.Running))
    requires s.db == OneRun(JobRunStatus.Queued, TaskRunStatus.Planned, {})
    ensures Leads(s, Commit(JobRunDispatcher),
      s.(jobDispatcher := InHandJob(StartHalf(0)), db := OneRun(JobRunStatus.Queued, TaskRunStatus.Waiting, {})))
  {}

  lemma DispatcherFails(s: Server)
    requires s.phase.Serving? && !s.jobDispatcher.at.Idle?
    ensures Leads(s, Fail(JobRunDispatcher), s.(jobDispatcher := s.jobDispatcher.(at := JobAt.Idle)))
  {}

  lemma StopLeads(s: Server, job: JobRunStatus, task: TaskRunStatus)
    requires s.db == OneRun(job, task, {})
    ensures Leads(s, World(Stop(0)), s.(db := OneRun(job, task, {0})))
  {}

  lemma TaskSelected(s: Server)
    requires s.phase.Serving? && s.taskDispatcher == NO_TASK && s.db == OneRun(JobRunStatus.Queued, TaskRunStatus.Waiting, {})
    ensures Leads(s, Select(TaskRunDispatcher), s.(taskDispatcher := ONE_TASK))
  {}

  lemma TaskDecided(s: Server)
    requires s.phase.Serving? && s.taskDispatcher == ONE_TASK && s.db == OneRun(JobRunStatus.Queued, TaskRunStatus.Waiting, {})
    ensures Leads(s, Decide(TaskRunDispatcher), s.(taskDispatcher := TaskPoller([], TaskAt.Decided(0, Some(TaskRunStatus.Running)))))
  {}

  lemma TaskStarted(s: Server)
    requires s.phase.Serving? && s.taskDispatcher == TaskPoller([], TaskAt.Decided(0, Some(TaskRunStatus.Running)))
    requires s.db == OneRun(JobRunStatus.Queued, TaskRunStatus.Waiting, {})
    ensures Leads(s, Commit(TaskRunDispatcher), s.(taskDispatcher := NO_TASK, db := OneRun(JobRunStatus.Queued, TaskRunStatus.Running, {})))
  {}

  function AtRelease(s: Server): Server {
    Shown(s, InHandJob(JobAt.Decided(0, JobRunStatus.Queued)), NO_JOB, NO_TASK, OneRun(JobRunStatus.Scheduled, TaskRunStatus.Planned, {}))
  }

  lemma Releasing(s: Server)
    requires IsStart(s)
    ensures CanReach(s, AtRelease(s))
  {
    var d := OneRun(JobRunStatus.Scheduled, TaskRunStatus.Planned, {});
    var s1 := s.(phase := Serving);
    assert Reachable(s, s, 0);
    Then(s, s, StartServing, s1);
    SubmitLeads(s1);
    Then(s, s1, World(SUBMIT), s1.(db := d));
    ReleaserSelects(s1.(db := d), TaskRunStatus.Planned);
    Then(s, s1.(db := d), Select(JobRunReleaser), Shown(s, ONE_JOB, NO_JOB, NO_TASK, d));
    ReleaserDecides(Shown(s, ONE_JOB, NO_JOB, NO_TASK, d), TaskRunStatus.Planned);
    Then(s, Shown(s, ONE_JOB, NO_JOB, NO_TASK, d), Decide(JobRunReleaser), AtRelease(s));
  }

  function AtStart(s: Server): Server {
    Shown(s, NO_JOB, InHandJob(JobAt.Decided(0, JobRunStatus.Running)), NO_TASK, OneRun(JobRunStatus.Queued, TaskRunStatus.Planned, {}))
  }

  lemma Starting(s: Server)
    requires IsStart(s) && CanReach(s, AtRelease(s))
    ensures CanReach(s, AtStart(s))
  {
    var d := OneRun(JobRunStatus.Queued, TaskRunStatus.Planned, {});
    var s5, s6 := Shown(s, NO_JOB, NO_JOB, NO_TASK, d), Shown(s, NO_JOB, ONE_JOB, NO_TASK, d);
    ReleaserReleases(AtRelease(s), TaskRunStatus.Planned);
    Then(s, AtRelease(s), Commit(JobRunReleaser), s5);
    DispatcherSelects(s5, TaskRunStatus.Planned, {});
    Then(s, s5, Select(JobRunDispatcher), s6);
    DispatcherDecides(s6, TaskRunStatus.Planned, {});
    Then(s, s6, Decide(JobRunDispatcher), AtStart(s));
  }

  /** The start has failed between its two writes. */
  function HalfStarted(s: Server): Server {
    Shown(s, NO_JOB, NO_JOB, NO_TASK, OneRun(JobRunStatus.Queued, TaskRunStatus.Waiting, {}))
  }

  lemma HalfStarting(s: Server)
    requires IsStart(s) && CanReach(s, AtStart(s))
    ensures CanReach(s, HalfStarted(s))
  {
    var s8 := Shown(s, NO_JOB, InHandJob(StartHalf(0)), NO_TASK, OneRun(JobRunStatus.Queued, TaskRunStatus.Waiting, {}));
    DispatcherHalfStarts(AtStart(s));
    Then(s, AtStart(s), Commit(JobRunDispatcher), s8);
    DispatcherFails(s8);
    Then(s, s8, Fail(JobRunDispatcher), HalfStarted(s));
  }

  function TaskRunning(s: Server, p: JobPoller, stops: set<nat>): Server {
    Shown(s, NO_JOB, p, NO_TASK, OneRun(JobRunStatus.Queued, TaskRunStatus.Running, stops))
  }

  lemma StartingTask(s: Server)
    requires IsStart(s) && CanReach(s, HalfStarted(s))
    ensures CanReach(s, TaskRunning(s, NO_JOB, {}))
  {
    var s9 := HalfStarted(s);
    var s10, s11 := s9.(taskDispatcher := ONE_TASK), s9.(taskDispatcher := TaskPoller([], TaskAt.Decided(0, Some(TaskRunStatus.Running))));
    TaskSelected(s9);
    Then(s, s9, Select(TaskRunDispatcher), s10);
    TaskDecided(s10);
    Then(s, s10, Decide(TaskRunDispatcher), s11);
    TaskStarted(s11);
    Then(s, s11, Commit(TaskRunDispatcher), TaskRunning(s, NO_JOB, {}));
  }

  function AtLateSkip(s: Server): Server {
    TaskRunning(s, InHandJob(JobAt.Decided(0, JobRunStatus.Skipped)), {0})
  }

  lemma Stopping(s: Server)
    requires IsStart(s) && CanReach(s, TaskRunning(s, NO_JOB, {}))
    ensures CanReach(s, AtLateSkip(s))
  {
    var s13, s14 := TaskRunning(s, NO_JOB, {0}), TaskRunning(s, ONE_JOB, {0});
    StopLeads(TaskRunning(s, NO_JOB, {}), JobRunStatus.Queued, TaskRunStatus.Running);
    Then(s, TaskRunning(s, NO_JOB, {}), World(Stop(0)), s13);
    DispatcherSelects(s13, TaskRunStatus.Running, {0});
    Then(s, s13, Select(JobRunDispatcher), s14);
    DispatcherDecides(s14, TaskRunStatus.Running, {0});
    Then(s, s14, Decide(JobRunDispatcher), AtLateSkip(s));
  }

  /** A server can come to the state `DeleteIsOverwritten` starts from, with the delete possible. */
  lemma DeleteCanBeOverwritten(s: Server) returns (n: Server)
    requires IsStart(s)
    ensures CanReach(s, n) && Can(n, World(Delete(0))) && n.phase.Serving?
    ensures n.releaser.at == JobAt.Decided(0, JobRunStatus.Queued)
  {
    Releasing(s);
    n := AtRelease(s);
  }

  /** A run can be skipped with its task running: what `SkipKeepsHistory` rules out. */
  lemma SkipCanUndoHistory(s: Server) returns (n: Server)
    requires IsStart(s)
    ensures CanReach(s, n) && n.jobDispatcher.at == JobAt.Decided(0, JobRunStatus.Skipped) && !NeverRan(n.db, 0)
  {
    Releasing(s);
    Starting(s);
    HalfStarting(s);
    StartingTask(s);
    Stopping(s);
    n := AtLateSkip(s);
    assert InJob(n.db, 0, 0);
  }

  /** TaskRunDispatcher about to start the task, when the stopped run is about to be skipped. */
  function AtRace(s: Server): Server {
    Shown(s, NO_JOB, InHandJob(JobAt.Decided(0, JobRunStatus.Skipped)), TaskPoller([], TaskAt.Decided(0, Some(TaskRunStatus.Running))),
      OneRun(JobRunStatus.Queued, TaskRunStatus.Waiting, {0}))
  }

  lemma Racing(s: Server)
    requires IsStart(s) && CanReach(s, HalfStarted(s))
    ensures CanReach(s, AtRace(s))
  {
    var s9 := HalfStarted(s);
    var s10, s11 := s9.(taskDispatcher := ONE_TASK), s9.(taskDispatcher := TaskPoller([], TaskAt.Decided(0, Some(TaskRunStatus.Running))));
    var s12 := s11.(db := OneRun(JobRunStatus.Queued, TaskRunStatus.Waiting, {0}));
    TaskSelected(s9);
    Then(s, s9, Select(TaskRunDispatcher), s10);
    TaskDecided(s10);
    Then(s, s10, Decide(TaskRunDispatcher), s11);
    StopLeads(s11, JobRunStatus.Queued, TaskRunStatus.Waiting);
    Then(s, s11, World(Stop(0)), s12);
    DispatcherSelects(s12, TaskRunStatus.Waiting, {0});
    Then(s, s12, Select(JobRunDispatcher), s12.(jobDispatcher := ONE_JOB));
    DispatcherDecides(s12.(jobDispatcher := ONE_JOB), TaskRunStatus.Waiting, {0});
    Then(s, s12.(jobDispatcher := ONE_JOB), Decide(JobRunDispatcher), AtRace(s));
  }

  /** A skip of a run none of whose tasks has run can still be undone, task by task. */
  lemma SkipIsOverwritten(s: Server) returns (n: Server)
    requires IsStart(s)
    ensures CanReach(s, n) && n.jobDispatcher.at == JobAt.Decided(0, JobRunStatus.Skipped) && NeverRan(n.db, 0)
    ensures n.taskDispatcher.at == TaskAt.Decided(0, Some(TaskRunStatus.Running)) && |n.db.taskRuns| == 1
    ensures Apply(n.db, SkipTasks(0, JobRunDispatcher)) == OneRun(JobRunStatus.Queued, TaskRunStatus.Skipped, {0})
    ensures Apply(Apply(n.db, SkipTasks(0, JobRunDispatcher)), RunTask(0)) == OneRun(JobRunStatus.Queued, TaskRunStatus.Running, {0})
  {
    Releasing(s);
    Starting(s);
    HalfStarting(s);
    Racing(s);
    n := AtRace(s);
  }
}
