/**
  Every event keeps the pollers and the tables in step. Another service's write cannot spoil
  a poller's snapshot or its pending decision, because of what it may move (`MovedBy`); a
  poller's own event leads to a state its own clause describes.
 */
module PollerSteps {
  import opened Options
  import opened Tables
  import opened TableInvariant
  import opened RunFacts
  import opened Pollers
  import opened PollerInvariant

  /** One table step by someone: what each frame below starts from. */
  ghost predicate StepBy(d: Db, e: Db, who: Service) {
    Inv(d) && Inv(e) && Extends(d, e) && MovedBy(d, e, who)
  }

  lemma TableStep(s: Server, e: Event)
    requires Good(s) && Can(s, e) && InScope(s, e)
    ensures WriteOf(s, e).Some? ==> StepBy(s.db, Written(s, e), WriterOf(WriteOf(s, e).value))
    ensures WriteOf(s, e).None? ==> Written(s, e) == s.db
    ensures Inv(Written(s, e))
  {
    if WriteOf(s, e).Some? {
      WritesAreEnabled(s, e);
      InvKept(s.db, WriteOf(s, e).value);
      WriteExtends(s.db, WriteOf(s, e).value);
    }
  }

  // ---- Snapshots survive the other services ----

  lemma JobsStay(d: Db, e: Db, who: Service, ids: seq<nat>, want: JobRunStatus)
    requires StepBy(d, e, who) && JobsIn(d, ids, want)
    requires want.Scheduled? ==> !who.JobRunReleaser? && !who.Outside?
    requires want.Queued? ==> !who.JobRunDispatcher?
    requires want.Running? ==> !who.JobRunMonitor?
    ensures JobsIn(e, ids, want)
  {
    forall j | j in ids ensures j < |e.jobRuns| && e.jobRuns[j].status == want {
      assert JobMovedBy(d.jobRuns[j], e.jobRuns[j], who) && JobExtends(d.jobRuns[j], e.jobRuns[j]);
    }
  }

  lemma TasksStay(d: Db, e: Db, who: Service, ids: seq<nat>, want: TaskRunStatus)
    requires StepBy(d, e, who) && TasksIn(d, ids, want) && !want.Planned?
    requires want.Waiting? ==> !who.TaskRunDispatcher? && !who.JobRunDispatcher?
    requires want.Running? ==> !who.TaskRunMonitor?
    ensures TasksIn(e, ids, want)
  {
    forall t | t in ids ensures t < |e.taskRuns| && e.taskRuns[t].status == want {
      assert TaskMovedBy(d.taskRuns[t], e.taskRuns[t], who) && TaskExtends(d.taskRuns[t], e.taskRuns[t]);
    }
  }

  lemma AttemptsStay(d: Db, e: Db, who: Service, ids: seq<nat>, want: AttemptStatus)
    requires StepBy(d, e, who) && AttemptsIn(d, ids, want)
    requires want.Queued? ==> !who.TaskRunAttemptDispatcher?
    requires want.Running? ==> !who.TaskRunAttemptMonitor? && !who.Recovery?
    ensures AttemptsIn(e, ids, want)
  {
    forall a | a in ids ensures a < |e.attempts| && e.attempts[a].status == want {
      assert AttemptMovedBy(d.attempts[a], e.attempts[a], who) && AttemptExtends(d.attempts[a], e.attempts[a]);
    }
  }

  // ---- Pending decisions survive the other services ----

  lemma RunningOfStays(d: Db, e: Db, who: Service, jobId: string)
    requires StepBy(d, e, who) && !who.JobRunDispatcher?
    ensures Count(|e.jobRuns|, RunningOf(e, jobId)) <= Count(|d.jobRuns|, RunningOf(d, jobId))
  {
    forall j | 0 <= j < |e.jobRuns| && RunningOf(e, jobId)(j) ensures j < |d.jobRuns| && RunningOf(d, jobId)(j) {
      assert j < |d.jobRuns| ==> JobMovedBy(d.jobRuns[j], e.jobRuns[j], who) && JobExtends(d.jobRuns[j], e.jobRuns[j]);
    }
    CountMonotone(|d.jobRuns|, |e.jobRuns|, RunningOf(e, jobId), RunningOf(d, jobId));
  }

  lemma FreeRunStays(d: Db, e: Db, who: Service, maxParallel: map<string, nat>, j: nat)
    requires StepBy(d, e, who) && !who.JobRunDispatcher? && FreeRun(d, maxParallel, j)
    ensures FreeRun(e, maxParallel, j)
  {
    assert JobExtends(d.jobRuns[j], e.jobRuns[j]);
    RunningOfStays(d, e, who, d.jobRuns[j].jobId);
  }

  lemma TaskVerdictStays(d: Db, e: Db, t: nat)
    requires Inv(d) && Extends(d, e) && t < |d.taskRuns|
    ensures TaskVerdict(d, t) == Some(TaskRunStatus.Skipped) ==> TaskVerdict(e, t) == Some(TaskRunStatus.Skipped)
    ensures AllDependencies(d, t, (s: TaskRunStatus) => s.Succeeded?) ==> AllDependencies(e, t, (s: TaskRunStatus) => s.Succeeded?)
  {
    assert TaskOk(d, t) && TaskExtends(d.taskRuns[t], e.taskRuns[t]);
    if AllDependencies(d, t, (s: TaskRunStatus) => s.Succeeded?) { DependenciesStay(d, e, t); }
    if SomeDependency(d, t, (s: TaskRunStatus) => s.IsBad()) {
      BadDependencyStays(d, e, t);
    }
  }

  lemma MonitorStepStays(d: Db, e: Db, who: Service, t: nat)
    requires StepBy(d, e, who) && !who.TaskRunMonitor? && t < |d.taskRuns|
    requires !MonitorStep(d, t).Leave?
    ensures MonitorStep(e, t) == MonitorStep(d, t)
  {
    assert TaskExtends(d.taskRuns[t], e.taskRuns[t]);
    LastKept(d, e, |d.attempts|, t);
    var last := Last(d, t);
    if last.Some? {
      assert AttemptExtends(d.attempts[last.value], e.attempts[last.value]);
    }
  }

  lemma NeverWaitedStays(d: Db, e: Db, who: Service, limit: string)
    requires StepBy(d, e, who) && !who.TaskRunAttemptDispatcher?
    ensures Count(|e.attempts|, NeverWaited(e)) <= Count(|d.attempts|, NeverWaited(d))
    ensures Count(|e.attempts|, NeverWaitedClaiming(e, limit)) <= Count(|d.attempts|, NeverWaitedClaiming(d, limit))
  {
    forall a | 0 <= a < |e.attempts| && NeverWaited(e)(a)
      ensures a < |d.attempts| && NeverWaited(d)(a)
      ensures Claims(e, a, limit) ==> Claims(d, a, limit)
    {
      if a < |d.attempts| {
        assert AttemptMovedBy(d.attempts[a], e.attempts[a], who) && AttemptExtends(d.attempts[a], e.attempts[a]);
        assert AttemptOk(d, a);
        assert TaskExtends(d.taskRuns[d.attempts[a].taskRun], e.taskRuns[d.attempts[a].taskRun]);
      }
    }
    CountMonotone(|d.attempts|, |e.attempts|, NeverWaited(e), NeverWaited(d));
    CountMonotone(|d.attempts|, |e.attempts|, NeverWaitedClaiming(e, limit), NeverWaitedClaiming(d, limit));
  }

  lemma ClaimsStay(d: Db, e: Db, a: nat, limit: string)
    requires Inv(d) && Extends(d, e) && a < |d.attempts|
    ensures Claims(e, a, limit) <==> Claims(d, a, limit)
  {
    assert AttemptOk(d, a) && AttemptExtends(d.attempts[a], e.attempts[a]);
    assert TaskExtends(d.taskRuns[d.attempts[a].taskRun], e.taskRuns[d.attempts[a].taskRun]);
  }

  lemma FreeSlotsStay(d: Db, e: Db, who: Service, config: Config, a: nat)
    requires StepBy(d, e, who) && !who.TaskRunAttemptDispatcher? && a < |d.attempts| && FreeSlots(d, config, a)
    ensures FreeSlots(e, config, a)
  {
    NeverWaitedStays(d, e, who, "");
    forall limit | HasMax(config, limit) && Claims(e, a, limit)
      ensures Count(|e.attempts|, NeverWaitedClaiming(e, limit)) < config.limits[limit]
    {
      ClaimsStay(d, e, a, limit);
      NeverWaitedStays(d, e, who, limit);
    }
  }

  lemma WithinCapsStay(d: Db, e: Db, who: Service, config: Config)
    requires StepBy(d, e, who) && !who.TaskRunAttemptDispatcher? && WithinCaps(d, config)
    ensures WithinCaps(e, config)
  {
    NeverWaitedStays(d, e, who, "");
    forall limit | HasMax(config, limit)
      ensures Count(|e.attempts|, NeverWaitedClaiming(e, limit)) <= config.limits[limit]
    {
      NeverWaitedStays(d, e, who, limit);
    }
  }

  lemma StoppedStays(d: Db, e: Db, a: nat)
    requires Inv(d) && Extends(d, e) && AttemptStopped(d, a)
    ensures AttemptStopped(e, a)
  {
    assert AttemptExtends(d.attempts[a], e.attempts[a]);
    assert TaskExtends(d.taskRuns[d.attempts[a].taskRun], e.taskRuns[d.attempts[a].taskRun]);
  }

  // ---- The job run pollers ----

  lemma ReleaserFrame(d: Db, e: Db, who: Service, p: JobPoller)
    requires StepBy(d, e, who) && ReleaserOk(d, p) && JobsIn(e, p.Window(), JobRunStatus.Scheduled)
    ensures ReleaserOk(e, p)
  {
    if p.at.SkipHalf? { assert p.at.j in p.Window(); TasksOfOldJob(d, e, p.at.j); }
  }

  lemma DispatcherFrame(d: Db, e: Db, who: Service, maxParallel: map<string, nat>, p: JobPoller)
    requires StepBy(d, e, who) && !who.JobRunDispatcher? && DispatcherOk(d, maxParallel, p)
    ensures DispatcherOk(e, maxParallel, p)
  {
    JobsStay(d, e, who, p.Window(), JobRunStatus.Queued);
    if !p.at.Idle? {
      assert p.at.j in p.Window();
      TasksOfOldJob(d, e, p.at.j);
      if FreeRun(d, maxParallel, p.at.j) { FreeRunStays(d, e, who, maxParallel, p.at.j); }
    }
  }

  lemma MonitorFrame(d: Db, e: Db, who: Service, p: JobPoller)
    requires StepBy(d, e, who) && !who.JobRunMonitor? && MonitorOk(d, p)
    ensures MonitorOk(e, p)
  {
    JobsStay(d, e, who, p.Window(), JobRunStatus.Running);
    if p.at.Decided? && !p.at.next.Running? {
      assert p.at.j in p.Window();
      SettledJobKept(d, e, p.at.j);
    }
  }

  // ---- The task run pollers ----

  lemma TaskDispatcherFrame(d: Db, e: Db, who: Service, p: TaskPoller)
    requires StepBy(d, e, who) && TaskDispatcherOk(d, p) && TasksIn(e, p.Window(), TaskRunStatus.Waiting)
    ensures TaskDispatcherOk(e, p)
  {
    if p.at.Decided? { TaskVerdictStays(d, e, p.at.t); }
  }

  lemma TaskMonitorFrame(d: Db, e: Db, who: Service, p: TaskPoller)
    requires StepBy(d, e, who) && !who.TaskRunMonitor? && TaskMonitorOk(d, p)
    ensures TaskMonitorOk(e, p)
  {
    TasksStay(d, e, who, p.Window(), TaskRunStatus.Running);
    if p.at.Stepping? && !p.at.step.Leave? { MonitorStepStays(d, e, who, p.at.t); }
  }

  // ---- The attempt pollers ----

  lemma SpawnerFrame(d: Db, e: Db, who: Service, config: Config, p: SpawnPoller)
    requires StepBy(d, e, who) && !who.TaskRunAttemptDispatcher? && SpawnerOk(d, config, p)
    ensures SpawnerOk(e, config, p)
  {
    AttemptsStay(d, e, who, p.Window(), AttemptStatus.Queued);
    assert forall a :: 0 <= a < |d.attempts| ==> AttemptMovedBy(d.attempts[a], e.attempts[a], who);
    if !p.at.Idle? {
      if FreeSlots(d, config, p.at.a) { FreeSlotsStay(d, e, who, config, p.at.a); }
      if AttemptStopped(d, p.at.a) { StoppedStays(d, e, p.at.a); }
    }
  }

  lemma WatchAtFrame(d: Db, e: Db, lost: set<nat>, at: WatchAt)
    requires Inv(d) && Extends(d, e) && WatchAtOk(d, lost, at)
    ensures WatchAtOk(e, lost, at)
  {
    assert forall a :: 0 <= a < |d.attempts| ==> AttemptExtends(d.attempts[a], e.attempts[a]);
    if !at.Idle? && AttemptStopped(d, at.a) { StoppedStays(d, e, at.a); }
  }

  lemma ChildrenFrame(d: Db, e: Db, who: Service, children: map<nat, Child>, p: WatchPoller, lost: set<nat>, spawner: SpawnPoller)
    requires StepBy(d, e, who) && !who.TaskRunAttemptDispatcher? && ChildrenOk(d, children, p, lost, spawner)
    ensures ChildrenOk(e, children, p, lost, spawner)
  {
    forall a | a in children ensures ChildOk(e, a, children[a]) {
      assert ChildOk(d, a, children[a]);
      if AttemptStopped(d, a) { StoppedStays(d, e, a); }
    }
    forall a | 0 <= a < |e.attempts| && e.attempts[a].status.Running?
      ensures a in children || a in InHand(p) || a in lost
    {
      assert a < |d.attempts| ==> AttemptMovedBy(d.attempts[a], e.attempts[a], who);
    }
  }
}
