/**
  What each service decides about the row it takes, and what it then writes: said of the rows,
  the clock and the configuration.
 */
module Decisions {
  import opened Options
  import opened Tables
  import opened TableInvariant
  import opened RunFacts
  import opened Pollers
  import opened PollerInvariant
  import opened PollerSteps
  import opened PollerEvents
  import opened AttemptEvents
  import opened Outcomes

  // ---- Slots, counted ----

  /** Running, and not marked as waiting for another run. */
  ghost function SlotsHeld(d: Db): set<nat> {
    set a: nat | a < |d.attempts| && d.attempts[a].status.Running? && !d.attempts[a].waiting
  }

  ghost function LimitHeld(d: Db, limit: string): set<nat> {
    set a: nat | a < |d.attempts| && d.attempts[a].status.Running? && !d.attempts[a].waiting
      && d.attempts[a].taskRun < |d.taskRuns| && limit in d.taskRuns[d.attempts[a].taskRun].limits
  }

  lemma SlotCounts(d: Db, limit: string, jobId: string)
    ensures Count(|d.attempts|, Working(d)) == |SlotsHeld(d)|
    ensures Count(|d.attempts|, Claiming(d, limit)) == |LimitHeld(d, limit)|
    ensures Count(|d.jobRuns|, RunningOf(d, jobId)) == |RunningRuns(d, jobId)|
  {
    CountIsSize(|d.attempts|, Working(d));
    CountIsSize(|d.attempts|, Claiming(d, limit));
    CountIsSize(|d.jobRuns|, RunningOf(d, jobId));
    assert SlotsHeld(d) == set k: nat | k < |d.attempts| && Working(d)(k);
    assert LimitHeld(d, limit) == set k: nat | k < |d.attempts| && Claiming(d, limit)(k);
    assert RunningRuns(d, jobId) == set k: nat | k < |d.jobRuns| && RunningOf(d, jobId)(k);
  }

  // ---- Snapshots ----

  /** A snapshot holds every row in the service's status, oldest first. */
  lemma SnapshotIsWhole(s: Server, who: Service)
    requires Can(s, Select(who))
    ensures var n, d := Next(s, Select(who)), s.db; match who
      case JobRunReleaser => IdsAre(n.releaser.queue, set j: nat | j < |d.jobRuns| && d.jobRuns[j].status.Scheduled?)
      case JobRunDispatcher => IdsAre(n.jobDispatcher.queue, set j: nat | j < |d.jobRuns| && d.jobRuns[j].status.Queued?)
      case JobRunMonitor => IdsAre(n.jobMonitor.queue, set j: nat | j < |d.jobRuns| && d.jobRuns[j].status.Running?)
      case TaskRunDispatcher => IdsAre(n.taskDispatcher.queue, set t: nat | t < |d.taskRuns| && d.taskRuns[t].status.Waiting?)
      case TaskRunMonitor => IdsAre(n.taskMonitor.queue, set t: nat | t < |d.taskRuns| && d.taskRuns[t].status.Running?)
      case TaskRunAttemptDispatcher => IdsAre(SeenIds(n.spawner.queue), set a: nat | a < |d.attempts| && d.attempts[a].status.Queued?)
      case TaskRunAttemptMonitor => IdsAre(n.watcher.queue, set a: nat | a < |d.attempts| && d.attempts[a].status.Running?)
      case _ => false
  {
    if who.TaskRunAttemptDispatcher? {
      assert SeenIds(SeenRows(s.db)) == SelectedAttempts(s.db, AttemptStatus.Queued);
    }
  }

  ghost predicate IdsAre(ids: seq<nat>, which: set<nat>) {
    && (forall id :: id in ids <==> id in which)
    && (forall i, k :: 0 <= i < k < |ids| ==> ids[i] < ids[k])
  }

  // ---- Job runs ----

  /** A stop outranks the time; a run is queued once due and not before. */
  lemma ReleaserDecides(s: Server)
    requires Good(s) && Can(s, Decide(JobRunReleaser))
    ensures var j, next := s.releaser.queue[0], Next(s, Decide(JobRunReleaser)).releaser.at.next;
      && Next(s, Decide(JobRunReleaser)).releaser.at == JobAt.Decided(j, next) && j < |s.db.jobRuns|
      && (next.Skipped? <==> j in s.db.stops)
      && (next.Queued? <==> j !in s.db.stops && s.db.jobRuns[j].scheduledAt <= s.now)
      && (next.Scheduled? <==> j !in s.db.stops && s.now < s.db.jobRuns[j].scheduledAt)
  {
    assert s.releaser.queue[0] in s.releaser.Window();
  }

  /** A run is held back exactly while its job runs as many as it may. */
  lemma DispatcherDecides(s: Server)
    requires Good(s) && Can(s, Decide(JobRunDispatcher))
    ensures var j, next := s.jobDispatcher.queue[0], Next(s, Decide(JobRunDispatcher)).jobDispatcher.at.next;
      && Next(s, Decide(JobRunDispatcher)).jobDispatcher.at == JobAt.Decided(j, next) && j < |s.db.jobRuns|
      && var jobId := s.db.jobRuns[j].jobId;
         var full := jobId in s.maxParallel && s.maxParallel[jobId] != 0 && |RunningRuns(s.db, jobId)| >= s.maxParallel[jobId];
         && (next.Skipped? <==> j in s.db.stops)
         && (next.Queued? <==> j !in s.db.stops && full)
         && (next.Running? <==> j !in s.db.stops && !full)
  {
    assert s.jobDispatcher.queue[0] in s.jobDispatcher.Window();
    SlotCounts(s.db, "", s.db.jobRuns[s.jobDispatcher.queue[0]].jobId);
  }

  /** A run goes on while a task run of it has not finished, and then ranks their statuses. */
  lemma MonitorDecides(s: Server)
    requires Good(s) && Can(s, Decide(JobRunMonitor))
    ensures var j, next := s.jobMonitor.queue[0], Next(s, Decide(JobRunMonitor)).jobMonitor.at.next;
      && Next(s, Decide(JobRunMonitor)).jobMonitor.at == JobAt.Decided(j, next)
      && (next.Running? <==> exists t: nat :: InJob(s.db, t, j) && !s.db.taskRuns[t].status.IsFinished())
      && (!next.Running? ==> RanksTo(s.db, j, next))
  {
    var j := s.jobMonitor.queue[0];
    JobVerdictDecided(s.db, j);
    if !JobVerdict(s.db, j).value.Running? { VerdictRanks(s.db, j, JobVerdict(s.db, j).value); }
  }

  /** Only the run's own status differs. */
  ghost predicate JobSet(d: Db, e: Db, j: nat, status: JobRunStatus) {
    && e.taskRuns == d.taskRuns && e.attempts == d.attempts && e.stops == d.stops
    && j < |d.jobRuns| && e.jobRuns == d.jobRuns[j := d.jobRuns[j].(status := status)]
  }

  /** Only those of the run's task runs that were in one status, or all if None, differ: in theirs. */
  ghost predicate TasksSet(d: Db, e: Db, j: nat, from: Option<TaskRunStatus>, status: TaskRunStatus) {
    && e.jobRuns == d.jobRuns && e.attempts == d.attempts && e.stops == d.stops && |e.taskRuns| == |d.taskRuns|
    && forall t: nat :: t < |d.taskRuns| ==>
         e.taskRuns[t] == if InJob(d, t, j) && (from.None? || from.value == d.taskRuns[t].status)
                          then d.taskRuns[t].(status := status) else d.taskRuns[t]
  }

  ghost predicate JobRowWritten(who: Service, at: JobAt, d: Db, e: Db, after: JobAt) {
    match at
    case Idle => false
    case SkipHalf(j) => JobSet(d, e, j, JobRunStatus.Skipped) && after.Idle?
    case StartHalf(j) => JobSet(d, e, j, JobRunStatus.Running) && after.Idle?
    case Decided(j, next) =>
      if who.JobRunMonitor? then (if next.Running? then e == d else JobSet(d, e, j, next)) && after.Idle?
      else if next.Skipped? then TasksSet(d, e, j, None, TaskRunStatus.Skipped) && after == SkipHalf(j)
      else if next.Running? then TasksSet(d, e, j, Some(TaskRunStatus.Planned), TaskRunStatus.Waiting) && after == StartHalf(j)
      else (if who.JobRunReleaser? && next.Queued? then JobSet(d, e, j, JobRunStatus.Queued) else e == d) && after.Idle?
  }

  /** A job service writes what it decided: task runs before the run, and nothing else. */
  lemma JobRowIsWritten(s: Server, who: Service)
    requires Good(s) && Can(s, Commit(who)) && (who.JobRunReleaser? || who.JobRunDispatcher? || who.JobRunMonitor?)
    ensures var n := Next(s, Commit(who)); match who
      case JobRunReleaser => JobRowWritten(who, s.releaser.at, s.db, n.db, n.releaser.at)
      case JobRunDispatcher => JobRowWritten(who, s.jobDispatcher.at, s.db, n.db, n.jobDispatcher.at)
      case _ => JobRowWritten(who, s.jobMonitor.at, s.db, n.db, n.jobMonitor.at)
  {
    var p := if who.JobRunReleaser? then s.releaser else if who.JobRunDispatcher? then s.jobDispatcher else s.jobMonitor;
    assert p.at.j in p.Window();
    JobRowFrom(who, p, s.db);
  }

  lemma JobRowFrom(who: Service, p: JobPoller, d: Db)
    requires !p.at.Idle? && p.at.j < |d.jobRuns| && (who.JobRunReleaser? || who.JobRunDispatcher? || who.JobRunMonitor?)
    requires who.JobRunMonitor? ==> p.at.Decided?
    requires p.at.Decided? && who.JobRunReleaser? ==> !p.at.next.Running?
    ensures var w := JobWrite(who, p.at);
      JobRowWritten(who, p.at, d, if w.Some? then Apply(d, w.value) else d, JobDone(p, who).at)
  {}

  // ---- Task runs ----

  ghost predicate SomeDependencyIs(d: Db, t: nat, bad: bool)
    requires t < |d.taskRuns|
  {
    exists k :: 0 <= k < |d.taskRuns[t].dependsOn| && d.taskRuns[t].dependsOn[k] < |d.taskRuns|
      && var status := d.taskRuns[d.taskRuns[t].dependsOn[k]].status;
         if bad then status.Failed? || status.Skipped? || status.Aborted? || status.TimedOut? || status.Invalid?
         else status.Planned? || status.Waiting? || status.Running?
  }

  /** Skipped for a stop or a dependency that failed, else held by one unfinished, else started. */
  lemma TaskDispatcherDecides(s: Server)
    requires Good(s) && Can(s, Decide(TaskRunDispatcher))
    ensures var t := s.taskDispatcher.queue[0];
      && t < |s.db.taskRuns|
      && var skip := s.db.taskRuns[t].jobRun in s.db.stops || SomeDependencyIs(s.db, t, true);
         var next :=
           if skip then TaskRunStatus.Skipped
           else if SomeDependencyIs(s.db, t, false) then TaskRunStatus.Waiting
           else TaskRunStatus.Running;
         Next(s, Decide(TaskRunDispatcher)).taskDispatcher.at == TaskAt.Decided(t, Some(next))
  {
    var t := s.taskDispatcher.queue[0];
    assert t in s.taskDispatcher.Window();
    TaskVerdictDecided(s.db, t);
    DependenciesAre(s.db, t);
  }

  lemma DependenciesAre(d: Db, t: nat)
    requires t < |d.taskRuns|
    ensures SomeDependencyIs(d, t, true) <==> SomeDependency(d, t, (s: TaskRunStatus) => s.IsBad())
    ensures SomeDependencyIs(d, t, false) <==> SomeDependency(d, t, (s: TaskRunStatus) => !s.IsFinished())
  {}

  /** What the newest attempt calls for; a retry exactly while it is Failed and one is left. */
  ghost predicate StepCalledFor(d: Db, t: nat, step: AttemptStep)
    requires t < |d.taskRuns|
  {
    if forall a: nat :: !OfTask(d.attempts, a, t) then step.InsertFirst?
    else exists a: nat :: IsLast(d, t, a) && LastCallsFor(d.taskRuns[t], d.attempts[a], step)
  }

  ghost predicate LastCallsFor(task: TaskRun, last: Attempt, step: AttemptStep) {
    match last.status
    case Queued | Running => step.Leave?
    case Failed =>
      if last.number <= task.maxRetries then step == InsertNext(last.number + 1) else step == Settle(TaskRunStatus.Failed)
    case Succeeded => step == Settle(TaskRunStatus.Succeeded)
    case TimedOut => step == Settle(TaskRunStatus.TimedOut)
    case Aborted | Skipped => step == Settle(TaskRunStatus.Aborted)
    case Invalid => step == Settle(TaskRunStatus.Invalid)
  }

  lemma StepIsCalledFor(d: Db, t: nat)
    requires t < |d.taskRuns|
    ensures StepCalledFor(d, t, MonitorStep(d, t))
  {
    if Last(d, t).Some? {
      LastIs(d, t, Last(d, t).value);
    }
  }

  lemma TaskMonitorDecides(s: Server)
    requires Good(s) && Can(s, Decide(TaskRunMonitor))
    ensures var t := if s.taskMonitor.at.Loading? then s.taskMonitor.at.t else s.taskMonitor.queue[0];
      var at := Next(s, Decide(TaskRunMonitor)).taskMonitor.at;
      t < |s.db.taskRuns| && at == Stepping(t, at.step) && StepCalledFor(s.db, t, at.step)
  {
    var t := if s.taskMonitor.at.Loading? then s.taskMonitor.at.t else s.taskMonitor.queue[0];
    assert t in s.taskMonitor.Window();
    TaskMonitorSteps(s, t);
  }

  lemma TaskMonitorSteps(s: Server, t: nat)
    requires Can(s, Decide(TaskRunMonitor)) && t < |s.db.taskRuns|
    requires t == if s.taskMonitor.at.Loading? then s.taskMonitor.at.t else s.taskMonitor.queue[0]
    ensures var at := Next(s, Decide(TaskRunMonitor)).taskMonitor.at; at == Stepping(t, at.step) && StepCalledFor(s.db, t, at.step)
  {
    StepIsCalledFor(s.db, t);
  }

  ghost predicate TaskSet(d: Db, e: Db, t: nat, status: TaskRunStatus) {
    && e.jobRuns == d.jobRuns && e.attempts == d.attempts && e.stops == d.stops
    && t < |d.taskRuns| && e.taskRuns == d.taskRuns[t := d.taskRuns[t].(status := status)]
  }

  /** One Queued attempt more, created now. */
  ghost predicate AttemptAdded(d: Db, e: Db, t: nat, number: nat, now: nat) {
    && e.jobRuns == d.jobRuns && e.taskRuns == d.taskRuns && e.stops == d.stops
    && e.attempts == d.attempts + [Attempt(t, number, now, None, AttemptStatus.Queued, false, false, NotSpawned, 0)]
  }

  ghost predicate TaskRowWritten(at: TaskAt, now: nat, d: Db, e: Db, after: TaskAt) {
    match at
    case Decided(t, Some(next)) => (if next.Waiting? then e == d else TaskSet(d, e, t, next)) && after.Idle?
    case Stepping(t, InsertFirst) => AttemptAdded(d, e, t, 1, now) && after == Loading(t)
    case Stepping(t, InsertNext(number)) => AttemptAdded(d, e, t, number, now) && after.Idle?
    case Stepping(t, Settle(status)) => TaskSet(d, e, t, status) && after.Idle?
    case Stepping(t, Leave) => e == d && after.Idle?
    case _ => false
  }

  /** A task service writes what it decided, and nothing else; a first attempt is then read back. */
  lemma TaskRowIsWritten(s: Server, who: Service)
    requires Good(s) && Can(s, Commit(who)) && (who.TaskRunDispatcher? || who.TaskRunMonitor?)
    ensures var n := Next(s, Commit(who));
      if who.TaskRunDispatcher? then TaskRowWritten(s.taskDispatcher.at, s.now, s.db, n.db, n.taskDispatcher.at)
      else TaskRowWritten(s.taskMonitor.at, s.now, s.db, n.db, n.taskMonitor.at)
  {
    var p := if who.TaskRunDispatcher? then s.taskDispatcher else s.taskMonitor;
    assert p.at.t in p.Window();
    if who.TaskRunDispatcher? { DispatchedRowFrom(s); } else { SteppedRowFrom(s); }
  }

  lemma DispatchedRowFrom(s: Server)
    requires s.taskDispatcher.at.Decided? && s.taskDispatcher.at.t < |s.db.taskRuns| && s.taskDispatcher.at.next.Some?
    requires s.taskDispatcher.at.next.value in {TaskRunStatus.Skipped, TaskRunStatus.Waiting, TaskRunStatus.Running}
    ensures var n := Next(s, Commit(TaskRunDispatcher));
      TaskRowWritten(s.taskDispatcher.at, s.now, s.db, n.db, n.taskDispatcher.at)
  {}

  lemma SteppedRowFrom(s: Server)
    requires s.taskMonitor.at.Stepping? && s.taskMonitor.at.t < |s.db.taskRuns| && !s.taskMonitor.at.step.Undecided?
    ensures var n := Next(s, Commit(TaskRunMonitor));
      TaskRowWritten(s.taskMonitor.at, s.now, s.db, n.db, n.taskMonitor.at)
  {}

  // ---- Queued attempts ----

  /** In its retry delay, or behind the cap on all attempts or that of a limit its task claims. */
  ghost predicate HeldBack(s: Server, a: nat)
    requires a < |s.db.attempts| && s.db.attempts[a].taskRun < |s.db.taskRuns|
  {
    var row, task := s.db.attempts[a], s.db.taskRuns[s.db.attempts[a].taskRun];
    || (row.number > 1 && s.now < row.createdAt + task.retryDelay)
    || (s.config.maxRunning > 0 && |SlotsHeld(s.db)| >= s.config.maxRunning)
    || exists limit :: limit in task.limits && limit in s.config.limits && s.config.limits[limit] != 0
                       && |LimitHeld(s.db, limit)| >= s.config.limits[limit]
  }

  lemma HeldBackIs(s: Server, a: nat)
    requires a < |s.db.attempts| && s.db.attempts[a].taskRun < |s.db.taskRuns|
    ensures HeldBack(s, a) <==> ShouldStayQueued(s, a)
  {
    SlotCounts(s.db, "", "");
    forall limit ensures Count(|s.db.attempts|, Claiming(s.db, limit)) == |LimitHeld(s.db, limit)| {
      SlotCounts(s.db, limit, "");
    }
    if HeldBack(s, a) {
      forall limit | limit in s.db.taskRuns[s.db.attempts[a].taskRun].limits && limit in s.config.limits
        ensures LimitFull(s.db, s.config, limit) <==>
          s.config.limits[limit] != 0 && |LimitHeld(s.db, limit)| >= s.config.limits[limit]
      {}
    }
  }

  /** A command begun for is never begun for again; a stop outranks being held. */
  lemma SpawnerDecides(s: Server)
    requires Good(s) && Can(s, Decide(TaskRunAttemptDispatcher))
    ensures var a := s.spawner.queue[0].a;
      && a < |s.db.attempts| && s.db.attempts[a].taskRun < |s.db.taskRuns|
      && var next :=
           if s.db.attempts[a].startedAt.Some? then AttemptStatus.Invalid
           else if s.db.taskRuns[s.db.attempts[a].taskRun].jobRun in s.db.stops then AttemptStatus.Skipped
           else if HeldBack(s, a) then AttemptStatus.Queued
           else AttemptStatus.Running;
         Next(s, Decide(TaskRunAttemptDispatcher)).spawner.at == SpawnAt.Decided(a, next)
  {
    var a := s.spawner.queue[0].a;
    assert a == s.spawner.Window()[0];
    assert a in s.spawner.Window() && AttemptOk(s.db, a);
    HeldBackIs(s, a);
  }

  /** Only the attempt's own row differs. */
  ghost predicate AttemptSet(d: Db, e: Db, a: nat, row: Attempt) {
    && e.jobRuns == d.jobRuns && e.taskRuns == d.taskRuns && e.stops == d.stops
    && a < |d.attempts| && e.attempts == d.attempts[a := row]
  }

  /** What it times out by, measured from when it was started. */
  ghost predicate TimesOutAsDeclared(d: Db, a: nat, child: Child) {
    && a < |d.attempts| && d.attempts[a].taskRun < |d.taskRuns| && d.attempts[a].startedAt.Some?
    && var task := d.taskRuns[d.attempts[a].taskRun];
       && child.timesOutAt == d.attempts[a].startedAt.value + task.timeout
       && child.idleTimeout == if task.idleTimeout == 0 then None else Some(task.idleTimeout)
  }

  ghost predicate SpawnStep(s: Server, n: Server)
    requires !s.spawner.at.Idle? && s.spawner.at.a < |s.db.attempts|
  {
    var a, d, row := s.spawner.at.a, s.db, s.db.attempts[s.spawner.at.a];
    match s.spawner.at
    case Decided(_, Running) =>
      AttemptSet(d, n.db, a, row.(startedAt := Some(s.now))) && n.spawner.at == Marked(a) && n.children == s.children
    case Decided(_, Queued) => n.db == d && n.spawner.at.Idle? && n.children == s.children
    case Decided(_, next) =>
      (next.Skipped? || next.Invalid?) && AttemptSet(d, n.db, a, row.(status := next)) && n.spawner.at.Idle? && n.children == s.children
    case SpawnFailed(_) => AttemptSet(d, n.db, a, row.(startedAt := None)) && n.spawner.at.Idle? && n.children == s.children
    case Spawned(_) =>
      && n.db == d && n.spawner.at == SpawnAt.Held(a) && n.children.Keys == s.children.Keys + {a}
      && (forall b :: b in s.children && b != a ==> n.children[b] == s.children[b])
      && TimesOutAsDeclared(d, a, n.children[a]) && n.children[a].terminating.None?
    case Held(_) => AttemptSet(d, n.db, a, row.(status := AttemptStatus.Running)) && n.spawner.at.Idle? && n.children == s.children
    case _ => false
  }

  /** Each step of a start, in its order: the mark, the process, the map, the status. */
  lemma SpawnStepIsMade(s: Server)
    requires Good(s) && Can(s, Commit(TaskRunAttemptDispatcher))
    ensures s.spawner.at.a < |s.db.attempts| && SpawnStep(s, Next(s, Commit(TaskRunAttemptDispatcher)))
  {
    assert s.spawner.at.a in s.spawner.Window();
    assert AttemptOk(s.db, s.spawner.at.a);
    SpawnStepFrom(s);
  }

  lemma SpawnStepFrom(s: Server)
    requires !s.spawner.at.Idle? && !s.spawner.at.Marked? && s.spawner.at.a < |s.db.attempts|
    requires s.db.attempts[s.spawner.at.a].taskRun < |s.db.taskRuns|
    requires s.spawner.at.Decided? ==>
      s.spawner.at.next in {AttemptStatus.Invalid, AttemptStatus.Skipped, AttemptStatus.Running, AttemptStatus.Queued}
    requires s.spawner.at.Spawned? ==> s.db.attempts[s.spawner.at.a].startedAt.Some?
    ensures SpawnStep(s, Next(s, Commit(TaskRunAttemptDispatcher)))
  {
    var n := Next(s, Commit(TaskRunAttemptDispatcher));
    assert n == SpawnDone(s).(db := n.db);
    assert n.db == match SpawnWrite(s.spawner.at, s.now) case Some(w) => Apply(s.db, w) case None => s.db;
  }

  lemma ShellIsSpawned(s: Server, ok: bool)
    requires Good(s) && Can(s, SpawnChild(ok))
    ensures var a, n := s.spawner.at.a, Next(s, SpawnChild(ok));
      && a < |s.db.attempts| && s.db.attempts[a].startedAt.Some?
      && if ok then AttemptSet(s.db, n.db, a, s.db.attempts[a].(shell := Alive, spawns := 1)) && n.spawner.at == Spawned(a)
                    && n.wroteAt == s.wroteAt[a := s.db.attempts[a].startedAt.value]
         else n.db == s.db && n.spawner.at == SpawnFailed(a)
  {
    assert s.spawner.at.a in s.spawner.Window();
    assert AttemptOk(s.db, s.spawner.at.a);
  }

  // ---- Running attempts ----

  /** The process leaves the map for the monitor's hand. */
  lemma WatcherTakesIt(s: Server)
    requires Can(s, Decide(TaskRunAttemptMonitor))
    ensures var a, n := s.watcher.queue[0], Next(s, Decide(TaskRunAttemptMonitor));
      && n.watcher.at == Holding(a, if a in s.children then Some(s.children[a]) else None)
      && n.children == s.children - {a} && n.db == s.db
  {}

  ghost predicate Silent(s: Server, a: nat, child: Child) {
    child.idleTimeout.Some? && a in s.wroteAt && s.wroteAt[a] + child.idleTimeout.value <= s.now
  }

  ghost predicate Stopped(d: Db, a: nat) {
    a < |d.attempts| && d.attempts[a].taskRun < |d.taskRuns| && d.taskRuns[d.attempts[a].taskRun].jobRun in d.stops
  }

  ghost predicate GoesBack(s: Server, n: Server, a: nat, child: Child) {
    n.db == s.db && n.watcher.at == PutBack(a, child) && n.asked == s.asked
  }

  ghost predicate Settles(s: Server, n: Server, a: nat, status: AttemptStatus) {
    n.db == s.db && n.watcher.at == Settling(a, status) && n.asked == s.asked
  }

  ghost predicate KilledAndSettles(s: Server, n: Server, a: nat, status: AttemptStatus) {
    && a < |s.db.attempts| && n.watcher.at == Settling(a, status) && n.asked == s.asked
    && var row := s.db.attempts[a];
       AttemptSet(s.db, n.db, a, row.(shell := Exited(if row.shell.Exited? then row.shell.code else -9, false)))
  }

  /** Asked to exit, with the grace counted from now; killed at once if there is none. */
  ghost predicate Ends(s: Server, n: Server, a: nat, child: Child, status: AttemptStatus) {
    if s.config.killGrace == 0 then KilledAndSettles(s, n, a, status)
    else
      var termination := Termination(status, s.now + s.config.killGrace);
      n.db == s.db && n.watcher.at == PutBack(a, child.(terminating := Some(termination))) && n.asked == s.asked[a := termination]
  }

  /**
    What the monitor makes of a process it was not yet ending: exit 0 with its result recorded
    is a success, any other exit a failure, and an exit outranks a timeout, which outranks a stop.
   */
  ghost predicate SeenRightly(s: Server, n: Server, a: nat, child: Child, outputOk: bool)
    requires a < |s.db.attempts|
  {
    var shell := s.db.attempts[a].shell;
    if shell.Exited? then Settles(s, n, a, if shell.code == 0 && outputOk then AttemptStatus.Succeeded else AttemptStatus.Failed)
    else if child.timesOutAt < s.now || Silent(s, a, child) then Ends(s, n, a, child, AttemptStatus.TimedOut)
    else if Stopped(s.db, a) then Ends(s, n, a, child, AttemptStatus.Aborted)
    else GoesBack(s, n, a, child)
  }

  ghost predicate LookedAt(s: Server, n: Server, a: nat, held: Option<Child>, outputOk: bool)
    requires a < |s.db.attempts|
  {
    match held
    case None => Settles(s, n, a, AttemptStatus.Invalid)
    case Some(child) =>
      match child.terminating
      case None => SeenRightly(s, n, a, child, outputOk)
      case Some(termination) =>
        var shell := s.db.attempts[a].shell;
        if termination.killAt <= s.now || (shell.Exited? && !shell.groupLeft)
        then KilledAndSettles(s, n, a, termination.status) else GoesBack(s, n, a, child)
  }

  lemma WatcherLooks(s: Server, outputOk: bool)
    requires Good(s) && Can(s, Look(outputOk))
    ensures s.watcher.at.a < |s.db.attempts| && s.db.attempts[s.watcher.at.a].status.Running?
    ensures LookedAt(s, Next(s, Look(outputOk)), s.watcher.at.a, s.watcher.at.child, outputOk)
  {
    assert s.watcher.at.a in s.watcher.Window();
    LookedFrom(s, outputOk);
  }

  lemma LookedFrom(s: Server, outputOk: bool)
    requires s.watcher.at.Holding? && s.watcher.at.a < |s.db.attempts|
    ensures LookedAt(s, Next(s, Look(outputOk)), s.watcher.at.a, s.watcher.at.child, outputOk)
  {}

  /** The monitor then puts the process back, or writes the status. */
  lemma WatcherRowIsWritten(s: Server)
    requires Good(s) && Can(s, Commit(TaskRunAttemptMonitor))
    ensures var a, n := s.watcher.at.a, Next(s, Commit(TaskRunAttemptMonitor));
      && a < |s.db.attempts| && n.watcher.at.Idle?
      && match s.watcher.at
         case PutBack(_, back) => n.db == s.db && n.children == s.children[a := back]
         case Settling(_, next) => AttemptSet(s.db, n.db, a, s.db.attempts[a].(status := next)) && n.children == s.children
         case _ => false
  {
    assert s.watcher.at.a in s.watcher.Window();
  }

  /** An error before anything is decided puts it back as it was. */
  lemma WatcherGivesUp(s: Server)
    requires Can(s, Fail(TaskRunAttemptMonitor)) && s.watcher.at.Holding?
    ensures var n := Next(s, Fail(TaskRunAttemptMonitor));
      n.db == s.db && n.watcher.at.Idle? && s.watcher.at.child.Some? && n.children == s.children[s.watcher.at.a := s.watcher.at.child.value]
  {}

  // ---- Everyone else ----

  /** What users, commands and the operating system write, and that it is all they change. */
  ghost predicate WorldWrites(d: Db, e: Db, w: Write)
    requires w.Stop? || w.Delete? || w.Exit? || w.GroupEnds? || w.SetWaiting?
  {
    match w
    case Stop(j) => e == d.(stops := d.stops + {j})
    case Delete(j) =>
      && j < |d.jobRuns| && e.jobRuns == d.jobRuns[j := d.jobRuns[j].(status := JobRunStatus.Deleted)]
      && TasksSet(d, e.(jobRuns := d.jobRuns), j, None, TaskRunStatus.Skipped)
    case Exit(a, code, groupLeft) => a < |d.attempts| && AttemptSet(d, e, a, d.attempts[a].(shell := Exited(code, groupLeft)))
    case GroupEnds(a) =>
      && a < |d.attempts| && d.attempts[a].shell.Exited?
      && AttemptSet(d, e, a, d.attempts[a].(shell := Exited(d.attempts[a].shell.code, false)))
    case SetWaiting(a, waiting) =>
      a < |d.attempts| && AttemptSet(d, e, a, d.attempts[a].(waiting := waiting, everWaited := d.attempts[a].everWaited || waiting))
    case _ => false
  }

  lemma WorldIsWritten(s: Server, w: Write)
    requires Can(s, World(w)) && !w.Submit?
    ensures WorldWrites(s.db, Next(s, World(w)).db, w) && Next(s, World(w)) == s.(db := Next(s, World(w)).db)
  {}

  /** Recovery settles what was left Running Invalid, one after another. */
  lemma RecoveredRowIsWritten(s: Server)
    requires s.phase.Recovering? && s.phase.orphans != [] && s.phase.orphans[0] < |s.db.attempts|
    ensures Can(s, RecoverRow) && var a, n := s.phase.orphans[0], Next(s, RecoverRow);
      && AttemptSet(s.db, n.db, a, s.db.attempts[a].(status := AttemptStatus.Invalid))
      && n == s.(db := n.db, phase := Recovering(s.phase.orphans[1..]))
  {}

  /** Before that it may kill what it was spawned for, and nothing else. */
  lemma RecoveryKills(s: Server)
    requires Can(s, RecoverKill) && s.phase.orphans[0] < |s.db.attempts|
    ensures var a, n := s.phase.orphans[0], Next(s, RecoverKill);
      && AttemptSet(s.db, n.db, a, s.db.attempts[a].(shell := n.db.attempts[a].shell))
      && n == s.(db := n.db) && n.db.attempts[a].shell.Exited?
  {}

  /** A crash loses every process, hand and snapshot, and all that was Running is to be recovered. */
  lemma CrashForgets(s: Server, config: Config)
    ensures var n := Next(s, Crash(config));
      && n.db == s.db && n.now == s.now && n.config == config && n.maxParallel == s.maxParallel && AllIdle(n) && n.phase.Recovering?
      && IdsAre(n.phase.orphans, set a: nat | a < |s.db.attempts| && s.db.attempts[a].status.Running?)
  {}
}
