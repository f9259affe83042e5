/** One server process: the tables it writes, the child map, and the services' methods. */
module Orchestrators {
  import opened Options
  import opened Tables
  import opened Pollers
  import opened PollerInvariant
  import opened Handlers
  import opened HandlersFollow
  import opened Services
  import opened Outcomes
  import opened Decisions

  function NextOf(step: AttemptStep): Option<TaskRunStatus> {
    match step
    case Settle(status) => Some(status)
    case Undecided => None
    case _ => Some(TaskRunStatus.Running)
  }

  /** What an attempt calls for: another exactly while it Failed with a retry left, or a status. */
  ghost predicate DerivedFrom(d: Db, e: Db, t: nat, last: Attempt, now: nat, next: Option<TaskRunStatus>)
    requires t < |d.taskRuns|
  {
    if last.status.Failed? && last.number <= d.taskRuns[t].maxRetries
    then AttemptAdded(d, e, t, last.number + 1, now) && next == Some(TaskRunStatus.Running)
    else e == d && next == match last.status
      case Queued | Running => Some(TaskRunStatus.Running)
      case Failed => Some(TaskRunStatus.Failed)
      case Succeeded => Some(TaskRunStatus.Succeeded)
      case TimedOut => Some(TaskRunStatus.TimedOut)
      case Aborted | Skipped => Some(TaskRunStatus.Aborted)
      case Invalid => Some(TaskRunStatus.Invalid)
  }

  /** Asked to exit within the grace, or killed and settled at once if there is none. */
  ghost predicate Ended(s: Server, n: Server, a: nat, child: Child, status: AttemptStatus)
    requires a < |s.db.attempts|
  {
    if s.config.killGrace == 0 then
      AttemptSet(s.db, n.db, a, s.db.attempts[a].(status := status, shell := Exited(-9, false))) && n.children == s.children
    else n.db == s.db && n.children == s.children[a := child.(terminating := Some(Termination(status, s.now + s.config.killGrace)))]
  }

  /** What the monitor makes of a process in hand, by its exit, the clock and the stops. */
  ghost predicate HeldHandled(s: Server, n: Server, a: nat, child: Child, recorded: bool)
    requires a < |s.db.attempts|
  {
    var row := s.db.attempts[a];
    if row.shell.Exited? then
      var status := if row.shell.code == 0 && recorded then AttemptStatus.Succeeded else AttemptStatus.Failed;
      AttemptSet(s.db, n.db, a, row.(status := status)) && n.children == s.children
    else if child.timesOutAt < s.now || Silent(s, a, child) then Ended(s, n, a, child, AttemptStatus.TimedOut)
    else if Stopped(s.db, a) then Ended(s, n, a, child, AttemptStatus.Aborted)
    else n.db == s.db && n.children == s.children[a := child]
  }

  lemma PlacedHeld(s: Server, a: nat, child: Child, recorded: bool)
    requires a < |s.db.attempts| && child.terminating.None?
    ensures HeldHandled(s, Placed(s, a, See(s, a, Some(child), recorded)), a, child, recorded)
  {
    if !s.db.attempts[a].shell.Exited? {
      PlacedEnded(s, a, child, AttemptStatus.TimedOut);
      PlacedEnded(s, a, child, AttemptStatus.Aborted);
    }
  }

  lemma PlacedEnded(s: Server, a: nat, child: Child, status: AttemptStatus)
    requires a < |s.db.attempts| && !s.db.attempts[a].shell.Exited?
    ensures Ended(s, Placed(s, a, Terminate(s, a, child, status)), a, child, status)
  {
    if s.config.killGrace == 0 { PlacedKilled(s.db, a, status); }
  }

  lemma PlacedKilled(d: Db, a: nat, status: AttemptStatus)
    requires a < |d.attempts| && !d.attempts[a].shell.Exited?
    ensures var e := Apply(Apply(d, Kill(a)), SettleAttempt(a, status));
      AttemptSet(d, e, a, d.attempts[a].(status := status, shell := Exited(-9, false)))
  {}

  const NO_JOBS := JobPoller([], JobAt.Idle)
  const NO_TASKS := TaskPoller([], TaskAt.Idle)

  class Orchestrator {
    const config: Config
    const maxParallel: map<string, nat>
    var jobRuns: seq<JobRun>
    var taskRuns: seq<TaskRun>
    var attempts: seq<Attempt>
    var stops: set<nat>
    var children: map<nat, Child>
    var wroteAt: map<nat, nat>
    var now: nat
    ghost var asked: map<nat, Termination>
    ghost var lost: set<nat>

    constructor (config: Config, maxParallel: map<string, nat>)
      ensures this.config == config && this.maxParallel == maxParallel && now == 0
      ensures Tables() == EMPTY && children == map[]
    {
      this.config := config;
      this.maxParallel := maxParallel;
      jobRuns, taskRuns, attempts, stops := [], [], [], {};
      children, wroteAt, now, asked, lost := map[], map[], 0, map[], {};
    }

    function Tables(): Db
      reads this
    {
      Db(jobRuns, taskRuns, attempts, stops)
    }

    /** This process as the protocol knows it, with no service in the middle of a pass. */
    ghost function Memory(): Server
      reads this
    {
      Server(Tables(), now, config, maxParallel, Serving, NO_JOBS, NO_JOBS, NO_JOBS, NO_TASKS, NO_TASKS,
             SpawnPoller([], SpawnAt.Idle), WatchPoller([], WatchAt.Idle), children, wroteAt, asked, lost)
    }

    // ---- Writes: rows are named by id alone ----

    method UpdateJobRun(j: nat, status: JobRunStatus)
      modifies this`jobRuns
      ensures Tables() == WithJob(old(Tables()), j, status)
    {
      if j < |jobRuns| {
        jobRuns := jobRuns[j := jobRuns[j].(status := status)];
      }
    }

    method UpdateTaskRun(t: nat, status: TaskRunStatus)
      modifies this`taskRuns
      ensures Tables() == WithTask(old(Tables()), t, status)
    {
      if t < |taskRuns| {
        taskRuns := taskRuns[t := taskRuns[t].(status := status)];
      }
    }

    method UpdateTaskRunsOf(j: nat, which: TaskRunStatus -> bool, status: TaskRunStatus)
      modifies this`taskRuns
      ensures Tables() == WithTasks(old(Tables()), j, which, status)
    {
      taskRuns := WithTasks(Tables(), j, which, status).taskRuns;
    }

    method SkipJobRun(j: nat)
      modifies this`taskRuns, this`jobRuns
      ensures forall who :: Tables() == Apply(Apply(old(Tables()), SkipTasks(j, who)), SkipJob(j, who))
    {
      UpdateTaskRunsOf(j, s => true, TaskRunStatus.Skipped);
      UpdateJobRun(j, JobRunStatus.Skipped);
    }

    method InsertAttempt(t: nat, number: nat)
      modifies this`attempts
      ensures Tables() == Apply(old(Tables()), Write.InsertAttempt(t, number, now))
    {
      attempts := attempts + [NewAttempt(t, number, now)];
    }

    method UpdateAttempt(a: nat, status: AttemptStatus)
      modifies this`attempts
      ensures Tables() == Apply(old(Tables()), SettleAttempt(a, status))
      ensures status.Running? ==> Tables() == Apply(old(Tables()), SetRunning(a))
      ensures status.Skipped? ==> Tables() == Apply(old(Tables()), SkipAttempt(a))
      ensures status.Invalid? ==> Tables() == Apply(old(Tables()), InvalidateAttempt(a))
    {
      if a < |attempts| {
        attempts := attempts[a := attempts[a].(status := status)];
      }
    }

    method UpdateStartedAt(a: nat, startedAt: Option<nat>)
      modifies this`attempts
      ensures Tables() == Apply(old(Tables()), if startedAt.Some? then MarkStarted(a, startedAt.value) else ClearStarted(a))
    {
      if a < |attempts| {
        attempts := attempts[a := attempts[a].(startedAt := startedAt)];
      }
    }

    // ---- Job runs ----

    method HandleScheduledJobRun(j: nat)
      modifies this`taskRuns, this`jobRuns
      ensures Tables() == JobHandled(old(Tables()), JobRunReleaser, j, ReleaserVerdict(old(Memory()), j))
    {
      var isStopped := j in stops;
      var isDue := j < |jobRuns| && jobRuns[j].scheduledAt <= now;
      if isStopped {
        SkipJobRun(j);
      } else if isDue {
        UpdateJobRun(j, JobRunStatus.Queued);
      }
    }

    method HandleQueuedJobRun(j: nat)
      modifies this`taskRuns, this`jobRuns
      ensures Tables() == JobHandled(old(Tables()), JobRunDispatcher, j, DispatcherVerdict(old(Memory()), j))
    {
      if j in stops {
        SkipJobRun(j);
        return;
      }
      var full := IsJobAtMaxParallelRuns(j);
      if !full {
        // The task runs first: a crash between the two leaves the run Queued.
        UpdateTaskRunsOf(j, (s: TaskRunStatus) => s.Planned?, TaskRunStatus.Waiting);
        UpdateJobRun(j, JobRunStatus.Running);
      }
    }

    method IsJobAtMaxParallelRuns(j: nat) returns (full: bool)
      ensures full == (j < |jobRuns| && AtMaxParallelRuns(Memory(), jobRuns[j].jobId))
    {
      if j >= |jobRuns| || jobRuns[j].jobId !in maxParallel || maxParallel[jobRuns[j].jobId] == 0 {
        return false;
      }
      var running := Count(|jobRuns|, RunningOf(Tables(), jobRuns[j].jobId));
      return running >= maxParallel[jobRuns[j].jobId];
    }

    method DeriveRunningJobRun(j: nat) returns (next: Option<JobRunStatus>)
      ensures next == JobVerdict(Tables(), j)
    {
      VerdictOfList(Tables(), j);
      return VerdictOver(TaskRunsOf(Tables(), j, |taskRuns|));
    }

    method HandleRunningJobRun(j: nat)
      modifies this`jobRuns
      ensures Tables() == JobHandled(old(Tables()), JobRunMonitor, j, MonitorVerdict(old(Memory()), j))
    {
      var next := DeriveRunningJobRun(j);
      if next.None? {
        UpdateJobRun(j, JobRunStatus.Invalid);
      } else if !next.value.Running? {
        UpdateJobRun(j, next.value);
      }
    }

    // ---- Task runs ----

    /** The dependencies' rows in the order declared, or the first that has none. */
    method GetDependentTaskRuns(t: nat) returns (rows: Result<seq<TaskRun>, nat>)
      requires t < |taskRuns|
      ensures rows.Ok? <==> DependenciesPresent(Tables(), t)
      ensures rows.Ok? ==> |rows.value| == |taskRuns[t].dependsOn|
      ensures rows.Ok? ==> forall k :: 0 <= k < |rows.value| ==> rows.value[k] == taskRuns[taskRuns[t].dependsOn[k]]
      ensures rows.Err? ==> rows.error in taskRuns[t].dependsOn && rows.error >= |taskRuns|
    {
      var found: seq<TaskRun> := [];
      var dependsOn := taskRuns[t].dependsOn;
      for k := 0 to |dependsOn|
        invariant |found| == k
        invariant forall i :: 0 <= i < k ==> dependsOn[i] < |taskRuns| && found[i] == taskRuns[dependsOn[i]]
      {
        if dependsOn[k] >= |taskRuns| {
          return Err(dependsOn[k]);
        }
        found := found + [taskRuns[dependsOn[k]]];
      }
      return Ok(found);
    }

    /** Dependencies are loaded once, and the three questions asked of that one list. */
    method DeriveWaitingTaskRun(t: nat) returns (next: Result<Option<TaskRunStatus>, nat>)
      requires t < |taskRuns|
      ensures next.Ok? <==> DependenciesPresent(Tables(), t)
      ensures next.Ok? ==> next.value == TaskVerdict(Tables(), t)
    {
      var found := GetDependentTaskRuns(t);
      if found.Err? {
        return Err(found.error);
      }
      var rows := found.value;
      DependencyAnswers(rows, t, (s: TaskRunStatus) => s.IsBad());
      DependencyAnswers(rows, t, (s: TaskRunStatus) => !s.IsFinished());
      DependencyAnswers(rows, t, (s: TaskRunStatus) => s.Succeeded?);
      if taskRuns[t].jobRun in stops || AnyOf(rows, (s: TaskRunStatus) => s.IsBad()) {
        return Ok(Some(TaskRunStatus.Skipped));
      }
      if AnyOf(rows, (s: TaskRunStatus) => !s.IsFinished()) {
        return Ok(Some(TaskRunStatus.Waiting));
      }
      if AllOf(rows, (s: TaskRunStatus) => s.Succeeded?) {
        return Ok(Some(TaskRunStatus.Running));
      }
      return Ok(None);
    }

    lemma DependencyAnswers(rows: seq<TaskRun>, t: nat, p: TaskRunStatus -> bool)
      requires t < |taskRuns| && DependenciesPresent(Tables(), t) && |rows| == |taskRuns[t].dependsOn|
      requires forall k :: 0 <= k < |rows| ==> rows[k] == taskRuns[taskRuns[t].dependsOn[k]]
      ensures AnyOf(rows, p) <==> SomeDependency(Tables(), t, p)
      ensures AllOf(rows, p) <==> AllDependencies(Tables(), t, p)
    {}

    /** A dependency that cannot be found is an error, and the task run is left for the next pass. */
    method HandleWaitingTaskRun(t: nat) returns (ok: bool)
      requires t < |taskRuns|
      modifies this`taskRuns
      ensures ok == old(DependenciesPresent(Tables(), t))
      ensures Tables() == if ok then WaitingHandled(old(Tables()), t) else old(Tables())
    {
      var next := DeriveWaitingTaskRun(t);
      if next.Err? {
        return false;
      }
      match next.value {
        case Some(Skipped) => UpdateTaskRun(t, TaskRunStatus.Skipped);
        case Some(Waiting) =>
        case Some(Running) => UpdateTaskRun(t, TaskRunStatus.Running);
        case _ => assert false; // reported as a bug
      }
      return true;
    }

    /** The attempt to derive from: the last, or a first one inserted and read back. */
    method GetOrStartAttempt(t: nat) returns (a: nat)
      requires t < |taskRuns|
      modifies this`attempts
      ensures Tables() == Started(old(Tables()), t, now)
      ensures a < |attempts| && Last(Tables(), t) == Some(a)
    {
      var last := Last(Tables(), t);
      if last.Some? {
        return last.value;
      }
      InsertAttempt(t, 1);
      last := Last(Tables(), t);
      return last.value;
    }

    /** Derives a status from the last attempt, and inserts the next one where that is what it calls for. */
    method DeriveRunningTaskRun(t: nat, a: nat) returns (next: Option<TaskRunStatus>)
      requires t < |taskRuns| && Last(Tables(), t) == Some(a)
      modifies this`attempts
      ensures next == NextOf(MonitorStep(old(Tables()), t))
      ensures var step := MonitorStep(old(Tables()), t);
        Tables() == if step.InsertNext? then StepHandled(old(Tables()), t, step, now) else old(Tables())
      ensures DerivedFrom(old(Tables()), Tables(), t, old(attempts[a]), now, next)
    {
      var last := attempts[a];
      if last.status.Invalid? {
        return Some(TaskRunStatus.Invalid);
      }
      if last.status.Succeeded? {
        return Some(TaskRunStatus.Succeeded);
      }
      if !last.status.IsFinished() {
        return Some(TaskRunStatus.Running);
      }
      if last.status.Failed? {
        if last.number < taskRuns[t].maxRetries + 1 {
          InsertAttempt(t, last.number + 1);
          return Some(TaskRunStatus.Running);
        }
        return Some(TaskRunStatus.Failed);
      }
      if last.status.TimedOut? {
        return Some(TaskRunStatus.TimedOut);
      }
      if last.status.IsStopped() {
        return Some(TaskRunStatus.Aborted);
      }
      return None;
    }

    method HandleRunningTaskRun(t: nat)
      requires t < |taskRuns|
      modifies this`attempts, this`taskRuns
      ensures Tables() == RunningHandled(old(Tables()), t, now)
    {
      var a := GetOrStartAttempt(t);
      var next := DeriveRunningTaskRun(t, a);
      match next {
        case Some(Succeeded) => UpdateTaskRun(t, TaskRunStatus.Succeeded);
        case Some(Failed) => UpdateTaskRun(t, TaskRunStatus.Failed);
        case Some(TimedOut) => UpdateTaskRun(t, TaskRunStatus.TimedOut);
        case Some(Aborted) => UpdateTaskRun(t, TaskRunStatus.Aborted);
        case Some(Invalid) => UpdateTaskRun(t, TaskRunStatus.Invalid);
        case Some(Running) =>
        case _ => assert false; // reported as a bug
      }
    }

    // ---- Queued attempts ----

    /**
      Whether a limit the attempt claims is at its maximum; and, once it is admitted, the
      claimed names that are not configured at all and so were taken as unlimited.
     */
    method AClaimedLimitIsFull(a: nat) returns (full: bool, unconfigured: seq<string>)
      requires a < |attempts| && attempts[a].taskRun < |taskRuns|
      ensures full == ClaimedLimitFull(Tables(), config, a)
      ensures !full ==> forall limit ::
        limit in unconfigured <==> limit in taskRuns[attempts[a].taskRun].limits && limit !in config.limits
    {
      var limits := taskRuns[attempts[a].taskRun].limits;
      unconfigured := [];
      if |limits| == 0 {
        return false, [];
      }
      var slots := ClaimedLimitSlots(Tables());
      for i := 0 to |limits|
        invariant forall k :: 0 <= k < i ==> !LimitFull(Tables(), config, limits[k])
        invariant forall limit :: limit in unconfigured <==> limit in limits[..i] && limit !in config.limits
      {
        var limit := limits[i];
        assert limits[..i + 1] == limits[..i] + [limit];
        if limit !in config.limits {
          unconfigured := unconfigured + [limit];
        } else if config.limits[limit] != 0 {
          var claimed := if limit in slots then slots[limit] else 0;
          if limit !in slots { UnclaimedIsZero(Tables(), limit); }
          if claimed >= config.limits[limit] {
            assert limit in limits && LimitFull(Tables(), config, limit);
            return true, unconfigured;
          }
        }
      }
      assert limits[..|limits|] == limits;
      return false, unconfigured;
    }

    method ShouldWait(a: nat) returns (stay: bool)
      requires a < |attempts| && attempts[a].taskRun < |taskRuns|
      ensures stay == ShouldStayQueued(Memory(), a)
    {
      if attempts[a].number > 1 {
        var retryDelay := taskRuns[attempts[a].taskRun].retryDelay;
        if now < attempts[a].createdAt + retryDelay {
          return true;
        }
      }
      if config.maxRunning > 0 {
        var running := Count(|attempts|, Working(Tables()));
        if running >= config.maxRunning {
          return true;
        }
      }
      var unconfigured;
      stay, unconfigured := AClaimedLimitIsFull(a);
    }

    method DeriveQueuedAttempt(seen: Seen) returns (next: AttemptStatus)
      requires seen.a < |attempts| && attempts[seen.a].taskRun < |taskRuns|
      ensures next == SpawnVerdict(Memory(), seen)
    {
      if seen.startedAt.Some? {
        return AttemptStatus.Invalid;
      }
      if taskRuns[attempts[seen.a].taskRun].jobRun in stops {
        return AttemptStatus.Skipped;
      }
      var stay := ShouldWait(seen.a);
      return if stay then AttemptStatus.Queued else AttemptStatus.Running;
    }

    /** The operating system's part of a spawn. */
    method SpawnShell(a: nat)
      modifies this`attempts
      ensures Tables() == Apply(old(Tables()), Spawn(a))
    {
      if a < |attempts| {
        attempts := attempts[a := attempts[a].(shell := Alive, spawns := attempts[a].spawns + 1)];
      }
    }

    /** `started_at` before the spawn, the child map before the status. */
    method SetToRunning(a: nat, spawns: bool)
      requires a < |attempts| && attempts[a].taskRun < |taskRuns|
      modifies this`attempts, this`children, this`wroteAt
      ensures Memory() == SpawnHandled(old(Memory()), a, spawns)
    {
      UpdateStartedAt(a, Some(now));
      if spawns {
        SpawnAndHold(a);
      } else {
        UpdateStartedAt(a, None);
      }
    }

    method SpawnAndHold(a: nat)
      requires a < |attempts| && attempts[a].taskRun < |taskRuns| && attempts[a].startedAt == Some(now)
      modifies this`attempts, this`children, this`wroteAt
      ensures Tables() == Apply(Apply(old(Tables()), Spawn(a)), SetRunning(a))
      ensures wroteAt == old(wroteAt)[a := StartOf(old(Tables()), a)]
      ensures children == old(children)[a := NewChild(Apply(old(Tables()), Spawn(a)), a)]
    {
      SpawnShell(a);
      var task := taskRuns[attempts[a].taskRun];
      wroteAt := wroteAt[a := now];
      var child := Child(now + task.timeout, if task.idleTimeout > 0 then Some(task.idleTimeout) else None, None);
      children := children[a := child];
      UpdateAttempt(a, AttemptStatus.Running);
    }

    method HandleQueuedAttempt(seen: Seen, answers: Answers)
      requires seen.a < |attempts| && attempts[seen.a].taskRun < |taskRuns|
      modifies this`attempts, this`children, this`wroteAt
      ensures Memory() == QueuedHandled(old(Memory()), seen, answers)
    {
      var next := DeriveQueuedAttempt(seen);
      match next {
        case Invalid => UpdateAttempt(seen.a, AttemptStatus.Invalid);
        case Skipped => UpdateAttempt(seen.a, AttemptStatus.Skipped);
        case Running => SetToRunning(seen.a, answers.spawns(seen.a));
        case _ =>
      }
    }

    // ---- Running attempts ----

    method KillProcessGroup(a: nat)
      modifies this`attempts
      ensures Tables() == Apply(old(Tables()), Kill(a))
    {
      if a < |attempts| {
        var code := if attempts[a].shell.Exited? then attempts[a].shell.code else -9;
        attempts := attempts[a := attempts[a].(shell := Exited(code, false))];
      }
    }

    method FinishTermination(a: nat, status: AttemptStatus)
      modifies this`attempts
      ensures Tables() == Apply(Apply(old(Tables()), Kill(a)), SettleAttempt(a, status))
    {
      KillProcessGroup(a);
      UpdateAttempt(a, status);
    }

    /** Asks the process to exit and puts it back with what it will settle as; or kills it now. */
    method BeginTermination(a: nat, child: Child, status: AttemptStatus)
      modifies this`attempts, this`children, this`asked
      ensures Memory() == Placed(old(Memory()), a, Terminate(old(Memory()), a, child, status))
    {
      if config.killGrace == 0 {
        FinishTermination(a, status);
        return;
      }
      var termination := Termination(status, now + config.killGrace);
      asked := asked[a := termination];
      children := children[a := child.(terminating := Some(termination))];
    }

    /** Waits for the group to go, but no longer than the grace it was given. */
    method HandleTerminating(a: nat, child: Child, recorded: bool)
      requires child.terminating.Some?
      modifies this`attempts, this`children
      ensures Memory() == Placed(old(Memory()), a, See(old(Memory()), a, Some(child), recorded))
    {
      var pastGrace := now >= child.terminating.value.killAt;
      var shell := ShellOf(Tables(), a);
      if pastGrace || (shell.Exited? && !shell.groupLeft) {
        FinishTermination(a, child.terminating.value.status);
      } else {
        children := children[a := child];
      }
    }

    method HandleHeld(a: nat, child: Child, recorded: bool)
      requires child.terminating.None?
      modifies this`attempts, this`children, this`asked
      ensures Memory() == Placed(old(Memory()), a, See(old(Memory()), a, Some(child), recorded))
      ensures a < |old(attempts)| ==> HeldHandled(old(Memory()), Memory(), a, child, recorded)
    {
      if a < |attempts| { PlacedHeld(Memory(), a, child, recorded); }
      var shell := ShellOf(Tables(), a);
      if shell.Exited? {
        UpdateAttempt(a, if shell.code == 0 && recorded then AttemptStatus.Succeeded else AttemptStatus.Failed);
      } else if now > child.timesOutAt {
        BeginTermination(a, child, AttemptStatus.TimedOut);
      } else if child.idleTimeout.Some? && a in wroteAt && now - wroteAt[a] >= child.idleTimeout.value {
        BeginTermination(a, child, AttemptStatus.TimedOut);
      } else if a < |attempts| && attempts[a].taskRun < |taskRuns| && taskRuns[attempts[a].taskRun].jobRun in stops {
        BeginTermination(a, child, AttemptStatus.Aborted);
      } else {
        children := children[a := child];
      }
    }

    /** If its outcome cannot be derived the process goes back untouched. */
    method HandleRunningAttempt(a: nat, answers: Answers) returns (ok: bool)
      modifies this`attempts, this`children, this`asked
      ensures ok == !Errs(old(Memory()), TaskRunAttemptMonitor, Seen(a, None), answers)
      ensures Memory() == if ok then WatchHandled(old(Memory()), a, answers) else old(Memory())
    {
      if a !in children {
        NothingToTake(children, a);
        UpdateAttempt(a, AttemptStatus.Invalid);
        return true;
      }
      var child := children[a];
      children := children - {a};
      if child.terminating.Some? {
        HandleTerminating(a, child, answers.outputs(a));
      } else if answers.fails(a) {
        children := children[a := child];
        assert children == old(children);
        return false;
      } else {
        HandleHeld(a, child, answers.outputs(a));
      }
      return true;
    }

    // ---- Poller::run ----

    /** Dispatches one row; an error says only that the row is left for the next pass. */
    method Handle(who: Service, row: Seen, answers: Answers) returns (ok: bool)
      requires IsPoller(who) && KeysOk(Tables()) && RowsKnown(Tables(), who, [row])
      modifies this
      ensures ok == !Errs(old(Memory()), who, row, answers)
      ensures Memory() == HandledBy(old(Memory()), who, row, answers)
      ensures answers.fails(row.a) && !who.TaskRunAttemptMonitor? ==> !ok && Memory() == old(Memory())
      ensures answers.fails(row.a) && row.a in old(children) && old(children)[row.a].terminating.None? && who.TaskRunAttemptMonitor?
        ==> !ok && Memory() == old(Memory())
      ensures SameRowsIn(old(Tables()), Tables()) && KeysOk(Tables())
    {
      assert [row][0] == row;
      SameRows(Memory(), who, row, answers);
      if !who.TaskRunAttemptMonitor? && answers.fails(row.a) {
        return false;
      }
      ok := true;
      match who {
        case JobRunReleaser => HandleScheduledJobRun(row.a);
        case JobRunDispatcher => HandleQueuedJobRun(row.a);
        case JobRunMonitor => HandleRunningJobRun(row.a);
        case TaskRunDispatcher => ok := HandleWaitingTaskRun(row.a);
        case TaskRunMonitor => HandleRunningTaskRun(row.a);
        case TaskRunAttemptDispatcher => HandleQueuedAttempt(row, answers);
        case TaskRunAttemptMonitor => ok := HandleRunningAttempt(row.a, answers);
        case _ => assert false;
      }
    }

    /**
      One wake-up of a poller: select once, then every row of that snapshot, stepping over those
      that err. Unless a run is skipped of which a task has run, these are events of the
      protocol, so what holds of its executions holds after it.
     */
    method Run(who: Service, answers: Answers) returns (rows: seq<Seen>, ghost events: seq<Event>)
      requires IsPoller(who) && KeysOk(Tables())
      modifies this
      ensures rows == RowsFor(old(Tables()), who)
      ensures Memory() == AfterPass(old(Memory()), who, rows, answers)
      ensures SkipsInScope(old(Memory()), who, rows) ==>
        Follows(old(Memory()), events, Memory()) && (Good(old(Memory())) ==> Good(Memory()))
      ensures KeysOk(Tables())
    {
      rows := RowsFor(Tables(), who);
      RowsForKnown(Tables(), who);
      NobodyBusy(who);
      events := WakeUpFollows(Memory(), who, answers);
      for i := 0 to |rows|
        invariant Memory() == AfterPass(old(Memory()), who, rows[..i], answers)
        invariant KeysOk(Tables()) && RowsKnown(Tables(), who, rows)
      {
        PassEndsWith(old(Memory()), who, rows, answers, i);
        KnownRow(Tables(), who, rows, i);
        var ok := Handle(who, rows[i], answers);
      }
      assert rows[..|rows|] == rows;
    }

    lemma NothingToTake(children: map<nat, Child>, a: nat)
      requires a !in children
      ensures children - {a} == children
    {}

    lemma NobodyBusy(who: Service)
      ensures AtRest(Memory(), who) && Memory().phase.Serving?
    {}

    // ---- Recovery ----

    method RecoverAttempt(a: nat, mayKill: bool)
      requires a < |attempts| && attempts[a].status.Running?
      modifies this`attempts
      ensures attempts == old(attempts)[a := Recovered(old(attempts)[a], mayKill)]
    {
      if mayKill {
        KillProcessGroup(a);
      }
      UpdateAttempt(a, AttemptStatus.Invalid);
    }

    /**
      What a start does before its first poll. `groupOf` is the recorded process group, `childRuns` the runs an attempt submitted.
      The attempts found Running become Invalid and the runs they submitted are stopped; a group is signalled only if
      it was recorded for one of them that started since the machine booted; no other row of the
      attempts changes.
     */
    method RecoverOrphanedAttempts(groupOf: nat -> Option<int>, bootTime: Option<nat>, childRuns: nat -> set<nat>)
      returns (orphans: seq<nat>, killed: seq<int>)
      modifies this`attempts, this`stops
      ensures orphans == SelectedAttempts(old(Tables()), AttemptStatus.Running)
      ensures |attempts| == |old(attempts)|
      ensures AllRecovered(old(attempts), attempts, groupOf, bootTime)
      ensures forall j :: j in stops <==> j in old(stops) || exists a :: a in orphans && j in childRuns(a)
      ensures SignalledAre(killed, old(attempts), groupOf, bootTime)
    {
      orphans := SelectedAttempts(Tables(), AttemptStatus.Running);
      killed := [];
      for i := 0 to |orphans|
        invariant |attempts| == |old(attempts)|
        invariant forall a :: 0 <= a < |attempts| ==>
          attempts[a] == if a in orphans[..i] then Recovered(old(attempts)[a], MayKill(old(attempts)[a], groupOf(a), bootTime)) else old(attempts)[a]
        invariant forall j :: j in stops <==> j in old(stops) || exists a :: a in orphans[..i] && j in childRuns(a)
        invariant forall group :: group in killed <==> exists a :: a in orphans[..i] && Signalled(old(attempts), a, groupOf(a), bootTime, group)
      {
        var a := orphans[i];
        assert a in orphans && a !in orphans[..i];
        assert orphans[..i + 1] == orphans[..i] + [a];
        assert attempts[a] == old(attempts)[a];
        var mayKill := MayKill(attempts[a], groupOf(a), bootTime);
        if mayKill {
          killed := killed + [groupOf(a).value];
        }
        stops := stops + childRuns(a);
        RecoverAttempt(a, mayKill);
      }
      assert orphans[..|orphans|] == orphans;
      RowsRecovered(old(attempts), attempts, groupOf, bootTime);
      GroupsSignalled(killed, orphans, old(attempts), groupOf, bootTime);
    }
  }

  /** Known to have started when the machine had booted, and not before. */
  ghost predicate StartedSince(row: Attempt, bootTime: Option<nat>) {
    row.startedAt.Some? && bootTime.Some? && bootTime.value <= row.startedAt.value
  }

  /** A Running attempt becomes Invalid, and a killed one has nothing of its group left; no other changes. */
  ghost predicate RecoveredAs(row: Attempt, after: Attempt, killed: bool) {
    if !row.status.Running? then after == row
    else if !killed then after == row.(status := AttemptStatus.Invalid)
    else after == row.(status := AttemptStatus.Invalid, shell := after.shell) && after.shell.Exited? && !after.shell.groupLeft
  }

  ghost predicate AllRecovered(attempts: seq<Attempt>, after: seq<Attempt>, groupOf: nat -> Option<int>, bootTime: Option<nat>) {
    |after| == |attempts| && forall a: nat :: a < |attempts| ==>
      RecoveredAs(attempts[a], after[a], groupOf(a).Some? && StartedSince(attempts[a], bootTime))
  }

  /** Exactly the groups recorded for attempts found Running that started since the last boot. */
  ghost predicate SignalledAre(killed: seq<int>, attempts: seq<Attempt>, groupOf: nat -> Option<int>, bootTime: Option<nat>) {
    forall group :: group in killed <==> exists a: nat :: GroupIs(attempts, a, groupOf(a), bootTime, group)
  }

  ghost predicate GroupIs(attempts: seq<Attempt>, a: nat, recorded: Option<int>, bootTime: Option<nat>, group: int) {
    a < |attempts| && attempts[a].status.Running? && recorded == Some(group) && StartedSince(attempts[a], bootTime)
  }

  lemma RowsRecovered(attempts: seq<Attempt>, after: seq<Attempt>, groupOf: nat -> Option<int>, bootTime: Option<nat>)
    requires |after| == |attempts|
    requires forall a :: 0 <= a < |attempts| ==> after[a] == Recovered(attempts[a], MayKill(attempts[a], groupOf(a), bootTime))
    ensures AllRecovered(attempts, after, groupOf, bootTime)
  {}

  lemma GroupsSignalled(killed: seq<int>, orphans: seq<nat>, attempts: seq<Attempt>, groupOf: nat -> Option<int>, bootTime: Option<nat>)
    requires forall a: nat :: a in orphans <==> a < |attempts| && attempts[a].status.Running?
    requires forall group :: group in killed <==> exists a :: a in orphans && Signalled(attempts, a, groupOf(a), bootTime, group)
    ensures SignalledAre(killed, attempts, groupOf, bootTime)
  {
    forall group ensures group in killed <==> exists a: nat :: GroupIs(attempts, a, groupOf(a), bootTime, group) {
      if group in killed {
        var a :| a in orphans && Signalled(attempts, a, groupOf(a), bootTime, group);
        assert GroupIs(attempts, a, groupOf(a), bootTime, group);
      } else {
        forall a: nat | a < |attempts| && attempts[a].status.Running? ensures !GroupIs(attempts, a, groupOf(a), bootTime, group) {
          assert a in orphans && !Signalled(attempts, a, groupOf(a), bootTime, group);
        }
      }
    }
  }

  /** A group id cannot have been handed out again if its attempt started since the last boot. */
  function MayKill(row: Attempt, group: Option<int>, bootTime: Option<nat>): bool {
    group.Some? && row.startedAt.Some? && bootTime.Some? && row.startedAt.value >= bootTime.value
  }

  predicate Signalled(attempts: seq<Attempt>, a: nat, recorded: Option<int>, bootTime: Option<nat>, group: int) {
    a < |attempts| && MayKill(attempts[a], recorded, bootTime) && recorded == Some(group)
  }

  /** A Running attempt becomes Invalid, its group killed where that is provably safe. */
  function Recovered(row: Attempt, mayKill: bool): Attempt {
    if !row.status.Running? then row
    else if mayKill then AttemptWrite(row, Kill(0)).(status := AttemptStatus.Invalid)
    else row.(status := AttemptStatus.Invalid)
  }
}
