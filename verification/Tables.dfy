/**
  The three tables the orchestrator's services share, and every write any of them makes.

  A table is a sequence and an id is a position in it: rows are only ever appended while a
  run is in flight, and an update names the row by id and nothing else. `Apply` is that
  update, with no look at what the row held before. `Enabled` is what each service relies on
  when it makes the write.
 */
module Tables {
  import opened Options
  import opened TaskGraph

  // ---- Statuses ----

  datatype JobRunStatus =
    | Scheduled | Queued | Running
    | Succeeded | Failed | Skipped | Aborted | TimedOut | Invalid | Deleted
  {
    predicate IsFinished() { !Scheduled? && !Queued? && !Running? }

    /** How many status writes can still follow. */
    function Rank(): nat { if Scheduled? then 3 else if Queued? then 2 else if Running? then 1 else 0 }
  }

  datatype TaskRunStatus =
    | Planned | Waiting | Running
    | Succeeded | Failed | Skipped | Aborted | TimedOut | Invalid
  {
    predicate IsFinished() { !Planned? && !Waiting? && !Running? }

    function Rank(): nat { if Planned? then 3 else if Waiting? then 2 else if Running? then 1 else 0 }

    predicate IsStopped() { Aborted? || Skipped? }

    /** Settled without succeeding. */
    predicate IsBad() { IsFinished() && !Succeeded? }

    /** Has been Running at some time: the statuses only `RunTask` leads to. */
    predicate HasRun() { !Planned? && !Waiting? && !Skipped? }
  }

  datatype AttemptStatus =
    | Queued | Running
    | Succeeded | Failed | Skipped | Aborted | TimedOut | Invalid
  {
    predicate IsFinished() { !Queued? && !Running? }

    function Rank(): nat { if Queued? then 2 else if Running? then 1 else 0 }

    predicate IsStopped() { Aborted? || Skipped? }
  }

  // ---- Rows ----

  /** The `sh` spawned for an attempt, and whether anything of its process group is left. */
  datatype Shell = NotSpawned | Alive | Exited(code: int, groupLeft: bool)

  datatype JobRun = JobRun(jobId: string, scheduledAt: nat, status: JobRunStatus)

  /**
    `dependsOn` holds the task runs of the dependencies, where the column names their tasks.
    `rank` is no column: it is the task's place in a topological order of its job, which the
    job's validation promised.
   */
  datatype TaskRun = TaskRun(
    jobRun: nat, taskId: TaskId, dependsOn: seq<nat>, rank: nat, limits: seq<string>,
    timeout: nat, idleTimeout: nat, maxRetries: nat, retryDelay: nat, status: TaskRunStatus)

  /**
    `shell` and `spawns` describe the operating system rather than the row, and `everWaited`
    remembers that `waiting` was once set.
   */
  datatype Attempt = Attempt(
    taskRun: nat, number: nat, createdAt: nat, startedAt: Option<nat>, status: AttemptStatus,
    waiting: bool, everWaited: bool, shell: Shell, spawns: nat)

  datatype Db = Db(
    jobRuns: seq<JobRun>, taskRuns: seq<TaskRun>, attempts: seq<Attempt>, stops: set<nat>)

  const EMPTY := Db([], [], [], {})

  // ---- Reads ----

  predicate InJob(d: Db, t: nat, j: nat) {
    t < |d.taskRuns| && d.taskRuns[t].jobRun == j
  }

  predicate OfTask(attempts: seq<Attempt>, a: nat, t: nat) {
    a < |attempts| && attempts[a].taskRun == t
  }

  /** The newest of the first `n` attempts that belongs to the task run. */
  function LastBefore(attempts: seq<Attempt>, n: nat, t: nat): (last: Option<nat>)
    requires n <= |attempts|
    ensures last.None? ==> forall a :: 0 <= a < n ==> !OfTask(attempts, a, t)
    ensures last.Some? ==> last.value < n && OfTask(attempts, last.value, t)
    ensures last.Some? ==> forall a :: last.value < a < n ==> !OfTask(attempts, a, t)
  {
    if n == 0 then None
    else if attempts[n - 1].taskRun == t then Some(n - 1)
    else LastBefore(attempts, n - 1, t)
  }

  function Last(d: Db, t: nat): Option<nat> {
    LastBefore(d.attempts, |d.attempts|, t)
  }

  function NumberAfter(attempts: seq<Attempt>, n: nat, t: nat): nat
    requires n <= |attempts|
  {
    match LastBefore(attempts, n, t)
    case None => 1
    case Some(a) => attempts[a].number + 1
  }

  // ---- What the services derive ----

  predicate SomeTask(d: Db, j: nat, p: TaskRunStatus -> bool) {
    exists t :: 0 <= t < |d.taskRuns| && InJob(d, t, j) && p(d.taskRuns[t].status)
  }

  predicate AllTasks(d: Db, j: nat, p: TaskRunStatus -> bool) {
    forall t :: 0 <= t < |d.taskRuns| && InJob(d, t, j) ==> p(d.taskRuns[t].status)
  }

  /** What JobRunMonitor settles a run as; None is the arm it reports as a bug. */
  function JobVerdict(d: Db, j: nat): Option<JobRunStatus> {
    if !AllTasks(d, j, (s: TaskRunStatus) => s.IsFinished()) then Some(JobRunStatus.Running)
    else if SomeTask(d, j, (s: TaskRunStatus) => s.Invalid?) then Some(JobRunStatus.Invalid)
    else if AllTasks(d, j, (s: TaskRunStatus) => s.Succeeded?) then Some(JobRunStatus.Succeeded)
    else if SomeTask(d, j, (s: TaskRunStatus) => s.Failed?) then Some(JobRunStatus.Failed)
    else if SomeTask(d, j, (s: TaskRunStatus) => s.TimedOut?) then Some(JobRunStatus.TimedOut)
    else if SomeTask(d, j, (s: TaskRunStatus) => s.IsStopped()) then Some(JobRunStatus.Aborted)
    else None
  }

  predicate SomeDependency(d: Db, t: nat, p: TaskRunStatus -> bool)
    requires t < |d.taskRuns|
  {
    exists k :: 0 <= k < |d.taskRuns[t].dependsOn| && d.taskRuns[t].dependsOn[k] < |d.taskRuns|
      && p(d.taskRuns[d.taskRuns[t].dependsOn[k]].status)
  }

  predicate AllDependencies(d: Db, t: nat, p: TaskRunStatus -> bool)
    requires t < |d.taskRuns|
  {
    forall k :: 0 <= k < |d.taskRuns[t].dependsOn| && d.taskRuns[t].dependsOn[k] < |d.taskRuns|
      ==> p(d.taskRuns[d.taskRuns[t].dependsOn[k]].status)
  }

  /** What TaskRunDispatcher makes of a waiting task run. */
  function TaskVerdict(d: Db, t: nat): Option<TaskRunStatus>
    requires t < |d.taskRuns|
  {
    if d.taskRuns[t].jobRun in d.stops || SomeDependency(d, t, (s: TaskRunStatus) => s.IsBad())
    then Some(TaskRunStatus.Skipped)
    else if SomeDependency(d, t, (s: TaskRunStatus) => !s.IsFinished())
    then Some(TaskRunStatus.Waiting)
    else if AllDependencies(d, t, (s: TaskRunStatus) => s.Succeeded?)
    then Some(TaskRunStatus.Running)
    else None
  }

  datatype AttemptStep = InsertFirst | InsertNext(number: nat) | Settle(status: TaskRunStatus) | Leave | Undecided

  /** What TaskRunMonitor makes of a task run by the newest of its attempts. */
  function FromAttempt(t: TaskRun, a: Attempt): AttemptStep {
    if a.status.Invalid? then Settle(TaskRunStatus.Invalid)
    else if a.status.Succeeded? then Settle(TaskRunStatus.Succeeded)
    else if !a.status.IsFinished() then Leave
    else if a.status.Failed? then
      if a.number < t.maxRetries + 1 then InsertNext(a.number + 1) else Settle(TaskRunStatus.Failed)
    else if a.status.TimedOut? then Settle(TaskRunStatus.TimedOut)
    else if a.status.IsStopped() then Settle(TaskRunStatus.Aborted)
    else Undecided
  }

  function MonitorStep(d: Db, t: nat): AttemptStep
    requires t < |d.taskRuns|
  {
    match Last(d, t)
    case None => InsertFirst
    case Some(a) => FromAttempt(d.taskRuns[t], d.attempts[a])
  }

  // ---- Writes ----

  datatype Service =
    | JobRunReleaser | JobRunDispatcher | JobRunMonitor
    | TaskRunDispatcher | TaskRunMonitor
    | TaskRunAttemptDispatcher | TaskRunAttemptMonitor
    | Recovery | Outside

  datatype Write =
    // JobRunReleaser
    | Release(j: nat)
    // JobRunReleaser and JobRunDispatcher
    | SkipTasks(j: nat, writer: Service)
    | SkipJob(j: nat, writer: Service)
    // JobRunDispatcher
    | StartTasks(j: nat)
    | StartJob(j: nat)
    // JobRunMonitor
    | SettleJob(j: nat, jobStatus: JobRunStatus)
    // TaskRunDispatcher
    | SkipTask(t: nat)
    | RunTask(t: nat)
    // TaskRunMonitor
    | InsertAttempt(t: nat, number: nat, now: nat)
    | SettleTask(t: nat, taskStatus: TaskRunStatus, writer: Service)
    // TaskRunAttemptDispatcher
    | MarkStarted(a: nat, now: nat)
    | Spawn(a: nat)
    | ClearStarted(a: nat)
    | SetRunning(a: nat)
    | SkipAttempt(a: nat)
    | InvalidateAttempt(a: nat)
    // TaskRunAttemptMonitor
    | SettleAttempt(a: nat, attemptStatus: AttemptStatus)
    // TaskRunAttemptMonitor and recovery
    | Kill(a: nat)
    // Recovery
    | Recover(a: nat)
    // Users, the commands themselves and the operating system
    | Submit(jobId: string, scheduledAt: nat, tasks: seq<TaskYaml>, order: seq<TaskId>)
    | Stop(j: nat)
    | Delete(j: nat)
    | Exit(a: nat, code: int, groupLeft: bool)
    | GroupEnds(a: nat)
    | SetWaiting(a: nat, waiting: bool)

  function WriterOf(w: Write): Service {
    match w
    case Release(_) => JobRunReleaser
    case SkipTasks(_, writer) => writer
    case SkipJob(_, writer) => writer
    case StartTasks(_) | StartJob(_) => JobRunDispatcher
    case SettleJob(_, _) => JobRunMonitor
    case SkipTask(_) | RunTask(_) => TaskRunDispatcher
    case SettleTask(_, _, writer) => writer
    case InsertAttempt(_, _, _) => TaskRunMonitor
    case MarkStarted(_, _) | Spawn(_) | ClearStarted(_) | SetRunning(_)
       | SkipAttempt(_) | InvalidateAttempt(_) => TaskRunAttemptDispatcher
    case SettleAttempt(_, _) => TaskRunAttemptMonitor
    case Recover(_) => Recovery
    case _ => Outside
  }

  function WithJob(d: Db, j: nat, status: JobRunStatus): Db {
    if j < |d.jobRuns| then d.(jobRuns := d.jobRuns[j := d.jobRuns[j].(status := status)]) else d
  }

  function WithTask(d: Db, t: nat, status: TaskRunStatus): Db {
    if t < |d.taskRuns| then d.(taskRuns := d.taskRuns[t := d.taskRuns[t].(status := status)]) else d
  }

  function WithAttempt(d: Db, a: nat, row: Attempt): Db {
    if a < |d.attempts| then d.(attempts := d.attempts[a := row]) else d
  }

  /** Sets the status of every task run of the job run that `which` picks. */
  function WithTasks(d: Db, j: nat, which: TaskRunStatus -> bool, status: TaskRunStatus): Db {
    d.(taskRuns := seq(|d.taskRuns|, t requires 0 <= t < |d.taskRuns| =>
      if d.taskRuns[t].jobRun == j && which(d.taskRuns[t].status)
      then d.taskRuns[t].(status := status)
      else d.taskRuns[t]))
  }

  /** The position of an id in a list that holds it. */
  function PositionIn(order: seq<TaskId>, id: TaskId): (k: nat)
    requires id in order
    ensures k < |order| && order[k] == id && id !in order[..k]
  {
    if order[0] == id then 0 else 1 + PositionIn(order[1..], id)
  }

  function PositionOf(tasks: seq<TaskYaml>, id: TaskId): (k: nat)
    ensures (exists i :: 0 <= i < |tasks| && tasks[i].id == id) ==> k < |tasks| && tasks[k].id == id
  {
    if tasks == [] || tasks[0].id == id then 0 else 1 + PositionOf(tasks[1..], id)
  }

  function PlannedRow(j: nat, base: nat, task: TaskYaml, tasks: seq<TaskYaml>, order: seq<TaskId>): TaskRun {
    TaskRun(
      j, task.id,
      seq(|task.dependsOn|, k requires 0 <= k < |task.dependsOn| => base + PositionOf(tasks, task.dependsOn[k])),
      if task.id in order then PositionIn(order, task.id) else 0,
      task.limits, task.timeout, task.idleTimeout, task.maxRetries, task.retryDelay, TaskRunStatus.Planned)
  }

  function Submitted(d: Db, jobId: string, scheduledAt: nat, tasks: seq<TaskYaml>, order: seq<TaskId>): Db {
    var j, base := |d.jobRuns|, |d.taskRuns|;
    d.(jobRuns := d.jobRuns + [JobRun(jobId, scheduledAt, JobRunStatus.Scheduled)],
       taskRuns := d.taskRuns + seq(|tasks|, i requires 0 <= i < |tasks| => PlannedRow(j, base, tasks[i], tasks, order)))
  }

  function NewAttempt(t: nat, number: nat, now: nat): Attempt {
    Attempt(t, number, now, None, AttemptStatus.Queued, false, false, NotSpawned, 0)
  }

  /** The write itself: rows are named by id, and nothing about them is checked. */
  function Apply(d: Db, w: Write): Db {
    match w
    case Release(j) => WithJob(d, j, JobRunStatus.Queued)
    case SkipTasks(j, _) => WithTasks(d, j, s => true, TaskRunStatus.Skipped)
    case SkipJob(j, _) => WithJob(d, j, JobRunStatus.Skipped)
    case StartTasks(j) => WithTasks(d, j, (s: TaskRunStatus) => s.Planned?, TaskRunStatus.Waiting)
    case StartJob(j) => WithJob(d, j, JobRunStatus.Running)
    case SettleJob(j, status) => WithJob(d, j, status)
    case SkipTask(t) => WithTask(d, t, TaskRunStatus.Skipped)
    case RunTask(t) => WithTask(d, t, TaskRunStatus.Running)
    case InsertAttempt(t, number, now) => d.(attempts := d.attempts + [NewAttempt(t, number, now)])
    case SettleTask(t, status, _) => WithTask(d, t, status)
    case Submit(jobId, scheduledAt, tasks, order) => Submitted(d, jobId, scheduledAt, tasks, order)
    case Stop(j) => d.(stops := d.stops + {j})
    case Delete(j) => WithJob(WithTasks(d, j, s => true, TaskRunStatus.Skipped), j, JobRunStatus.Deleted)
    case _ => if w.a < |d.attempts| then WithAttempt(d, w.a, AttemptWrite(d.attempts[w.a], w)) else d
  }

  function AttemptWrite(row: Attempt, w: Write): Attempt {
    match w
    case MarkStarted(_, now) => row.(startedAt := Some(now))
    case Spawn(_) => row.(shell := Alive, spawns := row.spawns + 1)
    case ClearStarted(_) => row.(startedAt := None)
    case SetRunning(_) => row.(status := AttemptStatus.Running)
    case SkipAttempt(_) => row.(status := AttemptStatus.Skipped)
    case InvalidateAttempt(_) => row.(status := AttemptStatus.Invalid)
    case SettleAttempt(_, status) => row.(status := status)
    case Kill(_) => row.(shell := Exited(if row.shell.Exited? then row.shell.code else -9, false))
    case Recover(_) => row.(status := AttemptStatus.Invalid)
    case Exit(_, code, groupLeft) => row.(shell := Exited(code, groupLeft))
    case GroupEnds(_) => row.(shell := Exited(if row.shell.Exited? then row.shell.code else 0, false))
    case SetWaiting(_, waiting) => row.(waiting := waiting, everWaited := row.everWaited || waiting)
    case _ => row
  }

  // ---- What a write relies on ----

  predicate Held(d: Db, j: nat, writer: Service) {
    && j < |d.jobRuns| && j in d.stops
    && (writer.JobRunReleaser? || writer.JobRunDispatcher?)
    && (writer.JobRunReleaser? ==> d.jobRuns[j].status.Scheduled?)
    && (writer.JobRunDispatcher? ==> d.jobRuns[j].status.Queued?)
  }

  /** No task run of the job run has been handed to TaskRunDispatcher yet. */
  predicate NoneReleased(d: Db, j: nat) {
    AllTasks(d, j, (s: TaskRunStatus) => s.Planned? || s.Skipped?)
  }

  /** No task run of the job run has ever been Running. */
  predicate NeverRan(d: Db, j: nat) {
    AllTasks(d, j, (s: TaskRunStatus) => !s.HasRun())
  }

  predicate IsQueuedAttempt(d: Db, a: nat) {
    a < |d.attempts| && d.attempts[a].status.Queued?
  }

  ghost predicate Enabled(d: Db, w: Write) {
    match w
    case Release(j) => j < |d.jobRuns| && d.jobRuns[j].status.Scheduled?
    case SkipTasks(j, writer) => Held(d, j, writer) && NeverRan(d, j)
    case SkipJob(j, writer) => Held(d, j, writer) && AllTasks(d, j, (s: TaskRunStatus) => s.Skipped?)
    case StartTasks(j) => j < |d.jobRuns| && d.jobRuns[j].status.Queued?
    case StartJob(j) =>
      j < |d.jobRuns| && d.jobRuns[j].status.Queued? && AllTasks(d, j, (s: TaskRunStatus) => !s.Planned?)
    case SettleJob(j, status) =>
      && j < |d.jobRuns| && d.jobRuns[j].status.Running?
      && JobVerdict(d, j) == Some(status) && !status.Running?
    case SkipTask(t) =>
      && t < |d.taskRuns| && d.taskRuns[t].status.Waiting?
      && TaskVerdict(d, t) == Some(TaskRunStatus.Skipped)
    case RunTask(t) =>
      && t < |d.taskRuns| && d.taskRuns[t].status.Waiting?
      && AllDependencies(d, t, (s: TaskRunStatus) => s.Succeeded?)
    case InsertAttempt(t, number, _) =>
      && t < |d.taskRuns| && d.taskRuns[t].status.Running?
      && (MonitorStep(d, t) == InsertNext(number) || (MonitorStep(d, t) == InsertFirst && number == 1))
    case SettleTask(t, status, writer) =>
      && t < |d.taskRuns| && d.taskRuns[t].status.Running? && writer.TaskRunMonitor?
      && MonitorStep(d, t) == Settle(status)
    case MarkStarted(a, _) => IsQueuedAttempt(d, a) && d.attempts[a].startedAt.None?
    case Spawn(a) => IsQueuedAttempt(d, a) && d.attempts[a].startedAt.Some? && d.attempts[a].shell.NotSpawned?
    case ClearStarted(a) => IsQueuedAttempt(d, a) && d.attempts[a].shell.NotSpawned?
    case SetRunning(a) =>
      IsQueuedAttempt(d, a) && d.attempts[a].startedAt.Some? && !d.attempts[a].shell.NotSpawned?
    case SkipAttempt(a) =>
      && IsQueuedAttempt(d, a) && d.attempts[a].startedAt.None?
      && d.attempts[a].taskRun < |d.taskRuns| && d.taskRuns[d.attempts[a].taskRun].jobRun in d.stops
    case InvalidateAttempt(a) => IsQueuedAttempt(d, a) && d.attempts[a].startedAt.Some?
    case SettleAttempt(a, status) =>
      && a < |d.attempts| && d.attempts[a].status.Running?
      && status.IsFinished() && !status.Skipped?
      && (status.Succeeded? || status.Failed? ==> d.attempts[a].shell.Exited?)
      && (status.Succeeded? ==> d.attempts[a].shell.code == 0)
      && (status.Aborted? ==>
            d.attempts[a].taskRun < |d.taskRuns| && d.taskRuns[d.attempts[a].taskRun].jobRun in d.stops)
    case Kill(a) => a < |d.attempts| && !d.attempts[a].shell.NotSpawned?
    case Recover(a) => a < |d.attempts| && d.attempts[a].status.Running?
    case Submit(_, _, tasks, order) =>
      DistinctIds(tasks) && DependenciesDeclared(tasks) && TopologicalOrder(tasks, order)
    case Stop(j) => j < |d.jobRuns|
    case Delete(j) => j < |d.jobRuns| && d.jobRuns[j].status.Scheduled?
    case Exit(a, _, _) => a < |d.attempts| && d.attempts[a].shell.Alive?
    case GroupEnds(a) => a < |d.attempts| && d.attempts[a].shell.Exited?
    case SetWaiting(a, _) => a < |d.attempts| && d.attempts[a].status.Running?
  }
}
