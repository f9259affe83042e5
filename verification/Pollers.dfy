/**
  The seven services as pollers over the shared tables. Each selects the rows in its status,
  then takes them one at a time: it reads and decides, and later writes. Every read and every
  write is an event of its own, so anything may happen between any two of them: another
  service's event, a user's, a command's, an error that abandons the row, or a crash.
 */
module Pollers {
  import opened Options
  import opened Tables
  import opened TableInvariant

  // ---- What one server process holds in memory ----

  datatype Config = Config(maxRunning: nat, limits: map<string, nat>, killGrace: nat)

  datatype Termination = Termination(status: AttemptStatus, killAt: nat)

  datatype Child = Child(timesOutAt: nat, idleTimeout: Option<nat>, terminating: Option<Termination>)

  /** Where a job run poller is with the row it took last. */
  datatype JobAt = Idle | Decided(j: nat, next: JobRunStatus) | SkipHalf(j: nat) | StartHalf(j: nat)

  datatype JobPoller = JobPoller(queue: seq<nat>, at: JobAt) {
    /** The rest of the snapshot, with the row in hand. */
    function Window(): seq<nat> { (if at.Idle? then [] else [at.j]) + queue }
  }

  datatype TaskAt = Idle | Decided(t: nat, next: Option<TaskRunStatus>) | Loading(t: nat) | Stepping(t: nat, step: AttemptStep)

  datatype TaskPoller = TaskPoller(queue: seq<nat>, at: TaskAt) {
    function Window(): seq<nat> { (if at.Idle? then [] else [at.t]) + queue }
  }

  /** A queued attempt as the snapshot saw it. */
  datatype Seen = Seen(a: nat, startedAt: Option<nat>)

  datatype SpawnAt =
    | Idle | Decided(a: nat, next: AttemptStatus)
    | Marked(a: nat) | SpawnFailed(a: nat) | Spawned(a: nat) | Held(a: nat)

  datatype SpawnPoller = SpawnPoller(queue: seq<Seen>, at: SpawnAt) {
    function Window(): seq<nat> {
      (if at.Idle? then [] else [at.a]) + seq(|queue|, i requires 0 <= i < |queue| => queue[i].a)
    }
  }

  datatype WatchAt = Idle | Holding(a: nat, child: Option<Child>) | PutBack(a: nat, back: Child) | Settling(a: nat, next: AttemptStatus)

  datatype WatchPoller = WatchPoller(queue: seq<nat>, at: WatchAt) {
    function Window(): seq<nat> { (if at.Idle? then [] else [at.a]) + queue }
  }

  datatype Phase = Recovering(orphans: seq<nat>) | Serving

  /**
    `children` is the map the two attempt services share. `asked` and `lost` are history:
    the attempts sent SIGTERM, and those whose settling write failed after their process had
    been taken out of the map.
   */
  datatype Server = Server(
    db: Db, now: nat, config: Config, maxParallel: map<string, nat>, phase: Phase,
    releaser: JobPoller, jobDispatcher: JobPoller, jobMonitor: JobPoller,
    taskDispatcher: TaskPoller, taskMonitor: TaskPoller,
    spawner: SpawnPoller, watcher: WatchPoller,
    children: map<nat, Child>, wroteAt: map<nat, nat>,
    asked: map<nat, Termination>, lost: set<nat>)

  datatype Event =
    | Select(who: Service)          // one query: the snapshot of rows in the service's status
    | Decide(who: Service)          // take the next row, read, decide
    | Commit(who: Service)          // the next write of the row in hand
    | Fail(who: Service)            // an error: the row is left for the next snapshot
    | SpawnChild(ok: bool)
    | Look(outputOk: bool)          // TaskRunAttemptMonitor asks after the process it holds
    | World(write: Write)           // users, commands, the operating system
    | Output(a: nat)
    | Tick(later: nat)
    | Crash(restartedWith: Config)
    | RecoverKill
    | RecoverRow
    | StartServing

  // ---- Counting ----

  function Count(n: nat, p: nat -> bool): nat {
    if n == 0 then 0 else Count(n - 1, p) + (if p(n - 1) then 1 else 0)
  }

  /** Ascending ids below `n` that satisfy `p`: what a select returns, sorted by id. */
  function Ids(n: nat, p: nat -> bool): (ids: seq<nat>)
    ensures forall i: nat :: i in ids <==> i < n && p(i)
    ensures forall x, y :: 0 <= x < y < |ids| ==> ids[x] < ids[y]
  {
    if n == 0 then []
    else
      var below := Ids(n - 1, p);
      assert forall x :: 0 <= x < |below| ==> below[x] in below;
      if p(n - 1) then below + [n - 1] else below
  }

  /** Holds a slot: running and not asleep in a wait for another run. */
  function Working(d: Db): nat -> bool {
    (a: nat) => a < |d.attempts| && d.attempts[a].status.Running? && !d.attempts[a].waiting
  }

  function Claiming(d: Db, limit: string): nat -> bool {
    (a: nat) => Working(d)(a) && d.attempts[a].taskRun < |d.taskRuns| && limit in d.taskRuns[d.attempts[a].taskRun].limits
  }

  function RunningOf(d: Db, jobId: string): nat -> bool {
    (j: nat) => j < |d.jobRuns| && d.jobRuns[j].status.Running? && d.jobRuns[j].jobId == jobId
  }

  // ---- Decisions ----

  function ReleaserVerdict(s: Server, j: nat): JobRunStatus {
    if j in s.db.stops then JobRunStatus.Skipped
    else if j < |s.db.jobRuns| && s.db.jobRuns[j].scheduledAt <= s.now then JobRunStatus.Queued
    else JobRunStatus.Scheduled
  }

  predicate AtMaxParallelRuns(s: Server, jobId: string) {
    jobId in s.maxParallel && s.maxParallel[jobId] != 0
      && Count(|s.db.jobRuns|, RunningOf(s.db, jobId)) >= s.maxParallel[jobId]
  }

  function DispatcherVerdict(s: Server, j: nat): JobRunStatus {
    if j in s.db.stops then JobRunStatus.Skipped
    else if j < |s.db.jobRuns| && AtMaxParallelRuns(s, s.db.jobRuns[j].jobId) then JobRunStatus.Queued
    else JobRunStatus.Running
  }

  function MonitorVerdict(s: Server, j: nat): JobRunStatus {
    match JobVerdict(s.db, j)
    case Some(status) => status
    case None => JobRunStatus.Invalid
  }

  predicate ClaimedLimitFull(d: Db, config: Config, a: nat) {
    a < |d.attempts| && d.attempts[a].taskRun < |d.taskRuns|
      && exists limit :: limit in d.taskRuns[d.attempts[a].taskRun].limits && LimitFull(d, config, limit)
  }

  predicate LimitFull(d: Db, config: Config, limit: string) {
    limit in config.limits && config.limits[limit] != 0
      && Count(|d.attempts|, Claiming(d, limit)) >= config.limits[limit]
  }

  predicate InRetryDelay(d: Db, now: nat, a: nat) {
    a < |d.attempts| && d.attempts[a].number > 1 && d.attempts[a].taskRun < |d.taskRuns|
      && now < d.attempts[a].createdAt + d.taskRuns[d.attempts[a].taskRun].retryDelay
  }

  predicate AtGlobalCap(d: Db, config: Config) {
    config.maxRunning > 0 && Count(|d.attempts|, Working(d)) >= config.maxRunning
  }

  predicate ShouldStayQueued(s: Server, a: nat) {
    InRetryDelay(s.db, s.now, a) || AtGlobalCap(s.db, s.config) || ClaimedLimitFull(s.db, s.config, a)
  }

  predicate AttemptStopped(d: Db, a: nat) {
    a < |d.attempts| && d.attempts[a].taskRun < |d.taskRuns| && d.taskRuns[d.attempts[a].taskRun].jobRun in d.stops
  }

  /** Started-ness is read off the snapshot's copy of the row, the rest off the tables. */
  function SpawnVerdict(s: Server, seen: Seen): AttemptStatus {
    if seen.startedAt.Some? then AttemptStatus.Invalid
    else if AttemptStopped(s.db, seen.a) then AttemptStatus.Skipped
    else if ShouldStayQueued(s, seen.a) then AttemptStatus.Queued
    else AttemptStatus.Running
  }

  // ---- TaskRunAttemptMonitor's look at a process ----

  function ShellOf(d: Db, a: nat): Shell {
    if a < |d.attempts| then d.attempts[a].shell else NotSpawned
  }

  predicate IsIdle(s: Server, a: nat, child: Child) {
    child.idleTimeout.Some? && a in s.wroteAt && s.now - s.wroteAt[a] >= child.idleTimeout.value
  }

  datatype Sight = Sight(at: WatchAt, kill: bool, ask: Option<Termination>)

  function Terminate(s: Server, a: nat, child: Child, status: AttemptStatus): Sight {
    if s.config.killGrace == 0 then Sight(Settling(a, status), true, None)
    else
      var termination := Termination(status, s.now + s.config.killGrace);
      Sight(PutBack(a, child.(terminating := Some(termination))), false, Some(termination))
  }

  function See(s: Server, a: nat, held: Option<Child>, outputOk: bool): Sight {
    match held
    case None => Sight(Settling(a, AttemptStatus.Invalid), false, None)
    case Some(child) =>
      var shell := ShellOf(s.db, a);
      if child.terminating.Some? then
        if s.now >= child.terminating.value.killAt || (shell.Exited? && !shell.groupLeft)
        then Sight(Settling(a, child.terminating.value.status), true, None)
        else Sight(PutBack(a, child), false, None)
      else if shell.Exited? then
        Sight(Settling(a, if shell.code == 0 && outputOk then AttemptStatus.Succeeded else AttemptStatus.Failed), false, None)
      else if s.now > child.timesOutAt || IsIdle(s, a, child) then Terminate(s, a, child, AttemptStatus.TimedOut)
      else if AttemptStopped(s.db, a) then Terminate(s, a, child, AttemptStatus.Aborted)
      else Sight(PutBack(a, child), false, None)
  }

  function StartOf(d: Db, a: nat): nat {
    if a < |d.attempts| && d.attempts[a].startedAt.Some? then d.attempts[a].startedAt.value else 0
  }

  function NewChild(d: Db, a: nat): Child {
    if a < |d.attempts| && d.attempts[a].taskRun < |d.taskRuns| && d.attempts[a].startedAt.Some? then
      var task := d.taskRuns[d.attempts[a].taskRun];
      Child(d.attempts[a].startedAt.value + task.timeout,
            if task.idleTimeout > 0 then Some(task.idleTimeout) else None, None)
    else Child(0, None, None)
  }

  // ---- When an event can happen ----

  predicate IsWorldWrite(w: Write) {
    w.Submit? || w.Stop? || w.Delete? || w.Exit? || w.GroupEnds? || w.SetWaiting?
  }

  predicate Between(s: Server, who: Service) {
    match who
    case JobRunReleaser => s.releaser.at.Idle?
    case JobRunDispatcher => s.jobDispatcher.at.Idle?
    case JobRunMonitor => s.jobMonitor.at.Idle?
    case TaskRunDispatcher => s.taskDispatcher.at.Idle?
    case TaskRunMonitor => s.taskMonitor.at.Idle?
    case TaskRunAttemptDispatcher => s.spawner.at.Idle?
    case TaskRunAttemptMonitor => s.watcher.at.Idle?
    case _ => false
  }

  function RowsLeft(s: Server, who: Service): nat {
    match who
    case JobRunReleaser => |s.releaser.queue|
    case JobRunDispatcher => |s.jobDispatcher.queue|
    case JobRunMonitor => |s.jobMonitor.queue|
    case TaskRunDispatcher => |s.taskDispatcher.queue|
    case TaskRunMonitor => |s.taskMonitor.queue|
    case TaskRunAttemptDispatcher => |s.spawner.queue|
    case TaskRunAttemptMonitor => |s.watcher.queue|
    case _ => 0
  }

  predicate IsPoller(who: Service) { !who.Recovery? && !who.Outside? }

  predicate CanCommit(s: Server, who: Service) {
    match who
    case TaskRunMonitor => s.taskMonitor.at.Stepping?
    case TaskRunAttemptDispatcher => !s.spawner.at.Idle? && !s.spawner.at.Marked?
    case TaskRunAttemptMonitor => s.watcher.at.PutBack? || s.watcher.at.Settling?
    case _ => !Between(s, who)
  }

  /** Between the two memory-only steps of a spawn nothing can fail. */
  predicate CanFail(s: Server, who: Service) {
    && !Between(s, who)
    && (who.TaskRunAttemptDispatcher? ==> !s.spawner.at.Marked? && !s.spawner.at.Spawned?)
    && (who.TaskRunAttemptMonitor? && s.watcher.at.Holding? ==> s.watcher.at.child.Some?)
  }

  ghost predicate Can(s: Server, e: Event) {
    match e
    case Select(who) => s.phase.Serving? && IsPoller(who) && Between(s, who) && RowsLeft(s, who) == 0
    case Decide(who) =>
      && s.phase.Serving? && IsPoller(who)
      && ((Between(s, who) && RowsLeft(s, who) > 0) || (who.TaskRunMonitor? && s.taskMonitor.at.Loading?))
    case Commit(who) => s.phase.Serving? && IsPoller(who) && CanCommit(s, who)
    case Fail(who) => s.phase.Serving? && IsPoller(who) && CanFail(s, who)
    case SpawnChild(_) => s.phase.Serving? && s.spawner.at.Marked?
    case Look(_) => s.phase.Serving? && s.watcher.at.Holding?
    case World(w) => IsWorldWrite(w) && Enabled(s.db, w)
    case Output(a) => a < |s.db.attempts| && !s.db.attempts[a].shell.NotSpawned?
    case Tick(later) => s.now <= later
    case Crash(_) => true
    case RecoverKill =>
      s.phase.Recovering? && s.phase.orphans != [] && !ShellOf(s.db, s.phase.orphans[0]).NotSpawned?
    case RecoverRow => s.phase.Recovering? && s.phase.orphans != []
    case StartServing => s.phase.Recovering? && s.phase.orphans == []
  }

  // ---- The write an event makes ----

  function JobWrite(who: Service, at: JobAt): Option<Write> {
    match at
    case Idle => None
    case SkipHalf(j) => Some(SkipJob(j, who))
    case StartHalf(j) => Some(StartJob(j))
    case Decided(j, next) =>
      if who.JobRunMonitor? then (if next.Running? then None else Some(SettleJob(j, next)))
      else if next.Skipped? then Some(SkipTasks(j, who))
      else if who.JobRunReleaser? && next.Queued? then Some(Release(j))
      else if who.JobRunDispatcher? && next.Running? then Some(StartTasks(j))
      else None
  }

  function TaskDispatchWrite(at: TaskAt): Option<Write> {
    match at
    case Decided(t, Some(next)) =>
      if next.Skipped? then Some(SkipTask(t)) else if next.Running? then Some(RunTask(t)) else None
    case Decided(t, None) => Some(SettleTask(t, TaskRunStatus.Invalid, TaskRunDispatcher))
    case _ => None
  }

  function TaskStepWrite(at: TaskAt, now: nat): Option<Write> {
    match at
    case Stepping(t, InsertFirst) => Some(InsertAttempt(t, 1, now))
    case Stepping(t, InsertNext(number)) => Some(InsertAttempt(t, number, now))
    case Stepping(t, Settle(status)) => Some(SettleTask(t, status, TaskRunMonitor))
    case Stepping(t, Undecided) => Some(SettleTask(t, TaskRunStatus.Invalid, TaskRunMonitor))
    case _ => None
  }

  function SpawnWrite(at: SpawnAt, now: nat): Option<Write> {
    match at
    case Decided(a, next) =>
      if next.Running? then Some(MarkStarted(a, now))
      else if next.Skipped? then Some(SkipAttempt(a))
      else if next.Invalid? then Some(InvalidateAttempt(a))
      else None
    case SpawnFailed(a) => Some(ClearStarted(a))
    case Held(a) => Some(SetRunning(a))
    case _ => None
  }

  function WriteOf(s: Server, e: Event): Option<Write> {
    match e
    case Commit(who) => (
      match who
      case JobRunReleaser => JobWrite(who, s.releaser.at)
      case JobRunDispatcher => JobWrite(who, s.jobDispatcher.at)
      case JobRunMonitor => JobWrite(who, s.jobMonitor.at)
      case TaskRunDispatcher => TaskDispatchWrite(s.taskDispatcher.at)
      case TaskRunMonitor => TaskStepWrite(s.taskMonitor.at, s.now)
      case TaskRunAttemptDispatcher => SpawnWrite(s.spawner.at, s.now)
      case TaskRunAttemptMonitor =>
        if s.watcher.at.Settling? then Some(SettleAttempt(s.watcher.at.a, s.watcher.at.next)) else None
      case _ => None)
    case SpawnChild(ok) => if ok && s.spawner.at.Marked? then Some(Spawn(s.spawner.at.a)) else None
    case Look(outputOk) =>
      if s.watcher.at.Holding? && See(s, s.watcher.at.a, s.watcher.at.child, outputOk).kill
      then Some(Kill(s.watcher.at.a)) else None
    case World(w) => Some(w)
    case RecoverKill => if s.phase.Recovering? && s.phase.orphans != [] then Some(Kill(s.phase.orphans[0])) else None
    case RecoverRow => if s.phase.Recovering? && s.phase.orphans != [] then Some(Recover(s.phase.orphans[0])) else None
    case _ => None
  }

  function Written(s: Server, e: Event): Db {
    match WriteOf(s, e)
    case Some(w) => Apply(s.db, w)
    case None => s.db
  }

  // ---- What an event does to the memory of the server ----

  function SelectedJobs(d: Db, want: JobRunStatus): seq<nat> {
    Ids(|d.jobRuns|, (j: nat) => j < |d.jobRuns| && d.jobRuns[j].status == want)
  }

  function SelectedTasks(d: Db, want: TaskRunStatus): seq<nat> {
    Ids(|d.taskRuns|, (t: nat) => t < |d.taskRuns| && d.taskRuns[t].status == want)
  }

  function SelectedAttempts(d: Db, want: AttemptStatus): seq<nat> {
    Ids(|d.attempts|, (a: nat) => a < |d.attempts| && d.attempts[a].status == want)
  }

  function SeenRows(d: Db): seq<Seen> {
    var ids := SelectedAttempts(d, AttemptStatus.Queued);
    seq(|ids|, i requires 0 <= i < |ids| =>
      Seen(ids[i], if ids[i] < |d.attempts| then d.attempts[ids[i]].startedAt else None))
  }

  function JobDone(p: JobPoller, who: Service): JobPoller {
    match p.at
    case Decided(j, next) =>
      if who.JobRunMonitor? then p.(at := JobAt.Idle)
      else if next.Skipped? then p.(at := SkipHalf(j))
      else if who.JobRunDispatcher? && next.Running? then p.(at := StartHalf(j))
      else p.(at := JobAt.Idle)
    case _ => p.(at := JobAt.Idle)
  }

  function SpawnDone(s: Server): Server {
    match s.spawner.at
    case Decided(a, next) =>
      s.(spawner := s.spawner.(at := if next.Running? then Marked(a) else SpawnAt.Idle))
    case Spawned(a) =>
      s.(spawner := s.spawner.(at := Held(a)), children := s.children[a := NewChild(s.db, a)])
    case _ => s.(spawner := s.spawner.(at := SpawnAt.Idle))
  }

  function Decision(s: Server, who: Service): Server
    requires IsPoller(who) && (RowsLeft(s, who) > 0 || (who.TaskRunMonitor? && s.taskMonitor.at.Loading?))
  {
    match who
    case JobRunReleaser =>
      var j := s.releaser.queue[0];
      s.(releaser := JobPoller(s.releaser.queue[1..], JobAt.Decided(j, ReleaserVerdict(s, j))))
    case JobRunDispatcher =>
      var j := s.jobDispatcher.queue[0];
      s.(jobDispatcher := JobPoller(s.jobDispatcher.queue[1..], JobAt.Decided(j, DispatcherVerdict(s, j))))
    case JobRunMonitor =>
      var j := s.jobMonitor.queue[0];
      s.(jobMonitor := JobPoller(s.jobMonitor.queue[1..], JobAt.Decided(j, MonitorVerdict(s, j))))
    case TaskRunDispatcher =>
      var t := s.taskDispatcher.queue[0];
      s.(taskDispatcher := TaskPoller(s.taskDispatcher.queue[1..],
        TaskAt.Decided(t, if t < |s.db.taskRuns| then TaskVerdict(s.db, t) else None)))
    case TaskRunMonitor =>
      var again := s.taskMonitor.at.Loading?;
      var t := if again then s.taskMonitor.at.t else s.taskMonitor.queue[0];
      s.(taskMonitor := TaskPoller(if again then s.taskMonitor.queue else s.taskMonitor.queue[1..],
        Stepping(t, if t < |s.db.taskRuns| then MonitorStep(s.db, t) else Undecided)))
    case TaskRunAttemptDispatcher =>
      var seen := s.spawner.queue[0];
      s.(spawner := SpawnPoller(s.spawner.queue[1..], SpawnAt.Decided(seen.a, SpawnVerdict(s, seen))))
    case TaskRunAttemptMonitor =>
      var a := s.watcher.queue[0];
      s.(watcher := WatchPoller(s.watcher.queue[1..], Holding(a, if a in s.children then Some(s.children[a]) else None)),
         children := s.children - {a})
    case _ => s
  }

  function Selection(s: Server, who: Service): Server {
    match who
    case JobRunReleaser => s.(releaser := s.releaser.(queue := SelectedJobs(s.db, JobRunStatus.Scheduled)))
    case JobRunDispatcher => s.(jobDispatcher := s.jobDispatcher.(queue := SelectedJobs(s.db, JobRunStatus.Queued)))
    case JobRunMonitor => s.(jobMonitor := s.jobMonitor.(queue := SelectedJobs(s.db, JobRunStatus.Running)))
    case TaskRunDispatcher => s.(taskDispatcher := s.taskDispatcher.(queue := SelectedTasks(s.db, TaskRunStatus.Waiting)))
    case TaskRunMonitor => s.(taskMonitor := s.taskMonitor.(queue := SelectedTasks(s.db, TaskRunStatus.Running)))
    case TaskRunAttemptDispatcher => s.(spawner := s.spawner.(queue := SeenRows(s.db)))
    case TaskRunAttemptMonitor => s.(watcher := s.watcher.(queue := SelectedAttempts(s.db, AttemptStatus.Running)))
    case _ => s
  }

  function Committed(s: Server, who: Service): Server {
    match who
    case JobRunReleaser => s.(releaser := JobDone(s.releaser, who))
    case JobRunDispatcher => s.(jobDispatcher := JobDone(s.jobDispatcher, who))
    case JobRunMonitor => s.(jobMonitor := JobDone(s.jobMonitor, who))
    case TaskRunDispatcher => s.(taskDispatcher := s.taskDispatcher.(at := TaskAt.Idle))
    case TaskRunMonitor =>
      // The first attempt is read back before anything is derived from it.
      s.(taskMonitor := s.taskMonitor.(at :=
        if s.taskMonitor.at.Stepping? && s.taskMonitor.at.step.InsertFirst? then Loading(s.taskMonitor.at.t) else TaskAt.Idle))
    case TaskRunAttemptDispatcher => SpawnDone(s)
    case TaskRunAttemptMonitor =>
      if s.watcher.at.PutBack?
      then s.(watcher := s.watcher.(at := WatchAt.Idle), children := s.children[s.watcher.at.a := s.watcher.at.back])
      else s.(watcher := s.watcher.(at := WatchAt.Idle))
    case _ => s
  }

  function Abandoned(s: Server, who: Service): Server {
    match who
    case JobRunReleaser => s.(releaser := s.releaser.(at := JobAt.Idle))
    case JobRunDispatcher => s.(jobDispatcher := s.jobDispatcher.(at := JobAt.Idle))
    case JobRunMonitor => s.(jobMonitor := s.jobMonitor.(at := JobAt.Idle))
    case TaskRunDispatcher => s.(taskDispatcher := s.taskDispatcher.(at := TaskAt.Idle))
    case TaskRunMonitor => s.(taskMonitor := s.taskMonitor.(at := TaskAt.Idle))
    case TaskRunAttemptDispatcher => s.(spawner := s.spawner.(at := SpawnAt.Idle))
    case TaskRunAttemptMonitor =>
      var idle := s.(watcher := s.watcher.(at := WatchAt.Idle));
      (match s.watcher.at
       case Holding(a, Some(child)) => idle.(children := s.children[a := child])
       case PutBack(a, back) => idle.(children := s.children[a := back])
       case Settling(a, _) => idle.(lost := s.lost + {a})
       case _ => idle)
    case _ => s
  }

  function Restarted(s: Server, config: Config): Server {
    s.(config := config, phase := Recovering(SelectedAttempts(s.db, AttemptStatus.Running)),
       releaser := JobPoller([], JobAt.Idle), jobDispatcher := JobPoller([], JobAt.Idle), jobMonitor := JobPoller([], JobAt.Idle),
       taskDispatcher := TaskPoller([], TaskAt.Idle), taskMonitor := TaskPoller([], TaskAt.Idle),
       spawner := SpawnPoller([], SpawnAt.Idle), watcher := WatchPoller([], WatchAt.Idle),
       children := map[], wroteAt := map[], lost := {})
  }

  function Moved(s: Server, e: Event): Server
    requires e.Decide? ==> IsPoller(e.who) && (RowsLeft(s, e.who) > 0 || (e.who.TaskRunMonitor? && s.taskMonitor.at.Loading?))
  {
    match e
    case Select(who) => Selection(s, who)
    case Decide(who) => Decision(s, who)
    case Commit(who) => Committed(s, who)
    case Fail(who) => Abandoned(s, who)
    case SpawnChild(ok) =>
      if s.spawner.at.Marked?
      then
        var a := s.spawner.at.a;
        if ok then s.(spawner := s.spawner.(at := Spawned(a)), wroteAt := s.wroteAt[a := StartOf(s.db, a)])
        else s.(spawner := s.spawner.(at := SpawnFailed(a)))
      else s
    case Look(outputOk) =>
      if s.watcher.at.Holding? then
        var sight := See(s, s.watcher.at.a, s.watcher.at.child, outputOk);
        s.(watcher := s.watcher.(at := sight.at),
           asked := if sight.ask.Some? then s.asked[s.watcher.at.a := sight.ask.value] else s.asked)
      else s
    case World(_) => s
    case Output(a) => s.(wroteAt := s.wroteAt[a := s.now])
    case Tick(later) => s.(now := later)
    case Crash(config) => Restarted(s, config)
    case RecoverKill => s
    case RecoverRow =>
      if s.phase.Recovering? && s.phase.orphans != [] then s.(phase := Recovering(s.phase.orphans[1..])) else s
    case StartServing => s.(phase := Serving)
  }

  function Next(s: Server, e: Event): Server
    requires e.Decide? ==> IsPoller(e.who) && (RowsLeft(s, e.who) > 0 || (e.who.TaskRunMonitor? && s.taskMonitor.at.Loading?))
  {
    Moved(s, e).(db := Written(s, e))
  }
}
