/**
  What the memory of the server and the tables have to do with each other at every moment:
  the snapshots are still true, and every decision not yet written is still the right one.
 */
module PollerInvariant {
  import opened Options
  import opened Tables
  import opened TableInvariant
  import opened RunFacts
  import opened Pollers

  // ---- Counting ----

  lemma {:induction false} CountMonotone(n: nat, m: nat, p: nat -> bool, q: nat -> bool)
    requires n <= m
    requires forall i :: 0 <= i < m && p(i) ==> i < n && q(i)
    ensures Count(m, p) <= Count(n, q)
    decreases m
  {
    if m > n {
      CountMonotone(n, m - 1, p, q);
    } else if m > 0 {
      CountBelow(m, p, q);
    }
  }

  lemma {:induction false} CountBelow(n: nat, p: nat -> bool, q: nat -> bool)
    requires forall i :: 0 <= i < n && p(i) ==> q(i)
    ensures Count(n, p) <= Count(n, q)
  {
    if n > 0 {
      CountBelow(n - 1, p, q);
    }
  }

  lemma {:induction false} CountOneMore(n: nat, p: nat -> bool, q: nat -> bool, k: nat)
    requires forall i :: 0 <= i < n && p(i) && i != k ==> q(i)
    ensures Count(n, p) <= Count(n, q) + 1
  {
    if n > 0 {
      if n - 1 == k {
        CountBelow(n - 1, p, q);
      } else {
        CountOneMore(n - 1, p, q, k);
      }
    }
  }

  lemma {:induction false} CountNone(n: nat, p: nat -> bool)
    requires forall i :: 0 <= i < n ==> !p(i)
    ensures Count(n, p) == 0
  {
    if n > 0 {
      CountNone(n - 1, p);
    }
  }

  lemma {:induction false} CountIsSize(n: nat, p: nat -> bool)
    ensures Count(n, p) == |set k: nat | k < n && p(k)|
  {
    var ids := set k: nat | k < n && p(k);
    if n > 0 {
      CountIsSize(n - 1, p);
      var before := set k: nat | k < n - 1 && p(k);
      assert ids == if p(n - 1) then before + {n - 1} else before;
    }
  }

  // ---- Slots ----

  ghost function RunningRuns(d: Db, jobId: string): set<nat> {
    set j: nat | j < |d.jobRuns| && d.jobRuns[j].status.Running? && d.jobRuns[j].jobId == jobId
  }

  /** Running attempts that have never been marked waiting. */
  function NeverWaited(d: Db): nat -> bool {
    (a: nat) => a < |d.attempts| && d.attempts[a].status.Running? && !d.attempts[a].everWaited
  }

  predicate Claims(d: Db, a: nat, limit: string) {
    a < |d.attempts| && d.attempts[a].taskRun < |d.taskRuns| && limit in d.taskRuns[d.attempts[a].taskRun].limits
  }

  function NeverWaitedClaiming(d: Db, limit: string): nat -> bool {
    (a: nat) => NeverWaited(d)(a) && Claims(d, a, limit)
  }

  predicate HasMax(config: Config, limit: string) {
    limit in config.limits && config.limits[limit] != 0
  }

  ghost predicate FreeSlots(d: Db, config: Config, a: nat) {
    && (config.maxRunning > 0 ==> Count(|d.attempts|, NeverWaited(d)) < config.maxRunning)
    && forall limit :: HasMax(config, limit) && Claims(d, a, limit)
         ==> Count(|d.attempts|, NeverWaitedClaiming(d, limit)) < config.limits[limit]
  }

  ghost predicate WithinCaps(d: Db, config: Config) {
    && (config.maxRunning > 0 ==> Count(|d.attempts|, NeverWaited(d)) <= config.maxRunning)
    && forall limit :: HasMax(config, limit)
         ==> Count(|d.attempts|, NeverWaitedClaiming(d, limit)) <= config.limits[limit]
  }

  predicate HasMaxParallel(maxParallel: map<string, nat>, jobId: string) {
    jobId in maxParallel && maxParallel[jobId] != 0
  }

  ghost predicate FreeRun(d: Db, maxParallel: map<string, nat>, j: nat) {
    && j < |d.jobRuns|
    && var jobId := d.jobRuns[j].jobId;
       HasMaxParallel(maxParallel, jobId) ==> Count(|d.jobRuns|, RunningOf(d, jobId)) < maxParallel[jobId]
  }

  ghost predicate WithinParallel(d: Db, maxParallel: map<string, nat>) {
    forall jobId :: HasMaxParallel(maxParallel, jobId)
      ==> Count(|d.jobRuns|, RunningOf(d, jobId)) <= maxParallel[jobId]
  }

  // ---- The pollers ----

  predicate Distinct(ids: seq<nat>) {
    forall x, y :: 0 <= x < y < |ids| ==> ids[x] != ids[y]
  }

  /** Each row of the snapshot, and the one in hand, is still in the status selected. */
  ghost predicate JobsIn(d: Db, ids: seq<nat>, want: JobRunStatus) {
    Distinct(ids) && forall j :: j in ids ==> j < |d.jobRuns| && d.jobRuns[j].status == want
  }

  ghost predicate TasksIn(d: Db, ids: seq<nat>, want: TaskRunStatus) {
    Distinct(ids) && forall t :: t in ids ==> t < |d.taskRuns| && d.taskRuns[t].status == want
  }

  ghost predicate AttemptsIn(d: Db, ids: seq<nat>, want: AttemptStatus) {
    Distinct(ids) && forall a :: a in ids ==> a < |d.attempts| && d.attempts[a].status == want
  }

  ghost predicate HalfSkipped(d: Db, j: nat) {
    j in d.stops && AllTasks(d, j, (s: TaskRunStatus) => s.Skipped?)
  }

  ghost predicate ReleaserOk(d: Db, p: JobPoller) {
    && JobsIn(d, p.Window(), JobRunStatus.Scheduled)
    && match p.at
       case Idle => true
       case Decided(j, next) => (next.Skipped? ==> j in d.stops) && (next.Skipped? || next.Queued? || next.Scheduled?)
       case SkipHalf(j) => HalfSkipped(d, j)
       case StartHalf(_) => false
  }

  ghost predicate DispatcherOk(d: Db, maxParallel: map<string, nat>, p: JobPoller) {
    && JobsIn(d, p.Window(), JobRunStatus.Queued)
    && match p.at
       case Idle => true
       case Decided(j, next) =>
         && (next.Skipped? ==> j in d.stops) && (next.Running? ==> FreeRun(d, maxParallel, j))
         && (next.Skipped? || next.Queued? || next.Running?)
       case SkipHalf(j) => HalfSkipped(d, j)
       case StartHalf(j) => FreeRun(d, maxParallel, j) && AllTasks(d, j, (s: TaskRunStatus) => !s.Planned?)
  }

  ghost predicate MonitorOk(d: Db, p: JobPoller) {
    && JobsIn(d, p.Window(), JobRunStatus.Running)
    && match p.at
       case Idle => true
       case Decided(j, next) => next.Running? || JobVerdict(d, j) == Some(next)
       case _ => false
  }

  ghost predicate TaskDispatcherOk(d: Db, p: TaskPoller) {
    && TasksIn(d, p.Window(), TaskRunStatus.Waiting)
    && match p.at
       case Idle => true
       case Decided(t, next) =>
         t < |d.taskRuns| && next.Some? && (match next.value
           case Waiting => true
           case Skipped => TaskVerdict(d, t) == Some(TaskRunStatus.Skipped)
           case Running => AllDependencies(d, t, (s: TaskRunStatus) => s.Succeeded?)
           case _ => false)
       case _ => false
  }

  ghost predicate TaskMonitorOk(d: Db, p: TaskPoller) {
    && TasksIn(d, p.Window(), TaskRunStatus.Running)
    && match p.at
       case Stepping(t, step) => t < |d.taskRuns| && !step.Undecided? && (step.Leave? || MonitorStep(d, t) == step)
       case Decided(_, _) => false
       case _ => true
  }

  ghost predicate SpawnerOk(d: Db, config: Config, p: SpawnPoller) {
    && AttemptsIn(d, p.Window(), AttemptStatus.Queued)
    && (forall i :: 0 <= i < |p.queue| ==> p.queue[i].a < |d.attempts| && d.attempts[p.queue[i].a].startedAt == p.queue[i].startedAt)
    && (p.at.Idle? || p.at.a < |d.attempts|)
    && match p.at
       case Idle => true
       case Decided(a, next) =>
         (match next
          case Invalid => d.attempts[a].startedAt.Some?
          case Skipped => d.attempts[a].startedAt.None? && AttemptStopped(d, a)
          case Running => d.attempts[a].startedAt.None? && FreeSlots(d, config, a)
          case Queued => true
          case _ => false)
       case Marked(a) => d.attempts[a].startedAt.Some? && d.attempts[a].shell.NotSpawned? && FreeSlots(d, config, a)
       case SpawnFailed(a) => d.attempts[a].shell.NotSpawned?
       case _ => d.attempts[p.at.a].startedAt.Some? && !d.attempts[p.at.a].shell.NotSpawned? && FreeSlots(d, config, p.at.a)
  }

  // ---- The child map ----

  /** What a child was sent SIGTERM for is a timeout, or a stop of its run. */
  ghost predicate ChildOk(d: Db, a: nat, child: Child) {
    child.terminating.Some? ==>
      || child.terminating.value.status.TimedOut?
      || (child.terminating.value.status.Aborted? && AttemptStopped(d, a))
  }

  ghost predicate WatcherOk(d: Db, lost: set<nat>, p: WatchPoller) {
    AttemptsIn(d, p.Window(), AttemptStatus.Running) && WatchAtOk(d, lost, p.at)
  }

  ghost predicate WatchAtOk(d: Db, lost: set<nat>, at: WatchAt) {
    match at
    case Idle => true
    case Holding(a, held) => if held.Some? then ChildOk(d, a, held.value) else a in lost
    case PutBack(a, back) => ChildOk(d, a, back)
    case Settling(a, next) =>
      && a < |d.attempts|
      && match next
         case Succeeded => d.attempts[a].shell.Exited? && d.attempts[a].shell.code == 0
         case Failed => d.attempts[a].shell.Exited?
         case Aborted => AttemptStopped(d, a)
         case TimedOut => true
         case Invalid => a in lost
         case _ => false
  }

  /** The attempt whose process the monitor has taken out of the map. */
  function InHand(p: WatchPoller): set<nat> {
    match p.at
    case Holding(a, Some(_)) => {a}
    case PutBack(a, _) => {a}
    case Settling(a, _) => {a}
    case _ => {}
  }

  ghost predicate ChildrenOk(d: Db, children: map<nat, Child>, p: WatchPoller, lost: set<nat>, spawner: SpawnPoller) {
    && (forall a :: a in children ==> ChildOk(d, a, children[a]))
    && (forall a :: 0 <= a < |d.attempts| && d.attempts[a].status.Running? ==>
          a in children || a in InHand(p) || a in lost)
    && (spawner.at.Held? ==> spawner.at.a in children)
    && (!p.at.Idle? ==> p.at.a !in children)
  }

  /** SIGTERM once sent, the status decided then is the only one the attempt can settle as. */
  ghost predicate AskedOk(s: Server) {
    forall a :: a in s.asked ==>
      && a < |s.db.attempts| && !s.db.attempts[a].status.Queued?
      && (s.db.attempts[a].status.IsFinished() ==>
            s.db.attempts[a].status == s.asked[a].status || s.db.attempts[a].status.Invalid?)
      && (s.db.attempts[a].status.Running? && s.phase.Serving? ==> AskedChildOk(s, a))
  }

  ghost predicate AskedChildOk(s: Server, a: nat)
    requires a in s.asked
  {
    && (a in s.children ==> s.children[a].terminating == Some(s.asked[a]))
    && match s.watcher.at
       case Holding(b, held) => b == a && held.Some? ==> held.value.terminating == Some(s.asked[a])
       case PutBack(b, back) => b == a ==> back.terminating == Some(s.asked[a])
       case Settling(b, next) => b == a ==> next == s.asked[a].status || next.Invalid?
       case Idle => true
  }

  // ---- The phases ----

  predicate AllIdle(s: Server) {
    && s.releaser == JobPoller([], JobAt.Idle) && s.jobDispatcher == JobPoller([], JobAt.Idle)
    && s.jobMonitor == JobPoller([], JobAt.Idle)
    && s.taskDispatcher == TaskPoller([], TaskAt.Idle) && s.taskMonitor == TaskPoller([], TaskAt.Idle)
    && s.spawner == SpawnPoller([], SpawnAt.Idle) && s.watcher == WatchPoller([], WatchAt.Idle)
    && s.children == map[]
  }

  ghost predicate PhaseOk(s: Server) {
    match s.phase
    case Recovering(orphans) =>
      && AllIdle(s) && AttemptsIn(s.db, orphans, AttemptStatus.Running)
      && forall a :: 0 <= a < |s.db.attempts| && s.db.attempts[a].status.Running? ==> a in orphans
    case Serving =>
      && WithinCaps(s.db, s.config)
      && ChildrenOk(s.db, s.children, s.watcher, s.lost, s.spawner)
  }

  ghost predicate Good(s: Server) {
    && Inv(s.db)
    && ReleaserOk(s.db, s.releaser)
    && DispatcherOk(s.db, s.maxParallel, s.jobDispatcher)
    && MonitorOk(s.db, s.jobMonitor)
    && TaskDispatcherOk(s.db, s.taskDispatcher)
    && TaskMonitorOk(s.db, s.taskMonitor)
    && SpawnerOk(s.db, s.config, s.spawner)
    && WatcherOk(s.db, s.lost, s.watcher)
    && WithinParallel(s.db, s.maxParallel)
    && PhaseOk(s)
    && AskedOk(s)
  }

  // ---- Two things the code takes on trust ----

  /** Nothing TaskRunDispatcher has in its snapshot belongs to the job run. */
  predicate OutsideTaskWindow(s: Server, j: nat) {
    forall t :: t in s.taskDispatcher.Window() ==> !InJob(s.db, t, j)
  }

  /**
    A user's delete does not land while the releaser has the run in its snapshot, and a run is
    not skipped once a task run of it has run or is about to: neither write has a guard.
   */
  ghost predicate InScope(s: Server, e: Event) {
    match e
    case World(Delete(j)) => j !in s.releaser.Window()
    case Commit(JobRunDispatcher) =>
      var at := s.jobDispatcher.at;
      at.Decided? && at.next.Skipped? ==> NeverRan(s.db, at.j) && OutsideTaskWindow(s, at.j)
    case _ => true
  }

  // ---- No write is made where it is not enabled ----

  /**
    Every write a service makes, though it names a row by id alone, meets the row in the state
    it was selected and decided for.
   */
  lemma WritesAreEnabled(s: Server, e: Event)
    requires Good(s) && Can(s, e) && InScope(s, e) && WriteOf(s, e).Some?
    ensures Enabled(s.db, WriteOf(s, e).value)
  {
    match e
    case Commit(who) =>
      if who.JobRunReleaser? || who.JobRunDispatcher? || who.JobRunMonitor? {
        JobWritesEnabled(s, who);
      } else if who.TaskRunDispatcher? || who.TaskRunMonitor? {
        TaskWritesEnabled(s, who);
      } else {
        AttemptWritesEnabled(s, who);
      }
    case SpawnChild(_) => assert s.spawner.at.a in s.spawner.Window();
    case Look(_) =>
      assert s.watcher.at.a in s.watcher.Window();
      assert AttemptOk(s.db, s.watcher.at.a);
    case RecoverKill => assert s.phase.orphans[0] in s.phase.orphans;
    case RecoverRow => assert s.phase.orphans[0] in s.phase.orphans;
    case _ =>
  }

  lemma JobWritesEnabled(s: Server, who: Service)
    requires Good(s) && Can(s, Commit(who)) && InScope(s, Commit(who)) && WriteOf(s, Commit(who)).Some?
    requires who.JobRunReleaser? || who.JobRunDispatcher? || who.JobRunMonitor?
    ensures Enabled(s.db, WriteOf(s, Commit(who)).value)
  {
    var p := if who.JobRunReleaser? then s.releaser else if who.JobRunDispatcher? then s.jobDispatcher else s.jobMonitor;
    assert p.at.j in p.Window();
    assert JobOk(s.db, p.at.j);
  }

  lemma TaskWritesEnabled(s: Server, who: Service)
    requires Good(s) && Can(s, Commit(who)) && WriteOf(s, Commit(who)).Some?
    requires who.TaskRunDispatcher? || who.TaskRunMonitor?
    ensures Enabled(s.db, WriteOf(s, Commit(who)).value)
  {
    var p := if who.TaskRunDispatcher? then s.taskDispatcher else s.taskMonitor;
    assert p.at.t in p.Window();
  }

  lemma AttemptWritesEnabled(s: Server, who: Service)
    requires Good(s) && Can(s, Commit(who)) && WriteOf(s, Commit(who)).Some?
    requires who.TaskRunAttemptDispatcher? || who.TaskRunAttemptMonitor?
    ensures Enabled(s.db, WriteOf(s, Commit(who)).value)
  {
    if who.TaskRunAttemptDispatcher? {
      assert s.spawner.at.a in s.spawner.Window();
    } else {
      assert s.watcher.at.a in s.watcher.Window();
    }
  }
}
