/** Every event, whoever makes it, keeps `Good`. */
module PollerEvents {
  import opened Options
  import opened Tables
  import opened TableInvariant
  import opened RunFacts
  import opened Pollers
  import opened PollerInvariant
  import opened PollerSteps

  /** The service whose own event this is, if it is one's. */
  function Actor(e: Event): Service {
    match e
    case Select(who) => who
    case Decide(who) => who
    case Commit(who) => who
    case Fail(who) => who
    case SpawnChild(_) => TaskRunAttemptDispatcher
    case Look(_) => TaskRunAttemptMonitor
    case RecoverRow => Recovery
    case _ => Outside
  }

  lemma WriterIsActor(s: Server, e: Event)
    requires Good(s) && Can(s, e) && WriteOf(s, e).Some?
    ensures WriterOf(WriteOf(s, e).value) == Actor(e) || WriterOf(WriteOf(s, e).value).Outside?
  {
    WriterOfWrite(s, e);
  }

  lemma WriterOfWrite(s: Server, e: Event)
    requires Can(s, e) && WriteOf(s, e).Some? && !s.releaser.at.StartHalf? && !s.jobMonitor.at.StartHalf?
    ensures WriterOf(WriteOf(s, e).value) == Actor(e) || WriterOf(WriteOf(s, e).value).Outside?
  {}

  /** Only the actor's own memory, and what the attempt services share, differs. */
  ghost predicate Untouched(s: Server, n: Server, who: Service) {
    && (!who.JobRunReleaser? ==> n.releaser == s.releaser)
    && (!who.JobRunDispatcher? ==> n.jobDispatcher == s.jobDispatcher)
    && (!who.JobRunMonitor? ==> n.jobMonitor == s.jobMonitor)
    && (!who.TaskRunDispatcher? ==> n.taskDispatcher == s.taskDispatcher)
    && (!who.TaskRunMonitor? ==> n.taskMonitor == s.taskMonitor)
    && (!who.TaskRunAttemptDispatcher? ==> n.spawner == s.spawner)
    && (!who.TaskRunAttemptMonitor? ==> n.watcher == s.watcher && n.lost == s.lost && n.asked == s.asked)
    && (!who.TaskRunAttemptDispatcher? && !who.TaskRunAttemptMonitor? ==> n.children == s.children)
    && n.config == s.config && n.maxParallel == s.maxParallel
  }

  lemma OthersUntouched(s: Server, e: Event)
    requires Can(s, e) && !e.Crash?
    ensures Untouched(s, Moved(s, e), Actor(e))
    ensures !e.RecoverRow? && !e.StartServing? ==> Moved(s, e).phase == s.phase
    ensures !e.Look? ==> Moved(s, e).asked == s.asked
  {
    match e
    case Select(who) => SelectionUntouched(s, who);
    case Decide(who) => DecisionUntouched(s, who);
    case Commit(who) => CommittedUntouched(s, who);
    case Fail(who) => AbandonedUntouched(s, who);
    case _ =>
  }

  lemma SelectionUntouched(s: Server, who: Service)
    ensures Untouched(s, Selection(s, who), who) && Selection(s, who).phase == s.phase
    ensures Selection(s, who).asked == s.asked
  {}

  lemma DecisionUntouched(s: Server, who: Service)
    requires IsPoller(who) && (RowsLeft(s, who) > 0 || (who.TaskRunMonitor? && s.taskMonitor.at.Loading?))
    ensures Untouched(s, Decision(s, who), who) && Decision(s, who).phase == s.phase
    ensures Decision(s, who).asked == s.asked
  {}

  lemma CommittedUntouched(s: Server, who: Service)
    ensures Untouched(s, Committed(s, who), who) && Committed(s, who).phase == s.phase
    ensures Committed(s, who).asked == s.asked
  {
    if who.TaskRunAttemptDispatcher? { SpawnerCommits(s); }
  }

  lemma SpawnerCommits(s: Server)
    ensures var n := SpawnDone(s); n == s.(spawner := n.spawner, children := n.children)
  {}

  lemma AbandonedUntouched(s: Server, who: Service)
    ensures Untouched(s, Abandoned(s, who), who) && Abandoned(s, who).phase == s.phase
    ensures Abandoned(s, who).asked == s.asked
  {
    if who.TaskRunAttemptMonitor? { WatcherAbandons(s); }
  }

  lemma WatcherAbandons(s: Server)
    ensures var n := Abandoned(s, TaskRunAttemptMonitor);
      n == s.(watcher := n.watcher, children := n.children, lost := n.lost)
  {}

  lemma TailStays(d: Db, w: seq<nat>, want: JobRunStatus)
    requires JobsIn(d, w, want) && w != []
    ensures JobsIn(d, w[1..], want) && w[0] !in w[1..]
  {}

  // ---- Job runs ----

  lemma SelectedJobsIn(d: Db, want: JobRunStatus)
    ensures JobsIn(d, SelectedJobs(d, want), want)
  {}

  lemma ReleaserKept(s: Server, e: Event)
    requires Good(s) && Can(s, e) && InScope(s, e)
    ensures ReleaserOk(Written(s, e), Next(s, e).releaser)
  {
    if Actor(e).JobRunReleaser? {
      ReleaserOwn(s, e);
    } else if !e.Crash? {
      OthersUntouched(s, e);
      ReleaserOther(s, e);
    }
  }

  lemma ReleaserOther(s: Server, e: Event)
    requires Good(s) && Can(s, e) && InScope(s, e) && !Actor(e).JobRunReleaser?
    ensures ReleaserOk(Written(s, e), s.releaser)
  {
    TableStep(s, e);
    if WriteOf(s, e).Some? {
      WriterIsActor(s, e);
      var w := WriteOf(s, e).value;
      WritesAreEnabled(s, e);
      if w.Delete? { DeletedOutside(s, e); }
      ReleaserBeside(s.db, w, s.releaser);
    }
  }

  lemma DeletedOutside(s: Server, e: Event)
    requires Can(s, e) && InScope(s, e) && WriteOf(s, e).Some? && WriteOf(s, e).value.Delete?
    ensures WriteOf(s, e).value.j !in s.releaser.Window()
  {}

  lemma ReleaserBeside(d: Db, w: Write, p: JobPoller)
    requires StepBy(d, Apply(d, w), WriterOf(w)) && Enabled(d, w) && ReleaserOk(d, p)
    requires !WriterOf(w).JobRunReleaser? && (w.Delete? ==> w.j !in p.Window())
    ensures ReleaserOk(Apply(d, w), p)
  {
    if WriterOf(w).Outside? {
      OutsideSpares(d, w, p.Window());
    } else {
      JobsStay(d, Apply(d, w), WriterOf(w), p.Window(), JobRunStatus.Scheduled);
    }
    ReleaserFrame(d, Apply(d, w), WriterOf(w), p);
  }

  /** Nobody outside moves a scheduled run, except by deleting it. */
  lemma OutsideSpares(d: Db, w: Write, ids: seq<nat>)
    requires Enabled(d, w) && WriterOf(w).Outside? && (w.Delete? ==> w.j !in ids)
    requires JobsIn(d, ids, JobRunStatus.Scheduled)
    ensures JobsIn(Apply(d, w), ids, JobRunStatus.Scheduled)
  {}

  lemma ReleaserOwn(s: Server, e: Event)
    requires Good(s) && Can(s, e) && InScope(s, e) && Actor(e).JobRunReleaser?
    ensures ReleaserOk(Written(s, e), Next(s, e).releaser)
  {
    var p, q := s.releaser, Next(s, e).releaser;
    match e
    case Select(_) => SelectedJobsIn(s.db, JobRunStatus.Scheduled); assert q.Window() == q.queue;
    case Decide(_) => assert q.Window() == p.Window();
    case Commit(_) => ReleaserCommit(s.db, p);
    case Fail(_) => TailStays(s.db, p.Window(), JobRunStatus.Scheduled); assert q.Window() == p.Window()[1..];
    case _ =>
  }

  lemma ReleaserCommit(d: Db, p: JobPoller)
    requires ReleaserOk(d, p) && !p.at.Idle?
    ensures var w := JobWrite(JobRunReleaser, p.at);
      ReleaserOk(if w.Some? then Apply(d, w.value) else d, JobDone(p, JobRunReleaser))
  {
    ReleaserWrites(d, p);
    if p.at.Decided? && p.at.next.Skipped? {
      ReleaserSkips(d, p, p.at.j);
    } else {
      var status :=
        if p.at.SkipHalf? then Some(JobRunStatus.Skipped)
        else if p.at.next.Queued? then Some(JobRunStatus.Queued) else None;
      ReleaserIdles(d, p, status);
    }
  }

  lemma ReleaserWrites(d: Db, p: JobPoller)
    requires !p.at.Idle? && !p.at.StartHalf? && (p.at.Decided? ==> p.at.next.Skipped? || p.at.next.Queued? || p.at.next.Scheduled?)
    ensures var w, q, j := JobWrite(JobRunReleaser, p.at), JobDone(p, JobRunReleaser), p.at.j;
      if p.at.Decided? && p.at.next.Skipped? then w == Some(SkipTasks(j, JobRunReleaser)) && q == p.(at := SkipHalf(j))
      else
        && q == p.(at := JobAt.Idle)
        && if p.at.SkipHalf? then w.Some? && Apply(d, w.value) == WithJob(d, j, JobRunStatus.Skipped)
           else if p.at.next.Queued? then w.Some? && Apply(d, w.value) == WithJob(d, j, JobRunStatus.Queued)
           else w.None?
  {}

  lemma ReleaserSkips(d: Db, p: JobPoller, j: nat)
    requires ReleaserOk(d, p) && p.at == JobAt.Decided(j, JobRunStatus.Skipped)
    ensures ReleaserOk(Apply(d, SkipTasks(j, JobRunReleaser)), p.(at := SkipHalf(j)))
  {
    TasksSkipped(d, j, JobRunReleaser);
    assert p.(at := SkipHalf(j)).Window() == p.Window();
  }

  lemma ReleaserIdles(d: Db, p: JobPoller, status: Option<JobRunStatus>)
    requires JobsIn(d, p.Window(), JobRunStatus.Scheduled) && !p.at.Idle?
    ensures ReleaserOk(if status.Some? then WithJob(d, p.at.j, status.value) else d, p.(at := JobAt.Idle))
  {
    TailStays(d, p.Window(), JobRunStatus.Scheduled);
    assert p.Window()[1..] == p.queue && p.(at := JobAt.Idle).Window() == p.queue;
    if status.Some? { JobWriteSpares(d, p.at.j, status.value, p.queue, JobRunStatus.Scheduled); }
  }

  lemma TasksSkipped(d: Db, j: nat, who: Service)
    ensures var e := Apply(d, SkipTasks(j, who));
      e.jobRuns == d.jobRuns && e.stops == d.stops && AllTasks(e, j, (s: TaskRunStatus) => s.Skipped?)
  {}

  lemma JobWriteSpares(d: Db, j: nat, status: JobRunStatus, ids: seq<nat>, want: JobRunStatus)
    requires JobsIn(d, ids, want) && j !in ids
    ensures JobsIn(WithJob(d, j, status), ids, want)
  {}

  lemma DispatcherKept(s: Server, e: Event)
    requires Good(s) && Can(s, e) && InScope(s, e)
    ensures DispatcherOk(Written(s, e), s.maxParallel, Next(s, e).jobDispatcher)
  {
    if !e.Crash? {
      OthersUntouched(s, e);
      if Actor(e).JobRunDispatcher? { DispatcherOwn(s, e); } else { DispatcherOther(s, e); }
    }
  }

  lemma DispatcherOther(s: Server, e: Event)
    requires Good(s) && Can(s, e) && InScope(s, e) && !Actor(e).JobRunDispatcher?
    ensures DispatcherOk(Written(s, e), s.maxParallel, s.jobDispatcher)
  {
    TableStep(s, e);
    if WriteOf(s, e).Some? {
      WriterIsActor(s, e);
      DispatcherFrame(s.db, Written(s, e), WriterOf(WriteOf(s, e).value), s.maxParallel, s.jobDispatcher);
    }
  }

  lemma DispatcherOwn(s: Server, e: Event)
    requires Good(s) && Can(s, e) && InScope(s, e) && Actor(e).JobRunDispatcher?
    ensures DispatcherOk(Written(s, e), s.maxParallel, Next(s, e).jobDispatcher)
  {
    var p, q := s.jobDispatcher, Next(s, e).jobDispatcher;
    match e
    case Select(_) => SelectedJobsIn(s.db, JobRunStatus.Queued); assert q.Window() == q.queue;
    case Decide(_) => assert q.Window() == p.Window(); assert p.queue[0] in p.Window();
    case Commit(_) => DispatcherCommit(s);
    case Fail(_) => TailStays(s.db, p.Window(), JobRunStatus.Queued); assert q.Window() == p.Window()[1..];
    case _ =>
  }

  lemma DispatcherCommit(s: Server)
    requires Good(s) && Can(s, Commit(JobRunDispatcher)) && InScope(s, Commit(JobRunDispatcher))
    ensures DispatcherOk(Written(s, Commit(JobRunDispatcher)), s.maxParallel, JobDone(s.jobDispatcher, JobRunDispatcher))
  {
    var d, p, q := Written(s, Commit(JobRunDispatcher)), s.jobDispatcher, JobDone(s.jobDispatcher, JobRunDispatcher);
    TailStays(s.db, p.Window(), JobRunStatus.Queued);
    assert p.at.j in p.Window() && p.Window()[1..] == p.queue;
    assert forall j :: j in p.queue ==> d.jobRuns[j] == s.db.jobRuns[j];
    if q.at.Idle? {
      assert q.Window() == p.queue;
    } else {
      assert q.Window() == p.Window() && d.jobRuns == s.db.jobRuns;
      if q.at.StartHalf? {
        var jobId := s.db.jobRuns[p.at.j].jobId;
        CountBelow(|s.db.jobRuns|, RunningOf(d, jobId), RunningOf(s.db, jobId));
      }
    }
  }

  lemma MonitorKept(s: Server, e: Event)
    requires Good(s) && Can(s, e) && InScope(s, e)
    ensures MonitorOk(Written(s, e), Next(s, e).jobMonitor)
  {
    if !e.Crash? {
      OthersUntouched(s, e);
      if Actor(e).JobRunMonitor? { MonitorOwn(s, e); } else { MonitorOther(s, e); }
    }
  }

  lemma MonitorOther(s: Server, e: Event)
    requires Good(s) && Can(s, e) && InScope(s, e) && !Actor(e).JobRunMonitor?
    ensures MonitorOk(Written(s, e), s.jobMonitor)
  {
    TableStep(s, e);
    if WriteOf(s, e).Some? {
      WriterIsActor(s, e);
      MonitorFrame(s.db, Written(s, e), WriterOf(WriteOf(s, e).value), s.jobMonitor);
    }
  }

  lemma MonitorOwn(s: Server, e: Event)
    requires Good(s) && Can(s, e) && InScope(s, e) && Actor(e).JobRunMonitor?
    ensures MonitorOk(Written(s, e), Next(s, e).jobMonitor)
  {
    var p, q := s.jobMonitor, Next(s, e).jobMonitor;
    match e
    case Select(_) => SelectedJobsIn(s.db, JobRunStatus.Running); assert q.Window() == q.queue;
    case Decide(_) => assert q.Window() == p.Window(); JobVerdictDecided(s.db, p.queue[0]);
    case Commit(_) => MonitorCommit(s.db, p);
    case Fail(_) => TailStays(s.db, p.Window(), JobRunStatus.Running); assert q.Window() == p.Window()[1..];
    case _ =>
  }

  lemma MonitorCommit(d: Db, p: JobPoller)
    requires MonitorOk(d, p) && p.at.Decided?
    ensures var w := JobWrite(JobRunMonitor, p.at);
      MonitorOk(if w.Some? then Apply(d, w.value) else d, JobDone(p, JobRunMonitor))
  {
    TailStays(d, p.Window(), JobRunStatus.Running);
    assert p.Window()[1..] == p.queue && JobDone(p, JobRunMonitor) == JobPoller(p.queue, JobAt.Idle);
    assert JobPoller(p.queue, JobAt.Idle).Window() == p.queue;
    SettleSparesJobs(d, p.at.j, p.at.next, p.queue);
  }

  lemma SettleSparesJobs(d: Db, j: nat, next: JobRunStatus, ids: seq<nat>)
    requires JobsIn(d, ids, JobRunStatus.Running) && j !in ids
    ensures JobsIn(Apply(d, SettleJob(j, next)), ids, JobRunStatus.Running)
  {}

  lemma ParallelKept(s: Server, e: Event)
    requires Good(s) && Can(s, e) && InScope(s, e)
    ensures WithinParallel(Written(s, e), s.maxParallel)
  {
    var d := Written(s, e);
    TableStep(s, e);
    if WriteOf(s, e).Some? {
      forall jobId | HasMaxParallel(s.maxParallel, jobId)
        ensures Count(|d.jobRuns|, RunningOf(d, jobId)) <= s.maxParallel[jobId]
      {
        if WriterOf(WriteOf(s, e).value).JobRunDispatcher? {
          WriterIsActor(s, e);
          ParallelCommit(s, jobId);
        } else {
          RunningOfStays(s.db, d, WriterOf(WriteOf(s, e).value), jobId);
        }
      }
    }
  }

  lemma ParallelCommit(s: Server, jobId: string)
    requires Good(s) && Can(s, Commit(JobRunDispatcher)) && HasMaxParallel(s.maxParallel, jobId)
    ensures var d := Written(s, Commit(JobRunDispatcher));
      Count(|d.jobRuns|, RunningOf(d, jobId)) <= s.maxParallel[jobId]
  {
    var d, p := Written(s, Commit(JobRunDispatcher)), s.jobDispatcher;
    if p.at.StartHalf? && s.db.jobRuns[p.at.j].jobId == jobId {
      CountOneMore(|s.db.jobRuns|, RunningOf(d, jobId), RunningOf(s.db, jobId), p.at.j);
    } else {
      CountBelow(|s.db.jobRuns|, RunningOf(d, jobId), RunningOf(s.db, jobId));
    }
  }

  // ---- Task runs ----

  lemma SelectedTasksIn(d: Db, want: TaskRunStatus)
    ensures TasksIn(d, SelectedTasks(d, want), want)
  {}

  lemma TaskTailStays(d: Db, w: seq<nat>, want: TaskRunStatus)
    requires TasksIn(d, w, want) && w != []
    ensures TasksIn(d, w[1..], want) && w[0] !in w[1..]
  {
    assert forall t :: t in w[1..] ==> t in w;
  }

  lemma TaskDispatcherKept(s: Server, e: Event)
    requires Good(s) && Can(s, e) && InScope(s, e)
    ensures TaskDispatcherOk(Written(s, e), Next(s, e).taskDispatcher)
  {
    if !e.Crash? {
      OthersUntouched(s, e);
      if Actor(e).TaskRunDispatcher? { TaskDispatcherOwn(s, e); } else { TaskDispatcherOther(s, e); }
    }
  }

  lemma TaskDispatcherOther(s: Server, e: Event)
    requires Good(s) && Can(s, e) && InScope(s, e) && !Actor(e).TaskRunDispatcher?
    ensures TaskDispatcherOk(Written(s, e), s.taskDispatcher)
  {
    TableStep(s, e);
    if WriteOf(s, e).Some? {
      WriterIsActor(s, e);
      var w := WriteOf(s, e).value;
      if WriterOf(w).JobRunDispatcher? {
        DispatcherSparesTasks(s, e);
      } else {
        TasksStay(s.db, Apply(s.db, w), WriterOf(w), s.taskDispatcher.Window(), TaskRunStatus.Waiting);
      }
      TaskDispatcherFrame(s.db, Apply(s.db, w), WriterOf(w), s.taskDispatcher);
    }
  }

  /** A skip spares the task runs TaskRunDispatcher has in its snapshot, and a start all Waiting ones. */
  lemma DispatcherSparesTasks(s: Server, e: Event)
    requires Good(s) && Can(s, e) && InScope(s, e) && WriteOf(s, e).Some? && WriterOf(WriteOf(s, e).value).JobRunDispatcher?
    ensures TasksIn(Written(s, e), s.taskDispatcher.Window(), TaskRunStatus.Waiting)
  {
    WriterIsActor(s, e);
    SkipSpares(s.db, JobWrite(JobRunDispatcher, s.jobDispatcher.at).value, s.taskDispatcher.Window());
  }

  lemma SkipSpares(d: Db, w: Write, ids: seq<nat>)
    requires TasksIn(d, ids, TaskRunStatus.Waiting)
    requires w.StartTasks? || w.StartJob? || w.SkipJob? || (w.SkipTasks? && forall t :: t in ids ==> !InJob(d, t, w.j))
    ensures TasksIn(Apply(d, w), ids, TaskRunStatus.Waiting)
  {
    forall t | t in ids ensures t < |Apply(d, w).taskRuns| && Apply(d, w).taskRuns[t].status.Waiting? {
      assert w.SkipTasks? ==> !InJob(d, t, w.j);
    }
  }

  lemma TaskDispatcherOwn(s: Server, e: Event)
    requires Good(s) && Can(s, e) && InScope(s, e) && Actor(e).TaskRunDispatcher?
    ensures TaskDispatcherOk(Written(s, e), Next(s, e).taskDispatcher)
  {
    var p, q := s.taskDispatcher, Next(s, e).taskDispatcher;
    match e
    case Select(_) => SelectedTasksIn(s.db, TaskRunStatus.Waiting); assert q.Window() == q.queue;
    case Decide(_) => TaskDispatcherDecide(s.db, p);
    case Commit(_) => TaskDispatcherCommit(s.db, p);
    case Fail(_) => TaskTailStays(s.db, p.Window(), TaskRunStatus.Waiting); assert q.Window() == p.Window()[1..];
    case _ =>
  }

  lemma TaskDispatcherDecide(d: Db, p: TaskPoller)
    requires TaskDispatcherOk(d, p) && p.at.Idle? && p.queue != []
    ensures p.queue[0] < |d.taskRuns|
    ensures TaskDispatcherOk(d, TaskPoller(p.queue[1..], TaskAt.Decided(p.queue[0], TaskVerdict(d, p.queue[0]))))
  {
    assert p.queue[0] in p.Window();
    var q := TaskPoller(p.queue[1..], TaskAt.Decided(p.queue[0], TaskVerdict(d, p.queue[0])));
    assert q.Window() == p.Window();
    TaskVerdictDecided(d, p.queue[0]);
  }

  lemma TaskDispatcherCommit(d: Db, p: TaskPoller)
    requires TaskDispatcherOk(d, p) && p.at.Decided?
    ensures var w := TaskDispatchWrite(p.at);
      TaskDispatcherOk(if w.Some? then Apply(d, w.value) else d, p.(at := TaskAt.Idle))
  {
    TaskTailStays(d, p.Window(), TaskRunStatus.Waiting);
    assert p.Window()[1..] == p.queue && p.(at := TaskAt.Idle).Window() == p.queue;
    DispatchWrites(d, p.at);
    TaskWriteSpares(d, p.at.t, p.at.next.value, p.queue);
  }

  lemma DispatchWrites(d: Db, at: TaskAt)
    requires at.Decided? && at.next.Some? && (at.next.value.Waiting? || at.next.value.Skipped? || at.next.value.Running?)
    ensures var w := TaskDispatchWrite(at);
      if at.next.value.Waiting? then w.None? else w.Some? && Apply(d, w.value) == WithTask(d, at.t, at.next.value)
  {}

  lemma TaskWriteSpares(d: Db, t: nat, status: TaskRunStatus, ids: seq<nat>)
    requires TasksIn(d, ids, TaskRunStatus.Waiting) && t !in ids
    ensures TasksIn(WithTask(d, t, status), ids, TaskRunStatus.Waiting)
  {}

  lemma TaskMonitorKept(s: Server, e: Event)
    requires Good(s) && Can(s, e) && InScope(s, e)
    ensures TaskMonitorOk(Written(s, e), Next(s, e).taskMonitor)
  {
    if !e.Crash? {
      OthersUntouched(s, e);
      if Actor(e).TaskRunMonitor? { TaskMonitorOwn(s, e); } else { TaskMonitorOther(s, e); }
    }
  }

  lemma TaskMonitorOther(s: Server, e: Event)
    requires Good(s) && Can(s, e) && InScope(s, e) && !Actor(e).TaskRunMonitor?
    ensures TaskMonitorOk(Written(s, e), s.taskMonitor)
  {
    TableStep(s, e);
    if WriteOf(s, e).Some? {
      WriterIsActor(s, e);
      TaskMonitorFrame(s.db, Written(s, e), WriterOf(WriteOf(s, e).value), s.taskMonitor);
    }
  }

  lemma TaskMonitorOwn(s: Server, e: Event)
    requires Good(s) && Can(s, e) && InScope(s, e) && Actor(e).TaskRunMonitor?
    ensures TaskMonitorOk(Written(s, e), Next(s, e).taskMonitor)
  {
    var p, q := s.taskMonitor, Next(s, e).taskMonitor;
    match e
    case Select(_) => SelectedTasksIn(s.db, TaskRunStatus.Running); assert q.Window() == q.queue;
    case Decide(_) => TaskMonitorDecide(s);
    case Commit(_) => TaskMonitorCommit(s);
    case Fail(_) => TaskTailStays(s.db, p.Window(), TaskRunStatus.Running); assert q.Window() == p.Window()[1..];
    case _ =>
  }

  lemma TaskMonitorDecide(s: Server)
    requires Good(s) && Can(s, Decide(TaskRunMonitor))
    ensures TaskMonitorOk(s.db, Next(s, Decide(TaskRunMonitor)).taskMonitor)
  {
    var p, q := s.taskMonitor, Next(s, Decide(TaskRunMonitor)).taskMonitor;
    assert q.Window() == p.Window();
    assert q.at.t in q.Window();
  }

  lemma TaskMonitorCommit(s: Server)
    requires Good(s) && Can(s, Commit(TaskRunMonitor))
    ensures TaskMonitorOk(Written(s, Commit(TaskRunMonitor)), Next(s, Commit(TaskRunMonitor)).taskMonitor)
  {
    var d := Written(s, Commit(TaskRunMonitor));
    var p, q := s.taskMonitor, Next(s, Commit(TaskRunMonitor)).taskMonitor;
    TaskTailStays(s.db, p.Window(), TaskRunStatus.Running);
    assert p.Window()[1..] == p.queue;
    if p.at.step.InsertFirst? {
      assert q.Window() == p.Window() && d.taskRuns == s.db.taskRuns;
    } else {
      assert q.Window() == p.queue;
      StepSpares(s.db, TaskStepWrite(p.at, s.now), p.at.t, p.queue);
    }
  }

  lemma StepSpares(d: Db, w: Option<Write>, t: nat, ids: seq<nat>)
    requires TasksIn(d, ids, TaskRunStatus.Running) && t !in ids
    requires w.Some? ==> w.value.InsertAttempt? || (w.value.SettleTask? && w.value.t == t)
    ensures TasksIn(if w.Some? then Apply(d, w.value) else d, ids, TaskRunStatus.Running)
  {}
}
