/**
  No run is ever stuck, said of the services as they are written: while reads succeed, one of
  their wake-ups moves every Running run on, unless a command of it goes on or waits for a slot.
 */
module Progress {
  import opened Options
  import opened Tables
  import opened TableInvariant
  import opened RunFacts
  import opened Pollers
  import opened PollerInvariant
  import opened Handlers
  import opened Services
  import opened Decisions

  predicate OfThisRun(d: Db, a: nat, j: nat) {
    a < |d.attempts| && InJob(d, d.attempts[a].taskRun, j)
  }

  ghost predicate TaskMoved(d: Db, e: Db, t: nat, j: nat) {
    InJob(d, t, j) && t < |e.taskRuns| && e.taskRuns[t].status != d.taskRuns[t].status
  }

  ghost predicate AttemptMoved(d: Db, e: Db, a: nat, j: nat) {
    OfThisRun(d, a, j) && a < |e.attempts| && e.attempts[a].status != d.attempts[a].status
  }

  /** The run's status has changed, or that of a row of it, or it has another attempt. */
  ghost predicate MovesOn(d: Db, e: Db, j: nat) {
    || (j < |d.jobRuns| && j < |e.jobRuns| && e.jobRuns[j].status != d.jobRuns[j].status)
    || (exists t: nat :: TaskMoved(d, e, t, j))
    || (exists a: nat :: AttemptMoved(d, e, a, j))
    || OfThisRun(e, |d.attempts|, j)
  }

  /** A row the service's next wake-up finds, and whose handling moves the run on. */
  ghost predicate WakeUpMoves(s: Server, who: Service, row: Seen, answers: Answers, j: nat) {
    IsPoller(who) && row in RowsFor(s.db, who) && MovesOn(s.db, HandledBy(s, who, row, answers).db, j)
  }

  ghost predicate SomeWakeUpMoves(s: Server, answers: Answers, j: nat) {
    exists who, row :: WakeUpMoves(s, who, row, answers, j)
  }

  /**
    A command held back; or one that goes on: not exited, and neither over its time nor stopped
    unless it is still to be given its grace; or one within its grace, with its group not gone.
   */
  ghost predicate GoesOnOrWaits(s: Server, a: nat)
    requires a < |s.db.attempts| && s.db.attempts[a].taskRun < |s.db.taskRuns|
  {
    var row := s.db.attempts[a];
    if row.status.Queued? then row.startedAt.None? && !Stopped(s.db, a) && HeldBack(s, a)
    else a in s.children && match s.children[a].terminating
      case None =>
        && !row.shell.Exited?
        && (s.config.killGrace == 0 ==>
              s.now <= s.children[a].timesOutAt && !Silent(s, a, s.children[a]) && !Stopped(s.db, a))
      case Some(termination) => s.now < termination.killAt && !(row.shell.Exited? && !row.shell.groupLeft)
  }

  ghost predicate Busy(s: Server, a: nat, j: nat) {
    OfThisRun(s.db, a, j) && !s.db.attempts[a].status.IsFinished() && GoesOnOrWaits(s, a)
  }

  /** A Running run moves on at some service's next wake-up, or a command of it goes on or waits. */
  lemma RunMovesOrWaits(s: Server, answers: Answers, j: nat)
    requires Good(s) && s.phase.Serving? && s.watcher.at.Idle?
    requires forall a: nat :: !answers.fails(a) && answers.spawns(a)
    requires j < |s.db.jobRuns| && s.db.jobRuns[j].status.Running?
    ensures SomeWakeUpMoves(s, answers, j) || exists a: nat :: Busy(s, a, j)
  {
    NoDeadlock(s.db, j);
    if AttemptInFlight(s.db, j) {
      var a :| 0 <= a < |s.db.attempts| && InJob(s.db, s.db.attempts[a].taskRun, j) && !s.db.attempts[a].status.IsFinished();
      AttemptMovesOrWaits(s, answers, a, j);
    } else if JobVerdict(s.db, j) != Some(JobRunStatus.Running) {
      JobMoves(s, answers, j);
    } else {
      var t :| 0 <= t < |s.db.taskRuns| && InJob(s.db, t, j) && TaskCanMove(s.db, t);
      TaskMoves(s, answers, t, j);
    }
  }

  lemma Listed(ids: seq<nat>, id: nat)
    requires id in ids
    ensures Seen(id, None) in Unseen(ids)
  {
    var i :| 0 <= i < |ids| && ids[i] == id;
    assert Unseen(ids)[i] == Seen(id, None);
  }

  lemma JobMoves(s: Server, answers: Answers, j: nat)
    requires Inv(s.db) && (forall a: nat :: !answers.fails(a)) && j < |s.db.jobRuns| && s.db.jobRuns[j].status.Running?
    requires JobVerdict(s.db, j) != Some(JobRunStatus.Running)
    ensures SomeWakeUpMoves(s, answers, j)
  {
    JobVerdictDecided(s.db, j);
    Listed(SelectedJobs(s.db, JobRunStatus.Running), j);
    assert WakeUpMoves(s, JobRunMonitor, Seen(j, None), answers, j);
  }

  lemma TaskMoves(s: Server, answers: Answers, t: nat, j: nat)
    requires Inv(s.db) && (forall a: nat :: !answers.fails(a)) && InJob(s.db, t, j) && TaskCanMove(s.db, t)
    ensures SomeWakeUpMoves(s, answers, j)
  {
    if s.db.taskRuns[t].status.Waiting? {
      WaitingMoves(s, answers, t, j);
    } else {
      RunningMoves(s, answers, t, j);
    }
  }

  lemma WaitingMoves(s: Server, answers: Answers, t: nat, j: nat)
    requires Inv(s.db) && (forall a: nat :: !answers.fails(a)) && InJob(s.db, t, j) && s.db.taskRuns[t].status.Waiting?
    requires TaskVerdict(s.db, t) != Some(TaskRunStatus.Waiting)
    ensures SomeWakeUpMoves(s, answers, j)
  {
    TaskVerdictDecided(s.db, t);
    assert TaskOk(s.db, t);
    Listed(SelectedTasks(s.db, TaskRunStatus.Waiting), t);
    assert TaskMoved(s.db, WaitingHandled(s.db, t), t, j);
    assert WakeUpMoves(s, TaskRunDispatcher, Seen(t, None), answers, j);
  }

  lemma RunningMoves(s: Server, answers: Answers, t: nat, j: nat)
    requires Inv(s.db) && (forall a: nat :: !answers.fails(a)) && InJob(s.db, t, j) && s.db.taskRuns[t].status.Running?
    requires !MonitorStep(s.db, t).Leave?
    ensures SomeWakeUpMoves(s, answers, j)
  {
    var e := RunningHandled(s.db, t, s.now);
    RunningStepMoves(s.db, t, s.now, j);
    Listed(SelectedTasks(s.db, TaskRunStatus.Running), t);
    assert HandledBy(s, TaskRunMonitor, Seen(t, None), answers).db == e;
    assert WakeUpMoves(s, TaskRunMonitor, Seen(t, None), answers, j);
  }

  lemma RunningStepMoves(d: Db, t: nat, now: nat, j: nat)
    requires InJob(d, t, j) && d.taskRuns[t].status.Running? && !MonitorStep(d, t).Leave?
    ensures MovesOn(d, RunningHandled(d, t, now), j)
  {
    var e := RunningHandled(d, t, now);
    if MonitorStep(d, t).InsertFirst? {
      var first := Started(d, t, now);
      assert Last(first, t) == Some(|d.attempts|) && MonitorStep(first, t).Leave?;
      assert OfThisRun(e, |d.attempts|, j);
    } else if MonitorStep(d, t).InsertNext? {
      assert OfThisRun(e, |d.attempts|, j);
    } else {
      assert TaskMoved(d, e, t, j);
    }
  }

  lemma AttemptMovesOrWaits(s: Server, answers: Answers, a: nat, j: nat)
    requires Good(s) && s.phase.Serving? && s.watcher.at.Idle? && forall b: nat :: !answers.fails(b) && answers.spawns(b)
    requires OfThisRun(s.db, a, j) && !s.db.attempts[a].status.IsFinished()
    ensures SomeWakeUpMoves(s, answers, j) || Busy(s, a, j)
  {
    if !Busy(s, a, j) {
      if s.db.attempts[a].status.Queued? { QueuedMoves(s, answers, a, j); } else { WatchedMoves(s, answers, a, j); }
    }
  }

  lemma QueuedMoves(s: Server, answers: Answers, a: nat, j: nat)
    requires (forall b: nat :: !answers.fails(b) && answers.spawns(b)) && OfThisRun(s.db, a, j) && s.db.attempts[a].status.Queued?
    requires !GoesOnOrWaits(s, a)
    ensures SomeWakeUpMoves(s, answers, j)
  {
    var row := Seen(a, s.db.attempts[a].startedAt);
    var ids := SelectedAttempts(s.db, AttemptStatus.Queued);
    assert a in ids;
    var i :| 0 <= i < |ids| && ids[i] == a;
    assert SeenRows(s.db)[i] == row;
    HeldBackIs(s, a);
    QueuedRowMoves(s, row, answers, j);
    assert WakeUpMoves(s, TaskRunAttemptDispatcher, row, answers, j);
  }

  lemma QueuedRowMoves(s: Server, row: Seen, answers: Answers, j: nat)
    requires OfThisRun(s.db, row.a, j) && s.db.attempts[row.a].status.Queued? && answers.spawns(row.a)
    requires !SpawnVerdict(s, row).Queued?
    ensures MovesOn(s.db, QueuedHandled(s, row, answers).db, j)
  {
    QueuedRowLeaves(s, row, answers);
    assert AttemptMoved(s.db, QueuedHandled(s, row, answers).db, row.a, j);
  }

  lemma QueuedRowLeaves(s: Server, row: Seen, answers: Answers)
    requires row.a < |s.db.attempts| && answers.spawns(row.a) && !SpawnVerdict(s, row).Queued?
    ensures var e := QueuedHandled(s, row, answers).db; row.a < |e.attempts| && !e.attempts[row.a].status.Queued?
  {
    match SpawnVerdict(s, row)
    case Invalid => assert QueuedHandled(s, row, answers).db == Apply(s.db, InvalidateAttempt(row.a));
    case Skipped => assert QueuedHandled(s, row, answers).db == Apply(s.db, SkipAttempt(row.a));
    case Running =>
      StartedRuns(s, row.a);
      assert QueuedHandled(s, row, answers).db == SpawnHandled(s, row.a, true).db;
    case _ =>
  }

  lemma StartedRuns(s: Server, a: nat)
    requires a < |s.db.attempts|
    ensures a < |SpawnHandled(s, a, true).db.attempts| && SpawnHandled(s, a, true).db.attempts[a].status.Running?
  {}

  lemma WatchedMoves(s: Server, answers: Answers, a: nat, j: nat)
    requires (forall b: nat :: !answers.fails(b)) && OfThisRun(s.db, a, j) && s.db.attempts[a].status.Running?
    requires !GoesOnOrWaits(s, a) && (a in s.children ==> ChildOk(s.db, a, s.children[a]))
    ensures SomeWakeUpMoves(s, answers, j)
  {
    Listed(SelectedAttempts(s.db, AttemptStatus.Running), a);
    WatchedRowMoves(s, a, answers);
    assert AttemptMoved(s.db, WatchHandled(s, a, answers).db, a, j);
    assert WakeUpMoves(s, TaskRunAttemptMonitor, Seen(a, None), answers, j);
  }

  lemma WatchedRowMoves(s: Server, a: nat, answers: Answers)
    requires a < |s.db.attempts| && s.db.attempts[a].taskRun < |s.db.taskRuns| && s.db.attempts[a].status.Running?
    requires !GoesOnOrWaits(s, a)
    requires a in s.children && s.children[a].terminating.Some? ==> !s.children[a].terminating.value.status.Running?
    ensures a < |WatchHandled(s, a, answers).db.attempts| && !WatchHandled(s, a, answers).db.attempts[a].status.Running?
  {}
}
