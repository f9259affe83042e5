/** A stopped run starts nothing any more, once no start of it was already decided. */
module Stops {
  import opened Options
  import opened Tables
  import opened TableInvariant
  import opened RunFacts
  import opened Pollers
  import opened PollerInvariant
  import opened PollerSteps
  import opened PollerEvents
  import opened ServerSafety
  import opened Executions
  import opened Decisions
  import opened Histories

  predicate OfRun(d: Db, a: nat, j: nat) {
    a < |d.attempts| && InJob(d, d.attempts[a].taskRun, j)
  }

  predicate SpawnDecided(at: SpawnAt, d: Db, j: nat) {
    ((at.Decided? && at.next.Running?) || at.Marked?) && OfRun(d, at.a, j)
  }

  /** No service has decided to start the run, a task run of it, or a command of it. */
  predicate NothingDecided(s: Server, j: nat) {
    && !(s.jobDispatcher.at == JobAt.Decided(j, JobRunStatus.Running) || s.jobDispatcher.at == StartHalf(j))
    && !(s.taskDispatcher.at.Decided? && s.taskDispatcher.at.next == Some(TaskRunStatus.Running) && InJob(s.db, s.taskDispatcher.at.t, j))
    && !SpawnDecided(s.spawner.at, s.db, j)
  }

  ghost predicate TasksAsStarted(d: Db, e: Db, j: nat) {
    forall t: nat :: InJob(e, t, j) && e.taskRuns[t].status.HasRun() ==> InJob(d, t, j) && d.taskRuns[t].status.HasRun()
  }

  ghost predicate ShellsAsSpawned(d: Db, e: Db, j: nat) {
    forall a: nat :: OfRun(e, a, j) && !e.attempts[a].shell.NotSpawned? ==> OfRun(d, a, j) && !d.attempts[a].shell.NotSpawned?
  }

  /** Of the run, its task runs and its commands, nothing has started in `e` that had not in `d`. */
  ghost predicate NothingStarts(d: Db, e: Db, j: nat) {
    && (j < |e.jobRuns| && e.jobRuns[j].status.Running? ==> j < |d.jobRuns| && d.jobRuns[j].status.Running?)
    && TasksAsStarted(d, e, j) && ShellsAsSpawned(d, e, j)
  }

  /**
    After a stop, and once what was being decided at that moment has been written, neither the
    run nor any task run nor any command of it ever starts.
   */
  lemma {:induction false} NothingStartsOnceStopped(x: Execution, i: nat, k: nat, j: nat)
    requires Runs(x) && i <= k < |x.states| && j < |x.states[i].db.jobRuns| && j in x.states[i].db.stops && NothingDecided(x.states[i], j)
    ensures NothingStarts(x.states[i].db, x.states[k].db, j)
    ensures NothingDecided(x.states[k], j) && j < |x.states[k].db.jobRuns| && j in x.states[k].db.stops
    decreases k
  {
    if i < k {
      NothingStartsOnceStopped(x, i, k - 1, j);
      StoppedStepAt(x, k - 1, j);
      NorAfterwards(x.states[i].db, x.states[k - 1].db, x.states[k].db, j);
    }
  }

  lemma NorAfterwards(d: Db, e: Db, f: Db, j: nat)
    requires NothingStarts(d, e, j) && NothingStarts(e, f, j) && j < |e.jobRuns|
    ensures NothingStarts(d, f, j)
  {}

  lemma StoppedStepAt(x: Execution, i: nat, j: nat)
    requires Runs(x) && i < |x.events|
    requires j < |x.states[i].db.jobRuns| && j in x.states[i].db.stops && NothingDecided(x.states[i], j)
    ensures var n := x.states[i + 1];
      NothingStarts(x.states[i].db, n.db, j) && NothingDecided(n, j) && j < |n.db.jobRuns| && j in n.db.stops
  {
    AlwaysGood(x, i);
    assert StepAt(x, i);
    StoppedStep(x.states[i], x.events[i], j);
  }

  lemma StoppedStep(s: Server, e: Event, j: nat)
    requires Good(s) && Can(s, e) && InScope(s, e) && j < |s.db.jobRuns| && j in s.db.stops && NothingDecided(s, j)
    ensures |s.db.jobRuns| <= |Next(s, e).db.jobRuns|
    ensures NothingStarts(s.db, Next(s, e).db, j) && NothingDecided(Next(s, e), j) && j in Next(s, e).db.stops
  {
    Extended(s, e);
    NothingIsStarted(s, e, j);
    JobStaysUndecided(s, e, j);
    TaskStaysUndecided(s, e, j);
    SpawnStaysUndecided(s, e, j);
  }

  // ---- Writes ----

  lemma NothingIsStarted(s: Server, e: Event, j: nat)
    requires Good(s) && Can(s, e) && InScope(s, e) && NothingDecided(s, j) && j < |s.db.jobRuns|
    ensures NothingStarts(s.db, Next(s, e).db, j)
  {
    if WriteOf(s, e).Some? {
      var w := WriteOf(s, e).value;
      WritesAreEnabled(s, e);
      WriteExtends(s.db, w);
      StartWasDecided(s, e);
      StartsByWrite(s.db, w, j);
    }
  }

  lemma StartWasDecided(s: Server, e: Event)
    requires Can(s, e) && WriteOf(s, e).Some? && !s.releaser.at.StartHalf? && !s.jobMonitor.at.StartHalf?
    ensures var w := WriteOf(s, e).value;
      && (w.StartJob? ==> s.jobDispatcher.at == StartHalf(w.j))
      && (w.RunTask? ==> s.taskDispatcher.at == TaskAt.Decided(w.t, Some(TaskRunStatus.Running)))
      && (w.Spawn? ==> s.spawner.at == Marked(w.a))
  {}

  lemma StartsByWrite(d: Db, w: Write, j: nat)
    requires Inv(d) && Enabled(d, w) && Extends(d, Apply(d, w)) && j < |d.jobRuns|
    requires w.StartJob? ==> w.j != j
    requires w.RunTask? ==> !InJob(d, w.t, j)
    requires w.Spawn? ==> !OfRun(d, w.a, j)
    ensures NothingStarts(d, Apply(d, w), j)
  {
    TasksByWrite(d, w, j);
    ShellsByWrite(d, w, j);
  }

  lemma TasksByWrite(d: Db, w: Write, j: nat)
    requires Enabled(d, w) && Extends(d, Apply(d, w)) && j < |d.jobRuns| && (w.RunTask? ==> !InJob(d, w.t, j))
    ensures TasksAsStarted(d, Apply(d, w), j)
  {
    var e := Apply(d, w);
    forall t: nat | InJob(e, t, j) && e.taskRuns[t].status.HasRun() ensures InJob(d, t, j) && d.taskRuns[t].status.HasRun() {
      assert t < |d.taskRuns| && TaskExtends(d.taskRuns[t], e.taskRuns[t]);
      if !d.taskRuns[t].status.HasRun() { NewlyStarted(d, w, t); }
    }
  }

  lemma ShellsByWrite(d: Db, w: Write, j: nat)
    requires Inv(d) && Enabled(d, w) && Extends(d, Apply(d, w)) && (w.Spawn? ==> !OfRun(d, w.a, j))
    ensures ShellsAsSpawned(d, Apply(d, w), j)
  {
    var e := Apply(d, w);
    forall a: nat | OfRun(e, a, j) && !e.attempts[a].shell.NotSpawned? ensures OfRun(d, a, j) && !d.attempts[a].shell.NotSpawned? {
      NotNewlyInserted(d, w, a);
      assert AttemptOk(d, a);
      SameRunOf(d, e, a, j);
      if d.attempts[a].shell.NotSpawned? { NewlySpawned(d, w, a); }
    }
  }

  lemma NotNewlyInserted(d: Db, w: Write, a: nat)
    requires Enabled(d, w) && a < |Apply(d, w).attempts| && !Apply(d, w).attempts[a].shell.NotSpawned?
    ensures a < |d.attempts|
  {}

  lemma NewlySpawned(d: Db, w: Write, a: nat)
    requires Enabled(d, w) && a < |d.attempts| && a < |Apply(d, w).attempts|
    requires d.attempts[a].shell.NotSpawned? && !Apply(d, w).attempts[a].shell.NotSpawned?
    ensures w == Spawn(a)
  {}

  // ---- Decisions ----

  lemma JobStaysUndecided(s: Server, e: Event, j: nat)
    requires Good(s) && Can(s, e) && j in s.db.stops && NothingDecided(s, j)
    ensures !(Next(s, e).jobDispatcher.at == JobAt.Decided(j, JobRunStatus.Running) || Next(s, e).jobDispatcher.at == StartHalf(j))
  {
    if e == Decide(JobRunDispatcher) { DispatcherDecides(s); } else if !e.Crash? { JobDispatcherMoves(s, e); }
  }

  lemma JobDispatcherMoves(s: Server, e: Event)
    requires Can(s, e) && e != Decide(JobRunDispatcher) && !e.Crash?
    ensures var at, after := s.jobDispatcher.at, Next(s, e).jobDispatcher.at;
      || after == at || after.Idle? || after.SkipHalf?
      || (at.Decided? && at.next.Running? && after == StartHalf(at.j))
  {
    OthersUntouched(s, e);
  }

  /** A row there already is in the run exactly if it was. */
  lemma SameRun(d: Db, e: Db, t: nat, j: nat)
    requires Extends(d, e) && t < |d.taskRuns|
    ensures InJob(e, t, j) <==> InJob(d, t, j)
  {
    assert TaskExtends(d.taskRuns[t], e.taskRuns[t]);
  }

  lemma SameRunOf(d: Db, e: Db, a: nat, j: nat)
    requires Extends(d, e) && a < |d.attempts| && d.attempts[a].taskRun < |d.taskRuns|
    ensures OfRun(e, a, j) <==> OfRun(d, a, j)
  {
    assert AttemptExtends(d.attempts[a], e.attempts[a]);
    SameRun(d, e, d.attempts[a].taskRun, j);
  }

  lemma TaskStaysUndecided(s: Server, e: Event, j: nat)
    requires Good(s) && Can(s, e) && j in s.db.stops && NothingDecided(s, j) && Extends(s.db, Next(s, e).db)
    ensures var n := Next(s, e);
      !(n.taskDispatcher.at.Decided? && n.taskDispatcher.at.next == Some(TaskRunStatus.Running) && InJob(n.db, n.taskDispatcher.at.t, j))
  {
    var n := Next(s, e);
    if e == Decide(TaskRunDispatcher) {
      TaskDispatcherDecides(s);
      SameRun(s.db, n.db, s.taskDispatcher.queue[0], j);
    } else if !e.Crash? {
      TaskDispatcherMoves(s, e);
      if s.taskDispatcher.at.Decided? { SameRun(s.db, n.db, s.taskDispatcher.at.t, j); }
    }
  }

  lemma TaskDispatcherMoves(s: Server, e: Event)
    requires Can(s, e) && e != Decide(TaskRunDispatcher) && !e.Crash?
    ensures Next(s, e).taskDispatcher.at == s.taskDispatcher.at || Next(s, e).taskDispatcher.at.Idle?
  {
    OthersUntouched(s, e);
  }

  lemma SpawnStaysUndecided(s: Server, e: Event, j: nat)
    requires Good(s) && Can(s, e) && j in s.db.stops && NothingDecided(s, j) && Extends(s.db, Next(s, e).db)
    ensures !SpawnDecided(Next(s, e).spawner.at, Next(s, e).db, j)
  {
    if e == Decide(TaskRunAttemptDispatcher) {
      StoppedIsNotSpawned(s, j);
    } else if !e.Crash? {
      SpawnMoves(s, e);
      if !s.spawner.at.Idle? {
        assert AttemptOk(s.db, s.spawner.at.a);
        SpawnGoesOn(s.db, Next(s, e).db, s.spawner.at, Next(s, e).spawner.at, j);
      }
    }
  }

  lemma StoppedIsNotSpawned(s: Server, j: nat)
    requires Good(s) && Can(s, Decide(TaskRunAttemptDispatcher)) && j in s.db.stops
    ensures !SpawnDecided(Next(s, Decide(TaskRunAttemptDispatcher)).spawner.at, s.db, j)
  {
    SpawnerDecides(s);
  }

  lemma SpawnGoesOn(d: Db, e: Db, at: SpawnAt, after: SpawnAt, j: nat)
    requires Extends(d, e) && !at.Idle? && at.a < |d.attempts| && d.attempts[at.a].taskRun < |d.taskRuns|
    requires !SpawnDecided(at, d, j)
    requires after == at || after.Idle? || after.Spawned? || after.SpawnFailed? || after.Held?
      || (at.Decided? && at.next.Running? && after == Marked(at.a))
    ensures !SpawnDecided(after, e, j)
  {
    SameRunOf(d, e, at.a, j);
  }
}
