/**
  What lies behind a moment of an execution: what was seen before an attempt settled, that
  delays and timeouts were waited out, and that nothing of a stopped run starts any more.
 */
module Histories {
  import opened Options
  import opened Tables
  import opened TableInvariant
  import opened RunFacts
  import opened Pollers
  import opened PollerInvariant
  import opened PollerSteps
  import opened PollerEvents
  import opened ServerSafety
  import opened Executions
  import opened Decisions

  // ---- Time ----

  lemma {:induction false} TimeGoesOn(x: Execution, i: nat, k: nat)
    requires Runs(x) && i <= k < |x.states|
    ensures x.states[i].now <= x.states[k].now
    decreases k
  {
    if i < k {
      TimeGoesOn(x, i, k - 1);
      assert StepAt(x, k - 1);
      ClockStep(x.states[k - 1], x.events[k - 1]);
    }
  }

  /** The outputs noted after an event: a spawn and a read are noted, and a crash forgets all. */
  function NotedAfter(s: Server, e: Event): map<nat, nat> {
    match e
    case Output(a) => s.wroteAt[a := s.now]
    case SpawnChild(ok) => if ok && s.spawner.at.Marked? then s.wroteAt[s.spawner.at.a := StartOf(s.db, s.spawner.at.a)] else s.wroteAt
    case Crash(_) => map[]
    case _ => s.wroteAt
  }

  lemma ClockStep(s: Server, e: Event)
    requires Can(s, e)
    ensures Next(s, e).now == (if e.Tick? then e.later else s.now) >= s.now
    ensures Next(s, e).wroteAt == NotedAfter(s, e)
  {
    match e
    case Select(who) => SelectionClock(s, who);
    case Decide(who) => DecisionClock(s, who);
    case Commit(who) => CommittedClock(s, who);
    case Fail(who) => AbandonedClock(s, who);
    case _ =>
  }

  lemma SelectionClock(s: Server, who: Service)
    ensures Selection(s, who).now == s.now && Selection(s, who).wroteAt == s.wroteAt
  {}

  lemma DecisionClock(s: Server, who: Service)
    requires IsPoller(who) && (RowsLeft(s, who) > 0 || (who.TaskRunMonitor? && s.taskMonitor.at.Loading?))
    ensures Decision(s, who).now == s.now && Decision(s, who).wroteAt == s.wroteAt
  {}

  lemma CommittedClock(s: Server, who: Service)
    ensures Committed(s, who).now == s.now && Committed(s, who).wroteAt == s.wroteAt
  {}

  lemma AbandonedClock(s: Server, who: Service)
    ensures Abandoned(s, who).now == s.now && Abandoned(s, who).wroteAt == s.wroteAt
  {}

  // ---- What decisions still to be written have waited for ----

  /** Its retry delay, counted from when it was inserted, is over. */
  ghost predicate DelayOver(d: Db, now: nat, a: nat) {
    && a < |d.attempts| && d.attempts[a].taskRun < |d.taskRuns|
    && (d.attempts[a].number > 1 ==> d.attempts[a].createdAt + d.taskRuns[d.attempts[a].taskRun].retryDelay <= now)
  }

  ghost predicate SpawnTimely(d: Db, now: nat, at: SpawnAt) {
    match at
    case Decided(a, next) => next.Running? ==> DelayOver(d, now, a)
    case Marked(a) => DelayOver(d, now, a)
    case _ => true
  }

  ghost predicate ReleaseTimely(d: Db, now: nat, at: JobAt) {
    match at
    case Decided(j, next) => next.Queued? ==> j < |d.jobRuns| && d.jobRuns[j].scheduledAt <= now
    case _ => true
  }

  /** A process in the map or the monitor's hand: spawned, timed as declared, its output noted. */
  ghost predicate ChildTimely(d: Db, wroteAt: map<nat, nat>, a: nat, child: Child) {
    TimesOutAsDeclared(d, a, child) && !d.attempts[a].shell.NotSpawned? && a in wroteAt
  }

  ghost predicate HandTimely(d: Db, wroteAt: map<nat, nat>, at: WatchAt) {
    match at
    case Holding(a, held) => held.Some? ==> ChildTimely(d, wroteAt, a, held.value)
    case PutBack(a, back) => ChildTimely(d, wroteAt, a, back)
    case _ => true
  }

  ghost predicate ChildrenTimely(d: Db, wroteAt: map<nat, nat>, children: map<nat, Child>, at: WatchAt, spawn: SpawnAt) {
    && (forall a :: a in children ==> ChildTimely(d, wroteAt, a, children[a]))
    && HandTimely(d, wroteAt, at)
    && (spawn.Spawned? ==> spawn.a in wroteAt)
  }

  ghost predicate Timely(s: Server) {
    && SpawnTimely(s.db, s.now, s.spawner.at)
    && ReleaseTimely(s.db, s.now, s.releaser.at)
    && ChildrenTimely(s.db, s.wroteAt, s.children, s.watcher.at, s.spawner.at)
  }

  lemma {:induction false} AlwaysTimely(x: Execution, i: nat)
    requires Runs(x) && i < |x.states|
    ensures Timely(x.states[i])
  {
    if i == 0 {
      StartIsTimely(x.states[0]);
    } else {
      AlwaysTimely(x, i - 1);
      TimelyStep(x, i - 1);
    }
  }

  lemma StartIsTimely(s: Server)
    requires IsStart(s)
    ensures Timely(s)
  {}

  lemma TimelyStep(x: Execution, i: nat)
    requires Runs(x) && i < |x.events| && Timely(x.states[i])
    ensures Timely(x.states[i + 1])
  {
    AlwaysGood(x, i);
    assert StepAt(x, i);
    TimelyKept(x.states[i], x.events[i]);
  }

  lemma TimelyKept(s: Server, e: Event)
    requires Good(s) && Can(s, e) && InScope(s, e) && Timely(s)
    ensures Timely(Next(s, e))
  {
    SpawnTimelyKept(s, e);
    ReleaseTimelyKept(s, e);
    ChildrenTimelyKept(s, e);
  }

  lemma DelayStaysOver(d: Db, e: Db, now: nat, later: nat, a: nat)
    requires Extends(d, e) && DelayOver(d, now, a) && now <= later
    ensures DelayOver(e, later, a)
  {
    assert AttemptExtends(d.attempts[a], e.attempts[a]);
    assert TaskExtends(d.taskRuns[d.attempts[a].taskRun], e.taskRuns[d.attempts[a].taskRun]);
  }

  lemma Extended(s: Server, e: Event)
    requires Good(s) && Can(s, e) && InScope(s, e)
    ensures Extends(s.db, Next(s, e).db)
  {
    TableStep(s, e);
    ExtendsItself(s.db);
  }

  lemma SpawnTimelyKept(s: Server, e: Event)
    requires Good(s) && Can(s, e) && InScope(s, e) && SpawnTimely(s.db, s.now, s.spawner.at)
    ensures SpawnTimely(Next(s, e).db, Next(s, e).now, Next(s, e).spawner.at)
  {
    var n := Next(s, e);
    Extended(s, e);
    ClockStep(s, e);
    if e == Decide(TaskRunAttemptDispatcher) {
      SpawnerDecides(s);
    } else if !e.Crash? {
      SpawnMoves(s, e);
      if !s.spawner.at.Idle? && DelayOver(s.db, s.now, s.spawner.at.a) { DelayStaysOver(s.db, n.db, s.now, n.now, s.spawner.at.a); }
    }
  }

  /** The dispatcher's hand moves on from a decision only by the steps of a start. */
  lemma SpawnMoves(s: Server, e: Event)
    requires Can(s, e) && e != Decide(TaskRunAttemptDispatcher) && !e.Crash?
    ensures var at, after := s.spawner.at, Next(s, e).spawner.at;
      || after == at || after.Idle?
      || (at.Decided? && at.next.Running? && after == Marked(at.a))
      || (at.Marked? && (after == Spawned(at.a) || after == SpawnFailed(at.a)))
      || (at.Spawned? && after == SpawnAt.Held(at.a))
  {
    OthersUntouched(s, e);
    if Actor(e).TaskRunAttemptDispatcher? {
      match e
      case Commit(_) => SpawnCommits(s);
      case _ =>
    }
  }

  lemma SpawnCommits(s: Server)
    requires !s.spawner.at.Idle?
    ensures var at, after := s.spawner.at, Next(s, Commit(TaskRunAttemptDispatcher)).spawner.at;
      || after.Idle? || (at.Decided? && at.next.Running? && after == Marked(at.a))
      || (at.Spawned? && after == SpawnAt.Held(at.a))
  {}

  lemma ReleaseTimelyKept(s: Server, e: Event)
    requires Good(s) && Can(s, e) && InScope(s, e) && ReleaseTimely(s.db, s.now, s.releaser.at)
    ensures ReleaseTimely(Next(s, e).db, Next(s, e).now, Next(s, e).releaser.at)
  {
    Extended(s, e);
    ClockStep(s, e);
    if s.releaser.at.Decided? && s.releaser.at.next.Queued? {
      assert JobExtends(s.db.jobRuns[s.releaser.at.j], Next(s, e).db.jobRuns[s.releaser.at.j]);
    }
    if e == Decide(JobRunReleaser) {
      ReleaserDecides(s);
    } else if !e.Crash? {
      ReleaserMoves(s, e);
    }
  }

  lemma ReleaserMoves(s: Server, e: Event)
    requires Can(s, e) && e != Decide(JobRunReleaser) && !e.Crash?
    ensures Next(s, e).releaser.at == s.releaser.at || !Next(s, e).releaser.at.Decided?
  {
    OthersUntouched(s, e);
  }

  // ---- Processes in the map ----

  lemma ChildrenTimelyKept(s: Server, e: Event)
    requires Good(s) && Can(s, e) && InScope(s, e) && Timely(s)
    ensures var n := Next(s, e); ChildrenTimely(n.db, n.wroteAt, n.children, n.watcher.at, n.spawner.at)
  {
    if !e.Crash? {
      MemoryKeepsChildren(s, e);
      TablesKeepChildren(s, e, Next(s, e));
    }
  }

  /** What an event does to the map and the hands, over the tables as they were. */
  lemma MemoryKeepsChildren(s: Server, e: Event)
    requires Good(s) && Can(s, e) && Timely(s) && !e.Crash?
    ensures var n := Next(s, e); ChildrenTimely(s.db, n.wroteAt, n.children, n.watcher.at, n.spawner.at)
  {
    if Actor(e).TaskRunAttemptDispatcher? {
      if s.spawner.at.Spawned? { SpawnedIsRecorded(s); }
      SpawnerKeepsChildren(s, e);
    } else if Actor(e).TaskRunAttemptMonitor? {
      WatcherKeepsChildren(s, e);
    } else {
      ClockStep(s, e);
      OthersUntouched(s, e);
    }
  }

  lemma SpawnedIsRecorded(s: Server)
    requires Good(s) && s.spawner.at.Spawned?
    ensures var a, d := s.spawner.at.a, s.db;
      a < |d.attempts| && d.attempts[a].taskRun < |d.taskRuns| && d.attempts[a].startedAt.Some? && !d.attempts[a].shell.NotSpawned?
  {
    assert s.spawner.at.a in s.spawner.Window();
    assert AttemptOk(s.db, s.spawner.at.a);
  }

  /** No write touches the mark or the task of an attempt whose process has been spawned. */
  lemma ChildRowStays(d: Db, w: Write, wroteAt: map<nat, nat>, a: nat, child: Child)
    requires Inv(d) && Enabled(d, w) && ChildTimely(d, wroteAt, a, child)
    ensures ChildTimely(Apply(d, w), wroteAt, a, child)
  {
    WriteExtends(d, w);
    var e := Apply(d, w);
    assert AttemptExtends(d.attempts[a], e.attempts[a]);
    assert TaskExtends(d.taskRuns[d.attempts[a].taskRun], e.taskRuns[d.attempts[a].taskRun]);
    MarkStays(d, w, a);
  }

  lemma MarkStays(d: Db, w: Write, a: nat)
    requires Enabled(d, w) && a < |d.attempts| && a < |Apply(d, w).attempts|
    requires d.attempts[a].startedAt.Some? && !d.attempts[a].shell.NotSpawned?
    ensures Apply(d, w).attempts[a].startedAt == d.attempts[a].startedAt
  {}

  lemma TablesKeepChildren(s: Server, e: Event, n: Server)
    requires Good(s) && Can(s, e) && InScope(s, e) && n == Next(s, e)
    requires ChildrenTimely(s.db, n.wroteAt, n.children, n.watcher.at, n.spawner.at)
    ensures ChildrenTimely(n.db, n.wroteAt, n.children, n.watcher.at, n.spawner.at)
  {
    if WriteOf(s, e).Some? {
      WritesAreEnabled(s, e);
      WriteKeepsChildren(s.db, WriteOf(s, e).value, n.wroteAt, n.children, n.watcher.at, n.spawner.at);
    }
  }

  lemma WriteKeepsChildren(d: Db, w: Write, wroteAt: map<nat, nat>, children: map<nat, Child>, at: WatchAt, spawn: SpawnAt)
    requires Inv(d) && Enabled(d, w) && ChildrenTimely(d, wroteAt, children, at, spawn)
    ensures ChildrenTimely(Apply(d, w), wroteAt, children, at, spawn)
  {
    forall a | a in children ensures ChildTimely(Apply(d, w), wroteAt, a, children[a]) {
      ChildRowStays(d, w, wroteAt, a, children[a]);
    }
    match at
    case Holding(a, Some(child)) => ChildRowStays(d, w, wroteAt, a, child);
    case PutBack(a, back) => ChildRowStays(d, w, wroteAt, a, back);
    case _ =>
  }

  ghost predicate ChildrenTimelyIn(s: Server) {
    ChildrenTimely(s.db, s.wroteAt, s.children, s.watcher.at, s.spawner.at)
  }

  lemma SpawnerKeepsChildren(s: Server, e: Event)
    requires Can(s, e) && ChildrenTimelyIn(s) && Actor(e).TaskRunAttemptDispatcher?
    requires var a, d := (if s.spawner.at.Spawned? then s.spawner.at.a else 0), s.db; s.spawner.at.Spawned? ==>
      a < |d.attempts| && d.attempts[a].taskRun < |d.taskRuns| && d.attempts[a].startedAt.Some? && !d.attempts[a].shell.NotSpawned?
    ensures ChildrenTimelyIn(Next(s, e).(db := s.db))
  {
    match e
    case Select(_) => SelectionClock(s, TaskRunAttemptDispatcher);
    case Decide(_) => DecisionClock(s, TaskRunAttemptDispatcher);
    case Commit(_) => SpawnDoneKeepsChildren(s);
    case Fail(_) => AbandonedClock(s, TaskRunAttemptDispatcher);
    case SpawnChild(_) =>
    case _ =>
  }

  lemma SpawnDoneKeepsChildren(s: Server)
    requires ChildrenTimelyIn(s)
    requires var a, d := (if s.spawner.at.Spawned? then s.spawner.at.a else 0), s.db; s.spawner.at.Spawned? ==>
      a < |d.attempts| && d.attempts[a].taskRun < |d.taskRuns| && d.attempts[a].startedAt.Some? && !d.attempts[a].shell.NotSpawned?
    ensures ChildrenTimelyIn(SpawnDone(s)) && SpawnDone(s).db == s.db
  {}

  lemma WatcherKeepsChildren(s: Server, e: Event)
    requires Can(s, e) && ChildrenTimelyIn(s) && Actor(e).TaskRunAttemptMonitor?
    ensures ChildrenTimelyIn(Next(s, e).(db := s.db))
  {
    match e
    case Select(_) =>
    case Decide(_) => TakingKeepsChildren(s);
    case Commit(_) => WatchCommitKeepsChildren(s);
    case Look(outputOk) => SightTimely(s, s.watcher.at.a, s.watcher.at.child, outputOk);
    case Fail(_) => FailKeepsChildren(s);
    case _ =>
  }

  lemma TakingKeepsChildren(s: Server)
    requires ChildrenTimelyIn(s) && s.watcher.at.Idle? && |s.watcher.queue| > 0
    ensures ChildrenTimelyIn(Decision(s, TaskRunAttemptMonitor)) && Decision(s, TaskRunAttemptMonitor).db == s.db
  {}

  lemma WatchCommitKeepsChildren(s: Server)
    requires ChildrenTimelyIn(s) && (s.watcher.at.PutBack? || s.watcher.at.Settling?)
    ensures ChildrenTimelyIn(Committed(s, TaskRunAttemptMonitor)) && Committed(s, TaskRunAttemptMonitor).db == s.db
  {}

  lemma SightTimely(s: Server, a: nat, held: Option<Child>, outputOk: bool)
    requires held.Some? ==> ChildTimely(s.db, s.wroteAt, a, held.value)
    ensures HandTimely(s.db, s.wroteAt, See(s, a, held, outputOk).at)
  {}

  lemma FailKeepsChildren(s: Server)
    requires ChildrenTimelyIn(s)
    ensures ChildrenTimelyIn(Abandoned(s, TaskRunAttemptMonitor)) && Abandoned(s, TaskRunAttemptMonitor).db == s.db
  {}

  // ---- What was waited for ----

  /** Nothing is spawned for a retry before its task's retry_delay is over. */
  lemma RetryDelayWaited(x: Execution, i: nat, a: nat)
    requires Runs(x) && i < |x.events| && WriteOf(x.states[i], x.events[i]) == Some(Spawn(a))
    ensures var d := x.states[i].db;
      && a < |d.attempts| && d.attempts[a].taskRun < |d.taskRuns|
      && (d.attempts[a].number > 1 ==> d.attempts[a].createdAt + d.taskRuns[d.attempts[a].taskRun].retryDelay <= x.states[i].now)
  {
    AlwaysTimely(x, i);
    assert StepAt(x, i);
    SpawnIsMarked(x.states[i], x.events[i], a);
  }

  lemma SpawnIsMarked(s: Server, e: Event, a: nat)
    requires Can(s, e) && WriteOf(s, e) == Some(Spawn(a))
    ensures s.spawner.at == Marked(a)
  {}

  ghost predicate InsertedAt(x: Execution, k: nat, a: nat) {
    k < |x.events| && k + 1 < |x.states| && x.events[k] == Commit(TaskRunMonitor)
      && |x.states[k].db.attempts| == a && a < |x.states[k + 1].db.attempts|
      && x.states[k + 1].db.attempts[a].createdAt == x.states[k].now
  }

  /** The time an attempt was created is when TaskRunMonitor inserted it. */
  lemma {:induction false} CreatedWhenInserted(x: Execution, i: nat, a: nat)
    requires Runs(x) && i < |x.states| && a < |x.states[i].db.attempts|
    ensures exists k: nat :: k < i && InsertedAt(x, k, a) && x.states[i].db.attempts[a].createdAt == x.states[k].now
  {
    assert i > 0;
    if a < |x.states[i - 1].db.attempts| {
      CreatedWhenInserted(x, i - 1, a);
      CreationStays(x, i - 1, a);
      var k: nat :| k < i - 1 && InsertedAt(x, k, a) && x.states[i - 1].db.attempts[a].createdAt == x.states[k].now;
    } else {
      NewlyInserted(x, i - 1, a);
    }
  }

  lemma CreationStays(x: Execution, i: nat, a: nat)
    requires Runs(x) && i < |x.events| && a < |x.states[i].db.attempts|
    ensures a < |x.states[i + 1].db.attempts| && x.states[i + 1].db.attempts[a].createdAt == x.states[i].db.attempts[a].createdAt
  {
    OneStepExtends(x, i);
    assert AttemptExtends(x.states[i].db.attempts[a], x.states[i + 1].db.attempts[a]);
  }

  lemma NewlyInserted(x: Execution, i: nat, a: nat)
    requires Runs(x) && i < |x.events| && |x.states[i].db.attempts| <= a < |x.states[i + 1].db.attempts|
    ensures InsertedAt(x, i, a)
  {
    AlwaysGood(x, i);
    assert StepAt(x, i);
    InsertIsCommit(x.states[i], x.events[i]);
  }

  lemma InsertIsCommit(s: Server, e: Event)
    requires Good(s) && Can(s, e) && |Next(s, e).db.attempts| > |s.db.attempts|
    ensures e == Commit(TaskRunMonitor) && |Next(s, e).db.attempts| == |s.db.attempts| + 1
    ensures Next(s, e).db.attempts[|s.db.attempts|].createdAt == s.now
  {
    OnlyInsertAdds(s.db, WriteOf(s, e).value);
    WriterIsActor(s, e);
    InsertedNow(s, e);
  }

  lemma OnlyInsertAdds(d: Db, w: Write)
    requires |Apply(d, w).attempts| > |d.attempts|
    ensures w.InsertAttempt? && |Apply(d, w).attempts| == |d.attempts| + 1 && Apply(d, w).attempts[|d.attempts|].createdAt == w.now
  {}

  lemma InsertedNow(s: Server, e: Event)
    requires Can(s, e) && WriteOf(s, e).Some? && WriteOf(s, e).value.InsertAttempt?
    ensures e == Commit(TaskRunMonitor) && WriteOf(s, e).value.now == s.now
  {}

  /** A run is queued when it is due, and not before. */
  lemma QueuedWhenDue(x: Execution, i: nat, j: nat)
    requires Runs(x) && i < |x.events| && j < |x.states[i].db.jobRuns| && j < |x.states[i + 1].db.jobRuns|
    requires x.states[i].db.jobRuns[j].status.Scheduled? && x.states[i + 1].db.jobRuns[j].status.Queued?
    ensures x.states[i].db.jobRuns[j].scheduledAt <= x.states[i].now
  {
    AlwaysTimely(x, i);
    assert StepAt(x, i);
    EveryWriteIsEnabled(x, i);
    OnlyReleaseQueues(x.states[i].db, WriteOf(x.states[i], x.events[i]).value, j);
    ReleaseIsCommit(x.states[i], x.events[i], j);
  }

  lemma OnlyReleaseQueues(d: Db, w: Write, j: nat)
    requires Enabled(d, w) && j < |d.jobRuns| && j < |Apply(d, w).jobRuns|
    requires d.jobRuns[j].status.Scheduled? && Apply(d, w).jobRuns[j].status.Queued?
    ensures w == Release(j)
  {}

  lemma ReleaseIsCommit(s: Server, e: Event, j: nat)
    requires Can(s, e) && WriteOf(s, e) == Some(Release(j))
    ensures s.releaser.at == JobAt.Decided(j, JobRunStatus.Queued)
  {}
}
