/** Each service's handling of one row is the protocol's events for it, one after another. */
module HandlersFollow {
  import opened Options
  import opened Tables
  import opened Pollers
  import opened PollerInvariant
  import opened Handlers

  predicate IsJobService(who: Service) { who.JobRunReleaser? || who.JobRunDispatcher? || who.JobRunMonitor? }

  function WithJobPoller(s: Server, who: Service, p: JobPoller): Server {
    if who.JobRunReleaser? then s.(releaser := p)
    else if who.JobRunDispatcher? then s.(jobDispatcher := p)
    else s.(jobMonitor := p)
  }

  lemma JobDecides(s: Server, who: Service, row: Seen, rest: seq<Seen>)
    requires s.phase.Serving? && IsJobService(who)
    ensures var m := Taken(s, who, [row] + rest);
      && Can(m, Decide(who))
      && Next(m, Decide(who)) == WithJobPoller(s, who, JobPoller(IdsOf(rest), JobAt.Decided(row.a, JobVerdictBy(s, who, row.a))))
  {
    IdsOfTail(row, rest);
    assert IdsOf([row] + rest)[1..] == IdsOf(rest);
  }

  lemma JobCommits(s: Server, who: Service, p: JobPoller)
    requires s.phase.Serving? && IsJobService(who) && !p.at.Idle?
    ensures var m := WithJobPoller(s, who, p);
      var d := match JobWrite(who, p.at) case Some(w) => Apply(s.db, w) case None => s.db;
      && Can(m, Commit(who))
      && Next(m, Commit(who)) == WithJobPoller(s.(db := d), who, JobDone(p, who))
  {}

  /** JobRunDispatcher skips no run of which a task has run, and TaskRunDispatcher is not at work. */
  predicate SkipInScope(s: Server, who: Service, j: nat) {
    who.JobRunDispatcher? && j in s.db.stops ==> NeverRan(s.db, j) && s.taskDispatcher.Window() == []
  }

  lemma CommitInScope(s: Server, who: Service, p: JobPoller)
    requires IsJobService(who) && p.at.Decided? && SkipInScope(s, who, p.at.j)
    requires who.JobRunDispatcher? && p.at.next.Skipped? ==> p.at.j in s.db.stops
    ensures InScope(WithJobPoller(s, who, p), Commit(who))
  {}

  /** The decision and the first write. */
  lemma JobBegins(s: Server, who: Service, row: Seen, rest: seq<Seen>, p: JobPoller)
    requires s.phase.Serving? && IsJobService(who) && SkipInScope(s, who, row.a)
    requires p == JobPoller(IdsOf(rest), JobAt.Decided(row.a, JobVerdictBy(s, who, row.a)))
    ensures var d := match JobWrite(who, p.at) case Some(w) => Apply(s.db, w) case None => s.db;
      Follows(Taken(s, who, [row] + rest), [Decide(who), Commit(who)], WithJobPoller(s.(db := d), who, JobDone(p, who)))
  {
    JobDecides(s, who, row, rest);
    JobCommits(s, who, p);
    CommitInScope(s, who, p);
    TwoEvents(Taken(s, who, [row] + rest), Decide(who), Commit(who));
  }

  lemma JobFollows(s: Server, who: Service, row: Seen, rest: seq<Seen>) returns (events: seq<Event>)
    requires s.phase.Serving? && IsJobService(who) && SkipInScope(s, who, row.a)
    ensures Follows(Taken(s, who, [row] + rest), events,
      Taken(s.(db := JobHandled(s.db, who, row.a, JobVerdictBy(s, who, row.a))), who, rest))
  {
    var next := JobVerdictBy(s, who, row.a);
    var p := JobPoller(IdsOf(rest), JobAt.Decided(row.a, next));
    var d := match JobWrite(who, p.at) case Some(w) => Apply(s.db, w) case None => s.db;
    var q := JobDone(p, who);
    JobBegins(s, who, row, rest, p);
    var more := JobFinishes(s.(db := d), who, q);
    JobEnds(s, who, row.a, next, rest);
    ThenFollows(Taken(s, who, [row] + rest), [Decide(who), Commit(who)], WithJobPoller(s.(db := d), who, q),
      more, Taken(s.(db := JobHandled(s.db, who, row.a, next)), who, rest));
    events := [Decide(who), Commit(who)] + more;
  }

  /** The two writes together are what handling the row comes to. */
  lemma JobEnds(s: Server, who: Service, j: nat, next: JobRunStatus, rest: seq<Seen>)
    requires IsJobService(who)
    ensures var p := JobPoller(IdsOf(rest), JobAt.Decided(j, next));
      var q := JobDone(p, who);
      var d := match JobWrite(who, p.at) case Some(w) => Apply(s.db, w) case None => s.db;
      var e := match JobWrite(who, q.at) case Some(w) => Apply(d, w) case None => d;
      WithJobPoller(s.(db := e), who, q.(at := JobAt.Idle)) == Taken(s.(db := JobHandled(s.db, who, j, next)), who, rest)
  {}

  /** The second write of a skip or a start, if there is one. */
  lemma JobFinishes(s: Server, who: Service, q: JobPoller) returns (events: seq<Event>)
    requires s.phase.Serving? && IsJobService(who) && !q.at.Decided?
    ensures var d := match JobWrite(who, q.at) case Some(w) => Apply(s.db, w) case None => s.db;
      Follows(WithJobPoller(s, who, q), events, WithJobPoller(s.(db := d), who, q.(at := JobAt.Idle)))
  {
    events := [];
    if !q.at.Idle? {
      JobCommits(s, who, q);
      OneEvent(WithJobPoller(s, who, q), Commit(who));
      events := [Commit(who)];
    }
  }

  // ---- Rows that cannot be handled ----

  /** An error before anything is decided leaves everything as it was, the row for the next pass. */
  lemma ErrorFollows(s: Server, who: Service, row: Seen, rest: seq<Seen>, answers: Answers) returns (events: seq<Event>)
    requires s.phase.Serving? && IsPoller(who) && Errs(s, who, row, answers)
    ensures Follows(Taken(s, who, [row] + rest), events, Taken(s, who, rest))
  {
    var m := Taken(s, who, [row] + rest);
    IdsOfTail(row, rest);
    assert IdsOf([row] + rest)[1..] == IdsOf(rest);
    if who.TaskRunAttemptMonitor? {
      WatcherTakes(s, row, rest, Some(s.children[row.a]));
      assert (s.children - {row.a})[row.a := s.children[row.a]] == s.children;
    }
    ErrorLeaves(s, who, row, rest);
    TwoEvents(m, Decide(who), Fail(who));
    events := [Decide(who), Fail(who)];
  }

  lemma ErrorLeaves(s: Server, who: Service, row: Seen, rest: seq<Seen>)
    requires s.phase.Serving? && IsPoller(who) && (who.TaskRunAttemptMonitor? ==> row.a in s.children)
    ensures var m := Taken(s, who, [row] + rest);
      Can(m, Decide(who)) && Can(Next(m, Decide(who)), Fail(who)) && Next(Next(m, Decide(who)), Fail(who)) == Taken(s, who, rest)
  {
    IdsOfTail(row, rest);
    assert IdsOf([row] + rest)[1..] == IdsOf(rest);
    if who.TaskRunAttemptMonitor? {
      assert (s.children - {row.a})[row.a := s.children[row.a]] == s.children;
    }
  }

  // ---- Task runs ----

  lemma TaskDispatchFollows(s: Server, row: Seen, rest: seq<Seen>) returns (events: seq<Event>)
    requires s.phase.Serving? && row.a < |s.db.taskRuns|
    ensures Follows(Taken(s, TaskRunDispatcher, [row] + rest), events,
      Taken(s.(db := WaitingHandled(s.db, row.a)), TaskRunDispatcher, rest))
  {
    var m := Taken(s, TaskRunDispatcher, [row] + rest);
    var verdict := TaskVerdict(s.db, row.a);
    var n := s.(taskDispatcher := TaskPoller(IdsOf(rest), TaskAt.Decided(row.a, verdict)));
    IdsOfTail(row, rest);
    assert IdsOf([row] + rest)[1..] == IdsOf(rest);
    TaskDispatchCommits(n);
    TwoEvents(m, Decide(TaskRunDispatcher), Commit(TaskRunDispatcher));
    events := [Decide(TaskRunDispatcher), Commit(TaskRunDispatcher)];
  }

  lemma TaskDispatchCommits(n: Server)
    requires n.phase.Serving? && n.taskDispatcher.at.Decided? && n.taskDispatcher.at.t < |n.db.taskRuns|
    requires n.taskDispatcher.at.next == TaskVerdict(n.db, n.taskDispatcher.at.t)
    ensures Can(n, Commit(TaskRunDispatcher))
    ensures Next(n, Commit(TaskRunDispatcher)) ==
      n.(db := WaitingHandled(n.db, n.taskDispatcher.at.t), taskDispatcher := n.taskDispatcher.(at := TaskAt.Idle))
  {}

  lemma TaskMonitorFollows(s: Server, row: Seen, rest: seq<Seen>) returns (events: seq<Event>)
    requires s.phase.Serving? && row.a < |s.db.taskRuns|
    ensures Follows(Taken(s, TaskRunMonitor, [row] + rest), events,
      Taken(s.(db := RunningHandled(s.db, row.a, s.now)), TaskRunMonitor, rest))
  {
    var m, t := Taken(s, TaskRunMonitor, [row] + rest), row.a;
    var step := MonitorStep(s.db, t);
    IdsOfTail(row, rest);
    assert IdsOf([row] + rest)[1..] == IdsOf(rest);
    var n := s.(taskMonitor := TaskPoller(IdsOf(rest), Stepping(t, step)));
    assert Next(m, Decide(TaskRunMonitor)) == n;
    TaskMonitorCommits(n, t, step);
    TwoEvents(m, Decide(TaskRunMonitor), Commit(TaskRunMonitor));
    events := [Decide(TaskRunMonitor), Commit(TaskRunMonitor)];
    if step.InsertFirst? {
      var loaded := Next(n, Commit(TaskRunMonitor));
      var again := TaskMonitorReloads(loaded, t);
      ThenFollows(m, events, loaded, again, Next(Next(loaded, Decide(TaskRunMonitor)), Commit(TaskRunMonitor)));
      events := events + again;
    }
  }

  lemma TaskMonitorCommits(n: Server, t: nat, step: AttemptStep)
    requires n.phase.Serving? && n.taskMonitor.at == Stepping(t, step)
    ensures Can(n, Commit(TaskRunMonitor))
    ensures Next(n, Commit(TaskRunMonitor)) ==
      n.(db := StepHandled(n.db, t, step, n.now),
         taskMonitor := n.taskMonitor.(at := if step.InsertFirst? then Loading(t) else TaskAt.Idle))
  {}

  lemma TaskMonitorReloads(n: Server, t: nat) returns (events: seq<Event>)
    requires n.phase.Serving? && n.taskMonitor.at == Loading(t) && t < |n.db.taskRuns| && !MonitorStep(n.db, t).InsertFirst?
    ensures Can(n, Decide(TaskRunMonitor)) && Can(Next(n, Decide(TaskRunMonitor)), Commit(TaskRunMonitor))
    ensures Next(Next(n, Decide(TaskRunMonitor)), Commit(TaskRunMonitor)) ==
      n.(db := StepHandled(n.db, t, MonitorStep(n.db, t), n.now), taskMonitor := n.taskMonitor.(at := TaskAt.Idle))
    ensures Follows(n, events, Next(Next(n, Decide(TaskRunMonitor)), Commit(TaskRunMonitor)))
  {
    var p := n.(taskMonitor := n.taskMonitor.(at := Stepping(t, MonitorStep(n.db, t))));
    assert Next(n, Decide(TaskRunMonitor)) == p;
    TaskMonitorCommits(p, t, MonitorStep(n.db, t));
    TwoEvents(n, Decide(TaskRunMonitor), Commit(TaskRunMonitor));
    events := [Decide(TaskRunMonitor), Commit(TaskRunMonitor)];
  }

  // ---- Attempts ----

  lemma SpawnerFollows(s: Server, row: Seen, rest: seq<Seen>, answers: Answers) returns (events: seq<Event>)
    requires s.phase.Serving? && row.a < |s.db.attempts|
    ensures Follows(Taken(s, TaskRunAttemptDispatcher, [row] + rest), events,
      Taken(QueuedHandled(s, row, answers), TaskRunAttemptDispatcher, rest))
  {
    var m, next := Taken(s, TaskRunAttemptDispatcher, [row] + rest), SpawnVerdict(s, row);
    var n := s.(spawner := SpawnPoller(rest, SpawnAt.Decided(row.a, next)));
    SpawnerDecides(s, row, rest);
    SpawnerCommits(n);
    TwoEvents(m, Decide(TaskRunAttemptDispatcher), Commit(TaskRunAttemptDispatcher));
    events := [Decide(TaskRunAttemptDispatcher), Commit(TaskRunAttemptDispatcher)];
    var n1 := Next(n, Commit(TaskRunAttemptDispatcher));
    if next.Running? {
      var more := SpawnFollows(n1, row.a, answers.spawns(row.a));
      ThenFollows(m, events, n1, more, Taken(QueuedHandled(s, row, answers), TaskRunAttemptDispatcher, rest));
      events := events + more;
    }
  }

  lemma SpawnerDecides(s: Server, row: Seen, rest: seq<Seen>)
    requires s.phase.Serving?
    ensures var m := Taken(s, TaskRunAttemptDispatcher, [row] + rest);
      && Can(m, Decide(TaskRunAttemptDispatcher))
      && Next(m, Decide(TaskRunAttemptDispatcher)) == s.(spawner := SpawnPoller(rest, SpawnAt.Decided(row.a, SpawnVerdict(s, row))))
  {}

  lemma SpawnerCommits(n: Server)
    requires n.phase.Serving? && !n.spawner.at.Idle? && !n.spawner.at.Marked?
    ensures var w := SpawnWrite(n.spawner.at, n.now);
      && Can(n, Commit(TaskRunAttemptDispatcher))
      && Next(n, Commit(TaskRunAttemptDispatcher)) == SpawnDone(n).(db := if w.Some? then Apply(n.db, w.value) else n.db)
  {}

  lemma SpawnsOrNot(n: Server, a: nat, ok: bool)
    requires n.phase.Serving? && n.spawner.at == Marked(a)
    ensures Can(n, SpawnChild(ok))
    ensures Next(n, SpawnChild(ok)) ==
      if ok then n.(db := Apply(n.db, Spawn(a)), spawner := n.spawner.(at := Spawned(a)), wroteAt := n.wroteAt[a := StartOf(n.db, a)])
      else n.(spawner := n.spawner.(at := SpawnFailed(a)))
  {}

  /** From `started_at` on: the spawn, the child map, the status; or the mark taken back. */
  lemma SpawnFollows(n: Server, a: nat, ok: bool) returns (events: seq<Event>)
    requires n.phase.Serving? && n.spawner.at == Marked(a)
    ensures Follows(n, events,
      (if ok then
         var e := Apply(n.db, Spawn(a));
         n.(db := Apply(e, SetRunning(a)), wroteAt := n.wroteAt[a := StartOf(n.db, a)], children := n.children[a := NewChild(e, a)])
       else n.(db := Apply(n.db, ClearStarted(a)))).(spawner := n.spawner.(at := SpawnAt.Idle)))
  {
    var n1 := Next(n, SpawnChild(ok));
    SpawnsOrNot(n, a, ok);
    SpawnerCommits(n1);
    TwoEvents(n, SpawnChild(ok), Commit(TaskRunAttemptDispatcher));
    events := [SpawnChild(ok), Commit(TaskRunAttemptDispatcher)];
    if ok {
      var n2 := Next(n1, Commit(TaskRunAttemptDispatcher));
      SpawnerCommits(n2);
      OneEvent(n2, Commit(TaskRunAttemptDispatcher));
      ThenFollows(n, events, n2, [Commit(TaskRunAttemptDispatcher)], Next(n2, Commit(TaskRunAttemptDispatcher)));
      events := events + [Commit(TaskRunAttemptDispatcher)];
    }
  }

  lemma WatcherFollows(s: Server, row: Seen, rest: seq<Seen>, answers: Answers) returns (events: seq<Event>)
    requires s.phase.Serving?
    ensures Follows(Taken(s, TaskRunAttemptMonitor, [row] + rest), events,
      Taken(WatchHandled(s, row.a, answers), TaskRunAttemptMonitor, rest))
  {
    var m, a, ok := Taken(s, TaskRunAttemptMonitor, [row] + rest), row.a, answers.outputs(row.a);
    var held := if a in s.children then Some(s.children[a]) else None;
    var n := s.(watcher := WatchPoller(IdsOf(rest), Holding(a, held)), children := s.children - {a});
    WatcherTakes(s, row, rest, held);
    WatcherLooks(n, a, held, ok);
    TwoEvents(m, Decide(TaskRunAttemptMonitor), Look(ok));
    var n1 := Next(n, Look(ok));
    WatcherCommits(n1, a);
    OneEvent(n1, Commit(TaskRunAttemptMonitor));
    ThenFollows(m, [Decide(TaskRunAttemptMonitor), Look(ok)], n1, [Commit(TaskRunAttemptMonitor)], Next(n1, Commit(TaskRunAttemptMonitor)));
    events := [Decide(TaskRunAttemptMonitor), Look(ok)] + [Commit(TaskRunAttemptMonitor)];
    WatcherEnds(s, n, a, held, ok, rest);
  }

  lemma WatcherEnds(s: Server, n: Server, a: nat, held: Option<Child>, ok: bool, rest: seq<Seen>)
    requires s.phase.Serving?
    requires n == s.(watcher := WatchPoller(IdsOf(rest), Holding(a, held)), children := s.children - {a})
    ensures Can(n, Look(ok)) && Can(Next(n, Look(ok)), Commit(TaskRunAttemptMonitor))
    ensures Next(Next(n, Look(ok)), Commit(TaskRunAttemptMonitor)) ==
      Taken(Placed(s.(children := s.children - {a}), a, See(s, a, held, ok)), TaskRunAttemptMonitor, rest)
  {
    WatcherLooks(n, a, held, ok);
    WatcherCommits(Next(n, Look(ok)), a);
    SameSight(s, n, a, held, ok);
  }

  lemma SameSight(s: Server, n: Server, a: nat, held: Option<Child>, ok: bool)
    requires n.db == s.db && n.now == s.now && n.config == s.config && n.wroteAt == s.wroteAt
    ensures See(n, a, held, ok) == See(s, a, held, ok)
  {}

  lemma WatcherTakes(s: Server, row: Seen, rest: seq<Seen>, held: Option<Child>)
    requires s.phase.Serving? && held == if row.a in s.children then Some(s.children[row.a]) else None
    ensures var m := Taken(s, TaskRunAttemptMonitor, [row] + rest);
      && Can(m, Decide(TaskRunAttemptMonitor))
      && Next(m, Decide(TaskRunAttemptMonitor)) ==
           s.(watcher := WatchPoller(IdsOf(rest), Holding(row.a, held)), children := s.children - {row.a})
  {}

  lemma WatcherLooks(n: Server, a: nat, held: Option<Child>, ok: bool)
    requires n.phase.Serving? && n.watcher.at == Holding(a, held)
    ensures var sight := See(n, a, held, ok);
      && Can(n, Look(ok))
      && Next(n, Look(ok)) ==
           n.(watcher := n.watcher.(at := sight.at), db := if sight.kill then Apply(n.db, Kill(a)) else n.db,
              asked := if sight.ask.Some? then n.asked[a := sight.ask.value] else n.asked)
      && (sight.at.PutBack? || sight.at.Settling?) && sight.at.a == a
  {}

  lemma WatcherCommits(n: Server, a: nat)
    requires n.phase.Serving? && (n.watcher.at.PutBack? || n.watcher.at.Settling?) && n.watcher.at.a == a
    ensures Can(n, Commit(TaskRunAttemptMonitor))
    ensures Next(n, Commit(TaskRunAttemptMonitor)) == (
      if n.watcher.at.PutBack?
      then n.(watcher := n.watcher.(at := WatchAt.Idle), children := n.children[a := n.watcher.at.back])
      else n.(watcher := n.watcher.(at := WatchAt.Idle), db := Apply(n.db, SettleAttempt(a, n.watcher.at.next))))
  {}
}
