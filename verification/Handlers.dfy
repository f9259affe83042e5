/**
  What a service does with one row when nothing comes between its reads and writes, and that
  this is one way for the events of the protocol to follow each other.
 */
module Handlers {
  import opened Options
  import opened Tables
  import opened Pollers
  import opened PollerInvariant

  /**
    What the outside answers a handler of each row: whether its reads fail, whether a spawn
    works, and whether a result can be recorded.
   */
  datatype Answers = Answers(fails: nat -> bool, spawns: nat -> bool, outputs: nat -> bool)

  predicate DependenciesPresent(d: Db, t: nat) {
    t < |d.taskRuns| ==> forall k :: 0 <= k < |d.taskRuns[t].dependsOn| ==> d.taskRuns[t].dependsOn[k] < |d.taskRuns|
  }

  /** The handler cannot decide, and leaves the row for the next pass. */
  predicate Errs(s: Server, who: Service, row: Seen, answers: Answers) {
    if who.TaskRunAttemptMonitor?
    then row.a in s.children && s.children[row.a].terminating.None? && answers.fails(row.a)
    else answers.fails(row.a) || (who.TaskRunDispatcher? && !DependenciesPresent(s.db, row.a))
  }

  function JobHandled(d: Db, who: Service, j: nat, next: JobRunStatus): Db {
    if who.JobRunMonitor? then (if next.Running? then d else Apply(d, SettleJob(j, next)))
    else if next.Skipped? then Apply(Apply(d, SkipTasks(j, who)), SkipJob(j, who))
    else if who.JobRunReleaser? && next.Queued? then Apply(d, Release(j))
    else if who.JobRunDispatcher? && next.Running? then Apply(Apply(d, StartTasks(j)), StartJob(j))
    else d
  }

  function JobVerdictBy(s: Server, who: Service, j: nat): JobRunStatus {
    if who.JobRunReleaser? then ReleaserVerdict(s, j)
    else if who.JobRunDispatcher? then DispatcherVerdict(s, j)
    else MonitorVerdict(s, j)
  }

  function WaitingHandled(d: Db, t: nat): Db
    requires t < |d.taskRuns|
  {
    match TaskVerdict(d, t)
    case Some(Skipped) => Apply(d, SkipTask(t))
    case Some(Waiting) => d
    case Some(Running) => Apply(d, RunTask(t))
    case _ => Apply(d, SettleTask(t, TaskRunStatus.Invalid, TaskRunDispatcher))
  }

  /** The first attempt is inserted and read back before anything is derived from it. */
  function Started(d: Db, t: nat, now: nat): Db
    requires t < |d.taskRuns|
  {
    if MonitorStep(d, t).InsertFirst? then Apply(d, InsertAttempt(t, 1, now)) else d
  }

  function StepHandled(d: Db, t: nat, step: AttemptStep, now: nat): Db {
    match TaskStepWrite(Stepping(t, step), now)
    case Some(w) => Apply(d, w)
    case None => d
  }

  function RunningHandled(d: Db, t: nat, now: nat): Db
    requires t < |d.taskRuns|
  {
    var e := Started(d, t, now);
    StepHandled(e, t, MonitorStep(e, t), now)
  }

  /** `started_at`, the spawn, the child map, then the status: in that order. */
  function SpawnHandled(s: Server, a: nat, spawns: bool): Server {
    var d := Apply(s.db, MarkStarted(a, s.now));
    if !spawns then s.(db := Apply(d, ClearStarted(a)))
    else
      var e := Apply(d, Spawn(a));
      s.(db := Apply(e, SetRunning(a)), wroteAt := s.wroteAt[a := StartOf(d, a)], children := s.children[a := NewChild(e, a)])
  }

  function QueuedHandled(s: Server, seen: Seen, answers: Answers): Server {
    match SpawnVerdict(s, seen)
    case Invalid => s.(db := Apply(s.db, InvalidateAttempt(seen.a)))
    case Skipped => s.(db := Apply(s.db, SkipAttempt(seen.a)))
    case Running => SpawnHandled(s, seen.a, answers.spawns(seen.a))
    case _ => s
  }

  /** What the look at a process comes to: it is put back, or its attempt settles. */
  function Placed(s: Server, a: nat, sight: Sight): Server {
    var d := if sight.kill then Apply(s.db, Kill(a)) else s.db;
    var asked := if sight.ask.Some? then s.asked[a := sight.ask.value] else s.asked;
    match sight.at
    case PutBack(_, back) => s.(db := d, asked := asked, children := s.children[a := back])
    case Settling(_, next) => s.(db := Apply(d, SettleAttempt(a, next)), asked := asked)
    case _ => s
  }

  /** The process leaves the map, is looked at, and goes back unless the attempt settles. */
  function WatchHandled(s: Server, a: nat, answers: Answers): Server {
    var held := if a in s.children then Some(s.children[a]) else None;
    Placed(s.(children := s.children - {a}), a, See(s, a, held, answers.outputs(a)))
  }

  // ---- As events ----

  /** One event after another, each possible and within what the code takes on trust. */
  ghost predicate Follows(s: Server, events: seq<Event>, n: Server)
    decreases |events|
  {
    if events == [] then n == s
    else Can(s, events[0]) && InScope(s, events[0]) && Follows(Next(s, events[0]), events[1..], n)
  }

  lemma {:induction false} ThenFollows(s: Server, events: seq<Event>, m: Server, more: seq<Event>, n: Server)
    requires Follows(s, events, m) && Follows(m, more, n)
    ensures Follows(s, events + more, n)
    decreases |events|
  {
    if events == [] {
      assert events + more == more;
    } else {
      assert (events + more)[1..] == events[1..] + more;
      ThenFollows(Next(s, events[0]), events[1..], m, more, n);
    }
  }

  lemma OneEvent(s: Server, e: Event)
    requires Can(s, e) && InScope(s, e)
    ensures Follows(s, [e], Next(s, e))
  {}

  lemma TwoEvents(s: Server, e: Event, f: Event)
    requires Can(s, e) && InScope(s, e) && Can(Next(s, e), f) && InScope(Next(s, e), f)
    ensures Follows(s, [e, f], Next(Next(s, e), f))
  {}

  function IdsOf(rows: seq<Seen>): seq<nat> {
    seq(|rows|, i requires 0 <= i < |rows| => rows[i].a)
  }

  /** The server with these rows still to be handled by the service. */
  function Taken(s: Server, who: Service, rows: seq<Seen>): Server {
    match who
    case JobRunReleaser => s.(releaser := JobPoller(IdsOf(rows), JobAt.Idle))
    case JobRunDispatcher => s.(jobDispatcher := JobPoller(IdsOf(rows), JobAt.Idle))
    case JobRunMonitor => s.(jobMonitor := JobPoller(IdsOf(rows), JobAt.Idle))
    case TaskRunDispatcher => s.(taskDispatcher := TaskPoller(IdsOf(rows), TaskAt.Idle))
    case TaskRunMonitor => s.(taskMonitor := TaskPoller(IdsOf(rows), TaskAt.Idle))
    case TaskRunAttemptDispatcher => s.(spawner := SpawnPoller(rows, SpawnAt.Idle))
    case TaskRunAttemptMonitor => s.(watcher := WatchPoller(IdsOf(rows), WatchAt.Idle))
    case _ => s
  }

  lemma IdsOfTail(row: Seen, rest: seq<Seen>)
    ensures IdsOf([row] + rest) == [row.a] + IdsOf(rest) && ([row] + rest)[1..] == rest
  {}
}
