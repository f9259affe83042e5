/**
  The services as they are written: methods that read the tables, the clock and the child map,
  and change them one write at a time. Each is proved to do what `Handlers` says of it, so a
  pass over a snapshot is an execution of the protocol.
 */
module Services {
  import opened Options
  import opened Tables
  import opened Pollers
  import opened PollerInvariant
  import opened Handlers
  import opened HandlersFollow
  import opened ServerSafety

  // ---- Lists of task runs ----

  predicate AnyOf(rows: seq<TaskRun>, p: TaskRunStatus -> bool) {
    exists i :: 0 <= i < |rows| && p(rows[i].status)
  }

  predicate AllOf(rows: seq<TaskRun>, p: TaskRunStatus -> bool) {
    forall i :: 0 <= i < |rows| ==> p(rows[i].status)
  }

  /** The task runs of a job run among the first `n`. */
  function TaskRunsOf(d: Db, j: nat, n: nat): seq<TaskRun>
    requires n <= |d.taskRuns|
  {
    if n == 0 then []
    else TaskRunsOf(d, j, n - 1) + (if d.taskRuns[n - 1].jobRun == j then [d.taskRuns[n - 1]] else [])
  }

  /** JobRunMonitor::derive_next_status, a function of the list alone. */
  function VerdictOver(rows: seq<TaskRun>): Option<JobRunStatus> {
    if !AllOf(rows, (s: TaskRunStatus) => s.IsFinished()) then Some(JobRunStatus.Running)
    else if AnyOf(rows, (s: TaskRunStatus) => s.Invalid?) then Some(JobRunStatus.Invalid)
    else if AllOf(rows, (s: TaskRunStatus) => s.Succeeded?) then Some(JobRunStatus.Succeeded)
    else if AnyOf(rows, (s: TaskRunStatus) => s.Failed?) then Some(JobRunStatus.Failed)
    else if AnyOf(rows, (s: TaskRunStatus) => s.TimedOut?) then Some(JobRunStatus.TimedOut)
    else if AnyOf(rows, (s: TaskRunStatus) => s.IsStopped()) then Some(JobRunStatus.Aborted)
    else None
  }

  ghost predicate SomeBelow(d: Db, j: nat, n: nat, p: TaskRunStatus -> bool) {
    exists t :: 0 <= t < n && InJob(d, t, j) && p(d.taskRuns[t].status)
  }

  lemma AnyMore(rows: seq<TaskRun>, row: TaskRun, p: TaskRunStatus -> bool)
    ensures AnyOf(rows + [row], p) <==> AnyOf(rows, p) || p(row.status)
  {
    var more := rows + [row];
    assert more[|rows|] == row;
    assert forall i :: 0 <= i < |rows| ==> more[i] == rows[i];
  }

  lemma {:induction false} SomeIsListed(d: Db, j: nat, n: nat, p: TaskRunStatus -> bool)
    requires n <= |d.taskRuns|
    ensures AnyOf(TaskRunsOf(d, j, n), p) <==> SomeBelow(d, j, n, p)
  {
    if n > 0 {
      SomeIsListed(d, j, n - 1, p);
      if d.taskRuns[n - 1].jobRun == j {
        AnyMore(TaskRunsOf(d, j, n - 1), d.taskRuns[n - 1], p);
        assert InJob(d, n - 1, j);
      } else {
        assert TaskRunsOf(d, j, n - 1) + [] == TaskRunsOf(d, j, n - 1);
        assert !InJob(d, n - 1, j);
      }
    }
  }

  lemma ListAnswers(d: Db, j: nat, p: TaskRunStatus -> bool)
    ensures AnyOf(TaskRunsOf(d, j, |d.taskRuns|), p) <==> SomeTask(d, j, p)
    ensures AllOf(TaskRunsOf(d, j, |d.taskRuns|), p) <==> AllTasks(d, j, p)
  {
    var rows := TaskRunsOf(d, j, |d.taskRuns|);
    var not := (s: TaskRunStatus) => !p(s);
    SomeIsListed(d, j, |d.taskRuns|, p);
    SomeIsListed(d, j, |d.taskRuns|, not);
    assert AllOf(rows, p) <==> !AnyOf(rows, not);
    assert AllTasks(d, j, p) <==> !SomeBelow(d, j, |d.taskRuns|, not);
  }

  /** The list says what the tables say, in whatever order and number the rows come. */
  lemma VerdictOfList(d: Db, j: nat)
    ensures VerdictOver(TaskRunsOf(d, j, |d.taskRuns|)) == JobVerdict(d, j)
  {
    ListAnswers(d, j, (s: TaskRunStatus) => s.IsFinished());
    ListAnswers(d, j, (s: TaskRunStatus) => s.Invalid?);
    ListAnswers(d, j, (s: TaskRunStatus) => s.Succeeded?);
    ListAnswers(d, j, (s: TaskRunStatus) => s.Failed?);
    ListAnswers(d, j, (s: TaskRunStatus) => s.TimedOut?);
    ListAnswers(d, j, (s: TaskRunStatus) => s.IsStopped());
  }

  // ---- Claimed limits ----

  function LimitsInUse(d: Db): set<string> {
    set a, k |
      0 <= a < |d.attempts| && Working(d)(a) && d.attempts[a].taskRun < |d.taskRuns|
      && 0 <= k < |d.taskRuns[d.attempts[a].taskRun].limits|
      :: d.taskRuns[d.attempts[a].taskRun].limits[k]
  }

  /** For each limit claimed by an attempt holding a slot, how many such attempts claim it. */
  function ClaimedLimitSlots(d: Db): map<string, nat> {
    map limit | limit in LimitsInUse(d) :: Count(|d.attempts|, Claiming(d, limit))
  }

  lemma UnclaimedIsZero(d: Db, limit: string)
    requires limit !in LimitsInUse(d)
    ensures Count(|d.attempts|, Claiming(d, limit)) == 0
  {
    CountNone(|d.attempts|, Claiming(d, limit));
  }

  // ---- A whole pass ----

  function HandledBy(s: Server, who: Service, row: Seen, answers: Answers): Server {
    if Errs(s, who, row, answers) then s else Decided(s, who, row, answers)
  }

  function Decided(s: Server, who: Service, row: Seen, answers: Answers): Server {
    match who
    case JobRunReleaser | JobRunDispatcher | JobRunMonitor =>
      s.(db := JobHandled(s.db, who, row.a, JobVerdictBy(s, who, row.a)))
    case TaskRunDispatcher => if row.a < |s.db.taskRuns| then s.(db := WaitingHandled(s.db, row.a)) else s
    case TaskRunMonitor => if row.a < |s.db.taskRuns| then s.(db := RunningHandled(s.db, row.a, s.now)) else s
    case TaskRunAttemptDispatcher => QueuedHandled(s, row, answers)
    case TaskRunAttemptMonitor => WatchHandled(s, row.a, answers)
    case _ => s
  }

  function AfterPass(s: Server, who: Service, rows: seq<Seen>, answers: Answers): Server
    decreases |rows|
  {
    if rows == [] then s else AfterPass(HandledBy(s, who, rows[0], answers), who, rows[1..], answers)
  }

  lemma {:induction false} PassEndsWith(s: Server, who: Service, rows: seq<Seen>, answers: Answers, i: nat)
    requires i < |rows|
    ensures AfterPass(s, who, rows[..i + 1], answers) == HandledBy(AfterPass(s, who, rows[..i], answers), who, rows[i], answers)
    decreases i
  {
    if i > 0 {
      PassEndsWith(HandledBy(s, who, rows[0], answers), who, rows[1..], answers, i - 1);
      assert rows[..i + 1][1..] == rows[1..][..i] && rows[..i][1..] == rows[1..][..i - 1];
    } else {
      assert rows[..1][1..] == rows[..0];
    }
  }

  predicate RowsKnown(d: Db, who: Service, rows: seq<Seen>) {
    && ((who.TaskRunDispatcher? || who.TaskRunMonitor?) ==> forall i :: 0 <= i < |rows| ==> rows[i].a < |d.taskRuns|)
    && (who.TaskRunAttemptDispatcher? ==> forall i :: 0 <= i < |rows| ==> rows[i].a < |d.attempts|)
  }

  lemma KnownRow(d: Db, who: Service, rows: seq<Seen>, i: nat)
    requires i < |rows| && RowsKnown(d, who, rows)
    ensures RowsKnown(d, who, [rows[i]])
  {
    assert [rows[i]][0] == rows[i];
  }

  /** The task run of every attempt is a row, as the schema's foreign key has it. */
  predicate KeysOk(d: Db) {
    forall a :: 0 <= a < |d.attempts| ==> d.attempts[a].taskRun < |d.taskRuns|
  }

  predicate SameRowsIn(d: Db, e: Db) {
    |e.taskRuns| == |d.taskRuns| && |e.attempts| >= |d.attempts| && (KeysOk(d) ==> KeysOk(e))
  }

  lemma ApplyKeepsRows(d: Db, w: Write)
    requires !w.Submit? && (w.InsertAttempt? ==> w.t < |d.taskRuns|)
    ensures SameRowsIn(d, Apply(d, w))
  {
    var e := Apply(d, w);
    assert |e.taskRuns| == |d.taskRuns|;
  }

  lemma JobKeepsRows(d: Db, who: Service, j: nat, next: JobRunStatus)
    ensures SameRowsIn(d, JobHandled(d, who, j, next))
  {
    ApplyKeepsRows(d, SkipTasks(j, who));
    ApplyKeepsRows(Apply(d, SkipTasks(j, who)), SkipJob(j, who));
    ApplyKeepsRows(d, StartTasks(j));
    ApplyKeepsRows(Apply(d, StartTasks(j)), StartJob(j));
    ApplyKeepsRows(d, SettleJob(j, next));
    ApplyKeepsRows(d, Release(j));
  }

  lemma TaskKeepsRows(d: Db, t: nat, now: nat)
    requires t < |d.taskRuns|
    ensures SameRowsIn(d, WaitingHandled(d, t)) && SameRowsIn(d, RunningHandled(d, t, now))
  {
    ApplyKeepsRows(d, SkipTask(t));
    ApplyKeepsRows(d, RunTask(t));
    ApplyKeepsRows(d, SettleTask(t, TaskRunStatus.Invalid, TaskRunDispatcher));
    ApplyKeepsRows(d, InsertAttempt(t, 1, now));
    var e := Started(d, t, now);
    var w := TaskStepWrite(Stepping(t, MonitorStep(e, t)), now);
    if w.Some? { ApplyKeepsRows(e, w.value); }
  }

  lemma SpawnKeepsRows(s: Server, row: Seen, answers: Answers)
    ensures SameRowsIn(s.db, QueuedHandled(s, row, answers).db) && QueuedHandled(s, row, answers).phase == s.phase
  {
    var d := Apply(s.db, MarkStarted(row.a, s.now));
    ApplyKeepsRows(s.db, MarkStarted(row.a, s.now));
    ApplyKeepsRows(d, Spawn(row.a));
    ApplyKeepsRows(d, ClearStarted(row.a));
    ApplyKeepsRows(Apply(d, Spawn(row.a)), SetRunning(row.a));
    ApplyKeepsRows(s.db, SkipAttempt(row.a));
    ApplyKeepsRows(s.db, InvalidateAttempt(row.a));
  }

  lemma WatchKeepsRows(s: Server, a: nat, answers: Answers)
    ensures SameRowsIn(s.db, WatchHandled(s, a, answers).db) && WatchHandled(s, a, answers).phase == s.phase
  {
    var held := if a in s.children then Some(s.children[a]) else None;
    var sight := See(s, a, held, answers.outputs(a));
    var d := if sight.kill then Apply(s.db, Kill(a)) else s.db;
    ApplyKeepsRows(s.db, Kill(a));
    if sight.at.Settling? { ApplyKeepsRows(d, SettleAttempt(a, sight.at.next)); }
  }

  lemma SameRows(s: Server, who: Service, row: Seen, answers: Answers)
    ensures SameRowsIn(s.db, HandledBy(s, who, row, answers).db) && HandledBy(s, who, row, answers).phase == s.phase
  {
    if IsJobService(who) {
      JobKeepsRows(s.db, who, row.a, JobVerdictBy(s, who, row.a));
    } else if who.TaskRunDispatcher? || who.TaskRunMonitor? {
      if row.a < |s.db.taskRuns| { TaskKeepsRows(s.db, row.a, s.now); }
    } else if who.TaskRunAttemptDispatcher? {
      SpawnKeepsRows(s, row, answers);
    } else if who.TaskRunAttemptMonitor? {
      WatchKeepsRows(s, row.a, answers);
    }
  }

  /** No row of the snapshot would be skipped with a task of it that has run. */
  predicate SkipsInScope(s: Server, who: Service, rows: seq<Seen>) {
    forall i :: 0 <= i < |rows| ==> SkipInScope(s, who, rows[i].a)
  }

  lemma SkipsStayInScope(s: Server, who: Service, row: Seen, answers: Answers, rows: seq<Seen>)
    requires SkipsInScope(s, who, rows)
    ensures SkipsInScope(HandledBy(s, who, row, answers), who, rows)
  {
    if who.JobRunDispatcher? {
      var n := HandledBy(s, who, row, answers);
      forall i | 0 <= i < |rows| ensures SkipInScope(n, who, rows[i].a) {
        assert SkipInScope(s, who, rows[i].a);
        StillNeverRan(s.db, row.a, JobVerdictBy(s, who, row.a), rows[i].a);
      }
    }
  }

  lemma StillNeverRan(d: Db, j: nat, next: JobRunStatus, other: nat)
    ensures var e := JobHandled(d, JobRunDispatcher, j, next);
      e.stops == d.stops && (NeverRan(d, other) ==> NeverRan(e, other))
  {
    var e := JobHandled(d, JobRunDispatcher, j, next);
    forall t | 0 <= t < |e.taskRuns| && InJob(e, t, other) ensures InJob(d, t, other) {}
  }

  lemma RowFollows(s: Server, who: Service, row: Seen, rest: seq<Seen>, answers: Answers) returns (events: seq<Event>)
    requires s.phase.Serving? && IsPoller(who) && RowsKnown(s.db, who, [row]) && SkipInScope(s, who, row.a)
    ensures Follows(Taken(s, who, [row] + rest), events, Taken(HandledBy(s, who, row, answers), who, rest))
  {
    assert [row][0] == row;
    if Errs(s, who, row, answers) { events := ErrorFollows(s, who, row, rest, answers); }
    else if IsJobService(who) { events := JobFollows(s, who, row, rest); }
    else if who.TaskRunDispatcher? { events := TaskDispatchFollows(s, row, rest); }
    else if who.TaskRunMonitor? { events := TaskMonitorFollows(s, row, rest); }
    else if who.TaskRunAttemptDispatcher? { events := SpawnerFollows(s, row, rest, answers); }
    else { events := WatcherFollows(s, row, rest, answers); }
  }

  /** A pass over a snapshot, uninterrupted, is a run of the protocol's events. */
  lemma {:induction false} PassFollows(s: Server, who: Service, rows: seq<Seen>, answers: Answers) returns (events: seq<Event>)
    requires s.phase.Serving? && IsPoller(who) && RowsKnown(s.db, who, rows) && SkipsInScope(s, who, rows)
    ensures Follows(Taken(s, who, rows), events, Taken(AfterPass(s, who, rows, answers), who, []))
    decreases |rows|
  {
    events := [];
    if rows != [] {
      var n := HandledBy(s, who, rows[0], answers);
      assert rows == [rows[0]] + rows[1..];
      KnownRow(s.db, who, rows, 0);
      SameRows(s, who, rows[0], answers);
      SkipsStayInScope(s, who, rows[0], answers, rows);
      var first := RowFollows(s, who, rows[0], rows[1..], answers);
      var more := PassFollows(n, who, rows[1..], answers);
      ThenFollows(Taken(s, who, rows), first, Taken(n, who, rows[1..]), more, Taken(AfterPass(s, who, rows, answers), who, []));
      events := first + more;
    }
  }

  /** So whatever holds of every execution goes on holding through it. */
  lemma {:induction false} FollowsKeepsGood(s: Server, events: seq<Event>, n: Server)
    requires Good(s) && Follows(s, events, n)
    ensures Good(n)
    decreases |events|
  {
    if events != [] {
      GoodKept(s, events[0]);
      FollowsKeepsGood(Next(s, events[0]), events[1..], n);
    }
  }

  // ---- A whole wake-up ----

  /** The one query a wake-up starts with: every row in the service's status, in id order. */
  function RowsFor(d: Db, who: Service): seq<Seen> {
    match who
    case JobRunReleaser => Unseen(SelectedJobs(d, JobRunStatus.Scheduled))
    case JobRunDispatcher => Unseen(SelectedJobs(d, JobRunStatus.Queued))
    case JobRunMonitor => Unseen(SelectedJobs(d, JobRunStatus.Running))
    case TaskRunDispatcher => Unseen(SelectedTasks(d, TaskRunStatus.Waiting))
    case TaskRunMonitor => Unseen(SelectedTasks(d, TaskRunStatus.Running))
    case TaskRunAttemptDispatcher => SeenRows(d)
    case TaskRunAttemptMonitor => Unseen(SelectedAttempts(d, AttemptStatus.Running))
    case _ => []
  }

  function Unseen(ids: seq<nat>): seq<Seen> {
    seq(|ids|, i requires 0 <= i < |ids| => Seen(ids[i], None))
  }

  lemma IdsOfUnseen(ids: seq<nat>)
    ensures IdsOf(Unseen(ids)) == ids
  {}

  lemma RowsForKnown(d: Db, who: Service)
    ensures RowsKnown(d, who, RowsFor(d, who))
  {
    var rows := RowsFor(d, who);
    if who.TaskRunDispatcher? {
      assert forall i :: 0 <= i < |rows| ==> rows[i].a in SelectedTasks(d, TaskRunStatus.Waiting);
    } else if who.TaskRunMonitor? {
      assert forall i :: 0 <= i < |rows| ==> rows[i].a in SelectedTasks(d, TaskRunStatus.Running);
    } else if who.TaskRunAttemptDispatcher? {
      assert forall i :: 0 <= i < |rows| ==> rows[i].a in SelectedAttempts(d, AttemptStatus.Queued);
    }
  }

  /** The service has no row in hand and none left to take. */
  ghost predicate AtRest(s: Server, who: Service) {
    Taken(s, who, []) == s
  }

  lemma SelectTakes(s: Server, who: Service)
    requires s.phase.Serving? && IsPoller(who) && AtRest(s, who)
    ensures Can(s, Select(who)) && Next(s, Select(who)) == Taken(s, who, RowsFor(s.db, who))
  {
    IdsOfUnseen(SelectedJobs(s.db, JobRunStatus.Scheduled));
    IdsOfUnseen(SelectedJobs(s.db, JobRunStatus.Queued));
    IdsOfUnseen(SelectedJobs(s.db, JobRunStatus.Running));
    IdsOfUnseen(SelectedTasks(s.db, TaskRunStatus.Waiting));
    IdsOfUnseen(SelectedTasks(s.db, TaskRunStatus.Running));
    IdsOfUnseen(SelectedAttempts(s.db, AttemptStatus.Running));
  }

  lemma HandledAtRest(s: Server, who: Service, row: Seen, answers: Answers)
    requires AtRest(s, who)
    ensures AtRest(HandledBy(s, who, row, answers), who)
  {}

  lemma {:induction false} PassAtRest(s: Server, who: Service, rows: seq<Seen>, answers: Answers)
    requires AtRest(s, who)
    ensures AtRest(AfterPass(s, who, rows, answers), who)
    decreases |rows|
  {
    if rows != [] {
      HandledAtRest(s, who, rows[0], answers);
      PassAtRest(HandledBy(s, who, rows[0], answers), who, rows[1..], answers);
    }
  }

  /** One wake-up, uninterrupted: a select, and then the events of every row it found. */
  lemma WakeUpFollows(s: Server, who: Service, answers: Answers) returns (events: seq<Event>)
    requires s.phase.Serving? && IsPoller(who) && AtRest(s, who)
    ensures SkipsInScope(s, who, RowsFor(s.db, who)) ==>
      && Follows(s, events, AfterPass(s, who, RowsFor(s.db, who), answers))
      && (Good(s) ==> Good(AfterPass(s, who, RowsFor(s.db, who), answers)))
  {
    var rows := RowsFor(s.db, who);
    var n := AfterPass(s, who, rows, answers);
    RowsForKnown(s.db, who);
    SelectTakes(s, who);
    PassAtRest(s, who, rows, answers);
    events := [];
    if SkipsInScope(s, who, rows) {
      var more := PassFollows(s, who, rows, answers);
      OneEvent(s, Select(who));
      ThenFollows(s, [Select(who)], Next(s, Select(who)), more, n);
      events := [Select(who)] + more;
      if Good(s) { FollowsKeepsGood(s, events, n); }
    }
  }
}
