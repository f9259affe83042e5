# Verification of flowlite's run protocol and its neighbours

A Dafny model of the parts of flowlite whose correctness spans functions: the seven pollers that
share the run tables, the check of a job's task graph, the reader of a command's output, and the
three reconcilers (cron, scheduler, retention). `dafny verify dfyconfig.toml` checks all of it.

## What is modelled

**The tables and their writes** (`Tables`, `TableInvariant`, `RunFacts`, `Termination`). Job runs,
task runs, attempts and stops are sequences of rows; an id is a position. `Apply` is each update
as the code makes it: keyed by id alone, with no look at what the row held. `Enabled` is what the
service making the write relies on. `Inv` says what the tables look like whatever has happened;
`RunFacts` reads the promises about runs off it, and `Termination` gives every run a natural
number that each status write and attempt insert lowers.

**The pollers** (`Pollers`, `PollerInvariant`, `PollerSteps`, `PollerEvents`, `AttemptEvents`,
`ServerSafety`, `Executions`). A server holds, for each service, the rest of the snapshot it
selected and where it is with the row in hand. An event is one query, one decision or one write
of one service; an error that abandons a row; a process that ends; a user's submit, stop or
delete; a mark that an attempt waits; time; a crash with a restart under another configuration;
or one step of recovery. Nothing is atomic beyond one such event, so a crash or an error can fall
between the two writes of a start and between any two of the steps of a spawn: `started_at`,
spawn, child map, `Running`. An execution is any sequence of events from empty tables on, and the
lemmas of `Executions` hold of all of them.

**What the laws come to** (`Submissions`, `Outcomes`, `Decisions`, `Histories`, `Reasons`, `Stops`,
`Progress`). What a submission inserts, and that the order kept is the order declared; what lies behind every
status something settles as; each decision and each write of each service, said of the rows, the
clock and the configuration; what was waited for or seen before; and that the services, as they
are written, move every Running run on.

**The services as written** (`Handlers`, `HandlersFollow`, `Services`, `Orchestrators`). A class
whose fields are the tables, the child map and the clock, with the services' methods on it; each
is proved against a function of the old state. One whole wake-up of a poller, uninterrupted but
with rows that err stepped over, is proved to be events of the protocol above, so it keeps the
invariant every execution's lemmas rest on.

**The task graph** (`TaskGraph`), **the output reader** (`Utf8`, `Utf8Encodings`, `Boundaries`,
`StreamCaptures`, `StreamOutputs`, `StreamReaders`), **the output table** (`OutputLogs`), **cron
occurrences** (`CronTriggers`), **the scheduler** (`Schedulers`) and **retention** (`Retention`,
`RetentionFacts`, `RetentionStack`, `RetentionTakes`) each follow their own source file.

## Three things the protocol takes on trust

The lemmas of `Executions` assume the first two (`PollerInvariant.InScope`); `Scope` says exactly
when each holds and gives an execution from the start of a server in which it does not. The third
is built into the model.

- A delete must not land while JobRunReleaser has the run in its snapshot: the update that queues
  a run is keyed by its id alone and brings a deleted run back. That at most one run stands for a
  scheduled occurrence rests on this too: `Schedulers.UniqueIff` says exactly when a revived run
  breaks it, and `Schedulers.RevivalDuplicates` shows one that does.
- A run must not be skipped by JobRunDispatcher once a task run of it has run, or while
  TaskRunDispatcher has one in its snapshot. After a start whose second write failed the run is
  Queued with Waiting task runs; a stop then has it skipped, task runs that have started included,
  and one about to start is started over the skip.
- A submit inserts a run and its task runs together. The code inserts them one after another, so a
  reader could meet a run with only some of its task runs; that a Running run has no Planned task
  run, and is never stuck, rests on nobody doing so.

## Where code and documentation differ

- The comments in `task_run_attempt_reader.rs` say that a stream inside its budget is recorded
  whole and in order. When the cut of the head backs off to a character boundary, one to three
  bytes of head room stay. A later piece that starts with a character that small is sent ahead of
  the held tail; and with that much less capacity a stream that fits the budget can lose bytes.
  The model follows the code. `StreamOutputs.KeptWholeIff` gives the exact condition for every
  stream within the budget, `StreamReaders.RecordedOutOfOrder` and `StreamReaders.DroppedWithinBudget`
  the two ways it fails.
- `REFERENCE.md` says the total ceiling of retention is enforced after each job's own `keep_runs`.
  The code computes its overflow as if the per-job rule had picked nothing, so a pass can leave
  fewer runs than the total allows. `RetentionStack.StackIff` says when the two rules stack, over
  the rows, the configuration and the order of the jobs, `RetentionStack.StackIffUnbudgeted` in the simplest case, and
  `RetentionStack.RulesDoNotStack` shows four runs for which they do not.

## Model

| member | source | states |
|---|---|---|
| Executions.SnapshotsStayTrue | src/poller.rs:114-127 | in every interleaving each row a service still has to handle, and the one in hand, is still in the status it was selected with |
| Executions.EveryWriteIsEnabled | src/orchestrator/job_run_releaser.rs:87-104 | every write, keyed by id alone, meets its row in the state it was decided for |
| Executions.FinishedIsForGood | src/crud/job_run.rs:51-79 | a finished status of a job run, task run or attempt never changes again, whatever follows |
| Executions.DependencyOrder | src/orchestrator/task_run_dispatcher.rs:59-110 | once a task run has been Running, all the task runs it transitively depends on are Succeeded from then on |
| Executions.NoPlannedUnderRunning | src/orchestrator/job_run_dispatcher.rs:110-156 | a Running job run has no Planned task run, even after a crash between the two start writes |
| Executions.HistoryHolds | src/orchestrator/task_run_monitor.rs:59-125 | attempts are numbered exactly 1 to n, n at most max_retries + 1, and all but the last are Failed |
| Executions.SuccessHolds | src/orchestrator/job_run_monitor.rs:54-85 | a settled run is Succeeded exactly when the last attempt of every one of its task runs Succeeded |
| Executions.StoppedFirst | src/orchestrator/job_run_monitor.rs:79-82 | a run ends Aborted or Skipped only if it was stopped earlier in the execution |
| Executions.SpawnedOnce | src/orchestrator/task_run_attempt_dispatcher.rs:79-94 | two successful spawns for one attempt are the same event, across crashes and restarts |
| Executions.NeverTwoShells | src/orchestrator/task_run_monitor.rs:65-86 | two attempts of one task run never have their shells alive together |
| Executions.CapsHold | src/orchestrator/task_run_attempt_dispatcher.rs:204-288 | outside recovery, attempts that never waited are within the global cap and each named limit of the current configuration; runs of a job within its maximum |
| Executions.RunIsBounded | src/orchestrator/task_run_monitor.rs:59-125 | the events that write a status of a run or of its rows or insert an attempt for it: at most 3 for the run, 3 for each task and 3 for each allowed try |
| Executions.ChangesAreWork | src/orchestrator/task_run_attempt_monitor.rs:57-87 | over any stretch of an execution those events plus the work left are at most the work there was |
| Executions.NeverStuck | src/orchestrator/task_run_dispatcher.rs:59-110 | a Running run always has a poller's write that may be made and changes it, or an attempt Queued or Running |
| Progress.RunMovesOrWaits | src/poller.rs:91-131 | while reads and spawns succeed, some service's next wake-up finds a row of any Running run and moves the run on, unless an attempt of it is held back or its process goes on |
| Executions.HeldOnlyByRunning | src/orchestrator/task_run_attempt_dispatcher.rs:204-228 | a Queued attempt past its retry delay is held only while some attempt is Running and not waiting |
| Executions.MoveIsAWrite | src/orchestrator/job_run_monitor.rs:35-47 | what a service decides about a run is a write it may make, and it changes the run |
| Executions.ChildMapAgrees | src/orchestrator/task_run_attempt_monitor.rs:57-61 | between looks every Running attempt has its process in the map or lost it to an error; only a lost one is settled Invalid |
| Executions.LostOnlyByError | src/orchestrator/task_run_attempt_monitor.rs:174-208 | a process is lost only by an error while its attempt is being settled |
| Executions.AskedSettlesAsDecided | src/orchestrator/task_run_attempt_monitor.rs:287-337 | an attempt sent SIGTERM settles only as the status decided then, or Invalid |
| Executions.GraceIsGiven | src/orchestrator/task_run_attempt_monitor.rs:322-337 | the monitor kills no attempt sent SIGTERM before kill_at unless its process group is gone; recovery after a crash may signal the group earlier |
| Executions.AlwaysGood | src/poller.rs:91-131 | the invariant between the tables and every service's memory holds in every state of every execution |
| Submissions.SubmitInserts | src/crud/multistatements/job_run_definition.rs:247-303 | a submission adds one Scheduled run and for each task exactly one Planned task run with its limits, timeouts and retries, whose dependencies are the new rows of the tasks it names; nothing else changes |
| Submissions.RunStaysAsDeclared | src/crud/multistatements/job_run_definition.rs:272-298 | in every later state the run has exactly those task runs |
| Submissions.DeclaredOrder | src/orchestrator/task_run_dispatcher.rs:59-110 | once the task run of a task has run, that of every task it declares, directly or through others, is Succeeded from then on |
| Outcomes.SettledAsLast | src/orchestrator/task_run_monitor.rs:59-100 | in every state a task run that ran and settled did so as its last attempt ended, and never while that was Failed with a retry left |
| Outcomes.RetriesUsedUp | src/orchestrator/task_run_monitor.rs:79-86 | a Failed task run has exactly max_retries + 1 attempts, every one Failed |
| Outcomes.RunSettledAs | src/orchestrator/job_run_monitor.rs:54-85 | a settled run is Invalid, Failed, TimedOut or Aborted for the highest-ranking status among its task runs, and Succeeded exactly when all are |
| Outcomes.SucceededExitedZero | src/orchestrator/task_run_attempt_monitor.rs:100-106 | no attempt is ever Succeeded whose command did not exit with 0 |
| Outcomes.SuccessIsExitZero | src/orchestrator/job_run_monitor.rs:66-69 | of a Succeeded run the last command of every task exited with 0 |
| Reasons.SettledForAReason | src/orchestrator/task_run_attempt_monitor.rs:69-124 | behind each settled attempt is the earlier event that saw why: exit 0 with its result recorded, another exit, a timeout or silence run over, a stop while it ran or before it began; behind an Invalid one a restart, a command already begun for, or a lost one |
| Reasons.AskedWithGrace | src/orchestrator/task_run_attempt_monitor.rs:287-315 | SIGTERM is sent at a look that finds the process running over or its run stopped, and kill_at is one grace after that look |
| Reasons.WroteLast | src/orchestrator/task_run_attempt_children.rs:77-86 | silence is counted from the last read of output, whatever happened since |
| Histories.RetryDelayWaited | src/orchestrator/task_run_attempt_dispatcher.rs:206-214 | nothing is spawned for a retry before its task's retry_delay is over |
| Histories.CreatedWhenInserted | src/orchestrator/task_run_monitor.rs:167-196 | the instant that delay counts from is when TaskRunMonitor inserted the attempt |
| Histories.QueuedWhenDue | src/orchestrator/job_run_releaser.rs:56-67 | no run is queued before it is due |
| Histories.AlwaysTimely | src/orchestrator/task_run_attempt_dispatcher.rs:449-454 | in every state a process times out at its started_at and its task's timeout, and a start on its way has waited out its delay |
| Stops.NothingStartsOnceStopped | src/orchestrator/task_run_dispatcher.rs:83-98 | after a stop, and once what was decided before it is written, neither the run nor any task run or command of it starts |
| Decisions.SnapshotIsWhole | src/poller.rs:114-116 | a snapshot is every row in the service's status, oldest first |
| Decisions.ReleaserDecides | src/orchestrator/job_run_releaser.rs:56-67 | skipped exactly if stopped, queued exactly if due and not stopped |
| Decisions.DispatcherDecides | src/orchestrator/job_run_dispatcher.rs:60-71 | held exactly while the Running runs of its job, counted, are at its maximum |
| Decisions.MonitorDecides | src/orchestrator/job_run_monitor.rs:54-85 | goes on exactly while a task run is unfinished, else the ranking of their statuses |
| Decisions.JobRowIsWritten | src/orchestrator/job_run_dispatcher.rs:99-156 | a job service writes the status it decided, task runs before the run, and changes nothing else |
| Decisions.TaskDispatcherDecides | src/orchestrator/task_run_dispatcher.rs:59-110 | skipped exactly if stopped or a dependency ended badly, else held exactly while one is unfinished |
| Decisions.TaskMonitorDecides | src/orchestrator/task_run_monitor.rs:59-100 | what the newest attempt calls for: another exactly while it is Failed with a retry left |
| Decisions.TaskRowIsWritten | src/orchestrator/task_run_monitor.rs:102-125 | a task service writes that status, or one Queued attempt created now, and changes nothing else |
| Decisions.SpawnerDecides | src/orchestrator/task_run_attempt_dispatcher.rs:79-94 | Invalid exactly if begun for, else skipped if stopped, else held exactly in its retry delay or while the slots held, counted, fill the cap or that of a claimed limit |
| Decisions.SpawnStepIsMade | src/orchestrator/task_run_attempt_dispatcher.rs:376-513 | each step of a start in its order: started_at now, the process, its timeouts in the map, the status |
| Decisions.ShellIsSpawned | src/orchestrator/task_run_attempt_dispatcher.rs:399-430 | a spawn makes the one process of the attempt, or leaves the mark to be taken back |
| Decisions.WatcherLooks | src/orchestrator/task_run_attempt_monitor.rs:69-124 | exit 0 with its result recorded is a success and any other exit a failure; an exit outranks a timeout and that a stop; an ending process settles once its group is gone or its grace over |
| Decisions.WatcherRowIsWritten | src/orchestrator/task_run_attempt_monitor.rs:501-540 | the process goes back, or its attempt gets the status decided, and nothing else changes |
| Decisions.WatcherGivesUp | src/orchestrator/task_run_attempt_monitor.rs:83-86 | an error before a decision puts the process back as it was |
| Decisions.WorldIsWritten | src/crud/multistatements/delete_job_run.rs:30-100 | what a stop, a delete, an exit or a waiting mark changes, and that it is all |
| Decisions.RecoveredRowIsWritten | src/orchestrator/recovery.rs:34-77 | recovery makes the next attempt left Running Invalid, and changes nothing else |
| Decisions.CrashForgets | src/orchestrator/recovery.rs:18-32 | a restart has no process, no snapshot and no decision, and every Running attempt to recover |
| ServerSafety.GoodKept | src/poller.rs:91-131 | any event of anyone, wherever it lands in anyone's pass, keeps that invariant |
| ServerSafety.CapsKept | src/orchestrator/task_run_attempt_dispatcher.rs:204-228 | no event takes the Running attempts over a cap |
| ServerSafety.RecoveringKept | src/orchestrator/recovery.rs:20-77 | while recovering nothing runs but what is still to be recovered, so serving starts with no attempt Running |
| ServerSafety.ChildrenKept | src/orchestrator/task_run_attempt_dispatcher.rs:490-513 | the process is in the map before its attempt is Running, and leaves it only into the monitor's hand |
| ServerSafety.AskedKept | src/orchestrator/task_run_attempt_monitor.rs:287-315 | the status decided at SIGTERM goes with the process from the map to the hand to the write |
| PollerInvariant.WritesAreEnabled | src/orchestrator/job_run_dispatcher.rs:40-52 | in a state that meets the invariant, every write a service makes is enabled |
| PollerEvents.ReleaserKept | src/orchestrator/job_run_releaser.rs:40-68 | nobody else's event spoils JobRunReleaser's snapshot or decision, given no delete in its window |
| PollerEvents.DispatcherKept | src/orchestrator/job_run_dispatcher.rs:40-72 | nor JobRunDispatcher's, a free run slot it has seen included |
| PollerEvents.MonitorKept | src/orchestrator/job_run_monitor.rs:35-47 | nor JobRunMonitor's verdict over settled task runs |
| PollerEvents.ParallelKept | src/orchestrator/job_run_dispatcher.rs:60-71 | Running runs of one job stay within its maximum |
| PollerEvents.TaskDispatcherKept | src/orchestrator/task_run_dispatcher.rs:40-76 | nor TaskRunDispatcher's verdict on a waiting task run |
| PollerEvents.TaskMonitorKept | src/orchestrator/task_run_monitor.rs:35-52 | nor TaskRunMonitor's, the read-back of an inserted first attempt included |
| AttemptEvents.SpawnerKept | src/orchestrator/task_run_attempt_dispatcher.rs:367-513 | nor TaskRunAttemptDispatcher's, between any two steps of a spawn: the slot it saw stays free |
| AttemptEvents.WatcherKept | src/orchestrator/task_run_attempt_monitor.rs:57-87 | nor TaskRunAttemptMonitor's, with a process in hand |
| AttemptEvents.SightOk | src/orchestrator/task_run_attempt_monitor.rs:94-124 | what the monitor makes of a process is borne out by the process and the stops |
| TableInvariant.InvKept | src/orchestrator/task_run_dispatcher.rs:59-76 | every enabled write keeps the invariant of the tables |
| TableInvariant.WriteExtends | src/crud/task_run.rs:30-43 | every enabled write only moves statuses on, and out of a status only by the service that selects on it |
| TableInvariant.SettledJobKept | src/orchestrator/job_run_monitor.rs:54-85 | the verdict over task runs that have all settled does not change |
| TableInvariant.SettledStepKept | src/orchestrator/task_run_monitor.rs:59-112 | what TaskRunMonitor makes of a settled last attempt stays the same until it inserts another |
| RunFacts.DependenciesRanFirst | src/orchestrator/task_run_dispatcher.rs:59-110 | along any path of dependencies from a task run that has run, all are Succeeded |
| RunFacts.AttemptHistory | src/orchestrator/task_run_monitor.rs:167-196 | numbers 1 to n once each, n within the retries, all but the last Failed |
| RunFacts.OneShellPerTask | src/orchestrator/task_run_monitor.rs:79-86 | an attempt is spawned for at most once and no two shells of a task run are alive |
| RunFacts.SucceededIff | src/orchestrator/job_run_monitor.rs:66-69 | Succeeded exactly when each last attempt Succeeded |
| RunFacts.StopTraced | src/orchestrator/task_run_dispatcher.rs:83-98 | a stopped verdict leads back through skipped dependencies to a stop of the run |
| RunFacts.AbortedOnlyIfStopped | src/crud/task_run.rs:45-67 | an Aborted or Skipped run has a stop row |
| RunFacts.NoDeadlock | src/orchestrator/job_run_dispatcher.rs:116-156 | in a Running run a service decides a change, or an attempt is in flight |
| RunFacts.LowestUnfinished | src/crud/crud.rs:398-476 | below any unfinished task run there is one whose dependencies have all finished |
| RunFacts.JobVerdictDecided | src/orchestrator/job_run_monitor.rs:54-85 | the arm reported as a bug is never taken, and Running is derived exactly while a task run is unfinished |
| RunFacts.TaskVerdictDecided | src/orchestrator/task_run_dispatcher.rs:59-76 | the arm reported as a bug is never taken |
| Termination.WorkDrops | src/orchestrator/task_run_monitor.rs:59-125 | each enabled write leaves a run as it was or strictly lowers its work |
| Termination.SubmittedWork | src/crud/multistatements/job_run_definition.rs:247-330 | the work of a run just submitted is a formula in its tasks and their max_retries |
| Scope.DeleteOutsideTheWindow | src/orchestrator/job_run_releaser.rs:87-104 | a delete keeps the invariant exactly when the run is not in the releaser's snapshot |
| Scope.DeleteIsOverwritten | src/orchestrator/job_run_releaser.rs:87-104 | with the run in hand to be queued, a delete is overwritten by the update |
| Scope.DeleteCanBeOverwritten | src/orchestrator/job_run_releaser.rs:40-52 | that state can be reached from the start of a server |
| Scope.SkipKeepsHistory | src/crud/multistatements/skip_job_run.rs:28-61 | a skip keeps the invariant and undoes nothing exactly when no task run of the run has run and TaskRunDispatcher holds none of them |
| Scope.SkipCanUndoHistory | src/orchestrator/job_run_dispatcher.rs:110-156 | a failed second start write, then a stop, leads to a skip over a Running task run |
| Scope.SkipIsOverwritten | src/orchestrator/task_run_dispatcher.rs:40-52 | an execution in which no task of a skipped run has run, and yet one is started over the skip |
| Services.WakeUpFollows | src/poller.rs:91-131 | one wake-up, select and rows, is events of the protocol and keeps its invariant, unless it skips a run of which a task has run |
| Services.FollowsKeepsGood | src/poller.rs:91-131 | any events that may follow each other keep the invariant of the executions |
| Services.VerdictOfList | src/orchestrator/job_run_monitor.rs:54-85 | the verdict derived from a list of task runs is the one the tables call for |
| Orchestrators.Orchestrator.Run | src/poller.rs:114-127 | handles every row of one snapshot, stepping over those that err; the result is the fold of the handlers, and keeps the protocol's invariant |
| Orchestrators.Orchestrator.Handle | src/poller.rs:118-126 | dispatches one row to its service's handler, and errs exactly when its reads fail or a dependency is missing |
| Orchestrators.Orchestrator.HandleScheduledJobRun | src/orchestrator/job_run_releaser.rs:40-104 | skips a stopped run, queues a due one, leaves the rest |
| Orchestrators.Orchestrator.HandleQueuedJobRun | src/orchestrator/job_run_dispatcher.rs:40-156 | skips, holds behind the maximum, or starts: task runs first |
| Orchestrators.Orchestrator.DeriveRunningJobRun | src/orchestrator/job_run_monitor.rs:54-85 | the verdict over the run's task runs |
| Orchestrators.Orchestrator.HandleRunningJobRun | src/orchestrator/job_run_monitor.rs:35-47 | settles the run as its verdict once every task run has finished |
| Orchestrators.Orchestrator.GetDependentTaskRuns | src/orchestrator/task_run_dispatcher.rs:231-263 | the dependencies' rows in the order declared, or an error naming one that is missing |
| Orchestrators.Orchestrator.DeriveWaitingTaskRun | src/orchestrator/task_run_dispatcher.rs:59-110 | skip, wait or run, as the tables call for; an error exactly when a dependency is missing |
| Orchestrators.Orchestrator.HandleWaitingTaskRun | src/orchestrator/task_run_dispatcher.rs:40-52 | writes that verdict; on an error the task run is left as it was |
| Orchestrators.Orchestrator.GetOrStartAttempt | src/orchestrator/task_run_monitor.rs:167-196 | the last attempt, or a first one inserted and read back |
| Orchestrators.Orchestrator.HandleRunningTaskRun | src/orchestrator/task_run_monitor.rs:35-112 | settles the task run from its last attempt, retries it or leaves it; the arm reported as a bug is dead |
| Orchestrators.Orchestrator.DeriveRunningTaskRun | src/orchestrator/task_run_monitor.rs:59-125 | inserts the next attempt exactly while the last is Failed with a retry left, else the status the last one ended as |
| Orchestrators.Orchestrator.AClaimedLimitIsFull | src/orchestrator/task_run_attempt_dispatcher.rs:245-288 | some claimed limit is at its maximum; else exactly the unconfigured names are reported |
| Orchestrators.Orchestrator.ShouldWait | src/orchestrator/task_run_attempt_dispatcher.rs:204-228 | held by the retry delay, the global cap or a named limit |
| Orchestrators.Orchestrator.DeriveQueuedAttempt | src/orchestrator/task_run_attempt_dispatcher.rs:79-94 | already spawned for outranks a stop, which outranks being held |
| Orchestrators.Orchestrator.SetToRunning | src/orchestrator/task_run_attempt_dispatcher.rs:367-513 | started_at, spawn, child map, status; or the mark taken back |
| Orchestrators.Orchestrator.HandleQueuedAttempt | src/orchestrator/task_run_attempt_dispatcher.rs:58-73 | writes what was derived |
| Orchestrators.Orchestrator.BeginTermination | src/orchestrator/task_run_attempt_monitor.rs:287-315 | asks and puts back with the status decided, or kills and settles at once with no grace |
| Orchestrators.Orchestrator.HandleTerminating | src/orchestrator/task_run_attempt_monitor.rs:322-337 | settles once the group is gone or the grace is over, else puts back |
| Orchestrators.Orchestrator.HandleHeld | src/orchestrator/task_run_attempt_monitor.rs:69-124 | exit 0 with its result recorded settles Succeeded, any other exit Failed; an exit outranks a timeout, which outranks a stop |
| Orchestrators.Orchestrator.HandleRunningAttempt | src/orchestrator/task_run_attempt_monitor.rs:57-87 | takes the process out of the map and puts it back only if the attempt goes on, or nothing could be derived |
| Orchestrators.Orchestrator.RecoverOrphanedAttempts | src/orchestrator/recovery.rs:14-110 | exactly the attempts left Running become Invalid and the runs they submitted are stopped; exactly the groups recorded for those started since the last boot are signalled |
| TaskGraph.ValidateJobTasks | src/crud/crud.rs:362-396 | accepts exactly when ids are distinct, dependencies declared and a topological order exists; a refusal names a genuine fault |
| TaskGraph.FindTaskDependencyCycle | src/crud/crud.rs:398-426 | a genuine closed dependency walk, or none and a topological order |
| TaskGraph.CycleSearch.Walk | src/crud/crud.rs:428-476 | clears the task and all below it, or finds a cycle; ends, and never pushes a task twice |
| TaskGraph.CycleExcludesOrder | src/crud/crud.rs:398-426 | no task on a cycle can stand in a list that puts dependencies first |
| Utf8.DecodedWhole | src/orchestrator/task_run_attempt_reader.rs:54-82 | however a stream is split into reads, the pieces and the flush add up to the one maximal-subpart decoding of the whole |
| Utf8.SplitsAgree | src/orchestrator/task_run_attempt_reader.rs:85-99 | two splits of the same bytes decode alike |
| Utf8.TakeThenMore | src/orchestrator/task_run_attempt_reader.rs:100-137 | what a read hands on is final: more bytes only extend what the carry becomes |
| Utf8.CarryIsShort | src/orchestrator/task_run_attempt_reader.rs:85-99 | the carry is the start of a character, at most three bytes; what is handed on is whole characters |
| Utf8.TakeValidUtf8 | src/orchestrator/task_run_attempt_reader.rs:100-137 | the loop over the library's error reports takes exactly what is decided |
| Utf8.DecodeIsLossless | src/orchestrator/task_run_attempt_reader.rs:85-99 | the decoding is always valid, and is the input exactly when that was valid |
| Utf8.SubpartIsMaximal | src/orchestrator/task_run_attempt_reader.rs:124-130 | what one replacement stands for is the longest start of a character there, or one byte |
| Utf8.OpenIffCompletable | src/orchestrator/task_run_attempt_reader.rs:123-125 | the carry condition: a sequence more bytes could complete, by the grammar of RFC 3629 |
| Utf8Encodings.CharIffEncoded | src/orchestrator/task_run_attempt_reader.rs:100-121 | the grammar's characters are exactly the encodings of the scalar values by section 3 of RFC 3629, one each |
| Utf8Encodings.ValidIffText | src/orchestrator/task_run_attempt_reader.rs:100-121 | bytes are valid exactly when they encode some text |
| Utf8Encodings.BadPartIsReplaced | src/orchestrator/task_run_attempt_reader.rs:113-137 | the longest part that can never be a character is replaced by one U+FFFD, and decoding goes on after it |
| Boundaries.BoundarySplits | src/orchestrator/task_run_attempt_reader.rs:263-294 | a byte test finds exactly the places where a text splits into two valid texts |
| Boundaries.SuffixIsLongest | src/orchestrator/task_run_attempt_reader.rs:261-275 | the trimmed tail is the longest valid suffix within its bytes |
| Boundaries.PrefixIsLongest | src/orchestrator/task_run_attempt_reader.rs:277-294 | the truncated head is the longest valid prefix within its bytes |
| Boundaries.RollingSuffix | src/orchestrator/task_run_attempt_reader.rs:207-210 | trimming as text arrives keeps what trimming once at the end would |
| StreamCaptures.TailIsLongestSuffix | src/orchestrator/task_run_attempt_reader.rs:204-217 | the rolling tail is the longest whole-character suffix of all held text; capped exactly when that text is longer than its half |
| StreamCaptures.BudgetKept | src/orchestrator/task_run_attempt_reader.rs:152-259 | the stream's bytes sent are within max_bytes; the marks appear exactly when bytes are missing, and name exactly how many |
| StreamOutputs.OrderKeptIff | src/orchestrator/task_run_attempt_reader.rs:189-205 | head and held text are the stream in order exactly when no piece comes late |
| StreamOutputs.ExactOutput | src/orchestrator/task_run_attempt_reader.rs:182-259 | with nothing late the output is the whole text, or head, marks and tail: a function of the text and the budget |
| StreamOutputs.HeadFillsExactly | src/orchestrator/task_run_attempt_reader.rs:189-202 | nothing is late in any split of a text whose head ends at a character boundary |
| StreamOutputs.SplitDoesNotMatter | src/orchestrator/task_run_attempt_reader.rs:182-259 | two splits of such a text read the same |
| StreamOutputs.KeptWholeIff | src/orchestrator/task_run_attempt_reader.rs:216-242 | a stream within the budget reads as written exactly when nothing was late and what is past the head's whole characters fits the tail's half |
| StreamReaders.ReadStream | src/orchestrator/task_run_attempt_reader.rs:40-82 | the read loop sends what the capture makes of the stream's pieces, or the first so many of it if the receiver goes away |
| StreamReaders.StreamCapture.Record | src/orchestrator/task_run_attempt_reader.rs:182-234 | head, tail and mark as specified; it errs exactly when a send fails, with nothing sent after that |
| StreamReaders.StreamCapture.FlushTail | src/orchestrator/task_run_attempt_reader.rs:243-259 | the mark of what was dropped, then the tail |
| StreamReaders.TrimToTail | src/orchestrator/task_run_attempt_reader.rs:263-275 | the longest whole-character suffix within the bound |
| StreamReaders.TruncateAtCharBoundary | src/orchestrator/task_run_attempt_reader.rs:279-294 | the longest whole-character prefix within the bound |
| StreamReaders.RecordedIsDecoded | src/orchestrator/task_run_attempt_reader.rs:54-82 | the recorded pieces are whole characters and add up to the one decoding |
| StreamReaders.StreamRecorded | src/orchestrator/task_run_attempt_reader.rs:40-82 | where the head fills exactly, what is recorded depends on the bytes written alone |
| StreamReaders.RecordedOutOfOrder | src/orchestrator/task_run_attempt_reader.rs:189-205 | streams within the budget, nothing dropped, that read out of order |
| StreamReaders.MisfitExists | src/orchestrator/task_run_attempt_reader.rs:189-205 | one of them: "abc", "é", "x" under a budget of eight |
| StreamReaders.DroppedWithinBudget | src/orchestrator/task_run_attempt_reader.rs:216-234 | a single read within the budget, nothing late, of which bytes are dropped all the same |
| StreamReaders.DroppedExists | src/orchestrator/task_run_attempt_reader.rs:216-234 | one of them: "abcéé1", eight bytes under a budget of eight |
| OutputLogs.NothingLost | src/orchestrator/task_run_attempt_monitor.rs:364-381 | from any moment on, over any passes, rows and channel together read what they did and then what the readers send, per stream and in order |
| OutputLogs.LogIsComplete | src/orchestrator/task_run_attempt_monitor.rs:386-414 | after the last drain, one that gives up before end of stream included, the rows group to exactly what the readers had delivered by then; flowlite's own notes add to stderr only |
| OutputLogs.NotePlaced | src/orchestrator/task_run_attempt_monitor.rs:294-299 | a note stands on stderr after all that had been recorded when it was made and before all the rest |
| OutputLogs.OneRowPerStream | src/orchestrator/task_run_attempt_monitor.rs:419-456 | a pass adds at most one row per stream, none for a silent one |
| OutputLogs.OutputLog.RecordOutput | src/orchestrator/task_run_attempt_monitor.rs:364-381 | drains the channel into those rows |
| OutputLogs.OutputLog.InsertOutput | src/orchestrator/task_run_attempt_monitor.rs:419-456 | a row per stream with content |
| OutputLogs.GroupTaskRunAttemptOutput | src/crud/task_run_attempt_output.rs:121-137 | an entry for exactly the attempts with rows, each stream in write order |
| OutputLogs.StreamReadsBack | src/crud/task_run_attempt_output.rs:116-137 | reader, channel, passes and grouping together: either stream reads back as a function of the bytes written and the budget, stderr less flowlite's own notes |
| OutputLogs.StderrReadsBack | src/orchestrator/task_run_attempt_monitor.rs:294-299 | with one note, stderr is that text with the note in one place, after what was recorded when it was made |
| CronTriggers.GetNextRuns | src/cron_trigger.rs:44-59 | strictly increasing, exactly the first n matches in the window, fewer only if there are no more |
| CronTriggers.NextRunIsFirst | src/cron_trigger.rs:61-97 | the next run is the first match after the start and not past the end, or there is none |
| CronTriggers.FewerIsPrefix | src/cron_trigger.rs:44-59 | asking for fewer gives a prefix; there is one such list |
| Schedulers.Scheduler.ReconcileSchedule | src/scheduler/scheduler.rs:54-75 | afterwards every job of the schedule has a run not Deleted for each of the next submit_ahead occurrences it can be submitted for; each row added is a Scheduled run of such a pair that had none; made of single checks and inserts |
| Schedulers.Scheduler.SubmitIfMissing | src/scheduler/scheduler.rs:87-141 | adds the pair's run unless it is occupied or cannot be submitted |
| Schedulers.SecondPassAddsNothing | src/scheduler/scheduler.rs:54-75 | two passes at one instant desire the same, and the second adds nothing, jobs that cannot be submitted included |
| Schedulers.UniqueIff | src/scheduler/scheduler.rs:77-118 | one change, between a pass's check and its insert too, keeps at most one run per occurrence exactly unless it revives a deleted run whose occurrence is taken |
| Schedulers.OneRunPerOccurrence | src/scheduler/scheduler.rs:77-118 | over any checks, inserts, status moves, deletes and removals, interleaved, at most one run not Deleted per schedule, job and occurrence |
| Schedulers.RevivalDuplicates | src/orchestrator/job_run_releaser.rs:87-104 | a deleted occurrence submitted again and then revived has two runs |
| Schedulers.OnlyDeleteFrees | src/scheduler/scheduler.rs:26-31 | an occurrence is freed only by deleting or removing its run: a stopped run goes on holding it |
| Retention.RetentionService.SelectPerJobCandidates | src/retention/service.rs:70-112 | the loop over jobs with what is left of the budget |
| Retention.RetentionService.SelectGlobalOverflowCandidates | src/retention/service.rs:123-159 | the oldest runs over the total, less those already picked |
| Retention.RetentionService.Pass | src/retention/service.rs:174-243 | handles what was selected in turn: each with its descendants, or not at all while one of those is unfinished |
| RetentionFacts.QuerySelects | src/crud/multistatements/retention_candidates.rs:114-186 | one query: ascending ids of finished runs that owe no notification, within limit and offset |
| RetentionFacts.PassSelects | src/retention/service.rs:174-203 | distinct ids, within a non-zero budget, the global part within the overflow |
| RetentionFacts.NewestKept | src/retention/service.rs:70-112 | the per-job rule never takes a job's newest keep_runs |
| RetentionFacts.FamilyIsClosed | src/crud/multistatements/job_run_descendants.rs:12-43 | a run's family holds the children of its members, and the parent of each but itself |
| RetentionFacts.PassIsSafe | src/retention/service.rs:205-243 | a pass deletes no run that has not finished and leaves no run without its parent |
| RetentionFacts.NothingSelectedIff | src/retention/service.rs:70-159 | a pass selects nothing exactly when every run the two rules look at first owes a notification |
| RetentionFacts.CeilingsIff | src/retention/service.rs:70-159 | with none pending, that is when every job and the total are within their ceilings |
| RetentionFacts.PassesReachCeilings | src/retention/service.rs:174-243 | repeated passes reach a fixpoint within every ceiling, in at most as many passes as rows |
| RetentionTakes.PassTakes | src/retention/service.rs:203-243 | a row is gone after a pass exactly if it is a selected run, or reaches one by its chain of parents, and that run has no unfinished one under it; every other row is as it was |
| RetentionTakes.NewestLeft | src/retention/service.rs:70-112 | with no total, a job's newest keep_runs finished runs are still there unless under a run that was selected |
| RetentionTakes.FamilyIff | src/crud/multistatements/job_run_descendants.rs:12-43 | the descendants found are exactly the runs whose chain of parents leads there |
| RetentionTakes.PastOwnIff | src/retention/service.rs:70-112 | the per-job rule is about the finished runs of which keep_runs finished ones of the job are newer |
| RetentionTakes.GlobalPicks | src/retention/service.rs:123-159 | the global rule adds exactly the finished runs that owe nothing, are not picked, and have fewer older ones than are over the total and than the budget leaves |
| RetentionStack.StackIff | src/retention/service.rs:115-159 | for any rows, owing or not, and any budget: the global rule takes no more than is over the total after the per-job picks exactly under a condition on the rows, the configuration and the order of the jobs |
| RetentionStack.StackIffUnspent | src/retention/service.rs:115-159 | while the budget lasts the condition is on the rows' ages, owners and debts alone |
| RetentionStack.PerJobPicks | src/retention/service.rs:70-112 | what the per-job rule picks: finished runs that owe nothing, have keep_runs newer ones, and come within what earlier jobs left of the budget |
| RetentionStack.StackIffUnbudgeted | src/retention/service.rs:115-159 | with no budget and nothing owed: exactly when the oldest overflow are all past their own keep_runs, or all that are past it are among them |
| RetentionStack.SpentStacks | src/retention/service.rs:32-38 | with nothing owed, a budget the per-job rule uses up leaves nothing to the global rule |
| RetentionStack.PerJobPicksDue | src/retention/service.rs:70-112 | while the budget lasts the per-job rule picks exactly the finished runs that owe nothing and have keep_runs newer ones |
| RetentionStack.RulesDoNotStack | src/retention/service.rs:115-122 | four runs of which a pass leaves one under a total of three |
| RetentionStack.FourDoNotStack | src/retention/service.rs:115-122 | for those the rules do not stack, by the condition above |
| RetentionStack.FourRunsExist | src/retention/service.rs:115-122 | there are four such runs |

## Left out

- Real processes, signals, pipes and the async runtime: a process is a column of its attempt, a signal or an exit an event.
- Reads are events of their own, but the several reads of one decision happen together.
- `max_retries + 1` and other counters are unbounded integers.
- A failed note insert when a termination begins: taken not to fail, since the code drops the process then.
- Runs submitted by tasks: in the protocol, stopping them is a stop that may come at any time.
- Retention's deletes are not events of the run protocol, whose ids are positions in tables that only grow.
- Shutdown's termination of every child at once: to the tables it is a crash.
- Orchestrators.Orchestrator.Run: an error between two writes of one handler is an event of the protocol only; the method shows errors of reads.
- StreamOutputs.ExactOutput: the wording of the two marks is a parameter; when each is made, and its numbers, are not.
- StreamOutputs.KeptWholeIff: takes the mark of an exceeded budget to be more than six bytes long, as the code's is.
- Schedulers.Scheduler.ReconcileSchedule: whether a job can be submitted is a parameter that does not change within a pass.
- CronTriggers.GetNextRuns: zones and daylight saving decide the match set and where the dates fall, and both are parameters.
- Retention.RetentionService.Pass: descendants are found by one scan in id order, where the code follows a stack of parents; run directories are not modelled.
- RetentionFacts.PassesReachCeilings: holds for runs without pending notifications and without unfinished children, as the code withholds or defers those.
- Notifications, environment composition, run directories, result files, the router, the command line, the dashboard and configuration loading: little state, or input and output only.
