/**
  Why an attempt ended: behind every settled attempt of every execution is the moment a service
  saw what it settled for.
 */
module Reasons {
  import opened Options
  import opened Tables
  import opened TableInvariant
  import opened RunFacts
  import opened Pollers
  import opened PollerInvariant
  import opened PollerSteps
  import opened PollerEvents
  import opened ServerSafety
  import opened Executions
  import opened Decisions
  import opened Histories

  // ---- What was seen ----

  /** Past its timeout, or silent for its idle timeout: since it was started, and since it last wrote. */
  ghost predicate RanOver(s: Server, a: nat) {
    && a < |s.db.attempts| && s.db.attempts[a].taskRun < |s.db.taskRuns| && s.db.attempts[a].startedAt.Some?
    && var task := s.db.taskRuns[s.db.attempts[a].taskRun];
       || s.db.attempts[a].startedAt.value + task.timeout < s.now
       || (task.idleTimeout > 0 && a in s.wroteAt && s.wroteAt[a] + task.idleTimeout <= s.now)
  }

  /** The monitor has the process in hand and is not ending it. */
  ghost predicate InSight(s: Server, a: nat) {
    && s.watcher.at.Holding? && s.watcher.at.a == a && s.watcher.at.child.Some?
    && s.watcher.at.child.value.terminating.None?
  }

  ghost predicate HasExited(s: Server, a: nat, zero: bool) {
    a < |s.db.attempts| && s.db.attempts[a].shell.Exited? && (zero ==> s.db.attempts[a].shell.code == 0)
  }

  /** What settles an attempt so, at the event that sees it. */
  ghost predicate Saw(s: Server, e: Event, a: nat, status: AttemptStatus) {
    match status
    case Succeeded => e == Look(true) && InSight(s, a) && HasExited(s, a, true)
    case Failed => e.Look? && InSight(s, a) && HasExited(s, a, false) && !(e.outputOk && HasExited(s, a, true))
    case TimedOut => e.Look? && InSight(s, a) && !HasExited(s, a, false) && RanOver(s, a)
    case Aborted => e.Look? && InSight(s, a) && !HasExited(s, a, false) && !RanOver(s, a) && Stopped(s.db, a)
    case Skipped => e == Decide(TaskRunAttemptDispatcher) && s.spawner.queue != [] && s.spawner.queue[0].a == a
      && a < |s.db.attempts| && s.db.attempts[a].startedAt.None? && Stopped(s.db, a)
    case Invalid =>
      || (e == RecoverRow && s.phase.Recovering? && s.phase.orphans != [] && s.phase.orphans[0] == a)
      || (e == Decide(TaskRunAttemptDispatcher) && s.spawner.queue != [] && s.spawner.queue[0].a == a
          && a < |s.db.attempts| && s.db.attempts[a].startedAt.Some?)
      || (e.Look? && s.watcher.at == Holding(a, None))
    case _ => false
  }

  // ---- What is on its way to be written ----

  ghost predicate SettledAs(d: Db, a: nat, status: AttemptStatus) {
    a < |d.attempts| && d.attempts[a].status.IsFinished() && d.attempts[a].status == status
  }

  ghost predicate EndsAs(child: Child, status: AttemptStatus) {
    child.terminating.Some? && child.terminating.value.status == status
  }

  ghost predicate InHandFor(at: WatchAt, a: nat, status: AttemptStatus) {
    match at
    case Holding(b, held) => b == a && held.Some? && EndsAs(held.value, status)
    case PutBack(b, back) => b == a && EndsAs(back, status)
    case Settling(b, next) => b == a && next == status
    case Idle => false
  }

  ghost predicate InMapFor(children: map<nat, Child>, a: nat, status: AttemptStatus) {
    a in children && EndsAs(children[a], status)
  }

  ghost predicate DecidedFor(at: SpawnAt, a: nat, status: AttemptStatus) {
    at == SpawnAt.Decided(a, status) && (status.Skipped? || status.Invalid?)
  }

  ghost predicate OnItsWay(s: Server, a: nat, status: AttemptStatus) {
    || SettledAs(s.db, a, status) || InHandFor(s.watcher.at, a, status) || InMapFor(s.children, a, status)
    || DecidedFor(s.spawner.at, a, status)
  }

  ghost predicate HadReason(x: Execution, i: nat, a: nat, status: AttemptStatus) {
    exists k: nat :: k < i && SawAt(x, k, a, status)
  }

  ghost predicate SawAt(x: Execution, k: nat, a: nat, status: AttemptStatus) {
    k < |x.events| && k < |x.states| && Saw(x.states[k], x.events[k], a, status)
  }

  /**
    Behind each settled attempt is an earlier moment when it was seen: an exit with 0 and its
    result recorded, another exit, a timeout run over, a stop while it ran, a stop before it was
    begun for; and behind an Invalid one a restart, or a command already begun for, or a lost one.
   */
  lemma SettledForAReason(x: Execution, i: nat, a: nat)
    requires Runs(x) && i < |x.states| && a < |x.states[i].db.attempts| && x.states[i].db.attempts[a].status.IsFinished()
    ensures HadReason(x, i, a, x.states[i].db.attempts[a].status)
  {
    AllForAReason(x, i, a, x.states[i].db.attempts[a].status);
  }

  lemma {:induction false} AllForAReason(x: Execution, i: nat, a: nat, status: AttemptStatus)
    requires Runs(x) && i < |x.states| && OnItsWay(x.states[i], a, status)
    ensures HadReason(x, i, a, status)
  {
    if i == 0 { NothingAtStart(x.states[0], a, status); }
    StepCameFrom(x, i - 1, a, status);
    if Saw(x.states[i - 1], x.events[i - 1], a, status) {
      assert SawAt(x, i - 1, a, status);
    } else {
      AllForAReason(x, i - 1, a, status);
      var k: nat :| k < i - 1 && SawAt(x, k, a, status);
    }
  }

  lemma NothingAtStart(s: Server, a: nat, status: AttemptStatus)
    requires IsStart(s)
    ensures !OnItsWay(s, a, status)
  {}

  lemma StepCameFrom(x: Execution, i: nat, a: nat, status: AttemptStatus)
    requires Runs(x) && i < |x.events| && OnItsWay(x.states[i + 1], a, status)
    ensures OnItsWay(x.states[i], a, status) || Saw(x.states[i], x.events[i], a, status)
  {
    AlwaysGood(x, i);
    AlwaysTimely(x, i);
    assert StepAt(x, i);
    CameFrom(x.states[i], x.events[i], a, status);
  }

  lemma CameFrom(s: Server, e: Event, a: nat, status: AttemptStatus)
    requires Good(s) && Timely(s) && Can(s, e) && InScope(s, e) && OnItsWay(Next(s, e), a, status)
    ensures OnItsWay(s, a, status) || Saw(s, e, a, status)
  {
    var n := Next(s, e);
    if SettledAs(n.db, a, status) {
      WrittenFrom(s, e, a, status);
    } else if DecidedFor(n.spawner.at, a, status) {
      DecidedFrom(s, e, a, status);
    } else {
      HeldFrom(s, e, a, status);
    }
  }

  // ---- Written ----

  lemma WrittenFrom(s: Server, e: Event, a: nat, status: AttemptStatus)
    requires Good(s) && Can(s, e) && InScope(s, e) && SettledAs(Next(s, e).db, a, status)
    ensures OnItsWay(s, a, status) || Saw(s, e, a, status)
  {
    if !SettledAs(s.db, a, status) {
      WritesAreEnabled(s, e);
      var w := WriteOf(s, e).value;
      WrittenBy(s.db, w, a, status);
      WriteWasDecided(s, e);
    }
  }

  lemma WrittenBy(d: Db, w: Write, a: nat, status: AttemptStatus)
    requires Enabled(d, w) && SettledAs(Apply(d, w), a, status) && !SettledAs(d, a, status)
    ensures w == SettleAttempt(a, status) || (w == SkipAttempt(a) && status.Skipped?)
      || ((w == InvalidateAttempt(a) || w == Recover(a)) && status.Invalid?)
  {}

  lemma WriteWasDecided(s: Server, e: Event)
    requires Can(s, e) && WriteOf(s, e).Some?
    ensures var w := WriteOf(s, e).value;
      && (w.SettleAttempt? ==> s.watcher.at == Settling(w.a, w.attemptStatus))
      && (w.SkipAttempt? ==> s.spawner.at == SpawnAt.Decided(w.a, AttemptStatus.Skipped))
      && (w.InvalidateAttempt? ==> s.spawner.at == SpawnAt.Decided(w.a, AttemptStatus.Invalid))
      && (w.Recover? ==> e == RecoverRow && s.phase.Recovering? && s.phase.orphans != [] && s.phase.orphans[0] == w.a)
  {}

  // ---- Decided ----

  lemma DecidedFrom(s: Server, e: Event, a: nat, status: AttemptStatus)
    requires Good(s) && Can(s, e) && DecidedFor(Next(s, e).spawner.at, a, status)
    ensures OnItsWay(s, a, status) || Saw(s, e, a, status)
  {
    if e == Decide(TaskRunAttemptDispatcher) {
      SpawnerDecides(s);
    } else if !e.Crash? {
      SpawnMoves(s, e);
    }
  }

  // ---- Held ----

  lemma HeldFrom(s: Server, e: Event, a: nat, status: AttemptStatus)
    requires Good(s) && Timely(s) && Can(s, e) && !DecidedFor(Next(s, e).spawner.at, a, status)
    requires InHandFor(Next(s, e).watcher.at, a, status) || InMapFor(Next(s, e).children, a, status)
    ensures OnItsWay(s, a, status) || Saw(s, e, a, status)
  {
    if Actor(e).TaskRunAttemptDispatcher? {
      HeldBySpawner(s, e, a, status);
    } else if Actor(e).TaskRunAttemptMonitor? {
      HeldByMonitor(s, e, a, status);
    } else if !e.Crash? {
      OthersUntouched(s, e);
    }
  }

  /** A process comes into the map with nothing decided for it. */
  lemma HeldBySpawner(s: Server, e: Event, a: nat, status: AttemptStatus)
    requires Can(s, e) && Actor(e).TaskRunAttemptDispatcher?
    requires InHandFor(Next(s, e).watcher.at, a, status) || InMapFor(Next(s, e).children, a, status)
    ensures OnItsWay(s, a, status)
  {
    OthersUntouched(s, e);
    match e
    case Commit(_) => if InMapFor(Next(s, e).children, a, status) { InMapAfterSpawn(s, a, status); }
    case _ =>
  }

  lemma InMapAfterSpawn(s: Server, a: nat, status: AttemptStatus)
    requires InMapFor(SpawnDone(s).children, a, status)
    ensures InMapFor(s.children, a, status)
  {}

  lemma HeldByMonitor(s: Server, e: Event, a: nat, status: AttemptStatus)
    requires Good(s) && Timely(s) && Can(s, e) && Actor(e).TaskRunAttemptMonitor?
    requires InHandFor(Next(s, e).watcher.at, a, status) || InMapFor(Next(s, e).children, a, status)
    ensures OnItsWay(s, a, status) || Saw(s, e, a, status)
  {
    if e.Look? {
      assert s.watcher.at.a in s.watcher.Window();
      HeldByLook(s, e.outputOk, a, status);
    } else {
      MovedFrom(s, e, a, status);
    }
  }

  /** Between looks a process only changes hands. */
  lemma MovedFrom(s: Server, e: Event, a: nat, status: AttemptStatus)
    requires Can(s, e) && Actor(e).TaskRunAttemptMonitor? && !e.Look?
    requires InHandFor(Next(s, e).watcher.at, a, status) || InMapFor(Next(s, e).children, a, status)
    ensures InHandFor(s.watcher.at, a, status) || InMapFor(s.children, a, status)
  {
    match e
    case Select(_) =>
    case Decide(_) => TakenFrom(s, a, status);
    case Commit(_) => CommittedFrom(s, a, status);
    case Fail(_) => FailedFrom(s, a, status);
    case _ =>
  }

  lemma TakenFrom(s: Server, a: nat, status: AttemptStatus)
    requires s.watcher.at.Idle? && |s.watcher.queue| > 0
    requires var n := Decision(s, TaskRunAttemptMonitor); InHandFor(n.watcher.at, a, status) || InMapFor(n.children, a, status)
    ensures InMapFor(s.children, a, status)
  {}

  lemma CommittedFrom(s: Server, a: nat, status: AttemptStatus)
    requires s.watcher.at.PutBack? || s.watcher.at.Settling?
    requires var n := Committed(s, TaskRunAttemptMonitor); InHandFor(n.watcher.at, a, status) || InMapFor(n.children, a, status)
    ensures InHandFor(s.watcher.at, a, status) || InMapFor(s.children, a, status)
  {}

  lemma FailedFrom(s: Server, a: nat, status: AttemptStatus)
    requires !s.watcher.at.Idle?
    requires var n := Abandoned(s, TaskRunAttemptMonitor); InHandFor(n.watcher.at, a, status) || InMapFor(n.children, a, status)
    ensures InHandFor(s.watcher.at, a, status) || InMapFor(s.children, a, status)
  {}

  lemma HeldByLook(s: Server, outputOk: bool, a: nat, status: AttemptStatus)
    requires Can(s, Look(outputOk)) && HandTimely(s.db, s.wroteAt, s.watcher.at) && s.watcher.at.a < |s.db.attempts|
    requires var n := Next(s, Look(outputOk)); InHandFor(n.watcher.at, a, status) || InMapFor(n.children, a, status)
    ensures InHandFor(s.watcher.at, a, status) || InMapFor(s.children, a, status) || Saw(s, Look(outputOk), a, status)
  {
    var at := s.watcher.at;
    assert Next(s, Look(outputOk)).watcher.at == See(s, at.a, at.child, outputOk).at;
    SightHolds(s, at.a, at.child, outputOk);
    if InHandFor(See(s, at.a, at.child, outputOk).at, a, status) { SeenFor(s, outputOk, a, at.child, status); }
  }

  lemma SeenFor(s: Server, outputOk: bool, a: nat, held: Option<Child>, status: AttemptStatus)
    requires s.watcher.at == Holding(a, held) && HandTimely(s.db, s.wroteAt, s.watcher.at) && a < |s.db.attempts|
    requires InHandFor(See(s, a, held, outputOk).at, a, status)
    ensures InHandFor(s.watcher.at, a, status) || Saw(s, Look(outputOk), a, status)
  {}

  // ---- Asked to exit ----

  /**
    A process is asked to exit at a look that finds it running over or its run stopped, and
    kill_at is one grace after that look.
   */
  lemma AskedWithGrace(x: Execution, i: nat, a: nat)
    requires Runs(x) && i < |x.events| && a !in x.states[i].asked && a in x.states[i + 1].asked
    ensures var s, asked := x.states[i], x.states[i + 1].asked[a];
      && x.events[i].Look? && InSight(s, a) && !HasExited(s, a, false)
      && s.config.killGrace > 0 && asked.killAt == s.now + s.config.killGrace
      && asked.status == (if RanOver(s, a) then AttemptStatus.TimedOut else AttemptStatus.Aborted)
      && (RanOver(s, a) || Stopped(s.db, a))
  {
    AlwaysGood(x, i);
    AlwaysTimely(x, i);
    assert StepAt(x, i);
    AskedByLook(x.states[i], x.events[i], a);
    assert x.states[i].watcher.at.a in x.states[i].watcher.Window();
    AskedForThis(x.states[i], x.events[i].outputOk, a);
  }

  lemma AskedByLook(s: Server, e: Event, a: nat)
    requires Can(s, e) && a !in s.asked && a in Next(s, e).asked
    ensures e.Look?
  {
    if !e.Crash? { OthersUntouched(s, e); }
  }

  lemma AskedForThis(s: Server, outputOk: bool, a: nat)
    requires Can(s, Look(outputOk)) && HandTimely(s.db, s.wroteAt, s.watcher.at) && s.watcher.at.a < |s.db.attempts|
    requires a !in s.asked && a in Next(s, Look(outputOk)).asked
    ensures var asked := Next(s, Look(outputOk)).asked[a];
      && InSight(s, a) && !HasExited(s, a, false)
      && s.config.killGrace > 0 && asked.killAt == s.now + s.config.killGrace
      && asked.status == (if RanOver(s, a) then AttemptStatus.TimedOut else AttemptStatus.Aborted)
      && (RanOver(s, a) || Stopped(s.db, a))
  {
    LookedFrom(s, outputOk);
  }

  // ---- Silence ----

  /** What a command has written, read at whatever moment, is not taken for silence since. */
  lemma {:induction false} WroteLast(x: Execution, k: nat, i: nat, a: nat)
    requires Runs(x) && k < i < |x.states| && x.events[k] == Output(a) && a in x.states[i].wroteAt
    ensures x.states[k].now <= x.states[i].wroteAt[a]
    decreases i
  {
    assert StepAt(x, i - 1);
    ClockStep(x.states[i - 1], x.events[i - 1]);
    TimeGoesOn(x, k, i - 1);
    if i - 1 > k {
      NotSpawnedAgain(x, k, i - 1, a);
      if a in x.states[i - 1].wroteAt { WroteLast(x, k, i - 1, a); }
    }
  }

  /** What has written is not spawned any more. */
  lemma NotSpawnedAgain(x: Execution, k: nat, i: nat, a: nat)
    requires Runs(x) && k <= i < |x.events| && x.events[k] == Output(a)
    ensures x.events[i] == SpawnChild(true) ==> x.states[i].spawner.at.Marked? && x.states[i].spawner.at.a != a
  {
    assert StepAt(x, k);
    if x.events[i] == SpawnChild(true) {
      assert StepAt(x, i);
      EveryWriteIsEnabled(x, i);
      LaterExtends(x, k, i);
      assert AttemptExtends(x.states[k].db.attempts[a], x.states[i].db.attempts[a]);
    }
  }
}
