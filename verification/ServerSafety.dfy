/** The phases, the child map and what was asked of children; and so `Good` over every event. */
module ServerSafety {
  import opened Options
  import opened Tables
  import opened TableInvariant
  import opened RunFacts
  import opened Pollers
  import opened PollerInvariant
  import opened PollerSteps
  import opened PollerEvents
  import opened AttemptEvents

  // ---- Caps ----

  lemma CapsKept(s: Server, e: Event)
    requires Good(s) && Can(s, e) && InScope(s, e) && s.phase.Serving?
    ensures WithinCaps(Written(s, e), s.config)
  {
    TableStep(s, e);
    if WriteOf(s, e).Some? {
      var w := WriteOf(s, e).value;
      if WriterOf(w).TaskRunAttemptDispatcher? {
        CapsAfterSpawner(s, e);
      } else {
        WithinCapsStay(s.db, Apply(s.db, w), WriterOf(w), s.config);
      }
    }
  }

  lemma CapsAfterSpawner(s: Server, e: Event)
    requires Good(s) && Can(s, e) && InScope(s, e) && s.phase.Serving?
    requires WriteOf(s, e).Some? && WriterOf(WriteOf(s, e).value).TaskRunAttemptDispatcher?
    ensures WithinCaps(Written(s, e), s.config)
  {
    var w := WriteOf(s, e).value;
    WriterIsActor(s, e);
    WritesAreEnabled(s, e);
    if w.SetRunning? {
      OneMoreRunning(s.db, s.config, w.a);
    } else {
      NoMoreRunning(s.db, s.config, w);
    }
  }

  lemma OneMoreRunning(d: Db, config: Config, a: nat)
    requires WithinCaps(d, config) && FreeSlots(d, config, a) && a < |d.attempts|
    ensures WithinCaps(Apply(d, SetRunning(a)), config)
  {
    var e, n := Apply(d, SetRunning(a)), |d.attempts|;
    CountOneMore(n, NeverWaited(e), NeverWaited(d), a);
    forall limit | HasMax(config, limit)
      ensures Count(n, NeverWaitedClaiming(e, limit)) <= config.limits[limit]
    {
      if Claims(d, a, limit) {
        CountOneMore(n, NeverWaitedClaiming(e, limit), NeverWaitedClaiming(d, limit), a);
      } else {
        CountBelow(n, NeverWaitedClaiming(e, limit), NeverWaitedClaiming(d, limit));
      }
    }
  }

  lemma NoMoreRunning(d: Db, config: Config, w: Write)
    requires WithinCaps(d, config) && IsAttemptWrite(w) && !w.SetRunning?
    requires w.a < |d.attempts| && d.attempts[w.a].status.Queued?
    requires WriterOf(w).TaskRunAttemptDispatcher?
    ensures WithinCaps(Apply(d, w), config)
  {
    var e, n := Apply(d, w), |d.attempts|;
    CountBelow(n, NeverWaited(e), NeverWaited(d));
    forall limit | HasMax(config, limit)
      ensures Count(n, NeverWaitedClaiming(e, limit)) <= config.limits[limit]
    {
      CountBelow(n, NeverWaitedClaiming(e, limit), NeverWaitedClaiming(d, limit));
    }
  }

  // ---- The child map ----

  ghost predicate HasChild(s: Server) {
    ChildrenOk(s.db, s.children, s.watcher, s.lost, s.spawner)
  }

  lemma ChildrenKept(s: Server, e: Event)
    requires Good(s) && Can(s, e) && InScope(s, e) && s.phase.Serving? && !e.Crash?
    ensures HasChild(Next(s, e))
  {
    HandsApart(s);
    if Actor(e).TaskRunAttemptDispatcher? {
      ChildrenAfterSpawner(s, e);
    } else if Actor(e).TaskRunAttemptMonitor? {
      ChildrenAfterWatcher(s, e);
    } else {
      ChildrenAfterOthers(s, e);
    }
  }

  lemma ChildrenAfterOthers(s: Server, e: Event)
    requires Good(s) && Can(s, e) && InScope(s, e) && s.phase.Serving? && !e.Crash?
    requires !Actor(e).TaskRunAttemptDispatcher? && !Actor(e).TaskRunAttemptMonitor?
    ensures HasChild(Next(s, e))
  {
    OthersUntouched(s, e);
    ChildrenBesideTables(s, e);
  }

  lemma ChildrenBesideTables(s: Server, e: Event)
    requires Good(s) && Can(s, e) && InScope(s, e) && s.phase.Serving? && !e.Crash?
    requires !Actor(e).TaskRunAttemptDispatcher? && !Actor(e).TaskRunAttemptMonitor?
    ensures ChildrenOk(Written(s, e), s.children, s.watcher, s.lost, s.spawner)
  {
    TableStep(s, e);
    if WriteOf(s, e).Some? {
      WriterIsActor(s, e);
      ChildrenFrame(s.db, Written(s, e), WriterOf(WriteOf(s, e).value), s.children, s.watcher, s.lost, s.spawner);
    }
  }

  /** The attempt being spawned is not one the monitor looks at. */
  ghost predicate Apart(s: Server) {
    !s.spawner.at.Idle? ==>
      s.spawner.at.a !in s.watcher.Window() && s.spawner.at.a !in s.asked
  }

  lemma HandsApart(s: Server)
    requires Good(s)
    ensures Apart(s)
  {}

  lemma ChildrenAfterSpawner(s: Server, e: Event)
    requires HasChild(s) && Apart(s) && Can(s, e) && Actor(e).TaskRunAttemptDispatcher?
    ensures HasChild(Next(s, e))
  {
    match e
    case Commit(_) => ChildrenAfterSpawnCommit(s);
    case SpawnChild(ok) => ChildrenAfterSpawn(s, ok);
    case _ =>
  }

  lemma ChildrenAfterSpawn(s: Server, ok: bool)
    requires HasChild(s) && Can(s, SpawnChild(ok))
    ensures HasChild(Next(s, SpawnChild(ok)))
  {}

  lemma ChildrenAfterSpawnCommit(s: Server)
    requires HasChild(s) && Apart(s) && Can(s, Commit(TaskRunAttemptDispatcher))
    ensures HasChild(Next(s, Commit(TaskRunAttemptDispatcher)))
  {
    var w, n := SpawnWrite(s.spawner.at, s.now), SpawnDone(s);
    SpawnCommitIs(s);
    if w.Some? {
      RunningHasChild(s.db, w.value, s.children, s.watcher, s.lost, s.spawner, n.spawner);
    } else if s.spawner.at.Spawned? {
      ChildInserted(s, s.spawner.at.a);
    }
  }

  lemma SpawnCommitIs(s: Server)
    requires Can(s, Commit(TaskRunAttemptDispatcher))
    ensures var w, n := SpawnWrite(s.spawner.at, s.now), SpawnDone(s);
      && Next(s, Commit(TaskRunAttemptDispatcher)) == n.(db := if w.Some? then Apply(s.db, w.value) else s.db)
      && SpawnDoneIs(s, w, n)
  {
    SpawnDoneIsSo(s);
  }

  ghost predicate SpawnDoneIs(s: Server, w: Option<Write>, n: Server)
    requires !s.spawner.at.Idle?
  {
    && n.watcher == s.watcher && n.lost == s.lost && n.db == s.db
    && (w.Some? ==> !n.spawner.at.Held? && IsAttemptWrite(w.value) && WriterOf(w.value).TaskRunAttemptDispatcher?
                    && (w.value.SetRunning? ==> s.spawner.at == SpawnAt.Held(w.value.a)) && !s.spawner.at.Spawned?)
    && (if s.spawner.at.Spawned?
        then n.children == s.children[s.spawner.at.a := NewChild(s.db, s.spawner.at.a)]
             && n.spawner.at == SpawnAt.Held(s.spawner.at.a)
        else n.children == s.children && (w.None? ==> !n.spawner.at.Held?))
  }

  lemma SpawnDoneIsSo(s: Server)
    requires !s.spawner.at.Idle? && !s.spawner.at.Marked?
    ensures SpawnDoneIs(s, SpawnWrite(s.spawner.at, s.now), SpawnDone(s))
  {}

  lemma ChildInserted(s: Server, a: nat)
    requires HasChild(s) && Apart(s) && s.spawner.at == Spawned(a)
    ensures ChildrenOk(s.db, s.children[a := NewChild(s.db, a)], s.watcher, s.lost, s.spawner.(at := SpawnAt.Held(a)))
  {}

  /** Only an attempt whose process is already in the map becomes Running. */
  lemma RunningHasChild(d: Db, w: Write, children: map<nat, Child>, p: WatchPoller, lost: set<nat>,
                        was: SpawnPoller, spawner: SpawnPoller)
    requires ChildrenOk(d, children, p, lost, was) && !spawner.at.Held?
    requires IsAttemptWrite(w) && WriterOf(w).TaskRunAttemptDispatcher? && (w.SetRunning? ==> was.at == SpawnAt.Held(w.a))
    ensures ChildrenOk(Apply(d, w), children, p, lost, spawner)
  {
    forall a | a in children ensures ChildOk(Apply(d, w), a, children[a]) {
      assert ChildOk(d, a, children[a]);
    }
  }

  lemma ChildrenAfterWatcher(s: Server, e: Event)
    requires HasChild(s) && Apart(s) && WatcherOk(s.db, s.lost, s.watcher)
    requires Can(s, e) && Actor(e).TaskRunAttemptMonitor?
    ensures HasChild(Next(s, e))
  {
    match e
    case Decide(_) => ChildrenAfterTaking(s);
    case Commit(_) => ChildrenAfterWatchCommit(s);
    case Look(outputOk) => ChildrenAfterLook(s, outputOk);
    case Fail(_) => ChildrenAfterError(s);
    case _ =>
  }

  lemma ChildrenAfterWatchCommit(s: Server)
    requires HasChild(s) && WatcherOk(s.db, s.lost, s.watcher) && Can(s, Commit(TaskRunAttemptMonitor))
    ensures HasChild(Next(s, Commit(TaskRunAttemptMonitor)))
  {
    if s.watcher.at.Settling? {
      ChildrenAfterSettling(s.db, s.children, s.watcher, s.lost, s.spawner);
    } else {
      ChildrenAfterPuttingBack(s);
    }
  }

  lemma ChildrenAfterTaking(s: Server)
    requires HasChild(s) && Apart(s) && Can(s, Decide(TaskRunAttemptMonitor))
    ensures HasChild(Decision(s, TaskRunAttemptMonitor))
  {}

  lemma ChildrenAfterPuttingBack(s: Server)
    requires HasChild(s) && WatcherOk(s.db, s.lost, s.watcher) && s.watcher.at.PutBack?
    ensures HasChild(Committed(s, TaskRunAttemptMonitor))
  {}

  lemma ChildrenAfterError(s: Server)
    requires HasChild(s) && WatcherOk(s.db, s.lost, s.watcher) && Can(s, Fail(TaskRunAttemptMonitor))
    ensures HasChild(Abandoned(s, TaskRunAttemptMonitor))
  {}

  lemma ChildrenAfterSettling(d: Db, children: map<nat, Child>, p: WatchPoller, lost: set<nat>, spawner: SpawnPoller)
    requires ChildrenOk(d, children, p, lost, spawner) && WatcherOk(d, lost, p) && p.at.Settling?
    ensures ChildrenOk(Apply(d, SettleAttempt(p.at.a, p.at.next)), children, p.(at := WatchAt.Idle), lost, spawner)
  {}

  lemma ChildrenAfterLook(s: Server, outputOk: bool)
    requires HasChild(s) && WatcherOk(s.db, s.lost, s.watcher) && Can(s, Look(outputOk))
    ensures HasChild(Next(s, Look(outputOk)))
  {
    var p := s.watcher;
    var sight := See(s, p.at.a, p.at.child, outputOk);
    var q := p.(at := sight.at);
    SightHolds(s, p.at.a, p.at.child, outputOk);
    assert ChildrenOk(s.db, s.children, q, s.lost, s.spawner);
    if sight.kill {
      KillKeepsChildren(s.db, p.at.a, s.children, q, s.lost, s.spawner);
    }
  }

  lemma SightHolds(s: Server, a: nat, held: Option<Child>, outputOk: bool)
    ensures var at := See(s, a, held, outputOk).at; at.a == a && (at.PutBack? || at.Settling?)
  {}

  lemma KillKeepsChildren(d: Db, b: nat, children: map<nat, Child>, p: WatchPoller, lost: set<nat>, spawner: SpawnPoller)
    requires ChildrenOk(d, children, p, lost, spawner)
    ensures ChildrenOk(Apply(d, Kill(b)), children, p, lost, spawner)
  {}

  // ---- The phases ----

  lemma PhaseKept(s: Server, e: Event)
    requires Good(s) && Can(s, e) && InScope(s, e)
    ensures PhaseOk(Next(s, e))
  {
    if e.Crash? {
      SelectedAttemptsIn(s.db, AttemptStatus.Running);
    } else if s.phase.Recovering? {
      RecoveringKept(s, e);
    } else {
      OthersUntouched(s, e);
      CapsKept(s, e);
      ChildrenKept(s, e);
    }
  }

  ghost predicate AllRunningAmong(d: Db, orphans: seq<nat>) {
    forall a :: 0 <= a < |d.attempts| && d.attempts[a].status.Running? ==> a in orphans
  }

  lemma RecoveringKept(s: Server, e: Event)
    requires Good(s) && Can(s, e) && InScope(s, e) && s.phase.Recovering? && !e.Crash?
    ensures PhaseOk(Next(s, e))
  {
    assert AllRunningAmong(s.db, s.phase.orphans);
    if e.StartServing? {
      NothingRunning(s.db, s.config);
    } else if e.RecoverRow? {
      OrphanRecovered(s.db, s.phase.orphans);
    } else {
      StaysIdle(s, e);
      OrphansKept(s, e);
    }
  }

  lemma OrphansKept(s: Server, e: Event)
    requires Good(s) && Can(s, e) && InScope(s, e) && s.phase.Recovering? && !e.Crash? && !e.RecoverRow?
    ensures AttemptsIn(Written(s, e), s.phase.orphans, AttemptStatus.Running)
    ensures AllRunningAmong(Written(s, e), s.phase.orphans)
  {
    assert AllRunningAmong(s.db, s.phase.orphans);
    TableStep(s, e);
    if WriteOf(s, e).Some? {
      WriterIsActor(s, e);
      OrphansStay(s.db, Written(s, e), s.phase.orphans);
    }
  }

  lemma StaysIdle(s: Server, e: Event)
    requires AllIdle(s) && s.phase.Recovering? && Can(s, e) && !e.Crash? && !e.RecoverRow? && !e.StartServing?
    ensures AllIdle(Next(s, e)) && Next(s, e).phase == s.phase
  {}

  lemma OrphanRecovered(d: Db, orphans: seq<nat>)
    requires orphans != [] && AttemptsIn(d, orphans, AttemptStatus.Running) && AllRunningAmong(d, orphans)
    ensures AttemptsIn(Apply(d, Recover(orphans[0])), orphans[1..], AttemptStatus.Running)
    ensures AllRunningAmong(Apply(d, Recover(orphans[0])), orphans[1..])
  {
    AttemptTailStays(d, orphans, AttemptStatus.Running);
    assert orphans == [orphans[0]] + orphans[1..];
  }

  lemma OrphansStay(d: Db, e: Db, orphans: seq<nat>)
    requires StepBy(d, e, Outside) && AttemptsIn(d, orphans, AttemptStatus.Running) && AllRunningAmong(d, orphans)
    ensures AttemptsIn(e, orphans, AttemptStatus.Running) && AllRunningAmong(e, orphans)
  {}

  lemma NothingRunning(d: Db, config: Config)
    requires forall a :: 0 <= a < |d.attempts| ==> !d.attempts[a].status.Running?
    ensures WithinCaps(d, config)
  {
    CountNone(|d.attempts|, NeverWaited(d));
    forall limit | HasMax(config, limit) ensures Count(|d.attempts|, NeverWaitedClaiming(d, limit)) == 0 {
      CountNone(|d.attempts|, NeverWaitedClaiming(d, limit));
    }
  }

  // ---- What was asked of a child ----

  /** The part of `AskedOk` the tables alone answer for. */
  ghost predicate AskedRowOk(d: Db, a: nat, asked: Termination) {
    && a < |d.attempts| && !d.attempts[a].status.Queued?
    && (d.attempts[a].status.IsFinished() ==> d.attempts[a].status == asked.status || d.attempts[a].status.Invalid?)
  }

  /** The part the child map and the monitor's hand answer for. */
  ghost predicate AskedHandOk(children: map<nat, Child>, at: WatchAt, a: nat, asked: Termination) {
    && (a in children ==> children[a].terminating == Some(asked))
    && match at
       case Holding(b, held) => b == a && held.Some? ==> held.value.terminating == Some(asked)
       case PutBack(b, back) => b == a ==> back.terminating == Some(asked)
       case Settling(b, next) => b == a ==> next == asked.status || next.Invalid?
       case Idle => true
  }

  lemma AskedKept(s: Server, e: Event)
    requires Good(s) && Can(s, e) && InScope(s, e)
    ensures AskedOk(Next(s, e))
  {
    var n := Next(s, e);
    forall a | a in n.asked
      ensures AskedRowOk(n.db, a, n.asked[a])
      ensures n.db.attempts[a].status.Running? && n.phase.Serving? ==> AskedHandOk(n.children, n.watcher.at, a, n.asked[a])
    {
      if e.Look? && a == s.watcher.at.a {
        assert Good(s);
        AskedByLook(s, e.outputOk, a);
      } else {
        AskedEarlier(s, e, a);
      }
    }
    HandsAreAskedOk(n);
  }

  lemma HandsAreAskedOk(n: Server)
    requires forall a :: a in n.asked ==> AskedRowOk(n.db, a, n.asked[a])
    requires n.phase.Serving? ==>
      forall a :: a in n.asked && AskedRowOk(n.db, a, n.asked[a]) && n.db.attempts[a].status.Running?
        ==> AskedHandOk(n.children, n.watcher.at, a, n.asked[a])
    ensures AskedOk(n)
  {}

  lemma AskedEarlier(s: Server, e: Event, a: nat)
    requires Good(s) && Can(s, e) && InScope(s, e) && a in Next(s, e).asked && !(e.Look? && a == s.watcher.at.a)
    ensures a in s.asked && Next(s, e).asked[a] == s.asked[a]
    ensures AskedRowOk(Written(s, e), a, s.asked[a])
    ensures Written(s, e).attempts[a].status.Running? && Next(s, e).phase.Serving? ==>
      AskedHandOk(Next(s, e).children, Next(s, e).watcher.at, a, s.asked[a])
  {
    SameAsked(s, e, a);
    AskedRowKept(s, e, a);
    if Written(s, e).attempts[a].status.Running? && Next(s, e).phase.Serving? {
      StillRunning(s, e, a);
      AskedHandKept(s, e, a);
    }
  }

  lemma SameAsked(s: Server, e: Event, a: nat)
    requires Can(s, e) && a in Next(s, e).asked && !(e.Look? && a == s.watcher.at.a)
    ensures a in s.asked && Next(s, e).asked[a] == s.asked[a]
  {
    if !e.Look? && !e.Crash? {
      OthersUntouched(s, e);
    }
  }

  /** What is Running after an event, and was not Queued before it, was Running before it. */
  lemma StillRunning(s: Server, e: Event, a: nat)
    requires Good(s) && Can(s, e) && InScope(s, e) && a in s.asked
    requires a < |Written(s, e).attempts| && Written(s, e).attempts[a].status.Running? && Next(s, e).phase.Serving?
    ensures s.db.attempts[a].status.Running? && s.phase.Serving? && !e.Crash? && !e.StartServing?
  {
    TableStep(s, e);
    if WriteOf(s, e).Some? {
      assert AttemptMovedBy(s.db.attempts[a], Written(s, e).attempts[a], WriterOf(WriteOf(s, e).value));
    }
    PhaseMoves(s, e);
  }

  lemma PhaseMoves(s: Server, e: Event)
    requires Can(s, e) && Next(s, e).phase.Serving?
    ensures !e.Crash? && (s.phase.Serving? || e.StartServing?)
  {}

  lemma AskedRowKept(s: Server, e: Event, a: nat)
    requires Good(s) && Can(s, e) && InScope(s, e) && a in s.asked
    ensures AskedRowOk(Written(s, e), a, s.asked[a])
  {
    TableStep(s, e);
    if WriteOf(s, e).Some? {
      var w := WriteOf(s, e).value;
      if w.SettleAttempt? && w.a == a {
        SettlesAsDecided(s, e);
        assert s.watcher.at.a in s.watcher.Window();
        assert AskedChildOk(s, a);
      }
      AskedRowStep(s.db, w, a, s.asked[a]);
    }
  }

  lemma SettlesAsDecided(s: Server, e: Event)
    requires Can(s, e) && WriteOf(s, e).Some? && WriteOf(s, e).value.SettleAttempt?
    ensures s.phase.Serving? && s.watcher.at == Settling(WriteOf(s, e).value.a, WriteOf(s, e).value.attemptStatus)
  {}

  lemma AskedRowStep(d: Db, w: Write, a: nat, asked: Termination)
    requires StepBy(d, Apply(d, w), WriterOf(w)) && AskedRowOk(d, a, asked)
    requires w.SettleAttempt? && w.a == a ==> w.attemptStatus == asked.status || w.attemptStatus.Invalid?
    ensures AskedRowOk(Apply(d, w), a, asked)
  {}

  lemma AskedHandKept(s: Server, e: Event, a: nat)
    requires Good(s) && Can(s, e) && s.phase.Serving? && !e.Crash? && !(e.Look? && a == s.watcher.at.a)
    requires a in s.asked && s.db.attempts[a].status.Running?
    ensures AskedHandOk(Next(s, e).children, Next(s, e).watcher.at, a, s.asked[a])
  {
    HandsApart(s);
    assert AskedChildOk(s, a);
    assert AskedHandOk(s.children, s.watcher.at, a, s.asked[a]);
    if Actor(e).TaskRunAttemptDispatcher? {
      AskedBesideSpawner(s, e, a);
    } else if Actor(e).TaskRunAttemptMonitor? {
      AskedInMonitor(s, e, a);
    } else {
      OthersUntouched(s, e);
    }
  }

  lemma AskedBesideSpawner(s: Server, e: Event, a: nat)
    requires Can(s, e) && Actor(e).TaskRunAttemptDispatcher? && Apart(s) && a in s.asked
    requires AskedHandOk(s.children, s.watcher.at, a, s.asked[a])
    ensures AskedHandOk(Next(s, e).children, Next(s, e).watcher.at, a, s.asked[a])
  {
    match e
    case Commit(_) =>
    case _ =>
  }

  lemma AskedInMonitor(s: Server, e: Event, a: nat)
    requires Can(s, e) && Actor(e).TaskRunAttemptMonitor? && a in s.asked && !(e.Look? && a == s.watcher.at.a)
    requires AskedHandOk(s.children, s.watcher.at, a, s.asked[a])
    ensures AskedHandOk(Next(s, e).children, Next(s, e).watcher.at, a, s.asked[a])
  {
    match e
    case Look(outputOk) => SightHolds(s, s.watcher.at.a, s.watcher.at.child, outputOk);
    case _ =>
  }

  /** A child once asked is only looked at for its end; one not asked before may be now. */
  lemma AskedByLook(s: Server, outputOk: bool, a: nat)
    requires Good(s) && Can(s, Look(outputOk)) && a == s.watcher.at.a && a in Next(s, Look(outputOk)).asked
    ensures var n := Next(s, Look(outputOk));
      AskedRowOk(n.db, a, n.asked[a]) && AskedHandOk(n.children, n.watcher.at, a, n.asked[a])
  {
    assert s.watcher.at.a in s.watcher.Window();
    assert a in s.asked ==> AskedChildOk(s, a);
    AskedSight(s, outputOk, a);
  }

  lemma AskedSight(s: Server, outputOk: bool, a: nat)
    requires Can(s, Look(outputOk)) && a == s.watcher.at.a && a in Next(s, Look(outputOk)).asked
    requires a !in s.children && a < |s.db.attempts| && s.db.attempts[a].status.Running?
    requires a in s.asked ==> AskedHandOk(s.children, s.watcher.at, a, s.asked[a])
    ensures var n := Next(s, Look(outputOk));
      AskedRowOk(n.db, a, n.asked[a]) && AskedHandOk(n.children, n.watcher.at, a, n.asked[a])
  {}

  // ---- Every event ----

  /** Whoever makes it and wherever in anyone's pass it lands, an event keeps `Good`. */
  lemma GoodKept(s: Server, e: Event)
    requires Good(s) && Can(s, e) && InScope(s, e)
    ensures Good(Next(s, e))
  {
    TableStep(s, e);
    JobPollersKept(s, e);
    TaskPollersKept(s, e);
    AttemptPollersKept(s, e);
    PhaseKept(s, e);
    AskedKept(s, e);
  }

  lemma JobPollersKept(s: Server, e: Event)
    requires Good(s) && Can(s, e) && InScope(s, e)
    ensures var n := Next(s, e);
      && ReleaserOk(n.db, n.releaser) && DispatcherOk(n.db, n.maxParallel, n.jobDispatcher)
      && MonitorOk(n.db, n.jobMonitor) && WithinParallel(n.db, n.maxParallel)
  {
    SameMaxParallel(s, e);
    ReleaserKept(s, e);
    DispatcherKept(s, e);
    MonitorKept(s, e);
    ParallelKept(s, e);
  }

  lemma SameMaxParallel(s: Server, e: Event)
    requires Can(s, e)
    ensures Next(s, e).maxParallel == s.maxParallel
  {
    if !e.Crash? { OthersUntouched(s, e); }
  }

  lemma TaskPollersKept(s: Server, e: Event)
    requires Good(s) && Can(s, e) && InScope(s, e)
    ensures var n := Next(s, e); TaskDispatcherOk(n.db, n.taskDispatcher) && TaskMonitorOk(n.db, n.taskMonitor)
  {
    TaskDispatcherKept(s, e);
    TaskMonitorKept(s, e);
  }

  lemma AttemptPollersKept(s: Server, e: Event)
    requires Good(s) && Can(s, e) && InScope(s, e)
    ensures var n := Next(s, e); SpawnerOk(n.db, n.config, n.spawner) && WatcherOk(n.db, n.lost, n.watcher)
  {
    SpawnerKept(s, e);
    WatcherKept(s, e);
  }
}
