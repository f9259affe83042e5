/** The attempt services' events: spawning, watching, and the map they share. */
module AttemptEvents {
  import opened Options
  import opened Tables
  import opened TableInvariant
  import opened RunFacts
  import opened Pollers
  import opened PollerInvariant
  import opened PollerSteps
  import opened PollerEvents

  lemma SelectedAttemptsIn(d: Db, want: AttemptStatus)
    ensures AttemptsIn(d, SelectedAttempts(d, want), want)
    ensures forall a :: 0 <= a < |d.attempts| && d.attempts[a].status == want ==> a in SelectedAttempts(d, want)
  {}

  lemma AttemptTailStays(d: Db, w: seq<nat>, want: AttemptStatus)
    requires AttemptsIn(d, w, want) && w != []
    ensures AttemptsIn(d, w[1..], want) && w[0] !in w[1..]
  {}

  // ---- TaskRunAttemptDispatcher ----

  function SeenIds(queue: seq<Seen>): seq<nat> {
    seq(|queue|, i requires 0 <= i < |queue| => queue[i].a)
  }

  ghost predicate SeenAsIs(d: Db, queue: seq<Seen>) {
    && AttemptsIn(d, SeenIds(queue), AttemptStatus.Queued)
    && forall i :: 0 <= i < |queue| ==> queue[i].a < |d.attempts| && d.attempts[queue[i].a].startedAt == queue[i].startedAt
  }

  lemma SeenTail(d: Db, config: Config, p: SpawnPoller)
    requires SpawnerOk(d, config, p)
    ensures SeenAsIs(d, p.queue)
    ensures !p.at.Idle? ==> p.at.a < |d.attempts| && d.attempts[p.at.a].status.Queued? && p.at.a !in SeenIds(p.queue)
  {
    var ids := SeenIds(p.queue);
    if p.at.Idle? {
      assert p.Window() == ids;
    } else {
      AttemptTailStays(d, p.Window(), AttemptStatus.Queued);
      assert p.Window()[1..] == ids && p.at.a in p.Window();
    }
  }

  lemma SeenStays(d: Db, w: Write, a: nat, queue: seq<Seen>)
    requires SeenAsIs(d, queue) && IsAttemptWrite(w) && w.a == a && a !in SeenIds(queue)
    ensures SeenAsIs(Apply(d, w), queue)
  {
    forall i | 0 <= i < |queue| ensures queue[i].a != a {
      assert SeenIds(queue)[i] in SeenIds(queue);
    }
  }

  lemma WindowOf(d: Db, p: SpawnPoller)
    requires SeenAsIs(d, p.queue)
    requires p.at.Idle? || (p.at.a < |d.attempts| && d.attempts[p.at.a].status.Queued? && p.at.a !in SeenIds(p.queue))
    ensures AttemptsIn(d, p.Window(), AttemptStatus.Queued)
  {
    var ids := SeenIds(p.queue);
    if p.at.Idle? {
      assert p.Window() == ids;
    } else {
      assert p.Window() == [p.at.a] + ids;
      assert forall i :: 0 <= i < |ids| ==> ids[i] in ids;
    }
  }

  /** Below the caps of what works now, and so below those of what has never waited. */
  lemma SlotsSeenFree(s: Server, a: nat)
    requires Inv(s.db) && a < |s.db.attempts| && !ShouldStayQueued(s, a)
    ensures FreeSlots(s.db, s.config, a)
  {
    var n := |s.db.attempts|;
    forall b | 0 <= b < n && NeverWaited(s.db)(b) ensures Working(s.db)(b) {
      assert AttemptOk(s.db, b);
    }
    CountBelow(n, NeverWaited(s.db), Working(s.db));
    forall limit | HasMax(s.config, limit) && Claims(s.db, a, limit)
      ensures Count(n, NeverWaitedClaiming(s.db, limit)) < s.config.limits[limit]
    {
      assert !LimitFull(s.db, s.config, limit);
      CountBelow(n, NeverWaitedClaiming(s.db, limit), Claiming(s.db, limit));
    }
  }

  /** A write that leaves every row's running status alone leaves the slots alone. */
  lemma SlotsUntouched(d: Db, e: Db, config: Config, a: nat)
    requires |e.attempts| == |d.attempts| && e.taskRuns == d.taskRuns && FreeSlots(d, config, a)
    requires forall b :: 0 <= b < |d.attempts| ==> d.attempts[b].taskRun == e.attempts[b].taskRun
    requires forall b :: 0 <= b < |d.attempts| && NeverWaited(e)(b) ==> NeverWaited(d)(b)
    ensures FreeSlots(e, config, a)
  {
    var n := |d.attempts|;
    CountBelow(n, NeverWaited(e), NeverWaited(d));
    forall limit | HasMax(config, limit) && Claims(e, a, limit)
      ensures Count(n, NeverWaitedClaiming(e, limit)) < config.limits[limit]
    {
      assert Claims(d, a, limit);
      CountBelow(n, NeverWaitedClaiming(e, limit), NeverWaitedClaiming(d, limit));
    }
  }

  lemma SpawnerKept(s: Server, e: Event)
    requires Good(s) && Can(s, e) && InScope(s, e)
    ensures SpawnerOk(Written(s, e), Next(s, e).config, Next(s, e).spawner)
  {
    if e.Crash? {
      SpawnerRestarted(s, e);
    } else {
      SpawnerServing(s, e);
    }
  }

  lemma SpawnerServing(s: Server, e: Event)
    requires Good(s) && Can(s, e) && InScope(s, e) && !e.Crash?
    ensures Next(s, e).config == s.config && SpawnerOk(Written(s, e), s.config, Next(s, e).spawner)
  {
    OthersUntouched(s, e);
    if Actor(e).TaskRunAttemptDispatcher? { SpawnerOwn(s, e); } else { SpawnerOther(s, e); }
  }

  lemma SpawnerRestarted(s: Server, e: Event)
    requires e.Crash?
    ensures SpawnerOk(Written(s, e), Next(s, e).config, Next(s, e).spawner)
  {}

  lemma SpawnerOther(s: Server, e: Event)
    requires Good(s) && Can(s, e) && InScope(s, e) && !Actor(e).TaskRunAttemptDispatcher?
    ensures SpawnerOk(Written(s, e), s.config, s.spawner)
  {
    TableStep(s, e);
    if WriteOf(s, e).Some? {
      WriterIsActor(s, e);
      SpawnerFrame(s.db, Written(s, e), WriterOf(WriteOf(s, e).value), s.config, s.spawner);
    }
  }

  lemma SpawnerOwn(s: Server, e: Event)
    requires Good(s) && Can(s, e) && InScope(s, e) && Actor(e).TaskRunAttemptDispatcher?
    ensures SpawnerOk(Written(s, e), s.config, Next(s, e).spawner)
  {
    match e
    case Select(_) => SpawnerSelect(s);
    case Decide(_) => SpawnerDecide(s);
    case Commit(_) => SpawnerCommit(s);
    case Fail(_) => SeenTail(s.db, s.config, s.spawner); WindowOf(s.db, Next(s, e).spawner);
    case SpawnChild(ok) => SpawnerSpawn(s, ok);
    case _ =>
  }

  lemma SpawnerSelect(s: Server)
    requires Good(s) && Can(s, Select(TaskRunAttemptDispatcher))
    ensures SpawnerOk(s.db, s.config, s.spawner.(queue := SeenRows(s.db)))
  {
    SelectedAttemptsIn(s.db, AttemptStatus.Queued);
    assert SeenIds(SeenRows(s.db)) == SelectedAttempts(s.db, AttemptStatus.Queued);
    var ids := SelectedAttempts(s.db, AttemptStatus.Queued);
    assert forall i :: 0 <= i < |ids| ==> ids[i] in ids;
    WindowOf(s.db, s.spawner.(queue := SeenRows(s.db)));
  }

  lemma SpawnerDecide(s: Server)
    requires Good(s) && Can(s, Decide(TaskRunAttemptDispatcher))
    ensures var seen := s.spawner.queue[0];
      SpawnerOk(s.db, s.config, SpawnPoller(s.spawner.queue[1..], SpawnAt.Decided(seen.a, SpawnVerdict(s, seen))))
  {
    var seen := s.spawner.queue[0];
    var q := SpawnPoller(s.spawner.queue[1..], SpawnAt.Decided(seen.a, SpawnVerdict(s, seen)));
    assert q.Window() == s.spawner.Window();
    assert seen.a == s.spawner.Window()[0];
    assert AttemptOk(s.db, seen.a);
    if SpawnVerdict(s, seen).Running? { SlotsSeenFree(s, seen.a); }
  }

  lemma SpawnerCommit(s: Server)
    requires Good(s) && Can(s, Commit(TaskRunAttemptDispatcher))
    ensures SpawnerOk(Written(s, Commit(TaskRunAttemptDispatcher)), s.config, SpawnDone(s).spawner)
  {
    var w := SpawnWrite(s.spawner.at, s.now);
    assert WriteOf(s, Commit(TaskRunAttemptDispatcher)) == w;
    SpawnWriteFits(s);
    if w.Some? {
      SpawnerWrote(s.db, s.config, s.spawner, w.value, SpawnDone(s).spawner);
    } else {
      SpawnerWroteNothing(s.db, s.config, s.spawner, SpawnDone(s).spawner);
    }
  }

  lemma SpawnWriteFits(s: Server)
    requires SpawnerOk(s.db, s.config, s.spawner) && !s.spawner.at.Idle? && !s.spawner.at.Marked?
    ensures var p, q, w := s.spawner, SpawnDone(s).spawner, SpawnWrite(s.spawner.at, s.now);
      && q.queue == p.queue
      && (w.Some? ==>
            && IsAttemptWrite(w.value) && w.value.a == p.at.a
            && (q.at.Idle? ||
                 (q.at == Marked(p.at.a) && w.value.MarkStarted? && p.at == SpawnAt.Decided(p.at.a, AttemptStatus.Running))))
      && (w.None? ==> q.at.Idle? || (p.at.Spawned? && q.at == SpawnAt.Held(p.at.a)))
  {}

  lemma SpawnerWroteNothing(d: Db, config: Config, p: SpawnPoller, q: SpawnPoller)
    requires SpawnerOk(d, config, p) && q.queue == p.queue
    requires q.at.Idle? || (p.at.Spawned? && q.at == SpawnAt.Held(p.at.a))
    ensures SpawnerOk(d, config, q)
  {
    SeenTail(d, config, p);
    WindowOf(d, q);
  }

  /** A write made for the row in hand: it leaves the snapshot behind it as it was. */
  lemma SpawnerWrote(d: Db, config: Config, p: SpawnPoller, w: Write, q: SpawnPoller)
    requires Inv(d) && SpawnerOk(d, config, p) && !p.at.Idle? && !p.at.Marked?
    requires IsAttemptWrite(w) && w.a == p.at.a && q.queue == p.queue
    requires q.at.Idle? || (q.at == Marked(w.a) && w.MarkStarted? && p.at == SpawnAt.Decided(w.a, AttemptStatus.Running))
    ensures SpawnerOk(Apply(d, w), config, q)
  {
    SeenTail(d, config, p);
    SeenStays(d, w, w.a, p.queue);
    WindowOf(Apply(d, w), q);
    if q.at.Marked? {
      assert AttemptOk(d, w.a);
      SlotsUntouched(d, Apply(d, w), config, w.a);
    }
  }

  lemma SpawnerSpawn(s: Server, ok: bool)
    requires Good(s) && Can(s, SpawnChild(ok))
    ensures SpawnerOk(Written(s, SpawnChild(ok)), s.config, Next(s, SpawnChild(ok)).spawner)
  {
    var p, q := s.spawner, Next(s, SpawnChild(ok)).spawner;
    SeenTail(s.db, s.config, p);
    if ok {
      SeenStays(s.db, Spawn(p.at.a), p.at.a, p.queue);
      SlotsUntouched(s.db, Apply(s.db, Spawn(p.at.a)), s.config, p.at.a);
    }
    WindowOf(Written(s, SpawnChild(ok)), q);
  }

  // ---- TaskRunAttemptMonitor ----

  lemma WatcherKept(s: Server, e: Event)
    requires Good(s) && Can(s, e) && InScope(s, e)
    ensures WatcherOk(Written(s, e), Next(s, e).lost, Next(s, e).watcher)
  {
    if Actor(e).TaskRunAttemptMonitor? {
      WatcherOwn(s, e);
    } else if !e.Crash? {
      OthersUntouched(s, e);
      WatcherOther(s, e);
    }
  }

  lemma WatcherOther(s: Server, e: Event)
    requires Good(s) && Can(s, e) && InScope(s, e) && !Actor(e).TaskRunAttemptMonitor?
    ensures WatcherOk(Written(s, e), s.lost, s.watcher)
  {
    TableStep(s, e);
    if WriteOf(s, e).Some? {
      WriterIsActor(s, e);
      if !e.RecoverRow? {
        AttemptsStay(s.db, Written(s, e), WriterOf(WriteOf(s, e).value), s.watcher.Window(), AttemptStatus.Running);
      }
      WatchAtFrame(s.db, Written(s, e), s.lost, s.watcher.at);
    }
  }

  lemma WatcherOwn(s: Server, e: Event)
    requires Good(s) && Can(s, e) && InScope(s, e) && Actor(e).TaskRunAttemptMonitor?
    ensures WatcherOk(Written(s, e), Next(s, e).lost, Next(s, e).watcher)
  {
    match e
    case Select(_) => WatcherSelects(s.db, s.lost, s.watcher);
    case Decide(_) => WatcherTakes(s);
    case Commit(_) => WatcherCommit(s);
    case Fail(_) => WatcherFails(s.db, s.lost, s.watcher, Abandoned(s, TaskRunAttemptMonitor).lost);
    case Look(outputOk) => WatcherLook(s, outputOk);
    case _ =>
  }

  lemma WatcherSelects(d: Db, lost: set<nat>, p: WatchPoller)
    requires p.at.Idle?
    ensures WatcherOk(d, lost, p.(queue := SelectedAttempts(d, AttemptStatus.Running)))
  {}

  lemma WatcherTakes(s: Server)
    requires WatcherOk(s.db, s.lost, s.watcher) && ChildrenOk(s.db, s.children, s.watcher, s.lost, s.spawner)
    requires s.watcher.at.Idle? && s.watcher.queue != []
    ensures WatcherOk(s.db, s.lost, Decision(s, TaskRunAttemptMonitor).watcher)
  {
    var p, q := s.watcher, Decision(s, TaskRunAttemptMonitor).watcher;
    assert q.Window() == p.Window() && p.queue[0] in p.Window();
  }

  lemma WatcherFails(d: Db, lost: set<nat>, p: WatchPoller, after: set<nat>)
    requires WatcherOk(d, lost, p) && !p.at.Idle?
    ensures WatcherOk(d, after, p.(at := WatchAt.Idle))
  {
    AttemptTailStays(d, p.Window(), AttemptStatus.Running);
    assert p.Window()[1..] == p.queue && p.(at := WatchAt.Idle).Window() == p.queue;
  }

  lemma WatcherCommit(s: Server)
    requires Good(s) && Can(s, Commit(TaskRunAttemptMonitor))
    ensures WatcherOk(Written(s, Commit(TaskRunAttemptMonitor)), s.lost, s.watcher.(at := WatchAt.Idle))
  {
    var p := s.watcher;
    AttemptTailStays(s.db, p.Window(), AttemptStatus.Running);
    assert p.Window()[1..] == p.queue && p.(at := WatchAt.Idle).Window() == p.queue;
    if p.at.Settling? { SettleSpares(s.db, p.at.a, p.at.next, p.queue); }
  }

  lemma SettleSpares(d: Db, a: nat, next: AttemptStatus, ids: seq<nat>)
    requires AttemptsIn(d, ids, AttemptStatus.Running) && a !in ids
    ensures AttemptsIn(Apply(d, SettleAttempt(a, next)), ids, AttemptStatus.Running)
  {}

  lemma WatcherLook(s: Server, outputOk: bool)
    requires Good(s) && Can(s, Look(outputOk))
    ensures WatcherOk(Written(s, Look(outputOk)), s.lost,
      s.watcher.(at := See(s, s.watcher.at.a, s.watcher.at.child, outputOk).at))
  {
    var p := s.watcher;
    var sight := See(s, p.at.a, p.at.child, outputOk);
    var q := p.(at := sight.at);
    assert p.at.a in p.Window();
    SightOk(s, p.at.a, p.at.child, outputOk);
    assert q.Window() == p.Window();
    if sight.kill {
      KillSpares(s.db, p.at.a, p.Window());
      assert Enabled(s.db, Kill(p.at.a)) by { assert AttemptOk(s.db, p.at.a); }
      WriteExtends(s.db, Kill(p.at.a));
      WatchAtFrame(s.db, Apply(s.db, Kill(p.at.a)), s.lost, q.at);
    }
  }

  lemma KillSpares(d: Db, a: nat, ids: seq<nat>)
    requires AttemptsIn(d, ids, AttemptStatus.Running)
    ensures AttemptsIn(Apply(d, Kill(a)), ids, AttemptStatus.Running)
  {}

  /** Whatever the monitor makes of a process, the tables and the process bear it out. */
  lemma SightOk(s: Server, a: nat, held: Option<Child>, outputOk: bool)
    requires Inv(s.db) && a < |s.db.attempts|
    requires if held.Some? then ChildOk(s.db, a, held.value) else a in s.lost
    ensures WatchAtOk(s.db, s.lost, See(s, a, held, outputOk).at)
    ensures See(s, a, held, outputOk).at.a == a
  {}
}
