/**
  What is left after a pass of retention: which rows go with a run it selects, said by the chain
  of parents alone, and that every other row is still there.
 */
module RetentionTakes {
  import opened Options
  import opened Retention
  import opened RetentionFacts
  import opened RetentionStack

  // ---- Below a run ----

  ghost predicate HasParent(rows: seq<Run>, x: nat, parent: nat) {
    exists row :: row in rows && row.id == x && row.parent == Some(parent)
  }

  /** Each run was submitted by a task of the next. */
  ghost predicate ParentChain(rows: seq<Run>, chain: seq<nat>) {
    forall k :: 0 <= k < |chain| - 1 ==> HasParent(rows, chain[k], chain[k + 1])
  }

  ghost predicate Joins(rows: seq<Run>, chain: seq<nat>, x: nat, id: nat) {
    chain != [] && chain[0] == x && chain[|chain| - 1] == id && ParentChain(rows, chain)
  }

  /** The run itself, or one whose chain of parents leads to it. */
  ghost predicate Under(rows: seq<Run>, x: nat, id: nat) {
    exists chain :: Joins(rows, chain, x, id)
  }

  lemma UnderItself(rows: seq<Run>, id: nat)
    ensures Under(rows, id, id)
  {
    assert Joins(rows, [id], id, id);
  }

  lemma UnderByParent(rows: seq<Run>, x: nat, parent: nat, id: nat)
    requires HasParent(rows, x, parent) && Under(rows, parent, id)
    ensures Under(rows, x, id)
  {
    var chain :| Joins(rows, chain, parent, id);
    assert Joins(rows, [x] + chain, x, id);
  }

  /** Of a chain that goes on, the first run's parent is under the last too. */
  lemma RestOfChain(rows: seq<Run>, chain: seq<nat>, x: nat, id: nat)
    requires Joins(rows, chain, x, id) && |chain| > 1
    ensures HasParent(rows, x, chain[1]) && Joins(rows, chain[1..], chain[1], id)
  {
    assert HasParent(rows, chain[0], chain[0 + 1]);
    forall k | 0 <= k < |chain[1..]| - 1 ensures HasParent(rows, chain[1..][k], chain[1..][k + 1]) {
      assert HasParent(rows, chain[k + 1], chain[k + 1 + 1]);
    }
  }

  lemma {:induction false} ChainThenUnder(rows: seq<Run>, chain: seq<nat>, x: nat, y: nat, id: nat)
    requires Joins(rows, chain, x, y) && Under(rows, y, id)
    ensures Under(rows, x, id)
    decreases |chain|
  {
    if |chain| > 1 {
      RestOfChain(rows, chain, x, y);
      ChainThenUnder(rows, chain[1..], chain[1], y, id);
      UnderByParent(rows, x, chain[1], id);
    }
  }

  lemma UnderThenUnder(rows: seq<Run>, x: nat, y: nat, id: nat)
    requires Under(rows, x, y) && Under(rows, y, id)
    ensures Under(rows, x, id)
  {
    var chain :| Joins(rows, chain, x, y);
    ChainThenUnder(rows, chain, x, y, id);
  }

  // ---- The scan in id order finds exactly those ----

  lemma {:induction false} FamilyIsUnder(rows: seq<Run>, id: nat, x: nat)
    requires InIdOrder(rows) && ParentsEarlier(rows) && x in Family(rows, id)
    ensures Under(rows, x, id)
    decreases x
  {
    if x == id {
      UnderItself(rows, id);
    } else {
      FamilyHasParents(rows, id, x);
      var row :| row in rows && row.id == x && row.parent.Some? && row.parent.value in Family(rows, id);
      FamilyIsUnder(rows, id, row.parent.value);
      UnderByParent(rows, x, row.parent.value, id);
    }
  }

  lemma {:induction false} ChainIsFamily(rows: seq<Run>, id: nat, x: nat, chain: seq<nat>)
    requires InIdOrder(rows) && ParentsEarlier(rows) && Joins(rows, chain, x, id)
    ensures x in Family(rows, id)
    decreases |chain|
  {
    FamilyIsClosed(rows, id);
    if |chain| > 1 {
      RestOfChain(rows, chain, x, id);
      ChainIsFamily(rows, id, chain[1], chain[1..]);
    }
  }

  /** A run's family is what its chain of parents puts under it. */
  lemma FamilyIff(rows: seq<Run>, id: nat, x: nat)
    requires InIdOrder(rows) && ParentsEarlier(rows)
    ensures x in Family(rows, id) <==> Under(rows, x, id)
  {
    if x in Family(rows, id) { FamilyIsUnder(rows, id, x); }
    if Under(rows, x, id) {
      var chain :| Joins(rows, chain, x, id);
      ChainIsFamily(rows, id, x, chain);
    }
  }

  // ---- One run at a time ----

  /** A run under it, other than itself, has not finished. */
  ghost predicate Waits(rows: seq<Run>, id: nat) {
    exists row :: UnfinishedUnder(rows, row, id)
  }

  ghost predicate UnfinishedUnder(rows: seq<Run>, row: Run, id: nat) {
    row in rows && row.id != id && Under(rows, row.id, id) && !row.finished
  }

  lemma WaitsIff(rows: seq<Run>, id: nat)
    requires InIdOrder(rows) && ParentsEarlier(rows)
    ensures Waits(rows, id) <==> WaitsForChild(rows, id)
  {
    forall row: Run ensures row.id in Family(rows, id) <==> Under(rows, row.id, id) { FamilyIff(rows, id, row.id); }
    if Waits(rows, id) {
      var row :| UnfinishedUnder(rows, row, id);
      var i :| 0 <= i < |rows| && rows[i] == row;
    }
    if WaitsForChild(rows, id) {
      var i :| 0 <= i < |rows| && rows[i].id != id && rows[i].id in Family(rows, id) && !rows[i].finished;
      assert UnfinishedUnder(rows, rows[i], id);
    }
  }

  lemma HandledTakes(rows: seq<Run>, id: nat)
    requires InIdOrder(rows) && ParentsEarlier(rows)
    ensures forall row :: row in HandledRow(rows, id) <==>
      row in rows && !(HasId(rows, id) && !Waits(rows, id) && Under(rows, row.id, id))
  {
    WaitsIff(rows, id);
    PrunedHas(rows, Family(rows, id));
    forall row: Run ensures row.id in Family(rows, id) <==> Under(rows, row.id, id) { FamilyIff(rows, id, row.id); }
  }

  // ---- What earlier deletions leave of a chain ----

  /** Rows have only gone, unfinished ones stayed, and so did the parent of each that stayed. */
  ghost predicate LeftOf(rows: seq<Run>, later: seq<Run>) {
    Sound(rows) && SafelyDeleted(rows, later)
  }

  lemma {:induction false} ChainStays(rows: seq<Run>, later: seq<Run>, chain: seq<nat>, x: nat, id: nat)
    requires LeftOf(rows, later) && Joins(rows, chain, x, id) && HasId(later, x)
    ensures Under(later, x, id)
    decreases |chain|
  {
    if |chain| == 1 {
      UnderItself(later, id);
    } else {
      RestOfChain(rows, chain, x, id);
      var i :| 0 <= i < |later| && later[i].id == x;
      var row :| row in rows && row.id == x && row.parent == Some(chain[1]);
      assert later[i] in later;
      OneRowPerId(rows, later[i], row);
      assert HasParent(later, x, chain[1]);
      ChainStays(rows, later, chain[1..], chain[1], id);
      UnderByParent(later, x, chain[1], id);
    }
  }

  lemma {:induction false} ChainWas(rows: seq<Run>, later: seq<Run>, chain: seq<nat>)
    requires (forall row :: row in later ==> row in rows) && ParentChain(later, chain)
    ensures ParentChain(rows, chain)
  {
    forall k | 0 <= k < |chain| - 1 ensures HasParent(rows, chain[k], chain[k + 1]) {
      assert HasParent(later, chain[k], chain[k + 1]);
    }
  }

  /** A row that is left is under the same runs as before. */
  lemma UnderStays(rows: seq<Run>, later: seq<Run>, x: nat, id: nat)
    requires LeftOf(rows, later) && HasId(later, x)
    ensures Under(later, x, id) <==> Under(rows, x, id)
  {
    if Under(rows, x, id) {
      var chain :| Joins(rows, chain, x, id);
      ChainStays(rows, later, chain, x, id);
    }
    if Under(later, x, id) {
      var chain :| Joins(later, chain, x, id);
      ChainWas(rows, later, chain);
      assert Joins(rows, chain, x, id);
    }
  }

  lemma IdOfRow(rows: seq<Run>, row: Run)
    requires row in rows
    ensures HasId(rows, row.id)
  {
    var i :| 0 <= i < |rows| && rows[i] == row;
  }

  /** What a run waits for is left, and holds it up as before. */
  lemma WaitsStays(rows: seq<Run>, later: seq<Run>, id: nat)
    requires LeftOf(rows, later)
    ensures Waits(later, id) <==> Waits(rows, id)
  {
    if Waits(rows, id) {
      var row :| UnfinishedUnder(rows, row, id);
      IdOfRow(later, row);
      UnderStays(rows, later, row.id, id);
      assert UnfinishedUnder(later, row, id);
    }
    if Waits(later, id) {
      var row :| UnfinishedUnder(later, row, id);
      IdOfRow(later, row);
      UnderStays(rows, later, row.id, id);
      assert UnfinishedUnder(rows, row, id);
    }
  }

  // ---- A whole pass ----

  ghost predicate TakenWith(rows: seq<Run>, x: nat, id: nat) {
    Under(rows, x, id) && !Waits(rows, id)
  }

  /** Under a run that is selected and waits for nothing. */
  ghost predicate Taken(rows: seq<Run>, ids: seq<nat>, x: nat) {
    exists id :: id in ids && TakenWith(rows, x, id)
  }

  ghost predicate LeavesUntaken(rows: seq<Run>, ids: seq<nat>, later: seq<Run>) {
    forall row :: row in later <==> row in rows && !Taken(rows, ids, row.id)
  }

  lemma {:induction false} AllHandledTake(rows: seq<Run>, ids: seq<nat>)
    requires Sound(rows) && forall id :: id in ids ==> FinishedId(rows, id)
    ensures LeavesUntaken(rows, ids, HandledAll(rows, ids))
    decreases |ids|
  {
    if ids != [] {
      var before, last := ids[..|ids| - 1], ids[|ids| - 1];
      assert ids == before + [last];
      AllHandledTake(rows, before);
      AllHandledSafely(rows, before);
      OneMoreTaken(rows, before, last, HandledAll(rows, before));
    }
  }

  lemma OneMoreTaken(rows: seq<Run>, ids: seq<nat>, id: nat, later: seq<Run>)
    requires LeftOf(rows, later) && LeavesUntaken(rows, ids, later)
    ensures LeavesUntaken(rows, ids + [id], HandledRow(later, id))
  {
    HandledTakes(later, id);
    WaitsStays(rows, later, id);
    forall row: Run ensures row in HandledRow(later, id) <==> row in rows && !Taken(rows, ids + [id], row.id) {
      TakenMore(rows, ids, id, row.id);
      if row in later {
        IdOfRow(later, row);
        UnderStays(rows, later, row.id, id);
        if Under(later, row.id, id) { ThenItIsThere(later, row.id, id); }
      }
    }
  }

  lemma TakenMore(rows: seq<Run>, ids: seq<nat>, id: nat, x: nat)
    ensures Taken(rows, ids + [id], x) <==> Taken(rows, ids, x) || TakenWith(rows, x, id)
  {
    if Taken(rows, ids, x) {
      var other :| other in ids && TakenWith(rows, x, other);
      assert other in ids + [id];
    }
    assert id in ids + [id];
  }

  /** What a row that is there is under is there too. */
  lemma ThenItIsThere(rows: seq<Run>, x: nat, id: nat)
    requires Sound(rows) && HasId(rows, x) && Under(rows, x, id)
    ensures HasId(rows, id)
  {
    var chain :| Joins(rows, chain, x, id);
    ChainIsThere(rows, chain, x, id);
  }

  lemma {:induction false} ChainIsThere(rows: seq<Run>, chain: seq<nat>, x: nat, id: nat)
    requires Sound(rows) && HasId(rows, x) && Joins(rows, chain, x, id)
    ensures HasId(rows, id)
    decreases |chain|
  {
    if |chain| > 1 {
      RestOfChain(rows, chain, x, id);
      ChainIsThere(rows, chain[1..], chain[1], id);
    }
  }

  /**
    Exactly what a pass takes: each selected run with every run under it, unless one of those
    other than itself has not finished. Every other row is left as it was, in the same order.
   */
  lemma PassTakes(rows: seq<Run>, config: Config, jobs: seq<string>)
    requires Sound(rows) && JobsOf(rows, jobs)
    ensures var ids, later := Selected(rows, config, jobs), HandledAll(rows, Selected(rows, config, jobs));
      InIdOrder(later) && LeavesUntaken(rows, ids, later)
  {
    PassSelects(rows, config, jobs);
    SelectedFinished(rows, Selected(rows, config, jobs));
    AllHandledTake(rows, Selected(rows, config, jobs));
    PassIsSafe(rows, config, jobs);
  }

  // ---- The newest runs of a job ----

  /** Fewer than its job's `keep_runs` finished runs of the job are newer, or it keeps them all. */
  ghost predicate AmongNewest(rows: seq<Run>, config: Config, row: Run) {
    var keepRuns := if row.jobId in config.keepRuns then config.keepRuns[row.jobId] else config.defaultKeepRuns;
    keepRuns == 0 || |set r | r in rows && r.finished && r.jobId == row.jobId && r.id > row.id :: r.id| < keepRuns
  }

  /** With no total set, a job's newest finished runs are left by a pass, unless under one it takes. */
  lemma NewestLeft(rows: seq<Run>, config: Config, jobs: seq<string>, row: Run)
    requires Sound(rows) && JobsOf(rows, jobs) && config.keepRunsTotal == 0
    requires row in rows && row.finished && AmongNewest(rows, config, row)
    requires forall id :: id in Selected(rows, config, jobs) && Under(rows, row.id, id) ==> id == row.id
    ensures row in HandledAll(rows, Selected(rows, config, jobs))
  {
    PassTakes(rows, config, jobs);
    EmptyWindow(rows, config, PerJob(rows, config, jobs));
    PastOwnIff(rows, config, row);
    PerJobPicks(rows, config, jobs);
    if row.id in PerJob(rows, config, jobs) {
      assert row.id in SetOf(PerJob(rows, config, jobs));
      PickedIsPast(rows, config, jobs, row);
    }
  }

  /** What the per-job rule is about: the finished runs its job's `keep_runs` does not keep. */
  lemma PastOwnIff(rows: seq<Run>, config: Config, row: Run)
    ensures PastOwn(rows, config, row) <==> row.finished && !AmongNewest(rows, config, row)
  {
    assert Newer(rows, row) == set r | r in rows && r.finished && r.jobId == row.jobId && r.id > row.id :: r.id;
  }

  lemma {:induction false} PickedIsPast(rows: seq<Run>, config: Config, jobs: seq<string>, row: Run)
    requires InIdOrder(rows) && row in rows && row.id in Picks(rows, config, jobs)
    ensures PastOwn(rows, config, row)
    decreases |jobs|
  {
    var before := Picks(rows, config, jobs[..|jobs| - 1]);
    if row.id in before {
      PickedIsPast(rows, config, jobs[..|jobs| - 1], row);
    } else {
      var other :| other in rows && other.jobId == jobs[|jobs| - 1] && Picked(rows, config, |before|, other) && other.id == row.id;
      OneRowPerId(rows, row, other);
    }
  }

  // ---- The global rule ----

  ghost function FinishedIds(rows: seq<Run>): set<nat> {
    set row | row in rows && row.finished :: row.id
  }

  ghost function OlderFinished(rows: seq<Run>, row: Run): set<nat> {
    set r | r in rows && r.finished && r.id < row.id :: r.id
  }

  /** Among the oldest over the total, as far as the budget goes: nothing owed, not picked already. */
  ghost predicate OverTotal(rows: seq<Run>, config: Config, already: seq<nat>, row: Run) {
    && row in rows && row.finished && !row.owes && row.id !in already
    && config.keepRunsTotal != 0
    && |OlderFinished(rows, row)| + config.keepRunsTotal < |FinishedIds(rows)|
    && (config.maxDeletes != 0 ==> |OlderFinished(rows, row)| + |already| < config.maxDeletes)
  }

  /** What the global rule adds, said of the rows: whatever owes and whatever the budget. */
  lemma GlobalPicks(rows: seq<Run>, config: Config, already: seq<nat>, id: nat)
    requires InIdOrder(rows)
    ensures id in Global(rows, config, already) <==> exists row :: OverTotal(rows, config, already, row) && row.id == id
  {
    var oldest := Oldest(rows, config, |already|);
    WindowIsOldest(rows, config, already);
    IdsNotOwingHas(oldest, id);
    forall row: Run ensures row in oldest && !row.owes && row.id !in already <==> OverTotal(rows, config, already, row) {
      OldestByPlace(rows, config, already, row);
    }
  }

  lemma FinishedCount(rows: seq<Run>)
    requires InIdOrder(rows)
    ensures |FinishedIds(rows)| == |Finished(rows, None)|
  {
    FinishedInOrder(rows, None);
    SizeOfIds(Finished(rows, None));
    assert FinishedIds(rows) == IdSet(Finished(rows, None));
  }

  lemma OlderCount(rows: seq<Run>, i: nat)
    requires InIdOrder(rows) && i < |Finished(rows, None)|
    ensures |OlderFinished(rows, Finished(rows, None)[i])| == i
  {
    var matched := Finished(rows, None);
    FinishedInOrder(rows, None);
    EarlierRows(matched, i);
    SizeOfIds(matched[..i]);
    assert OlderFinished(rows, matched[i]) == IdSet(matched[..i]);
  }

  lemma OldestByPlace(rows: seq<Run>, config: Config, already: seq<nat>, row: Run)
    requires InIdOrder(rows)
    ensures row in Oldest(rows, config, |already|) && !row.owes && row.id !in already <==> OverTotal(rows, config, already, row)
  {
    var matched, oldest := Finished(rows, None), Oldest(rows, config, |already|);
    FinishedCount(rows);
    if row in matched {
      var i :| 0 <= i < |matched| && matched[i] == row;
      OlderCount(rows, i);
      FinishedInOrder(rows, None);
      if i < |oldest| { assert oldest[i] == row; }
      if row in oldest {
        var k :| 0 <= k < |oldest| && oldest[k] == row;
        assert matched[k].id == matched[i].id;
      }
    }
  }
}
