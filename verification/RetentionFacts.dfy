/** What a pass of retention may and may not take, and what repeated passes come to. */
module RetentionFacts {
  import opened Options
  import opened Retention

  // ---- What one query selects ----

  lemma {:induction false} FinishedInOrder(rows: seq<Run>, job: Option<string>)
    requires InIdOrder(rows)
    ensures InIdOrder(Finished(rows, job))
    decreases |rows|
  {
    if rows != [] {
      var before, last := rows[..|rows| - 1], rows[|rows| - 1];
      FinishedInOrder(before, job);
      forall row | row in Finished(before, job) ensures row.id < last.id {
        assert row in before;
      }
    }
  }

  lemma {:induction false} IdsInOrder(rows: seq<Run>)
    requires InIdOrder(rows)
    ensures Ascending(IdsNotOwing(rows))
    decreases |rows|
  {
    if rows != [] {
      var before, last := rows[..|rows| - 1], rows[|rows| - 1];
      IdsInOrder(before);
      forall k | 0 <= k < |IdsNotOwing(before)| ensures IdsNotOwing(before)[k] < last.id {
        assert IdsNotOwing(before)[k] in IdsNotOwing(before);
      }
    }
  }

  ghost predicate Selectable(rows: seq<Run>, job: Option<string>, id: nat) {
    exists row :: row in rows && row.id == id && IsFinished(row, job) && !row.owes
  }

  /** One query: in id order, only finished runs that owe nothing, and no more than its limit. */
  lemma QuerySelects(rows: seq<Run>, job: Option<string>, sort: Sort, offset: nat, limit: Option<nat>)
    requires InIdOrder(rows)
    ensures var ids := SelectDeletable(rows, job, sort, offset, limit);
      && Ascending(ids) && (forall id :: id in ids ==> Selectable(rows, job, id))
      && (limit.Some? ==> |ids| <= limit.value)
      && (sort.NewestFirst? ==> |ids| <= Less(|Finished(rows, job)|, offset))
  {
    var matched := Finished(rows, job);
    var window := Window(matched, sort, offset, limit);
    FinishedInOrder(rows, job);
    WindowOf(matched, sort, offset, limit);
    IdsInOrder(window);
    forall id | id in IdsNotOwing(window) ensures Selectable(rows, job, id) {
      var i :| 0 <= i < |window| && window[i].id == id && !window[i].owes;
      assert window[i] in matched;
    }
  }

  lemma WindowOf(matched: seq<Run>, sort: Sort, offset: nat, limit: Option<nat>)
    requires InIdOrder(matched)
    ensures var window := Window(matched, sort, offset, limit);
      && InIdOrder(window) && (forall row :: row in window ==> row in matched)
      && (limit.Some? ==> |window| <= limit.value)
      && (sort.NewestFirst? ==> |window| <= Less(|matched|, offset))
  {}

  lemma OneRowPerId(rows: seq<Run>, x: Run, y: Run)
    requires InIdOrder(rows) && x in rows && y in rows && x.id == y.id
    ensures x == y
  {}

  // ---- Distinct, and within the budget ----

  ghost predicate Distinct(ids: seq<nat>) {
    forall i, k :: 0 <= i < k < |ids| ==> ids[i] != ids[k]
  }

  lemma DistinctConcat(a: seq<nat>, b: seq<nat>)
    requires Distinct(a) && Distinct(b) && forall id :: id in a ==> id !in b
    ensures Distinct(a + b)
  {
    forall i, k | 0 <= i < k < |a + b| ensures (a + b)[i] != (a + b)[k] {
      if i < |a| <= k { assert a[i] in a && b[k - |a|] in b; }
    }
  }

  ghost predicate OfSome(rows: seq<Run>, jobs: seq<string>, id: nat) {
    exists job :: job in jobs && Selectable(rows, Some(job), id)
  }

  lemma {:induction false} PerJobSelects(rows: seq<Run>, config: Config, jobs: seq<string>)
    requires InIdOrder(rows) && forall i, k :: 0 <= i < k < |jobs| ==> jobs[i] != jobs[k]
    ensures Distinct(PerJob(rows, config, jobs))
    ensures forall id :: id in PerJob(rows, config, jobs) ==> OfSome(rows, jobs, id)
    ensures config.maxDeletes != 0 ==> |PerJob(rows, config, jobs)| <= config.maxDeletes
    decreases |jobs|
  {
    if jobs != [] {
      var earlier, job := jobs[..|jobs| - 1], jobs[|jobs| - 1];
      PerJobSelects(rows, config, earlier);
      var before := PerJob(rows, config, earlier);
      var picked := JobCandidates(rows, config, job, |before|);
      QuerySelects(rows, Some(job), NewestFirst, KeepRuns(config, job), RemainingBudget(config.maxDeletes, |before|));
      forall id | id in before ensures id !in picked && OfSome(rows, jobs, id) {
        var other :| other in earlier && Selectable(rows, Some(other), id);
        OtherJobs(rows, other, job, id);
        assert other in jobs;
      }
      forall id | id in picked ensures OfSome(rows, jobs, id) { assert job in jobs; }
      DistinctConcat(before, picked);
    }
  }

  lemma OtherJobs(rows: seq<Run>, one: string, other: string, id: nat)
    requires InIdOrder(rows) && one != other && Selectable(rows, Some(one), id)
    ensures !Selectable(rows, Some(other), id)
  {}

  lemma {:induction false} DistinctNotIn(ids: seq<nat>, already: seq<nat>)
    requires Distinct(ids)
    ensures Distinct(NotIn(ids, already))
    decreases |ids|
  {
    if ids != [] {
      var before, last := ids[..|ids| - 1], ids[|ids| - 1];
      DistinctNotIn(before, already);
      assert last !in before;
      if last !in already { DistinctConcat(NotIn(before, already), [last]); }
    }
  }

  /**
    One pass selects distinct finished runs that owe no notification: within the budget, and by
    the global rule no more than there are over the total.
   */
  lemma PassSelects(rows: seq<Run>, config: Config, jobs: seq<string>)
    requires InIdOrder(rows) && JobsOf(rows, jobs)
    ensures var ids := Selected(rows, config, jobs);
      && Distinct(ids)
      && (forall id :: id in ids ==> Selectable(rows, None, id))
      && (config.maxDeletes != 0 ==> |ids| <= config.maxDeletes)
      && |ids| - |PerJob(rows, config, jobs)| <= Overflow(rows, config)
  {
    var perJob := PerJob(rows, config, jobs);
    var window := GlobalWindow(rows, config, perJob);
    PerJobSelects(rows, config, jobs);
    QuerySelects(rows, None, OldestFirst, 0, Some(Capped(Overflow(rows, config), RemainingBudget(config.maxDeletes, |perJob|))));
    assert Distinct(window);
    DistinctNotIn(window, perJob);
    DistinctConcat(perJob, Global(rows, config, perJob));
    forall id | id in perJob ensures Selectable(rows, None, id) {
      var job :| job in jobs && Selectable(rows, Some(job), id);
      var row :| row in rows && row.id == id && IsFinished(row, Some(job)) && !row.owes;
      assert IsFinished(row, None);
    }
  }

  // ---- The newest runs of a job ----

  /** The finished runs of a job its own `keep_runs` keeps: all of them if that is 0. */
  function Newest(rows: seq<Run>, config: Config, job: string): seq<Run> {
    var matched := Finished(rows, Some(job));
    if KeepRuns(config, job) == 0 then matched else matched[Less(|matched|, KeepRuns(config, job))..]
  }

  /** The per-job rule never takes any of a job's newest `keep_runs`. */
  lemma {:induction false} NewestKept(rows: seq<Run>, config: Config, jobs: seq<string>, job: string, row: Run)
    requires InIdOrder(rows) && row in Newest(rows, config, job)
    ensures row.id !in PerJob(rows, config, jobs)
    decreases |jobs|
  {
    if jobs != [] {
      var before := PerJob(rows, config, jobs[..|jobs| - 1]);
      NewestKept(rows, config, jobs[..|jobs| - 1], job, row);
      NotCandidate(rows, config, job, row, jobs[|jobs| - 1], |before|);
    }
  }

  lemma NotCandidate(rows: seq<Run>, config: Config, job: string, row: Run, other: string, selected: nat)
    requires InIdOrder(rows) && row in Newest(rows, config, job)
    ensures row.id !in JobCandidates(rows, config, other, selected)
  {
    var limit := RemainingBudget(config.maxDeletes, selected);
    var matched := Finished(rows, Some(other));
    FinishedInOrder(rows, Some(other));
    var window := matched[..Capped(Less(|matched|, KeepRuns(config, other)), limit)];
    forall i | 0 <= i < |window| && KeepRuns(config, other) != 0 ensures window[i].id != row.id {
      assert window[i] in rows && window[i] == matched[i];
      if window[i].id == row.id { OneRowPerId(rows, window[i], row); }
    }
  }

  // ---- Deleting with descendants ----

  /** A run's parent is a row, and has the smaller id. */
  ghost predicate ParentsOk(rows: seq<Run>) {
    forall row :: row in rows && row.parent.Some? ==> row.parent.value < row.id && HasId(rows, row.parent.value)
  }

  ghost predicate ParentsEarlier(rows: seq<Run>) {
    forall row :: row in rows && row.parent.Some? ==> row.parent.value < row.id
  }

  ghost predicate HasParentIn(rows: seq<Run>, x: nat, family: set<nat>) {
    exists row :: row in rows && row.id == x && row.parent.Some? && row.parent.value in family
  }

  lemma {:induction false} FamilyHasChildren(rows: seq<Run>, id: nat)
    requires InIdOrder(rows) && ParentsEarlier(rows)
    ensures forall row :: row in rows && row.parent.Some? && row.parent.value in Family(rows, id) ==> row.id in Family(rows, id)
    decreases |rows|
  {
    if rows != [] {
      var before, last := rows[..|rows| - 1], rows[|rows| - 1];
      assert rows == before + [last];
      FamilyHasChildren(before, id);
      forall row | row in rows && row.parent.Some? && row.parent.value in Family(rows, id) ensures row.id in Family(rows, id) {
        assert row in before ==> row.id < last.id;
      }
    }
  }

  lemma {:induction false} FamilyHasParents(rows: seq<Run>, id: nat, x: nat)
    requires x in Family(rows, id) && x != id
    ensures HasParentIn(rows, x, Family(rows, id))
    decreases |rows|
  {
    var before, last := rows[..|rows| - 1], rows[|rows| - 1];
    assert rows == before + [last];
    if x in Family(before, id) {
      FamilyHasParents(before, id, x);
      ParentStays(before, last, x, Family(before, id), Family(rows, id));
    } else {
      assert last in rows;
    }
  }

  lemma {:induction false} FamilyHasItself(rows: seq<Run>, id: nat)
    ensures id in Family(rows, id)
    decreases |rows|
  {
    if rows != [] { FamilyHasItself(rows[..|rows| - 1], id); }
  }

  /** A family holds the children of its members, and every other member's parent. */
  lemma FamilyIsClosed(rows: seq<Run>, id: nat)
    requires InIdOrder(rows) && ParentsEarlier(rows)
    ensures id in Family(rows, id)
    ensures forall row :: row in rows && row.parent.Some? && row.parent.value in Family(rows, id) ==> row.id in Family(rows, id)
    ensures forall x :: x in Family(rows, id) && x != id ==> HasParentIn(rows, x, Family(rows, id))
  {
    FamilyHasItself(rows, id);
    FamilyHasChildren(rows, id);
    forall x | x in Family(rows, id) && x != id ensures HasParentIn(rows, x, Family(rows, id)) {
      FamilyHasParents(rows, id, x);
    }
  }

  lemma ParentStays(before: seq<Run>, last: Run, x: nat, family: set<nat>, larger: set<nat>)
    requires HasParentIn(before, x, family) && family <= larger
    ensures HasParentIn(before + [last], x, larger)
  {
    var row :| row in before && row.id == x && row.parent.Some? && row.parent.value in family;
    assert row in before + [last];
  }

  lemma {:induction false} PrunedHas(rows: seq<Run>, gone: set<nat>)
    ensures forall row :: row in Pruned(rows, gone) <==> row in rows && row.id !in gone
    decreases |rows|
  {
    if rows != [] {
      PrunedHas(rows[..|rows| - 1], gone);
      assert rows == rows[..|rows| - 1] + [rows[|rows| - 1]];
    }
  }

  lemma {:induction false} PrunedInOrder(rows: seq<Run>, gone: set<nat>)
    requires InIdOrder(rows)
    ensures InIdOrder(Pruned(rows, gone))
    decreases |rows|
  {
    if rows != [] {
      var before, last := rows[..|rows| - 1], rows[|rows| - 1];
      PrunedInOrder(before, gone);
      PrunedHas(before, gone);
      forall k | 0 <= k < |Pruned(before, gone)| ensures Pruned(before, gone)[k].id < last.id {
        assert Pruned(before, gone)[k] in before;
      }
    }
  }

  lemma {:induction false} PrunedShrinks(rows: seq<Run>, gone: set<nat>)
    ensures |Pruned(rows, gone)| <= |rows|
    ensures (exists i :: 0 <= i < |rows| && rows[i].id in gone) ==> |Pruned(rows, gone)| < |rows|
    decreases |rows|
  {
    if rows != [] {
      var before := rows[..|rows| - 1];
      PrunedShrinks(before, gone);
      assert forall i :: 0 <= i < |before| ==> before[i] == rows[i];
    }
  }

  ghost predicate Sound(rows: seq<Run>) {
    InIdOrder(rows) && ParentsOk(rows)
  }

  /** What handling rows may do: rows go, but none that has not finished, and no parent before its child. */
  ghost predicate SafelyDeleted(rows: seq<Run>, later: seq<Run>) {
    && Sound(later) && |later| <= |rows|
    && (forall row :: row in later ==> row in rows)
    && (forall row :: row in rows && row !in later ==> row.finished)
  }

  ghost predicate FinishedId(rows: seq<Run>, id: nat) {
    forall row :: row in rows && row.id == id ==> row.finished
  }

  lemma HandledSafely(rows: seq<Run>, id: nat)
    requires Sound(rows) && FinishedId(rows, id)
    ensures SafelyDeleted(rows, HandledRow(rows, id))
  {
    var later, family := HandledRow(rows, id), Family(rows, id);
    if later != rows {
      FamilyIsClosed(rows, id);
      PrunedHas(rows, family);
      PrunedInOrder(rows, family);
      PrunedShrinks(rows, family);
      forall row | row in later && row.parent.Some? ensures HasId(later, row.parent.value) {
        var i :| 0 <= i < |rows| && rows[i].id == row.parent.value;
        assert rows[i] in later;
      }
      forall row | row in rows && row !in later ensures row.finished {
        var i :| 0 <= i < |rows| && rows[i] == row;
        assert row.id != id ==> !WaitsForChild(rows, id);
      }
    }
  }

  lemma {:induction false} AllHandledSafely(rows: seq<Run>, ids: seq<nat>)
    requires Sound(rows) && forall id :: id in ids ==> FinishedId(rows, id)
    ensures SafelyDeleted(rows, HandledAll(rows, ids))
    decreases |ids|
  {
    if ids != [] {
      var before, last := ids[..|ids| - 1], ids[|ids| - 1];
      assert ids == before + [last];
      AllHandledSafely(rows, before);
      assert FinishedId(rows, last);
      HandledSafely(HandledAll(rows, before), last);
    }
  }

  lemma SelectedFinished(rows: seq<Run>, ids: seq<nat>)
    requires InIdOrder(rows) && forall id :: id in ids ==> Selectable(rows, None, id)
    ensures forall id :: id in ids ==> FinishedId(rows, id)
  {
    forall id, other | id in ids && other in rows && other.id == id ensures other.finished {
      var row :| row in rows && row.id == id && IsFinished(row, None) && !row.owes;
      OneRowPerId(rows, row, other);
    }
  }

  /** A pass never deletes a run that has not finished, nor a parent from under its children. */
  lemma PassIsSafe(rows: seq<Run>, config: Config, jobs: seq<string>)
    requires Sound(rows) && JobsOf(rows, jobs)
    ensures SafelyDeleted(rows, HandledAll(rows, Selected(rows, config, jobs)))
  {
    PassSelects(rows, config, jobs);
    SelectedFinished(rows, Selected(rows, config, jobs));
    AllHandledSafely(rows, Selected(rows, config, jobs));
  }

  // ---- A fixpoint within every ceiling ----

  ghost predicate AllOwe(rows: seq<Run>) {
    forall row :: row in rows ==> row.owes
  }

  ghost predicate NoneOwing(rows: seq<Run>) {
    forall row :: row in rows ==> !row.owes
  }

  /** What the per-job rule would look at first of a job, and the global rule of all. */
  function OwnWindow(rows: seq<Run>, config: Config, job: string): seq<Run> {
    if KeepRuns(config, job) == 0 then []
    else Window(Finished(rows, Some(job)), NewestFirst, KeepRuns(config, job), RemainingBudget(config.maxDeletes, 0))
  }

  function TotalWindow(rows: seq<Run>, config: Config): seq<Run> {
    Window(Finished(rows, None), OldestFirst, 0, Some(Capped(Overflow(rows, config), RemainingBudget(config.maxDeletes, 0))))
  }

  lemma {:induction false} NoIdsIff(rows: seq<Run>)
    ensures IdsNotOwing(rows) == [] <==> AllOwe(rows)
    decreases |rows|
  {
    if rows != [] {
      assert rows == rows[..|rows| - 1] + [rows[|rows| - 1]];
      NoIdsIff(rows[..|rows| - 1]);
    }
  }

  ghost predicate NoCandidates(rows: seq<Run>, config: Config, jobs: seq<string>) {
    forall job :: job in jobs ==> JobCandidates(rows, config, job, 0) == []
  }

  lemma {:induction false} PerJobEmptyIff(rows: seq<Run>, config: Config, jobs: seq<string>)
    ensures PerJob(rows, config, jobs) == [] <==> NoCandidates(rows, config, jobs)
    decreases |jobs|
  {
    if jobs != [] {
      var earlier, last := jobs[..|jobs| - 1], jobs[|jobs| - 1];
      assert jobs == earlier + [last];
      PerJobEmptyIff(rows, config, earlier);
      OneMoreJob(rows, config, earlier, last);
      EmptyWithOneMore(rows, config, earlier, last);
    }
  }

  lemma PerJobMore(rows: seq<Run>, config: Config, jobs: seq<string>, job: string)
    ensures PerJob(rows, config, jobs + [job]) ==
      PerJob(rows, config, jobs) + JobCandidates(rows, config, job, |PerJob(rows, config, jobs)|)
  {}

  lemma EmptyWithOneMore(rows: seq<Run>, config: Config, jobs: seq<string>, job: string)
    ensures PerJob(rows, config, jobs + [job]) == [] <==>
      PerJob(rows, config, jobs) == [] && JobCandidates(rows, config, job, 0) == []
  {
    PerJobMore(rows, config, jobs, job);
  }

  lemma OneMoreJob(rows: seq<Run>, config: Config, jobs: seq<string>, job: string)
    ensures NoCandidates(rows, config, jobs + [job]) <==>
      NoCandidates(rows, config, jobs) && JobCandidates(rows, config, job, 0) == []
  {
    forall other ensures other in jobs + [job] <==> other in jobs || other == job {}
  }

  /** A pass finds nothing to delete exactly when all it looks at first still owe a notification. */
  lemma NothingSelectedIff(rows: seq<Run>, config: Config, jobs: seq<string>)
    requires JobsOf(rows, jobs)
    ensures Selected(rows, config, jobs) == [] <==>
      (forall job :: AllOwe(OwnWindow(rows, config, job))) && AllOwe(TotalWindow(rows, config))
  {
    PerJobEmptyIff(rows, config, jobs);
    forall job ensures JobCandidates(rows, config, job, 0) == [] <==> AllOwe(OwnWindow(rows, config, job)) {
      NoIdsIff(OwnWindow(rows, config, job));
    }
    forall job | job !in jobs ensures OwnWindow(rows, config, job) == [] { SomeFinished(rows, job); }
    NoIdsIff(TotalWindow(rows, config));
    GlobalOfNone(rows, config);
  }

  lemma SomeFinished(rows: seq<Run>, job: string)
    ensures |Finished(rows, Some(job))| == 0 || exists row :: row in rows && row.finished && row.jobId == job
  {
    var matched := Finished(rows, Some(job));
    if |matched| > 0 { assert matched[0] in matched; }
  }

  lemma GlobalOfNone(rows: seq<Run>, config: Config)
    ensures Global(rows, config, []) == [] <==> IdsNotOwing(TotalWindow(rows, config)) == []
  {
    var ids := GlobalWindow(rows, config, []);
    if ids != [] { assert ids[0] in NotIn(ids, []); }
  }

  ghost predicate WithinOwn(rows: seq<Run>, config: Config, job: string) {
    KeepRuns(config, job) == 0 || |Finished(rows, Some(job))| <= KeepRuns(config, job)
  }

  ghost predicate WithinCeilings(rows: seq<Run>, config: Config) {
    (forall job :: WithinOwn(rows, config, job)) && Overflow(rows, config) == 0
  }

  lemma NoneOweIff(rows: seq<Run>, config: Config, job: string)
    requires NoneOwing(rows)
    ensures AllOwe(OwnWindow(rows, config, job)) <==> WithinOwn(rows, config, job)
    ensures AllOwe(TotalWindow(rows, config)) <==> Overflow(rows, config) == 0
  {
    var own, total := OwnWindow(rows, config, job), TotalWindow(rows, config);
    assert own != [] ==> own[0] in own && own[0] in Finished(rows, Some(job));
    assert total != [] ==> total[0] in total && total[0] in Finished(rows, None);
  }

  /** With no notification pending, that is when every job and all together are within their ceilings. */
  lemma CeilingsIff(rows: seq<Run>, config: Config, jobs: seq<string>)
    requires NoneOwing(rows) && JobsOf(rows, jobs)
    ensures Selected(rows, config, jobs) == [] <==> WithinCeilings(rows, config)
  {
    NothingSelectedIff(rows, config, jobs);
    forall job ensures AllOwe(OwnWindow(rows, config, job)) <==> WithinOwn(rows, config, job) {
      NoneOweIff(rows, config, job);
    }
    NoneOweIff(rows, config, "");
  }

  // ---- Passes ----

  /** No finished run waits for a child: whatever a task submitted has finished. */
  ghost predicate Settled(rows: seq<Run>) {
    Sound(rows) && NoneOwing(rows) && forall row :: row in rows && row.parent.Some? ==> row.finished
  }

  ghost predicate PassTo(rows: seq<Run>, config: Config, later: seq<Run>) {
    exists jobs :: JobsOf(rows, jobs) && later == HandledAll(rows, Selected(rows, config, jobs))
  }

  ghost predicate Passes(states: seq<seq<Run>>, config: Config) {
    && |states| > 0 && Settled(states[0])
    && forall i :: 0 <= i < |states| - 1 ==> PassTo(states[i], config, states[i + 1])
  }

  lemma FirstIsDeleted(rows: seq<Run>, id: nat)
    requires Settled(rows) && HasId(rows, id)
    ensures |HandledRow(rows, id)| < |rows|
  {
    FamilyIsClosed(rows, id);
    forall i | 0 <= i < |rows| && rows[i].id != id && rows[i].id in Family(rows, id) ensures rows[i].finished {
      var row :| row in rows && row.id == rows[i].id && row.parent.Some? && row.parent.value in Family(rows, id);
      OneRowPerId(rows, row, rows[i]);
    }
    PrunedShrinks(rows, Family(rows, id));
  }

  lemma {:induction false} AllHandledShrink(rows: seq<Run>, ids: seq<nat>)
    requires Settled(rows) && forall id :: id in ids ==> FinishedId(rows, id)
    ensures ids != [] && HasId(rows, ids[0]) ==> |HandledAll(rows, ids)| < |rows|
    decreases |ids|
  {
    if ids != [] {
      var before, last := ids[..|ids| - 1], ids[|ids| - 1];
      assert ids == before + [last];
      AllHandledShrink(rows, before);
      AllHandledSafely(rows, before);
      assert FinishedId(rows, last);
      HandledSafely(HandledAll(rows, before), last);
      if before == [] && HasId(rows, last) { FirstIsDeleted(rows, last); }
    }
  }

  /** A pass either takes something or finds everything within its ceilings and changes nothing. */
  lemma PassShrinks(rows: seq<Run>, config: Config, later: seq<Run>)
    requires Settled(rows) && PassTo(rows, config, later)
    ensures Settled(later)
    ensures if WithinCeilings(rows, config) then later == rows else |later| < |rows|
  {
    var jobs :| JobsOf(rows, jobs) && later == HandledAll(rows, Selected(rows, config, jobs));
    var ids := Selected(rows, config, jobs);
    CeilingsIff(rows, config, jobs);
    PassSelects(rows, config, jobs);
    PassIsSafe(rows, config, jobs);
    if ids != [] {
      SelectedFinished(rows, ids);
      AllHandledShrink(rows, ids);
      assert Selectable(rows, None, ids[0]);
      assert HasId(rows, ids[0]);
    }
  }

  lemma {:induction false} PassesShrink(states: seq<seq<Run>>, config: Config, i: nat)
    requires Passes(states, config) && i < |states|
    ensures Settled(states[i])
    ensures WithinCeilings(states[i], config) || |states[i]| + i <= |states[0]|
  {
    if i > 0 {
      PassesShrink(states, config, i - 1);
      assert PassTo(states[i - 1], config, states[i - 1 + 1]);
      PassShrinks(states[i - 1], config, states[i]);
    }
  }

  /**
    Repeated passes reach a fixpoint within every job's ceiling and the total, after at most as
    many passes as there are rows, whatever order each takes the jobs in.
   */
  lemma PassesReachCeilings(states: seq<seq<Run>>, config: Config, i: nat)
    requires Passes(states, config) && |states[0]| < i < |states|
    ensures WithinCeilings(states[i], config)
    ensures i + 1 < |states| ==> states[i + 1] == states[i]
  {
    PassesShrink(states, config, i);
    if i + 1 < |states| {
      assert PassTo(states[i], config, states[i + 1]);
      PassShrinks(states[i], config, states[i + 1]);
    }
  }
}
