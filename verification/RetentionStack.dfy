/**
  Do retention's two rules stack? The total is meant to be enforced after each job's own
  `keep_runs`, yet its overflow is computed as if nothing had been picked for the first rule.
  Here is exactly when that makes no difference.
 */
module RetentionStack {
  import opened Options
  import opened Retention
  import opened RetentionFacts

  // ---- Rows, by their ids ----

  ghost function IdsWhere(rows: seq<Run>, p: Run -> bool): set<nat> {
    set row | row in rows && p(row) :: row.id
  }

  ghost function IdSet(rows: seq<Run>): set<nat> {
    set row | row in rows :: row.id
  }

  ghost function OwingIds(rows: seq<Run>): set<nat> {
    set row | row in rows && row.owes :: row.id
  }

  lemma {:induction false} SizeOfIds(rows: seq<Run>)
    requires InIdOrder(rows)
    ensures |IdSet(rows)| == |rows|
    decreases |rows|
  {
    if rows != [] {
      var before, last := rows[..|rows| - 1], rows[|rows| - 1];
      assert rows == before + [last];
      SizeOfIds(before);
      assert IdSet(rows) == IdSet(before) + {last.id};
      assert last.id !in IdSet(before);
    }
  }

  ghost function SetOf(ids: seq<nat>): set<nat> {
    set id | id in ids
  }

  lemma {:induction false} SizeOfDistinct(ids: seq<nat>)
    requires Distinct(ids)
    ensures |SetOf(ids)| == |ids|
    decreases |ids|
  {
    if ids != [] {
      var before, last := ids[..|ids| - 1], ids[|ids| - 1];
      assert ids == before + [last];
      SizeOfDistinct(before);
      assert SetOf(ids) == SetOf(before) + {last};
      assert last !in before;
    }
  }

  // ---- Past its own job's keep_runs ----

  /** The finished runs of its job that are newer. */
  ghost function Newer(rows: seq<Run>, row: Run): set<nat> {
    IdsWhere(rows, (r: Run) => IsFinished(r, Some(row.jobId)) && r.id > row.id)
  }

  /** At least `keep_runs` finished runs of its job are newer, and its job does not keep them all. */
  ghost predicate PastOwn(rows: seq<Run>, config: Config, row: Run) {
    row.finished && KeepRuns(config, row.jobId) != 0 && |Newer(rows, row)| >= KeepRuns(config, row.jobId)
  }

  ghost function Past(rows: seq<Run>, config: Config): set<nat> {
    set row | row in rows && PastOwn(rows, config, row) :: row.id
  }

  /** Those of them that owe no notification. */
  ghost function Due(rows: seq<Run>, config: Config): set<nat> {
    set row | row in rows && PastOwn(rows, config, row) && !row.owes :: row.id
  }

  lemma LaterRows(matched: seq<Run>, i: nat)
    requires InIdOrder(matched) && i < |matched|
    ensures InIdOrder(matched[i + 1..])
    ensures forall row :: row in matched[i + 1..] <==> row in matched && row.id > matched[i].id
  {
    var later := matched[i + 1..];
    forall row | row in matched && row.id > matched[i].id ensures row in later {
      var k :| 0 <= k < |matched| && matched[k] == row;
      assert k > i && later[k - i - 1] == row;
    }
  }

  lemma NewerByPlace(rows: seq<Run>, matched: seq<Run>, job: string, i: nat)
    requires InIdOrder(matched) && i < |matched| && matched == Finished(rows, Some(job)) && matched[i].jobId == job
    ensures |Newer(rows, matched[i])| == |matched| - 1 - i
  {
    LaterRows(matched, i);
    assert Newer(rows, matched[i]) == IdSet(matched[i + 1..]);
    SizeOfIds(matched[i + 1..]);
  }

  /** The rows a job's own rule is about. */
  function Unprotected(rows: seq<Run>, config: Config, job: string): seq<Run> {
    var matched := Finished(rows, Some(job));
    if KeepRuns(config, job) == 0 then [] else matched[..Less(|matched|, KeepRuns(config, job))]
  }

  lemma PastByPlace(rows: seq<Run>, config: Config, job: string, i: nat)
    requires InIdOrder(rows) && i < |Finished(rows, Some(job))|
    ensures var row := Finished(rows, Some(job))[i];
      && row in rows && row.jobId == job
      && (PastOwn(rows, config, row) <==> KeepRuns(config, job) != 0 && i < Less(|Finished(rows, Some(job))|, KeepRuns(config, job)))
  {
    var matched := Finished(rows, Some(job));
    FinishedInOrder(rows, Some(job));
    assert matched[i] in matched;
    NewerByPlace(rows, matched, job, i);
  }

  lemma UnprotectedInOrder(rows: seq<Run>, config: Config, job: string)
    requires InIdOrder(rows)
    ensures InIdOrder(Unprotected(rows, config, job))
  {
    FinishedInOrder(rows, Some(job));
  }

  /** A row is one the rule is about exactly when enough of its job are newer. */
  lemma UnprotectedIsPast(rows: seq<Run>, config: Config, job: string, row: Run)
    requires InIdOrder(rows)
    ensures row in Unprotected(rows, config, job) <==> row in rows && row.jobId == job && PastOwn(rows, config, row)
  {
    var matched, unprotected := Finished(rows, Some(job)), Unprotected(rows, config, job);
    if row in unprotected {
      var i :| 0 <= i < |unprotected| && unprotected[i] == row;
      PastByPlace(rows, config, job, i);
    }
    if row in rows && row.jobId == job && PastOwn(rows, config, row) {
      assert row in matched;
      var i :| 0 <= i < |matched| && matched[i] == row;
      PastByPlace(rows, config, job, i);
      assert unprotected[i] == row;
    }
  }

  lemma UnprotectedArePast(rows: seq<Run>, config: Config, job: string)
    requires InIdOrder(rows)
    ensures forall row :: row in Unprotected(rows, config, job) <==> row in rows && row.jobId == job && PastOwn(rows, config, row)
  {
    forall row: Run ensures row in Unprotected(rows, config, job) <==> row in rows && row.jobId == job && PastOwn(rows, config, row) {
      UnprotectedIsPast(rows, config, job, row);
    }
  }

  // ---- What the per-job rule picks ----

  ghost function PastOf(rows: seq<Run>, config: Config, jobs: seq<string>): set<nat> {
    set row | row in rows && PastOwn(rows, config, row) && row.jobId in jobs :: row.id
  }

  ghost function DueOf(rows: seq<Run>, config: Config, jobs: seq<string>): set<nat> {
    set row | row in rows && PastOwn(rows, config, row) && !row.owes && row.jobId in jobs :: row.id
  }

  /** The budget does not cut the per-job rule short. */
  ghost predicate Unspent(config: Config, past: set<nat>) {
    config.maxDeletes == 0 || |past| <= config.maxDeletes
  }

  lemma PastOfMore(rows: seq<Run>, config: Config, jobs: seq<string>, job: string)
    requires InIdOrder(rows)
    ensures PastOf(rows, config, jobs + [job]) == PastOf(rows, config, jobs) + IdSet(Unprotected(rows, config, job))
  {
    var past, unprotected := PastOf(rows, config, jobs), Unprotected(rows, config, job);
    UnprotectedArePast(rows, config, job);
    forall id | id in PastOf(rows, config, jobs + [job]) ensures id in past + IdSet(unprotected) {
      var row :| row in rows && PastOwn(rows, config, row) && row.jobId in jobs + [job] && row.id == id;
      assert row.jobId in jobs || row in unprotected;
    }
    forall id | id in IdSet(unprotected) ensures id in PastOf(rows, config, jobs + [job]) {
      var row :| row in unprotected && row.id == id;
      assert row.jobId in jobs + [job];
    }
  }

  lemma PastOfOthers(rows: seq<Run>, config: Config, jobs: seq<string>, job: string)
    requires InIdOrder(rows) && job !in jobs
    ensures PastOf(rows, config, jobs) !! IdSet(Unprotected(rows, config, job))
  {
    UnprotectedArePast(rows, config, job);
    forall id | id in PastOf(rows, config, jobs) ensures id !in IdSet(Unprotected(rows, config, job)) {
      var row :| row in rows && PastOwn(rows, config, row) && row.jobId in jobs && row.id == id;
      forall other | other in Unprotected(rows, config, job) ensures other.id != id {
        if other.id == id { OneRowPerId(rows, row, other); }
      }
    }
  }

  lemma PastAddsUp(rows: seq<Run>, config: Config, jobs: seq<string>, job: string)
    requires InIdOrder(rows) && job !in jobs
    ensures |PastOf(rows, config, jobs + [job])| == |PastOf(rows, config, jobs)| + |Unprotected(rows, config, job)|
  {
    UnprotectedInOrder(rows, config, job);
    SizeOfIds(Unprotected(rows, config, job));
    PastOfMore(rows, config, jobs, job);
    PastOfOthers(rows, config, jobs, job);
  }

  lemma CandidatesAreDue(rows: seq<Run>, config: Config, job: string, selected: nat)
    requires InIdOrder(rows)
    requires config.maxDeletes == 0 || |Unprotected(rows, config, job)| <= Less(config.maxDeletes, selected)
    ensures JobCandidates(rows, config, job, selected) == IdsNotOwing(Unprotected(rows, config, job))
  {}

  lemma {:induction false} PicksDue(rows: seq<Run>, config: Config, jobs: seq<string>)
    requires InIdOrder(rows) && (forall i, k :: 0 <= i < k < |jobs| ==> jobs[i] != jobs[k])
    requires Unspent(config, PastOf(rows, config, jobs))
    ensures SetOf(PerJob(rows, config, jobs)) == DueOf(rows, config, jobs)
    decreases |jobs|
  {
    if jobs != [] {
      var earlier, job := jobs[..|jobs| - 1], jobs[|jobs| - 1];
      assert jobs == earlier + [job] && job !in earlier;
      PastAddsUp(rows, config, earlier, job);
      PicksDue(rows, config, earlier);
      JobPicksDue(rows, config, earlier, job);
    }
  }

  lemma JobPicksDue(rows: seq<Run>, config: Config, earlier: seq<string>, job: string)
    requires InIdOrder(rows) && job !in earlier && (forall i, k :: 0 <= i < k < |earlier| ==> earlier[i] != earlier[k])
    requires config.maxDeletes == 0 || |PastOf(rows, config, earlier)| + |Unprotected(rows, config, job)| <= config.maxDeletes
    requires SetOf(PerJob(rows, config, earlier)) == DueOf(rows, config, earlier)
    ensures SetOf(PerJob(rows, config, earlier + [job])) == DueOf(rows, config, earlier + [job])
  {
    var before := PerJob(rows, config, earlier);
    PerJobSelects(rows, config, earlier);
    SizeOfDistinct(before);
    DueIsPast(rows, config, earlier);
    CandidatesAreDue(rows, config, job, |before|);
    PerJobMore(rows, config, earlier, job);
    PicksMore(rows, config, earlier, job);
    SetOfConcat(before, IdsNotOwing(Unprotected(rows, config, job)));
  }

  lemma SetOfConcat(a: seq<nat>, b: seq<nat>)
    ensures SetOf(a + b) == SetOf(a) + SetOf(b)
  {}

  lemma NotOwingIds(rows: seq<Run>)
    requires InIdOrder(rows)
    ensures SetOf(IdsNotOwing(rows)) == IdSet(rows) - OwingIds(rows)
  {
    forall id | id in IdsNotOwing(rows) ensures id in IdSet(rows) && id !in OwingIds(rows) {
      var i :| 0 <= i < |rows| && rows[i].id == id && !rows[i].owes;
      assert rows[i] in rows;
    }
    forall id | id in IdSet(rows) && id !in OwingIds(rows) ensures id in IdsNotOwing(rows) {
      var row :| row in rows && row.id == id;
    }
  }

  lemma PicksMore(rows: seq<Run>, config: Config, earlier: seq<string>, job: string)
    requires InIdOrder(rows)
    ensures DueOf(rows, config, earlier + [job]) == DueOf(rows, config, earlier) + SetOf(IdsNotOwing(Unprotected(rows, config, job)))
  {
    var unprotected := Unprotected(rows, config, job);
    UnprotectedInOrder(rows, config, job);
    NotOwingIds(unprotected);
    DueMore(rows, config, earlier, job);
  }

  lemma DueMore(rows: seq<Run>, config: Config, earlier: seq<string>, job: string)
    requires InIdOrder(rows)
    ensures var unprotected := Unprotected(rows, config, job);
      DueOf(rows, config, earlier + [job]) == DueOf(rows, config, earlier) + (IdSet(unprotected) - OwingIds(unprotected))
  {
    var unprotected := Unprotected(rows, config, job);
    UnprotectedArePast(rows, config, job);
    forall x, y | x in unprotected && y in unprotected && x.id == y.id ensures x == y { OneRowPerId(rows, x, y); }
  }

  lemma DueIsPast(rows: seq<Run>, config: Config, jobs: seq<string>)
    ensures |DueOf(rows, config, jobs)| <= |PastOf(rows, config, jobs)|
  {
    Smaller(DueOf(rows, config, jobs), PastOf(rows, config, jobs));
  }

  lemma Smaller(a: set<nat>, b: set<nat>)
    requires a <= b
    ensures |a| <= |b|
  {
    assert b == a + (b - a);
  }

  /** While the budget lasts, the per-job rule picks exactly the due runs. */
  lemma PerJobPicksDue(rows: seq<Run>, config: Config, jobs: seq<string>)
    requires InIdOrder(rows) && JobsOf(rows, jobs) && Unspent(config, Past(rows, config))
    ensures SetOf(PerJob(rows, config, jobs)) == Due(rows, config) && |PerJob(rows, config, jobs)| == |Due(rows, config)|
  {
    assert PastOf(rows, config, jobs) == Past(rows, config) && DueOf(rows, config, jobs) == Due(rows, config);
    PicksDue(rows, config, jobs);
    PerJobSelects(rows, config, jobs);
    SizeOfDistinct(PerJob(rows, config, jobs));
  }

  // ---- What it picks when the budget may cut it short ----

  /** The finished runs of its job that are older. */
  ghost function Older(rows: seq<Run>, row: Run): set<nat> {
    IdsWhere(rows, (r: Run) => IsFinished(r, Some(row.jobId)) && r.id < row.id)
  }

  /** Past its own keep_runs, owing nothing, and within what earlier jobs left of the budget. */
  ghost predicate Picked(rows: seq<Run>, config: Config, spent: nat, row: Run) {
    PastOwn(rows, config, row) && !row.owes && (config.maxDeletes == 0 || spent + |Older(rows, row)| < config.maxDeletes)
  }

  ghost function PickedOf(rows: seq<Run>, config: Config, job: string, spent: nat): set<nat> {
    set row | row in rows && row.jobId == job && Picked(rows, config, spent, row) :: row.id
  }

  /** Job by job, in the order they are taken: each pick of an earlier job is one less for the later ones. */
  ghost function Picks(rows: seq<Run>, config: Config, jobs: seq<string>): set<nat> {
    if jobs == [] then {}
    else
      var before := Picks(rows, config, jobs[..|jobs| - 1]);
      before + PickedOf(rows, config, jobs[|jobs| - 1], |before|)
  }

  lemma EarlierRows(matched: seq<Run>, i: nat)
    requires InIdOrder(matched) && i < |matched|
    ensures InIdOrder(matched[..i])
    ensures forall row :: row in matched[..i] <==> row in matched && row.id < matched[i].id
  {
    forall row | row in matched && row.id < matched[i].id ensures row in matched[..i] {
      var k :| 0 <= k < |matched| && matched[k] == row;
      assert k < i && matched[..i][k] == row;
    }
  }

  lemma OlderByPlace(rows: seq<Run>, matched: seq<Run>, job: string, i: nat)
    requires InIdOrder(matched) && i < |matched| && matched == Finished(rows, Some(job)) && matched[i].jobId == job
    ensures |Older(rows, matched[i])| == i
  {
    EarlierRows(matched, i);
    assert Older(rows, matched[i]) == IdSet(matched[..i]);
    SizeOfIds(matched[..i]);
  }

  /** The rows a job's rule looks at once so many have been selected. */
  function JobWindow(rows: seq<Run>, config: Config, job: string, selected: nat): seq<Run> {
    if KeepRuns(config, job) == 0 then []
    else Window(Finished(rows, Some(job)), NewestFirst, KeepRuns(config, job), RemainingBudget(config.maxDeletes, selected))
  }

  lemma WindowByPlace(rows: seq<Run>, config: Config, job: string, selected: nat, row: Run)
    requires InIdOrder(rows)
    ensures row in JobWindow(rows, config, job, selected) <==>
      row in rows && row.jobId == job && PastOwn(rows, config, row)
      && (config.maxDeletes == 0 || selected + |Older(rows, row)| < config.maxDeletes)
  {
    var matched, window := Finished(rows, Some(job)), JobWindow(rows, config, job, selected);
    FinishedInOrder(rows, Some(job));
    if row in window {
      var i :| 0 <= i < |window| && window[i] == row;
      PastByPlace(rows, config, job, i);
      OlderByPlace(rows, matched, job, i);
    }
    if row in rows && row.jobId == job && PastOwn(rows, config, row) {
      assert row in matched;
      var i :| 0 <= i < |matched| && matched[i] == row;
      PastByPlace(rows, config, job, i);
      OlderByPlace(rows, matched, job, i);
      assert i < |window| ==> window[i] == row;
    }
  }

  lemma WindowsByPlace(rows: seq<Run>, config: Config, job: string, selected: nat)
    requires InIdOrder(rows)
    ensures forall row :: row in JobWindow(rows, config, job, selected) && !row.owes <==>
      row in rows && row.jobId == job && Picked(rows, config, selected, row)
  {
    forall row: Run
      ensures row in JobWindow(rows, config, job, selected) && !row.owes <==>
        row in rows && row.jobId == job && Picked(rows, config, selected, row)
    {
      WindowByPlace(rows, config, job, selected, row);
    }
  }

  lemma IdsNotOwingHas(rows: seq<Run>, id: nat)
    ensures id in IdsNotOwing(rows) <==> exists row :: row in rows && !row.owes && row.id == id
  {
    if id in IdsNotOwing(rows) {
      var i :| 0 <= i < |rows| && rows[i].id == id && !rows[i].owes;
      assert rows[i] in rows;
    }
  }

  lemma JobPicks(rows: seq<Run>, config: Config, job: string, selected: nat)
    requires InIdOrder(rows)
    ensures SetOf(JobCandidates(rows, config, job, selected)) == PickedOf(rows, config, job, selected)
  {
    var window := JobWindow(rows, config, job, selected);
    assert JobCandidates(rows, config, job, selected) == IdsNotOwing(window);
    WindowsByPlace(rows, config, job, selected);
    forall id ensures id in IdsNotOwing(window) <==> id in PickedOf(rows, config, job, selected) {
      IdsNotOwingHas(window, id);
    }
  }

  /** Whatever owes and whatever the budget, what the per-job rule picks follows from the rows. */
  lemma {:induction false} PerJobPicks(rows: seq<Run>, config: Config, jobs: seq<string>)
    requires InIdOrder(rows) && forall i, k :: 0 <= i < k < |jobs| ==> jobs[i] != jobs[k]
    ensures SetOf(PerJob(rows, config, jobs)) == Picks(rows, config, jobs)
    ensures |PerJob(rows, config, jobs)| == |Picks(rows, config, jobs)|
    decreases |jobs|
  {
    if jobs != [] {
      var earlier, job := jobs[..|jobs| - 1], jobs[|jobs| - 1];
      var before := PerJob(rows, config, earlier);
      PerJobPicks(rows, config, earlier);
      JobPicks(rows, config, job, |before|);
      SetOfConcat(before, JobCandidates(rows, config, job, |before|));
    }
    PerJobSelects(rows, config, jobs);
    SizeOfDistinct(PerJob(rows, config, jobs));
  }

  // ---- What the global rule adds ----

  /** The oldest finished runs the global rule looks at, `picked` having been picked already. */
  function Oldest(rows: seq<Run>, config: Config, picked: nat): seq<Run> {
    var n := Capped(Overflow(rows, config), RemainingBudget(config.maxDeletes, picked));
    Finished(rows, None)[..Min(n, |Finished(rows, None)|)]
  }

  lemma WindowIsOldest(rows: seq<Run>, config: Config, already: seq<nat>)
    ensures GlobalWindow(rows, config, already) == IdsNotOwing(Oldest(rows, config, |already|))
    ensures |Oldest(rows, config, |already|)| == Capped(Overflow(rows, config), RemainingBudget(config.maxDeletes, |already|))
  {
    var matched := Finished(rows, None);
    assert matched[Min(0, |matched|)..] == matched;
  }

  lemma OldestInOrder(rows: seq<Run>, config: Config, picked: nat)
    requires InIdOrder(rows)
    ensures InIdOrder(Oldest(rows, config, picked))
    ensures forall row :: row in Oldest(rows, config, picked) ==> row in rows && row.finished
  {
    FinishedInOrder(rows, None);
    var matched, oldest := Finished(rows, None), Oldest(rows, config, picked);
    forall row | row in oldest ensures row in matched {}
  }

  lemma PickedOweNothing(rows: seq<Run>, oldest: seq<Run>, picked: set<nat>)
    requires InIdOrder(rows) && (forall row :: row in oldest ==> row in rows)
    requires forall id :: id in picked ==> Selectable(rows, None, id)
    ensures picked !! OwingIds(oldest)
  {
    forall id | id in picked ensures id !in OwingIds(oldest) {
      var row :| row in rows && row.id == id && IsFinished(row, None) && !row.owes;
      forall other | other in oldest && other.id == id ensures !other.owes { OneRowPerId(rows, row, other); }
    }
  }

  /** What the global rule adds is the oldest less those that owe and those picked already. */
  lemma GlobalIs(rows: seq<Run>, config: Config, already: seq<nat>)
    requires InIdOrder(rows)
    ensures var oldest := Oldest(rows, config, |already|);
      && SetOf(Global(rows, config, already)) == IdSet(oldest) - OwingIds(oldest) - SetOf(already)
      && |SetOf(Global(rows, config, already))| == |Global(rows, config, already)|
  {
    var oldest, window := Oldest(rows, config, |already|), GlobalWindow(rows, config, already);
    WindowIsOldest(rows, config, already);
    OldestInOrder(rows, config, |already|);
    IdsInOrder(oldest);
    NotOwingIds(oldest);
    assert Distinct(window);
    DistinctNotIn(window, already);
    SizeOfDistinct(Global(rows, config, already));
    assert SetOf(Global(rows, config, already)) == SetOf(window) - SetOf(already);
  }

  /** Counted out: of the oldest, those that owe, those picked already, and the rest. */
  lemma GlobalCounts(rows: seq<Run>, config: Config, already: seq<nat>)
    requires InIdOrder(rows) && forall id :: id in already ==> Selectable(rows, None, id)
    ensures var oldest := Oldest(rows, config, |already|);
      && |Global(rows, config, already)| + |OwingIds(oldest)| + |SetOf(already) * IdSet(oldest)| == |oldest|
      && SetOf(Global(rows, config, already)) == IdSet(oldest) - OwingIds(oldest) - SetOf(already)
  {
    var oldest := Oldest(rows, config, |already|);
    GlobalIs(rows, config, already);
    OldestInOrder(rows, config, |already|);
    SizeOfIds(oldest);
    PickedOweNothing(rows, oldest, SetOf(already));
    assert OwingIds(oldest) <= IdSet(oldest);
    Partition(IdSet(oldest), OwingIds(oldest), SetOf(already));
  }

  lemma Partition(w: set<nat>, owing: set<nat>, picked: set<nat>)
    requires owing <= w && picked !! owing
    ensures |w - owing - picked| + |owing| + |picked * w| == |w|
  {
    assert w == (w - owing - picked) + owing + (picked * w);
    assert (w - owing - picked) !! owing && ((w - owing - picked) + owing) !! (picked * w);
  }

  // ---- When the rules stack ----

  /** The global rule takes no more than is still over the total after the per-job picks. */
  ghost predicate Stacks(rows: seq<Run>, config: Config, jobs: seq<string>) {
    var perJob := PerJob(rows, config, jobs);
    |Global(rows, config, perJob)| <= Less(Overflow(rows, config), |perJob|)
  }

  /** Every one of the oldest owes a notification or is in the set. */
  ghost predicate NothingElse(oldest: seq<Run>, picked: set<nat>) {
    forall row :: row in oldest ==> row.owes || row.id in picked
  }

  ghost predicate Balanced(rows: seq<Run>, config: Config, oldest: seq<Run>, picked: set<nat>) {
    |picked - IdSet(oldest)| <= Less(Overflow(rows, config), |oldest|) + |OwingIds(oldest)|
  }

  /** For any rows and any budget, in terms of what the per-job rule has picked. */
  lemma StackCounts(rows: seq<Run>, config: Config, jobs: seq<string>)
    requires InIdOrder(rows) && JobsOf(rows, jobs)
    ensures var picked := SetOf(PerJob(rows, config, jobs));
      var oldest := Oldest(rows, config, |PerJob(rows, config, jobs)|);
      Stacks(rows, config, jobs) <==> NothingElse(oldest, picked) || Balanced(rows, config, oldest, picked)
  {
    var perJob := PerJob(rows, config, jobs);
    PerJobSelects(rows, config, jobs);
    PicksSelectable(rows, config, jobs);
    SizeOfDistinct(perJob);
    GlobalIff(rows, config, perJob);
  }

  lemma PicksSelectable(rows: seq<Run>, config: Config, jobs: seq<string>)
    requires InIdOrder(rows) && JobsOf(rows, jobs)
    ensures forall id :: id in PerJob(rows, config, jobs) ==> Selectable(rows, None, id)
  {
    PassSelects(rows, config, jobs);
    forall id | id in PerJob(rows, config, jobs) ensures id in Selected(rows, config, jobs) {}
  }

  lemma GlobalIff(rows: seq<Run>, config: Config, already: seq<nat>)
    requires InIdOrder(rows) && Distinct(already) && forall id :: id in already ==> Selectable(rows, None, id)
    requires |SetOf(already)| == |already|
    ensures var oldest := Oldest(rows, config, |already|);
      |Global(rows, config, already)| <= Less(Overflow(rows, config), |already|) <==>
        NothingElse(oldest, SetOf(already)) || Balanced(rows, config, oldest, SetOf(already))
  {
    var oldest := Oldest(rows, config, |already|);
    GlobalCounts(rows, config, already);
    WindowIsOldest(rows, config, already);
    SplitBy(SetOf(already), IdSet(oldest));
    NothingElseIff(rows, config, already);
    CountedOut(|Global(rows, config, already)|, |OwingIds(oldest)|, |SetOf(already) * IdSet(oldest)|, |oldest|,
      |SetOf(already) - IdSet(oldest)|, |already|, Overflow(rows, config));
  }

  lemma CountedOut(global: nat, owing: nat, inside: nat, oldest: nat, outside: nat, picked: nat, overflow: nat)
    requires global + owing + inside == oldest && picked == outside + inside && oldest <= overflow
    ensures global <= Less(overflow, picked) <==> global == 0 || outside <= Less(overflow, oldest) + owing
  {}

  lemma SplitBy(picked: set<nat>, w: set<nat>)
    ensures |picked| == |picked - w| + |picked * w|
  {
    assert picked == (picked - w) + (picked * w) && (picked - w) !! (picked * w);
  }

  lemma NothingElseIff(rows: seq<Run>, config: Config, already: seq<nat>)
    requires InIdOrder(rows)
    requires var oldest := Oldest(rows, config, |already|);
      SetOf(Global(rows, config, already)) == IdSet(oldest) - OwingIds(oldest) - SetOf(already)
    ensures NothingElse(Oldest(rows, config, |already|), SetOf(already)) <==> Global(rows, config, already) == []
  {
    var oldest, global := Oldest(rows, config, |already|), Global(rows, config, already);
    OldestInOrder(rows, config, |already|);
    if global == [] {
      assert SetOf(global) == {};
      forall row | row in oldest ensures row.owes || row.id in SetOf(already) {
        if row.id in OwingIds(oldest) {
          var other :| other in oldest && other.owes && other.id == row.id;
          OneRowPerId(oldest, row, other);
        }
      }
    } else {
      assert global[0] in SetOf(global);
    }
  }

  /**
    Over the rows, the configuration and the order of the jobs, whatever owes and whatever the
    budget: the rules stack exactly when all of the oldest runs looked at owe or are picked for
    their own job, or when no more picks lie outside the oldest than there are oldest runs left
    out by the budget or by what they owe.
   */
  lemma StackIff(rows: seq<Run>, config: Config, jobs: seq<string>)
    requires InIdOrder(rows) && JobsOf(rows, jobs)
    ensures var picks := Picks(rows, config, jobs);
      var oldest := Oldest(rows, config, |picks|);
      Stacks(rows, config, jobs) <==> NothingElse(oldest, picks) || Balanced(rows, config, oldest, picks)
  {
    PerJobPicks(rows, config, jobs);
    StackCounts(rows, config, jobs);
  }

  /**
    While the budget lasts, over the rows alone: the rules stack exactly when all of the oldest
    runs looked at owe or are past their own job's `keep_runs`, or when no more due runs lie
    outside the oldest than there are oldest runs left out by the budget or by what they owe.
   */
  lemma StackIffUnspent(rows: seq<Run>, config: Config, jobs: seq<string>)
    requires InIdOrder(rows) && JobsOf(rows, jobs) && Unspent(config, Past(rows, config))
    ensures var due := Due(rows, config);
      var oldest := Oldest(rows, config, |due|);
      Stacks(rows, config, jobs) <==>
        (forall row :: row in oldest ==> row.owes || PastOwn(rows, config, row)) || Balanced(rows, config, oldest, due)
  {
    var due, oldest := Due(rows, config), Oldest(rows, config, |Due(rows, config)|);
    PerJobPicksDue(rows, config, jobs);
    StackCounts(rows, config, jobs);
    OldestInOrder(rows, config, |due|);
    forall row | row in oldest ensures row.owes || row.id in due <==> row.owes || PastOwn(rows, config, row) {
      if row.id in due {
        var other :| other in rows && PastOwn(rows, config, other) && !other.owes && other.id == row.id;
        OneRowPerId(rows, row, other);
      }
    }
  }

  /** With nothing owed and no budget: unless a due run is newer, and one of the oldest is kept. */
  lemma StackIffUnbudgeted(rows: seq<Run>, config: Config, jobs: seq<string>)
    requires InIdOrder(rows) && JobsOf(rows, jobs) && NoneOwing(rows) && config.maxDeletes == 0
    ensures var oldest := Oldest(rows, config, 0);
      Stacks(rows, config, jobs) <==>
        (forall row :: row in oldest ==> PastOwn(rows, config, row)) || PastWithin(rows, config, oldest)
  {
    var due, oldest := Due(rows, config), Oldest(rows, config, 0);
    StackIffUnspent(rows, config, jobs);
    assert Oldest(rows, config, |due|) == oldest;
    OldestInOrder(rows, config, 0);
    WindowIsOldest(rows, config, []);
    BalancedIff(rows, config, oldest);
  }

  lemma BalancedIff(rows: seq<Run>, config: Config, oldest: seq<Run>)
    requires InIdOrder(rows) && NoneOwing(rows) && |oldest| == Overflow(rows, config) && forall row :: row in oldest ==> row in rows
    ensures Balanced(rows, config, oldest, Due(rows, config)) <==> PastWithin(rows, config, oldest)
  {
    NoneOwed(oldest);
    NoneLeft(Due(rows, config) - IdSet(oldest));
    WithinIff(rows, config, oldest);
  }

  ghost predicate PastWithin(rows: seq<Run>, config: Config, oldest: seq<Run>) {
    forall row :: row in rows && PastOwn(rows, config, row) ==> row in oldest
  }

  lemma NoneOwed(rows: seq<Run>)
    requires NoneOwing(rows)
    ensures OwingIds(rows) == {}
  {}

  lemma NoneLeft(ids: set<nat>)
    ensures |ids| == 0 <==> ids == {}
  {}

  lemma WithinIff(rows: seq<Run>, config: Config, oldest: seq<Run>)
    requires InIdOrder(rows) && NoneOwing(rows) && forall row :: row in oldest ==> row in rows
    ensures Due(rows, config) - IdSet(oldest) == {} <==> PastWithin(rows, config, oldest)
  {
    if Due(rows, config) - IdSet(oldest) == {} {
      forall row | row in rows && PastOwn(rows, config, row) ensures row in oldest {
        DueRowWithin(rows, config, oldest, row);
      }
    } else {
      SomeOutside(rows, config, oldest);
    }
  }

  lemma DueRowWithin(rows: seq<Run>, config: Config, oldest: seq<Run>, row: Run)
    requires InIdOrder(rows) && NoneOwing(rows) && forall other :: other in oldest ==> other in rows
    requires row in rows && PastOwn(rows, config, row) && Due(rows, config) - IdSet(oldest) == {}
    ensures row in oldest
  {
    assert row.id in Due(rows, config) && row.id !in Due(rows, config) - IdSet(oldest);
    var other :| other in oldest && other.id == row.id;
    OneRowPerId(rows, row, other);
  }

  lemma SomeOutside(rows: seq<Run>, config: Config, oldest: seq<Run>)
    requires Due(rows, config) - IdSet(oldest) != {}
    ensures exists row :: row in rows && PastOwn(rows, config, row) && row !in oldest
  {
    var id :| id in Due(rows, config) - IdSet(oldest);
    var row :| row in rows && PastOwn(rows, config, row) && !row.owes && row.id == id;
  }

  /** With nothing owed and the budget spent on the per-job rule, the global rule takes nothing. */
  lemma SpentStacks(rows: seq<Run>, config: Config, jobs: seq<string>)
    requires InIdOrder(rows) && JobsOf(rows, jobs) && NoneOwing(rows)
    requires config.maxDeletes != 0 && |Past(rows, config)| >= config.maxDeletes
    ensures |PerJob(rows, config, jobs)| == config.maxDeletes && Stacks(rows, config, jobs)
  {
    assert PastOf(rows, config, jobs) == Past(rows, config);
    SpendsAll(rows, config, jobs);
    PerJobSelects(rows, config, jobs);
    WindowIsOldest(rows, config, PerJob(rows, config, jobs));
  }

  lemma {:induction false} NoneOwingTakesAll(rows: seq<Run>)
    requires NoneOwing(rows)
    ensures |IdsNotOwing(rows)| == |rows|
    decreases |rows|
  {
    if rows != [] {
      assert rows[|rows| - 1] in rows;
      NoneOwingTakesAll(rows[..|rows| - 1]);
    }
  }

  lemma {:induction false} SpendsAll(rows: seq<Run>, config: Config, jobs: seq<string>)
    requires InIdOrder(rows) && NoneOwing(rows) && config.maxDeletes != 0
    requires forall i, k :: 0 <= i < k < |jobs| ==> jobs[i] != jobs[k]
    ensures |PerJob(rows, config, jobs)| >= Min(config.maxDeletes, |PastOf(rows, config, jobs)|)
    decreases |jobs|
  {
    if jobs == [] {
      assert PastOf(rows, config, jobs) == {};
    } else {
      var earlier, job := jobs[..|jobs| - 1], jobs[|jobs| - 1];
      assert jobs == earlier + [job] && job !in earlier;
      SpendsAll(rows, config, earlier);
      PastAddsUp(rows, config, earlier, job);
      PerJobMore(rows, config, earlier, job);
      CandidatesTakeAll(rows, config, job, |PerJob(rows, config, earlier)|);
    }
  }

  lemma CandidatesTakeAll(rows: seq<Run>, config: Config, job: string, selected: nat)
    requires InIdOrder(rows) && NoneOwing(rows) && config.maxDeletes != 0
    ensures |JobCandidates(rows, config, job, selected)|
      == Min(Less(config.maxDeletes, selected), |Unprotected(rows, config, job)|)
  {
    if KeepRuns(config, job) != 0 {
      var matched := Finished(rows, Some(job));
      var window := Window(matched, NewestFirst, KeepRuns(config, job), RemainingBudget(config.maxDeletes, selected));
      forall row | row in window ensures row in matched {}
      NoneOwingTakesAll(window);
    }
  }

  // ---- An instance ----

  lemma RowMore(rows: seq<Run>, row: Run, job: Option<string>)
    ensures Finished(rows + [row], job) == Finished(rows, job) + (if IsFinished(row, job) then [row] else [])
    ensures IdsNotOwing(rows + [row]) == IdsNotOwing(rows) + (if row.owes then [] else [row.id])
  {}

  ghost predicate FourRuns(config: Config, a: Run, b: Run, c: Run, d: Run) {
    && a.finished && b.finished && c.finished && d.finished && !a.owes && !b.owes && !c.owes && !d.owes
    && a.id < b.id < c.id < d.id && a.jobId != b.jobId && b.jobId == c.jobId == d.jobId
    && KeepRuns(config, a.jobId) == 0 && KeepRuns(config, b.jobId) == 1
    && config.keepRunsTotal == 3 && config.maxDeletes == 0
  }

  lemma FourFinished(a: Run, b: Run, c: Run, d: Run, job: Option<string>)
    ensures Finished([] + [a] + [b] + [c] + [d], job) ==
      [] + (if IsFinished(a, job) then [a] else []) + (if IsFinished(b, job) then [b] else [])
         + (if IsFinished(c, job) then [c] else []) + (if IsFinished(d, job) then [d] else [])
  {
    RowMore([], a, job);
    RowMore([] + [a], b, job);
    RowMore([] + [a] + [b], c, job);
    RowMore([] + [a] + [b] + [c], d, job);
  }

  lemma FourPerJob(config: Config, a: Run, b: Run, c: Run, d: Run)
    requires FourRuns(config, a, b, c, d)
    ensures PerJob([] + [a] + [b] + [c] + [d], config, [] + [a.jobId] + [b.jobId]) == [b.id, c.id]
  {
    var rows := [] + [a] + [b] + [c] + [d];
    OldestTwo(config, a, b, c, d);
    PerJobMore(rows, config, [], a.jobId);
    PerJobMore(rows, config, [] + [a.jobId], b.jobId);
  }

  lemma OldestTwo(config: Config, a: Run, b: Run, c: Run, d: Run)
    requires FourRuns(config, a, b, c, d)
    ensures JobCandidates([] + [a] + [b] + [c] + [d], config, b.jobId, 0) == [b.id, c.id]
  {
    FourFinished(a, b, c, d, Some(b.jobId));
    var matched := [] + [b] + [c] + [d];
    assert Finished([] + [a] + [b] + [c] + [d], Some(b.jobId)) == matched;
    assert Window(matched, NewestFirst, 1, None) == [] + [b] + [c];
    TwoIds(b, c);
  }

  lemma TwoIds(b: Run, c: Run)
    requires !b.owes && !c.owes
    ensures IdsNotOwing([] + [b] + [c]) == [b.id, c.id]
  {}

  lemma FourGlobal(config: Config, a: Run, b: Run, c: Run, d: Run)
    requires FourRuns(config, a, b, c, d)
    ensures GlobalWindow([] + [a] + [b] + [c] + [d], config, [b.id, c.id]) == [] + [a.id]
  {
    var rows := [] + [a] + [b] + [c] + [d];
    FourFinished(a, b, c, d, None);
    assert Finished(rows, None) == rows;
    assert rows[0..] == rows && rows[..1] == [] + [a];
    RowMore([], a, None);
  }

  lemma OlderIsPast(rows: seq<Run>, config: Config, older: Run, newer: Run)
    requires older in rows && newer in rows && older.finished && newer.finished && older.id < newer.id
    requires older.jobId == newer.jobId && KeepRuns(config, older.jobId) == 1
    ensures PastOwn(rows, config, older)
  {
    assert newer.id in Newer(rows, older);
    assert Newer(rows, older) == {newer.id} + (Newer(rows, older) - {newer.id});
  }

  /** So it is here: the oldest run's job keeps it, and due runs are newer. */
  lemma FourDoNotStack(config: Config, a: Run, b: Run, c: Run, d: Run)
    requires FourRuns(config, a, b, c, d)
    ensures !Stacks([] + [a] + [b] + [c] + [d], config, [] + [a.jobId] + [b.jobId])
  {
    var rows := [] + [a] + [b] + [c] + [d];
    FourFinished(a, b, c, d, None);
    FourRows(config, a, b, c, d, rows);
    OldestOfFour(config, rows, a);
    OlderIsPast(rows, config, b, d);
    NotStacked(rows, config, [] + [a.jobId] + [b.jobId], a, b);
  }

  lemma FourRows(config: Config, a: Run, b: Run, c: Run, d: Run, rows: seq<Run>)
    requires FourRuns(config, a, b, c, d) && |rows| == 4
    requires rows[0] == a && rows[1] == b && rows[2] == c && rows[3] == d
    ensures InIdOrder(rows) && NoneOwing(rows) && JobsOf(rows, [] + [a.jobId] + [b.jobId]) && b in rows && d in rows
  {
    forall row | row in rows ensures row == a || row == b || row == c || row == d {}
    assert a.jobId in [] + [a.jobId] + [b.jobId] && b.jobId in [] + [a.jobId] + [b.jobId];
  }

  /** One of the oldest that its job keeps, and a due run that is not among them. */
  lemma NotStacked(rows: seq<Run>, config: Config, jobs: seq<string>, kept: Run, due: Run)
    requires InIdOrder(rows) && JobsOf(rows, jobs) && NoneOwing(rows) && config.maxDeletes == 0
    requires kept in Oldest(rows, config, 0) && !PastOwn(rows, config, kept)
    requires due in rows && PastOwn(rows, config, due) && due !in Oldest(rows, config, 0)
    ensures !Stacks(rows, config, jobs)
  {
    StackIffUnbudgeted(rows, config, jobs);
  }

  lemma OldestOfFour(config: Config, rows: seq<Run>, a: Run)
    requires |rows| == 4 && rows[0] == a && Finished(rows, None) == rows && config.keepRunsTotal == 3 && config.maxDeletes == 0
    ensures Oldest(rows, config, 0) == [a] && a in Oldest(rows, config, 0)
  {}

  /**
    Four runs under a total of three, one job keeping one of its three: the per-job rule alone
    would leave two, and the pass leaves one.
   */
  lemma RulesDoNotStack(config: Config, a: Run, b: Run, c: Run, d: Run)
    requires FourRuns(config, a, b, c, d)
    ensures var rows := [] + [a] + [b] + [c] + [d];
      && PerJob(rows, config, [] + [a.jobId] + [b.jobId]) == [b.id, c.id]
      && Selected(rows, config, [] + [a.jobId] + [b.jobId]) == [b.id, c.id, a.id]
  {
    FourPerJob(config, a, b, c, d);
    FourGlobal(config, a, b, c, d);
    assert ([] + [a.id])[..0] == [];
    assert NotIn([] + [a.id], [b.id, c.id]) == [a.id];
  }

  lemma FourRunsExist()
    ensures FourRuns(Config(map["sync" := 1], 0, 3, 0),
      Run(1, None, "nightly", true, false), Run(2, None, "sync", true, false), Run(3, None, "sync", true, false), Run(4, None, "sync", true, false))
  {}
}
