/**
  Retention: which finished runs one pass deletes. Each job keeps its newest `keep_runs`, all
  jobs together at most `keep_runs_total`, and a pass deletes no more than its budget.
 */
module Retention {
  import opened Options

  /**
    `parent` is the run whose task submitted this one, and `owes` marks a run with a Pending
    notification. Rows are kept in id order, oldest first.
   */
  datatype Run = Run(id: nat, parent: Option<nat>, jobId: string, finished: bool, owes: bool)

  datatype Config = Config(keepRuns: map<string, nat>, defaultKeepRuns: nat, keepRunsTotal: nat, maxDeletes: nat)

  datatype Sort = NewestFirst | OldestFirst

  predicate InIdOrder(rows: seq<Run>) {
    forall i, k :: 0 <= i < k < |rows| ==> rows[i].id < rows[k].id
  }

  predicate Ascending(ids: seq<nat>) {
    forall i, k :: 0 <= i < k < |ids| ==> ids[i] < ids[k]
  }

  /** Matches every finished run, or those of one job. */
  predicate IsFinished(row: Run, job: Option<string>) {
    row.finished && (job.Some? ==> row.jobId == job.value)
  }

  function Finished(rows: seq<Run>, job: Option<string>): (r: seq<Run>)
    ensures forall row :: row in r <==> row in rows && IsFinished(row, job)
    ensures |r| <= |rows|
  {
    if rows == [] then []
    else
      var last := rows[|rows| - 1];
      assert rows == rows[..|rows| - 1] + [last];
      Finished(rows[..|rows| - 1], job) + (if IsFinished(last, job) then [last] else [])
  }

  function IdsNotOwing(rows: seq<Run>): (ids: seq<nat>)
    ensures |ids| <= |rows|
    ensures forall id :: id in ids <==> exists i :: 0 <= i < |rows| && rows[i].id == id && !rows[i].owes
  {
    if rows == [] then []
    else
      var last := rows[|rows| - 1];
      IdsNotOwing(rows[..|rows| - 1]) + (if last.owes then [] else [last.id])
  }

  function Min(x: nat, y: nat): nat { if x < y then x else y }

  function Less(x: nat, y: nat): nat { if x > y then x - y else 0 }

  /** 0 is no budget at all; a budget that has been used up is one of nothing. */
  function RemainingBudget(budget: nat, selected: nat): Option<nat> {
    if budget == 0 then None else Some(Less(budget, selected))
  }

  function Capped(n: nat, limit: Option<nat>): nat {
    match limit
    case None => n
    case Some(limit) => Min(limit, n)
  }

  /**
    The window is ranked and limited first, and only then loses the runs that owe a
    notification. It is read oldest first whatever the sort, which only says which end of the
    runs the offset protects.
   */
  function Window(matched: seq<Run>, sort: Sort, offset: nat, limit: Option<nat>): seq<Run> {
    match sort
    case NewestFirst => matched[..Capped(Less(|matched|, offset), limit)]
    case OldestFirst =>
      var rest := matched[Min(offset, |matched|)..];
      rest[..Capped(|rest|, limit)]
  }

  function SelectDeletable(rows: seq<Run>, job: Option<string>, sort: Sort, offset: nat, limit: Option<nat>): seq<nat> {
    IdsNotOwing(Window(Finished(rows, job), sort, offset, limit))
  }

  function KeepRuns(config: Config, job: string): nat {
    if job in config.keepRuns then config.keepRuns[job] else config.defaultKeepRuns
  }

  function JobCandidates(rows: seq<Run>, config: Config, job: string, selected: nat): seq<nat> {
    if KeepRuns(config, job) == 0 then []
    else SelectDeletable(rows, Some(job), NewestFirst, KeepRuns(config, job), RemainingBudget(config.maxDeletes, selected))
  }

  function PerJob(rows: seq<Run>, config: Config, jobs: seq<string>): seq<nat> {
    if jobs == [] then []
    else
      var before := PerJob(rows, config, jobs[..|jobs| - 1]);
      before + JobCandidates(rows, config, jobs[|jobs| - 1], |before|)
  }

  function Overflow(rows: seq<Run>, config: Config): nat {
    if config.keepRunsTotal == 0 then 0 else Less(|Finished(rows, None)|, config.keepRunsTotal)
  }

  function GlobalWindow(rows: seq<Run>, config: Config, already: seq<nat>): seq<nat> {
    SelectDeletable(rows, None, OldestFirst, 0, Some(Capped(Overflow(rows, config), RemainingBudget(config.maxDeletes, |already|))))
  }

  function NotIn(ids: seq<nat>, already: seq<nat>): (r: seq<nat>)
    ensures |r| <= |ids|
    ensures forall id :: id in r <==> id in ids && id !in already
  {
    if ids == [] then []
    else
      var last := ids[|ids| - 1];
      assert ids == ids[..|ids| - 1] + [last];
      NotIn(ids[..|ids| - 1], already) + (if last in already then [] else [last])
  }

  function Global(rows: seq<Run>, config: Config, already: seq<nat>): seq<nat> {
    NotIn(GlobalWindow(rows, config, already), already)
  }

  function Selected(rows: seq<Run>, config: Config, jobs: seq<string>): seq<nat> {
    var perJob := PerJob(rows, config, jobs);
    perJob + Global(rows, config, perJob)
  }

  // ---- The service ----

  /** The jobs that have a finished run, each once, in whatever order the query gives them. */
  ghost predicate JobsOf(rows: seq<Run>, jobs: seq<string>) {
    && (forall i, k :: 0 <= i < k < |jobs| ==> jobs[i] != jobs[k])
    && (forall row :: row in rows && row.finished ==> row.jobId in jobs)
  }

  /** A run and all that its tasks, and theirs, submitted: a parent comes before its children. */
  function Family(rows: seq<Run>, id: nat): set<nat> {
    if rows == [] then {id}
    else
      var family, last := Family(rows[..|rows| - 1], id), rows[|rows| - 1];
      if last.parent.Some? && last.parent.value in family then family + {last.id} else family
  }

  function Pruned(rows: seq<Run>, gone: set<nat>): seq<Run> {
    if rows == [] then []
    else
      var last := rows[|rows| - 1];
      Pruned(rows[..|rows| - 1], gone) + (if last.id in gone then [] else [last])
  }

  predicate HasId(rows: seq<Run>, id: nat) {
    exists i :: 0 <= i < |rows| && rows[i].id == id
  }

  predicate WaitsForChild(rows: seq<Run>, id: nat) {
    exists i :: 0 <= i < |rows| && rows[i].id != id && rows[i].id in Family(rows, id) && !rows[i].finished
  }

  /** Deletes the run with its descendants, unless one of those has not finished. */
  function HandledRow(rows: seq<Run>, id: nat): seq<Run> {
    if !HasId(rows, id) || WaitsForChild(rows, id) then rows else Pruned(rows, Family(rows, id))
  }

  function HandledAll(rows: seq<Run>, ids: seq<nat>): seq<Run> {
    if ids == [] then rows else HandledRow(HandledAll(rows, ids[..|ids| - 1]), ids[|ids| - 1])
  }

  lemma HandledMore(rows: seq<Run>, ids: seq<nat>, i: nat)
    requires i < |ids|
    ensures HandledAll(rows, ids[..i + 1]) == HandledRow(HandledAll(rows, ids[..i]), ids[i])
  {
    assert ids[..i + 1][..i] == ids[..i];
  }

  class RetentionService {
    const config: Config
    var rows: seq<Run>

    constructor (config: Config, rows: seq<Run>)
      ensures this.config == config && this.rows == rows
    {
      this.config := config;
      this.rows := rows;
    }

    method SelectPerJobCandidates(jobs: seq<string>) returns (ids: seq<nat>)
      ensures ids == PerJob(rows, config, jobs)
    {
      ids := [];
      for i := 0 to |jobs|
        invariant ids == PerJob(rows, config, jobs[..i])
      {
        assert jobs[..i + 1][..i] == jobs[..i];
        var keepRuns := if jobs[i] in config.keepRuns then config.keepRuns[jobs[i]] else config.defaultKeepRuns;
        if keepRuns == 0 {
          assert ids + [] == ids;
          continue;
        }
        var remaining := RemainingBudget(config.maxDeletes, |ids|);
        ids := ids + SelectDeletable(rows, Some(jobs[i]), NewestFirst, keepRuns, remaining);
      }
      assert jobs[..|jobs|] == jobs;
    }

    method SelectGlobalOverflowCandidates(already: seq<nat>) returns (ids: seq<nat>)
      ensures ids == Global(rows, config, already)
    {
      if config.keepRunsTotal == 0 {
        EmptyWindow(rows, config, already);
        return [];
      }
      var overflow := Less(|Finished(rows, None)|, config.keepRunsTotal);
      if overflow == 0 {
        EmptyWindow(rows, config, already);
        return [];
      }
      var limit := Capped(overflow, RemainingBudget(config.maxDeletes, |already|));
      var candidates := SelectDeletable(rows, None, OldestFirst, 0, Some(limit));
      return NotIn(candidates, already);
    }

    method Select(jobs: seq<string>) returns (ids: seq<nat>)
      ensures ids == Selected(rows, config, jobs)
    {
      var perJob := SelectPerJobCandidates(jobs);
      var global := SelectGlobalOverflowCandidates(perJob);
      return perJob + global;
    }

    method Handle(id: nat)
      modifies this
      ensures rows == HandledRow(old(rows), id)
    {
      if !HasId(rows, id) || WaitsForChild(rows, id) {
        return;
      }
      rows := Pruned(rows, Family(rows, id));
    }

    /** One pass of the poller: what it selects, and then each of those in turn. */
    method Pass(jobs: seq<string>) returns (ids: seq<nat>)
      modifies this
      ensures ids == Selected(old(rows), config, jobs)
      ensures rows == HandledAll(old(rows), ids)
    {
      ids := Select(jobs);
      for i := 0 to |ids|
        invariant rows == HandledAll(old(rows), ids[..i])
      {
        HandledMore(old(rows), ids, i);
        Handle(ids[i]);
      }
      assert ids[..|ids|] == ids;
    }
  }

  lemma EmptyWindow(rows: seq<Run>, config: Config, already: seq<nat>)
    requires Overflow(rows, config) == 0
    ensures Global(rows, config, already) == []
  {}
}
