/**
  The scheduler: keeps each schedule's next occurrences submitted as runs, by adding whichever
  is missing and nothing else.
 */
module Schedulers {
  import opened Options
  import opened Tables
  import opened CronTriggers

  /** A run's own columns here; `schedule` is absent for a run submitted by hand or by a task. */
  datatype Run = Run(schedule: Option<string>, jobId: string, scheduledAt: int, status: JobRunStatus)

  datatype Key = Key(schedule: string, jobId: string, occurrence: int)

  datatype Schedule = Schedule(id: string, trigger: CronTrigger, submitAhead: nat, jobs: seq<string>)

  predicate Matches(run: Run, key: Key) {
    run.schedule == Some(key.schedule) && run.jobId == key.jobId && run.scheduledAt == key.occurrence
  }

  /** A deleted run no longer stands for its occurrence; any other does, stopped ones too. */
  predicate Occupies(status: JobRunStatus) {
    !status.Deleted?
  }

  ghost predicate OccupiedBy(runs: seq<Run>, i: int, key: Key) {
    0 <= i < |runs| && Matches(runs[i], key) && Occupies(runs[i].status)
  }

  ghost predicate Occupied(runs: seq<Run>, key: Key) {
    exists i :: OccupiedBy(runs, i, key)
  }

  ghost predicate NoDuplicates(runs: seq<Run>) {
    forall i, k, key :: OccupiedBy(runs, i, key) && OccupiedBy(runs, k, key) ==> i == k
  }

  function NewRun(key: Key): Run {
    Run(Some(key.schedule), key.jobId, key.occurrence, JobRunStatus.Scheduled)
  }

  /** The pairs a pass goes through: for each occurrence, every job of the schedule. */
  function PairsOf(schedule: string, jobs: seq<string>, occurrence: int): seq<Key> {
    seq(|jobs|, k requires 0 <= k < |jobs| => Key(schedule, jobs[k], occurrence))
  }

  function Pairs(schedule: string, jobs: seq<string>, desired: seq<int>): seq<Key> {
    if desired == [] then []
    else Pairs(schedule, jobs, desired[..|desired| - 1]) + PairsOf(schedule, jobs, desired[|desired| - 1])
  }

  // ---- What submitting whatever is missing comes to ----

  ghost predicate Appended(runs: seq<Run>, later: seq<Run>) {
    |runs| <= |later| && later[..|runs|] == runs
  }

  ghost predicate IsMissing(runs: seq<Run>, keys: seq<Key>, submits: Key -> bool, key: Key, row: Run) {
    key in keys && submits(key) && row == NewRun(key) && !Occupied(runs, key)
  }

  ghost predicate WasMissing(runs: seq<Run>, keys: seq<Key>, submits: Key -> bool, row: Run) {
    exists key :: IsMissing(runs, keys, submits, key, row)
  }

  ghost predicate OnlyMissing(runs: seq<Run>, keys: seq<Key>, submits: Key -> bool, later: seq<Run>) {
    forall i :: |runs| <= i < |later| ==> WasMissing(runs, keys, submits, later[i])
  }

  /** Only pairs that were missing and can be submitted are added, and all those are there. */
  ghost predicate Reconciled(runs: seq<Run>, keys: seq<Key>, submits: Key -> bool, later: seq<Run>) {
    && Appended(runs, later) && OnlyMissing(runs, keys, submits, later)
    && forall key :: key in keys && submits(key) ==> Occupied(later, key)
  }

  /** One pass over a schedule at an instant. */
  ghost predicate PassOf(
    schedule: Schedule, matches: iset<int>, now: int, submits: Key -> bool, runs: seq<Run>, desired: seq<int>, later: seq<Run>)
  {
    && FirstRuns(schedule.trigger, matches, now, schedule.submitAhead, desired)
    && Reconciled(runs, Pairs(schedule.id, schedule.jobs, desired), submits, later)
  }

  // ---- What a pass leaves, said of the rows ----

  /** A run stands for the job's occurrence: one that is not Deleted. */
  ghost predicate Standing(runs: seq<Run>, schedule: string, job: string, occurrence: int) {
    exists i :: 0 <= i < |runs| && runs[i].schedule == Some(schedule) && runs[i].jobId == job
      && runs[i].scheduledAt == occurrence && !runs[i].status.Deleted?
  }

  /** A Scheduled run of the schedule, for one of its jobs and desired occurrences that had none. */
  ghost predicate WasWanting(schedule: Schedule, desired: seq<int>, submits: Key -> bool, runs: seq<Run>, row: Run) {
    && row.schedule == Some(schedule.id) && row.jobId in schedule.jobs && row.scheduledAt in desired
    && row.status.Scheduled? && submits(Key(schedule.id, row.jobId, row.scheduledAt))
    && !Standing(runs, schedule.id, row.jobId, row.scheduledAt)
  }

  /**
    Every job of the schedule has a run for every desired occurrence it can be submitted for,
    and nothing has changed but that the runs that were wanting were added.
   */
  ghost predicate FullySubmitted(schedule: Schedule, desired: seq<int>, submits: Key -> bool, runs: seq<Run>, later: seq<Run>) {
    && (forall job, t :: job in schedule.jobs && t in desired && submits(Key(schedule.id, job, t)) ==> Standing(later, schedule.id, job, t))
    && |runs| <= |later| && later[..|runs|] == runs
    && (forall i :: |runs| <= i < |later| ==> WasWanting(schedule, desired, submits, runs, later[i]))
  }

  lemma {:induction false} PairsHave(schedule: string, jobs: seq<string>, desired: seq<int>, key: Key)
    ensures key in Pairs(schedule, jobs, desired) <==> key.schedule == schedule && key.jobId in jobs && key.occurrence in desired
    decreases |desired|
  {
    if desired != [] {
      var before, last := desired[..|desired| - 1], desired[|desired| - 1];
      assert desired == before + [last];
      PairsHave(schedule, jobs, before, key);
      if key.schedule == schedule && key.jobId in jobs && key.occurrence == last {
        var k :| 0 <= k < |jobs| && jobs[k] == key.jobId;
        assert PairsOf(schedule, jobs, last)[k] == key;
      }
    }
  }

  lemma StandingIs(runs: seq<Run>, key: Key)
    ensures Standing(runs, key.schedule, key.jobId, key.occurrence) <==> Occupied(runs, key)
  {
    if Standing(runs, key.schedule, key.jobId, key.occurrence) {
      var i :| 0 <= i < |runs| && runs[i].schedule == Some(key.schedule) && runs[i].jobId == key.jobId
        && runs[i].scheduledAt == key.occurrence && !runs[i].status.Deleted?;
      assert OccupiedBy(runs, i, key);
    }
  }

  lemma ReconciledIsFull(schedule: Schedule, desired: seq<int>, submits: Key -> bool, runs: seq<Run>, later: seq<Run>)
    requires Reconciled(runs, Pairs(schedule.id, schedule.jobs, desired), submits, later)
    ensures FullySubmitted(schedule, desired, submits, runs, later)
  {
    forall job, t | job in schedule.jobs && t in desired && submits(Key(schedule.id, job, t))
      ensures Standing(later, schedule.id, job, t)
    {
      PairsHave(schedule.id, schedule.jobs, desired, Key(schedule.id, job, t));
      StandingIs(later, Key(schedule.id, job, t));
    }
    forall i | |runs| <= i < |later| ensures WasWanting(schedule, desired, submits, runs, later[i]) {
      assert WasMissing(runs, Pairs(schedule.id, schedule.jobs, desired), submits, later[i]);
      var key :| IsMissing(runs, Pairs(schedule.id, schedule.jobs, desired), submits, key, later[i]);
      PairsHave(schedule.id, schedule.jobs, desired, key);
      StandingIs(runs, key);
    }
  }

  lemma OccupiedStays(runs: seq<Run>, later: seq<Run>, key: Key)
    requires Appended(runs, later)
    ensures Occupied(runs, key) ==> Occupied(later, key)
  {
    if Occupied(runs, key) {
      var i :| OccupiedBy(runs, i, key);
      assert later[i] == runs[i];
      assert OccupiedBy(later, i, key);
    }
  }

  lemma ReconciledMore(runs: seq<Run>, keys: seq<Key>, submits: Key -> bool, later: seq<Run>, key: Key, last: seq<Run>)
    requires Reconciled(runs, keys, submits, later)
    requires last == if Occupied(later, key) || !submits(key) then later else later + [NewRun(key)]
    ensures Reconciled(runs, keys + [key], submits, last)
  {
    OnlyMissingMore(runs, keys, submits, later, key);
    if last != later {
      OccupiedStays(runs, later, key);
      assert last[..|runs|] == later[..|runs|];
      assert IsMissing(runs, keys + [key], submits, key, NewRun(key));
      assert OccupiedBy(last, |later|, key);
    }
    forall k | k in keys + [key] && submits(k) ensures Occupied(last, k) {
      OccupiedStays(later, last, k);
    }
  }

  lemma OnlyMissingMore(runs: seq<Run>, keys: seq<Key>, submits: Key -> bool, later: seq<Run>, key: Key)
    requires OnlyMissing(runs, keys, submits, later)
    ensures OnlyMissing(runs, keys + [key], submits, later)
  {
    forall i | |runs| <= i < |later| ensures WasMissing(runs, keys + [key], submits, later[i]) {
      assert WasMissing(runs, keys, submits, later[i]);
      var k :| IsMissing(runs, keys, submits, k, later[i]);
      assert IsMissing(runs, keys + [key], submits, k, later[i]);
    }
  }

  // ---- Two passes at one instant ----

  lemma AddsOnlyUnoccupied(runs: seq<Run>, keys: seq<Key>, submits: Key -> bool, later: seq<Run>)
    requires Reconciled(runs, keys, submits, later)
    ensures later == runs || exists key :: key in keys && submits(key) && !Occupied(runs, key)
  {
    if |later| > |runs| {
      assert WasMissing(runs, keys, submits, later[|runs|]);
    }
  }

  /**
    A second pass at the same instant desires the same occurrences and adds nothing, jobs that
    cannot be submitted included: it adds only what could not be submitted before and now can.
   */
  lemma SecondPassAddsNothing(
    schedule: Schedule, matches: iset<int>, now: int, submits: Key -> bool, again: Key -> bool,
    runs: seq<Run>, desired: seq<int>, later: seq<Run>, redesired: seq<int>, last: seq<Run>)
    requires PassOf(schedule, matches, now, submits, runs, desired, later)
    requires PassOf(schedule, matches, now, again, later, redesired, last)
    ensures redesired == desired
    ensures (forall key :: again(key) ==> submits(key)) ==> last == later
  {
    FewerIsPrefix(schedule.trigger, matches, now, desired, schedule.submitAhead, redesired, schedule.submitAhead);
    AddsOnlyUnoccupied(later, Pairs(schedule.id, schedule.jobs, desired), again, last);
  }

  // ---- Everything that can happen to the rows, one step at a time ----

  /** `checked` is the pair a pass has found missing and is about to submit. */
  datatype State = State(runs: seq<Run>, checked: Option<Key>)

  datatype Change =
    | Check(key: Key)                     // a pass looks whether the pair has a run
    | Insert                              // and submits it,
    | StepOver                            // or cannot
    | Move(i: nat, status: JobRunStatus)  // any status write: a release, a stop, a delete, a settling
    | Remove(i: nat)                      // retention takes the row away
    | Add(run: Run)                       // a run with no schedule

  ghost predicate Legal(s: State, change: Change) {
    match change
    case Insert => s.checked.Some?
    case Move(i, _) => i < |s.runs|
    case Remove(i) => i < |s.runs|
    case Add(run) => run.schedule.None?
    case _ => true
  }

  ghost function Changed(s: State, change: Change): State {
    match change
    case Check(key) => s.(checked := if Occupied(s.runs, key) then None else Some(key))
    case Insert => if s.checked.Some? then State(s.runs + [NewRun(s.checked.value)], None) else s
    case StepOver => s.(checked := None)
    case Move(i, status) => if i < |s.runs| then s.(runs := s.runs[i := s.runs[i].(status := status)]) else s
    case Remove(i) => if i < |s.runs| then s.(runs := s.runs[..i] + s.runs[i + 1..]) else s
    case Add(run) => s.(runs := s.runs + [run])
  }

  /** What a deleted run's revival by an update keyed by id alone would be. */
  predicate Revives(s: State, change: Change) {
    change.Move? && change.i < |s.runs| && s.runs[change.i].status.Deleted? && !change.status.Deleted?
  }

  /** Nothing else stands for the row's occurrence, or is just being submitted for it. */
  ghost predicate StandsAlone(s: State, row: Run) {
    forall key :: Matches(row, key) ==> !Occupied(s.runs, key) && s.checked != Some(key)
  }

  ghost predicate Sound(s: State) {
    NoDuplicates(s.runs) && (s.checked.Some? ==> !Occupied(s.runs, s.checked.value))
  }

  /** Where a row was before the change. */
  function CameFrom(change: Change, i: int): int {
    if change.Remove? && i >= change.i then i + 1 else i
  }

  lemma InsertKeepsSound(s: State)
    requires Sound(s) && s.checked.Some?
    ensures Sound(Changed(s, Insert))
  {
    var n := Changed(s, Insert);
    forall i, k, key | OccupiedBy(n.runs, i, key) && OccupiedBy(n.runs, k, key) ensures i == k {
      if i < |s.runs| { assert OccupiedBy(s.runs, i, key); }
      if k < |s.runs| { assert OccupiedBy(s.runs, k, key); }
    }
  }

  /** Rows that are neither added nor revived stand for no more than they did. */
  lemma OthersKeepSound(s: State, change: Change)
    requires Sound(s) && Legal(s, change) && !change.Insert? && !Revives(s, change)
    ensures Sound(Changed(s, change))
  {
    var n := Changed(s, change);
    forall i, key | OccupiedBy(n.runs, i, key) ensures OccupiedBy(s.runs, CameFrom(change, i), key) {}
  }

  lemma RevivalIff(s: State, change: Change)
    requires Sound(s) && Revives(s, change)
    ensures Sound(Changed(s, change)) <==> StandsAlone(s, s.runs[change.i])
  {
    var n, row := Changed(s, change), s.runs[change.i];
    if StandsAlone(s, row) {
      forall i, key | OccupiedBy(n.runs, i, key) ensures i == change.i || OccupiedBy(s.runs, i, key) {}
      forall i, key | OccupiedBy(n.runs, i, key) && OccupiedBy(n.runs, change.i, key) ensures i == change.i {
        assert Matches(row, key);
      }
    } else {
      var key :| Matches(row, key) && (Occupied(s.runs, key) || s.checked == Some(key));
      assert OccupiedBy(n.runs, change.i, key);
      if Occupied(s.runs, key) {
        var i :| OccupiedBy(s.runs, i, key);
        assert OccupiedBy(n.runs, i, key) && i != change.i;
      }
    }
  }

  /**
    One change keeps at most one run per occurrence, between a pass's check and its insert too,
    exactly unless it revives a deleted run whose occurrence is taken meanwhile.
   */
  lemma UniqueIff(s: State, change: Change)
    requires Sound(s) && Legal(s, change)
    ensures Sound(Changed(s, change)) <==> (Revives(s, change) ==> StandsAlone(s, s.runs[change.i]))
  {
    if change.Insert? { InsertKeepsSound(s); }
    else if Revives(s, change) { RevivalIff(s, change); }
    else { OthersKeepSound(s, change); }
  }

  /** A deleted run written again, and then revived: two runs for one occurrence. */
  lemma RevivalDuplicates(key: Key)
    ensures var s := State([NewRun(key).(status := JobRunStatus.Deleted), NewRun(key)], None);
      Sound(s) && Legal(s, Move(0, JobRunStatus.Queued)) && !Sound(Changed(s, Move(0, JobRunStatus.Queued)))
  {
    var s := State([NewRun(key).(status := JobRunStatus.Deleted), NewRun(key)], None);
    assert OccupiedBy(s.runs, 1, key);
    assert Matches(s.runs[0], key);
    RevivalIff(s, Move(0, JobRunStatus.Queued));
  }

  ghost predicate Happens(states: seq<State>, changes: seq<Change>) {
    && |states| == |changes| + 1 && states[0] == State([], None)
    && forall i :: 0 <= i < |changes| ==> HappensAt(states[i], changes[i], states[i + 1])
  }

  ghost predicate HappensAt(s: State, change: Change, n: State) {
    Legal(s, change) && n == Changed(s, change) && (Revives(s, change) ==> StandsAlone(s, s.runs[change.i]))
  }

  /** There is never more than one run for a job's occurrence of a schedule, deleted ones aside. */
  lemma {:induction false} OneRunPerOccurrence(states: seq<State>, changes: seq<Change>, n: nat)
    requires Happens(states, changes) && n < |states|
    ensures Sound(states[n])
  {
    if n > 0 {
      OneRunPerOccurrence(states, changes, n - 1);
      assert HappensAt(states[n - 1], changes[n - 1], states[n - 1 + 1]);
      UniqueIff(states[n - 1], changes[n - 1]);
    }
  }

  /** Only a delete, or retention, frees an occurrence: a stopped run goes on holding it. */
  lemma OnlyDeleteFrees(s: State, change: Change, key: Key)
    requires Legal(s, change) && Occupied(s.runs, key)
    ensures Occupied(Changed(s, change).runs, key)
      || ((change.Remove? || (change.Move? && change.status.Deleted?)) && OccupiedBy(s.runs, change.i, key))
  {
    var later := Changed(s, change).runs;
    var i :| OccupiedBy(s.runs, i, key);
    if change.Remove? {
      if change.i < i { assert OccupiedBy(later, i - 1, key); }
      if change.i > i { assert OccupiedBy(later, i, key); }
    } else if !(change.Move? && change.i == i && change.status.Deleted?) {
      assert OccupiedBy(later, i, key);
    }
  }

  // ---- The service ----

  /** The rows after one pair, and the changes that took them there. */
  ghost function PairChanges(s: State, key: Key, submits: bool): seq<Change> {
    if Occupied(s.runs, key) then [Check(key)] else [Check(key), if submits then Insert else StepOver]
  }

  ghost function ChangedAll(s: State, changes: seq<Change>): State
    decreases |changes|
  {
    if changes == [] then s else ChangedAll(Changed(s, changes[0]), changes[1..])
  }

  lemma PairIsChanges(runs: seq<Run>, key: Key, submits: bool)
    ensures ChangedAll(State(runs, None), PairChanges(State(runs, None), key, submits)) ==
      State(if Occupied(runs, key) || !submits then runs else runs + [NewRun(key)], None)
  {
    var s := State(runs, None);
    var changes := PairChanges(s, key, submits);
    var m := Changed(s, changes[0]);
    assert ChangedAll(s, changes) == ChangedAll(m, changes[1..]);
    if !Occupied(runs, key) {
      assert changes[1..][0] == changes[1] && changes[1..][1..] == [];
      assert ChangedAll(m, changes[1..]) == ChangedAll(Changed(m, changes[1]), []);
    }
  }

  lemma {:induction false} ThenChanges(s: State, changes: seq<Change>, more: seq<Change>)
    ensures ChangedAll(s, changes + more) == ChangedAll(ChangedAll(s, changes), more)
    decreases |changes|
  {
    if changes == [] {
      assert changes + more == more;
    } else {
      assert (changes + more)[1..] == changes[1..] + more;
      ThenChanges(Changed(s, changes[0]), changes[1..], more);
    }
  }

  predicate IsPassChange(change: Change) { change.Check? || change.Insert? || change.StepOver? }

  lemma {:induction false} PassKeepsSound(s: State, changes: seq<Change>)
    requires Sound(s) && forall i :: 0 <= i < |changes| ==> IsPassChange(changes[i])
    ensures Sound(ChangedAll(s, changes))
    decreases |changes|
  {
    if changes != [] {
      assert IsPassChange(changes[0]);
      if Legal(s, changes[0]) { UniqueIff(s, changes[0]); }
      PassKeepsSound(Changed(s, changes[0]), changes[1..]);
    }
  }

  class Scheduler {
    var runs: seq<Run>

    constructor ()
      ensures runs == []
    {
      runs := [];
    }

    method SelectOccupying(key: Key) returns (existing: Option<nat>)
      ensures existing.Some? ==> OccupiedBy(runs, existing.value, key)
      ensures existing.None? ==> !Occupied(runs, key)
    {
      for i := 0 to |runs|
        invariant forall k :: 0 <= k < i ==> !OccupiedBy(runs, k, key)
      {
        if Matches(runs[i], key) && Occupies(runs[i].status) {
          return Some(i);
        }
      }
      return None;
    }

    /** Submits one pair unless it is there; a job that cannot be submitted is stepped over. */
    method SubmitIfMissing(key: Key, submits: bool)
      modifies this
      ensures runs == if Occupied(old(runs), key) || !submits then old(runs) else old(runs) + [NewRun(key)]
    {
      var existing := SelectOccupying(key);
      if existing.Some? {
        return;
      }
      if submits {
        runs := runs + [NewRun(key)];
      }
    }

    /**
      Submits whichever desired occurrence of whichever job has no run: `submits` says which
      pairs can be submitted at all. It is a sequence of the checks and inserts above.
     */
    method ReconcileSchedule(schedule: Schedule, now: int, submits: Key -> bool, ghost matches: iset<int>)
      returns (desired: seq<int>, ghost changes: seq<Change>)
      requires IsAfter(matches, schedule.trigger.after)
      modifies this
      ensures PassOf(schedule, matches, now, submits, old(runs), desired, runs)
      ensures FullySubmitted(schedule, desired, submits, old(runs), runs)
      ensures State(runs, None) == ChangedAll(State(old(runs), None), changes)
      ensures forall i :: 0 <= i < |changes| ==> IsPassChange(changes[i])
      ensures NoDuplicates(old(runs)) ==> NoDuplicates(runs)
    {
      desired := GetNextRuns(schedule.trigger, now, schedule.submitAhead, matches);
      ghost var keys: seq<Key> := [];
      changes := [];
      for i := 0 to |desired|
        invariant keys == Pairs(schedule.id, schedule.jobs, desired[..i])
        invariant Reconciled(old(runs), keys, submits, runs)
        invariant State(runs, None) == ChangedAll(State(old(runs), None), changes)
        invariant forall i :: 0 <= i < |changes| ==> IsPassChange(changes[i])
      {
        ghost var before := keys;
        for k := 0 to |schedule.jobs|
          invariant keys == before + PairsOf(schedule.id, schedule.jobs, desired[i])[..k]
          invariant Reconciled(old(runs), keys, submits, runs)
          invariant State(runs, None) == ChangedAll(State(old(runs), None), changes)
          invariant forall i :: 0 <= i < |changes| ==> IsPassChange(changes[i])
        {
          var key := Key(schedule.id, schedule.jobs[k], desired[i]);
          ghost var was, more := runs, PairChanges(State(runs, None), key, submits(key));
          SubmitIfMissing(key, submits(key));
          ReconciledMore(old(runs), keys, submits, was, key, runs);
          PairIsChanges(was, key, submits(key));
          ThenChanges(State(old(runs), None), changes, more);
          keys, changes := keys + [key], changes + more;
        }
        assert desired[..i + 1][..i] == desired[..i];
      }
      assert desired[..|desired|] == desired;
      ReconciledIsFull(schedule, desired, submits, old(runs), runs);
      if NoDuplicates(old(runs)) { PassKeepsSound(State(old(runs), None), changes); }
    }
  }
}
