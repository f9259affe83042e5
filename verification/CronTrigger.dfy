/**
  A schedule's occurrences: a cron expression's matches, within the schedule's dates. The
  instants are seconds; which of them the expression matches in the schedule's zone is left
  abstract, and so is how the dates fall there.
 */
module CronTriggers {
  import opened Options

  /** A start or end date: absent, with no such local time in the zone, or at an instant. */
  datatype Bound = Unbounded | Unresolvable | At(instant: int)

  /** `after` is the cron library's: the least match strictly later, if there is one. */
  datatype CronTrigger = CronTrigger(after: int -> Option<int>, start: Bound, end: Bound, disabled: bool)

  // ---- What the occurrences are ----

  ghost predicate IsAfter(matches: iset<int>, after: int -> Option<int>) {
    forall from :: NextMatch(matches, from, after(from))
  }

  ghost predicate NextMatch(matches: iset<int>, from: int, next: Option<int>) {
    match next
    case None => forall t :: t in matches ==> t <= from
    case Some(n) => n > from && n in matches && forall t :: t in matches ==> t <= from || n <= t
  }

  /** A match after the later of `from` and the start, and not past the end. */
  ghost predicate IsRun(trigger: CronTrigger, matches: iset<int>, from: int, t: int) {
    && !trigger.disabled && !trigger.start.Unresolvable? && !trigger.end.Unresolvable?
    && t in matches && t > from
    && (trigger.start.At? ==> t > trigger.start.instant)
    && (trigger.end.At? ==> t <= trigger.end.instant)
  }

  ghost predicate Increasing(runs: seq<int>) {
    forall i, k :: 0 <= i < k < |runs| ==> runs[i] < runs[k]
  }

  /** The first `count` runs after `from`: fewer only if there are no more. */
  ghost predicate FirstRuns(trigger: CronTrigger, matches: iset<int>, from: int, count: nat, runs: seq<int>) {
    && |runs| <= count && Increasing(runs)
    && (forall t :: t in runs ==> IsRun(trigger, matches, from, t))
    && (forall t :: IsRun(trigger, matches, from, t) ==> t in runs || (|runs| == count && forall r :: r in runs ==> r < t))
  }

  // ---- The code ----

  function GetNextRun(trigger: CronTrigger, from: int): Option<int> {
    if trigger.disabled || trigger.start.Unresolvable? then None
    else
      var earliest := if trigger.start.At? && from < trigger.start.instant then trigger.start.instant else from;
      match trigger.after(earliest)
      case None => None
      case Some(next) =>
        match trigger.end
        case Unbounded => Some(next)
        case Unresolvable => None
        case At(end) => if next > end then None else Some(next)
  }

  lemma NextRunIsFirst(trigger: CronTrigger, matches: iset<int>, from: int)
    requires IsAfter(matches, trigger.after)
    ensures var next := GetNextRun(trigger, from);
      && (next.None? ==> forall t :: !IsRun(trigger, matches, from, t))
      && (next.Some? ==> IsRun(trigger, matches, from, next.value)
                         && forall t :: IsRun(trigger, matches, from, t) ==> next.value <= t)
  {}

  /** A run after an earlier run is a run after where that one was counted from. */
  lemma LaterRuns(trigger: CronTrigger, matches: iset<int>, from: int, run: int, t: int)
    requires IsRun(trigger, matches, from, run)
    ensures IsRun(trigger, matches, run, t) <==> IsRun(trigger, matches, from, t) && t > run
  {}

  method GetNextRuns(trigger: CronTrigger, startFrom: int, count: nat, ghost matches: iset<int>) returns (runs: seq<int>)
    requires IsAfter(matches, trigger.after)
    ensures FirstRuns(trigger, matches, startFrom, count, runs)
  {
    runs := [];
    var from := startFrom;
    for i := 0 to count
      invariant |runs| == i && FirstRuns(trigger, matches, startFrom, i, runs)
      invariant from == if i == 0 then startFrom else runs[i - 1]
    {
      NextRunIsFirst(trigger, matches, from);
      var next := GetNextRun(trigger, from);
      if next.None? {
        NoMoreRuns(trigger, matches, startFrom, runs);
        return;
      }
      OneMoreRun(trigger, matches, startFrom, runs, next.value);
      runs := runs + [next.value];
      from := next.value;
    }
  }

  lemma NoMoreRuns(trigger: CronTrigger, matches: iset<int>, from: int, runs: seq<int>)
    requires FirstRuns(trigger, matches, from, |runs|, runs)
    requires var last := if runs == [] then from else runs[|runs| - 1]; forall t :: !IsRun(trigger, matches, last, t)
    ensures forall count :: count >= |runs| ==> FirstRuns(trigger, matches, from, count, runs)
  {
    forall t | IsRun(trigger, matches, from, t) ensures t in runs {
      if runs != [] { LaterRuns(trigger, matches, from, runs[|runs| - 1], t); }
    }
  }

  lemma OneMoreRun(trigger: CronTrigger, matches: iset<int>, from: int, runs: seq<int>, next: int)
    requires FirstRuns(trigger, matches, from, |runs|, runs)
    requires var last := if runs == [] then from else runs[|runs| - 1];
      IsRun(trigger, matches, last, next) && forall t :: IsRun(trigger, matches, last, t) ==> next <= t
    ensures FirstRuns(trigger, matches, from, |runs| + 1, runs + [next])
  {
    var more, last := runs + [next], if runs == [] then from else runs[|runs| - 1];
    if runs != [] { LaterRuns(trigger, matches, from, last, next); }
    forall t | IsRun(trigger, matches, from, t) ensures t in more || forall r :: r in more ==> r < t {
      if t !in runs {
        if runs != [] { LaterRuns(trigger, matches, from, last, t); }
        assert next <= t;
        assert more[|runs|] == next;
      }
    }
    forall t | t in more ensures IsRun(trigger, matches, from, t) {}
  }

  // ---- There is only one such list ----

  ghost predicate SameUpTo(fewer: seq<int>, more: seq<int>, i: nat) {
    i <= |fewer| && i <= |more| && forall k :: 0 <= k < i ==> more[k] == fewer[k]
  }

  lemma NotBefore(fewer: seq<int>, more: seq<int>, i: nat, t: int)
    requires Increasing(fewer) && Increasing(more) && SameUpTo(fewer, more, i)
    requires i < |fewer| && t == fewer[i] && t in more
    ensures i < |more| && more[i] <= t
  {}

  lemma SameNext(trigger: CronTrigger, matches: iset<int>, from: int, fewer: seq<int>, n: nat, more: seq<int>, m: nat, i: nat)
    requires FirstRuns(trigger, matches, from, n, fewer) && FirstRuns(trigger, matches, from, m, more) && n <= m
    requires i < |fewer| && SameUpTo(fewer, more, i)
    ensures SameUpTo(fewer, more, i + 1)
  {
    var t := fewer[i];
    assert IsRun(trigger, matches, from, t) by { assert t in fewer; }
    assert t in more || (|more| == m && forall r :: r in more ==> r < t);
    if t in more { NotBefore(fewer, more, i, t); }
    assert more[i] in more && more[i] <= t;
    if more[i] != t { NotSkipped(fewer, more, i); }
    assert t in fewer;
  }

  lemma NotSkipped(fewer: seq<int>, more: seq<int>, i: nat)
    requires Increasing(fewer) && Increasing(more) && SameUpTo(fewer, more, i)
    requires i < |more| && (i < |fewer| ==> more[i] < fewer[i])
    ensures more[i] !in fewer
  {}

  lemma {:induction false} SamePrefix(
    trigger: CronTrigger, matches: iset<int>, from: int, fewer: seq<int>, n: nat, more: seq<int>, m: nat, i: nat)
    requires FirstRuns(trigger, matches, from, n, fewer) && FirstRuns(trigger, matches, from, m, more) && n <= m
    requires i <= |fewer|
    ensures SameUpTo(fewer, more, i)
  {
    if i > 0 {
      SamePrefix(trigger, matches, from, fewer, n, more, m, i - 1);
      SameNext(trigger, matches, from, fewer, n, more, m, i - 1);
    }
  }

  /** Asking for fewer runs gives the beginning of what asking for more gives; there is one list. */
  lemma FewerIsPrefix(trigger: CronTrigger, matches: iset<int>, from: int, fewer: seq<int>, n: nat, more: seq<int>, m: nat)
    requires FirstRuns(trigger, matches, from, n, fewer) && FirstRuns(trigger, matches, from, m, more) && n <= m
    ensures |fewer| <= |more| && fewer == more[..|fewer|]
    ensures |fewer| < n ==> fewer == more
    ensures n == m ==> fewer == more
  {
    SamePrefix(trigger, matches, from, fewer, n, more, m, |fewer|);
    if |fewer| < |more| {
      assert more[|fewer|] in more;
      NotSkipped(fewer, more, |fewer|);
    }
  }
}
