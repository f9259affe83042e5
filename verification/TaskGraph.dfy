/**
  The check a job's tasks pass before the job is accepted: distinct ids, declared
  dependencies, and a depth-first search for dependency cycles that remembers the tasks it
  has already cleared.
 */
module TaskGraph {
  import opened Options

  type TaskId = string

  datatype TaskYaml = TaskYaml(
    id: TaskId, dependsOn: seq<TaskId>, limits: seq<string>,
    timeout: nat, idleTimeout: nat, maxRetries: nat, retryDelay: nat)

  datatype GraphError =
    | DeclaredTwice(id: TaskId)
    | DependsOnItself(id: TaskId)
    | NotATask(id: TaskId, dependency: TaskId)
    | Cycle(path: seq<TaskId>)

  type Dependencies = map<TaskId, seq<TaskId>>

  // ---- What an acceptable graph is ----

  ghost predicate DistinctIds(tasks: seq<TaskYaml>) {
    forall i, j :: 0 <= i < j < |tasks| ==> tasks[i].id != tasks[j].id
  }

  ghost predicate IsTask(tasks: seq<TaskYaml>, id: TaskId) {
    exists i :: 0 <= i < |tasks| && tasks[i].id == id
  }

  ghost predicate DependenciesDeclared(tasks: seq<TaskYaml>) {
    forall i, dep :: 0 <= i < |tasks| && dep in tasks[i].dependsOn ==> IsTask(tasks, dep)
  }

  /** The dependencies of a task; an id with no entry has none. */
  function Deps(graph: Dependencies, id: TaskId): seq<TaskId> {
    if id in graph then graph[id] else []
  }

  ghost predicate IsGraphOf(tasks: seq<TaskYaml>, graph: Dependencies) {
    && (forall i :: 0 <= i < |tasks| ==> tasks[i].id in graph && graph[tasks[i].id] == tasks[i].dependsOn)
    && (forall id :: id in graph ==> IsTask(tasks, id))
  }

  /** Every task of `order` comes after all of its dependencies. */
  ghost predicate DependenciesFirst(graph: Dependencies, order: seq<TaskId>) {
    forall k, dep :: 0 <= k < |order| && dep in Deps(graph, order[k]) ==> dep in order[..k]
  }

  ghost predicate TopologicalOrder(tasks: seq<TaskYaml>, order: seq<TaskId>) {
    && (forall i :: 0 <= i < |tasks| ==> tasks[i].id in order)
    && (forall i, k, dep ::
          0 <= i < |tasks| && 0 <= k < |order| && order[k] == tasks[i].id && dep in tasks[i].dependsOn
          ==> dep in order[..k])
  }

  ghost predicate Acceptable(tasks: seq<TaskYaml>) {
    && DistinctIds(tasks)
    && DependenciesDeclared(tasks)
    && exists order :: TopologicalOrder(tasks, order)
  }

  /** Each element depends on the next. */
  ghost predicate DependencyWalk(graph: Dependencies, walk: seq<TaskId>) {
    forall i :: 0 <= i < |walk| - 1 ==> walk[i + 1] in Deps(graph, walk[i])
  }

  ghost predicate ClosedWalk(graph: Dependencies, walk: seq<TaskId>) {
    2 <= |walk| && walk[0] == walk[|walk| - 1] && DependencyWalk(graph, walk)
  }

  // ---- A cycle and a topological order exclude each other ----

  lemma {:induction false} WalkGoesBack(graph: Dependencies, order: seq<TaskId>, walk: seq<TaskId>, k: nat)
    requires DependenciesFirst(graph, order) && DependencyWalk(graph, walk) && |walk| >= 1
    requires k < |order| && order[k] == walk[0]
    ensures walk[|walk| - 1] in order[..k + 1]
    ensures |walk| >= 2 ==> walk[|walk| - 1] in order[..k]
    decreases |walk|
  {
    if |walk| >= 2 {
      assert walk[1] in Deps(graph, order[k]);
      assert walk[1] in order[..k];
      var m :| 0 <= m < k && order[m] == walk[1];
      assert DependencyWalk(graph, walk[1..]) by {
        forall i | 0 <= i < |walk[1..]| - 1
          ensures walk[1..][i + 1] in Deps(graph, walk[1..][i])
        {
          assert walk[i + 2] in Deps(graph, walk[i + 1]);
        }
      }
      WalkGoesBack(graph, order, walk[1..], m);
      assert order[..m + 1] == order[..k][..m + 1];
    }
  }

  /** No task on a closed dependency walk occurs in a list that puts dependencies first. */
  lemma CycleExcludesOrder(graph: Dependencies, order: seq<TaskId>, walk: seq<TaskId>)
    requires ClosedWalk(graph, walk) && DependenciesFirst(graph, order)
    ensures walk[0] !in order
  {
    if walk[0] in order {
      var k := FirstIndex(order, walk[0]);
      WalkGoesBack(graph, order, walk, k);
    }
  }

  lemma FirstIndex(s: seq<TaskId>, x: TaskId) returns (k: nat)
    requires x in s
    ensures k < |s| && s[k] == x && x !in s[..k]
  {
    k := 0;
    while s[k] != x
      invariant k < |s| && x !in s[..k]
      decreases |s| - k
    {
      k := k + 1;
    }
  }

  // ---- The search ----

  /** Every id a search can meet: the tasks and everything they name as a dependency. */
  ghost function Universe(graph: Dependencies): set<TaskId> {
    graph.Keys + (set id, dep | id in graph && dep in graph[id] :: dep)
  }

  /**
    The state one search shares between its recursive calls. `path` is the branch being
    walked, `acyclic` the tasks already cleared. The two ghost fields record the order in
    which tasks were cleared and every push on the path.
   */
  class CycleSearch {
    const graph: Dependencies
    var acyclic: set<TaskId>
    var path: seq<TaskId>
    ghost var cleared: seq<TaskId>
    ghost var pushed: seq<TaskId>

    ghost predicate Valid()
      reads this
    {
      && (forall id :: id in acyclic <==> id in cleared)
      && DependenciesFirst(graph, cleared)
      && DependencyWalk(graph, path)
      && (forall id :: id in path ==> id !in acyclic && id in Universe(graph))
      && (forall i, j :: 0 <= i < j < |path| ==> path[i] != path[j])
      && (forall id :: id in pushed <==> id in acyclic || id in path)
      && (forall i, j :: 0 <= i < j < |pushed| ==> pushed[i] != pushed[j])
    }

    constructor (graph: Dependencies)
      ensures Valid() && this.graph == graph && path == [] && acyclic == {}
    {
      this.graph := graph;
      acyclic, path, cleared, pushed := {}, [], [], [];
    }

    /**
      Searches below one task. Either it hands back a closed dependency walk, or the task and everything below it is cleared and the path is as
      it was. `Valid` bounds the work: no task is ever pushed on the path twice.
     */
    method Walk(id: TaskId) returns (cycle: Option<seq<TaskId>>)
      requires Valid()
      requires id in Universe(graph)
      requires path == [] || id in Deps(graph, path[|path| - 1])
      modifies this
      ensures cycle.None? ==> Valid() && path == old(path) && id in acyclic && old(acyclic) <= acyclic
      ensures cycle.Some? ==> ClosedWalk(graph, cycle.value)
      decreases Universe(graph) - (set i | 0 <= i < |path| :: path[i])
    {
      var position := PositionOnPath(id);
      if position.Some? {
        var found := path[position.value..] + [id];
        assert ClosedWalk(graph, found) by { ClosesTheWalk(graph, path, position.value, id); }
        return Some(found);
      }
      if id in acyclic {
        return None;
      }

      Push(id);

      var dependsOn := if id in graph then graph[id] else [];
      DependenciesKnown(graph, id);
      StrictlyFewerLeft(graph, old(path), id);
      for i := 0 to |dependsOn|
        invariant Valid() && path == old(path) + [id] && old(acyclic) <= acyclic
        invariant forall k :: 0 <= k < i ==> dependsOn[k] in acyclic
      {
        assert dependsOn[i] in Deps(graph, id);
        cycle := Walk(dependsOn[i]);
        if cycle.Some? {
          return;
        }
      }

      Clear();
      return None;
    }

    method Push(id: TaskId)
      requires Valid()
      requires id in Universe(graph) && id !in path && id !in acyclic
      requires path == [] || id in Deps(graph, path[|path| - 1])
      modifies this
      ensures Valid() && path == old(path) + [id] && acyclic == old(acyclic)
      ensures pushed == old(pushed) + [id]
    {
      path := path + [id];
      pushed := pushed + [id];
    }

    /** Takes the last task off the path, every dependency of which has been cleared. */
    method Clear()
      requires Valid() && path != []
      requires forall dep :: dep in Deps(graph, path[|path| - 1]) ==> dep in acyclic
      modifies this
      ensures Valid() && path == old(path)[..|old(path)| - 1]
      ensures acyclic == old(acyclic) + {old(path)[|old(path)| - 1]}
    {
      var id := path[|path| - 1];
      path := path[..|path| - 1];
      acyclic := acyclic + {id};
      cleared := cleared + [id];
      assert cleared[..|cleared| - 1] == old(cleared);
      forall k, dep | 0 <= k < |cleared| && dep in Deps(graph, cleared[k])
        ensures dep in cleared[..k]
      {
        assert k < |old(cleared)| ==> cleared[..k] == old(cleared)[..k];
      }
    }

    method PositionOnPath(id: TaskId) returns (position: Option<nat>)
      ensures position.None? ==> id !in path
      ensures position.Some? ==> position.value < |path| && path[position.value] == id
    {
      for i := 0 to |path|
        invariant id !in path[..i]
      {
        if path[i] == id {
          return Some(i);
        }
      }
      return None;
    }
  }

  lemma DependenciesKnown(graph: Dependencies, id: TaskId)
    ensures forall dep :: dep in Deps(graph, id) ==> dep in Universe(graph)
  {}

  lemma ClosesTheWalk(graph: Dependencies, path: seq<TaskId>, at: nat, id: TaskId)
    requires DependencyWalk(graph, path) && at < |path| && path[at] == id
    requires id in Deps(graph, path[|path| - 1])
    ensures ClosedWalk(graph, path[at..] + [id])
  {}

  lemma StrictlyFewerLeft(graph: Dependencies, path: seq<TaskId>, id: TaskId)
    requires id !in path && id in Universe(graph)
    ensures Universe(graph) - (set i | 0 <= i < |path + [id]| :: (path + [id])[i])
          < Universe(graph) - (set i | 0 <= i < |path| :: path[i])
  {
    var before, after := set i | 0 <= i < |path| :: path[i], set i | 0 <= i < |path + [id]| :: (path + [id])[i];
    assert after == before + {id} by {
      forall x | x in before ensures x in after {
        var i :| 0 <= i < |path| && path[i] == x;
        assert (path + [id])[i] == x;
      }
      assert (path + [id])[|path|] == id;
    }
  }

  /** The first dependency cycle, or None together with a topological order of the tasks. */
  method FindTaskDependencyCycle(tasks: seq<TaskYaml>, graph: Dependencies)
    returns (cycle: Option<seq<TaskId>>, ghost order: seq<TaskId>)
    requires IsGraphOf(tasks, graph)
    ensures cycle.Some? ==> ClosedWalk(graph, cycle.value)
    ensures cycle.None? ==> TopologicalOrder(tasks, order)
  {
    var search := new CycleSearch(graph);
    for i := 0 to |tasks|
      invariant search.Valid() && search.path == [] && search.graph == graph
      invariant forall k :: 0 <= k < i ==> tasks[k].id in search.acyclic
    {
      cycle := search.Walk(tasks[i].id);
      if cycle.Some? {
        return cycle, [];
      }
    }
    order := search.cleared;
    return None, order;
  }

  method GraphOf(tasks: seq<TaskYaml>) returns (graph: Dependencies)
    requires DistinctIds(tasks)
    ensures IsGraphOf(tasks, graph)
  {
    graph := map[];
    for i := 0 to |tasks|
      invariant forall k :: 0 <= k < i ==> tasks[k].id in graph && graph[tasks[k].id] == tasks[k].dependsOn
      invariant forall id :: id in graph ==> IsTask(tasks, id)
    {
      graph := graph[tasks[i].id := tasks[i].dependsOn];
    }
  }

  /**
    Accepts a job exactly when its ids are distinct, its dependencies are tasks of the job
    and the tasks can be put in an order that starts every task after its dependencies.
    Every refusal names a genuine fault.
   */
  method ValidateJobTasks(tasks: seq<TaskYaml>) returns (verdict: Result<(), GraphError>)
    ensures verdict.Ok? <==> Acceptable(tasks)
    ensures verdict.Err? ==> GenuineFault(tasks, verdict.error)
  {
    var ids: set<TaskId> := {};
    for i := 0 to |tasks|
      invariant forall id :: id in ids <==> exists k :: 0 <= k < i && tasks[k].id == id
      invariant DistinctIds(tasks[..i])
    {
      if tasks[i].id in ids {
        return Err(DeclaredTwice(tasks[i].id));
      }
      ids := ids + {tasks[i].id};
    }
    assert tasks[..|tasks|] == tasks;

    for i := 0 to |tasks|
      invariant forall k, dep :: 0 <= k < i && dep in tasks[k].dependsOn ==> IsTask(tasks, dep)
    {
      var dependsOn := tasks[i].dependsOn;
      for j := 0 to |dependsOn|
        invariant forall k :: 0 <= k < j ==> IsTask(tasks, dependsOn[k])
      {
        if dependsOn[j] == tasks[i].id {
          SelfDependencyExcludesOrder(tasks, i);
          return Err(DependsOnItself(tasks[i].id));
        }
        if dependsOn[j] !in ids {
          assert dependsOn[j] in tasks[i].dependsOn && !IsTask(tasks, dependsOn[j]);
          return Err(NotATask(tasks[i].id, dependsOn[j]));
        }
      }
    }

    var graph := GraphOf(tasks);
    var cycle, order := FindTaskDependencyCycle(tasks, graph);
    if cycle.Some? {
      WalkStartsAtATask(tasks, graph, cycle.value);
      forall o | TopologicalOrder(tasks, o) ensures false {
        OrderAvoidsCycles(tasks, graph, o, cycle.value);
      }
      return Err(Cycle(cycle.value));
    }
    return Ok(());
  }

  ghost predicate GenuineFault(tasks: seq<TaskYaml>, error: GraphError) {
    match error
    case DeclaredTwice(id) => exists i, j :: 0 <= i < j < |tasks| && tasks[i].id == id == tasks[j].id
    case DependsOnItself(id) => exists i :: 0 <= i < |tasks| && tasks[i].id == id && id in tasks[i].dependsOn
    case NotATask(id, dep) =>
      !IsTask(tasks, dep) && exists i :: 0 <= i < |tasks| && tasks[i].id == id && dep in tasks[i].dependsOn
    case Cycle(path) => exists graph :: IsGraphOf(tasks, graph) && ClosedWalk(graph, path)
  }

  lemma SelfDependencyExcludesOrder(tasks: seq<TaskYaml>, i: nat)
    requires i < |tasks| && tasks[i].id in tasks[i].dependsOn
    ensures forall order :: !TopologicalOrder(tasks, order)
  {
    forall order | TopologicalOrder(tasks, order) ensures false {
      var k := FirstIndex(order, tasks[i].id);
    }
  }

  lemma WalkStartsAtATask(tasks: seq<TaskYaml>, graph: Dependencies, walk: seq<TaskId>)
    requires IsGraphOf(tasks, graph) && ClosedWalk(graph, walk)
    ensures IsTask(tasks, walk[0])
  {
    assert walk[0 + 1] in Deps(graph, walk[0]);
  }

  lemma OrderAvoidsCycles(tasks: seq<TaskYaml>, graph: Dependencies, order: seq<TaskId>, walk: seq<TaskId>)
    requires IsGraphOf(tasks, graph) && TopologicalOrder(tasks, order)
    ensures !(ClosedWalk(graph, walk) && IsTask(tasks, walk[0]))
  {
    assert DependenciesFirst(graph, order);
    if ClosedWalk(graph, walk) && IsTask(tasks, walk[0]) {
      CycleExcludesOrder(graph, order, walk);
    }
  }
}
