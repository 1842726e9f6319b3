/** The depth-first cycle search of packages/contracts/src/orchestration.ts, which shares two
    mutable sets between its recursive calls. */
module CycleSearch {
  import opened Sequences

  type Dependencies = map<string, seq<string>>

  /** One step depends on another that is part of the workflow. */
  ghost predicate Edge(deps: Dependencies, from: string, to: string) {
    from in deps && to in deps && to in deps[from]
  }

  ghost predicate Walk(deps: Dependencies, path: seq<string>) {
    && (forall i | 0 <= i < |path| :: path[i] in deps)
    && forall i | 0 <= i < |path| - 1 :: Edge(deps, path[i], path[i + 1])
  }

  ghost predicate IsCycle(deps: Dependencies, path: seq<string>) {
    |path| >= 2 && Walk(deps, path) && path[0] == path[|path| - 1]
  }

  ghost predicate HasCycle(deps: Dependencies) {
    exists path :: IsCycle(deps, path)
  }

  ghost predicate DependenciesFirst(deps: Dependencies, order: seq<string>) {
    forall i, to | 0 <= i < |order| && Edge(deps, order[i], to) :: to in order[..i]
  }

  /** An order of all steps in which every dependency comes before its dependent. */
  ghost predicate Schedule(deps: Dependencies, order: seq<string>) {
    Distinct(order) && (forall s :: s in order <==> s in deps) && DependenciesFirst(deps, order)
  }

  lemma {:induction false} WalkDescends(deps: Dependencies, order: seq<string>, path: seq<string>, from: nat)
    returns (to: nat)
    requires Schedule(deps, order) && Walk(deps, path) && path != []
    requires from < |order| && order[from] == path[0]
    ensures to < |order| && order[to] == path[|path| - 1] && to + |path| - 1 <= from
  {
    if |path| == 1 {
      to := from;
    } else {
      assert Edge(deps, path[0], path[1]);
      var next :| 0 <= next < from && order[next] == path[1];
      to := WalkDescends(deps, order, path[1..], next);
    }
  }

  /** A schedule rules out cycles of any length. */
  lemma ScheduleHasNoCycle(deps: Dependencies, order: seq<string>)
    requires Schedule(deps, order)
    ensures !HasCycle(deps)
  {
    if path :| IsCycle(deps, path) {
      var from :| 0 <= from < |order| && order[from] == path[0];
      var to := WalkDescends(deps, order, path, from);
    }
  }

  lemma OrderExtends(deps: Dependencies, order: seq<string>, last: string)
    requires DependenciesFirst(deps, order)
    requires forall to | Edge(deps, last, to) :: to in order
    ensures DependenciesFirst(deps, order + [last])
  {
    var longer := order + [last];
    forall i, to | 0 <= i < |longer| && Edge(deps, longer[i], to)
      ensures to in longer[..i]
    {
      if i < |order| {
        assert longer[..i] == order[..i];
      } else {
        assert longer[..i] == order;
      }
    }
  }

  class Search {
    const dependencies: Dependencies
    var visiting: set<string>
    var visited: set<string>
    /** The steps being visited, outermost first. */
    ghost var path: seq<string>
    /** The visited steps in the order their visits ended. */
    ghost var order: seq<string>

    ghost predicate Valid()
      reads this
    {
      && Walk(dependencies, path)
      && (forall s :: s in visiting <==> s in path)
      && (forall s :: s in visited <==> s in order)
      && (forall s | s in visited :: s in dependencies && s !in visiting)
      && Distinct(order) && DependenciesFirst(dependencies, order)
    }

    constructor (dependencies: Dependencies)
      ensures Valid() && this.dependencies == dependencies && path == [] && order == []
    {
      this.dependencies := dependencies;
      visiting, visited, path, order := {}, {}, [], [];
    }

    lemma ClosesCycle(stepId: string)
      requires Valid() && stepId in path && Edge(dependencies, path[|path| - 1], stepId)
      ensures HasCycle(dependencies)
    {
      var k :| 0 <= k < |path| && path[k] == stepId;
      var cycle := path[k..] + [stepId];
      forall i | 0 <= i < |cycle| - 1 ensures Edge(dependencies, cycle[i], cycle[i + 1]) {
        if k + i + 1 < |path| {
          assert Edge(dependencies, path[k + i], path[k + i + 1]);
        }
      }
      assert IsCycle(dependencies, cycle);
    }

    method Enter(stepId: string)
      requires Valid() && stepId in dependencies && stepId !in visiting && stepId !in visited
      requires path == [] || Edge(dependencies, path[|path| - 1], stepId)
      modifies `visiting, `path
      ensures Valid() && path == old(path) + [stepId] && visiting == old(visiting) + {stepId}
    {
      visiting := visiting + {stepId};
      path := path + [stepId];
    }

    method Leave(stepId: string)
      requires Valid() && path != [] && path[|path| - 1] == stepId && stepId !in path[..|path| - 1]
      requires forall to | Edge(dependencies, stepId, to) :: to in visited
      modifies this
      ensures Valid() && path == old(path)[..|old(path)| - 1] && visiting == old(visiting) - {stepId}
      ensures order == old(order) + [stepId] && visited == old(visited) + {stepId}
    {
      visiting := visiting - {stepId};
      visited := visited + {stepId};
      OrderExtends(dependencies, order, stepId);
      order := order + [stepId];
      path := path[..|path| - 1];
    }

    method Visit(stepId: string) returns (cyclic: bool)
      requires Valid() && stepId in dependencies
      requires path == [] || Edge(dependencies, path[|path| - 1], stepId)
      modifies this
      ensures cyclic ==> HasCycle(dependencies)
      ensures !cyclic ==> Valid() && visiting == old(visiting) && path == old(path)
      ensures !cyclic ==> stepId in visited && old(order) <= order && old(visited) <= visited
      decreases dependencies.Keys - visiting - visited
    {
      hide Walk, DependenciesFirst, Distinct, HasCycle;
      if stepId in visiting {
        ClosesCycle(stepId);
        return true;
      }
      if stepId in visited {
        return false;
      }
      Enter(stepId);
      var needed := dependencies[stepId];
      var next := 0;
      while next < |needed|
        invariant next <= |needed|
        invariant Valid() && visiting == old(visiting) + {stepId} && path == old(path) + [stepId]
        invariant old(order) <= order && old(visited) <= visited
        invariant forall i | 0 <= i < next && needed[i] in dependencies :: needed[i] in visited
      {
        var dependency := needed[next];
        if dependency in dependencies {
          assert stepId in old(dependencies.Keys - visiting - visited) && stepId in visiting;
          var found := Visit(dependency);
          if found {
            return true;
          }
        }
        next := next + 1;
      }
      Leave(stepId);
      return false;
    }
  }

  /** The search over all steps reports a cycle if and only if the dependencies have one; when it
      reports none, the steps can be scheduled. */
  method FindCycle(stepIds: seq<string>, dependencies: Dependencies) returns (cyclic: bool)
    requires forall s :: s in stepIds <==> s in dependencies
    ensures cyclic <==> HasCycle(dependencies)
    ensures !cyclic ==> exists order :: Schedule(dependencies, order)
  {
    var search := new Search(dependencies);
    var next := 0;
    while next < |stepIds|
      invariant next <= |stepIds|
      invariant search.Valid() && search.path == [] && search.dependencies == dependencies
      invariant forall i | 0 <= i < next :: stepIds[i] in search.visited
    {
      var found := search.Visit(stepIds[next]);
      if found {
        return true;
      }
      next := next + 1;
    }
    assert Schedule(dependencies, search.order);
    ScheduleHasNoCycle(dependencies, search.order);
    return false;
  }
}
