/**
 * The dependency check of a Skill workflow: a depth-first walk over the steps,
 * with the steps on the current path in `visiting` and the finished ones in
 * `visited`.  It accepts a workflow exactly when every dependency names a step
 * and no chain of dependencies leads back to where it started.
 */
module Workflow {

  /** Step key to the keys it depends on. */
  type Graph = map<string, seq<string>>

  ghost predicate Closed(g: Graph) {
    forall k, d :: k in g && d in g[k] ==> d in g
  }

  /** Each key on the path depends on the next one. */
  ghost predicate IsPath(g: Graph, p: seq<string>) {
    forall i :: 0 <= i < |p| - 1 ==> p[i] in g && p[i + 1] in g[p[i]]
  }

  ghost predicate IsCycle(g: Graph, p: seq<string>) {
    |p| >= 2 && p[0] == p[|p| - 1] && IsPath(g, p)
  }

  ghost predicate Acyclic(g: Graph) {
    forall p :: !IsCycle(g, p)
  }

  ghost predicate Distinct(s: seq<string>) {
    forall i, j :: 0 <= i < j < |s| ==> s[i] != s[j]
  }

  ghost function Elements(s: seq<string>): set<string> {
    set x | x in s
  }

  /** Every key in the list is a step whose dependencies all occur earlier in the list. */
  ghost predicate DependenciesFirst(g: Graph, order: seq<string>) {
    forall i :: 0 <= i < |order| ==> order[i] in g && forall d :: d in g[order[i]] ==> d in order[..i]
  }

  ghost predicate TopologicalOrder(g: Graph, order: seq<string>) {
    Distinct(order) && Elements(order) == g.Keys && DependenciesFirst(g, order)
  }

  // ---------- what an order of the steps tells about the graph ----------

  /** Along a path, positions in a dependencies-first list go strictly down. */
  lemma {:induction false} PathDescends(g: Graph, order: seq<string>, p: seq<string>, i: nat)
    requires Distinct(order) && DependenciesFirst(g, order)
    requires |p| >= 1 && IsPath(g, p)
    requires i < |order| && order[i] == p[0]
    ensures exists j: nat :: j <= i && j < |order| && order[j] == p[|p| - 1] && (|p| > 1 ==> j < i)
  {
    if |p| > 1 {
      assert p[1] in g[p[0]];
      var k :| 0 <= k < i && order[k] == p[1];
      assert IsPath(g, p[1..]);
      PathDescends(g, order, p[1..], k);
    }
  }

  /** A topological order exists only for closed, acyclic graphs. */
  lemma OrderedIsClosedAndAcyclic(g: Graph, order: seq<string>)
    requires TopologicalOrder(g, order)
    ensures Closed(g) && Acyclic(g)
  {
    forall k, d | k in g && d in g[k]
      ensures d in g
    {
      assert k in Elements(order);
      var i :| 0 <= i < |order| && order[i] == k;
      assert d in order[..i];
      assert d in Elements(order);
    }
    forall p | IsCycle(g, p)
      ensures false
    {
      assert p[0] in g && p[0] in Elements(order);
      var i :| 0 <= i < |order| && order[i] == p[0];
      PathDescends(g, order, p, i);
    }
  }

  /** Meeting a step that is on the current path closes a cycle. */
  lemma BackEdgeClosesCycle(g: Graph, stack: seq<string>, key: string)
    requires IsPath(g, stack + [key]) && key in stack
    ensures !Acyclic(g)
  {
    var i :| 0 <= i < |stack| && stack[i] == key;
    var p := (stack + [key])[i..];
    assert IsPath(g, p);
    assert IsCycle(g, p);
  }

  // ---------- the walk ----------

  class Walk {
    const steps: Graph
    var visiting: set<string>
    var visited: set<string>
    /** The order in which steps become visited. */
    ghost var order: seq<string>
    /** Every step whose dependency list has been entered, in that order. */
    ghost var expanded: seq<string>

    constructor (steps: Graph)
      ensures this.steps == steps && visiting == {} && visited == {} && order == [] && expanded == []
      ensures Valid()
    {
      this.steps := steps;
      visiting, visited, order, expanded := {}, {}, [], [];
    }

    ghost predicate Valid()
      reads this
    {
      && visiting !! visited
      && Distinct(order) && Elements(order) == visited && DependenciesFirst(steps, order)
      && ExpandedOnce()
    }

    /** No step's dependencies are walked twice. */
    ghost predicate ExpandedOnce()
      reads this
    {
      Distinct(expanded) && Elements(expanded) == visiting + visited && visiting + visited <= steps.Keys
    }

    /**
     * Visits one key; `stack` is the chain of steps being visited that led here.
     * Failure always comes with a real defect of the graph, success finishes the key.
     */
    method Visit(key: string, ghost stack: seq<string>) returns (ok: bool)
      requires Valid()
      requires Elements(stack) == visiting
      requires IsPath(steps, stack + [key])
      requires stack == [] ==> key in steps
      modifies this
      ensures ok ==> Valid() && visiting == old(visiting) && old(order) <= order && key in visited
      ensures !ok ==> !(Closed(steps) && Acyclic(steps)) && ExpandedOnce()
      ensures old(expanded) <= expanded
      decreases steps.Keys - visiting
    {
      if key in visiting {
        BackEdgeClosesCycle(steps, stack, key);
        return false;
      }
      if key in visited {
        return true;
      }
      if key !in steps {
        MissingDependency(steps, stack, key);
        return false;
      }
      visiting := visiting + {key};
      expanded := expanded + [key];
      ghost var path := stack + [key];
      var i := 0;
      while i < |steps[key]|
        invariant 0 <= i <= |steps[key]|
        invariant Valid() && visiting == old(visiting) + {key} && Elements(path) == visiting
        invariant old(order) <= order && old(expanded) <= expanded
        invariant forall d :: d in steps[key][..i] ==> d in visited
      {
        ExtendPath(steps, stack, key, steps[key][i]);
        var done := Visit(steps[key][i], path);
        if !done {
          return false;
        }
        i := i + 1;
      }
      visiting := visiting - {key};
      visited := visited + {key};
      assert steps[key][..i] == steps[key];
      assert forall d :: d in visited - {key} ==> d in Elements(order) && d in order;
      FinishLast(steps, order, key);
      order := order + [key];
      return true;
    }

    /** The outer loop: steps are taken in whatever order the map yields them. */
    method VisitAll() returns (ok: bool)
      requires Valid() && visiting == {} && visited == {}
      modifies this
      ensures ok <==> Closed(steps) && Acyclic(steps)
      ensures ok ==> TopologicalOrder(steps, order)
      ensures Distinct(expanded) && Elements(expanded) <= steps.Keys
      ensures ok ==> Elements(expanded) == steps.Keys
    {
      var rest := steps.Keys;
      while rest != {}
        invariant rest <= steps.Keys
        invariant Valid() && visiting == {} && steps.Keys - rest <= visited
        decreases rest
      {
        var key :| key in rest;
        var done := Visit(key, []);
        if !done {
          return false;
        }
        rest := rest - {key};
      }
      assert visited == steps.Keys;
      OrderedIsClosedAndAcyclic(steps, order);
      return true;
    }
  }

  lemma MissingDependency(g: Graph, stack: seq<string>, key: string)
    requires IsPath(g, stack + [key]) && key !in g && stack != []
    ensures !Closed(g)
  {
    var p := stack + [key];
    assert p[|stack| - 1] in g && p[|stack|] in g[p[|stack| - 1]];
  }

  lemma ExtendPath(g: Graph, stack: seq<string>, key: string, next: string)
    requires IsPath(g, stack + [key]) && key in g && next in g[key]
    ensures IsPath(g, stack + [key] + [next])
  {
  }

  lemma FinishLast(g: Graph, order: seq<string>, key: string)
    requires Distinct(order) && DependenciesFirst(g, order)
    requires key in g && key !in order && forall d :: d in g[key] ==> d in order
    ensures Distinct(order + [key]) && DependenciesFirst(g, order + [key])
    ensures Elements(order + [key]) == Elements(order) + {key}
  {
    var o := order + [key];
    forall i | 0 <= i < |o|
      ensures o[i] in g && forall d :: d in g[o[i]] ==> d in o[..i]
    {
      assert o[..i] == order[..i];
    }
  }
}
