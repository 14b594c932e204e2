/** The story dependency check of a product increment: a recursive visit with a set of
    stories being visited and a set of stories that are done.
 */
module DependencyCheck {
  import opened Wrappers

  // Story to the stories it depends on; IDs are unique, so this is a map.
  type Graph = map<string, seq<string>>

  datatype Verdict = Accepted | SelfDependency(story: string) | UnknownDependency(story: string, dependency: string) | CycleAt(story: string)

  predicate HasSelf(g: Graph, story: string) {
    story in g && story in g[story]
  }

  predicate Closed(g: Graph) {
    forall s :: s in g ==> forall i :: 0 <= i < |g[s]| ==> g[s][i] in g
  }

  predicate SelfFree(g: Graph) {
    forall s :: s in g ==> s !in g[s]
  }

  // ---------------------------------------------------------------- orders and cycles

  // Each story comes after everything it depends on.
  predicate DependenciesFirst(g: Graph, t: seq<string>) {
    forall i :: 0 <= i < |t| ==> t[i] in g && forall k :: 0 <= k < |g[t[i]]| ==> g[t[i]][k] in t[..i]
  }

  ghost predicate Topological(g: Graph, t: seq<string>) {
    NoRepeats(t) && DependenciesFirst(g, t) && forall s :: s in g ==> s in t
  }

  predicate Chain(g: Graph, c: seq<string>) {
    && (forall i :: 0 <= i < |c| ==> c[i] in g)
    && (forall i :: 0 <= i < |c| - 1 ==> c[i + 1] in g[c[i]])
  }

  predicate Cycle(g: Graph, c: seq<string>) {
    |c| > 0 && Chain(g, c) && c[0] in g[c[|c| - 1]]
  }

  function Index(t: seq<string>, s: string): (i: nat)
    requires s in t
    ensures i < |t| && t[i] == s && s !in t[..i]
  {
    if t[0] == s then 0
    else
      assert t == [t[0]] + t[1..];
      var i := Index(t[1..], s);
      assert t[..i + 1] == [t[0]] + t[1..][..i];
      i + 1
  }

  // Along a dependency the position in a topological order goes down.
  lemma StepsDown(g: Graph, t: seq<string>, s: string, d: string)
    requires Topological(g, t) && s in g && d in g[s]
    ensures s in t && d in t && Index(t, d) < Index(t, s)
  {
    var i := Index(t, s);
    var k :| 0 <= k < |g[s]| && g[s][k] == d;
    assert g[t[i]][k] in t[..i];
    var j :| 0 <= j < i && t[j] == d;
    assert t[Index(t, d)] == t[j];
  }

  lemma {:induction false} ChainStepsDown(g: Graph, t: seq<string>, c: seq<string>, i: nat)
    requires Topological(g, t) && Chain(g, c) && i < |c|
    ensures c[0] in t && c[i] in t && Index(t, c[i]) + i <= Index(t, c[0])
  {
    assert c[0] in g && c[i] in g;
    if i > 0 {
      ChainStepsDown(g, t, c, i - 1);
      assert c[i - 1 + 1] in g[c[i - 1]];
      StepsDown(g, t, c[i - 1], c[i]);
    }
  }

  /** A graph with a topological order has no cycle, and the other way round. */
  lemma OrderExcludesCycle(g: Graph, t: seq<string>, c: seq<string>)
    requires Topological(g, t)
    ensures !Cycle(g, c)
  {
    if Cycle(g, c) {
      var first, last := c[0], c[|c| - 1];
      ChainStepsDown(g, t, c, |c| - 1);
      StepsDown(g, t, last, first);
    }
  }

  // ---------------------------------------------------------------- the visit

  class Visitor {
    const graph: Graph
    var visiting: set<string>
    var visited: set<string>
    // The stories being visited, outermost first, and the finished ones in order.
    ghost var path: seq<string>
    ghost var finished: seq<string>

    ghost predicate Valid()
      reads this
    {
      && Closed(graph) && Chain(graph, path)
      && visiting == (set s | s in path) && visited == (set s | s in finished)
      && visiting <= graph.Keys
      && visiting !! visited
      && NoRepeats(finished) && DependenciesFirst(graph, finished)
    }

    constructor (graph: Graph)
      requires Closed(graph)
      ensures Valid() && this.graph == graph && path == [] && finished == []
    {
      this.graph := graph;
      visiting, visited, path, finished := {}, {}, [], [];
    }

    method Visit(story: string) returns (failed: bool, at: string, ghost cycle: seq<string>)
      requires Valid() && story in graph
      requires path != [] ==> story in graph[path[|path| - 1]]
      modifies this
      ensures failed ==> Cycle(graph, cycle) && cycle[0] == at
      ensures !failed ==> Valid() && story in visited && path == old(path) && old(visited) <= visited
      decreases |graph.Keys - visiting|
    {
      hide NoRepeats, DependenciesFirst, Chain, Cycle, CycleOn, Valid, Closed;
      Visiting();
      if story in visiting {
        return true, story, CycleOn(graph, path, story);
      }
      if story in visited {
        return false, story, [];
      }
      Enter(story);
      var i := 0;
      while i < |graph[story]|
        invariant 0 <= i <= |graph[story]|
        invariant Valid() && path == old(path) + [story]
        invariant forall k :: 0 <= k < i ==> graph[story][k] in visited
        invariant old(visited) <= visited
      {
        Visiting();
        Depends(graph, story, i);
        Shrinks(graph.Keys, old(visiting), story);
        failed, at, cycle := Visit(graph[story][i]);
        if failed {
          return;
        }
        i := i + 1;
      }
      Leave(story);
      failed, at, cycle := false, story, [];
    }

    // What a valid visitor knows of the stories it is visiting.
    lemma Visiting()
      requires Valid()
      ensures Closed(graph) && Chain(graph, path) && visiting <= graph.Keys && visiting == set s | s in path
    {
    }

    method Enter(story: string)
      requires Valid() && story in graph && story !in visiting && story !in visited
      requires path != [] ==> story in graph[path[|path| - 1]]
      modifies this`visiting, this`path
      ensures Valid() && path == old(path) + [story] && visiting == old(visiting) + {story}
    {
      visiting := visiting + {story};
      path := path + [story];
    }

    method Leave(story: string)
      requires Valid() && path != [] && path[|path| - 1] == story && story in graph && story !in path[..|path| - 1]
      requires forall k :: 0 <= k < |graph[story]| ==> graph[story][k] in visited
      modifies this
      ensures Valid() && path == old(path)[..|old(path)| - 1] && visited == old(visited) + {story}
    {
      ghost var outer := path[..|path| - 1];
      assert path == outer + [story];
      visiting := visiting - {story};
      visited := visited + {story};
      path := outer;
      finished := finished + [story];
      assert forall i :: 0 <= i < |finished| - 1 ==> finished[..i] == old(finished)[..i];
    }
  }

  lemma Depends(g: Graph, s: string, i: nat)
    requires Closed(g) && s in g && i < |g[s]|
    ensures g[s][i] in g
  {
  }

  // Meeting a story again closes a cycle.
  ghost function CycleOn(g: Graph, path: seq<string>, story: string): (c: seq<string>)
    requires Chain(g, path) && story in path && story in g[path[|path| - 1]]
    ensures Cycle(g, c) && c[0] == story
  {
    path[Index(path, story)..]
  }

  lemma Shrinks(all: set<string>, visiting: set<string>, story: string)
    requires story in all && story !in visiting
    ensures |all - (visiting + {story})| < |all - visiting|
  {
    assert all - visiting == (all - (visiting + {story})) + {story};
  }

  // ---------------------------------------------------------------- the check

  // The first rule broken, in the order the stories are listed.
  method CheckEdges(graph: Graph, order: seq<string>) returns (verdict: Verdict)
    requires forall s :: s in order <==> s in graph
    ensures verdict.Accepted? <==> SelfFree(graph) && Closed(graph)
    ensures verdict.SelfDependency? ==> HasSelf(graph, verdict.story)
    ensures verdict.UnknownDependency? ==>
      verdict.story in graph && verdict.dependency in graph[verdict.story] && verdict.dependency !in graph
    ensures !verdict.CycleAt?
  {
    for i := 0 to |order|
      invariant forall j :: 0 <= j < i ==> order[j] !in graph[order[j]]
      invariant forall j :: 0 <= j < i ==> forall k :: 0 <= k < |graph[order[j]]| ==> graph[order[j]][k] in graph
    {
      var story := order[i];
      for k := 0 to |graph[story]|
        invariant forall m :: 0 <= m < k ==> graph[story][m] != story && graph[story][m] in graph
      {
        var dep := graph[story][k];
        if dep == story {
          return SelfDependency(story);
        }
        if dep !in graph {
          return UnknownDependency(story, dep);
        }
      }
    }
    verdict := Accepted;
  }

  /** The dependency check is exact, whatever order the stories are listed and visited in.  It names a
      self-dependency or an unknown dependency only when there is one; otherwise it accepts
      exactly the graphs that have a topological order, and reports a cycle exactly when the
      graph has one; the story it then names lies on one. */
  method CheckDependencies(graph: Graph, listed: seq<string>, order: seq<string>) returns (verdict: Verdict)
    requires forall s :: s in listed <==> s in graph
    requires forall s :: s in order <==> s in graph
    ensures verdict.SelfDependency? ==> HasSelf(graph, verdict.story)
    ensures verdict.UnknownDependency? ==>
      verdict.story in graph && verdict.dependency in graph[verdict.story] && verdict.dependency !in graph
    ensures verdict.SelfDependency? || verdict.UnknownDependency? <==> !SelfFree(graph) || !Closed(graph)
    ensures verdict.Accepted? <==> SelfFree(graph) && Closed(graph) && exists t :: Topological(graph, t)
    ensures verdict.CycleAt? <==> SelfFree(graph) && Closed(graph) && exists c :: Cycle(graph, c)
    ensures verdict.CycleAt? ==> exists c :: Cycle(graph, c) && c[0] == verdict.story
  {
    verdict := CheckEdges(graph, listed);
    if !verdict.Accepted? {
      return;
    }
    var visitor := new Visitor(graph);
    for i := 0 to |order|
      invariant visitor.Valid() && visitor.path == []
      invariant forall j :: 0 <= j < i ==> order[j] in visitor.visited
    {
      var failed, at;
      ghost var cycle;
      failed, at, cycle := visitor.Visit(order[i]);
      if failed {
        forall t ensures !Topological(graph, t) {
          if Topological(graph, t) {
            OrderExcludesCycle(graph, t, cycle);
          }
        }
        return CycleAt(at);
      }
    }
    assert Topological(graph, visitor.finished);
    forall c ensures !Cycle(graph, c) {
      OrderExcludesCycle(graph, visitor.finished, c);
    }
  }
}
