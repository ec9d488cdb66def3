/**
  What the bounded search guarantees: it lists exactly the reachable agents when there
  are at most sixteen, says so when there are more, and finds every agent by a
  shortest route.
 */
module HandoffGraphFacts {
  import opened Bags
  import opened HandoffGraph

  ghost predicate Reachable(u: set<Agent>, target: Agent, x: Agent)
    requires target in u && Closed(u)
    reads u
  {
    exists route :: Follow(u, target, route) == Some(x)
  }

  ghost function ReachableSet(u: set<Agent>, target: Agent): (r: set<Agent>)
    requires target in u && Closed(u)
    reads u
    ensures r <= u && forall x :: x in u ==> (x in r <==> Reachable(u, target, x))
  {
    set x | x in u && Reachable(u, target, x)
  }

  /** The search is over: every listed agent was scanned. */
  ghost predicate Searched(u: set<Agent>, target: Agent, graph: Graph)
    reads u
  {
    Progress(u, target, graph.agents, graph.locations, graph.issues, |graph.agents|)
  }

  /** Without an issue, nothing reachable is missing. */
  lemma {:induction false} ListsAllReachable(u: set<Agent>, target: Agent, graph: Graph, route: Route)
    requires Searched(u, target, graph) && graph.issues == [] && Follow(u, target, route).Some?
    ensures Follow(u, target, route).value in graph.agents
    decreases |route|
  {
    if route == [] {
      assert graph.agents[0] == target;
    } else {
      var prefix, k := route[..|route| - 1], route[|route| - 1];
      FollowPrefix(u, target, route);
      ListsAllReachable(u, target, graph, prefix);
      var i :| 0 <= i < |graph.agents| && graph.agents[i] == Follow(u, target, prefix).value;
      assert Complete(graph.agents, i, |graph.agents[i].handoffs|);
      assert graph.agents[i].handoffs[k].destination == Follow(u, target, route);
    }
  }

  /** The list is the reachable agents, or the graph is reported as too large; never both, and once. */
  lemma {:induction false} BoundExactly(u: set<Agent>, target: Agent, graph: Graph)
    requires Searched(u, target, graph)
    ensures |graph.issues| <= 1
    ensures graph.issues == [] <==> |ReachableSet(u, target)| <= MAX_REACHABLE_AGENTS
    ensures graph.issues == [] ==> (set a | a in graph.agents) == ReachableSet(u, target)
    ensures (set a | a in graph.agents) <= ReachableSet(u, target)
  {
    var listed, reachable := (set a | a in graph.agents), ReachableSet(u, target);
    forall a | a in listed ensures a in reachable {
      var i :| 0 <= i < |graph.agents| && graph.agents[i] == a;
      assert Follow(u, target, graph.locations[i]) == Some(a);
    }
    DistinctSize(graph.agents);
    if graph.issues == [] {
      forall a | a in reachable ensures a in listed {
        var route :| Follow(u, target, route) == Some(a);
        ListsAllReachable(u, target, graph, route);
      }
      assert listed == reachable;
    } else {
      var x := Follow(u, target, graph.issues[0].location).value;
      assert Reachable(u, target, x);
      SubsetSize(listed + {x}, reachable);
    }
  }

  /** The location of `x` is no longer than `n`, or the list was already full of agents that near. */
  ghost predicate Near(graph: Graph, x: Agent, n: nat) {
    |graph.agents| == |graph.locations|
    && ((exists j :: 0 <= j < |graph.agents| && graph.agents[j] == x && |graph.locations[j]| <= n)
        || forall j :: 0 <= j < |graph.agents| ==> |graph.locations[j]| <= n)
  }

  lemma {:induction false} NearAlong(u: set<Agent>, target: Agent, graph: Graph, route: Route)
    requires Searched(u, target, graph) && Follow(u, target, route).Some?
    ensures Near(graph, Follow(u, target, route).value, |route|)
    decreases |route|
  {
    if route == [] {
      assert graph.agents[0] == target && |graph.locations[0]| <= 0;
    } else {
      var prefix, k := route[..|route| - 1], route[|route| - 1];
      FollowPrefix(u, target, route);
      NearAlong(u, target, graph, prefix);
      var b := Follow(u, target, prefix).value;
      if i :| 0 <= i < |graph.agents| && graph.agents[i] == b && |graph.locations[i]| <= |prefix| {
        assert Scanned(graph.agents, graph.locations, i, |b.handoffs|);
        assert Handled(graph.agents, graph.locations, b.handoffs[k].destination, |graph.locations[i]| + 1);
      }
    }
  }

  /** Breadth first: an agent is listed at the end of a shortest route, even when the bound cuts the search. */
  lemma {:induction false} ShortestRoutes(u: set<Agent>, target: Agent, graph: Graph, i: nat, route: Route)
    requires Searched(u, target, graph) && i < |graph.agents|
    requires Follow(u, target, route) == Some(graph.agents[i])
    ensures |graph.locations[i]| <= |route|
  {
    NearAlong(u, target, graph, route);
    OnlyPlace(graph, i, |route|);
  }

  lemma {:induction false} OnlyPlace(graph: Graph, i: nat, n: nat)
    requires Distinct(graph.agents) && i < |graph.agents| && Near(graph, graph.agents[i], n)
    ensures |graph.locations[i]| <= n
  {
    if j :| 0 <= j < |graph.agents| && graph.agents[j] == graph.agents[i] && |graph.locations[j]| <= n {
      assert i == j;
    }
  }

  /** Each handoff entry of each listed agent is analyzed exactly once, in order. */
  lemma {:induction false} EachEntryOnce(agents: seq<Agent>, locations: seq<Route>, n: nat, i: nat)
    requires i < n <= |agents| == |locations| && Distinct(agents)
    ensures EdgesFrom(AllEdges(agents, locations, n), agents[i])
         == EdgesOf(agents[i], locations[i], |agents[i].handoffs|)
  {
    var m, a := n - 1, agents[i];
    var head, last := AllEdges(agents, locations, m), EdgesOf(agents[m], locations[m], |agents[m].handoffs|);
    assert AllEdges(agents, locations, n) == head + last;
    EdgesFromSplit(head, last, a);
    OwnEdges(agents[m], locations[m], |agents[m].handoffs|, a);
    if i < m {
      EachEntryOnce(agents, locations, m, i);
      assert agents[m] != a;
    } else {
      NotAmong(agents, m);
      NoEdges(agents, locations, m, a);
    }
  }

  lemma {:induction false} NotAmong<T>(s: seq<T>, n: nat)
    requires n < |s| && Distinct(s)
    ensures s[n] !in s[..n]
  {
  }

  /** The edges that leave `a`, in order: the grouping of `_edges_by_agent`. */
  ghost function EdgesFrom(edges: seq<Edge>, a: Agent): (r: seq<Edge>) {
    if edges == [] then []
    else EdgesFrom(edges[..|edges| - 1], a) + (if edges[|edges| - 1].from == a then [edges[|edges| - 1]] else [])
  }

  lemma {:induction false} EdgesFromSplit(x: seq<Edge>, y: seq<Edge>, a: Agent)
    ensures EdgesFrom(x + y, a) == EdgesFrom(x, a) + EdgesFrom(y, a)
  {
    if y == [] {
      assert x + y == x;
    } else {
      assert (x + y)[..|x + y| - 1] == x + y[..|y| - 1];
      EdgesFromSplit(x, y[..|y| - 1], a);
    }
  }

  lemma {:induction false} OwnEdges(b: Agent, location: Route, n: nat, a: Agent)
    requires n <= |b.handoffs|
    ensures EdgesFrom(EdgesOf(b, location, n), a) == if a == b then EdgesOf(b, location, n) else []
  {
    if n > 0 {
      OwnEdges(b, location, n - 1, a);
      var all := EdgesOf(b, location, n);
      assert all[..n - 1] == EdgesOf(b, location, n - 1);
    }
  }

  lemma {:induction false} NoEdges(agents: seq<Agent>, locations: seq<Route>, n: nat, a: Agent)
    requires n <= |agents| == |locations| && a !in agents[..n]
    ensures EdgesFrom(AllEdges(agents, locations, n), a) == []
  {
    if n > 0 {
      var m := n - 1;
      assert agents[m] in agents[..n];
      assert forall b :: b in agents[..m] ==> b in agents[..n];
      NoEdges(agents, locations, m, a);
      EdgesFromSplit(AllEdges(agents, locations, m), EdgesOf(agents[m], locations[m], |agents[m].handoffs|), a);
      OwnEdges(agents[m], locations[m], |agents[m].handoffs|, a);
    }
  }
}
