/**
  Cloning the reachable agents and wiring handoffs between the clones
  (`OpenAIAgentsAdapter.prepare`): the clone graph is the source graph again, route by
  route, and nothing of the source can be reached from it.
 */
module HandoffClone {
  import opened Bags
  import opened HandoffGraph
  import opened HandoffGraphFacts
  import opened HandoffNames

  /** What preparation answers; `Unproven` is the error for an edge that slipped through preflight. */
  datatype Preparation = Prepared(runtimeAgent: Agent) | Unsupported | Unproven

  ghost predicate Injective(clones: map<Agent, Agent>) {
    forall a, b :: a in clones && b in clones && clones[a] == clones[b] ==> a == b
  }

  ghost function Clones(clones: map<Agent, Agent>): (r: set<Agent>) {
    set a | a in clones :: clones[a]
  }

  // ---------------------------------------------------------------------------
  // Pass one
  // ---------------------------------------------------------------------------

  /** The same tools, in order: each of the same name and contract. */
  ghost predicate SameTools(tools: seq<Tool>, originals: seq<Tool>) {
    |tools| == |originals|
    && forall i :: 0 <= i < |tools| ==> tools[i].name == originals[i].name && tools[i].contract == originals[i].contract
  }

  method SafeTools(agent: Agent) returns (tools: seq<Tool>)
    ensures SameTools(tools, agent.tools)
    ensures forall t :: t in tools ==> fresh(t)
  {
    tools := [];
    for i := 0 to |agent.tools|
      invariant SameTools(tools, agent.tools[..i])
      invariant forall t :: t in tools ==> fresh(t)
    {
      var safe := new Tool(agent.tools[i].name, agent.tools[i].contract);
      tools := tools + [safe];
    }
  }

  method CloneAgents(agents: seq<Agent>) returns (clones: map<Agent, Agent>)
    ensures forall a :: a in clones <==> a in agents
    ensures Injective(clones)
    ensures forall a :: a in clones ==>
      fresh(clones[a]) && clones[a].name == a.name && clones[a].handoffs == []
      && SameTools(clones[a].tools, a.tools) && forall t :: t in clones[a].tools ==> fresh(t)
  {
    clones := map[];
    for i := 0 to |agents|
      invariant forall a :: a in clones <==> a in agents[..i]
      invariant Injective(clones)
      invariant forall a :: a in clones ==>
        fresh(clones[a]) && clones[a].name == a.name && clones[a].handoffs == []
        && SameTools(clones[a].tools, a.tools) && forall t :: t in clones[a].tools ==> fresh(t)
    {
      var tools := SafeTools(agents[i]);
      var clone := new Agent(agents[i].name, tools, []);
      assert agents[..i + 1] == agents[..i] + [agents[i]];
      clones := clones[agents[i] := clone];
    }
    assert agents[..|agents|] == agents;
  }

  // ---------------------------------------------------------------------------
  // Pass two
  // ---------------------------------------------------------------------------

  /** The edge is proven and stays among the cloned agents. */
  predicate Wirable(clones: map<Agent, Agent>, e: Edge) {
    e.from in clones && e.entry.destination.Some? && e.entry.destination.value in clones && e.entry.toolName.Some?
  }

  /** The handoff that replaces the edge: same name, same effects, to the clone of the destination. */
  function Wire(clones: map<Agent, Agent>, e: Edge): (r: Entry)
    requires Wirable(clones, e)
  {
    Entry(Some(clones[e.entry.destination.value]), e.entry.toolName, e.entry.effects, [])
  }

  ghost function WireAll(clones: map<Agent, Agent>, edges: seq<Edge>): (r: seq<Entry>)
    requires AllWirable(clones, edges)
    ensures |r| == |edges|
    ensures forall k :: 0 <= k < |r| ==> r[k] == Wire(clones, edges[k])
  {
    seq(|edges|, k requires 0 <= k < |edges| => Wire(clones, edges[k]))
  }

  lemma {:induction false} EdgesFromMembers(edges: seq<Edge>, a: Agent)
    ensures forall e :: e in EdgesFrom(edges, a) ==> e in edges && e.from == a
  {
    if edges != [] { EdgesFromMembers(edges[..|edges| - 1], a); }
  }

  /** The handoffs of every clone are those of its original's edges so far. */
  ghost predicate Wired(clones: map<Agent, Agent>, edges: seq<Edge>)
    reads Clones(clones)
  {
    forall a :: a in clones ==>
      AllWirable(clones, EdgesFrom(edges, a)) && clones[a].handoffs == WireAll(clones, EdgesFrom(edges, a))
  }

  lemma {:induction false} EdgesFromPush(edges: seq<Edge>, e: Edge, a: Agent)
    ensures EdgesFrom(edges + [e], a) == EdgesFrom(edges, a) + if e.from == a then [e] else []
  {
    assert (edges + [e])[..|edges|] == edges;
  }

  ghost predicate AllWirable(clones: map<Agent, Agent>, edges: seq<Edge>) {
    forall e :: e in edges ==> Wirable(clones, e)
  }

  lemma {:induction false} WireAllPush(clones: map<Agent, Agent>, own: seq<Edge>, e: Edge)
    requires AllWirable(clones, own) && Wirable(clones, e)
    ensures AllWirable(clones, own + [e]) && WireAll(clones, own + [e]) == WireAll(clones, own) + [Wire(clones, e)]
  {
  }

  method WireOne(clones: map<Agent, Agent>, ghost edges: seq<Edge>, e: Edge)
    requires Injective(clones) && Wirable(clones, e) && AllWirable(clones, edges)
    requires Wired(clones, edges)
    modifies Clones(clones)`handoffs
    ensures AllWirable(clones, edges + [e]) && Wired(clones, edges + [e])
  {
    forall a | a in clones
      ensures EdgesFrom(edges + [e], a) == EdgesFrom(edges, a) + if e.from == a then [e] else []
    {
      EdgesFromPush(edges, e, a);
    }
    WireAllPush(clones, EdgesFrom(edges, e.from), e);
    var clone := clones[e.from];
    clone.handoffs := clone.handoffs + [Wire(clones, e)];
  }

  lemma {:induction false} WirablePrefix(clones: map<Agent, Agent>, edges: seq<Edge>, n: nat)
    requires AllWirable(clones, edges) && n < |edges|
    ensures AllWirable(clones, edges[..n]) && Wirable(clones, edges[n])
    ensures edges[..n + 1] == edges[..n] + [edges[n]]
  {
    assert edges[..n + 1] == edges[..n] + [edges[n]];
    assert edges[n] in edges;
  }

  method WireNext(clones: map<Agent, Agent>, edges: seq<Edge>, n: nat)
    requires Injective(clones) && AllWirable(clones, edges) && n < |edges|
    requires Wired(clones, edges[..n])
    modifies Clones(clones)`handoffs
    ensures Wired(clones, edges[..n + 1])
  {
    WirablePrefix(clones, edges, n);
    WireOne(clones, edges[..n], edges[n]);
  }

  method WireHandoffs(clones: map<Agent, Agent>, edges: seq<Edge>)
    requires Injective(clones) && AllWirable(clones, edges)
    requires forall a :: a in clones ==> clones[a].handoffs == []
    modifies Clones(clones)`handoffs
    ensures Wired(clones, edges)
  {
    NothingWired(clones, edges);
    for n := 0 to |edges|
      invariant Wired(clones, edges[..n])
    {
      WireNext(clones, edges, n);
    }
    assert edges[..|edges|] == edges;
  }

  lemma {:induction false} NothingWired(clones: map<Agent, Agent>, edges: seq<Edge>)
    requires forall a :: a in clones ==> clones[a].handoffs == []
    ensures Wired(clones, edges[..0])
  {
    assert edges[..0] == [];
  }

  // ---------------------------------------------------------------------------
  // The clone graph
  // ---------------------------------------------------------------------------

  /** `clone` repeats the handoffs of `a` position by position, between clones, and its tools by name. */
  ghost predicate Mirrors(clones: map<Agent, Agent>, a: Agent)
    requires a in clones
    reads a, clones[a]
  {
    var c := clones[a];
    && c.name == a.name && SameTools(c.tools, a.tools) && |c.handoffs| == |a.handoffs|
    && forall k :: 0 <= k < |a.handoffs| ==>
         && a.handoffs[k].destination.Some? && a.handoffs[k].destination.value in clones
         && c.handoffs[k].destination == Some(clones[a.handoffs[k].destination.value])
         && c.handoffs[k].toolName == a.handoffs[k].toolName && c.handoffs[k].effects == a.handoffs[k].effects
         && c.handoffs[k].issues == []
  }

  /** The two graphs are isomorphic: the clones of the reachable agents, and only they. */
  ghost predicate Isomorphic(u: set<Agent>, target: Agent, clones: map<Agent, Agent>)
    reads u, Clones(clones)
  {
    && target in u && Closed(u) && clones.Keys <= u
    && target in clones && Injective(clones)
    && (forall a :: a in clones ==> clones[a] in Clones(clones) && Mirrors(clones, a))
  }

  lemma {:induction false} ClonesClosed(u: set<Agent>, target: Agent, clones: map<Agent, Agent>)
    requires Isomorphic(u, target, clones)
    ensures Closed(Clones(clones)) && clones[target] in Clones(clones)
  {
  }

  /** A route leads to the clone of what it led to in the source, or nowhere in both. */
  lemma {:induction false} SameRoutes(u: set<Agent>, target: Agent, clones: map<Agent, Agent>, a: Agent, route: Route)
    requires Isomorphic(u, target, clones) && a in clones && Closed(Clones(clones))
    ensures Follow(u, a, route).Some? ==> Follow(u, a, route).value in clones
    ensures Follow(Clones(clones), clones[a], route)
         == if Follow(u, a, route).Some? then Some(clones[Follow(u, a, route).value]) else None
    decreases |route|
  {
    if route != [] && route[0] < |a.handoffs| {
      assert Mirrors(clones, a);
      SameRoutes(u, target, clones, a.handoffs[route[0]].destination.value, route[1..]);
    }
  }

  // ---------------------------------------------------------------------------
  // Preparation
  // ---------------------------------------------------------------------------

  lemma {:induction false} OwnEdgeAt(a: Agent, location: Route, n: nat, k: nat)
    requires k < n <= |a.handoffs|
    ensures EdgesOf(a, location, n)[k] == Edge(a, location + [k], a.handoffs[k])
  {
    if k < n - 1 { OwnEdgeAt(a, location, n - 1, k); }
  }

  lemma {:induction false} EdgeAt(agents: seq<Agent>, locations: seq<Route>, n: nat, i: nat, k: nat)
    requires i < n <= |agents| == |locations| && k < |agents[i].handoffs|
    ensures Edge(agents[i], locations[i] + [k], agents[i].handoffs[k]) in AllEdges(agents, locations, n)
  {
    var m := n - 1;
    if i < m {
      EdgeAt(agents, locations, m, i, k);
    } else {
      OwnEdgeAt(agents[m], locations[m], |agents[m].handoffs|, k);
      assert EdgesOf(agents[m], locations[m], |agents[m].handoffs|)[k] in EdgesOf(agents[m], locations[m], |agents[m].handoffs|);
    }
  }

  lemma {:induction false} EdgeSource(
    agents: seq<Agent>, locations: seq<Route>, n: nat, e: Edge
  ) returns (i: nat, k: nat)
    requires n <= |agents| == |locations| && e in AllEdges(agents, locations, n)
    ensures i < n && k < |agents[i].handoffs| && e.from == agents[i] && e.entry == agents[i].handoffs[k]
  {
    var m := n - 1;
    var last := EdgesOf(agents[m], locations[m], |agents[m].handoffs|);
    if e in last {
      i := m;
      k :| 0 <= k < |last| && last[k] == e;
      OwnEdgeAt(agents[m], locations[m], |agents[m].handoffs|, k);
    } else {
      i, k := EdgeSource(agents, locations, m, e);
    }
  }

  ghost predicate Trusted(a: Agent)
    reads a
  {
    forall k :: 0 <= k < |a.handoffs| ==> a.handoffs[k].issues == []
  }

  ghost predicate Proven(a: Agent)
    reads a
  {
    forall k :: 0 <= k < |a.handoffs| ==> a.handoffs[k].destination.Some? && a.handoffs[k].toolName.Some?
  }

  /**
    At most sixteen reachable agents, none of them with a problem or with a handoff that has
    an issue, and no name that could mean two things.
   */
  ghost predicate Supported(u: set<Agent>, target: Agent)
    requires target in u && Closed(u)
    reads u
  {
    |ReachableSet(u, target)| <= MAX_REACHABLE_AGENTS
    && AllTrusted(ReachableSet(u, target)) && Unambiguous(ReachableSet(u, target))
  }

  method AnyIssue(graph: Graph) returns (r: bool)
    ensures r <==> graph.issues != [] || !NoEdgeIssue(graph.edges)
  {
    r := graph.issues != [] || exists e :: e in graph.edges && e.entry.issues != [];
  }

  method AnyUnproven(edges: seq<Edge>) returns (r: bool)
    ensures r <==> !AllResolved(edges)
  {
    r := exists e :: e in edges && (e.entry.destination.None? || e.entry.toolName.None?);
  }

  lemma {:induction false} EntryHasEdge(u: set<Agent>, target: Agent, graph: Graph, a: Agent, k: nat) returns (e: Edge)
    requires Searched(u, target, graph) && graph.edges == AllEdges(graph.agents, graph.locations, |graph.agents|)
    requires graph.issues == [] && a in ReachableSet(u, target) && k < |a.handoffs|
    ensures e in graph.edges && e.from == a && e.entry == a.handoffs[k]
  {
    BoundExactly(u, target, graph);
    assert a in (set x | x in graph.agents);
    var i :| 0 <= i < |graph.agents| && graph.agents[i] == a;
    EdgeAt(graph.agents, graph.locations, |graph.agents|, i, k);
    e := Edge(graph.agents[i], graph.locations[i] + [k], graph.agents[i].handoffs[k]);
  }

  lemma {:induction false} EdgeHasEntry(u: set<Agent>, target: Agent, graph: Graph, e: Edge) returns (k: nat)
    requires Searched(u, target, graph) && graph.edges == AllEdges(graph.agents, graph.locations, |graph.agents|)
    requires e in graph.edges
    ensures e.from in ReachableSet(u, target) && k < |e.from.handoffs| && e.from.handoffs[k] == e.entry
  {
    BoundExactly(u, target, graph);
    var i;
    i, k := EdgeSource(graph.agents, graph.locations, |graph.agents|, e);
    assert graph.agents[i] in (set x | x in graph.agents);
  }

  ghost predicate NoEdgeIssue(edges: seq<Edge>) {
    forall e :: e in edges ==> e.entry.issues == []
  }

  ghost predicate AllResolved(edges: seq<Edge>) {
    forall e :: e in edges ==> e.entry.destination.Some? && e.entry.toolName.Some?
  }

  ghost predicate AllTrusted(agents: set<Agent>)
    reads agents
  {
    forall a :: a in agents ==> Trusted(a)
  }

  ghost predicate AllProven(agents: set<Agent>)
    reads agents
  {
    forall a :: a in agents ==> Proven(a)
  }

  /** The issues found along the edges are those of the reachable agents. */
  lemma {:induction false} IssuesExactly(u: set<Agent>, target: Agent, graph: Graph)
    requires Searched(u, target, graph) && graph.edges == AllEdges(graph.agents, graph.locations, |graph.agents|)
    requires graph.issues == []
    ensures NoEdgeIssue(graph.edges) <==> AllTrusted(ReachableSet(u, target))
    ensures AllResolved(graph.edges) <==> AllProven(ReachableSet(u, target))
  {
    var agents := ReachableSet(u, target);
    forall a, k | a in agents && 0 <= k < |a.handoffs|
      ensures NoEdgeIssue(graph.edges) ==> a.handoffs[k].issues == []
      ensures AllResolved(graph.edges) ==> a.handoffs[k].destination.Some? && a.handoffs[k].toolName.Some?
    {
      var e := EntryHasEdge(u, target, graph, a, k);
    }
    forall e | e in graph.edges
      ensures AllTrusted(agents) ==> e.entry.issues == []
      ensures AllProven(agents) ==> e.entry.destination.Some? && e.entry.toolName.Some?
    {
      var k := EdgeHasEntry(u, target, graph, e);
      assert e.from in agents;
    }
  }

  ghost predicate SameFace(clones: map<Agent, Agent>) {
    forall a :: a in clones ==> clones[a] in Clones(clones) && clones[a].name == a.name && SameTools(clones[a].tools, a.tools)
  }

  lemma {:induction false} WholeGraph(u: set<Agent>, target: Agent, graph: Graph, clones: map<Agent, Agent>)
    requires Searched(u, target, graph) && graph.edges == AllEdges(graph.agents, graph.locations, |graph.agents|)
    requires graph.issues == [] && Injective(clones) && SameFace(clones)
    requires forall x :: x in clones <==> x in graph.agents
    requires AllWirable(clones, graph.edges)
    requires Wired(clones, graph.edges)
    ensures clones.Keys == ReachableSet(u, target) && Isomorphic(u, target, clones)
  {
    BoundExactly(u, target, graph);
    assert clones.Keys == set a | a in graph.agents;
    assert graph.agents[0] == target;
    forall a | a in clones ensures Mirrors(clones, a) {
      MirrorAgent(u, target, graph, clones, a);
    }
  }

  lemma {:induction false} PreflightExactly(u: set<Agent>, target: Agent, graph: Graph)
    requires Searched(u, target, graph) && graph.edges == AllEdges(graph.agents, graph.locations, |graph.agents|)
    ensures Supported(u, target)
       <==> graph.issues == [] && NoEdgeIssue(graph.edges) && Unambiguous(Members(graph.agents))
    ensures graph.issues == [] ==> (AllResolved(graph.edges) <==> AllProven(ReachableSet(u, target)))
  {
    BoundExactly(u, target, graph);
    if graph.issues == [] {
      IssuesExactly(u, target, graph);
      assert Members(graph.agents) == ReachableSet(u, target);
    }
  }

  /** Whether a searched graph has an issue, of itself, of an edge, of an agent or of names. */
  method FindsNothing(graph: Graph) returns (clear: bool)
    requires Distinct(graph.agents)
    ensures clear <==> graph.issues == [] && NoEdgeIssue(graph.edges) && Unambiguous(Members(graph.agents))
  {
    var refused := AnyIssue(graph);
    if refused { return false; }
    clear := CheckNames(graph.agents);
  }

  /** `preflight`: supported exactly when no check finds an issue. */
  method Preflight(target: Agent, ghost u: set<Agent>) returns (supported: bool)
    requires target in u && Closed(u)
    ensures supported <==> Supported(u, target)
  {
    var graph := ReachableGraph(target, u);
    PreflightExactly(u, target, graph);
    supported := FindsNothing(graph);
  }

  lemma {:induction false} EdgesWirable(u: set<Agent>, target: Agent, graph: Graph, clones: map<Agent, Agent>)
    requires Searched(u, target, graph) && graph.edges == AllEdges(graph.agents, graph.locations, |graph.agents|)
    requires graph.issues == [] && AllResolved(graph.edges) && forall a :: a in clones <==> a in graph.agents
    ensures AllWirable(clones, graph.edges)
  {
    forall e | e in graph.edges ensures Wirable(clones, e) { EdgeStays(u, target, graph, e); }
  }

  /** Both passes over a complete search. */
  method BuildClones(target: Agent, ghost u: set<Agent>, graph: Graph) returns (clones: map<Agent, Agent>)
    requires Searched(u, target, graph) && graph.edges == AllEdges(graph.agents, graph.locations, |graph.agents|)
    requires graph.issues == [] && AllResolved(graph.edges)
    ensures clones.Keys == ReachableSet(u, target) && Isomorphic(u, target, clones)
    ensures forall a :: a in clones ==> fresh(clones[a]) && forall t :: t in clones[a].tools ==> fresh(t)
  {
    clones := CloneAgents(graph.agents);
    EdgesWirable(u, target, graph, clones);
    WireHandoffs(clones, graph.edges);
    WholeGraph(u, target, graph, clones);
  }

  // ---------------------------------------------------------------------------
  // Attribution
  // ---------------------------------------------------------------------------

  /** Where a handoff leads, by the names of the agent and of the handoff. */
  type Targets = map<(string, string), string>

  function KeyOf(e: Edge): (k: (string, string))
    requires e.entry.toolName.Some?
  {
    (e.from.name, e.entry.toolName.value)
  }

  /** Every edge is found under its names. */
  ghost predicate Attributed(edges: seq<Edge>, targets: Targets) {
    forall e :: e in edges ==>
      e.entry.toolName.Some? && e.entry.destination.Some?
      && KeyOf(e) in targets && targets[KeyOf(e)] == e.entry.destination.value.name
  }

  /** Edges with the same names are the same handoff. */
  ghost predicate KeysApart(edges: seq<Edge>) {
    forall e, f :: e in edges && f in edges && e.entry.toolName.Some? && f.entry.toolName.Some? && KeyOf(e) == KeyOf(f) ==>
      e.entry == f.entry
  }

  /** In a graph that preflight lets pass, names identify handoffs. */
  lemma {:induction false} NamesIdentify(u: set<Agent>, target: Agent, graph: Graph)
    requires Searched(u, target, graph) && graph.edges == AllEdges(graph.agents, graph.locations, |graph.agents|)
    requires Unambiguous(Members(graph.agents))
    ensures KeysApart(graph.edges)
  {
    forall e, f | e in graph.edges && f in graph.edges && e.entry.toolName.Some? && f.entry.toolName.Some? && KeyOf(e) == KeyOf(f)
      ensures e.entry == f.entry
    {
      SameHandoff(graph, e, f);
    }
  }

  lemma {:induction false} SameHandoff(graph: Graph, e: Edge, f: Edge)
    requires |graph.agents| == |graph.locations| && graph.edges == AllEdges(graph.agents, graph.locations, |graph.agents|)
    requires Unambiguous(Members(graph.agents)) && e in graph.edges && f in graph.edges
    requires e.entry.toolName.Some? && f.entry.toolName.Some? && KeyOf(e) == KeyOf(f)
    ensures e.entry == f.entry
  {
    var i, k := EdgeSource(graph.agents, graph.locations, |graph.agents|, e);
    var j, l := EdgeSource(graph.agents, graph.locations, |graph.agents|, f);
    assert graph.agents[i] in Members(graph.agents) && graph.agents[j] in Members(graph.agents);
    assert e.from == f.from;
    assert DistinctHandoffs(e.from);
  }

  /** `handoff_targets`: one entry for each edge, the last one under a name. */
  method RecordTargets(edges: seq<Edge>) returns (targets: Targets)
    requires AllResolved(edges) && KeysApart(edges)
    ensures Attributed(edges, targets)
  {
    targets := map[];
    for n := 0 to |edges|
      invariant Attributed(edges[..n], targets)
    {
      var e := edges[n];
      AttributedPush(edges, n, targets);
      targets := targets[(e.from.name, e.entry.toolName.value) := e.entry.destination.value.name];
    }
    assert edges[..|edges|] == edges;
  }

  lemma {:induction false} AttributedPush(edges: seq<Edge>, n: nat, targets: Targets)
    requires n < |edges| && AllResolved(edges) && KeysApart(edges) && Attributed(edges[..n], targets)
    ensures edges[n].entry.toolName.Some? && edges[n].entry.destination.Some?
    ensures Attributed(edges[..n + 1], targets[KeyOf(edges[n]) := edges[n].entry.destination.value.name])
  {
    assert edges[n] in edges;
    assert edges[..n + 1] == edges[..n] + [edges[n]];
    forall e | e in edges[..n + 1] ensures e in edges {}
  }

  ghost predicate HasEdge(edges: seq<Edge>, a: Agent, entry: Entry) {
    exists e :: e in edges && e.from == a && e.entry == entry
  }

  /** Every handoff of the agents is among the edges. */
  ghost predicate AllListed(agents: set<Agent>, edges: seq<Edge>)
    reads agents
  {
    forall a, k :: a in agents && 0 <= k < |a.handoffs| ==> HasEdge(edges, a, a.handoffs[k])
  }

  lemma {:induction false} AllHandoffsListed(u: set<Agent>, target: Agent, graph: Graph)
    requires Searched(u, target, graph) && graph.edges == AllEdges(graph.agents, graph.locations, |graph.agents|)
    requires graph.issues == []
    ensures AllListed(ReachableSet(u, target), graph.edges)
  {
    forall a, k | a in ReachableSet(u, target) && 0 <= k < |a.handoffs| ensures HasEdge(graph.edges, a, a.handoffs[k]) {
      var e := EntryHasEdge(u, target, graph, a, k);
    }
  }

  method Attribute(target: Agent, ghost u: set<Agent>, graph: Graph) returns (targets: Targets)
    requires Searched(u, target, graph) && graph.edges == AllEdges(graph.agents, graph.locations, |graph.agents|)
    requires graph.issues == [] && AllResolved(graph.edges) && Unambiguous(Members(graph.agents))
    ensures AllListed(ReachableSet(u, target), graph.edges) && Attributed(graph.edges, targets) && KeysApart(graph.edges)
  {
    NamesIdentify(u, target, graph);
    AllHandoffsListed(u, target, graph);
    targets := RecordTargets(graph.edges);
  }

  // ---------------------------------------------------------------------------
  // The whole
  // ---------------------------------------------------------------------------

  /**
    What is prepared: clones of exactly the reachable agents, apart from the source graph and
    isomorphic to it, and a table in which every handoff is found under its names.
   */
  ghost predicate Ready(u: set<Agent>, target: Agent, clones: map<Agent, Agent>, edges: seq<Edge>, targets: Targets)
    requires target in u && Closed(u)
    reads u, Clones(clones)
  {
    && clones.Keys == ReachableSet(u, target) && Isomorphic(u, target, clones)
    && Clones(clones) !! u && Closed(Clones(clones))
    && AllListed(ReachableSet(u, target), edges) && Attributed(edges, targets) && KeysApart(edges)
  }

  /** The rest of `prepare` for a graph without issues. */
  method Assemble(target: Agent, ghost u: set<Agent>, graph: Graph) returns (clones: map<Agent, Agent>, targets: Targets)
    requires Searched(u, target, graph) && graph.edges == AllEdges(graph.agents, graph.locations, |graph.agents|)
    requires graph.issues == [] && AllResolved(graph.edges) && Unambiguous(Members(graph.agents))
    ensures Ready(u, target, clones, graph.edges, targets)
    ensures forall a :: a in clones ==> fresh(clones[a]) && forall t :: t in clones[a].tools ==> fresh(t)
  {
    targets := Attribute(target, u, graph);
    clones := BuildClones(target, u, graph);
    ClonesClosed(u, target, clones);
  }

  /** The passes of `prepare` over a supported graph; an edge left unproven is an error. */
  method PrepareSupported(target: Agent, ghost u: set<Agent>)
    returns (r: Preparation, targets: Targets, ghost clones: map<Agent, Agent>, ghost edges: seq<Edge>)
    requires target in u && Closed(u) && Supported(u, target)
    ensures !r.Unsupported? && (r.Prepared? <==> AllProven(ReachableSet(u, target)))
    ensures r.Prepared? ==> Ready(u, target, clones, edges, targets)
    ensures r.Prepared? ==> target in clones && r.runtimeAgent == clones[target]
    ensures r.Prepared? ==> forall a :: a in clones ==> fresh(clones[a]) && forall t :: t in clones[a].tools ==> fresh(t)
  {
    clones, targets := map[], map[];
    var graph := ReachableGraph(target, u);
    PreflightExactly(u, target, graph);
    edges := graph.edges;
    var unproven := AnyUnproven(graph.edges);
    if unproven { return Unproven, targets, clones, edges; }
    var table;
    table, targets := Assemble(target, u, graph);
    clones := table;
    r := Prepared(table[target]);
  }

  /**
    `prepare`: refused exactly when the reachable graph has more than sixteen agents, a
    problem of an agent, an untrusted handoff or an ambiguous name; otherwise a fresh graph
    isomorphic to the reachable source graph, in which the names of an agent and of one of
    its handoffs tell where the handoff leads.
   */
  method Prepare(target: Agent, ghost u: set<Agent>)
    returns (r: Preparation, targets: Targets, ghost clones: map<Agent, Agent>, ghost edges: seq<Edge>)
    requires target in u && Closed(u)
    ensures r.Unsupported? <==> !Supported(u, target)
    ensures r.Prepared? <==> Supported(u, target) && AllProven(ReachableSet(u, target))
    ensures r.Prepared? ==> Ready(u, target, clones, edges, targets)
    ensures r.Prepared? ==> target in clones && r.runtimeAgent == clones[target]
    ensures r.Prepared? ==> forall a :: a in clones ==> fresh(clones[a]) && forall t :: t in clones[a].tools ==> fresh(t)
  {
    var supported := Preflight(target, u);
    if supported {
      r, targets, clones, edges := PrepareSupported(target, u);
    } else {
      r, targets, clones, edges := Unsupported, map[], map[], [];
    }
  }

  /** A resolved edge of a complete search leads from a listed agent to a listed agent. */
  lemma {:induction false} EdgeStays(u: set<Agent>, target: Agent, graph: Graph, e: Edge)
    requires Searched(u, target, graph) && graph.edges == AllEdges(graph.agents, graph.locations, |graph.agents|)
    requires graph.issues == [] && e in graph.edges
    ensures e.from in graph.agents && (e.entry.destination.Some? ==> e.entry.destination.value in graph.agents)
  {
    var i, k := EdgeSource(graph.agents, graph.locations, |graph.agents|, e);
    assert Complete(graph.agents, i, |graph.agents[i].handoffs|);
  }

  /** The `k`-th edge that leaves a listed agent is its `k`-th handoff. */
  lemma {:induction false} OwnEdge(u: set<Agent>, target: Agent, graph: Graph, a: Agent)
    requires Searched(u, target, graph) && graph.edges == AllEdges(graph.agents, graph.locations, |graph.agents|)
    requires a in graph.agents
    ensures |EdgesFrom(graph.edges, a)| == |a.handoffs|
    ensures forall k :: 0 <= k < |a.handoffs| ==> EdgesFrom(graph.edges, a)[k].entry == a.handoffs[k]
  {
    var i :| 0 <= i < |graph.agents| && graph.agents[i] == a;
    EachEntryOnce(graph.agents, graph.locations, |graph.agents|, i);
    forall k | 0 <= k < |a.handoffs| ensures EdgesFrom(graph.edges, a)[k].entry == a.handoffs[k] {
      OwnEdgeAt(a, graph.locations[i], |a.handoffs|, k);
    }
  }

  lemma {:induction false} MirrorAgent(u: set<Agent>, target: Agent, graph: Graph, clones: map<Agent, Agent>, a: Agent)
    requires Searched(u, target, graph) && graph.edges == AllEdges(graph.agents, graph.locations, |graph.agents|)
    requires forall x :: x in clones <==> x in graph.agents
    requires AllWirable(clones, graph.edges)
    requires a in clones && Wired(clones, graph.edges)
    requires clones[a].name == a.name && SameTools(clones[a].tools, a.tools)
    ensures Mirrors(clones, a)
  {
    OwnEdge(u, target, graph, a);
    MirrorOwn(clones, EdgesFrom(graph.edges, a), a);
  }

  lemma {:induction false} MirrorOwn(clones: map<Agent, Agent>, own: seq<Edge>, a: Agent)
    requires |own| == |a.handoffs| && forall k :: 0 <= k < |own| ==> own[k].entry == a.handoffs[k]
    requires AllWirable(clones, own)
    requires a in clones && clones[a].handoffs == WireAll(clones, own)
    requires clones[a].name == a.name && SameTools(clones[a].tools, a.tools)
    ensures Mirrors(clones, a)
  {
    forall k | 0 <= k < |own| ensures Wirable(clones, own[k]) && clones[a].handoffs[k] == Wire(clones, own[k]) {
      assert own[k] in own;
    }
  }

  /** Nothing reachable from the runtime agent belongs to the source graph. */
  lemma {:induction false} NothingOriginalReachable(
    u: set<Agent>, target: Agent, clones: map<Agent, Agent>, route: Route
  )
    requires Isomorphic(u, target, clones) && Closed(Clones(clones))
    requires Clones(clones) !! u && Follow(Clones(clones), clones[target], route).Some?
    ensures Follow(Clones(clones), clones[target], route).value !in u
    ensures exists a :: a in clones && Reachable(u, target, a) && Follow(Clones(clones), clones[target], route).value == clones[a]
  {
    SameRoutes(u, target, clones, target, route);
  }
}
