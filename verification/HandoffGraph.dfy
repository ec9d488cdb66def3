/**
  The graph of agents reachable through handoffs (agentcheck/adapters/openai_agents.py):
  a bounded breadth-first search over a possibly cyclic object graph.
 */
module HandoffGraph {
  import opened Bags
  import opened Json

  /** How many agents the search lists at most. */
  const MAX_REACHABLE_AGENTS: nat := 16

  /** A function tool; the contract is the digest of its name, description and schemas. */
  class Tool {
    const name: string
    const contract: string

    constructor (name: string, contract: string)
      ensures this.name == name && this.contract == contract
    {
      this.name := name;
      this.contract := contract;
    }
  }

  /**
    One entry of an agent's `handoffs`, already introspected: where it leads when that
    is proven, its tool name, its proven context effects and the reasons not to trust it.
   */
  datatype Entry = Entry(destination: Option<Agent>, toolName: Option<string>, effects: seq<Field>, issues: seq<string>)

  /** An agent, with what the checks of a single agent find wrong with it. */
  class Agent {
    const name: string
    const tools: seq<Tool>
    const problems: seq<string>
    var handoffs: seq<Entry>

    constructor (name: string, tools: seq<Tool>, problems: seq<string>)
      ensures this.name == name && this.tools == tools && this.problems == problems && handoffs == []
    {
      this.name := name;
      this.tools := tools;
      this.problems := problems;
      this.handoffs := [];
    }
  }

  /** Positions in successive handoff lists: where an agent was found, `agent.handoffs[2].agent…`. */
  type Route = seq<nat>

  datatype Edge = Edge(from: Agent, location: Route, entry: Entry)

  datatype GraphIssue = GraphTooLarge(location: Route)

  datatype Graph = Graph(agents: seq<Agent>, locations: seq<Route>, edges: seq<Edge>, issues: seq<GraphIssue>)

  /** Every destination of an agent of `u` is in `u`. */
  ghost predicate Closed(u: set<Agent>)
    reads u
  {
    forall a, k :: a in u && 0 <= k < |a.handoffs| && a.handoffs[k].destination.Some? ==>
      a.handoffs[k].destination.value in u
  }

  /** Where a route leads, if every handoff on it is resolved. */
  ghost function Follow(u: set<Agent>, a: Agent, route: Route): (r: Option<Agent>)
    requires a in u && Closed(u)
    reads u
    ensures r.Some? ==> r.value in u
    decreases |route|
  {
    if route == [] then Some(a)
    else if route[0] < |a.handoffs| && a.handoffs[route[0]].destination.Some?
    then Follow(u, a.handoffs[route[0]].destination.value, route[1..])
    else None
  }

  lemma {:induction false} FollowOne(u: set<Agent>, a: Agent, route: Route, k: nat)
    requires a in u && Closed(u) && Follow(u, a, route).Some?
    ensures Follow(u, a, route + [k])
         == var b := Follow(u, a, route).value;
            if k < |b.handoffs| && b.handoffs[k].destination.Some? then Some(b.handoffs[k].destination.value) else None
    decreases |route|
  {
    if route == [] {
      assert route + [k] == [k];
      assert [k][1..] == [];
    } else {
      assert (route + [k])[1..] == route[1..] + [k];
      FollowOne(u, a.handoffs[route[0]].destination.value, route[1..], k);
    }
  }

  /** A route that leads somewhere has a prefix that leads somewhere. */
  lemma {:induction false} FollowPrefix(u: set<Agent>, a: Agent, route: Route)
    requires a in u && Closed(u) && route != [] && Follow(u, a, route).Some?
    ensures Follow(u, a, route[..|route| - 1]).Some?
    ensures var b := Follow(u, a, route[..|route| - 1]).value; var k := route[|route| - 1];
            k < |b.handoffs| && b.handoffs[k].destination == Follow(u, a, route)
    decreases |route|
  {
    if |route| == 1 {
      assert route[..0] == [] && route[1..] == [];
    } else {
      FollowPrefix(u, a.handoffs[route[0]].destination.value, route[1..]);
      assert route[..|route| - 1][1..] == route[1..][..|route| - 2];
    }
  }

  // ---------------------------------------------------------------------------
  // The edges of the listed agents
  // ---------------------------------------------------------------------------

  ghost function EdgesOf(a: Agent, location: Route, n: nat): (r: seq<Edge>)
    requires n <= |a.handoffs|
    reads a
    ensures |r| == n
  {
    if n == 0 then [] else EdgesOf(a, location, n - 1) + [Edge(a, location + [n - 1], a.handoffs[n - 1])]
  }

  /** Every entry of the first `n` listed agents, agent by agent, in order. */
  ghost function AllEdges(agents: seq<Agent>, locations: seq<Route>, n: nat): (r: seq<Edge>)
    requires n <= |agents| == |locations|
    reads agents
  {
    if n == 0 then []
    else AllEdges(agents, locations, n - 1) + EdgesOf(agents[n - 1], locations[n - 1], |agents[n - 1].handoffs|)
  }

  // ---------------------------------------------------------------------------
  // The search
  // ---------------------------------------------------------------------------

  /** Distinct agents, each found where its location says, nearer ones first. */
  ghost predicate Listing(u: set<Agent>, target: Agent, agents: seq<Agent>, locations: seq<Route>)
    reads u
  {
    && target in u && Closed(u)
    && 1 <= |agents| == |locations| <= MAX_REACHABLE_AGENTS
    && agents[0] == target && locations[0] == []
    && Distinct(agents)
    && (forall i :: 0 <= i < |agents| ==> agents[i] in u && Follow(u, target, locations[i]) == Some(agents[i]))
    && (forall i, j :: 0 <= i < j < |agents| ==> |locations[i]| <= |locations[j]|)
  }

  /** The destination is listed no farther than `level`, or it was refused by a full list no deeper than that. */
  ghost predicate Handled(agents: seq<Agent>, locations: seq<Route>, destination: Option<Agent>, level: nat)
    requires |agents| == |locations|
  {
    destination.None?
    || (exists j :: 0 <= j < |agents| && agents[j] == destination.value && |locations[j]| <= level)
    || (destination.value !in agents && |agents| == MAX_REACHABLE_AGENTS
        && forall j :: 0 <= j < |agents| ==> |locations[j]| <= level)
  }

  /** The first `n` entries of agent `i` are handled. */
  ghost predicate Scanned(agents: seq<Agent>, locations: seq<Route>, i: nat, n: nat)
    requires i < |agents| == |locations| && n <= |agents[i].handoffs|
    reads agents
  {
    forall k :: 0 <= k < n ==> Handled(agents, locations, agents[i].handoffs[k].destination, |locations[i]| + 1)
  }

  /** No issue while everything found fits; one issue, at a handoff that leads to an unlisted agent, otherwise. */
  ghost predicate Overflow(u: set<Agent>, target: Agent, agents: seq<Agent>, issues: seq<GraphIssue>)
    requires target in u && Closed(u)
    reads u
  {
    && |issues| <= 1
    && (issues != [] ==> |agents| == MAX_REACHABLE_AGENTS)
    && (issues != [] ==> Follow(u, target, issues[0].location).Some? && Follow(u, target, issues[0].location).value !in agents)
  }

  /** While there is no issue, every scanned destination is listed. */
  ghost predicate Complete(agents: seq<Agent>, i: nat, n: nat)
    requires i < |agents| && n <= |agents[i].handoffs|
    reads agents
  {
    forall k :: 0 <= k < n && agents[i].handoffs[k].destination.Some? ==> agents[i].handoffs[k].destination.value in agents
  }

  /** Adding a new, not nearer agent keeps everything that was established. */
  lemma {:induction false} Grow(
    u: set<Agent>, target: Agent, agents: seq<Agent>, locations: seq<Route>, x: Agent, location: Route
  )
    requires Listing(u, target, agents, locations) && |agents| < MAX_REACHABLE_AGENTS
    requires x !in agents && Follow(u, target, location) == Some(x)
    requires forall j :: 0 <= j < |locations| ==> |locations[j]| <= |location|
    ensures Listing(u, target, agents + [x], locations + [location])
  {
  }

  lemma {:induction false} HandledKept(
    agents: seq<Agent>, locations: seq<Route>, d: Option<Agent>, level: nat, x: Agent, location: Route
  )
    requires |agents| == |locations| < MAX_REACHABLE_AGENTS && Handled(agents, locations, d, level)
    ensures Handled(agents + [x], locations + [location], d, level)
  {
    if d.Some? {
      var j :| 0 <= j < |agents| && agents[j] == d.value && |locations[j]| <= level;
      assert (agents + [x])[j] == d.value && (locations + [location])[j] == locations[j];
    }
  }

  lemma {:induction false} ScannedKept(
    agents: seq<Agent>, locations: seq<Route>, i: nat, n: nat, x: Agent, location: Route
  )
    requires i < |agents| == |locations| < MAX_REACHABLE_AGENTS && n <= |agents[i].handoffs|
    requires Scanned(agents, locations, i, n)
    ensures Scanned(agents + [x], locations + [location], i, n)
    ensures Complete(agents, i, n) ==> Complete(agents + [x], i, n)
  {
    forall k | 0 <= k < n
      ensures Handled(agents + [x], locations + [location], agents[i].handoffs[k].destination, |locations[i]| + 1)
    {
      HandledKept(agents, locations, agents[i].handoffs[k].destination, |locations[i]| + 1, x, location);
    }
  }

  /** What holds between two agents of the queue: those before `index` are fully scanned. */
  ghost predicate Progress(
    u: set<Agent>, target: Agent, agents: seq<Agent>, locations: seq<Route>, issues: seq<GraphIssue>, index: nat
  )
    reads u
  {
    && Listing(u, target, agents, locations) && index <= |agents|
    && Overflow(u, target, agents, issues)
    && (forall i :: 0 <= i < index ==> Scanned(agents, locations, i, |agents[i].handoffs|))
    && (issues == [] ==> forall i :: 0 <= i < index ==> Complete(agents, i, |agents[i].handoffs|))
  }

  /** And inside the scan of agent `index`, up to position `n`; nothing found lies deeper than its neighbours. */
  ghost predicate Scanning(
    u: set<Agent>, target: Agent, agents: seq<Agent>, locations: seq<Route>, issues: seq<GraphIssue>, index: nat, n: nat
  )
    reads u
  {
    && Progress(u, target, agents, locations, issues, index)
    && index < |agents| && n <= |agents[index].handoffs|
    && Scanned(agents, locations, index, n)
    && (issues == [] ==> Complete(agents, index, n))
    && (forall j :: 0 <= j < |locations| ==> |locations[j]| <= |locations[index]| + 1)
  }

  lemma {:induction false} AddAgent(
    u: set<Agent>, target: Agent, agents: seq<Agent>, locations: seq<Route>, issues: seq<GraphIssue>, index: nat, n: nat
  )
    requires Scanning(u, target, agents, locations, issues, index, n) && n < |agents[index].handoffs|
    requires agents[index].handoffs[n].destination.Some? && agents[index].handoffs[n].destination.value !in agents
    requires |agents| < MAX_REACHABLE_AGENTS
    ensures Scanning(u, target, agents + [agents[index].handoffs[n].destination.value],
                     locations + [locations[index] + [n]], issues, index, n + 1)
  {
    var x := agents[index].handoffs[n].destination.value;
    var location := locations[index] + [n];
    FollowOne(u, target, locations[index], n);
    Grow(u, target, agents, locations, x, location);
    forall i | 0 <= i < index
      ensures Scanned(agents + [x], locations + [location], i, |agents[i].handoffs|)
      ensures issues == [] ==> Complete(agents + [x], i, |agents[i].handoffs|)
    {
      ScannedKept(agents, locations, i, |agents[i].handoffs|, x, location);
    }
    ScannedKept(agents, locations, index, n, x, location);
    assert (agents + [x])[|agents|] == x && |(locations + [location])[|agents|]| <= |locations[index]| + 1;
    assert Handled(agents + [x], locations + [location], Some(x), |locations[index]| + 1);
  }

  lemma {:induction false} SkipEntry(
    u: set<Agent>, target: Agent, agents: seq<Agent>, locations: seq<Route>, issues: seq<GraphIssue>, index: nat, n: nat
  )
    requires Scanning(u, target, agents, locations, issues, index, n) && n < |agents[index].handoffs|
    requires agents[index].handoffs[n].destination.None? || agents[index].handoffs[n].destination.value in agents
    ensures Scanning(u, target, agents, locations, issues, index, n + 1)
  {
    var d := agents[index].handoffs[n].destination;
    if d.Some? {
      var j :| 0 <= j < |agents| && agents[j] == d.value;
      assert Handled(agents, locations, d, |locations[index]| + 1);
    }
  }

  lemma {:induction false} RefuseEntry(
    u: set<Agent>, target: Agent, agents: seq<Agent>, locations: seq<Route>, issues: seq<GraphIssue>, index: nat, n: nat,
    issues': seq<GraphIssue>
  )
    requires Scanning(u, target, agents, locations, issues, index, n) && n < |agents[index].handoffs|
    requires agents[index].handoffs[n].destination.Some? && agents[index].handoffs[n].destination.value !in agents
    requires |agents| == MAX_REACHABLE_AGENTS
    requires issues' == if issues == [] then [GraphTooLarge(locations[index] + [n])] else issues
    ensures Scanning(u, target, agents, locations, issues', index, n + 1)
  {
    FollowOne(u, target, locations[index], n);
    assert Handled(agents, locations, agents[index].handoffs[n].destination, |locations[index]| + 1);
  }

  /** One handoff entry: its destination is known, refused by a full list, or listed. */
  method ScanEntry(
    target: Agent, ghost u: set<Agent>, index: nat, n: nat, agents: seq<Agent>, locations: seq<Route>,
    visited: set<Agent>, issues: seq<GraphIssue>
  ) returns (agents': seq<Agent>, locations': seq<Route>, visited': set<Agent>, issues': seq<GraphIssue>)
    requires Scanning(u, target, agents, locations, issues, index, n) && n < |agents[index].handoffs|
    requires forall a :: a in visited <==> a in agents
    ensures agents <= agents' && locations <= locations'
    ensures Scanning(u, target, agents', locations', issues', index, n + 1)
    ensures forall a :: a in visited' <==> a in agents'
  {
    var entry := agents[index].handoffs[n];
    agents', locations', visited', issues' := agents, locations, visited, issues;
    if entry.destination.None? || entry.destination.value in visited {
      SkipEntry(u, target, agents, locations, issues, index, n);
    } else if |agents| >= MAX_REACHABLE_AGENTS {
      if issues == [] {
        issues' := [GraphTooLarge(locations[index] + [n])];
      }
      RefuseEntry(u, target, agents, locations, issues, index, n, issues');
    } else {
      AddAgent(u, target, agents, locations, issues, index, n);
      visited' := visited + {entry.destination.value};
      agents' := agents + [entry.destination.value];
      locations' := locations + [locations[index] + [n]];
    }
  }

  /** The inner pass: every handoff entry of one listed agent. */
  method ScanEntries(
    target: Agent, ghost u: set<Agent>, index: nat,
    agents: seq<Agent>, locations: seq<Route>, visited: set<Agent>, issues: seq<GraphIssue>
  ) returns (agents': seq<Agent>, locations': seq<Route>, visited': set<Agent>, issues': seq<GraphIssue>, found: seq<Edge>)
    requires Scanning(u, target, agents, locations, issues, index, 0)
    requires forall a :: a in visited <==> a in agents
    ensures agents <= agents' && locations <= locations'
    ensures Scanning(u, target, agents', locations', issues', index, |agents[index].handoffs|)
    ensures forall a :: a in visited' <==> a in agents'
    ensures found == EdgesOf(agents[index], locations[index], |agents[index].handoffs|)
  {
    agents', locations', visited', issues', found := agents, locations, visited, issues, [];
    for position := 0 to |agents[index].handoffs|
      invariant agents <= agents' && locations <= locations'
      invariant Scanning(u, target, agents', locations', issues', index, position)
      invariant forall a :: a in visited' <==> a in agents'
      invariant found == EdgesOf(agents[index], locations[index], position)
    {
      found := found + [Edge(agents[index], locations[index] + [position], agents[index].handoffs[position])];
      agents', locations', visited', issues' :=
        ScanEntry(target, u, index, position, agents', locations', visited', issues');
    }
  }

  lemma {:induction false} NextAgent(
    u: set<Agent>, target: Agent, agents: seq<Agent>, locations: seq<Route>, issues: seq<GraphIssue>, index: nat
  )
    requires index < |agents| && Scanning(u, target, agents, locations, issues, index, |agents[index].handoffs|)
    ensures Progress(u, target, agents, locations, issues, index + 1)
    ensures index + 1 < |agents| ==> Scanning(u, target, agents, locations, issues, index + 1, 0)
  {
  }

  /** What the outer loop keeps: the edges are those of the agents before `index`. */
  ghost predicate Searching(
    u: set<Agent>, target: Agent, agents: seq<Agent>, locations: seq<Route>, visited: set<Agent>,
    issues: seq<GraphIssue>, edges: seq<Edge>, index: nat
  )
    reads u
  {
    && Progress(u, target, agents, locations, issues, index)
    && (index < |agents| ==> Scanning(u, target, agents, locations, issues, index, 0))
    && visited == (set a | a in agents)
    && edges == AllEdges(agents, locations, index)
  }

  /** One listed agent: its entries are scanned and their edges appended. */
  method ScanAgent(
    target: Agent, ghost u: set<Agent>, index: nat,
    agents: seq<Agent>, locations: seq<Route>, visited: set<Agent>, issues: seq<GraphIssue>, edges: seq<Edge>
  ) returns (agents': seq<Agent>, locations': seq<Route>, visited': set<Agent>, issues': seq<GraphIssue>, edges': seq<Edge>)
    requires index < |agents| && Searching(u, target, agents, locations, visited, issues, edges, index)
    ensures Searching(u, target, agents', locations', visited', issues', edges', index + 1)
  {
    var found;
    agents', locations', visited', issues', found := ScanEntries(target, u, index, agents, locations, visited, issues);
    EdgesKept(agents, agents', locations, locations', index);
    NextAgent(u, target, agents', locations', issues', index);
    edges' := edges + found;
  }

  method ReachableGraph(target: Agent, ghost u: set<Agent>) returns (graph: Graph)
    requires target in u && Closed(u)
    ensures Progress(u, target, graph.agents, graph.locations, graph.issues, |graph.agents|)
    ensures graph.edges == AllEdges(graph.agents, graph.locations, |graph.agents|)
  {
    var agents, locations: seq<Route>, edges, issues := [target], [[]], [], [];
    var visited := {target};
    var index := 0;
    while index < |agents|
      invariant Searching(u, target, agents, locations, visited, issues, edges, index)
      decreases MAX_REACHABLE_AGENTS - index
    {
      agents, locations, visited, issues, edges := ScanAgent(target, u, index, agents, locations, visited, issues, edges);
      index := index + 1;
    }
    graph := Graph(agents, locations, edges, issues);
  }

  lemma {:induction false} EdgesKept(
    agents: seq<Agent>, more: seq<Agent>, locations: seq<Route>, moreLocations: seq<Route>, n: nat
  )
    requires n <= |agents| == |locations| && |more| == |moreLocations| && agents <= more && locations <= moreLocations
    ensures AllEdges(more, moreLocations, n) == AllEdges(agents, locations, n)
  {
    if n > 0 { EdgesKept(agents, more, locations, moreLocations, n - 1); }
  }
}
