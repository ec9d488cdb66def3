/**
  The scan of an agent's output declaration (`_output_execution_issue` in
  agentcheck/adapters/pydantic_ai.py): a worklist over a possibly cyclic object graph in
  which every entry carries the ancestors on its own path.
 */
module OutputScan {
  import opened Bags

  /** An object, by identity. */
  type Node = nat

  datatype Reason =
    | Cycle
    | TextFunction
    | CustomMarker
    | MissingDeclaration
    | CustomSequence
    | OutputFunction
    | SchemaHook

  /** What an output declaration can be; `hook` says whether a custom schema hook was recognized. */
  datatype Declaration =
    | TextOutput
    | Marker(exact: bool, declared: Option<Node>)
    | Listing(exact: bool, items: seq<Node>)
    | Alias(value: Node)
    | NewType(supertype: Node)
    | Annotated(annotated: Option<Node>, metadataHooks: seq<bool>)
    | UnionOf(members: seq<Node>)
    | Generic(arguments: seq<Node>)
    | Literal
    | Function
    | Class(hook: bool)
    | Other

  type Graph = map<Node, Declaration>

  /** Why this one declaration is refused, cycles apart. */
  function Refusal(d: Declaration): (r: Option<Reason>) {
    match d
    case TextOutput => Some(TextFunction)
    case Marker(exact, declared) =>
      if !exact then Some(CustomMarker) else if declared.None? then Some(MissingDeclaration) else None
    case Listing(exact, _) => if exact then None else Some(CustomSequence)
    case Annotated(_, hooks) => if true in hooks then Some(SchemaHook) else None
    case Function => Some(OutputFunction)
    case Class(hook) => if hook then Some(SchemaHook) else None
    case _ => None
  }

  /** The declarations inside this one. */
  function Inside(d: Declaration): (r: seq<Node>) {
    match d
    case Marker(exact, declared) => if exact && declared.Some? then [declared.value] else []
    case Listing(exact, items) => if exact then items else []
    case Alias(value) => [value]
    case NewType(supertype) => [supertype]
    case Annotated(annotated, _) => if annotated.Some? then [annotated.value] else []
    case UnionOf(members) => members
    case Generic(arguments) => arguments
    case _ => []
  }

  /** Everything inside a declaration of the graph is in the graph. */
  ghost predicate Closed(g: Graph) {
    forall n, c :: n in g && c in Inside(g[n]) ==> c in g
  }

  // ---------------------------------------------------------------------------
  // The scan as a recursive search
  // ---------------------------------------------------------------------------

  /** Depth first, later declarations before earlier ones; `ancestors` are those on the path to `n`. */
  ghost function Search(g: Graph, n: Node, ancestors: set<Node>): (r: Option<Reason>)
    requires Closed(g) && n in g
    decreases |g.Keys - ancestors|, 1, 0
  {
    if n in ancestors then Some(Cycle)
    else if Refusal(g[n]).Some? then Refusal(g[n])
    else
      assert g.Keys - (ancestors + {n}) < g.Keys - ancestors;
      SmallerSet(g.Keys - (ancestors + {n}), g.Keys - ancestors);
      SearchAll(g, Inside(g[n]), ancestors + {n})
  }

  ghost function SearchAll(g: Graph, nodes: seq<Node>, ancestors: set<Node>): (r: Option<Reason>)
    requires Closed(g) && forall c :: c in nodes ==> c in g
    decreases |g.Keys - ancestors|, 2, |nodes|
  {
    if nodes == [] then None
    else
      var last := Search(g, nodes[|nodes| - 1], ancestors);
      if last.Some? then last else SearchAll(g, nodes[..|nodes| - 1], ancestors)
  }

  lemma {:induction false} SmallerSet<T>(a: set<T>, b: set<T>)
    requires a < b
    ensures |a| < |b|
  {
    var x :| x in b && x !in a;
    SubsetSize(a, b - {x});
  }

  // ---------------------------------------------------------------------------
  // The worklist
  // ---------------------------------------------------------------------------

  /** A declaration still to look at, with the ancestors on its path. */
  datatype Entry = Entry(node: Node, ancestors: set<Node>)

  ghost predicate Pending(g: Graph, pending: seq<Entry>) {
    forall e :: e in pending ==> e.node in g && e.ancestors <= g.Keys
  }

  /** What the recursive search answers for the worklist, last entry first. */
  ghost function SearchPending(g: Graph, pending: seq<Entry>): (r: Option<Reason>)
    requires Closed(g) && Pending(g, pending)
  {
    if pending == [] then None
    else
      var e := pending[|pending| - 1];
      var last := Search(g, e.node, e.ancestors);
      if last.Some? then last else SearchPending(g, pending[..|pending| - 1])
  }

  function Entries(nodes: seq<Node>, ancestors: set<Node>): (r: seq<Entry>)
    ensures |r| == |nodes|
    ensures forall i :: 0 <= i < |r| ==> r[i] == Entry(nodes[i], ancestors)
  {
    seq(|nodes|, i requires 0 <= i < |nodes| => Entry(nodes[i], ancestors))
  }

  lemma {:induction false} PushChildren(g: Graph, pending: seq<Entry>, nodes: seq<Node>, ancestors: set<Node>)
    requires Closed(g) && Pending(g, pending) && ancestors <= g.Keys && forall c :: c in nodes ==> c in g
    ensures Pending(g, pending + Entries(nodes, ancestors))
    ensures SearchPending(g, pending + Entries(nodes, ancestors))
         == if SearchAll(g, nodes, ancestors).Some? then SearchAll(g, nodes, ancestors) else SearchPending(g, pending)
    decreases |nodes|
  {
    var more := pending + Entries(nodes, ancestors);
    if nodes == [] {
      assert more == pending;
    } else {
      var fewer := nodes[..|nodes| - 1];
      PushChildren(g, pending, fewer, ancestors);
      assert more[..|more| - 1] == pending + Entries(fewer, ancestors);
      assert more[|more| - 1] == Entry(nodes[|nodes| - 1], ancestors);
    }
  }

  // Termination: an entry with k nodes off its path weighs b^k, more than any b - 1
  // entries one step deeper.

  ghost function Times(n: nat, p: nat): (r: nat)
    ensures n >= 1 ==> r >= p
  {
    if n == 0 then 0 else Times(n - 1, p) + p
  }

  ghost function Power(b: nat, k: nat): (r: nat)
    ensures b >= 1 ==> r >= 1
  {
    if k == 0 then 1 else Times(b, Power(b, k - 1))
  }

  ghost function Weight(g: Graph, b: nat, e: Entry): (r: nat) {
    Power(b, |g.Keys - e.ancestors|)
  }

  ghost function Total(g: Graph, b: nat, pending: seq<Entry>): (r: nat) {
    if pending == [] then 0 else Total(g, b, pending[..|pending| - 1]) + Weight(g, b, pending[|pending| - 1])
  }

  /** `b` exceeds the number of declarations directly inside any one. */
  ghost predicate Branching(g: Graph, b: nat) {
    b >= 1 && forall n :: n in g ==> |Inside(g[n])| < b
  }

  lemma {:induction false} BranchingExists(g: Graph, keys: set<Node>) returns (b: nat)
    requires keys <= g.Keys
    ensures b >= 1 && forall n :: n in keys ==> |Inside(g[n])| < b
    decreases |keys|
  {
    if keys == {} {
      b := 1;
    } else {
      var n :| n in keys;
      b := BranchingExists(g, keys - {n});
      if b <= |Inside(g[n])| { b := |Inside(g[n])| + 1; }
    }
  }

  lemma {:induction false} TotalPush(g: Graph, b: nat, s: seq<Entry>, e: Entry)
    ensures Total(g, b, s + [e]) == Total(g, b, s) + Weight(g, b, e)
  {
    assert (s + [e])[..|s|] == s;
  }

  lemma {:induction false} EntriesPush(pending: seq<Entry>, nodes: seq<Node>, ancestors: set<Node>)
    requires nodes != []
    ensures pending + Entries(nodes, ancestors)
         == (pending + Entries(nodes[..|nodes| - 1], ancestors)) + [Entry(nodes[|nodes| - 1], ancestors)]
  {
  }

  lemma {:induction false} TotalOfEntries(g: Graph, b: nat, pending: seq<Entry>, nodes: seq<Node>, ancestors: set<Node>)
    ensures Total(g, b, pending + Entries(nodes, ancestors))
         == Total(g, b, pending) + Times(|nodes|, Power(b, |g.Keys - ancestors|))
    decreases |nodes|
  {
    var more := pending + Entries(nodes, ancestors);
    if nodes == [] {
      assert more == pending;
    } else {
      var fewer, last := nodes[..|nodes| - 1], Entry(nodes[|nodes| - 1], ancestors);
      TotalOfEntries(g, b, pending, fewer, ancestors);
      EntriesPush(pending, nodes, ancestors);
      TotalPush(g, b, pending + Entries(fewer, ancestors), last);
    }
  }

  lemma {:induction false} StepShrinks(g: Graph, b: nat, rest: seq<Entry>, e: Entry)
    requires Branching(g, b) && e.node in g && e.node !in e.ancestors
    ensures Total(g, b, rest + Entries(Inside(g[e.node]), e.ancestors + {e.node})) < Total(g, b, rest + [e])
  {
    var children, nested := Inside(g[e.node]), e.ancestors + {e.node};
    TotalOfEntries(g, b, rest, children, nested);
    TotalPush(g, b, rest, e);
    assert g.Keys - e.ancestors == (g.Keys - nested) + {e.node};
    var p := Power(b, |g.Keys - nested|);
    assert Weight(g, b, e) == Times(b, p);
    Less(|children|, b, p);
  }

  lemma {:induction false} Less(x: nat, y: nat, p: nat)
    requires x < y && p >= 1
    ensures Times(x, p) < Times(y, p)
  {
    if x < y - 1 { Less(x, y - 1, p); }
  }

  method OutputExecutionIssue(g: Graph, root: Node) returns (reason: Option<Reason>)
    requires Closed(g) && root in g
    ensures reason == Search(g, root, {})
  {
    var pending := [Entry(root, {})];
    ghost var b := BranchingExists(g, g.Keys);
    while pending != []
      invariant Pending(g, pending) && SearchPending(g, pending) == Search(g, root, {})
      decreases Total(g, b, pending)
    {
      var e := pending[|pending| - 1];
      var rest := pending[..|pending| - 1];
      assert pending == rest + [e];
      if e.node in e.ancestors { return Some(Cycle); }
      if Refusal(g[e.node]).Some? { return Refusal(g[e.node]); }
      PushChildren(g, rest, Inside(g[e.node]), e.ancestors + {e.node});
      StepShrinks(g, b, rest, e);
      pending := rest + Entries(Inside(g[e.node]), e.ancestors + {e.node});
    }
    reason := None;
  }

  // ---------------------------------------------------------------------------
  // What acceptance means
  // ---------------------------------------------------------------------------

  /** A path through the graph. */
  ghost predicate Walk(g: Graph, p: seq<Node>) {
    p != [] && (forall i :: 0 <= i < |p| ==> p[i] in g)
    && forall i :: 0 < i < |p| ==> p[i] in Inside(g[p[i - 1]])
  }

  /** Nothing on the path is refused, repeated or among `ancestors`. */
  ghost predicate Harmless(g: Graph, p: seq<Node>, ancestors: set<Node>)
    requires forall i :: 0 <= i < |p| ==> p[i] in g
  {
    && (forall i :: 0 <= i < |p| ==> Refusal(g[p[i]]).None? && p[i] !in ancestors)
    && (forall i, j :: 0 <= i < j < |p| ==> p[i] != p[j])
  }

  lemma {:induction false} AllSearched(g: Graph, nodes: seq<Node>, ancestors: set<Node>)
    requires Closed(g) && forall c :: c in nodes ==> c in g
    ensures SearchAll(g, nodes, ancestors).None? <==> forall c :: c in nodes ==> Search(g, c, ancestors).None?
    decreases |nodes|
  {
    if nodes != [] {
      var fewer, last := nodes[..|nodes| - 1], nodes[|nodes| - 1];
      AllSearched(g, fewer, ancestors);
      assert nodes == fewer + [last];
      assert last in nodes;
      assert SearchAll(g, nodes, ancestors).None? <==> Search(g, last, ancestors).None? && SearchAll(g, fewer, ancestors).None?;
    }
  }

  lemma {:induction false} AcceptedWalks(g: Graph, n: Node, ancestors: set<Node>, p: seq<Node>)
    requires Closed(g) && Walk(g, p) && p[0] == n && Search(g, n, ancestors).None?
    ensures Harmless(g, p, ancestors)
    decreases |p|
  {
    if |p| > 1 {
      AllSearched(g, Inside(g[n]), ancestors + {n});
      assert p[1] in Inside(g[p[0]]);
      AcceptedWalks(g, p[1], ancestors + {n}, p[1..]);
      assert forall i :: 0 < i < |p| ==> p[i] == p[1..][i - 1];
    }
  }

  /** Every path from the node is harmless. */
  ghost predicate Safe(g: Graph, n: Node, ancestors: set<Node>) {
    forall p :: Walk(g, p) && p[0] == n ==> Harmless(g, p, ancestors)
  }

  lemma {:induction false} WalkAhead(g: Graph, n: Node, q: seq<Node>)
    requires n in g && Walk(g, q) && q[0] in Inside(g[n])
    ensures Walk(g, [n] + q) && ([n] + q)[0] == n
  {
    assert forall i :: 0 < i < |[n] + q| ==> ([n] + q)[i] == q[i - 1];
  }

  lemma {:induction false} HarmlessTail(g: Graph, n: Node, q: seq<Node>, ancestors: set<Node>)
    requires Walk(g, [n] + q) && Harmless(g, [n] + q, ancestors)
    ensures (forall i :: 0 <= i < |q| ==> q[i] in g) && Harmless(g, q, ancestors + {n})
  {
    var p := [n] + q;
    assert p[0] == n;
    forall i | 0 <= i < |q| ensures q[i] == p[i + 1] && p[i + 1] != p[0] {}
  }

  lemma {:induction false} SafeHere(g: Graph, n: Node, ancestors: set<Node>)
    requires n in g && Safe(g, n, ancestors)
    ensures Refusal(g[n]).None? && n !in ancestors
  {
    assert Walk(g, [n]) && Harmless(g, [n], ancestors) && [n][0] == n;
  }

  lemma {:induction false} SafeChild(g: Graph, n: Node, ancestors: set<Node>, c: Node)
    requires n in g && c in g && Safe(g, n, ancestors) && c in Inside(g[n])
    ensures Safe(g, c, ancestors + {n})
  {
    forall q | Walk(g, q) && q[0] == c ensures Harmless(g, q, ancestors + {n}) {
      WalkAhead(g, n, q);
      HarmlessTail(g, n, q, ancestors);
    }
  }

  lemma {:induction false} HarmlessWalks(g: Graph, n: Node, ancestors: set<Node>)
    requires Closed(g) && n in g && Safe(g, n, ancestors)
    ensures Search(g, n, ancestors).None?
    decreases |g.Keys - ancestors|
  {
    SafeHere(g, n, ancestors);
    AllSearched(g, Inside(g[n]), ancestors + {n});
    SmallerSet(g.Keys - (ancestors + {n}), g.Keys - ancestors);
    forall c | c in Inside(g[n]) ensures Search(g, c, ancestors + {n}).None? {
      SafeChild(g, n, ancestors, c);
      HarmlessWalks(g, c, ancestors + {n});
    }
  }

  /**
    The scan accepts exactly the declarations from which no path comes back to a node it
    went through, and no path leads to a refused declaration.
   */
  lemma {:induction false} AcceptedExactly(g: Graph, root: Node)
    requires Closed(g) && root in g
    ensures Search(g, root, {}).None? <==> Safe(g, root, {})
  {
    if Search(g, root, {}).None? {
      forall p | Walk(g, p) && p[0] == root ensures Harmless(g, p, {}) {
        AcceptedWalks(g, root, {}, p);
      }
    }
    if Safe(g, root, {}) {
      HarmlessWalks(g, root, {});
    }
  }
}
