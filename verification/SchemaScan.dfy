/**
  The scans with a shared `seen` set (agentcheck/adapters/pydantic_ai.py): inert default
  values, schema-generation metadata and the compiled output schema, over object graphs
  that may be shared and cyclic.
 */
module SchemaScan {
  import opened Bags

  /** An object, by identity. */
  type Node = nat

  /** The dictionary keys the compiled schema scan looks at; `OtherKey` is any other object. */
  datatype Key =
    | TypeKey
    | Metadata
    | Config
    | Cls
    | Members
    | Expected
    | Default
    | DefaultFactory
    | ComputedFields
    | CustomInit
    | PostInit
    | Missing
    | OtherKey(key: Node)

  datatype Entry = Entry(key: Key, value: Node)

  datatype Reason =
    | OpaqueMetadata
    | MetadataCallback
    | ClassHook
    | FunctionSchema
    | ConstructionCallback
    | ExecutableFactory
    | OpaqueDefault
    | ComputedField
    | UnknownContainer
    | UnknownCallable

  /**
    What an object is. `Bound` is a bound `__get_pydantic_json_schema__` method whose owner
    carries no custom hook; `safeFactory` marks the built-in types accepted as factories.
   */
  datatype Object =
    | Nothing
    | Text(text: string)
    | Flag(flag: bool)
    | Number
    | Dict(entries: seq<Entry>)
    | List(items: seq<Node>)
    | Tuple(items: seq<Node>)
    | Container
    | Bound
    | Callable
    | Class(hook: bool, safeFactory: bool)
    | Opaque

  type Heap = map<Node, Object>

  // ---------------------------------------------------------------------------
  // Reachability along a choice of edges, and loops that mark what they have seen
  // ---------------------------------------------------------------------------

  type Edges = Node -> seq<Node>

  ghost predicate Walk(edges: Edges, p: seq<Node>) {
    p != [] && forall i :: 0 < i < |p| ==> p[i] in edges(p[i - 1])
  }

  ghost predicate Reaches(edges: Edges, a: Node, b: Node) {
    exists p :: Walk(edges, p) && p[0] == a && p[|p| - 1] == b
  }

  lemma {:induction false} ReachesSelf(edges: Edges, a: Node)
    ensures Reaches(edges, a, a)
  {
    assert Walk(edges, [a]) && [a][0] == a;
  }

  lemma {:induction false} ReachesOn(edges: Edges, a: Node, b: Node, c: Node)
    requires Reaches(edges, a, b) && c in edges(b)
    ensures Reaches(edges, a, c)
  {
    var p :| Walk(edges, p) && p[0] == a && p[|p| - 1] == b;
    assert Walk(edges, p + [c]) && (p + [c])[0] == a && (p + [c])[|p|] == c;
  }

  ghost predicate ClosedSet(edges: Edges, s: set<Node>) {
    forall a, b :: a in s && b in edges(a) ==> b in s
  }

  lemma {:induction false} StaysIn(edges: Edges, s: set<Node>, p: seq<Node>)
    requires ClosedSet(edges, s) && Walk(edges, p) && p[0] in s
    ensures p[|p| - 1] in s
    decreases |p|
  {
    if |p| > 1 {
      var q := p[..|p| - 1];
      StaysIn(edges, s, q);
      assert p[|p| - 1] in edges(q[|q| - 1]);
    }
  }

  ghost function Elements(s: seq<Node>): (r: set<Node>) {
    if s == [] then {} else Elements(s[..|s| - 1]) + {s[|s| - 1]}
  }

  lemma {:induction false} ElementsAre(s: seq<Node>, n: Node)
    ensures n in Elements(s) <==> n in s
  {
    if s != [] {
      ElementsAre(s[..|s| - 1], n);
      assert s == s[..|s| - 1] + [s[|s| - 1]];
    }
  }

  lemma {:induction false} ElementsSplit(s: seq<Node>, t: seq<Node>)
    ensures Elements(s + t) == Elements(s) + Elements(t)
  {
    if t == [] {
      assert s + t == s;
    } else {
      assert (s + t)[..|s + t| - 1] == s + t[..|t| - 1];
      ElementsSplit(s, t[..|t| - 1]);
    }
  }

  /** The scan so far: everything waiting is reachable, everything done is accepted and its successors are done or wait. */
  ghost predicate Sweep(edges: Edges, accepts: Node -> bool, root: Node, waiting: set<Node>, done: set<Node>) {
    && root in done + waiting
    && (forall n :: n in waiting ==> Reaches(edges, root, n))
    && (forall n :: n in done ==> accepts(n) && Elements(edges(n)) <= done + waiting)
  }

  lemma {:induction false} SweepStart(edges: Edges, accepts: Node -> bool, root: Node)
    ensures Sweep(edges, accepts, root, Elements([root]), {})
  {
    ReachesSelf(edges, root);
    ElementsAre([root], root);
    forall n ensures n in Elements([root]) ==> n == root { ElementsAre([root], n); }
  }

  /** Taking the last entry, which is accepted and has its successors pushed. */
  lemma {:induction false} SweepStep(
    edges: Edges, accepts: Node -> bool, root: Node, pending: seq<Node>, done: set<Node>
  )
    requires pending != [] && Sweep(edges, accepts, root, Elements(pending), done)
    requires accepts(pending[|pending| - 1])
    ensures Sweep(edges, accepts, root, Elements(pending[..|pending| - 1] + edges(pending[|pending| - 1])), done + {pending[|pending| - 1]})
  {
    var n, rest := pending[|pending| - 1], pending[..|pending| - 1];
    ElementsSplit(rest, edges(n));
    forall c | c in Elements(edges(n)) ensures Reaches(edges, root, c) {
      ElementsAre(edges(n), c);
      ReachesOn(edges, root, n, c);
    }
  }

  /** Taking the last entry, which is done already. */
  lemma {:induction false} SweepSkip(
    edges: Edges, accepts: Node -> bool, root: Node, pending: seq<Node>, done: set<Node>
  )
    requires pending != [] && Sweep(edges, accepts, root, Elements(pending), done) && pending[|pending| - 1] in done
    ensures Sweep(edges, accepts, root, Elements(pending[..|pending| - 1]), done)
  {
  }

  /** Nothing reachable is refused. */
  ghost predicate AllAccepted(edges: Edges, accepts: Node -> bool, root: Node) {
    forall n :: Reaches(edges, root, n) ==> accepts(n)
  }

  lemma {:induction false} SweepEnd(edges: Edges, accepts: Node -> bool, root: Node, done: set<Node>)
    requires Sweep(edges, accepts, root, Elements([]), done)
    ensures AllAccepted(edges, accepts, root)
  {
    forall a, b | a in done && b in edges(a) ensures b in done { ElementsAre(edges(a), b); }
    forall n | Reaches(edges, root, n) ensures accepts(n) {
      var p :| Walk(edges, p) && p[0] == root && p[|p| - 1] == n;
      StaysIn(edges, done, p);
    }
  }

  lemma {:induction false} SweepRefused(
    edges: Edges, accepts: Node -> bool, root: Node, pending: seq<Node>, done: set<Node>
  )
    requires pending != [] && Sweep(edges, accepts, root, Elements(pending), done) && !accepts(pending[|pending| - 1])
    ensures !AllAccepted(edges, accepts, root)
  {
  }

  // ---------------------------------------------------------------------------
  // The three graphs
  // ---------------------------------------------------------------------------

  function KeyNodes(entries: seq<Entry>): (r: seq<Node>) {
    if entries == [] then []
    else (if entries[0].key.OtherKey? then [entries[0].key.key] else []) + KeyNodes(entries[1..])
  }

  function Values(entries: seq<Entry>): (r: seq<Node>)
    ensures |r| == |entries|
  {
    if entries == [] then [] else [entries[0].value] + Values(entries[1..])
  }

  /** Keys whose values are not validation schemas. */
  predicate Excluded(k: Key) {
    k in {Metadata, Config, Cls, Members, Expected, Default, DefaultFactory, ComputedFields}
  }

  function SchemaValues(entries: seq<Entry>): (r: seq<Node>) {
    if entries == [] then []
    else (if Excluded(entries[0].key) then [] else [entries[0].value]) + SchemaValues(entries[1..])
  }

  function At(h: Heap, n: Node): (o: Object) {
    if n in h then h[n] else Opaque
  }

  function Contents(o: Object): (r: seq<Node>) {
    match o
    case Dict(entries) => KeyNodes(entries) + Values(entries)
    case List(items) => items
    case Tuple(items) => items
    case _ => []
  }

  /** A default value is searched through keys, values and items. */
  function DefaultEdges(h: Heap): (r: Edges) { (n: Node) => Contents(At(h, n)) }

  function InsideMetadata(o: Object): (r: seq<Node>) {
    match o
    case Dict(entries) => Values(entries)
    case List(items) => items
    case Tuple(items) => items
    case _ => []
  }

  /** Metadata is searched through values and items. */
  function MetadataEdges(h: Heap): (r: Edges) { (n: Node) => InsideMetadata(At(h, n)) }

  function InsideSchema(o: Object): (r: seq<Node>) {
    match o
    case Dict(entries) => SchemaValues(entries)
    case List(items) => items
    case Tuple(items) => items
    case _ => []
  }

  /** A compiled schema is searched through its validation schemas only. */
  function SchemaEdges(h: Heap): (r: Edges) { (n: Node) => InsideSchema(At(h, n)) }

  function PlainObject(o: Object): (r: bool) {
    o.Nothing? || o.Text? || o.Flag? || o.Number?
  }

  function InertNode(h: Heap): (r: Node -> bool) {
    (n: Node) => PlainObject(At(h, n)) || At(h, n).Dict? || At(h, n).List? || At(h, n).Tuple?
  }

  /** A default is inert when it is built of plain values, dictionaries, lists and tuples only. */
  ghost predicate Inert(h: Heap, n: Node) {
    AllAccepted(DefaultEdges(h), InertNode(h), n)
  }

  ghost predicate CallableObject(o: Object) { o.Bound? || o.Callable? || o.Class? }

  /** A metadata node may be a container, nothing, the recognized bound hook, or inert data. */
  ghost function MetadataNode(h: Heap): (r: Node -> bool) {
    (n: Node) => var o := At(h, n);
      o.Dict? || o.List? || o.Tuple? || o.Bound? || o.Nothing? || (!CallableObject(o) && Inert(h, n))
  }

  ghost predicate MetadataAccepted(h: Heap, n: Node) {
    AllAccepted(MetadataEdges(h), MetadataNode(h), n)
  }

  /** The value of a key, if the dictionary has it. */
  function Get(entries: seq<Entry>, key: Key): (r: Option<Node>) {
    if entries == [] then None
    else if entries[0].key == key then Some(entries[0].value)
    else Get(entries[1..], key)
  }

  predicate FunctionKind(o: Object) {
    o.Text? && ("function-" <= o.text || o.text == "call")
  }

  predicate Absent(h: Heap, n: Option<Node>) {
    n.None? || At(h, n.value).Nothing?
  }

  predicate Unset(h: Heap, n: Option<Node>) {
    Absent(h, n) || At(h, n.value) == Flag(false)
  }

  /** What makes one dictionary of a compiled schema acceptable. */
  ghost predicate DictAccepted(h: Heap, entries: seq<Entry>) {
    && (Get(entries, Metadata).Some? ==> MetadataAccepted(h, Get(entries, Metadata).value))
    && (Get(entries, Cls).Some? ==> !(At(h, Get(entries, Cls).value).Class? && At(h, Get(entries, Cls).value).hook))
    && (Get(entries, TypeKey).Some? ==> !FunctionKind(At(h, Get(entries, TypeKey).value)))
    && Unset(h, Get(entries, CustomInit)) && Unset(h, Get(entries, PostInit)) && Unset(h, Get(entries, Missing))
    && (Absent(h, Get(entries, DefaultFactory)) || SafeFactory(At(h, Get(entries, DefaultFactory).value)))
    && (Get(entries, Default).Some? ==> Inert(h, Get(entries, Default).value))
    && (Absent(h, Get(entries, ComputedFields)) || At(h, Get(entries, ComputedFields).value) == List([]))
  }

  predicate SafeFactory(o: Object) { o.Class? && o.safeFactory }

  ghost function SchemaNode(h: Heap): (r: Node -> bool) {
    (n: Node) => match At(h, n)
      case Dict(entries) => DictAccepted(h, entries)
      case Container => false
      case Bound => false
      case Callable => false
      case Class(_, _) => false
      case _ => true
  }

  // ---------------------------------------------------------------------------
  // The loops
  // ---------------------------------------------------------------------------

  /** Every node an edge can name is in the heap. */
  ghost predicate Closed(h: Heap) {
    forall n, c :: n in h && c in Contents(h[n]) ==> c in h
  }

  lemma {:induction false} PushStaysInHeap(h: Heap, pending: seq<Node>, more: seq<Node>)
    requires pending != [] && Elements(pending) <= h.Keys && forall n :: n in more ==> n in h
    ensures pending[|pending| - 1] in h
    ensures Elements(pending[..|pending| - 1] + more) <= h.Keys
  {
    ElementsSplit(pending[..|pending| - 1], more);
    forall n | n in Elements(more) ensures n in h { ElementsAre(more, n); }
  }

  lemma {:induction false} LastInHeap(h: Heap, pending: seq<Node>)
    requires pending != [] && Elements(pending) <= h.Keys
    ensures pending[|pending| - 1] in h && Elements(pending[..|pending| - 1]) <= h.Keys
  {
  }

  lemma {:induction false} RootInHeap(h: Heap, root: Node)
    requires root in h
    ensures Elements([root]) <= h.Keys
  {
    forall n | n in Elements([root]) ensures n in h { ElementsAre([root], n); }
  }

  lemma {:induction false} ValuesAreContents(entries: seq<Entry>)
    ensures forall n :: n in SchemaValues(entries) ==> n in Values(entries)
    ensures forall k :: Get(entries, k).Some? ==> Get(entries, k).value in Values(entries)
  {
    if entries != [] { ValuesAreContents(entries[1..]); }
  }

  /** How much of the heap is unmarked, for termination: marking a node costs more than any push. */
  ghost function Unseen(h: Heap, seen: set<Node>): (r: nat) {
    |h.Keys - seen|
  }

  lemma {:induction false} Marked(h: Heap, seen: set<Node>, n: Node)
    requires n in h && n !in seen
    ensures Unseen(h, seen + {n}) < Unseen(h, seen)
  {
    assert h.Keys - seen == (h.Keys - (seen + {n})) + {n};
  }

  /** One step of the default scan. */
  lemma {:induction false} InertStep(h: Heap, value: Node, pending: seq<Node>, done: set<Node>)
    requires Closed(h) && pending != [] && Elements(pending) <= h.Keys
    requires Sweep(DefaultEdges(h), InertNode(h), value, Elements(pending), done)
    ensures var n, rest := pending[|pending| - 1], pending[..|pending| - 1];
      n in h
      && (PlainObject(h[n]) || h[n].Dict? || h[n].List? || h[n].Tuple? ==>
            Elements(rest + Contents(h[n])) <= h.Keys
            && Sweep(DefaultEdges(h), InertNode(h), value, Elements(rest + Contents(h[n])), done + {n}))
      && (!PlainObject(h[n]) && !h[n].Dict? && !h[n].List? && !h[n].Tuple? ==> !Inert(h, value))
  {
    var n := pending[|pending| - 1];
    LastInHeap(h, pending);
    assert DefaultEdges(h)(n) == Contents(h[n]);
    if InertNode(h)(n) {
      PushStaysInHeap(h, pending, Contents(h[n]));
      SweepStep(DefaultEdges(h), InertNode(h), value, pending, done);
    } else {
      SweepRefused(DefaultEdges(h), InertNode(h), value, pending, done);
    }
  }

  method InertOutputDefault(h: Heap, value: Node) returns (inert: bool)
    requires Closed(h) && value in h
    ensures inert <==> Inert(h, value)
  {
    var pending := [value];
    var seen: set<Node> := {};
    ghost var done: set<Node> := {};
    SweepStart(DefaultEdges(h), InertNode(h), value);
    RootInHeap(h, value);
    while pending != []
      invariant Elements(pending) <= h.Keys && seen <= done
      invariant Sweep(DefaultEdges(h), InertNode(h), value, Elements(pending), done)
      decreases Unseen(h, seen), |pending|
    {
      var item := pending[|pending| - 1];
      InertStep(h, value, pending, done);
      if PlainObject(h[item]) {
        pending, done := pending[..|pending| - 1] + Contents(h[item]), done + {item};
      } else if item in seen {
        SweepSkip(DefaultEdges(h), InertNode(h), value, pending, done);
        LastInHeap(h, pending);
        pending := pending[..|pending| - 1];
      } else {
        Marked(h, seen, item);
        if !h[item].Dict? && !h[item].List? && !h[item].Tuple? { return false; }
        pending, seen, done := pending[..|pending| - 1] + Contents(h[item]), seen + {item}, done + {item};
      }
    }
    SweepEnd(DefaultEdges(h), InertNode(h), value, done);
    inert := true;
  }

  /** One step of the metadata scan. */
  lemma {:induction false} MetadataStep(h: Heap, root: Node, pending: seq<Node>, seen: set<Node>)
    requires Closed(h) && pending != [] && Elements(pending) <= h.Keys
    requires Sweep(MetadataEdges(h), MetadataNode(h), root, Elements(pending), seen)
    ensures var n, rest := pending[|pending| - 1], pending[..|pending| - 1];
      n in h
      && (MetadataNode(h)(n) ==>
            Elements(rest + InsideMetadata(h[n])) <= h.Keys
            && Sweep(MetadataEdges(h), MetadataNode(h), root, Elements(rest + InsideMetadata(h[n])), seen + {n}))
      && (!MetadataNode(h)(n) ==> !MetadataAccepted(h, root))
  {
    var n := pending[|pending| - 1];
    LastInHeap(h, pending);
    assert MetadataEdges(h)(n) == InsideMetadata(h[n]);
    if MetadataNode(h)(n) {
      PushStaysInHeap(h, pending, InsideMetadata(h[n]));
      SweepStep(MetadataEdges(h), MetadataNode(h), root, pending, seen);
    } else {
      SweepRefused(MetadataEdges(h), MetadataNode(h), root, pending, seen);
    }
  }

  /** The checks on one metadata entry. */
  method MetadataEntryReason(h: Heap, entry: Node) returns (reason: Option<Reason>)
    requires Closed(h) && entry in h
    ensures reason.None? <==> MetadataNode(h)(entry)
    ensures reason.Some? ==> reason.value == (if CallableObject(h[entry]) then MetadataCallback else OpaqueMetadata)
  {
    var o := h[entry];
    if o.Dict? || o.List? || o.Tuple? { return None; }
    if o.Bound? || o.Callable? || o.Class? {
      return if o.Bound? then None else Some(MetadataCallback);
    }
    if !o.Nothing? {
      var inert := InertOutputDefault(h, entry);
      if !inert { return Some(OpaqueMetadata); }
    }
    reason := None;
  }

  method MetadataReason(h: Heap, root: Node) returns (reason: Option<Reason>)
    requires Closed(h) && root in h
    ensures reason.None? <==> MetadataAccepted(h, root)
    ensures reason.Some? ==> reason.value in {MetadataCallback, OpaqueMetadata}
  {
    var pending := [root];
    var seen: set<Node> := {};
    SweepStart(MetadataEdges(h), MetadataNode(h), root);
    RootInHeap(h, root);
    while pending != []
      invariant Elements(pending) <= h.Keys
      invariant Sweep(MetadataEdges(h), MetadataNode(h), root, Elements(pending), seen)
      decreases Unseen(h, seen), |pending|
    {
      var entry := pending[|pending| - 1];
      MetadataStep(h, root, pending, seen);
      if entry in seen {
        SweepSkip(MetadataEdges(h), MetadataNode(h), root, pending, seen);
        LastInHeap(h, pending);
        pending := pending[..|pending| - 1];
      } else {
        Marked(h, seen, entry);
        reason := MetadataEntryReason(h, entry);
        if reason.Some? { return; }
        pending, seen := pending[..|pending| - 1] + InsideMetadata(h[entry]), seen + {entry};
      }
    }
    SweepEnd(MetadataEdges(h), MetadataNode(h), root, seen);
    reason := None;
  }

  /** The checks on one dictionary, in order; the first that fails gives the reason. */
  method DictReason(h: Heap, entries: seq<Entry>) returns (reason: Option<Reason>)
    requires Closed(h) && forall n :: n in Values(entries) ==> n in h
    ensures reason.None? <==> DictAccepted(h, entries)
  {
    ValuesAreContents(entries);
    if Get(entries, Metadata).Some? {
      reason := MetadataReason(h, Get(entries, Metadata).value);
      if reason.Some? { return; }
    }
    if Get(entries, Cls).Some? {
      var cls := At(h, Get(entries, Cls).value);
      if cls.Class? && cls.hook { return Some(ClassHook); }
    }
    if Get(entries, TypeKey).Some? && FunctionKind(At(h, Get(entries, TypeKey).value)) { return Some(FunctionSchema); }
    if !Unset(h, Get(entries, CustomInit)) || !Unset(h, Get(entries, PostInit)) || !Unset(h, Get(entries, Missing)) {
      return Some(ConstructionCallback);
    }
    var factory := Get(entries, DefaultFactory);
    if !Absent(h, factory) && !SafeFactory(At(h, factory.value)) { return Some(ExecutableFactory); }
    if Get(entries, Default).Some? {
      var inert := InertOutputDefault(h, Get(entries, Default).value);
      if !inert { return Some(OpaqueDefault); }
    }
    var computed := Get(entries, ComputedFields);
    if !Absent(h, computed) && At(h, computed.value) != List([]) { return Some(ComputedField); }
    reason := None;
  }

  /** One step of the schema scan. */
  lemma {:induction false} SchemaStep(h: Heap, root: Node, pending: seq<Node>, seen: set<Node>)
    requires Closed(h) && pending != [] && Elements(pending) <= h.Keys
    requires Sweep(SchemaEdges(h), SchemaNode(h), root, Elements(pending), seen)
    ensures var n, rest := pending[|pending| - 1], pending[..|pending| - 1];
      n in h
      && (SchemaNode(h)(n) ==>
            Elements(rest + InsideSchema(h[n])) <= h.Keys
            && Sweep(SchemaEdges(h), SchemaNode(h), root, Elements(rest + InsideSchema(h[n])), seen + {n}))
      && (!SchemaNode(h)(n) ==> !AllAccepted(SchemaEdges(h), SchemaNode(h), root))
  {
    var n := pending[|pending| - 1];
    LastInHeap(h, pending);
    if h[n].Dict? { ValuesAreContents(h[n].entries); }
    assert SchemaEdges(h)(n) == InsideSchema(h[n]);
    if SchemaNode(h)(n) {
      PushStaysInHeap(h, pending, InsideSchema(h[n]));
      SweepStep(SchemaEdges(h), SchemaNode(h), root, pending, seen);
    } else {
      SweepRefused(SchemaEdges(h), SchemaNode(h), root, pending, seen);
    }
  }

  /** The checks on one object of a compiled schema. */
  method ObjectReason(h: Heap, item: Node) returns (reason: Option<Reason>)
    requires Closed(h) && item in h
    ensures reason.None? <==> SchemaNode(h)(item)
  {
    match h[item]
    case Dict(entries) => reason := DictReason(h, entries);
    case Container => reason := Some(UnknownContainer);
    case Bound => reason := Some(UnknownCallable);
    case Callable => reason := Some(UnknownCallable);
    case Class(_, _) => reason := Some(UnknownCallable);
    case _ => reason := None;
  }

  method CoreOutputCallbackReason(h: Heap, schema: Node) returns (reason: Option<Reason>)
    requires Closed(h) && schema in h
    ensures reason.None? <==> AllAccepted(SchemaEdges(h), SchemaNode(h), schema)
  {
    var pending := [schema];
    var seen: set<Node> := {};
    SweepStart(SchemaEdges(h), SchemaNode(h), schema);
    RootInHeap(h, schema);
    while pending != []
      invariant Elements(pending) <= h.Keys
      invariant Sweep(SchemaEdges(h), SchemaNode(h), schema, Elements(pending), seen)
      decreases Unseen(h, seen), |pending|
    {
      var item := pending[|pending| - 1];
      SchemaStep(h, schema, pending, seen);
      if item in seen {
        SweepSkip(SchemaEdges(h), SchemaNode(h), schema, pending, seen);
        LastInHeap(h, pending);
        pending := pending[..|pending| - 1];
      } else {
        Marked(h, seen, item);
        reason := ObjectReason(h, item);
        if reason.Some? { return; }
        pending, seen := pending[..|pending| - 1] + InsideSchema(h[item]), seen + {item};
      }
    }
    SweepEnd(SchemaEdges(h), SchemaNode(h), schema, seen);
    reason := None;
  }
}
