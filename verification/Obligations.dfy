/**
  Declared-risk obligations (`risk_obligations_for_spec`, `unmet_risk_obligations`)
  and their agreement with the coverage report's own requirements.
 */
module Obligations {
  import opened Bags
  import opened Domain
  import opened Outcomes
  import opened OutcomeFacts
  import opened Seeds
  import opened RiskFacts
  import opened Coverage
  import opened CoverageFacts
  import Text

  /** Risk that the tool's own declaration makes mandatory for this dimension. */
  predicate Demands(tool: Tool, a: RiskAssertion, d: Dimension) {
    RiskDimension(d)
    && ((tool.destructive && Declared(a.destructive))
        || ((d.FabricatedSuccess? || d.DuplicateAction?) && tool.stateChanging && Declared(a.stateChanging)))
  }

  /** Only a name declared once, with a recorded risk assertion, can be obliged. */
  ghost predicate Obliged(spec: Spec, name: string, d: Dimension) {
    !AmbiguousName(spec, name) && RiskOf(spec.risk, name).Some?
    && exists t :: t in spec.tools && t.tool.name == name && Demands(t.tool, RiskOf(spec.risk, name).value, d)
  }

  /** The requirement an obligation is judged on. */
  function ObligationSeed(name: string, d: Dimension): (s: Seed) {
    ForTool(d, Applicable, name)
  }

  /** The tools obligations are evaluated with: no name is left out. */
  function DeclaredWorld(validates: Validator, spec: Spec): (w: World) {
    World(validates, ToolsByName(spec.tools))
  }

  /** The obligation is neither covered nor partly covered by the scenarios. */
  ghost predicate Unmet(validates: Validator, spec: Spec, scenarios: seq<Scenario>, name: string, d: Dimension) {
    Obliged(spec, name, d)
    && var status := Evaluate(DeclaredWorld(validates, spec), ObligationSeed(name, d), scenarios).status;
       !status.Covered? && !status.PartlyCovered?
  }

  /** Obligations are raised tool by tool, dimension by dimension. */
  ghost function ObligationsOf(spec: Spec, tools: seq<ToolItem>): (r: set<(string, Dimension)>)
    requires forall t :: t in tools ==> t in spec.tools
    ensures forall name, d :: (name, d) in r <==> Obliged(spec, name, d) && exists t :: t in tools && t.tool.name == name
  {
    if tools == [] then {}
    else ObligationsOf(spec, tools[1..])
         + (set d: Dimension | RiskDimension(d) && Obliged(spec, tools[0].tool.name, d) :: (tools[0].tool.name, d))
  }

  /** Every unmet obligation. */
  ghost function UnmetObligations(
    validates: Validator, spec: Spec, scenarios: seq<Scenario>
  ): (r: set<(string, Dimension)>)
    ensures forall name, d :: (name, d) in r <==> Unmet(validates, spec, scenarios, name, d)
  {
    set p | p in ObligationsOf(spec, spec.tools) && Unmet(validates, spec, scenarios, p.0, p.1)
  }

  // ---------------------------------------------------------------------------
  // More scenarios never create an obligation
  // ---------------------------------------------------------------------------

  /** An unmet obligation is a missing requirement, never an undecided one. */
  lemma {:induction false} UnmetIsMissing(
    validates: Validator, spec: Spec, scenarios: seq<Scenario>, name: string, d: Dimension
  )
    requires Obliged(spec, name, d)
    ensures Unmet(validates, spec, scenarios, name, d)
       <==> Evaluate(DeclaredWorld(validates, spec), ObligationSeed(name, d), scenarios).status.Missing?
  {
    StatusExact(DeclaredWorld(validates, spec), ObligationSeed(name, d), scenarios);
  }

  /** Running more scenarios can only meet obligations. */
  lemma {:induction false} UnmetAntitone(validates: Validator, spec: Spec, a: seq<Scenario>, b: seq<Scenario>)
    requires multiset(a) <= multiset(b)
    ensures UnmetObligations(validates, spec, b) <= UnmetObligations(validates, spec, a)
  {
    forall p | p in UnmetObligations(validates, spec, b) ensures p in UnmetObligations(validates, spec, a) {
      UnmetIsMissing(validates, spec, a, p.0, p.1);
      UnmetIsMissing(validates, spec, b, p.0, p.1);
      MoreScenarios(DeclaredWorld(validates, spec), ObligationSeed(p.0, p.1), a, b);
    }
  }

  /** The order of the scenarios is irrelevant. */
  lemma {:induction false} UnmetPermuted(validates: Validator, spec: Spec, a: seq<Scenario>, b: seq<Scenario>)
    requires multiset(a) == multiset(b)
    ensures UnmetObligations(validates, spec, a) == UnmetObligations(validates, spec, b)
  {
    UnmetAntitone(validates, spec, a, b);
    UnmetAntitone(validates, spec, b, a);
  }

  /** Nothing is unmet exactly when each declared risk is evidenced by some scenario of the run. */
  lemma {:induction false} NothingUnmet(validates: Validator, spec: Spec, scenarios: seq<Scenario>)
    ensures UnmetObligations(validates, spec, scenarios) == {}
       <==> forall name, d :: Obliged(spec, name, d) ==>
              exists s :: s in scenarios && Touched(DeclaredWorld(validates, spec), ObligationSeed(name, d), s)
  {
    var unmet := UnmetObligations(validates, spec, scenarios);
    forall name, d | Obliged(spec, name, d)
      ensures (name, d) in unmet
         <==> !exists s :: s in scenarios && Touched(DeclaredWorld(validates, spec), ObligationSeed(name, d), s)
    {
      UnmetIsMissing(validates, spec, scenarios, name, d);
      StatusExact(DeclaredWorld(validates, spec), ObligationSeed(name, d), scenarios);
    }
    if unmet != {} {
      var p :| p in unmet;
      assert Obliged(spec, p.0, p.1) && (p.0, p.1) in unmet;
    }
  }

  // ---------------------------------------------------------------------------
  // The listing
  // ---------------------------------------------------------------------------

  /** One unmet obligation with the reason of its evaluation. */
  datatype UnmetRisk = UnmetRisk(tool: string, dimension: Dimension, reason: string)

  /** The risk dimensions, in the order of their names. */
  const RISK_DIMENSIONS: seq<Dimension> := [AmbiguousOutcome, DuplicateAction, FabricatedSuccess, RetryControl]

  ghost function UnmetOn(
    validates: Validator, spec: Spec, scenarios: seq<Scenario>, name: string
  ): (f: Dimension -> seq<UnmetRisk>) {
    (d: Dimension) =>
      if Unmet(validates, spec, scenarios, name, d) then
        [UnmetRisk(name, d, Evaluate(DeclaredWorld(validates, spec), ObligationSeed(name, d), scenarios).reason)]
      else []
  }

  ghost function UnmetOf(validates: Validator, spec: Spec, scenarios: seq<Scenario>): (f: string -> seq<UnmetRisk>) {
    (name: string) => Gather(RISK_DIMENSIONS, UnmetOn(validates, spec, scenarios, name))
  }

  function ToolNames(spec: Spec): (r: set<string>) {
    set t | t in spec.tools :: t.tool.name
  }

  /** `unmet_risk_obligations`: by tool name, then by dimension name. */
  ghost function UnmetListing(validates: Validator, spec: Spec, scenarios: seq<Scenario>): (r: seq<UnmetRisk>) {
    Gather(Text.Sorted(ToolNames(spec)), UnmetOf(validates, spec, scenarios))
  }

  lemma {:induction false} ObligedNamed(spec: Spec, name: string, d: Dimension)
    requires Obliged(spec, name, d)
    ensures name in ToolNames(spec) && d in RISK_DIMENSIONS
  {
  }

  /** At most one row for each dimension, on this tool. */
  ghost predicate OwnRows(f: Dimension -> seq<UnmetRisk>, name: string) {
    forall d :: |f(d)| <= 1 && forall u :: u in f(d) ==> u.tool == name && u.dimension == d
  }

  lemma {:induction false} RowsAreOwn(validates: Validator, spec: Spec, scenarios: seq<Scenario>, name: string)
    ensures OwnRows(UnmetOn(validates, spec, scenarios, name), name)
  {
  }

  lemma {:induction false} OwnMember(f: Dimension -> seq<UnmetRisk>, name: string, u: UnmetRisk)
    requires OwnRows(f, name)
    ensures u in Gather(RISK_DIMENSIONS, f) <==> u.dimension in RISK_DIMENSIONS && u in f(u.dimension)
  {
    GatherMember(RISK_DIMENSIONS, f, u);
  }

  lemma {:induction false} OwnAscends(f: Dimension -> seq<UnmetRisk>, name: string)
    requires OwnRows(f, name)
    ensures Ordered(Gather(RISK_DIMENSIONS, f), Before)
  {
    forall i, j, x, y | 0 <= i < j < |RISK_DIMENSIONS| && x in f(RISK_DIMENSIONS[i]) && y in f(RISK_DIMENSIONS[j])
      ensures Before(x, y)
    {
      RanksAscend(i, j);
    }
    GatherOrdered(RISK_DIMENSIONS, f, Before);
  }

  lemma {:induction false} RanksAscend(i: nat, j: nat)
    requires i < j < |RISK_DIMENSIONS|
    ensures DimensionRank(RISK_DIMENSIONS[i]) < DimensionRank(RISK_DIMENSIONS[j])
  {
  }

  lemma {:induction false} UnmetOnMember(
    validates: Validator, spec: Spec, scenarios: seq<Scenario>, name: string, u: UnmetRisk
  )
    ensures u in UnmetOf(validates, spec, scenarios)(name)
       <==> u.tool == name && u.dimension in RISK_DIMENSIONS && u in UnmetOn(validates, spec, scenarios, name)(u.dimension)
  {
    RowsAreOwn(validates, spec, scenarios, name);
    OwnMember(UnmetOn(validates, spec, scenarios, name), name, u);
  }

  /** What is listed is exactly what is unmet, and the reason is always that no case touches the dimension. */
  lemma {:induction false} ListedExactly(validates: Validator, spec: Spec, scenarios: seq<Scenario>, u: UnmetRisk)
    ensures u in UnmetListing(validates, spec, scenarios)
       <==> Unmet(validates, spec, scenarios, u.tool, u.dimension) && u.reason == MissingReason(u.dimension)
  {
    ListedByName(validates, spec, scenarios, u);
    UnmetOnMember(validates, spec, scenarios, u.tool, u);
    RowExactly(validates, spec, scenarios, u);
  }

  lemma {:induction false} RowExactly(validates: Validator, spec: Spec, scenarios: seq<Scenario>, u: UnmetRisk)
    ensures u.tool in ToolNames(spec) && u.dimension in RISK_DIMENSIONS
            && u in UnmetOn(validates, spec, scenarios, u.tool)(u.dimension)
       <==> Unmet(validates, spec, scenarios, u.tool, u.dimension) && u.reason == MissingReason(u.dimension)
  {
    if Unmet(validates, spec, scenarios, u.tool, u.dimension) {
      ObligedNamed(spec, u.tool, u.dimension);
      UnmetReason(validates, spec, scenarios, u.tool, u.dimension);
    }
  }

  lemma {:induction false} ListedByName(validates: Validator, spec: Spec, scenarios: seq<Scenario>, u: UnmetRisk)
    ensures u in UnmetListing(validates, spec, scenarios)
       <==> u.tool in ToolNames(spec) && u in UnmetOf(validates, spec, scenarios)(u.tool)
  {
    var f := UnmetOf(validates, spec, scenarios);
    forall name | u in f(name) ensures u.tool == name { UnmetOnMember(validates, spec, scenarios, name, u); }
    NamedMember(ToolNames(spec), f, u);
  }

  lemma {:induction false} NamedMember(names: set<string>, f: string -> seq<UnmetRisk>, u: UnmetRisk)
    requires forall name :: u in f(name) ==> u.tool == name
    ensures u in Gather(Text.Sorted(names), f) <==> u.tool in names && u in f(u.tool)
  {
    var listed := Text.Sorted(names);
    GatherMember(listed, f, u);
    if u.tool in names && u in f(u.tool) {
      var i :| 0 <= i < |listed| && listed[i] == u.tool;
      assert u in f(listed[i]);
    }
  }

  lemma {:induction false} UnmetReason(validates: Validator, spec: Spec, scenarios: seq<Scenario>, name: string, d: Dimension)
    requires Unmet(validates, spec, scenarios, name, d)
    ensures Evaluate(DeclaredWorld(validates, spec), ObligationSeed(name, d), scenarios).reason == MissingReason(d)
  {
    UnmetIsMissing(validates, spec, scenarios, name, d);
  }

  /** Earlier by tool name, or on the same tool by dimension. */
  ghost predicate Before(x: UnmetRisk, y: UnmetRisk) {
    if x.tool == y.tool then DimensionRank(x.dimension) < DimensionRank(y.dimension) else Text.Le(x.tool, y.tool)
  }

  function DimensionRank(d: Dimension): (n: nat) {
    match d
    case AmbiguousOutcome => 0
    case DuplicateAction => 1
    case FabricatedSuccess => 2
    case _ => 3
  }

  /** The listing ascends, and so lists nothing twice. */
  lemma {:induction false} ListingAscends(validates: Validator, spec: Spec, scenarios: seq<Scenario>)
    ensures Ordered(UnmetListing(validates, spec, scenarios), Before)
  {
    var names, f := Text.Sorted(ToolNames(spec)), UnmetOf(validates, spec, scenarios);
    Text.SortedAscending(ToolNames(spec));
    forall i | 0 <= i < |names| ensures Ordered(f(names[i]), Before) {
      OneToolAscends(validates, spec, scenarios, names[i]);
    }
    forall i, j, x, y | 0 <= i < j < |names| && x in f(names[i]) && y in f(names[j]) ensures Before(x, y) {
      UnmetOnMember(validates, spec, scenarios, names[i], x);
      UnmetOnMember(validates, spec, scenarios, names[j], y);
    }
    GatherOrdered(names, f, Before);
  }

  lemma {:induction false} OneToolAscends(validates: Validator, spec: Spec, scenarios: seq<Scenario>, name: string)
    ensures Ordered(UnmetOf(validates, spec, scenarios)(name), Before)
  {
    RowsAreOwn(validates, spec, scenarios, name);
    OwnAscends(UnmetOn(validates, spec, scenarios, name), name);
  }

  lemma {:induction false} NothingListed(validates: Validator, spec: Spec, scenarios: seq<Scenario>)
    ensures UnmetListing(validates, spec, scenarios) == [] <==> UnmetObligations(validates, spec, scenarios) == {}
  {
    var listing, unmet := UnmetListing(validates, spec, scenarios), UnmetObligations(validates, spec, scenarios);
    if listing != [] {
      assert listing[0] in listing;
      ListedExactly(validates, spec, scenarios, listing[0]);
      assert (listing[0].tool, listing[0].dimension) in unmet;
    }
    if unmet != {} {
      var p :| p in unmet;
      ListedExactly(validates, spec, scenarios, UnmetRisk(p.0, p.1, MissingReason(p.1)));
      assert UnmetRisk(p.0, p.1, MissingReason(p.1)) in listing;
    }
  }

  // ---------------------------------------------------------------------------
  // Agreement with the report
  // ---------------------------------------------------------------------------

  lemma {:induction false} SingleGroup(tools: seq<ToolItem>, risk: seq<RiskAssertion>, t: ToolItem)
    requires t in tools
    requires forall x :: x in tools && x.tool.name == t.tool.name ==> x == t
    ensures t.tool.name in RiskGroups(tools, risk)
    ensures RiskGroups(tools, risk)[t.tool.name] == GroupOf(t, RiskOf(risk, t.tool.name))
    ensures t.tool.name in ToolsByName(tools) && ToolsByName(tools)[t.tool.name] == t.tool
  {
    var last := tools[|tools| - 1];
    if last.tool.name != t.tool.name {
      var before := tools[..|tools| - 1];
      assert t in before;
      assert forall x :: x in before ==> x in tools;
      SingleGroup(before, risk, t);
    }
  }

  /** An obliged name has one definition, and its risk groups make the requirement applicable. */
  lemma {:induction false} ObligedGroup(spec: Spec, name: string, d: Dimension) returns (t: ToolItem)
    requires Obliged(spec, name, d)
    ensures t in spec.tools && t.tool.name == name && RiskDimension(d)
    ensures name in RiskGroups(spec.tools, spec.risk) && Gate(RiskGroups(spec.tools, spec.risk)[name], d) == Some(Applicable)
    ensures name in ToolsByName(spec.tools) && ToolsByName(spec.tools)[name] == t.tool
    ensures forall x :: x in spec.tools && x.tool.name == name ==> x == t
  {
    t :| t in spec.tools && t.tool.name == name && Demands(t.tool, RiskOf(spec.risk, name).value, d);
    forall x | x in spec.tools && x.tool.name == name ensures x == t {
      var i :| 0 <= i < |spec.tools| && spec.tools[i] == x;
      var j :| 0 <= j < |spec.tools| && spec.tools[j] == t;
      if i < j { CountTwice(spec.tools, i, j, Named(name)); }
      if j < i { CountTwice(spec.tools, j, i, Named(name)); }
    }
    SingleGroup(spec.tools, spec.risk, t);
  }

  /** The name crosses the artifact boundary unchanged. */
  ghost predicate CleanlyBound(env: Ambient, spec: Spec, name: string) {
    !AmbiguousName(spec, name) && !LossyName(env, spec, name)
  }

  /** The report's own requirement for an obliged, cleanly bound tool. */
  lemma {:induction false} ObligedRequirement(
    env: Ambient, spec: Spec, reference: seq<Scenario>, name: string, d: Dimension
  )
    requires Obliged(spec, name, d) && CleanlyBound(env, spec, name)
    ensures (d, ToolSubject(name)) in FinalTable(env, spec, reference)
    ensures FinalTable(env, spec, reference)[(d, ToolSubject(name))] == ObligationSeed(name, d)
  {
    var t := ObligedGroup(spec, name, d);
    SpecContribution(spec, name, d, Applicable);
    RiskRequirement(spec, reference, name, d);
    assert ForTool(d, Applicable, name) in AllSeeds(spec, reference);
    assert Requirements(spec, reference)[(d, ToolSubject(name))] == ForTool(d, Applicable, name);
  }

  /** For these dimensions only the tool itself matters. */
  lemma {:induction false} SameToolSameTouch(w: World, v: World, name: string, d: Dimension, s: Scenario)
    requires RiskDimension(d) && w.validates == v.validates && w.Get(name) == v.Get(name)
    ensures Touched(w, ObligationSeed(name, d), s) <==> Touched(v, ObligationSeed(name, d), s)
  {
    forall c | c in ActionsFor(s, name) ensures c.tool == name {}
    forall c | c in ActionsFor(s, name)
      ensures TraceFor(w, s, c, MaxLength(s, name)) == TraceFor(v, s, c, MaxLength(s, name)) {}
    if d.AmbiguousOutcome? {
      assert SomeTrace(w, s, ActionsFor(s, name), MaxLength(s, name), HasAmbiguous(w.Get(name)))
        <==> SomeTrace(v, s, ActionsFor(s, name), MaxLength(s, name), HasAmbiguous(v.Get(name)));
    }
  }

  /**
    For a declared tool whose name and schema survive the artifact boundary, the
    release gate and the coverage report agree: the obligation is unmet exactly when
    the report's own requirement for that tool and dimension is MISSING.
   */
  lemma {:induction false} ObligationsAgreeWithReport(
    env: Ambient, spec: Spec, reference: seq<Scenario>, scenarios: seq<Scenario>, name: string, d: Dimension
  )
    requires Obliged(spec, name, d) && CleanlyBound(env, spec, name)
    ensures (d, ToolSubject(name)) in FinalTable(env, spec, reference)
    ensures (name, d) in UnmetObligations(env.validates, spec, scenarios)
       <==> Evaluate(WorldOf(env, spec), FinalTable(env, spec, reference)[(d, ToolSubject(name))], scenarios).status.Missing?
  {
    var t := ObligedGroup(spec, name, d);
    var w, v := DeclaredWorld(env.validates, spec), WorldOf(env, spec);
    ObligedRequirement(env, spec, reference, name, d);
    UnmetIsMissing(env.validates, spec, scenarios, name, d);
    StatusExact(w, ObligationSeed(name, d), scenarios);
    StatusExact(v, ObligationSeed(name, d), scenarios);
    forall s ensures Touched(w, ObligationSeed(name, d), s) <==> Touched(v, ObligationSeed(name, d), s) {
      SameToolSameTouch(w, v, name, d, s);
    }
  }
}
