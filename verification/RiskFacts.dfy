/**
  Risk that is only inferred is never turned into a requirement by the cases that
  were generated from the same inference.
 */
module RiskFacts {
  import opened Bags
  import opened Domain
  import opened Outcomes
  import opened Seeds
  import opened SeedFacts

  predicate RiskDimension(d: Dimension) {
    d.FabricatedSuccess? || d.DuplicateAction? || d.AmbiguousOutcome? || d.RetryControl?
  }

  /** The group whose authority gates the dimension. */
  function Gate(g: Group, d: Dimension): (a: Option<Applicability>)
    requires RiskDimension(d)
  {
    if d.FabricatedSuccess? || d.DuplicateAction? then g.action else g.destructive
  }

  predicate PolicyDeclares(p: PolicyItem, tool: string, d: Dimension) {
    p.tool == tool
    && ((p.idempotent == Some(false) && (d.DuplicateAction? || d.AmbiguousOutcome? || d.RetryControl?))
        || (p.maxRetries.Some? && d.RetryControl?))
  }

  /** A trajectory rule of this dimension for the tool. */
  predicate RuleFor(t: Trajectory, tool: string, d: Dimension) {
    TextParameter(t.parameters, "tool_name") == Some(tool)
    && match d
       case DuplicateAction => t.kind.NoDuplicateSideEffect?
       case AmbiguousOutcome => t.kind.NoRetryAfterAmbiguousTimeout?
       case RetryControl => t.kind.NoRetryAfterAmbiguousTimeout? || t.kind.MaxRetries?
       case _ => false
  }

  /** The scenario states a rule of this dimension for the tool. */
  ghost predicate ScenarioDeclares(s: Scenario, tool: string, d: Dimension) {
    (d.FabricatedSuccess? && tool in Focal(s) && exists o :: o in s.outputs && o.kind.NoFabricatedSuccess?)
    || exists t :: t in s.trajectory && RuleFor(t, tool, d)
  }

  ghost predicate AuthoritativePolicy(spec: Spec, tool: string, d: Dimension) {
    exists p :: p in spec.policies && p.authoritative && PolicyDeclares(p, tool, d)
  }

  /** A scenario that was not generated from inferred risk declares the rule. */
  ghost predicate IndependentScenario(r: seq<Scenario>, tool: string, d: Dimension) {
    exists s :: s in r && "source:behavioral_outcome" !in s.tags && ScenarioDeclares(s, tool, d)
  }

  // ---------------------------------------------------------------------------
  // Contributions to one risk requirement
  // ---------------------------------------------------------------------------

  lemma {:induction false} PolicySeedsAre(p: PolicyItem, tool: string, d: Dimension, a: Applicability)
    requires RiskDimension(d)
    ensures ForTool(d, a, tool) in PolicySeeds(p)
       <==> PolicyDeclares(p, tool, d) && a == (if p.authoritative then Applicable else Unknown)
  {
  }

  lemma {:induction false} ToolContribution(spec: Spec, tool: string, d: Dimension, a: Applicability)
    requires RiskDimension(d)
    ensures var groups := RiskGroups(spec.tools, spec.risk);
            (exists i :: 0 <= i < |spec.tools| && ForTool(d, a, tool) in ToolSeeds(groups)(spec.tools[i]))
            <==> tool in groups && Gate(groups[tool], d) == Some(a)
  {
    var groups := RiskGroups(spec.tools, spec.risk);
    forall i | 0 <= i < |spec.tools|
      ensures ForTool(d, a, tool) in ToolSeeds(groups)(spec.tools[i])
         <==> spec.tools[i].tool.name == tool && Gate(GroupIn(groups, tool), d) == Some(a)
    {
      ToolSeedsAre(groups, spec.tools[i], ForTool(d, a, tool));
    }
  }

  lemma {:induction false} SpecContribution(spec: Spec, tool: string, d: Dimension, a: Applicability)
    requires RiskDimension(d)
    ensures ForTool(d, a, tool) in SpecSeeds(spec)
       <==> (tool in RiskGroups(spec.tools, spec.risk) && Gate(RiskGroups(spec.tools, spec.risk)[tool], d) == Some(a))
            || exists p :: p in spec.policies && PolicyDeclares(p, tool, d)
                 && a == (if p.authoritative then Applicable else Unknown)
  {
    var c := ForTool(d, a, tool);
    GatherMember(spec.tools, ToolSeeds(RiskGroups(spec.tools, spec.risk)), c);
    ToolContribution(spec, tool, d, a);
    PolicyContribution(spec, tool, d, a);
  }

  lemma {:induction false} PolicyContribution(spec: Spec, tool: string, d: Dimension, a: Applicability)
    requires RiskDimension(d)
    ensures ForTool(d, a, tool) in Gather(spec.policies, PolicySeeds)
       <==> exists p :: p in spec.policies && PolicyDeclares(p, tool, d) && a == (if p.authoritative then Applicable else Unknown)
  {
    var c := ForTool(d, a, tool);
    GatherMember(spec.policies, PolicySeeds, c);
    forall p | p in spec.policies
      ensures c in PolicySeeds(p) <==> PolicyDeclares(p, tool, d) && a == (if p.authoritative then Applicable else Unknown)
    {
      PolicySeedsAre(p, tool, d, a);
    }
    if p :| p in spec.policies && c in PolicySeeds(p) {
      var i :| 0 <= i < |spec.policies| && spec.policies[i] == p;
      assert c in PolicySeeds(spec.policies[i]);
    }
  }

  lemma {:induction false} TrajectoryContribution(
    s: Scenario, undeclared: set<string>, t: Trajectory, tool: string, d: Dimension, a: Applicability
  )
    requires RiskDimension(d)
    ensures ForTool(d, a, tool) in TrajectorySeeds(s, undeclared)(t)
       <==> RuleFor(t, tool, d) && a == ScenarioRisk(s, Some(tool), undeclared)
  {
  }

  lemma {:induction false} TrajectoryRules(
    s: Scenario, undeclared: set<string>, tool: string, d: Dimension, a: Applicability
  )
    requires RiskDimension(d)
    ensures IsTrajectorySeed(s, undeclared, ForTool(d, a, tool))
       <==> (exists t :: t in s.trajectory && RuleFor(t, tool, d)) && a == ScenarioRisk(s, Some(tool), undeclared)
  {
    forall t | t in s.trajectory
      ensures ForTool(d, a, tool) in TrajectorySeeds(s, undeclared)(t)
         <==> RuleFor(t, tool, d) && a == ScenarioRisk(s, Some(tool), undeclared)
    {
      TrajectoryContribution(s, undeclared, t, tool, d, a);
    }
  }

  /** A requirement bound to one tool never comes from a confirmation rule or a pair of tools. */
  lemma {:induction false} OtherSources(s: Scenario, tool: string, d: Dimension, a: Applicability)
    requires RiskDimension(d)
    ensures !IsConfirmationSeed(s, ForTool(d, a, tool)) && !IsPairSeed(PrerequisitePairs(s), ForTool(d, a, tool))
  {
  }

  lemma {:induction false} FabricationContribution(
    s: Scenario, undeclared: set<string>, tool: string, d: Dimension, a: Applicability
  )
    requires RiskDimension(d)
    ensures IsFabricationSeed(s, undeclared, ForTool(d, a, tool))
       <==> d.FabricatedSuccess? && tool in Focal(s) && (exists o :: o in s.outputs && o.kind.NoFabricatedSuccess?)
            && a == ScenarioRisk(s, Some(tool), undeclared)
  {
  }

  lemma {:induction false} ScenarioContribution(
    s: Scenario, undeclared: set<string>, tool: string, d: Dimension, a: Applicability
  )
    requires RiskDimension(d)
    ensures ForTool(d, a, tool) in SeedsOf(s, undeclared)
       <==> ScenarioDeclares(s, tool, d) && a == ScenarioRisk(s, Some(tool), undeclared)
  {
    var c := ForTool(d, a, tool);
    SeedsOfAre(s, undeclared, c);
    OtherSources(s, tool, d, a);
    FabricationContribution(s, undeclared, tool, d, a);
    TrajectoryRules(s, undeclared, tool, d, a);
    assert c in SeedsOf(s, undeclared) <==> IsFabricationSeed(s, undeclared, c) || IsTrajectorySeed(s, undeclared, c);
  }

  lemma {:induction false} ReferenceContribution(
    r: seq<Scenario>, undeclared: set<string>, tool: string, d: Dimension, a: Applicability
  )
    requires RiskDimension(d)
    ensures ForTool(d, a, tool) in Gather(r, ScenarioSeeds(undeclared))
       <==> exists s :: s in r && ScenarioDeclares(s, tool, d) && a == ScenarioRisk(s, Some(tool), undeclared)
  {
    var c := ForTool(d, a, tool);
    GatherMember(r, ScenarioSeeds(undeclared), c);
    forall i | 0 <= i < |r|
      ensures c in ScenarioSeeds(undeclared)(r[i])
         <==> ScenarioDeclares(r[i], tool, d) && a == ScenarioRisk(r[i], Some(tool), undeclared)
    {
      ScenarioContribution(r[i], undeclared, tool, d, a);
    }
  }

  lemma {:induction false} RiskKeyBinding(spec: Spec, r: seq<Scenario>, tool: string, d: Dimension, c: Seed)
    requires c in AllSeeds(spec, r) && KeyOf(c) == (d, ToolSubject(tool))
    ensures c == ForTool(d, c.applicability, tool)
  {
    AllBound(spec, r, c);
    var own := ForTool(d, Unknown, tool);
    assert WellBound(own);
    SubjectBinding(c, own);
  }

  /** When a risk requirement exists and is applicable, said about the contributions. */
  lemma {:induction false} RiskRequirement(spec: Spec, r: seq<Scenario>, tool: string, d: Dimension)
    requires RiskDimension(d)
    ensures var k := (d, ToolSubject(tool));
            var cs := AllSeeds(spec, r);
            (k in Requirements(spec, r) <==> exists a :: ForTool(d, a, tool) in cs)
            && (ApplicableIn(Requirements(spec, r), k) <==> ForTool(d, Applicable, tool) in cs)
            && (k in Requirements(spec, r) ==> Requirements(spec, r)[k] == ForTool(d, Requirements(spec, r)[k].applicability, tool))
  {
    var k := (d, ToolSubject(tool));
    var cs := AllSeeds(spec, r);
    TableStrongest(cs, k);
    forall c | c in cs && KeyOf(c) == k ensures c == ForTool(d, c.applicability, tool) {
      RiskKeyBinding(spec, r, tool, d, c);
    }
    forall a ensures KeyOf(ForTool(d, a, tool)) == k {}
    assert Rank(Applicable) == 2;
  }

  ghost predicate ApplicableIn(seeds: Table, k: Key) {
    k in seeds && seeds[k].applicability.Applicable?
  }

  lemma {:induction false} IndependentExactly(r: seq<Scenario>, undeclared: set<string>, tool: string, d: Dimension)
    requires tool in undeclared
    ensures (exists s :: s in r && ScenarioDeclares(s, tool, d) && Applicable == ScenarioRisk(s, Some(tool), undeclared))
       <==> IndependentScenario(r, tool, d)
  {
  }

  lemma {:induction false} AuthoritativeExactly(spec: Spec, tool: string, d: Dimension)
    ensures (exists p :: p in spec.policies && PolicyDeclares(p, tool, d)
                && Applicable == (if p.authoritative then Applicable else Unknown))
       <==> AuthoritativePolicy(spec, tool, d)
  {
  }

  /**
    For a tool with a risk group that rests on inference, a risk requirement is
    applicable exactly when that group is declared, an authoritative policy says so,
    or a scenario not generated from the inference says so.
   */
  lemma {:induction false} InferredRiskNotLaundered(spec: Spec, r: seq<Scenario>, tool: string, d: Dimension)
    requires RiskDimension(d) && tool in UndeclaredTools(spec)
    ensures ApplicableIn(Requirements(spec, r), (d, ToolSubject(tool)))
       <==> Gate(RiskGroups(spec.tools, spec.risk)[tool], d) == Some(Applicable)
            || AuthoritativePolicy(spec, tool, d)
            || IndependentScenario(r, tool, d)
  {
    RiskRequirement(spec, r, tool, d);
    SpecContribution(spec, tool, d, Applicable);
    AuthoritativeExactly(spec, tool, d);
    ReferenceContribution(r, UndeclaredTools(spec), tool, d, Applicable);
    IndependentExactly(r, UndeclaredTools(spec), tool, d);
  }

  /** A requirement whose gate is undecided is still listed, as undecided at least. */
  lemma {:induction false} UndecidedRiskIsListed(spec: Spec, r: seq<Scenario>, tool: string, d: Dimension)
    requires RiskDimension(d) && tool in RiskGroups(spec.tools, spec.risk)
    requires Gate(RiskGroups(spec.tools, spec.risk)[tool], d).Some?
    ensures (d, ToolSubject(tool)) in Requirements(spec, r)
  {
    var a := Gate(RiskGroups(spec.tools, spec.risk)[tool], d).value;
    SpecContribution(spec, tool, d, a);
    RiskRequirement(spec, r, tool, d);
  }
}
