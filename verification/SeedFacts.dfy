/**
  Requirements do not depend on the order in which scenarios are read, except when
  two prerequisite relations share one display subject.
 */
module SeedFacts {
  import opened Bags
  import opened Domain
  import opened Outcomes
  import opened Seeds
  import Text

  // ---------------------------------------------------------------------------
  // Subjects determine what a requirement is bound to
  // ---------------------------------------------------------------------------

  ghost predicate WellBound(c: Seed) {
    c.unknownReason == DEFAULT_REASON
    && ((c.tool.Some? && c.prerequisite.None? && c.subject == ToolSubject(c.tool.value))
        || (c.tool.None? && c.prerequisite.None? && "scenario:" <= c.subject)
        || (c.tool.Some? && c.prerequisite.Some? && c.applicability.Applicable?
            && c.subject == PrerequisiteSubject(c.tool.value, c.prerequisite.value)))
  }

  lemma {:induction false} ToolSeedBound(groups: map<string, Group>, item: ToolItem, c: Seed)
    requires c in ToolSeeds(groups)(item)
    ensures WellBound(c) && c.tool.Some? && c.prerequisite.None? && !c.dimension.PrerequisiteSuccess?
  {
    ToolSeedsAre(groups, item, c);
  }

  lemma {:induction false} PolicySeedBound(p: PolicyItem, c: Seed)
    requires c in PolicySeeds(p)
    ensures WellBound(c) && c.tool.Some? && c.prerequisite.None? && !c.dimension.PrerequisiteSuccess?
  {
  }

  lemma {:induction false} SpecSeedsBound(spec: Spec, c: Seed)
    requires c in SpecSeeds(spec)
    ensures WellBound(c) && c.tool.Some? && c.prerequisite.None? && !c.dimension.PrerequisiteSuccess?
  {
    var groups := RiskGroups(spec.tools, spec.risk);
    GatherMember(spec.tools, ToolSeeds(groups), c);
    GatherMember(spec.policies, PolicySeeds, c);
    if i :| 0 <= i < |spec.tools| && c in ToolSeeds(groups)(spec.tools[i]) {
      ToolSeedBound(groups, spec.tools[i], c);
    } else {
      var i :| 0 <= i < |spec.policies| && c in PolicySeeds(spec.policies[i]);
      PolicySeedBound(spec.policies[i], c);
    }
  }

  lemma {:induction false} GroupSeedsAre(a: Option<Applicability>, dimensions: seq<Dimension>, tool: string, c: Seed)
    ensures c in GroupSeeds(a, dimensions, tool)
       <==> a.Some? && c.dimension in dimensions && c == ForTool(c.dimension, a.value, tool)
  {
    if a.Some? {
      var f := (d: Dimension) => [ForTool(d, a.value, tool)];
      GatherMember(dimensions, f, c);
      if c.dimension in dimensions && c == ForTool(c.dimension, a.value, tool) {
        var i :| 0 <= i < |dimensions| && dimensions[i] == c.dimension;
        assert c in f(dimensions[i]);
      }
    }
  }

  function GroupIn(groups: map<string, Group>, name: string): (g: Group) {
    if name in groups then groups[name] else Group(Some(Unknown), Some(Unknown))
  }

  lemma {:induction false} ToolSeedsAre(groups: map<string, Group>, item: ToolItem, c: Seed)
    ensures c in ToolSeeds(groups)(item)
       <==> var g := GroupIn(groups, item.tool.name);
            c == ForTool(c.dimension, c.applicability, item.tool.name)
            && match c.dimension
               case SuccessPath => c.applicability == Applicable
               case FailureHandling => c.applicability == Applicable
               case TimeoutHandling => c.applicability == Applicable
               case FabricatedSuccess => g.action == Some(c.applicability)
               case DuplicateAction => g.action == Some(c.applicability)
               case AmbiguousOutcome => g.destructive == Some(c.applicability)
               case RetryControl => g.destructive == Some(c.applicability)
               case _ => false
  {
    var g := GroupIn(groups, item.tool.name);
    GroupSeedsAre(g.action, [FabricatedSuccess, DuplicateAction], item.tool.name, c);
    GroupSeedsAre(g.destructive, [AmbiguousOutcome, RetryControl], item.tool.name, c);
  }

  /** A rule against fabricated success concerns every focal tool. */
  ghost predicate IsFabricationSeed(s: Scenario, undeclared: set<string>, c: Seed) {
    (exists o :: o in s.outputs && o.kind.NoFabricatedSuccess?) && c.tool.Some? && c.tool.value in Focal(s)
    && c == ForTool(FabricatedSuccess, ScenarioRisk(s, c.tool, undeclared), c.tool.value)
  }

  lemma {:induction false} OutputSeedsAre(s: Scenario, undeclared: set<string>, c: Seed)
    ensures c in Gather(s.outputs, OutputSeeds(s, undeclared)) <==> IsFabricationSeed(s, undeclared, c)
  {
    var focal := Text.Sorted(Focal(s));
    var f := (t: string) => [ForTool(FabricatedSuccess, ScenarioRisk(s, Some(t), undeclared), t)];
    GatherMember(s.outputs, OutputSeeds(s, undeclared), c);
    GatherMember(focal, f, c);
    forall i | 0 <= i < |s.outputs|
      ensures c in OutputSeeds(s, undeclared)(s.outputs[i])
         <==> s.outputs[i].kind.NoFabricatedSuccess? && exists j :: 0 <= j < |focal| && c in f(focal[j])
    {
      assert OutputSeeds(s, undeclared)(s.outputs[i])
          == if s.outputs[i].kind.NoFabricatedSuccess? then Gather(focal, f) else [];
    }
    if c.tool.Some? && c.tool.value in Focal(s) {
      var j :| 0 <= j < |focal| && focal[j] == c.tool.value;
    }
  }

  ghost predicate IsTrajectorySeed(s: Scenario, undeclared: set<string>, c: Seed) {
    exists t :: t in s.trajectory && c in TrajectorySeeds(s, undeclared)(t)
  }

  lemma {:induction false} TrajectorySeedsAre(s: Scenario, undeclared: set<string>, c: Seed)
    ensures c in Gather(s.trajectory, TrajectorySeeds(s, undeclared)) <==> IsTrajectorySeed(s, undeclared, c)
  {
    GatherMember(s.trajectory, TrajectorySeeds(s, undeclared), c);
  }

  ghost predicate IsConfirmationSeed(s: Scenario, c: Seed) {
    c.tool.Some? && c.tool.value in ConfirmationTools(s)
    && (c.dimension.ConfirmationWithConsent? || c.dimension.ConfirmationWithoutConsent?)
    && c == ForTool(c.dimension, Applicable, c.tool.value)
  }

  /** A pass over the listing of a set. */
  lemma {:induction false} GatherListed(s: set<string>, g: string -> seq<Seed>, c: Seed)
    ensures c in Gather(Text.Sorted(s), g) <==> exists x :: x in s && c in g(x)
  {
    var listed := Text.Sorted(s);
    GatherMember(listed, g, c);
    if i :| 0 <= i < |listed| && c in g(listed[i]) {
      assert listed[i] in s;
    }
    if x :| x in s && c in g(x) {
      assert x in listed;
    }
  }

  lemma {:induction false} OneConfirmation(t: string, c: Seed)
    ensures c in ConfirmationSeeds(t)
       <==> (c.dimension.ConfirmationWithConsent? || c.dimension.ConfirmationWithoutConsent?) && c == ForTool(c.dimension, Applicable, t)
  {
  }

  lemma {:induction false} ConfirmationSeedsAre(s: Scenario, c: Seed)
    ensures c in Gather(Text.Sorted(ConfirmationTools(s)), ConfirmationSeeds) <==> IsConfirmationSeed(s, c)
  {
    GatherListed(ConfirmationTools(s), ConfirmationSeeds, c);
    forall t ensures c in ConfirmationSeeds(t) ==> c.tool == Some(t) { OneConfirmation(t, c); }
    if c.tool.Some? { OneConfirmation(c.tool.value, c); }
  }

  ghost predicate IsPairSeed(pairs: set<(string, string)>, c: Seed) {
    c.tool.Some? && c.prerequisite.Some? && (c.tool.value, c.prerequisite.value) in pairs
    && c in PairSeeds(c.tool.value)(c.prerequisite.value)
  }

  lemma {:induction false} PairSeedsAre(f: string, p: string, c: Seed)
    ensures c in PairSeeds(f)(p) ==> c.tool == Some(f) && c.prerequisite == Some(p)
  {
  }

  lemma {:induction false} PriorSeedsOf(pairs: set<(string, string)>, f: string, g: string -> seq<Seed>, c: Seed)
    requires forall p :: c in g(p) ==> c.tool == Some(f) && c.prerequisite == Some(p)
    ensures c in Gather(Text.Sorted(Priors(pairs, f)), g)
       <==> c.tool.Some? && c.prerequisite.Some? && (c.tool.value, c.prerequisite.value) in pairs
            && c in g(c.prerequisite.value) && c.tool.value == f
  {
    GatherListed(Priors(pairs, f), g, c);
    if c.tool == Some(f) && c.prerequisite.Some? && (f, c.prerequisite.value) in pairs {
      assert c.prerequisite.value in Priors(pairs, f);
    }
  }

  lemma {:induction false} PriorSeedsAre(pairs: set<(string, string)>, f: string, c: Seed)
    ensures c in SeedsOfPairs(pairs, f) <==> IsPairSeed(pairs, c) && c.tool.value == f
  {
    forall p | c in PairSeeds(f)(p) ensures c.tool == Some(f) && c.prerequisite == Some(p) { PairSeedsAre(f, p, c); }
    PriorSeedsOf(pairs, f, PairSeeds(f), c);
  }

  lemma {:induction false} PrerequisiteSeedsAre(pairs: set<(string, string)>, c: Seed)
    requires forall a, b :: a in pairs && b in pairs ==> a.0 == b.0
    ensures c in PrerequisiteSeeds(pairs) <==> IsPairSeed(pairs, c)
  {
    if pairs != {} {
      var pair :| pair in pairs && PrerequisiteSeeds(pairs) == SeedsOfPairs(pairs, pair.0);
      PriorSeedsAre(pairs, pair.0, c);
    }
  }

  /** All pairs of one scenario share the one focal tool its tags name. */
  lemma {:induction false} PairFocal(s: Scenario, a: (string, string), b: (string, string))
    requires a in PrerequisitePairs(s) && b in PrerequisitePairs(s)
    ensures a.0 == b.0
  {
    var focal := TaggedFocal(s);
    assert a.0 in focal && b.0 in focal && |focal - {a.0}| == 0;
  }

  /** Every contribution of a scenario, by where it comes from. */
  lemma {:induction false} SeedsOfAre(s: Scenario, undeclared: set<string>, c: Seed)
    ensures c in SeedsOf(s, undeclared)
       <==> IsFabricationSeed(s, undeclared, c) || IsTrajectorySeed(s, undeclared, c)
            || IsConfirmationSeed(s, c) || IsPairSeed(PrerequisitePairs(s), c)
  {
    OutputSeedsAre(s, undeclared, c);
    TrajectorySeedsAre(s, undeclared, c);
    ConfirmationSeedsAre(s, c);
    forall a, b | a in PrerequisitePairs(s) && b in PrerequisitePairs(s) ensures a.0 == b.0 { PairFocal(s, a, b); }
    PrerequisiteSeedsAre(PrerequisitePairs(s), c);
  }

  lemma {:induction false} TrajectorySeedBound(s: Scenario, undeclared: set<string>, t: Trajectory, c: Seed)
    requires c in TrajectorySeeds(s, undeclared)(t)
    ensures WellBound(c) && c.prerequisite.None? && !c.dimension.PrerequisiteSuccess?
  {
    assert c.subject == TrajectorySubject(s, t) && c.tool == TextParameter(t.parameters, "tool_name");
  }

  lemma {:induction false} PairSeedBound(f: string, p: string, c: Seed)
    requires c in PairSeeds(f)(p)
    ensures WellBound(c) && c.tool == Some(f) && c.prerequisite == Some(p)
  {
  }

  lemma {:induction false} SeedsOfBound(s: Scenario, undeclared: set<string>, c: Seed)
    requires c in SeedsOf(s, undeclared)
    ensures WellBound(c)
    ensures c.prerequisite.Some? ==> c.tool.Some? && (c.tool.value, c.prerequisite.value) in PrerequisitePairs(s)
    ensures c.dimension.PrerequisiteSuccess? ==> c.prerequisite.Some?
  {
    SeedsOfAre(s, undeclared, c);
    if IsTrajectorySeed(s, undeclared, c) {
      var t :| t in s.trajectory && c in TrajectorySeeds(s, undeclared)(t);
      TrajectorySeedBound(s, undeclared, t, c);
    } else if IsPairSeed(PrerequisitePairs(s), c) {
      PairSeedBound(c.tool.value, c.prerequisite.value, c);
    }
  }

  ghost predicate DeclaredPair(reference: seq<Scenario>, focal: string, prior: string) {
    exists s :: s in reference && (focal, prior) in PrerequisitePairs(s)
  }

  lemma {:induction false} AllBound(spec: Spec, reference: seq<Scenario>, c: Seed)
    requires c in AllSeeds(spec, reference)
    ensures WellBound(c)
    ensures c.prerequisite.Some? ==> DeclaredPair(reference, c.tool.value, c.prerequisite.value)
  {
    if c in SpecSeeds(spec) {
      SpecSeedsBound(spec, c);
    } else {
      var undeclared := UndeclaredTools(spec);
      GatherMember(reference, ScenarioSeeds(undeclared), c);
      var i :| 0 <= i < |reference| && c in ScenarioSeeds(undeclared)(reference[i]);
      SeedsOfBound(reference[i], undeclared, c);
    }
  }

  lemma {:induction false} SubjectBinding(c: Seed, d: Seed)
    requires WellBound(c) && WellBound(d) && c.subject == d.subject
    ensures c.prerequisite.Some? <==> d.prerequisite.Some?
    ensures c.prerequisite.None? ==> c.tool == d.tool
  {
    if c.tool.Some? && c.prerequisite.None? {
      assert c.subject[0] == 't' && c.subject[5..] == c.tool.value;
    } else if c.tool.None? {
      assert c.subject[0] == 's';
    } else {
      assert c.subject[0] == 'p';
    }
    if d.tool.Some? && d.prerequisite.None? {
      assert d.subject[0] == 't' && d.subject[5..] == d.tool.value;
    } else if d.tool.None? {
      assert d.subject[0] == 's';
    } else {
      assert d.subject[0] == 'p';
    }
  }

  // ---------------------------------------------------------------------------
  // Order of the reference suite
  // ---------------------------------------------------------------------------

  /** Two different prerequisite relations of the suite are displayed under one subject. */
  ghost predicate Collides(reference: seq<Scenario>) {
    exists f, p, g, q :: DeclaredPair(reference, f, p) && DeclaredPair(reference, g, q)
      && PrerequisiteSubject(f, p) == PrerequisiteSubject(g, q) && (f, p) != (g, q)
  }

  lemma {:induction false} FoldSplit(seeds: Table, a: seq<Seed>, b: seq<Seed>)
    ensures Fold(seeds, a + b) == Fold(Fold(seeds, a), b)
    decreases |a|
  {
    if a == [] {
      assert a + b == b;
    } else {
      assert (a + b)[1..] == a[1..] + b;
      FoldSplit(AddSeed(seeds, a[0]), a[1..], b);
    }
  }

  /** What the tools and policies contribute, read in some order. */
  ghost function Contributed(spec: Spec, tools: seq<ToolItem>, policies: seq<PolicyItem>): (r: seq<Seed>) {
    Gather(tools, ToolSeeds(RiskGroups(spec.tools, spec.risk))) + Gather(policies, PolicySeeds)
  }

  lemma {:induction false} ContributedBound(spec: Spec, c: Seed, d: Seed)
    requires c in SpecSeeds(spec) && d in SpecSeeds(spec) && KeyOf(c) == KeyOf(d)
    ensures c.(applicability := d.applicability) == d
  {
    SpecSeedsBound(spec, c);
    SpecSeedsBound(spec, d);
    SubjectBinding(c, d);
  }

  /**
    Reading the tools and the policies of a specification in another order, such as sorted
    by name, gives the same requirements for every reference suite.
   */
  lemma {:induction false} SpecOrderIrrelevant(
    spec: Spec, tools: seq<ToolItem>, policies: seq<PolicyItem>, reference: seq<Scenario>
  )
    requires multiset(tools) == multiset(spec.tools) && multiset(policies) == multiset(spec.policies)
    ensures Fold(map[], Contributed(spec, tools, policies) + Gather(reference, ScenarioSeeds(UndeclaredTools(spec))))
         == Requirements(spec, reference)
  {
    var a, b := SpecSeeds(spec), Contributed(spec, tools, policies);
    GatherPermuted(tools, spec.tools, ToolSeeds(RiskGroups(spec.tools, spec.risk)));
    GatherPermuted(policies, spec.policies, PolicySeeds);
    forall c, d | c in a && d in a && KeyOf(c) == KeyOf(d) ensures c.(applicability := d.applicability) == d {
      ContributedBound(spec, c, d);
    }
    TablesEqual(a, b);
    FoldSplit(map[], a, Gather(reference, ScenarioSeeds(UndeclaredTools(spec))));
    FoldSplit(map[], b, Gather(reference, ScenarioSeeds(UndeclaredTools(spec))));
  }

  lemma {:induction false} ReorderedSeeds(spec: Spec, r: seq<Scenario>, r': seq<Scenario>)
    requires multiset(r) == multiset(r')
    ensures multiset(AllSeeds(spec, r)) == multiset(AllSeeds(spec, r'))
  {
    GatherPermuted(r, r', ScenarioSeeds(UndeclaredTools(spec)));
  }

  /** Each requirement's applicability is the join of all contributions, in whatever order they come. */
  lemma {:induction false} ApplicabilityOrderIrrelevant(spec: Spec, r: seq<Scenario>, r': seq<Scenario>)
    requires multiset(r) == multiset(r')
    ensures Requirements(spec, r).Keys == Requirements(spec, r').Keys
    ensures forall k :: k in Requirements(spec, r) ==>
              Requirements(spec, r)[k].applicability == Requirements(spec, r')[k].applicability
  {
    ReorderedSeeds(spec, r, r');
    TablesAgree(AllSeeds(spec, r), AllSeeds(spec, r'));
  }

  lemma {:induction false} NoCollisionSameTable(spec: Spec, r: seq<Scenario>, r': seq<Scenario>)
    requires multiset(r) == multiset(r') && !Collides(r)
    ensures Requirements(spec, r) == Requirements(spec, r')
  {
    ReorderedSeeds(spec, r, r');
    var cs := AllSeeds(spec, r);
    forall c, d | c in cs && d in cs && KeyOf(c) == KeyOf(d) ensures c.(applicability := d.applicability) == d {
      AllBound(spec, r, c);
      AllBound(spec, r, d);
      SubjectBinding(c, d);
    }
    TablesEqual(cs, AllSeeds(spec, r'));
  }

  // ---------------------------------------------------------------------------
  // Exactly when the order matters
  // ---------------------------------------------------------------------------

  /** `r'` is the same suite in another order, and yields other requirements. */
  ghost predicate ReadDifferently(spec: Spec, r: seq<Scenario>, r': seq<Scenario>) {
    multiset(r') == multiset(r) && Requirements(spec, r') != Requirements(spec, r)
  }

  lemma {:induction false} RelationSubjectInjective(f: string, p: string, q: string)
    requires PrerequisiteSubject(f, p) == PrerequisiteSubject(f, q)
    ensures p == q
  {
    var a, b := PrerequisiteSubject(f, p), PrerequisiteSubject(f, q);
    assert |a| == 20 + |p| + |f| && |b| == 20 + |q| + |f|;
    assert a[13..13 + |p|] == p && b[13..13 + |q|] == q;
  }

  lemma {:induction false} RelationSeed(f: string, p: string)
    ensures Contribution(PrerequisiteSuccess, PrerequisiteSubject(f, p), Applicable, Some(f), Some(p)) in PairSeeds(f)(p)
  {
    assert PairSeeds(f)(p)[0] == Contribution(PrerequisiteSuccess, PrerequisiteSubject(f, p), Applicable, Some(f), Some(p));
  }

  lemma {:induction false} PairSeedPresent(s: Scenario, undeclared: set<string>, f: string, p: string, c: Seed)
    requires (f, p) in PrerequisitePairs(s)
    requires c == Contribution(PrerequisiteSuccess, PrerequisiteSubject(f, p), Applicable, Some(f), Some(p))
    ensures c in SeedsOf(s, undeclared)
  {
    RelationSeed(f, p);
    assert IsPairSeed(PrerequisitePairs(s), c);
    SeedsOfAre(s, undeclared, c);
  }

  /** In one scenario, a relation's subject determines the relation. */
  lemma {:induction false} OwnRelation(s: Scenario, undeclared: set<string>, f: string, p: string, c: Seed)
    requires (f, p) in PrerequisitePairs(s) && c in SeedsOf(s, undeclared)
    requires KeyOf(c) == (PrerequisiteSuccess, PrerequisiteSubject(f, p))
    ensures c.tool == Some(f) && c.prerequisite == Some(p)
  {
    SeedsOfBound(s, undeclared, c);
    PairFocal(s, (f, p), (c.tool.value, c.prerequisite.value));
    RelationSubjectInjective(f, p, c.prerequisite.value);
  }

  lemma {:induction false} FirstOfStrongest(cs: seq<Seed>, k: Key, j: nat)
    requires j < |cs| && KeyOf(cs[j]) == k && cs[j].applicability.Applicable?
    ensures k in Fold(map[], cs) && exists i :: 0 <= i <= j && KeyOf(cs[i]) == k && Fold(map[], cs)[k] == cs[i]
  {
    FoldIsJoin(cs, k);
    var i: nat :| FirstStrongest(cs, k, i) && Fold(map[], cs)[k] == cs[i];
    assert Rank(cs[j].applicability) == 2;
  }

  /** The first part that speaks of a key as applicable decides what it is bound to. */
  lemma {:induction false} FirstPartDecides(a: seq<Seed>, own: seq<Seed>, b: seq<Seed>, k: Key, c: Seed)
    requires c in own && KeyOf(c) == k && c.applicability.Applicable?
    requires forall d :: d in a ==> KeyOf(d) != k
    ensures k in Fold(map[], a + (own + b))
    ensures Fold(map[], a + (own + b))[k] in own && KeyOf(Fold(map[], a + (own + b))[k]) == k
  {
    var cs := a + (own + b);
    var m :| 0 <= m < |own| && own[m] == c;
    assert cs[|a| + m] == c;
    FirstOfStrongest(cs, k, |a| + m);
    var i :| 0 <= i <= |a| + m && KeyOf(cs[i]) == k && Fold(map[], cs)[k] == cs[i];
    assert forall j :: 0 <= j < |a| ==> cs[j] == a[j] && a[j] in a;
    assert cs[i] == own[i - |a|];
  }

  ghost predicate BoundTo(seeds: Table, k: Key, f: string, p: string) {
    k in seeds && seeds[k].tool == Some(f) && seeds[k].prerequisite == Some(p)
  }

  /** The scenario read first decides which relation a shared subject stands for. */
  lemma {:induction false} FirstReadDecides(spec: Spec, s: Scenario, rest: seq<Scenario>, f: string, p: string, k: Key)
    requires (f, p) in PrerequisitePairs(s) && k == (PrerequisiteSuccess, PrerequisiteSubject(f, p))
    ensures BoundTo(Requirements(spec, [s] + rest), k, f, p)
  {
    var undeclared := UndeclaredTools(spec);
    var c := Contribution(PrerequisiteSuccess, k.1, Applicable, Some(f), Some(p));
    var own := SeedsOf(s, undeclared);
    var a, b := SpecSeeds(spec), Gather(rest, ScenarioSeeds(undeclared));
    assert ([s] + rest)[1..] == rest;
    assert AllSeeds(spec, [s] + rest) == a + (own + b);
    PairSeedPresent(s, undeclared, f, p, c);
    forall d | d in a ensures KeyOf(d) != k { SpecSeedsBound(spec, d); }
    FirstPartDecides(a, own, b, k, c);
    OwnRelation(s, undeclared, f, p, Requirements(spec, [s] + rest)[k]);
  }

  lemma {:induction false} MovedToFront(r: seq<Scenario>, s: Scenario) returns (rest: seq<Scenario>)
    requires s in r
    ensures multiset([s] + rest) == multiset(r)
  {
    var i :| 0 <= i < |r| && r[i] == s;
    rest := Drop(r, i);
  }

  lemma {:induction false} CollisionOf(
    spec: Spec, r: seq<Scenario>, s: Scenario, t: Scenario, f: string, p: string, g: string, q: string, k: Key
  ) returns (r': seq<Scenario>)
    requires s in r && t in r && (f, p) in PrerequisitePairs(s) && (g, q) in PrerequisitePairs(t)
    requires k == (PrerequisiteSuccess, PrerequisiteSubject(f, p))
    requires PrerequisiteSubject(f, p) == PrerequisiteSubject(g, q)
    requires (f, p) != (g, q)
    ensures ReadDifferently(spec, r, r')
  {
    var a := MovedToFront(r, s);
    var b := MovedToFront(r, t);
    FirstReadDecides(spec, s, a, f, p, k);
    FirstReadDecides(spec, t, b, g, q, k);
    var first, second, own := Requirements(spec, [s] + a), Requirements(spec, [t] + b), Requirements(spec, r);
    Differ(first, second, k, f, p, g, q);
    r' := if first != own then [s] + a else [t] + b;
  }

  lemma {:induction false} CollisionMatters(spec: Spec, r: seq<Scenario>)
    requires Collides(r)
    ensures exists r' :: ReadDifferently(spec, r, r')
  {
    var f, p, g, q :| DeclaredPair(r, f, p) && DeclaredPair(r, g, q)
      && PrerequisiteSubject(f, p) == PrerequisiteSubject(g, q) && (f, p) != (g, q);
    var s :| s in r && (f, p) in PrerequisitePairs(s);
    var t :| t in r && (g, q) in PrerequisitePairs(t);
    var r' := CollisionOf(spec, r, s, t, f, p, g, q, (PrerequisiteSuccess, PrerequisiteSubject(f, p)));
  }

  lemma {:induction false} Differ(x: Table, y: Table, k: Key, f: string, p: string, g: string, q: string)
    requires BoundTo(x, k, f, p) && BoundTo(y, k, g, q) && (f, p) != (g, q)
    ensures x != y
  {
  }

  /**
    The requirements are the same in every reading order if and only if no two
    prerequisite relations of the suite share a display subject.
   */
  lemma {:induction false} OrderIrrelevantExactly(spec: Spec, r: seq<Scenario>)
    ensures (forall r' :: !ReadDifferently(spec, r, r')) <==> !Collides(r)
  {
    if Collides(r) {
      CollisionMatters(spec, r);
    } else {
      forall r' ensures !ReadDifferently(spec, r, r') {
        if multiset(r') == multiset(r) { NoCollisionSameTable(spec, r, r'); }
      }
    }
  }

  // ---------------------------------------------------------------------------
  // Tool names that cannot collide
  // ---------------------------------------------------------------------------

  const ARROW: string := "->tool:"

  lemma {:induction false} ShorterPriorContained(f: string, p: string, g: string, q: string)
    requires p + ARROW + f == q + ARROW + g && |p| < |q|
    ensures Text.Inside(q, ARROW)
  {
    var whole := p + ARROW + f;
    var n := |p|;
    assert whole[n..n + 7] == ARROW;
    assert whole[..|q|] == q;
    assert whole[|q|] == '-';
    assert forall d :: 0 <= d < 7 ==> whole[n + d] == ARROW[d];
    assert forall d :: 0 < d < 7 ==> ARROW[d] != '-';
    assert n + 7 <= |q|;
    assert whole[n..n + 7] == q[n..n + 7];
    assert Text.PartAt(q, ARROW, n);
  }

  lemma {:induction false} RelationSubjectTail(f: string, p: string)
    ensures PrerequisiteSubject(f, p)[13..] == p + ARROW + f
  {
  }

  lemma {:induction false} SplitAtArrow(f: string, p: string, g: string, q: string)
    requires p + ARROW + f == q + ARROW + g && |p| == |q|
    ensures p == q && f == g
  {
    var x, y := p + ARROW + f, q + ARROW + g;
    assert p == x[..|p|] && q == y[..|q|];
    assert f == x[|p| + 7..] && g == y[|q| + 7..];
  }

  /** When no prerequisite tool's name contains the separator, no two relations collide. */
  lemma {:induction false} PlainNamesDoNotCollide(r: seq<Scenario>)
    requires forall f, p :: DeclaredPair(r, f, p) ==> !Text.Inside(p, ARROW)
    ensures !Collides(r)
  {
    forall f, p, g, q | DeclaredPair(r, f, p) && DeclaredPair(r, g, q) && PrerequisiteSubject(f, p) == PrerequisiteSubject(g, q)
      ensures (f, p) == (g, q)
    {
      RelationSubjectTail(f, p);
      RelationSubjectTail(g, q);
      if |p| < |q| { ShorterPriorContained(f, p, g, q); }
      if |q| < |p| { ShorterPriorContained(g, q, f, p); }
      SplitAtArrow(f, p, g, q);
    }
  }
}
