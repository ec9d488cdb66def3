/**
  Where requirements come from (`_add_seed`, `_seed_from_spec`,
  `_seed_from_scenarios`, `_risk_group_applicability`): a table keyed by dimension
  and subject in which a stronger applicability replaces a weaker one.
 */
module Seeds {
  import opened Bags
  import opened Domain
  import opened Outcomes
  import Text

  type Key = (Dimension, string)

  type Table = map<Key, Seed>

  const DEFAULT_REASON := "risk_metadata_not_authoritative"

  function Rank(a: Applicability): (n: nat) {
    match a
    case Unknown => 0
    case NotSupported => 1
    case Applicable => 2
  }

  function KeyOf(c: Seed): (k: Key) {
    (c.dimension, c.subject)
  }

  function AddSeed(seeds: Table, c: Seed): (r: Table) {
    if KeyOf(c) in seeds && Rank(c.applicability) <= Rank(seeds[KeyOf(c)].applicability) then seeds
    else seeds[KeyOf(c) := c]
  }

  function Fold(seeds: Table, cs: seq<Seed>): (r: Table)
    decreases |cs|
  {
    if cs == [] then seeds else Fold(AddSeed(seeds, cs[0]), cs[1..])
  }

  /** The mutable table the seeding passes share. */
  class SeedTable {
    var seeds: Table

    constructor ()
      ensures seeds == map[]
    {
      seeds := map[];
    }

    method Add(c: Seed)
      modifies this
      ensures seeds == AddSeed(old(seeds), c)
    {
      var key := KeyOf(c);
      if key !in seeds || Rank(c.applicability) > Rank(seeds[key].applicability) {
        seeds := seeds[key := c];
      }
    }

    method AddAll(cs: seq<Seed>)
      modifies this
      ensures seeds == Fold(old(seeds), cs)
    {
      for i := 0 to |cs|
        invariant Fold(seeds, cs[i..]) == Fold(old(seeds), cs)
      {
        assert cs[i..][0] == cs[i] && cs[i..][1..] == cs[i + 1..];
        Add(cs[i]);
      }
      assert cs[|cs|..] == [];
    }
  }

  // ---------------------------------------------------------------------------
  // Contributions of the specification
  // ---------------------------------------------------------------------------

  function Contribution(
    dimension: Dimension, subject: string, a: Applicability, tool: Option<string>, prerequisite: Option<string>
  ): (c: Seed) {
    Seed(dimension, subject, a, tool, prerequisite, DEFAULT_REASON)
  }

  function ForTool(dimension: Dimension, a: Applicability, tool: string): (c: Seed) {
    Contribution(dimension, ToolSubject(tool), a, Some(tool), None)
  }

  predicate Declared(a: Authority) {
    a.DeveloperDeclared? || a.FrameworkAuthoritative?
  }

  function RiskOf(risk: seq<RiskAssertion>, name: string): (r: Option<RiskAssertion>) {
    if risk == [] then None
    else if risk[|risk| - 1].toolName == name then Some(risk[|risk| - 1])
    else RiskOf(risk[..|risk| - 1], name)
  }

  /** Applicability of the action-gated and the destructive-gated dimensions; `None` is "no requirement". */
  datatype Group = Group(action: Option<Applicability>, destructive: Option<Applicability>)

  function GroupOf(item: ToolItem, assertion: Option<RiskAssertion>): (g: Group) {
    var state := if assertion.Some? then Declared(assertion.value.stateChanging) else item.authoritative;
    var destructive := if assertion.Some? then Declared(assertion.value.destructive) else item.authoritative;
    Group(
      if (item.tool.destructive && destructive) || (item.tool.stateChanging && state) then Some(Applicable)
      else if destructive && state && !item.tool.destructive && !item.tool.stateChanging then None
      else Some(Unknown),
      if item.tool.destructive && destructive then Some(Applicable)
      else if destructive && !item.tool.destructive then None
      else Some(Unknown))
  }

  /** A repeated name keeps the group of its last declaration. */
  function RiskGroups(tools: seq<ToolItem>, risk: seq<RiskAssertion>): (r: map<string, Group>)
    ensures forall name :: name in r <==> exists i :: 0 <= i < |tools| && tools[i].tool.name == name
  {
    if tools == [] then map[]
    else
      var item := tools[|tools| - 1];
      var before := RiskGroups(tools[..|tools| - 1], risk);
      assert forall i :: 0 <= i < |tools| - 1 ==> tools[..|tools| - 1][i] == tools[i];
      before[item.tool.name := GroupOf(item, RiskOf(risk, item.tool.name))]
  }

  function GroupSeeds(a: Option<Applicability>, dimensions: seq<Dimension>, tool: string): (r: seq<Seed>) {
    if a.None? then []
    else Gather(dimensions, (d: Dimension) => [ForTool(d, a.value, tool)])
  }

  function ToolSeeds(groups: map<string, Group>): (f: ToolItem -> seq<Seed>) {
    (item: ToolItem) =>
      var name := item.tool.name;
      var group := if name in groups then groups[name] else Group(Some(Unknown), Some(Unknown));
      [ForTool(SuccessPath, Applicable, name), ForTool(FailureHandling, Applicable, name),
       ForTool(TimeoutHandling, Applicable, name)]
      + GroupSeeds(group.action, [FabricatedSuccess, DuplicateAction], name)
      + GroupSeeds(group.destructive, [AmbiguousOutcome, RetryControl], name)
  }

  function PolicySeeds(p: PolicyItem): (r: seq<Seed>) {
    var a := if p.authoritative then Applicable else Unknown;
    (if p.confirmationRequired == Some(true) then
       [ForTool(ConfirmationWithoutConsent, a, p.tool), ForTool(ConfirmationWithConsent, a, p.tool)] else [])
    + (if p.idempotent == Some(false) then
         [ForTool(DuplicateAction, a, p.tool), ForTool(AmbiguousOutcome, a, p.tool), ForTool(RetryControl, a, p.tool)]
       else [])
    + (if p.maxRetries.Some? then [ForTool(RetryControl, a, p.tool)] else [])
  }

  function SpecSeeds(spec: Spec): (r: seq<Seed>) {
    Gather(spec.tools, ToolSeeds(RiskGroups(spec.tools, spec.risk))) + Gather(spec.policies, PolicySeeds)
  }

  // ---------------------------------------------------------------------------
  // Contributions of the reference scenarios
  // ---------------------------------------------------------------------------

  /** Tools with a risk group that rests on inference. */
  function UndeclaredTools(spec: Spec): (r: set<string>) {
    var groups := RiskGroups(spec.tools, spec.risk);
    set name | name in groups && (groups[name].action == Some(Unknown) || groups[name].destructive == Some(Unknown))
  }

  /** A generated behavioral-outcome case never turns inferred risk into a requirement. */
  function ScenarioRisk(s: Scenario, tool: Option<string>, undeclared: set<string>): (a: Applicability) {
    if tool.Some? && tool.value in undeclared && "source:behavioral_outcome" in s.tags then Unknown else Applicable
  }

  ghost function OutputSeeds(s: Scenario, undeclared: set<string>): (f: OutputCriterion -> seq<Seed>) {
    (o: OutputCriterion) =>
      if o.kind.NoFabricatedSuccess? then
        Gather(Text.Sorted(Focal(s)),
               (t: string) => [ForTool(FabricatedSuccess, ScenarioRisk(s, Some(t), undeclared), t)])
      else []
  }

  function TrajectorySeeds(s: Scenario, undeclared: set<string>): (f: Trajectory -> seq<Seed>) {
    (t: Trajectory) =>
      var tool := TextParameter(t.parameters, "tool_name");
      var subject := TrajectorySubject(s, t);
      var a := ScenarioRisk(s, tool, undeclared);
      match t.kind
      case NoDuplicateSideEffect => [Contribution(DuplicateAction, subject, a, tool, None)]
      case NoRetryAfterAmbiguousTimeout =>
        [Contribution(AmbiguousOutcome, subject, a, tool, None), Contribution(RetryControl, subject, a, tool, None)]
      case MaxRetries => [Contribution(RetryControl, subject, a, tool, None)]
      case OrderingKind => [Contribution(Ordering, subject, Applicable, tool, None)]
      case _ => []
  }

  ghost function ConfirmationTools(s: Scenario): (r: set<string>) {
    (set b | b in Behaviors(s) && b.confirmation :: b.tool)
    + (set t | t in s.trajectory && t.kind.ConfirmationBeforeTool? && TextParameter(t.parameters, "tool_name").Some?
         :: TextParameter(t.parameters, "tool_name").value)
  }

  function ConfirmationSeeds(t: string): (r: seq<Seed>) {
    [ForTool(ConfirmationWithoutConsent, Applicable, t), ForTool(ConfirmationWithConsent, Applicable, t)]
  }

  function PrerequisiteSubject(focal: string, prior: string): (r: string) {
    "prerequisite:" + prior + "->tool:" + focal
  }

  function PairContributions(focal: string, prior: string): (r: seq<Seed>) {
    [Contribution(PrerequisiteSuccess, PrerequisiteSubject(focal, prior), Applicable, Some(focal), Some(prior)),
     Contribution(PrerequisiteFailure, PrerequisiteSubject(focal, prior), Applicable, Some(focal), Some(prior)),
     Contribution(Ordering, PrerequisiteSubject(focal, prior), Applicable, Some(focal), Some(prior))]
  }

  function PairSeeds(focal: string): (f: string -> seq<Seed>) {
    (prior: string) => PairContributions(focal, prior)
  }

  ghost function Priors(pairs: set<(string, string)>, focal: string): (r: set<string>) {
    set p | p in pairs && p.0 == focal :: p.1
  }

  ghost function SeedsOfPairs(pairs: set<(string, string)>, focal: string): (r: seq<Seed>) {
    Gather(Text.Sorted(Priors(pairs, focal)), PairSeeds(focal))
  }

  /** The pairs of one scenario all share one focal tool, so listing them is listing their prerequisites. */
  ghost function PrerequisiteSeeds(pairs: set<(string, string)>): (r: seq<Seed>) {
    if pairs == {} then []
    else
      var pair :| pair in pairs;
      SeedsOfPairs(pairs, pair.0)
  }

  ghost function SeedsOf(s: Scenario, undeclared: set<string>): (r: seq<Seed>) {
    Gather(s.outputs, OutputSeeds(s, undeclared))
    + Gather(s.trajectory, TrajectorySeeds(s, undeclared))
    + Gather(Text.Sorted(ConfirmationTools(s)), ConfirmationSeeds)
    + PrerequisiteSeeds(PrerequisitePairs(s))
  }

  ghost function ScenarioSeeds(undeclared: set<string>): (f: Scenario -> seq<Seed>) {
    (s: Scenario) => SeedsOf(s, undeclared)
  }

  ghost function AllSeeds(spec: Spec, reference: seq<Scenario>): (r: seq<Seed>) {
    SpecSeeds(spec) + Gather(reference, ScenarioSeeds(UndeclaredTools(spec)))
  }

  /** The requirements of a specification and its reference suite, before identity checks. */
  ghost function Requirements(spec: Spec, reference: seq<Scenario>): (r: Table) {
    Fold(map[], AllSeeds(spec, reference))
  }

  // ---------------------------------------------------------------------------
  // The table is a join
  // ---------------------------------------------------------------------------

  /** `i` is the first contribution of the strongest applicability for `k`. */
  ghost predicate FirstStrongest(cs: seq<Seed>, k: Key, i: nat) {
    i < |cs| && KeyOf(cs[i]) == k
    && (forall j :: 0 <= j < |cs| && KeyOf(cs[j]) == k ==> Rank(cs[j].applicability) <= Rank(cs[i].applicability))
    && (forall j :: 0 <= j < i && KeyOf(cs[j]) == k ==> Rank(cs[j].applicability) < Rank(cs[i].applicability))
  }

  lemma {:induction false} FoldAppend(seeds: Table, cs: seq<Seed>, c: Seed)
    ensures Fold(seeds, cs + [c]) == AddSeed(Fold(seeds, cs), c)
    decreases |cs|
  {
    if cs == [] {
      assert ([] + [c])[1..] == [];
    } else {
      assert (cs + [c])[1..] == cs[1..] + [c];
      FoldAppend(AddSeed(seeds, cs[0]), cs[1..], c);
    }
  }

  /** `seeds` holds the first strongest contribution of `cs` for `k`, or nothing when there is none. */
  ghost predicate Joined(seeds: Table, cs: seq<Seed>, k: Key) {
    if k in seeds then exists i: nat :: FirstStrongest(cs, k, i) && seeds[k] == cs[i]
    else forall i :: 0 <= i < |cs| ==> KeyOf(cs[i]) != k
  }

  lemma {:induction false} FirstStrongestKept(cs: seq<Seed>, c: Seed, k: Key, i: nat)
    requires FirstStrongest(cs, k, i)
    requires KeyOf(c) == k ==> Rank(c.applicability) <= Rank(cs[i].applicability)
    ensures FirstStrongest(cs + [c], k, i)
  {
  }

  lemma {:induction false} FirstStrongestNew(cs: seq<Seed>, c: Seed, k: Key)
    requires KeyOf(c) == k
    requires forall j :: 0 <= j < |cs| && KeyOf(cs[j]) == k ==> Rank(cs[j].applicability) < Rank(c.applicability)
    ensures FirstStrongest(cs + [c], k, |cs|)
  {
  }

  lemma {:induction false} JoinedStep(seeds: Table, cs: seq<Seed>, c: Seed, k: Key)
    requires Joined(seeds, cs, k)
    ensures Joined(AddSeed(seeds, c), cs + [c], k)
  {
    var after := AddSeed(seeds, c);
    if k in seeds {
      var i: nat :| FirstStrongest(cs, k, i) && seeds[k] == cs[i];
      assert (cs + [c])[i] == cs[i];
      if KeyOf(c) == k && Rank(c.applicability) > Rank(cs[i].applicability) {
        FirstStrongestNew(cs, c, k);
        assert after[k] == (cs + [c])[|cs|];
      } else {
        FirstStrongestKept(cs, c, k, i);
        assert after[k] == (cs + [c])[i];
      }
    } else if KeyOf(c) == k {
      FirstStrongestNew(cs, c, k);
      assert after[k] == (cs + [c])[|cs|];
    }
  }

  /** Every key holds its first strongest contribution, and only contributed keys exist. */
  lemma {:induction false} FoldIsJoin(cs: seq<Seed>, k: Key)
    ensures Joined(Fold(map[], cs), cs, k)
    decreases |cs|
  {
    if cs != [] {
      var n := |cs| - 1;
      assert cs == cs[..n] + [cs[n]];
      FoldAppend(map[], cs[..n], cs[n]);
      FoldIsJoin(cs[..n], k);
      JoinedStep(Fold(map[], cs[..n]), cs[..n], cs[n], k);
    }
  }

  /** What the table says about a key, said about the bag of contributions. */
  ghost predicate Strongest(cs: seq<Seed>, k: Key, c: Seed) {
    c in cs && KeyOf(c) == k
    && forall d :: d in cs && KeyOf(d) == k ==> Rank(d.applicability) <= Rank(c.applicability)
  }

  lemma {:induction false} TableStrongest(cs: seq<Seed>, k: Key)
    ensures k in Fold(map[], cs) <==> exists c :: c in cs && KeyOf(c) == k
    ensures k in Fold(map[], cs) ==> Strongest(cs, k, Fold(map[], cs)[k])
  {
    FoldIsJoin(cs, k);
    if k in Fold(map[], cs) {
      var i: nat :| FirstStrongest(cs, k, i) && Fold(map[], cs)[k] == cs[i];
      assert cs[i] in cs;
    }
  }

  lemma {:induction false} BagMembers<T(!new)>(cs: seq<T>, ds: seq<T>)
    requires multiset(cs) == multiset(ds)
    ensures forall c :: c in cs <==> c in ds
  {
    forall c ensures c in cs <==> c in ds {
      assert c in cs <==> c in multiset(cs);
      assert c in ds <==> c in multiset(ds);
    }
  }

  /** Applicability does not depend on the order of the contributions. */
  lemma {:induction false} JoinPermuted(cs: seq<Seed>, ds: seq<Seed>, k: Key)
    requires multiset(cs) == multiset(ds)
    ensures k in Fold(map[], cs) <==> k in Fold(map[], ds)
    ensures k in Fold(map[], cs) ==>
              Fold(map[], cs)[k].applicability == Fold(map[], ds)[k].applicability
              && Strongest(cs, k, Fold(map[], ds)[k])
  {
    BagMembers(cs, ds);
    TableStrongest(cs, k);
    TableStrongest(ds, k);
    RankInjective();
  }

  lemma {:induction false} RankInjective()
    ensures forall a, b :: Rank(a) == Rank(b) ==> a == b
  {
  }

  /** Two orders of the same contributions give the same keys with the same applicability. */
  lemma {:induction false} TablesAgree(cs: seq<Seed>, ds: seq<Seed>)
    requires multiset(cs) == multiset(ds)
    ensures Fold(map[], cs).Keys == Fold(map[], ds).Keys
    ensures forall k :: k in Fold(map[], cs) ==> Fold(map[], cs)[k].applicability == Fold(map[], ds)[k].applicability
  {
    forall k: Key ensures k in Fold(map[], cs) <==> k in Fold(map[], ds) { JoinPermuted(cs, ds, k); }
    forall k | k in Fold(map[], cs) ensures Fold(map[], cs)[k].applicability == Fold(map[], ds)[k].applicability {
      JoinPermuted(cs, ds, k);
    }
  }

  /** When equal keys mean equal bindings, the order does not matter at all. */
  lemma {:induction false} TablesEqual(cs: seq<Seed>, ds: seq<Seed>)
    requires multiset(cs) == multiset(ds)
    requires forall c, d :: c in cs && d in cs && KeyOf(c) == KeyOf(d) ==> c.(applicability := d.applicability) == d
    ensures Fold(map[], cs) == Fold(map[], ds)
  {
    TablesAgree(cs, ds);
    forall k | k in Fold(map[], cs) ensures Fold(map[], cs)[k] == Fold(map[], ds)[k] {
      JoinPermuted(cs, ds, k);
      TableStrongest(cs, k);
    }
  }
}
