/**
  Exactly when a requirement is COVERED and exactly when it is MISSING, stated over
  the scenarios' own declarations, and what follows for every suite: more scenarios
  never lose evidence and their order never matters.
 */
module OutcomeFacts {
  import opened Bags
  import opened Domain
  import opened Outcomes

  /** The trace of `c` over `n` calls satisfies `p`. */
  ghost predicate Yields(w: World, s: Scenario, c: Behavior, n: int, p: Traced -> bool) {
    p(Traced(c, TraceFor(w, s, c, n)))
  }

  /** Some action of `cs` has a trace satisfying `p`. */
  ghost predicate SomeTrace(w: World, s: Scenario, cs: seq<Behavior>, n: int, p: Traced -> bool) {
    exists c :: c in cs && Yields(w, s, c, n, p)
  }

  /** Some action of `cs`, declared required and bound by an authoritative oracle, has a trace satisfying `p`. */
  ghost predicate Hard(
    w: World, s: Scenario, cs: seq<Behavior>, n: int, p: Traced -> bool, required: seq<Behavior>
  ) {
    exists c :: c in cs && Among(c, required) && Authoritative(s, c.oracles) && Yields(w, s, c, n, p)
  }

  ghost predicate HardOn(w: World, s: Scenario, tool: string, n: int, p: Traced -> bool) {
    Hard(w, s, ActionsFor(s, tool), n, p, RequiredFor(s, tool))
  }

  /** The scenario is about exactly this tool and has an executable failure-handling oracle. */
  ghost predicate Handles(s: Scenario, tool: string) {
    Focal(s) == {tool} && exists o :: o in s.outputs && HandlingExecutable(s, o)
  }

  ghost predicate ChecksFabrication(s: Scenario, tool: string) {
    Focal(s) == {tool}
    && exists o :: o in s.outputs && o.kind.NoFabricatedSuccess? && o.required
                   && Authoritative(s, o.oracles) && ConfiguredTerms(o)
  }

  ghost predicate HardRetryRule(s: Scenario, tool: string, t: Trajectory) {
    t in RetryPolicies(s, tool) && t.required && Authoritative(s, t.oracles)
    && (t.kind.NoRetryAfterAmbiguousTimeout? || RetryLimit(t).Some?)
  }

  function RetryCalls(s: Scenario, tool: string, t: Trajectory): int {
    if t.kind.NoRetryAfterAmbiguousTimeout? then MaxLength(s, tool) else RetryLimit(t).GetOr(0) + 2
  }

  // ---------------------------------------------------------------------------
  // What covers a requirement
  // ---------------------------------------------------------------------------

  ghost predicate TimeoutShown(w: World, tool: string, s: Scenario) {
    exists c :: c in ActionsFor(s, tool) && Among(c, RequiredFor(s, tool)) && Authoritative(s, c.oracles)
      && Yields(w, s, c, 1, FirstIn({Timeout}))
      && (Handles(s, tool) || exists t :: t in RetryPolicies(s, tool) && PolicyObservable(w, s, tool, c, t))
  }

  ghost predicate RetryShown(w: World, tool: string, s: Scenario) {
    exists t :: HardRetryRule(s, tool, t) && HardOn(w, s, tool, RetryCalls(s, tool, t), Prohibited(w, tool, t))
  }

  ghost predicate OrderingShown(w: World, tool: string, s: Scenario) {
    exists t :: t in Matching(s, Some(tool), {OrderingKind}) && t.required && Authoritative(s, t.oracles)
      && TextParameter(t.parameters, "required_before").Some?
      && Reachable(w, s, tool) && Reachable(w, s, TextParameter(t.parameters, "required_before").value)
  }

  ghost predicate ConfirmationShown(w: World, tool: string, consent: bool, s: Scenario) {
    var actions := if consent then RequiredFor(s, tool) else ForbiddenFor(s, tool);
    ExplicitConfirmation(s) == consent && HardConfirmation(s, tool) && Hard(w, s, actions, 1, AtLeast(1), actions)
  }

  ghost predicate PrerequisiteFailureShown(w: World, focal: string, prior: string, s: Scenario) {
    (focal, prior) in PrerequisitePairs(s)
    && Hard(w, s, RequiredFor(s, prior), 1, FirstIn({Error, Timeout}), RequiredFor(s, prior))
    && Hard(w, s, ForbiddenFor(s, focal), 1, AtLeast(1), ForbiddenFor(s, focal))
  }

  /**
    The scenario on its own covers the requirement: an authoritative oracle, and a
    controlled outcome of the right kind on an action that oracle binds.
   */
  ghost predicate Demonstrated(w: World, seed: Seed, s: Scenario) {
    if seed.tool.None? then false
    else
      var tool := seed.tool.value;
      match seed.dimension
      case SuccessPath => HardOn(w, s, tool, 1, FirstIn({Success}))
      case FailureHandling => Handles(s, tool) && HardOn(w, s, tool, 1, FirstIn({Error}))
      case TimeoutHandling => TimeoutShown(w, tool, s)
      case FabricatedSuccess => ChecksFabrication(s, tool) && HardOn(w, s, tool, 1, FirstIn(UNUSABLE))
      case AmbiguousOutcome =>
        HardTrajectory(s, Matching(s, Some(tool), {NoRetryAfterAmbiguousTimeout}))
        && HardOn(w, s, tool, MaxLength(s, tool), HasAmbiguousNext(w.Get(tool)))
      case RetryControl => RetryShown(w, tool, s)
      case DuplicateAction =>
        HardTrajectory(s, Matching(s, Some(tool), {NoDuplicateSideEffect})) && HardOn(w, s, tool, 2, AtLeast(2))
      case Ordering => OrderingShown(w, tool, s)
      case ConfirmationWithConsent => ConfirmationShown(w, tool, true, s)
      case ConfirmationWithoutConsent => ConfirmationShown(w, tool, false, s)
      case PrerequisiteFailure =>
        seed.prerequisite.Some? && PrerequisiteFailureShown(w, tool, seed.prerequisite.value, s)
      case PrerequisiteSuccess => false
  }

  // ---------------------------------------------------------------------------
  // What keeps a requirement from being missing
  // ---------------------------------------------------------------------------

  function RuleKinds(dimension: Dimension): (r: set<TrajectoryKind>) {
    match dimension
    case AmbiguousOutcome => {NoRetryAfterAmbiguousTimeout}
    case RetryControl => {NoRetryAfterAmbiguousTimeout, MaxRetries}
    case DuplicateAction => {NoDuplicateSideEffect}
    case Ordering => {OrderingKind}
    case _ => {}
  }

  ghost predicate AmbiguityTouched(w: World, tool: string, s: Scenario) {
    ActionsFor(s, tool) != [] && tool in Focal(s)
    && (Matching(s, Some(tool), {NoRetryAfterAmbiguousTimeout}) != []
        || SomeTrace(w, s, ActionsFor(s, tool), MaxLength(s, tool), HasAmbiguous(w.Get(tool))))
  }

  ghost predicate ConfirmationTouched(tool: string, consent: bool, s: Scenario) {
    tool in Focal(s) && ExplicitConfirmation(s) == consent
    && (ConfirmingBehaviors(s, tool) != [] || ConfirmingTrajectories(s, tool) != []
        || ActionsFor(s, tool) != [] || ForbiddenFor(s, tool) != [])
  }

  /** The scenario says anything at all about the requirement. */
  ghost predicate Touched(w: World, seed: Seed, s: Scenario) {
    if seed.tool.None? then
      "scenario:" + s.id == seed.subject && Matching(s, None, RuleKinds(seed.dimension)) != []
    else
      var tool := seed.tool.value;
      match seed.dimension
      case SuccessPath => SomeTrace(w, s, ActionsFor(s, tool), 1, FirstIn({Success}))
      case FailureHandling => SomeTrace(w, s, ActionsFor(s, tool), 1, FirstIn({Error}))
      case TimeoutHandling => SomeTrace(w, s, ActionsFor(s, tool), 1, FirstIn({Timeout}))
      case FabricatedSuccess => tool in Focal(s) && exists o :: o in s.outputs && o.kind.NoFabricatedSuccess?
      case AmbiguousOutcome => AmbiguityTouched(w, tool, s)
      case RetryControl => Matching(s, Some(tool), RuleKinds(seed.dimension)) != []
      case DuplicateAction => Matching(s, Some(tool), RuleKinds(seed.dimension)) != []
      case Ordering => Matching(s, Some(tool), RuleKinds(seed.dimension)) != []
      case ConfirmationWithConsent => ConfirmationTouched(tool, true, s)
      case ConfirmationWithoutConsent => ConfirmationTouched(tool, false, s)
      case PrerequisiteSuccess => seed.prerequisite.Some? && (tool, seed.prerequisite.value) in PrerequisitePairs(s)
      case PrerequisiteFailure => seed.prerequisite.Some? && (tool, seed.prerequisite.value) in PrerequisitePairs(s)
  }

  // ---------------------------------------------------------------------------
  // Candidates of one scenario
  // ---------------------------------------------------------------------------

  ghost predicate HasCovered(cs: seq<Candidate>) {
    exists o :: o in cs && o.status.Covered?
  }

  lemma {:induction false} One(o: Candidate)
    ensures HasCovered([o]) <==> o.status.Covered?
    ensures !HasCovered([])
  {
    assert o in [o];
  }

  /** Filtering traced constraints, said without traces. */
  lemma {:induction false} Filtered(
    w: World, s: Scenario, cs: seq<Behavior>, n: int, p: Traced -> bool, required: seq<Behavior>
  )
    ensures HardAction(s, Filter(TracesFor(w, s, cs, n), p), required) <==> Hard(w, s, cs, n, p, required)
    ensures Filter(TracesFor(w, s, cs, n), p) != [] <==> SomeTrace(w, s, cs, n, p)
  {
    var all := TracesFor(w, s, cs, n);
    var ts := Filter(all, p);
    forall x | x in ts ensures x.action in cs && Yields(w, s, x.action, n, p) {
      var i :| 0 <= i < |cs| && all[i] == x;
    }
    forall c | c in cs && Yields(w, s, c, n, p) ensures Traced(c, TraceFor(w, s, c, n)) in ts {
      var i :| 0 <= i < |cs| && cs[i] == c;
      assert all[i] in all;
    }
    if ts != [] { assert ts[0] in ts; }
  }

  lemma {:induction false} SuccessExact(w: World, tool: string, s: Scenario)
    ensures HasCovered(SuccessCandidates(w, tool, s)) <==> HardOn(w, s, tool, 1, FirstIn({Success}))
    ensures SuccessCandidates(w, tool, s) != [] <==> SomeTrace(w, s, ActionsFor(s, tool), 1, FirstIn({Success}))
  {
    Filtered(w, s, ActionsFor(s, tool), 1, FirstIn({Success}), RequiredFor(s, tool));
    if SuccessCandidates(w, tool, s) != [] { One(SuccessCandidates(w, tool, s)[0]); }
  }

  lemma {:induction false} UnconfiguredNotExecutable(s: Scenario)
    ensures (exists o :: o in HandlingCriteria(s) && HandlingExecutable(s, o))
       <==> (exists o :: o in s.outputs && HandlingExecutable(s, o))
    ensures HandlingCriteria(s) == [] || OnlyUnconfigured(HandlingCriteria(s))
        ==> !exists o :: o in s.outputs && HandlingExecutable(s, o)
  {
    forall o | o in s.outputs && HandlingExecutable(s, o) ensures o in HandlingCriteria(s) {}
  }

  /** What decides the failure candidate, by the branches of the fold. */
  lemma {:induction false} FailureDecides(w: World, tool: string, s: Scenario)
    ensures var cs := FailureCandidates(w, tool, s);
            var failures := Filter(TracesFor(w, s, ActionsFor(s, tool), 1), FirstIn({Error}));
            if ActionsFor(s, tool) == [] || failures == [] then cs == []
            else
              |cs| == 1
              && (cs[0].status.Covered? <==>
                    HandlingCriteria(s) != [] && !OnlyUnconfigured(HandlingCriteria(s)) && Focal(s) == {tool}
                    && (exists o :: o in HandlingCriteria(s) && HandlingExecutable(s, o))
                    && HardAction(s, failures, RequiredFor(s, tool)))
  {
  }

  lemma {:induction false} FailureExact(w: World, tool: string, s: Scenario)
    ensures HasCovered(FailureCandidates(w, tool, s)) <==> Handles(s, tool) && HardOn(w, s, tool, 1, FirstIn({Error}))
    ensures FailureCandidates(w, tool, s) != [] <==> SomeTrace(w, s, ActionsFor(s, tool), 1, FirstIn({Error}))
  {
    UnconfiguredNotExecutable(s);
    FailureDecides(w, tool, s);
    Filtered(w, s, ActionsFor(s, tool), 1, FirstIn({Error}), RequiredFor(s, tool));
    HardImpliesSome(w, s, ActionsFor(s, tool), 1, FirstIn({Error}), RequiredFor(s, tool));
    Singleton(FailureCandidates(w, tool, s));
  }

  lemma {:induction false} TimeoutPathExact(w: World, tool: string, s: Scenario)
    ensures TimeoutHardPath(w, tool, s, Filter(TracesFor(w, s, ActionsFor(s, tool), 1), FirstIn({Timeout})))
       <==> TimeoutShown(w, tool, s)
  {
    var cs := ActionsFor(s, tool);
    var all := TracesFor(w, s, cs, 1);
    var timeouts := Filter(all, FirstIn({Timeout}));
    UnconfiguredNotExecutable(s);
    forall x | x in timeouts ensures x.action in cs && Yields(w, s, x.action, 1, FirstIn({Timeout})) {
      var i :| 0 <= i < |cs| && all[i] == x;
    }
    forall c | c in cs && Yields(w, s, c, 1, FirstIn({Timeout})) ensures exists x :: x in timeouts && x.action == c {
      var i :| 0 <= i < |cs| && cs[i] == c;
      assert all[i] in timeouts;
    }
  }

  /** What decides the timeout candidate, by the branches of the fold. */
  lemma {:induction false} TimeoutDecides(w: World, tool: string, s: Scenario)
    ensures var timeouts := Filter(TracesFor(w, s, ActionsFor(s, tool), 1), FirstIn({Timeout}));
      (TimeoutCandidates(w, tool, s) != [] <==> ActionsFor(s, tool) != [] && timeouts != [])
      && (HasCovered(TimeoutCandidates(w, tool, s)) ==> TimeoutHardPath(w, tool, s, timeouts))
      && (TimeoutCandidates(w, tool, s) != [] && TimeoutHardPath(w, tool, s, timeouts) ==> HasCovered(TimeoutCandidates(w, tool, s)))
  {
    UnconfiguredNotExecutable(s);
    if TimeoutCandidates(w, tool, s) != [] { One(TimeoutCandidates(w, tool, s)[0]); }
  }

  lemma {:induction false} TimeoutExact(w: World, tool: string, s: Scenario)
    ensures HasCovered(TimeoutCandidates(w, tool, s)) <==> TimeoutShown(w, tool, s)
    ensures TimeoutCandidates(w, tool, s) != [] <==> SomeTrace(w, s, ActionsFor(s, tool), 1, FirstIn({Timeout}))
  {
    TimeoutDecides(w, tool, s);
    TimeoutPathExact(w, tool, s);
    Filtered(w, s, ActionsFor(s, tool), 1, FirstIn({Timeout}), RequiredFor(s, tool));
  }

  lemma {:induction false} FabricationCriteriaExact(s: Scenario, tool: string)
    ensures FabricationCriteria(s) != [] <==> exists o :: o in s.outputs && o.kind.NoFabricatedSuccess?
    ensures ChecksFabrication(s, tool)
       <==> Focal(s) == {tool}
            && exists o :: o in FabricationCriteria(s) && o.required && Authoritative(s, o.oracles) && ConfiguredTerms(o)
  {
    forall o | o in s.outputs && o.kind.NoFabricatedSuccess? ensures o in FabricationCriteria(s) {}
    if FabricationCriteria(s) != [] { assert FabricationCriteria(s)[0] in FabricationCriteria(s); }
  }

  lemma {:induction false} FabricationDecides(w: World, tool: string, s: Scenario)
    ensures var cs := FabricationCandidates(w, tool, s);
            var failed := Filter(TracesFor(w, s, ActionsFor(s, tool), 1), FirstIn(UNUSABLE));
            if tool in Focal(s) && FabricationCriteria(s) != [] then
              |cs| == 1
              && (cs[0].status.Covered? <==>
                    failed != [] && Focal(s) == {tool}
                    && (exists o :: o in FabricationCriteria(s) && o.required && Authoritative(s, o.oracles) && ConfiguredTerms(o))
                    && HardAction(s, failed, RequiredFor(s, tool)))
            else cs == []
  {
  }

  lemma {:induction false} FabricationExact(w: World, tool: string, s: Scenario)
    ensures HasCovered(FabricationCandidates(w, tool, s))
       <==> ChecksFabrication(s, tool) && HardOn(w, s, tool, 1, FirstIn(UNUSABLE))
    ensures FabricationCandidates(w, tool, s) != []
       <==> tool in Focal(s) && exists o :: o in s.outputs && o.kind.NoFabricatedSuccess?
  {
    FabricationCriteriaExact(s, tool);
    FabricationDecides(w, tool, s);
    Filtered(w, s, ActionsFor(s, tool), 1, FirstIn(UNUSABLE), RequiredFor(s, tool));
    HardImpliesSome(w, s, ActionsFor(s, tool), 1, FirstIn(UNUSABLE), RequiredFor(s, tool));
    var cs := FabricationCandidates(w, tool, s);
    Singleton(cs);
  }

  lemma {:induction false} Singleton(cs: seq<Candidate>)
    ensures |cs| == 1 ==> (HasCovered(cs) <==> cs[0].status.Covered?)
    ensures HasCovered(cs) ==> cs != []
  {
    if |cs| == 1 { assert cs[0] in cs; }
  }

  lemma {:induction false} HardImpliesSome(
    w: World, s: Scenario, cs: seq<Behavior>, n: int, p: Traced -> bool, required: seq<Behavior>
  )
    ensures Hard(w, s, cs, n, p, required) ==> SomeTrace(w, s, cs, n, p)
  {
  }

  lemma {:induction false} NestedFilter(w: World, s: Scenario, tool: string, n: int, definition: Option<Tool>)
    ensures var ambiguous := Filter(TracesFor(w, s, ActionsFor(s, tool), n), HasAmbiguous(definition));
            var observable := Filter(ambiguous, HasAmbiguousNext(definition));
            (HardAction(s, observable, RequiredFor(s, tool)) <==> HardOn(w, s, tool, n, HasAmbiguousNext(definition)))
            && (ambiguous != [] <==> SomeTrace(w, s, ActionsFor(s, tool), n, HasAmbiguous(definition)))
            && (observable == [] ==> !HardOn(w, s, tool, n, HasAmbiguousNext(definition)))
            && (ambiguous == [] ==> observable == [])
  {
    var all := TracesFor(w, s, ActionsFor(s, tool), n);
    var ambiguous := Filter(all, HasAmbiguous(definition));
    var observable := Filter(ambiguous, HasAmbiguousNext(definition));
    var direct := Filter(all, HasAmbiguousNext(definition));
    Filtered(w, s, ActionsFor(s, tool), n, HasAmbiguous(definition), RequiredFor(s, tool));
    Filtered(w, s, ActionsFor(s, tool), n, HasAmbiguousNext(definition), RequiredFor(s, tool));
    forall x | x in direct ensures x in observable {
      var i :| 0 <= i < |x.trace| - 1 && AmbiguousTimeout(x.trace[i], definition);
    }
    forall x | x in observable ensures x in direct {}
  }

  /** What decides the ambiguity candidate, by the branches of the fold. */
  lemma {:induction false} AmbiguousDecides(w: World, tool: string, s: Scenario)
    ensures var cs, rules := AmbiguousCandidates(w, Some(tool), s), Matching(s, Some(tool), {NoRetryAfterAmbiguousTimeout});
            var ambiguous := Filter(TracesFor(w, s, ActionsFor(s, tool), MaxLength(s, tool)), HasAmbiguous(w.Get(tool)));
            var observable := Filter(ambiguous, HasAmbiguousNext(w.Get(tool)));
            if tool !in Focal(s) || ActionsFor(s, tool) == [] || (rules == [] && ambiguous == []) then cs == []
            else
              |cs| == 1
              && (cs[0].status.Covered? <==>
                    ambiguous != [] && rules != [] && observable != []
                    && HardTrajectory(s, rules) && HardAction(s, observable, RequiredFor(s, tool)))
  {
  }

  lemma {:induction false} AmbiguousExact(w: World, tool: string, s: Scenario)
    ensures HasCovered(AmbiguousCandidates(w, Some(tool), s))
       <==> HardTrajectory(s, Matching(s, Some(tool), {NoRetryAfterAmbiguousTimeout}))
            && HardOn(w, s, tool, MaxLength(s, tool), HasAmbiguousNext(w.Get(tool)))
    ensures AmbiguousCandidates(w, Some(tool), s) != [] <==> AmbiguityTouched(w, tool, s)
  {
    AmbiguousDecides(w, tool, s);
    NestedFilter(w, s, tool, MaxLength(s, tool), w.Get(tool));
    RuleIsFocal(s, tool, {NoRetryAfterAmbiguousTimeout});
    HardImpliesSome(w, s, ActionsFor(s, tool), MaxLength(s, tool), HasAmbiguousNext(w.Get(tool)), RequiredFor(s, tool));
    HardNeedsRule(s, Matching(s, Some(tool), {NoRetryAfterAmbiguousTimeout}));
    Singleton(AmbiguousCandidates(w, Some(tool), s));
  }

  lemma {:induction false} HardNeedsRule(s: Scenario, rules: seq<Trajectory>)
    ensures HardTrajectory(s, rules) ==> rules != []
  {
  }

  /** A rule that names a tool makes the scenario about that tool. */
  lemma {:induction false} RuleIsFocal(s: Scenario, tool: string, kinds: set<TrajectoryKind>)
    requires OtherTrajectory !in kinds
    ensures Matching(s, Some(tool), kinds) != [] ==> tool in Focal(s)
  {
    var ts := Matching(s, Some(tool), kinds);
    if ts != [] { assert ts[0] in ts; }
  }

  lemma {:induction false} RetryExact(w: World, tool: string, s: Scenario)
    ensures HasCovered(RetryCandidates(w, Some(tool), s)) <==> RetryShown(w, tool, s)
    ensures RetryCandidates(w, Some(tool), s) != []
       <==> Matching(s, Some(tool), {NoRetryAfterAmbiguousTimeout, MaxRetries}) != []
  {
    var ts := RetryPolicies(s, tool);
    forall t | t in ts
      ensures |RetryCandidate(w, tool, s, t)| == 1
      ensures RetryCandidate(w, tool, s, t)[0].status.Covered?
         <==> HardRetryRule(s, tool, t) && HardOn(w, s, tool, RetryCalls(s, tool, t), Prohibited(w, tool, t))
    {
      Filtered(w, s, ActionsFor(s, tool), RetryCalls(s, tool, t), Prohibited(w, tool, t), RequiredFor(s, tool));
      HardImpliesSome(w, s, ActionsFor(s, tool), RetryCalls(s, tool, t), Prohibited(w, tool, t), RequiredFor(s, tool));
    }
    var f := (t: Trajectory) => RetryCandidate(w, tool, s, t);
    assert RetryCandidates(w, Some(tool), s) == Gather(ts, f);
    SingleEach(ts, f);
  }

  /** A pass that yields one candidate per rule. */
  lemma {:induction false} SingleEach(ts: seq<Trajectory>, f: Trajectory -> seq<Candidate>)
    requires forall t :: t in ts ==> |f(t)| == 1
    ensures |Gather(ts, f)| == |ts|
    ensures HasCovered(Gather(ts, f)) <==> exists t :: t in ts && f(t)[0].status.Covered?
  {
    if ts != [] {
      SingleEach(ts[1..], f);
      assert ts == [ts[0]] + ts[1..];
      var rest := Gather(ts[1..], f);
      assert f(ts[0]) == [f(ts[0])[0]];
      forall o: Candidate ensures o in Gather(ts, f) <==> o == f(ts[0])[0] || o in rest {}
    }
  }

  lemma {:induction false} DuplicateExact(w: World, tool: string, s: Scenario)
    ensures HasCovered(DuplicateCandidates(w, Some(tool), s))
       <==> HardTrajectory(s, Matching(s, Some(tool), {NoDuplicateSideEffect})) && HardOn(w, s, tool, 2, AtLeast(2))
    ensures DuplicateCandidates(w, Some(tool), s) != [] <==> Matching(s, Some(tool), {NoDuplicateSideEffect}) != []
  {
    Filtered(w, s, ActionsFor(s, tool), 2, AtLeast(2), RequiredFor(s, tool));
    HardImpliesSome(w, s, ActionsFor(s, tool), 2, AtLeast(2), RequiredFor(s, tool));
    if DuplicateCandidates(w, Some(tool), s) != [] { One(DuplicateCandidates(w, Some(tool), s)[0]); }
  }

  lemma {:induction false} OrderingExact(w: World, tool: string, s: Scenario)
    ensures HasCovered(OrderingCandidates(w, Some(tool), s)) <==> OrderingShown(w, tool, s)
    ensures OrderingCandidates(w, Some(tool), s) != [] <==> Matching(s, Some(tool), {OrderingKind}) != []
  {
    var ts := Matching(s, Some(tool), {OrderingKind});
    var f := (t: Trajectory) => OrderingCandidate(w, tool, s, t);
    assert OrderingCandidates(w, Some(tool), s) == Gather(ts, f);
    SingleEach(ts, f);
  }

  lemma {:induction false} UndeclaredExact(s: Scenario, constraints: seq<Trajectory>, reason: Reason)
    ensures !HasCovered(Undeclared(s, constraints, reason))
    ensures Undeclared(s, constraints, reason) != [] <==> constraints != []
  {
  }

  lemma {:induction false} ConfirmationRules(s: Scenario, tool: string)
    ensures HardConfirmation(s, tool) ==> ConfirmingBehaviors(s, tool) != [] || ConfirmingTrajectories(s, tool) != []
  {
    HardNeedsRule(s, ConfirmingTrajectories(s, tool));
  }

  lemma {:induction false} ListedIsFocal(s: Scenario, b: Behavior)
    requires b in Behaviors(s)
    ensures b.tool in Focal(s)
  {
  }

  lemma {:induction false} RequiredIsFocal(s: Scenario, tool: string)
    ensures RequiredFor(s, tool) != [] ==> tool in Focal(s)
    ensures ForbiddenFor(s, tool) != [] ==> tool in Focal(s)
  {
    if RequiredFor(s, tool) != [] {
      assert RequiredFor(s, tool)[0] in RequiredFor(s, tool);
      ListedIsFocal(s, RequiredFor(s, tool)[0]);
    }
    if ForbiddenFor(s, tool) != [] {
      assert ForbiddenFor(s, tool)[0] in ForbiddenFor(s, tool);
      ListedIsFocal(s, ForbiddenFor(s, tool)[0]);
    }
  }

  lemma {:induction false} ActionsEmpty(s: Scenario, tool: string)
    ensures ActionsFor(s, tool) == [] <==> RequiredFor(s, tool) == [] && AllowedFor(s, tool) == []
  {
    assert |ActionsFor(s, tool)| == |RequiredFor(s, tool)| + |AllowedFor(s, tool)|;
  }

  lemma {:induction false} ConfirmationEmpty(w: World, tool: string, consent: bool, s: Scenario)
    ensures ConfirmationCandidates(w, tool, consent, s) == []
       <==> tool !in Focal(s) || ExplicitConfirmation(s) != consent
            || (ConfirmingBehaviors(s, tool) == [] && ConfirmingTrajectories(s, tool) == [] && RequiredFor(s, tool) == []
                && AllowedFor(s, tool) == [] && ForbiddenFor(s, tool) == [])
  {
  }

  lemma {:induction false} ConfirmationSeen(w: World, tool: string, consent: bool, s: Scenario)
    ensures ConfirmationCandidates(w, tool, consent, s) != [] <==> ConfirmationTouched(tool, consent, s)
  {
    ConfirmationEmpty(w, tool, consent, s);
    ActionsEmpty(s, tool);
  }

  lemma {:induction false} ConfirmationOnce(w: World, tool: string, consent: bool, s: Scenario)
    ensures |ConfirmationCandidates(w, tool, consent, s)| <= 1
  {
  }

  lemma {:induction false} ConfirmationExact(w: World, tool: string, consent: bool, s: Scenario)
    ensures HasCovered(ConfirmationCandidates(w, tool, consent, s)) <==> ConfirmationShown(w, tool, consent, s)
    ensures ConfirmationCandidates(w, tool, consent, s) != [] <==> ConfirmationTouched(tool, consent, s)
  {
    var actions := if consent then RequiredFor(s, tool) else ForbiddenFor(s, tool);
    ConfirmationRules(s, tool);
    RequiredIsFocal(s, tool);
    Filtered(w, s, actions, 1, AtLeast(1), actions);
    HardImpliesSome(w, s, actions, 1, AtLeast(1), actions);
    ConfirmationSeen(w, tool, consent, s);
    ConfirmationOnce(w, tool, consent, s);
    Singleton(ConfirmationCandidates(w, tool, consent, s));
  }

  lemma {:induction false} PrerequisiteExact(w: World, focal: string, prior: string, failure: bool, s: Scenario)
    ensures HasCovered(PrerequisiteCandidates(w, focal, prior, failure, s))
       <==> failure && PrerequisiteFailureShown(w, focal, prior, s)
    ensures PrerequisiteCandidates(w, focal, prior, failure, s) != [] <==> (focal, prior) in PrerequisitePairs(s)
  {
    var statuses := if failure then {Error, Timeout} else {Success};
    Filtered(w, s, RequiredFor(s, prior), 1, FirstIn(statuses), RequiredFor(s, prior));
    var actions := if failure then ForbiddenFor(s, focal) else RequiredFor(s, focal);
    Filtered(w, s, actions, 1, AtLeast(1), actions);
    if PrerequisiteCandidates(w, focal, prior, failure, s) != [] {
      One(PrerequisiteCandidates(w, focal, prior, failure, s)[0]);
    }
  }

  lemma {:induction false} CandidateExact(w: World, seed: Seed, s: Scenario)
    requires Evaluable(seed)
    ensures HasCovered(CandidatesFrom(w, seed)(s)) <==> Demonstrated(w, seed, s)
    ensures Scope(seed)(s) ==> (CandidatesFrom(w, seed)(s) != [] <==> Touched(w, seed, s))
  {
    if seed.tool.Some? {
      var tool := seed.tool.value;
      match seed.dimension
      case SuccessPath => SuccessExact(w, tool, s);
      case FailureHandling => FailureExact(w, tool, s);
      case TimeoutHandling => TimeoutExact(w, tool, s);
      case FabricatedSuccess => FabricationExact(w, tool, s);
      case AmbiguousOutcome => AmbiguousExact(w, tool, s);
      case RetryControl => RetryExact(w, tool, s);
      case DuplicateAction => DuplicateExact(w, tool, s);
      case Ordering => OrderingExact(w, tool, s);
      case ConfirmationWithConsent => ConfirmationExact(w, tool, true, s);
      case ConfirmationWithoutConsent => ConfirmationExact(w, tool, false, s);
      case PrerequisiteSuccess => PrerequisiteExact(w, tool, seed.prerequisite.value, false, s);
      case PrerequisiteFailure => PrerequisiteExact(w, tool, seed.prerequisite.value, true, s);
    } else {
      match seed.dimension
      case AmbiguousOutcome =>
        UndeclaredExact(s, Matching(s, None, RuleKinds(seed.dimension)), AmbiguousOracleWithoutDeclaredToolSignature);
      case RetryControl =>
        UndeclaredExact(s, Matching(s, None, RuleKinds(seed.dimension)), RetryOracleWithoutDeclaredToolSignature);
      case DuplicateAction =>
        UndeclaredExact(s, Matching(s, None, RuleKinds(seed.dimension)), DuplicateOracleWithoutDeclaredToolSignature);
      case Ordering =>
        UndeclaredExact(s, Matching(s, None, RuleKinds(seed.dimension)), OrderingOracleWithoutDeclaredToolSignature);
    }
  }

  // ---------------------------------------------------------------------------
  // A requirement over a whole suite
  // ---------------------------------------------------------------------------

  /**
    Exactly when an applicable requirement is COVERED, and exactly when it is
    MISSING, for every set of scenarios.
   */
  lemma {:induction false} StatusExact(w: World, seed: Seed, scenarios: seq<Scenario>)
    requires seed.applicability.Applicable? && Evaluable(seed)
    ensures var r := Evaluate(w, seed, scenarios);
            (r.status.Covered? <==> exists s :: s in scenarios && Demonstrated(w, seed, s))
            && (r.status.Missing? <==> !exists s :: s in scenarios && Touched(w, seed, s))
            && (r.status.Covered? || r.status.PartlyCovered? || r.status.Missing?)
  {
    var scoped := Filter(scenarios, Scope(seed));
    var f := CandidatesFrom(w, seed);
    var cs := Gather(scoped, f);
    CandidatesRankable(w, seed, scoped);
    forall s: Scenario
      ensures HasCovered(f(s)) <==> Demonstrated(w, seed, s)
      ensures Scope(seed)(s) ==> (f(s) != [] <==> Touched(w, seed, s))
    {
      CandidateExact(w, seed, s);
    }
    GatherParts(scoped, f);
    forall s | s in scenarios && Touched(w, seed, s) ensures s in scoped {}
    forall s | s in scenarios && Demonstrated(w, seed, s) ensures s in scoped {}
  }

  /** What a pass over scenarios yields, scenario by scenario. */
  lemma {:induction false} GatherParts(ss: seq<Scenario>, f: Scenario -> seq<Candidate>)
    ensures HasCovered(Gather(ss, f)) <==> exists s :: s in ss && HasCovered(f(s))
    ensures Gather(ss, f) != [] <==> exists s :: s in ss && f(s) != []
  {
    if ss != [] {
      GatherParts(ss[1..], f);
      assert ss == [ss[0]] + ss[1..];
      forall o: Candidate ensures o in Gather(ss, f) <==> o in f(ss[0]) || o in Gather(ss[1..], f) {}
    }
  }

  lemma {:induction false} SameMembers<T>(a: seq<T>, b: seq<T>, x: T)
    requires multiset(a) <= multiset(b)
    ensures x in a ==> x in b
  {
    if x in a { assert x in multiset(a); }
  }

  /**
    Evaluating more scenarios never loses evidence: what was COVERED stays COVERED,
    what is MISSING was MISSING before, and undecided or unsupported requirements
    do not depend on the scenarios.
   */
  lemma {:induction false} MoreScenarios(w: World, seed: Seed, a: seq<Scenario>, b: seq<Scenario>)
    requires multiset(a) <= multiset(b)
    ensures var before, after := Evaluate(w, seed, a).status, Evaluate(w, seed, b).status;
            (before.Covered? ==> after.Covered?)
            && (after.Missing? ==> before.Missing?)
            && (before.Undecided? <==> after.Undecided?)
            && (before.Unsupported? <==> after.Unsupported?)
  {
    if seed.applicability.Applicable? && Evaluable(seed) {
      StatusExact(w, seed, a);
      StatusExact(w, seed, b);
      forall s: Scenario ensures s in a ==> s in b { SameMembers(a, b, s); }
    }
  }

  /** The order of the scenarios changes neither the status, nor the reason, nor the evidence. */
  lemma {:induction false} EvaluatePermuted(w: World, seed: Seed, a: seq<Scenario>, b: seq<Scenario>)
    requires multiset(a) == multiset(b)
    ensures Evaluate(w, seed, a) == Evaluate(w, seed, b)
  {
    if seed.applicability.NotSupported? {
      forall s: Scenario ensures s in a <==> s in b {
        SameMembers(a, b, s);
        SameMembers(b, a, s);
      }
      assert OrderingEvidence(a, seed) == OrderingEvidence(b, seed);
    } else if seed.applicability.Applicable? && Evaluable(seed) {
      FilterMonotone(a, b, Scope(seed));
      FilterMonotone(b, a, Scope(seed));
      var c, d := Filter(a, Scope(seed)), Filter(b, Scope(seed));
      GatherPermuted(c, d, CandidatesFrom(w, seed));
      CandidatesRankable(w, seed, c);
      BestPermuted(Gather(c, CandidatesFrom(w, seed)), Gather(d, CandidatesFrom(w, seed)), MissingReason(seed.dimension));
    }
  }
}
