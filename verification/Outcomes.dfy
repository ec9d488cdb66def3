/**
  What one requirement gets from a set of scenarios (the `_*_outcome` functions,
  `_best` and `_evaluate_seed`): each scenario contributes candidate outcomes, and
  the best of them decides.
 */
module Outcomes {
  import opened Bags
  import opened Json
  import opened Domain
  import opened Trace
  import Text

  datatype Dimension =
    | SuccessPath
    | FailureHandling
    | TimeoutHandling
    | FabricatedSuccess
    | AmbiguousOutcome
    | RetryControl
    | DuplicateAction
    | ConfirmationWithoutConsent
    | ConfirmationWithConsent
    | PrerequisiteSuccess
    | PrerequisiteFailure
    | Ordering

  datatype Status = Covered | PartlyCovered | Missing | Undecided | Unsupported

  datatype Outcome = Outcome(status: Status, reason: string, evidence: set<string>)

  /** The stable reason codes of the candidates. */
  datatype Reason =
    | RequiredSuccessWithControlledFixture
    | OptionalSuccessPath
    | FailureStimulusWithoutHandlingOracle
    | FabricationTermsUnconfigured
    | RequiredFailureWithSupportedOracle
    | OptionalOrNonauthoritativeFailurePath
    | TimeoutStimulusWithoutHandlingOracle
    | RequiredTimeoutWithSupportedOracle
    | OptionalOrNonauthoritativeTimeoutPath
    | FabricationOracleWithoutFailureStimulus
    | ConfiguredFabricationOracleOnRequiredFailure
    | OptionalOrNonauthoritativeFabricationPath
    | AmbiguousOracleWithoutDeclaredToolSignature
    | AmbiguousOracleWithoutReachableStimulus
    | AmbiguousStimulusWithoutRetryOracle
    | AmbiguousRetryLacksControlledNextAttempt
    | RequiredAmbiguousRetryIsObservable
    | OptionalAmbiguousActionPath
    | NonauthoritativeAmbiguousOracle
    | RetryLimitParametersInvalid
    | RetryLimitLacksProhibitedAttemptFixture
    | RequiredRetryLimitIsObservable
    | OptionalRetryActionPath
    | NonauthoritativeRetryOracle
    | RetryOracleWithoutDeclaredToolSignature
    | DuplicateOracleWithoutDeclaredToolSignature
    | DuplicateOracleLacksSecondFixture
    | RequiredDuplicateAttemptIsObservable
    | OptionalDuplicateActionPath
    | NonauthoritativeDuplicateOracle
    | OrderingPrerequisiteNotDeclared
    | OrderingLacksControlledOutcomeForBothTools
    | RequiredOrderingIsObservable
    | NonauthoritativeOrderingOracle
    | OrderingOracleWithoutDeclaredToolSignature
    | ConfirmationOpportunityWithoutOracle
    | ConfirmationActionPolarityNotObservable
    | ConfirmationOracleWithoutControlledToolFixture
    | ConfirmedRequiredActionIsObservable
    | UnconfirmedForbiddenActionIsObservable
    | OptionalConfirmedActionPath
    | NonauthoritativeConfirmationOracle
    | RequiredPrerequisiteFailureForbidsFocalAction
    | PrerequisiteFailureFixtureNotReachable
    | PrerequisiteFailurePathNotFullyAsserted
    | CallsAssertedButOrderUnobservable
    | PrerequisiteSuccessFixtureNotReachable
    | PrerequisiteSuccessRelationshipUnasserted

  function Code(reason: Reason): (code: string) {
    match reason
    case RequiredSuccessWithControlledFixture => "required_success_with_controlled_fixture"
    case OptionalSuccessPath => "optional_success_path"
    case FailureStimulusWithoutHandlingOracle => "failure_stimulus_without_handling_oracle"
    case FabricationTermsUnconfigured => "fabrication_terms_unconfigured"
    case RequiredFailureWithSupportedOracle => "required_failure_with_supported_oracle"
    case OptionalOrNonauthoritativeFailurePath => "optional_or_nonauthoritative_failure_path"
    case TimeoutStimulusWithoutHandlingOracle => "timeout_stimulus_without_handling_oracle"
    case RequiredTimeoutWithSupportedOracle => "required_timeout_with_supported_oracle"
    case OptionalOrNonauthoritativeTimeoutPath => "optional_or_nonauthoritative_timeout_path"
    case FabricationOracleWithoutFailureStimulus => "fabrication_oracle_without_failure_stimulus"
    case ConfiguredFabricationOracleOnRequiredFailure => "configured_fabrication_oracle_on_required_failure"
    case OptionalOrNonauthoritativeFabricationPath => "optional_or_nonauthoritative_fabrication_path"
    case AmbiguousOracleWithoutDeclaredToolSignature => "ambiguous_oracle_without_declared_tool_signature"
    case AmbiguousOracleWithoutReachableStimulus => "ambiguous_oracle_without_reachable_stimulus"
    case AmbiguousStimulusWithoutRetryOracle => "ambiguous_stimulus_without_retry_oracle"
    case AmbiguousRetryLacksControlledNextAttempt => "ambiguous_retry_lacks_controlled_next_attempt"
    case RequiredAmbiguousRetryIsObservable => "required_ambiguous_retry_is_observable"
    case OptionalAmbiguousActionPath => "optional_ambiguous_action_path"
    case NonauthoritativeAmbiguousOracle => "nonauthoritative_ambiguous_oracle"
    case RetryLimitParametersInvalid => "retry_limit_parameters_invalid"
    case RetryLimitLacksProhibitedAttemptFixture => "retry_limit_lacks_prohibited_attempt_fixture"
    case RequiredRetryLimitIsObservable => "required_retry_limit_is_observable"
    case OptionalRetryActionPath => "optional_retry_action_path"
    case NonauthoritativeRetryOracle => "nonauthoritative_retry_oracle"
    case RetryOracleWithoutDeclaredToolSignature => "retry_oracle_without_declared_tool_signature"
    case DuplicateOracleWithoutDeclaredToolSignature => "duplicate_oracle_without_declared_tool_signature"
    case DuplicateOracleLacksSecondFixture => "duplicate_oracle_lacks_second_fixture"
    case RequiredDuplicateAttemptIsObservable => "required_duplicate_attempt_is_observable"
    case OptionalDuplicateActionPath => "optional_duplicate_action_path"
    case NonauthoritativeDuplicateOracle => "nonauthoritative_duplicate_oracle"
    case OrderingPrerequisiteNotDeclared => "ordering_prerequisite_not_declared"
    case OrderingLacksControlledOutcomeForBothTools => "ordering_lacks_controlled_outcome_for_both_tools"
    case RequiredOrderingIsObservable => "required_ordering_is_observable"
    case NonauthoritativeOrderingOracle => "nonauthoritative_ordering_oracle"
    case OrderingOracleWithoutDeclaredToolSignature => "ordering_oracle_without_declared_tool_signature"
    case ConfirmationOpportunityWithoutOracle => "confirmation_opportunity_without_oracle"
    case ConfirmationActionPolarityNotObservable => "confirmation_action_polarity_not_observable"
    case ConfirmationOracleWithoutControlledToolFixture => "confirmation_oracle_without_controlled_tool_fixture"
    case ConfirmedRequiredActionIsObservable => "confirmed_required_action_is_observable"
    case UnconfirmedForbiddenActionIsObservable => "unconfirmed_forbidden_action_is_observable"
    case OptionalConfirmedActionPath => "optional_confirmed_action_path"
    case NonauthoritativeConfirmationOracle => "nonauthoritative_confirmation_oracle"
    case RequiredPrerequisiteFailureForbidsFocalAction => "required_prerequisite_failure_forbids_focal_action"
    case PrerequisiteFailureFixtureNotReachable => "prerequisite_failure_fixture_not_reachable"
    case PrerequisiteFailurePathNotFullyAsserted => "prerequisite_failure_path_not_fully_asserted"
    case CallsAssertedButOrderUnobservable => "calls_asserted_but_order_unobservable"
    case PrerequisiteSuccessFixtureNotReachable => "prerequisite_success_fixture_not_reachable"
    case PrerequisiteSuccessRelationshipUnasserted => "prerequisite_success_relationship_unasserted"
  }

  datatype Candidate = Candidate(status: Status, reason: Reason, evidence: set<string>)

  datatype Applicability = Unknown | NotSupported | Applicable

  datatype Seed = Seed(
    dimension: Dimension,
    subject: string,
    applicability: Applicability,
    tool: Option<string>,
    prerequisite: Option<string>,
    unknownReason: string)

  /** The declared tools by name, with the offline schema validator. */
  datatype World = World(validates: Validator, tools: map<string, Tool>) {
    function Get(name: string): (t: Option<Tool>) {
      if name in tools then Some(tools[name]) else None
    }
  }

  /** An action constraint with the trace its declared arguments would receive. */
  datatype Traced = Traced(action: Behavior, trace: seq<Slot>)

  // ---------------------------------------------------------------------------
  // Reading one scenario
  // ---------------------------------------------------------------------------

  ghost predicate Authoritative(s: Scenario, ids: seq<string>) {
    exists o :: o in s.oracles && o.id in ids && o.supportsHardFailure && o.confidence >= 0.8 && !o.llmInference
  }

  predicate ToolScoped(k: TrajectoryKind) {
    !k.OtherTrajectory?
  }

  function Behaviors(s: Scenario): (r: seq<Behavior>) {
    s.required + s.allowed + s.forbidden
  }

  /** The tools a scenario is about. */
  ghost function Focal(s: Scenario): (r: set<string>) {
    (set b | b in Behaviors(s) :: b.tool)
    + (set t | t in s.trajectory && ToolScoped(t.kind) && TextParameter(t.parameters, "tool_name").Some?
         :: TextParameter(t.parameters, "tool_name").value)
  }

  function RequiredFor(s: Scenario, tool: string): (r: seq<Behavior>) {
    Filter(s.required, (b: Behavior) => b.tool == tool && b.minCalls >= 1)
  }

  function AllowedFor(s: Scenario, tool: string): (r: seq<Behavior>) {
    Filter(s.allowed, (b: Behavior) => b.tool == tool)
  }

  function ForbiddenFor(s: Scenario, tool: string): (r: seq<Behavior>) {
    Filter(s.forbidden, (b: Behavior) => b.tool == tool)
  }

  function ActionsFor(s: Scenario, tool: string): (r: seq<Behavior>) {
    RequiredFor(s, tool) + AllowedFor(s, tool)
  }

  ghost function TraceFor(w: World, s: Scenario, c: Behavior, count: int): (r: seq<Slot>) {
    TraceOf(w.validates, s, w.Get(c.tool), c.tool, c.arguments, count)
  }

  ghost function TracesFor(w: World, s: Scenario, cs: seq<Behavior>, count: int): (r: seq<Traced>)
    ensures |r| == |cs|
    ensures forall i :: 0 <= i < |cs| ==> r[i] == Traced(cs[i], TraceFor(w, s, cs[i], count))
  {
    seq(|cs|, i requires 0 <= i < |cs| => Traced(cs[i], TraceFor(w, s, cs[i], count)))
  }

  /** Some action of `ts` is one of `required` and carries an authoritative oracle. */
  ghost predicate HardAction(s: Scenario, ts: seq<Traced>, required: seq<Behavior>) {
    exists x :: x in ts && Among(x.action, required) && Authoritative(s, x.action.oracles)
  }

  ghost function SlotEvidence(ts: seq<Traced>): (r: set<string>) {
    set x, k | x in ts && 0 <= k < |x.trace| :: x.trace[k].evidence
  }

  ghost function Evidence(s: Scenario, criteria: seq<string>, ts: seq<Traced>): (r: set<string>) {
    {"scenario:" + s.id, "scenario-fingerprint:" + s.fingerprint}
    + SlotEvidence(ts)
    + (set c | c in criteria && c != "" :: "criterion:" + c)
  }

  function BehaviorIds(cs: seq<Behavior>): (r: seq<string>) {
    seq(|cs|, i requires 0 <= i < |cs| => cs[i].id)
  }

  function TrajectoryIds(cs: seq<Trajectory>): (r: seq<string>) {
    seq(|cs|, i requires 0 <= i < |cs| => cs[i].id)
  }

  function OutputIds(cs: seq<OutputCriterion>): (r: seq<string>) {
    seq(|cs|, i requires 0 <= i < |cs| => cs[i].id)
  }

  function FirstIn(statuses: set<SimulatedStatus>): (p: Traced -> bool) {
    (x: Traced) => x.trace != [] && x.trace[0].status in statuses
  }

  function AtLeast(n: nat): (p: Traced -> bool) {
    (x: Traced) => |x.trace| >= n
  }

  const UNUSABLE: set<SimulatedStatus> := {Error, Timeout, Empty, Malformed, Partial, Stale}

  predicate ConfiguredTerms(o: OutputCriterion) {
    var i := Find(o.parameters, "success_terms");
    i < |o.parameters| && o.parameters[i].value.Arr? && o.parameters[i].value.items != []
    && forall k :: 0 <= k < |o.parameters[i].value.items| ==>
         o.parameters[i].value.items[k].Str? && o.parameters[i].value.items[k].s != ""
  }

  /** A usable retry limit; a boolean is not a number here. */
  function RetryLimit(t: Trajectory): (r: Option<nat>) {
    var i := Find(t.parameters, "max_retries");
    if i < |t.parameters| && t.parameters[i].value.Int? && t.parameters[i].value.i >= 0 then
      Some(t.parameters[i].value.i)
    else
      None
  }

  function HandlingCriteria(s: Scenario): (r: seq<OutputCriterion>) {
    Filter(s.outputs, (o: OutputCriterion) => o.kind.NoFabricatedSuccess? || o.kind.AcknowledgesToolError?)
  }

  ghost predicate HandlingExecutable(s: Scenario, o: OutputCriterion) {
    o.required && Authoritative(s, o.oracles)
    && ((o.kind.NoFabricatedSuccess? && ConfiguredTerms(o)) || o.kind.AcknowledgesToolError?)
  }

  predicate OnlyUnconfigured(outputs: seq<OutputCriterion>) {
    outputs != []
    && forall i :: 0 <= i < |outputs| ==> outputs[i].kind.NoFabricatedSuccess? && !ConfiguredTerms(outputs[i])
  }

  /** Trajectory constraints of the given kinds whose declared tool is exactly `tool`. */
  function Matching(s: Scenario, tool: Option<string>, kinds: set<TrajectoryKind>): (r: seq<Trajectory>) {
    Filter(s.trajectory, (t: Trajectory) => t.kind in kinds && TextParameter(t.parameters, "tool_name") == tool)
  }

  predicate AmbiguousTimeout(x: Slot, tool: Option<Tool>) {
    x.status.Timeout? && (x.errorCode == Some("ambiguous_timeout") || (tool.Some? && tool.value.stateChanging))
  }

  predicate AmbiguousWithNext(trace: seq<Slot>, tool: Option<Tool>) {
    exists i :: 0 <= i < |trace| - 1 && AmbiguousTimeout(trace[i], tool)
  }

  function HasAmbiguous(tool: Option<Tool>): (p: Traced -> bool) {
    (x: Traced) => exists i :: 0 <= i < |x.trace| && AmbiguousTimeout(x.trace[i], tool)
  }

  function HasAmbiguousNext(tool: Option<Tool>): (p: Traced -> bool) {
    (x: Traced) => AmbiguousWithNext(x.trace, tool)
  }

  function MaxLength(s: Scenario, tool: string): (n: nat) {
    if |SlotsFor(s, tool)| == 0 then 1 else |SlotsFor(s, tool)|
  }

  // ---------------------------------------------------------------------------
  // The best candidate
  // ---------------------------------------------------------------------------

  ghost predicate Rankable(cs: seq<Candidate>) {
    forall o :: o in cs ==> o.status.Covered? || o.status.PartlyCovered?
  }

  lemma {:induction false} GatherRankable<T>(s: seq<T>, f: T -> seq<Candidate>)
    requires forall x: T :: x in s ==> Rankable(f(x))
    ensures Rankable(Gather(s, f))
  {
    forall o | o in Gather(s, f) ensures o.status.Covered? || o.status.PartlyCovered? {
      GatherMember(s, f, o);
    }
  }

  ghost function Reasons(cs: seq<Candidate>, top: Status): (r: set<string>) {
    set o | o in cs && o.status == top :: Code(o.reason)
  }

  /**
    The best candidates are the covered ones, or all when none is; they give the outcome
    its status, the least of their reasons, and all of their evidence.
   */
  ghost function Best(cs: seq<Candidate>, missing: string): (r: Outcome)
    requires Rankable(cs)
    ensures r.status.Covered? <==> exists o :: o in cs && o.status.Covered?
    ensures r.status.Missing? <==> cs == []
    ensures r.status.Covered? || r.status.PartlyCovered? || r.status.Missing?
    ensures r.status.Missing? ==> r == Outcome(Missing, missing, {})
    ensures cs != [] ==> Text.IsLeast(Reasons(cs, r.status), r.reason)
    ensures forall e :: e in r.evidence <==> exists o :: o in cs && o.status == r.status && e in o.evidence
  {
    if cs == [] then Outcome(Missing, missing, {})
    else
      var top := if exists o :: o in cs && o.status.Covered? then Covered else PartlyCovered;
      assert exists o :: o in cs && o.status == top by {
        if top == PartlyCovered { assert cs[0] in cs; }
      }
      var chosen :| chosen in cs && chosen.status == top;
      assert Code(chosen.reason) in Reasons(cs, top);
      Text.LeastExists(Reasons(cs, top));
      var reason :| Text.IsLeast(Reasons(cs, top), reason);
      Outcome(top, reason, set o, e | o in cs && o.status == top && e in o.evidence :: e)
  }

  /** The order of the candidates is irrelevant. */
  lemma {:induction false} BestPermuted(cs: seq<Candidate>, ds: seq<Candidate>, missing: string)
    requires multiset(cs) == multiset(ds) && Rankable(cs)
    ensures Rankable(ds) && Best(cs, missing) == Best(ds, missing)
  {
    forall o: Candidate ensures o in cs <==> o in ds {
      assert o in cs <==> o in multiset(cs);
      assert o in ds <==> o in multiset(ds);
    }
    if cs == [] {
      assert |multiset(ds)| == 0;
    } else {
      assert cs[0] in ds;
      var top := Best(cs, missing).status;
      assert Reasons(cs, top) == Reasons(ds, top);
      Text.LeastUnique(Reasons(cs, top), Best(cs, missing).reason, Best(ds, missing).reason);
    }
  }

  // ---------------------------------------------------------------------------
  // Candidates of one scenario, by dimension
  // ---------------------------------------------------------------------------

  ghost function SuccessCandidates(w: World, tool: string, s: Scenario): (r: seq<Candidate>)
    ensures Rankable(r)
  {
    var required := RequiredFor(s, tool);
    var actions := ActionsFor(s, tool);
    var successful := Filter(TracesFor(w, s, actions, 1), FirstIn({Success}));
    if actions == [] || successful == [] then []
    else
      var evidence := Evidence(s, BehaviorIds(actions), successful);
      if HardAction(s, successful, required) then
        [Candidate(Covered, RequiredSuccessWithControlledFixture, evidence)]
      else
        [Candidate(PartlyCovered, OptionalSuccessPath, evidence)]
  }

  ghost function FailureCandidates(w: World, tool: string, s: Scenario): (r: seq<Candidate>)
    ensures Rankable(r)
  {
    var required := RequiredFor(s, tool);
    var actions := ActionsFor(s, tool);
    var failures := Filter(TracesFor(w, s, actions, 1), FirstIn({Error}));
    if actions == [] || failures == [] then []
    else
      var criteria := HandlingCriteria(s);
      var evidence := Evidence(s, OutputIds(criteria), failures);
      var hard := Focal(s) == {tool} && exists o :: o in criteria && HandlingExecutable(s, o);
      if criteria == [] then
        [Candidate(PartlyCovered, FailureStimulusWithoutHandlingOracle, evidence)]
      else if OnlyUnconfigured(criteria) then
        [Candidate(PartlyCovered, FabricationTermsUnconfigured, evidence)]
      else if hard && HardAction(s, failures, required) then
        [Candidate(Covered, RequiredFailureWithSupportedOracle, evidence)]
      else
        [Candidate(PartlyCovered, OptionalOrNonauthoritativeFailurePath, evidence)]
  }

  function RetryPolicies(s: Scenario, tool: string): (r: seq<Trajectory>) {
    Matching(s, Some(tool), {NoRetryAfterAmbiguousTimeout, MaxRetries})
  }

  /** The trace a retry policy is judged on, when the policy is usable. */
  ghost function PolicyTrace(w: World, s: Scenario, tool: string, action: Behavior, t: Trajectory): (r: seq<Traced>) {
    if !(t.required && Authoritative(s, t.oracles)) then []
    else if t.kind.MaxRetries? then
      if RetryLimit(t).None? then [] else [Traced(action, TraceFor(w, s, action, RetryLimit(t).value + 2))]
    else [Traced(action, TraceFor(w, s, action, MaxLength(s, tool)))]
  }

  /** A usable retry policy whose prohibited attempt is under control. */
  ghost predicate PolicyObservable(w: World, s: Scenario, tool: string, action: Behavior, t: Trajectory) {
    t.required && Authoritative(s, t.oracles)
    && (if t.kind.MaxRetries? then
          RetryLimit(t).Some?
          && (var trace := TraceFor(w, s, action, RetryLimit(t).value + 2);
              |trace| >= RetryLimit(t).value + 2 && trace[0].status.Timeout?)
        else AmbiguousWithNext(TraceFor(w, s, action, MaxLength(s, tool)), w.Get(tool)))
  }

  ghost predicate TimeoutHardPath(w: World, tool: string, s: Scenario, timeouts: seq<Traced>) {
    exists x :: x in timeouts && Among(x.action, RequiredFor(s, tool)) && Authoritative(s, x.action.oracles)
      && ((exists t :: t in RetryPolicies(s, tool) && PolicyObservable(w, s, tool, x.action, t))
          || (Focal(s) == {tool} && exists o :: o in HandlingCriteria(s) && HandlingExecutable(s, o)))
  }

  ghost function ExtendedTraces(w: World, tool: string, s: Scenario, timeouts: seq<Traced>): (r: seq<Traced>) {
    Gather(timeouts,
           (x: Traced) =>
             if Among(x.action, RequiredFor(s, tool)) && Authoritative(s, x.action.oracles) then
               Gather(RetryPolicies(s, tool), (t: Trajectory) => PolicyTrace(w, s, tool, x.action, t))
             else [])
  }

  ghost function TimeoutCandidates(w: World, tool: string, s: Scenario): (r: seq<Candidate>)
    ensures Rankable(r)
  {
    var actions := ActionsFor(s, tool);
    var timeouts := Filter(TracesFor(w, s, actions, 1), FirstIn({Timeout}));
    if actions == [] || timeouts == [] then []
    else
      var policies := RetryPolicies(s, tool);
      var handling := HandlingCriteria(s);
      var evidence := Evidence(s, OutputIds(handling) + TrajectoryIds(policies),
                               timeouts + ExtendedTraces(w, tool, s, timeouts));
      if handling == [] && policies == [] then
        [Candidate(PartlyCovered, TimeoutStimulusWithoutHandlingOracle, evidence)]
      else if policies == [] && OnlyUnconfigured(handling) then
        [Candidate(PartlyCovered, FabricationTermsUnconfigured, evidence)]
      else if TimeoutHardPath(w, tool, s, timeouts) then
        [Candidate(Covered, RequiredTimeoutWithSupportedOracle, evidence)]
      else
        [Candidate(PartlyCovered, OptionalOrNonauthoritativeTimeoutPath, evidence)]
  }

  function FabricationCriteria(s: Scenario): (r: seq<OutputCriterion>) {
    Filter(s.outputs, (o: OutputCriterion) => o.kind.NoFabricatedSuccess?)
  }

  ghost function FabricationCandidates(w: World, tool: string, s: Scenario): (r: seq<Candidate>)
    ensures Rankable(r)
  {
    var criteria := FabricationCriteria(s);
    if tool !in Focal(s) || criteria == [] then []
    else
      var failed := Filter(TracesFor(w, s, ActionsFor(s, tool), 1), FirstIn(UNUSABLE));
      var hardConfigured :=
        Focal(s) == {tool}
        && exists o :: o in criteria && o.required && Authoritative(s, o.oracles) && ConfiguredTerms(o);
      var evidence := Evidence(s, OutputIds(criteria), failed);
      if failed == [] then
        [Candidate(PartlyCovered, FabricationOracleWithoutFailureStimulus, evidence)]
      else if !exists o :: o in criteria && ConfiguredTerms(o) then
        [Candidate(PartlyCovered, FabricationTermsUnconfigured, evidence)]
      else if hardConfigured && HardAction(s, failed, RequiredFor(s, tool)) then
        [Candidate(Covered, ConfiguredFabricationOracleOnRequiredFailure, evidence)]
      else
        [Candidate(PartlyCovered, OptionalOrNonauthoritativeFabricationPath, evidence)]
  }

  ghost predicate HardTrajectory(s: Scenario, ts: seq<Trajectory>) {
    exists t :: t in ts && t.required && Authoritative(s, t.oracles)
  }

  /** What a requirement without a declared tool gets: only the fact that a rule exists. */
  ghost function Undeclared(s: Scenario, constraints: seq<Trajectory>, reason: Reason): (r: seq<Candidate>)
    ensures Rankable(r)
  {
    if constraints == [] then []
    else [Candidate(PartlyCovered, reason, Evidence(s, TrajectoryIds(constraints), []))]
  }

  ghost function AmbiguousCandidates(w: World, tool: Option<string>, s: Scenario): (r: seq<Candidate>)
    ensures Rankable(r)
  {
    var constraints := Matching(s, tool, {NoRetryAfterAmbiguousTimeout});
    if tool.None? then Undeclared(s, constraints, AmbiguousOracleWithoutDeclaredToolSignature)
    else
      var name := tool.value;
      var actions := ActionsFor(s, name);
      var traces := TracesFor(w, s, actions, MaxLength(s, name));
      var definition := w.Get(name);
      var ambiguous := Filter(traces, HasAmbiguous(definition));
      var observable := Filter(ambiguous, HasAmbiguousNext(definition));
      if name !in Focal(s) || actions == [] || (constraints == [] && ambiguous == []) then []
      else
        var evidence := Evidence(s, TrajectoryIds(constraints), ambiguous);
        if ambiguous == [] then
          [Candidate(PartlyCovered, AmbiguousOracleWithoutReachableStimulus, evidence)]
        else if constraints == [] then
          [Candidate(PartlyCovered, AmbiguousStimulusWithoutRetryOracle, evidence)]
        else if observable == [] then
          [Candidate(PartlyCovered, AmbiguousRetryLacksControlledNextAttempt, evidence)]
        else if HardTrajectory(s, constraints) && HardAction(s, observable, RequiredFor(s, name)) then
          [Candidate(Covered, RequiredAmbiguousRetryIsObservable, evidence)]
        else
          [Candidate(PartlyCovered,
                   if AllowedFor(s, name) != [] then OptionalAmbiguousActionPath else NonauthoritativeAmbiguousOracle,
                   evidence)]
  }

  ghost function RetryTraces(w: World, s: Scenario, tool: string, t: Trajectory): (r: seq<Traced>) {
    TracesFor(w, s, ActionsFor(s, tool),
              if t.kind.NoRetryAfterAmbiguousTimeout? then MaxLength(s, tool) else RetryLimit(t).GetOr(0) + 2)
  }

  /** The attempt the rule prohibits would itself be under control. */
  function Prohibited(w: World, tool: string, t: Trajectory): (p: Traced -> bool) {
    if t.kind.NoRetryAfterAmbiguousTimeout? then HasAmbiguousNext(w.Get(tool)) else AtLeast(RetryLimit(t).GetOr(0) + 2)
  }

  ghost function RetryCandidate(w: World, tool: string, s: Scenario, t: Trajectory): (r: seq<Candidate>)
    ensures Rankable(r)
  {
    if !t.kind.NoRetryAfterAmbiguousTimeout? && RetryLimit(t).None? then
      [Candidate(PartlyCovered, RetryLimitParametersInvalid, Evidence(s, [t.id], []))]
    else
      var traces := RetryTraces(w, s, tool, t);
      var observable := Filter(traces, Prohibited(w, tool, t));
      var evidence := Evidence(s, [t.id], traces);
      if observable == [] then
        [Candidate(PartlyCovered, RetryLimitLacksProhibitedAttemptFixture, evidence)]
      else if t.required && Authoritative(s, t.oracles) && HardAction(s, observable, RequiredFor(s, tool)) then
        [Candidate(Covered, RequiredRetryLimitIsObservable, evidence)]
      else
        [Candidate(PartlyCovered,
                 if AllowedFor(s, tool) != [] then OptionalRetryActionPath else NonauthoritativeRetryOracle,
                 evidence)]
  }

  ghost function RetryCandidates(w: World, tool: Option<string>, s: Scenario): (r: seq<Candidate>)
    ensures Rankable(r)
  {
    var constraints := Matching(s, tool, {NoRetryAfterAmbiguousTimeout, MaxRetries});
    if tool.None? then Undeclared(s, constraints, RetryOracleWithoutDeclaredToolSignature)
    else
      var f := (t: Trajectory) => RetryCandidate(w, tool.value, s, t);
      GatherRankable(constraints, f);
      Gather(constraints, f)
  }

  ghost function DuplicateCandidates(w: World, tool: Option<string>, s: Scenario): (r: seq<Candidate>)
    ensures Rankable(r)
  {
    var constraints := Matching(s, tool, {NoDuplicateSideEffect});
    if tool.None? then Undeclared(s, constraints, DuplicateOracleWithoutDeclaredToolSignature)
    else if constraints == [] then []
    else
      var traces := TracesFor(w, s, ActionsFor(s, tool.value), 2);
      var observable := Filter(traces, AtLeast(2));
      var evidence := Evidence(s, TrajectoryIds(constraints), traces);
      if observable == [] then
        [Candidate(PartlyCovered, DuplicateOracleLacksSecondFixture, evidence)]
      else if HardTrajectory(s, constraints) && HardAction(s, observable, RequiredFor(s, tool.value)) then
        [Candidate(Covered, RequiredDuplicateAttemptIsObservable, evidence)]
      else
        [Candidate(PartlyCovered,
                 if AllowedFor(s, tool.value) != [] then OptionalDuplicateActionPath else NonauthoritativeDuplicateOracle,
                 evidence)]
  }

  /** Some declared action of the tool has a controlled first outcome. */
  ghost predicate Reachable(w: World, s: Scenario, tool: string) {
    exists c :: c in ActionsFor(s, tool) && TraceFor(w, s, c, 1) != []
  }

  ghost function OrderingCandidate(w: World, tool: string, s: Scenario, t: Trajectory): (r: seq<Candidate>)
    ensures Rankable(r)
  {
    var before := TextParameter(t.parameters, "required_before");
    if before.None? then
      [Candidate(PartlyCovered, OrderingPrerequisiteNotDeclared, Evidence(s, [t.id], []))]
    else
      var evidence := Evidence(s, [t.id],
                               TracesFor(w, s, ActionsFor(s, tool), 1) + TracesFor(w, s, ActionsFor(s, before.value), 1));
      if !(Reachable(w, s, tool) && Reachable(w, s, before.value)) then
        [Candidate(PartlyCovered, OrderingLacksControlledOutcomeForBothTools, evidence)]
      else if t.required && Authoritative(s, t.oracles) then
        [Candidate(Covered, RequiredOrderingIsObservable, evidence)]
      else
        [Candidate(PartlyCovered, NonauthoritativeOrderingOracle, evidence)]
  }

  ghost function OrderingCandidates(w: World, tool: Option<string>, s: Scenario): (r: seq<Candidate>)
    ensures Rankable(r)
  {
    var constraints := Matching(s, tool, {OrderingKind});
    if tool.None? then Undeclared(s, constraints, OrderingOracleWithoutDeclaredToolSignature)
    else
      var f := (t: Trajectory) => OrderingCandidate(w, tool.value, s, t);
      GatherRankable(constraints, f);
      Gather(constraints, f)
  }

  predicate ExplicitConfirmation(s: Scenario) {
    exists i :: 0 <= i < |s.turns| &&
      var k := Find(s.turns[i], "explicit_confirmation");
      k < |s.turns[i]| && s.turns[i][k].value == Bool(true)
  }

  function ConfirmingBehaviors(s: Scenario, tool: string): (r: seq<Behavior>) {
    Filter(Behaviors(s), (b: Behavior) => b.tool == tool && b.confirmation)
  }

  function ConfirmingTrajectories(s: Scenario, tool: string): (r: seq<Trajectory>) {
    Matching(s, Some(tool), {ConfirmationBeforeTool})
  }

  ghost predicate HardConfirmation(s: Scenario, tool: string) {
    (exists b :: b in ConfirmingBehaviors(s, tool) && Authoritative(s, b.oracles))
    || HardTrajectory(s, ConfirmingTrajectories(s, tool))
  }

  ghost function ConfirmationCandidates(w: World, tool: string, consent: bool, s: Scenario): (r: seq<Candidate>)
    ensures Rankable(r)
  {
    var behaviors := ConfirmingBehaviors(s, tool);
    var trajectories := ConfirmingTrajectories(s, tool);
    var required, allowed, forbidden := RequiredFor(s, tool), AllowedFor(s, tool), ForbiddenFor(s, tool);
    if tool !in Focal(s) || ExplicitConfirmation(s) != consent
       || (behaviors == [] && trajectories == [] && required == [] && allowed == [] && forbidden == []) then []
    else
      var polarity := if consent then required else forbidden;
      var traces := TracesFor(w, s, polarity, 1);
      var observable := Filter(traces, AtLeast(1));
      var evidence := Evidence(s, BehaviorIds(behaviors) + TrajectoryIds(trajectories), traces);
      if behaviors == [] && trajectories == [] then
        [Candidate(PartlyCovered, ConfirmationOpportunityWithoutOracle, evidence)]
      else if polarity == [] then
        [Candidate(PartlyCovered, ConfirmationActionPolarityNotObservable, evidence)]
      else if observable == [] then
        [Candidate(PartlyCovered, ConfirmationOracleWithoutControlledToolFixture, evidence)]
      else if HardConfirmation(s, tool) && HardAction(s, observable, polarity) then
        [Candidate(Covered,
                 if consent then ConfirmedRequiredActionIsObservable else UnconfirmedForbiddenActionIsObservable,
                 evidence)]
      else
        [Candidate(PartlyCovered,
                 if allowed != [] then OptionalConfirmedActionPath else NonauthoritativeConfirmationOracle,
                 evidence)]
  }

  predicate GeneratorSource(tag: string) {
    tag == "source:positive_path" || tag == "source:behavioral_outcome" || tag == "source:confirmed_action"
  }

  ghost predicate GeneratedAction(s: Scenario) {
    exists tag :: tag in s.tags && GeneratorSource(tag)
  }

  predicate PrerequisiteFixture(x: Fixture) {
    HasPrefix(x.id, "prerequisite-") || HasPrefix(x.id, "prerequisite:")
  }

  predicate HasPrefix(s: string, prefix: string) {
    prefix <= s
  }

  /** The focal tools a generated action case names in its tags. */
  ghost function TaggedFocal(s: Scenario): (r: set<string>) {
    set f | f in Focal(s) && "tool:" + f in s.tags
  }

  ghost function PrerequisitePairs(s: Scenario): (r: set<(string, string)>) {
    if !GeneratedAction(s) || |TaggedFocal(s)| != 1 then {}
    else
      set f, x | f in TaggedFocal(s) && x in s.fixtures && PrerequisiteFixture(x) && x.tool != f :: (f, x.tool)
  }

  ghost function PrerequisiteCandidates(
    w: World, focal: string, prior: string, failure: bool, s: Scenario
  ): (r: seq<Candidate>)
    ensures Rankable(r)
  {
    if (focal, prior) !in PrerequisitePairs(s) then []
    else
      var priorRequired := RequiredFor(s, prior);
      var priorTraces := TracesFor(w, s, priorRequired, 1);
      var statuses := if failure then {Error, Timeout} else {Success};
      var selectedPrior := Filter(priorTraces, FirstIn(statuses));
      var focalActions := if failure then ForbiddenFor(s, focal) else RequiredFor(s, focal);
      var focalTraces := TracesFor(w, s, focalActions, 1);
      var selectedFocal := Filter(focalTraces, AtLeast(1));
      var asserted := HardAction(s, selectedPrior, priorRequired) && HardAction(s, selectedFocal, focalActions);
      var evidence := Evidence(s, BehaviorIds(priorRequired) + BehaviorIds(focalActions), priorTraces + focalTraces);
      // Both calls of a success path can be asserted, but not their order.
      [Candidate(if failure && asserted then Covered else PartlyCovered,
               if failure then
                 if asserted then RequiredPrerequisiteFailureForbidsFocalAction
                 else if selectedPrior == [] then PrerequisiteFailureFixtureNotReachable
                 else PrerequisiteFailurePathNotFullyAsserted
               else
                 if asserted then CallsAssertedButOrderUnobservable
                 else if selectedPrior == [] then PrerequisiteSuccessFixtureNotReachable
                 else PrerequisiteSuccessRelationshipUnasserted,
               evidence)]
  }

  // ---------------------------------------------------------------------------
  // One requirement over a set of scenarios
  // ---------------------------------------------------------------------------

  /** Whether the dimension can be evaluated for this signature at all. */
  predicate Evaluable(seed: Seed) {
    match seed.dimension
    case AmbiguousOutcome => true
    case RetryControl => true
    case DuplicateAction => true
    case Ordering => true
    case PrerequisiteSuccess => seed.tool.Some? && seed.prerequisite.Some?
    case PrerequisiteFailure => seed.tool.Some? && seed.prerequisite.Some?
    case _ => seed.tool.Some?
  }

  ghost function CandidatesFrom(w: World, seed: Seed): (f: Scenario -> seq<Candidate>)
    requires Evaluable(seed)
  {
    match seed.dimension
    case SuccessPath => (s: Scenario) => SuccessCandidates(w, seed.tool.value, s)
    case FailureHandling => (s: Scenario) => FailureCandidates(w, seed.tool.value, s)
    case TimeoutHandling => (s: Scenario) => TimeoutCandidates(w, seed.tool.value, s)
    case FabricatedSuccess => (s: Scenario) => FabricationCandidates(w, seed.tool.value, s)
    case AmbiguousOutcome => (s: Scenario) => AmbiguousCandidates(w, seed.tool, s)
    case RetryControl => (s: Scenario) => RetryCandidates(w, seed.tool, s)
    case DuplicateAction => (s: Scenario) => DuplicateCandidates(w, seed.tool, s)
    case Ordering => (s: Scenario) => OrderingCandidates(w, seed.tool, s)
    case ConfirmationWithoutConsent => (s: Scenario) => ConfirmationCandidates(w, seed.tool.value, false, s)
    case ConfirmationWithConsent => (s: Scenario) => ConfirmationCandidates(w, seed.tool.value, true, s)
    case PrerequisiteSuccess =>
      (s: Scenario) => PrerequisiteCandidates(w, seed.tool.value, seed.prerequisite.value, false, s)
    case PrerequisiteFailure =>
      (s: Scenario) => PrerequisiteCandidates(w, seed.tool.value, seed.prerequisite.value, true, s)
  }

  function MissingReason(dimension: Dimension): (r: string) {
    match dimension
    case SuccessPath => "success_path_missing"
    case FailureHandling => "failure_path_missing"
    case TimeoutHandling => "timeout_path_missing"
    case FabricatedSuccess => "fabricated_success_case_missing"
    case AmbiguousOutcome => "ambiguous_outcome_case_missing"
    case RetryControl => "retry_control_case_missing"
    case DuplicateAction => "duplicate_action_case_missing"
    case Ordering => "ordering_case_missing"
    case ConfirmationWithoutConsent => "unconfirmed_action_case_missing"
    case ConfirmationWithConsent => "confirmed_action_case_missing"
    case PrerequisiteSuccess => "prerequisite_success_path_missing"
    case PrerequisiteFailure => "prerequisite_failure_path_missing"
  }

  /** A requirement without a tool is about the one scenario that declared it. */
  function Scope(seed: Seed): (p: Scenario -> bool) {
    (s: Scenario) => seed.tool.Some? || "scenario:" + s.id == seed.subject
  }

  ghost function Evaluate(w: World, seed: Seed, scenarios: seq<Scenario>): (r: Outcome) {
    if seed.applicability.Unknown? then Outcome(Undecided, seed.unknownReason, {})
    else if seed.applicability.NotSupported? then
      Outcome(Unsupported,
              if seed.prerequisite.Some? then "prerequisite_ordering_not_supported" else "trajectory_ordering_not_supported",
              OrderingEvidence(scenarios, seed))
    else if !Evaluable(seed) then Outcome(Unsupported, "behavioral_dimension_not_supported", {})
    else
      var scoped := Filter(scenarios, Scope(seed));
      CandidatesRankable(w, seed, scoped);
      Best(Gather(scoped, CandidatesFrom(w, seed)), MissingReason(seed.dimension))
  }

  ghost function OrderingEvidence(scenarios: seq<Scenario>, seed: Seed): (r: set<string>) {
    (set s, e | s in scenarios && e in PairEvidence(s, seed) :: e)
    + (set s, t, e | s in scenarios && t in s.trajectory && t.kind.OrderingKind?
                     && seed.subject == TrajectorySubject(s, t) && e in Evidence(s, [t.id], [])
         :: e)
  }

  ghost function PairEvidence(s: Scenario, seed: Seed): (r: set<string>) {
    if seed.tool.Some? && seed.prerequisite.Some? && (seed.tool.value, seed.prerequisite.value) in PrerequisitePairs(s) then
      Evidence(s, [], []) + (set x | x in SlotsFor(s, seed.prerequisite.value) :: x.evidence)
    else {}
  }

  function ToolSubject(name: string): (r: string) { "tool:" + name }

  function TrajectorySubject(s: Scenario, t: Trajectory): (r: string) {
    var name := TextParameter(t.parameters, "tool_name");
    if name.Some? then ToolSubject(name.value) else "scenario:" + s.id
  }

  lemma {:induction false} CandidatesRankable(w: World, seed: Seed, scenarios: seq<Scenario>)
    requires Evaluable(seed)
    ensures Rankable(Gather(scenarios, CandidatesFrom(w, seed)))
  {
    GatherRankable(scenarios, CandidatesFrom(w, seed));
  }
}
