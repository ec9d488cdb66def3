/**
  The parts of a scenario and of an inspected agent specification that behavioral
  coverage reads.
 */
module Domain {
  import opened Bags
  import opened Json

  datatype SimulatedStatus = Success | Empty | Error | Timeout | Malformed | Partial | Stale

  datatype FaultType =
    | ErrorFault | TimeoutFault | MalformedResponse | EmptyResponse | PartialResponse | StaleResponse

  datatype Fixture = Fixture(
    id: string,
    tool: string,
    arguments: Json,
    invocation: Option<nat>,
    priority: int,
    status: SimulatedStatus,
    errorCode: Option<string>,
    latency: real,
    hasStateEffects: bool)

  datatype Fault = Fault(id: string, tool: string, kind: FaultType, invocation: nat, latency: Option<real>)

  datatype OracleProvenance =
    OracleProvenance(id: string, supportsHardFailure: bool, confidence: real, llmInference: bool)

  datatype Behavior = Behavior(
    id: string,
    tool: string,
    arguments: Json,
    minCalls: nat,
    maxCalls: Option<nat>,
    confirmation: bool,
    oracles: seq<string>)

  datatype TrajectoryKind =
    | ConfirmationBeforeTool
    | NoDuplicateSideEffect
    | MaxRetries
    | OrderingKind
    | NoRetryAfterAmbiguousTimeout
    | NoSameStageDuplicateAction
    | OtherTrajectory

  datatype Trajectory = Trajectory(
    id: string, kind: TrajectoryKind, parameters: seq<Field>, required: bool, oracles: seq<string>)

  datatype OutputKind = NoFabricatedSuccess | AcknowledgesToolError | OtherOutput

  datatype OutputCriterion = OutputCriterion(
    id: string, kind: OutputKind, parameters: seq<Field>, required: bool, oracles: seq<string>)

  datatype Scenario = Scenario(
    id: string,
    fingerprint: string,
    turns: seq<seq<Field>>, // metadata of the conversation and follow-up turns
    fixtures: seq<Fixture>,
    faults: seq<Fault>,
    required: seq<Behavior>,
    allowed: seq<Behavior>,
    forbidden: seq<Behavior>,
    trajectory: seq<Trajectory>,
    outputs: seq<OutputCriterion>,
    wallClockSeconds: real,
    maxToolCalls: nat,
    tags: set<string>,
    oracles: seq<OracleProvenance>)

  function OracleIds(s: Scenario): (r: set<string>) {
    set o | o in s.oracles :: o.id
  }

  ghost predicate BehaviorsLinked(s: Scenario, behaviors: seq<Behavior>) {
    forall b :: b in behaviors ==>
      b.oracles != [] && (forall o :: o in b.oracles ==> o in OracleIds(s))
      && (b.maxCalls.Some? ==> b.minCalls <= b.maxCalls.value)
  }

  /** What the scenario contract demands of the parts modelled here. */
  ghost predicate MeetsContract(s: Scenario) {
    s.id != "" && s.turns != [] && s.tags != {} && "" !in s.tags && s.maxToolCalls >= 1 && s.wallClockSeconds > 0.0
    && s.oracles != [] && (forall i, j :: 0 <= i < j < |s.oracles| ==> s.oracles[i].id != s.oracles[j].id)
    && BehaviorsLinked(s, s.required) && BehaviorsLinked(s, s.allowed) && BehaviorsLinked(s, s.forbidden)
    && (forall t :: t in s.trajectory ==> t.oracles != [] && forall o :: o in t.oracles ==> o in OracleIds(s))
    && (forall c :: c in s.outputs ==> c.oracles != [] && forall o :: o in c.oracles ==> o in OracleIds(s))
  }

  datatype Tool = Tool(
    name: string, schema: Json, stateChanging: bool, destructive: bool, canReplace: bool)

  datatype Authority = DeveloperDeclared | FrameworkAuthoritative | Inferred | UnknownAuthority

  /** A tool definition with how its schema was obtained. */
  datatype ToolItem = ToolItem(tool: Tool, authoritative: bool)

  datatype RiskAssertion = RiskAssertion(toolName: string, stateChanging: Authority, destructive: Authority)

  datatype PolicyItem = PolicyItem(
    authoritative: bool,
    id: string,
    tool: string,
    confirmationRequired: Option<bool>,
    idempotent: Option<bool>,
    maxRetries: Option<nat>)

  datatype Spec = Spec(
    id: string, tools: seq<ToolItem>, risk: seq<RiskAssertion>, policies: seq<PolicyItem>)

  /** Whether arguments satisfy an input schema, evaluated offline; an unusable schema allows nothing. */
  type Validator = (Json, Json) -> bool

  /** The text value of a parameter, when it is present, text and not empty. */
  function TextParameter(parameters: seq<Field>, key: string): (r: Option<string>) {
    var i := Find(parameters, key);
    if i < |parameters| && parameters[i].value.Str? && parameters[i].value.s != "" then
      Some(parameters[i].value.s)
    else
      None
  }

  /** The host language's equality of two constraints, with `==` on their arguments. */
  predicate SameBehavior(a: Behavior, b: Behavior) {
    a.(arguments := b.arguments) == b && Equal(a.arguments, b.arguments)
  }

  /** `c in list`: the same object, or an equal one. */
  predicate Among(c: Behavior, list: seq<Behavior>) {
    c in list || exists i :: 0 <= i < |list| && SameBehavior(c, list[i])
  }
}
