/**
  The coverage report (`_family`, `analyze_behavioral_coverage`), its contract
  (`validate_counts_and_order`, `normalize_families`) and its re-derivation
  (`verify_behavioral_coverage_binding`).
 */
module Coverage {
  import opened Bags
  import opened Domain
  import opened Outcomes
  import opened Seeds
  import Projection
  import Text

  const MAX_DETAILS: nat := 24

  datatype Requirement =
    Requirement(subject: string, status: Status, reason: string, evidence: seq<string>, omittedEvidence: nat)

  datatype Family = Family(
    dimension: Dimension,
    covered: nat,
    partial: nat,
    missing: nat,
    unknown: nat,
    unsupported: nat,
    requirements: seq<Requirement>,
    omitted: nat)
  {
    /** The denominator: unknown and unsupported requirements are not applicable. */
    function Applicable(): nat { covered + partial + missing }
  }

  datatype Report = Report(
    specId: string,
    specDigest: string,
    scenarioCount: nat,
    scenarioDigest: string,
    referenceCount: nat,
    referenceDigest: string,
    availableOnly: bool,
    suiteFingerprint: Option<string>,
    families: seq<Family>,
    fingerprint: string)

  type Identities = multiset<(string, string)>

  /**
    The parts of the environment coverage relies on without looking inside: offline
    schema validation, redaction, and three content hashes. The scenario digest
    hashes the sorted identities, so it is a function of their bag.
   */
  datatype Ambient = Ambient(
    validates: Validator,
    cleaner: Projection.Cleaner,
    specDigest: Spec -> string,
    identityDigest: Identities -> string,
    checksum: Report -> string)

  const DIMENSIONS: seq<Dimension> :=
    [SuccessPath, FailureHandling, TimeoutHandling, FabricatedSuccess, AmbiguousOutcome, RetryControl,
     DuplicateAction, ConfirmationWithoutConsent, ConfirmationWithConsent, PrerequisiteSuccess,
     PrerequisiteFailure, Ordering]

  // ---------------------------------------------------------------------------
  // One family
  // ---------------------------------------------------------------------------

  function Take<T>(s: seq<T>, n: nat): (r: seq<T>)
    ensures |r| <= n && r <= s
    ensures |s| <= n ==> r == s
  {
    if |s| <= n then s else s[..n]
  }

  ghost function RedactAll(env: Ambient, s: seq<string>): (r: set<string>)
  {
    set i | 0 <= i < |s| :: env.cleaner.redact(s[i])
  }

  /** A row as the contract stores it: redacted, and with bounded evidence. */
  ghost function Row(env: Ambient, seed: Seed, o: Outcome): (r: Requirement)
    ensures r.status == o.status && r.subject == env.cleaner.redact(seed.subject)
  {
    var evidence := Text.Sorted(o.evidence);
    var visible := Take(evidence, MAX_DETAILS);
    var safe := RedactAll(env, visible);
    RedactedNoLarger(env, visible);
    Requirement(env.cleaner.redact(seed.subject), o.status, env.cleaner.redact(o.reason), Text.Sorted(safe),
                |evidence| - |visible| + |visible| - |safe|)
  }

  lemma {:induction false} RedactedNoLarger(env: Ambient, s: seq<string>)
    ensures |RedactAll(env, s)| <= |s|
  {
    if s == [] {
      assert RedactAll(env, s) == {};
    } else {
      var n := |s| - 1;
      RedactedNoLarger(env, s[..n]);
      assert RedactAll(env, s) == RedactAll(env, s[..n]) + {env.cleaner.redact(s[n])};
    }
  }

  ghost function Subjects(table: Table, d: Dimension): (r: set<string>) {
    set k | k in table && k.0 == d :: k.1
  }

  /** The rows of a dimension, by ascending subject. */
  ghost function Rows(
    env: Ambient, w: World, table: Table, d: Dimension, subjects: seq<string>, scenarios: seq<Scenario>
  ): (r: seq<Requirement>)
    requires forall s :: s in subjects ==> (d, s) in table
    ensures |r| == |subjects|
    ensures forall i :: 0 <= i < |r| ==>
              r[i] == Row(env, table[(d, subjects[i])], Evaluate(w, table[(d, subjects[i])], scenarios))
  {
    seq(|subjects|, i requires 0 <= i < |subjects| =>
          assert subjects[i] in subjects;
          Row(env, table[(d, subjects[i])], Evaluate(w, table[(d, subjects[i])], scenarios)))
  }

  function WithStatus(s: Status): (p: Requirement -> bool) {
    (r: Requirement) => r.status == s
  }

  function WithSubject(s: string): (p: Requirement -> bool) {
    (r: Requirement) => r.subject == s
  }

  /** Rows whose stored subject is theirs alone. */
  function Unshared(rows: seq<Requirement>): (p: Requirement -> bool) {
    (r: Requirement) => Count(rows, WithSubject(r.subject)) == 1
  }

  ghost predicate DistinctSubjects(rows: seq<Requirement>) {
    forall i, j :: 0 <= i < j < |rows| ==> rows[i].subject != rows[j].subject
  }

  function SubjectSet(rows: seq<Requirement>): (r: set<string>) {
    set x | x in rows :: x.subject
  }

  /** The row with a given subject. */
  function RowOf(rows: seq<Requirement>, subject: string): (r: Requirement)
    requires subject in SubjectSet(rows)
    ensures r in rows && r.subject == subject
  {
    if rows[0].subject == subject then rows[0] else RowOf(rows[1..], subject)
  }

  /** The same rows in ascending order of their stored subject. */
  ghost function BySubject(rows: seq<Requirement>): (r: seq<Requirement>)
    ensures |r| == |SubjectSet(rows)|
    ensures forall x :: x in r ==> x in rows
  {
    var subjects := Text.Sorted(SubjectSet(rows));
    seq(|subjects|, i requires 0 <= i < |subjects| => assert subjects[i] in subjects; RowOf(rows, subjects[i]))
  }

  ghost function FamilyFrom(d: Dimension, rows: seq<Requirement>): (f: Family) {
    var visible := Take(Filter(rows, Unshared(rows)), MAX_DETAILS);
    VisibleNoMore(rows);
    Family(d,
           Count(rows, WithStatus(Covered)), Count(rows, WithStatus(PartlyCovered)), Count(rows, WithStatus(Missing)),
           Count(rows, WithStatus(Undecided)), Count(rows, WithStatus(Unsupported)),
           BySubject(visible), |rows| - |visible|)
  }

  ghost function FamilyOf(env: Ambient, w: World, table: Table, d: Dimension, scenarios: seq<Scenario>): (f: Family) {
    FamilyFrom(d, Rows(env, w, table, d, Text.Sorted(Subjects(table, d)), scenarios))
  }

  lemma {:induction false} FilterNoLonger<T>(s: seq<T>, p: T -> bool)
    ensures |Filter(s, p)| <= |s|
  {
    if s != [] { FilterNoLonger(s[1..], p); }
  }

  lemma {:induction false} VisibleNoMore(rows: seq<Requirement>)
    ensures |Take(Filter(rows, Unshared(rows)), MAX_DETAILS)| <= |rows|
  {
    FilterNoLonger(rows, Unshared(rows));
  }

  // ---------------------------------------------------------------------------
  // The report
  // ---------------------------------------------------------------------------

  function IdentityOf(s: Scenario): (i: seq<(string, string)>) {
    [(s.id, s.fingerprint)]
  }

  function IdentitiesOf(scenarios: seq<Scenario>): (r: Identities) {
    multiset(Gather(scenarios, IdentityOf))
  }

  function Named(name: string): (p: ToolItem -> bool) {
    (t: ToolItem) => t.tool.name == name
  }

  /** A name declared more than once identifies no tool. */
  predicate AmbiguousName(spec: Spec, name: string) {
    Count(spec.tools, Named(name)) > 1
  }

  /** The definition of a name, the last one when it is repeated. */
  function ToolsByName(tools: seq<ToolItem>): (r: map<string, Tool>) {
    if tools == [] then map[]
    else ToolsByName(tools[..|tools| - 1])[tools[|tools| - 1].tool.name := tools[|tools| - 1].tool]
  }

  ghost function WorldOf(env: Ambient, spec: Spec): (w: World) {
    var all := ToolsByName(spec.tools);
    World(env.validates, map name | name in all && !AmbiguousName(spec, name) :: all[name])
  }

  ghost predicate LossyName(env: Ambient, spec: Spec, name: string) {
    env.cleaner.redact(name) != name
    || exists t :: t in spec.tools && t.tool.name == name
         && !Projection.BindingLossless(env.cleaner, t.tool.name, t.tool.schema)
  }

  ghost predicate SomeName(seed: Seed, p: string -> bool) {
    (seed.tool.Some? && p(seed.tool.value)) || (seed.prerequisite.Some? && p(seed.prerequisite.value))
  }

  /** A requirement bound to an ambiguous or lossy name cannot be decided. */
  ghost function Rebound(env: Ambient, spec: Spec, seed: Seed): (r: Seed)
    ensures r.dimension == seed.dimension && r.subject == seed.subject
    ensures r.tool == seed.tool && r.prerequisite == seed.prerequisite
  {
    if SomeName(seed, (name: string) => AmbiguousName(spec, name)) then
      seed.(applicability := Unknown, unknownReason := "declared_tool_name_is_ambiguous")
    else if SomeName(seed, (name: string) => LossyName(env, spec, name)) then
      seed.(applicability := Unknown, unknownReason := "coverage_binding_redacted_or_truncated")
    else seed
  }

  ghost function FinalTable(env: Ambient, spec: Spec, reference: seq<Scenario>): (t: Table)
    ensures t.Keys == Requirements(spec, reference).Keys
  {
    var table := Requirements(spec, reference);
    map k | k in table :: Rebound(env, spec, table[k])
  }

  ghost function Families(env: Ambient, w: World, table: Table, scenarios: seq<Scenario>): (r: seq<Family>)
    ensures |r| == |DIMENSIONS|
    ensures forall i :: 0 <= i < |r| ==> r[i] == FamilyOf(env, w, table, DIMENSIONS[i], scenarios)
  {
    seq(|DIMENSIONS|, i requires 0 <= i < |DIMENSIONS| => FamilyOf(env, w, table, DIMENSIONS[i], scenarios))
  }

  function Redacted(env: Ambient, s: Option<string>): (r: Option<string>) {
    if s.Some? then Some(env.cleaner.redact(s.value)) else None
  }

  datatype Analysis = Accepted(report: Report) | NotContained | Inconsistent

  /** What the report contract refuses. */
  predicate Consistent(r: Report) {
    r.referenceCount >= r.scenarioCount
    && (r.referenceCount == r.scenarioCount ==> r.referenceDigest == r.scenarioDigest)
    && (r.availableOnly ==> r.referenceCount == r.scenarioCount)
  }

  ghost function Derived(
    env: Ambient, spec: Spec, scenarios: seq<Scenario>, suiteFingerprint: Option<string>, reference: seq<Scenario>,
    availableOnly: bool
  ): (r: Report) {
    var body := Report(env.cleaner.redact(spec.id), env.specDigest(spec), |scenarios|,
                       env.identityDigest(IdentitiesOf(scenarios)), |reference|,
                       env.identityDigest(IdentitiesOf(reference)), availableOnly, Redacted(env, suiteFingerprint),
                       Families(env, WorldOf(env, spec), FinalTable(env, spec, reference), scenarios), "");
    body.(fingerprint := env.checksum(body))
  }

  ghost function Analyze(
    env: Ambient, spec: Spec, scenarios: seq<Scenario>, suiteFingerprint: Option<string>,
    reference: Option<seq<Scenario>>, availableOnly: bool
  ): (r: Analysis) {
    var universe := if reference.Some? then reference.value else scenarios;
    if !(IdentitiesOf(scenarios) <= IdentitiesOf(universe)) then NotContained
    else
      var report := Derived(env, spec, scenarios, suiteFingerprint, universe, availableOnly);
      if Consistent(report) then Accepted(report) else Inconsistent
  }

  datatype Mismatch =
    | SpecId
    | SpecDigest
    | ScenarioCount
    | ScenarioDigest
    | ReferenceCount
    | ReferenceDigest
    | ReferenceScope
    | ReferenceScenarios
    | Fingerprint
    | SuiteFingerprint
    | DerivedCoverage

  /** The suite re-derivation may use: the one given, or the scenarios themselves when the counts agree. */
  function CompleteReference(
    r: Report, scenarios: seq<Scenario>, reference: Option<seq<Scenario>>
  ): (c: Option<seq<Scenario>>) {
    if reference.Some? then reference
    else if r.referenceCount == r.scenarioCount then Some(scenarios)
    else None
  }

  /** Every disagreement `verify_behavioral_coverage_binding` would report; empty means accepted. */
  ghost function Mismatches(
    env: Ambient, r: Report, spec: Spec, scenarios: seq<Scenario>, suiteFingerprint: Option<Option<string>>,
    reference: Option<seq<Scenario>>
  ): (m: set<Mismatch>) {
    var complete := CompleteReference(r, scenarios, reference);
    (if r.specId != env.cleaner.redact(spec.id) then {SpecId} else {})
    + (if r.specDigest != env.specDigest(spec) then {SpecDigest} else {})
    + (if r.scenarioCount != |scenarios| then {ScenarioCount} else {})
    + (if r.scenarioDigest != env.identityDigest(IdentitiesOf(scenarios)) then {ScenarioDigest} else {})
    + (if r.referenceCount < r.scenarioCount then {ReferenceCount} else {})
    + (if r.referenceCount == r.scenarioCount && r.referenceDigest != r.scenarioDigest then {ReferenceDigest} else {})
    + (if r.availableOnly && r.referenceCount != r.scenarioCount then {ReferenceScope} else {})
    + (if reference.Some? && !(IdentitiesOf(scenarios) <= IdentitiesOf(reference.value)) then {ReferenceScenarios} else {})
    + (if reference.Some? && r.referenceCount != |reference.value| then {ReferenceCount} else {})
    + (if reference.Some? && r.referenceDigest != env.identityDigest(IdentitiesOf(reference.value)) then {ReferenceDigest} else {})
    + (if r.fingerprint != env.checksum(r.(fingerprint := "")) then {Fingerprint} else {})
    + (if suiteFingerprint.Some? && r.suiteFingerprint != Redacted(env, suiteFingerprint.value) then {SuiteFingerprint} else {})
    + (if complete.Some? && Analyze(env, spec, scenarios, r.suiteFingerprint, complete, r.availableOnly) != Accepted(r)
       then {DerivedCoverage} else {})
  }
}
