/**
  What every coverage report satisfies: its contract, its monotonicity in the
  evaluated scenarios, and its acceptance by the re-derivation.
 */
module CoverageFacts {
  import opened Bags
  import opened Domain
  import opened Outcomes
  import opened OutcomeFacts
  import opened Seeds
  import opened SeedFacts
  import opened Coverage
  import Text

  // ---------------------------------------------------------------------------
  // Counting rows
  // ---------------------------------------------------------------------------

  lemma {:induction false} CountPointwise<T>(s: seq<T>, t: seq<T>, p: T -> bool, q: T -> bool)
    requires |s| == |t|
    requires forall i :: 0 <= i < |s| && p(s[i]) ==> q(t[i])
    ensures Count(s, p) <= Count(t, q)
  {
    if s != [] {
      assert forall i :: 0 <= i < |s[1..]| ==> s[1..][i] == s[i + 1] && t[1..][i] == t[i + 1];
      CountPointwise(s[1..], t[1..], p, q);
    }
  }

  lemma {:induction false} CountFiltered<T>(s: seq<T>, p: T -> bool, q: T -> bool)
    ensures Count(Filter(s, p), q) <= Count(s, q)
  {
    if s != [] {
      CountFiltered(s[1..], p, q);
      CountSplit(if p(s[0]) then [s[0]] else [], Filter(s[1..], p), q);
    }
  }

  lemma {:induction false} CountPrefix<T>(s: seq<T>, n: nat, q: T -> bool)
    requires n <= |s|
    ensures Count(s[..n], q) <= Count(s, q)
  {
    assert s == s[..n] + s[n..];
    CountSplit(s[..n], s[n..], q);
  }

  lemma {:induction false} CountTwice<T>(s: seq<T>, i: nat, j: nat, q: T -> bool)
    requires i < j < |s| && q(s[i]) && q(s[j])
    ensures Count(s, q) >= 2
  {
    assert s == s[..j] + s[j..];
    CountSplit(s[..j], s[j..], q);
    CountOnce(s[..j], i, q);
    CountOnce(s[j..], 0, q);
  }

  lemma {:induction false} CountOnce<T>(s: seq<T>, i: nat, q: T -> bool)
    requires i < |s| && q(s[i])
    ensures Count(s, q) >= 1
  {
    if i > 0 { CountOnce(s[1..], i - 1, q); }
  }

  /** Every row has one of the five statuses. */
  lemma {:induction false} CountByStatus(rows: seq<Requirement>)
    ensures Count(rows, WithStatus(Covered)) + Count(rows, WithStatus(PartlyCovered)) + Count(rows, WithStatus(Missing))
            + Count(rows, WithStatus(Undecided)) + Count(rows, WithStatus(Unsupported)) == |rows|
  {
    if rows != [] { CountByStatus(rows[1..]); }
  }

  // ---------------------------------------------------------------------------
  // The contract of a family
  // ---------------------------------------------------------------------------

  function CountOf(f: Family, s: Status): nat {
    match s
    case Covered => f.covered
    case PartlyCovered => f.partial
    case Missing => f.missing
    case Undecided => f.unknown
    case Unsupported => f.unsupported
  }

  ghost predicate SubjectsAscend(rows: seq<Requirement>) {
    forall i, j :: 0 <= i < j < |rows| ==> Text.Le(rows[i].subject, rows[j].subject)
  }

  /** `normalize_evidence`: bounded, and in ascending order without repetition. */
  ghost predicate EvidenceValid(r: Requirement) {
    |r.evidence| <= MAX_DETAILS && Text.Ascending(r.evidence) && Distinct(r.evidence)
  }

  ghost predicate AllEvidenceValid(rows: seq<Requirement>) {
    forall r :: r in rows ==> EvidenceValid(r)
  }

  /** `validate_counts_and_order`, with the bounds on the details. */
  ghost predicate FamilyValid(f: Family) {
    DistinctSubjects(f.requirements) && SubjectsAscend(f.requirements) && |f.requirements| <= MAX_DETAILS
    && (forall s :: Count(f.requirements, WithStatus(s)) <= CountOf(f, s))
    && f.covered + f.partial + f.missing + f.unknown + f.unsupported == |f.requirements| + f.omitted
    && AllEvidenceValid(f.requirements)
  }

  lemma {:induction false} UnsharedDistinct(rows: seq<Requirement>)
    ensures DistinctSubjects(Filter(rows, Unshared(rows)))
  {
    var kept := Filter(rows, Unshared(rows));
    forall i, j | 0 <= i < j < |kept| ensures kept[i].subject != kept[j].subject {
      var q := WithSubject(kept[i].subject);
      assert kept[i] in kept;
      CountFiltered(rows, Unshared(rows), q);
      if kept[j].subject == kept[i].subject { CountTwice(kept, i, j, q); }
    }
  }

  lemma {:induction false} DistinctBag(rows: seq<Requirement>, x: Requirement)
    requires DistinctSubjects(rows)
    ensures multiset(rows)[x] == if x in rows then 1 else 0
  {
    if rows != [] {
      DistinctBag(rows[1..], x);
      assert rows == [rows[0]] + rows[1..];
      if rows[0] in rows[1..] {
        var i :| 0 <= i < |rows[1..]| && rows[1..][i] == rows[0];
        assert rows[i + 1].subject == rows[0].subject;
      }
    }
  }

  lemma {:induction false} BySubjectDistinct(rows: seq<Requirement>)
    ensures DistinctSubjects(BySubject(rows))
  {
    var subjects := Text.Sorted(SubjectSet(rows));
    Text.SortedAscending(SubjectSet(rows));
    forall i | 0 <= i < |subjects| ensures BySubject(rows)[i].subject == subjects[i] {
      assert subjects[i] in subjects;
    }
  }

  lemma {:induction false} BySubjectMembers(rows: seq<Requirement>, x: Requirement)
    requires DistinctSubjects(rows) && x in rows
    ensures x in BySubject(rows)
  {
    var subjects := Text.Sorted(SubjectSet(rows));
    assert x.subject in subjects;
    var i :| 0 <= i < |subjects| && subjects[i] == x.subject;
    var y := RowOf(rows, x.subject);
    var a :| 0 <= a < |rows| && rows[a] == x;
    var b :| 0 <= b < |rows| && rows[b] == y;
    assert a == b;
    assert BySubject(rows)[i] == x;
  }

  /** Sorting the visible rows only reorders them. */
  lemma {:induction false} BySubjectIsPermutation(rows: seq<Requirement>)
    requires DistinctSubjects(rows)
    ensures multiset(BySubject(rows)) == multiset(rows)
  {
    BySubjectDistinct(rows);
    forall x: Requirement ensures multiset(BySubject(rows))[x] == multiset(rows)[x] {
      DistinctBag(BySubject(rows), x);
      DistinctBag(rows, x);
      if x in rows { BySubjectMembers(rows, x); }
    }
  }

  lemma {:induction false} BySubjectAscends(rows: seq<Requirement>)
    ensures SubjectsAscend(BySubject(rows))
  {
    var subjects := Text.Sorted(SubjectSet(rows));
    Text.SortedAscending(SubjectSet(rows));
    forall i | 0 <= i < |subjects| ensures BySubject(rows)[i].subject == subjects[i] {
      assert subjects[i] in subjects;
    }
  }

  lemma {:induction false} RowEvidence(env: Ambient, seed: Seed, o: Outcome)
    ensures EvidenceValid(Row(env, seed, o))
  {
    var visible := Take(Text.Sorted(o.evidence), MAX_DETAILS);
    RedactedNoLarger(env, visible);
    Text.SortedAscending(RedactAll(env, visible));
  }

  lemma {:induction false} RowsBounded(
    env: Ambient, w: World, table: Table, d: Dimension, subjects: seq<string>, scenarios: seq<Scenario>
  )
    requires forall s :: s in subjects ==> (d, s) in table
    ensures AllEvidenceValid(Rows(env, w, table, d, subjects, scenarios))
  {
    var rows := Rows(env, w, table, d, subjects, scenarios);
    forall r | r in rows ensures EvidenceValid(r) {
      var i :| 0 <= i < |rows| && rows[i] == r;
      RowEvidence(env, table[(d, subjects[i])], Evaluate(w, table[(d, subjects[i])], scenarios));
    }
  }

  /** What a list of visible rows keeps of all rows. */
  lemma {:induction false} VisibleCounts(rows: seq<Requirement>, s: Status)
    ensures var visible := Take(Filter(rows, Unshared(rows)), MAX_DETAILS);
            DistinctSubjects(visible)
            && Count(BySubject(visible), WithStatus(s)) <= Count(rows, WithStatus(s))
            && |BySubject(visible)| == |visible|
  {
    var kept := Filter(rows, Unshared(rows));
    var visible := Take(kept, MAX_DETAILS);
    UnsharedDistinct(rows);
    assert forall i :: 0 <= i < |visible| ==> visible[i] == kept[i];
    BySubjectIsPermutation(visible);
    CountPermuted(BySubject(visible), visible, WithStatus(s));
    CountPrefix(kept, |visible|, WithStatus(s));
    CountFiltered(rows, Unshared(rows), WithStatus(s));
    assert |multiset(BySubject(visible))| == |multiset(visible)|;
  }

  lemma {:induction false} FamilyFromIsValid(d: Dimension, rows: seq<Requirement>)
    requires AllEvidenceValid(rows)
    ensures FamilyValid(FamilyFrom(d, rows))
  {
    var visible := Take(Filter(rows, Unshared(rows)), MAX_DETAILS);
    var f := FamilyFrom(d, rows);
    forall s ensures Count(f.requirements, WithStatus(s)) <= CountOf(f, s) { VisibleCounts(rows, s); }
    VisibleCounts(rows, Covered);
    BySubjectDistinct(visible);
    CountByStatus(rows);
    FilterNoLonger(rows, Unshared(rows));
    BySubjectAscends(visible);
    forall r | r in f.requirements ensures EvidenceValid(r) { VisibleAmongRows(rows, r); }
  }

  /** Every family the analyzer builds meets its contract. */
  lemma {:induction false} FamilyIsValid(env: Ambient, w: World, table: Table, d: Dimension, scenarios: seq<Scenario>)
    ensures FamilyValid(FamilyOf(env, w, table, d, scenarios))
  {
    RowsBounded(env, w, table, d, Text.Sorted(Subjects(table, d)), scenarios);
    FamilyFromIsValid(d, Rows(env, w, table, d, Text.Sorted(Subjects(table, d)), scenarios));
  }

  lemma {:induction false} VisibleAmongRows(rows: seq<Requirement>, r: Requirement)
    requires r in BySubject(Take(Filter(rows, Unshared(rows)), MAX_DETAILS))
    ensures r in rows
  {
    var kept := Filter(rows, Unshared(rows));
    var visible := Take(kept, MAX_DETAILS);
    UnsharedDistinct(rows);
    BySubjectDistinct(visible);
    assert r in visible;
    assert visible <= kept;
    assert r in kept;
  }

  // ---------------------------------------------------------------------------
  // More scenarios
  // ---------------------------------------------------------------------------

  ghost predicate NoEvidenceLost(f: Family, g: Family) {
    f.dimension == g.dimension
    && f.Applicable() == g.Applicable() && f.unknown == g.unknown && f.unsupported == g.unsupported
    && f.covered <= g.covered && f.missing >= g.missing
  }

  ghost predicate NotWorse(x: Status, y: Status) {
    (x.Covered? ==> y.Covered?) && (y.Missing? ==> x.Missing?)
    && (x.Undecided? <==> y.Undecided?) && (x.Unsupported? <==> y.Unsupported?)
  }

  lemma {:induction false} RowsNotWorse(before: seq<Requirement>, after: seq<Requirement>)
    requires |before| == |after| && forall i :: 0 <= i < |before| ==> NotWorse(before[i].status, after[i].status)
    ensures Count(before, WithStatus(Covered)) <= Count(after, WithStatus(Covered))
    ensures Count(before, WithStatus(Missing)) >= Count(after, WithStatus(Missing))
    ensures Count(before, WithStatus(Undecided)) == Count(after, WithStatus(Undecided))
    ensures Count(before, WithStatus(Unsupported)) == Count(after, WithStatus(Unsupported))
  {
    CountPointwise(before, after, WithStatus(Covered), WithStatus(Covered));
    CountPointwise(after, before, WithStatus(Missing), WithStatus(Missing));
    CountPointwise(before, after, WithStatus(Undecided), WithStatus(Undecided));
    CountPointwise(after, before, WithStatus(Undecided), WithStatus(Undecided));
    CountPointwise(before, after, WithStatus(Unsupported), WithStatus(Unsupported));
    CountPointwise(after, before, WithStatus(Unsupported), WithStatus(Unsupported));
  }

  lemma {:induction false} RowsMonotone(
    env: Ambient, w: World, table: Table, d: Dimension, subjects: seq<string>, a: seq<Scenario>,
    b: seq<Scenario>
  )
    requires multiset(a) <= multiset(b) && forall s :: s in subjects ==> (d, s) in table
    ensures |Rows(env, w, table, d, subjects, a)| == |Rows(env, w, table, d, subjects, b)|
    ensures forall i :: 0 <= i < |Rows(env, w, table, d, subjects, a)| ==>
      NotWorse(Rows(env, w, table, d, subjects, a)[i].status, Rows(env, w, table, d, subjects, b)[i].status)
  {
    forall i | 0 <= i < |subjects|
      ensures NotWorse(Rows(env, w, table, d, subjects, a)[i].status, Rows(env, w, table, d, subjects, b)[i].status)
    {
      MoreScenarios(w, table[(d, subjects[i])], a, b);
    }
  }

  lemma {:induction false} FamilyFromMonotone(d: Dimension, before: seq<Requirement>, after: seq<Requirement>)
    requires |before| == |after| && forall i :: 0 <= i < |before| ==> NotWorse(before[i].status, after[i].status)
    ensures NoEvidenceLost(FamilyFrom(d, before), FamilyFrom(d, after))
  {
    RowsNotWorse(before, after);
    CountByStatus(before);
    CountByStatus(after);
  }

  lemma {:induction false} FamilyMonotone(
    env: Ambient, w: World, table: Table, d: Dimension, a: seq<Scenario>, b: seq<Scenario>
  )
    requires multiset(a) <= multiset(b)
    ensures NoEvidenceLost(FamilyOf(env, w, table, d, a), FamilyOf(env, w, table, d, b))
  {
    var subjects := Text.Sorted(Subjects(table, d));
    RowsMonotone(env, w, table, d, subjects, a, b);
    FamilyFromMonotone(d, Rows(env, w, table, d, subjects, a), Rows(env, w, table, d, subjects, b));
  }

  /**
    Selecting fewer cases never shrinks the denominator and running more never loses
    evidence: with one reference suite, every family keeps its applicable, unknown
    and unsupported totals, covers no less and misses no more.
   */
  lemma {:induction false} SelectionCannotHide(
    env: Ambient, spec: Spec, a: seq<Scenario>, b: seq<Scenario>, suite: Option<string>, reference: seq<Scenario>,
    availableOnly: bool
  )
    requires multiset(a) <= multiset(b)
    ensures var f, g := Derived(env, spec, a, suite, reference, availableOnly).families,
                        Derived(env, spec, b, suite, reference, availableOnly).families;
            |f| == |g| == |DIMENSIONS|
            && forall i :: 0 <= i < |f| ==> NoEvidenceLost(f[i], g[i]) && FamilyValid(f[i])
  {
    var w, table := WorldOf(env, spec), FinalTable(env, spec, reference);
    forall i | 0 <= i < |DIMENSIONS|
      ensures NoEvidenceLost(Families(env, w, table, a)[i], Families(env, w, table, b)[i])
      ensures FamilyValid(Families(env, w, table, a)[i])
    {
      FamilyMonotone(env, w, table, DIMENSIONS[i], a, b);
      FamilyIsValid(env, w, table, DIMENSIONS[i], a);
    }
  }

  // ---------------------------------------------------------------------------
  // Re-derivation
  // ---------------------------------------------------------------------------

  ghost predicate RedactionIdempotent(env: Ambient) {
    forall s :: env.cleaner.redact(env.cleaner.redact(s)) == env.cleaner.redact(s)
  }

  /** A scenario id together with its fingerprint stands for one scenario: the hash does not collide here. */
  ghost predicate IdentitiesBind(scenarios: seq<Scenario>) {
    forall s, t :: s in scenarios && t in scenarios && s.id == t.id && s.fingerprint == t.fingerprint ==> s == t
  }

  /** The reference suites `r` and `q` cannot be told apart by the requirements they yield. */
  ghost predicate Interchangeable(r: seq<Scenario>, q: seq<Scenario>) {
    r == q || (multiset(r) == multiset(q) && !Collides(r))
  }

  lemma {:induction false} InterchangeableTables(env: Ambient, spec: Spec, r: seq<Scenario>, q: seq<Scenario>)
    requires Interchangeable(r, q)
    ensures FinalTable(env, spec, r) == FinalTable(env, spec, q)
  {
    if r != q { NoCollisionSameTable(spec, r, q); }
  }

  lemma {:induction false} InterchangeableDerivation(
    env: Ambient, spec: Spec, scenarios: seq<Scenario>, suite: Option<string>, r: seq<Scenario>, q: seq<Scenario>,
    availableOnly: bool
  )
    requires Interchangeable(r, q)
    ensures IdentitiesOf(r) == IdentitiesOf(q) && |r| == |q|
    ensures Derived(env, spec, scenarios, suite, r, availableOnly) == Derived(env, spec, scenarios, suite, q, availableOnly)
  {
    InterchangeableTables(env, spec, r, q);
    GatherPermuted(r, q, IdentityOf);
    assert |multiset(r)| == |r| && |multiset(q)| == |q|;
  }

  lemma {:induction false} SuiteRedactedOnce(
    env: Ambient, spec: Spec, scenarios: seq<Scenario>, suite: Option<string>, r: seq<Scenario>, availableOnly: bool
  )
    requires RedactionIdempotent(env)
    ensures Derived(env, spec, scenarios, Redacted(env, suite), r, availableOnly)
         == Derived(env, spec, scenarios, suite, r, availableOnly)
  {
    assert Redacted(env, Redacted(env, suite)) == Redacted(env, suite);
  }

  /** The source bindings a report carries. */
  ghost predicate BoundReport(
    env: Ambient, r: Report, spec: Spec, scenarios: seq<Scenario>, suite: Option<string>, reference: seq<Scenario>
  ) {
    r.specId == env.cleaner.redact(spec.id) && r.specDigest == env.specDigest(spec)
    && r.scenarioCount == |scenarios| && r.scenarioDigest == env.identityDigest(IdentitiesOf(scenarios))
    && r.referenceCount == |reference| && r.referenceDigest == env.identityDigest(IdentitiesOf(reference))
    && r.suiteFingerprint == Redacted(env, suite) && r.fingerprint == env.checksum(r.(fingerprint := ""))
  }

  lemma {:induction false} DerivedIsBound(
    env: Ambient, spec: Spec, scenarios: seq<Scenario>, suite: Option<string>, reference: seq<Scenario>, availableOnly: bool
  )
    ensures BoundReport(env, Derived(env, spec, scenarios, suite, reference, availableOnly), spec, scenarios, suite, reference)
    ensures Derived(env, spec, scenarios, suite, reference, availableOnly).availableOnly == availableOnly
  {
    var r := Derived(env, spec, scenarios, suite, reference, availableOnly);
    assert r.(fingerprint := "").(fingerprint := env.checksum(r.(fingerprint := ""))) == r;
  }

  lemma {:induction false} BoundReportAccepted(
    env: Ambient, r: Report, spec: Spec, scenarios: seq<Scenario>, suite: Option<string>, bound: seq<Scenario>,
    asked: Option<Option<string>>, reference: Option<seq<Scenario>>
  )
    requires BoundReport(env, r, spec, scenarios, suite, bound) && Consistent(r)
    requires asked.Some? ==> asked.value == suite
    requires reference.Some? ==>
               reference.value == bound && IdentitiesOf(scenarios) <= IdentitiesOf(bound)
    requires var complete := CompleteReference(r, scenarios, reference);
             complete.Some? ==> Analyze(env, spec, scenarios, r.suiteFingerprint, complete, r.availableOnly) == Accepted(r)
    ensures Mismatches(env, r, spec, scenarios, asked, reference) == {}
  {
  }

  lemma {:induction false} AcceptedIsDerived(
    env: Ambient, spec: Spec, scenarios: seq<Scenario>, suite: Option<string>, reference: Option<seq<Scenario>>,
    availableOnly: bool, report: Report
  )
    requires Analyze(env, spec, scenarios, suite, reference, availableOnly) == Accepted(report)
    ensures var universe := if reference.Some? then reference.value else scenarios;
            report == Derived(env, spec, scenarios, suite, universe, availableOnly) && Consistent(report)
            && IdentitiesOf(scenarios) <= IdentitiesOf(universe)
  {
  }

  /** Re-deriving with the stored suite fingerprint and an interchangeable suite gives the report back. */
  lemma {:induction false} Rederives(
    env: Ambient, spec: Spec, scenarios: seq<Scenario>, suite: Option<string>, universe: seq<Scenario>,
    again: seq<Scenario>, availableOnly: bool, report: Report
  )
    requires RedactionIdempotent(env) && Interchangeable(universe, again)
    requires report == Derived(env, spec, scenarios, suite, universe, availableOnly) && Consistent(report)
    requires IdentitiesOf(scenarios) <= IdentitiesOf(universe)
    ensures BoundReport(env, report, spec, scenarios, suite, again)
    ensures IdentitiesOf(scenarios) <= IdentitiesOf(again)
    ensures Analyze(env, spec, scenarios, report.suiteFingerprint, Some(again), report.availableOnly) == Accepted(report)
  {
    InterchangeableDerivation(env, spec, scenarios, suite, universe, again, availableOnly);
    DerivedIsBound(env, spec, scenarios, suite, again, availableOnly);
    SuiteRedactedOnce(env, spec, scenarios, suite, again, availableOnly);
  }

  /**
    Verification accepts what analysis produced, for the same specification,
    scenarios and suite fingerprint, when it is given the same reference suite, in
    any order that yields the same requirements.
   */
  lemma {:induction false} VerifyAcceptsGivenReference(
    env: Ambient, spec: Spec, scenarios: seq<Scenario>, suite: Option<string>, reference: Option<seq<Scenario>>,
    availableOnly: bool, report: Report, again: seq<Scenario>
  )
    requires RedactionIdempotent(env)
    requires Analyze(env, spec, scenarios, suite, reference, availableOnly) == Accepted(report)
    requires Interchangeable(if reference.Some? then reference.value else scenarios, again)
    ensures Mismatches(env, report, spec, scenarios, Some(suite), Some(again)) == {}
    ensures Mismatches(env, report, spec, scenarios, None, Some(again)) == {}
  {
    var universe := if reference.Some? then reference.value else scenarios;
    AcceptedIsDerived(env, spec, scenarios, suite, reference, availableOnly, report);
    Rederives(env, spec, scenarios, suite, universe, again, availableOnly, report);
    BoundReportAccepted(env, report, spec, scenarios, suite, again, Some(suite), Some(again));
    BoundReportAccepted(env, report, spec, scenarios, suite, again, None, Some(again));
  }

  /**
    With a reference suite verification is exact: it accepts the report that analysis
    derives from these sources, where analysis would accept it, and no other report.
   */
  lemma {:induction false} VerifyExactly(
    env: Ambient, r: Report, spec: Spec, scenarios: seq<Scenario>, suite: Option<string>, reference: seq<Scenario>
  )
    requires RedactionIdempotent(env)
    ensures Mismatches(env, r, spec, scenarios, Some(suite), Some(reference)) == {}
       <==> Analyze(env, spec, scenarios, suite, Some(reference), r.availableOnly) == Accepted(r)
  {
    if Analyze(env, spec, scenarios, suite, Some(reference), r.availableOnly) == Accepted(r) {
      VerifyAcceptsGivenReference(env, spec, scenarios, suite, Some(reference), r.availableOnly, r, reference);
    }
    if Mismatches(env, r, spec, scenarios, Some(suite), Some(reference)) == {} {
      MatchingSources(env, r, spec, scenarios, suite, reference);
      SuiteRedactedOnce(env, spec, scenarios, suite, reference, r.availableOnly);
    }
  }

  lemma {:induction false} MatchingSources(
    env: Ambient, r: Report, spec: Spec, scenarios: seq<Scenario>, suite: Option<string>, reference: seq<Scenario>
  )
    requires Mismatches(env, r, spec, scenarios, Some(suite), Some(reference)) == {}
    ensures r.suiteFingerprint == Redacted(env, suite)
    ensures Analyze(env, spec, scenarios, r.suiteFingerprint, Some(reference), r.availableOnly) == Accepted(r)
  {
    var m := Mismatches(env, r, spec, scenarios, Some(suite), Some(reference));
    assert SuiteFingerprint !in m && DerivedCoverage !in m;
  }

  /**
    Without a reference suite verification is exact for a report that says its scenarios
    were the whole suite.
   */
  lemma {:induction false} VerifyWholeExactly(
    env: Ambient, r: Report, spec: Spec, scenarios: seq<Scenario>, suite: Option<string>
  )
    requires RedactionIdempotent(env) && r.referenceCount == r.scenarioCount
    ensures Mismatches(env, r, spec, scenarios, Some(suite), None) == {}
       <==> Analyze(env, spec, scenarios, suite, None, r.availableOnly) == Accepted(r)
  {
    if Analyze(env, spec, scenarios, suite, None, r.availableOnly) == Accepted(r) {
      VerifyAcceptsWithoutReference(env, spec, scenarios, suite, None, r.availableOnly, r);
    }
    if Mismatches(env, r, spec, scenarios, Some(suite), None) == {} {
      var m := Mismatches(env, r, spec, scenarios, Some(suite), None);
      assert SuiteFingerprint !in m && DerivedCoverage !in m;
      SuiteRedactedOnce(env, spec, scenarios, suite, scenarios, r.availableOnly);
    }
  }

  /** Contained identities of equal number are the same identities. */
  lemma {:induction false} EqualCounts(a: seq<Scenario>, b: seq<Scenario>)
    requires IdentitiesOf(a) <= IdentitiesOf(b) && |a| == |b|
    ensures IdentitiesOf(a) == IdentitiesOf(b)
  {
    IdentityCount(a);
    IdentityCount(b);
    var rest := IdentitiesOf(b) - IdentitiesOf(a);
    assert IdentitiesOf(b) == IdentitiesOf(a) + rest;
    assert |rest| == 0;
  }

  lemma {:induction false} IdentityCount(a: seq<Scenario>)
    ensures |IdentitiesOf(a)| == |a|
  {
    if a != [] {
      IdentityCount(a[1..]);
      assert Gather(a, IdentityOf) == IdentityOf(a[0]) + Gather(a[1..], IdentityOf);
    }
  }

  lemma {:induction false} FindIdentity(x: Scenario, b: seq<Scenario>) returns (i: nat)
    requires (x.id, x.fingerprint) in IdentitiesOf(b)
    ensures i < |b| && b[i].id == x.id && b[i].fingerprint == x.fingerprint
  {
    GatherMember(b, IdentityOf, (x.id, x.fingerprint));
    i :| 0 <= i < |b| && (x.id, x.fingerprint) in IdentityOf(b[i]);
  }

  lemma {:induction false} IdentitiesHead(a: seq<Scenario>)
    requires a != []
    ensures IdentitiesOf(a) == multiset{(a[0].id, a[0].fingerprint)} + IdentitiesOf(a[1..])
  {
  }

  lemma {:induction false} IdentitiesDrop(b: seq<Scenario>, i: nat)
    requires i < |b|
    ensures IdentitiesOf(b) == multiset{(b[i].id, b[i].fingerprint)} + IdentitiesOf(Drop(b, i))
  {
    GatherDrop(b, i, IdentityOf);
  }

  lemma {:induction false} BindSmaller(a: seq<Scenario>, b: seq<Scenario>, i: nat)
    requires a != [] && i < |b| && IdentitiesBind(a + b)
    ensures IdentitiesBind(a[1..] + Drop(b, i))
  {
    forall s | s in a[1..] + Drop(b, i) ensures s in a + b {
      if s in a[1..] {
        assert s in a;
      } else {
        assert s in b;
      }
    }
  }

  /** Setting aside one scenario and its twin leaves equal identities. */
  lemma {:induction false} TwinApart(a: seq<Scenario>, b: seq<Scenario>) returns (i: nat)
    requires IdentitiesOf(a) == IdentitiesOf(b) && IdentitiesBind(a + b) && a != []
    ensures i < |b| && b[i] == a[0]
    ensures IdentitiesOf(a[1..]) == IdentitiesOf(Drop(b, i)) && IdentitiesBind(a[1..] + Drop(b, i))
  {
    IdentitiesHead(a);
    assert (a[0].id, a[0].fingerprint) in IdentitiesOf(b);
    i := FindIdentity(a[0], b);
    assert a[0] in a + b && b[i] in a + b;
    IdentitiesDrop(b, i);
    BindSmaller(a, b, i);
    CancelOne(IdentitiesOf(a[1..]), IdentitiesOf(Drop(b, i)), (a[0].id, a[0].fingerprint));
  }

  lemma {:induction false} CancelOne(p: Identities, q: Identities, x: (string, string))
    requires multiset{x} + p == multiset{x} + q
    ensures p == q
  {
    assert p == (multiset{x} + p) - multiset{x};
    assert q == (multiset{x} + q) - multiset{x};
  }

  /** Where identities bind, equal identities mean the same scenarios in some order. */
  lemma {:induction false} SameScenarios(a: seq<Scenario>, b: seq<Scenario>)
    requires IdentitiesOf(a) == IdentitiesOf(b) && IdentitiesBind(a + b)
    ensures multiset(a) == multiset(b)
    decreases |a|
  {
    if a == [] {
      IdentityCount(b);
    } else {
      var i := TwinApart(a, b);
      SameScenarios(a[1..], Drop(b, i));
      HeadApart(a);
    }
  }

  /**
    Verification without a reference suite accepts the report too: it re-derives only
    when the counts say the scenarios were the whole suite, and then identities make
    them the same suite up to order.
   */
  lemma {:induction false} VerifyAcceptsWithoutReference(
    env: Ambient, spec: Spec, scenarios: seq<Scenario>, suite: Option<string>, reference: Option<seq<Scenario>>,
    availableOnly: bool, report: Report
  )
    requires RedactionIdempotent(env)
    requires reference.Some? && reference.value != scenarios && |reference.value| == |scenarios| ==>
               !Collides(scenarios) && IdentitiesBind(scenarios + reference.value)
    requires Analyze(env, spec, scenarios, suite, reference, availableOnly) == Accepted(report)
    ensures Mismatches(env, report, spec, scenarios, Some(suite), None) == {}
    ensures Mismatches(env, report, spec, scenarios, None, None) == {}
  {
    var universe := if reference.Some? then reference.value else scenarios;
    AcceptedIsDerived(env, spec, scenarios, suite, reference, availableOnly, report);
    DerivedIsBound(env, spec, scenarios, suite, universe, availableOnly);
    if |universe| == |scenarios| {
      EqualCounts(scenarios, universe);
      if universe != scenarios { SameScenarios(scenarios, universe); }
      WholeSuiteRederives(env, spec, scenarios, suite, universe, availableOnly, report);
    }
    BoundReportAccepted(env, report, spec, scenarios, suite, universe, Some(suite), None);
    BoundReportAccepted(env, report, spec, scenarios, suite, universe, None, None);
  }

  lemma {:induction false} WholeSuiteRederives(
    env: Ambient, spec: Spec, scenarios: seq<Scenario>, suite: Option<string>, universe: seq<Scenario>,
    availableOnly: bool, report: Report
  )
    requires RedactionIdempotent(env) && Interchangeable(scenarios, universe)
    requires report == Derived(env, spec, scenarios, suite, universe, availableOnly) && Consistent(report)
    ensures Analyze(env, spec, scenarios, report.suiteFingerprint, Some(scenarios), report.availableOnly) == Accepted(report)
  {
    InterchangeableDerivation(env, spec, scenarios, suite, scenarios, universe, availableOnly);
    SuiteRedactedOnce(env, spec, scenarios, suite, scenarios, availableOnly);
    DerivedIsBound(env, spec, scenarios, suite, scenarios, availableOnly);
  }

  // ---------------------------------------------------------------------------
  // Names that bind to nothing definite
  // ---------------------------------------------------------------------------

  /** One of the names of the requirement is declared twice, or does not survive the artifact boundary. */
  ghost predicate Unbound(env: Ambient, spec: Spec, seed: Seed) {
    exists name :: (seed.tool == Some(name) || seed.prerequisite == Some(name))
                   && (AmbiguousName(spec, name) || LossyName(env, spec, name))
  }

  /**
    A requirement whose names are ambiguous or lossy is never counted as covered or
    missing, whatever was contributed and whatever ran; every other one is judged as derived.
   */
  lemma {:induction false} UnboundIsUndecided(
    env: Ambient, spec: Spec, reference: seq<Scenario>, k: Key, w: World, scenarios: seq<Scenario>
  )
    requires k in Requirements(spec, reference)
    ensures k in FinalTable(env, spec, reference)
    ensures Unbound(env, spec, Requirements(spec, reference)[k]) ==>
      Evaluate(w, FinalTable(env, spec, reference)[k], scenarios).status.Undecided?
    ensures !Unbound(env, spec, Requirements(spec, reference)[k]) ==>
      FinalTable(env, spec, reference)[k] == Requirements(spec, reference)[k]
  {
    RebindingExact(env, spec, Requirements(spec, reference)[k]);
  }

  lemma {:induction false} RebindingExact(env: Ambient, spec: Spec, seed: Seed)
    ensures Unbound(env, spec, seed) ==> Rebound(env, spec, seed).applicability.Unknown?
    ensures !Unbound(env, spec, seed) ==> Rebound(env, spec, seed) == seed
  {
    var ambiguous, lossy := (name: string) => AmbiguousName(spec, name), (name: string) => LossyName(env, spec, name);
    assert SomeName(seed, ambiguous) || SomeName(seed, lossy) <==> Unbound(env, spec, seed) by {
      if seed.tool.Some? { assert seed.tool == Some(seed.tool.value); }
      if seed.prerequisite.Some? { assert seed.prerequisite == Some(seed.prerequisite.value); }
    }
  }
}
