/**
  A suite whose reports depend on the order in which it is read: two prerequisite
  relations with one display subject, so that verification of the one order refuses the
  report of the other.
 */
module OrderFacts {
  import opened Bags
  import opened Json
  import opened Domain
  import opened Outcomes
  import opened OutcomeFacts
  import opened Seeds
  import opened SeedFacts
  import opened Coverage
  import opened CoverageFacts
  import Text

  /** A generated action case for `f` with one prerequisite fixture of tool `p`. */
  function ActionCase(f: string, p: string): (s: Scenario) {
    Scenario("case-" + f, "fingerprint-" + f, [[]],
             [Fixture("prerequisite-1", p, Obj([]), None, 0, Success, None, 0.0, false)], [],
             [Behavior("call", f, Obj([]), 1, None, false, ["declared"])], [], [], [], [],
             30.0, 20, {"source:positive_path", "tool:" + f}, [OracleProvenance("declared", true, 1.0, false)])
  }

  lemma {:induction false} ActionCaseMeetsContract(f: string, p: string)
    ensures MeetsContract(ActionCase(f, p))
  {
    var s := ActionCase(f, p);
    assert s.oracles[0] in s.oracles;
    assert s.id[0] == 'c' && ("tool:" + f)[0] == 't';
  }

  /** Its one relation. */
  lemma {:induction false} ActionCasePairs(f: string, p: string)
    requires f != p
    ensures PrerequisitePairs(ActionCase(f, p)) == {(f, p)}
  {
    var s := ActionCase(f, p);
    assert s.required[0] in Behaviors(s);
    assert Focal(s) == {f};
    assert TaggedFocal(s) == {f};
    assert GeneratorSource("source:positive_path") && "source:positive_path" in s.tags;
    assert s.fixtures[0] in s.fixtures && PrerequisiteFixture(s.fixtures[0]);
  }

  /** Two scenarios with one relation each, which have one display subject. */
  ghost predicate Rivals(s: Scenario, f: string, p: string, t: Scenario, g: string, q: string) {
    PrerequisitePairs(s) == {(f, p)} && PrerequisitePairs(t) == {(g, q)}
    && PrerequisiteSubject(f, p) == PrerequisiteSubject(g, q) && (f, p) != (g, q)
  }

  /** They exist, and the scenario contract accepts both. */
  lemma {:induction false} ActionCaseRivals(s: Scenario, t: Scenario)
    requires s == ActionCase("c", "a->tool:b") && t == ActionCase("b->tool:c", "a")
    ensures MeetsContract(s) && MeetsContract(t)
    ensures Rivals(s, "c", "a->tool:b", t, "b->tool:c", "a")
  {
    ActionCaseMeetsContract("c", "a->tool:b");
    ActionCaseMeetsContract("b->tool:c", "a");
    assert |"c"| != |"b->tool:c"| && |"a"| != |"a->tool:b"|;
    ActionCasePairs("c", "a->tool:b");
    ActionCasePairs("b->tool:c", "a");
  }

  /** The two readings of a suite of two cases. */
  ghost predicate Orders(a: seq<Scenario>, b: seq<Scenario>, s: Scenario, t: Scenario) {
    |a| == 2 && |b| == 2 && a[0] == s && a[1] == t && b[0] == t && b[1] == s
  }

  lemma {:induction false} OrdersPermute(a: seq<Scenario>, b: seq<Scenario>, s: Scenario, t: Scenario)
    requires Orders(a, b, s, t)
    ensures multiset(a) == multiset(b)
  {
    assert a == [s, t] && b == [t, s];
  }

  lemma {:induction false} FirstDecides(spec: Spec, r: seq<Scenario>, f: string, p: string)
    requires r != [] && (f, p) in PrerequisitePairs(r[0])
    ensures BoundTo(Requirements(spec, r), (PrerequisiteSuccess, PrerequisiteSubject(f, p)), f, p)
  {
    var s, rest := r[0], r[1..];
    assert r == [s] + rest;
    FirstReadDecides(spec, s, rest, f, p, (PrerequisiteSuccess, PrerequisiteSubject(f, p)));
  }

  lemma {:induction false} BothOrders(
    spec: Spec, a: seq<Scenario>, b: seq<Scenario>, s: Scenario, f: string, p: string, t: Scenario, g: string, q: string
  )
    requires Rivals(s, f, p, t, g, q) && Orders(a, b, s, t)
    ensures BoundTo(Requirements(spec, a), (PrerequisiteSuccess, PrerequisiteSubject(f, p)), f, p)
    ensures BoundTo(Requirements(spec, b), (PrerequisiteSuccess, PrerequisiteSubject(f, p)), g, q)
  {
    FirstDecides(spec, a, f, p);
    FirstDecides(spec, b, g, q);
  }

  lemma {:induction false} RivalsReadDifferently(
    spec: Spec, a: seq<Scenario>, b: seq<Scenario>, s: Scenario, f: string, p: string, t: Scenario, g: string, q: string
  )
    requires Rivals(s, f, p, t, g, q) && Orders(a, b, s, t)
    ensures ReadDifferently(spec, a, b)
  {
    BothOrders(spec, a, b, s, f, p, t, g, q);
    Differ(Requirements(spec, a), Requirements(spec, b), (PrerequisiteSuccess, PrerequisiteSubject(f, p)), f, p, g, q);
    OrdersPermute(a, b, s, t);
  }

  /** The two cases, read in two orders, give two tables of requirements. */
  lemma {:induction false} OrderCanMatter(spec: Spec, a: seq<Scenario>, b: seq<Scenario>, s: Scenario, t: Scenario)
    requires s == ActionCase("c", "a->tool:b") && t == ActionCase("b->tool:c", "a") && Orders(a, b, s, t)
    ensures MeetsContract(s) && MeetsContract(t) && ReadDifferently(spec, a, b)
  {
    ActionCaseRivals(s, t);
    RivalsReadDifferently(spec, a, b, s, "c", "a->tool:b", t, "b->tool:c", "a");
  }

  // ---------------------------------------------------------------------------
  // The reports
  // ---------------------------------------------------------------------------

  ghost predicate RelationsHave(s: Scenario, subject: string) {
    forall pair :: pair in PrerequisitePairs(s) ==> PrerequisiteSubject(pair.0, pair.1) == subject
  }

  /** Every relation of the suite has the one subject. */
  ghost predicate OneRelationSubject(r: seq<Scenario>, subject: string) {
    forall x :: x in r ==> RelationsHave(x, subject)
  }

  lemma {:induction false} RivalsShare(r: seq<Scenario>, s: Scenario, f: string, p: string, t: Scenario, g: string, q: string)
    requires Rivals(s, f, p, t, g, q) && forall x :: x in r ==> x == s || x == t
    ensures OneRelationSubject(r, PrerequisiteSubject(f, p))
  {
    assert RelationsHave(s, PrerequisiteSubject(f, p)) && RelationsHave(t, PrerequisiteSubject(f, p));
  }

  lemma {:induction false} RivalsShareBoth(
    a: seq<Scenario>, b: seq<Scenario>, s: Scenario, f: string, p: string, t: Scenario, g: string, q: string
  )
    requires Rivals(s, f, p, t, g, q) && Orders(a, b, s, t)
    ensures OneRelationSubject(a, PrerequisiteSubject(f, p)) && OneRelationSubject(b, PrerequisiteSubject(f, p))
    ensures (f, p) in PrerequisitePairs(s) && (g, q) !in PrerequisitePairs(s)
  {
    RivalsShare(a, s, f, p, t, g, q);
    RivalsShare(b, s, f, p, t, g, q);
  }

  /** The one requirement of its dimension is the shared one, and it is applicable. */
  lemma {:induction false} OnlyShared(spec: Spec, r: seq<Scenario>, subject: string, k: Key)
    requires OneRelationSubject(r, subject) && k in Requirements(spec, r) && k.0.PrerequisiteSuccess?
    ensures k.1 == subject && Requirements(spec, r)[k].applicability.Applicable?
    ensures Requirements(spec, r)[k].dimension.PrerequisiteSuccess?
  {
    var c := Requirements(spec, r)[k];
    TableStrongest(AllSeeds(spec, r), k);
    AllBound(spec, r, c);
    SuccessHasPrior(spec, r, c);
    var s :| s in r && (c.tool.value, c.prerequisite.value) in PrerequisitePairs(s);
    assert RelationsHave(s, subject);
  }

  lemma {:induction false} SuccessHasPrior(spec: Spec, r: seq<Scenario>, c: Seed)
    requires c in AllSeeds(spec, r) && c.dimension.PrerequisiteSuccess?
    ensures c.prerequisite.Some?
  {
    if c in SpecSeeds(spec) {
      SpecSeedsBound(spec, c);
    } else {
      var undeclared := UndeclaredTools(spec);
      GatherMember(r, ScenarioSeeds(undeclared), c);
      var i :| 0 <= i < |r| && c in ScenarioSeeds(undeclared)(r[i]);
      SeedsOfBound(r[i], undeclared, c);
    }
  }

  /** No name of the table's requirements is declared twice or changed by the artifact boundary. */
  ghost predicate AllBind(env: Ambient, spec: Spec, table: Table) {
    forall k :: k in table ==> !Unbound(env, spec, table[k])
  }

  lemma {:induction false} BoundTable(env: Ambient, spec: Spec, r: seq<Scenario>)
    requires AllBind(env, spec, Requirements(spec, r))
    ensures FinalTable(env, spec, r) == Requirements(spec, r)
  {
    var table := Requirements(spec, r);
    forall k | k in table ensures Rebound(env, spec, table[k]) == table[k] { RebindingExact(env, spec, table[k]); }
  }

  lemma {:induction false} ListingOfOne(x: string)
    ensures Text.Sorted({x}) == [x]
  {
    var listed := Text.Sorted({x});
    assert |listed| == 1 && listed[0] in listed;
  }

  lemma {:induction false} OneSubject(spec: Spec, r: seq<Scenario>, subject: string)
    requires OneRelationSubject(r, subject) && (PrerequisiteSuccess, subject) in Requirements(spec, r)
    ensures Subjects(Requirements(spec, r), PrerequisiteSuccess) == {subject}
  {
    var table := Requirements(spec, r);
    forall x | x in Subjects(table, PrerequisiteSuccess) ensures x == subject {
      OnlyShared(spec, r, subject, (PrerequisiteSuccess, x));
    }
    assert (PrerequisiteSuccess, subject).0 == PrerequisiteSuccess;
    assert subject in Subjects(table, PrerequisiteSuccess);
  }

  /** The family counts its one requirement as missing exactly when the case run lacks the relation. */
  lemma {:induction false} SharedMissing(
    env: Ambient, spec: Spec, r: seq<Scenario>, subject: string, f: string, p: string, s: Scenario, run: seq<Scenario>
  )
    requires run == [s] && OneRelationSubject(r, subject) && BoundTo(Requirements(spec, r), (PrerequisiteSuccess, subject), f, p)
    ensures FamilyOf(env, WorldOf(env, spec), Requirements(spec, r), PrerequisiteSuccess, run).missing
         == if (f, p) in PrerequisitePairs(s) then 0 else 1
  {
    var w, table, k := WorldOf(env, spec), Requirements(spec, r), (PrerequisiteSuccess, subject);
    OneSubject(spec, r, subject);
    ListingOfOne(subject);
    OnlyShared(spec, r, subject, k);
    SharedStatus(w, table[k], s, run);
    OneRow(env, w, table, subject, run);
  }

  lemma {:induction false} OneRow(env: Ambient, w: World, table: Table, subject: string, run: seq<Scenario>)
    requires (PrerequisiteSuccess, subject) in table && Text.Sorted(Subjects(table, PrerequisiteSuccess)) == [subject]
    ensures FamilyOf(env, w, table, PrerequisiteSuccess, run).missing
         == if Evaluate(w, table[(PrerequisiteSuccess, subject)], run).status.Missing? then 1 else 0
  {
    var rows := Rows(env, w, table, PrerequisiteSuccess, [subject], run);
    assert rows[0].status == Evaluate(w, table[(PrerequisiteSuccess, subject)], run).status;
    CountOne(rows, WithStatus(Missing));
  }

  lemma {:induction false} CountOne<T>(s: seq<T>, q: T -> bool)
    requires |s| == 1
    ensures Count(s, q) == if q(s[0]) then 1 else 0
  {
    assert s[1..] == [];
  }

  lemma {:induction false} SharedStatus(w: World, seed: Seed, s: Scenario, run: seq<Scenario>)
    requires run == [s]
    requires seed.applicability.Applicable? && seed.dimension.PrerequisiteSuccess?
    requires seed.tool.Some? && seed.prerequisite.Some?
    ensures Evaluate(w, seed, run).status.Missing? <==> (seed.tool.value, seed.prerequisite.value) !in PrerequisitePairs(s)
  {
    StatusExact(w, seed, run);
    assert s in run;
  }

  /**
    Of two such cases the first is run. Verification accepts the report with the reference
    suite in the order it was analysed in, and refuses it with the same suite in the other.
   */
  lemma {:induction false} ReorderedReferenceRefused(
    env: Ambient, spec: Spec, suite: Option<string>, a: seq<Scenario>, b: seq<Scenario>, run: seq<Scenario>,
    s: Scenario, f: string, p: string, t: Scenario, g: string, q: string
  )
    requires RedactionIdempotent(env) && Rivals(s, f, p, t, g, q) && Orders(a, b, s, t) && run == [s]
    requires AllBind(env, spec, Requirements(spec, a)) && AllBind(env, spec, Requirements(spec, b))
    ensures var report := Derived(env, spec, run, suite, a, false);
      Mismatches(env, report, spec, run, Some(suite), Some(a)) == {}
      && Mismatches(env, report, spec, run, Some(suite), Some(b)) != {}
  {
    var report := Derived(env, spec, run, suite, a, false);
    FirstContained(run, a);
    FamiliesDiffer(env, spec, suite, a, b, run, s, f, p, t, g, q);
    AcceptedAsDerived(env, spec, suite, run, a);
    DerivedIsBound(env, spec, run, suite, a, false);
    NotAccepted(env, spec, suite, run, b, report);
    VerifyExactly(env, report, spec, run, suite, a);
    VerifyExactly(env, report, spec, run, suite, b);
  }

  lemma {:induction false} AcceptedAsDerived(
    env: Ambient, spec: Spec, suite: Option<string>, run: seq<Scenario>, reference: seq<Scenario>
  )
    requires IdentitiesOf(run) <= IdentitiesOf(reference) && |run| < |reference|
    ensures Analyze(env, spec, run, suite, Some(reference), false) == Accepted(Derived(env, spec, run, suite, reference, false))
  {
  }

  lemma {:induction false} NotAccepted(
    env: Ambient, spec: Spec, suite: Option<string>, run: seq<Scenario>, reference: seq<Scenario>, report: Report
  )
    requires report.families != Derived(env, spec, run, suite, reference, report.availableOnly).families
    ensures Analyze(env, spec, run, suite, Some(reference), report.availableOnly) != Accepted(report)
  {
  }

  lemma {:induction false} FirstContained(run: seq<Scenario>, a: seq<Scenario>)
    requires a != [] && run == [a[0]]
    ensures IdentitiesOf(run) <= IdentitiesOf(a)
  {
    IdentitiesHead(a);
    IdentitiesHead(run);
    assert run[1..] == [];
  }

  lemma {:induction false} FamiliesDiffer(
    env: Ambient, spec: Spec, suite: Option<string>, a: seq<Scenario>, b: seq<Scenario>, run: seq<Scenario>,
    s: Scenario, f: string, p: string, t: Scenario, g: string, q: string
  )
    requires Rivals(s, f, p, t, g, q) && Orders(a, b, s, t) && run == [s]
    requires AllBind(env, spec, Requirements(spec, a)) && AllBind(env, spec, Requirements(spec, b))
    ensures Derived(env, spec, run, suite, a, false).families != Derived(env, spec, run, suite, b, false).families
  {
    MissingDiffers(env, spec, a, b, run, s, f, p, t, g, q);
    BoundTable(env, spec, a);
    BoundTable(env, spec, b);
    FamiliesByTable(env, WorldOf(env, spec), Requirements(spec, a), Requirements(spec, b), run);
    FamiliesOfDerived(env, spec, suite, run, a);
    FamiliesOfDerived(env, spec, suite, run, b);
  }

  lemma {:induction false} MissingDiffers(
    env: Ambient, spec: Spec, a: seq<Scenario>, b: seq<Scenario>, run: seq<Scenario>,
    s: Scenario, f: string, p: string, t: Scenario, g: string, q: string
  )
    requires Rivals(s, f, p, t, g, q) && Orders(a, b, s, t) && run == [s]
    ensures FamilyOf(env, WorldOf(env, spec), Requirements(spec, a), PrerequisiteSuccess, run).missing == 0
    ensures FamilyOf(env, WorldOf(env, spec), Requirements(spec, b), PrerequisiteSuccess, run).missing == 1
  {
    RivalsAligned(spec, a, b, s, f, p, t, g, q);
    SharedMissing(env, spec, a, PrerequisiteSubject(f, p), f, p, s, run);
    SharedMissing(env, spec, b, PrerequisiteSubject(f, p), g, q, s, run);
  }

  lemma {:induction false} RivalsAligned(
    spec: Spec, a: seq<Scenario>, b: seq<Scenario>, s: Scenario, f: string, p: string, t: Scenario, g: string, q: string
  )
    requires Rivals(s, f, p, t, g, q) && Orders(a, b, s, t)
    ensures OneRelationSubject(a, PrerequisiteSubject(f, p)) && OneRelationSubject(b, PrerequisiteSubject(f, p))
    ensures BoundTo(Requirements(spec, a), (PrerequisiteSuccess, PrerequisiteSubject(f, p)), f, p)
    ensures BoundTo(Requirements(spec, b), (PrerequisiteSuccess, PrerequisiteSubject(f, p)), g, q)
    ensures (f, p) in PrerequisitePairs(s) && (g, q) !in PrerequisitePairs(s)
  {
    BothOrders(spec, a, b, s, f, p, t, g, q);
    RivalsShareBoth(a, b, s, f, p, t, g, q);
  }

  lemma {:induction false} FamiliesByTable(env: Ambient, w: World, x: Table, y: Table, run: seq<Scenario>)
    requires FamilyOf(env, w, x, PrerequisiteSuccess, run) != FamilyOf(env, w, y, PrerequisiteSuccess, run)
    ensures Families(env, w, x, run) != Families(env, w, y, run)
  {
    SuccessFamily(env, w, x, run);
    SuccessFamily(env, w, y, run);
  }

  lemma {:induction false} FamiliesOfDerived(
    env: Ambient, spec: Spec, suite: Option<string>, run: seq<Scenario>, reference: seq<Scenario>
  )
    ensures Derived(env, spec, run, suite, reference, false).families
         == Families(env, WorldOf(env, spec), FinalTable(env, spec, reference), run)
  {
  }

  lemma {:induction false} SuccessFamily(env: Ambient, w: World, table: Table, run: seq<Scenario>)
    ensures |Families(env, w, table, run)| == |DIMENSIONS| == 12
    ensures Families(env, w, table, run)[9] == FamilyOf(env, w, table, PrerequisiteSuccess, run)
  {
    assert DIMENSIONS[9] == PrerequisiteSuccess;
  }

  /** Redaction changes nothing, and no tool is declared, so that every name binds. */
  ghost predicate Plain(env: Ambient, spec: Spec) {
    spec.tools == [] && forall x :: env.cleaner.redact(x) == x
  }

  lemma {:induction false} PlainBinds(env: Ambient, spec: Spec, table: Table)
    requires Plain(env, spec)
    ensures RedactionIdempotent(env) && AllBind(env, spec, table)
  {
  }

  /** So it is for the two cases above: a report is refused because the suite was listed in another order. */
  lemma {:induction false} VerificationOrderMatters(
    env: Ambient, spec: Spec, suite: Option<string>, a: seq<Scenario>, b: seq<Scenario>, run: seq<Scenario>,
    s: Scenario, t: Scenario
  )
    requires Plain(env, spec) && Orders(a, b, s, t) && run == [s]
    requires s == ActionCase("c", "a->tool:b") && t == ActionCase("b->tool:c", "a")
    ensures var report := Derived(env, spec, run, suite, a, false);
      Mismatches(env, report, spec, run, Some(suite), Some(a)) == {}
      && Mismatches(env, report, spec, run, Some(suite), Some(b)) != {}
  {
    ActionCaseRivals(s, t);
    PlainBinds(env, spec, Requirements(spec, a));
    PlainBinds(env, spec, Requirements(spec, b));
    ReorderedReferenceRefused(env, spec, suite, a, b, run, s, "c", "a->tool:b", t, "b->tool:c", "a");
  }
}
