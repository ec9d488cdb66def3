/**
  The release decision: the exit code of a comparison (agentcheck/baseline/compare.py)
  and the chain of answers of `run_gate` (agentcheck/gate.py), with what a PASS means.
 */
module Gate {
  import opened Bags
  import opened Compare

  const EXIT_PASS := 0
  const EXIT_BEHAVIORAL_FAILURE := 1
  const EXIT_NOT_CERTIFIABLE := 2
  const EXIT_INCONCLUSIVE := 3

  // ---------------------------------------------------------------------------
  // The exit code of a comparison
  // ---------------------------------------------------------------------------

  predicate CertificationFailure(i: Item) {
    i.category.InfraChange? || i.category.UncertifiableFailure?
  }

  method GateExitCode(items: seq<Item>) returns (code: int)
    ensures code in {EXIT_PASS, EXIT_BEHAVIORAL_FAILURE, EXIT_NOT_CERTIFIABLE}
    ensures code == EXIT_NOT_CERTIFIABLE <==> exists i :: i in items && CertificationFailure(i)
    ensures code == EXIT_PASS <==> forall i :: i in items ==> !CertificationFailure(i) && !i.blocking
  {
    if exists i :: i in items && CertificationFailure(i) { return EXIT_NOT_CERTIFIABLE; }
    if exists i :: i in items && i.blocking { return EXIT_BEHAVIORAL_FAILURE; }
    return EXIT_PASS;
  }

  /** A current failure the baseline already knows: same case, same failure signature. */
  predicate KnownFailure(b: Case, c: Case) {
    b.verdict == Fail && c.verdict == Fail && c.signature.Some? && b.signature == c.signature
  }

  ghost predicate Certifiable(baseline: seq<Case>, current: seq<Case>) {
    && (forall c :: c in current ==> c.verdict != InfraError)
    && (forall b, c :: Paired(baseline, current, b, c) ==>
          b.verdict != InfraError && (b.verdict == Fail && c.verdict == Fail ==> b.signature.Some? && c.signature.Some?))
  }

  ghost predicate Explained(baseline: seq<Case>, current: seq<Case>, c: Case) {
    exists b :: Paired(baseline, current, b, c) && KnownFailure(b, c)
  }

  ghost predicate NoNewFailure(baseline: seq<Case>, current: seq<Case>) {
    forall c :: c in current && c.verdict == Fail ==> Explained(baseline, current, c)
  }

  /** Nothing in the matches keeps the comparison from exit code 0. */
  ghost predicate Quiet(ms: seq<Match>) {
    forall m :: m in ms ==> !CertificationFailure(ItemOf(m)) && !ItemOf(m).blocking
  }

  lemma {:induction false} ItemsComeFromMatches(items: seq<Item>, ms: seq<Match>)
    requires multiset(items) == multiset(ItemsOf(ms))
    ensures forall i :: i in items <==> exists k :: 0 <= k < |ms| && ItemOf(ms[k]) == i
  {
    forall i ensures i in items <==> i in ItemsOf(ms) {
      assert i in items <==> i in multiset(items);
      assert i in ItemsOf(ms) <==> i in multiset(ItemsOf(ms));
    }
    forall i ensures i in ItemsOf(ms) <==> exists k :: 0 <= k < |ms| && ItemOf(ms[k]) == i {
      if i in ItemsOf(ms) {
        var k :| 0 <= k < |ms| && ItemsOf(ms)[k] == i;
        assert ItemOf(ms[k]) == i;
      }
      if k :| 0 <= k < |ms| && ItemOf(ms[k]) == i {
        assert ItemsOf(ms)[k] == i;
      }
    }
  }

  /** A case of the current run sits in one of the matches. */
  lemma {:induction false} FindNew(ms: seq<Match>, c: Case) returns (k: nat)
    requires c in Gather(ms, NewOf)
    ensures k < |ms| && !ms[k].OnlyOld? && ms[k].after == c
  {
    GatherMember(ms, NewOf, c);
    k :| 0 <= k < |ms| && c in NewOf(ms[k]);
  }

  lemma {:induction false} NewMember(baseline: seq<Case>, current: seq<Case>, ms: seq<Match>, c: Case)
    requires Matching(baseline, current, ms)
    ensures c in Gather(ms, NewOf) <==> c in current
  {
    assert c in Gather(ms, NewOf) <==> c in multiset(Gather(ms, NewOf));
    assert c in current <==> c in multiset(current);
  }

  lemma {:induction false} AfterIsCurrent(baseline: seq<Case>, current: seq<Case>, ms: seq<Match>, m: Match)
    requires Matching(baseline, current, ms) && m in ms && !m.OnlyOld?
    ensures m.after in current
  {
    var k :| 0 <= k < |ms| && ms[k] == m;
    assert m.after in NewOf(ms[k]);
    GatherMember(ms, NewOf, m.after);
    NewMember(baseline, current, ms, m.after);
  }

  lemma {:induction false} ExplainedMatch(baseline: seq<Case>, current: seq<Case>, ms: seq<Match>, m: Match)
    requires Matching(baseline, current, ms) && m in ms && !m.OnlyOld? && m.after.verdict == Fail
    requires NoNewFailure(baseline, current) && Trusted(baseline) && Trusted(current)
    ensures m.Both? && KnownFailure(m.before, m.after)
  {
    AfterIsCurrent(baseline, current, ms, m);
    var b :| Paired(baseline, current, b, m.after) && KnownFailure(b, m.after);
    assert Both(b, m.after) in ms;
    OncePerCase(baseline, current, ms, m, Both(b, m.after));
  }

  lemma {:induction false} QuietMatch(baseline: seq<Case>, current: seq<Case>, ms: seq<Match>, m: Match)
    requires Matching(baseline, current, ms) && m in ms
    requires Certifiable(baseline, current) && NoNewFailure(baseline, current) && Trusted(baseline) && Trusted(current)
    ensures !CertificationFailure(ItemOf(m)) && !ItemOf(m).blocking
  {
    if !m.OnlyOld? {
      AfterIsCurrent(baseline, current, ms, m);
      if m.after.verdict == Fail { ExplainedMatch(baseline, current, ms, m); }
    }
  }

  lemma {:induction false} AtMostOnce(cases: seq<Case>, x: Case)
    requires Trusted(cases)
    ensures multiset(cases)[x] <= 1
  {
    EachOnce(cases);
  }

  /** A case of either side occurs in one match only. */
  lemma {:induction false} OncePerCase(baseline: seq<Case>, current: seq<Case>, ms: seq<Match>, m: Match, n: Match)
    requires Matching(baseline, current, ms) && Trusted(baseline) && Trusted(current)
    requires m in ms && n in ms
    requires (!m.OnlyOld? && !n.OnlyOld? && m.after == n.after) || (!m.OnlyNew? && !n.OnlyNew? && m.before == n.before)
    ensures m == n
  {
    var i :| 0 <= i < |ms| && ms[i] == m;
    var j :| 0 <= j < |ms| && ms[j] == n;
    if i != j {
      var lo, hi := if i < j then i else j, if i < j then j else i;
      if !m.OnlyOld? && !n.OnlyOld? && m.after == n.after {
        GatherTwice(ms, lo, hi, NewOf, m.after);
        AtMostOnce(current, m.after);
      } else {
        GatherTwice(ms, lo, hi, OldOf, m.before);
        AtMostOnce(baseline, m.before);
      }
    }
  }

  /** Exit code 0 exactly when the run is certifiable and every failure is a known one. */
  lemma {:induction false} QuietExactly(baseline: seq<Case>, current: seq<Case>, ms: seq<Match>)
    requires Matching(baseline, current, ms) && Trusted(baseline) && Trusted(current)
    ensures Quiet(ms) <==> Certifiable(baseline, current) && NoNewFailure(baseline, current)
  {
    if Certifiable(baseline, current) && NoNewFailure(baseline, current) {
      forall m | m in ms ensures !CertificationFailure(ItemOf(m)) && !ItemOf(m).blocking {
        QuietMatch(baseline, current, ms, m);
      }
    }
    if Quiet(ms) {
      forall b, c | Paired(baseline, current, b, c)
        ensures b.verdict != InfraError && (b.verdict == Fail && c.verdict == Fail ==> b.signature.Some? && c.signature.Some?)
      {
        assert Both(b, c) in ms;
      }
      forall c | c in current
        ensures c.verdict != InfraError && (c.verdict == Fail ==> Explained(baseline, current, c))
      {
        NewMember(baseline, current, ms, c);
        var k := FindNew(ms, c);
        assert ms[k] in ms;
        if c.verdict == Fail {
          assert ms[k].Both? && KnownFailure(ms[k].before, c);
          assert Paired(baseline, current, ms[k].before, c);
        }
      }
    }
  }

  lemma {:induction false} CertifiableExactly(baseline: seq<Case>, current: seq<Case>, ms: seq<Match>)
    requires Matching(baseline, current, ms)
    ensures (forall m :: m in ms ==> !CertificationFailure(ItemOf(m))) <==> Certifiable(baseline, current)
  {
    if Certifiable(baseline, current) {
      forall m | m in ms ensures !CertificationFailure(ItemOf(m)) {
        if !m.OnlyOld? {
          AfterIsCurrent(baseline, current, ms, m);
        }
      }
    }
    if forall m :: m in ms ==> !CertificationFailure(ItemOf(m)) {
      forall b, c | Paired(baseline, current, b, c)
        ensures b.verdict != InfraError && (b.verdict == Fail && c.verdict == Fail ==> b.signature.Some? && c.signature.Some?)
      {
        assert Both(b, c) in ms;
      }
      forall c | c in current ensures c.verdict != InfraError {
        NewMember(baseline, current, ms, c);
        var k := FindNew(ms, c);
        assert ms[k] in ms;
      }
    }
  }

  /** Every case of either side is reported under its own fingerprint, once. */
  lemma {:induction false} ReportedOnce(baseline: seq<Case>, current: seq<Case>, ms: seq<Match>, i: nat, j: nat)
    requires Matching(baseline, current, ms) && Trusted(baseline) && Trusted(current)
    requires i < j < |ms|
    ensures ItemOf(ms[i]).fingerprint != ItemOf(ms[j]).fingerprint
  {
    var x, y := Shown(ms[i]), Shown(ms[j]);
    if x.fingerprint == y.fingerprint {
      ShownMember(baseline, current, ms, i);
      ShownMember(baseline, current, ms, j);
      if !ms[i].OnlyOld? && !ms[j].OnlyOld? {
        TrustedUnique(current, x, y);
        GatherTwice(ms, i, j, NewOf, x);
        AtMostOnce(current, x);
      } else if ms[i].OnlyOld? && ms[j].OnlyOld? {
        TrustedUnique(baseline, x, y);
        GatherTwice(ms, i, j, OldOf, x);
        AtMostOnce(baseline, x);
      } else if ms[i].OnlyOld? {
        assert Paired(baseline, current, x, y);
        OncePerCase(baseline, current, ms, ms[i], Both(x, y));
      } else {
        assert Paired(baseline, current, y, x);
        OncePerCase(baseline, current, ms, ms[j], Both(y, x));
      }
    }
  }

  function Shown(m: Match): Case { if m.OnlyOld? then m.before else m.after }

  lemma {:induction false} ShownMember(baseline: seq<Case>, current: seq<Case>, ms: seq<Match>, i: nat)
    requires Matching(baseline, current, ms) && i < |ms|
    ensures if ms[i].OnlyOld? then Shown(ms[i]) in baseline else Shown(ms[i]) in current
  {
    if ms[i].OnlyOld? {
      assert ms[i].before in OldOf(ms[i]);
      GatherMember(ms, OldOf, ms[i].before);
      assert ms[i].before in multiset(Gather(ms, OldOf));
    } else {
      assert ms[i].after in NewOf(ms[i]);
      GatherMember(ms, NewOf, ms[i].after);
      NewMember(baseline, current, ms, ms[i].after);
    }
  }

  // ---------------------------------------------------------------------------
  // The counting consequence
  // ---------------------------------------------------------------------------

  predicate IsFailure(c: Case) { c.verdict == Fail }

  lemma {:induction false} FailuresAlongMatches(ms: seq<Match>)
    requires Quiet(ms)
    ensures Count(Gather(ms, NewOf), IsFailure) <= Count(Gather(ms, OldOf), IsFailure)
  {
    if ms != [] {
      assert ms[0] in ms;
      assert forall m :: m in ms[1..] ==> m in ms;
      FailuresAlongMatches(ms[1..]);
      CountSplit(NewOf(ms[0]), Gather(ms[1..], NewOf), IsFailure);
      CountSplit(OldOf(ms[0]), Gather(ms[1..], OldOf), IsFailure);
    }
  }

  /** An accepted run has no more failures than its baseline: known failures are an injection. */
  lemma {:induction false} NoMoreFailures(baseline: seq<Case>, current: seq<Case>, ms: seq<Match>)
    requires Matching(baseline, current, ms) && Quiet(ms)
    ensures Count(current, IsFailure) <= Count(baseline, IsFailure)
  {
    FailuresAlongMatches(ms);
    CountPermuted(Gather(ms, NewOf), current, IsFailure);
    CountPermuted(Gather(ms, OldOf), baseline, IsFailure);
  }

  /** The comparison and its exit code, together. */
  method CheckBaseline(baseline: seq<Case>, current: seq<Case>) returns (code: int)
    requires Trusted(baseline) && Trusted(current)
    ensures code in {EXIT_PASS, EXIT_BEHAVIORAL_FAILURE, EXIT_NOT_CERTIFIABLE}
    ensures code == EXIT_NOT_CERTIFIABLE <==> !Certifiable(baseline, current)
    ensures code == EXIT_PASS <==> Certifiable(baseline, current) && NoNewFailure(baseline, current)
    ensures code == EXIT_PASS ==> Count(current, IsFailure) <= Count(baseline, IsFailure)
  {
    var items, ms := ComparisonItems(baseline, current);
    code := GateExitCode(items);
    ItemsComeFromMatches(items, ms);
    CertifiableExactly(baseline, current, ms);
    QuietExactly(baseline, current, ms);
    assert (forall i :: i in items ==> !CertificationFailure(i)) <==> forall m :: m in ms ==> !CertificationFailure(ItemOf(m));
    assert (forall i :: i in items ==> !CertificationFailure(i) && !i.blocking) <==> Quiet(ms);
    if Quiet(ms) { NoMoreFailures(baseline, current, ms); }
  }

  // ---------------------------------------------------------------------------
  // The release gate
  // ---------------------------------------------------------------------------

  datatype Decision = PASS | BLOCK

  /** The answer; `compared` says whether a baseline was consulted. */
  datatype GateResult = GateResult(decision: Decision, exitCode: int, compared: bool)

  /** The run failed in a way the baseline, when there is one, does not know. */
  ghost predicate Regressed(baseline: Option<seq<Case>>, executed: seq<Verdict>, current: seq<Case>) {
    match baseline
    case None => Fail in executed
    case Some(b) => Certifiable(b, current) && !NoNewFailure(b, current)
  }

  /** The run, or its comparison, makes no behavioural claim at all. */
  ghost predicate NotCertifiable(baseline: Option<seq<Case>>, executed: seq<Verdict>, current: seq<Case>) {
    InfraError in executed || (baseline.Some? && !Certifiable(baseline.value, current))
  }

  /**
    `run_gate` over the verdicts of the execution, the trusted baseline when one is
    recorded, the cases of the stored run it is compared with, and the unmet
    declared-risk obligations. The four exit codes are exclusive and exhaustive, and
    infrastructure outranks failure, which outranks missing evidence.
   */
  method RunGate<T>(
    baseline: Option<seq<Case>>, executed: seq<Verdict>, current: seq<Case>, obligations: seq<T>
  ) returns (r: GateResult)
    requires baseline.Some? ==> Trusted(baseline.value) && Trusted(current)
    ensures r.exitCode == EXIT_NOT_CERTIFIABLE <==> NotCertifiable(baseline, executed, current)
    ensures r.exitCode == EXIT_BEHAVIORAL_FAILURE
       <==> !NotCertifiable(baseline, executed, current) && Regressed(baseline, executed, current)
    ensures r.exitCode == EXIT_INCONCLUSIVE
       <==> !NotCertifiable(baseline, executed, current) && !Regressed(baseline, executed, current)
            && (Inconclusive in executed || obligations != [])
    ensures r.decision == PASS <==> r.exitCode == EXIT_PASS
    ensures r.decision == PASS
       <==> !NotCertifiable(baseline, executed, current) && !Regressed(baseline, executed, current)
            && Inconclusive !in executed && obligations == []
    ensures r.compared <==> baseline.Some? && InfraError !in executed
    ensures r.decision == PASS && baseline.Some? ==> Count(current, IsFailure) <= Count(baseline.value, IsFailure)
  {
    if InfraError in executed { return GateResult(BLOCK, EXIT_NOT_CERTIFIABLE, false); }
    if baseline.None? {
      if Fail in executed { return GateResult(BLOCK, EXIT_BEHAVIORAL_FAILURE, false); }
      if Inconclusive in executed { return GateResult(BLOCK, EXIT_INCONCLUSIVE, false); }
      if |obligations| > 0 { return GateResult(BLOCK, EXIT_INCONCLUSIVE, false); }
      return GateResult(PASS, EXIT_PASS, false);
    }
    var code := CheckBaseline(baseline.value, current);
    if code == EXIT_PASS && Inconclusive in executed { return GateResult(BLOCK, EXIT_INCONCLUSIVE, true); }
    if code == EXIT_PASS && |obligations| > 0 { return GateResult(BLOCK, EXIT_INCONCLUSIVE, true); }
    if code == EXIT_PASS { return GateResult(PASS, EXIT_PASS, true); }
    return GateResult(BLOCK, code, true);
  }

  /** A PASS without a baseline means that every single case passed. */
  lemma {:induction false} PassWithoutBaseline(executed: seq<Verdict>, current: seq<Case>)
    requires !NotCertifiable(None, executed, current) && !Regressed(None, executed, current) && Inconclusive !in executed
    ensures forall v :: v in executed ==> v == Pass
  {
  }

  /** The same run compared with itself is accepted whenever it is certifiable. */
  lemma {:induction false} OwnBaselineAccepted(current: seq<Case>)
    requires Trusted(current)
    requires forall c :: c in current ==> c.verdict != InfraError && (c.verdict == Fail ==> c.signature.Some?)
    ensures Certifiable(current, current) && NoNewFailure(current, current)
  {
    forall b, c | Paired(current, current, b, c) ensures b == c {
      if b.fingerprint == c.fingerprint {
        TrustedUnique(current, b, c);
      } else {
        assert Known(current, b.fingerprint);
      }
    }
    forall c | c in current && c.verdict == Fail ensures Explained(current, current, c) {
      assert Paired(current, current, c, c) && KnownFailure(c, c);
    }
  }
}
