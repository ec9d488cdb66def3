/**
  What the release gate guarantees of the suite it lets pass: the verdicts, the baseline
  and the evidence for every declared risk, together.
 */
module Release {
  import opened Bags
  import opened Compare
  import opened Domain
  import opened Gate
  import opened Obligations
  import opened OutcomeFacts

  /** Some scenario of the suite touches the risk. */
  ghost predicate Evidenced(validates: Validator, spec: Spec, scenarios: seq<Scenario>) {
    forall name, d :: Obliged(spec, name, d) ==>
      exists s :: s in scenarios && Touched(DeclaredWorld(validates, spec), ObligationSeed(name, d), s)
  }

  /**
    `run_gate` on the obligations of the executed scenarios. Whatever the baseline knows,
    a suite passes only if some scenario touches every declared risk, and a suite that
    would pass but for a risk no scenario touches is inconclusive.
   */
  method GateSuite(
    validates: Validator, spec: Spec, scenarios: seq<Scenario>, unmet: seq<UnmetRisk>,
    baseline: Option<seq<Case>>, executed: seq<Verdict>, current: seq<Case>
  ) returns (r: GateResult)
    requires unmet == UnmetListing(validates, spec, scenarios)
    requires baseline.Some? ==> Trusted(baseline.value) && Trusted(current)
    ensures r.decision == PASS
       <==> !NotCertifiable(baseline, executed, current) && !Regressed(baseline, executed, current)
            && Inconclusive !in executed && Evidenced(validates, spec, scenarios)
    ensures r.exitCode == EXIT_INCONCLUSIVE
       <==> !NotCertifiable(baseline, executed, current) && !Regressed(baseline, executed, current)
            && (Inconclusive in executed || !Evidenced(validates, spec, scenarios))
  {
    NothingListed(validates, spec, scenarios);
    NothingUnmet(validates, spec, scenarios);
    r := RunGate(baseline, executed, current, unmet);
  }

  /** Running more scenarios never takes the evidence for a declared risk away. */
  lemma {:induction false} EvidenceKept(validates: Validator, spec: Spec, a: seq<Scenario>, b: seq<Scenario>)
    requires multiset(a) <= multiset(b) && Evidenced(validates, spec, a)
    ensures Evidenced(validates, spec, b)
  {
    NothingUnmet(validates, spec, a);
    NothingUnmet(validates, spec, b);
    UnmetAntitone(validates, spec, a, b);
  }
}
