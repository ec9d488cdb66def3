/**
  What the categories of a comparison mean, and the balance of its report: every failure
  of either side is accounted for.
 */
module CompareFacts {
  import opened Bags
  import opened Compare
  import opened Gate

  /** The match was not touched by an infrastructure error the comparison looks at. */
  predicate Clean(m: Match) {
    (m.OnlyOld? || m.after.verdict != InfraError) && (m.Both? ==> m.before.verdict != InfraError)
  }

  predicate FailsBefore(m: Match) { !m.OnlyNew? && m.before.verdict == Fail }

  predicate FailsAfter(m: Match) { !m.OnlyOld? && m.after.verdict == Fail }

  /** The two cases were matched by scenario, their fingerprints differ. */
  predicate Moved(m: Match) { m.Both? && m.before.fingerprint != m.after.fingerprint }

  /** When a match falls into each category: what was before, what is after, and whether it moved. */
  lemma {:induction false} CategoryExactly(m: Match)
    ensures ItemOf(m).category == InfraChange <==> !Clean(m)
    ensures ItemOf(m).category == NewRegression <==> Clean(m) && FailsAfter(m) && !FailsBefore(m)
    ensures ItemOf(m).category == ChangedFailure
       <==> FailsAfter(m) && FailsBefore(m) && m.before.signature.Some? && m.after.signature.Some?
            && m.before.signature != m.after.signature
    ensures ItemOf(m).category == UncertifiableFailure
       <==> FailsAfter(m) && FailsBefore(m) && (m.before.signature.None? || m.after.signature.None?)
    ensures ItemOf(m).category == UnchangedFailure <==> m.Both? && KnownFailure(m.before, m.after) && !Moved(m)
    ensures ItemOf(m).category == ResolvedFailure <==> m.Both? && m.before.verdict == Fail && m.after.verdict == Pass
    ensures ItemOf(m).category == RemovedScenario <==> m.OnlyOld?
    ensures ItemOf(m).category == NewScenario <==> m.OnlyNew? && m.after.verdict == Pass
    ensures ItemOf(m).category == Unchanged
       <==> m.Both? && !Moved(m) && m.before.verdict == m.after.verdict && m.after.verdict in {Pass, Inconclusive}
    ensures ItemOf(m).category == ChangedScenario
       <==> m.Both? && Moved(m)
            && (KnownFailure(m.before, m.after) || (m.before.verdict == m.after.verdict && m.after.verdict in {Pass, Inconclusive}))
    ensures ItemOf(m).blocking <==> ItemOf(m).category in {NewRegression, ChangedFailure}
  {
  }

  // ---------------------------------------------------------------------------
  // The balance of the report
  // ---------------------------------------------------------------------------

  predicate IsInfra(i: Item) { i.category == InfraChange }

  predicate IsResolved(i: Item) { i.category == ResolvedFailure }

  predicate IsNewRegression(i: Item) { i.category == NewRegression }

  /** "Removed known failures". */
  predicate IsRemovedFailure(i: Item) { i.category == RemovedScenario && i.baselineVerdict == Some(Fail) }

  /** "FAIL -> INCONCLUSIVE". */
  predicate IsUndecidedFailure(i: Item) { i.baselineVerdict == Some(Fail) && i.currentVerdict == Some(Inconclusive) }

  lemma {:induction false} BalanceOfOne(m: Match)
    requires Clean(m)
    ensures Count(NewOf(m), IsFailure) + (if IsResolved(ItemOf(m)) then 1 else 0)
            + (if IsRemovedFailure(ItemOf(m)) then 1 else 0) + (if IsUndecidedFailure(ItemOf(m)) then 1 else 0)
         == Count(OldOf(m), IsFailure) + (if IsNewRegression(ItemOf(m)) then 1 else 0)
  {
  }

  lemma {:induction false} ItemsOfTail(ms: seq<Match>)
    requires ms != []
    ensures ItemsOf(ms)[0] == ItemOf(ms[0]) && ItemsOf(ms)[1..] == ItemsOf(ms[1..])
  {
  }

  lemma {:induction false} BalanceOfMatches(ms: seq<Match>)
    requires forall m :: m in ms ==> Clean(m)
    ensures Count(Gather(ms, NewOf), IsFailure) + Count(ItemsOf(ms), IsResolved)
            + Count(ItemsOf(ms), IsRemovedFailure) + Count(ItemsOf(ms), IsUndecidedFailure)
         == Count(Gather(ms, OldOf), IsFailure) + Count(ItemsOf(ms), IsNewRegression)
  {
    if ms != [] {
      assert ms[0] in ms && forall m :: m in ms[1..] ==> m in ms;
      BalanceOfMatches(ms[1..]);
      BalanceOfOne(ms[0]);
      ItemsOfTail(ms);
      CountSplit(NewOf(ms[0]), Gather(ms[1..], NewOf), IsFailure);
      CountSplit(OldOf(ms[0]), Gather(ms[1..], OldOf), IsFailure);
    }
  }

  /**
    Without infrastructure errors the printed report balances: the failures of the run,
    with those resolved, removed or no longer decided, are the failures of the baseline
    and the new regressions.
   */
  lemma {:induction false} ReportBalances(baseline: seq<Case>, current: seq<Case>, items: seq<Item>, ms: seq<Match>)
    requires Matching(baseline, current, ms) && multiset(items) == multiset(ItemsOf(ms))
    requires forall i :: i in items ==> !IsInfra(i)
    ensures Count(current, IsFailure) + Count(items, IsResolved)
            + Count(items, IsRemovedFailure) + Count(items, IsUndecidedFailure)
         == Count(baseline, IsFailure) + Count(items, IsNewRegression)
  {
    ItemsComeFromMatches(items, ms);
    forall m | m in ms ensures Clean(m) {
      CategoryExactly(m);
      assert ItemOf(m) in items;
    }
    BalanceOfMatches(ms);
    CountPermuted(Gather(ms, NewOf), current, IsFailure);
    CountPermuted(Gather(ms, OldOf), baseline, IsFailure);
    CountPermuted(items, ItemsOf(ms), IsResolved);
    CountPermuted(items, ItemsOf(ms), IsRemovedFailure);
    CountPermuted(items, ItemsOf(ms), IsUndecidedFailure);
    CountPermuted(items, ItemsOf(ms), IsNewRegression);
  }
}
