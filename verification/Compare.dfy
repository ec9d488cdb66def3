/**
  The comparison of an evaluation run with a trusted baseline
  (agentcheck/baseline/compare.py): two-stage matching of cases, classification of
  each match and the continuous-integration exit code.
 */
module Compare {
  import opened Bags
  import opened Text

  datatype Verdict = Pass | Fail | Inconclusive | InfraError

  /** One evaluated scenario; `signature` is the fingerprint of its failure signature. */
  datatype Case = Case(scenarioId: string, fingerprint: string, verdict: Verdict, signature: Option<string>)

  datatype Category =
    | NewRegression
    | ChangedFailure
    | UncertifiableFailure
    | UnchangedFailure
    | ResolvedFailure
    | ChangedScenario
    | NewScenario
    | RemovedScenario
    | InconclusiveChange
    | InfraChange
    | Unchanged

  datatype Item = Item(
    category: Category,
    scenarioId: string,
    fingerprint: string,
    baselineVerdict: Option<Verdict>,
    currentVerdict: Option<Verdict>,
    baselineSignature: Option<string>,
    currentSignature: Option<string>,
    blocking: bool
  )

  /** The cases one item is about: one from each side, or one that has no partner. */
  datatype Match =
    | Both(before: Case, after: Case)
    | OnlyNew(after: Case)
    | OnlyOld(before: Case)

  /** What the baseline contract enforces: fingerprints unique and ascending. */
  ghost predicate Trusted(cases: seq<Case>) {
    forall i, j :: 0 <= i < j < |cases| ==>
      cases[i].fingerprint != cases[j].fingerprint && Le(cases[i].fingerprint, cases[j].fingerprint)
  }

  // ---------------------------------------------------------------------------
  // Classification
  // ---------------------------------------------------------------------------

  function Classify(m: Match): (r: (Category, bool)) {
    if !m.OnlyOld? && m.after.verdict == InfraError then (InfraChange, false)
    else if m.Both? && m.before.verdict == InfraError then (InfraChange, false)
    else if m.OnlyOld? then (RemovedScenario, false)
    else if m.after.verdict == Fail then
      if m.OnlyNew? || m.before.verdict != Fail then (NewRegression, true)
      else if m.after.signature.Some? && m.before.signature.Some? then
        if m.before.signature == m.after.signature then
          (if m.before.fingerprint != m.after.fingerprint then ChangedScenario else UnchangedFailure, false)
        else (ChangedFailure, true)
      else (UncertifiableFailure, false)
    else if m.Both? && m.before.verdict == Fail && m.after.verdict == Pass then (ResolvedFailure, false)
    else if (m.after.verdict == Inconclusive || (m.Both? && m.before.verdict == Inconclusive))
            && (m.OnlyNew? || m.after.verdict != m.before.verdict) then (InconclusiveChange, false)
    else if m.OnlyNew? then (NewScenario, false)
    else if m.before.fingerprint != m.after.fingerprint then (ChangedScenario, false)
    else if m.after.verdict == m.before.verdict then (Unchanged, false)
    else (InconclusiveChange, false)
  }

  function ItemOf(m: Match): (i: Item) {
    var (category, blocking) := Classify(m);
    var shown := if m.OnlyOld? then m.before else m.after;
    Item(
      category, shown.scenarioId, shown.fingerprint,
      if m.OnlyNew? then None else Some(m.before.verdict),
      if m.OnlyOld? then None else Some(m.after.verdict),
      if m.OnlyNew? then None else m.before.signature,
      if m.OnlyOld? then None else m.after.signature,
      blocking)
  }

  function ItemsOf(ms: seq<Match>): (r: seq<Item>)
    ensures |r| == |ms|
  {
    seq(|ms|, i requires 0 <= i < |ms| => ItemOf(ms[i]))
  }

  // ---------------------------------------------------------------------------
  // What a matching is, independently of how it is computed
  // ---------------------------------------------------------------------------

  function OldOf(m: Match): (r: seq<Case>) { if m.OnlyNew? then [] else [m.before] }

  function NewOf(m: Match): (r: seq<Case>) { if m.OnlyOld? then [] else [m.after] }

  ghost predicate Known(cases: seq<Case>, fingerprint: string) {
    exists x :: x in cases && x.fingerprint == fingerprint
  }

  /** Among the cases the other side does not know, the last one of its scenario. */
  ghost predicate Latest(cases: seq<Case>, others: seq<Case>, x: Case) {
    x in cases && !Known(others, x.fingerprint)
    && forall y :: y in cases && y.scenarioId == x.scenarioId && !Known(others, y.fingerprint) ==>
         Le(y.fingerprint, x.fingerprint)
  }

  /** Cases match by fingerprint; what is left matches by scenario, latest with latest. */
  ghost predicate Paired(baseline: seq<Case>, current: seq<Case>, b: Case, c: Case) {
    (b in baseline && c in current && b.fingerprint == c.fingerprint)
    || (Latest(baseline, current, b) && Latest(current, baseline, c) && b.scenarioId == c.scenarioId)
  }

  /** Every case of either side in exactly one match, and cases together exactly when paired. */
  ghost predicate Matching(baseline: seq<Case>, current: seq<Case>, ms: seq<Match>) {
    && multiset(Gather(ms, OldOf)) == multiset(baseline)
    && multiset(Gather(ms, NewOf)) == multiset(current)
    && forall b, c :: Both(b, c) in ms <==> Paired(baseline, current, b, c)
  }

  // ---------------------------------------------------------------------------
  // The matching loops
  // ---------------------------------------------------------------------------

  method SortedKeys(keys: set<string>) returns (r: seq<string>)
    ensures r == Sorted(keys)
  {
    r := [];
    var rest := keys;
    while rest != {}
      invariant r + Sorted(rest) == Sorted(keys)
      decreases |rest|
    {
      LeastExists(rest);
      var m :| m in rest && IsLeast(rest, m);
      SortedHead(rest, m);
      Regroup(r, m, Sorted(rest - {m}));
      r := r + [m];
      rest := rest - {m};
    }
  }

  lemma {:induction false} Regroup<T>(a: seq<T>, x: T, b: seq<T>)
    ensures a + ([x] + b) == (a + [x]) + b
  {
  }

  method ByFingerprint(cases: seq<Case>) returns (table: map<string, Case>)
    requires Trusted(cases)
    ensures forall x :: x in cases ==> x.fingerprint in table && table[x.fingerprint] == x
    ensures forall f :: f in table ==> table[f] in cases && table[f].fingerprint == f
  {
    table := map[];
    for i := 0 to |cases|
      invariant forall x :: x in cases[..i] ==> x.fingerprint in table && table[x.fingerprint] == x
      invariant forall f :: f in table ==> table[f] in cases[..i] && table[f].fingerprint == f
    {
      assert cases[..i + 1] == cases[..i] + [cases[i]];
      table := table[cases[i].fingerprint := cases[i]];
    }
    assert cases[..|cases|] == cases;
  }

  /** The cases whose fingerprint is not used yet, by scenario; a later one replaces an earlier one. */
  method Leftover(cases: seq<Case>, used: set<string>) returns (table: map<string, Case>)
    requires Trusted(cases)
    ensures forall id :: id in table ==>
      table[id] in cases && table[id].scenarioId == id && table[id].fingerprint !in used
    ensures forall x :: x in cases && x.fingerprint !in used ==>
      x.scenarioId in table && Le(x.fingerprint, table[x.scenarioId].fingerprint)
  {
    table := map[];
    for i := 0 to |cases|
      invariant forall id :: id in table ==>
        table[id] in cases[..i] && table[id].scenarioId == id && table[id].fingerprint !in used
      invariant forall x :: x in cases[..i] && x.fingerprint !in used ==>
        x.scenarioId in table && Le(x.fingerprint, table[x.scenarioId].fingerprint)
    {
      assert cases[..i + 1] == cases[..i] + [cases[i]];
      if cases[i].fingerprint !in used {
        LeTotal(cases[i].fingerprint, cases[i].fingerprint);
        table := table[cases[i].scenarioId := cases[i]];
      }
    }
    assert cases[..|cases|] == cases;
  }

  lemma {:induction false} Extend(ms: seq<Match>, m: Match)
    ensures Gather(ms + [m], OldOf) == Gather(ms, OldOf) + OldOf(m)
    ensures Gather(ms + [m], NewOf) == Gather(ms, NewOf) + NewOf(m)
  {
    GatherSplit(ms, [m], OldOf);
    GatherSplit(ms, [m], NewOf);
  }

  lemma {:induction false} ItemsExtend(ms: seq<Match>, m: Match)
    ensures ItemsOf(ms + [m]) == ItemsOf(ms) + [ItemOf(m)]
  {
  }

  /** The cases of one side whose fingerprint has been used. */
  ghost function Used(cases: seq<Case>, used: set<string>): (r: set<Case>) {
    set x | x in cases && x.fingerprint in used
  }

  /** The two sides `ms` covers, each case once. */
  ghost predicate Covers(ms: seq<Match>, olds: set<Case>, news: set<Case>) {
    multiset(Gather(ms, OldOf)) == multiset(olds) && multiset(Gather(ms, NewOf)) == multiset(news)
  }

  lemma {:induction false} OneMore<T>(s: set<T>, x: T)
    requires x !in s
    ensures multiset(s + {x}) == multiset(s) + multiset{x}
  {
  }

  lemma {:induction false} CoverBoth(ms: seq<Match>, olds: set<Case>, news: set<Case>, b: Case, c: Case)
    requires Covers(ms, olds, news) && b !in olds && c !in news
    ensures Covers(ms + [Both(b, c)], olds + {b}, news + {c})
  {
    Extend(ms, Both(b, c));
    OneMore(olds, b);
    OneMore(news, c);
  }

  lemma {:induction false} CoverNew(ms: seq<Match>, olds: set<Case>, news: set<Case>, c: Case)
    requires Covers(ms, olds, news) && c !in news
    ensures Covers(ms + [OnlyNew(c)], olds, news + {c})
  {
    Extend(ms, OnlyNew(c));
    OneMore(news, c);
  }

  lemma {:induction false} CoverOld(ms: seq<Match>, olds: set<Case>, news: set<Case>, b: Case)
    requires Covers(ms, olds, news) && b !in olds
    ensures Covers(ms + [OnlyOld(b)], olds + {b}, news)
  {
    Extend(ms, OnlyOld(b));
    OneMore(olds, b);
  }

  lemma {:induction false} TrustedUnique(cases: seq<Case>, x: Case, y: Case)
    requires Trusted(cases) && x in cases && y in cases && x.fingerprint == y.fingerprint
    ensures x == y
  {
    var i :| 0 <= i < |cases| && cases[i] == x;
    var j :| 0 <= j < |cases| && cases[j] == y;
  }

  lemma {:induction false} TrustedTail(cases: seq<Case>)
    requires Trusted(cases) && cases != []
    ensures Trusted(cases[1..]) && cases[0] !in cases[1..]
  {
    var rest := cases[1..];
    forall x | x in rest ensures x != cases[0] {
      var i :| 0 <= i < |rest| && rest[i] == x;
      assert cases[i + 1] == x;
    }
  }

  lemma {:induction false} EachOnce(cases: seq<Case>)
    requires Trusted(cases)
    ensures multiset(cases) == multiset(set x | x in cases)
  {
    if cases != [] {
      var rest := cases[1..];
      TrustedTail(cases);
      EachOnce(rest);
      HeadOnce(cases);
    }
  }

  lemma {:induction false} HeadOnce(cases: seq<Case>)
    requires cases != [] && cases[0] !in cases[1..]
    requires multiset(cases[1..]) == multiset(set x | x in cases[1..])
    ensures multiset(cases) == multiset(set x | x in cases)
  {
    HeadApart(cases);
    assert cases == [cases[0]] + cases[1..];
    assert (set x | x in cases) == (set x | x in cases[1..]) + {cases[0]};
  }

  lemma {:induction false} UsedGrows(cases: seq<Case>, used: set<string>, x: Case)
    requires Trusted(cases) && x in cases
    ensures Used(cases, used + {x.fingerprint}) == Used(cases, used) + {x}
  {
    forall y | y in cases && y.fingerprint == x.fingerprint ensures y == x { TrustedUnique(cases, x, y); }
  }

  lemma {:induction false} KnownIsKey(cases: seq<Case>, table: map<string, Case>, f: string)
    requires forall x :: x in cases ==> x.fingerprint in table && table[x.fingerprint] == x
    requires forall g :: g in table ==> table[g] in cases && table[g].fingerprint == g
    ensures Known(cases, f) <==> f in table
  {
  }

  /** `ms` holds exactly the pairs whose common fingerprint is used. */
  ghost predicate SameFingerprint(baseline: seq<Case>, current: seq<Case>, ms: seq<Match>, used: set<string>) {
    forall m :: m in ms <==>
      m.Both? && m.before in baseline && m.after in current
      && m.before.fingerprint == m.after.fingerprint && m.before.fingerprint in used
  }

  lemma {:induction false} SameFingerprintStep(
    baseline: seq<Case>, current: seq<Case>, ms: seq<Match>, used: set<string>, b: Case, c: Case
  )
    requires Trusted(baseline) && Trusted(current) && b in baseline && c in current
    requires b.fingerprint == c.fingerprint && b.fingerprint !in used
    requires SameFingerprint(baseline, current, ms, used) && Covers(ms, Used(baseline, used), Used(current, used))
    ensures SameFingerprint(baseline, current, ms + [Both(b, c)], used + {b.fingerprint})
    ensures Covers(ms + [Both(b, c)], Used(baseline, used + {b.fingerprint}), Used(current, used + {b.fingerprint}))
  {
    CoverBoth(ms, Used(baseline, used), Used(current, used), b, c);
    UsedGrows(baseline, used, b);
    UsedGrows(current, used, c);
    forall m: Match | m.Both? && m.before in baseline && m.after in current
               && m.before.fingerprint == m.after.fingerprint == b.fingerprint
      ensures m == Both(b, c)
    {
      TrustedUnique(baseline, m.before, b);
      TrustedUnique(current, m.after, c);
    }
  }

  /** `used` holds the first `i` keys. */
  ghost predicate Listed(order: seq<string>, i: nat, used: set<string>)
    requires i <= |order|
  {
    forall f :: f in used <==> f in order[..i]
  }

  lemma {:induction false} ListedStep(order: seq<string>, i: nat, used: set<string>)
    requires i < |order| && Listed(order, i, used)
    requires forall k, j :: 0 <= k < j < |order| ==> order[k] != order[j]
    ensures order[i] in order && order[i] !in used && Listed(order, i + 1, used + {order[i]})
  {
    assert order[..i + 1] == order[..i] + [order[i]];
    forall f | f in order[..i] ensures f != order[i] {
      var k :| 0 <= k < i && order[..i][k] == f;
    }
  }

  lemma {:induction false} ListedAll(order: seq<string>, used: set<string>, all: set<string>)
    requires Listed(order, |order|, used) && forall f :: f in order <==> f in all
    ensures used == all
  {
    assert order[..|order|] == order;
  }

  /** Match by fingerprint: every common fingerprint, in ascending order. */
  method MatchFingerprints(baseline: seq<Case>, current: seq<Case>)
      returns (items: seq<Item>, common: set<string>, ghost ms: seq<Match>)
    requires Trusted(baseline) && Trusted(current)
    ensures items == ItemsOf(ms)
    ensures forall f :: f in common <==> Known(baseline, f) && Known(current, f)
    ensures Covers(ms, Used(baseline, common), Used(current, common))
    ensures SameFingerprint(baseline, current, ms, common)
  {
    var olds := ByFingerprint(baseline);
    var news := ByFingerprint(current);
    common := olds.Keys * news.Keys;
    forall f ensures f in common <==> Known(baseline, f) && Known(current, f) {
      KnownIsKey(baseline, olds, f);
      KnownIsKey(current, news, f);
    }
    var order := SortedKeys(common);
    SortedAscending(common);
    items, ms := [], [];
    ghost var used: set<string> := {};
    for i := 0 to |order|
      invariant items == ItemsOf(ms)
      invariant Listed(order, i, used)
      invariant SameFingerprint(baseline, current, ms, used)
      invariant Covers(ms, Used(baseline, used), Used(current, used))
    {
      ListedStep(order, i, used);
      var left, right := olds[order[i]], news[order[i]];
      SameFingerprintStep(baseline, current, ms, used, left, right);
      ItemsExtend(ms, Both(left, right));
      items := items + [ItemOf(Both(left, right))];
      ms := ms + [Both(left, right)];
      used := used + {order[i]};
    }
    ListedAll(order, used, common);
  }

  /** What `Leftover` keeps for a scenario is the latest case the other side does not know. */
  lemma {:induction false} LatestIsKept(
    cases: seq<Case>, others: seq<Case>, common: set<string>, table: map<string, Case>, x: Case
  )
    requires Trusted(cases)
    requires forall f :: f in common <==> Known(cases, f) && Known(others, f)
    requires forall id :: id in table ==>
      table[id] in cases && table[id].scenarioId == id && table[id].fingerprint !in common
    requires forall y :: y in cases && y.fingerprint !in common ==>
      y.scenarioId in table && Le(y.fingerprint, table[y.scenarioId].fingerprint)
    ensures Latest(cases, others, x) <==> x.scenarioId in table && table[x.scenarioId] == x
  {
    forall y | y in cases ensures y.fingerprint in common <==> Known(others, y.fingerprint) {}
    if Latest(cases, others, x) {
      var kept := table[x.scenarioId];
      LeTotal(kept.fingerprint, x.fingerprint);
      TrustedUnique(cases, kept, x);
    }
  }

  ghost predicate JoinedBy(baseline: seq<Case>, current: seq<Case>, b: Case, c: Case, ids: set<string>) {
    (b in baseline && c in current && b.fingerprint == c.fingerprint)
    || (Latest(baseline, current, b) && Latest(current, baseline, c) && b.scenarioId == c.scenarioId && c.scenarioId in ids)
  }

  /** `ms` holds every match by fingerprint, and the scenario matches of `ids`. */
  ghost predicate JoinedUpTo(baseline: seq<Case>, current: seq<Case>, ms: seq<Match>, ids: set<string>) {
    forall m :: m in ms <==> m.Both? && JoinedBy(baseline, current, m.before, m.after, ids)
  }

  lemma {:induction false} JoinedStart(baseline: seq<Case>, current: seq<Case>, ms: seq<Match>, common: set<string>)
    requires SameFingerprint(baseline, current, ms, common)
    requires forall f :: f in common <==> Known(baseline, f) && Known(current, f)
    ensures JoinedUpTo(baseline, current, ms, {})
  {
    forall m: Match | m.Both? && m.before in baseline && m.after in current
                      && m.before.fingerprint == m.after.fingerprint
      ensures m.before.fingerprint in common
    {
      assert Known(baseline, m.before.fingerprint) && Known(current, m.before.fingerprint);
    }
  }

  lemma {:induction false} LatestUnique(cases: seq<Case>, others: seq<Case>, x: Case, y: Case)
    requires Trusted(cases) && Latest(cases, others, x) && Latest(cases, others, y) && x.scenarioId == y.scenarioId
    ensures x == y
  {
    LeTotal(x.fingerprint, y.fingerprint);
    TrustedUnique(cases, x, y);
  }

  lemma {:induction false} JoinedStep(
    baseline: seq<Case>, current: seq<Case>, ms: seq<Match>, ids: set<string>, b: Case, c: Case
  )
    requires Trusted(baseline) && Trusted(current)
    requires Latest(baseline, current, b) && Latest(current, baseline, c) && b.scenarioId == c.scenarioId
    requires JoinedUpTo(baseline, current, ms, ids)
    ensures JoinedUpTo(baseline, current, ms + [Both(b, c)], ids + {c.scenarioId})
  {
    forall m: Match | m.Both? && Latest(baseline, current, m.before) && Latest(current, baseline, m.after)
                      && m.before.scenarioId == m.after.scenarioId == c.scenarioId
      ensures m == Both(b, c)
    {
      LatestUnique(baseline, current, m.before, b);
      LatestUnique(current, baseline, m.after, c);
    }
  }

  /** The used fingerprints of one side: the common ones and those of the scenarios in `ids`. */
  ghost predicate UsedUpTo(
    cases: seq<Case>, used: set<string>, common: set<string>, table: map<string, Case>, ids: set<string>
  ) {
    ids <= table.Keys
    && forall x :: x in cases && x.fingerprint in used ==>
         x.fingerprint in common || (x.scenarioId in ids && table[x.scenarioId] == x)
  }

  lemma {:induction false} UsedStep(
    cases: seq<Case>, used: set<string>, common: set<string>, table: map<string, Case>, ids: set<string>,
    id: string
  )
    requires Trusted(cases) && UsedUpTo(cases, used, common, table, ids)
    requires id in table && id !in ids
    requires table[id] in cases && table[id].scenarioId == id && table[id].fingerprint !in common
    ensures table[id] !in Used(cases, used)
    ensures UsedUpTo(cases, used + {table[id].fingerprint}, common, table, ids + {id})
    ensures Used(cases, used + {table[id].fingerprint}) == Used(cases, used) + {table[id]}
  {
    UsedGrows(cases, used, table[id]);
    forall x | x in cases && x.fingerprint == table[id].fingerprint ensures x == table[id] {
      TrustedUnique(cases, x, table[id]);
    }
  }

  /** Match what is left by scenario, in ascending scenario order. */
  method MatchScenarios(
    baseline: seq<Case>, current: seq<Case>, items: seq<Item>, common: set<string>, ghost ms: seq<Match>
  )
      returns (items': seq<Item>, usedBaseline: set<string>, usedCurrent: set<string>, ghost ms': seq<Match>)
    requires Trusted(baseline) && Trusted(current) && items == ItemsOf(ms)
    requires forall f :: f in common <==> Known(baseline, f) && Known(current, f)
    requires Covers(ms, Used(baseline, common), Used(current, common))
    requires SameFingerprint(baseline, current, ms, common)
    ensures items' == ItemsOf(ms')
    ensures Covers(ms', Used(baseline, usedBaseline), Used(current, usedCurrent))
    ensures forall m :: m in ms' <==> m.Both? && Paired(baseline, current, m.before, m.after)
  {
    var olds := Leftover(baseline, common);
    var news := Leftover(current, common);
    forall x ensures Latest(baseline, current, x) <==> x.scenarioId in olds && olds[x.scenarioId] == x {
      LatestIsKept(baseline, current, common, olds, x);
    }
    forall x ensures Latest(current, baseline, x) <==> x.scenarioId in news && news[x.scenarioId] == x {
      LatestIsKept(current, baseline, common, news, x);
    }
    var order := SortedKeys(olds.Keys * news.Keys);
    SortedAscending(olds.Keys * news.Keys);
    items', ms', usedBaseline, usedCurrent := items, ms, common, common;
    ghost var ids: set<string> := {};
    JoinedStart(baseline, current, ms, common);
    for i := 0 to |order|
      invariant items' == ItemsOf(ms')
      invariant Listed(order, i, ids)
      invariant UsedUpTo(baseline, usedBaseline, common, olds, ids)
      invariant UsedUpTo(current, usedCurrent, common, news, ids)
      invariant Covers(ms', Used(baseline, usedBaseline), Used(current, usedCurrent))
      invariant JoinedUpTo(baseline, current, ms', ids)
    {
      var id := order[i];
      ListedStep(order, i, ids);
      var left, right := olds[id], news[id];
      UsedStep(baseline, usedBaseline, common, olds, ids, id);
      UsedStep(current, usedCurrent, common, news, ids, id);
      CoverBoth(ms', Used(baseline, usedBaseline), Used(current, usedCurrent), left, right);
      JoinedStep(baseline, current, ms', ids, left, right);
      ItemsExtend(ms', Both(left, right));
      usedBaseline := usedBaseline + {left.fingerprint};
      usedCurrent := usedCurrent + {right.fingerprint};
      items' := items' + [ItemOf(Both(left, right))];
      ms' := ms' + [Both(left, right)];
      ids := ids + {id};
    }
    ListedAll(order, ids, olds.Keys * news.Keys);
    JoinedIsPaired(baseline, current, ms', ids);
  }

  lemma {:induction false} JoinedIsPaired(baseline: seq<Case>, current: seq<Case>, ms: seq<Match>, ids: set<string>)
    requires JoinedUpTo(baseline, current, ms, ids)
    requires forall b, c :: Latest(baseline, current, b) && Latest(current, baseline, c) && b.scenarioId == c.scenarioId
               ==> c.scenarioId in ids
    ensures forall m :: m in ms <==> m.Both? && Paired(baseline, current, m.before, m.after)
  {
  }

  // ---------------------------------------------------------------------------
  // The comparison
  // ---------------------------------------------------------------------------

  function CategoryOrder(c: Category): (n: nat) {
    match c
    case NewRegression => 0
    case ChangedFailure => 1
    case UncertifiableFailure => 2
    case UnchangedFailure => 3
    case ResolvedFailure => 4
    case ChangedScenario => 5
    case NewScenario => 6
    case RemovedScenario => 7
    case InconclusiveChange => 8
    case InfraChange => 9
    case Unchanged => 10
  }

  /** The report order: by category, then fingerprint, then scenario. */
  predicate Before(a: Item, b: Item) {
    var x, y := CategoryOrder(a.category), CategoryOrder(b.category);
    x < y || (x == y && (if a.fingerprint == b.fingerprint then Le(a.scenarioId, b.scenarioId)
                         else Le(a.fingerprint, b.fingerprint)))
  }

  lemma {:induction false} BeforeIsOrder()
    ensures Order(Before)
  {
    forall a, b ensures Before(a, b) || Before(b, a) {
      LeTotal(a.fingerprint, b.fingerprint);
      LeTotal(a.scenarioId, b.scenarioId);
    }
    forall a, b, c | Before(a, b) && Before(b, c) ensures Before(a, c) { BeforeTransitive(a, b, c); }
  }

  lemma {:induction false} BeforeTransitive(a: Item, b: Item, c: Item)
    requires Before(a, b) && Before(b, c)
    ensures Before(a, c)
  {
    LeTotal(a.fingerprint, b.fingerprint);
    if Le(a.fingerprint, b.fingerprint) && Le(b.fingerprint, c.fingerprint) {
      LeTransitive(a.fingerprint, b.fingerprint, c.fingerprint);
    }
    if Le(a.scenarioId, b.scenarioId) && Le(b.scenarioId, c.scenarioId) {
      LeTransitive(a.scenarioId, b.scenarioId, c.scenarioId);
    }
  }

  /** The matches that join two cases are exactly the pairs. */
  ghost predicate Joined(baseline: seq<Case>, current: seq<Case>, ms: seq<Match>) {
    forall b, c :: Both(b, c) in ms <==> Paired(baseline, current, b, c)
  }

  /** The cases of one side dealt with after the first `i` were looked at. */
  ghost function Taken(cases: seq<Case>, used: set<string>, i: nat): (r: set<Case>)
    requires i <= |cases|
  {
    set x | x in cases && (x.fingerprint in used || x in cases[..i])
  }

  lemma {:induction false} TakeOne(cases: seq<Case>, used: set<string>, i: nat)
    requires Trusted(cases) && i < |cases|
    ensures cases[i].fingerprint !in used ==> cases[i] !in Taken(cases, used, i)
    ensures Taken(cases, used, i + 1) == Taken(cases, used, i) + {cases[i]}
  {
    assert cases[..i + 1] == cases[..i] + [cases[i]];
    forall x | x in cases[..i] ensures x != cases[i] {
      var k :| 0 <= k < i && cases[..i][k] == x;
    }
  }

  lemma {:induction false} AllTaken(cases: seq<Case>, used: set<string>)
    requires Trusted(cases)
    ensures multiset(Taken(cases, used, |cases|)) == multiset(cases)
  {
    assert cases[..|cases|] == cases;
    assert Taken(cases, used, |cases|) == (set x | x in cases);
    EachOnce(cases);
  }

  /** Current cases without a partner, in their own order. */
  method AppendNew(current: seq<Case>, items: seq<Item>, used: set<string>, ghost ms: seq<Match>, ghost olds: set<Case>)
      returns (items': seq<Item>, ghost ms': seq<Match>)
    requires Trusted(current) && items == ItemsOf(ms) && Covers(ms, olds, Used(current, used))
    ensures items' == ItemsOf(ms') && multiset(Gather(ms', OldOf)) == multiset(olds)
    ensures multiset(Gather(ms', NewOf)) == multiset(current)
    ensures forall b, c :: Both(b, c) in ms' <==> Both(b, c) in ms
  {
    items', ms' := items, ms;
    assert Taken(current, used, 0) == Used(current, used);
    for i := 0 to |current|
      invariant items' == ItemsOf(ms') && Covers(ms', olds, Taken(current, used, i))
      invariant forall b, c :: Both(b, c) in ms' <==> Both(b, c) in ms
    {
      TakeOne(current, used, i);
      if current[i].fingerprint !in used {
        CoverNew(ms', olds, Taken(current, used, i), current[i]);
        ItemsExtend(ms', OnlyNew(current[i]));
        items' := items' + [ItemOf(OnlyNew(current[i]))];
        ms' := ms' + [OnlyNew(current[i])];
      } else {
        assert Taken(current, used, i + 1) == Taken(current, used, i);
      }
    }
    AllTaken(current, used);
  }

  /** Baseline cases without a partner, in their own order. */
  method AppendOld(
    baseline: seq<Case>, items: seq<Item>, used: set<string>, ghost ms: seq<Match>, ghost news: set<Case>
  )
      returns (items': seq<Item>, ghost ms': seq<Match>)
    requires Trusted(baseline) && items == ItemsOf(ms) && Covers(ms, Used(baseline, used), news)
    ensures items' == ItemsOf(ms') && multiset(Gather(ms', NewOf)) == multiset(news)
    ensures multiset(Gather(ms', OldOf)) == multiset(baseline)
    ensures forall b, c :: Both(b, c) in ms' <==> Both(b, c) in ms
  {
    items', ms' := items, ms;
    assert Taken(baseline, used, 0) == Used(baseline, used);
    for i := 0 to |baseline|
      invariant items' == ItemsOf(ms') && Covers(ms', Taken(baseline, used, i), news)
      invariant forall b, c :: Both(b, c) in ms' <==> Both(b, c) in ms
    {
      TakeOne(baseline, used, i);
      if baseline[i].fingerprint !in used {
        CoverOld(ms', Taken(baseline, used, i), news, baseline[i]);
        ItemsExtend(ms', OnlyOld(baseline[i]));
        items' := items' + [ItemOf(OnlyOld(baseline[i]))];
        ms' := ms' + [OnlyOld(baseline[i])];
      } else {
        assert Taken(baseline, used, i + 1) == Taken(baseline, used, i);
      }
    }
    AllTaken(baseline, used);
  }

  method ComparisonItems(baseline: seq<Case>, current: seq<Case>) returns (items: seq<Item>, ghost ms: seq<Match>)
    requires Trusted(baseline) && Trusted(current)
    ensures Matching(baseline, current, ms)
    ensures Ordered(items, Before) && multiset(items) == multiset(ItemsOf(ms))
  {
    var all, common;
    all, common, ms := MatchFingerprints(baseline, current);
    var usedBaseline, usedCurrent;
    all, usedBaseline, usedCurrent, ms := MatchScenarios(baseline, current, all, common, ms);
    assert Joined(baseline, current, ms);
    all, ms := AppendNew(current, all, usedCurrent, ms, Used(baseline, usedBaseline));
    EachOnce(current);
    all, ms := AppendOld(baseline, all, usedBaseline, ms, set x | x in current);
    BeforeIsOrder();
    items := SortBy(all, Before);
  }
}
