/**
  Predicts which controlled outcomes repeated calls of one tool would receive
  (`_controlled_slots` and `_selected_trace`): the gateway's greedy, budgeted
  selection, which consumes a slot per call and refuses a tied best score.
 */
module Trace {
  import opened Bags
  import opened Json
  import opened Domain

  /** One controlled outcome, without its place in the list. */
  datatype Slot = Slot(
    tool: string,
    invocation: Option<nat>,
    arguments: Json,
    status: SimulatedStatus,
    errorCode: Option<string>,
    evidence: string,
    priority: int,
    latency: real,
    hasStateEffects: bool)

  datatype Placed = Placed(slot: Slot, position: nat)

  datatype Score = Score(priority: int, indexed: int, specificity: int)

  // ---------------------------------------------------------------------------
  // Slots
  // ---------------------------------------------------------------------------

  function ShadowedCalls(faults: seq<Fault>): (r: set<(string, nat)>) {
    set f | f in faults :: (f.tool, f.invocation)
  }

  /** A fixture survives unless a fault targets the same tool at the same explicit invocation. */
  function FixtureSlots(shadowed: set<(string, nat)>): (f: Fixture -> seq<Slot>) {
    (x: Fixture) =>
      if x.invocation.Some? && (x.tool, x.invocation.value) in shadowed then []
      else [Slot(x.tool, x.invocation, x.arguments, x.status, x.errorCode, "fixture:" + x.id,
                 x.priority, x.latency, x.hasStateEffects)]
  }

  function FaultStatus(kind: FaultType): (s: SimulatedStatus) {
    match kind
    case ErrorFault => Error
    case TimeoutFault => Timeout
    case MalformedResponse => Malformed
    case EmptyResponse => Empty
    case PartialResponse => Partial
    case StaleResponse => Stale
  }

  /** An injected timeout keeps the plain "timeout" code; it is never upgraded to an ambiguous one. */
  function FaultErrorCode(kind: FaultType): (c: Option<string>) {
    match kind
    case ErrorFault => Some("error")
    case TimeoutFault => Some("timeout")
    case _ => None
  }

  function FaultSlot(x: Fault): (r: seq<Slot>) {
    [Slot(x.tool, Some(x.invocation), Obj([]), FaultStatus(x.kind), FaultErrorCode(x.kind),
          "fault:" + x.id, 100, x.latency.GetOr(0.0), false)]
  }

  function ControlledSlots(s: Scenario): (r: seq<Slot>) {
    Gather(s.fixtures, FixtureSlots(ShadowedCalls(s.faults))) + Gather(s.faults, FaultSlot)
  }

  /** The slots of one tool, each with its position among all slots from `start` on. */
  function PlacedFor(slots: seq<Slot>, tool: string, start: nat): (r: seq<Placed>)
    ensures forall i :: 0 <= i < |r| ==> start <= r[i].position < start + |slots|
    ensures forall i, j :: 0 <= i < j < |r| ==> r[i].position < r[j].position
  {
    if slots == [] then []
    else (if slots[0].tool == tool then [Placed(slots[0], start)] else [])
         + PlacedFor(slots[1..], tool, start + 1)
  }

  function Contents(ps: seq<Placed>): (r: seq<Slot>)
    ensures |r| == |ps|
    ensures forall i :: 0 <= i < |r| ==> r[i] == ps[i].slot
  {
    seq(|ps|, i requires 0 <= i < |ps| => ps[i].slot)
  }

  function OfTool(tool: string): (f: Slot -> seq<Slot>) {
    (x: Slot) => if x.tool == tool then [x] else []
  }

  function SlotsFor(s: Scenario, tool: string): (r: seq<Slot>) {
    Gather(ControlledSlots(s), OfTool(tool))
  }

  lemma {:induction false} PlacedContents(slots: seq<Slot>, tool: string, start: nat)
    ensures Contents(PlacedFor(slots, tool, start)) == Gather(slots, OfTool(tool))
  {
    if slots != [] {
      PlacedContents(slots[1..], tool, start + 1);
    }
  }

  /** Reordering fixtures and faults keeps the bag of one tool's slots. */
  lemma {:induction false} SlotsPermuted(s: Scenario, t: Scenario, tool: string)
    requires multiset(s.fixtures) == multiset(t.fixtures)
    requires multiset(s.faults) == multiset(t.faults)
    ensures multiset(SlotsFor(s, tool)) == multiset(SlotsFor(t, tool))
  {
    forall f: Fault ensures f in s.faults <==> f in t.faults {
      assert f in s.faults <==> f in multiset(s.faults);
      assert f in t.faults <==> f in multiset(t.faults);
    }
    assert ShadowedCalls(s.faults) == ShadowedCalls(t.faults);
    GatherPermuted(s.fixtures, t.fixtures, FixtureSlots(ShadowedCalls(s.faults)));
    GatherPermuted(s.faults, t.faults, FaultSlot);
    GatherPermuted(ControlledSlots(s), ControlledSlots(t), OfTool(tool));
  }

  // ---------------------------------------------------------------------------
  // The specification: selection from a bag of slots
  // ---------------------------------------------------------------------------

  predicate Matches(x: Slot, invocation: nat, arguments: Json) {
    (x.invocation.None? || x.invocation.value == invocation) && Subset(x.arguments, arguments)
  }

  function ScoreOf(x: Slot): (r: Score) {
    Score(x.priority, if x.invocation.Some? then 1 else 0, Specificity(x.arguments))
  }

  predicate Below(a: Score, b: Score) {
    a.priority < b.priority
    || (a.priority == b.priority
        && (a.indexed < b.indexed || (a.indexed == b.indexed && a.specificity < b.specificity)))
  }

  /** `w` matches, occurs once, and every other matching slot scores strictly lower. */
  ghost predicate Winner(pool: multiset<Slot>, invocation: nat, arguments: Json, w: Slot) {
    pool[w] == 1 && Matches(w, invocation, arguments)
    && forall x :: x in pool && x != w && Matches(x, invocation, arguments) ==> Below(ScoreOf(x), ScoreOf(w))
  }

  lemma {:induction false} WinnerUnique(pool: multiset<Slot>, invocation: nat, arguments: Json, v: Slot, w: Slot)
    requires Winner(pool, invocation, arguments, v) && Winner(pool, invocation, arguments, w)
    ensures v == w
  {
  }

  /** The one best slot, if the best score is not tied. */
  ghost function Chosen(pool: multiset<Slot>, invocation: nat, arguments: Json): (r: Option<Slot>)
    ensures r.Some? ==> Winner(pool, invocation, arguments, r.value)
    ensures r.None? ==> forall w :: !Winner(pool, invocation, arguments, w)
  {
    if w :| Winner(pool, invocation, arguments, w) then Some(w) else None
  }

  function After(elapsed: real, latency: real): real { elapsed + latency }

  /** Picks a slot of the pool for a call. */
  type Chooser = (multiset<Slot>, nat) -> Option<Slot>

  ghost function ChooserFor(arguments: Json): (c: Chooser) {
    (pool: multiset<Slot>, invocation: nat) => Chosen(pool, invocation, arguments)
  }

  /** The outcomes calls `invocation..last` draw from `pool`, within the wall clock and up to a state effect. */
  ghost function Drawn(
    choose: Chooser, pool: multiset<Slot>, invocation: nat, last: nat, elapsed: real, wall: real
  ): (r: seq<Slot>)
    decreases last + 1 - invocation
  {
    if invocation > last then []
    else
      match choose(pool, invocation)
      case None => []
      case Some(w) =>
        if After(elapsed, w.latency) > wall then []
        else if w.hasStateEffects then [w]
        else [w] + Drawn(choose, pool - multiset{w}, invocation + 1, last, After(elapsed, w.latency), wall)
  }

  /** The outcomes calls `invocation..last` receive from `pool`. */
  ghost function Selection(
    pool: multiset<Slot>, arguments: Json, invocation: nat, last: nat, elapsed: real, wall: real
  ): (r: seq<Slot>)
  {
    Drawn(ChooserFor(arguments), pool, invocation, last, elapsed, wall)
  }

  predicate SchemaAllows(validates: Validator, tool: Option<Tool>, arguments: Json) {
    tool.Some? && tool.value.canReplace && validates(tool.value.schema, arguments)
  }

  predicate Callable(validates: Validator, tool: Option<Tool>, toolName: string, arguments: Json, count: int) {
    count >= 1 && tool.Some? && tool.value.name == toolName && SchemaAllows(validates, tool, arguments)
  }

  function Millis(seconds: real): real { seconds * 1000.0 }

  function Min(a: int, b: int): int { if a < b then a else b }

  ghost function TraceOf(
    validates: Validator, s: Scenario, tool: Option<Tool>, toolName: string, arguments: Json, count: int
  ): (r: seq<Slot>) {
    if !Callable(validates, tool, toolName, arguments, count) then []
    else
      Selection(multiset(SlotsFor(s, toolName)), arguments, 1, Min(count, s.maxToolCalls), 0.0,
                Millis(s.wallClockSeconds))
  }

  // ---------------------------------------------------------------------------
  // The loop
  // ---------------------------------------------------------------------------

  /** The bag of slot contents whose positions are still unused. */
  function Pool(ps: seq<Placed>, used: set<nat>): (r: multiset<Slot>) {
    if ps == [] then multiset{}
    else (if ps[0].position in used then multiset{} else multiset{ps[0].slot}) + Pool(ps[1..], used)
  }

  function Candidates(ps: seq<Placed>, used: set<nat>, invocation: nat, arguments: Json): (r: seq<Placed>) {
    if ps == [] then []
    else if ps[0].position !in used && Matches(ps[0].slot, invocation, arguments) then
      [ps[0]] + Candidates(ps[1..], used, invocation, arguments)
    else Candidates(ps[1..], used, invocation, arguments)
  }

  lemma {:induction false} CandidatesSplit(
    a: seq<Placed>, b: seq<Placed>, used: set<nat>, invocation: nat, arguments: Json
  )
    ensures Candidates(a + b, used, invocation, arguments)
         == Candidates(a, used, invocation, arguments) + Candidates(b, used, invocation, arguments)
  {
    if a == [] {
      assert a + b == b;
    } else {
      assert (a + b)[1..] == a[1..] + b;
      CandidatesSplit(a[1..], b, used, invocation, arguments);
    }
  }

  function MaxScore(cs: seq<Placed>): (m: Score)
    requires cs != []
    ensures exists i :: 0 <= i < |cs| && ScoreOf(cs[i].slot) == m
    ensures forall i :: 0 <= i < |cs| ==> ScoreOf(cs[i].slot) == m || Below(ScoreOf(cs[i].slot), m)
  {
    var head := ScoreOf(cs[0].slot);
    if |cs| == 1 then head
    else
      var rest := MaxScore(cs[1..]);
      var m := if Below(head, rest) then rest else head;
      assert forall i :: 1 <= i < |cs| ==> cs[i] == cs[1..][i - 1];
      assert exists i :: 0 <= i < |cs| && ScoreOf(cs[i].slot) == m by {
        if m == rest {
          var i :| 0 <= i < |cs[1..]| && ScoreOf(cs[1..][i].slot) == m;
          assert ScoreOf(cs[i + 1].slot) == m;
        }
      }
      m
  }

  function AtScore(cs: seq<Placed>, m: Score): (r: seq<Placed>)
    ensures forall p :: p in r <==> p in cs && ScoreOf(p.slot) == m
  {
    if cs == [] then []
    else if ScoreOf(cs[0].slot) == m then [cs[0]] + AtScore(cs[1..], m)
    else AtScore(cs[1..], m)
  }

  /** A slot content occurs among the candidates as often as in the pool, or not at all. */
  lemma {:induction false} CandidateCount(ps: seq<Placed>, used: set<nat>, invocation: nat, arguments: Json, x: Slot)
    ensures multiset(Contents(Candidates(ps, used, invocation, arguments)))[x]
         == if Matches(x, invocation, arguments) then Pool(ps, used)[x] else 0
  {
    if ps != [] {
      CandidateCount(ps[1..], used, invocation, arguments, x);
      ContentsHead(ps[0], Candidates(ps[1..], used, invocation, arguments));
    }
  }

  lemma {:induction false} AtScoreCount(cs: seq<Placed>, m: Score, x: Slot)
    ensures multiset(Contents(AtScore(cs, m)))[x] == if ScoreOf(x) == m then multiset(Contents(cs))[x] else 0
  {
    if cs != [] {
      var head, tail, kept := cs[0], cs[1..], AtScore(cs[1..], m);
      AtScoreCount(tail, m, x);
      ContentsHead(head, tail);
      assert cs == [head] + tail;
      if ScoreOf(head.slot) == m {
        ContentsHead(head, kept);
        assert AtScore(cs, m) == [head] + kept;
      }
    }
  }

  lemma {:induction false} ContentsHead(p: Placed, rest: seq<Placed>)
    ensures Contents([p] + rest) == [p.slot] + Contents(rest)
    ensures multiset(Contents([p] + rest)) == multiset{p.slot} + multiset(Contents(rest))
  {
  }

  /** A single best candidate is the winner, and there is no winner otherwise. */
  lemma {:induction false} BestIsWinner(ps: seq<Placed>, used: set<nat>, invocation: nat, arguments: Json)
    ensures var pool := Pool(ps, used);
            var cs := Candidates(ps, used, invocation, arguments);
            if cs == [] then forall w :: !Winner(pool, invocation, arguments, w)
            else
              var best := AtScore(cs, MaxScore(cs));
              if |best| == 1 then Winner(pool, invocation, arguments, best[0].slot)
              else forall w :: !Winner(pool, invocation, arguments, w)
  {
    var pool := Pool(ps, used);
    var cs := Candidates(ps, used, invocation, arguments);
    forall x: Slot
      ensures x in pool && Matches(x, invocation, arguments) <==> x in Contents(cs)
      ensures Matches(x, invocation, arguments) ==> multiset(Contents(cs))[x] == pool[x]
    {
      CandidateCount(ps, used, invocation, arguments, x);
    }
    if cs != [] {
      var m := MaxScore(cs);
      var best := AtScore(cs, m);
      forall x: Slot ensures multiset(Contents(best))[x] == if ScoreOf(x) == m then multiset(Contents(cs))[x] else 0 {
        AtScoreCount(cs, m, x);
      }
      if |best| == 1 {
        SingleWinner(pool, cs, m, best, invocation, arguments);
      } else {
        forall w ensures !Winner(pool, invocation, arguments, w) {
          if Winner(pool, invocation, arguments, w) {
            WinnerIsSingle(pool, cs, m, best, invocation, arguments, w);
          }
        }
      }
    }
  }

  /** `m` is the best score among the candidates. */
  ghost predicate IsTop(cs: seq<Placed>, m: Score) {
    (exists i :: 0 <= i < |cs| && ScoreOf(cs[i].slot) == m)
    && forall i :: 0 <= i < |cs| ==> ScoreOf(cs[i].slot) == m || Below(ScoreOf(cs[i].slot), m)
  }

  ghost predicate Ranked(
    pool: multiset<Slot>, cs: seq<Placed>, m: Score, best: seq<Placed>, invocation: nat, arguments: Json
  ) {
    IsTop(cs, m) && (forall p :: p in best ==> p in cs && ScoreOf(p.slot) == m)
    && (forall x :: x in pool && Matches(x, invocation, arguments) <==> x in Contents(cs))
    && (forall x :: Matches(x, invocation, arguments) ==> multiset(Contents(cs))[x] == pool[x])
    && (forall x :: multiset(Contents(best))[x] == if ScoreOf(x) == m then multiset(Contents(cs))[x] else 0)
  }

  lemma {:induction false} SingleWinner(
    pool: multiset<Slot>, cs: seq<Placed>, m: Score, best: seq<Placed>, invocation: nat, arguments: Json
  )
    requires Ranked(pool, cs, m, best, invocation, arguments) && |best| == 1
    ensures Winner(pool, invocation, arguments, best[0].slot)
  {
    var w := best[0].slot;
    assert Contents(best) == [w];
    assert multiset(Contents(best))[w] == 1;
    forall x | x in pool && x != w && Matches(x, invocation, arguments)
      ensures Below(ScoreOf(x), ScoreOf(w))
    {
      assert best[0] in cs;
      assert multiset(Contents(best))[x] == 0;
      var i :| 0 <= i < |Contents(cs)| && Contents(cs)[i] == x;
    }
  }

  lemma {:induction false} OnlyOne(s: seq<Slot>, w: Slot)
    requires forall x: Slot :: multiset(s)[x] == multiset{w}[x]
    ensures |s| == 1
  {
    assert multiset(s) == multiset{w};
    assert |s| == |multiset(s)|;
  }

  /** At the best score there is nothing but the winner. */
  lemma {:induction false} OnlyWinner(
    pool: multiset<Slot>, cs: seq<Placed>, m: Score, best: seq<Placed>, invocation: nat, arguments: Json, w: Slot, x: Slot
  )
    requires Ranked(pool, cs, m, best, invocation, arguments) && Winner(pool, invocation, arguments, w)
    requires w in Contents(cs) && ScoreOf(w) == m
    ensures multiset(Contents(best))[x] == multiset{w}[x]
  {
    if x in Contents(cs) {
      assert x in pool;
    } else {
      assert multiset(Contents(cs))[x] == 0;
    }
  }

  lemma {:induction false} WinnerIsBest(
    pool: multiset<Slot>, cs: seq<Placed>, m: Score, best: seq<Placed>, invocation: nat, arguments: Json, w: Slot
  )
    requires Ranked(pool, cs, m, best, invocation, arguments) && Winner(pool, invocation, arguments, w)
    ensures w in Contents(cs) && ScoreOf(w) == m
  {
    var i :| 0 <= i < |cs| && ScoreOf(cs[i].slot) == m;
    assert Contents(cs)[i] == cs[i].slot;
    var j :| 0 <= j < |Contents(cs)| && Contents(cs)[j] == w;
    assert cs[j].slot == w;
  }

  lemma {:induction false} WinnerIsSingle(
    pool: multiset<Slot>, cs: seq<Placed>, m: Score, best: seq<Placed>, invocation: nat, arguments: Json, w: Slot
  )
    requires Ranked(pool, cs, m, best, invocation, arguments)
    requires Winner(pool, invocation, arguments, w)
    ensures |best| == 1
  {
    WinnerIsBest(pool, cs, m, best, invocation, arguments, w);
    forall x: Slot ensures multiset(Contents(best))[x] == multiset{w}[x] {
      OnlyWinner(pool, cs, m, best, invocation, arguments, w, x);
    }
    OnlyOne(Contents(best), w);
  }

  lemma {:induction false} CandidateMember(ps: seq<Placed>, used: set<nat>, invocation: nat, arguments: Json, p: Placed)
    ensures p in Candidates(ps, used, invocation, arguments)
       <==> p in ps && p.position !in used && Matches(p.slot, invocation, arguments)
  {
    if ps != [] { CandidateMember(ps[1..], used, invocation, arguments, p); }
  }

  /** Consuming one placed slot removes exactly its content from the pool. */
  lemma {:induction false} Consume(ps: seq<Placed>, used: set<nat>, i: nat)
    requires Ascending(ps)
    requires i < |ps| && ps[i].position !in used
    ensures Pool(ps, used) == Pool(ps, used + {ps[i].position}) + multiset{ps[i].slot}
  {
    if i == 0 {
      PoolElsewhere(ps[1..], used, ps[0].position);
    } else {
      assert ps[1..][i - 1] == ps[i];
      Consume(ps[1..], used, i - 1);
    }
  }

  lemma {:induction false} PoolElsewhere(ps: seq<Placed>, used: set<nat>, position: nat)
    requires forall i :: 0 <= i < |ps| ==> ps[i].position != position
    ensures Pool(ps, used + {position}) == Pool(ps, used)
  {
    if ps != [] {
      PoolElsewhere(ps[1..], used, position);
    }
  }

  lemma {:induction false} PoolFull(ps: seq<Placed>)
    ensures Pool(ps, {}) == multiset(Contents(ps))
  {
    if ps != [] {
      PoolFull(ps[1..]);
      ContentsHead(ps[0], ps[1..]);
      assert ps == [ps[0]] + ps[1..];
    }
  }

  method CollectCandidates(ps: seq<Placed>, used: set<nat>, invocation: nat, arguments: Json)
    returns (candidates: seq<Placed>)
    ensures candidates == Candidates(ps, used, invocation, arguments)
  {
    candidates := [];
    for i := 0 to |ps|
      invariant candidates == Candidates(ps[..i], used, invocation, arguments)
    {
      CandidatesSplit(ps[..i], [ps[i]], used, invocation, arguments);
      assert ps[..i + 1] == ps[..i] + [ps[i]];
      if ps[i].position in used { continue; }
      if ps[i].slot.invocation.Some? && ps[i].slot.invocation.value != invocation { continue; }
      if !Subset(ps[i].slot.arguments, arguments) { continue; }
      candidates := candidates + [ps[i]];
    }
    assert ps[..|ps|] == ps;
  }

  /** Slots are numbered in the order in which they are declared. */
  ghost predicate Ascending(ps: seq<Placed>) {
    forall j, k :: 0 <= j < k < |ps| ==> ps[j].position < ps[k].position
  }

  predicate NoSlotTwice(ps: seq<Placed>) {
    forall i, j :: 0 <= i < j < |ps| ==> ps[i].position != ps[j].position
  }

  lemma {:induction false} NewPosition(ps: seq<Placed>, used: set<nat>, p: Placed)
    requires NoSlotTwice(ps) && (forall q :: q in ps ==> q.position in used) && p.position !in used
    ensures NoSlotTwice(ps + [p])
  {
    forall i | 0 <= i < |ps| ensures ps[i].position != p.position {
      assert ps[i] in ps;
    }
  }

  /** The single best unused slot for this invocation, if the best score is not tied. */
  method PickBest(ps: seq<Placed>, used: set<nat>, invocation: nat, arguments: Json)
    returns (chosen: Option<Placed>)
    requires Ascending(ps)
    ensures chosen.None? ==> Chosen(Pool(ps, used), invocation, arguments).None?
    ensures chosen.Some? ==>
              var p := chosen.value;
              p in ps && p.position !in used && Chosen(Pool(ps, used), invocation, arguments) == Some(p.slot)
              && Pool(ps, used + {p.position}) == Pool(ps, used) - multiset{p.slot}
  {
    var candidates := CollectCandidates(ps, used, invocation, arguments);
    BestIsWinner(ps, used, invocation, arguments);
    if candidates == [] { return None; }
    var best := AtScore(candidates, MaxScore(candidates));
    if |best| != 1 { return None; }
    Spend(ps, used, invocation, arguments, best[0]);
    WinnerUnique(Pool(ps, used), invocation, arguments, best[0].slot,
                 Chosen(Pool(ps, used), invocation, arguments).value);
    return Some(best[0]);
  }

  /**
    `_selected_trace`. The outcomes are those of `TraceOf`, which sees only the bag
    of slot contents, and no slot is used twice.
   */
  method SelectedTrace(
    validates: Validator, s: Scenario, tool: Option<Tool>, toolName: string, arguments: Json, count: int
  ) returns (selected: seq<Placed>)
    ensures Contents(selected) == TraceOf(validates, s, tool, toolName, arguments, count)
    ensures forall p :: p in selected ==> p in PlacedFor(ControlledSlots(s), toolName, 0)
    ensures NoSlotTwice(selected)
  {
    selected := [];
    if count < 1 || tool.None? || tool.value.name != toolName { return; }
    if !SchemaAllows(validates, tool, arguments) { return; }
    var slots := PlacedFor(ControlledSlots(s), toolName, 0);
    PlacedContents(ControlledSlots(s), toolName, 0);
    PoolFull(slots);
    var last := Min(count, s.maxToolCalls);
    var wall := Millis(s.wallClockSeconds);
    selected := SelectLoop(slots, arguments, last, wall);
  }

  lemma {:induction false} SelectionStep(
    pool: multiset<Slot>, arguments: Json, invocation: nat, last: nat, elapsed: real, wall: real, w: Slot
  )
    requires invocation <= last && Chosen(pool, invocation, arguments) == Some(w)
    ensures Selection(pool, arguments, invocation, last, elapsed, wall)
         == if After(elapsed, w.latency) > wall then []
            else if w.hasStateEffects then [w]
            else [w] + Selection(pool - multiset{w}, arguments, invocation + 1, last, After(elapsed, w.latency), wall)
  {
  }

  /** The selection loop over one tool's slots. */
  method SelectLoop(slots: seq<Placed>, arguments: Json, last: nat, wall: real) returns (selected: seq<Placed>)
    requires Ascending(slots)
    ensures Contents(selected) == Selection(Pool(slots, {}), arguments, 1, last, 0.0, wall)
    ensures forall p :: p in selected ==> p in slots
    ensures NoSlotTwice(selected)
  {
    selected := [];
    var used: set<nat> := {};
    var elapsed := 0.0;
    var invocation := 1;
    ghost var whole := Selection(Pool(slots, {}), arguments, 1, last, 0.0, wall);
    ghost var todo := whole;
    while invocation <= last
      invariant 1 <= invocation <= last + 1
      invariant todo == Selection(Pool(slots, used), arguments, invocation, last, elapsed, wall)
      invariant whole == Contents(selected) + todo
      invariant forall p :: p in selected ==> p in slots && p.position in used
      invariant NoSlotTwice(selected)
      decreases last - invocation
    {
      var picked := PickBest(slots, used, invocation, arguments);
      if picked.None? { break; }
      var chosen := picked.value;
      SelectionStep(Pool(slots, used), arguments, invocation, last, elapsed, wall, chosen.slot);
      if After(elapsed, chosen.slot.latency) > wall { break; }
      NewPosition(selected, used, chosen);
      elapsed := After(elapsed, chosen.slot.latency);
      used := used + {chosen.position};
      Advance(whole, selected, chosen, todo);
      selected := selected + [chosen];
      todo := todo[1..];
      if chosen.slot.hasStateEffects { break; }
      invocation := invocation + 1;
    }
    assert todo == [];
  }

  lemma {:induction false} Spend(ps: seq<Placed>, used: set<nat>, invocation: nat, arguments: Json, p: Placed)
    requires Ascending(ps)
    requires p in Candidates(ps, used, invocation, arguments)
    ensures p in ps && p.position !in used
    ensures Pool(ps, used + {p.position}) == Pool(ps, used) - multiset{p.slot}
  {
    CandidateMember(ps, used, invocation, arguments, p);
    var i :| 0 <= i < |ps| && ps[i] == p;
    Consume(ps, used, i);
  }

  lemma {:induction false} Advance(whole: seq<Slot>, done: seq<Placed>, p: Placed, todo: seq<Slot>)
    requires whole == Contents(done) + todo
    requires todo != [] && todo[0] == p.slot
    ensures whole == Contents(done + [p]) + todo[1..]
  {
    assert Contents(done + [p]) == Contents(done) + [p.slot];
    assert todo == [p.slot] + todo[1..];
  }
}
