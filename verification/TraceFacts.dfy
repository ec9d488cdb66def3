/**
  What every predicted trace satisfies, for all scenarios, tools, arguments and
  call counts.
 */
module TraceFacts {
  import opened Bags
  import opened Json
  import opened Domain
  import opened Trace

  function TotalLatency(r: seq<Slot>): real {
    if r == [] then 0.0 else r[0].latency + TotalLatency(r[1..])
  }

  /** Only the order of fixtures and faults may differ. */
  ghost predicate Reordered(s: Scenario, t: Scenario) {
    t == s.(fixtures := t.fixtures, faults := t.faults)
    && multiset(s.fixtures) == multiset(t.fixtures)
    && multiset(s.faults) == multiset(t.faults)
  }

  /** The order in which fixtures and faults are listed never changes a trace. */
  lemma {:induction false} TracePermuted(
    validates: Validator, s: Scenario, t: Scenario, tool: Option<Tool>, toolName: string, arguments: Json, count: int
  )
    requires Reordered(s, t)
    ensures TraceOf(validates, s, tool, toolName, arguments, count)
         == TraceOf(validates, t, tool, toolName, arguments, count)
  {
    SlotsPermuted(s, t, toolName);
  }

  lemma {:induction false} DrawnPrefix(
    choose: Chooser, pool: multiset<Slot>, invocation: nat, n: nat, m: nat, elapsed: real, wall: real
  )
    requires n <= m
    ensures Drawn(choose, pool, invocation, n, elapsed, wall) <= Drawn(choose, pool, invocation, m, elapsed, wall)
    decreases m + 1 - invocation
  {
    if invocation <= n && choose(pool, invocation).Some? {
      var w := choose(pool, invocation).value;
      DrawnPrefix(choose, pool - multiset{w}, invocation + 1, n, m, After(elapsed, w.latency), wall);
    }
  }

  /** Predicting more calls only extends the prediction for fewer. */
  lemma {:induction false} TracePrefix(
    validates: Validator, s: Scenario, tool: Option<Tool>, toolName: string, arguments: Json, n: int, m: int
  )
    requires n <= m
    ensures TraceOf(validates, s, tool, toolName, arguments, n)
         <= TraceOf(validates, s, tool, toolName, arguments, m)
  {
    if Callable(validates, tool, toolName, arguments, n) {
      DrawnPrefix(ChooserFor(arguments), multiset(SlotsFor(s, toolName)), 1, Min(n, s.maxToolCalls), Min(m, s.maxToolCalls),
                  0.0, Millis(s.wallClockSeconds));
    }
  }

  ghost predicate OnlyLastHasEffects(r: seq<Slot>) {
    forall i :: 0 <= i < |r| - 1 ==> !r[i].hasStateEffects
  }

  ghost predicate InTime(r: seq<Slot>, elapsed: real, wall: real) {
    r != [] ==> After(elapsed, TotalLatency(r)) <= wall
  }

  lemma {:induction false} InTimeStep(w: Slot, rest: seq<Slot>, elapsed: real, wall: real)
    requires After(elapsed, w.latency) <= wall && InTime(rest, After(elapsed, w.latency), wall)
    ensures InTime([w] + rest, elapsed, wall)
  {
    assert ([w] + rest)[1..] == rest;
  }

  /** Only slots of the pool are chosen. */
  ghost predicate Draws(choose: Chooser) {
    forall pool, invocation :: choose(pool, invocation).Some? ==> choose(pool, invocation).value in pool
  }

  lemma {:induction false} ChooserDraws(arguments: Json)
    ensures Draws(ChooserFor(arguments))
  {
    forall pool, invocation: nat | ChooserFor(arguments)(pool, invocation).Some?
      ensures ChooserFor(arguments)(pool, invocation).value in pool
    {
      assert Winner(pool, invocation, arguments, Chosen(pool, invocation, arguments).value);
    }
  }

  lemma {:induction false} Consumed(w: Slot, rest: seq<Slot>, pool: multiset<Slot>)
    requires w in pool && multiset(rest) <= pool - multiset{w}
    ensures multiset([w] + rest) <= pool
  {
    assert multiset([w] + rest) == multiset{w} + multiset(rest);
  }

  lemma {:induction false} DrawnFromPool(
    choose: Chooser, pool: multiset<Slot>, invocation: nat, last: nat, elapsed: real, wall: real
  )
    requires Draws(choose)
    ensures multiset(Drawn(choose, pool, invocation, last, elapsed, wall)) <= pool
    decreases last + 1 - invocation
  {
    if invocation <= last && choose(pool, invocation).Some? {
      var w := choose(pool, invocation).value;
      var rest := Drawn(choose, pool - multiset{w}, invocation + 1, last, After(elapsed, w.latency), wall);
      DrawnFromPool(choose, pool - multiset{w}, invocation + 1, last, After(elapsed, w.latency), wall);
      Consumed(w, rest, pool);
    }
  }

  lemma {:induction false} DrawnEffects(
    choose: Chooser, pool: multiset<Slot>, invocation: nat, last: nat, elapsed: real, wall: real
  )
    ensures OnlyLastHasEffects(Drawn(choose, pool, invocation, last, elapsed, wall))
    decreases last + 1 - invocation
  {
    if invocation <= last && choose(pool, invocation).Some? {
      var w := choose(pool, invocation).value;
      var rest := Drawn(choose, pool - multiset{w}, invocation + 1, last, After(elapsed, w.latency), wall);
      DrawnEffects(choose, pool - multiset{w}, invocation + 1, last, After(elapsed, w.latency), wall);
      assert forall i :: 0 < i < |[w] + rest| ==> ([w] + rest)[i] == rest[i - 1];
    }
  }

  lemma {:induction false} DrawnInTime(
    choose: Chooser, pool: multiset<Slot>, invocation: nat, last: nat, elapsed: real, wall: real
  )
    ensures InTime(Drawn(choose, pool, invocation, last, elapsed, wall), elapsed, wall)
    decreases last + 1 - invocation
  {
    if invocation <= last && choose(pool, invocation).Some? {
      var w := choose(pool, invocation).value;
      if After(elapsed, w.latency) <= wall {
        DrawnInTime(choose, pool - multiset{w}, invocation + 1, last, After(elapsed, w.latency), wall);
        InTimeStep(w, if w.hasStateEffects then [] else Drawn(choose, pool - multiset{w}, invocation + 1, last, After(elapsed, w.latency), wall),
                   elapsed, wall);
        assert [w] + [] == [w];
      }
    }
  }

  lemma {:induction false} DrawnLength(
    choose: Chooser, pool: multiset<Slot>, invocation: nat, last: nat, elapsed: real, wall: real
  )
    ensures |Drawn(choose, pool, invocation, last, elapsed, wall)| <= if invocation <= last then last + 1 - invocation else 0
    decreases last + 1 - invocation
  {
    if invocation <= last && choose(pool, invocation).Some? {
      var w := choose(pool, invocation).value;
      DrawnLength(choose, pool - multiset{w}, invocation + 1, last, After(elapsed, w.latency), wall);
    }
  }

  /**
    A trace stays within the call budget and the wall-clock budget, spends only
    declared slots, each at most once, and goes on past no state effect.
   */
  lemma {:induction false} TraceBounds(
    validates: Validator, s: Scenario, tool: Option<Tool>, toolName: string, arguments: Json, count: int
  )
    ensures var r := TraceOf(validates, s, tool, toolName, arguments, count);
            |r| <= s.maxToolCalls
            && (r != [] ==> |r| <= count && TotalLatency(r) <= s.wallClockSeconds * 1000.0)
            && multiset(r) <= multiset(SlotsFor(s, toolName))
            && OnlyLastHasEffects(r)
  {
    if Callable(validates, tool, toolName, arguments, count) {
      ChooserDraws(arguments);
      DrawnLength(ChooserFor(arguments), multiset(SlotsFor(s, toolName)), 1, Min(count, s.maxToolCalls), 0.0,
                  Millis(s.wallClockSeconds));
      DrawnFromPool(ChooserFor(arguments), multiset(SlotsFor(s, toolName)), 1, Min(count, s.maxToolCalls), 0.0,
                    Millis(s.wallClockSeconds));
      DrawnEffects(ChooserFor(arguments), multiset(SlotsFor(s, toolName)), 1, Min(count, s.maxToolCalls), 0.0,
                   Millis(s.wallClockSeconds));
      DrawnInTime(ChooserFor(arguments), multiset(SlotsFor(s, toolName)), 1, Min(count, s.maxToolCalls), 0.0,
                  Millis(s.wallClockSeconds));
    }
  }

  lemma {:induction false} PoolAfter(pool: multiset<Slot>, w: Slot, rest: seq<Slot>, i: nat)
    requires 0 < i <= |rest| + 1
    ensures pool - multiset(([w] + rest)[..i]) == pool - multiset{w} - multiset(rest[..i - 1])
  {
    assert ([w] + rest)[..i] == [w] + rest[..i - 1];
  }

  /** Each outcome is the one chosen from what the earlier ones leave. */
  lemma {:induction false} DrawnAt(
    choose: Chooser, pool: multiset<Slot>, invocation: nat, last: nat, elapsed: real, wall: real,
    r: seq<Slot>, i: nat, call: nat
  )
    requires r == Drawn(choose, pool, invocation, last, elapsed, wall)
    requires i < |r| && call == invocation + i
    ensures choose(pool - multiset(r[..i]), call) == Some(r[i])
    decreases i
  {
    var w := choose(pool, invocation).value;
    if i == 0 {
      assert r[..0] == [];
      assert pool - multiset(r[..0]) == pool;
    } else {
      var rest := Drawn(choose, pool - multiset{w}, invocation + 1, last, After(elapsed, w.latency), wall);
      assert r == [w] + rest;
      DrawnAt(choose, pool - multiset{w}, invocation + 1, last, After(elapsed, w.latency), wall, rest, i - 1, call);
      PoolAfter(pool, w, rest, i);
    }
  }

  /**
    When call `i + 1` is answered by `r[i]`, no unused slot that also matches it,
    with the same priority and the same explicitness, pins down strictly more of
    the arguments: the most specific fixture is never passed over.
   */
  lemma {:induction false} MostSpecificSelected(
    validates: Validator, s: Scenario, tool: Option<Tool>, toolName: string, arguments: Json, count: int,
    i: nat, x: Slot
  )
    requires i < |TraceOf(validates, s, tool, toolName, arguments, count)|
    requires x in multiset(SlotsFor(s, toolName)) - multiset(TraceOf(validates, s, tool, toolName, arguments, count)[..i])
    requires Matches(x, i + 1, arguments)
    requires var w := TraceOf(validates, s, tool, toolName, arguments, count)[i];
             x.priority == w.priority && x.invocation.Some? == w.invocation.Some?
             && WellFormed(x.arguments) && WellFormed(w.arguments)
    ensures var w := TraceOf(validates, s, tool, toolName, arguments, count)[i];
            Subset(w.arguments, x.arguments) ==> Subset(x.arguments, w.arguments)
  {
    var r := TraceOf(validates, s, tool, toolName, arguments, count);
    var w := r[i];
    DrawnAt(ChooserFor(arguments), multiset(SlotsFor(s, toolName)), 1, Min(count, s.maxToolCalls), 0.0,
            Millis(s.wallClockSeconds), r, i, i + 1);
    assert Winner(multiset(SlotsFor(s, toolName)) - multiset(r[..i]), i + 1, arguments, w);
    if Subset(w.arguments, x.arguments) && !Subset(x.arguments, w.arguments) {
      StrictlyMoreGeneral(w.arguments, x.arguments);
    }
  }
}
