/**
  When the evidence of a finished run satisfies the contract of a canonical run
  (`CanonicalRun.validate_trajectory_integrity` in agentcheck/domain/run.py).
 */
module CustomIntegrity {
  import opened Bags
  import opened CustomRun
  import opened CustomDriver

  ghost predicate DistinctTransitions(transitions: seq<Link>) {
    forall i, j :: 0 <= i < j < |transitions| ==> transitions[i].id != transitions[j].id
  }

  ghost predicate Listed(transitions: seq<Link>, id: TransitionId) {
    exists t :: t in transitions && t.id == id
  }

  /** Unique identifiers, ascending events, and no dangling reference. */
  ghost predicate Integrity(run: CanonicalRun) {
    && (forall e :: e in run.events ==> e.id.runId == run.runId)
    && (forall i, j :: 0 <= i < j < |run.events| ==>
          run.events[i].id != run.events[j].id && run.events[i].sequence < run.events[j].sequence)
    && (forall i, j :: 0 <= i < j < |run.attempts| ==> run.attempts[i].id != run.attempts[j].id)
    && (forall a :: a in run.attempts ==> exists e :: e in run.events && e.id == a.event)
    && DistinctTransitions(run.transitions)
    && (forall i, j :: 0 <= i < j < |run.outcomes| ==> run.outcomes[i].number != run.outcomes[j].number)
    && (forall o :: o in run.outcomes ==> OutcomeIntegrity(run, o))
  }

  ghost predicate OutcomeIntegrity(run: CanonicalRun, o: Outcome) {
    && (exists a :: a in run.attempts && a.id == o.attempt && a.tool == o.tool)
    && (exists e :: e in run.events && e.id == o.event)
    && (forall id :: id in o.transitions ==> Listed(run.transitions, id))
  }

  /** The transitions an answered call cites. */
  function CitedBy(c: Call): (r: seq<string>) { if Answered(c) then c.reaction.answer.cited else [] }

  /** The transitions the gateway cited in its answers to these calls. */
  function CitedBySome(calls: seq<Call>): (r: seq<string>) { Gather(calls, CitedBy) }

  /** The gateway reports every transition it cited, once. */
  ghost predicate ReportedOnce(listed: seq<string>, calls: seq<Call>) {
    forall g :: g in CitedBySome(calls) ==> multiset(listed)[g] == 1
  }

  ghost predicate LinkedOnce(listed: seq<string>, links: map<string, Link>) {
    forall g :: g in links ==> multiset(listed)[g] == 1
  }

  // ---------------------------------------------------------------------------
  // What is linked is what was cited
  // ---------------------------------------------------------------------------

  ghost predicate Mentions(citations: seq<Citation>, g: string) {
    exists i :: 0 <= i < |citations| && citations[i].gatewayId == g
  }

  lemma {:induction false} MentionsSplit(a: seq<Citation>, b: seq<Citation>, g: string)
    ensures Mentions(a + b, g) <==> Mentions(a, g) || Mentions(b, g)
  {
    if Mentions(a, g) {
      var i :| 0 <= i < |a| && a[i].gatewayId == g;
      assert (a + b)[i] == a[i];
    }
    if Mentions(b, g) {
      var i :| 0 <= i < |b| && b[i].gatewayId == g;
      assert (a + b)[|a| + i] == b[i];
    }
  }

  lemma {:induction false} FirstCiterMentions(citations: seq<Citation>, g: string)
    ensures FirstCiter(citations, g).Some? <==> Mentions(citations, g)
  {
    if citations != [] {
      var head, tail := [citations[0]], citations[1..];
      assert citations == head + tail;
      FirstCiterMentions(tail, g);
      MentionsSplit(head, tail, g);
      assert Mentions(head, g) <==> head[0].gatewayId == g;
    }
  }

  lemma {:induction false} CitationsMention(cited: seq<string>, a: AttemptId, g: string)
    ensures Mentions(CitationsBy(cited, a), g) <==> g in cited
  {
    if i :| 0 <= i < |cited| && cited[i] == g {
      assert CitationsBy(cited, a)[i].gatewayId == g;
    }
  }

  lemma {:induction false} CitedAlong(runId: string, calls: seq<Call>, g: string)
    ensures Mentions(Gather(RepliesOf(runId, calls), CitedIn), g) <==> g in CitedBySome(calls)
    decreases |calls|
  {
    if calls != [] {
      var before, c := calls[..|calls| - 1], calls[|calls| - 1];
      assert calls == before + [c];
      CitedAlong(runId, before, g);
      CitedOnce(runId, before, c, g);
    }
  }

  lemma {:induction false} CitedOnce(runId: string, before: seq<Call>, c: Call, g: string)
    requires Mentions(Gather(RepliesOf(runId, before), CitedIn), g) <==> g in CitedBySome(before)
    ensures Mentions(Gather(RepliesOf(runId, before + [c]), CitedIn), g) <==> g in CitedBySome(before + [c])
  {
    RepliesPush(runId, before, c);
    GatherSplit(before, [c], CitedBy);
    assert Gather([c], CitedBy) == CitedBy(c);
    if Answered(c) {
      var reply := Reply(AttemptId(runId, |ToolsOf(before)|), c.tool, c.reaction.answer.status, c.reaction.answer.cited);
      GatherSplit(RepliesOf(runId, before), [reply], CitedIn);
      assert Gather([reply], CitedIn) == CitedIn(reply);
      MentionsSplit(Gather(RepliesOf(runId, before), CitedIn), CitedIn(reply), g);
      CitationsMention(reply.cited, reply.attempt, g);
    } else {
      assert RepliesOf(runId, before + [c]) == RepliesOf(runId, before);
    }
  }

  /** The linked transitions are those cited in the answers to the calls. */
  lemma {:induction false} LinkedAreCited(
    runId: string, attempts: seq<Attempt>, outcomes: seq<Outcome>, links: map<string, Link>,
    citations: seq<Citation>, calls: seq<Call>, g: string
  )
    requires Faithful(runId, attempts, outcomes, links, citations, calls) && Owned(links, citations)
    ensures g in links <==> g in CitedBySome(calls)
  {
    assert OwnerOf(links, g) == FirstCiter(citations, g);
    FirstCiterMentions(citations, g);
    CitedAlong(runId, calls, g);
  }

  // ---------------------------------------------------------------------------
  // The transitions of the run
  // ---------------------------------------------------------------------------

  ghost predicate AtMostOnce(listed: seq<string>, links: map<string, Link>) {
    forall g :: g in links ==> multiset(listed)[g] <= 1
  }

  lemma {:induction false} TransitionsMember(listed: seq<string>, links: map<string, Link>, t: Link)
    ensures t in StateTransitions(listed, links) <==> exists g :: g in listed && g in links && links[g] == t
  {
    GatherMember(listed, Relabel(links), t);
    if i :| 0 <= i < |listed| && t in Relabel(links)(listed[i]) {
      assert listed[i] in listed;
    }
    if g :| g in listed && g in links && links[g] == t {
      var i :| 0 <= i < |listed| && listed[i] == g;
      assert t in Relabel(links)(listed[i]);
    }
  }

  lemma {:induction false} OnceMeansDistinct(runId: string, listed: seq<string>, links: map<string, Link>)
    requires Numbered(runId, links) && AtMostOnce(listed, links)
    ensures DistinctTransitions(StateTransitions(listed, links))
    decreases |listed|
  {
    if listed != [] {
      var g, rest := listed[0], listed[1..];
      assert listed == [g] + rest;
      OnceMeansDistinct(runId, rest, links);
      if g in links {
        forall t | t in StateTransitions(rest, links) ensures t.id != links[g].id {
          TransitionsMember(rest, links, t);
          var h :| h in rest && h in links && links[h] == t;
          assert h in multiset(rest);
        }
        assert StateTransitions(listed, links) == [links[g]] + StateTransitions(rest, links);
      } else {
        assert StateTransitions(listed, links) == [] + StateTransitions(rest, links);
      }
    }
  }

  lemma {:induction false} DistinctMeansOnce(listed: seq<string>, links: map<string, Link>, g: string)
    requires DistinctTransitions(StateTransitions(listed, links)) && g in links
    ensures multiset(listed)[g] <= 1
  {
    if multiset(listed)[g] > 1 {
      var i, j := TwoPositions(listed, g);
      GatherTwice(listed, i, j, Relabel(links), links[g]);
      var k, l := TwoPositions(StateTransitions(listed, links), links[g]);
      assert false;
    }
  }

  lemma {:induction false} TwoPositions<T>(s: seq<T>, x: T) returns (i: nat, j: nat)
    requires multiset(s)[x] >= 2
    ensures i < j < |s| && s[i] == x && s[j] == x
  {
    i :| 0 <= i < |s| && s[i] == x;
    var rest := Drop(s, i);
    assert x in multiset(rest);
    var k :| 0 <= k < |rest| && rest[k] == x;
    if k < i { i, j := k, i; } else { j := k + 1; }
  }

  /** The parts of the contract that every finished run satisfies. */
  lemma {:induction false} AlwaysIntact(run: CanonicalRun, o: Outcome)
    requires Log(run.runId, run.events) && Attempts(run.runId, run.events, run.attempts)
    requires Answers(run.runId, run.events, run.attempts, o)
    ensures exists a :: a in run.attempts && a.id == o.attempt && a.tool == o.tool
    ensures exists e :: e in run.events && e.id == o.event
  {
    var a := run.attempts[o.attempt.number];
    assert a in run.attempts && a.id == o.attempt && a.tool == o.tool;
    var e := run.events[o.event.number];
    assert WellPlaced(run.runId, e, o.event.number);
    assert e in run.events && e.id == o.event;
  }

  lemma {:induction false} EventsIntact(run: CanonicalRun)
    requires Log(run.runId, run.events) && Attempts(run.runId, run.events, run.attempts)
    ensures forall e :: e in run.events ==> e.id.runId == run.runId
    ensures forall i, j :: 0 <= i < j < |run.events| ==>
      run.events[i].id != run.events[j].id && run.events[i].sequence < run.events[j].sequence
    ensures forall a :: a in run.attempts ==> exists e :: e in run.events && e.id == a.event
  {
    forall i | 0 <= i < |run.events|
      ensures run.events[i].id == EventId(run.runId, i) && run.events[i].sequence == i
    {
      assert WellPlaced(run.runId, run.events[i], i);
    }
    forall a | a in run.attempts ensures exists e :: e in run.events && e.id == a.event {
      var k :| 0 <= k < |run.attempts| && run.attempts[k] == a;
      assert run.events[a.event.number] in run.events;
    }
  }

  ghost predicate AllReported(listed: seq<string>, links: map<string, Link>) {
    forall g :: g in links ==> g in listed
  }

  ghost predicate NoDangling(run: CanonicalRun) {
    forall o :: o in run.outcomes ==> forall id :: id in o.transitions ==> Listed(run.transitions, id)
  }

  /** A linked transition appears under its canonical name exactly when the gateway reports it. */
  lemma {:induction false} ListedIffReported(runId: string, listed: seq<string>, links: map<string, Link>, g: string)
    requires Numbered(runId, links) && g in links
    ensures Listed(StateTransitions(listed, links), links[g].id) <==> g in listed
  {
    TransitionsMember(listed, links, links[g]);
    if Listed(StateTransitions(listed, links), links[g].id) {
      var t :| t in StateTransitions(listed, links) && t.id == links[g].id;
      TransitionsMember(listed, links, t);
    }
  }

  lemma {:induction false} NamedIffReported(
    run: CanonicalRun, listed: seq<string>, links: map<string, Link>, citations: seq<Citation>
  )
    requires Evidence(run, listed, links, citations)
    ensures AllReported(listed, links) <==> NoDangling(run)
  {
    forall g | g in links ensures Listed(run.transitions, links[g].id) <==> g in listed {
      ListedIffReported(run.runId, listed, links, g);
    }
    if AllReported(listed, links) {
      forall o, id | o in run.outcomes && id in o.transitions ensures Listed(run.transitions, id) {
        var k :| 0 <= k < |run.outcomes| && run.outcomes[k] == o;
        assert Named(links, id);
      }
    }
    if NoDangling(run) {
      forall g | g in links ensures g in listed {
        assert NamedBy(run.outcomes, links[g].id);
        var k :| 0 <= k < |run.outcomes| && links[g].id in run.outcomes[k].transitions;
        assert run.outcomes[k] in run.outcomes;
      }
    }
  }

  lemma {:induction false} OutcomesIntact(run: CanonicalRun)
    requires Log(run.runId, run.events) && Attempts(run.runId, run.events, run.attempts)
    requires Outcomes(run.runId, run.events, run.attempts, run.outcomes)
    ensures (forall o :: o in run.outcomes ==> OutcomeIntegrity(run, o)) <==> NoDangling(run)
    ensures forall i, j :: 0 <= i < j < |run.outcomes| ==> run.outcomes[i].number != run.outcomes[j].number
  {
    forall o | o in run.outcomes
      ensures OutcomeIntegrity(run, o) <==> forall id :: id in o.transitions ==> Listed(run.transitions, id)
    {
      AlwaysIntact(run, o);
    }
  }

  /** What is left of the contract: distinct transitions, and none that dangles. */
  lemma {:induction false} IntegrityLeft(
    run: CanonicalRun, listed: seq<string>, links: map<string, Link>, citations: seq<Citation>
  )
    requires Evidence(run, listed, links, citations)
    ensures Integrity(run) <==> DistinctTransitions(run.transitions) && AllReported(listed, links)
  {
    EventsIntact(run);
    OutcomesIntact(run);
    NamedIffReported(run, listed, links, citations);
  }

  lemma {:induction false} OnceExactly(runId: string, listed: seq<string>, links: map<string, Link>)
    requires Numbered(runId, links)
    ensures LinkedOnce(listed, links)
       <==> DistinctTransitions(StateTransitions(listed, links)) && AllReported(listed, links)
  {
    forall g ensures g in listed <==> multiset(listed)[g] >= 1 {
      assert g in listed <==> g in multiset(listed);
    }
    if LinkedOnce(listed, links) {
      OnceMeansDistinct(runId, listed, links);
    } else if DistinctTransitions(StateTransitions(listed, links)) {
      forall g | g in links ensures multiset(listed)[g] <= 1 { DistinctMeansOnce(listed, links, g); }
    }
  }

  /**
    The evidence of these calls meets the contract of a canonical run exactly when the
    gateway reports every transition that it cited in its answers, once.
   */
  lemma {:induction false} IntegrityExactly(
    run: CanonicalRun, listed: seq<string>, links: map<string, Link>, citations: seq<Citation>, calls: seq<Call>
  )
    requires Evidence(run, listed, links, citations)
    requires Faithful(run.runId, run.attempts, run.outcomes, links, citations, calls)
    ensures Integrity(run) <==> ReportedOnce(listed, calls)
  {
    IntegrityLeft(run, listed, links, citations);
    OnceExactly(run.runId, listed, links);
    forall g ensures g in links <==> g in CitedBySome(calls) {
      LinkedAreCited(run.runId, run.attempts, run.outcomes, links, citations, calls, g);
    }
  }
}
