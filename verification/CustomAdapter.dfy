/**
  One run of the custom adapter from its arguments to its result: what is refused before
  anything happens, the turns, and the contract the canonical run checks of itself.
 */
module CustomAdapter {
  import opened Bags
  import opened CustomRun
  import opened CustomDriver
  import opened CustomIntegrity

  // ---------------------------------------------------------------------------
  // The contract of a canonical run
  // ---------------------------------------------------------------------------

  ghost predicate EventsIntegrity(runId: string, events: seq<Event>) {
    (forall e :: e in events ==> e.id.runId == runId)
    && forall i, j :: 0 <= i < j < |events| ==> events[i].id != events[j].id && events[i].sequence < events[j].sequence
  }

  ghost predicate EventIds(events: seq<Event>, ids: set<EventId>) {
    forall id :: id in ids <==> exists e :: e in events && e.id == id
  }

  /** One more event. */
  lemma {:induction false} EventsStep(runId: string, events: seq<Event>, e: Event, ids: set<EventId>)
    requires EventsIntegrity(runId, events) && EventIds(events, ids)
    ensures EventsIntegrity(runId, events + [e])
       <==> e.id.runId == runId && e.id !in ids && (events != [] ==> events[|events| - 1].sequence < e.sequence)
    ensures EventIds(events + [e], ids + {e.id})
  {
    var more := events + [e];
    assert more[|events|] == e && forall i :: 0 <= i < |events| ==> more[i] == events[i] && events[i] in events;
  }

  lemma {:induction false} EventsAt(runId: string, events: seq<Event>, i: nat, ids: set<EventId>)
    requires i < |events| && EventsIntegrity(runId, events[..i]) && EventIds(events[..i], ids)
    ensures EventsIntegrity(runId, events[..i + 1]) <==> EventFits(runId, events, i, ids)
    ensures EventsIntegrity(runId, events) ==> EventsIntegrity(runId, events[..i + 1])
    ensures EventIds(events[..i + 1], ids + {events[i].id})
  {
    assert events[..i + 1] == events[..i] + [events[i]];
    EventsStep(runId, events[..i], events[i], ids);
  }

  predicate EventFits(runId: string, events: seq<Event>, i: nat, ids: set<EventId>)
    requires i < |events|
  {
    events[i].id.runId == runId && events[i].id !in ids && (i > 0 ==> events[i - 1].sequence < events[i].sequence)
  }

  /** Every event belongs to the run, no identifier occurs twice, and the numbers ascend. */
  method CheckEvents(runId: string, events: seq<Event>) returns (ok: bool, ids: set<EventId>)
    ensures ok <==> EventsIntegrity(runId, events)
    ensures ok ==> EventIds(events, ids)
  {
    ids := {};
    for i := 0 to |events|
      invariant EventsIntegrity(runId, events[..i])
      invariant EventIds(events[..i], ids)
    {
      EventsAt(runId, events, i, ids);
      if !EventFits(runId, events, i, ids) { return false, ids; }
      ids := ids + {events[i].id};
    }
    assert events[..|events|] == events;
    ok := true;
  }

  ghost predicate AttemptsIntegrity(attempts: seq<Attempt>, ids: set<EventId>) {
    (forall i, j :: 0 <= i < j < |attempts| ==> attempts[i].id != attempts[j].id)
    && forall a :: a in attempts ==> a.event in ids
  }

  /** The attempts by their identifier. */
  ghost predicate ById(attempts: seq<Attempt>, byId: map<AttemptId, Attempt>) {
    (forall a :: a in attempts ==> a.id in byId && byId[a.id] == a)
    && forall id :: id in byId ==> byId[id] in attempts && byId[id].id == id
  }

  method CheckAttempts(attempts: seq<Attempt>, ids: set<EventId>) returns (ok: bool, byId: map<AttemptId, Attempt>)
    ensures ok <==> AttemptsIntegrity(attempts, ids)
    ensures ok ==> ById(attempts, byId)
  {
    byId := map[];
    for i := 0 to |attempts|
      invariant AttemptsIntegrity(attempts[..i], ids) && ById(attempts[..i], byId)
    {
      assert attempts[..i + 1] == attempts[..i] + [attempts[i]];
      if attempts[i].id in byId || attempts[i].event !in ids { return false, byId; }
      byId := byId[attempts[i].id := attempts[i]];
    }
    assert attempts[..|attempts|] == attempts;
    ok := true;
  }

  ghost predicate TransitionIds(transitions: seq<Link>, ids: set<TransitionId>) {
    forall id :: id in ids <==> Listed(transitions, id)
  }

  method CheckTransitions(transitions: seq<Link>) returns (ok: bool, ids: set<TransitionId>)
    ensures ok <==> DistinctTransitions(transitions)
    ensures ok ==> TransitionIds(transitions, ids)
  {
    ids := {};
    for i := 0 to |transitions|
      invariant DistinctTransitions(transitions[..i]) && TransitionIds(transitions[..i], ids)
    {
      assert transitions[..i + 1] == transitions[..i] + [transitions[i]];
      if transitions[i].id in ids { return false, ids; }
      ids := ids + {transitions[i].id};
    }
    assert transitions[..|transitions|] == transitions;
    ok := true;
  }

  /** One outcome: a recorded attempt on the same tool, a recorded event, recorded transitions. */
  predicate OutcomeFits(o: Outcome, byId: map<AttemptId, Attempt>, events: set<EventId>, transitions: set<TransitionId>) {
    o.attempt in byId && byId[o.attempt].tool == o.tool && o.event in events
    && forall id :: id in o.transitions ==> id in transitions
  }

  lemma {:induction false} FitsExactly(
    run: CanonicalRun, o: Outcome, byId: map<AttemptId, Attempt>, events: set<EventId>, transitions: set<TransitionId>
  )
    requires ById(run.attempts, byId) && EventIds(run.events, events) && TransitionIds(run.transitions, transitions)
    ensures OutcomeFits(o, byId, events, transitions) <==> OutcomeIntegrity(run, o)
  {
  }

  ghost predicate OutcomesFit(
    outcomes: seq<Outcome>, byId: map<AttemptId, Attempt>, events: set<EventId>, transitions: set<TransitionId>
  ) {
    (forall i, j :: 0 <= i < j < |outcomes| ==> outcomes[i].number != outcomes[j].number)
    && forall o :: o in outcomes ==> OutcomeFits(o, byId, events, transitions)
  }

  ghost predicate Numbers(outcomes: seq<Outcome>, numbers: set<nat>) {
    forall n :: n in numbers <==> exists o :: o in outcomes && o.number == n
  }

  method CheckOutcomes(
    outcomes: seq<Outcome>, byId: map<AttemptId, Attempt>, events: set<EventId>, transitions: set<TransitionId>
  ) returns (ok: bool)
    ensures ok <==> OutcomesFit(outcomes, byId, events, transitions)
  {
    var numbers: set<nat> := {};
    for i := 0 to |outcomes|
      invariant OutcomesFit(outcomes[..i], byId, events, transitions) && Numbers(outcomes[..i], numbers)
    {
      assert outcomes[..i + 1] == outcomes[..i] + [outcomes[i]];
      if outcomes[i].number in numbers || !OutcomeFits(outcomes[i], byId, events, transitions) { return false; }
      numbers := numbers + {outcomes[i].number};
    }
    assert outcomes[..|outcomes|] == outcomes;
    ok := true;
  }

  lemma {:induction false} PartsMakeIntegrity(
    run: CanonicalRun, byId: map<AttemptId, Attempt>, events: set<EventId>, transitions: set<TransitionId>
  )
    requires ById(run.attempts, byId) && EventIds(run.events, events) && TransitionIds(run.transitions, transitions)
    ensures Integrity(run)
       <==> EventsIntegrity(run.runId, run.events) && AttemptsIntegrity(run.attempts, events)
            && DistinctTransitions(run.transitions) && OutcomesFit(run.outcomes, byId, events, transitions)
  {
    forall o ensures OutcomeFits(o, byId, events, transitions) <==> OutcomeIntegrity(run, o) {
      FitsExactly(run, o, byId, events, transitions);
    }
  }

  /** `validate_trajectory_integrity`: unique identifiers, ascending events, and no dangling reference. */
  method ValidateTrajectory(run: CanonicalRun) returns (ok: bool)
    ensures ok <==> Integrity(run)
  {
    var events, byId, transitions;
    ok, events := CheckEvents(run.runId, run.events);
    if !ok { return; }
    ok, byId := CheckAttempts(run.attempts, events);
    if !ok { return; }
    ok, transitions := CheckTransitions(run.transitions);
    if !ok { return; }
    ok := CheckOutcomes(run.outcomes, byId, events, transitions);
    PartsMakeIntegrity(run, byId, events, transitions);
  }

  // ---------------------------------------------------------------------------
  // The arguments
  // ---------------------------------------------------------------------------

  datatype Role = User | OtherRole

  /** A scripted turn, or something that is none. */
  datatype Turn = Turn(role: Role, content: string) | NoTurn

  /** The opening input: text, or a list of turns. */
  datatype Opening = Text(prompt: string) | Turns(turns: seq<Turn>)

  predicate UserTurnOnly(t: Turn) { t.Turn? && t.role.User? }

  function Prompt(opening: Opening): (r: Option<string>) {
    match opening
    case Text(prompt) => Some(prompt)
    case Turns(turns) => if |turns| == 1 && UserTurnOnly(turns[0]) then Some(turns[0].content) else None
  }

  ghost predicate AllUser(scripted: seq<Turn>) {
    forall t :: t in scripted ==> UserTurnOnly(t)
  }

  function Contents(scripted: seq<Turn>): (r: seq<string>)
    ensures |r| == |scripted|
  {
    seq(|scripted|, i requires 0 <= i < |scripted| => if scripted[i].Turn? then scripted[i].content else "")
  }

  method CheckScripted(scripted: seq<Turn>) returns (ok: bool)
    ensures ok <==> AllUser(scripted)
  {
    for i := 0 to |scripted|
      invariant forall j :: 0 <= j < i ==> UserTurnOnly(scripted[j])
    {
      if !UserTurnOnly(scripted[i]) { return false; }
    }
    ok := true;
  }

  /** A prepared target of some framework, which may be run once. */
  class Prepared {
    const custom: bool
    var consumed: bool

    constructor (custom: bool)
      ensures this.custom == custom && !consumed
    {
      this.custom := custom;
      consumed := false;
    }
  }

  // ---------------------------------------------------------------------------
  // The run
  // ---------------------------------------------------------------------------

  /** Refused before it starts, ended by a fatal exception, finished, or rejected by the run's own contract. */
  datatype Answer = Refused | Fatality | Finished(run: CanonicalRun) | Rejected(run: CanonicalRun)

  /** The arguments the adapter accepts. */
  ghost predicate Acceptable(custom: bool, consumed: bool, opening: Opening, scripted: seq<Turn>, maxTurns: int) {
    custom && !consumed && maxTurns >= 1 && AllUser(scripted) && Prompt(opening).Some?
  }

  /** The evidence of a run that was driven to its end. */
  ghost predicate Produced(
    run: CanonicalRun, runId: string, opening: Opening, scripted: seq<Turn>, maxTurns: int, agent: nat -> Stage, listed: seq<string>
  )
    requires Prompt(opening).Some?
  {
    exists links, citations ::
      Sound(run, runId, Prompt(opening).value, Contents(scripted), maxTurns, agent, listed, links, citations)
  }

  /**
    `CustomAgentAdapter.run`: `listed` are the transitions the gateway reports at the end.
    A run that was driven to its end is returned exactly when the gateway reports every
    transition that it cited to the agent, once; otherwise the run contract rejects it,
    after the listener has received all of its events.
   */
  method Run(
    prepared: Prepared, runId: string, opening: Opening, scripted: seq<Turn>, maxTurns: int,
    agent: nat -> Stage, listed: seq<string>, sink: Option<Sink>
  ) returns (r: Answer)
    modifies prepared, if sink.Some? then {sink.value} else {}
    ensures r.Refused? <==> !Acceptable(prepared.custom, old(prepared.consumed), opening, scripted, maxTurns)
    ensures r.Refused? ==> Received(sink) == old(Received(sink)) && prepared.consumed == old(prepared.consumed)
    ensures !r.Refused? ==> prepared.consumed
    ensures r.Fatality? ==> FatalWithin(agent, maxTurns)
    ensures r.Finished? || r.Rejected? ==> Produced(r.run, runId, opening, scripted, maxTurns, agent, listed)
    ensures (r.Finished? || r.Rejected?) && sink.Some? ==> Received(sink) == old(Received(sink)) + r.run.events
    ensures r.Finished? ==> Integrity(r.run) && ReportedOnce(listed, Played(agent, r.run.stages))
    ensures r.Rejected? ==> !Integrity(r.run) && !ReportedOnce(listed, Played(agent, r.run.stages))
  {
    if !prepared.custom || prepared.consumed || maxTurns < 1 { return Refused; }
    var allUser := CheckScripted(scripted);
    if !allUser || Prompt(opening).None? { return Refused; }
    prepared.consumed := true;
    var result;
    ghost var links, citations;
    result, links, citations := Execute(runId, Prompt(opening).value, Contents(scripted), maxTurns, agent, listed, sink);
    if result.Reraised? { return Fatality; }
    var ok := ValidateTrajectory(result.run);
    IntegrityExactly(result.run, listed, links, citations, Played(agent, result.run.stages));
    r := if ok then Finished(result.run) else Rejected(result.run);
  }

  /** One well-formed call, answered with one citation, and then the agent is done. */
  function OneCall(cited: string): (agent: nat -> Stage) {
    (n: nat) => Stage([Call(true, "refund", Returns(GatewayOutcome(Success, [cited])))], Returned(Rendered(Some("done"))))
  }

  lemma {:induction false} OneCallCites(cited: string)
    ensures !ReportedOnce([], Played(OneCall(cited), 1))
    ensures !FatalWithin(OneCall(cited), 1) && EndsWell(OneCall(cited)(1).ending)
  {
    var call := Call(true, "refund", Returns(GatewayOutcome(Success, [cited])));
    assert Played(OneCall(cited), 0) == [] && Played(OneCall(cited), 1) == [] + [call];
    assert [] + [call] == [call];
    assert [call][1..] == [] && CitedBySome([call]) == CitedBy(call) + CitedBySome([call][1..]);
    assert cited in CitedBySome(Played(OneCall(cited), 1));
  }

  lemma {:induction false} OneStage(run: CanonicalRun, runId: string, prompt: string, agent: nat -> Stage, listed: seq<string>)
    requires Produced(run, runId, Text(prompt), [], 1, agent, listed) && EndsWell(agent(1).ending)
    ensures run.stages == 1 && run.termination.Completed?
  {
    var links, citations :| Sound(run, runId, prompt, Contents([]), 1, agent, listed, links, citations);
  }

  /** A gateway that cites a transition and reports none: the turns go to the end, and the run is rejected. */
  method UnreportedCitation(runId: string, prompt: string, cited: string) returns (r: Answer)
    ensures r.Rejected? && !Integrity(r.run) && r.run.termination.Completed?
  {
    var prepared := new Prepared(true);
    OneCallCites(cited);
    r := Run(prepared, runId, Text(prompt), [], 1, OneCall(cited), [], None);
    OneStage(r.run, runId, prompt, OneCall(cited), []);
  }
}
