/**
  The custom-agent adapter (agentcheck/adapters/custom.py): the capture that builds the
  evidence of a run, the bridge to the tool gateway, and the loop that drives the turns.
  The agent and the gateway are arbitrary: what they do in each stage is an input.
 */
module CustomRun {
  import opened Bags

  // ---------------------------------------------------------------------------
  // Evidence
  // ---------------------------------------------------------------------------

  datatype EventId = EventId(runId: string, number: nat)
  datatype AttemptId = AttemptId(runId: string, number: nat)
  datatype TransitionId = TransitionId(runId: string, number: nat)

  datatype Kind = UserTurn | AssistantOutput | ToolAttempted | ToolResult | ErrorEvent | FinalOutput

  datatype Event = Event(id: EventId, sequence: nat, kind: Kind, text: Option<string>, sources: seq<EventId>)

  datatype Attempt = Attempt(id: AttemptId, event: EventId, sequence: nat, tool: string)

  datatype Status = Success | Failure | Blocked

  datatype Outcome = Outcome(
    number: nat, attempt: AttemptId, event: EventId, tool: string, status: Status, transitions: seq<TransitionId>)

  /** The canonical name of a gateway transition and the attempt it belongs to. */
  datatype Link = Link(id: TransitionId, owner: AttemptId)

  /** The answer of the gateway, normalized: a status and the state transitions it cites. */
  datatype GatewayOutcome = GatewayOutcome(status: Status, cited: seq<string>)

  /** Contiguous numbers, and sources that lie in the past. */
  ghost predicate Log(runId: string, events: seq<Event>) {
    forall i :: 0 <= i < |events| ==> WellPlaced(runId, events[i], i)
  }

  ghost predicate WellPlaced(runId: string, e: Event, i: nat) {
    e.id == EventId(runId, i) && e.sequence == i
    && forall s :: s in e.sources ==> s.runId == runId && s.number < i
  }

  /** The event of the latest user turn, if there is one. */
  function TurnSource(runId: string, events: seq<Event>): (r: seq<EventId>)
    ensures |r| <= 1
  {
    if events == [] then []
    else if events[|events| - 1].kind.UserTurn? then [EventId(runId, |events| - 1)]
    else TurnSource(runId, events[..|events| - 1])
  }

  /** Every tool attempt cites the user turn it answers: the latest before it. */
  ghost predicate AnswersTurns(runId: string, events: seq<Event>) {
    forall i :: 0 <= i < |events| && events[i].kind.ToolAttempted? ==> events[i].sources == TurnSource(runId, events[..i])
  }

  lemma {:induction false} AnswersTurnsPush(runId: string, events: seq<Event>, e: Event)
    requires AnswersTurns(runId, events) && (e.kind.ToolAttempted? ==> e.sources == TurnSource(runId, events))
    ensures AnswersTurns(runId, events + [e])
  {
    forall i | 0 <= i < |events + [e]| && (events + [e])[i].kind.ToolAttempted?
      ensures (events + [e])[i].sources == TurnSource(runId, (events + [e])[..i])
    {
      assert (events + [e])[..i] == events[..i];
      assert events[..|events|] == events;
    }
  }

  ghost predicate IsEvent(runId: string, events: seq<Event>, id: EventId, kind: Kind) {
    id.runId == runId && id.number < |events| && events[id.number].kind == kind
  }

  ghost predicate Attempts(runId: string, events: seq<Event>, attempts: seq<Attempt>) {
    forall k :: 0 <= k < |attempts| ==>
      attempts[k].id == AttemptId(runId, k) && attempts[k].sequence == k
      && IsEvent(runId, events, attempts[k].event, ToolAttempted)
  }

  /** The outcome belongs to a recorded attempt, and its event cites the event of that attempt. */
  ghost predicate Answers(runId: string, events: seq<Event>, attempts: seq<Attempt>, o: Outcome) {
    && o.attempt.runId == runId && o.attempt.number < |attempts|
    && o.tool == attempts[o.attempt.number].tool
    && IsEvent(runId, events, o.event, ToolResult)
    && events[o.event.number].sources == [attempts[o.attempt.number].event]
  }

  /** Each attempt has at most one outcome. */
  ghost predicate Outcomes(runId: string, events: seq<Event>, attempts: seq<Attempt>, outcomes: seq<Outcome>) {
    && (forall k :: 0 <= k < |outcomes| ==> outcomes[k].number == k && Answers(runId, events, attempts, outcomes[k]))
    && (forall j, k :: 0 <= j < k < |outcomes| ==> outcomes[j].attempt != outcomes[k].attempt)
  }

  datatype Citation = Citation(gatewayId: string, attempt: AttemptId)

  /** The attempt that cited a gateway transition first. */
  function FirstCiter(citations: seq<Citation>, gatewayId: string): (r: Option<AttemptId>) {
    if citations == [] then None
    else if citations[0].gatewayId == gatewayId then Some(citations[0].attempt)
    else FirstCiter(citations[1..], gatewayId)
  }

  /** Canonical names are an injection into the numbers below the number of links. */
  ghost predicate Numbered(runId: string, links: map<string, Link>) {
    && (forall g :: g in links ==> links[g].id.runId == runId && links[g].id.number < |links|)
    && (forall g, h :: g in links && h in links && links[g].id == links[h].id ==> g == h)
  }

  /** What was cited is linked, and belongs to the attempt that cited it first. */
  ghost predicate Owned(links: map<string, Link>, citations: seq<Citation>) {
    forall g :: OwnerOf(links, g) == FirstCiter(citations, g)
  }

  function OwnerOf(links: map<string, Link>, g: string): (r: Option<AttemptId>) {
    if g in links then Some(links[g].owner) else None
  }

  ghost predicate Links(runId: string, links: map<string, Link>, citations: seq<Citation>) {
    Numbered(runId, links) && Owned(links, citations)
  }

  ghost predicate Named(links: map<string, Link>, id: TransitionId) {
    exists g :: g in links && links[g].id == id
  }

  /** The owner of every link is a recorded attempt. */
  ghost predicate Recorded(runId: string, attempts: seq<Attempt>, links: map<string, Link>) {
    forall g :: g in links ==> links[g].owner.runId == runId && links[g].owner.number < |attempts|
  }

  /** Every transition an outcome names is linked. */
  ghost predicate Cites(outcomes: seq<Outcome>, links: map<string, Link>) {
    forall k, id :: 0 <= k < |outcomes| && id in outcomes[k].transitions ==> Named(links, id)
  }

  lemma {:induction false} FirstCiterPush(citations: seq<Citation>, c: Citation, g: string)
    ensures FirstCiter(citations + [c], g)
         == if FirstCiter(citations, g).Some? then FirstCiter(citations, g)
            else if c.gatewayId == g then Some(c.attempt) else None
  {
    if citations != [] {
      assert (citations + [c])[1..] == citations[1..] + [c];
      FirstCiterPush(citations[1..], c, g);
    } else {
      assert citations + [c] == [c];
    }
  }

  lemma {:induction false} NumberedPush(runId: string, links: map<string, Link>, g: string, a: AttemptId)
    requires Numbered(runId, links) && g !in links
    ensures Numbered(runId, links[g := Link(TransitionId(runId, |links|), a)])
  {
    var more := links[g := Link(TransitionId(runId, |links|), a)];
    assert more.Keys == links.Keys + {g};
    assert |more| == |links| + 1;
  }

  lemma {:induction false} OwnedPush(
    links: map<string, Link>, citations: seq<Citation>, g: string, l: Link, a: AttemptId
  )
    requires Owned(links, citations) && (g !in links ==> l.owner == a)
    ensures g in links ==> Owned(links, citations + [Citation(g, a)])
    ensures g !in links ==> Owned(links[g := l], citations + [Citation(g, a)])
  {
    var more := if g in links then links else links[g := l];
    forall h ensures OwnerOf(more, h) == FirstCiter(citations + [Citation(g, a)], h) {
      FirstCiterPush(citations, Citation(g, a), h);
      assert OwnerOf(links, h) == FirstCiter(citations, h);
    }
  }

  // ---------------------------------------------------------------------------
  // The capture
  // ---------------------------------------------------------------------------

  /** A live listener that never raises. */
  class Sink {
    var received: seq<Event>

    constructor ()
      ensures received == []
    {
      received := [];
    }

    method Emit(e: Event)
      modifies this
      ensures received == old(received) + [e]
    {
      received := received + [e];
    }
  }

  /** The kinds of event a tool call leaves behind. */
  predicate OfTool(e: Event) { e.kind.ToolAttempted? || e.kind.ToolResult? || e.kind.ErrorEvent? }

  /** `more` continues `events` with evidence of tool calls only. */
  ghost predicate ToolsOnly(events: seq<Event>, more: seq<Event>) {
    events <= more && forall i :: |events| <= i < |more| ==> OfTool(more[i])
  }

  class Capture {
    const runId: string
    var events: seq<Event>
    var attempts: seq<Attempt>
    var outcomes: seq<Outcome>
    var links: map<string, Link>
    var flushed: nat
    ghost var citations: seq<Citation>

    ghost predicate Valid()
      reads this
    {
      && Log(runId, events) && AnswersTurns(runId, events)
      && Attempts(runId, events, attempts)
      && Outcomes(runId, events, attempts, outcomes)
      && Links(runId, links, citations)
      && Recorded(runId, attempts, links)
      && Cites(outcomes, links)
      && flushed <= |events|
    }

    constructor (runId: string)
      ensures Valid() && this.runId == runId
      ensures events == [] && attempts == [] && outcomes == [] && links == map[] && flushed == 0 && citations == []
    {
      this.runId := runId;
      events, attempts, outcomes, links, flushed, citations := [], [], [], map[], 0, [];
    }

    method AddEvent(kind: Kind, text: Option<string>, sources: seq<EventId>) returns (e: Event)
      requires Valid() && forall s :: s in sources ==> s.runId == runId && s.number < |events|
      requires kind.ToolAttempted? ==> sources == TurnSource(runId, events)
      modifies `events
      ensures Valid() && events == old(events) + [e]
      ensures e == Event(EventId(runId, |old(events)|), |old(events)|, kind, text, sources)
    {
      e := Event(EventId(runId, |events|), |events|, kind, text, sources);
      AnswersTurnsPush(runId, events, e);
      events := events + [e];
    }

    /** The latest user turn, which an attempt answers. */
    method LatestUserTurn() returns (sources: seq<EventId>)
      requires Valid()
      ensures sources == TurnSource(runId, events)
      ensures forall s :: s in sources ==> s.runId == runId && s.number < |events|
    {
      var i := |events|;
      assert events[..|events|] == events;
      while i > 0
        invariant 0 <= i <= |events|
        invariant TurnSource(runId, events[..i]) == TurnSource(runId, events)
      {
        i := i - 1;
        assert events[..i + 1][..i] == events[..i];
        if events[i].kind == UserTurn {
          assert WellPlaced(runId, events[i], i);
          return [events[i].id];
        }
      }
      sources := [];
    }

    method AddAttempt(tool: string) returns (a: Attempt)
      requires Valid()
      modifies `events, `attempts
      ensures Valid() && attempts == old(attempts) + [a] && ToolsOnly(old(events), events)
      ensures a.id == AttemptId(runId, |old(attempts)|) && a.tool == tool
      ensures IsEvent(runId, events, a.event, ToolAttempted)
    {
      var sources := LatestUserTurn();
      var index := |attempts|;
      var event := AddEvent(ToolAttempted, None, sources);
      a := Attempt(AttemptId(runId, index), event.id, index, tool);
      attempts := attempts + [a];
    }

    method AddResult(a: Attempt, status: Status, transitions: seq<TransitionId>)
      requires Valid() && a in attempts
      requires forall o :: o in outcomes ==> o.attempt != a.id
      requires forall id :: id in transitions ==> Named(links, id)
      modifies `events, `outcomes
      ensures Valid() && ToolsOnly(old(events), events)
      ensures |outcomes| == |old(outcomes)| + 1 && outcomes[..|old(outcomes)|] == old(outcomes)
      ensures outcomes[|old(outcomes)|].attempt == a.id && outcomes[|old(outcomes)|].transitions == transitions
      ensures outcomes[|old(outcomes)|].tool == a.tool && outcomes[|old(outcomes)|].status == status
    {
      var k :| 0 <= k < |attempts| && attempts[k] == a;
      var event := AddEvent(ToolResult, None, [a.event]);
      var o := Outcome(|outcomes|, a.id, event.id, a.tool, status, transitions);
      OutcomesPush(runId, events, attempts, outcomes, o);
      CitesPush(outcomes, links, o);
      outcomes := outcomes + [o];
    }

    /** A transition cited for the first time gets the next number and this attempt. */
    method LinkOne(g: string, a: Attempt) returns (id: TransitionId)
      requires Valid() && a in attempts
      modifies `links, `citations
      ensures Valid() && g in links && id == links[g].id
      ensures links == if g in old(links) then old(links) else old(links)[g := Link(TransitionId(runId, |old(links)|), a.id)]
      ensures citations == old(citations) + [Citation(g, a.id)]
    {
      var link := Link(TransitionId(runId, |links|), a.id);
      OwnedPush(links, citations, g, link, a.id);
      citations := citations + [Citation(g, a.id)];
      if g !in links {
        NumberedPush(runId, links, g, a.id);
        CitesKept(outcomes, links, g, link);
        links := links[g := link];
      }
      id := links[g].id;
    }

    method LinkNext(
      cited: seq<string>, i: nat, ids: seq<TransitionId>, a: Attempt, ghost start: map<string, Link>, ghost earlier: seq<Citation>
    ) returns (more: seq<TransitionId>)
      requires Valid() && a in attempts && i < |cited|
      requires NamesOf(links, cited[..i], ids) && Extends(start, links, cited[..i], a.id)
      requires citations == earlier + CitationsBy(cited[..i], a.id)
      modifies `links, `citations
      ensures Valid() && NamesOf(links, cited[..i + 1], more) && Extends(start, links, cited[..i + 1], a.id)
      ensures citations == earlier + CitationsBy(cited[..i + 1], a.id)
    {
      ghost var before := links;
      var id := LinkOne(cited[i], a);
      CitedPush(cited, i, a.id);
      ExtendOnce(start, before, links, cited[..i], ids, cited[i], a.id);
      more := ids + [id];
    }

    method LinkTransitions(cited: seq<string>, a: Attempt) returns (ids: seq<TransitionId>)
      requires Valid() && a in attempts
      modifies `links, `citations
      ensures Valid() && NamesOf(links, cited, ids) && Extends(old(links), links, cited, a.id)
      ensures citations == old(citations) + CitationsBy(cited, a.id)
    {
      ids := [];
      for i := 0 to |cited|
        invariant Valid() && NamesOf(links, cited[..i], ids) && Extends(old(links), links, cited[..i], a.id)
        invariant citations == old(citations) + CitationsBy(cited[..i], a.id)
      {
        ids := LinkNext(cited, i, ids, a, old(links), old(citations));
      }
      assert cited[..|cited|] == cited;
    }

    /** Hand the events to the listener that were not handed over yet, in order. */
    method Flush(sink: Option<Sink>)
      requires Valid()
      modifies `flushed, if sink.Some? then {sink.value} else {}
      ensures Valid() && flushed == |events|
      ensures sink.Some? ==> sink.value.received == old(sink.value.received) + events[old(flushed)..]
    {
      if sink.None? {
        flushed := |events|;
        return;
      }
      while flushed < |events|
        invariant Valid() && old(flushed) <= flushed
        invariant sink.value.received == old(sink.value.received) + events[old(flushed)..flushed]
      {
        SliceOneMore(old(sink.value.received), events, old(flushed), flushed);
        sink.value.Emit(events[flushed]);
        flushed := flushed + 1;
      }
    }
  }

  lemma {:induction false} SliceOneMore(before: seq<Event>, events: seq<Event>, a: nat, b: nat)
    requires a <= b < |events|
    ensures (before + events[a..b]) + [events[b]] == before + events[a..b + 1]
  {
  }

  function CitationsBy(cited: seq<string>, a: AttemptId): (r: seq<Citation>)
    ensures |r| == |cited|
  {
    seq(|cited|, i requires 0 <= i < |cited| => Citation(cited[i], a))
  }

  lemma {:induction false} CitedPush(cited: seq<string>, i: nat, a: AttemptId)
    requires i < |cited|
    ensures cited[..i + 1] == cited[..i] + [cited[i]]
    ensures CitationsBy(cited[..i + 1], a) == CitationsBy(cited[..i], a) + [Citation(cited[i], a)]
  {
  }

  /** `ids` are the canonical names of `cited`. */
  ghost predicate NamesOf(links: map<string, Link>, cited: seq<string>, ids: seq<TransitionId>) {
    |ids| == |cited| && forall i :: 0 <= i < |cited| ==> cited[i] in links && ids[i] == links[cited[i]].id
  }

  /** Links are never changed, and new ones are those of `cited` and belong to `owner`. */
  ghost predicate Extends(before: map<string, Link>, after: map<string, Link>, cited: seq<string>, owner: AttemptId) {
    && (forall g :: g in before ==> g in after && after[g] == before[g])
    && (forall g :: g in after && g !in before ==> g in cited && after[g].owner == owner)
  }

  lemma {:induction false} ExtendOnce(
    start: map<string, Link>, before: map<string, Link>, after: map<string, Link>,
    cited: seq<string>, ids: seq<TransitionId>, g: string, owner: AttemptId
  )
    requires Extends(start, before, cited, owner) && NamesOf(before, cited, ids) && g in after
    requires after == before || (g !in before && after == before[g := after[g]] && after[g].owner == owner)
    ensures Extends(start, after, cited + [g], owner) && NamesOf(after, cited + [g], ids + [after[g].id])
  {
  }

  lemma {:induction false} OutcomesPush(
    runId: string, events: seq<Event>, attempts: seq<Attempt>, outcomes: seq<Outcome>, o: Outcome
  )
    requires Outcomes(runId, events, attempts, outcomes) && Answers(runId, events, attempts, o)
    requires o.number == |outcomes| && forall p :: p in outcomes ==> p.attempt != o.attempt
    ensures Outcomes(runId, events, attempts, outcomes + [o])
  {
  }

  lemma {:induction false} CitesPush(outcomes: seq<Outcome>, links: map<string, Link>, o: Outcome)
    requires Cites(outcomes, links) && forall id :: id in o.transitions ==> Named(links, id)
    ensures Cites(outcomes + [o], links)
  {
  }

  lemma {:induction false} CitesKept(outcomes: seq<Outcome>, links: map<string, Link>, g: string, l: Link)
    requires Cites(outcomes, links) && g !in links
    ensures Cites(outcomes, links[g := l])
  {
    forall k, id | 0 <= k < |outcomes| && id in outcomes[k].transitions ensures Named(links[g := l], id) {
      assert Named(links, id);
      var h :| h in links && links[h].id == id;
      assert h in links[g := l] && links[g := l][h].id == id;
    }
  }
}
