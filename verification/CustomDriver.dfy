/**
  The turn-driving loop of the custom adapter: one opening turn, one resumption per
  scripted follow-up, and a canonical run at the end.
 */
module CustomDriver {
  import opened Bags
  import opened CustomRun

  // ---------------------------------------------------------------------------
  // The bridge to the gateway
  // ---------------------------------------------------------------------------

  /** How the gateway reacts: an answer, a refusal that carries one, another exception, or an awaitable. */
  datatype Reaction = Returns(answer: GatewayOutcome) | Refuses(answer: GatewayOutcome) | Fails | Awaits

  datatype Call = Call(wellFormed: bool, tool: string, reaction: Reaction)

  predicate Answered(c: Call) { c.wellFormed && (c.reaction.Returns? || c.reaction.Refuses?) }

  // What a sequence of calls must leave behind, call by call.

  function ToolOf(c: Call): (r: seq<string>) { if c.wellFormed then [c.tool] else [] }

  /** The tools of the calls that reach the gateway. */
  function ToolsOf(calls: seq<Call>): (r: seq<string>) { Gather(calls, ToolOf) }

  /** One answer of the gateway: to which attempt, on which tool, with which status and citations. */
  datatype Reply = Reply(attempt: AttemptId, tool: string, status: Status, cited: seq<string>)

  function RepliesOf(runId: string, calls: seq<Call>): (r: seq<Reply>)
    decreases |calls|
  {
    if calls == [] then []
    else
      var before, c := calls[..|calls| - 1], calls[|calls| - 1];
      RepliesOf(runId, before)
      + if Answered(c) then [Reply(AttemptId(runId, |ToolsOf(before)|), c.tool, c.reaction.answer.status, c.reaction.answer.cited)]
        else []
  }

  function CitedIn(reply: Reply): (r: seq<Citation>) { CitationsBy(reply.cited, reply.attempt) }

  /**
    The capture holds exactly the evidence of these calls: one attempt for each call that
    reaches the gateway, one outcome for each answer, and every citation, all in order.
   */
  ghost predicate Faithful(
    runId: string, attempts: seq<Attempt>, outcomes: seq<Outcome>, links: map<string, Link>,
    citations: seq<Citation>, calls: seq<Call>
  ) {
    && AttemptsOf(attempts, ToolsOf(calls))
    && OutcomesOf(outcomes, links, RepliesOf(runId, calls))
    && citations == Gather(RepliesOf(runId, calls), CitedIn)
  }

  ghost predicate AttemptsOf(attempts: seq<Attempt>, tools: seq<string>) {
    |attempts| == |tools| && forall k :: 0 <= k < |tools| ==> attempts[k].tool == tools[k]
  }

  ghost predicate OutcomesOf(outcomes: seq<Outcome>, links: map<string, Link>, replies: seq<Reply>) {
    |outcomes| == |replies| && forall k :: 0 <= k < |replies| ==> OutcomeOf(outcomes[k], links, replies[k])
  }

  ghost predicate OutcomeOf(o: Outcome, links: map<string, Link>, reply: Reply) {
    o.attempt == reply.attempt && o.tool == reply.tool && o.status == reply.status
    && NamesOf(links, reply.cited, o.transitions)
  }

  /** Linking more transitions renames none. */
  ghost predicate Grows(before: map<string, Link>, after: map<string, Link>) {
    forall g :: g in before ==> g in after && after[g] == before[g]
  }

  lemma {:induction false} OutcomesKept(
    outcomes: seq<Outcome>, before: map<string, Link>, after: map<string, Link>, replies: seq<Reply>
  )
    requires OutcomesOf(outcomes, before, replies) && Grows(before, after)
    ensures OutcomesOf(outcomes, after, replies)
  {
    forall k | 0 <= k < |replies| ensures OutcomeOf(outcomes[k], after, replies[k]) {
      assert OutcomeOf(outcomes[k], before, replies[k]);
    }
  }

  lemma {:induction false} RepliesPush(runId: string, calls: seq<Call>, c: Call)
    ensures ToolsOf(calls + [c]) == ToolsOf(calls) + ToolOf(c)
    ensures RepliesOf(runId, calls + [c]) == RepliesOf(runId, calls)
      + if Answered(c) then [Reply(AttemptId(runId, |ToolsOf(calls)|), c.tool, c.reaction.answer.status, c.reaction.answer.cited)] else []
  {
    GatherSplit(calls, [c], ToolOf);
    assert (calls + [c])[..|calls|] == calls;
  }

  /** A call that is not answered adds at most its attempt. */
  lemma {:induction false} FaithfulUnanswered(
    runId: string, attempts: seq<Attempt>, more: seq<Attempt>, outcomes: seq<Outcome>, links: map<string, Link>,
    citations: seq<Citation>, calls: seq<Call>, c: Call
  )
    requires Faithful(runId, attempts, outcomes, links, citations, calls) && !Answered(c)
    requires if c.wellFormed then |more| == |attempts| + 1 && attempts <= more && more[|attempts|].tool == c.tool
             else more == attempts
    ensures Faithful(runId, more, outcomes, links, citations, calls + [c])
  {
    RepliesPush(runId, calls, c);
    assert RepliesOf(runId, calls + [c]) == RepliesOf(runId, calls);
  }

  lemma {:induction false} FaithfulAnswered(
    runId: string, attempts: seq<Attempt>, more: seq<Attempt>, outcomes: seq<Outcome>, outcomes': seq<Outcome>,
    links: map<string, Link>, links': map<string, Link>, citations: seq<Citation>, citations': seq<Citation>,
    calls: seq<Call>, c: Call
  )
    requires Faithful(runId, attempts, outcomes, links, citations, calls) && Answered(c) && Grows(links, links')
    requires |more| == |attempts| + 1 && attempts <= more && more[|attempts|].tool == c.tool
    requires |outcomes'| == |outcomes| + 1 && outcomes <= outcomes'
    requires OutcomeOf(outcomes'[|outcomes|], links',
               Reply(AttemptId(runId, |attempts|), c.tool, c.reaction.answer.status, c.reaction.answer.cited))
    requires citations' == citations + CitationsBy(c.reaction.answer.cited, AttemptId(runId, |attempts|))
    ensures Faithful(runId, more, outcomes', links', citations', calls + [c])
  {
    RepliesPush(runId, calls, c);
    OutcomesKept(outcomes, links, links', RepliesOf(runId, calls));
    var reply := Reply(AttemptId(runId, |attempts|), c.tool, c.reaction.answer.status, c.reaction.answer.cited);
    GatherSplit(RepliesOf(runId, calls), [reply], CitedIn);
    assert Gather([reply], CitedIn) == CitedIn(reply);
  }

  /** Every linked transition is named by an outcome. */
  ghost predicate AllNamed(links: map<string, Link>, outcomes: seq<Outcome>) {
    forall g :: g in links ==> NamedBy(outcomes, links[g].id)
  }

  ghost predicate NamedBy(outcomes: seq<Outcome>, id: TransitionId) {
    exists k :: 0 <= k < |outcomes| && id in outcomes[k].transitions
  }

  ghost predicate Fresh(outcomes: seq<Outcome>, a: Attempt) {
    forall o :: o in outcomes ==> o.attempt != a.id
  }

  method Record(capture: Capture, a: Attempt, answer: GatewayOutcome)
    requires capture.Valid() && a in capture.attempts && AllNamed(capture.links, capture.outcomes)
    requires Fresh(capture.outcomes, a)
    modifies capture`links, capture`citations, capture`events, capture`outcomes
    ensures capture.Valid() && AllNamed(capture.links, capture.outcomes)
    ensures ToolsOnly(old(capture.events), capture.events)
    ensures |capture.outcomes| == |old(capture.outcomes)| + 1 && old(capture.outcomes) <= capture.outcomes
    ensures capture.outcomes[|old(capture.outcomes)|].attempt == a.id
    ensures OutcomeOf(capture.outcomes[|old(capture.outcomes)|], capture.links, Reply(a.id, a.tool, answer.status, answer.cited))
    ensures Grows(old(capture.links), capture.links)
    ensures capture.citations == old(capture.citations) + CitationsBy(answer.cited, a.id)
  {
    var ids := capture.LinkTransitions(answer.cited, a);
    forall id | id in ids ensures Named(capture.links, id) {
      var i :| 0 <= i < |ids| && ids[i] == id;
      assert answer.cited[i] in capture.links;
    }
    capture.AddResult(a, answer.status, ids);
    StillNamed(old(capture.links), capture.links, answer.cited, ids, a.id, old(capture.outcomes), capture.outcomes);
  }

  lemma {:induction false} StillNamed(
    before: map<string, Link>, after: map<string, Link>, cited: seq<string>, ids: seq<TransitionId>, owner: AttemptId,
    earlier: seq<Outcome>, now: seq<Outcome>
  )
    requires AllNamed(before, earlier) && Extends(before, after, cited, owner) && NamesOf(after, cited, ids)
    requires earlier <= now && |now| == |earlier| + 1 && now[|earlier|].transitions == ids
    ensures AllNamed(after, now)
  {
    forall g | g in after ensures NamedBy(now, after[g].id) {
      if g in before {
        assert NamedBy(earlier, before[g].id);
        var k :| 0 <= k < |earlier| && before[g].id in earlier[k].transitions;
        assert after[g].id in now[k].transitions;
      } else {
        var i :| 0 <= i < |cited| && cited[i] == g;
        assert ids[i] == after[g].id;
        assert after[g].id in now[|earlier|].transitions;
      }
    }
  }

  lemma {:induction false} NewAttemptIsFresh(
    runId: string, events: seq<Event>, attempts: seq<Attempt>, outcomes: seq<Outcome>, a: Attempt
  )
    requires Outcomes(runId, events, attempts, outcomes) && a.id == AttemptId(runId, |attempts|)
    ensures Fresh(outcomes, a)
  {
    forall o | o in outcomes ensures o.attempt != a.id {
      var k :| 0 <= k < |outcomes| && outcomes[k] == o;
      assert Answers(runId, events, attempts, outcomes[k]);
    }
  }

  /** The capture is sound, and holds exactly the evidence of the calls played. */
  ghost predicate Good(capture: Capture, played: seq<Call>)
    reads capture
  {
    capture.Valid() && AllNamed(capture.links, capture.outcomes)
    && Faithful(capture.runId, capture.attempts, capture.outcomes, capture.links, capture.citations, played)
  }

  /** A call the gateway answers or refuses: an attempt and its outcome. */
  method AnsweredCall(capture: Capture, c: Call, ghost played: seq<Call>)
    requires Good(capture, played) && Answered(c)
    modifies capture`links, capture`citations, capture`events, capture`outcomes, capture`attempts
    ensures Good(capture, played + [c]) && ToolsOnly(old(capture.events), capture.events)
  {
    ghost var attempts, outcomes, events := capture.attempts, capture.outcomes, capture.events;
    ghost var links, citations := capture.links, capture.citations;
    var a := capture.AddAttempt(c.tool);
    NewAttemptIsFresh(capture.runId, events, attempts, outcomes, a);
    Record(capture, a, c.reaction.answer);
    FaithfulAnswered(capture.runId, attempts, capture.attempts, outcomes, capture.outcomes, links, capture.links,
                     citations, capture.citations, played, c);
  }

  /** A call the gateway does not answer: an attempt, and an error event if it raised. */
  method UnansweredCall(capture: Capture, c: Call, ghost played: seq<Call>)
    requires Good(capture, played) && c.wellFormed && !Answered(c)
    modifies capture`events, capture`attempts
    ensures Good(capture, played + [c]) && ToolsOnly(old(capture.events), capture.events)
  {
    ghost var attempts := capture.attempts;
    var a := capture.AddAttempt(c.tool);
    if c.reaction.Fails? {
      var _ := capture.AddEvent(ErrorEvent, None, [a.event]);
    }
    FaithfulUnanswered(capture.runId, attempts, capture.attempts, capture.outcomes, capture.links, capture.citations, played, c);
  }

  /** One tool call: what it leaves in the capture, and whether it raises into the agent. */
  method DoCall(capture: Capture, c: Call, ghost played: seq<Call>) returns (raised: bool)
    requires Good(capture, played)
    modifies capture`links, capture`citations, capture`events, capture`outcomes, capture`attempts
    ensures Good(capture, played + [c]) && ToolsOnly(old(capture.events), capture.events)
    ensures raised <==> !c.wellFormed || !c.reaction.Returns? || c.reaction.answer.status.Blocked?
  {
    if !c.wellFormed {
      FaithfulUnanswered(capture.runId, capture.attempts, capture.attempts, capture.outcomes, capture.links,
                         capture.citations, played, c);
      return true;
    }
    if Answered(c) {
      AnsweredCall(capture, c, played);
      return c.reaction.Refuses? || c.reaction.answer.status.Blocked?;
    }
    UnansweredCall(capture, c, played);
    raised := true;
  }

  // ---------------------------------------------------------------------------
  // One stage
  // ---------------------------------------------------------------------------

  datatype Resource = ModelTurns | ToolCalls | Tokens | CostUsd | WallTime | OtherResource

  /** An exception, by what decides its mapping: an exhausted budget, a cancellation, an ordinary or a fatal one. */
  datatype Failure = Budget(resource: Resource) | Cancellation | Ordinary | Fatal

  /** What the agent hands back; rendering it as text can fail. */
  datatype Output = Rendered(text: Option<string>) | Unrenderable

  datatype Ending = Returned(output: Output) | NotAResult | Raised(failure: Failure)

  /** What the agent does in one stage: its tool calls, then how it ends. */
  datatype Stage = Stage(calls: seq<Call>, ending: Ending)

  datatype Termination =
    | Completed | WallClockTimeout | MaxModelTurns | MaxToolCalls | TokenBudget | CostBudget | AdapterError | Cancelled

  function MapException(f: Failure): (r: Option<Termination>) {
    match f
    case Budget(ModelTurns) => Some(MaxModelTurns)
    case Budget(ToolCalls) => Some(MaxToolCalls)
    case Budget(Tokens) => Some(TokenBudget)
    case Budget(CostUsd) => Some(CostBudget)
    case Budget(WallTime) => Some(WallClockTimeout)
    case Budget(OtherResource) => Some(AdapterError)
    case Cancellation => Some(Cancelled)
    case Ordinary => Some(AdapterError)
    case Fatal => None
  }

  /** The text of a user turn, of an assistant output, of the final output. */
  function TextsOf(kind: Kind): (f: Event -> seq<Option<string>>) {
    (e: Event) => if e.kind == kind then [e.text] else []
  }

  function Texts(events: seq<Event>, kind: Kind): (r: seq<Option<string>>) {
    Gather(events, TextsOf(kind))
  }

  lemma {:induction false} TextsPush(events: seq<Event>, e: Event, kind: Kind)
    ensures Texts(events + [e], kind) == Texts(events, kind) + (if e.kind == kind then [e.text] else [])
  {
    GatherSplit(events, [e], TextsOf(kind));
  }

  lemma {:induction false} TextsOfTools(events: seq<Event>, more: seq<Event>, kind: Kind)
    requires ToolsOnly(events, more) && (kind.UserTurn? || kind.AssistantOutput? || kind.FinalOutput?)
    ensures Texts(more, kind) == Texts(events, kind)
    decreases |more|
  {
    if |more| > |events| {
      var fewer, e := more[..|more| - 1], more[|more| - 1];
      assert more == fewer + [e];
      TextsPush(fewer, e, kind);
      TextsOfTools(events, fewer, kind);
    } else {
      assert more == events;
    }
  }

  /** The turns and outputs recorded so far. */
  ghost predicate Told(
    events: seq<Event>, turns: seq<string>, outputs: seq<Option<string>>, finals: seq<Option<string>>
  ) {
    && Texts(events, UserTurn) == Wrapped(turns)
    && Texts(events, AssistantOutput) == outputs
    && Texts(events, FinalOutput) == finals
  }

  function Wrapped(s: seq<string>): (r: seq<Option<string>>)
    ensures |r| == |s| && forall i :: 0 <= i < |s| ==> r[i] == Some(s[i])
  {
    seq(|s|, i requires 0 <= i < |s| => Some(s[i]))
  }

  lemma {:induction false} ToldTools(
    events: seq<Event>, more: seq<Event>, turns: seq<string>, outputs: seq<Option<string>>, finals: seq<Option<string>>
  )
    requires Told(events, turns, outputs, finals) && ToolsOnly(events, more)
    ensures Told(more, turns, outputs, finals)
  {
    TextsOfTools(events, more, UserTurn);
    TextsOfTools(events, more, AssistantOutput);
    TextsOfTools(events, more, FinalOutput);
  }

  lemma {:induction false} ToldPush(
    events: seq<Event>, e: Event, turns: seq<string>, outputs: seq<Option<string>>, finals: seq<Option<string>>
  )
    requires Told(events, turns, outputs, finals)
    ensures e.kind.AssistantOutput? ==> Told(events + [e], turns, outputs + [e.text], finals)
    ensures e.kind.FinalOutput? ==> Told(events + [e], turns, outputs, finals + [e.text])
    ensures e.kind.UserTurn? && e.text.Some? ==> Told(events + [e], turns + [e.text.value], outputs, finals)
    ensures e.kind.ErrorEvent? ==> Told(events + [e], turns, outputs, finals)
  {
    TextsPush(events, e, UserTurn);
    TextsPush(events, e, AssistantOutput);
    TextsPush(events, e, FinalOutput);
    if e.text.Some? { assert Wrapped(turns + [e.text.value]) == Wrapped(turns) + [e.text]; }
  }

  method PlayCalls(capture: Capture, calls: seq<Call>, ghost played: seq<Call>)
    requires Good(capture, played)
    modifies capture`links, capture`citations, capture`events, capture`outcomes, capture`attempts
    ensures Good(capture, played + calls) && ToolsOnly(old(capture.events), capture.events)
  {
    PlayedStart(played, calls);
    for i := 0 to |calls|
      invariant Good(capture, played + calls[..i]) && ToolsOnly(old(capture.events), capture.events)
    {
      ghost var before := capture.events;
      var _ := DoCall(capture, calls[i], played + calls[..i]);
      ToolsOnlyTwice(old(capture.events), before, capture.events);
      PlayedPush(played, calls, i);
    }
  }

  lemma {:induction false} PlayedStart(played: seq<Call>, calls: seq<Call>)
    ensures played + calls[..0] == played && calls[..|calls|] == calls
  {
  }

  lemma {:induction false} PlayedPush(played: seq<Call>, calls: seq<Call>, i: nat)
    requires i < |calls|
    ensures played + calls[..i + 1] == (played + calls[..i]) + [calls[i]]
  {
  }

  lemma {:induction false} ToolsOnlyTwice(a: seq<Event>, b: seq<Event>, c: seq<Event>)
    requires ToolsOnly(a, b) && ToolsOnly(b, c)
    ensures ToolsOnly(a, c)
  {
  }

  method RecordOutput(
    capture: Capture, text: Option<string>, ghost turns: seq<string>, ghost outputs: seq<Option<string>>, ghost played: seq<Call>
  )
    requires Good(capture, played) && Told(capture.events, turns, outputs, [])
    modifies capture`events
    ensures Good(capture, played) && Told(capture.events, turns, outputs + [text], []) && old(capture.events) <= capture.events
  {
    ghost var events := capture.events;
    var e := capture.AddEvent(AssistantOutput, text, []);
    ToldPush(events, e, turns, outputs, []);
  }

  /** The agent's turn: its calls, then its output as evidence, or what it raised. */
  method PlayStage(
    capture: Capture, stage: Stage, ghost turns: seq<string>, ghost outputs: seq<Option<string>>, ghost played: seq<Call>
  ) returns (text: Option<string>, failure: Option<Failure>)
    requires Good(capture, played) && Told(capture.events, turns, outputs, [])
    modifies capture`links, capture`citations, capture`events, capture`outcomes, capture`attempts
    ensures Good(capture, played + stage.calls) && old(capture.events) <= capture.events
    ensures failure.None? <==> stage.ending.Returned? && stage.ending.output.Rendered?
    ensures failure.None? ==> text == stage.ending.output.text && Told(capture.events, turns, outputs + [text], [])
    ensures failure.Some? ==> Told(capture.events, turns, outputs, [])
    ensures failure.Some? ==> failure.value == if stage.ending.Raised? then stage.ending.failure else Ordinary
  {
    PlayCalls(capture, stage.calls, played);
    ToldTools(old(capture.events), capture.events, turns, outputs, []);
    match stage.ending
    case Raised(f) => return None, Some(f);
    case NotAResult => return None, Some(Ordinary);
    case Returned(Unrenderable) => return None, Some(Ordinary);
    case Returned(Rendered(t)) =>
      RecordOutput(capture, t, turns, outputs, played + stage.calls);
      return t, None;
  }

  // ---------------------------------------------------------------------------
  // The run
  // ---------------------------------------------------------------------------

  /** What the sink has is what has been flushed. */
  ghost predicate Relayed(sink: Option<Sink>, before: seq<Event>, capture: Capture)
    reads capture, if sink.Some? then {sink.value} else {}
  {
    capture.flushed <= |capture.events|
    && (sink.Some? ==> sink.value.received == before + capture.events[..capture.flushed])
  }

  function Received(sink: Option<Sink>): (r: seq<Event>)
    reads if sink.Some? then {sink.value} else {}
  {
    if sink.Some? then sink.value.received else []
  }

  method FlushEvents(capture: Capture, sink: Option<Sink>, ghost before: seq<Event>, ghost played: seq<Call>)
    requires Good(capture, played) && Relayed(sink, before, capture)
    modifies capture`flushed, if sink.Some? then {sink.value} else {}
    ensures Good(capture, played) && Relayed(sink, before, capture) && capture.flushed == |capture.events|
  {
    TakeAndDrop(before, capture.events, capture.flushed);
    capture.Flush(sink);
  }

  lemma {:induction false} TakeAndDrop<T>(before: seq<T>, s: seq<T>, n: nat)
    requires n <= |s|
    ensures (before + s[..n]) + s[n..] == before + s[..|s|]
  {
  }

  /** The capture, the sink and the story so far. */
  ghost predicate Running(
    capture: Capture, sink: Option<Sink>, before: seq<Event>,
    turns: seq<string>, outputs: seq<Option<string>>, finals: seq<Option<string>>, played: seq<Call>
  )
    reads capture, if sink.Some? then {sink.value} else {}
  {
    Good(capture, played) && Relayed(sink, before, capture) && Told(capture.events, turns, outputs, finals)
  }

  lemma {:induction false} RelayedKept(events: seq<Event>, more: seq<Event>, flushed: nat)
    requires events <= more && flushed <= |events|
    ensures more[..flushed] == events[..flushed]
  {
  }

  method FlushRunning(
    capture: Capture, sink: Option<Sink>, ghost before: seq<Event>,
    ghost turns: seq<string>, ghost outputs: seq<Option<string>>, ghost finals: seq<Option<string>>, ghost played: seq<Call>
  )
    requires Running(capture, sink, before, turns, outputs, finals, played)
    modifies capture`flushed, if sink.Some? then {sink.value} else {}
    ensures Running(capture, sink, before, turns, outputs, finals, played) && capture.flushed == |capture.events|
  {
    FlushEvents(capture, sink, before, played);
  }

  method RunStage(
    capture: Capture, stage: Stage, sink: Option<Sink>,
    ghost before: seq<Event>, ghost turns: seq<string>, ghost outputs: seq<Option<string>>, ghost played: seq<Call>
  ) returns (text: Option<string>, failure: Option<Failure>)
    requires Running(capture, sink, before, turns, outputs, [], played)
    modifies capture`links, capture`citations, capture`events, capture`outcomes, capture`attempts
    ensures Running(capture, sink, before, turns, if failure.Some? then outputs else outputs + [text], [], played + stage.calls)
    ensures failure.None? ==> stage.ending == Returned(Rendered(text))
    ensures failure.Some? ==> failure.value == FailureOf(stage.ending) && !EndsWell(stage.ending)
  {
    ghost var events, flushed := capture.events, capture.flushed;
    text, failure := PlayStage(capture, stage, turns, outputs, played);
    RelayedKept(events, capture.events, flushed);
  }

  /** Play one stage; its events reach the sink if it ended well. */
  method AnswerTurn(
    capture: Capture, stage: Stage, sink: Option<Sink>,
    ghost before: seq<Event>, ghost turns: seq<string>, ghost outputs: seq<Option<string>>, ghost played: seq<Call>
  ) returns (text: Option<string>, failure: Option<Failure>)
    requires Running(capture, sink, before, turns, outputs, [], played)
    modifies capture, if sink.Some? then {sink.value} else {}
    ensures Running(capture, sink, before, turns, if failure.Some? then outputs else outputs + [text], [], played + stage.calls)
    ensures failure.None? ==> stage.ending == Returned(Rendered(text))
    ensures failure.Some? ==> failure.value == FailureOf(stage.ending) && !EndsWell(stage.ending)
  {
    text, failure := RunStage(capture, stage, sink, before, turns, outputs, played);
    if failure.None? { FlushRunning(capture, sink, before, turns, outputs + [text], [], played + stage.calls); }
  }

  /** Record a turn, an output, or an error of the loop itself. */
  method Note(
    capture: Capture, kind: Kind, text: Option<string>, sink: Option<Sink>,
    ghost before: seq<Event>, ghost turns: seq<string>, ghost outputs: seq<Option<string>>, ghost played: seq<Call>
  )
    requires Running(capture, sink, before, turns, outputs, [], played)
    requires (kind.UserTurn? && text.Some?) || kind.FinalOutput? || kind.ErrorEvent?
    modifies capture`events
    ensures |capture.events| == |old(capture.events)| + 1 && capture.events[|old(capture.events)|].kind == kind
    ensures capture.events[|old(capture.events)|].text == text
    ensures Running(capture, sink, before, if kind.UserTurn? then turns + [text.value] else turns, outputs,
                    if kind.FinalOutput? then [text] else [], played)
  {
    ghost var events := capture.events;
    var e := capture.AddEvent(kind, text, []);
    ToldNote(events, e, turns, outputs);
    RelayedKept(events, capture.events, capture.flushed);
  }

  lemma {:induction false} ToldNote(events: seq<Event>, e: Event, turns: seq<string>, outputs: seq<Option<string>>)
    requires Told(events, turns, outputs, [])
    requires (e.kind.UserTurn? && e.text.Some?) || e.kind.FinalOutput? || e.kind.ErrorEvent?
    ensures Told(events + [e], if e.kind.UserTurn? then turns + [e.text.value] else turns, outputs,
                 if e.kind.FinalOutput? then [e.text] else [])
  {
    ToldPush(events, e, turns, outputs, []);
    AfterNothing(e.text);
  }

  /** The output of every stage that ended well. */
  ghost predicate OutputsOf(agent: nat -> Stage, outputs: seq<Option<string>>) {
    forall k :: 0 <= k < |outputs| ==> agent(k + 1).ending == Returned(Rendered(outputs[k]))
  }

  /** The calls of the first `n` stages, in order. */
  ghost function Played(agent: nat -> Stage, n: nat): (r: seq<Call>) {
    if n == 0 then [] else Played(agent, n - 1) + agent(n).calls
  }

  /** How the turns went: by an exception, by spending the turn budget, or to the end. */
  datatype Drive = Drive(stages: nat, delivered: nat, failure: Option<Failure>, exhausted: bool, output: Option<string>)

  ghost predicate Driven(
    d: Drive, scripted: seq<string>, maxTurns: nat, agent: nat -> Stage, outputs: seq<Option<string>>
  ) {
    && 1 <= d.stages <= maxTurns && d.delivered == d.stages - 1 <= |scripted|
    && |outputs| == (if d.failure.Some? then d.stages - 1 else d.stages) && OutputsOf(agent, outputs)
    && (d.exhausted ==> d.failure.None? && d.stages == maxTurns && d.delivered < |scripted|)
    && (d.failure.None? && !d.exhausted ==> d.delivered == |scripted|)
    && (d.failure.None? ==> d.output == outputs[|outputs| - 1])
    && (d.failure.Some? ==> d.failure.value == FailureOf(agent(d.stages).ending) && !EndsWell(agent(d.stages).ending))
  }

  predicate EndsWell(e: Ending) { e.Returned? && e.output.Rendered? }

  /** What a stage that does not end well raises. */
  function FailureOf(e: Ending): (f: Failure) { if e.Raised? then e.failure else Ordinary }

  lemma {:induction false} OutputsPush(agent: nat -> Stage, outputs: seq<Option<string>>, text: Option<string>)
    requires OutputsOf(agent, outputs) && agent(|outputs| + 1).ending == Returned(Rendered(text))
    ensures OutputsOf(agent, outputs + [text])
  {
  }

  lemma {:induction false} NoTurnsYet(prompt: string, scripted: seq<string>)
    ensures [prompt] + scripted[..0] == [prompt]
  {
  }

  lemma {:induction false} TurnsPush(prompt: string, scripted: seq<string>, k: nat)
    requires k < |scripted|
    ensures [prompt] + scripted[..k + 1] == ([prompt] + scripted[..k]) + [scripted[k]]
  {
  }

  lemma {:induction false} DroveWell(
    stages: nat, exhausted: bool, text: Option<string>, scripted: seq<string>, maxTurns: nat,
    agent: nat -> Stage, outputs: seq<Option<string>>
  )
    requires 1 <= stages <= maxTurns && stages - 1 <= |scripted| && |outputs| == stages && OutputsOf(agent, outputs)
    requires text == outputs[stages - 1]
    requires if exhausted then stages == maxTurns && stages - 1 < |scripted| else stages - 1 == |scripted|
    ensures Driven(Drive(stages, stages - 1, None, exhausted, text), scripted, maxTurns, agent, outputs)
  {
  }

  lemma {:induction false} DroveInto(
    stages: nat, f: Failure, scripted: seq<string>, maxTurns: nat, agent: nat -> Stage, outputs: seq<Option<string>>
  )
    requires 1 <= stages <= maxTurns && stages - 1 <= |scripted| && |outputs| == stages - 1 && OutputsOf(agent, outputs)
    requires f == FailureOf(agent(stages).ending) && !EndsWell(agent(stages).ending)
    ensures Driven(Drive(stages, stages - 1, Some(f), false, None), scripted, maxTurns, agent, outputs)
  {
  }

  /** One turn of the loop: play a stage, then stop or deliver the next scripted turn. */
  method OneTurn(
    capture: Capture, prompt: string, scripted: seq<string>, maxTurns: nat, agent: nat -> Stage,
    sink: Option<Sink>, delivered: nat, ghost before: seq<Event>, ghost outputs: seq<Option<string>>
  ) returns (d: Option<Drive>, ghost outputs': seq<Option<string>>)
    requires delivered == |outputs| <= |scripted| && delivered < maxTurns && OutputsOf(agent, outputs)
    requires Running(capture, sink, before, [prompt] + scripted[..delivered], outputs, [], Played(agent, delivered))
    modifies capture, if sink.Some? then {sink.value} else {}
    ensures d.None? ==> delivered + 1 == |outputs'| <= |scripted| && delivered + 1 < maxTurns && OutputsOf(agent, outputs')
    ensures d.Some? ==> Driven(d.value, scripted, maxTurns, agent, outputs')
    ensures d.None? ==>
      Running(capture, sink, before, [prompt] + scripted[..delivered + 1], outputs', [], Played(agent, delivered + 1))
    ensures d.Some? ==>
      Running(capture, sink, before, [prompt] + scripted[..d.value.delivered], outputs', [], Played(agent, d.value.stages))
  {
    var stages := delivered + 1;
    ghost var turns := [prompt] + scripted[..delivered];
    var text, failure := AnswerTurn(capture, agent(stages), sink, before, turns, outputs, Played(agent, delivered));
    if failure.Some? {
      DroveInto(stages, failure.value, scripted, maxTurns, agent, outputs);
      return Some(Drive(stages, delivered, failure, false, None)), outputs;
    }
    OutputsPush(agent, outputs, text);
    outputs' := outputs + [text];
    d := NextTurn(capture, prompt, scripted, maxTurns, agent, sink, delivered, text, before, outputs');
  }

  /** After a stage that ended well: the end, the end of the budget, or the next scripted turn. */
  method NextTurn(
    capture: Capture, prompt: string, scripted: seq<string>, maxTurns: nat, agent: nat -> Stage,
    sink: Option<Sink>, delivered: nat, text: Option<string>, ghost before: seq<Event>, ghost outputs: seq<Option<string>>
  ) returns (d: Option<Drive>)
    requires delivered <= |scripted| && delivered + 1 == |outputs| <= maxTurns && OutputsOf(agent, outputs) && text == outputs[delivered]
    requires Running(capture, sink, before, [prompt] + scripted[..delivered], outputs, [], Played(agent, delivered + 1))
    modifies capture`events
    ensures d.None? ==> delivered + 1 <= |scripted| && delivered + 1 < maxTurns
    ensures d.Some? ==> Driven(d.value, scripted, maxTurns, agent, outputs)
    ensures d.None? ==>
      Running(capture, sink, before, [prompt] + scripted[..delivered + 1], outputs, [], Played(agent, delivered + 1))
    ensures d.Some? ==>
      Running(capture, sink, before, [prompt] + scripted[..d.value.delivered], outputs, [], Played(agent, d.value.stages))
  {
    var stages := delivered + 1;
    ghost var turns, played := [prompt] + scripted[..delivered], Played(agent, stages);
    if delivered >= |scripted| {
      DroveWell(stages, false, text, scripted, maxTurns, agent, outputs);
      return Some(Drive(stages, delivered, None, false, text));
    }
    if maxTurns - stages < 1 {
      Note(capture, ErrorEvent, None, sink, before, turns, outputs, played);
      DroveWell(stages, true, text, scripted, maxTurns, agent, outputs);
      return Some(Drive(stages, delivered, None, true, text));
    }
    Note(capture, UserTurn, Some(scripted[delivered]), sink, before, turns, outputs, played);
    TurnsPush(prompt, scripted, delivered);
    d := None;
  }

  lemma {:induction false} RunningStart(
    capture: Capture, prompt: string, scripted: seq<string>, agent: nat -> Stage, sink: Option<Sink>, before: seq<Event>
  )
    requires Running(capture, sink, before, [prompt], [], [], [])
    ensures Running(capture, sink, before, [prompt] + scripted[..0], [], [], Played(agent, 0))
  {
    NoTurnsYet(prompt, scripted);
  }

  /**
    The turn loop. `agent` says what the agent does in each stage; the method sees only
    the stages it reaches.
   */
  method DriveTurns(
    capture: Capture, prompt: string, scripted: seq<string>, maxTurns: nat, agent: nat -> Stage,
    sink: Option<Sink>, ghost before: seq<Event>
  ) returns (d: Drive, ghost outputs: seq<Option<string>>)
    requires maxTurns >= 1 && Running(capture, sink, before, [prompt], [], [], [])
    modifies capture, if sink.Some? then {sink.value} else {}
    ensures Driven(d, scripted, maxTurns, agent, outputs)
    ensures Running(capture, sink, before, [prompt] + scripted[..d.delivered], outputs, [], Played(agent, d.stages))
  {
    var delivered := 0;
    outputs := [];
    RunningStart(capture, prompt, scripted, agent, sink, before);
    while true
      invariant delivered == |outputs| <= |scripted| && delivered < maxTurns && OutputsOf(agent, outputs)
      invariant Running(capture, sink, before, [prompt] + scripted[..delivered], outputs, [], Played(agent, delivered))
      decreases maxTurns - delivered
    {
      var stop;
      stop, outputs := OneTurn(capture, prompt, scripted, maxTurns, agent, sink, delivered, before, outputs);
      if stop.Some? { return stop.value, outputs; }
      delivered := delivered + 1;
    }
  }

  // ---------------------------------------------------------------------------
  // The canonical run
  // ---------------------------------------------------------------------------

  datatype CanonicalRun = CanonicalRun(
    runId: string, termination: Termination, events: seq<Event>, attempts: seq<Attempt>, outcomes: seq<Outcome>,
    transitions: seq<Link>, finalOutput: Option<string>, stages: nat, delivered: nat)

  /** The evidence of the turns, or the agent raised a fatal exception. */
  datatype Result = Reraised | Executed(run: CanonicalRun)

  function Relabel(links: map<string, Link>): (f: string -> seq<Link>) {
    (g: string) => if g in links then [links[g]] else []
  }

  /** The gateway's own transitions that were cited, under their canonical names and owners. */
  function StateTransitions(listed: seq<string>, links: map<string, Link>): (r: seq<Link>) {
    Gather(listed, Relabel(links))
  }

  /** The evidence of a finished run. */
  ghost predicate Evidence(run: CanonicalRun, listed: seq<string>, links: map<string, Link>, citations: seq<Citation>) {
    && Log(run.runId, run.events) && AnswersTurns(run.runId, run.events)
    && Attempts(run.runId, run.events, run.attempts)
    && Outcomes(run.runId, run.events, run.attempts, run.outcomes)
    && Links(run.runId, links, citations) && Recorded(run.runId, run.attempts, links)
    && Cites(run.outcomes, links) && AllNamed(links, run.outcomes)
    && run.transitions == StateTransitions(listed, links)
  }

  /** The final output exists, once and last, exactly when the run completed. */
  ghost predicate Concluded(run: CanonicalRun) {
    && (run.termination.Completed? ==>
          Texts(run.events, FinalOutput) == [run.finalOutput] && run.events != []
          && run.events[|run.events| - 1].kind == FinalOutput)
    && (!run.termination.Completed? ==> Texts(run.events, FinalOutput) == [] && run.finalOutput.None?)
  }

  /** The turns that were delivered, and what every stage that ended well answered. */
  ghost predicate Conversation(
    run: CanonicalRun, prompt: string, scripted: seq<string>, maxTurns: int, agent: nat -> Stage
  ) {
    && 1 <= run.stages <= maxTurns && run.delivered == run.stages - 1 <= |scripted|
    && Texts(run.events, UserTurn) == Wrapped([prompt] + scripted[..run.delivered])
    && OutputsOf(agent, Texts(run.events, AssistantOutput))
    && run.stages - 1 <= |Texts(run.events, AssistantOutput)| <= run.stages
    && (run.termination.Completed? <==> run.delivered == |scripted| && EndsWell(agent(run.stages).ending))
    && (run.termination.Completed? ==> agent(run.stages).ending == Returned(Rendered(run.finalOutput)))
    && (EndsWell(agent(run.stages).ending) && run.delivered < |scripted| ==>
          run.stages == maxTurns && run.termination == MaxModelTurns)
    && (!EndsWell(agent(run.stages).ending) ==> Some(run.termination) == MapException(FailureOf(agent(run.stages).ending)))
  }

  function TerminationOf(d: Drive): (r: Option<Termination>)
    ensures r == Some(Completed) <==> d.failure.None? && !d.exhausted
  {
    if d.failure.Some? then MapException(d.failure.value) else if d.exhausted then Some(MaxModelTurns) else Some(Completed)
  }

  /** The final output is the last event exactly when the turns went to the end. */
  ghost predicate EndEvent(events: seq<Event>, d: Drive, finalOutput: Option<string>) {
    if TerminationOf(d) == Some(Completed)
    then finalOutput == d.output && events != [] && events[|events| - 1].kind == FinalOutput
    else finalOutput.None?
  }

  method RecordEnd(
    capture: Capture, d: Drive, sink: Option<Sink>,
    ghost before: seq<Event>, ghost turns: seq<string>, ghost outputs: seq<Option<string>>, ghost played: seq<Call>
  ) returns (finalOutput: Option<string>)
    requires Running(capture, sink, before, turns, outputs, [], played) && TerminationOf(d).Some?
    modifies capture`events
    ensures Running(capture, sink, before, turns, outputs, if TerminationOf(d) == Some(Completed) then [finalOutput] else [], played)
    ensures EndEvent(capture.events, d, finalOutput)
  {
    finalOutput := None;
    if d.failure.Some? {
      Note(capture, ErrorEvent, None, sink, before, turns, outputs, played);
    } else if !d.exhausted {
      finalOutput := d.output;
      Note(capture, FinalOutput, finalOutput, sink, before, turns, outputs, played);
    }
  }

  method Conclude(
    capture: Capture, d: Drive, sink: Option<Sink>,
    ghost before: seq<Event>, ghost turns: seq<string>, ghost outputs: seq<Option<string>>, ghost played: seq<Call>
  ) returns (finalOutput: Option<string>)
    requires Running(capture, sink, before, turns, outputs, [], played) && TerminationOf(d).Some?
    modifies capture, if sink.Some? then {sink.value} else {}
    ensures Running(capture, sink, before, turns, outputs, if TerminationOf(d) == Some(Completed) then [finalOutput] else [], played)
    ensures EndEvent(capture.events, d, finalOutput) && capture.flushed == |capture.events|
  {
    finalOutput := RecordEnd(capture, d, sink, before, turns, outputs, played);
    FlushEvents(capture, sink, before, played);
  }

  lemma {:induction false} Concludes(
    run: CanonicalRun, d: Drive, prompt: string, scripted: seq<string>, maxTurns: nat,
    agent: nat -> Stage, outputs: seq<Option<string>>
  )
    requires Driven(d, scripted, maxTurns, agent, outputs)
    requires run.stages == d.stages && run.delivered == d.delivered && Some(run.termination) == TerminationOf(d)
    requires Told(run.events, [prompt] + scripted[..d.delivered], outputs,
                  if run.termination.Completed? then [run.finalOutput] else [])
    requires EndEvent(run.events, d, run.finalOutput)
    ensures Concluded(run) && Conversation(run, prompt, scripted, maxTurns, agent)
  {
    if d.failure.None? {
      assert agent(d.stages).ending == Returned(Rendered(outputs[d.stages - 1]));
    }
  }

  lemma {:induction false} FatalStage(
    d: Drive, scripted: seq<string>, maxTurns: nat, agent: nat -> Stage, outputs: seq<Option<string>>
  )
    requires Driven(d, scripted, maxTurns, agent, outputs) && TerminationOf(d).None?
    ensures FatalWithin(agent, maxTurns)
  {
    assert agent(d.stages).ending == Raised(Fatal);
  }

  /** What holds of the evidence of a run that was driven to its end. */
  ghost predicate Sound(
    run: CanonicalRun, runId: string, prompt: string, scripted: seq<string>, maxTurns: int, agent: nat -> Stage,
    listed: seq<string>, links: map<string, Link>, citations: seq<Citation>
  ) {
    && run.runId == runId && Evidence(run, listed, links, citations) && Concluded(run)
    && Conversation(run, prompt, scripted, maxTurns, agent)
    && Faithful(runId, run.attempts, run.outcomes, links, citations, Played(agent, run.stages))
  }

  ghost predicate FatalWithin(agent: nat -> Stage, maxTurns: int) {
    exists n :: 1 <= n <= maxTurns && agent(n).ending == Raised(Fatal)
  }

  /** The turns on a new capture, and the run made of what it holds at the end. */
  method Execute(
    runId: string, prompt: string, scripted: seq<string>, maxTurns: nat,
    agent: nat -> Stage, listed: seq<string>, sink: Option<Sink>
  ) returns (r: Result, ghost links: map<string, Link>, ghost citations: seq<Citation>)
    requires maxTurns >= 1
    modifies if sink.Some? then {sink.value} else {}
    ensures r.Reraised? ==> FatalWithin(agent, maxTurns)
    ensures r.Executed? ==> Sound(r.run, runId, prompt, scripted, maxTurns, agent, listed, links, citations)
    ensures r.Executed? && sink.Some? ==> Received(sink) == old(Received(sink)) + r.run.events
  {
    links, citations := map[], [];
    ghost var before := Received(sink);
    var capture := new Capture(runId);
    Open(capture, prompt, sink, before);
    ghost var outputs;
    var d;
    d, outputs := DriveTurns(capture, prompt, scripted, maxTurns, agent, sink, before);
    if TerminationOf(d).None? {
      FatalStage(d, scripted, maxTurns, agent, outputs);
      return Reraised, links, citations;
    }
    var finalOutput := Conclude(capture, d, sink, before, [prompt] + scripted[..d.delivered], outputs, Played(agent, d.stages));
    links, citations := capture.links, capture.citations;
    var run := CanonicalRun(runId, TerminationOf(d).value, capture.events, capture.attempts, capture.outcomes,
                            StateTransitions(listed, capture.links), finalOutput, d.stages, d.delivered);
    Concludes(run, d, prompt, scripted, maxTurns, agent, outputs);
    WholeTake(capture.events);
    r := Executed(run);
  }

  lemma {:induction false} WholeTake<T>(s: seq<T>)
    ensures s[..|s|] == s
  {
  }

  /** The opening user turn, handed to the sink at once. */
  method Open(capture: Capture, prompt: string, sink: Option<Sink>, ghost before: seq<Event>)
    requires Good(capture, []) && capture.events == [] && capture.flushed == 0 && (sink.Some? ==> sink.value.received == before)
    modifies capture, if sink.Some? then {sink.value} else {}
    ensures Running(capture, sink, before, [prompt], [], [], [])
  {
    NothingTold(capture.events);
    AfterNothing(prompt);
    Note(capture, UserTurn, Some(prompt), sink, before, [], [], []);
    FlushRunning(capture, sink, before, [prompt], [], [], []);
  }

  lemma {:induction false} NothingTold(events: seq<Event>)
    requires events == []
    ensures Told(events, [], [], [])
  {
    assert Wrapped([]) == [];
  }

  lemma {:induction false} AfterNothing<T>(x: T)
    ensures [] + [x] == [x]
  {
  }
}
