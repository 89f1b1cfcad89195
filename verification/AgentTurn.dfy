/** The meaning of one agent turn: its rounds, the messages they add and the calls they spend
    (crates/yunxi-agent-spine/src/agent.rs, crates/yunxi-agent-spine/src/session.rs). */
module AgentTurn {
  import opened Wrappers
  import opened SessionLog
  import opened ToolBroker

  datatype Budget = Budget(maxRounds: nat, maxCallsPerRound: nat, maxToolCalls: nat, maxModelCalls: nat)

  predicate ValidBudget(budget: Budget) {
    && 1 <= budget.maxRounds <= 32 && 1 <= budget.maxCallsPerRound <= 16
    && 1 <= budget.maxToolCalls <= 0xFFFF_FFFF && 1 <= budget.maxModelCalls <= 0xFFFF_FFFF
  }

  datatype Mode = Legacy | ApprovalAware

  datatype ModelAnswer = Answered(response: Response) | ModelBroke

  /** The model's answers; a turn asks once in every round. */
  type Model = (nat, nat) -> ModelAnswer

  /** A round: the calls the model asked for, and for the settled ones the decision used and the outcome. */
  datatype Round = Round(calls: seq<Call>, decisions: seq<Option<Decision>>, outcomes: seq<Outcome>)

  /** How far a turn has come: its user message, the complete rounds and the one in progress. */
  datatype Progress = Progress(user: Message, rounds: seq<Round>, current: Option<Round>)

  // ------------------------------------------------------------------
  // Messages
  // ------------------------------------------------------------------

  function Replies(calls: seq<Call>, outcomes: seq<Outcome>): seq<Message>
    requires |outcomes| <= |calls|
  {
    if outcomes == [] then [] else
    var k := |outcomes| - 1;
    Replies(calls, outcomes[..k]) + [ToolReply(calls[k].id, calls[k].name, outcomes[k])]
  }

  /** One tool-calls message, then one reply per settled call, in call order. */
  function RoundMessages(round: Round): seq<Message>
    requires |round.outcomes| <= |round.calls|
  {
    [AssistantCalls(round.calls)] + Replies(round.calls, round.outcomes)
  }

  ghost predicate WellFormed(rounds: seq<Round>) {
    forall k :: 0 <= k < |rounds| ==> |rounds[k].outcomes| <= |rounds[k].calls|
  }

  function RoundsMessages(rounds: seq<Round>): seq<Message>
    requires WellFormed(rounds)
  {
    if rounds == [] then [] else
    var last := rounds[|rounds| - 1];
    RoundsMessages(rounds[..|rounds| - 1]) + RoundMessages(last)
  }

  ghost predicate Shaped(p: Progress) {
    WellFormed(p.rounds) && (p.current.Some? ==> |p.current.value.outcomes| <= |p.current.value.calls|)
  }

  /** The user message, the rounds, and what there is of the round in progress. */
  function TurnMessages(p: Progress): seq<Message>
    requires Shaped(p)
  {
    [p.user] + RoundsMessages(p.rounds) + (match p.current case None => [] case Some(round) => RoundMessages(round))
  }

  lemma RepliesAreInOrder(calls: seq<Call>, outcomes: seq<Outcome>, k: nat)
    requires k < |outcomes| <= |calls|
    ensures |Replies(calls, outcomes)| == |outcomes|
    ensures Replies(calls, outcomes)[k] == ToolReply(calls[k].id, calls[k].name, outcomes[k])
  {
    if k < |outcomes| - 1 {
      RepliesAreInOrder(calls, outcomes[..|outcomes| - 1], k);
    } else if |outcomes| > 1 {
      RepliesAreInOrder(calls, outcomes[..|outcomes| - 1], 0);
    }
  }

  // ------------------------------------------------------------------
  // Spending
  // ------------------------------------------------------------------

  function ModelCount(events: seq<Event>): nat {
    if events == [] then 0 else
    ModelCount(events[..|events| - 1]) + if events[|events| - 1].ModelRequested? then 1 else 0
  }

  /** A suspended call is charged when it is asked about and again when it is settled. */
  function ToolCount(events: seq<Event>): nat {
    if events == [] then 0 else
    var last := events[|events| - 1];
    ToolCount(events[..|events| - 1]) + if last.ToolResultRecorded? || last.ToolApprovalRequested? then 1 else 0
  }

  /** The events of a turn project to its messages, and its two counters count them. (Said of whatever equals `p`,
      so that only a proof that names TracedBy looks inside; the same goes for the other long-lived predicates here.) */
  ghost predicate Traces(p: Progress, events: seq<Event>, modelCalls: nat, toolCalls: nat) {
    forall q {:trigger TracedBy(q, events, modelCalls, toolCalls)} ::
      q == p ==> TracedBy(q, events, modelCalls, toolCalls)
  }

  ghost predicate TracedBy(p: Progress, events: seq<Event>, modelCalls: nat, toolCalls: nat) {
    && Shaped(p) && Projection(events) == TurnMessages(p)
    && ModelCount(events) == modelCalls && ToolCount(events) == toolCalls
  }

  lemma OneMoreEvent(events: seq<Event>, event: Event)
    ensures Projection(events + [event]) == Projection(events) + MessagesOf(event)
    ensures ModelCount(events + [event]) == ModelCount(events) + if event.ModelRequested? then 1 else 0
    ensures ToolCount(events + [event])
         == ToolCount(events) + if event.ToolResultRecorded? || event.ToolApprovalRequested? then 1 else 0
  {
    OneMoreMessage(events, event);
    assert (events + [event])[..|events|] == events;
  }

  lemma SinceGrows(all: seq<Event>, event: Event, start: nat)
    requires start <= |all|
    ensures (all + [event])[start..] == all[start..] + [event] && (all + [event])[..start] == all[..start]
  {
  }

  lemma BlankIsRefused(codec: Codec, turn: nat, reason: string)
    requires Blank(reason)
    ensures !EventFits(codec, TurnCancelled(turn, reason))
  {
  }

  lemma TurnOpens(turn: nat, user: Message)
    ensures Traces(Progress(user, [], None), [TurnStarted(turn, user)], 0, 0)
  {
    OneMoreEvent([], TurnStarted(turn, user));
    assert [] + [TurnStarted(turn, user)] == [TurnStarted(turn, user)];
  }

  lemma NothingToFollow(model: Model, tools: Tools, mode: Mode, turn: nat, user: Message)
    ensures Follows(model, tools, mode, turn, Progress(user, [], None))
  {
    assert FollowedBy(model, tools, mode, turn, Progress(user, [], None));
  }

  /** Events that add no message. */
  lemma QuietEvent(p: Progress, events: seq<Event>, event: Event, modelCalls: nat, toolCalls: nat)
    requires Traces(p, events, modelCalls, toolCalls) && MessagesOf(event) == []
    ensures Traces(p, events + [event], modelCalls + if event.ModelRequested? then 1 else 0,
                   toolCalls + if event.ToolApprovalRequested? then 1 else 0)
  {
    assert TracedBy(p, events, modelCalls, toolCalls);
    OneMoreEvent(events, event);
  }

  lemma RoundOpens(p: Progress, events: seq<Event>, turn: nat, round: nat, response: Response, modelCalls: nat,
                   toolCalls: nat)
    requires Traces(p, events, modelCalls, toolCalls) && p.current == None && response.calls != []
    ensures Traces(p.(current := Some(Round(response.calls, [], []))), events + [ModelResponded(turn, round, response)],
                   modelCalls, toolCalls)
  {
    assert TracedBy(p, events, modelCalls, toolCalls);
    OneMoreEvent(events, ModelResponded(turn, round, response));
    assert RoundMessages(Round(response.calls, [], [])) == [AssistantCalls(response.calls)];
  }

  /** A turn that ended with plain text. */
  ghost predicate TextTraces(p: Progress, events: seq<Event>, content: string, modelCalls: nat, toolCalls: nat) {
    forall q {:trigger TextTracedBy(q, events, content, modelCalls, toolCalls)} ::
      q == p ==> TextTracedBy(q, events, content, modelCalls, toolCalls)
  }

  ghost predicate TextTracedBy(p: Progress, events: seq<Event>, content: string, modelCalls: nat, toolCalls: nat) {
    && Shaped(p) && Projection(events) == TurnMessages(p) + [AssistantText(content)]
    && ModelCount(events) == modelCalls && ToolCount(events) == toolCalls
  }

  lemma TextEnds(p: Progress, events: seq<Event>, turn: nat, round: nat, response: Response, modelCalls: nat,
                 toolCalls: nat)
    requires Traces(p, events, modelCalls, toolCalls) && response.calls == []
    ensures TextTraces(p, events + [ModelResponded(turn, round, response)], response.content, modelCalls, toolCalls)
  {
    assert TracedBy(p, events, modelCalls, toolCalls);
    OneMoreEvent(events, ModelResponded(turn, round, response));
  }

  lemma TextStays(p: Progress, events: seq<Event>, turn: nat, content: string, modelCalls: nat, toolCalls: nat)
    requires TextTraces(p, events, content, modelCalls, toolCalls)
    ensures TextTraces(p, events + [TurnCompleted(turn, content)], content, modelCalls, toolCalls)
  {
    assert TextTracedBy(p, events, content, modelCalls, toolCalls);
    OneMoreEvent(events, TurnCompleted(turn, content));
  }

  /** What a turn that ended with text adds to the messages of a log. */
  lemma TextCompletes(all: seq<Event>, start: nat, p: Progress, content: string, modelCalls: nat, toolCalls: nat)
    requires start <= |all| && TextTraces(p, all[start..], content, modelCalls, toolCalls)
    ensures Shaped(p)
    ensures Projection(all) == Projection(all[..start]) + (TurnMessages(p) + [AssistantText(content)])
  {
    assert TextTracedBy(p, all[start..], content, modelCalls, toolCalls);
    ProjectionJoins(all[..start], all[start..]);
    assert all == all[..start] + all[start..];
  }

  lemma SeedStaysInFront(seed: seq<Message>, past: seq<Message>, added: seq<Message>)
    ensures seed + (past + added) == seed + past + added
  {
  }

  function Settle(round: Round, decision: Option<Decision>, outcome: Outcome): Round {
    round.(decisions := round.decisions + [decision], outcomes := round.outcomes + [outcome])
  }

  lemma CallSettles(p: Progress, events: seq<Event>, turn: nat, n: nat, decision: Option<Decision>, outcome: Outcome,
                    modelCalls: nat, toolCalls: nat)
    requires Traces(p, events, modelCalls, toolCalls) && p.current.Some?
    requires |p.current.value.outcomes| < |p.current.value.calls|
    ensures var call := p.current.value.calls[|p.current.value.outcomes|];
            Traces(p.(current := Some(Settle(p.current.value, decision, outcome))),
                   events + [ToolResultRecorded(turn, n, call, outcome)], modelCalls, toolCalls + 1)
  {
    assert TracedBy(p, events, modelCalls, toolCalls);
    var round := p.current.value;
    var call := round.calls[|round.outcomes|];
    OneMoreEvent(events, ToolResultRecorded(turn, n, call, outcome));
    assert (round.outcomes + [outcome])[..|round.outcomes|] == round.outcomes;
    var reply := ToolReply(call.id, call.name, outcome);
    assert Replies(round.calls, round.outcomes + [outcome]) == Replies(round.calls, round.outcomes) + [reply];
    assert RoundMessages(Settle(round, decision, outcome)) == RoundMessages(round) + [reply];
    assert [p.user] + RoundsMessages(p.rounds) + (RoundMessages(round) + [reply])
        == [p.user] + RoundsMessages(p.rounds) + RoundMessages(round) + [reply];
  }

  lemma RoundCloses(p: Progress, events: seq<Event>, modelCalls: nat, toolCalls: nat)
    requires Traces(p, events, modelCalls, toolCalls) && p.current.Some?
    ensures Traces(Progress(p.user, p.rounds + [p.current.value], None), events, modelCalls, toolCalls)
  {
    assert TracedBy(p, events, modelCalls, toolCalls);
    var rounds := p.rounds + [p.current.value];
    assert rounds[..|p.rounds|] == p.rounds;
    assert RoundsMessages(rounds) == RoundsMessages(p.rounds) + RoundMessages(p.current.value);
    assert [p.user] + (RoundsMessages(p.rounds) + RoundMessages(p.current.value))
        == [p.user] + RoundsMessages(p.rounds) + RoundMessages(p.current.value);
  }

  // ------------------------------------------------------------------
  // The order of the events
  // ------------------------------------------------------------------

  /** What a turn has written so far allows it to write next. */
  datatype Phase =
    | Opening
    | BeforeRound(round: nat)
    | ContextReady(round: nat)
    | ModelAsked(round: nat)
    | TextAnswered(content: string)
    | CallsAnswered(round: nat, calls: seq<Call>)
    | BeforeCall(round: nat, calls: seq<Call>, next: nat)
    | AwaitsDecision(round: nat, calls: seq<Call>, next: nat)
    | DecisionNoted(round: nat, calls: seq<Call>, next: nat)
    | Done(content: string)
    | Over
    | OutOfOrder
  {
    /** The turn has ended, with its text or without. */
    predicate IsEnd() { Done? || Over? }
  }

  function AfterCalls(round: nat, calls: seq<Call>, settled: nat): Phase {
    if settled < |calls| then BeforeCall(round, calls, settled) else BeforeRound(round + 1)
  }

  /** The protocol of a turn. A round is context, request and answer; an answer with calls is followed by its batch and
      by the settlement of each call in order, asked about and decided before it where a decision is needed; an answer
      with text is followed by the end of the turn. A turn that has begun may fail or be cancelled anywhere. */
  function NextPhase(turn: nat, phase: Phase, event: Event): Phase {
    if event.turn != turn then OutOfOrder
    else match event
         case TurnStarted(_, _) => if phase.Opening? then BeforeRound(1) else OutOfOrder
         case ContextBuilt(_) => if phase.BeforeRound? then ContextReady(phase.round) else OutOfOrder
         case ModelRequested(_, n) => if phase == ContextReady(n) then ModelAsked(n) else OutOfOrder
         case ModelResponded(_, n, response) =>
           if phase != ModelAsked(n) then OutOfOrder
           else if response.calls == [] then TextAnswered(response.content) else CallsAnswered(n, response.calls)
         case ToolCallsRequested(_, n, calls) =>
           if phase == CallsAnswered(n, calls) then AfterCalls(n, calls, 0) else OutOfOrder
         case ToolApprovalRequested(_, request) => (
           match phase
           case BeforeCall(n, calls, next) =>
             if next < |calls| && RequestMatches(n, calls[next], request) then AwaitsDecision(n, calls, next)
             else OutOfOrder
           case _ => OutOfOrder)
         case ToolApprovalResolved(_, decision) => (
           match phase
           case AwaitsDecision(n, calls, next) =>
             if next < |calls| && DecisionMatches(n, calls[next], decision) then DecisionNoted(n, calls, next)
             else OutOfOrder
           case _ => OutOfOrder)
         case ToolResultRecorded(_, n, call, _) =>
           if (phase.BeforeCall? || phase.DecisionNoted?) && phase.round == n && phase.next < |phase.calls|
              && phase.calls[phase.next] == call
           then AfterCalls(n, phase.calls, phase.next + 1) else OutOfOrder
         case TurnCompleted(_, content) => if phase == TextAnswered(content) then Done(content) else OutOfOrder
         case TurnFailed(_, _) => if phase.IsEnd() || phase.OutOfOrder? then OutOfOrder else Over
         case TurnCancelled(_, _) => if phase.IsEnd() || phase.OutOfOrder? then OutOfOrder else Over
  }

  function PhaseOf(turn: nat, events: seq<Event>): Phase {
    if events == [] then Opening
    else NextPhase(turn, PhaseOf(turn, events[..|events| - 1]), events[|events| - 1])
  }

  /** A turn that is in order was in order all along, and it was not over before its last event. */
  lemma {:induction false} InOrderAllAlong(turn: nat, events: seq<Event>, k: nat)
    requires PhaseOf(turn, events) != OutOfOrder && k < |events|
    ensures PhaseOf(turn, events[..k]) != OutOfOrder && !PhaseOf(turn, events[..k]).IsEnd()
    ensures NextPhase(turn, PhaseOf(turn, events[..k]), events[k]) == PhaseOf(turn, events[..k + 1]) != OutOfOrder
  {
    var shorter := events[..|events| - 1];
    assert events[..k + 1][..k] == events[..k];
    if k < |shorter| {
      InOrderAllAlong(turn, shorter, k);
      assert shorter[..k] == events[..k] && shorter[..k + 1] == events[..k + 1];
    } else {
      assert events[..k + 1] == events;
    }
  }

  predicate Ends(event: Event) {
    event.TurnCompleted? || event.TurnFailed? || event.TurnCancelled?
  }

  lemma EndIsLast(turn: nat, events: seq<Event>, k: nat)
    requires PhaseOf(turn, events) != OutOfOrder && k < |events|
    ensures Ends(events[k]) <==> PhaseOf(turn, events[..k + 1]).IsEnd()
    ensures Ends(events[k]) ==> k == |events| - 1
    ensures PhaseOf(turn, events[..k + 1]).Done? ==>
              events[k] == TurnCompleted(turn, PhaseOf(turn, events[..k + 1]).content)
  {
    InOrderAllAlong(turn, events, k);
    if k + 1 < |events| {
      InOrderAllAlong(turn, events, k + 1);
    }
  }

  /** Such a turn is over exactly if its last event ends it; and an end is its last event. */
  lemma EndsOnce(turn: nat, events: seq<Event>)
    requires PhaseOf(turn, events) != OutOfOrder && events != []
    ensures PhaseOf(turn, events).IsEnd() <==> Ends(events[|events| - 1])
    ensures PhaseOf(turn, events).Done? ==>
              events[|events| - 1] == TurnCompleted(turn, PhaseOf(turn, events).content)
    ensures forall k :: 0 <= k < |events| - 1 ==> !Ends(events[k])
  {
    assert events[..|events|] == events;
    EndIsLast(turn, events, |events| - 1);
    forall k | 0 <= k < |events| - 1 ensures !Ends(events[k]) {
      EndIsLast(turn, events, k);
    }
  }

  /** A request for a decision is followed by a decision about that very call and then by its result, and by
      nothing else but the end of the turn. */
  lemma DecisionFollowsRequest(turn: nat, events: seq<Event>, k: nat)
    requires PhaseOf(turn, events) != OutOfOrder && k + 1 < |events| && events[k].ToolApprovalRequested?
    ensures var request, next := events[k].request, events[k + 1];
            && (Ends(next)
                || (next.ToolApprovalResolved? && next.decision.round == request.round
                    && next.decision.callId == request.callId && next.decision.tool == request.tool))
            && (k + 2 < |events| ==>
                  Ends(events[k + 2])
                  || (events[k + 2].ToolResultRecorded? && events[k + 2].round == request.round
                      && events[k + 2].call.id == request.callId && events[k + 2].call.name == request.tool))
  {
    InOrderAllAlong(turn, events, k);
    InOrderAllAlong(turn, events, k + 1);
    if k + 2 < |events| {
      InOrderAllAlong(turn, events, k + 2);
    }
  }

  /** The events lead to this phase. (Said of whatever equals `phase`.) */
  ghost predicate Reaches(turn: nat, events: seq<Event>, phase: Phase) {
    forall q {:trigger ReachedBy(turn, events, q)} :: q == phase ==> ReachedBy(turn, events, q)
  }

  ghost predicate ReachedBy(turn: nat, events: seq<Event>, phase: Phase) {
    PhaseOf(turn, events) == phase
  }

  lemma ReachesNext(turn: nat, events: seq<Event>, phase: Phase, event: Event)
    requires Reaches(turn, events, phase)
    ensures Reaches(turn, events + [event], NextPhase(turn, phase, event))
  {
    assert ReachedBy(turn, events, phase);
    assert (events + [event])[..|events|] == events;
  }

  lemma TurnIsOpening(turn: nat)
    ensures Reaches(turn, [], Opening)
  {
  }

  // ------------------------------------------------------------------
  // Following the model and the tools
  // ------------------------------------------------------------------

  function Attempt(tools: Tools, mode: Mode, turn: nat, n: nat, call: Call,
                   decision: Option<Decision>): Result<ToolExecution, ToolError> {
    if mode == Legacy then Direct(tools, turn, n, call) else WithApproval(tools, turn, n, call, decision)
  }

  /** An outcome is what the attempt gave; a failed attempt is a failed outcome. */
  predicate Concludes(execution: Result<ToolExecution, ToolError>, outcome: Outcome) {
    match execution
    case Ok(Executed(o)) => outcome == o
    case Ok(AwaitingApproval(_)) => false
    case Err(error) => outcome == Failed(error.code, error.message)
  }

  predicate MustAsk(tools: Tools, turn: nat, n: nat, call: Call) {
    match WithApproval(tools, turn, n, call, None) case Ok(AwaitingApproval(_)) => true case _ => false
  }

  /** A settled call; a decision is used only for one that had to be asked about. */
  ghost predicate Settled(tools: Tools, mode: Mode, turn: nat, n: nat, call: Call, decision: Option<Decision>,
                          outcome: Outcome) {
    && Concludes(Attempt(tools, mode, turn, n, call, decision), outcome)
    && (decision.Some? ==> mode == ApprovalAware && MustAsk(tools, turn, n, call))
  }

  ghost predicate RoundFollows(tools: Tools, mode: Mode, turn: nat, n: nat, round: Round) {
    && |round.decisions| == |round.outcomes| <= |round.calls|
    && forall j :: 0 <= j < |round.outcomes| ==>
      Settled(tools, mode, turn, n, round.calls[j], round.decisions[j], round.outcomes[j])
  }

  ghost predicate AsksFor(model: Model, turn: nat, n: nat, calls: seq<Call>) {
    calls != [] && model(turn, n).Answered? && model(turn, n).response.calls == calls
  }

  ghost predicate RoundIsWhole(model: Model, tools: Tools, mode: Mode, turn: nat, n: nat, round: Round) {
    && AsksFor(model, turn, n, round.calls) && RoundFollows(tools, mode, turn, n, round)
    && |round.outcomes| == |round.calls|
  }

  /** Every complete round is what the model asked for and what the tools and decisions gave. */
  ghost predicate Follows(model: Model, tools: Tools, mode: Mode, turn: nat, p: Progress) {
    forall q {:trigger FollowedBy(model, tools, mode, turn, q)} :: q == p ==> FollowedBy(model, tools, mode, turn, q)
  }

  ghost predicate FollowedBy(model: Model, tools: Tools, mode: Mode, turn: nat, p: Progress) {
    && (forall k :: 0 <= k < |p.rounds| ==> RoundIsWhole(model, tools, mode, turn, k + 1, p.rounds[k]))
    && (p.current.Some? ==>
      && AsksFor(model, turn, |p.rounds| + 1, p.current.value.calls)
      && RoundFollows(tools, mode, turn, |p.rounds| + 1, p.current.value))
  }

  /** A completed turn: after its rounds the model answered with plain text. */
  ghost predicate Finished(model: Model, tools: Tools, mode: Mode, turn: nat, p: Progress, content: string) {
    && Follows(model, tools, mode, turn, p) && p.current == None
    && model(turn, |p.rounds| + 1) == Answered(Response(content, []))
  }

  ghost predicate SameAnswers(first: Model, firstTurn: nat, second: Model, secondTurn: nat) {
    forall n :: n > 0 ==> first(firstTurn, n) == second(secondTurn, n)
  }

  /** What a call settles to on the direct path of an unwrapped broker. */
  function DirectOutcome(tools: Tools, turn: nat, n: nat, call: Call): Outcome {
    match tools.run(turn, n, call)
    case Answer(outcome) => outcome
    case Broke(error) => Failed(error.code, error.message)
  }

  /** The calls of the second turn settle as the tools of the first would settle them. */
  ghost predicate SameOutcomes(tools: Tools, turn: nat, p: Progress)
  {
    forall k, j :: 0 <= k < |p.rounds| && 0 <= j < |p.rounds[k].calls| && j < |p.rounds[k].outcomes| ==>
      p.rounds[k].outcomes[j] == DirectOutcome(tools, turn, k + 1, p.rounds[k].calls[j])
  }

  /** Approval does not change the meaning of a turn: if an approval-aware turn and a direct turn complete on the
      same model answers and every call settled as the direct one would, both have the same rounds and the same
      final text, so both add the same messages. */
  lemma {:induction false} ApprovalPreservesTheTurn(model: Model, tools: Tools, turn: nat, p: Progress, content: string,
                                                    otherModel: Model, otherTools: Tools, otherTurn: nat, q: Progress,
                                                    otherContent: string)
    requires Finished(model, tools, Legacy, turn, p, content) && !tools.wrapped && Shaped(p)
    requires Finished(otherModel, otherTools, ApprovalAware, otherTurn, q, otherContent) && Shaped(q)
    requires SameAnswers(model, turn, otherModel, otherTurn) && SameOutcomes(tools, turn, q) && p.user == q.user
    ensures content == otherContent && TurnMessages(p) == TurnMessages(q)
  {
    RoundsAgree(model, tools, turn, p, content, otherModel, otherTools, otherTurn, q, otherContent, |p.rounds|);
    assert forall k :: 0 <= k < |p.rounds| ==> SameRound(p.rounds[k], q.rounds[k]);
    RoundAsks(otherModel, otherTools, ApprovalAware, otherTurn, q, |p.rounds|);
    SameRoundsSameMessages(p.rounds, q.rounds);
  }

  lemma RoundAsks(model: Model, tools: Tools, mode: Mode, turn: nat, p: Progress, k: nat)
    requires Follows(model, tools, mode, turn, p)
    ensures k < |p.rounds| ==> model(turn, k + 1).Answered? && model(turn, k + 1).response.calls != []
  {
    assert FollowedBy(model, tools, mode, turn, p);
    assert k < |p.rounds| ==> RoundIsWhole(model, tools, mode, turn, k + 1, p.rounds[k]);
  }

  ghost predicate SameRound(a: Round, b: Round) {
    a.calls == b.calls && a.outcomes == b.outcomes
  }

  lemma {:induction false} RoundsAgree(model: Model, tools: Tools, turn: nat, p: Progress, content: string,
                                       otherModel: Model, otherTools: Tools, otherTurn: nat, q: Progress,
                                       otherContent: string, n: nat)
    requires Finished(model, tools, Legacy, turn, p, content) && !tools.wrapped
    requires Finished(otherModel, otherTools, ApprovalAware, otherTurn, q, otherContent)
    requires SameAnswers(model, turn, otherModel, otherTurn) && SameOutcomes(tools, turn, q) && n <= |p.rounds|
    ensures n <= |q.rounds| && forall k :: 0 <= k < n ==> SameRound(p.rounds[k], q.rounds[k])
  {
    assert FollowedBy(model, tools, Legacy, turn, p) && FollowedBy(otherModel, otherTools, ApprovalAware, otherTurn, q);
    if n > 0 {
      RoundsAgree(model, tools, turn, p, content, otherModel, otherTools, otherTurn, q, otherContent, n - 1);
      var k := n - 1;
      assert RoundIsWhole(model, tools, Legacy, turn, n, p.rounds[k]);
      assert model(turn, n) == otherModel(otherTurn, n);
      assert k < |q.rounds|;
      assert RoundIsWhole(otherModel, otherTools, ApprovalAware, otherTurn, n, q.rounds[k]);
      var a, b := p.rounds[k], q.rounds[k];
      forall j | 0 <= j < |a.calls| ensures a.outcomes[j] == b.outcomes[j] {
        assert Settled(tools, Legacy, turn, n, a.calls[j], a.decisions[j], a.outcomes[j]);
      }
    }
  }

  lemma {:induction false} SameRoundsSameMessages(a: seq<Round>, b: seq<Round>)
    requires WellFormed(a) && WellFormed(b) && |a| == |b| && forall k :: 0 <= k < |a| ==> SameRound(a[k], b[k])
    ensures RoundsMessages(a) == RoundsMessages(b)
    decreases |a|
  {
    if a != [] {
      var n := |a| - 1;
      assert SameRound(a[n], b[n]);
      SameRoundsSameMessages(a[..n], b[..n]);
    }
  }

  /** Approving everything that is asked about settles every call as the tool itself answers. */
  lemma ApprovedMeansSame(tools: Tools, turn: nat, n: nat, call: Call, decision: Option<Decision>, outcome: Outcome)
    requires Settled(tools, ApprovalAware, turn, n, call, decision, outcome)
    requires tools.policy(turn, n, call).Execute? ||
             (decision.Some? && decision.value.verdict.Approved?
              && ValidateApproval(tools.codec, n, call, decision.value) == None)
    ensures outcome == DirectOutcome(tools, turn, n, call)
  {
  }

  /** Nothing was denied or rejected: each settled call was let through by the policy or by a valid approval. */
  ghost predicate AllApproved(tools: Tools, turn: nat, p: Progress) {
    forall k, j {:trigger p.rounds[k].outcomes[j]} ::
      0 <= k < |p.rounds| && 0 <= j < |p.rounds[k].outcomes|
      && j < |p.rounds[k].calls| && j < |p.rounds[k].decisions| ==>
        Approves(tools, turn, k + 1, p.rounds[k].calls[j], p.rounds[k].decisions[j])
  }

  predicate Approves(tools: Tools, turn: nat, n: nat, call: Call, decision: Option<Decision>) {
    match decision
    case None => tools.policy(turn, n, call).Execute?
    case Some(d) => d.verdict.Approved? && ValidateApproval(tools.codec, n, call, d) == None
  }

  /** So such a turn settles all its calls as a direct one with the same tools would. */
  lemma ApprovedTurnsSettleDirectly(model: Model, tools: Tools, turn: nat, p: Progress, content: string)
    requires Finished(model, tools, ApprovalAware, turn, p, content) && AllApproved(tools, turn, p)
    ensures SameOutcomes(tools, turn, p)
  {
    assert FollowedBy(model, tools, ApprovalAware, turn, p);
    forall k, j | 0 <= k < |p.rounds| && 0 <= j < |p.rounds[k].calls| && j < |p.rounds[k].outcomes|
      ensures p.rounds[k].outcomes[j] == DirectOutcome(tools, turn, k + 1, p.rounds[k].calls[j])
    {
      var round := p.rounds[k];
      assert RoundIsWhole(model, tools, ApprovalAware, turn, k + 1, round);
      ApprovedMeansSame(tools, turn, k + 1, round.calls[j], round.decisions[j], round.outcomes[j]);
    }
  }

  // ------------------------------------------------------------------
  // On whose word tools run
  // ------------------------------------------------------------------

  /** A decision that was accepted for the request pending in a turn. */
  datatype Accepted = Accepted(turn: nat, decision: Decision, request: ApprovalRequest)

  /** An approval request that was written to the log of a turn. */
  datatype Asked = Asked(turn: nat, request: ApprovalRequest)

  /** Each of the requests is among these events. */
  ghost predicate AllLogged(asked: seq<Asked>, events: seq<Event>) {
    forall list {:trigger LoggedIn(list, events)} :: list == asked ==> LoggedIn(list, events)
  }

  ghost predicate LoggedIn(asked: seq<Asked>, events: seq<Event>) {
    forall a :: a in asked ==> ToolApprovalRequested(a.turn, a.request) in events
  }

  lemma LoggedStays(asked: seq<Asked>, events: seq<Event>, event: Event)
    requires AllLogged(asked, events)
    ensures AllLogged(asked, events + [event])
  {
    assert LoggedIn(asked, events);
  }

  lemma OneMoreAsked(asked: seq<Asked>, events: seq<Event>, a: Asked)
    requires AllLogged(asked, events) && ToolApprovalRequested(a.turn, a.request) in events
    ensures AllLogged(asked + [a], events)
  {
    assert LoggedIn(asked, events);
  }

  /** What the executions of tools are judged by: the decisions accepted, the requests logged, and the turns
      that were started on the direct path. */
  datatype History = History(accepted: seq<Accepted>, asked: seq<Asked>, direct: set<nat>)

  ghost predicate Rightful(tools: Tools, h: History, e: Execution) {
    match e.grant
    case ByCaller => !tools.wrapped && e.turn in h.direct
    case ByPolicy => tools.policy(e.turn, e.round, e.call) == Execute
    case ByDecision(decision, n) =>
      && n < |h.accepted| && h.accepted[n].decision == decision && h.accepted[n].turn == e.turn
      && decision.verdict.Approved? && DecisionMatches(e.round, e.call, decision)
      && RequestMatches(e.round, e.call, h.accepted[n].request) && Asked(e.turn, h.accepted[n].request) in h.asked
  }

  /** Decisions are used in the order they were accepted, none twice. */
  ghost predicate UsedBefore(first: Execution, second: Execution) {
    first.grant.ByDecision? && second.grant.ByDecision? ==> first.grant.n < second.grant.n
  }

  ghost predicate Safe(tools: Tools, executions: seq<Execution>, h: History) {
    forall g {:trigger SafeBy(tools, executions, g)} :: g == h ==> SafeBy(tools, executions, g)
  }

  ghost predicate SafeBy(tools: Tools, executions: seq<Execution>, h: History) {
    && (forall k :: 0 <= k < |executions| ==> Rightful(tools, h, executions[k]))
    && (forall j, k {:trigger UsedBefore(executions[j], executions[k])} ::
          0 <= j < k < |executions| ==> UsedBefore(executions[j], executions[k]))
  }

  ghost predicate UnusedFrom(executions: seq<Execution>, n: nat) {
    forall k :: 0 <= k < |executions| && executions[k].grant.ByDecision? ==> executions[k].grant.n < n
  }

  /** Everything used so far was accepted. */
  lemma UsedAreAccepted(tools: Tools, executions: seq<Execution>, h: History)
    requires Safe(tools, executions, h)
    ensures UnusedFrom(executions, |h.accepted|)
  {
    assert SafeBy(tools, executions, h);
    forall k | 0 <= k < |executions| && executions[k].grant.ByDecision? ensures executions[k].grant.n < |h.accepted| {
      assert Rightful(tools, h, executions[k]);
    }
  }

  lemma SafeStays(tools: Tools, executions: seq<Execution>, h: History, more: History)
    requires Safe(tools, executions, h)
    requires h.accepted <= more.accepted && h.direct <= more.direct && forall a :: a in h.asked ==> a in more.asked
    ensures Safe(tools, executions, more)
  {
    assert SafeBy(tools, executions, h);
    forall k | 0 <= k < |executions| ensures Rightful(tools, more, executions[k]) {
      assert Rightful(tools, h, executions[k]);
    }
  }

  lemma OneMoreExecution(tools: Tools, executions: seq<Execution>, h: History, e: Execution)
    requires Safe(tools, executions, h) && Rightful(tools, h, e)
    requires e.grant.ByDecision? ==> UnusedFrom(executions, e.grant.n)
    ensures Safe(tools, executions + [e], h)
  {
    assert SafeBy(tools, executions, h);
    forall j, k | 0 <= j < k < |executions + [e]| ensures UsedBefore((executions + [e])[j], (executions + [e])[k]) {
      assert k < |executions| ==> UsedBefore(executions[j], executions[k]);
    }
  }

  /** With a policy that always asks, every tool that ran in a turn of the approval path, and every tool that a wrapped
      broker ran at all, had a logged request and an accepted Approved decision for exactly that call. */
  lemma OnlyApprovedCallsRun(tools: Tools, executions: seq<Execution>, h: History, k: nat)
    requires Safe(tools, executions, h) && AlwaysAsks(tools) && k < |executions|
    requires tools.wrapped || executions[k].turn !in h.direct
    ensures var e := executions[k];
            && e.grant.ByDecision? && e.grant.n < |h.accepted|
            && h.accepted[e.grant.n].decision == e.grant.decision && e.grant.decision.verdict.Approved?
            && DecisionMatches(e.round, e.call, e.grant.decision)
            && RequestMatches(e.round, e.call, h.accepted[e.grant.n].request)
            && h.accepted[e.grant.n].turn == e.turn && Asked(e.turn, h.accepted[e.grant.n].request) in h.asked
  {
    assert SafeBy(tools, executions, h);
    assert Rightful(tools, h, executions[k]);
  }

  /** An accepted decision runs at most one tool. */
  lemma EachDecisionRunsOnce(tools: Tools, executions: seq<Execution>, h: History, j: nat, k: nat)
    requires Safe(tools, executions, h) && j < k < |executions|
    requires executions[j].grant.ByDecision? && executions[k].grant.ByDecision?
    ensures executions[j].grant.n != executions[k].grant.n
  {
    assert SafeBy(tools, executions, h);
    assert UsedBefore(executions[j], executions[k]);
  }

  /** The newest accepted decision answers the request on which the call was suspended, and has not been used. */
  ghost predicate Fresh(tools: Tools, executions: seq<Execution>, h: History, turn: nat, round: nat, call: Call,
                        decision: Decision) {
    var last := |h.accepted| - 1;
    && last >= 0 && h.accepted[last].turn == turn && h.accepted[last].decision == decision
    && WithApproval(tools, turn, round, call, None) == Ok(AwaitingApproval(h.accepted[last].request))
    && Asked(turn, h.accepted[last].request) in h.asked
    && UnusedFrom(executions, last)
  }

  /** Whatever a broker runs for a call keeps the executions safe. */
  lemma BrokerIsSafe(tools: Tools, executions: seq<Execution>, h: History, mode: Mode, turn: nat, round: nat,
                     call: Call,
                     approval: Option<Decision>, ticket: nat)
    requires Safe(tools, executions, h) && (mode == Legacy ==> turn in h.direct)
    requires approval.Some? ==>
              Fresh(tools, executions, h, turn, round, call, approval.value) && ticket == |h.accepted| - 1
    ensures var grant := GrantIn(tools, mode, turn, round, call, approval, ticket);
            Safe(tools, executions + Executions(turn, round, call, grant), h)
  {
    assert SafeBy(tools, executions, h);
    var grant := GrantIn(tools, mode, turn, round, call, approval, ticket);
    if grant.Some? {
      OneMoreExecution(tools, executions, h, Execution(turn, round, call, grant.value));
    } else {
      assert executions + [] == executions;
    }
  }

  function GrantIn(tools: Tools, mode: Mode, turn: nat, round: nat, call: Call, approval: Option<Decision>,
                   ticket: nat): Option<Grant> {
    if mode == ApprovalAware then GrantFor(tools, turn, round, call, approval, ticket)
    else if tools.wrapped then None else Some(ByCaller)
  }

  lemma CallFollows(model: Model, tools: Tools, mode: Mode, turn: nat, p: Progress, decision: Option<Decision>,
                    outcome: Outcome)
    requires Follows(model, tools, mode, turn, p) && p.current.Some?
    requires |p.current.value.outcomes| < |p.current.value.calls|
    requires Settled(tools, mode, turn, |p.rounds| + 1, p.current.value.calls[|p.current.value.outcomes|], decision,
                     outcome)
    ensures Follows(model, tools, mode, turn, p.(current := Some(Settle(p.current.value, decision, outcome))))
  {
    assert FollowedBy(model, tools, mode, turn, p);
    RoundGrows(tools, mode, turn, |p.rounds| + 1, p.current.value, decision, outcome);
  }

  lemma RoundGrows(tools: Tools, mode: Mode, turn: nat, n: nat, round: Round, decision: Option<Decision>,
                   outcome: Outcome)
    requires RoundFollows(tools, mode, turn, n, round) && |round.outcomes| < |round.calls|
    requires Settled(tools, mode, turn, n, round.calls[|round.outcomes|], decision, outcome)
    ensures RoundFollows(tools, mode, turn, n, Settle(round, decision, outcome))
  {
    var more := Settle(round, decision, outcome);
    forall j | 0 <= j < |more.outcomes|
      ensures Settled(tools, mode, turn, n, more.calls[j], more.decisions[j], more.outcomes[j])
    {
      assert j < |round.outcomes| ==>
          Settled(tools, mode, turn, n, round.calls[j], round.decisions[j], round.outcomes[j]);
    }
  }

  lemma RoundStarts(model: Model, tools: Tools, mode: Mode, turn: nat, p: Progress, calls: seq<Call>)
    requires Follows(model, tools, mode, turn, p) && p.current == None && AsksFor(model, turn, |p.rounds| + 1, calls)
    ensures Follows(model, tools, mode, turn, p.(current := Some(Round(calls, [], []))))
  {
    assert FollowedBy(model, tools, mode, turn, p);
    assert RoundFollows(tools, mode, turn, |p.rounds| + 1, Round(calls, [], []));
  }

  lemma RoundEnds(model: Model, tools: Tools, mode: Mode, turn: nat, p: Progress)
    requires Follows(model, tools, mode, turn, p) && p.current.Some?
    requires |p.current.value.outcomes| == |p.current.value.calls|
    ensures Follows(model, tools, mode, turn, Progress(p.user, p.rounds + [p.current.value], None))
  {
    assert FollowedBy(model, tools, mode, turn, p);
    var rounds := p.rounds + [p.current.value];
    forall k | 0 <= k < |rounds| ensures RoundIsWhole(model, tools, mode, turn, k + 1, rounds[k]) {
      assert k < |p.rounds| ==> RoundIsWhole(model, tools, mode, turn, k + 1, p.rounds[k]);
    }
  }
}
