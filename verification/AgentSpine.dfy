/** The agent turn loop with suspension and resumption (crates/yunxi-agent-spine/src/agent.rs). */
module AgentSpine {
  import opened Wrappers
  import opened SessionLog
  import opened ToolBroker
  import opened AgentTurn

  datatype AgentState = Ready | Running | AwaitingDecision

  datatype TurnState =
    | Created | ContextBuilding | ModelCalling | ToolCalling | Waiting | TurnDone | TurnBroken | TurnStopped

  datatype AgentError =
    | InvalidState
    | InvalidBudget
    | InvalidUserMessage
    | ApprovalRefused
    | StoppedBy(reason: string)
    | RoundBudget
    | ModelBudget
    | ToolBudget
    | CatalogFailed
    | ContextFailed
    | ModelFailed
    | SessionFailed(error: SessionError)
    | InvalidModelToolCalls
    | InvalidToolFailure
    | InvalidToolResult
    | TurnIdsExhausted

  /** The counters of one turn. */
  datatype Tracker = Tracker(turn: nat, round: nat, modelCalls: nat, toolCalls: nat, state: TurnState)

  datatype PendingTool = PendingTool(request: ApprovalRequest, round: nat, calls: seq<Call>, nextCall: nat)

  datatype PendingTurn = PendingTurn(tracker: Tracker, user: Message, tool: PendingTool)

  datatype InnerOutcome = InnerCompleted(response: Response) | InnerAwaiting(tool: PendingTool)

  datatype TurnOutcome = TurnResult(response: Response, snapshot: Tracker) | ApprovalNeeded(request: ApprovalRequest)

  /** What the agent is built around; a turn assembles its context and asks the model once in every round. */
  datatype Parts = Parts(budget: Budget, model: Model, catalogFails: (nat, nat) -> bool,
                         contextFails: (nat, nat) -> bool,
                         stops: nat -> Option<string>, describe: AgentError -> Failure)

  const LAST_TURN := 0xFFFF_FFFF_FFFF_FFFF

  predicate Within(budget: Budget, tracker: Tracker) {
    && tracker.round == tracker.modelCalls <= budget.maxModelCalls
    && tracker.round <= budget.maxRounds && tracker.toolCalls <= budget.maxToolCalls
  }

  function BatchError(codec: Codec, budget: Budget, round: nat, calls: seq<Call>): bool {
    !BatchFits(codec, round, calls) || round > budget.maxRounds || |calls| > budget.maxCallsPerRound
  }

  /** A turn writes at most this many events in a round: context, request, answer, calls, and two for each call. */
  const ROUND_ROOM := 4 + 2 * MAX_BATCH

  predicate AnswerFits(codec: Codec, budget: Budget, turn: nat, round: nat, answer: ModelAnswer) {
    && answer.Answered?
    && EventFits(codec, ModelResponded(turn, round, answer.response))
    && (answer.response.calls != [] ==>
          BatchFits(codec, round, answer.response.calls) && |answer.response.calls| <= budget.maxCallsPerRound)
  }

  predicate AttemptFits(codec: Codec, execution: Result<ToolExecution, ToolError>) {
    match execution
    case Ok(Executed(outcome)) => codec.outcomeFits(outcome)
    case Ok(AwaitingApproval(request)) => codec.requestFits(request)
    case Err(error) => codec.outcomeFits(Failed(error.code, error.message))
  }

  function StopReason(error: AgentError): Option<string> {
    match error case StoppedBy(reason) => Some(reason) case _ => None
  }

  ghost predicate TurnsBelow(turns: set<nat>, next: nat) {
    forall turn :: turn in turns ==> turn < next
  }

  ghost predicate Suspends(tools: Tools, turn: nat, round: nat, call: Call, request: ApprovalRequest) {
    WithApproval(tools, turn, round, call, None) == Ok(AwaitingApproval(request))
  }

  /** What can go wrong around an agent, apart from budgets and a full log. */
  datatype Risk =
    | TwoCodecs
    | TooLarge(event: Event)
    | StopAt(n: nat)
    | NoCatalog(turn: nat, round: nat)
    | NoContext(turn: nat, round: nat)
    | BadAnswer(turn: nat, round: nat)
    | BadAttempt(mode: Mode, turn: nat, round: nat, call: Call, approval: Option<Decision>)

  class Agent {
    const parts: Parts
    const log: Log
    const broker: Broker
    var state: AgentState
    var turnsStarted: nat
    var nextTurn: nat
    var lastTurn: Option<Tracker>
    var pending: Option<PendingTurn>
    var polls: nat
    /** Where the current turn starts in the log, and how far it has come. */
    ghost var start: nat
    ghost var progress: Progress
    /** The decisions accepted and the requests logged so far, and the turns of the direct path. */
    ghost var accepted: seq<Accepted>
    ghost var asked: seq<Asked>
    ghost var direct: set<nat>
    /** How many tools had run when the current turn began. */
    ghost var runsBefore: nat

    ghost function Seen(): History
      reads `accepted, `asked, `direct
    {
      History(accepted, asked, direct)
    }

    ghost function TurnEvents(): seq<Event>
      requires start <= |log.records|
      reads `start, log`records
    {
      log.Events()[start..]
    }

    /** The events of this turn follow the protocol and have come this far in it. */
    ghost predicate AtPhase(turn: nat, phase: Phase)
      reads `start, log`records
    {
      start <= |log.records| && Reaches(turn, TurnEvents(), phase)
    }

    /** The turn has written its events in order so far, and is not over. */
    ghost predicate Goes(turn: nat)
      reads `start, log`records
    {
      exists phase {:trigger AtPhase(turn, phase)} :: AtPhase(turn, phase) && phase != OutOfOrder && !phase.IsEnd()
    }

    /** The next call may be settled: it was asked about if there is a decision, which is about this very call. */
    ghost predicate MaySettle(turn: nat, round: nat, calls: seq<Call>, index: nat, approval: Option<Decision>)
      reads `start, log`records
    {
      match approval
      case None => AtPhase(turn, BeforeCall(round, calls, index))
      case Some(decision) =>
        && AtPhase(turn, AwaitsDecision(round, calls, index))
        && index < |calls| && DecisionMatches(round, calls[index], decision)
    }

    /** The events before the current turn. */
    ghost function Past(): seq<Event>
      requires start <= |log.records|
      reads `start, log`records
    {
      log.Events()[..start]
    }

    /** The log of the current turn is the trace of its progress. */
    ghost predicate InTurn(mode: Mode, turn: nat, modelCalls: nat, toolCalls: nat)
      reads `start, `progress, `direct, log`records, log`bytesUsed, log`nextSequence
    {
      && (mode == Legacy <==> turn in direct)
      && log.Valid() && start <= |log.records|
      && Traces(progress, TurnEvents(), modelCalls, toolCalls)
      && Follows(parts.model, broker.tools, mode, turn, progress)
    }

    ghost predicate SafeSoFar()
      reads broker`executions, `accepted, `asked, `direct
    {
      Safe(broker.tools, broker.executions, Seen())
    }

    /** Every request on record was logged. */
    ghost predicate AskedIsLogged()
      reads `asked, log`records, log`archive
    {
      AllLogged(asked, log.EverLogged())
    }

    /** The log goes on after what it held before the turn, and no request is lost from it. */
    twostate predicate Continues()
      reads `start, `asked, log`records, log`bytesUsed, log`nextSequence, log`archive
    {
      && log.Valid() && start <= |log.records| && old(start <= |log.records|) && Past() == old(Past())
      && (old(AskedIsLogged()) ==> AskedIsLogged())
    }

    /** The request was made in this turn. */
    ghost predicate Requested(turn: nat, request: ApprovalRequest)
      reads `start, `asked, log`records
    {
      && Asked(turn, request) in asked
      && start <= |log.records| && ToolApprovalRequested(turn, request) in TurnEvents()
    }

    /** No counter of the turn exceeds the budget. */
    predicate InBudget(tracker: Tracker) {
      && tracker.round <= parts.budget.maxRounds && tracker.modelCalls <= parts.budget.maxModelCalls
      && tracker.toolCalls <= parts.budget.maxToolCalls
    }

    /** Since the turn began no more tools ran than it was charged for. */
    ghost predicate Charged(tracker: Tracker)
      reads `runsBefore, broker`executions
    {
      runsBefore <= |broker.executions| <= runsBefore + tracker.toolCalls
    }

    /** Each tool that ran was charged for. */
    twostate predicate Charges(before: Tracker, after: Tracker)
      reads broker`executions
    {
      && |old(broker.executions)| <= |broker.executions|
      && |broker.executions| + before.toolCalls <= |old(broker.executions)| + after.toolCalls
    }

    /** The turn stands before call `k` of the round in progress. */
    ghost predicate AtCall(calls: seq<Call>, round: nat, k: nat)
      reads `progress
    {
      && progress.current.Some? && progress.current.value.calls == calls
      && |progress.current.value.outcomes| == |progress.current.value.decisions| == k <= |calls| <= MAX_BATCH
      && round == |progress.rounds| + 1
    }

    /** A suspended turn stands before the call that was asked about. */
    ghost predicate Suspended(p: PendingTurn)
      reads `start, `progress, `asked, `direct, `runsBefore, broker`executions
      reads log`records, log`bytesUsed, log`nextSequence
    {
      && InTurn(ApprovalAware, p.tracker.turn, p.tracker.modelCalls, p.tracker.toolCalls)
      && Within(parts.budget, p.tracker) && p.tracker.round == p.tool.round
      && AtCall(p.tool.calls, p.tool.round, p.tool.nextCall) && p.tool.nextCall < |p.tool.calls|
      && Suspends(broker.tools, p.tracker.turn, p.tool.round, p.tool.calls[p.tool.nextCall], p.tool.request)
      && Requested(p.tracker.turn, p.tool.request) && Charged(p.tracker)
      && AtPhase(p.tracker.turn, AwaitsDecision(p.tool.round, p.tool.calls, p.tool.nextCall))
      && progress.user == p.user
    }

    /** Between public calls. */
    ghost predicate Valid()
      reads this, log, broker
    {
      && ValidBudget(parts.budget) && log.Valid() && SafeSoFar()
      && state != Running && TurnsBelow(direct, nextTurn) && AskedIsLogged()
      && (lastTurn.Some? ==> InBudget(lastTurn.value) && Charged(lastTurn.value))
      && match pending
         case None => true
         case Some(taken) => state == AwaitingDecision && Suspended(taken)
    }

    /** The one state that no later call leaves: waiting for a decision about nothing. */
    ghost predicate Stuck()
      reads `state, `pending
    {
      state == AwaitingDecision && pending == None
    }

    ghost predicate Averted(risk: Risk) {
      match risk
      case TwoCodecs => log.codec == broker.tools.codec
      case TooLarge(event) => EventFits(log.codec, event) ==> log.codec.size(event) <= log.limits.maxEventBytes
      case StopAt(n) => parts.stops(n) == None
      case NoCatalog(turn, round) => !parts.catalogFails(turn, round)
      case NoContext(turn, round) => !parts.contextFails(turn, round)
      case BadAnswer(turn, round) =>
        0 < round <= parts.budget.maxRounds ==>
            AnswerFits(log.codec, parts.budget, turn, round, parts.model(turn, round))
      case BadAttempt(mode, turn, round, call, approval) =>
        AttemptFits(log.codec, Attempt(broker.tools, mode, turn, round, call, approval))
    }

    ghost predicate FitsAnswer(turn: nat, round: nat, response: Response) {
      && EventFits(log.codec, ModelResponded(turn, round, response))
      && (response.calls != [] ==>
            BatchFits(broker.tools.codec, round, response.calls)
            && |response.calls| <= parts.budget.maxCallsPerRound)
    }

    /** Nobody stops the agent, nothing it is built around fails, and all texts are acceptable. */
    ghost predicate Healthy() {
      forall risk :: Averted(risk)
    }

    /** ... including the decision that is used. */
    ghost predicate Able(approval: Option<Decision>) {
      Healthy() && (approval.Some? ==> log.codec.decisionFits(approval.value))
    }

    /** The turn ran out of rounds, model calls or tool calls. */
    ghost predicate BudgetSpent(tracker: Tracker, error: AgentError)
      reads `progress
    {
      || (error == RoundBudget && |progress.rounds| >= parts.budget.maxRounds)
      || (error == ModelBudget && |progress.rounds| >= parts.budget.maxModelCalls)
      || (error == ToolBudget && tracker.toolCalls >= parts.budget.maxToolCalls)
    }

    /** The events that the rounds from this one on may write. */
    ghost function RoundsRoom(round: nat): nat
      decreases parts.budget.maxRounds + 1 - round
    {
      if round <= parts.budget.maxRounds then ROUND_ROOM + RoundsRoom(round + 1) else 0
    }

    /** No budget is spent before this round. */
    ghost predicate Affords(tracker: Tracker, round: nat) {
      && round <= parts.budget.maxRounds && tracker.modelCalls < parts.budget.maxModelCalls
      && tracker.toolCalls < parts.budget.maxToolCalls
    }

    /** The model's answer asks first for a call that needs a decision. */
    ghost predicate AsksFirst(turn: nat, round: nat) {
      && parts.model(turn, round).Answered? && parts.model(turn, round).response.calls != []
      && MustAsk(broker.tools, turn, round, parts.model(turn, round).response.calls[0])
    }

    /** ... and nothing keeps the turn from getting there. */
    ghost predicate GetsAsked(mode: Mode, tracker: Tracker, round: nat) {
      mode == ApprovalAware && AsksFirst(tracker.turn, round) && Affords(tracker, round) && Healthy()
    }

    constructor (parts: Parts, log: Log, broker: Broker)
      requires ValidBudget(parts.budget) && log.Valid() && broker.executions == []
      ensures Valid() && state == Ready && pending == None && nextTurn == 1
      ensures this.parts == parts && this.log == log && this.broker == broker
    {
      this.parts, this.log, this.broker := parts, log, broker;
      state, turnsStarted, nextTurn, lastTurn, pending, polls := Ready, 0, 1, None, None, 0;
      start, progress, accepted, asked, direct := 0, Progress(UserText(""), [], None), [], [], {};
      runsBefore := 0;
    }

    // ------------------------------------------------------------------
    // Steps of a turn
    // ------------------------------------------------------------------

    /** Asks the cancellation token. */
    method Poll() returns (stop: Option<AgentError>)
      modifies `polls
      ensures polls == old(polls) + 1
      ensures stop == match parts.stops(old(polls)) case None => None case Some(text) => Some(StoppedBy(text))
      ensures Healthy() ==> stop == None
    {
      assert Healthy() ==> Averted(StopAt(polls));
      var reason := parts.stops(polls);
      polls := polls + 1;
      stop := match reason case None => None case Some(text) => Some(StoppedBy(text));
    }

    /** Appends one event; the events of earlier turns stay, and the event leads from `phase` to the next one. */
    method Write(event: Event, ghost phase: Phase) returns (r: Option<AgentError>)
      requires log.Valid()
      modifies log`records, log`bytesUsed, log`nextSequence
      ensures log.Valid()
      ensures r.None? <==> old(log.Accepts(event))
      ensures r.None? ==> log.Events() == old(log.Events()) + [event]
      ensures r.Some? ==> log.Events() == old(log.Events()) && r.value.SessionFailed? && !log.Accepts(event)
      ensures old(AtPhase(event.turn, phase)) ==>
                AtPhase(event.turn, if r.None? then NextPhase(event.turn, phase, event) else phase)
      ensures old(AskedIsLogged()) ==> AskedIsLogged()
      ensures log.Room() + 1 >= old(log.Room())
      ensures Healthy() && EventFits(log.codec, event) && old(log.Room()) > 0 ==> r.None?
    {
      ghost var events := log.Events();
      r := PutInLog(event);
      if old(AtPhase(event.turn, phase)) && r.None? {
        SinceGrows(events, event, start);
        ReachesNext(event.turn, events[start..], phase, event);
      }
    }

    method PutInLog(event: Event) returns (r: Option<AgentError>)
      requires log.Valid()
      modifies log`records, log`bytesUsed, log`nextSequence
      ensures log.Valid()
      ensures r.None? <==> old(log.Accepts(event))
      ensures r.None? ==> log.Events() == old(log.Events()) + [event]
      ensures r.Some? ==> log.records == old(log.records) && r.value.SessionFailed? && !log.Accepts(event)
      ensures old(AskedIsLogged()) ==> AskedIsLogged()
      ensures log.Room() + 1 >= old(log.Room())
      ensures Healthy() && EventFits(log.codec, event) && old(log.Room()) > 0 ==> r.None?
    {
      assert Healthy() ==> Averted(TooLarge(event));
      ghost var before := log.EverLogged();
      var appended := log.Append(event);
      if appended.Ok? {
        assert log.EverLogged() == before + [event];
        if AllLogged(asked, before) {
          LoggedStays(asked, before, event);
        }
      }
      r := match appended case Ok(_) => None case Err(error) => Some(SessionFailed(error));
    }

    /** Appends an event that adds no message. */
    method Note(event: Event, ghost mode: Mode, ghost turn: nat, ghost modelCalls: nat, ghost toolCalls: nat,
                ghost phase: Phase)
      returns (r: Option<AgentError>)
      requires InTurn(mode, turn, modelCalls, toolCalls) && MessagesOf(event) == []
      modifies log`records, log`bytesUsed, log`nextSequence
      ensures Continues()
      ensures r.None? ==> TurnEvents() == old(TurnEvents()) + [event]
      ensures old(AtPhase(event.turn, phase)) ==>
                AtPhase(event.turn, if r.None? then NextPhase(event.turn, phase, event) else phase)
      ensures r.None? ==> InTurn(mode, turn, modelCalls + if event.ModelRequested? then 1 else 0,
                                 toolCalls + if event.ToolApprovalRequested? then 1 else 0)
      ensures log.Room() + 1 >= old(log.Room())
      ensures Healthy() && EventFits(log.codec, event) && old(log.Room()) > 0 ==> r.None?
    {
      QuietEvent(progress, TurnEvents(), event, modelCalls, toolCalls);
      SinceGrows(log.Events(), event, start);
      r := Write(event, phase);
    }

    /** Executes one call and records its outcome, or records the request that suspends the turn. */
    method SettleCall(tracker0: Tracker, round: nat, calls: seq<Call>, index: nat, approval: Option<Decision>,
                      mode: Mode)
      returns (tracker: Tracker, r: Result<Option<ApprovalRequest>, AgentError>)
      requires InTurn(mode, tracker0.turn, tracker0.modelCalls, tracker0.toolCalls) && Within(parts.budget, tracker0)
      requires AtCall(calls, round, index) && index < |calls| && SafeSoFar()
      requires approval.Some? ==>
        mode == ApprovalAware
        && Fresh(broker.tools, broker.executions, Seen(), tracker0.turn, round, calls[index], approval.value)
      requires MaySettle(tracker0.turn, round, calls, index, approval)
      modifies `polls, `progress, `asked, log`records, log`bytesUsed, log`nextSequence, broker`executions
      ensures Continues() && SafeSoFar()
      ensures tracker == tracker0.(toolCalls := tracker.toolCalls, state := tracker.state)
      ensures r.Ok? ==> tracker.toolCalls == tracker0.toolCalls + 1
      ensures r.Ok? ==>
                InTurn(mode, tracker.turn, tracker.modelCalls, tracker.toolCalls) && Within(parts.budget, tracker)
      ensures progress.user == old(progress).user && progress.rounds == old(progress).rounds
      ensures r.Ok? && r.value.None? ==> AtCall(calls, round, index + 1)
      ensures r.Ok? && r.value.Some? ==> mode == ApprovalAware && progress == old(progress)
                                         && Suspends(broker.tools, tracker.turn, round, calls[index], r.value.value)
                                         && Requested(tracker.turn, r.value.value)
      ensures log.Room() + 2 >= old(log.Room())
      ensures Able(approval) && old(log.Room()) >= 2 && r.Err? ==>
                r.error == ToolBudget && tracker.toolCalls == tracker0.toolCalls >= parts.budget.maxToolCalls
      ensures mode == ApprovalAware && approval == None && MustAsk(broker.tools, tracker0.turn, round, calls[index]) ==>
                r.Ok? ==> r.value.Some?
      ensures InBudget(tracker) && Charges(tracker0, tracker)
      ensures r.Ok? && r.value.None? ==> AtPhase(tracker0.turn, AfterCalls(round, calls, index + 1))
      ensures r.Ok? && r.value.Some? ==> AtPhase(tracker0.turn, AwaitsDecision(round, calls, index))
      ensures r.Err? ==> Goes(tracker0.turn)
    {
      tracker := tracker0;
      var stop := Poll();
      if stop.Some? {
        r := Err(stop.value);
      } else if tracker.toolCalls >= parts.budget.maxToolCalls {
        r := Err(ToolBudget);
      } else {
        tracker := tracker.(toolCalls := tracker.toolCalls + 1, state := ToolCalling);
        r := TryCall(tracker, round, calls, index, approval, mode);
      }
    }

    /** The call that was charged is tried, and what came of it goes to the log. */
    method TryCall(tracker: Tracker, round: nat, calls: seq<Call>, index: nat, approval: Option<Decision>, mode: Mode)
      returns (r: Result<Option<ApprovalRequest>, AgentError>)
      requires tracker.toolCalls > 0 && InTurn(mode, tracker.turn, tracker.modelCalls, tracker.toolCalls - 1)
      requires AtCall(calls, round, index) && index < |calls| && SafeSoFar()
      requires approval.Some? ==>
        mode == ApprovalAware
        && Fresh(broker.tools, broker.executions, Seen(), tracker.turn, round, calls[index], approval.value)
      requires MaySettle(tracker.turn, round, calls, index, approval)
      modifies `progress, `asked, log`records, log`bytesUsed, log`nextSequence, broker`executions
      ensures Continues() && SafeSoFar()
      ensures r.Ok? ==> InTurn(mode, tracker.turn, tracker.modelCalls, tracker.toolCalls)
      ensures progress.user == old(progress).user && progress.rounds == old(progress).rounds
      ensures r.Ok? && r.value.None? ==> AtCall(calls, round, index + 1)
      ensures r.Ok? && r.value.Some? ==> mode == ApprovalAware && progress == old(progress)
                                         && Suspends(broker.tools, tracker.turn, round, calls[index], r.value.value)
                                         && Requested(tracker.turn, r.value.value)
      ensures log.Room() + 2 >= old(log.Room())
      ensures Able(approval) && old(log.Room()) >= 2 ==> r.Ok?
      ensures mode == ApprovalAware && approval == None && MustAsk(broker.tools, tracker.turn, round, calls[index]) ==>
                r.Ok? ==> r.value.Some?
      ensures |old(broker.executions)| <= |broker.executions| <= |old(broker.executions)| + 1
      ensures r.Ok? && r.value.None? ==> AtPhase(tracker.turn, AfterCalls(round, calls, index + 1))
      ensures r.Ok? && r.value.Some? ==> AtPhase(tracker.turn, AwaitsDecision(round, calls, index))
      ensures r.Err? ==> Goes(tracker.turn)
    {
      var execution := Execute(mode, tracker.turn, round, calls[index], approval);
      r := Conclude(tracker, round, calls, index, approval, execution, mode);
    }

    /** What the attempt gave decides: the turn is suspended, or the call has an outcome; an error is an outcome too. */
    method Conclude(tracker: Tracker, round: nat, calls: seq<Call>, index: nat, approval: Option<Decision>,
                    execution: Result<ToolExecution, ToolError>, ghost mode: Mode)
      returns (r: Result<Option<ApprovalRequest>, AgentError>)
      requires tracker.toolCalls > 0 && InTurn(mode, tracker.turn, tracker.modelCalls, tracker.toolCalls - 1)
      requires SafeSoFar()
      requires AtCall(calls, round, index) && index < |calls|
      requires execution == Attempt(broker.tools, mode, tracker.turn, round, calls[index], approval)
      requires approval.Some? ==> mode == ApprovalAware && MustAsk(broker.tools, tracker.turn, round, calls[index])
      requires MaySettle(tracker.turn, round, calls, index, approval)
      modifies `progress, `asked, log`records, log`bytesUsed, log`nextSequence
      ensures Continues() && SafeSoFar()
      ensures r.Ok? ==> InTurn(mode, tracker.turn, tracker.modelCalls, tracker.toolCalls)
      ensures progress.user == old(progress).user && progress.rounds == old(progress).rounds
      ensures r.Ok? && r.value.None? ==> AtCall(calls, round, index + 1)
      ensures r.Ok? && r.value.Some? ==> mode == ApprovalAware && progress == old(progress)
                                         && Suspends(broker.tools, tracker.turn, round, calls[index], r.value.value)
                                         && Requested(tracker.turn, r.value.value)
      ensures log.Room() + 2 >= old(log.Room())
      ensures Able(approval) && old(log.Room()) >= 2 ==> r.Ok?
      ensures r.Ok? ==> (r.value.Some? <==> execution.Ok? && execution.value.AwaitingApproval?)
      ensures r.Ok? && r.value.None? ==> AtPhase(tracker.turn, AfterCalls(round, calls, index + 1))
      ensures r.Ok? && r.value.Some? ==> AtPhase(tracker.turn, AwaitsDecision(round, calls, index))
      ensures r.Err? ==> Goes(tracker.turn)
    {
      assert Healthy() ==> Averted(BadAttempt(mode, tracker.turn, round, calls[index], approval));
      if execution.Ok? && execution.value.AwaitingApproval? {
        r := Suspend(tracker, round, calls, index, execution.value.request, mode);
      } else {
        r := Settles(tracker, round, calls, index, approval, execution, mode);
      }
    }

    /** A call is tried on the path of the turn; whatever runs, runs rightfully. */
    method Execute(mode: Mode, turn: nat, round: nat, call: Call, approval: Option<Decision>)
      returns (r: Result<ToolExecution, ToolError>)
      requires SafeSoFar() && (mode == Legacy ==> turn in direct)
      requires approval.Some? ==>
        mode == ApprovalAware && Fresh(broker.tools, broker.executions, Seen(), turn, round, call, approval.value)
      modifies broker`executions
      ensures r == Attempt(broker.tools, mode, turn, round, call, approval)
      ensures SafeSoFar()
      ensures approval.Some? ==> MustAsk(broker.tools, turn, round, call)
      ensures |old(broker.executions)| <= |broker.executions| <= |old(broker.executions)| + 1
    {
      ghost var ticket := if |accepted| > 0 then |accepted| - 1 else 0;
      BrokerIsSafe(broker.tools, broker.executions, Seen(), mode, turn, round, call, approval, ticket);
      if mode == Legacy {
        r := broker.ExecuteDirectly(turn, round, call);
      } else {
        r := broker.ExecuteWithApproval(turn, round, call, approval, ticket);
      }
    }

    /** The request goes to the log before anybody sees it. */
    method Suspend(tracker: Tracker, round: nat, calls: seq<Call>, index: nat, request: ApprovalRequest,
                   ghost mode: Mode)
      returns (r: Result<Option<ApprovalRequest>, AgentError>)
      requires tracker.toolCalls > 0 && InTurn(mode, tracker.turn, tracker.modelCalls, tracker.toolCalls - 1)
      requires SafeSoFar()
      requires index < |calls| && RequestMatches(round, calls[index], request)
      requires AtPhase(tracker.turn, BeforeCall(round, calls, index))
      modifies `asked, log`records, log`bytesUsed, log`nextSequence
      ensures Continues() && SafeSoFar()
      ensures r.Ok? ==> InTurn(mode, tracker.turn, tracker.modelCalls, tracker.toolCalls)
                        && r.value == Some(request) && Requested(tracker.turn, request)
      ensures log.Room() + 1 >= old(log.Room())
      ensures Healthy() && log.codec.requestFits(request) && old(log.Room()) >= 1 ==> r.Ok?
      ensures r.Ok? ==> AtPhase(tracker.turn, AwaitsDecision(round, calls, index))
      ensures r.Err? ==> Goes(tracker.turn)
    {
      var failed := Note(ToolApprovalRequested(tracker.turn, request), mode, tracker.turn, tracker.modelCalls,
                         tracker.toolCalls - 1, BeforeCall(round, calls, index));
      if failed.Some? {
        return Err(failed.value);
      }
      SafeStays(broker.tools, broker.executions, Seen(),
                History(accepted, asked + [Asked(tracker.turn, request)], direct));
      assert ToolApprovalRequested(tracker.turn, request) in log.Events()[start..];
      if AskedIsLogged() {
        OneMoreAsked(asked, log.EverLogged(), Asked(tracker.turn, request));
      }
      asked := asked + [Asked(tracker.turn, request)];
      r := Ok(Some(request));
    }

    /** An error of the tool is an outcome too. The decision, if one was used, and then the outcome go to the log. */
    method Settles(tracker: Tracker, round: nat, calls: seq<Call>, index: nat, approval: Option<Decision>,
                   execution: Result<ToolExecution, ToolError>, ghost mode: Mode)
      returns (r: Result<Option<ApprovalRequest>, AgentError>)
      requires tracker.toolCalls > 0 && InTurn(mode, tracker.turn, tracker.modelCalls, tracker.toolCalls - 1)
      requires AtCall(calls, round, index) && index < |calls|
      requires execution == Attempt(broker.tools, mode, tracker.turn, round, calls[index], approval)
      requires execution.Ok? ==> execution.value.Executed?
      requires approval.Some? ==> mode == ApprovalAware && MustAsk(broker.tools, tracker.turn, round, calls[index])
      requires MaySettle(tracker.turn, round, calls, index, approval)
      modifies `progress, log`records, log`bytesUsed, log`nextSequence
      ensures Continues()
      ensures r.Ok? ==>
                && r.value == None
                && InTurn(mode, tracker.turn, tracker.modelCalls, tracker.toolCalls)
                && AtCall(calls, round, index + 1)
      ensures progress.user == old(progress).user && progress.rounds == old(progress).rounds
      ensures log.Room() + 2 >= old(log.Room())
      ensures Able(approval) && old(log.Room()) >= 2 ==> r.Ok?
      ensures r.Ok? ==> AtPhase(tracker.turn, AfterCalls(round, calls, index + 1))
      ensures r.Err? ==> Goes(tracker.turn)
    {
      assert Healthy() ==> Averted(BadAttempt(mode, tracker.turn, round, calls[index], approval)) && Averted(TwoCodecs);
      if execution.Err? && !broker.tools.codec.outcomeFits(Failed(execution.error.code, execution.error.message)) {
        return Err(InvalidToolFailure);
      }
      var outcome := if execution.Ok? then execution.value.outcome
                     else Failed(execution.error.code, execution.error.message);
      assert Settled(broker.tools, mode, tracker.turn, round, calls[index], approval, outcome);
      var failed, phase := NoteDecision(tracker, round, calls, index, approval, mode);
      if failed.Some? {
        return Err(failed.value);
      }
      if round == 0 || !broker.tools.codec.outcomeFits(outcome) {
        return Err(InvalidToolResult);
      }
      r := RecordResult(tracker, round, calls, index, approval, outcome, mode, phase);
    }

    /** The decision, if there is one, goes to the log. */
    method NoteDecision(tracker: Tracker, ghost round: nat, ghost calls: seq<Call>, ghost index: nat,
                        approval: Option<Decision>, ghost mode: Mode)
      returns (failed: Option<AgentError>, ghost phase: Phase)
      requires tracker.toolCalls > 0 && InTurn(mode, tracker.turn, tracker.modelCalls, tracker.toolCalls - 1)
      requires MaySettle(tracker.turn, round, calls, index, approval)
      modifies log`records, log`bytesUsed, log`nextSequence
      ensures Continues()
      ensures failed.None? ==> InTurn(mode, tracker.turn, tracker.modelCalls, tracker.toolCalls - 1)
      ensures failed.None? ==>
                && phase == (if approval.Some? then DecisionNoted(round, calls, index)
                             else BeforeCall(round, calls, index))
                && AtPhase(tracker.turn, phase)
      ensures failed.Some? ==> Goes(tracker.turn)
      ensures log.Room() + 1 >= old(log.Room())
      ensures Able(approval) && old(log.Room()) >= 1 ==> failed.None?
    {
      failed, phase := None, BeforeCall(round, calls, index);
      if approval.Some? {
        phase := DecisionNoted(round, calls, index);
        failed := Note(ToolApprovalResolved(tracker.turn, approval.value), mode, tracker.turn, tracker.modelCalls,
                       tracker.toolCalls - 1, AwaitsDecision(round, calls, index));
      }
    }

    method RecordResult(tracker: Tracker, round: nat, calls: seq<Call>, index: nat, ghost approval: Option<Decision>,
                        outcome: Outcome, ghost mode: Mode, ghost phase: Phase)
      returns (r: Result<Option<ApprovalRequest>, AgentError>)
      requires tracker.toolCalls > 0 && InTurn(mode, tracker.turn, tracker.modelCalls, tracker.toolCalls - 1)
      requires AtCall(calls, round, index) && index < |calls|
      requires Settled(broker.tools, mode, tracker.turn, round, calls[index], approval, outcome)
      requires AtPhase(tracker.turn, phase)
      requires phase == BeforeCall(round, calls, index) || phase == DecisionNoted(round, calls, index)
      modifies `progress, log`records, log`bytesUsed, log`nextSequence
      ensures Continues()
      ensures r.Ok? ==>
                && r.value == None
                && InTurn(mode, tracker.turn, tracker.modelCalls, tracker.toolCalls)
                && AtCall(calls, round, index + 1)
      ensures progress.user == old(progress).user && progress.rounds == old(progress).rounds
      ensures log.Room() + 1 >= old(log.Room())
      ensures Healthy() && log.codec.outcomeFits(outcome) && old(log.Room()) >= 1 ==> r.Ok?
      ensures r.Ok? ==> AtPhase(tracker.turn, AfterCalls(round, calls, index + 1))
      ensures r.Err? ==> Goes(tracker.turn)
    {
      ghost var events, after :=
          TurnEvents(), progress.(current := Some(Settle(progress.current.value, approval, outcome)));
      SinceGrows(log.Events(), ToolResultRecorded(tracker.turn, round, calls[index], outcome), start);
      CallSettles(progress, events, tracker.turn, round, approval, outcome, tracker.modelCalls, tracker.toolCalls - 1);
      CallFollows(parts.model, broker.tools, mode, tracker.turn, progress, approval, outcome);
      var failed := Write(ToolResultRecorded(tracker.turn, round, calls[index], outcome), phase);
      if failed.Some? {
        return Err(failed.value);
      }
      progress := after;
      r := Ok(None);
    }

    /** Settles the calls of a batch from `startCall` on, in call order; a decision counts for the
        first of them only. */
    method ProcessToolBatch(tracker0: Tracker, round: nat, calls: seq<Call>, startCall: nat, approval: Option<Decision>,
                            mode: Mode)
      returns (tracker: Tracker, r: Result<Option<PendingTool>, AgentError>)
      requires InTurn(mode, tracker0.turn, tracker0.modelCalls, tracker0.toolCalls) && Within(parts.budget, tracker0)
      requires AtCall(calls, round, startCall) && startCall < |calls| && SafeSoFar()
      requires approval.Some? ==>
        mode == ApprovalAware
        && Fresh(broker.tools, broker.executions, Seen(), tracker0.turn, round, calls[startCall], approval.value)
      requires MaySettle(tracker0.turn, round, calls, startCall, approval)
      modifies `polls, `progress, `asked, log`records, log`bytesUsed, log`nextSequence, broker`executions
      ensures Continues() && SafeSoFar()
      ensures tracker == tracker0.(toolCalls := tracker.toolCalls, state := tracker.state)
      ensures r.Ok? ==> tracker.toolCalls > tracker0.toolCalls
      ensures progress.user == old(progress).user && progress.rounds == old(progress).rounds
      ensures r.Ok? ==>
                InTurn(mode, tracker.turn, tracker.modelCalls, tracker.toolCalls) && Within(parts.budget, tracker)
      ensures r.Ok? && r.value.None? ==> AtCall(calls, round, |calls|)
      ensures r.Ok? && r.value.Some? ==> mode == ApprovalAware && Stopped(tracker.turn, r.value.value, round, calls)
      ensures log.Room() + 2 * (|calls| - startCall) >= old(log.Room())
      ensures Able(approval) && old(log.Room()) >= 2 * (|calls| - startCall) && r.Err? ==>
                r.error == ToolBudget && tracker.toolCalls >= parts.budget.maxToolCalls
      ensures mode == ApprovalAware && approval == None && MustAsk(broker.tools, tracker0.turn, round, calls[startCall])
              && Healthy() && old(log.Room()) >= 2 * (|calls| - startCall)
              && tracker0.toolCalls < parts.budget.maxToolCalls ==>
                r.Ok? && r.value.Some?
      ensures InBudget(tracker) && Charges(tracker0, tracker)
      ensures r.Ok? && r.value.None? ==> AtPhase(tracker.turn, BeforeRound(round + 1))
      ensures r.Err? ==> Goes(tracker.turn)
    {
      tracker := tracker0;
      for index := startCall to |calls|
        invariant Continues() && SafeSoFar()
        invariant tracker == tracker0.(toolCalls := tracker.toolCalls, state := tracker.state)
        invariant InTurn(mode, tracker.turn, tracker.modelCalls, tracker.toolCalls) && Within(parts.budget, tracker)
        invariant AtCall(calls, round, index) && progress.user == old(progress).user
        invariant if index < |calls| then
                    MaySettle(tracker.turn, round, calls, index, if index == startCall then approval else None)
                  else
                    AtPhase(tracker.turn, BeforeRound(round + 1))
        invariant progress.rounds == old(progress).rounds
        invariant tracker.toolCalls == tracker0.toolCalls + (index - startCall) && Charges(tracker0, tracker)
        invariant log.Room() + 2 * (index - startCall) >= old(log.Room())
        invariant mode == ApprovalAware && approval == None
                  && MustAsk(broker.tools, tracker0.turn, round, calls[startCall]) ==>
                    index == startCall
        invariant index == startCall ==> broker.executions == old(broker.executions) && asked == old(asked)
      {
        var request;
        tracker, request := SettleCall(tracker, round, calls, index,
                                       if index == startCall then approval else None, mode);
        if request.Err? {
          return tracker, Err(request.error);
        }
        if request.value.Some? {
          return tracker, Ok(Some(PendingTool(request.value.value, round, calls, index)));
        }
      }
      r := Ok(None);
    }

    /** The turn stopped before a call that was asked about. */
    ghost predicate Stopped(turn: nat, tool: PendingTool, round: nat, calls: seq<Call>)
      reads `start, `progress, `asked, log`records
    {
      && tool.round == round && tool.calls == calls && tool.nextCall < |calls| && AtCall(calls, round, tool.nextCall)
      && Suspends(broker.tools, turn, round, calls[tool.nextCall], tool.request) && Requested(turn, tool.request)
      && AtPhase(turn, AwaitsDecision(round, calls, tool.nextCall))
    }

    /** The model answered with text and the log holds the answer. */
    ghost predicate TextEnd(mode: Mode, turn: nat, content: string, modelCalls: nat, toolCalls: nat)
      reads `start, `progress, `direct, log`records, log`bytesUsed, log`nextSequence
    {
      && (mode == Legacy <==> turn in direct)
      && log.Valid() && start <= |log.records|
      && TextTraces(progress, TurnEvents(), content, modelCalls, toolCalls)
      && Finished(parts.model, broker.tools, mode, turn, progress, content)
    }

    /** The turn stands before a round. */
    ghost predicate AtRound(tracker: Tracker, round: nat, mode: Mode)
      reads `start, `progress, `direct, log`records, log`bytesUsed, log`nextSequence
    {
      && InTurn(mode, tracker.turn, tracker.modelCalls, tracker.toolCalls) && progress.current == None
      && round == |progress.rounds| + 1 == tracker.modelCalls + 1 && InBudget(tracker)
    }

    /** One question to the model: checks and limits first, then the request and the answer go to the log. */
    method Ask(tracker0: Tracker, round: nat, mode: Mode) returns (tracker: Tracker, r: Result<Response, AgentError>)
      requires AtRound(tracker0, round, mode)
      requires AtPhase(tracker0.turn, BeforeRound(round))
      modifies `polls, `progress, log`records, log`bytesUsed, log`nextSequence
      ensures Continues()
      ensures tracker.turn == tracker0.turn && tracker.toolCalls == tracker0.toolCalls
      ensures progress.user == old(progress).user && progress.rounds == old(progress).rounds
      ensures r.Ok? ==> Within(parts.budget, tracker) && tracker.round == round
      ensures r.Ok? && r.value.calls == [] ==>
              TextEnd(mode, tracker.turn, r.value.content, tracker.modelCalls, tracker.toolCalls)
                                               && TextFits(r.value.content)
      ensures r.Ok? && r.value.calls != [] ==> InTurn(mode, tracker.turn, tracker.modelCalls, tracker.toolCalls)
                                               && AtCall(r.value.calls, round, 0)
      ensures r.Ok? ==> parts.model(tracker.turn, round) == Answered(r.value)
      ensures r.Ok? && r.value.calls != [] ==>
                BatchFits(broker.tools.codec, round, r.value.calls) && |r.value.calls| <= parts.budget.maxCallsPerRound
      ensures r.Ok? ==> log.Room() + 3 >= old(log.Room())
      ensures Healthy() && (round <= parts.budget.maxRounds ==> old(log.Room()) >= 3) && r.Err? ==>
                BudgetSpent(tracker, r.error) && !Affords(tracker0, round)
      ensures InBudget(tracker)
      ensures r.Ok? && r.value.calls == [] ==> AtPhase(tracker.turn, TextAnswered(r.value.content))
      ensures r.Ok? && r.value.calls != [] ==> AtPhase(tracker.turn, CallsAnswered(round, r.value.calls))
      ensures r.Err? ==> Goes(tracker.turn)
    {
      tracker := tracker0;
      var stop := Poll();
      if stop.Some? {
        return tracker, Err(stop.value);
      }
      if round > parts.budget.maxRounds {
        return tracker, Err(RoundBudget);
      }
      assert Healthy() ==> Averted(NoCatalog(tracker.turn, round)) && Averted(NoContext(tracker.turn, round));
      tracker := tracker.(round := round);
      if parts.catalogFails(tracker.turn, round) {
        return tracker, Err(CatalogFailed);
      }
      tracker := tracker.(state := ContextBuilding);
      if parts.contextFails(tracker.turn, round) {
        return tracker, Err(ContextFailed);
      }
      var failed := Note(ContextBuilt(tracker.turn), mode, tracker.turn, tracker.modelCalls, tracker.toolCalls,
                         BeforeRound(round));
      if failed.Some? {
        return tracker, Err(failed.value);
      }
      tracker, r := AskModel(tracker, round, mode);
    }

    /** The context is there: the request goes to the log and to the model. */
    method AskModel(tracker0: Tracker, round: nat, mode: Mode)
      returns (tracker: Tracker, r: Result<Response, AgentError>)
      requires AtRound(tracker0, round, mode) && tracker0.round == round <= parts.budget.maxRounds
      requires AtPhase(tracker0.turn, ContextReady(round))
      modifies `progress, log`records, log`bytesUsed, log`nextSequence
      ensures Continues()
      ensures tracker.turn == tracker0.turn && tracker.toolCalls == tracker0.toolCalls
      ensures progress.user == old(progress).user && progress.rounds == old(progress).rounds
      ensures r.Ok? ==> Within(parts.budget, tracker) && tracker.round == round
      ensures r.Ok? && r.value.calls == [] ==>
              TextEnd(mode, tracker.turn, r.value.content, tracker.modelCalls, tracker.toolCalls)
                                               && TextFits(r.value.content)
      ensures r.Ok? && r.value.calls != [] ==> InTurn(mode, tracker.turn, tracker.modelCalls, tracker.toolCalls)
                                               && AtCall(r.value.calls, round, 0)
      ensures r.Ok? ==> parts.model(tracker.turn, round) == Answered(r.value)
      ensures r.Ok? && r.value.calls != [] ==>
                BatchFits(broker.tools.codec, round, r.value.calls) && |r.value.calls| <= parts.budget.maxCallsPerRound
      ensures r.Ok? ==> log.Room() + 2 >= old(log.Room())
      ensures Healthy() && old(log.Room()) >= 2 && r.Err? ==> BudgetSpent(tracker, r.error) && !Affords(tracker0, round)
      ensures InBudget(tracker)
      ensures r.Ok? && r.value.calls == [] ==> AtPhase(tracker.turn, TextAnswered(r.value.content))
      ensures r.Ok? && r.value.calls != [] ==> AtPhase(tracker.turn, CallsAnswered(round, r.value.calls))
      ensures r.Err? ==> Goes(tracker.turn)
    {
      tracker := tracker0;
      assert Healthy() ==> parts.model(tracker.turn, round).Answered? by {
        assert Healthy() ==> Averted(BadAnswer(tracker.turn, round));
      }
      if tracker.modelCalls >= parts.budget.maxModelCalls {
        return tracker, Err(ModelBudget);
      }
      tracker := tracker.(modelCalls := tracker.modelCalls + 1, state := ModelCalling);
      var failed := Note(ModelRequested(tracker.turn, round), mode, tracker.turn, tracker.modelCalls - 1,
                         tracker.toolCalls, ContextReady(round));
      if failed.Some? {
        return tracker, Err(failed.value);
      }
      var answer := parts.model(tracker.turn, round);
      if answer.ModelBroke? {
        return tracker, Err(ModelFailed);
      }
      r := Answer(tracker, round, answer.response, mode);
    }

    /** The answer is checked and goes to the log. */
    method Answer(tracker: Tracker, round: nat, response: Response, ghost mode: Mode)
      returns (r: Result<Response, AgentError>)
      requires InTurn(mode, tracker.turn, tracker.modelCalls, tracker.toolCalls) && progress.current == None
      requires round == |progress.rounds| + 1 && parts.model(tracker.turn, round) == Answered(response)
      requires AtPhase(tracker.turn, ModelAsked(round))
      modifies `progress, log`records, log`bytesUsed, log`nextSequence
      ensures Continues()
      ensures progress.user == old(progress).user && progress.rounds == old(progress).rounds
      ensures r.Ok? ==> r.value == response
      ensures r.Ok? && response.calls == [] ==>
              TextEnd(mode, tracker.turn, response.content, tracker.modelCalls, tracker.toolCalls)
                                                && TextFits(response.content)
      ensures r.Ok? && response.calls != [] ==> InTurn(mode, tracker.turn, tracker.modelCalls, tracker.toolCalls)
                                                && AtCall(response.calls, round, 0)
                                                && BatchFits(broker.tools.codec, round, response.calls)
                                                && |response.calls| <= parts.budget.maxCallsPerRound
      ensures log.Room() + 1 >= old(log.Room())
      ensures Healthy() && round <= parts.budget.maxRounds && old(log.Room()) >= 1 ==> r.Ok?
      ensures r.Ok? && response.calls == [] ==> AtPhase(tracker.turn, TextAnswered(response.content))
      ensures r.Ok? && response.calls != [] ==> AtPhase(tracker.turn, CallsAnswered(round, response.calls))
      ensures r.Err? ==> Goes(tracker.turn)
    {
      assert Healthy() && round <= parts.budget.maxRounds ==> FitsAnswer(tracker.turn, round, response) by {
        assert Healthy() ==> Averted(BadAnswer(tracker.turn, round)) && Averted(TwoCodecs);
      }
      if response.calls != [] && BatchError(broker.tools.codec, parts.budget, round, response.calls) {
        return Err(InvalidModelToolCalls);
      }
      if response.calls == [] {
        r := AnswerText(tracker, round, response, mode);
      } else {
        r := AnswerCalls(tracker, round, response, mode);
      }
    }

    method AnswerText(tracker: Tracker, round: nat, response: Response, ghost mode: Mode)
      returns (r: Result<Response, AgentError>)
      requires InTurn(mode, tracker.turn, tracker.modelCalls, tracker.toolCalls) && progress.current == None
      requires response.calls == []
      requires round == |progress.rounds| + 1 && parts.model(tracker.turn, round) == Answered(response)
      requires AtPhase(tracker.turn, ModelAsked(round))
      modifies log`records, log`bytesUsed, log`nextSequence
      ensures Continues()
      ensures r.Ok? ==> r.value == response && TextFits(response.content)
                        && TextEnd(mode, tracker.turn, response.content, tracker.modelCalls, tracker.toolCalls)
      ensures log.Room() + 1 >= old(log.Room())
      ensures Healthy() && EventFits(log.codec, ModelResponded(tracker.turn, round, response))
              && old(log.Room()) >= 1 ==>
                r.Ok?
      ensures r.Ok? ==> AtPhase(tracker.turn, TextAnswered(response.content))
      ensures r.Err? ==> Goes(tracker.turn)
    {
      TextEnds(progress, TurnEvents(), tracker.turn, round, response, tracker.modelCalls, tracker.toolCalls);
      SinceGrows(log.Events(), ModelResponded(tracker.turn, round, response), start);
      assert response == Response(response.content, []);
      var failed := Write(ModelResponded(tracker.turn, round, response), ModelAsked(round));
      r := if failed.Some? then Err(failed.value) else Ok(response);
    }

    method AnswerCalls(tracker: Tracker, round: nat, response: Response, ghost mode: Mode)
      returns (r: Result<Response, AgentError>)
      requires InTurn(mode, tracker.turn, tracker.modelCalls, tracker.toolCalls) && progress.current == None
      requires 0 < |response.calls| <= MAX_BATCH
      requires round == |progress.rounds| + 1 && parts.model(tracker.turn, round) == Answered(response)
      requires AtPhase(tracker.turn, ModelAsked(round))
      modifies `progress, log`records, log`bytesUsed, log`nextSequence
      ensures Continues()
      ensures progress.user == old(progress).user && progress.rounds == old(progress).rounds
      ensures r.Ok? ==> r.value == response && AtCall(response.calls, round, 0)
                        && InTurn(mode, tracker.turn, tracker.modelCalls, tracker.toolCalls)
      ensures log.Room() + 1 >= old(log.Room())
      ensures Healthy() && EventFits(log.codec, ModelResponded(tracker.turn, round, response))
              && old(log.Room()) >= 1 ==>
                r.Ok?
      ensures r.Ok? ==> AtPhase(tracker.turn, CallsAnswered(round, response.calls))
      ensures r.Err? ==> Goes(tracker.turn)
    {
      ghost var after := progress.(current := Some(Round(response.calls, [], [])));
      RoundOpens(progress, TurnEvents(), tracker.turn, round, response, tracker.modelCalls, tracker.toolCalls);
      RoundStarts(parts.model, broker.tools, mode, tracker.turn, progress, response.calls);
      SinceGrows(log.Events(), ModelResponded(tracker.turn, round, response), start);
      var failed := Write(ModelResponded(tracker.turn, round, response), ModelAsked(round));
      if failed.Some? {
        r := Err(failed.value);
      } else {
        progress := after;
        r := Ok(response);
      }
    }

    /** One round: the model's answer completes the turn, suspends it, or leads to the next round. */
    method RunRound(tracker0: Tracker, round: nat, mode: Mode)
      returns (tracker: Tracker, r: Result<Option<InnerOutcome>, AgentError>)
      requires AtRound(tracker0, round, mode) && SafeSoFar()
      requires AtPhase(tracker0.turn, BeforeRound(round))
      modifies `polls, `progress, `asked, log`records, log`bytesUsed, log`nextSequence, broker`executions
      ensures Continues() && SafeSoFar()
      ensures tracker.turn == tracker0.turn && progress.user == old(progress).user
      ensures r.Ok? ==> tracker.toolCalls >= tracker0.toolCalls
      ensures r.Ok? ==> round <= parts.budget.maxRounds
      ensures r.Ok? && r.value.None? ==> AtRound(tracker, round + 1, mode)
      ensures r.Ok? && r.value.Some? ==> Ended(tracker, mode, r.value.value)
      ensures r.Ok? ==> log.Room() + ROUND_ROOM >= old(log.Room())
      ensures Healthy() && (round <= parts.budget.maxRounds ==> old(log.Room()) >= ROUND_ROOM) && r.Err? ==>
                BudgetSpent(tracker, r.error)
      ensures GetsAsked(mode, tracker0, round) && old(log.Room()) >= ROUND_ROOM ==>
                r.Ok? && r.value.Some? && r.value.value.InnerAwaiting?
      ensures InBudget(tracker) && Charges(tracker0, tracker)
      ensures r.Ok? && r.value.None? ==> AtPhase(tracker.turn, BeforeRound(round + 1))
      ensures r.Err? ==> Goes(tracker.turn)
    {
      var response;
      tracker, response := Ask(tracker0, round, mode);
      if response.Err? {
        return tracker, Err(response.error);
      }
      if response.value.calls == [] {
        r := Complete(tracker, response.value, mode);
        tracker := tracker.(state := TurnDone);
        return;
      }
      tracker, r := RunCalls(tracker, round, response.value.calls, mode);
    }

    /** The tool half of a round. */
    method RunCalls(tracker0: Tracker, round: nat, calls: seq<Call>, mode: Mode)
      returns (tracker: Tracker, r: Result<Option<InnerOutcome>, AgentError>)
      requires InTurn(mode, tracker0.turn, tracker0.modelCalls, tracker0.toolCalls) && AtCall(calls, round, 0)
      requires calls != []
      requires Within(parts.budget, tracker0) && tracker0.round == round && SafeSoFar()
      requires AtPhase(tracker0.turn, CallsAnswered(round, calls))
      modifies `polls, `progress, `asked, log`records, log`bytesUsed, log`nextSequence, broker`executions
      ensures Continues() && SafeSoFar()
      ensures tracker.turn == tracker0.turn && progress.user == old(progress).user
      ensures r.Ok? ==> tracker.toolCalls >= tracker0.toolCalls
      ensures r.Ok? && r.value.None? ==> AtRound(tracker, round + 1, mode)
      ensures r.Ok? && r.value.Some? ==> Ended(tracker, mode, r.value.value)
      ensures log.Room() + 1 + 2 * |calls| >= old(log.Room())
      ensures Healthy() && BatchFits(broker.tools.codec, round, calls) && old(log.Room()) >= 1 + 2 * |calls|
              && r.Err? ==>
                BudgetSpent(tracker, r.error)
      ensures mode == ApprovalAware && MustAsk(broker.tools, tracker0.turn, round, calls[0])
              && tracker0.toolCalls < parts.budget.maxToolCalls
              && Healthy() && BatchFits(broker.tools.codec, round, calls) && old(log.Room()) >= 1 + 2 * |calls| ==>
                r.Ok? && r.value.Some? && r.value.value.InnerAwaiting?
      ensures InBudget(tracker) && Charges(tracker0, tracker)
      ensures r.Ok? && r.value.None? ==> AtPhase(tracker.turn, BeforeRound(round + 1))
      ensures r.Err? ==> Goes(tracker.turn)
    {
      tracker := tracker0;
      assert Healthy() ==> Averted(TwoCodecs);
      var failed := Note(ToolCallsRequested(tracker.turn, round, calls), mode, tracker.turn, tracker.modelCalls,
                         tracker.toolCalls, CallsAnswered(round, calls));
      if failed.Some? {
        return tracker, Err(failed.value);
      }
      var tool;
      tracker, tool := ProcessToolBatch(tracker, round, calls, 0, None, mode);
      if tool.Err? {
        return tracker, Err(tool.error);
      }
      if tool.value.Some? {
        return tracker, Ok(Some(InnerAwaiting(tool.value.value)));
      }
      CloseRound(tracker, round, calls, mode);
      r := Ok(None);
    }

    /** How a turn that did not fail stands: complete within its budgets, or before the call it asked about. */
    ghost predicate Ended(tracker: Tracker, mode: Mode, outcome: InnerOutcome)
      reads `start, `progress, `asked, `direct, log`records, log`bytesUsed, log`nextSequence
    {
      && Within(parts.budget, tracker) && tracker.round == |progress.rounds| + 1
      && match outcome
         case InnerCompleted(response) =>
           && response.calls == [] && AtPhase(tracker.turn, Done(response.content)) && tracker.state == TurnDone
           && TextEnd(mode, tracker.turn, response.content, tracker.modelCalls, tracker.toolCalls)
         case InnerAwaiting(tool) =>
           && mode == ApprovalAware && InTurn(mode, tracker.turn, tracker.modelCalls, tracker.toolCalls)
           && Stopped(tracker.turn, tool, tracker.round, tool.calls)
    }

    /** What the turn came to, and what holds whatever it came to. */
    ghost predicate Concluded(tracker: Tracker, user: Message, mode: Mode, outcome: Result<InnerOutcome, AgentError>)
      reads `start, `progress, `accepted, `asked, `direct, `runsBefore, broker`executions
      reads log`records, log`bytesUsed, log`nextSequence, log`archive
    {
      match outcome
      case Ok(inner) => Left(tracker) && Ended(tracker, mode, inner) && progress.user == user
      case Err(_) => Left(tracker) && Goes(tracker.turn)
    }

    ghost predicate Left(tracker: Tracker)
      reads `accepted, `asked, `direct, `runsBefore, broker`executions
      reads log`records, log`bytesUsed, log`nextSequence, log`archive
    {
      log.Valid() && SafeSoFar() && AskedIsLogged() && InBudget(tracker) && Charged(tracker)
    }

    /** The log has refused blank answers already, so an empty response does not get here. */
    method Complete(tracker: Tracker, response: Response, ghost mode: Mode)
      returns (r: Result<Option<InnerOutcome>, AgentError>)
      requires TextEnd(mode, tracker.turn, response.content, tracker.modelCalls, tracker.toolCalls)
      requires response.calls == []
      requires TextFits(response.content)
      requires AtPhase(tracker.turn, TextAnswered(response.content))
      modifies log`records, log`bytesUsed, log`nextSequence
      ensures Continues()
      ensures r.Ok? ==> r.value == Some(InnerCompleted(response))
                        && TextEnd(mode, tracker.turn, response.content, tracker.modelCalls, tracker.toolCalls)
      ensures log.Room() + 1 >= old(log.Room())
      ensures Healthy() && old(log.Room()) >= 1 ==> r.Ok?
      ensures r.Ok? ==> AtPhase(tracker.turn, Done(response.content))
      ensures r.Err? ==> Goes(tracker.turn)
    {
      if Blank(response.content) {
        assert false;
      }
      TextStays(progress, TurnEvents(), tracker.turn, response.content, tracker.modelCalls, tracker.toolCalls);
      SinceGrows(log.Events(), TurnCompleted(tracker.turn, response.content), start);
      var failed := Write(TurnCompleted(tracker.turn, response.content), TextAnswered(response.content));
      r := if failed.Some? then Err(failed.value) else Ok(Some(InnerCompleted(response)));
    }

    ghost method CloseRound(tracker: Tracker, round: nat, calls: seq<Call>, mode: Mode)
      requires InTurn(mode, tracker.turn, tracker.modelCalls, tracker.toolCalls) && AtCall(calls, round, |calls|)
      requires round == tracker.modelCalls && InBudget(tracker)
      modifies `progress
      ensures AtRound(tracker, round + 1, mode) && progress.user == old(progress).user
    {
      RoundCloses(progress, TurnEvents(), tracker.modelCalls, tracker.toolCalls);
      RoundEnds(parts.model, broker.tools, mode, tracker.turn, progress);
      progress := Progress(progress.user, progress.rounds + [progress.current.value], None);
    }

    /** Round after round, until the turn ends; the round budget bounds the loop. */
    method RunRounds(tracker0: Tracker, startingRound: nat, mode: Mode)
      returns (tracker: Tracker, r: Result<InnerOutcome, AgentError>)
      requires AtRound(tracker0, startingRound, mode) && SafeSoFar()
      requires AtPhase(tracker0.turn, BeforeRound(startingRound))
      modifies `polls, `progress, `asked, log`records, log`bytesUsed, log`nextSequence, broker`executions
      ensures Continues() && SafeSoFar()
      ensures tracker.turn == tracker0.turn && progress.user == old(progress).user
      ensures r.Ok? ==> Ended(tracker, mode, r.value) && tracker.toolCalls >= tracker0.toolCalls
      ensures Healthy() && old(log.Room()) >= RoundsRoom(startingRound) && r.Err? ==> BudgetSpent(tracker, r.error)
      ensures GetsAsked(mode, tracker0, startingRound) && old(log.Room()) >= RoundsRoom(startingRound) ==>
                r.Ok? && r.value.InnerAwaiting?
      ensures InBudget(tracker) && Charges(tracker0, tracker)
      ensures r.Err? ==> Goes(tracker.turn)
    {
      tracker := tracker0;
      var round := startingRound;
      while true
        invariant AtRound(tracker, round, mode) && SafeSoFar() && Continues()
        invariant AtPhase(tracker.turn, BeforeRound(round))
        invariant tracker.turn == tracker0.turn && Charges(tracker0, tracker)
        invariant progress.user == old(progress).user
        invariant round == startingRound ==> tracker == tracker0 && log.Room() == old(log.Room())
        invariant GetsAsked(mode, tracker0, startingRound) && old(log.Room()) >= RoundsRoom(startingRound) ==>
                    round == startingRound
        invariant log.Room() + RoundsRoom(startingRound) >= old(log.Room()) + RoundsRoom(round)
        decreases parts.budget.maxRounds + 1 - round
      {
        var outcome;
        tracker, outcome := RunRound(tracker, round, mode);
        if outcome.Err? {
          r := Err(outcome.error);
          return;
        }
        if outcome.value.Some? {
          r := Ok(outcome.value.value);
          return;
        }
        round := round + 1;
      }
    }

    /** The whole of a fresh turn. */
    method RunTurnInner(tracker0: Tracker, user: Message, mode: Mode)
      returns (tracker: Tracker, r: Result<InnerOutcome, AgentError>)
      requires log.Valid() && SafeSoFar() && AskedIsLogged()
      requires tracker0.round == tracker0.modelCalls == tracker0.toolCalls == 0
      requires mode == Legacy <==> tracker0.turn in direct
      modifies `polls, `start, `progress, `asked, `runsBefore
      modifies log`records, log`bytesUsed, log`nextSequence, broker`executions
      ensures Concluded(tracker, user, mode, r) && tracker.turn == tracker0.turn
      ensures start == |old(log.records)| <= |log.records| && Past() == old(log.Events()) && progress.user == user
      ensures Healthy() && user.UserText? && TextFits(user.text) && old(log.Room()) >= 1 + RoundsRoom(1) && r.Err? ==>
                BudgetSpent(tracker, r.error)
      ensures GetsAsked(mode, tracker0, 1) && user.UserText? && TextFits(user.text)
              && old(log.Room()) >= 1 + RoundsRoom(1) ==>
                r.Ok? && r.value.InnerAwaiting?
      ensures runsBefore == |old(broker.executions)|
    {
      tracker := tracker0;
      start, runsBefore := |log.records|, |broker.executions|;
      progress := Progress(user, [], None);
      ghost var before := log.Events();
      assert before[..start] == before;
      SinceGrows(before, TurnStarted(tracker.turn, user), start);
      TurnOpens(tracker.turn, user);
      assert AtPhase(tracker.turn, Opening) by {
        assert TurnEvents() == [];
        TurnIsOpening(tracker.turn);
      }
      NothingToFollow(parts.model, broker.tools, mode, tracker.turn, user);
      var failed := Write(TurnStarted(tracker.turn, user), Opening);
      if failed.Some? {
        return tracker, Err(failed.value);
      }
      assert before[start..] == [] && TurnEvents() == [TurnStarted(tracker.turn, user)];
      tracker, r := RunRounds(tracker, 1, mode);
    }

    /** A decided turn goes on at the call it stopped at, and from there like any other. */
    method ContinuePendingTurn(tracker0: Tracker, tool: PendingTool, decision: Decision)
      returns (tracker: Tracker, r: Result<InnerOutcome, AgentError>)
      requires InTurn(ApprovalAware, tracker0.turn, tracker0.modelCalls, tracker0.toolCalls)
      requires Within(parts.budget, tracker0)
      requires Stopped(tracker0.turn, tool, tracker0.round, tool.calls) && SafeSoFar()
      requires Fresh(broker.tools, broker.executions, Seen(), tracker0.turn, tool.round, tool.calls[tool.nextCall],
                     decision)
      requires DecisionMatches(tool.round, tool.calls[tool.nextCall], decision)
      modifies `polls, `progress, `asked, log`records, log`bytesUsed, log`nextSequence, broker`executions
      ensures Continues() && SafeSoFar()
      ensures tracker.turn == tracker0.turn && progress.user == old(progress).user
      ensures r.Ok? ==> Ended(tracker, ApprovalAware, r.value) && tracker.toolCalls > tracker0.toolCalls
      ensures Able(Some(decision)) && old(log.Room()) >= RoundsRoom(tool.round) && r.Err? ==>
                BudgetSpent(tracker, r.error)
      ensures InBudget(tracker) && Charges(tracker0, tracker)
      ensures r.Err? ==> Goes(tracker.turn)
    {
      assert RoundsRoom(tool.round) == ROUND_ROOM + RoundsRoom(tool.round + 1);
      var stopped;
      tracker, stopped := ProcessToolBatch(tracker0, tool.round, tool.calls, tool.nextCall, Some(decision),
                                           ApprovalAware);
      if stopped.Err? {
        r := Err(stopped.error);
      } else if stopped.value.Some? {
        r := Ok(InnerAwaiting(stopped.value.value));
      } else {
        tracker, r := LeaveRound(tracker, tool.round, tool.calls, ApprovalAware);
      }
    }

    /** The rounds after one whose calls are all settled. */
    method LeaveRound(tracker0: Tracker, round: nat, calls: seq<Call>, mode: Mode)
      returns (tracker: Tracker, r: Result<InnerOutcome, AgentError>)
      requires InTurn(mode, tracker0.turn, tracker0.modelCalls, tracker0.toolCalls) && AtCall(calls, round, |calls|)
      requires round == tracker0.modelCalls && InBudget(tracker0) && SafeSoFar()
      requires AtPhase(tracker0.turn, BeforeRound(round + 1))
      modifies `polls, `progress, `asked, log`records, log`bytesUsed, log`nextSequence, broker`executions
      ensures Continues() && SafeSoFar()
      ensures tracker.turn == tracker0.turn && progress.user == old(progress).user
      ensures r.Ok? ==> Ended(tracker, mode, r.value) && tracker.toolCalls >= tracker0.toolCalls
      ensures Healthy() && old(log.Room()) >= RoundsRoom(round + 1) && r.Err? ==> BudgetSpent(tracker, r.error)
      ensures InBudget(tracker) && Charges(tracker0, tracker)
      ensures r.Err? ==> Goes(tracker.turn)
    {
      CloseRound(tracker0, round, calls, mode);
      tracker, r := RunRounds(tracker0, round + 1, mode);
    }

    // ------------------------------------------------------------------
    // Public calls
    // ------------------------------------------------------------------

    /** A turn is complete: the conversation grew by exactly the messages of its rounds and the final text,
        the rounds are what model, tools and decisions gave, and the counters count the log within the budget. */
    ghost predicate TurnIsComplete(mode: Mode, snapshot: Tracker, response: Response)
      reads `start, `progress, `direct, log`records, log`bytesUsed, log`nextSequence
    {
      && response.calls == [] && Within(parts.budget, snapshot) && snapshot.round == |progress.rounds| + 1
      && AtPhase(snapshot.turn, Done(response.content)) && snapshot.state == TurnDone
      && TextEnd(mode, snapshot.turn, response.content, snapshot.modelCalls, snapshot.toolCalls)
    }

    /** A turn began and left its counters, or none did and no tool ran. (Valid bounds the counters of the last turn by
        the budget, and the tools that ran in it by what it was charged for, whatever it came to.) */
    twostate predicate TurnIsBounded()
      reads this, broker`executions
    {
      if nextTurn == old(nextTurn) then
        broker.executions == old(broker.executions) && lastTurn == old(lastTurn) && runsBefore == old(runsBefore)
      else
        && lastTurn.Some? && lastTurn.value.turn == old(nextTurn)
        && runsBefore == |old(broker.executions)|
    }

    /** So no call runs more tools than the budget allows. */
    lemma LastTurnIsBounded()
      requires Valid() && lastTurn.Some?
      ensures lastTurn.value.round <= parts.budget.maxRounds && lastTurn.value.modelCalls <= parts.budget.maxModelCalls
      ensures |broker.executions| - runsBefore <= lastTurn.value.toolCalls <= parts.budget.maxToolCalls
    {
    }

    /** A turn that can be expected to get somewhere: the agent is ready and healthy, the message is acceptable,
        and the log has room for all the rounds. */
    ghost predicate Promising(user: Message)
      reads `state, `nextTurn, log`records, log`bytesUsed
    {
      && state == Ready && nextTurn != LAST_TURN && Healthy()
      && user.UserText? && TextFits(user.text) && log.Room() >= 1 + RoundsRoom(1)
    }

    /** Only a budget can keep such a turn from its end. */
    ghost predicate WentOrSpent(r: Result<TurnOutcome, AgentError>)
      reads `lastTurn, `progress
    {
      match r
      case Ok(_) => true
      case Err(error) => lastTurn.Some? && BudgetSpent(lastTurn.value, error)
    }

    /** A turn of the direct path. */
    method RunTurn(user: Message) returns (r: Result<TurnOutcome, AgentError>)
      requires Valid()
      modifies this, log`records, log`bytesUsed, log`nextSequence, broker`executions
      ensures Valid() && accepted == old(accepted)
      ensures old(state) != Ready ==>
        && r == Err(InvalidState) && state == old(state) && pending == old(pending)
        && log.records == old(log.records) && broker.executions == old(broker.executions)
      ensures old(state) == Ready ==> state == Ready && pending == None
      ensures r.Ok? ==> r.value.TurnResult? && TurnIsComplete(Legacy, r.value.snapshot, r.value.response)
                        && Past() == old(log.Events()) && progress.user == user
      ensures old(Promising(user)) ==> WentOrSpent(r)
      ensures TurnIsBounded() && |broker.executions| <= |old(broker.executions)| + parts.budget.maxToolCalls
      ensures if old(Begins(user)) then
                nextTurn == old(nextTurn) + 1 && (r.Err? ==> FailureNoted(r.error))
              else
                nextTurn == old(nextTurn) && r.Err? && log.records == old(log.records)
    {
      if state != Ready {
        return Err(InvalidState);
      }
      if !user.UserText? {
        return Err(InvalidUserMessage);
      }
      var stop := Poll();
      if stop.Some? {
        return Err(stop.value);
      }
      if nextTurn == LAST_TURN {
        return Err(TurnIdsExhausted);
      }
      r := DirectTurn(user);
    }

    method DirectTurn(user: Message) returns (r: Result<TurnOutcome, AgentError>)
      requires Valid() && state == Ready
      modifies `nextTurn, `state, `turnsStarted, `polls, `start, `progress, `asked, `runsBefore, `direct, `lastTurn
      modifies log`records, log`bytesUsed, log`nextSequence, broker`executions
      ensures Valid() && accepted == old(accepted) && state == Ready && pending == None
      ensures r.Ok? ==> r.value.TurnResult? && TurnIsComplete(Legacy, r.value.snapshot, r.value.response)
                        && Past() == old(log.Events()) && progress.user == user
      ensures old(Promising(user)) ==> WentOrSpent(r)
      ensures nextTurn == old(nextTurn) + 1 && runsBefore == |old(broker.executions)|
      ensures LastTurnIs(old(nextTurn), r)
    {
      var tracker, outcome := NewTurn(user, Legacy);
      r := FinishDirectTurn(tracker, user, outcome);
    }

    /** A turn of the direct path cannot be waiting for a decision. */
    method FinishDirectTurn(tracker0: Tracker, ghost user: Message, outcome: Result<InnerOutcome, AgentError>)
      returns (r: Result<TurnOutcome, AgentError>)
      requires pending == None && ValidBudget(parts.budget) && TurnsBelow(direct, nextTurn)
      requires Concluded(tracker0, user, Legacy, outcome)
      modifies `state, `lastTurn, log`records, log`bytesUsed, log`nextSequence
      ensures Valid() && state == Ready && pending == None
      ensures outcome.Ok? ==> log.records == old(log.records)
      ensures outcome.Ok? ==> r.Ok? && r.value.TurnResult? && TurnIsComplete(Legacy, r.value.snapshot, r.value.response)
      ensures lastTurn.Some? && lastTurn.value == tracker0.(state := lastTurn.value.state)
      ensures outcome.Err? ==> r == Err(outcome.error) && FailureNoted(outcome.error)
    {
      var tracker := tracker0;
      state := Ready;
      match outcome {
        case Ok(InnerCompleted(response)) =>
          lastTurn := Some(tracker);
          r := Ok(TurnResult(response, tracker));
        case Err(error) =>
          tracker := Fail(tracker, error);
          lastTurn := Some(tracker);
          r := Err(error);
      }
    }

    /** The turn gets its number and runs. */
    method NewTurn(user: Message, mode: Mode) returns (tracker: Tracker, outcome: Result<InnerOutcome, AgentError>)
      requires Valid() && state == Ready
      modifies `nextTurn, `state, `turnsStarted, `polls, `start, `progress, `asked, `runsBefore, `direct
      modifies log`records, log`bytesUsed, log`nextSequence, broker`executions
      ensures state == Running && nextTurn == old(nextTurn) + 1 && TurnsBelow(direct, nextTurn)
      ensures tracker.turn == old(nextTurn) && runsBefore == |old(broker.executions)|
      ensures Concluded(tracker, user, mode, outcome)
      ensures start <= |log.records| && Past() == old(log.Events()) && progress.user == user
      ensures old(Promising(user)) && outcome.Err? ==> BudgetSpent(tracker, outcome.error)
      ensures old(Promising(user)) && mode == ApprovalAware && AsksFirst(old(nextTurn), 1) ==>
                outcome.Ok? && outcome.value.InnerAwaiting?
    {
      tracker := BeginTurn();
      if mode == Legacy {
        DirectTurnStarts(tracker.turn);
      }
      tracker, outcome := RunTurnInner(tracker, user, mode);
    }

    /** Every turn has a number of its own. */
    method BeginTurn() returns (tracker: Tracker)
      requires TurnsBelow(direct, nextTurn)
      modifies `nextTurn, `state, `turnsStarted
      ensures tracker == Tracker(old(nextTurn), 0, 0, 0, Created) && tracker.turn !in direct
      ensures nextTurn == old(nextTurn) + 1 && state == Running && TurnsBelow(direct + {tracker.turn}, nextTurn)
      ensures turnsStarted == if old(turnsStarted) >= LAST_TURN then old(turnsStarted) else old(turnsStarted) + 1
    {
      tracker := Tracker(nextTurn, 0, 0, 0, Created);
      nextTurn := nextTurn + 1;
      state := Running;
      turnsStarted := if turnsStarted < LAST_TURN then turnsStarted + 1 else turnsStarted;
    }

    ghost method DirectTurnStarts(turn: nat)
      requires SafeSoFar()
      modifies `direct
      ensures direct == old(direct) + {turn} && SafeSoFar()
    {
      SafeStays(broker.tools, broker.executions, Seen(), History(accepted, asked, direct + {turn}));
      direct := direct + {turn};
    }

    /** The event that tells how a turn went wrong: it was cancelled if somebody stopped it. */
    ghost function FailureNote(turn: nat, error: AgentError): Event {
      match error
      case StoppedBy(reason) => TurnCancelled(turn, reason)
      case _ => TurnFailed(turn, parts.describe(error))
    }

    /** The last turn is over, and the log ends with the note about it unless it does not take it. */
    ghost predicate FailureNoted(error: AgentError)
      reads `lastTurn, `start, log`records, log`bytesUsed, log`nextSequence
    {
      match lastTurn
      case None => false
      case Some(tracker) =>
        var note := FailureNote(tracker.turn, error);
        && tracker.state == (if error.StoppedBy? then TurnStopped else TurnBroken)
        && (|| (log.Events() != [] && log.Events()[|log.Events()| - 1] == note && AtPhase(tracker.turn, Over))
            || (!log.Accepts(note) && Goes(tracker.turn)))
    }

    /** The last turn has this number, and if it failed that is noted. */
    ghost predicate LastTurnIs(turn: nat, r: Result<TurnOutcome, AgentError>)
      reads `lastTurn, `start, log`records, log`bytesUsed, log`nextSequence
    {
      match r
      case Ok(_) => lastTurn.Some? && lastTurn.value.turn == turn
      case Err(error) => lastTurn.Some? && lastTurn.value.turn == turn && FailureNoted(error)
    }

    /** Notes the failure in the log, if the log takes it. */
    method Fail(tracker0: Tracker, error: AgentError) returns (tracker: Tracker)
      requires log.Valid()
      modifies log`records, log`bytesUsed, log`nextSequence
      ensures log.Valid()
      ensures tracker == tracker0.(state := if error.StoppedBy? then TurnStopped else TurnBroken)
      ensures var note := FailureNote(tracker.turn, error);
              log.Events() == old(log.Events()) + (if old(log.Accepts(note)) then [note] else [])
      ensures !old(log.Accepts(FailureNote(tracker.turn, error))) ==> !log.Accepts(FailureNote(tracker.turn, error))
      ensures old(AskedIsLogged()) ==> AskedIsLogged()
      ensures old(Goes(tracker0.turn)) ==>
                if old(log.Accepts(FailureNote(tracker.turn, error))) then AtPhase(tracker.turn, Over)
                else Goes(tracker.turn)
    {
      var reason := StopReason(error);
      tracker := tracker0.(state := if reason.Some? then TurnStopped else TurnBroken);
      ghost var phase: Phase := OutOfOrder;
      if Goes(tracker0.turn) {
        phase :| AtPhase(tracker0.turn, phase) && phase != OutOfOrder && !phase.IsEnd();
      }
      if reason.Some? {
        var ignored := Write(TurnCancelled(tracker.turn, reason.value), phase);
      } else {
        var ignored := Write(TurnFailed(tracker.turn, parts.describe(error)), phase);
      }
    }

    /** The current turn answers this user message and comes after these events. */
    ghost predicate ComesAfter(past: seq<Event>, user: Message)
      reads `start, `progress, log`records
    {
      start <= |log.records| && Past() == past && progress.user == user
    }

    /** The state that an approval-aware call leaves behind, whatever the turn came to. */
    method FinishTurnOutcome(tracker0: Tracker, user: Message, outcome: Result<InnerOutcome, AgentError>,
                             ghost past: seq<Event>)
      returns (r: Result<TurnOutcome, AgentError>)
      requires state == Running && pending == None && ValidBudget(parts.budget) && TurnsBelow(direct, nextTurn)
      requires Concluded(tracker0, user, ApprovalAware, outcome)
      requires start <= |log.records| && Past() == past
      modifies `state, `pending, `lastTurn, log`records, log`bytesUsed, log`nextSequence
      ensures Valid() && (r.Ok? <==> outcome.Ok?)
      ensures outcome.Ok? ==> log.records == old(log.records) && start <= |log.records| && Past() == past
      ensures TurnWent(r) && (r.Ok? ==> ComesAfter(past, progress.user))
      ensures r.Ok? ==> Spent(r.value) == tracker0.toolCalls && TurnOf(r.value) == tracker0.turn
      ensures lastTurn.Some? && lastTurn.value == tracker0.(state := lastTurn.value.state)
      ensures outcome.Err? ==> r == Err(outcome.error) && FailureNoted(outcome.error)
      ensures (outcome.Err? ==> BudgetSpent(tracker0, outcome.error)) ==> WentOrSpent(r)
      ensures LastTurnIs(tracker0.turn, r)
      ensures outcome.Ok? ==> (r.value.ApprovalNeeded? <==> outcome.value.InnerAwaiting?)
    {
      var tracker := tracker0;
      match outcome {
        case Ok(InnerCompleted(response)) =>
          state := Ready;
          lastTurn := Some(tracker);
          r := Ok(TurnResult(response, tracker));
        case Ok(InnerAwaiting(tool)) =>
          tracker := tracker.(state := Waiting);
          state := AwaitingDecision;
          lastTurn := Some(tracker);
          pending := Some(PendingTurn(tracker, user, tool));
          r := Ok(ApprovalNeeded(tool.request));
        case Err(error) =>
          state := Ready;
          tracker := Fail(tracker, error);
          lastTurn := Some(tracker);
          r := Err(error);
      }
    }

    /** What an approval-aware call may come to: the turn is complete, waits for a decision, or has failed. */
    ghost predicate TurnWent(r: Result<TurnOutcome, AgentError>)
      reads this, log
    {
      match r
      case Ok(TurnResult(response, snapshot)) =>
        state == Ready && pending == None && TurnIsComplete(ApprovalAware, snapshot, response)
      case Ok(ApprovalNeeded(request)) =>
        && state == AwaitingDecision && pending.Some? && pending.value.tool.request == request
        && pending.value.tracker.state == Waiting && lastTurn == Some(pending.value.tracker)
      case Err(_) => state == Ready && pending == None
    }

    /** A turn on this message begins. */
    ghost predicate Begins(user: Message)
      reads `state, `polls, `nextTurn
    {
      state == Ready && user.UserText? && parts.stops(polls) == None && nextTurn != LAST_TURN
    }

    /** A turn of the approval path. */
    method RunTurnWithApproval(user: Message) returns (r: Result<TurnOutcome, AgentError>)
      requires Valid()
      modifies this, log`records, log`bytesUsed, log`nextSequence, broker`executions
      ensures Valid() && accepted == old(accepted)
      ensures old(state) != Ready ==>
        && r == Err(InvalidState) && state == old(state) && pending == old(pending)
        && log.records == old(log.records) && broker.executions == old(broker.executions)
      ensures old(state) == Ready ==> TurnWent(r)
      ensures r.Ok? ==> start <= |log.records| && Past() == old(log.Events()) && progress.user == user
      ensures old(Promising(user)) ==> WentOrSpent(r)
      ensures old(Promising(user)) && AsksFirst(old(nextTurn), 1) ==> r.Ok? && r.value.ApprovalNeeded?
      ensures TurnIsBounded() && |broker.executions| <= |old(broker.executions)| + parts.budget.maxToolCalls
      ensures if old(Begins(user)) then
                nextTurn == old(nextTurn) + 1 && (r.Err? ==> FailureNoted(r.error))
              else
                nextTurn == old(nextTurn) && r.Err? && log.records == old(log.records)
      ensures r.Ok? && r.value.ApprovalNeeded? ==>
                && pending.Some? && ToolApprovalRequested(pending.value.tracker.turn, r.value.request) in log.Events()
    {
      if state != Ready {
        return Err(InvalidState);
      }
      if !user.UserText? {
        return Err(InvalidUserMessage);
      }
      var stop := Poll();
      if stop.Some? {
        return Err(stop.value);
      }
      if nextTurn == LAST_TURN {
        return Err(TurnIdsExhausted);
      }
      r := ApprovalTurn(user);
    }

    method ApprovalTurn(user: Message) returns (r: Result<TurnOutcome, AgentError>)
      requires Valid() && state == Ready
      modifies `nextTurn, `state, `turnsStarted, `polls, `start, `progress, `asked, `runsBefore, `direct
      modifies `pending, `lastTurn
      modifies log`records, log`bytesUsed, log`nextSequence, broker`executions
      ensures Valid() && accepted == old(accepted) && TurnWent(r)
      ensures r.Ok? ==> ComesAfter(old(log.Events()), user)
      ensures old(Promising(user)) ==> WentOrSpent(r)
      ensures old(Promising(user)) && AsksFirst(old(nextTurn), 1) ==> r.Ok? && r.value.ApprovalNeeded?
      ensures nextTurn == old(nextTurn) + 1 && runsBefore == |old(broker.executions)|
      ensures LastTurnIs(old(nextTurn), r)
    {
      var tracker, outcome := NewTurn(user, ApprovalAware);
      r := FinishTurnOutcome(tracker, user, outcome, old(log.Events()));
    }

    /** A decision must be valid and name the pending call; an approval needs a ticket. */
    function DecisionRefused(request: ApprovalRequest, decision: Decision): bool {
      || !broker.tools.codec.decisionFits(decision)
      || decision.round != request.round || decision.callId != request.callId || decision.tool != request.tool
      || (decision.verdict.Approved? && Blank(decision.verdict.ticket))
    }

    /** The agent accepts the decision: it answers the pending request and the caller has not been stopped. */
    ghost predicate Takes(decision: Decision)
      reads `pending, `polls
    {
      pending.Some? && Suits(pending.value.tool.request, decision) && parts.stops(polls) == None
    }

    /** The decision is about the requested call, all of it is acceptable, and an approval carries a ticket. */
    ghost predicate Suits(request: ApprovalRequest, decision: Decision) {
      && broker.tools.codec.decisionFits(decision)
      && decision.round == request.round && decision.callId == request.callId && decision.tool == request.tool
      && match decision.verdict
         case Approved(ticket) => !Blank(ticket)
         case Denied(_) => true
    }

    /** Accepts a decision for the pending call and goes on with the turn; a decision that does not match,
        or a stopped caller, leaves the turn pending. */
    method ApprovePendingTool(decision: Decision) returns (r: Result<TurnOutcome, AgentError>)
      requires Valid()
      modifies this, log`records, log`bytesUsed, log`nextSequence, broker`executions
      ensures Valid()
      ensures !old(Takes(decision)) ==>
        && pending == old(pending) && state == old(state) && accepted == old(accepted)
        && broker.executions == old(broker.executions) && log.records == old(log.records)
        && r == Err(if pending.None? then InvalidState
                    else if !Suits(pending.value.tool.request, decision) then ApprovalRefused
                    else StoppedBy(parts.stops(old(polls)).value))
      ensures old(Takes(decision)) ==>
        && accepted == old(accepted) + [Accepted(old(pending).value.tracker.turn, decision,
                                                 old(pending).value.tool.request)]
        && TurnWent(r) && (r.Err? ==> FailureNoted(r.error))
      ensures r.Ok? ==>
                && old(pending).Some? && start == old(start) <= |log.records|
                && Past() == old(log.Events()[..start]) && progress.user == old(pending).value.user
      ensures r.Ok? ==>
                && Spent(r.value) > old(pending).value.tracker.toolCalls
                && TurnOf(r.value) == old(pending).value.tracker.turn
      ensures old(Takes(decision)) && Healthy() && old(log.Room()) >= RoundsRoom(old(pending).value.tool.round) ==>
                WentOrSpent(r)
      ensures old(Takes(decision)) ==>
                && ToolApprovalRequested(old(pending).value.tracker.turn, old(pending).value.tool.request)
                     in old(log.Events())
                && lastTurn.Some? && lastTurn.value.turn == old(pending).value.tracker.turn
      ensures runsBefore == old(runsBefore) && nextTurn == old(nextTurn)
      ensures old(pending).Some? ==>
                runsBefore <= |old(broker.executions)| && |broker.executions| <= runsBefore + parts.budget.maxToolCalls
      ensures old(pending).None? ==> broker.executions == old(broker.executions)
    {
      if pending == None || state != AwaitingDecision {
        return Err(InvalidState);
      }
      if DecisionRefused(pending.value.tool.request, decision) {
        return Err(ApprovalRefused);
      }
      var stop := Poll();
      if stop.Some? {
        return Err(stop.value);
      }
      r := Resume(pending.value, decision);
    }

    /** The accepted decision resumes the turn. */
    method Resume(taken: PendingTurn, decision: Decision) returns (r: Result<TurnOutcome, AgentError>)
      requires Valid() && pending == Some(taken) && !DecisionRefused(taken.tool.request, decision)
      modifies `state, `pending, `polls, `progress, `asked, `accepted, `lastTurn
      modifies log`records, log`bytesUsed, log`nextSequence, broker`executions
      ensures Valid() && accepted == old(accepted) + [Accepted(taken.tracker.turn, decision, taken.tool.request)]
      ensures TurnWent(r) && (r.Err? ==> FailureNoted(r.error))
      ensures r.Ok? ==> start == old(start) <= |log.records| && Past() == old(Past()) && progress.user == taken.user
      ensures r.Ok? ==> Spent(r.value) > taken.tracker.toolCalls && TurnOf(r.value) == taken.tracker.turn
      ensures Healthy() && old(log.Room()) >= RoundsRoom(taken.tool.round) ==> WentOrSpent(r)
      ensures lastTurn.Some? && lastTurn.value.turn == taken.tracker.turn
      ensures runsBefore == old(runsBefore) && nextTurn == old(nextTurn)
    {
      var tracker, outcome := TakeAndContinue(taken, decision);
      r := FinishTurnOutcome(tracker, taken.user, outcome, old(Past()));
    }

    method TakeAndContinue(taken: PendingTurn, decision: Decision)
      returns (tracker: Tracker, r: Result<InnerOutcome, AgentError>)
      requires Suspended(taken) && SafeSoFar() && AskedIsLogged()
      requires !DecisionRefused(taken.tool.request, decision)
      modifies `state, `pending, `polls, `progress, `asked, `accepted
      modifies log`records, log`bytesUsed, log`nextSequence, broker`executions
      ensures state == Running && pending == None
      ensures accepted == old(accepted) + [Accepted(taken.tracker.turn, decision, taken.tool.request)]
      ensures Concluded(tracker, taken.user, ApprovalAware, r)
      ensures start <= |log.records| && Past() == old(Past())
      ensures tracker.turn == taken.tracker.turn && progress.user == taken.user
      ensures r.Ok? ==> tracker.toolCalls > taken.tracker.toolCalls
      ensures Healthy() && old(log.Room()) >= RoundsRoom(taken.tool.round) && r.Err? ==> BudgetSpent(tracker, r.error)
    {
      TakeDecision(taken, decision);
      pending, state := None, Running;
      assert Healthy() ==> Able(Some(decision)) by {
        assert Healthy() ==> Averted(TwoCodecs);
      }
      tracker, r := ContinuePendingTurn(taken.tracker, taken.tool, decision);
    }

    /** The tool calls spent by the turn that a call left complete or pending. */
    ghost function Spent(outcome: TurnOutcome): nat
      reads `pending
    {
      match outcome
      case TurnResult(_, snapshot) => snapshot.toolCalls
      case ApprovalNeeded(_) => if pending.Some? then pending.value.tracker.toolCalls else 0
    }

    ghost function TurnOf(outcome: TurnOutcome): nat
      reads `pending
    {
      match outcome
      case TurnResult(_, snapshot) => snapshot.turn
      case ApprovalNeeded(_) => if pending.Some? then pending.value.tracker.turn else 0
    }

    /** The decision joins the accepted ones. */
    ghost method TakeDecision(taken: PendingTurn, decision: Decision)
      requires Suspended(taken) && SafeSoFar() && !DecisionRefused(taken.tool.request, decision)
      modifies `accepted
      ensures accepted == old(accepted) + [Accepted(taken.tracker.turn, decision, taken.tool.request)]
      ensures SafeSoFar()
      ensures Fresh(broker.tools, broker.executions, Seen(), taken.tracker.turn, taken.tool.round,
                    taken.tool.calls[taken.tool.nextCall], decision)
    {
      UsedAreAccepted(broker.tools, broker.executions, Seen());
      SafeStays(broker.tools, broker.executions, Seen(),
                History(accepted + [Accepted(taken.tracker.turn, decision, taken.tool.request)], asked, direct));
      accepted := accepted + [Accepted(taken.tracker.turn, decision, taken.tool.request)];
    }

    /** The log would refuse the note that cancels the pending turn. */
    ghost predicate CancelSticks(reason: string)
      reads `pending, log`records, log`bytesUsed, log`nextSequence
    {
      pending.Some? && !log.Accepts(TurnCancelled(pending.value.tracker.turn, reason))
    }

    /** Gives up the pending turn without running its tool. The agent is Ready again exactly if the log takes the note;
        otherwise it waits for a decision about nothing. */
    method CancelPendingTurn(reason: string) returns (r: Option<AgentError>)
      requires Valid()
      modifies this, log`records, log`bytesUsed, log`nextSequence
      ensures Valid() && accepted == old(accepted)
      ensures old(pending) == None ==>
                r == Some(InvalidState) && state == old(state) && pending == None && log.records == old(log.records)
      ensures old(pending).Some? ==> pending == None && (r == None <==> state == Ready) && (r.Some? <==> Stuck())
      ensures Stuck() <==> old(Stuck()) || old(CancelSticks(reason))
      ensures r == None ==>
                var tracker := old(pending).value.tracker;
                && log.Events() == old(log.Events()) + [TurnCancelled(tracker.turn, reason)]
                && AtPhase(tracker.turn, Over)
                && lastTurn == Some(tracker.(state := TurnStopped))
      ensures r.Some? ==> log.Events() == old(log.Events()) && lastTurn == old(lastTurn)
    {
      if state != AwaitingDecision || pending == None {
        return Some(InvalidState);
      }
      var taken := pending.value;
      pending := None;
      var tracker := taken.tracker.(state := TurnStopped);
      r := NoteCancelled(taken, reason);
      if r.None? {
        lastTurn := Some(tracker);
        state := Ready;
      }
    }

    method NoteCancelled(taken: PendingTurn, reason: string) returns (r: Option<AgentError>)
      requires Suspended(taken) && AskedIsLogged()
      modifies log`records, log`bytesUsed, log`nextSequence
      ensures log.Valid() && AskedIsLogged()
      ensures r.None? <==> old(log.Accepts(TurnCancelled(taken.tracker.turn, reason)))
      ensures r.None? ==>
                && log.Events() == old(log.Events()) + [TurnCancelled(taken.tracker.turn, reason)]
                && AtPhase(taken.tracker.turn, Over)
      ensures r.Some? ==> log.Events() == old(log.Events())
    {
      r := Write(TurnCancelled(taken.tracker.turn, reason),
                 AwaitsDecision(taken.tool.round, taken.tool.calls, taken.tool.nextCall));
    }

    /** Replaces the conversation while no turn is going on. */
    method ResetConversation(messages: seq<Message>) returns (r: Option<AgentError>)
      requires Valid()
      modifies this, log
      ensures Valid() && pending == old(pending) && state == old(state)
      ensures old(state) != Ready ==>
                r == Some(InvalidState) && log.records == old(log.records) && log.seed == old(log.seed)
      ensures r == None ==> log.ConversationValue() == messages && lastTurn == None
      ensures r.Some? ==> log.records == old(log.records) && log.seed == old(log.seed) && lastTurn == old(lastTurn)
    {
      if state != Ready {
        return Some(InvalidState);
      }
      var done := log.ResetWithMessages(messages);
      if done.Err? {
        return Some(SessionFailed(done.error));
      }
      lastTurn := None;
      assert log.Events() == [];
      r := None;
    }

    /** With a policy that always asks, a tool that ran in a turn of the approval path, or that a wrapped broker ran at
        all, had its request in the log and an accepted Approved decision for exactly that call. */
    lemma RunsWereRequested(k: nat)
      requires Valid() && AlwaysAsks(broker.tools) && k < |broker.executions|
      requires broker.tools.wrapped || broker.executions[k].turn !in direct
      ensures var e := broker.executions[k];
              && e.grant.ByDecision? && e.grant.n < |accepted| && accepted[e.grant.n].turn == e.turn
              && accepted[e.grant.n].decision == e.grant.decision && e.grant.decision.verdict.Approved?
              && DecisionMatches(e.round, e.call, e.grant.decision)
              && RequestMatches(e.round, e.call, accepted[e.grant.n].request)
              && ToolApprovalRequested(e.turn, accepted[e.grant.n].request) in log.EverLogged()
    {
      OnlyApprovedCallsRun(broker.tools, broker.executions, Seen(), k);
      assert LoggedIn(asked, log.EverLogged());
    }

    /** A complete turn wrote its events in the order of the protocol, and its end is the last of them. */
    lemma CompleteTurnIsInOrder(mode: Mode, snapshot: Tracker, response: Response)
      requires TurnIsComplete(mode, snapshot, response)
      ensures start <= |log.records| && PhaseOf(snapshot.turn, TurnEvents()) == Done(response.content)
      ensures TurnEvents() != [] && TurnEvents()[|TurnEvents()| - 1] == TurnCompleted(snapshot.turn, response.content)
    {
      assert ReachedBy(snapshot.turn, TurnEvents(), Done(response.content));
      EndsOnce(snapshot.turn, TurnEvents());
    }

    /** The conversation after a complete turn. */
    lemma CompletedConversation(mode: Mode, snapshot: Tracker, response: Response)
      requires TurnIsComplete(mode, snapshot, response)
      ensures Shaped(progress)
      ensures log.ConversationValue()
           == log.seed + Projection(Past()) + (TurnMessages(progress) + [AssistantText(response.content)])
    {
      TextCompletes(log.Events(), start, progress, response.content, snapshot.modelCalls, snapshot.toolCalls);
      SeedStaysInFront(log.seed, Projection(Past()), TurnMessages(progress) + [AssistantText(response.content)]);
    }
  }

  /** Two agents, one on the direct path and one on the approval path, that completed a turn on the same user message,
      the same model answers and the same settled calls, added the same messages to their conversations. */
  lemma ApprovalKeepsTheConversation(a: Agent, snapshotA: Tracker, responseA: Response, b: Agent, snapshotB: Tracker,
                                     responseB: Response)
    requires a.TurnIsComplete(Legacy, snapshotA, responseA) && !a.broker.tools.wrapped
    requires b.TurnIsComplete(ApprovalAware, snapshotB, responseB)
    requires a.progress.user == b.progress.user
    requires SameAnswers(a.parts.model, snapshotA.turn, b.parts.model, snapshotB.turn)
    requires SameOutcomes(a.broker.tools, snapshotA.turn, b.progress)
    ensures responseA == responseB
    ensures exists added ::
      && a.log.ConversationValue() == a.log.seed + Projection(a.Past()) + added
      && b.log.ConversationValue() == b.log.seed + Projection(b.Past()) + added
  {
    a.CompletedConversation(Legacy, snapshotA, responseA);
    b.CompletedConversation(ApprovalAware, snapshotB, responseB);
    ApprovalPreservesTheTurn(a.parts.model, a.broker.tools, snapshotA.turn, a.progress, responseA.content,
                             b.parts.model, b.broker.tools, snapshotB.turn, b.progress, responseB.content);
  }

  // ------------------------------------------------------------------
  // Whole runs
  // ------------------------------------------------------------------

  datatype PublicCall =
    | Turn(user: Message)
    | TurnWithApproval(user: Message)
    | Approve(decision: Decision)
    | Cancel(reason: string)
    | Reset(messages: seq<Message>)

  /** One public call of any kind. Only a cancellation whose note the log refuses gets the agent stuck,
      and no call gets it out again. */
  method Perform(agent: Agent, call: PublicCall) returns (failed: bool)
    requires agent.Valid()
    modifies agent, agent.log, agent.broker`executions
    ensures agent.Valid()
    ensures |agent.broker.executions| <= |old(agent.broker.executions)| + agent.parts.budget.maxToolCalls
    ensures agent.Stuck() == (old(agent.Stuck()) || (call.Cancel? && old(agent.CancelSticks(call.reason))))
    ensures old(agent.Stuck()) ==>
            failed && agent.log.records == old(agent.log.records) && agent.log.seed == old(agent.log.seed)
                                   && agent.broker.executions == old(agent.broker.executions)
  {
    match call
    case Turn(user) =>
      var r := agent.RunTurn(user);
      failed := r.Err?;
    case TurnWithApproval(user) =>
      var r := agent.RunTurnWithApproval(user);
      failed := r.Err?;
    case Approve(decision) =>
      var r := agent.ApprovePendingTool(decision);
      failed := r.Err?;
    case Cancel(reason) =>
      var r := agent.CancelPendingTurn(reason);
      failed := r.Some?;
    case Reset(messages) =>
      var r := agent.ResetConversation(messages);
      failed := r.Some?;
  }

  /** Once stuck, every later call fails and changes nothing that matters. */
  method StuckForEver(agent: Agent, calls: seq<PublicCall>) returns (failed: seq<bool>)
    requires agent.Valid() && agent.Stuck()
    modifies agent, agent.log, agent.broker`executions
    ensures agent.Valid() && agent.Stuck()
    ensures |failed| == |calls| && forall k :: 0 <= k < |calls| ==> failed[k]
    ensures agent.log.records == old(agent.log.records) && agent.log.seed == old(agent.log.seed)
    ensures agent.broker.executions == old(agent.broker.executions)
  {
    failed := [];
    for i := 0 to |calls|
      invariant agent.Valid() && agent.Stuck()
      invariant |failed| == i && forall k :: 0 <= k < i ==> failed[k]
      invariant agent.log.records == old(agent.log.records) && agent.log.seed == old(agent.log.seed)
      invariant agent.broker.executions == old(agent.broker.executions)
    {
      var one := Perform(agent, calls[i]);
      failed := failed + [one];
    }
  }

  /** No log takes a blank reason: cancelling a pending turn without giving one gets the agent stuck. */
  method BlankReasonGetsStuck(agent: Agent, reason: string) returns (r: Option<AgentError>)
    requires agent.Valid() && agent.pending.Some? && Blank(reason)
    modifies agent, agent.log`records, agent.log`bytesUsed, agent.log`nextSequence
    ensures agent.Valid() && agent.Stuck() && r.Some?
  {
    BlankIsRefused(agent.log.codec, agent.pending.value.tracker.turn, reason);
    r := agent.CancelPendingTurn(reason);
  }

  // ------------------------------------------------------------------
  // An agent that gets stuck
  // ------------------------------------------------------------------

  function AcceptAll(): Codec {
    Codec(event => 0, message => 0, outcome => "", call => true, request => true, decision => true, outcome => true)
  }

  /** Tools behind a policy that always asks. */
  function AskingTools(): Tools {
    Tools(true, (turn, round, call) => Answer(Completed("")),
          (turn: nat, round: nat, call: Call) => RequestApproval(ApprovalRequest(round, call.id, call.name, "")),
          AcceptAll())
  }

  /** A model that asks for one call in every round, under the smallest budget. */
  function OneCallParts(): Parts {
    Parts(Budget(1, 1, 1, 1), (turn, round) => Answered(Response("", [Call("id", "tool", "")])),
          (turn, round) => false, (turn, round) => false, n => None, error => Failure("code", "text"))
  }

  /** A log that takes the events of one turn. */
  function SmallLimits(): Limits {
    Limits(1 + ROUND_ROOM, 0, 0)
  }

  /** With these parts, tools and limits a new agent that is sent a message gets to an approval request. */
  lemma OneCallPromises(agent: Agent, text: string)
    requires agent.parts == OneCallParts() && agent.broker.tools == AskingTools() && TextFits(text)
    requires agent.log.limits == SmallLimits() && agent.log.codec == AcceptAll()
    requires agent.log.records == [] && agent.log.bytesUsed == 0 && agent.state == Ready && agent.nextTurn == 1
    ensures agent.Promising(UserText(text)) && agent.AsksFirst(1, 1)
  {
    PlentyOfRoom(SmallLimits(), 0, 0, 1 + ROUND_ROOM);
    forall risk ensures agent.Averted(risk) {
    }
  }

  /** A user message, an approval request, a cancellation without a reason: from there on every call fails. */
  method StuckIsReachable(calls: seq<PublicCall>)
    returns (asked: Result<TurnOutcome, AgentError>, refused: Option<AgentError>, failed: seq<bool>)
    ensures asked.Ok? && asked.value.ApprovalNeeded? && refused.Some?
    ensures |failed| == |calls| && forall k :: 0 <= k < |calls| ==> failed[k]
  {
    var log := new Log(SmallLimits(), AcceptAll());
    var broker := new Broker(AskingTools());
    var agent := new Agent(OneCallParts(), log, broker);
    assert !IsSpace("hello"[0]);
    OneCallPromises(agent, "hello");
    asked := agent.RunTurnWithApproval(UserText("hello"));
    refused := BlankReasonGetsStuck(agent, "");
    failed := StuckForEver(agent, calls);
  }

  /** A suspended turn ends after finitely many decisions, because every accepted one spends a tool call. */
  method DecideAll(agent: Agent, decide: ApprovalRequest -> Decision) returns (last: Result<TurnOutcome, AgentError>)
    requires agent.Valid() && agent.pending.Some?
    modifies agent, agent.log`records, agent.log`bytesUsed, agent.log`nextSequence, agent.broker`executions
    ensures agent.Valid() && !agent.Stuck()
    ensures agent.runsBefore == old(agent.runsBefore)
    ensures |agent.broker.executions| <= agent.runsBefore + agent.parts.budget.maxToolCalls
    ensures last.Ok? ==>
              last.value.TurnResult? && agent.TurnIsComplete(ApprovalAware, last.value.snapshot, last.value.response)
    ensures last.Ok? ==> agent.start == old(agent.start) <= |agent.log.records| && agent.Past() == old(agent.Past())
                         && agent.progress.user == old(agent.pending).value.user
  {
    var budget := agent.parts.budget.maxToolCalls;
    last := agent.ApprovePendingTool(decide(agent.pending.value.tool.request));
    while last.Ok? && last.value.ApprovalNeeded?
      invariant agent.Valid() && !agent.Stuck() && agent.runsBefore == old(agent.runsBefore)
      invariant |agent.broker.executions| <= agent.runsBefore + agent.parts.budget.maxToolCalls
      invariant last.Ok? ==> agent.start == old(agent.start) <= |agent.log.records| && agent.Past() == old(agent.Past())
      invariant last.Ok? ==> agent.progress.user == old(agent.pending).value.user
      invariant last.Ok? && last.value.ApprovalNeeded? ==> agent.pending.Some?
      invariant last.Ok? && last.value.TurnResult? ==>
                agent.TurnIsComplete(ApprovalAware, last.value.snapshot, last.value.response)
      decreases if last.Ok? && agent.pending.Some? then budget + 1 - agent.pending.value.tracker.toolCalls else 0
    {
      last := agent.ApprovePendingTool(decide(agent.pending.value.tool.request));
    }
  }
}
