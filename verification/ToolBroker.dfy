/** Tool execution behind an approval decision (crates/yunxi-agent-spine/src/tool.rs). */
module ToolBroker {
  import opened Wrappers
  import opened SessionLog

  datatype ToolError = ToolError(code: Code, message: string)

  /** What the tool itself answers when it is run. */
  datatype Ran = Answer(outcome: Outcome) | Broke(error: ToolError)

  /** What the approval policy decides before a call is run. */
  datatype Policy =
    | Execute
    | RequestApproval(request: ApprovalRequest)
    | Reject(code: Code, message: string)
    | Unable(error: ToolError)

  datatype ToolExecution = Executed(outcome: Outcome) | AwaitingApproval(request: ApprovalRequest)

  /** The tools and the policy of a broker; a call is identified by its turn, its round and itself.
      A wrapped broker refuses calls that do not take the approval path. */
  datatype Tools = Tools(wrapped: bool, run: (nat, nat, Call) -> Ran, policy: (nat, nat, Call) -> Policy, codec: Codec)

  /** On whose word a tool was run: a caller's of the direct path, the policy's, or the n-th accepted decision. */
  datatype Grant = ByCaller | ByPolicy | ByDecision(decision: Decision, n: nat)

  datatype Execution = Execution(turn: nat, round: nat, call: Call, grant: Grant)

  predicate DecisionMatches(round: nat, call: Call, decision: Decision) {
    decision.round == round && decision.callId == call.id && decision.tool == call.name
  }

  predicate RequestMatches(round: nat, call: Call, request: ApprovalRequest) {
    request.round == round && request.callId == call.id && request.tool == call.name
  }

  function FromTool(ran: Ran): Result<ToolExecution, ToolError> {
    match ran case Answer(outcome) => Ok(Executed(outcome)) case Broke(error) => Err(error)
  }

  function Rejection(codec: Codec, code: Code, message: string): Result<ToolExecution, ToolError> {
    if codec.outcomeFits(Rejected(code, message)) then Ok(Executed(Rejected(code, message)))
    else Err(ToolError(InvalidToolRejection, message))
  }

  function ValidateApproval(codec: Codec, round: nat, call: Call, decision: Decision): Option<ToolError> {
    if !DecisionMatches(round, call, decision) then Some(ToolError(ApprovalMismatch, call.name))
    else if !codec.decisionFits(decision) then Some(ToolError(InvalidApproval, call.name))
    else None
  }

  function ValidateApprovalRequest(codec: Codec, round: nat, call: Call, request: ApprovalRequest): Option<ToolError> {
    if !RequestMatches(round, call, request) then Some(ToolError(ApprovalRequestMismatch, call.name))
    else if !codec.requestFits(request) then Some(ToolError(InvalidApprovalRequest, call.name))
    else None
  }

  /** What the approval path decides about a call: run the tool, or answer without it. */
  datatype Ruling = RunTool | Conclude(result: Result<ToolExecution, ToolError>)

  function Rule(tools: Tools, turn: nat, round: nat, call: Call, approval: Option<Decision>): Ruling {
    match approval
    case Some(decision) => (
      match ValidateApproval(tools.codec, round, call, decision)
      case Some(error) => Conclude(Err(error))
      case None => (
        match decision.verdict
        case Approved(_) => RunTool
        case Denied(reason) => Conclude(Rejection(tools.codec, UserDenied, reason))))
    case None => (
      match tools.policy(turn, round, call)
      case Unable(error) => Conclude(Err(error))
      case Execute => RunTool
      case RequestApproval(request) => (
        match ValidateApprovalRequest(tools.codec, round, call, request)
        case Some(error) => Conclude(Err(error))
        case None => Conclude(Ok(AwaitingApproval(request))))
      case Reject(code, message) => Conclude(Rejection(tools.codec, code, message)))
  }

  /** The result of a call on the approval path. */
  function WithApproval(tools: Tools, turn: nat, round: nat, call: Call,
                        approval: Option<Decision>): Result<ToolExecution, ToolError> {
    match Rule(tools, turn, round, call, approval)
    case RunTool => FromTool(tools.run(turn, round, call))
    case Conclude(result) => result
  }

  /** The word on which the tool is run, if it is. */
  function GrantFor(tools: Tools, turn: nat, round: nat, call: Call, approval: Option<Decision>,
                    ticket: nat): Option<Grant> {
    if Rule(tools, turn, round, call, approval).Conclude? then None
    else match approval case Some(decision) => Some(ByDecision(decision, ticket)) case None => Some(ByPolicy)
  }

  predicate Answers(codec: Codec, round: nat, call: Call, decision: Decision) {
    DecisionMatches(round, call, decision) && codec.decisionFits(decision)
  }

  /** The tool runs exactly for a matching valid Approved decision, or without a decision if the policy says so. */
  lemma RunsOnlyIfAllowed(tools: Tools, turn: nat, round: nat, call: Call, approval: Option<Decision>)
    ensures Rule(tools, turn, round, call, approval) == RunTool <==>
            match approval
            case Some(decision) => Answers(tools.codec, round, call, decision) && decision.verdict.Approved?
            case None => tools.policy(turn, round, call) == Execute
  {
  }

  /** A caller is asked exactly if it brought no decision and the policy has a valid request for this very call. */
  lemma AsksOnlyForThisCall(tools: Tools, turn: nat, round: nat, call: Call, approval: Option<Decision>,
                            request: ApprovalRequest)
    ensures WithApproval(tools, turn, round, call, approval) == Ok(AwaitingApproval(request)) <==>
            && approval == None && tools.policy(turn, round, call) == RequestApproval(request)
            && RequestMatches(round, call, request) && tools.codec.requestFits(request)
  {
  }

  /** A denial is an outcome of the call if its reason fits; a decision about another call, or an unfit one, is an
      error. */
  lemma DecisionsWithoutRun(tools: Tools, turn: nat, round: nat, call: Call, decision: Decision)
    requires !decision.verdict.Approved? || !Answers(tools.codec, round, call, decision)
    ensures var r := WithApproval(tools, turn, round, call, Some(decision));
            if !Answers(tools.codec, round, call, decision) then
              r.Err? && r.error.code in {ApprovalMismatch, InvalidApproval}
            else
              var denied := Rejected(UserDenied, decision.verdict.reason);
              if tools.codec.outcomeFits(denied) then r == Ok(Executed(denied))
              else r.Err? && r.error.code == InvalidToolRejection
  {
  }

  predicate Fails(r: Result<ToolExecution, ToolError>, code: Code) {
    r.Err? && r.error.code == code
  }

  /** A refusal is an outcome of the call with this very code and text if they fit, and otherwise an error. */
  predicate Refuses(codec: Codec, code: Code, message: string, r: Result<ToolExecution, ToolError>) {
    if codec.outcomeFits(Rejected(code, message)) then r == Ok(Executed(Rejected(code, message)))
    else Fails(r, InvalidToolRejection)
  }

  /** The tool's own answer, be it an outcome or an error. */
  predicate ToolAnswers(ran: Ran, r: Result<ToolExecution, ToolError>) {
    match ran
    case Answer(outcome) => r == Ok(Executed(outcome))
    case Broke(error) => r == Err(error)
  }

  /** With a decision: it must be about this very call and fit; then the tool answers or the denial is the outcome. */
  predicate DecisionAnswers(tools: Tools, turn: nat, round: nat, call: Call, decision: Decision,
                            r: Result<ToolExecution, ToolError>) {
    if decision.round != round || decision.callId != call.id || decision.tool != call.name
      then Fails(r, ApprovalMismatch)
    else if !tools.codec.decisionFits(decision) then Fails(r, InvalidApproval)
    else match decision.verdict
         case Approved(_) => ToolAnswers(tools.run(turn, round, call), r)
         case Denied(reason) => Refuses(tools.codec, UserDenied, reason, r)
  }

  /** Without one: the policy lets the tool answer, asks, rejects the call, or cannot tell. */
  predicate PolicyAnswers(tools: Tools, turn: nat, round: nat, call: Call, r: Result<ToolExecution, ToolError>) {
    match tools.policy(turn, round, call)
    case Execute => ToolAnswers(tools.run(turn, round, call), r)
    case Reject(code, message) => Refuses(tools.codec, code, message, r)
    case Unable(error) => r == Err(error)
    case RequestApproval(request) =>
      if request.round != round || request.callId != call.id || request.tool != call.name
        then Fails(r, ApprovalRequestMismatch)
      else if !tools.codec.requestFits(request) then Fails(r, InvalidApprovalRequest)
      else r == Ok(AwaitingApproval(request))
  }

  function Executions(turn: nat, round: nat, call: Call, grant: Option<Grant>): seq<Execution> {
    match grant case None => [] case Some(g) => [Execution(turn, round, call, g)]
  }

  /** The direct path: a wrapped broker never runs the tool. */
  function Direct(tools: Tools, turn: nat, round: nat, call: Call): Result<ToolExecution, ToolError> {
    if tools.wrapped then Err(ToolError(ApprovalRequired, call.name)) else FromTool(tools.run(turn, round, call))
  }

  /** The policy of a broker that was given none: it asks for every call it can describe. */
  ghost predicate AlwaysAsks(tools: Tools) {
    forall turn, round, call ::
      match tools.policy(turn, round, call)
      case RequestApproval(request) => RequestMatches(round, call, request)
      case Unable(_) => true
      case _ => false
  }

  class Broker {
    const tools: Tools
    ghost var executions: seq<Execution>

    constructor (tools: Tools)
      ensures this.tools == tools && executions == []
    {
      this.tools := tools;
      executions := [];
    }

    method Run(turn: nat, round: nat, call: Call, ghost grant: Grant) returns (r: Result<ToolExecution, ToolError>)
      modifies `executions
      ensures r == FromTool(tools.run(turn, round, call))
      ensures executions == old(executions) + [Execution(turn, round, call, grant)]
    {
      executions := executions + [Execution(turn, round, call, grant)];
      var ran := tools.run(turn, round, call);
      match ran
      case Answer(outcome) => r := Ok(Executed(outcome));
      case Broke(error) => r := Err(error);
    }

    method ExecuteDirectly(turn: nat, round: nat, call: Call) returns (r: Result<ToolExecution, ToolError>)
      modifies `executions
      ensures r == Direct(tools, turn, round, call)
      ensures if tools.wrapped then Fails(r, ApprovalRequired) else ToolAnswers(tools.run(turn, round, call), r)
      ensures var grant := if tools.wrapped then None else Some(ByCaller);
              executions == old(executions) + Executions(turn, round, call, grant)
    {
      if tools.wrapped {
        return Err(ToolError(ApprovalRequired, call.name));
      }
      r := Run(turn, round, call, ByCaller);
    }

    /** Runs the call after a matching decision, or shows the request that must be decided first. */
    method ExecuteWithApproval(turn: nat, round: nat, call: Call, approval: Option<Decision>, ghost ticket: nat)
      returns (r: Result<ToolExecution, ToolError>)
      modifies `executions
      ensures r == WithApproval(tools, turn, round, call, approval)
      ensures var grant := GrantFor(tools, turn, round, call, approval, ticket);
              executions == old(executions) + Executions(turn, round, call, grant)
      ensures |executions| > |old(executions)| <==>
              match approval
              case Some(decision) => Answers(tools.codec, round, call, decision) && decision.verdict.Approved?
              case None => tools.policy(turn, round, call) == Execute
      ensures forall request :: r == Ok(AwaitingApproval(request)) <==>
                && approval == None && tools.policy(turn, round, call) == RequestApproval(request)
                && RequestMatches(round, call, request) && tools.codec.requestFits(request)
      ensures match approval
              case Some(decision) => DecisionAnswers(tools, turn, round, call, decision, r)
              case None => PolicyAnswers(tools, turn, round, call, r)
    {
      RunsOnlyIfAllowed(tools, turn, round, call, approval);
      match Rule(tools, turn, round, call, approval)
      case RunTool =>
        r := Run(turn, round, call, GrantFor(tools, turn, round, call, approval, ticket).value);
      case Conclude(result) =>
        r := result;
    }
  }
}
