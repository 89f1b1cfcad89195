/** What each request does to the coordinator document and when it is refused, said about the
    agents and the events themselves (crates/yunxi-multi-agent/src/store.rs). */
module CoordinatorMeaning {
  import opened Wrappers
  import opened Coordinator
  import opened CoordinatorRuns
  import opened CoordinatorLedger

  datatype Operation =
    | SpawnAgent(parent: AgentId, grants: seq<Grant>)
    | StartTurn(agent: AgentId, message: string)
    | CompleteTurn(agent: AgentId, reply: string)
    | FailTurn(agent: AgentId, detailFits: bool)
    | InterruptBranch(agent: AgentId, recursive: bool)

  function ApplyTo(d: Document, authority: Authority, operation: Operation): StoreResult<Document>
    requires !operation.InterruptBranch?
  {
    match operation
    case SpawnAgent(parent, grants) => SpawnOn(d, authority, parent, grants)
    case StartTurn(agent, message) => StartOn(d, authority, agent, message)
    case CompleteTurn(agent, reply) => CompleteOn(d, agent, reply)
    case FailTurn(agent, detailFits) => FailOn(d, agent, detailFits)
  }

  /** What every reachable document has: nothing it counts is near its greatest value, and
      no agent is called like the root. */
  ghost predicate Ordinary(d: Document) {
    && DistinctIds(d.agents)
    && (forall i :: 0 <= i < |d.agents| ==> d.agents[i].id != ROOT && ValidAgent(d.agents[i]))
    && |d.agents| <= MAX_AGENT_COUNT && |d.events| + MAX_AGENT_COUNT <= MAX_AGENT_EVENTS
    && d.nextEvent <= MAX_AGENT_EVENTS && d.nextAgent <= MAX_AGENT_EVENTS && d.totalTurns <= MAX_AGENT_TOTAL_TURNS
  }

  // ------------------------------------------------------------------
  // What an operation that goes well leaves behind
  // ------------------------------------------------------------------

  ghost predicate IsAgent(d: Document, i: int, id: AgentId) {
    0 <= i < |d.agents| && d.agents[i].id == id
  }

  /** Session, instance, budget and grants of the document stay. */
  ghost predicate SameFrame(d: Document, d': Document) {
    d'.session == d.session && d'.instance == d.instance && d'.budget == d.budget && d'.allowed == d.allowed
  }

  /** Exactly one event is added, with the next number. */
  ghost predicate OneEvent(d: Document, agent: AgentId, kind: EventKind, d': Document) {
    d'.events == d.events + [Event(d.nextEvent, agent, kind)] && d'.nextEvent == d.nextEvent + 1
  }

  /** A new agent under this parent, with exactly these grants and one level below the parent. */
  ghost predicate IsNewChild(d: Document, parent: AgentId, grants: seq<Grant>, child: Agent) {
    && child.parent == parent && child.grants == grants && child.status == Pending
    && child.turnsUsed == 0 && child.transcript == []
    && (parent == ROOT ==> child.depth == 1)
    && (forall i :: IsAgent(d, i, parent) ==> child.depth == d.agents[i].depth + 1)
  }

  /** The agents are the old ones and a new child of the parent, which belongs to every branch
      that its parent belongs to. */
  ghost predicate AddsChild(d: Document, parent: AgentId, grants: seq<Grant>, d': Document) {
    && |d'.agents| == |d.agents| + 1
    && (forall i :: 0 <= i < |d.agents| ==> d'.agents[i] == d.agents[i])
    && var child := d'.agents[|d.agents|];
       && IsNewChild(d, parent, grants, child)
       && child.id == AgentName(d.nextAgent) && d'.nextAgent == d.nextAgent + 1 && d'.totalTurns == d.totalTurns
       && OneEvent(d, child.id, Spawned, d')
       && (forall top :: InBranch(d.agents, top, parent) ==> InBranch(d'.agents, top, child.id))
       && InBranch(d'.agents, parent, child.id)
  }

  /** The record of one agent before and after: what was said is added to its transcript. */
  ghost predicate Says(a: Agent, said: seq<Entry>, turns: nat, status: Status, a': Agent) {
    && a'.transcript == a.transcript + said && a'.turnsUsed == a.turnsUsed + turns && a'.status == status
    && a'.id == a.id && a'.parent == a.parent && a'.depth == a.depth && a'.grants == a.grants
  }

  /** This agent says something and no other agent changes. */
  ghost predicate OnlySays(d: Document, agent: AgentId, said: seq<Entry>, turns: nat, status: Status,
                           kind: EventKind, d': Document) {
    && |d'.agents| == |d.agents|
    && (forall i :: 0 <= i < |d.agents| ==>
          if d.agents[i].id == agent then Says(d.agents[i], said, turns, status, d'.agents[i])
          else d'.agents[i] == d.agents[i])
    && d'.nextAgent == d.nextAgent && d'.totalTurns == d.totalTurns + turns
    && OneEvent(d, agent, kind, d')
  }

  /** The branch, or the one agent, is interrupted and no other agent changes; there is one event
      for each agent that was not interrupted before. */
  ghost predicate Interrupts(d: Document, agent: AgentId, recursive: bool, d': Document) {
    && |d'.agents| == |d.agents|
    && (forall i :: 0 <= i < |d.agents| ==>
          d'.agents[i] == if d.agents[i].id == agent || (recursive && InBranch(d.agents, agent, d.agents[i].id))
                          then d.agents[i].(status := Interrupted) else d.agents[i])
    && d'.nextAgent == d.nextAgent && d'.totalTurns == d.totalTurns
    && exists order: seq<AgentId> ::
         && InterruptOrder(d.agents, agent, recursive, order)
         && d'.nextEvent == d.nextEvent + |order|
         && d'.events == d.events + MarkEvents(d, order, BranchInterrupted)
  }

  /** A restart fails the running agents in the order in which they are stored, one event each. */
  ghost predicate Recovers(d: Document, instance: string, d': Document) {
    && d'.session == d.session && d'.instance == instance && d'.budget == d.budget && d'.allowed == d.allowed
    && d'.nextAgent == d.nextAgent && d'.totalTurns == d.totalTurns
    && |d'.agents| == |d.agents|
    && (forall i :: 0 <= i < |d.agents| ==>
          d'.agents[i] == if d.agents[i].status == Running then d.agents[i].(status := Failed) else d.agents[i])
    && exists order: seq<AgentId> ::
         && RunningInOrder(d.agents, order)
         && d'.nextEvent == d.nextEvent + |order|
         && d'.events == d.events + MarkEvents(d, order, TurnFailed)
  }

  /** The running agents, each once, in the order in which they are stored. */
  ghost predicate RunningInOrder(agents: seq<Agent>, order: seq<AgentId>) {
    && (forall id :: id in order <==>
          exists i :: 0 <= i < |agents| && agents[i].id == id && agents[i].status == Running)
    && forall j, k :: 0 <= j < k < |order| ==> AgentIndex(agents, order[j]) < AgentIndex(agents, order[k])
  }

  ghost predicate Means(d: Document, operation: Operation, d': Document) {
    && SameFrame(d, d')
    && match operation
       case SpawnAgent(parent, grants) => AddsChild(d, parent, grants, d')
       case StartTurn(agent, message) =>
         OnlySays(d, agent, [User(message)], 1, Running, TurnStarted, d')
       case CompleteTurn(agent, reply) =>
         OnlySays(d, agent, [Assistant(reply)], 0, Completed, TurnCompleted, d')
       case FailTurn(agent, _) => OnlySays(d, agent, [], 0, Failed, TurnFailed, d')
       case InterruptBranch(agent, recursive) => Interrupts(d, agent, recursive, d')
  }

  // ------------------------------------------------------------------
  // When an operation is refused
  // ------------------------------------------------------------------

  /** The checks of an operation in the order in which they are made. */
  function Checks(operation: Operation): seq<StoreError> {
    match operation
    case SpawnAgent(_, _) => [AgentLimitReached, ParentNotFound, ParentUnavailable, GrantEscalation, DepthLimitReached]
    case StartTurn(_, _) =>
      [TotalTurnLimitReached, AgentNotFound, AlreadyRunning, IsInterrupted, AgentTurnLimitReached,
       TranscriptLimitReached]
    case CompleteTurn(_, _) => [AgentNotFound, NotRunning, TranscriptLimitReached]
    case FailTurn(_, _) => [AgentNotFound, NotRunning, Protocol]
    case InterruptBranch(_, _) => [AgentNotFound]
  }

  ghost predicate IsStored(d: Document, id: AgentId) {
    HasAgent(d.agents, id)
  }

  ghost function Record(d: Document, id: AgentId): (a: Agent)
    requires IsStored(d, id)
    ensures a in d.agents && a.id == id
  {
    d.agents[AgentIndex(d.agents, id)]
  }

  /** What the document must look like for a spawn to fail this check. */
  ghost predicate ForbidsSpawn(d: Document, authority: Authority, parent: AgentId, grants: seq<Grant>,
                               error: StoreError) {
    match error
    case AgentLimitReached => |d.agents| >= authority.budget.maxAgents
    case ParentNotFound => parent != ROOT && !IsStored(d, parent)
    case ParentUnavailable => IsStored(d, parent) && Record(d, parent).status == Interrupted
    case GrantEscalation => !Within(grants, if IsStored(d, parent) then Record(d, parent).grants else authority.allowed)
    case DepthLimitReached =>
      (if IsStored(d, parent) then Record(d, parent).depth else 0) >= authority.budget.maxDepth
    case _ => false
  }

  /** What the document must look like for another operation on an agent to fail this check. */
  ghost predicate ForbidsTurn(d: Document, authority: Authority, agent: AgentId, detailFits: bool,
                              error: StoreError) {
    match error
    case TotalTurnLimitReached => d.totalTurns >= authority.budget.maxTotalTurns
    case AgentNotFound => !IsStored(d, agent)
    case AlreadyRunning => IsStored(d, agent) && Record(d, agent).status == Running
    case IsInterrupted => IsStored(d, agent) && Record(d, agent).status == Interrupted
    case NotRunning => IsStored(d, agent) && Record(d, agent).status != Running
    case AgentTurnLimitReached =>
      IsStored(d, agent) && Record(d, agent).turnsUsed >= authority.budget.maxTurnsPerAgent
    case TranscriptLimitReached =>
      IsStored(d, agent) && |Record(d, agent).transcript| >= MAX_AGENT_TRANSCRIPT_ENTRIES
    case Protocol => !detailFits
    case _ => false
  }

  ghost predicate Forbids(d: Document, authority: Authority, operation: Operation, error: StoreError) {
    if operation.SpawnAgent? then ForbidsSpawn(d, authority, operation.parent, operation.grants, error)
    else ForbidsTurn(d, authority, operation.agent, operation.FailTurn? ==> operation.detailFits, error)
  }

  /** The refusal is that of the first check that fails. */
  ghost predicate FirstForbidden(d: Document, authority: Authority, operation: Operation, error: StoreError) {
    var checks := Checks(operation);
    exists k :: 0 <= k < |checks| && checks[k] == error && Forbids(d, authority, operation, error)
                && forall j :: 0 <= j < k ==> !Forbids(d, authority, operation, checks[j])
  }

  /** An operation is refused exactly if a check forbids it, with the error of the first that does. */
  ghost predicate Refusals(d: Document, authority: Authority, operation: Operation, result: StoreResult<Document>) {
    if result.Err? then FirstForbidden(d, authority, operation, result.error)
    else forall error :: error in Checks(operation) ==> !Forbids(d, authority, operation, error)
  }

  /** And an operation that is not refused does what it means. */
  ghost predicate Outcome(d: Document, authority: Authority, operation: Operation, result: StoreResult<Document>) {
    match result
    case Ok(d') => Refusals(d, authority, operation, result) && Means(d, operation, d')
    case Err(_) => Refusals(d, authority, operation, result)
  }

  // ------------------------------------------------------------------
  // The operations do what they mean
  // ------------------------------------------------------------------

  lemma OnlyOneIs(d: Document, id: AgentId)
    requires DistinctIds(d.agents)
    ensures forall i :: IsAgent(d, i, id) ==> i == AgentIndex(d.agents, id)
    ensures HasAgent(d.agents, id) ==> IsAgent(d, AgentIndex(d.agents, id), id)
  {
    forall i | IsAgent(d, i, id) ensures i == AgentIndex(d.agents, id) {
      assert HasAgent(d.agents, id);
      assert IsAgent(d, AgentIndex(d.agents, id), id);
    }
  }

  lemma NewAgentJoinsBranches(agents: seq<Agent>, a: Agent)
    ensures forall top :: InBranch(agents, top, a.parent) ==> InBranch(agents + [a], top, a.id)
    ensures InBranch(agents + [a], a.parent, a.id)
  {
    var after := agents + [a];
    assert after[|agents|] == a && IsChild(after, a.parent, a.id);
    BranchHasTop(after, a.parent);
    BranchGrows(after, a.parent, a.parent, a.id);
    forall top | InBranch(agents, top, a.parent) ensures InBranch(after, top, a.id) {
      var path :| PathFromTo(agents, path, top, a.parent);
      forall k | 0 < k < |path| ensures IsChild(after, path[k - 1], path[k]) {
        assert IsChild(agents, path[k - 1], path[k]);
        var i :| 0 <= i < |agents| && agents[i].id == path[k] && agents[i].parent == path[k - 1];
        assert after[i] == agents[i];
      }
      assert PathFromTo(after, path, top, a.parent);
      BranchGrows(after, top, a.parent, a.id);
    }
  }

  ghost function PlaceOf(errors: seq<StoreError>, error: StoreError): (k: nat)
    ensures k <= |errors| && (k < |errors| ==> errors[k] == error)
    ensures error in errors ==> k < |errors|
  {
    if errors == [] || errors[0] == error then 0 else 1 + PlaceOf(errors[1..], error)
  }

  lemma SpawnMeans(d: Document, authority: Authority, parent: AgentId, grants: seq<Grant>, d': Document)
    requires Ordinary(d) && authority.budget.Valid() && SpawnOn(d, authority, parent, grants) == Ok(d')
    ensures Means(d, SpawnAgent(parent, grants), d')
  {
    OnlyOneIs(d, parent);
    NewAgentJoinsBranches(d.agents, d'.agents[|d.agents|]);
  }

  lemma StartMeans(d: Document, authority: Authority, agent: AgentId, message: string, d': Document)
    requires Ordinary(d) && authority.budget.Valid() && StartOn(d, authority, agent, message) == Ok(d')
    ensures Means(d, StartTurn(agent, message), d')
  {
    OnlyOneIs(d, agent);
  }

  lemma CompleteMeans(d: Document, agent: AgentId, reply: string, d': Document)
    requires Ordinary(d) && CompleteOn(d, agent, reply) == Ok(d')
    ensures Means(d, CompleteTurn(agent, reply), d')
  {
    OnlyOneIs(d, agent);
  }

  lemma FailMeans(d: Document, agent: AgentId, detailFits: bool, d': Document)
    requires Ordinary(d) && FailOn(d, agent, detailFits) == Ok(d')
    ensures Means(d, FailTurn(agent, detailFits), d')
  {
    OnlyOneIs(d, agent);
  }

  lemma SpawnRefused(d: Document, authority: Authority, parent: AgentId, grants: seq<Grant>)
    requires Ordinary(d) && authority.budget.Valid()
    ensures Refusals(d, authority, SpawnAgent(parent, grants), SpawnOn(d, authority, parent, grants))
  {
    var checks, result := Checks(SpawnAgent(parent, grants)), SpawnOn(d, authority, parent, grants);
    if result.Err? {
      var k := PlaceOf(checks, result.error);
      assert checks[k] == result.error;
    }
  }

  lemma StartRefused(d: Document, authority: Authority, agent: AgentId, message: string)
    requires Ordinary(d)
    ensures Refusals(d, authority, StartTurn(agent, message), StartOn(d, authority, agent, message))
  {
    var checks, result := Checks(StartTurn(agent, message)), StartOn(d, authority, agent, message);
    if result.Err? {
      var k := PlaceOf(checks, result.error);
      assert checks[k] == result.error;
    }
  }

  lemma CompleteRefused(d: Document, authority: Authority, agent: AgentId, reply: string)
    requires Ordinary(d)
    ensures Refusals(d, authority, CompleteTurn(agent, reply), CompleteOn(d, agent, reply))
  {
    var checks, result := Checks(CompleteTurn(agent, reply)), CompleteOn(d, agent, reply);
    if result.Err? {
      var k := PlaceOf(checks, result.error);
      assert checks[k] == result.error;
    }
  }

  lemma FailRefused(d: Document, authority: Authority, agent: AgentId, detailFits: bool)
    requires Ordinary(d)
    ensures Refusals(d, authority, FailTurn(agent, detailFits), FailOn(d, agent, detailFits))
  {
    var checks, result := Checks(FailTurn(agent, detailFits)), FailOn(d, agent, detailFits);
    if result.Err? {
      var k := PlaceOf(checks, result.error);
      assert checks[k] == result.error;
    }
  }

  /** Each operation goes well exactly if no check forbids it, and does what it means; otherwise it
      is refused for the first check that forbids it. */
  lemma ApplyOutcome(d: Document, authority: Authority, operation: Operation)
    requires Ordinary(d) && authority.budget.Valid() && !operation.InterruptBranch?
    ensures Outcome(d, authority, operation, ApplyTo(d, authority, operation))
  {
    var result := ApplyTo(d, authority, operation);
    match operation
    case SpawnAgent(parent, grants) =>
      SpawnRefused(d, authority, parent, grants);
      if result.Ok? { SpawnMeans(d, authority, parent, grants, result.value); }
    case StartTurn(agent, message) =>
      StartRefused(d, authority, agent, message);
      if result.Ok? { StartMeans(d, authority, agent, message, result.value); }
    case CompleteTurn(agent, reply) =>
      CompleteRefused(d, authority, agent, reply);
      if result.Ok? { CompleteMeans(d, agent, reply, result.value); }
    case FailTurn(agent, detailFits) =>
      FailRefused(d, authority, agent, detailFits);
      if result.Ok? { FailMeans(d, agent, detailFits, result.value); }
  }

  // ------------------------------------------------------------------
  // Marking
  // ------------------------------------------------------------------

  lemma MarkAppends(d: Document, id: AgentId, status: Status, kind: EventKind)
    requires AgentIndex(d.agents, id) < |d.agents|
    requires |d.events| < MAX_AGENT_EVENTS && d.nextEvent < U64_MAX
    ensures Mark(d, id, status, kind).events == d.events + [Event(d.nextEvent, id, kind)]
    ensures Mark(d, id, status, kind).nextEvent == d.nextEvent + 1
  {
  }

  lemma {:induction false} MarksAppend(d: Document, ids: seq<AgentId>, status: Status, kind: EventKind)
    requires DistinctIds(d.agents)
    requires forall j, k :: 0 <= j < k < |ids| ==> ids[j] != ids[k]
    requires forall k :: 0 <= k < |ids| ==> HasAgent(d.agents, ids[k])
    requires |d.events| + |ids| <= MAX_AGENT_EVENTS && d.nextEvent + |ids| <= U64_MAX
    ensures var after := MarkEach(d, ids, status, kind);
            after.events == d.events + MarkEvents(d, ids, kind) && after.nextEvent == d.nextEvent + |ids|
  {
    if ids != [] {
      var rest, id := ids[..|ids| - 1], ids[|ids| - 1];
      assert rest + [id] == ids && id !in rest;
      MarksAppend(d, rest, status, kind);
      OneMoreMark(d, rest, id, status, kind);
      MarkAppends(MarkEach(d, rest, status, kind), id, status, kind);
      MarkEventsGrow(d, d.events, rest, id, kind);
    }
  }

  /** An interrupt that succeeds marks exactly the branch, and notes each agent that was not
      interrupted before, in order of the ids. */
  lemma InterruptMeans(d: Document, agent: AgentId, recursive: bool, order: seq<AgentId>)
    requires Ordinary(d) && HasAgent(d.agents, agent) && InterruptOrder(d.agents, agent, recursive, order)
    ensures Means(d, InterruptBranch(agent, recursive), MarkEach(d, order, Interrupted, BranchInterrupted))
  {
    AscendingIsDistinct(order);
    forall k | 0 <= k < |order| ensures HasAgent(d.agents, order[k]) {
      assert order[k] in order;
    }
    DistinctIdsBound(d.agents, order);
    MarksAppend(d, order, Interrupted, BranchInterrupted);
    MarkEachFrame(d, order, Interrupted, BranchInterrupted);
    InterruptMarksBranch(d, agent, recursive, order);
  }

  lemma {:induction false} RunningIdsInOrder(agents: seq<Agent>)
    requires DistinctIds(agents)
    ensures RunningInOrder(agents, RunningIds(agents))
  {
    RunningIdsAreRunning(agents);
    if agents != [] {
      var n := |agents| - 1;
      var rest := agents[..n];
      RunningIdsInOrder(rest);
      var ids := RunningIds(agents);
      forall j, k | 0 <= j < k < |ids| ensures AgentIndex(agents, ids[j]) < AgentIndex(agents, ids[k]) {
        assert ids[j] in RunningIds(rest);
        SameIndex(agents, ids[j]);
        if k < |RunningIds(rest)| {
          assert ids[k] in RunningIds(rest);
          SameIndex(agents, ids[k]);
        } else {
          IndexOfAgent(agents, n);
        }
      }
    }
  }

  lemma SameIndex(agents: seq<Agent>, id: AgentId)
    requires DistinctIds(agents) && agents != [] && HasAgent(agents[..|agents| - 1], id)
    ensures AgentIndex(agents, id) == AgentIndex(agents[..|agents| - 1], id) < |agents| - 1
  {
    IndexOfAgent(agents, AgentIndex(agents[..|agents| - 1], id));
  }

  lemma RecoveryFails(d: Document, instance: string)
    requires DistinctIds(d.agents)
    ensures var after := RecoverOn(d, instance).agents;
            && |after| == |d.agents|
            && forall i :: 0 <= i < |d.agents| ==>
                 after[i] == if d.agents[i].status == Running then d.agents[i].(status := Failed) else d.agents[i]
  {
    var order := RunningIds(d.agents);
    RunningIdsAreRunning(d.agents);
    MarkEachAgents(d, order, Failed, TurnFailed);
    forall i | 0 <= i < |d.agents| ensures d.agents[i].id in order <==> d.agents[i].status == Running {
      IndexOfAgent(d.agents, i);
    }
  }

  lemma RecoveryNotes(d: Document, instance: string)
    requires Ordinary(d)
    ensures var order, after := RunningIds(d.agents), RecoverOn(d, instance);
            && after.events == d.events + MarkEvents(d, order, TurnFailed)
            && after.nextEvent == d.nextEvent + |order|
  {
    var order := RunningIds(d.agents);
    RunningIdsAreDistinct(d.agents);
    RunningIdsAreRunning(d.agents);
    forall k | 0 <= k < |order| ensures HasAgent(d.agents, order[k]) {
      assert order[k] in order;
    }
    MarksAppend(d, order, Failed, TurnFailed);
  }

  lemma RecoveryMeans(d: Document, instance: string)
    requires Ordinary(d)
    ensures Recovers(d, instance, RecoverOn(d, instance))
  {
    RunningIdsInOrder(d.agents);
    RecoveryFails(d, instance);
    RecoveryNotes(d, instance);
    MarkEachFrame(d, RunningIds(d.agents), Failed, TurnFailed);
  }
}
