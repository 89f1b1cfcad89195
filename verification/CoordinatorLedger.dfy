/** Conservation of turns and events over the runs of the coordinator. */
module CoordinatorLedger {
  import opened Coordinator
  import opened CoordinatorRuns

  // ------------------------------------------------------------------
  // Turns
  // ------------------------------------------------------------------

  function UserCount(transcript: seq<Entry>): nat {
    if transcript == [] then 0
    else UserCount(transcript[..|transcript| - 1]) + (if transcript[|transcript| - 1].User? then 1 else 0)
  }

  function SumTurns(agents: seq<Agent>): nat {
    if agents == [] then 0 else SumTurns(agents[..|agents| - 1]) + agents[|agents| - 1].turnsUsed
  }

  function SumUsers(agents: seq<Agent>): nat {
    if agents == [] then 0 else SumUsers(agents[..|agents| - 1]) + UserCount(agents[|agents| - 1].transcript)
  }

  /** One user entry per turn, every reply right after a user entry, and a running turn
      still waiting for its reply. */
  ghost predicate TurnShape(a: Agent) {
    && a.turnsUsed == UserCount(a.transcript)
    && (forall k :: 0 <= k < |a.transcript| && a.transcript[k].Assistant? ==> k > 0 && a.transcript[k - 1].User?)
    && (a.status == Running ==> a.transcript != [] && a.transcript[|a.transcript| - 1].User?)
  }

  ghost predicate Turns(d: Document) {
    && d.totalTurns == SumTurns(d.agents) <= d.budget.maxTotalTurns
    && forall i :: 0 <= i < |d.agents| ==>
         TurnShape(d.agents[i]) && d.agents[i].turnsUsed <= d.budget.maxTurnsPerAgent
  }

  lemma {:induction false} SumTurnsUpdate(agents: seq<Agent>, i: nat, a: Agent)
    requires i < |agents|
    ensures SumTurns(agents[i := a]) + agents[i].turnsUsed == SumTurns(agents) + a.turnsUsed
  {
    var n := |agents| - 1;
    if i == n {
      assert agents[i := a][..n] == agents[..n];
    } else {
      assert agents[i := a][..n] == agents[..n][i := a];
      SumTurnsUpdate(agents[..n], i, a);
    }
  }

  lemma {:induction false} SumTurnsSame(agents: seq<Agent>, agents': seq<Agent>)
    requires |agents| == |agents'|
    requires forall i :: 0 <= i < |agents| ==> agents'[i].turnsUsed == agents[i].turnsUsed
    ensures SumTurns(agents') == SumTurns(agents)
  {
    if agents != [] {
      SumTurnsSame(agents[..|agents| - 1], agents'[..|agents| - 1]);
    }
  }

  /** The total is also the number of user entries in all transcripts. */
  lemma {:induction false} TurnsAreUserEntries(agents: seq<Agent>)
    requires forall i :: 0 <= i < |agents| ==> TurnShape(agents[i])
    ensures SumTurns(agents) == SumUsers(agents)
  {
    if agents != [] {
      var rest := agents[..|agents| - 1];
      assert forall i :: 0 <= i < |rest| ==> rest[i] == agents[i];
      TurnsAreUserEntries(rest);
    }
  }

  lemma UserEntryKeepsShape(a: Agent, message: string)
    requires TurnShape(a)
    ensures TurnShape(a.(transcript := a.transcript + [User(message)], turnsUsed := a.turnsUsed + 1, status := Running))
  {
    assert (a.transcript + [User(message)])[..|a.transcript|] == a.transcript;
  }

  lemma ReplyKeepsShape(a: Agent, reply: string)
    requires TurnShape(a) && a.status == Running
    ensures TurnShape(a.(transcript := a.transcript + [Assistant(reply)], status := Completed))
  {
    assert (a.transcript + [Assistant(reply)])[..|a.transcript|] == a.transcript;
  }

  lemma OneAgentKeepsTurns(d: Document, i: nat, a: Agent, d': Document)
    requires Turns(d) && i < |d.agents| && d'.agents == d.agents[i := a] && d'.budget == d.budget
    requires TurnShape(a) && d.agents[i].turnsUsed <= a.turnsUsed <= d.budget.maxTurnsPerAgent
    requires d'.totalTurns == d.totalTurns + (a.turnsUsed - d.agents[i].turnsUsed) <= d.budget.maxTotalTurns
    ensures Turns(d')
  {
    SumTurnsUpdate(d.agents, i, a);
  }

  /** A start replaces one agent record and counts one turn; no counter saturates within a valid budget. */
  lemma StartCounts(d: Document, action: Action, d': Document) returns (i: nat)
    requires d.budget.Valid() && action.Start? && Step(d, action, d')
    requires forall k :: 0 <= k < |d.agents| ==> d.agents[k].turnsUsed <= d.budget.maxTurnsPerAgent
    ensures i < |d.agents| && d'.budget == d.budget && d'.totalTurns == d.totalTurns + 1 <= d.budget.maxTotalTurns
    ensures d.agents[i].turnsUsed < d.budget.maxTurnsPerAgent
    ensures d'.agents == d.agents[i := d.agents[i].(transcript := d.agents[i].transcript + [User(action.message)],
                                                    turnsUsed := d.agents[i].turnsUsed + 1, status := Running)]
  {
    i := AgentIndex(d.agents, action.agent);
  }

  lemma StartKeepsTurns(d: Document, action: Action, d': Document)
    requires Forest(d) && Turns(d) && action.Start? && Step(d, action, d')
    ensures Turns(d')
  {
    var i := StartCounts(d, action, d');
    UserEntryKeepsShape(d.agents[i], action.message);
    OneAgentKeepsTurns(d, i, d'.agents[i], d');
  }

  lemma CompleteKeepsTurns(d: Document, action: Action, d': Document)
    requires Turns(d) && action.Complete? && Step(d, action, d')
    ensures Turns(d')
  {
    var i := AgentIndex(d.agents, action.agent);
    ReplyKeepsShape(d.agents[i], action.reply);
    OneAgentKeepsTurns(d, i, d'.agents[i], d');
  }

  /** A change of statuses that starts no turn. */
  lemma StatusChangeKeepsTurns(d: Document, d': Document)
    requires Turns(d) && |d'.agents| == |d.agents| && d'.totalTurns == d.totalTurns && d'.budget == d.budget
    requires forall i :: 0 <= i < |d.agents| ==>
                           d'.agents[i] == d.agents[i]
                           || (d'.agents[i].status != Running
                               && d'.agents[i] == d.agents[i].(status := d'.agents[i].status))
    ensures Turns(d')
  {
    SumTurnsSame(d.agents, d'.agents);
    forall i | 0 <= i < |d'.agents|
      ensures TurnShape(d'.agents[i]) && d'.agents[i].turnsUsed <= d'.budget.maxTurnsPerAgent
    {
      assert TurnShape(d.agents[i]);
    }
  }

  lemma SpawnKeepsTurns(d: Document, action: Action, d': Document)
    requires Turns(d) && action.Spawn? && Step(d, action, d')
    ensures Turns(d')
  {
    var n := |d.agents|;
    assert d'.agents[..n] == d.agents;
    forall i | 0 <= i < |d'.agents|
      ensures TurnShape(d'.agents[i]) && d'.agents[i].turnsUsed <= d'.budget.maxTurnsPerAgent
    {
      if i < n {
        assert d'.agents[i] == d.agents[i];
      }
    }
  }

  lemma StepKeepsTurns(d: Document, action: Action, d': Document)
    requires Forest(d) && Turns(d) && Step(d, action, d')
    ensures Turns(d')
  {
    if action.Spawn? {
      SpawnKeepsTurns(d, action, d');
    } else if action.Start? {
      StartKeepsTurns(d, action, d');
    } else if action.Complete? {
      CompleteKeepsTurns(d, action, d');
    } else {
      if action.Fail? {
        MarkAgents(d, action.agent, Failed, TurnFailed);
      } else if action.Interrupt? {
        MarkEachAgents(d, action.order, Interrupted, BranchInterrupted);
        MarkEachFrame(d, action.order, Interrupted, BranchInterrupted);
      } else {
        MarkEachAgents(d, RunningIds(d.agents), Failed, TurnFailed);
        MarkEachFrame(d, RunningIds(d.agents), Failed, TurnFailed);
      }
      StatusChangeKeepsTurns(d, d');
    }
  }

  // ------------------------------------------------------------------
  // Events
  // ------------------------------------------------------------------

  function Count(history: seq<Event>, kind: EventKind): nat {
    if history == [] then 0
    else Count(history[..|history| - 1], kind) + (if history[|history| - 1].kind == kind then 1 else 0)
  }

  function CountStatus(agents: seq<Agent>, status: Status): (n: nat)
    ensures n <= |agents|
  {
    if agents == [] then 0
    else CountStatus(agents[..|agents| - 1], status) + (if agents[|agents| - 1].status == status then 1 else 0)
  }

  function StatusAfter(kind: EventKind): Status {
    match kind
    case Spawned => Pending
    case TurnStarted => Running
    case TurnCompleted => Completed
    case TurnFailed => Failed
    case BranchInterrupted => Interrupted
  }

  /** The statuses one gets by reading the events alone. */
  function Replay(history: seq<Event>): map<AgentId, Status> {
    if history == [] then map[]
    else
      var last := history[|history| - 1];
      Replay(history[..|history| - 1])[last.agent := StatusAfter(last.kind)]
  }

  /** How many interrupt events cut a running turn short. */
  function CutShort(history: seq<Event>): nat {
    if history == [] then 0
    else
      var before, last := history[..|history| - 1], history[|history| - 1];
      var was := Replay(before);
      CutShort(before)
      + (if last.kind == BranchInterrupted && last.agent in was && was[last.agent] == Running then 1 else 0)
  }

  /** The history is numbered from 1 and the stored events are its last MAX_AGENT_EVENTS. */
  ghost predicate Numbered(d: Document, history: seq<Event>) {
    && (forall k :: 0 <= k < |history| ==> history[k].sequence == k + 1)
    && d.nextEvent == |history| + 1
    && d.events == LastOf(history, MAX_AGENT_EVENTS)
  }

  /** Replaying the history gives every agent and its status. */
  ghost predicate Replayed(agents: seq<Agent>, statuses: map<AgentId, Status>) {
    && statuses.Keys == Ids(agents)
    && forall i :: 0 <= i < |agents| ==> agents[i].id in statuses && statuses[agents[i].id] == agents[i].status
  }

  /** The events account for the agents, the turns and the interrupts. */
  ghost predicate Accounted(d: Document, history: seq<Event>) {
    && Count(history, Spawned) == |d.agents|
    && Count(history, TurnStarted) == d.totalTurns
    && Count(history, BranchInterrupted) == CountStatus(d.agents, Interrupted)
    && Count(history, TurnStarted) ==
       CountStatus(d.agents, Running) + Count(history, TurnCompleted) + Count(history, TurnFailed) + CutShort(history)
  }

  /** The document and its full history agree. */
  ghost predicate Ledger(d: Document, history: seq<Event>) {
    Numbered(d, history) && Replayed(d.agents, Replay(history)) && Accounted(d, history)
  }

  lemma {:induction false} CountsAddUp(history: seq<Event>)
    ensures |history| == Count(history, Spawned) + Count(history, TurnStarted) + Count(history, TurnCompleted)
                         + Count(history, TurnFailed) + Count(history, BranchInterrupted)
  {
    if history != [] {
      CountsAddUp(history[..|history| - 1]);
    }
  }

  /** A history pays for at most two events per agent and two per turn. */
  lemma HistoryIsShort(d: Document, history: seq<Event>)
    requires Ledger(d, history)
    ensures |history| <= 2 * |d.agents| + 2 * d.totalTurns
  {
    CountsAddUp(history);
  }

  lemma {:induction false} CountStatusUpdate(agents: seq<Agent>, i: nat, a: Agent, status: Status)
    requires i < |agents|
    ensures CountStatus(agents[i := a], status) + (if agents[i].status == status then 1 else 0) ==
            CountStatus(agents, status) + (if a.status == status then 1 else 0)
  {
    var n := |agents| - 1;
    if i == n {
      assert agents[i := a][..n] == agents[..n];
    } else {
      assert agents[i := a][..n] == agents[..n][i := a];
      CountStatusUpdate(agents[..n], i, a, status);
    }
  }

  lemma LastOfExtends<T>(s: seq<T>, x: T, n: nat)
    requires n > 0
    ensures LastOf(LastOf(s, n) + [x], n) == LastOf(s + [x], n)
  {
  }

  lemma HistoryExtends(history: seq<Event>, e: Event)
    ensures Replay(history + [e]) == Replay(history)[e.agent := StatusAfter(e.kind)]
    ensures forall kind :: Count(history + [e], kind) == Count(history, kind) + (if e.kind == kind then 1 else 0)
    ensures CutShort(history + [e]) == CutShort(history)
            + (if e.kind == BranchInterrupted && e.agent in Replay(history) && Replay(history)[e.agent] == Running
               then 1 else 0)
  {
    assert (history + [e])[..|history|] == history;
  }

  /** Which event may follow which status. */
  predicate Follows(status: Status, kind: EventKind) {
    match kind
    case Spawned => false
    case TurnStarted => status !in {Running, Interrupted}
    case TurnCompleted => status == Running
    case TurnFailed => status == Running
    case BranchInterrupted => status != Interrupted
  }

  lemma PushKeepsNumbered(d: Document, history: seq<Event>, agent: AgentId, kind: EventKind, d': Document)
    requires Numbered(d, history) && |history| < U64_MAX - 1
    requires d'.nextEvent == SaturatingInc(d.nextEvent, U64_MAX)
    requires d'.events == LastOf(d.events + [Event(d.nextEvent, agent, kind)], MAX_AGENT_EVENTS)
    ensures Numbered(d', history + [Event(d.nextEvent, agent, kind)])
  {
    LastOfExtends(history, Event(d.nextEvent, agent, kind), MAX_AGENT_EVENTS);
  }

  lemma ChangeKeepsReplayed(agents: seq<Agent>, statuses: map<AgentId, Status>, i: nat, a: Agent)
    requires Replayed(agents, statuses) && DistinctIds(agents) && i < |agents| && a.id == agents[i].id
    ensures Replayed(agents[i := a], statuses[a.id := a.status])
  {
    var agents' := agents[i := a];
    SameIds(agents, agents');
    assert a.id in Ids(agents);
    forall j | 0 <= j < |agents'|
      ensures agents'[j].id in statuses[a.id := a.status]
      ensures statuses[a.id := a.status][agents'[j].id] == agents'[j].status
    {
      if j != i {
        assert agents[j].id != agents[i].id;
      }
    }
  }

  lemma ChangeKeepsAccounts(d: Document, history: seq<Event>, i: nat, a: Agent, e: Event, d': Document)
    requires Accounted(d, history) && Replayed(d.agents, Replay(history)) && i < |d.agents|
    requires a.id == d.agents[i].id == e.agent && a.status == StatusAfter(e.kind) && Follows(d.agents[i].status, e.kind)
    requires d'.agents == d.agents[i := a]
    requires d'.totalTurns == d.totalTurns + (if e.kind == TurnStarted then 1 else 0)
    ensures Accounted(d', history + [e])
  {
    HistoryExtends(history, e);
    CountStatusUpdate(d.agents, i, a, Running);
    CountStatusUpdate(d.agents, i, a, Interrupted);
  }

  /** One agent changes its status and one event records it. */
  lemma ChangeKeepsLedger(d: Document, history: seq<Event>, i: nat, a: Agent, kind: EventKind, d': Document)
    requires Ledger(d, history) && DistinctIds(d.agents) && i < |d.agents| && |history| < U64_MAX - 1
    requires a.id == d.agents[i].id && a.status == StatusAfter(kind) && Follows(d.agents[i].status, kind)
    requires d'.agents == d.agents[i := a]
    requires d'.totalTurns == d.totalTurns + (if kind == TurnStarted then 1 else 0)
    requires d'.nextEvent == SaturatingInc(d.nextEvent, U64_MAX)
    requires d'.events == LastOf(d.events + [Event(d.nextEvent, a.id, kind)], MAX_AGENT_EVENTS)
    ensures Ledger(d', history + [Event(d.nextEvent, a.id, kind)])
  {
    var e := Event(d.nextEvent, a.id, kind);
    HistoryExtends(history, e);
    PushKeepsNumbered(d, history, a.id, kind, d');
    ChangeKeepsReplayed(d.agents, Replay(history), i, a);
    ChangeKeepsAccounts(d, history, i, a, e, d');
  }

  lemma SameIds(agents: seq<Agent>, agents': seq<Agent>)
    requires |agents| == |agents'| && forall i :: 0 <= i < |agents| ==> agents[i].id == agents'[i].id
    ensures Ids(agents) == Ids(agents')
  {
    forall id ensures id in Ids(agents) <==> id in Ids(agents') {
      if id in Ids(agents) {
        var i :| 0 <= i < |agents| && agents[i].id == id;
        assert agents'[i].id == id;
      }
      if id in Ids(agents') {
        var i :| 0 <= i < |agents| && agents'[i].id == id;
        assert agents[i].id == id;
      }
    }
  }

  lemma OneMoreMark(d: Document, rest: seq<AgentId>, id: AgentId, status: Status, kind: EventKind)
    requires DistinctIds(d.agents) && id !in rest && HasAgent(d.agents, id)
    ensures var middle := MarkEach(d, rest, status, kind);
            var i := AgentIndex(middle.agents, id);
            && DistinctIds(middle.agents)
            && i == AgentIndex(d.agents, id) && i < |middle.agents| && middle.agents[i] == d.agents[i]
            && MarkEach(d, rest + [id], status, kind) == Mark(middle, id, status, kind)
  {
    MarkEachAgents(d, rest, status, kind);
    var middle := MarkEach(d, rest, status, kind);
    var i := AgentIndex(d.agents, id);
    assert middle.agents[i] == d.agents[i];
    assert HasAgent(middle.agents, id);
    assert (rest + [id])[..|rest|] == rest;
  }

  /** The agent exists and may take this event now. */
  predicate Markable(agents: seq<Agent>, id: AgentId, kind: EventKind) {
    var i := AgentIndex(agents, id);
    i < |agents| && Follows(agents[i].status, kind)
  }

  lemma MarkKeepsLedger(d: Document, history: seq<Event>, id: AgentId, kind: EventKind)
    requires Ledger(d, history) && DistinctIds(d.agents) && |history| < U64_MAX - 1
    requires kind == TurnFailed || kind == BranchInterrupted
    requires Markable(d.agents, id, kind)
    ensures Ledger(Mark(d, id, StatusAfter(kind), kind), history + [Event(|history| + 1, id, kind)])
  {
    var i := AgentIndex(d.agents, id);
    ChangeKeepsLedger(d, history, i, d.agents[i].(status := StatusAfter(kind)), kind,
                      Mark(d, id, StatusAfter(kind), kind));
  }

  lemma MarkEventsGrow(d: Document, history: seq<Event>, rest: seq<AgentId>, id: AgentId, kind: EventKind)
    ensures history + MarkEvents(d, rest + [id], kind) ==
            history + MarkEvents(d, rest, kind) + [Event(d.nextEvent + |rest|, id, kind)]
    ensures |history + MarkEvents(d, rest, kind)| == |history| + |rest|
  {
    assert MarkEvents(d, rest + [id], kind) == MarkEvents(d, rest, kind) + [Event(d.nextEvent + |rest|, id, kind)];
  }

  lemma OneMoreMarkKeepsLedger(d: Document, history: seq<Event>, rest: seq<AgentId>, id: AgentId, kind: EventKind)
    requires DistinctIds(d.agents) && d.nextEvent == |history| + 1 && |history| + |rest| < U64_MAX - 1
    requires kind == TurnFailed || kind == BranchInterrupted
    requires id !in rest && Markable(d.agents, id, kind)
    requires Ledger(MarkEach(d, rest, StatusAfter(kind), kind), history + MarkEvents(d, rest, kind))
    ensures Ledger(MarkEach(d, rest + [id], StatusAfter(kind), kind), history + MarkEvents(d, rest + [id], kind))
  {
    OneMoreMark(d, rest, id, StatusAfter(kind), kind);
    MarkEventsGrow(d, history, rest, id, kind);
    MarkKeepsLedger(MarkEach(d, rest, StatusAfter(kind), kind), history + MarkEvents(d, rest, kind), id, kind);
  }

  /** Distinct agents that may each take this event. */
  ghost predicate AllMarkable(agents: seq<Agent>, ids: seq<AgentId>, kind: EventKind) {
    && (forall j, k :: 0 <= j < k < |ids| ==> ids[j] != ids[k])
    && forall k :: 0 <= k < |ids| ==> Markable(agents, ids[k], kind)
  }

  lemma AllButLastMarkable(agents: seq<Agent>, ids: seq<AgentId>, kind: EventKind)
    requires ids != [] && AllMarkable(agents, ids, kind)
    ensures var rest, id := ids[..|ids| - 1], ids[|ids| - 1];
            ids == rest + [id] && id !in rest && AllMarkable(agents, rest, kind) && Markable(agents, id, kind)
  {
  }

  lemma NoMarks(d: Document, history: seq<Event>, kind: EventKind)
    ensures MarkEach(d, [], StatusAfter(kind), kind) == d && history + MarkEvents(d, [], kind) == history
  {
  }

  /** Marking a list of distinct agents pushes one event for each. */
  lemma {:induction false} MarksKeepLedger(d: Document, history: seq<Event>, ids: seq<AgentId>, kind: EventKind)
    requires Ledger(d, history) && DistinctIds(d.agents) && |history| + |ids| < U64_MAX - 1
    requires kind == TurnFailed || kind == BranchInterrupted
    requires AllMarkable(d.agents, ids, kind)
    ensures Ledger(MarkEach(d, ids, StatusAfter(kind), kind), history + MarkEvents(d, ids, kind))
  {
    if ids == [] {
      NoMarks(d, history, kind);
    } else {
      AllButLastMarkable(d.agents, ids, kind);
      var rest, id := ids[..|ids| - 1], ids[|ids| - 1];
      MarksKeepLedger(d, history, rest, kind);
      OneMoreMarkKeepsLedger(d, history, rest, id, kind);
    }
  }

  lemma {:induction false} LessIsIrreflexive(a: string)
    ensures !Less(a, a)
  {
    if a != "" {
      LessIsIrreflexive(a[1..]);
    }
  }

  lemma AscendingIsDistinct(ids: seq<AgentId>)
    requires Ascending(ids)
    ensures forall j, k :: 0 <= j < k < |ids| ==> ids[j] != ids[k]
  {
    forall j, k | 0 <= j < k < |ids| ensures ids[j] != ids[k] {
      LessIsIrreflexive(ids[j]);
    }
  }

  lemma {:induction false} RunningIdsAreDistinct(agents: seq<Agent>)
    requires DistinctIds(agents)
    ensures forall j, k :: 0 <= j < k < |RunningIds(agents)| ==> RunningIds(agents)[j] != RunningIds(agents)[k]
    ensures |RunningIds(agents)| <= |agents|
  {
    if agents != [] {
      var n := |agents| - 1;
      RunningIdsAreDistinct(agents[..n]);
      RunningIdsAreRunning(agents[..n]);
      var ids := RunningIds(agents[..n]);
      forall k | 0 <= k < |ids| ensures ids[k] != agents[n].id {
        assert ids[k] in ids;
      }
    }
  }

  lemma {:induction false} DistinctIdsBound(agents: seq<Agent>, ids: seq<AgentId>)
    requires forall j, k :: 0 <= j < k < |ids| ==> ids[j] != ids[k]
    requires forall k :: 0 <= k < |ids| ==> HasAgent(agents, ids[k])
    requires DistinctIds(agents)
    ensures |ids| <= |agents|
  {
    if ids != [] {
      var n := |ids| - 1;
      var i := AgentIndex(agents, ids[n]);
      var fewer := agents[..i] + agents[i + 1..];
      assert forall k :: 0 <= k < |fewer| ==> fewer[k] == if k < i then agents[k] else agents[k + 1];
      forall k | 0 <= k < n ensures HasAgent(fewer, ids[k]) {
        var j := AgentIndex(agents, ids[k]);
        assert fewer[if j < i then j else j - 1] == agents[j];
      }
      DistinctIdsBound(fewer, ids[..n]);
    }
  }

  lemma NewAgentKeepsReplayed(agents: seq<Agent>, statuses: map<AgentId, Status>, a: Agent)
    requires Replayed(agents, statuses) && DistinctIds(agents + [a])
    ensures Replayed(agents + [a], statuses[a.id := a.status])
  {
    var more := agents + [a];
    forall i | 0 <= i < |agents| ensures agents[i].id != a.id {
      assert more[i].id != more[|agents|].id;
    }
    forall id ensures id in Ids(more) <==> id in Ids(agents) || id == a.id {
      if id in Ids(agents) {
        var i :| 0 <= i < |agents| && agents[i].id == id;
        assert more[i].id == id;
      }
      assert more[|agents|].id == a.id;
    }
  }

  lemma SpawnKeepsLedger(d: Document, history: seq<Event>, action: Action, d': Document)
    requires Ledger(d, history) && |history| < U64_MAX - 1
    requires action.Spawn? && Step(d, action, d')
    ensures Ledger(d', history + Pushed(d, action))
  {
    var a := SpawnAppends(d, action, d');
    AppendedKeepsLedger(d, history, a, d');
  }

  lemma SpawnAppends(d: Document, action: Action, d': Document) returns (a: Agent)
    requires action.Spawn? && Step(d, action, d')
    ensures a.id == AgentName(d.nextAgent) && a.status == Pending && a.turnsUsed == 0
    ensures d'.agents == d.agents + [a] && DistinctIds(d'.agents) && d'.totalTurns == d.totalTurns
    ensures d'.nextEvent == SaturatingInc(d.nextEvent, U64_MAX)
    ensures d'.events == LastOf(d.events + [Event(d.nextEvent, a.id, Spawned)], MAX_AGENT_EVENTS)
  {
    a := d'.agents[|d.agents|];
  }

  lemma AppendedKeepsLedger(d: Document, history: seq<Event>, a: Agent, d': Document)
    requires Ledger(d, history) && |history| < U64_MAX - 1
    requires a.status == Pending && a.turnsUsed == 0
    requires d'.agents == d.agents + [a] && DistinctIds(d'.agents) && d'.totalTurns == d.totalTurns
    requires d'.nextEvent == SaturatingInc(d.nextEvent, U64_MAX)
    requires d'.events == LastOf(d.events + [Event(d.nextEvent, a.id, Spawned)], MAX_AGENT_EVENTS)
    ensures Ledger(d', history + [Event(d.nextEvent, a.id, Spawned)])
  {
    assert d'.agents[..|d.agents|] == d.agents;
    HistoryExtends(history, Event(d.nextEvent, a.id, Spawned));
    PushKeepsNumbered(d, history, a.id, Spawned, d');
    NewAgentKeepsReplayed(d.agents, Replay(history), a);
  }

  lemma StartKeepsLedger(d: Document, history: seq<Event>, action: Action, d': Document)
    requires Ledger(d, history) && DistinctIds(d.agents) && |history| < U64_MAX - 1
    requires Turns(d) && d.budget.Valid() && action.Start? && Step(d, action, d')
    ensures Ledger(d', history + Pushed(d, action))
  {
    var i := AgentIndex(d.agents, action.agent);
    ChangeKeepsLedger(d, history, i, d'.agents[i], TurnStarted, d');
  }

  lemma CompleteKeepsLedger(d: Document, history: seq<Event>, action: Action, d': Document)
    requires Ledger(d, history) && DistinctIds(d.agents) && |history| < U64_MAX - 1
    requires action.Complete? && Step(d, action, d')
    ensures Ledger(d', history + Pushed(d, action))
  {
    var i := AgentIndex(d.agents, action.agent);
    ChangeKeepsLedger(d, history, i, d'.agents[i], TurnCompleted, d');
  }

  lemma FailKeepsLedger(d: Document, history: seq<Event>, action: Action, d': Document)
    requires Ledger(d, history) && DistinctIds(d.agents) && |history| < U64_MAX - 2
    requires action.Fail? && Step(d, action, d')
    ensures Ledger(d', history + Pushed(d, action))
  {
    MarksKeepLedger(d, history, [action.agent], TurnFailed);
    assert [action.agent][..0] == [];
    assert MarkEach(d, [action.agent], Failed, TurnFailed) == d';
  }

  lemma InterruptKeepsLedger(d: Document, history: seq<Event>, action: Action, d': Document)
    requires Ledger(d, history) && DistinctIds(d.agents) && |history| + |d.agents| < U64_MAX - 1
    requires action.Interrupt? && Step(d, action, d')
    ensures Ledger(d', history + Pushed(d, action))
  {
    AscendingIsDistinct(action.order);
    forall k | 0 <= k < |action.order| ensures NotYetInterrupted(d.agents, action.order[k]) {
      assert action.order[k] in action.order;
    }
    DistinctIdsBound(d.agents, action.order);
    MarksKeepLedger(d, history, action.order, BranchInterrupted);
  }

  lemma RestartKeepsLedger(d: Document, history: seq<Event>, action: Action, d': Document)
    requires Ledger(d, history) && DistinctIds(d.agents) && |history| + |d.agents| < U64_MAX - 1
    requires action.Restart? && Step(d, action, d')
    ensures Ledger(d', history + Pushed(d, action))
  {
    var ids := RunningIds(d.agents);
    RunningIdsAreDistinct(d.agents);
    RunningIdsAreRunning(d.agents);
    forall k | 0 <= k < |ids| ensures Markable(d.agents, ids[k], TurnFailed) {
      assert ids[k] in ids;
    }
    MarksKeepLedger(d, history, ids, TurnFailed);
  }

  lemma StepKeepsLedger(d: Document, history: seq<Event>, action: Action, d': Document)
    requires Forest(d) && Turns(d) && Ledger(d, history) && Step(d, action, d')
    ensures Ledger(d', history + Pushed(d, action))
  {
    HistoryIsShort(d, history);
    assert |history| <= 160;
    match action
    case Spawn(_, _, _) => SpawnKeepsLedger(d, history, action, d');
    case Start(_, _, _) => StartKeepsLedger(d, history, action, d');
    case Complete(_, _) => CompleteKeepsLedger(d, history, action, d');
    case Fail(_) => FailKeepsLedger(d, history, action, d');
    case Interrupt(_, _, _) => InterruptKeepsLedger(d, history, action, d');
    case Restart(_) => RestartKeepsLedger(d, history, action, d');
  }

  lemma {:induction false} RunsKeepLedger(documents: seq<Document>, actions: seq<Action>, k: nat)
    requires IsRun(documents, actions) && k < |documents|
    ensures Forest(documents[k]) && Turns(documents[k]) && Ledger(documents[k], History(documents, actions, k))
  {
    RunsKeepForest(documents, actions, k);
    if k > 0 {
      RunsKeepLedger(documents, actions, k - 1);
      StepAt(documents, actions, k - 1);
      StepKeepsTurns(documents[k - 1], actions[k - 1], documents[k]);
      StepKeepsLedger(documents[k - 1], History(documents, actions, k - 1), actions[k - 1], documents[k]);
    }
  }

  /** `truncated` of a listing. */
  predicate Truncated(d: Document) {
    d.nextEvent > 0 && d.nextEvent - 1 > |d.events|
  }

  /** Turns are conserved: the total is the sum over the agents, the number of user entries
      in their transcripts and the number of start events; and the agents that are running
      are the starts less the completions, the failures (restart losses included) and the
      interrupts that hit a running agent. */
  lemma TurnsAreConserved(documents: seq<Document>, actions: seq<Action>, k: nat)
    requires IsRun(documents, actions) && k < |documents|
    ensures var d, history := documents[k], History(documents, actions, k);
            && d.totalTurns == SumTurns(d.agents) == SumUsers(d.agents) == Count(history, TurnStarted)
            && (forall i :: 0 <= i < |d.agents| ==> TurnShape(d.agents[i]))
            && CountStatus(d.agents, Running) ==
               Count(history, TurnStarted) - Count(history, TurnCompleted) - Count(history, TurnFailed)
               - CutShort(history)
  {
    RunsKeepLedger(documents, actions, k);
    TurnsAreUserEntries(documents[k].agents);
  }

  /** No reachable document ever drops an event: its history is too short for that, so the
      stored events are the whole history, numbered from 1, and no listing is truncated. */
  lemma NothingIsEverTruncated(documents: seq<Document>, actions: seq<Action>, k: nat)
    requires IsRun(documents, actions) && k < |documents|
    ensures var d, history := documents[k], History(documents, actions, k);
            && |history| <= 2 * |d.agents| + 2 * d.totalTurns <= 160 < MAX_AGENT_EVENTS
            && d.events == history && !Truncated(d)
            && forall i :: 0 <= i < |d.events| ==> d.events[i].sequence == i + 1
  {
    RunsKeepLedger(documents, actions, k);
    HistoryIsShort(documents[k], History(documents, actions, k));
  }

  /** The general rule behind it: a listing says `truncated` exactly when the history is
      longer than what is stored, and what is stored is its tail. */
  lemma TruncatedMeansLongHistory(d: Document, history: seq<Event>)
    requires Ledger(d, history)
    ensures Truncated(d) <==> |history| > MAX_AGENT_EVENTS
    ensures forall i :: 0 <= i < |d.events| ==> d.events[i].sequence == |history| - |d.events| + i + 1
  {
  }
}
