/** The multi-agent coordinator document and the operations on it
    (crates/yunxi-multi-agent/src/store.rs). The store itself, which loads and saves the
    document, is in CoordinatorStore. */
module Coordinator {
  import opened Wrappers

  type StoreResult<T> = Result<T, StoreError>

  datatype StoreError =
    | Protocol
    | WriteNotGranted
    | AuthorityMismatch
    | AuthorityEscalation
    | GrantEscalation
    | AgentNotFound
    | ParentNotFound
    | ParentUnavailable
    | AgentLimitReached
    | DepthLimitReached
    | AgentTurnLimitReached
    | TotalTurnLimitReached
    | TranscriptLimitReached
    | AlreadyRunning
    | NotRunning
    | IsInterrupted
    | InvalidDocument
    | Io

  type AgentId = string
  type Grant = string

  const ROOT: AgentId := "root"
  const MAX_AGENT_COUNT: nat := 16
  const MAX_AGENT_DEPTH: nat := 4
  const MAX_AGENT_TURNS_PER_AGENT: nat := 16
  const MAX_AGENT_TOTAL_TURNS: nat := 64
  const MAX_AGENT_EVENTS: nat := 256
  const MAX_AGENT_TRANSCRIPT_ENTRIES: nat := 64
  const U16_MAX: nat := 65535
  const U64_MAX: nat := 0xFFFF_FFFF_FFFF_FFFF

  function SaturatingInc(n: nat, maximum: nat): nat {
    if n < maximum then n + 1 else maximum
  }

  datatype Status = Pending | Running | Completed | Failed | Interrupted

  datatype EventKind = Spawned | TurnStarted | TurnCompleted | TurnFailed | BranchInterrupted

  datatype Entry = User(content: string) | Assistant(content: string)

  datatype Event = Event(sequence: nat, agent: AgentId, kind: EventKind)

  datatype Agent = Agent(id: AgentId, parent: AgentId, depth: nat, status: Status, turnsUsed: nat,
                         grants: seq<Grant>, transcript: seq<Entry>)

  datatype Budget = Budget(maxAgents: nat, maxDepth: nat, maxTurnsPerAgent: nat, maxTotalTurns: nat) {
    predicate Valid() {
      && 0 < maxAgents <= MAX_AGENT_COUNT
      && 0 < maxDepth <= MAX_AGENT_DEPTH
      && 0 < maxTurnsPerAgent <= MAX_AGENT_TURNS_PER_AGENT
      && 0 < maxTotalTurns <= MAX_AGENT_TOTAL_TURNS
    }

    predicate Contains(requested: Budget) {
      && requested.maxAgents <= maxAgents
      && requested.maxDepth <= maxDepth
      && requested.maxTurnsPerAgent <= maxTurnsPerAgent
      && requested.maxTotalTurns <= maxTotalTurns
    }
  }

  datatype Authority = Authority(session: string, workspace: string, budget: Budget, allowed: seq<Grant>)

  datatype Document = Document(session: string, instance: string, budget: Budget, allowed: seq<Grant>,
                               totalTurns: nat, nextAgent: nat, nextEvent: nat,
                               agents: seq<Agent>, events: seq<Event>)

  predicate Within(grants: seq<Grant>, outer: seq<Grant>) {
    forall g :: g in grants ==> g in outer
  }

  function NewDocument(authority: Authority, instance: string): Document {
    Document(authority.session, instance, authority.budget, authority.allowed, 0, 1, 1, [], [])
  }

  // ------------------------------------------------------------------
  // Validation and lookup
  // ------------------------------------------------------------------

  predicate DistinctIds(agents: seq<Agent>) {
    forall i, j :: 0 <= i < j < |agents| ==> agents[i].id != agents[j].id
  }

  predicate HasAgent(agents: seq<Agent>, id: AgentId) {
    exists i :: 0 <= i < |agents| && agents[i].id == id
  }

  predicate ValidAgent(a: Agent) {
    0 < a.depth <= MAX_AGENT_DEPTH && a.turnsUsed <= MAX_AGENT_TURNS_PER_AGENT
    && |a.transcript| <= MAX_AGENT_TRANSCRIPT_ENTRIES
  }

  /** `SessionDocument::validate`: it looks at parents one by one and rules out no cycle. */
  predicate ValidDocument(d: Document) {
    && d.budget.Valid()
    && d.nextAgent > 0 && d.nextEvent > 0
    && |d.agents| <= MAX_AGENT_COUNT && |d.events| <= MAX_AGENT_EVENTS
    && (forall i :: 0 <= i < |d.agents| ==> ValidAgent(d.agents[i]))
    && DistinctIds(d.agents)
    && (forall i :: 0 <= i < |d.agents| ==>
          d.agents[i].parent == ROOT || HasAgent(d.agents, d.agents[i].parent))
  }

  /** `agent_index`: the first position with this id, or the length when there is none. */
  function AgentIndex(agents: seq<Agent>, id: AgentId): (i: nat)
    ensures i <= |agents|
    ensures i < |agents| ==> agents[i].id == id
    ensures i == |agents| <==> !HasAgent(agents, id)
    ensures forall j :: 0 <= j < i ==> agents[j].id != id
  {
    if agents == [] then 0
    else if agents[0].id == id then assert HasAgent(agents, id); 0
    else
      var k := AgentIndex(agents[1..], id);
      assert forall j :: 1 <= j < |agents| ==> agents[j] == agents[1..][j - 1];
      k + 1
  }

  // ------------------------------------------------------------------
  // Operations on a loaded document
  // ------------------------------------------------------------------

  /** The last `n` elements, or all of them. */
  function LastOf<T>(s: seq<T>, n: nat): seq<T> {
    if |s| <= n then s else s[|s| - n..]
  }

  function PushEvent(d: Document, agent: AgentId, kind: EventKind): Document {
    d.(nextEvent := SaturatingInc(d.nextEvent, U64_MAX),
       events := LastOf(d.events + [Event(d.nextEvent, agent, kind)], MAX_AGENT_EVENTS))
  }

  function Digits(n: nat): string {
    if n < 10 then ["0123456789"[n]] else Digits(n / 10) + ["0123456789"[n % 10]]
  }

  function AgentName(sequence: nat): AgentId {
    "agent-" + Digits(sequence)
  }

  function SpawnOn(d: Document, authority: Authority, parent: AgentId, grants: seq<Grant>): StoreResult<Document> {
    if |d.agents| >= authority.budget.maxAgents then Err(AgentLimitReached)
    else
      var p := AgentIndex(d.agents, parent);
      if parent != ROOT && p == |d.agents| then Err(ParentNotFound)
      else if parent != ROOT && d.agents[p].status == Interrupted then Err(ParentUnavailable)
      else
        var parentGrants := if parent == ROOT then authority.allowed else d.agents[p].grants;
        var parentDepth := if parent == ROOT then 0 else d.agents[p].depth;
        var depth := SaturatingInc(parentDepth, U16_MAX);
        if !Within(grants, parentGrants) then Err(GrantEscalation)
        else if depth > authority.budget.maxDepth then Err(DepthLimitReached)
        else
          var id := AgentName(d.nextAgent);
          var pushed := PushEvent(d.(nextAgent := SaturatingInc(d.nextAgent, U64_MAX)), id, Spawned);
          Ok(pushed.(agents := d.agents + [Agent(id, parent, depth, Pending, 0, grants, [])]))
  }

  function StartOn(d: Document, authority: Authority, agent: AgentId, message: string): StoreResult<Document> {
    var i := AgentIndex(d.agents, agent);
    if d.totalTurns >= authority.budget.maxTotalTurns then Err(TotalTurnLimitReached)
    else if i == |d.agents| then Err(AgentNotFound)
    else
      var a := d.agents[i];
      if a.status == Running then Err(AlreadyRunning)
      else if a.status == Interrupted then Err(IsInterrupted)
      else if a.turnsUsed >= authority.budget.maxTurnsPerAgent then Err(AgentTurnLimitReached)
      else if |a.transcript| >= MAX_AGENT_TRANSCRIPT_ENTRIES then Err(TranscriptLimitReached)
      else
        var started := a.(transcript := a.transcript + [User(message)],
                          turnsUsed := SaturatingInc(a.turnsUsed, U16_MAX), status := Running);
        Ok(PushEvent(d.(agents := d.agents[i := started], totalTurns := SaturatingInc(d.totalTurns, U16_MAX)),
                     agent, TurnStarted))
  }

  function CompleteOn(d: Document, agent: AgentId, reply: string): StoreResult<Document> {
    var i := AgentIndex(d.agents, agent);
    if i == |d.agents| then Err(AgentNotFound)
    else
      var a := d.agents[i];
      if a.status != Running then Err(NotRunning)
      else if |a.transcript| >= MAX_AGENT_TRANSCRIPT_ENTRIES then Err(TranscriptLimitReached)
      else
        var completed := a.(transcript := a.transcript + [Assistant(reply)], status := Completed);
        Ok(PushEvent(d.(agents := d.agents[i := completed]), agent, TurnCompleted))
  }

  /** `detailFits` says whether the joined failure text is a valid event detail. */
  function FailOn(d: Document, agent: AgentId, detailFits: bool): StoreResult<Document> {
    var i := AgentIndex(d.agents, agent);
    if i == |d.agents| then Err(AgentNotFound)
    else if d.agents[i].status != Running then Err(NotRunning)
    else if !detailFits then Err(Protocol)
    else Ok(Mark(d, agent, Failed, TurnFailed))
  }

  /** Sets the status of one agent and pushes one event about it. */
  function Mark(d: Document, agent: AgentId, status: Status, kind: EventKind): Document {
    var i := AgentIndex(d.agents, agent);
    if i == |d.agents| then d
    else PushEvent(d.(agents := d.agents[i := d.agents[i].(status := status)]), agent, kind)
  }

  function MarkEach(d: Document, ids: seq<AgentId>, status: Status, kind: EventKind): Document {
    if ids == [] then d
    else Mark(MarkEach(d, ids[..|ids| - 1], status, kind), ids[|ids| - 1], status, kind)
  }

  function RunningIds(agents: seq<Agent>): seq<AgentId> {
    if agents == [] then []
    else RunningIds(agents[..|agents| - 1])
         + (if agents[|agents| - 1].status == Running then [agents[|agents| - 1].id] else [])
  }

  /** What a store of another instance makes of a loaded document: the turns that were
      running are lost. */
  function RecoverOn(d: Document, instance: string): Document {
    MarkEach(d, RunningIds(d.agents), Failed, TurnFailed).(instance := instance)
  }

  // ------------------------------------------------------------------
  // Branches
  // ------------------------------------------------------------------

  ghost predicate IsChild(agents: seq<Agent>, parent: AgentId, child: AgentId) {
    exists i :: 0 <= i < |agents| && agents[i].id == child && agents[i].parent == parent
  }

  ghost predicate IsChain(agents: seq<Agent>, path: seq<AgentId>) {
    forall k :: 0 < k < |path| ==> IsChild(agents, path[k - 1], path[k])
  }

  ghost predicate PathFromTo(agents: seq<Agent>, path: seq<AgentId>, top: AgentId, id: AgentId) {
    path != [] && path[0] == top && path[|path| - 1] == id && IsChain(agents, path)
  }

  /** `id` is `top` or is reached from it by child links. */
  ghost predicate InBranch(agents: seq<Agent>, top: AgentId, id: AgentId) {
    exists path :: PathFromTo(agents, path, top, id)
  }

  lemma BranchHasTop(agents: seq<Agent>, top: AgentId)
    ensures InBranch(agents, top, top)
  {
    assert PathFromTo(agents, [top], top, top);
  }

  lemma BranchGrows(agents: seq<Agent>, top: AgentId, id: AgentId, child: AgentId)
    requires InBranch(agents, top, id) && IsChild(agents, id, child)
    ensures InBranch(agents, top, child)
  {
    var path :| PathFromTo(agents, path, top, id);
    assert PathFromTo(agents, path + [child], top, child);
  }

  ghost predicate ChildClosed(agents: seq<Agent>, ids: set<AgentId>) {
    forall i :: 0 <= i < |agents| && agents[i].parent in ids ==> agents[i].id in ids
  }

  /** A set with the top that is closed under children holds the whole branch, cycle or not. */
  lemma {:induction false} ClosedSetHoldsPath(agents: seq<Agent>, path: seq<AgentId>, top: AgentId, id: AgentId,
                                              ids: set<AgentId>)
    requires PathFromTo(agents, path, top, id) && top in ids && ChildClosed(agents, ids)
    ensures id in ids
  {
    if |path| > 1 {
      var shorter := path[..|path| - 1];
      assert IsChild(agents, path[|path| - 2], path[|path| - 1]);
      assert PathFromTo(agents, shorter, top, path[|path| - 2]);
      ClosedSetHoldsPath(agents, shorter, top, path[|path| - 2], ids);
    }
  }

  lemma ClosedSetHoldsBranch(agents: seq<Agent>, top: AgentId, ids: set<AgentId>)
    requires top in ids && ChildClosed(agents, ids)
    ensures forall id :: InBranch(agents, top, id) ==> id in ids
  {
    forall id | InBranch(agents, top, id) ensures id in ids {
      var path :| PathFromTo(agents, path, top, id);
      ClosedSetHoldsPath(agents, path, top, id, ids);
    }
  }

  function Ids(agents: seq<Agent>): set<AgentId> {
    set i | 0 <= i < |agents| :: agents[i].id
  }

  /** The queue walk of a recursive interrupt. It ends on any document, even one whose
      parent links form a cycle, with exactly the branch of the target. */
  method CollectBranch(agents: seq<Agent>, target: AgentId) returns (targets: set<AgentId>)
    requires HasAgent(agents, target)
    ensures targets <= Ids(agents)
    ensures forall id :: id in targets <==> InBranch(agents, target, id)
  {
    targets := {target};
    var queue := [target];
    BranchHasTop(agents, target);
    while queue != []
      invariant target in targets && targets <= Ids(agents)
      invariant forall id :: id in targets ==> InBranch(agents, target, id)
      invariant forall id :: id in queue ==> id in targets
      invariant forall i :: 0 <= i < |agents| && agents[i].parent in targets && agents[i].parent !in queue ==>
                              agents[i].id in targets
      decreases Ids(agents) - targets, |queue|
    {
      var parent := queue[0];
      queue := queue[1..];
      ghost var before, rest := targets, queue;
      for i := 0 to |agents|
        invariant target in targets && targets <= Ids(agents) && parent in targets
        invariant forall id :: id in targets ==> InBranch(agents, target, id)
        invariant forall id :: id in queue ==> id in targets
        invariant forall k :: 0 <= k < |agents| && agents[k].parent in targets
                              && agents[k].parent !in queue && (agents[k].parent != parent || k < i) ==>
                                agents[k].id in targets
        invariant before <= targets && (targets == before ==> queue == rest)
      {
        if agents[i].parent == parent && agents[i].id !in targets {
          assert IsChild(agents, parent, agents[i].id);
          BranchGrows(agents, target, parent, agents[i].id);
          targets := targets + {agents[i].id};
          queue := queue + [agents[i].id];
        }
      }
    }
    assert ChildClosed(agents, targets);
    ClosedSetHoldsBranch(agents, target, targets);
  }

  // ------------------------------------------------------------------
  // Marking several agents
  // ------------------------------------------------------------------

  lemma MarkAgents(d: Document, id: AgentId, status: Status, kind: EventKind)
    requires DistinctIds(d.agents)
    ensures var after := Mark(d, id, status, kind).agents;
            && |after| == |d.agents|
            && (forall i :: 0 <= i < |d.agents| ==>
                  after[i] == if d.agents[i].id == id then d.agents[i].(status := status) else d.agents[i])
            && DistinctIds(after)
  {
    var k := AgentIndex(d.agents, id);
    var after := Mark(d, id, status, kind).agents;
    forall i | 0 <= i < |d.agents|
      ensures after[i] == if d.agents[i].id == id then d.agents[i].(status := status) else d.agents[i]
    {
    }
    forall i, j | 0 <= i < j < |after| ensures after[i].id != after[j].id {
      assert d.agents[i].id != d.agents[j].id;
    }
  }

  /** Marking a list of agents changes the status of exactly those agents and nothing else
      about any agent. */
  lemma {:induction false} MarkEachAgents(d: Document, ids: seq<AgentId>, status: Status, kind: EventKind)
    requires DistinctIds(d.agents)
    ensures var after := MarkEach(d, ids, status, kind).agents;
            && |after| == |d.agents|
            && forall i :: 0 <= i < |d.agents| ==>
                 after[i] == if d.agents[i].id in ids then d.agents[i].(status := status) else d.agents[i]
    ensures DistinctIds(MarkEach(d, ids, status, kind).agents)
  {
    if ids != [] {
      var rest, id := ids[..|ids| - 1], ids[|ids| - 1];
      assert ids == rest + [id];
      MarkEachAgents(d, rest, status, kind);
      var middle := MarkEach(d, rest, status, kind);
      MarkAgents(middle, id, status, kind);
      forall i | 0 <= i < |d.agents|
        ensures MarkEach(d, ids, status, kind).agents[i] ==
                if d.agents[i].id in ids then d.agents[i].(status := status) else d.agents[i]
      {
        assert middle.agents[i].id == d.agents[i].id;
      }
    }
  }

  /** Marking leaves everything but agents and events alone. */
  lemma {:induction false} MarkEachFrame(d: Document, ids: seq<AgentId>, status: Status, kind: EventKind)
    ensures var after := MarkEach(d, ids, status, kind);
            && after.session == d.session && after.instance == d.instance && after.budget == d.budget
            && after.allowed == d.allowed && after.totalTurns == d.totalTurns && after.nextAgent == d.nextAgent
  {
    if ids != [] {
      MarkEachFrame(d, ids[..|ids| - 1], status, kind);
    }
  }

  /** String order, as the targets of an interrupt are kept in an ordered set. */
  predicate Less(a: string, b: string) {
    b != "" && (a == "" || a[0] < b[0] || (a[0] == b[0] && Less(a[1..], b[1..])))
  }

  lemma {:induction false} LessIsTotal(a: string, b: string)
    ensures a == b || Less(a, b) || Less(b, a)
  {
    if a != "" && b != "" && a[0] == b[0] {
      LessIsTotal(a[1..], b[1..]);
      assert a == [a[0]] + a[1..] && b == [b[0]] + b[1..];
    }
  }

  lemma {:induction false} LessIsTransitive(a: string, b: string, c: string)
    requires Less(a, b) && Less(b, c)
    ensures Less(a, c)
  {
    if a != "" && a[0] == b[0] && b[0] == c[0] {
      LessIsTransitive(a[1..], b[1..], c[1..]);
    }
  }

  lemma {:induction false} LeastExists(ids: set<AgentId>) returns (least: AgentId)
    requires ids != {}
    ensures least in ids && forall id :: id in ids && id != least ==> Less(least, id)
  {
    least :| least in ids;
    if ids != {least} {
      var next := LeastExists(ids - {least});
      LessIsTotal(least, next);
      if Less(next, least) {
        least := next;
      } else {
        forall id | id in ids && id != least ensures Less(least, id) {
          if id != next {
            LessIsTransitive(least, next, id);
          }
        }
      }
    }
  }

  ghost predicate Ascending(ids: seq<AgentId>) {
    forall j, k :: 0 <= j < k < |ids| ==> Less(ids[j], ids[k])
  }

  predicate NotYetInterrupted(agents: seq<Agent>, id: AgentId) {
    var i := AgentIndex(agents, id);
    i < |agents| && agents[i].status != Interrupted
  }

  /** What an interrupt of `target` marks, in order: the agents of the branch (or the target
      alone) that are not interrupted yet. */
  ghost predicate InterruptOrder(agents: seq<Agent>, target: AgentId, recursive: bool, order: seq<AgentId>) {
    && Ascending(order)
    && forall id :: id in order <==>
         NotYetInterrupted(agents, id) && (id == target || (recursive && InBranch(agents, target, id)))
  }

  method TakeLeast(ids: set<AgentId>) returns (least: AgentId)
    requires ids != {}
    ensures least in ids && forall id :: id in ids && id != least ==> Less(least, id)
  {
    ghost var _ := LeastExists(ids);
    least :| least in ids && forall id :: id in ids && id != least ==> Less(least, id);
  }

  lemma UnmarkedIsAsBefore(d: Document, order: seq<AgentId>, id: AgentId)
    requires DistinctIds(d.agents) && id !in order && id in Ids(d.agents)
    ensures var after := MarkEach(d, order, Interrupted, BranchInterrupted).agents;
            var i := AgentIndex(after, id);
            && i < |after| && i == AgentIndex(d.agents, id) && after[i] == d.agents[i]
  {
    var after := MarkEach(d, order, Interrupted, BranchInterrupted).agents;
    MarkEachAgents(d, order, Interrupted, BranchInterrupted);
    var i := AgentIndex(d.agents, id);
    assert i < |d.agents| by { var k :| 0 <= k < |d.agents| && d.agents[k].id == id; }
    assert after[i].id == id;
  }

  method MarkTargets(d: Document, targets: set<AgentId>) returns (r: Document, order: seq<AgentId>)
    requires DistinctIds(d.agents) && targets <= Ids(d.agents)
    ensures r == MarkEach(d, order, Interrupted, BranchInterrupted)
    ensures Ascending(order)
    ensures forall id :: id in order <==> NotYetInterrupted(d.agents, id) && id in targets
  {
    r, order := d, [];
    var remaining := targets;
    while remaining != {}
      invariant remaining <= targets
      invariant r == MarkEach(d, order, Interrupted, BranchInterrupted)
      invariant Ascending(order)
      invariant forall id, later :: id in order && later in remaining ==> Less(id, later)
      invariant forall id :: id in order <==> NotYetInterrupted(d.agents, id) && id in targets && id !in remaining
      decreases remaining
    {
      var id := TakeLeast(remaining);
      UnmarkedIsAsBefore(d, order, id);
      remaining := remaining - {id};
      var i := AgentIndex(r.agents, id);
      if r.agents[i].status != Interrupted {
        r := PushEvent(r.(agents := r.agents[i := r.agents[i].(status := Interrupted)]), id, BranchInterrupted);
        assert (order + [id])[..|order|] == order;
        order := order + [id];
      }
    }
  }

  /** Every agent of the branch ends interrupted, and no other agent changes. */
  lemma InterruptMarksBranch(d: Document, target: AgentId, recursive: bool, order: seq<AgentId>)
    requires DistinctIds(d.agents) && InterruptOrder(d.agents, target, recursive, order)
    ensures var after := MarkEach(d, order, Interrupted, BranchInterrupted).agents;
            && |after| == |d.agents|
            && forall i :: 0 <= i < |d.agents| ==>
                 after[i] == if d.agents[i].id == target || (recursive && InBranch(d.agents, target, d.agents[i].id))
                             then d.agents[i].(status := Interrupted) else d.agents[i]
  {
    MarkEachAgents(d, order, Interrupted, BranchInterrupted);
    forall i | 0 <= i < |d.agents| ensures AgentIndex(d.agents, d.agents[i].id) == i {
      var j := AgentIndex(d.agents, d.agents[i].id);
      assert HasAgent(d.agents, d.agents[i].id);
    }
  }

  /** `interrupt`: exactly the branch that is not interrupted yet, one event each. */
  method InterruptOn(d: Document, target: AgentId, recursive: bool)
    returns (r: StoreResult<Document>, order: seq<AgentId>)
    requires DistinctIds(d.agents)
    ensures HasAgent(d.agents, target) ==>
              r == Ok(MarkEach(d, order, Interrupted, BranchInterrupted))
              && InterruptOrder(d.agents, target, recursive, order)
    ensures !HasAgent(d.agents, target) ==> r == Err(AgentNotFound)
  {
    order := [];
    if AgentIndex(d.agents, target) == |d.agents| {
      return Err(AgentNotFound), [];
    }
    var targets := {target};
    if recursive {
      targets := CollectBranch(d.agents, target);
      BranchHasTop(d.agents, target);
    }
    var marked;
    marked, order := MarkTargets(d, targets);
    r := Ok(marked);
  }

  lemma {:induction false} RunningIdsAreRunning(agents: seq<Agent>)
    ensures forall id :: id in RunningIds(agents) <==>
              exists i :: 0 <= i < |agents| && agents[i].id == id && agents[i].status == Running
  {
    if agents != [] {
      var rest := agents[..|agents| - 1];
      RunningIdsAreRunning(rest);
      assert forall i :: 0 <= i < |rest| ==> agents[i] == rest[i];
    }
  }

  /** The restart loop of `load_or_new`: first the running ids, then one mark each. */
  method RecoverDocument(d: Document, instance: string) returns (r: Document)
    requires DistinctIds(d.agents)
    ensures r == RecoverOn(d, instance)
  {
    var running: seq<AgentId> := [];
    for i := 0 to |d.agents|
      invariant running == RunningIds(d.agents[..i])
    {
      assert d.agents[..i + 1][..i] == d.agents[..i];
      if d.agents[i].status == Running {
        running := running + [d.agents[i].id];
      }
    }
    assert d.agents[..|d.agents|] == d.agents;
    RunningIdsAreRunning(d.agents);
    r := d;
    for k := 0 to |running|
      invariant r == MarkEach(d, running[..k], Failed, TurnFailed)
    {
      MarkEachAgents(d, running[..k], Failed, TurnFailed);
      assert running[k] in RunningIds(d.agents);
      var i := AgentIndex(r.agents, running[k]);
      assert HasAgent(r.agents, running[k]);
      r := PushEvent(r.(agents := r.agents[i := r.agents[i].(status := Failed)]), running[k], TurnFailed);
      assert running[..k + 1][..k] == running[..k];
    }
    assert running[..|running|] == running;
    r := r.(instance := instance);
  }
}
