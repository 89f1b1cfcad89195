/** What holds in every document that a run of the coordinator can reach. */
module CoordinatorRuns {
  import opened Wrappers
  import opened Coordinator

  /** One successful change of a stored document. */
  datatype Action =
    | Spawn(authority: Authority, parent: AgentId, grants: seq<Grant>)
    | Start(authority: Authority, agent: AgentId, message: string)
    | Complete(agent: AgentId, reply: string)
    | Fail(agent: AgentId)
    | Interrupt(target: AgentId, recursive: bool, order: seq<AgentId>)
    | Restart(instance: string)

  /** The check of `load_or_new`: a store may hold less authority than the document, not more. */
  predicate Admits(d: Document, authority: Authority) {
    authority.session == d.session && d.budget.Contains(authority.budget) && Within(authority.allowed, d.allowed)
  }

  /** A step is an operation that succeeded and whose result passed the validation in `save`. */
  ghost predicate Step(d: Document, action: Action, d': Document) {
    ValidDocument(d') && Succeeds(d, action, d')
  }

  ghost predicate Succeeds(d: Document, action: Action, d': Document) {
    match action
    case Spawn(authority, parent, grants) => Admits(d, authority) && SpawnOn(d, authority, parent, grants) == Ok(d')
    case Start(authority, agent, message) => Admits(d, authority) && StartOn(d, authority, agent, message) == Ok(d')
    case Complete(agent, reply) => CompleteOn(d, agent, reply) == Ok(d')
    case Fail(agent) => FailOn(d, agent, true) == Ok(d')
    case Interrupt(target, recursive, order) =>
      && HasAgent(d.agents, target) && InterruptOrder(d.agents, target, recursive, order)
      && d' == MarkEach(d, order, Interrupted, BranchInterrupted)
    case Restart(instance) => d' == RecoverOn(d, instance)
  }

  /** The events that a step pushes, before any of them is dropped from the bounded list. */
  function MarkEvents(d: Document, ids: seq<AgentId>, kind: EventKind): seq<Event> {
    seq(|ids|, k requires 0 <= k < |ids| => Event(d.nextEvent + k, ids[k], kind))
  }

  function Pushed(d: Document, action: Action): seq<Event> {
    match action
    case Spawn(_, _, _) => [Event(d.nextEvent, AgentName(d.nextAgent), Spawned)]
    case Start(_, agent, _) => [Event(d.nextEvent, agent, TurnStarted)]
    case Complete(agent, _) => [Event(d.nextEvent, agent, TurnCompleted)]
    case Fail(agent) => MarkEvents(d, [agent], TurnFailed)
    case Interrupt(_, _, order) => MarkEvents(d, order, BranchInterrupted)
    case Restart(_) => MarkEvents(d, RunningIds(d.agents), TurnFailed)
  }

  /** A run from a new document: its documents, and the step that led to each. */
  ghost predicate IsRun(documents: seq<Document>, actions: seq<Action>) {
    && |documents| == |actions| + 1
    && (exists authority: Authority, instance ::
          authority.budget.Valid() && documents[0] == NewDocument(authority, instance))
    && forall k :: 0 <= k < |actions| ==> Step(documents[k], actions[k], documents[k + 1])
  }

  /** Every event pushed on the way to document k, kept or dropped. */
  ghost function History(documents: seq<Document>, actions: seq<Action>, k: nat): seq<Event>
    requires k <= |actions| < |documents|
  {
    if k == 0 then [] else History(documents, actions, k - 1) + Pushed(documents[k - 1], actions[k - 1])
  }

  // ------------------------------------------------------------------
  // The agent forest
  // ------------------------------------------------------------------

  /** Agent i hangs off the root, or off an agent that was stored before it. */
  ghost predicate Attached(d: Document, i: nat)
    requires i < |d.agents|
  {
    var a := d.agents[i];
    if a.parent == ROOT then a.depth == 1 && Within(a.grants, d.allowed)
    else exists j :: 0 <= j < i && d.agents[j].id == a.parent
                     && a.depth == d.agents[j].depth + 1 && Within(a.grants, d.agents[j].grants)
  }

  ghost predicate Forest(d: Document) {
    && d.budget.Valid() && DistinctIds(d.agents)
    && |d.agents| <= d.budget.maxAgents
    && forall i :: 0 <= i < |d.agents| ==>
         d.agents[i].id != ROOT && d.agents[i].depth <= d.budget.maxDepth && Attached(d, i)
  }

  lemma ParentComesFirst(d: Document, i: nat)
    requires Forest(d) && i < |d.agents| && d.agents[i].parent != ROOT
    ensures var j := AgentIndex(d.agents, d.agents[i].parent);
            && j < i && d.agents[i].depth == d.agents[j].depth + 1
            && Within(d.agents[i].grants, d.agents[j].grants)
  {
    assert Attached(d, i);
    var a := d.agents[i];
    var j :| 0 <= j < i && d.agents[j].id == a.parent
             && a.depth == d.agents[j].depth + 1 && Within(a.grants, d.agents[j].grants);
    IndexOfAgent(d.agents, j);
  }

  lemma IndexOfAgent(agents: seq<Agent>, j: nat)
    requires DistinctIds(agents) && j < |agents|
    ensures AgentIndex(agents, agents[j].id) == j
  {
    assert HasAgent(agents, agents[j].id);
    assert agents[AgentIndex(agents, agents[j].id)].id == agents[j].id;
  }

  /** The number of links from agent i up to the root. */
  ghost function Distance(d: Document, i: nat): nat
    requires Forest(d) && i < |d.agents|
    decreases i
  {
    if d.agents[i].parent == ROOT then 1
    else
      ParentComesFirst(d, i);
      1 + Distance(d, AgentIndex(d.agents, d.agents[i].parent))
  }

  /** The stored depth is the distance from the root, and within the stored budget. */
  lemma {:induction false} DepthIsDistance(d: Document, i: nat)
    requires Forest(d) && i < |d.agents|
    ensures d.agents[i].depth == Distance(d, i) <= d.budget.maxDepth
  {
    if d.agents[i].parent == ROOT {
      assert Attached(d, i);
    } else {
      ParentComesFirst(d, i);
      DepthIsDistance(d, AgentIndex(d.agents, d.agents[i].parent));
    }
  }

  /** No agent holds a grant that the document does not allow. */
  lemma {:induction false} GrantsAreAllowed(d: Document, i: nat)
    requires Forest(d) && i < |d.agents|
    ensures Within(d.agents[i].grants, d.allowed)
  {
    if d.agents[i].parent == ROOT {
      assert Attached(d, i);
    } else {
      ParentComesFirst(d, i);
      GrantsAreAllowed(d, AgentIndex(d.agents, d.agents[i].parent));
    }
  }

  /** A branch only leads to later agents, so it never comes back to its top: no cycles. */
  lemma {:induction false} ChildrenComeLater(d: Document, path: seq<AgentId>, top: nat, id: nat)
    requires Forest(d) && top < |d.agents| && id < |d.agents|
    requires PathFromTo(d.agents, path, d.agents[top].id, d.agents[id].id) && |path| > 1
    ensures top < id
  {
    var shorter := path[..|path| - 1];
    assert IsChild(d.agents, path[|path| - 2], path[|path| - 1]);
    assert d.agents[id].parent == path[|path| - 2];
    if |shorter| == 1 {
      assert Attached(d, id);
    } else {
      assert IsChild(d.agents, path[|path| - 3], path[|path| - 2]);
      var j :| 0 <= j < |d.agents| && d.agents[j].id == path[|path| - 2];
      assert PathFromTo(d.agents, shorter, d.agents[top].id, d.agents[j].id);
      ChildrenComeLater(d, shorter, top, j);
      assert Attached(d, id);
    }
  }

  /** Two documents with the same agents up to status, transcript and turn count. */
  ghost predicate SameShape(d: Document, d': Document) {
    && d'.budget == d.budget && d'.allowed == d.allowed && |d'.agents| == |d.agents|
    && forall i :: 0 <= i < |d.agents| ==>
         && d'.agents[i].id == d.agents[i].id && d'.agents[i].parent == d.agents[i].parent
         && d'.agents[i].depth == d.agents[i].depth && d'.agents[i].grants == d.agents[i].grants
  }

  lemma SameShapeKeepsForest(d: Document, d': Document)
    requires Forest(d) && SameShape(d, d')
    ensures Forest(d')
  {
    forall i | 0 <= i < |d.agents| ensures Attached(d', i) {
      assert Attached(d, i);
    }
  }

  lemma SpawnKeepsForest(d: Document, authority: Authority, parent: AgentId, grants: seq<Grant>, d': Document)
    requires Forest(d) && Step(d, Spawn(authority, parent, grants), d')
    ensures Forest(d')
  {
    var n := |d.agents|;
    assert d'.agents == d.agents + [d'.agents[n]];
    forall i | 0 <= i < |d'.agents|
      ensures d'.agents[i].id != ROOT && d'.agents[i].depth <= d.budget.maxDepth && Attached(d', i)
    {
      if i < n {
        assert d'.agents[i] == d.agents[i] && Attached(d, i);
        if d.agents[i].parent != ROOT {
          var j :| 0 <= j < i && d.agents[j].id == d.agents[i].parent
                   && d.agents[i].depth == d.agents[j].depth + 1 && Within(d.agents[i].grants, d.agents[j].grants);
          assert d'.agents[j] == d.agents[j];
        }
      } else {
        assert d'.agents[n].id[0] == 'a' && ROOT[0] == 'r';
        if parent != ROOT {
          var p := AgentIndex(d.agents, parent);
          assert d'.agents[p] == d.agents[p];
        }
      }
    }
  }

  /** Starting, completing and failing a turn touch one agent, and not its links. */
  lemma TurnKeepsShape(d: Document, action: Action, d': Document)
    requires action.Start? || action.Complete? || action.Fail?
    requires DistinctIds(d.agents) && Succeeds(d, action, d')
    ensures SameShape(d, d') && d'.nextAgent == d.nextAgent
  {
    if action.Fail? {
      MarkAgents(d, action.agent, Failed, TurnFailed);
    }
  }

  lemma MarkEachKeepsShape(d: Document, ids: seq<AgentId>, status: Status, kind: EventKind)
    requires DistinctIds(d.agents)
    ensures SameShape(d, MarkEach(d, ids, status, kind))
  {
    MarkEachAgents(d, ids, status, kind);
    MarkEachFrame(d, ids, status, kind);
  }

  lemma StepKeepsForest(d: Document, action: Action, d': Document)
    requires Forest(d) && Step(d, action, d')
    ensures Forest(d')
  {
    if action.Spawn? {
      SpawnKeepsForest(d, action.authority, action.parent, action.grants, d');
    } else {
      if action.Interrupt? {
        MarkEachKeepsShape(d, action.order, Interrupted, BranchInterrupted);
      } else if action.Restart? {
        MarkEachKeepsShape(d, RunningIds(d.agents), Failed, TurnFailed);
      } else {
        TurnKeepsShape(d, action, d');
      }
      SameShapeKeepsForest(d, d');
    }
  }

  lemma StepAt(documents: seq<Document>, actions: seq<Action>, k: nat)
    requires IsRun(documents, actions) && k < |actions|
    ensures Step(documents[k], actions[k], documents[k + 1])
  {
  }

  /** Every reachable document is a forest whose parents precede their children. */
  lemma {:induction false} RunsKeepForest(documents: seq<Document>, actions: seq<Action>, k: nat)
    requires IsRun(documents, actions) && k < |documents|
    ensures Forest(documents[k])
  {
    if k > 0 {
      RunsKeepForest(documents, actions, k - 1);
      StepKeepsForest(documents[k - 1], actions[k - 1], documents[k]);
    }
  }

  // ------------------------------------------------------------------
  // An interrupted branch stays as it is
  // ------------------------------------------------------------------

  /** Every agent of `branch` is interrupted, and no agent outside hangs off it. */
  ghost predicate Sealed(d: Document, branch: set<AgentId>) {
    && ROOT !in branch
    && branch <= Ids(d.agents)
    && ChildClosed(d.agents, branch)
    && forall i :: 0 <= i < |d.agents| && d.agents[i].id in branch ==> d.agents[i].status == Interrupted
  }

  /** Agents keep their place; those of `branch` keep their whole record, and none joins. */
  ghost predicate KeepsBranch(d: Document, d': Document, branch: set<AgentId>) {
    && |d.agents| <= |d'.agents|
    && (forall i :: 0 <= i < |d.agents| && d.agents[i].id in branch ==> d'.agents[i] == d.agents[i])
    && (forall i :: 0 <= i < |d.agents| ==>
          d'.agents[i].id == d.agents[i].id && d'.agents[i].parent == d.agents[i].parent)
    && (forall i :: |d.agents| <= i < |d'.agents| ==> d'.agents[i].id !in branch && d'.agents[i].parent !in branch)
  }

  lemma TurnKeepsSealedBranch(d: Document, action: Action, d': Document, branch: set<AgentId>)
    requires action.Start? || action.Complete? || action.Fail?
    requires DistinctIds(d.agents) && Sealed(d, branch) && Step(d, action, d')
    ensures KeepsBranch(d, d', branch)
  {
    if action.Fail? {
      MarkAgents(d, action.agent, Failed, TurnFailed);
    }
  }

  lemma StepKeepsSealedBranch(d: Document, action: Action, d': Document, branch: set<AgentId>)
    requires DistinctIds(d.agents) && Sealed(d, branch) && Step(d, action, d')
    ensures KeepsBranch(d, d', branch) && Sealed(d', branch)
  {
    if action.Spawn? {
      SpawnAvoidsSealedBranch(d, action.authority, action.parent, action.grants, d', branch);
    } else if action.Interrupt? {
      MarkEachAgents(d, action.order, Interrupted, BranchInterrupted);
    } else if action.Restart? {
      MarkEachAgents(d, RunningIds(d.agents), Failed, TurnFailed);
      RunningIdsAreRunning(d.agents);
    } else {
      TurnKeepsSealedBranch(d, action, d', branch);
    }
    assert KeepsBranch(d, d', branch);
    KeptBranchIsSealed(d, d', branch);
  }

  lemma SpawnAvoidsSealedBranch(d: Document, authority: Authority, parent: AgentId, grants: seq<Grant>, d': Document,
                                branch: set<AgentId>)
    requires Sealed(d, branch) && Step(d, Spawn(authority, parent, grants), d')
    ensures KeepsBranch(d, d', branch)
  {
    var n := |d.agents|;
    forall i | 0 <= i < n ensures d.agents[i].id != d'.agents[n].id {
      assert d'.agents[i] == d.agents[i];
    }
    assert d'.agents[n].id !in Ids(d.agents);
    assert parent !in branch;
  }

  lemma KeptBranchIsSealed(d: Document, d': Document, branch: set<AgentId>)
    requires Sealed(d, branch) && KeepsBranch(d, d', branch)
    ensures Sealed(d', branch)
  {
    forall id | id in branch ensures id in Ids(d'.agents) {
      var i :| 0 <= i < |d.agents| && d.agents[i].id == id;
      assert d'.agents[i].id == id;
    }
  }

  lemma KeepsBranchIsTransitive(d0: Document, d1: Document, d2: Document, branch: set<AgentId>)
    requires KeepsBranch(d0, d1, branch) && KeepsBranch(d1, d2, branch)
    ensures KeepsBranch(d0, d2, branch)
  {
    forall i | 0 <= i < |d0.agents| && d0.agents[i].id in branch ensures d2.agents[i] == d0.agents[i] {
      assert d1.agents[i] == d0.agents[i];
    }
  }

  /** Keeping a branch keeps what `InBranch` says about its top. */
  lemma {:induction false} KeptPath(d: Document, d': Document, branch: set<AgentId>, top: AgentId,
                                    path: seq<AgentId>, id: AgentId)
    requires KeepsBranch(d, d', branch) && top in branch
    requires forall x :: InBranch(d.agents, top, x) ==> x in branch
    requires PathFromTo(d.agents, path, top, id)
    ensures PathFromTo(d'.agents, path, top, id)
  {
    if |path| > 1 {
      var shorter, up := path[..|path| - 1], path[|path| - 2];
      assert IsChild(d.agents, up, id);
      assert PathFromTo(d.agents, shorter, top, up);
      KeptPath(d, d', branch, top, shorter, up);
      var i :| 0 <= i < |d.agents| && d.agents[i].id == id && d.agents[i].parent == up;
      assert d'.agents[i].id == id && d'.agents[i].parent == up;
      forall k | 0 < k < |path| ensures IsChild(d'.agents, path[k - 1], path[k]) {
        if k < |path| - 1 {
          assert IsChild(d'.agents, shorter[k - 1], shorter[k]);
        }
      }
    }
  }

  lemma KeptBranchIsSame(d: Document, d': Document, branch: set<AgentId>, top: AgentId)
    requires KeepsBranch(d, d', branch) && Sealed(d', branch) && top in branch
    requires forall id :: id in branch <==> InBranch(d.agents, top, id)
    ensures forall id :: id in branch <==> InBranch(d'.agents, top, id)
  {
    ClosedSetHoldsBranch(d'.agents, top, branch);
    forall id | id in branch ensures InBranch(d'.agents, top, id) {
      var path :| PathFromTo(d.agents, path, top, id);
      KeptPath(d, d', branch, top, path, id);
    }
  }

  /** The agents below and including `top`. */
  ghost function Branch(d: Document, top: AgentId): (r: set<AgentId>)
    requires HasAgent(d.agents, top)
    ensures forall id :: id in r <==> InBranch(d.agents, top, id)
    ensures top in r && r <= Ids(d.agents)
  {
    BranchHasTop(d.agents, top);
    BranchIsAgents(d, top);
    set id | id in Ids(d.agents) && InBranch(d.agents, top, id)
  }

  lemma BranchIsAgents(d: Document, top: AgentId)
    requires HasAgent(d.agents, top)
    ensures forall id :: InBranch(d.agents, top, id) ==> id in Ids(d.agents)
  {
    forall id | InBranch(d.agents, top, id) ensures id in Ids(d.agents) {
      var path :| PathFromTo(d.agents, path, top, id);
      if |path| > 1 {
        assert IsChild(d.agents, path[|path| - 2], path[|path| - 1]);
      }
    }
  }

  lemma InterruptSealsBranch(d: Document, target: AgentId, order: seq<AgentId>, d': Document)
    requires DistinctIds(d.agents) && Step(d, Interrupt(target, true, order), d')
    requires forall i :: 0 <= i < |d.agents| ==> d.agents[i].id != ROOT
    ensures HasAgent(d'.agents, target) && Sealed(d', Branch(d', target))
  {
    MarkEachAgents(d, order, Interrupted, BranchInterrupted);
    assert HasAgent(d.agents, target);
    var t := AgentIndex(d.agents, target);
    assert d'.agents[t].id == target;
    var branch := Branch(d', target);
    BranchIsClosed(d', target);
    forall i | 0 <= i < |d'.agents| && d'.agents[i].id in branch ensures d'.agents[i].status == Interrupted {
      SameLinksSamePaths(d', d, target, d'.agents[i].id);
      var j := AgentIndex(d.agents, d.agents[i].id);
      assert j == i;
    }
    assert ROOT !in Ids(d'.agents);
  }

  lemma BranchIsClosed(d: Document, target: AgentId)
    requires HasAgent(d.agents, target)
    ensures ChildClosed(d.agents, Branch(d, target))
  {
    forall i | 0 <= i < |d.agents| && d.agents[i].parent in Branch(d, target)
      ensures d.agents[i].id in Branch(d, target)
    {
      assert IsChild(d.agents, d.agents[i].parent, d.agents[i].id);
      BranchGrows(d.agents, target, d.agents[i].parent, d.agents[i].id);
    }
  }

  lemma SameLinksSamePaths(d: Document, d': Document, top: AgentId, id: AgentId)
    requires InBranch(d.agents, top, id) && |d.agents| == |d'.agents|
    requires forall i :: 0 <= i < |d.agents| ==>
                           d.agents[i].id == d'.agents[i].id && d.agents[i].parent == d'.agents[i].parent
    ensures InBranch(d'.agents, top, id)
  {
    var path :| PathFromTo(d.agents, path, top, id);
    forall k | 0 < k < |path| ensures IsChild(d'.agents, path[k - 1], path[k]) {
      assert IsChild(d.agents, path[k - 1], path[k]);
      var i :| 0 <= i < |d.agents| && d.agents[i].id == path[k] && d.agents[i].parent == path[k - 1];
      assert d'.agents[i].id == path[k] && d'.agents[i].parent == path[k - 1];
    }
    assert PathFromTo(d'.agents, path, top, id);
  }

  lemma NextKeepsSealedBranch(documents: seq<Document>, actions: seq<Action>, k: nat, branch: set<AgentId>)
    requires IsRun(documents, actions) && k < |actions| && Sealed(documents[k], branch)
    ensures KeepsBranch(documents[k], documents[k + 1], branch) && Sealed(documents[k + 1], branch)
  {
    RunsKeepForest(documents, actions, k);
    StepAt(documents, actions, k);
    StepKeepsSealedBranch(documents[k], actions[k], documents[k + 1], branch);
  }

  /** The next document keeps the branch sealed. */
  ghost predicate SealedNext(documents: seq<Document>, k: nat, branch: set<AgentId>)
    requires k + 1 < |documents|
  {
    Sealed(documents[k], branch) ==>
      KeepsBranch(documents[k], documents[k + 1], branch) && Sealed(documents[k + 1], branch)
  }

  lemma {:induction false} SealedStretch(documents: seq<Document>, m: nat, n: nat, branch: set<AgentId>)
    requires m <= n < |documents| && Sealed(documents[m], branch)
    requires forall k {:trigger SealedNext(documents, k, branch)} :: m <= k < n ==> SealedNext(documents, k, branch)
    ensures Sealed(documents[n], branch) && KeepsBranch(documents[m], documents[n], branch)
    decreases n
  {
    if m < n {
      SealedStretch(documents, m, n - 1, branch);
      assert SealedNext(documents, n - 1, branch);
      KeepsBranchIsTransitive(documents[m], documents[n - 1], documents[n], branch);
    }
  }

  lemma SealedBranchPersists(documents: seq<Document>, actions: seq<Action>, m: nat, n: nat, branch: set<AgentId>)
    requires IsRun(documents, actions) && m <= n < |documents| && Sealed(documents[m], branch)
    ensures Sealed(documents[n], branch) && KeepsBranch(documents[m], documents[n], branch)
  {
    forall k | m <= k < n ensures SealedNext(documents, k, branch) {
      if Sealed(documents[k], branch) {
        NextKeepsSealedBranch(documents, actions, k, branch);
      }
    }
    SealedStretch(documents, m, n, branch);
  }

  /** After a recursive interrupt of `target`, whatever is spawned, started, interrupted or
      restarted later: `target` has the same branch, all of it interrupted, and every agent
      of it has the very same record, transcript and turn count included. */
  lemma InterruptIsForever(documents: seq<Document>, actions: seq<Action>, m: nat, n: nat, target: AgentId)
    requires IsRun(documents, actions) && m < n < |documents|
    requires actions[m].Interrupt? && actions[m].target == target && actions[m].recursive
    ensures HasAgent(documents[m + 1].agents, target)
    ensures var branch := Branch(documents[m + 1], target);
            && (forall id :: id in branch <==> InBranch(documents[n].agents, target, id))
            && (forall i :: 0 <= i < |documents[n].agents| && documents[n].agents[i].id in branch ==>
                  && i < |documents[m + 1].agents|
                  && documents[n].agents[i] == documents[m + 1].agents[i]
                  && documents[n].agents[i].status == Interrupted)
  {
    RunsKeepForest(documents, actions, m);
    InterruptSealsBranch(documents[m], target, actions[m].order, documents[m + 1]);
    var branch := Branch(documents[m + 1], target);
    SealedBranchPersists(documents, actions, m + 1, n, branch);
    KeptBranchIsSame(documents[m + 1], documents[n], branch, target);
  }
}
