/** The validation in `save` accepts whatever a successful operation makes of a reachable
    document (crates/yunxi-multi-agent/src/store.rs). */
module CoordinatorValidity {
  import opened Wrappers
  import opened Coordinator
  import opened CoordinatorRuns

  // ------------------------------------------------------------------
  // Agent names
  // ------------------------------------------------------------------

  lemma {:induction false} DigitsDiffer(m: nat, n: nat)
    requires Digits(m) == Digits(n)
    ensures m == n
  {
    var a, b := Digits(m), Digits(n);
    assert a[|a| - 1] == "0123456789"[m % 10] && b[|b| - 1] == "0123456789"[n % 10];
    DigitsAreDistinct(m % 10, n % 10);
    if m >= 10 && n >= 10 {
      assert a[..|a| - 1] == Digits(m / 10) && b[..|b| - 1] == Digits(n / 10);
      DigitsDiffer(m / 10, n / 10);
    } else {
      DigitsAreSome(m / 10);
      DigitsAreSome(n / 10);
    }
  }

  lemma DigitsAreDistinct(j: nat, k: nat)
    requires j < 10 && k < 10 && "0123456789"[j] == "0123456789"[k]
    ensures j == k
  {
  }

  /** The number that a text of decimal digits stands for. */
  function NumberOf(text: string): int {
    if text == "" then 0 else 10 * NumberOf(text[..|text| - 1]) + (text[|text| - 1] as int - '0' as int)
  }

  lemma DigitIsItself(n: nat)
    requires n < 10
    ensures "0123456789"[n] as int == '0' as int + n
  {
    assert n == 0 || n == 1 || n == 2 || n == 3 || n == 4 || n == 5 || n == 6 || n == 7 || n == 8 || n == 9;
  }

  /** An agent is called "agent-" and its number. */
  lemma {:induction false} NamesReadBack(n: nat)
    ensures AgentName(n) == "agent-" + Digits(n) && NumberOf(Digits(n)) == n
  {
    DigitIsItself(n % 10);
    if n >= 10 {
      NamesReadBack(n / 10);
      assert Digits(n)[..|Digits(n)| - 1] == Digits(n / 10);
    } else {
      assert NumberOf("") == 0;
      assert Digits(n)[..0] == "";
    }
  }

  lemma DigitsAreSome(n: nat)
    ensures |Digits(n)| > 0
  {
  }

  lemma NamesDiffer(m: nat, n: nat)
    requires m != n
    ensures AgentName(m) != AgentName(n)
  {
    if AgentName(m) == AgentName(n) {
      assert Digits(m) == AgentName(m)[6..] == AgentName(n)[6..] == Digits(n);
      DigitsDiffer(m, n);
    }
  }

  /** Agents are named after their places, and so will be the next one. */
  ghost predicate Named(d: Document) {
    && d.nextAgent == |d.agents| + 1
    && forall i :: 0 <= i < |d.agents| ==> d.agents[i].id == AgentName(i + 1)
  }

  lemma NamedAreDistinct(d: Document)
    requires Named(d)
    ensures DistinctIds(d.agents)
  {
    forall i, j | 0 <= i < j < |d.agents| ensures d.agents[i].id != d.agents[j].id {
      NamesDiffer(i + 1, j + 1);
    }
  }

  lemma SuccessKeepsNames(d: Document, action: Action, d': Document)
    requires Forest(d) && Named(d) && Succeeds(d, action, d')
    ensures Named(d')
  {
    if action.Interrupt? {
      MarksKeepNames(d, action.order, Interrupted, BranchInterrupted);
    } else if action.Restart? {
      MarksKeepNames(d, RunningIds(d.agents), Failed, TurnFailed);
    } else if !action.Spawn? {
      TurnKeepsShape(d, action, d');
    }
  }

  lemma MarksKeepNames(d: Document, ids: seq<AgentId>, status: Status, kind: EventKind)
    requires DistinctIds(d.agents) && Named(d)
    ensures Named(MarkEach(d, ids, status, kind))
  {
    MarkEachAgents(d, ids, status, kind);
    MarkEachFrame(d, ids, status, kind);
  }

  // ------------------------------------------------------------------
  // Validation
  // ------------------------------------------------------------------

  lemma {:induction false} MarksBoundEvents(d: Document, ids: seq<AgentId>, status: Status, kind: EventKind)
    requires |d.events| <= MAX_AGENT_EVENTS && d.nextEvent > 0
    ensures |MarkEach(d, ids, status, kind).events| <= MAX_AGENT_EVENTS && MarkEach(d, ids, status, kind).nextEvent > 0
  {
    if ids != [] {
      MarksBoundEvents(d, ids[..|ids| - 1], status, kind);
    }
  }

  lemma MarksKeepValidity(d: Document, ids: seq<AgentId>, status: Status, kind: EventKind)
    requires ValidDocument(d)
    ensures ValidDocument(MarkEach(d, ids, status, kind))
  {
    MarkEachAgents(d, ids, status, kind);
    MarkEachFrame(d, ids, status, kind);
    MarksBoundEvents(d, ids, status, kind);
    SameLinksStayValid(d, MarkEach(d, ids, status, kind));
  }

  /** Agents that keep ids and links, and stay within the limits, stay valid. */
  lemma SameLinksStayValid(d: Document, d': Document)
    requires ValidDocument(d) && d'.budget == d.budget && |d'.agents| == |d.agents| && DistinctIds(d'.agents)
    requires d'.nextAgent > 0 && d'.nextEvent > 0 && |d'.events| <= MAX_AGENT_EVENTS
    requires forall i :: 0 <= i < |d.agents| ==>
               && d'.agents[i].id == d.agents[i].id && d'.agents[i].parent == d.agents[i].parent
               && ValidAgent(d'.agents[i])
    ensures ValidDocument(d')
  {
    forall i | 0 <= i < |d'.agents| ensures d'.agents[i].parent == ROOT || HasAgent(d'.agents, d'.agents[i].parent) {
      if d.agents[i].parent != ROOT {
        var j :| 0 <= j < |d.agents| && d.agents[j].id == d.agents[i].parent;
        assert d'.agents[j].id == d.agents[i].parent;
      }
    }
  }

  lemma SpawnStaysValid(d: Document, authority: Authority, parent: AgentId, grants: seq<Grant>, d': Document)
    requires Forest(d) && Named(d) && ValidDocument(d) && Succeeds(d, Spawn(authority, parent, grants), d')
    ensures ValidDocument(d')
  {
    SuccessKeepsNames(d, Spawn(authority, parent, grants), d');
    NamedAreDistinct(d');
    var n := |d.agents|;
    forall i | 0 <= i < |d'.agents|
      ensures ValidAgent(d'.agents[i]) && (d'.agents[i].parent == ROOT || HasAgent(d'.agents, d'.agents[i].parent))
    {
      if i < n {
        assert d'.agents[i] == d.agents[i] && ValidAgent(d.agents[i]);
      }
      if d'.agents[i].parent != ROOT {
        assert HasAgent(d.agents, d'.agents[i].parent);
        var j :| 0 <= j < n && d.agents[j].id == d'.agents[i].parent;
        assert d'.agents[j] == d.agents[j];
      }
    }
  }

  /** A turn changes the record of one agent, and not its links. */
  lemma OneAgentStaysValid(d: Document, i: nat, a: Agent, agent: AgentId, kind: EventKind, d': Document)
    requires ValidDocument(d) && i < |d.agents| && ValidAgent(a)
    requires a.id == d.agents[i].id && a.parent == d.agents[i].parent
    requires d'.budget == d.budget && d'.nextAgent == d.nextAgent && d'.agents == d.agents[i := a]
    requires d'.events == PushEvent(d, agent, kind).events && d'.nextEvent == PushEvent(d, agent, kind).nextEvent
    ensures ValidDocument(d')
  {
    forall j, k | 0 <= j < k < |d'.agents| ensures d'.agents[j].id != d'.agents[k].id {
      assert d.agents[j].id != d.agents[k].id;
    }
    SameLinksStayValid(d, d');
  }

  lemma StartStaysValid(d: Document, authority: Authority, agent: AgentId, message: string, d': Document)
    requires ValidDocument(d) && Admits(d, authority) && StartOn(d, authority, agent, message) == Ok(d')
    ensures ValidDocument(d')
  {
    var i := AgentIndex(d.agents, agent);
    assert ValidAgent(d.agents[i]);
    OneAgentStaysValid(d, i, d'.agents[i], agent, TurnStarted, d');
  }

  lemma CompleteStaysValid(d: Document, agent: AgentId, reply: string, d': Document)
    requires ValidDocument(d) && CompleteOn(d, agent, reply) == Ok(d')
    ensures ValidDocument(d')
  {
    var i := AgentIndex(d.agents, agent);
    assert ValidAgent(d.agents[i]);
    OneAgentStaysValid(d, i, d'.agents[i], agent, TurnCompleted, d');
  }

  lemma FailStaysValid(d: Document, agent: AgentId, d': Document)
    requires ValidDocument(d) && FailOn(d, agent, true) == Ok(d')
    ensures ValidDocument(d')
  {
    assert MarkEach(d, [agent], Failed, TurnFailed) == Mark(d, agent, Failed, TurnFailed);
    MarksKeepValidity(d, [agent], Failed, TurnFailed);
  }

  /** So `save` never refuses the result of an operation that succeeded on such a document. */
  lemma ValidationNeverRefuses(d: Document, action: Action, d': Document)
    requires Forest(d) && Named(d) && ValidDocument(d) && Succeeds(d, action, d')
    ensures ValidDocument(d')
  {
    match action
    case Spawn(authority, parent, grants) => SpawnStaysValid(d, authority, parent, grants, d');
    case Start(authority, agent, message) => StartStaysValid(d, authority, agent, message, d');
    case Complete(agent, reply) => CompleteStaysValid(d, agent, reply, d');
    case Fail(agent) => FailStaysValid(d, agent, d');
    case Interrupt(_, _, order) => MarksKeepValidity(d, order, Interrupted, BranchInterrupted);
    case Restart(instance) =>
      var marked := MarkEach(d, RunningIds(d.agents), Failed, TurnFailed);
      MarksKeepValidity(d, RunningIds(d.agents), Failed, TurnFailed);
      SameLinksStayValid(marked, d');
  }

  /** Every reachable document is valid, with agents named agent-1, agent-2, and so on. */
  lemma {:induction false} RunsKeepNames(documents: seq<Document>, actions: seq<Action>, k: nat)
    requires IsRun(documents, actions) && k < |documents|
    ensures Named(documents[k]) && ValidDocument(documents[k])
  {
    if k > 0 {
      RunsKeepNames(documents, actions, k - 1);
      RunsKeepForest(documents, actions, k - 1);
      StepAt(documents, actions, k - 1);
      SuccessKeepsNames(documents[k - 1], actions[k - 1], documents[k]);
    }
  }
}
