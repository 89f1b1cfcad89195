/** The coordinator store: every operation loads the saved document, recovers it after a
    restart, changes it and saves it again, over a disk on which any call may fail and any
    save may be cut off (crates/yunxi-multi-agent/src/store.rs). */
module CoordinatorStore {
  import opened Wrappers
  import opened Coordinator
  import opened CoordinatorRuns
  import opened CoordinatorLedger
  import opened CoordinatorValidity
  import opened CoordinatorMeaning
  import SavedFile

  /** `wellFormed` says whether the request passed its own text and limit checks. */
  datatype Request = Request(authority: Authority, wellFormed: bool, operation: Operation)

  /** One save on the disk; `fits` says that the directory is usable and the encoded
      document is within its size limit. */
  datatype Io = Io(fits: bool, stamp: nat, faults: SavedFile.Faults, calls: nat)

  datatype Reply = Finished(result: StoreResult<Document>) | Died

  ghost predicate Performs(action: Action, operation: Operation, authority: Authority) {
    match operation
    case SpawnAgent(parent, grants) => action == Spawn(authority, parent, grants)
    case StartTurn(agent, message) => action == Start(authority, agent, message)
    case CompleteTurn(agent, reply) => action == Complete(agent, reply)
    case FailTurn(agent, _) => action == Fail(agent)
    case InterruptBranch(agent, recursive) =>
      action.Interrupt? && action.target == agent && action.recursive == recursive
  }

  /** What is saved is the document after this step. */
  ghost predicate Leads(d: Document, action: Action, saved: Option<Document>) {
    match saved
    case None => false
    case Some(d') => Step(d, action, d')
  }

  /** The document is the end of some run. */
  ghost predicate Reachable(d: Document) {
    exists documents, actions :: IsRun(documents, actions) && documents[|actions|] == d
  }

  ghost predicate ReachableIfAny(saved: Option<Document>) {
    saved.Some? ==> Reachable(saved.value)
  }

  lemma NewIsReachable(authority: Authority, instance: string)
    requires authority.budget.Valid()
    ensures Reachable(NewDocument(authority, instance))
  {
    assert IsRun([NewDocument(authority, instance)], []);
  }

  lemma StepIsReachable(d: Document, action: Action, d': Document)
    requires Reachable(d) && Step(d, action, d')
    ensures Reachable(d')
  {
    var documents, actions :| IsRun(documents, actions) && documents[|actions|] == d;
    var more, longer := documents + [d'], actions + [action];
    forall k | 0 <= k < |longer| ensures Step(more[k], longer[k], more[k + 1]) {
      if k < |actions| {
        StepAt(documents, actions, k);
      }
    }
    assert more[0] == documents[0];
    assert IsRun(more, longer) && more[|longer|] == d';
  }

  lemma ReachableFacts(d: Document)
    requires Reachable(d)
    ensures Forest(d) && Turns(d) && d.nextEvent == |d.events| + 1 && !Truncated(d)
    ensures ValidDocument(d) && Named(d) && Ordinary(d)
  {
    var documents, actions :| IsRun(documents, actions) && documents[|actions|] == d;
    RunsKeepLedger(documents, actions, |actions|);
    NothingIsEverTruncated(documents, actions, |actions|);
    RunsKeepNames(documents, actions, |actions|);
  }

  lemma JoinedSteps(first: seq<Action>, last: seq<Action>)
    requires |first| <= 1 && |last| <= 1
    ensures last == [] ==> first + last == first
    ensures first == [] ==> first + last == last
    ensures |first + last| == 2 <==> first != [] && last != []
    ensures last != [] ==> |first + last| > 0 && (first + last)[|first + last| - 1] == last[0]
    ensures |first + last| == 2 ==> (first + last)[0] == first[0] && (first + last)[1] == last[0]
  {
  }

  class Store {
    const authority: Authority
    const instance: string
    const writable: bool
    const disk: SavedFile.Directory<Document>

    /** The disk is recoverable and holds a reachable document, if any. */
    ghost predicate Valid()
      reads disk
    {
      authority.budget.Valid() && SavedFile.Recoverable(disk.files, disk.committed) && ReachableIfAny(disk.committed)
    }

    constructor (authority: Authority, instance: string, writable: bool, disk: SavedFile.Directory<Document>)
      requires authority.budget.Valid()
      requires SavedFile.Recoverable(disk.files, disk.committed) && ReachableIfAny(disk.committed)
      ensures Valid() && this.authority == authority && this.instance == instance
      ensures this.writable == writable && this.disk == disk
    {
      this.authority, this.instance, this.writable, this.disk := authority, instance, writable, disk;
    }

    /** The document that an operation starts from. */
    ghost function Base(): Document
      reads disk
    {
      if disk.committed.Some? then disk.committed.value else NewDocument(authority, instance)
    }

    /** The document that an operation finds after loading: recovered if another instance left it. */
    ghost function Loaded(): Document
      reads disk
    {
      if Base().instance == instance then Base() else RecoverOn(Base(), instance)
    }

    /** A save that nothing gets in the way of. */
    ghost predicate Smooth(io: Io)
      reads disk
    {
      && io.fits && io.calls >= 6 && SavedFile.Temp(io.stamp) !in disk.files
      && !io.faults.create && !io.faults.write && !io.faults.removeOld && !io.faults.renameOld && !io.faults.renameNew
    }

    /** The reply says how the operation itself went on the document: refused for the first check that
        forbids it, and otherwise what the operation means. */
    ghost predicate Answers(document: Document, operation: Operation, reply: Reply) {
      && reply.Finished? && Outcome(document, authority, operation, reply.result)
      && (operation.InterruptBranch? ==> (reply.result.Ok? <==> HasAgent(document.agents, operation.agent)))
      && (!operation.InterruptBranch? ==> reply.result == ApplyTo(document, authority, operation))
    }

    /** The saved document may be loaded by this store. */
    ghost predicate Loadable()
      reads disk
    {
      disk.committed.Some? ==> Admits(Base(), authority)
    }

    /** A new document of this store: no agent and no event yet, and all of its authority. */
    predicate IsBlank(d: Document) {
      && d.agents == [] && d.events == [] && d.totalTurns == 0 && d.nextAgent == 1 && d.nextEvent == 1
      && d.session == authority.session && d.instance == instance
      && d.budget == authority.budget && d.allowed == authority.allowed
    }

    /** The request asks for no more than the authority of the store. */
    predicate Granted(request: Request) {
      && request.authority.session == authority.session && request.authority.workspace == authority.workspace
      && authority.budget.Contains(request.authority.budget) && Within(request.authority.allowed, authority.allowed)
    }

    /** The request passes the checks that come before the document. */
    predicate Allows(request: Request) {
      Granted(request) && request.wellFormed && writable
    }

    /** The error of a request that does not pass them. */
    ghost predicate TurnsAway(request: Request, error: StoreError) {
      match error
      case AuthorityMismatch => !Granted(request)
      case Protocol => Granted(request) && !request.wellFormed
      case WriteNotGranted => Granted(request) && request.wellFormed && !writable
      case _ => false
    }

    /** The saved document is as before, the loaded one, or what the operation means for that. */
    ghost predicate SavedMeans(before: Option<Document>, loaded: Document, operation: Operation,
                               after: Option<Document>) {
      match after
      case None => before == None
      case Some(d') => before == after || d' == loaded || Means(loaded, operation, d')
    }

    /** What a request makes of the saved document. It takes no step, or the restart recovery, or the
        operation, or both; and a reply that reports success reports what is saved. */
    ghost predicate Carried(base: Document, loaded: Document, operation: Operation, before: Option<Document>,
                            after: Option<Document>, steps: seq<Action>, reply: Reply) {
      && |steps| <= 2
      && (steps == [] ==> after == before)
      && (|steps| == 1 ==> Leads(base, steps[0], after))
      && (|steps| == 2 ==> steps[0] == Restart(instance) && Leads(RecoverOn(base, instance), steps[1], after))
      && SavedMeans(before, loaded, operation, after)
      && (reply.Finished? && reply.result.Ok? ==>
            && after == Some(reply.result.value)
            && steps != [] && Performs(steps[|steps| - 1], operation, authority)
            && Outcome(loaded, authority, operation, reply.result))
    }

    /** What the operation itself and the save that follows it make of the saved document. */
    ghost predicate Saves(document: Document, operation: Operation, before: Option<Document>,
                          after: Option<Document>, last: seq<Action>, reply: Reply) {
      && (last == [] ==> after == before)
      && (last != [] ==>
            && |last| == 1 && Performs(last[0], operation, authority)
            && Leads(document, last[0], after) && Means(document, operation, after.value))
      && (reply.Finished? && reply.result.Ok? ==>
            after == Some(reply.result.value) && last != [] && Outcome(document, authority, operation, reply.result))
    }

    lemma SavesCarries(base: Document, document: Document, operation: Operation, before: Option<Document>,
                       middle: Option<Document>, after: Option<Document>, first: seq<Action>, last: seq<Action>,
                       reply: Reply)
      requires first == [] ==> middle == before && document == base
      requires first != [] ==>
                 && first == [Restart(instance)] && Leads(base, first[0], middle)
                 && middle == Some(document) && document == RecoverOn(base, instance)
      requires Saves(document, operation, middle, after, last, reply)
      ensures Carried(base, document, operation, before, after, first + last, reply)
    {
      JoinedSteps(first, last);
    }

    method Save(document: Document, io: Io) returns (reply: Reply)
      requires Valid() && Reachable(document)
      modifies disk
      ensures Valid()
      ensures disk.committed == old(disk.committed) || disk.committed == Some(document)
      ensures disk.committed != old(disk.committed) ==> writable && ValidDocument(document)
      ensures reply == Finished(Ok(document)) ==>
                writable && ValidDocument(document) && disk.committed == Some(document)
      ensures reply.Finished? ==> reply.result == Ok(document) || reply.result.Err?
      ensures reply.Finished? && reply.result.Err? ==> disk.committed == old(disk.committed)
      ensures writable && old(Smooth(io)) ==> reply == Finished(Ok(document))
      ensures reply == Finished(Ok(document)) ==>
                forall stamp :: SavedFile.Temp(stamp) in disk.files ==> SavedFile.Temp(stamp) in old(disk.files)
    {
      ReachableFacts(document);
      if !writable {
        return Finished(Err(WriteNotGranted));
      }
      if !ValidDocument(document) {
        return Finished(Err(InvalidDocument));
      }
      if !io.fits {
        return Finished(Err(StoreError.Io));
      }
      var outcome := disk.ReplaceFile(document, io.stamp, io.faults, io.calls);
      match outcome
      case Saved => reply := Finished(Ok(document));
      case Failed => reply := Finished(Err(StoreError.Io));
      case Crashed => reply := Died;
    }

    /** `load_or_new`: a document left by another instance loses its running turns, and a
        writable store saves that at once. */
    method LoadOrNew(io: Io) returns (reply: Reply)
      requires Valid()
      modifies disk
      ensures Valid()
      ensures reply.Finished? && reply.result.Ok? ==>
                var d := reply.result.value;
                && Reachable(d) && Admits(d, authority) && d.instance == instance
                && d == old(Loaded())
                && disk.committed == (if writable && d != old(Base()) then Some(d) else old(disk.committed))
                && (old(disk.committed.None?) ==> IsBlank(d))
                && (old(disk.committed.Some?) ==>
                      var saved := old(Base());
                      if saved.instance == instance then d == saved else Recovers(saved, instance, d))
      ensures disk.committed == old(disk.committed)
              || (ValidDocument(old(Base())) && disk.committed == Some(RecoverOn(old(Base()), instance))
                  && disk.committed == Some(old(Loaded())))
      ensures !writable ==> disk.committed == old(disk.committed)
      ensures old(Loadable()) && (writable ==> old(Smooth(io))) ==>
                reply == Finished(Ok(old(Loaded())))
      ensures !old(Loadable()) ==> reply == Finished(Err(AuthorityEscalation)) && disk.committed == old(disk.committed)
      ensures reply.Finished? && reply.result.Ok? ==>
                forall stamp :: SavedFile.Temp(stamp) in disk.files ==> SavedFile.Temp(stamp) in old(disk.files)
    {
      var loaded := disk.Load();
      if loaded.Missing? {
        NewIsReachable(authority, instance);
        return Finished(Ok(NewDocument(authority, instance)));
      }
      var document := loaded.document;
      ReachableFacts(document);
      if !ValidDocument(document) {
        return Finished(Err(InvalidDocument));
      }
      if !Admits(document, authority) {
        return Finished(Err(AuthorityEscalation));
      }
      if document.instance == instance {
        return Finished(Ok(document));
      }
      ghost var before := document;
      document := RecoverDocument(document, instance);
      RecoveryIsStep(before, instance);
      RecoveryMeans(before, instance);
      MarkEachFrame(before, RunningIds(before.agents), Failed, TurnFailed);
      StepIsReachable(before, Restart(instance), document);
      if writable {
        reply := Save(document, io);
        return;
      }
      reply := Finished(Ok(document));
    }

    /** One mutating request. Whatever fails or dies on the way, the saved document stays
        reachable, and it changed by nothing, by the restart recovery, or by the recovery
        (if one was due) and then this very operation. */
    method Execute(request: Request, recovery: Io, io: Io) returns (reply: Reply, ghost steps: seq<Action>)
      requires Valid()
      modifies disk
      ensures Valid()
      ensures Carried(old(Base()), old(Loaded()), request.operation, old(disk.committed), disk.committed, steps, reply)
      ensures !writable ==> disk.committed == old(disk.committed)
      ensures !Allows(request) ==>
                reply.Finished? && reply.result.Err? && TurnsAway(request, reply.result.error) && steps == []
      ensures Allows(request) && !old(Loadable()) ==> reply == Finished(Err(AuthorityEscalation)) && steps == []
      ensures Allows(request) && old(Loadable())
              && old(Smooth(recovery) && Smooth(io)) ==>
                Answers(old(Loaded()), request.operation, reply)
    {
      steps := [];
      if request.authority.session != authority.session || request.authority.workspace != authority.workspace
         || !authority.budget.Contains(request.authority.budget)
         || !Within(request.authority.allowed, authority.allowed)
      {
        return Finished(Err(AuthorityMismatch)), [];
      }
      if !request.wellFormed {
        return Finished(Err(Protocol)), [];
      }
      if !writable {
        return Finished(Err(WriteNotGranted)), [];
      }
      reply, steps := Perform(request.operation, recovery, io);
    }

    /** The request is allowed: load and recover, change, save. */
    method Perform(operation: Operation, recovery: Io, io: Io) returns (reply: Reply, ghost steps: seq<Action>)
      requires Valid() && writable
      modifies disk
      ensures Valid()
      ensures Carried(old(Base()), old(Loaded()), operation, old(disk.committed), disk.committed, steps, reply)
      ensures !old(Loadable()) ==> reply == Finished(Err(AuthorityEscalation)) && steps == []
      ensures old(Loadable()) && old(Smooth(recovery) && Smooth(io)) ==>
                Answers(old(Loaded()), operation, reply)
    {
      ghost var base, before := Base(), disk.committed;
      reply, steps := LoadStep(recovery);
      if reply.Finished? && reply.result.Ok? {
        ghost var last;
        ghost var document, middle := reply.result.value, disk.committed;
        reply, last := ChangeAndSave(reply.result.value, operation, io);
        SavesCarries(base, document, operation, before, middle, disk.committed, steps, last, reply);
        steps := steps + last;
      }
    }

    /** Loading changes the saved document by the recovery, if at all. */
    method LoadStep(recovery: Io) returns (reply: Reply, ghost steps: seq<Action>)
      requires Valid() && writable
      modifies disk
      ensures Valid()
      ensures steps == [] ==> disk.committed == old(disk.committed)
      ensures steps != [] ==>
                && steps == [Restart(instance)] && disk.committed == Some(RecoverOn(old(Base()), instance))
                && Leads(old(Base()), Restart(instance), disk.committed)
                && disk.committed.value == old(Loaded())
      ensures reply.Finished? && reply.result.Ok? ==>
                && Reachable(reply.result.value) && Admits(reply.result.value, authority)
                && reply.result.value == old(Loaded())
                && reply.result.value == (if steps == [] then old(Base()) else RecoverOn(old(Base()), instance))
      ensures old(Loadable()) && old(Smooth(recovery)) ==>
                reply == Finished(Ok(old(Loaded())))
      ensures !old(Loadable()) ==> reply == Finished(Err(AuthorityEscalation)) && steps == []
      ensures reply.Finished? && reply.result.Ok? ==>
                forall stamp :: SavedFile.Temp(stamp) in disk.files ==> SavedFile.Temp(stamp) in old(disk.files)
    {
      ghost var base := Base();
      reply := LoadOrNew(recovery);
      steps := [];
      if disk.committed != old(disk.committed) {
        RecoveryIsStep(base, instance);
        steps := [Restart(instance)];
      }
    }

    /** The operation on the loaded document, and the save that follows it. */
    method ChangeAndSave(document: Document, operation: Operation, io: Io)
      returns (reply: Reply, ghost last: seq<Action>)
      requires Valid() && Reachable(document) && Admits(document, authority) && writable
      modifies disk
      ensures Valid()
      ensures Saves(document, operation, old(disk.committed), disk.committed, last, reply)
      ensures old(Smooth(io)) ==> Answers(document, operation, reply)
    {
      last := [];
      ghost var action;
      var changed;
      changed, action := Change(document, operation);
      if changed.Err? {
        reply := Finished(changed);
      } else {
        StepIsReachable(document, action, changed.value);
        reply := Save(changed.value, io);
        if disk.committed != old(disk.committed) || reply == Finished(changed) {
          last := [action];
        }
      }
    }

    /** The operation on the loaded document. */
    method Change(document: Document, operation: Operation)
      returns (changed: StoreResult<Document>, ghost action: Action)
      requires Reachable(document) && Admits(document, authority) && authority.budget.Valid()
      ensures !operation.InterruptBranch? ==> changed == ApplyTo(document, authority, operation)
      ensures operation.InterruptBranch? ==> (changed.Err? <==> !HasAgent(document.agents, operation.agent))
      ensures Outcome(document, authority, operation, changed)
      ensures changed.Ok? ==> Performs(action, operation, authority)
      ensures changed.Ok? ==> Step(document, action, changed.value)
    {
      changed, action := TryChange(document, operation);
      if changed.Ok? {
        ReachableFacts(document);
        ValidationNeverRefuses(document, action, changed.value);
      }
    }

    method TryChange(document: Document, operation: Operation)
      returns (changed: StoreResult<Document>, ghost action: Action)
      requires Reachable(document) && Admits(document, authority) && authority.budget.Valid()
      ensures !operation.InterruptBranch? ==> changed == ApplyTo(document, authority, operation)
      ensures operation.InterruptBranch? ==> (changed.Err? <==> !HasAgent(document.agents, operation.agent))
      ensures Outcome(document, authority, operation, changed)
      ensures changed.Ok? ==> Performs(action, operation, authority)
      ensures changed.Ok? ==> Succeeds(document, action, changed.value)
    {
      ReachableFacts(document);
      if operation.InterruptBranch? {
        changed, action := TryInterrupt(document, operation);
      } else {
        changed := ApplyTo(document, authority, operation);
        ApplyOutcome(document, authority, operation);
        action := ActionOf(operation);
      }
    }

    /** The step of a run that an operation other than an interrupt takes. */
    ghost function ActionOf(operation: Operation): Action
      requires !operation.InterruptBranch?
    {
      match operation
      case SpawnAgent(parent, grants) => Spawn(authority, parent, grants)
      case StartTurn(agent, message) => Start(authority, agent, message)
      case CompleteTurn(agent, reply) => Complete(agent, reply)
      case FailTurn(agent, _) => Fail(agent)
    }

    method TryInterrupt(document: Document, operation: Operation)
      returns (changed: StoreResult<Document>, ghost action: Action)
      requires Ordinary(document) && operation.InterruptBranch?
      ensures changed.Err? <==> !HasAgent(document.agents, operation.agent)
      ensures Outcome(document, authority, operation, changed)
      ensures changed.Ok? ==> Performs(action, operation, authority)
      ensures changed.Ok? ==> Succeeds(document, action, changed.value)
    {
      var order;
      changed, order := InterruptOn(document, operation.agent, operation.recursive);
      action := Interrupt(operation.agent, operation.recursive, order);
      if changed.Ok? {
        InterruptMeans(document, operation.agent, operation.recursive, order);
      } else {
        assert Checks(operation)[0] == AgentNotFound;
      }
    }

    /** `list`: a reachable document is never reported as truncated. */
    method List(recovery: Io) returns (reply: Reply, truncated: bool)
      requires Valid()
      modifies disk
      ensures Valid()
      ensures reply.Finished? && reply.result.Ok? ==>
                && !truncated
                && reply.result.value == old(Loaded())
      ensures !writable ==> disk.committed == old(disk.committed)
    {
      reply := LoadOrNew(recovery);
      truncated := false;
      if reply.Finished? && reply.result.Ok? {
        ReachableFacts(reply.result.value);
        truncated := Truncated(reply.result.value);
      }
    }
  }

  lemma RecoveryIsStep(d: Document, instance: string)
    requires Reachable(d)
    ensures Step(d, Restart(instance), RecoverOn(d, instance))
  {
    ReachableFacts(d);
    ValidationNeverRefuses(d, Restart(instance), RecoverOn(d, instance));
  }

  /** What every reachable document has, agent by agent. */
  lemma ReachableForest(d: Document, i: nat)
    requires Reachable(d) && i < |d.agents|
    ensures Forest(d) && d.agents[i].depth == Distance(d, i) <= d.budget.maxDepth
    ensures Within(d.agents[i].grants, d.allowed)
    ensures d.agents[i].parent != ROOT ==>
              var p := AgentIndex(d.agents, d.agents[i].parent);
              p < i && Within(d.agents[i].grants, d.agents[p].grants)
  {
    ReachableFacts(d);
    DepthIsDistance(d, i);
    GrantsAreAllowed(d, i);
    if d.agents[i].parent != ROOT {
      ParentComesFirst(d, i);
    }
  }
}
