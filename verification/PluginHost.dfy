/** The process plugin host over an abstract kernel
    (crates/yunxi-plugin-host/src/runtime.rs; the kernel calls follow
    crates/yunxi-kernel/src/runtime/kernel.rs). */
module PluginHost {
  import opened Wrappers
  import opened RetryPolicy
  import opened CapabilityCatalog

  const U64_MAX: nat := 0xFFFF_FFFF_FFFF_FFFF

  // ------------------------------------------------------------------
  // The kernel, as the host sees it
  // ------------------------------------------------------------------

  datatype PluginState = Registered | Starting | Running | Stopping | Stopped | Failed {
    predicate IsActive() { Starting? || Running? || Stopping? }
  }

  /** Not ended, or not started yet. */
  predicate IsLive(state: PluginState) {
    state.IsActive() || state == Registered
  }

  /** The state of a process that was just asked to stop. */
  function ToldToStop(state: PluginState): PluginState {
    if state == Registered then Stopped else if state.IsActive() then Stopping else state
  }

  datatype Process = Process(state: PluginState, generation: nat)

  /** What a started process does during its handshake. */
  datatype Handshake = Refused | Announces(capabilities: seq<Capability>)

  /** Everything outside the host. A refresh may move any process to any state, so a process
      may fail at any moment; the n-th interaction asks for the n-th answer. */
  datatype World = World(
    refreshed: (nat, PluginId, PluginState) -> PluginState,
    spawns: (nat, PluginId) -> bool,
    stops: (nat, PluginId) -> bool,
    polls: nat -> nat,
    handshake: (nat, PluginId) -> Handshake)
  {
    /** Only active processes move: one that was never started or has ended stays as it is. */
    ghost predicate Settles(id: PluginId) {
      forall n: nat, s: PluginState :: !s.IsActive() ==> refreshed(n, id, s) == s
    }

    /** No process is found not started once it was. */
    ghost predicate StaysStarted(id: PluginId) {
      forall n: nat, s: PluginState :: s != Registered ==> refreshed(n, id, s) != Registered
    }

    /** A stop at tick `n` of a process in state `s` finds it active twice and still cannot
        tell it to stop, as when the process exits in between. */
    predicate RefusesStop(n: nat, id: PluginId, s: PluginState) {
      var seen := refreshed(n, id, s);
      seen.IsActive() && refreshed(n + 1, id, seen).IsActive() && !stops(n + 2, id)
    }

    predicate IsFree(n: nat, id: PluginId, s: PluginState) {
      !refreshed(n, id, s).IsActive()
    }

    /** A start at tick `n` finds the process not active after both refreshes. */
    predicate Begins(n: nat, id: PluginId, s: PluginState) {
      IsFree(n + 1, id, refreshed(n, id, s))
    }

    /** The generation after that start. */
    function Next(n: nat, id: PluginId, process: Process): nat {
      process.generation + (if Begins(n, id, process.state) then 1 else 0)
    }

    /** The process is free, and kernel, handshake and catalog all agree. */
    ghost predicate StartsUp(n: nat, id: PluginId, s: PluginState) {
      Begins(n, id, s) && spawns(n + 2, id) && ShakesHands(n + 3, id)
    }

    ghost predicate ShakesHands(n: nat, id: PluginId) {
      handshake(n, id).Announces? && DistinctCapabilities(Announced(n, id))
    }

    function Announced(n: nat, id: PluginId): seq<Capability> {
      if handshake(n, id).Announces? then handshake(n, id).capabilities else []
    }
  }

  datatype Slot = Slot(retry: Controller)

  datatype HostError = KernelRefused | StopRefused | HandshakeFailed | CatalogRefused | UnknownPlugin

  datatype HostResult = Started | Rejected(error: HostError) {
    /** The error of a start that was tried. */
    predicate FailsToStart() {
      Rejected? && (error.KernelRefused? || error.HandshakeFailed? || error.CatalogRefused?)
    }
  }

  /** How one request and its answer go over the connection. */
  datatype Exchange = SendFails | ReceiveFails | Completed(decodes: bool) | Declined | WrongReply

  datatype CallOutcome =
    | Replied | Declines | Unavailable(plugin: PluginId) | Violates(plugin: PluginId) | NoRoute | BadRequest

  /** Retries: since the last explicit start, which aimed at generation `goal`, the
      generation rose by at most the restarts granted, and no consumed failure is newer than
      the process or than what the controller has observed. */
  ghost predicate BoundedAt(retry: Controller, generation: nat, goal: nat, id: PluginId,
                            consumed: set<(PluginId, nat)>) {
    && retry.Valid()
    && generation <= goal + retry.restarts
    && (retry.enabled && retry.generation.Some? ==> retry.generation.value <= generation)
    && (retry.handled.Some? ==> retry.handled == retry.generation)
    && (forall g :: (id, g) in consumed ==> g <= generation)
    && (forall g :: (id, g) in consumed && retry.enabled && retry.generation.Some? ==>
          g < retry.generation.value || (g == retry.generation.value && retry.handled == retry.generation))
  }

  ghost predicate SlotBounded(slots: map<PluginId, Slot>, processes: map<PluginId, Process>,
                              enabledAt: map<PluginId, nat>, consumed: set<(PluginId, nat)>, id: PluginId)
  {
    id in slots ==>
      && id in processes && id in enabledAt
      && BoundedAt(slots[id].retry, processes[id].generation, enabledAt[id], id, consumed)
  }

  ghost predicate AllBounded(slots: map<PluginId, Slot>, processes: map<PluginId, Process>,
                             enabledAt: map<PluginId, nat>, consumed: set<(PluginId, nat)>)
  {
    forall id :: SlotBounded(slots, processes, enabledAt, consumed, id)
  }

  /** Each connection belongs to the current generation of its process. */
  ghost predicate Current(connections: map<PluginId, nat>, processes: map<PluginId, Process>) {
    forall id :: IsCurrent(connections, processes, id)
  }

  ghost predicate IsCurrent(connections: map<PluginId, nat>, processes: map<PluginId, Process>, id: PluginId) {
    id in connections ==> id in processes && connections[id] == processes[id].generation
  }

  /** No generation is lost, and a failed process fails on until its next generation. */
  ghost predicate MovesOn(world: World, before: map<PluginId, Process>, after: map<PluginId, Process>, id: PluginId)
    requires id in before && id in after
  {
    && before[id].generation <= after[id].generation
    && (world.Settles(id) && before[id].state == Failed && before[id].generation == after[id].generation ==>
          after[id].state == Failed)
  }

  /** The same processes at the same generations, in whatever states. */
  ghost predicate SameGenerations(world: World, before: map<PluginId, Process>, after: map<PluginId, Process>) {
    after.Keys == before.Keys
    && forall id :: id in before ==>
         before[id].generation == after[id].generation && MovesOn(world, before, after, id)
  }

  /** A refresh never leads out of these states. */
  ghost predicate Closed(world: World, id: PluginId, states: set<PluginState>) {
    forall n: nat, s: PluginState :: s in states ==> world.refreshed(n, id, s) in states
  }

  /** Only refreshes moved the process: whatever states they do not lead out of, it did not leave. */
  ghost predicate Drifts(world: World, id: PluginId, before: PluginState, after: PluginState) {
    forall states {:trigger Closed(world, id, states)} ::
      Closed(world, id, states) && before in states ==> after in states
  }

  ghost predicate DriftsAt(world: World, before: map<PluginId, Process>, after: map<PluginId, Process>, id: PluginId) {
    id in before && id in after ==> Drifts(world, id, before[id].state, after[id].state)
  }

  ghost predicate OthersDrift(world: World, before: map<PluginId, Process>, after: map<PluginId, Process>,
                              id: PluginId) {
    forall other {:trigger DriftsAt(world, before, after, other)} ::
      other != id ==> DriftsAt(world, before, after, other)
  }

  ghost predicate AllDrift(world: World, before: map<PluginId, Process>, after: map<PluginId, Process>) {
    forall id {:trigger DriftsAt(world, before, after, id)} :: DriftsAt(world, before, after, id)
  }

  lemma OthersDriftOn(world: World, a: map<PluginId, Process>, b: map<PluginId, Process>, c: map<PluginId, Process>,
                      id: PluginId)
    requires OthersDrift(world, a, b, id) && OthersDrift(world, b, c, id) && a.Keys == b.Keys
    ensures OthersDrift(world, a, c, id)
  {
    forall other | other != id ensures DriftsAt(world, a, c, other) {
      assert DriftsAt(world, a, b, other) && DriftsAt(world, b, c, other);
    }
  }

  /** What the host knows of each plugin: its slot, its process, the generation its last
      explicit start aimed at, and the generation it is connected to. */
  datatype Books = Books(slots: map<PluginId, Slot>, processes: map<PluginId, Process>, goals: map<PluginId, nat>,
                         links: map<PluginId, nat>)

  predicate SameLink(was: map<PluginId, nat>, now: map<PluginId, nat>, id: PluginId) {
    (id in was <==> id in now) && (id in was ==> was[id] == now[id])
  }

  /** The plugin keeps its slot, its generation, its cycle and its connection, and only refreshes moved its process. */
  ghost predicate Stays(world: World, was: Books, now: Books, id: PluginId) {
    && (id in was.slots ==> id in now.slots && now.slots[id] == was.slots[id])
    && (id in was.processes ==>
          && id in now.processes && now.processes[id].generation == was.processes[id].generation
          && MovesOn(world, was.processes, now.processes, id))
    && DriftsAt(world, was.processes, now.processes, id)
    && (id in was.goals ==> id in now.goals && now.goals[id] == was.goals[id])
    && SameLink(was.links, now.links, id)
  }

  lemma StaysOn(world: World, a: Books, b: Books, c: Books, id: PluginId)
    requires Stays(world, a, b, id) && Stays(world, b, c, id)
    ensures Stays(world, a, c, id)
  {
  }

  ghost predicate OthersStay(world: World, was: Books, now: Books, id: PluginId) {
    forall other {:trigger Stays(world, was, now, other)} :: other != id ==> Stays(world, was, now, other)
  }

  lemma OthersStayOn(world: World, a: Books, b: Books, c: Books, id: PluginId)
    requires OthersStay(world, a, b, id) && OthersStay(world, b, c, id)
    ensures OthersStay(world, a, c, id)
  {
    forall other | other != id ensures Stays(world, a, c, other) {
      StaysOn(world, a, b, c, other);
    }
  }

  lemma FenceStays(world: World, was: Books, now: Books, id: PluginId)
    requires OthersStay(world, was, now, id) && now.slots.Keys <= was.slots.Keys + {id}
    requires forall other :: other != id ==> IsFenced(was.slots, other)
    ensures forall other :: other != id ==> IsFenced(now.slots, other)
    ensures IsFenced(now.slots, id) ==> forall other :: IsFenced(now.slots, other)
  {
    forall other | other != id ensures IsFenced(now.slots, other) {
      assert Stays(world, was, now, other) && IsFenced(was.slots, other);
    }
    assert IsFenced(now.slots, id) ==> forall other :: other == id || IsFenced(now.slots, other);
  }

  lemma GenerationsStay(world: World, was: Books, now: Books, id: PluginId)
    requires SameGenerations(world, was.processes, now.processes)
    requires forall other :: other in was.slots && other != id ==>
               other in now.slots && now.slots[other] == was.slots[other]
    requires now.goals == was.goals && OthersDrift(world, was.processes, now.processes, id)
    requires now.links - {id} == was.links - {id}
    ensures OthersStay(world, was, now, id)
  {
    forall other | other != id ensures Stays(world, was, now, other) {
      assert DriftsAt(world, was.processes, now.processes, other);
      assert other in was.links <==> other in was.links - {id};
      assert other in now.links <==> other in now.links - {id};
    }
  }

  lemma OneLinkChanged(world: World, was: Books, links: map<PluginId, nat>, id: PluginId)
    requires links == was.links - {id} || (id in links && links == was.links[id := links[id]])
    ensures OthersStay(world, was, was.(links := links), id)
  {
    forall other | other != id ensures Stays(world, was, was.(links := links), other) {
    }
  }

  ghost predicate IsFenced(slots: map<PluginId, Slot>, id: PluginId) {
    id in slots && slots[id].retry.enabled ==> slots[id].retry.generation.Some?
  }

  /** What an automatic recovery may do to a plugin: no more new generations than restarts
      paid for, and nothing at all to a disabled one. */
  predicate RecoveredAt(was: Controller, now: Controller, before: nat, after: nat) {
    && now.maximum == was.maximum
    && was.restarts <= now.restarts
    && before <= after <= before + (now.restarts - was.restarts)
    && (!was.enabled ==> !now.enabled && now.restarts == was.restarts)
  }

  ghost predicate RecoveredIn(was: Books, now: Books, id: PluginId) {
    id in was.processes ==>
      && id in now.processes
      && var before, after := was.processes[id].generation, now.processes[id].generation;
         if id in was.slots then
           id in now.slots && RecoveredAt(was.slots[id].retry, now.slots[id].retry, before, after)
         else
           before == after
  }

  /** If the process had failed and was owed a restart, it got one. */
  ghost predicate PaidIn(world: World, was: Books, now: Books, id: PluginId) {
    id in was.slots && id in was.processes && id in now.processes && world.Settles(id)
    && was.processes[id].state == Failed && Owed(was.slots[id].retry, was.processes[id].generation) ==>
      now.processes[id].generation > was.processes[id].generation
  }

  /** The process has not failed, or its failure is answered or beyond the restarts left. */
  ghost predicate IsPaid(books: Books, id: PluginId) {
    id in books.slots && id in books.processes && books.processes[id].state == Failed ==>
      !Owed(books.slots[id].retry, books.processes[id].generation)
  }

  /** Only these plugins may still be owed a restart. */
  ghost predicate OnlyOwed(books: Books, left: set<PluginId>) {
    forall id {:trigger IsPaid(books, id)} :: id !in left ==> IsPaid(books, id)
  }

  ghost predicate NothingOwed(books: Books) {
    forall id :: IsPaid(books, id)
  }

  ghost predicate SamePlugins(was: Books, now: Books) {
    now.slots.Keys == was.slots.Keys && now.processes.Keys == was.processes.Keys && now.goals == was.goals
  }

  ghost predicate Recovered(was: Books, now: Books) {
    SamePlugins(was, now) && forall id :: RecoveredIn(was, now, id)
  }

  lemma RecoveredOn(world: World, a: Books, b: Books, c: Books)
    requires Recovered(a, b) && Recovered(b, c)
    ensures Recovered(a, c)
    ensures forall id :: id in a.processes && PaidIn(world, a, b, id) && RecoveredIn(b, c, id) ==>
            PaidIn(world, a, c, id)
  {
    forall id ensures RecoveredIn(a, c, id) {
      assert RecoveredIn(a, b, id) && RecoveredIn(b, c, id);
    }
  }

  lemma GenerationsRecover(world: World, was: Books, now: Books)
    requires SameGenerations(world, was.processes, now.processes) && now.slots == was.slots && now.goals == was.goals
    ensures Recovered(was, now)
    ensures forall later: Books, id :: id in was.processes && PaidIn(world, now, later, id) ==>
            PaidIn(world, was, later, id)
  {
  }

  /** The state between two failed plugins of one kernel snapshot: those that are still to be
      looked at stay as they were, and the others got what they were owed. */
  ghost predicate Recovering(world: World, was: Books, now: Books, left: set<PluginId>) {
    && Recovered(was, now)
    && (forall id :: id in left ==> Stays(world, was, now, id))
    && (forall id :: id in was.processes && was.processes[id].state == Failed && id !in left ==>
          PaidIn(world, was, now, id))
    && UnfailedStay(world, was, now)
  }

  /** Whoever has not failed is left alone. */
  ghost predicate UnfailedStay(world: World, was: Books, now: Books) {
    forall id {:trigger Stays(world, was, now, id)} ::
      id in was.processes && was.processes[id].state != Failed ==> Stays(world, was, now, id)
  }

  /** The process is up, and no refresh finds it otherwise. */
  ghost predicate IsUp(world: World, books: Books, id: PluginId) {
    && id in books.processes && books.processes[id].state.IsActive()
    && Closed(world, id, {Starting, Running, PluginState.Stopping})
  }

  /** Whoever is up keeps its slot, its generation and its connection. */
  ghost predicate UpStay(world: World, was: Books, now: Books) {
    forall id {:trigger Stays(world, was, now, id)} :: IsUp(world, was, id) ==> Stays(world, was, now, id)
  }

  lemma UpStays(world: World, was: Books, now: Books, id: PluginId)
    requires IsUp(world, was, id) && Stays(world, was, now, id)
    ensures IsUp(world, now, id)
  {
    assert DriftsAt(world, was.processes, now.processes, id);
    assert was.processes[id].state in {Starting, Running, PluginState.Stopping};
  }

  lemma UpStayOn(world: World, a: Books, b: Books, c: Books)
    requires UpStay(world, a, b) && UpStay(world, b, c)
    ensures UpStay(world, a, c)
  {
    forall id | IsUp(world, a, id) ensures Stays(world, a, c, id) {
      assert Stays(world, a, b, id);
      UpStays(world, a, b, id);
      assert Stays(world, b, c, id);
      StaysOn(world, a, b, c, id);
    }
  }

  lemma UpStayInRefresh(world: World, was: Books, now: Books)
    requires SameGenerations(world, was.processes, now.processes) && AllDrift(world, was.processes, now.processes)
    requires now.slots == was.slots && now.goals == was.goals && now.links == was.links
    ensures UpStay(world, was, now)
  {
    forall id | IsUp(world, was, id) ensures Stays(world, was, now, id) {
      assert DriftsAt(world, was.processes, now.processes, id);
    }
  }

  lemma UnfailedMeansUp(world: World, was: Books, now: Books)
    requires UnfailedStay(world, was, now)
    ensures UpStay(world, was, now)
  {
  }

  lemma PrunedUpStay(world: World, was: Books, now: Books)
    requires now.slots == was.slots && now.goals == was.goals && now.processes == was.processes
    requires now.links == map id | id in was.links && id in was.processes && was.processes[id].state.IsActive() ::
                                 was.links[id]
    ensures UpStay(world, was, now) && Recovered(was, now)
  {
    forall id | IsUp(world, was, id) ensures Stays(world, was, now, id) {
      assert DriftsAt(world, was.processes, now.processes, id);
    }
  }

  lemma RecoveringOn(world: World, was: Books, mid: Books, now: Books, left: set<PluginId>, id: PluginId)
    requires Recovering(world, was, mid, left) && SamePlugins(mid, now)
    requires OthersStay(world, mid, now, id) && RecoveredIn(mid, now, id) && PaidIn(world, mid, now, id)
    requires id in left && id in was.processes && was.processes[id].state == Failed
    ensures Recovering(world, was, now, left - {id})
  {
    forall other ensures RecoveredIn(was, now, other) {
      assert RecoveredIn(was, mid, other) && (other != id ==> Stays(world, mid, now, other));
    }
    forall other | other in left - {id} ensures Stays(world, was, now, other) {
      assert Stays(world, was, mid, other) && Stays(world, mid, now, other);
    }
    forall other | other in was.processes && was.processes[other].state == Failed && other !in left - {id}
      ensures PaidIn(world, was, now, other)
    {
      if other == id {
        assert Stays(world, was, mid, id);
      } else {
        assert PaidIn(world, was, mid, other) && Stays(world, mid, now, other);
      }
    }
    forall other | other in was.processes && was.processes[other].state != Failed
      ensures Stays(world, was, now, other)
    {
      assert Stays(world, was, mid, other) && Stays(world, mid, now, other);
      StaysOn(world, was, mid, now, other);
    }
  }

  ghost predicate Refreshed(world: World, n: nat, before: map<PluginId, Process>, after: map<PluginId, Process>,
                            id: PluginId)
    requires id in before && id in after
  {
    after[id].state == world.refreshed(n, id, before[id].state)
  }

  /** The state is what a refresh at tick `n` found. */
  ghost predicate Seen(world: World, n: nat, id: PluginId, state: PluginState) {
    exists s: PluginState {:trigger world.refreshed(n, id, s)} :: state == world.refreshed(n, id, s)
  }

  /** The states are what the newest refresh found. */
  ghost predicate JustSeen(world: World, tick: nat, processes: map<PluginId, Process>) {
    match world
    case World(_, _, _, _, _) =>
      tick > 0
      && forall id {:trigger Seen(world, tick - 1, id, processes[id].state)} ::
           id in processes ==> Seen(world, tick - 1, id, processes[id].state)
  }

  lemma StatesDoNotMatter(slots: map<PluginId, Slot>, before: map<PluginId, Process>, after: map<PluginId, Process>,
                          enabledAt: map<PluginId, nat>, consumed: set<(PluginId, nat)>,
                          connections: map<PluginId, nat>)
    requires after.Keys == before.Keys && forall id :: id in before ==> after[id].generation == before[id].generation
    requires AllBounded(slots, before, enabledAt, consumed) && Current(connections, before)
    ensures AllBounded(slots, after, enabledAt, consumed) && Current(connections, after)
  {
    forall id ensures SlotBounded(slots, after, enabledAt, consumed, id) && IsCurrent(connections, after, id) {
      assert SlotBounded(slots, before, enabledAt, consumed, id) && IsCurrent(connections, before, id);
    }
  }

  lemma OneSlotChanged(before: map<PluginId, Slot>, after: map<PluginId, Slot>, processes: map<PluginId, Process>,
                       enabledAt: map<PluginId, nat>, eaten: set<(PluginId, nat)>, consumed: set<(PluginId, nat)>,
                       id: PluginId)
    requires AllBounded(before, processes, enabledAt, eaten) && SlotBounded(after, processes, enabledAt, consumed, id)
    requires id in before && id in after && after == before[id := after[id]]
    requires forall e :: e in consumed && e.0 != id ==> e in eaten
    ensures AllBounded(after, processes, enabledAt, consumed)
  {
    forall other ensures SlotBounded(after, processes, enabledAt, consumed, other) {
      assert SlotBounded(before, processes, enabledAt, eaten, other);
    }
  }

  /** An answered failure: consumed once, and either one more restart is paid for or the
      cycle is over. */
  lemma FailureIsBounded(retry: Controller, g: nat, generation: nat, goal: nat, id: PluginId,
                         consumed: set<(PluginId, nat)>)
    requires BoundedAt(retry, generation, goal, id, consumed) && g <= generation
    requires retry.enabled ==> retry.generation.Some?
    ensures var observed := retry.ObserveGeneration(g);
            && BoundedAt(observed.0, generation, goal, id, consumed)
            && var answer := observed.0.OnFailure(g);
               && (answer.1.None? ==> answer.0 == observed.0)
               && (answer.1.Some? ==>
                     && retry.enabled && observed.1 && (id, g) !in consumed
                     && BoundedAt(answer.0, generation, goal, id, consumed + {(id, g)})
                     && answer.0.restarts == retry.restarts + (if answer.1.value.Restart? then 1 else 0)
                     && (answer.1.value.Restart? ==>
                           answer.0.enabled && answer.0.generation.Some? && generation + 1 <= goal + answer.0.restarts))
    ensures !retry.enabled ==> retry.ObserveGeneration(g) == (retry, false)
  {
  }

  /** The retry budget is the same; the controller may only know a newer generation. */
  predicate SameBudget(was: Controller, now: Controller) {
    && now.restarts == was.restarts && now.enabled == was.enabled && now.maximum == was.maximum
    && (was.generation.Some? ==> now.generation.Some?)
    && (now.handled == None || now.handled == was.handled)
  }

  predicate SameCycle(was: Controller, now: Controller) {
    && now.restarts == was.restarts && now.maximum == was.maximum
    && (now.handled == None || now.handled == was.handled)
  }

  /** The failure of generation `g` is still unanswered, and a restart is left for it. */
  predicate Owed(retry: Controller, g: nat) {
    && retry.enabled && retry.restarts < retry.maximum && retry.handled != Some(g)
    && (retry.generation.Some? ==> retry.generation.value <= g)
  }

  class Host {
    const world: World
    const catalog: Catalog
    var processes: map<PluginId, Process>
    var kernelRunning: bool
    /** The kernel generation each live connection belongs to. */
    var connections: map<PluginId, nat>
    var slots: map<PluginId, Slot>
    var nextRequest: nat
    var tick: nat
    /** The generation the last explicit start of a plugin aimed at. */
    ghost var enabledAt: map<PluginId, nat>
    /** The failures that were answered with a retry action. */
    ghost var consumed: set<(PluginId, nat)>
    /** How often a failure was answered. */
    ghost var answers: nat
    /** The kernel generations that the host itself declared failed over a connection. */
    ghost var failedByHost: seq<(PluginId, nat)>

    /** Routing: a plugin is connected exactly when it is in the catalog, only registered
        plugins are, and each connection belongs to the current kernel generation. */
    ghost predicate Routed()
      reads this`connections, this`slots, this`processes, catalog
    {
      && catalog.Valid()
      && connections.Keys == catalog.plugins.Keys
      && connections.Keys <= slots.Keys <= processes.Keys
      && Current(connections, processes)
    }

    ghost predicate Inv()
      reads this, catalog
    {
      && Routed() && AllBounded(slots, processes, enabledAt, consumed)
      && answers == |consumed|
      && forall entry :: entry in consumed ==> entry.0 in processes
    }

    /** One more generation stays within the budget of the enable cycle. */
    ghost predicate MayStart(id: PluginId)
      reads this`slots, this`processes, this`enabledAt
    {
      id in slots && id in processes && id in enabledAt
      && processes[id].generation + 1 <= enabledAt[id] + slots[id].retry.restarts
    }

    /** Between public calls an enabled controller knows its generation. */
    ghost predicate Fenced()
      reads this`slots
    {
      forall id :: IsFenced(slots, id)
    }

    ghost predicate OthersFenced(id: PluginId)
      reads this`slots
    {
      forall other :: other != id ==> IsFenced(slots, other)
    }

    ghost predicate Valid()
      reads this, catalog
    {
      Inv() && Fenced() && (slots == map[] || kernelRunning)
    }

    constructor (world: World)
      ensures Valid() && fresh(catalog) && slots == map[] && processes == map[] && connections == map[] && kernelRunning
      ensures this.world == world
    {
      this.world := world;
      catalog := new Catalog();
      processes, kernelRunning, connections, slots, nextRequest, tick := map[], true, map[], map[], 1, 0;
      enabledAt, consumed, answers, failedByHost := map[], {}, 0, [];
    }

    ghost function Now(): Books
      reads this`slots, this`processes, this`enabledAt, this`connections
    {
      Books(slots, processes, enabledAt, connections)
    }

    /** No plugin comes or goes, and those other than `id` stay as they are. */
    twostate predicate OnlyTouches(id: PluginId)
      reads this`slots, this`processes, this`enabledAt, this`connections
    {
      && slots.Keys == old(slots).Keys && processes.Keys == old(processes).Keys
      && OthersStay(world, old(Now()), Now(), id)
    }

    // ----------------------------------------------------------------
    // Kernel calls
    // ----------------------------------------------------------------

    method KernelRefresh()
      requires Inv()
      modifies this`processes, this`tick
      ensures Inv() && SameGenerations(world, old(processes), processes) && tick == old(tick) + 1
      ensures forall id {:trigger Refreshed(world, old(tick), old(processes), processes, id)} ::
                id in processes ==> Refreshed(world, old(tick), old(processes), processes, id)
      ensures AllDrift(world, old(processes), processes)
    {
      ghost var before := processes;
      processes := map id | id in processes ::
        Process(world.refreshed(tick, id, processes[id].state), processes[id].generation);
      tick := tick + 1;
      StatesDoNotMatter(slots, before, processes, enabledAt, consumed, connections);
    }

    /** A refresh for the sake of one process. */
    method Look(id: PluginId) returns (state: PluginState)
      requires Inv() && id in processes
      modifies this`processes, this`tick
      ensures Inv() && SameGenerations(world, old(processes), processes) && tick == old(tick) + 1
      ensures id in processes && AllDrift(world, old(processes), processes)
      ensures state == processes[id].state == world.refreshed(old(tick), id, old(processes)[id].state)
      ensures OthersStay(world, old(Now()), Now(), id)
    {
      ghost var was := Now();
      KernelRefresh();
      GenerationsStay(world, was, Now(), id);
      assert Refreshed(world, old(tick), old(processes), processes, id);
      state := processes[id].state;
    }

    method SetState(id: PluginId, state: PluginState)
      requires Inv() && id in processes
      modifies this`processes
      ensures Inv() && processes == old(processes)[id := Process(state, old(processes)[id].generation)]
      ensures OthersDrift(world, old(processes), processes, id)
    {
      ghost var before := processes;
      processes := processes[id := Process(state, processes[id].generation)];
      StatesDoNotMatter(slots, before, processes, enabledAt, consumed, connections);
    }

    /** `start`: refused while the kernel is stopped or the process is active; otherwise it is
        the next generation, which may fail to spawn. */
    method KernelStart(id: PluginId) returns (ok: bool)
      requires Inv() && id in slots && id !in connections
      requires MayStart(id)
      modifies this`processes, this`tick
      ensures Inv() && OnlyTouches(id)
      ensures !kernelRunning || !world.IsFree(old(tick), id, old(processes)[id].state) ==>
                !ok && processes[id].generation == old(processes)[id].generation
      ensures kernelRunning && world.IsFree(old(tick), id, old(processes)[id].state) ==>
                && ok == world.spawns(old(tick) + 1, id) && tick == old(tick) + 2
                && processes[id] == Process(if ok then Starting else Failed, old(processes)[id].generation + 1)
    {
      if !kernelRunning {
        return false;
      }
      var state := Look(id);
      if state.IsActive() {
        return false;
      }
      ok := world.spawns(tick, id);
      tick := tick + 1;
      ghost var before := processes;
      processes := processes[id := Process(if ok then Starting else Failed, processes[id].generation + 1)];
      forall other | other != id ensures Stays(world, old(Now()), Now(), other) {
        assert DriftsAt(world, old(processes), before, other);
      }
      forall other ensures SlotBounded(slots, processes, enabledAt, consumed, other) {
        assert SlotBounded(slots, before, enabledAt, consumed, other);
      }
      forall other ensures IsCurrent(connections, processes, other) {
        assert IsCurrent(connections, before, other);
      }
    }

    /** `stop`: refused while the kernel is stopped, of an unknown process, or of an active one
        that can no longer be told. */
    method KernelStop(id: PluginId) returns (ok: bool)
      requires Inv()
      modifies this`processes, this`tick
      ensures Inv() && SameGenerations(world, old(processes), processes)
      ensures ok <==> kernelRunning && id in processes
                      && (world.refreshed(old(tick), id, old(processes)[id].state).IsActive() ==>
                          world.stops(old(tick) + 1, id))
      ensures !ok && kernelRunning && id in processes ==> processes[id].state == Stopping && tick == old(tick) + 2
      ensures OthersDrift(world, old(processes), processes, id)
      ensures kernelRunning && id in processes ==>
                processes[id].state == ToldToStop(world.refreshed(old(tick), id, old(processes)[id].state))
      ensures !kernelRunning ==> processes == old(processes)
    {
      if !kernelRunning {
        return false;
      }
      if id !in processes {
        KernelRefresh();
        return false;
      }
      ghost var first := processes;
      var state := Look(id);
      ghost var looked := processes;
      ok := true;
      if state == Registered {
        SetState(id, Stopped);
      } else if state.IsActive() {
        SetState(id, Stopping);
        ok := world.stops(tick, id);
        tick := tick + 1;
      }
      OthersDriftOn(world, first, looked, processes, id);
    }

    method KernelFail(id: PluginId)
      requires Inv()
      modifies this`processes, this`tick
      ensures Inv() && SameGenerations(world, old(processes), processes)
      ensures OthersDrift(world, old(processes), processes, id)
      ensures kernelRunning && id in processes ==> processes[id].state == Failed
      ensures !kernelRunning ==> processes == old(processes)
    {
      if kernelRunning {
        ghost var first := processes;
        KernelRefresh();
        if id in processes {
          ghost var looked := processes;
          SetState(id, Failed);
          OthersDriftOn(world, first, looked, processes, id);
        }
      }
    }

    // ----------------------------------------------------------------
    // Connections
    // ----------------------------------------------------------------

    method DetachConnection(id: PluginId)
      requires Inv()
      modifies this`connections, catalog
      ensures Inv() && connections == old(connections) - {id}
      ensures OthersStay(world, old(Now()), Now(), id)
    {
      ghost var before, was := connections, Now();
      connections := connections - {id};
      forall other ensures IsCurrent(connections, processes, other) {
        assert IsCurrent(before, processes, other);
      }
      catalog.Unregister(id);
      OneLinkChanged(world, was, connections, id);
    }

    /** A failure reported on a connection. With a generation tag it drops a connection or
        fails a process only of that very generation. */
    method FailConnection(id: PluginId, tag: Option<nat>)
      requires Inv()
      modifies this`connections, this`processes, this`tick, this`failedByHost, catalog
      ensures Inv() && SameGenerations(world, old(processes), processes)
      ensures connections ==
              if tag.Some? && id in old(connections) && old(connections)[id] != tag.value
              then old(connections) else old(connections) - {id}
      ensures failedByHost ==
              old(failedByHost) + (if old(Fails(id, tag)) then [(id, old(processes)[id].generation)] else [])
      ensures old(Aims(id, tag)) && kernelRunning && world.Settles(id) ==>
                processes[id].state != Registered && !processes[id].state.IsActive()
      ensures OthersStay(world, old(Now()), Now(), id)
    {
      ghost var was := Now();
      ghost var detached := was;
      var detach := tag.None? || id !in connections || connections[id] == tag.value;
      if detach {
        DetachConnection(id);
        detached := Now();
      }
      FailProcess(id, tag);
      OthersStayOn(world, was, detached, Now(), id);
    }

    /** The report is about the process as it is now. */
    ghost predicate Aims(id: PluginId, tag: Option<nat>)
      reads this`processes
    {
      id in processes && (tag.Some? ==> processes[id].generation == tag.value)
    }

    /** ... which the next refresh does not find ended. */
    ghost predicate Fails(id: PluginId, tag: Option<nat>)
      reads this`processes, this`tick
    {
      Aims(id, tag) && IsLive(world.refreshed(tick, id, processes[id].state))
    }

    method FailProcess(id: PluginId, tag: Option<nat>)
      requires Inv()
      modifies this`processes, this`tick, this`failedByHost
      ensures Inv() && SameGenerations(world, old(processes), processes)
      ensures failedByHost ==
              old(failedByHost) + (if old(Fails(id, tag)) then [(id, old(processes)[id].generation)] else [])
      ensures old(Aims(id, tag)) && kernelRunning && world.Settles(id) ==> !IsLive(processes[id].state)
      ensures OthersStay(world, old(Now()), Now(), id)
    {
      ghost var was := Now();
      FailLive(id, tag);
      GenerationsStay(world, was, Now(), id);
    }

    method FailLive(id: PluginId, tag: Option<nat>)
      requires Inv()
      modifies this`processes, this`tick, this`failedByHost
      ensures Inv() && SameGenerations(world, old(processes), processes)
      ensures failedByHost ==
              old(failedByHost) + (if old(Fails(id, tag)) then [(id, old(processes)[id].generation)] else [])
      ensures old(Aims(id, tag)) && kernelRunning && world.Settles(id) ==> !IsLive(processes[id].state)
      ensures OthersDrift(world, old(processes), processes, id)
    {
      ghost var first := processes;
      KernelRefresh();
      ghost var looked := processes;
      if id !in processes {
        return;
      }
      assert Refreshed(world, old(tick), first, looked, id);
      var generation := if tag.Some? then tag.value else processes[id].generation;
      if processes[id].generation != generation {
        return;
      }
      if processes[id].state.IsActive() || processes[id].state == Registered {
        DeclareFailed(id);
      } else {
        KernelRefresh();
        assert Refreshed(world, old(tick) + 1, looked, processes, id);
      }
      OthersDriftOn(world, first, looked, processes, id);
    }

    /** The host reports the process failed to the kernel, and looks again. */
    method DeclareFailed(id: PluginId)
      requires Inv() && id in processes
      modifies this`processes, this`tick, this`failedByHost
      ensures Inv() && SameGenerations(world, old(processes), processes)
      ensures failedByHost == old(failedByHost) + [(id, old(processes)[id].generation)]
      ensures kernelRunning && world.Settles(id) ==> processes[id].state == Failed
      ensures OthersDrift(world, old(processes), processes, id)
    {
      failedByHost := failedByHost + [(id, processes[id].generation)];
      KernelFail(id);
      ghost var told, n := processes, tick;
      KernelRefresh();
      assert Refreshed(world, n, told, processes, id);
      OthersDriftOn(world, old(processes), told, processes, id);
    }

    /** The controller hears of the current generation of its process. */
    method Observe(id: PluginId)
      requires Inv() && id in slots
      requires forall g :: (id, g) in consumed ==> g < processes[id].generation
      modifies this`slots
      ensures Inv() && id in slots && slots == old(slots)[id := slots[id]]
      ensures SameBudget(old(slots)[id].retry, slots[id].retry)
      ensures slots[id].retry.enabled ==> slots[id].retry.generation == Some(processes[id].generation)
      ensures OthersStay(world, old(Now()), Now(), id)
    {
      ghost var before, was := slots, Now();
      assert SlotBounded(before, processes, enabledAt, consumed, id);
      slots := slots[id := Slot(slots[id].retry.ObserveGeneration(processes[id].generation).0)];
      forall other ensures SlotBounded(slots, processes, enabledAt, consumed, other) {
        assert SlotBounded(before, processes, enabledAt, consumed, other);
      }
      GenerationsStay(world, was, Now(), id);
    }

    /** The kernel half of a start: at most one new generation, which an enabled controller
        then knows. */
    method BeginGeneration(id: PluginId) returns (ok: bool)
      requires Inv() && id in slots && id !in connections && kernelRunning
      requires MayStart(id)
      modifies this`processes, this`tick, this`slots
      ensures Inv() && OnlyTouches(id)
      ensures processes[id].generation == world.Next(old(tick), id, old(processes)[id])
      ensures ok <==> world.Begins(old(tick), id, old(processes)[id].state) && world.spawns(old(tick) + 2, id)
      ensures !ok && world.Begins(old(tick), id, old(processes)[id].state) ==> processes[id].state == Failed
      ensures SameBudget(old(slots)[id].retry, slots[id].retry)
      ensures ok ==>
                && processes[id].state == Starting && tick == old(tick) + 3
                && (slots[id].retry.enabled ==> slots[id].retry.generation == Some(processes[id].generation))
    {
      ghost var was := Now();
      assert forall g :: (id, g) in consumed ==> g <= processes[id].generation by {
        assert SlotBounded(slots, processes, enabledAt, consumed, id);
      }
      ok := LookAndStart(id);
      ghost var begun := Now();
      if ok {
        Observe(id);
        OthersStayOn(world, was, begun, Now(), id);
      }
    }

    method LookAndStart(id: PluginId) returns (ok: bool)
      requires Inv() && id in slots && id !in connections && kernelRunning && MayStart(id)
      modifies this`processes, this`tick
      ensures Inv() && OnlyTouches(id)
      ensures processes[id].generation == world.Next(old(tick), id, old(processes)[id])
      ensures ok <==> world.Begins(old(tick), id, old(processes)[id].state) && world.spawns(old(tick) + 2, id)
      ensures world.Begins(old(tick), id, old(processes)[id].state) ==>
                processes[id].state == if ok then Starting else Failed
      ensures ok ==> tick == old(tick) + 3
    {
      ghost var was := Now();
      var _ := Look(id);
      ghost var looked := Now();
      ok := KernelStart(id);
      OthersStayOn(world, was, looked, Now(), id);
    }

    /** The transport half: connected exactly if controller, handshake and catalog agree. */
    method Connect(id: PluginId) returns (result: HostResult)
      requires Inv() && id in slots && id !in connections
      modifies this`connections, this`processes, this`tick, this`failedByHost, catalog
      ensures Inv() && processes.Keys == old(processes).Keys
      ensures id in processes && processes[id].generation == old(processes)[id].generation
      ensures OthersStay(world, old(Now()), Now(), id)
      ensures result == Started <==> slots[id].retry.enabled && world.ShakesHands(old(tick), id)
      ensures result == Started ==>
                && catalog.plugins == old(catalog.plugins)[id := world.Announced(old(tick), id)]
                && processes == old(processes) && tick == old(tick) + 1
      ensures result == Started ==> connections == old(connections)[id := processes[id].generation]
      ensures result != Started ==> connections == old(connections) && result.FailsToStart()
      ensures result != Started ==>
                && result == Rejected(if slots[id].retry.enabled && world.handshake(old(tick), id).Announces?
                                      then CatalogRefused else HandshakeFailed)
                && (kernelRunning && world.Settles(id) ==> !IsLive(processes[id].state))
    {
      var generation := processes[id].generation;
      ghost var was := Now();
      if !slots[id].retry.enabled {
        FailConnection(id, Some(generation));
        return Rejected(HandshakeFailed);
      }
      var handshake := world.handshake(tick, id);
      tick := tick + 1;
      ghost var asked := Now();
      if handshake.Refused? {
        FailConnection(id, Some(generation));
        return Rejected(HandshakeFailed);
      }
      var attached := Attach(id, handshake.capabilities);
      if !attached {
        FailConnection(id, Some(generation));
        return Rejected(CatalogRefused);
      }
      OthersStayOn(world, was, asked, Now(), id);
      return Started;
    }

    /** The plugin joins the catalog and the connections, if the catalog takes it. */
    method Attach(id: PluginId, capabilities: seq<Capability>) returns (ok: bool)
      requires Inv() && id in slots && id !in connections
      modifies this`connections, catalog
      ensures Inv() && id in processes && OthersStay(world, old(Now()), Now(), id)
      ensures ok <==> DistinctCapabilities(capabilities)
      ensures ok ==>
                && catalog.plugins == old(catalog.plugins)[id := capabilities]
                && connections == old(connections)[id := processes[id].generation]
      ensures !ok ==> catalog.plugins == old(catalog.plugins) && connections == old(connections)
    {
      ghost var before, was := connections, Now();
      var registered := catalog.Register(id, capabilities);
      ok := registered.Ok?;
      if ok {
        connections := connections[id := processes[id].generation];
        forall other ensures IsCurrent(connections, processes, other) {
          assert IsCurrent(before, processes, other);
        }
        OneLinkChanged(world, was, connections, id);
      } else {
        GenerationsStay(world, was, was, id);
      }
    }

    /** One start attempt: a new generation exactly if the process is not active, and a
        connection exactly if kernel, controller, handshake and catalog all agree. The
        controller keeps its budget; it may only learn the new generation. */
    method StartGeneration(id: PluginId) returns (result: HostResult)
      requires Inv() && id in slots && kernelRunning
      requires MayStart(id)
      modifies this`connections, this`processes, this`tick, this`slots, this`failedByHost, catalog
      ensures Inv() && OnlyTouches(id)
      ensures processes[id].generation == world.Next(old(tick), id, old(processes)[id])
      ensures SameBudget(old(slots)[id].retry, slots[id].retry)
      ensures result == Started <==>
                world.StartsUp(old(tick), id, old(processes)[id].state) && old(slots)[id].retry.enabled
      ensures result == Started ==>
                && id in connections && connections[id] == processes[id].generation
                && catalog.plugins[id] == world.Announced(old(tick) + 3, id)
                && processes[id].state == Starting
                && slots[id].retry.generation == Some(processes[id].generation)
      ensures result != Started ==> id !in connections && result.FailsToStart()
      ensures result == Rejected(KernelRefused) <==>
                !(world.Begins(old(tick), id, old(processes)[id].state) && world.spawns(old(tick) + 2, id))
      ensures result == Rejected(KernelRefused) && world.Begins(old(tick), id, old(processes)[id].state) ==>
                processes[id].state == Failed
      ensures result != Started && world.Begins(old(tick), id, old(processes)[id].state) && world.Settles(id) ==>
                !IsLive(processes[id].state)
    {
      ghost var was := Now();
      DetachConnection(id);
      ghost var detached := Now();
      var ok := BeginGeneration(id);
      ghost var begun := Now();
      OthersStayOn(world, was, detached, begun, id);
      if !ok {
        result := Rejected(KernelRefused);
      } else {
        assert tick == old(tick) + 3 && slots[id].retry.enabled == old(slots)[id].retry.enabled;
        result := Connect(id);
        OthersStayOn(world, was, begun, Now(), id);
      }
    }

    // ----------------------------------------------------------------
    // Stopping
    // ----------------------------------------------------------------

    /** Stops routing, asks the process to stop, and waits for it up to a deadline. A refused
        stop leaves the process Stopping, which is not the end of it. */
    method StopCurrent(id: PluginId) returns (ok: bool)
      requires Inv()
      modifies this`connections, this`processes, this`tick, this`failedByHost, catalog
      ensures Inv() && SameGenerations(world, old(processes), processes)
      ensures id in slots && kernelRunning ==>
                (ok <==> !world.RefusesStop(old(tick), id, old(processes)[id].state))
      ensures id in slots && kernelRunning && !ok ==> processes[id].state == Stopping && tick == old(tick) + 3
      ensures id in slots ==> connections == old(connections) - {id}
      ensures id !in slots ==> !ok && connections == old(connections)
      ensures ok && kernelRunning && world.Settles(id) ==> id in processes && !processes[id].state.IsActive()
      ensures OthersStay(world, old(Now()), Now(), id)
    {
      ghost var was := Now();
      ok := false;
      if id in slots {
        DetachConnection(id);
        ghost var detached := Now();
        ok := StopAndWait(id);
        GenerationsStay(world, detached, Now(), id);
        OthersStayOn(world, was, detached, Now(), id);
      } else {
        GenerationsStay(world, was, Now(), id);
      }
    }

    method StopAndWait(id: PluginId) returns (ok: bool)
      requires Inv() && id in processes
      modifies this`processes, this`tick, this`failedByHost
      ensures Inv() && SameGenerations(world, old(processes), processes)
      ensures kernelRunning ==> (ok <==> !world.RefusesStop(old(tick), id, old(processes)[id].state))
      ensures kernelRunning && !ok ==> processes[id].state == Stopping && tick == old(tick) + 3
      ensures ok && kernelRunning && world.Settles(id) ==> !processes[id].state.IsActive()
      ensures OthersDrift(world, old(processes), processes, id)
    {
      ghost var first := processes;
      ok := StopProcess(id);
      if ok {
        ghost var told := processes;
        WaitForStop(id);
        OthersDriftOn(world, first, told, processes, id);
      }
    }

    /** A process that is not active need not be told to stop. */
    method StopProcess(id: PluginId) returns (ok: bool)
      requires Inv() && id in processes
      modifies this`processes, this`tick
      ensures Inv() && SameGenerations(world, old(processes), processes)
      ensures kernelRunning ==> (ok <==> !world.RefusesStop(old(tick), id, old(processes)[id].state))
      ensures kernelRunning && !ok ==> processes[id].state == Stopping && tick == old(tick) + 3
      ensures OthersDrift(world, old(processes), processes, id)
    {
      ghost var first := processes;
      var state := Look(id);
      ok := true;
      if state.IsActive() {
        ghost var looked := processes;
        ok := KernelStop(id);
        OthersDriftOn(world, first, looked, processes, id);
      }
    }

    /** Until the process is no longer active, or declared failed at the deadline. */
    method WaitForStop(id: PluginId)
      requires Inv() && id in processes
      modifies this`processes, this`tick, this`failedByHost
      ensures Inv() && SameGenerations(world, old(processes), processes)
      ensures kernelRunning && world.Settles(id) ==> !processes[id].state.IsActive()
      ensures !world.refreshed(old(tick), id, old(processes)[id].state).IsActive() ==> failedByHost == old(failedByHost)
      ensures OthersDrift(world, old(processes), processes, id)
    {
      var polls := world.polls(tick);
      while true
        invariant Inv() && SameGenerations(world, old(processes), processes) && id in processes
        invariant OthersDrift(world, old(processes), processes, id)
        invariant tick > old(tick) ==> world.refreshed(old(tick), id, old(processes)[id].state).IsActive()
        invariant tick == old(tick) ==> processes == old(processes) && failedByHost == old(failedByHost)
        invariant tick >= old(tick)
        decreases polls
      {
        ghost var first, n := processes, tick;
        KernelRefresh();
        assert Refreshed(world, n, first, processes, id);
        OthersDriftOn(world, old(processes), first, processes, id);
        if !processes[id].state.IsActive() {
          break;
        }
        if polls == 0 {
          ghost var looked := processes;
          DeclareFailed(id);
          OthersDriftOn(world, old(processes), looked, processes, id);
          break;
        }
        polls := polls - 1;
      }
    }

    method DisableRetry(id: PluginId)
      requires Inv()
      modifies this`slots
      ensures Inv()
      ensures slots == if id in old(slots) then old(slots)[id := Slot(old(slots)[id].retry.Disabled())] else old(slots)
      ensures OthersStay(world, old(Now()), Now(), id)
    {
      ghost var was := Now();
      if id in slots {
        ghost var before := slots;
        slots := slots[id := Slot(slots[id].retry.Disabled())];
        forall other ensures SlotBounded(slots, processes, enabledAt, consumed, other) {
          assert SlotBounded(before, processes, enabledAt, consumed, other);
        }
      }
      GenerationsStay(world, was, Now(), id);
    }

    /** Until the next explicit enable. */
    method Disable(id: PluginId) returns (ok: bool)
      requires Valid()
      modifies this`connections, this`processes, this`tick, this`slots, this`failedByHost
      modifies this`consumed, this`answers, catalog
      ensures Valid() && OnlyTouches(id) && SameGenerations(world, old(processes), processes)
      ensures consumed == old(consumed)
      ensures id in slots ==>
                && !slots[id].retry.enabled && id !in connections
                && (ok <==> !world.RefusesStop(old(tick), id, old(processes)[id].state))
                && (ok && world.Settles(id) ==> !processes[id].state.IsActive())
      ensures id !in slots ==> !ok && connections == old(connections)
    {
      if id !in slots {
        return false;
      }
      ghost var was := Now();
      DisableRetry(id);
      ghost var quiet := Now();
      ok := StopCurrent(id);
      OthersStayOn(world, was, quiet, Now(), id);
      FenceStays(world, was, Now(), id);
    }

    // ----------------------------------------------------------------
    // Explicit starts
    // ----------------------------------------------------------------

    /** `enable`, `restart` and `manual_restart`: the only way to a fresh budget. A start that
        fails leaves the plugin disabled, except when the old process could not be told to
        stop: then nothing but the connection has changed, and an enabled plugin is still
        enabled. */
    method ManualStart(id: PluginId) returns (result: HostResult)
      requires Valid()
      modifies this`connections, this`processes, this`tick, this`slots, this`failedByHost, this`enabledAt, catalog
      ensures Valid() && OnlyTouches(id)
      ensures result == Rejected(UnknownPlugin) <==> id !in old(slots)
      ensures id !in old(slots) ==>
                slots == old(slots) && processes == old(processes) && connections == old(connections)
      ensures id in old(slots) ==>
                && id in slots && (result == Started <==> id in connections)
                && old(processes)[id].generation <= processes[id].generation <= old(processes)[id].generation + 1
                && (result == Rejected(StopRefused) <==> world.RefusesStop(old(tick), id, old(processes)[id].state))
      ensures result == Started ==>
                && slots[id].retry.enabled && slots[id].retry.restarts == 0
                && id in enabledAt && processes[id].generation == enabledAt[id] == old(processes)[id].generation + 1
      ensures id in old(slots) && result != Started ==>
                (slots[id].retry.enabled <==> result == Rejected(StopRefused) && old(slots)[id].retry.enabled)
      ensures result == Rejected(StopRefused) ==>
                && slots == old(slots) && enabledAt == old(enabledAt) && tick == old(tick) + 3
                && processes[id] == Process(Stopping, old(processes)[id].generation)
      ensures id in old(slots) && result.FailsToStart() && world.Settles(id) ==> !IsLive(processes[id].state)
    {
      if id !in slots {
        return Rejected(UnknownPlugin);
      }
      ghost var was := Now();
      var stopped := StopCurrent(id);
      ghost var idle := Now();
      if stopped {
        result := StartAfresh(id);
        OthersStayOn(world, was, idle, Now(), id);
      } else {
        result := Rejected(StopRefused);
      }
    }

    /** A fresh cycle and its first start, once the old process is out of the way. */
    method StartAfresh(id: PluginId) returns (result: HostResult)
      requires Valid() && id in slots
      modifies this`connections, this`processes, this`tick, this`slots, this`failedByHost, this`enabledAt, catalog
      ensures Valid() && OnlyTouches(id)
      ensures processes[id].generation == world.Next(old(tick), id, old(processes)[id])
      ensures result == Started <==> world.StartsUp(old(tick), id, old(processes)[id].state)
      ensures result == Started <==> id in connections
      ensures result == Started <==> slots[id].retry.enabled
      ensures slots[id].retry.restarts == 0 && slots[id].retry.maximum == old(slots)[id].retry.maximum
      ensures id in enabledAt && enabledAt[id] == old(processes)[id].generation + 1
      ensures result == Started || result.FailsToStart()
      ensures result != Started && world.Begins(old(tick), id, old(processes)[id].state) && world.Settles(id) ==>
                !IsLive(processes[id].state)
    {
      ghost var was := Now();
      FreshCycle(id);
      ghost var reset := Now();
      FenceStays(world, was, reset, id);
      result := ExplicitStart(id);
      OthersStayOn(world, was, reset, Now(), id);
    }

    /** A start asked for by the user: if it fails, the plugin is quiet until asked again. */
    method ExplicitStart(id: PluginId) returns (result: HostResult)
      requires Inv() && MayStart(id) && kernelRunning && slots[id].retry.enabled
      requires OthersFenced(id)
      modifies this`connections, this`processes, this`tick, this`slots, this`failedByHost, catalog
      ensures Valid() && OnlyTouches(id)
      ensures processes[id].generation == world.Next(old(tick), id, old(processes)[id])
      ensures result == Started <==> world.StartsUp(old(tick), id, old(processes)[id].state)
      ensures result == Started <==> id in connections
      ensures result == Started <==> slots[id].retry.enabled
      ensures SameCycle(old(slots)[id].retry, slots[id].retry)
      ensures result == Started ==>
                && connections[id] == processes[id].generation && processes[id].state == Starting
                && slots[id].retry.generation == Some(processes[id].generation)
      ensures result == Started || result.FailsToStart()
      ensures result != Started && world.Begins(old(tick), id, old(processes)[id].state) && world.Settles(id) ==>
                !IsLive(processes[id].state)
    {
      ghost var was := Now();
      result := StartGeneration(id);
      if result != Started {
        ghost var begun := Now();
        DisableRetry(id);
        OthersStayOn(world, was, begun, Now(), id);
      }
      FenceStays(world, was, Now(), id);
    }

    /** `manual_restart` of the controller. */
    method FreshCycle(id: PluginId)
      requires Inv() && id in slots
      modifies this`slots, this`enabledAt
      ensures Inv() && MayStart(id)
      ensures OthersStay(world, old(Now()), Now(), id)
      ensures slots == old(slots)[id := Slot(old(slots)[id].retry.ManualRestart())]
      ensures enabledAt == old(enabledAt)[id := processes[id].generation + 1]
    {
      ghost var before, goals := slots, enabledAt;
      slots := slots[id := Slot(slots[id].retry.ManualRestart())];
      enabledAt := enabledAt[id := processes[id].generation + 1];
      forall other ensures SlotBounded(slots, processes, enabledAt, consumed, other) {
        assert SlotBounded(before, processes, goals, consumed, other);
      }
      forall other | other != id ensures Stays(world, old(Now()), Now(), other) {
      }
    }

    /** `launch`: registers a new plugin and starts it once, or refuses a known one. */
    method Launch(id: PluginId) returns (result: HostResult)
      requires Valid()
      modifies this`connections, this`processes, this`tick, this`slots, this`failedByHost, this`enabledAt, catalog
      ensures Valid() && OthersStay(world, old(Now()), Now(), id)
      ensures !kernelRunning || id in old(processes) ==>
                && result == Rejected(KernelRefused) && slots == old(slots) && processes == old(processes)
                && enabledAt == old(enabledAt) && connections == old(connections)
      ensures kernelRunning && id !in old(processes) ==>
                && slots.Keys == old(slots).Keys + {id} && processes.Keys == old(processes).Keys + {id}
                && slots[id].retry.maximum == MAX_AUTOMATIC_RESTARTS && slots[id].retry.restarts == 0
                && slots[id].retry.handled == None
                && id in enabledAt && enabledAt[id] == 1
                && processes[id].generation == (if world.Begins(old(tick), id, Registered) then 1 else 0)
                && (result == Started <==> world.StartsUp(old(tick), id, Registered))
                && (result == Started <==> id in connections)
                && (result == Started <==> slots[id].retry.enabled)
                && (result == Started ==>
                      processes[id] == Process(Starting, 1) && slots[id].retry.generation == Some(1))
    {
      if !kernelRunning || id in processes {
        return Rejected(KernelRefused);
      }
      ghost var was := Now();
      Register(id);
      ghost var registered := Now();
      FenceStays(world, was, registered, id);
      result := ExplicitStart(id);
      OthersStayOn(world, was, registered, Now(), id);
    }

    /** `register` of the kernel, and the slot that goes with it. */
    method Register(id: PluginId)
      requires Valid() && kernelRunning && id !in processes
      modifies this`processes, this`slots, this`enabledAt
      ensures Inv() && MayStart(id) && OthersStay(world, old(Now()), Now(), id)
      ensures processes == old(processes)[id := Process(Registered, 0)]
      ensures slots == old(slots)[id := Slot(NewController(MAX_AUTOMATIC_RESTARTS))]
      ensures enabledAt == old(enabledAt)[id := 1]
    {
      ghost var before, known, goals := slots, processes, enabledAt;
      processes := processes[id := Process(Registered, 0)];
      slots := slots[id := Slot(NewController(MAX_AUTOMATIC_RESTARTS))];
      enabledAt := enabledAt[id := 1];
      forall other ensures SlotBounded(slots, processes, enabledAt, consumed, other) {
        assert SlotBounded(before, known, goals, consumed, other);
      }
      forall other | other != id ensures Stays(world, old(Now()), Now(), other) {
      }
      forall other ensures IsCurrent(connections, processes, other) {
        assert IsCurrent(connections, known, other);
      }
    }

    // ----------------------------------------------------------------
    // Automatic recovery
    // ----------------------------------------------------------------

    method DisableFailedPlugin(id: PluginId)
      requires Inv() && id in slots
      modifies this`connections, this`processes, this`tick, this`slots, this`failedByHost, catalog
      ensures Inv() && SameGenerations(world, old(processes), processes)
      ensures OthersStay(world, old(Now()), Now(), id)
      ensures slots == old(slots)[id := Slot(old(slots)[id].retry.Disabled())]
      ensures connections == old(connections) - {id}
    {
      ghost var was := Now();
      DisableRetry(id);
      ghost var quiet := Now();
      var _ := StopCurrent(id);
      OthersStayOn(world, was, quiet, Now(), id);
      assert connections - {id} == connections;
      DetachConnection(id);
    }

    /** What a controller makes of a failure. */
    method Answer(was: Controller, g: nat, ghost generation: nat, ghost goal: nat, ghost id: PluginId,
                  ghost eaten: set<(PluginId, nat)>)
      returns (now: Controller, action: Option<RetryAction>)
      requires BoundedAt(was, generation, goal, id, eaten) && g <= generation
      requires was.enabled ==> was.generation.Some?
      ensures BoundedAt(now, generation, goal, id, if action.Some? then eaten + {(id, g)} else eaten)
      ensures now.maximum == was.maximum && (was.generation.Some? ==> now.generation.Some?)
      ensures action.Some? <==> was.enabled && was.generation.value <= g && was.handled != Some(g)
      ensures action.None? ==> now == was
      ensures action.Some? ==>
                && now.generation == now.handled == Some(g) && (id, g) !in eaten
                && action.value == (if was.restarts < was.maximum then Restart(was.restarts + 1) else DisablePlugin)
                && now.restarts == was.restarts + (if action.value.Restart? then 1 else 0)
                && (action.value.Restart? ==> now.enabled && generation + 1 <= goal + now.restarts)
    {
      FailureIsBounded(was, g, generation, goal, id, eaten);
      var observed := was.ObserveGeneration(g);
      now, action := observed.0, None;
      if observed.1 {
        var answer := observed.0.OnFailure(g);
        now, action := answer.0, answer.1;
      }
    }

    /** Consumes one failure: exactly one that the controller neither answered yet nor knows
        to be older than its generation. */
    method ConsumeFailure(id: PluginId, generation: nat) returns (action: Option<RetryAction>)
      requires Inv() && id in slots && generation <= processes[id].generation
      requires slots[id].retry.enabled ==> slots[id].retry.generation.Some?
      modifies this`slots, this`consumed, this`answers
      ensures Inv() && id in slots && slots == old(slots)[id := slots[id]] && OthersStay(world, old(Now()), Now(), id)
      ensures var was, now := old(slots)[id].retry, slots[id].retry;
              && now.maximum == was.maximum && (was.generation.Some? ==> now.generation.Some?)
              && (action.Some? <==>
                  was.enabled && was.generation.value <= generation && was.handled != Some(generation))
              && (action.None? ==> consumed == old(consumed) && now == was)
              && answers == old(answers) + (if action.Some? then 1 else 0)
              && (action.Some? ==>
                    && now.generation == now.handled == Some(generation)
                    && (id, generation) !in old(consumed) && consumed == old(consumed) + {(id, generation)}
                    && action.value == (if was.restarts < was.maximum then Restart(was.restarts + 1) else DisablePlugin)
                    && now.restarts == was.restarts + (if action.value.Restart? then 1 else 0)
                    && (action.value.Restart? ==> now.enabled && MayStart(id)))
    {
      ghost var before, eaten := slots, consumed;
      assert SlotBounded(before, processes, enabledAt, eaten, id);
      var retry;
      retry, action := Answer(slots[id].retry, generation, processes[id].generation, enabledAt[id], id, consumed);
      slots := slots[id := Slot(retry)];
      if action.Some? {
        assert |consumed + {(id, generation)}| == |consumed| + 1;
        consumed, answers := consumed + {(id, generation)}, answers + 1;
      }
      OneSlotChanged(before, slots, processes, enabledAt, eaten, consumed, id);
      forall other | other != id ensures Stays(world, old(Now()), Now(), other) {
      }
    }

    /** Reacts to one failed process. The failure of its current generation is answered by a
        next generation exactly if a restart is owed for it. */
    method RecoverFailedPlugin(id: PluginId, generation: nat) returns (progressed: bool)
      requires Valid() && id in processes && generation <= processes[id].generation
      modifies this`connections, this`processes, this`tick, this`slots, this`failedByHost
      modifies this`consumed, this`answers, catalog
      ensures Valid() && OnlyTouches(id)
      ensures RecoveredIn(old(Now()), Now(), id)
      ensures id !in slots || !old(slots)[id].retry.enabled ==>
                !progressed && SameGenerations(world, old(processes), processes)
      ensures id in slots && world.Settles(id) && old(processes)[id] == Process(Failed, generation) ==>
                processes[id].generation == generation + (if Owed(old(slots)[id].retry, generation) then 1 else 0)
      ensures progressed ==> (id, generation) !in old(consumed) && consumed == old(consumed) + {(id, generation)}
      ensures !progressed ==> Now() == old(Now()) && consumed == old(consumed)
      ensures !progressed && id in slots ==> !Owed(slots[id].retry, generation)
      ensures id in slots && Owed(old(slots)[id].retry, generation)
              && world.StartsUp(old(tick), id, old(processes)[id].state) ==>
                slots[id].retry.enabled && id in connections && processes[id].state == Starting
    {
      progressed := false;
      if id in slots {
        ghost var was := Now();
        assert IsFenced(slots, id);
        var action := ConsumeFailure(id, generation);
        ghost var eaten := Now();
        progressed := action.Some?;
        if progressed {
          AnswerFailure(id, generation, action.value);
          OthersStayOn(world, was, eaten, Now(), id);
        }
        FenceStays(world, was, Now(), id);
      }
    }

    /** The answer to a failure is carried out. */
    method AnswerFailure(id: PluginId, generation: nat, action: RetryAction)
      requires Inv() && id in slots && kernelRunning
      requires action.Restart? ==>
                 MayStart(id) && slots[id].retry.enabled && slots[id].retry.generation.Some?
      modifies this`connections, this`processes, this`tick, this`slots, this`failedByHost, catalog
      ensures Inv() && OnlyTouches(id) && IsFenced(slots, id)
      ensures slots[id].retry.restarts == old(slots)[id].retry.restarts
      ensures slots[id].retry.maximum == old(slots)[id].retry.maximum
      ensures slots[id].retry.enabled ==> action.Restart?
      ensures action.Restart? ==> RestartWent(old(tick), old(processes)[id], id, generation)
      ensures processes[id].generation ==
              if action.Restart? then world.Next(old(tick), id, old(processes)[id])
              else old(processes)[id].generation
    {
      if action.DisablePlugin? {
        DisableFailedPlugin(id);
      } else {
        RestartAfterFailure(id, generation);
      }
    }

    /** A restart that starts up leaves the plugin enabled and connected; so does one whose process could not be
        spawned, but for the connection. Otherwise the plugin stays enabled only with a newer generation that has
        failed. */
    ghost predicate RestartWent(n: nat, process: Process, id: PluginId, generation: nat)
      requires id in slots && id in processes
      reads this`slots, this`processes, this`connections
    {
      if world.StartsUp(n, id, process.state) then
        slots[id].retry.enabled && id in connections && processes[id].state == Starting
      else
        && id !in connections
        && (slots[id].retry.enabled ==> processes[id].generation > generation && processes[id].state == Failed)
        && (world.Begins(n, id, process.state) && !world.spawns(n + 2, id) && world.Settles(id)
            && generation <= process.generation ==>
              slots[id].retry.enabled)
    }

    /** The restart that was just paid for; it disables the plugin unless it produced a new
        generation, even a failed one. */
    method RestartAfterFailure(id: PluginId, generation: nat)
      requires Inv() && MayStart(id) && slots[id].retry.enabled && slots[id].retry.generation.Some? && kernelRunning
      modifies this`connections, this`processes, this`tick, this`slots, this`failedByHost, catalog
      ensures Inv() && OnlyTouches(id)
      ensures processes[id].generation == world.Next(old(tick), id, old(processes)[id])
      ensures slots[id].retry.restarts == old(slots)[id].retry.restarts
      ensures slots[id].retry.maximum == old(slots)[id].retry.maximum
      ensures slots[id].retry.enabled ==> slots[id].retry.generation.Some?
      ensures RestartWent(old(tick), old(processes)[id], id, generation)
    {
      ghost var was := Now();
      var started := StartGeneration(id);
      if started != Started {
        ghost var begun := Now();
        KernelRefresh();
        GenerationsStay(world, begun, Now(), id);
        if !(processes[id].generation > generation && processes[id].state == Failed) {
          ghost var looked := Now();
          OthersStayOn(world, was, begun, looked, id);
          DisableFailedPlugin(id);
          OthersStayOn(world, was, looked, Now(), id);
        } else {
          OthersStayOn(world, was, begun, Now(), id);
        }
      }
    }

    /** One of the failed processes of a snapshot. */
    method RecoverNext(id: PluginId, generation: nat, ghost was: Books, ghost left: set<PluginId>)
      returns (moved: bool)
      requires Valid() && Recovering(world, was, Now(), left) && id in left
      requires id in was.processes && was.processes[id] == Process(Failed, generation)
      modifies this`connections, this`processes, this`tick, this`slots, this`failedByHost
      modifies this`consumed, this`answers, catalog
      ensures Valid() && Recovering(world, was, Now(), left - {id})
      ensures SamePlugins(old(Now()), Now())
      ensures old(consumed) <= consumed && (moved ==> old(consumed) < consumed)
      ensures !moved ==> Now() == old(Now())
      ensures !moved && old(Now()) == was ==> IsPaid(was, id)
    {
      ghost var mid := Now();
      assert Stays(world, was, mid, id);
      moved := RecoverFailedPlugin(id, generation);
      RecoveringOn(world, was, mid, Now(), left, id);
    }

    /** The failed processes of one kernel snapshot, one after the other. */
    method RecoverSnapshot() returns (progressed: bool)
      requires Valid()
      modifies this`connections, this`processes, this`tick, this`slots, this`failedByHost
      modifies this`consumed, this`answers, catalog
      ensures Valid() && Recovered(old(Now()), Now())
      ensures forall id :: id in processes ==> PaidIn(world, old(Now()), Now(), id)
      ensures UnfailedStay(world, old(Now()), Now())
      ensures progressed ==> |consumed| > |old(consumed)|
      ensures old(consumed) <= consumed
      ensures !progressed ==> Now() == old(Now()) && NothingOwed(Now())
    {
      var snapshot := processes;
      var failures := set id | id in snapshot && snapshot[id].state == Failed;
      ghost var was := Now();
      progressed := false;
      while failures != {}
        invariant Valid() && Recovering(world, was, Now(), failures)
        invariant failures <= snapshot.Keys == processes.Keys
        invariant forall id :: id in failures ==> snapshot[id].state == Failed
        invariant old(consumed) <= consumed && (progressed ==> old(consumed) < consumed)
        invariant !progressed ==> Now() == was
        invariant !progressed ==> OnlyOwed(was, failures)
        decreases failures
      {
        var id :| id in failures;
        var moved := RecoverNext(id, snapshot[id].generation, was, failures);
        failures := failures - {id};
        progressed := progressed || moved;
      }
      if progressed {
        StrictSubsetIsSmaller(old(consumed), consumed);
      }
    }

    /** A bounded number of snapshots; the controllers are the real limit. */
    method RecoverFailedPlugins() returns (ghost rounds: nat)
      requires Valid()
      modifies this`connections, this`processes, this`tick, this`slots, this`failedByHost
      modifies this`consumed, this`answers, catalog
      ensures Valid() && Recovered(old(Now()), Now()) && old(consumed) <= consumed
      ensures forall id :: id in processes ==> PaidIn(world, old(Now()), Now(), id)
      ensures UpStay(world, old(Now()), Now())
      ensures 1 <= rounds <= MAX_AUTOMATIC_RESTARTS + 1
      ensures rounds <= MAX_AUTOMATIC_RESTARTS ==> NothingOwed(Now())
      ensures forall id :: id in slots && old(GoesDown(id)) ==> processes[id].generation > old(processes)[id].generation
    {
      var progressed := true;
      var round := 0;
      ghost var was := Now();
      while progressed && round <= MAX_AUTOMATIC_RESTARTS
        invariant Valid() && Recovered(was, Now()) && old(consumed) <= consumed
        invariant round == 0 ==> progressed && Now() == was && tick == old(tick)
        invariant round > 0 ==>
                    forall id :: id in slots && old(GoesDown(id)) ==>
                      processes[id].generation > was.processes[id].generation
        invariant UpStay(world, was, Now())
        invariant round > 0 ==> forall id :: id in processes ==> PaidIn(world, was, Now(), id)
        invariant 0 <= round <= MAX_AUTOMATIC_RESTARTS + 1
        invariant !progressed ==> round > 0 && NothingOwed(Now())
      {
        ghost var before, n := Now(), tick;
        KernelRefresh();
        ghost var looked := Now();
        GenerationsRecover(world, before, looked);
        UpStayInRefresh(world, before, looked);
        progressed := RecoverSnapshot();
        UnfailedMeansUp(world, looked, Now());
        UpStayOn(world, before, looked, Now());
        UpStayOn(world, was, before, Now());
        RecoveredOn(world, before, looked, Now());
        RecoveredOn(world, was, before, Now());
        forall id | id in slots && old(GoesDown(id)) ensures processes[id].generation > was.processes[id].generation {
          assert RecoveredIn(before, Now(), id) && RecoveredIn(was, before, id);
          if round == 0 {
            assert Refreshed(world, n, before.processes, looked.processes, id);
            assert PaidIn(world, looked, Now(), id);
          }
        }
        round := round + 1;
      }
      rounds := round;
    }

    method PruneInactiveConnections()
      requires Valid()
      modifies this`connections, catalog
      ensures Valid()
      ensures connections == map id | id in old(connections) && processes[id].state.IsActive() :: old(connections)[id]
      ensures UpStay(world, old(Now()), Now()) && Recovered(old(Now()), Now())
    {
      ghost var was := Now();
      var candidates := connections.Keys;
      while candidates != {}
        invariant Valid() && candidates <= connections.Keys <= old(connections).Keys
        invariant forall id :: id in old(connections) ==>
                    (id in connections <==> id in candidates || processes[id].state.IsActive())
        invariant forall id :: id in connections ==> connections[id] == old(connections)[id]
        decreases candidates
      {
        var id :| id in candidates;
        candidates := candidates - {id};
        if id !in processes || !processes[id].state.IsActive() {
          DetachConnection(id);
        }
      }
      PrunedUpStay(world, was, Now());
    }

    /** `refresh`: it ends, grants no plugin more generations than restarts left in its
        cycle, does not start a disabled one, and leaves only live connections. */
    method Refresh()
      requires Valid()
      modifies this`connections, this`processes, this`tick, this`slots, this`failedByHost
      modifies this`consumed, this`answers, catalog
      ensures Valid() && Recovered(old(Now()), Now()) && old(consumed) <= consumed
      ensures forall id :: id in connections ==> processes[id].state.IsActive()
      ensures JustSeen(world, tick, processes)
      ensures UpStay(world, old(Now()), Now())
      ensures forall id :: id in slots && !old(slots)[id].retry.enabled ==>
                             !slots[id].retry.enabled && processes[id].generation == old(processes)[id].generation
      ensures forall id :: id in slots && old(GoesDown(id)) ==> processes[id].generation > old(processes)[id].generation
    {
      ghost var was := Now();
      RefreshAndRecover();
      ghost var settled := Now();
      LookAgain();
      ghost var looked := Now();
      RecoveredOn(world, was, settled, looked);
      UpStayOn(world, was, settled, looked);
      forall id | id in slots && !old(slots)[id].retry.enabled
        ensures !slots[id].retry.enabled && processes[id].generation == old(processes)[id].generation
      {
        assert RecoveredIn(was, looked, id);
      }
      PruneInactiveConnections();
      RecoveredOn(world, was, looked, Now());
      UpStayOn(world, was, looked, Now());
    }

    method RefreshAndRecover()
      requires Valid()
      modifies this`connections, this`processes, this`tick, this`slots, this`failedByHost
      modifies this`consumed, this`answers, catalog
      ensures Valid() && Recovered(old(Now()), Now()) && old(consumed) <= consumed
      ensures forall id :: id in slots && old(GoesDown(id)) ==> processes[id].generation > old(processes)[id].generation
      ensures UpStay(world, old(Now()), Now())
    {
      ghost var was, n := Now(), tick;
      KernelRefresh();
      ghost var looked := Now();
      GenerationsRecover(world, was, looked);
      UpStayInRefresh(world, was, looked);
      ghost var _ := RecoverFailedPlugins();
      RecoveredOn(world, was, looked, Now());
      UpStayOn(world, was, looked, Now());
      forall id | id in slots && old(GoesDown(id)) ensures processes[id].generation > old(processes)[id].generation {
        assert Refreshed(world, n, was.processes, looked.processes, id);
        assert PaidIn(world, looked, Now(), id);
      }
    }

    method LookAgain()
      requires Valid()
      modifies this`processes, this`tick
      ensures Valid() && Recovered(old(Now()), Now()) && SameGenerations(world, old(processes), processes)
      ensures UpStay(world, old(Now()), Now())
      ensures JustSeen(world, tick, processes)
    {
      ghost var was, n := Now(), tick;
      KernelRefresh();
      GenerationsRecover(world, was, Now());
      UpStayInRefresh(world, was, Now());
      forall id | id in processes ensures Seen(world, n, id, processes[id].state) {
        assert Refreshed(world, n, was.processes, processes, id);
      }
    }

    /** The next refresh finds the process failed, and its generation is owed a restart. */
    ghost predicate GoesDown(id: PluginId)
      reads this`slots, this`processes, this`tick
    {
      && id in slots && id in processes && world.Settles(id)
      && world.refreshed(tick, id, processes[id].state) == Failed
      && Owed(slots[id].retry, processes[id].generation)
    }

    /** Since the last explicit start, and over any failure pattern, at most three automatic
        starts: the generation that start aimed at is at most three behind. */
    lemma AtMostThreeAutomaticStarts(id: PluginId)
      requires Valid() && id in slots
      ensures id in processes && id in enabledAt && processes[id].generation <= enabledAt[id] + MAX_AUTOMATIC_RESTARTS
    {
      assert SlotBounded(slots, processes, enabledAt, consumed, id);
    }

    lemma LeftIsBounded(id: PluginId)
      requires Valid()
      ensures id in slots ==> slots[id].retry.Valid()
      ensures 0 <= RestartsLeft(Now(), id) <= MAX_AUTOMATIC_RESTARTS
    {
      assert SlotBounded(slots, processes, enabledAt, consumed, id);
    }

    // ----------------------------------------------------------------
    // Calls and shutdown
    // ----------------------------------------------------------------

    /** What the caller is told about an exchange with the plugin. */
    predicate Tells(exchange: Exchange, outcome: CallOutcome) {
      match exchange
      case SendFails => outcome.Unavailable?
      case ReceiveFails => outcome.Unavailable?
      case Completed(decodes) => if decodes then outcome == Replied else outcome.Violates?
      case Declined => outcome == Declines
      case WrongReply => outcome.Violates?
    }

    /** The plugin lost its connection and its process has ended; no other plugin is affected. */
    twostate predicate Broken(id: PluginId)
      reads this`slots, this`processes, this`enabledAt, this`connections
    {
      && connections == old(connections) - {id} && OthersStay(world, old(Now()), Now(), id)
      && (world.Settles(id) ==> id in processes && !IsLive(processes[id].state))
    }

    /** The connection of the current generation is reported broken. */
    method Break(id: PluginId)
      requires Valid() && id in connections
      modifies this`connections, this`processes, this`tick, this`failedByHost, catalog
      ensures Valid() && SameGenerations(world, old(processes), processes) && Broken(id)
      ensures failedByHost == old(failedByHost)
              || failedByHost == old(failedByHost) + [(id, old(connections)[id])]
    {
      assert IsCurrent(connections, processes, id);
      FailConnection(id, Some(connections[id]));
    }

    /** One invocation. A routed plugin always has its connection, so neither of the missing
        connection branches is ever taken, and a transport error fails only that plugin. */
    method Invoke(capability: Capability, encodes: bool, exchange: Exchange) returns (outcome: CallOutcome)
      requires Valid()
      modifies this`connections, this`processes, this`tick, this`failedByHost, this`nextRequest, catalog
      ensures Valid() && SameGenerations(world, old(processes), processes)
      ensures connections.Keys <= old(connections).Keys
      ensures forall id :: id in old(connections) && id !in connections ==>
                             outcome == Unavailable(id) || outcome == Violates(id)
      ensures failedByHost != old(failedByHost) ==>
                && (outcome.Unavailable? || outcome.Violates?) && outcome.plugin in old(connections)
                && failedByHost == old(failedByHost) + [(outcome.plugin, old(connections)[outcome.plugin])]
      ensures outcome.Unavailable? || outcome.Violates? ==> Broken(outcome.plugin)
      ensures !(outcome.Unavailable? || outcome.Violates?) ==>
                && processes == old(processes) && tick == old(tick) && connections == old(connections)
                && failedByHost == old(failedByHost) && catalog.plugins == old(catalog.plugins)
      ensures outcome.Unavailable? || outcome.Violates? ==>
                old(catalog.Providers(capability.id, capability.version)) == {outcome.plugin}
      ensures outcome != NoRoute ==> if encodes then Tells(exchange, outcome) else outcome == BadRequest
      ensures nextRequest == (if outcome == NoRoute then old(nextRequest)
                              else if old(nextRequest) >= U64_MAX then 1 else old(nextRequest) + 1)
      ensures outcome == NoRoute <==> !exists p :: old(catalog.Providers(capability.id, capability.version)) == {p}
      ensures outcome == Replied <==>
                encodes && exchange == Completed(true)
                && exists p :: old(catalog.Providers(capability.id, capability.version)) == {p}
    {
      var route := Route(capability);
      if route.None? {
        return NoRoute;
      }
      var plugin := route.value;
      nextRequest := if nextRequest < U64_MAX then nextRequest + 1 else 1;
      if !encodes {
        return BadRequest;
      }
      outcome := Transact(plugin, exchange);
    }

    method Route(capability: Capability) returns (plugin: Option<PluginId>)
      requires Valid()
      ensures plugin.Some? <==> exists p :: catalog.Providers(capability.id, capability.version) == {p}
      ensures plugin.Some? ==>
                plugin.value in connections && catalog.Providers(capability.id, capability.version) == {plugin.value}
    {
      var route := catalog.ResolveUnique(capability.id, capability.version);
      if route.Err? {
        return None;
      }
      assert route.value in catalog.Providers(capability.id, capability.version);
      plugin := Some(route.value);
    }

    /** The request goes out and its answer comes in, over the connection of the plugin. */
    method Transact(plugin: PluginId, exchange: Exchange) returns (outcome: CallOutcome)
      requires Valid() && plugin in connections
      modifies this`connections, this`processes, this`tick, this`failedByHost, catalog
      ensures Valid() && SameGenerations(world, old(processes), processes)
      ensures Tells(exchange, outcome) && (outcome.Unavailable? || outcome.Violates? ==> outcome.plugin == plugin)
      ensures outcome.Unavailable? || outcome.Violates? ==> Broken(plugin)
      ensures failedByHost == old(failedByHost)
              || failedByHost == old(failedByHost) + [(plugin, old(connections)[plugin])]
      ensures !(outcome.Unavailable? || outcome.Violates?) ==>
                && processes == old(processes) && tick == old(tick) && connections == old(connections)
                && failedByHost == old(failedByHost) && catalog.plugins == old(catalog.plugins)
    {
      if exchange.SendFails? {
        Break(plugin);
        return Unavailable(plugin);
      }
      if exchange.ReceiveFails? {
        Break(plugin);
        return Unavailable(plugin);
      }
      if exchange == Completed(true) {
        return Replied;
      }
      if exchange.Declined? {
        return Declines;
      }
      Break(plugin);
      return Violates(plugin);
    }

    /** `shutdown`: every plugin is disconnected and forgotten, and no process is left active. */
    method Shutdown()
      requires Valid()
      modifies this`connections, this`processes, this`tick, this`slots, this`kernelRunning, catalog
      ensures Valid() && SameGenerations(world, old(processes), processes)
      ensures slots == map[] && connections == map[] && catalog.plugins == map[] && !kernelRunning
      ensures old(kernelRunning) ==> forall id :: id in processes ==> !processes[id].state.IsActive()
      ensures old(kernelRunning) ==>
                forall id :: id in processes && world.StaysStarted(id) ==> processes[id].state != Registered
    {
      var ids := connections.Keys;
      connections := map[];
      while ids != {}
        invariant catalog.Valid() && catalog.plugins.Keys == ids
        invariant connections == map[] && slots == old(slots) && processes == old(processes) && tick == old(tick)
        invariant enabledAt == old(enabledAt) && consumed == old(consumed) && kernelRunning == old(kernelRunning)
        decreases ids
      {
        var id :| id in ids;
        ids := ids - {id};
        catalog.Unregister(id);
      }
      KernelShutdown();
      slots := map[];
    }

    /** Active processes are told to stop and waited for. */
    method KernelShutdown()
      requires Inv()
      modifies this`processes, this`tick, this`kernelRunning
      ensures Inv() && SameGenerations(world, old(processes), processes) && !kernelRunning
      ensures old(kernelRunning) ==> forall id :: id in processes ==> !processes[id].state.IsActive()
      ensures old(kernelRunning) ==>
                forall id :: id in processes && world.StaysStarted(id) ==> processes[id].state != Registered
    {
      if kernelRunning {
        RefreshAndMoveAll(Dismissed);
        RefreshAndMoveAll(Ended);
        kernelRunning := false;
      }
    }

    method RefreshAndMoveAll(next: PluginState -> PluginState)
      requires Inv() && next(Failed) == Failed
      modifies this`processes, this`tick
      ensures Inv() && SameGenerations(world, old(processes), processes)
      ensures forall id :: id in processes ==>
                processes[id].state == next(world.refreshed(old(tick), id, old(processes)[id].state))
    {
      ghost var before, n := processes, tick;
      KernelRefresh();
      ghost var seen := processes;
      MoveAll(next);
      forall id | id in processes
        ensures processes[id].state == next(world.refreshed(n, id, before[id].state))
      {
        assert Refreshed(world, n, before, seen, id);
      }
    }

    method MoveAll(next: PluginState -> PluginState)
      requires Inv() && next(Failed) == Failed
      modifies this`processes
      ensures Inv() && SameGenerations(world, old(processes), processes)
      ensures forall id :: id in processes ==> processes[id].state == next(old(processes)[id].state)
    {
      ghost var before := processes;
      processes := map id | id in processes :: Process(next(processes[id].state), processes[id].generation);
      StatesDoNotMatter(slots, before, processes, enabledAt, consumed, connections);
    }
  }

  /** A stopping process, or one that was never started. */
  function Dismissed(state: PluginState): PluginState {
    if state.IsActive() then Stopping else if state == Registered then Stopped else state
  }

  function Ended(state: PluginState): PluginState {
    if state.IsActive() then Failed else state
  }

  // ------------------------------------------------------------------
  // Whole sequences of calls
  // ------------------------------------------------------------------

  datatype HostCall =
    | LaunchPlugin(id: PluginId)
    | StartPlugin(id: PluginId)
    | DisablePluginNow(id: PluginId)
    | RefreshAll
    | InvokeCapability(capability: Capability, encodes: bool, exchange: Exchange)
    | ShutdownHost
  {
    /** The calls that are explicit starts of `p`. */
    predicate Starts(p: PluginId) {
      this == LaunchPlugin(p) || this == StartPlugin(p)
    }
  }

  predicate NeverStarts(calls: seq<HostCall>, id: PluginId) {
    forall k :: 0 <= k < |calls| ==> !calls[k].Starts(id)
  }

  ghost predicate IsEnabled(books: Books, id: PluginId) {
    id in books.slots && books.slots[id].retry.enabled
  }

  ghost function RestartsLeft(books: Books, id: PluginId): int {
    if IsEnabled(books, id) then books.slots[id].retry.maximum - books.slots[id].retry.restarts else 0
  }

  /** Nobody asked for a start of the plugin: its generation and the restarts it has left
      together do not grow, and it is enabled only if it was. */
  ghost predicate Unasked(was: Books, now: Books, id: PluginId) {
    id in was.processes ==>
      && id in now.processes
      && was.processes[id].generation <= now.processes[id].generation
      && now.processes[id].generation + RestartsLeft(now, id) <= was.processes[id].generation + RestartsLeft(was, id)
      && (IsEnabled(now, id) ==> IsEnabled(was, id))
      && (id in was.goals ==> id in now.goals && now.goals[id] == was.goals[id])
  }

  lemma OthersAreUnasked(world: World, was: Books, now: Books, id: PluginId)
    requires OthersStay(world, was, now, id) && now.slots.Keys <= was.slots.Keys + {id}
    ensures forall other :: other != id ==> Unasked(was, now, other)
  {
    forall other | other != id ensures Unasked(was, now, other) {
      assert Stays(world, was, now, other);
    }
  }

  /** One public call. Whoever it does not explicitly start is left unasked. */
  method PerformCall(host: Host, call: HostCall)
    requires host.Valid()
    modifies host, host.catalog
    ensures host.Valid() && old(host.consumed) <= host.consumed
    ensures forall id :: !call.Starts(id) ==> Unasked(old(host.Now()), host.Now(), id)
  {
    ghost var was := host.Now();
    forall id ensures RestartsLeft(was, id) >= 0 {
      host.LeftIsBounded(id);
    }
    match call
    case LaunchPlugin(id) =>
      var _ := host.Launch(id);
      OthersAreUnasked(host.world, was, host.Now(), id);
    case StartPlugin(id) =>
      var _ := host.ManualStart(id);
      OthersAreUnasked(host.world, was, host.Now(), id);
    case DisablePluginNow(id) =>
      var _ := host.Disable(id);
      OthersAreUnasked(host.world, was, host.Now(), id);
    case RefreshAll =>
      host.Refresh();
      forall id ensures Unasked(was, host.Now(), id) {
        host.LeftIsBounded(id);
        assert RecoveredIn(was, host.Now(), id);
      }
    case InvokeCapability(capability, encodes, exchange) =>
      var _ := host.Invoke(capability, encodes, exchange);
    case ShutdownHost =>
      host.Shutdown();
  }

  /** Over any sequence of public calls, and whatever the processes do: a plugin that no call
      starts explicitly gets at most as many new generations as its cycle had restarts left,
      so at most three, and none at all once it is disabled, which it then stays. */
  method PerformCalls(host: Host, calls: seq<HostCall>)
    requires host.Valid()
    modifies host, host.catalog
    ensures host.Valid() && old(host.consumed) <= host.consumed
    ensures host.answers - old(host.answers) == |host.consumed - old(host.consumed)|
    ensures forall id :: id in old(host.processes) && NeverStarts(calls, id) ==>
                           Unasked(old(host.Now()), host.Now(), id)
    ensures forall id :: id in old(host.processes) && NeverStarts(calls, id) ==>
                           && id in host.processes
                           && host.processes[id].generation <=
                              old(host.processes)[id].generation + MAX_AUTOMATIC_RESTARTS
                           && (!IsEnabled(old(host.Now()), id) ==>
                                 && !IsEnabled(host.Now(), id)
                                 && host.processes[id].generation == old(host.processes)[id].generation)
  {
    ghost var was := host.Now();
    forall id ensures 0 <= RestartsLeft(was, id) <= MAX_AUTOMATIC_RESTARTS {
      host.LeftIsBounded(id);
    }
    for k := 0 to |calls|
      invariant host.Valid() && old(host.consumed) <= host.consumed
      invariant forall id :: id in was.processes && NeverStarts(calls[..k], id) ==> Unasked(was, host.Now(), id)
    {
      ghost var before := host.Now();
      PerformCall(host, calls[k]);
      forall id | id in was.processes && NeverStarts(calls[..k + 1], id) ensures Unasked(was, host.Now(), id) {
        assert calls[..k + 1][k] == calls[k];
        assert forall j :: 0 <= j < k ==> calls[..k][j] == calls[..k + 1][j];
        assert Unasked(was, before, id) && Unasked(before, host.Now(), id);
      }
    }
    assert calls[..|calls|] == calls;
    assert host.consumed == old(host.consumed) + (host.consumed - old(host.consumed));
    forall id | id in was.processes && NeverStarts(calls, id)
      ensures Unasked(was, host.Now(), id) && 0 <= RestartsLeft(host.Now(), id)
    {
      host.LeftIsBounded(id);
    }
  }

  /** After an explicit start that failed, no sequence of calls without another explicit start
      brings the plugin back, unless the start failed because the old process could not be told
      to stop and the plugin was enabled. */
  method FailedStartStaysQuiet(host: Host, id: PluginId, calls: seq<HostCall>)
    returns (result: HostResult, settled: nat)
    requires host.Valid() && id in host.slots && NeverStarts(calls, id)
    modifies host, host.catalog
    ensures host.Valid() && id in host.processes
    ensures settled <= old(host.processes)[id].generation + 1
    ensures result == Rejected(StopRefused) <==>
              host.world.RefusesStop(old(host.tick), id, old(host.processes)[id].state)
    ensures result != Started && !(result == Rejected(StopRefused) && old(IsEnabled(host.Now(), id))) ==>
              !IsEnabled(host.Now(), id) && host.processes[id].generation == settled
  {
    result := host.ManualStart(id);
    settled := host.processes[id].generation;
    PerformCalls(host, calls);
  }

  /** In that one case a refresh alone brings it back, if the process then goes down with a
      restart left. */
  method RefusedStopComesBack(host: Host, id: PluginId) returns (result: HostResult)
    requires host.Valid() && id in host.slots && host.world.Settles(id)
    requires host.world.RefusesStop(host.tick, id, host.processes[id].state)
    requires host.world.refreshed(host.tick + 3, id, Stopping) == Failed
    requires Owed(host.slots[id].retry, host.processes[id].generation)
    modifies host, host.catalog
    ensures host.Valid() && id in host.processes && result == Rejected(StopRefused)
    ensures host.processes[id].generation > old(host.processes)[id].generation
  {
    result := host.ManualStart(id);
    assert host.GoesDown(id);
    host.Refresh();
  }

  /** A world in which a process exits between the refresh of a stop and its message. */
  function ExitsWhileStopped(): World {
    World((n, id, s) => if s == Stopping then Failed else s, (n, id) => true, (n, id) => false, n => 0,
          (n, id) => Announces([]))
  }

  /** It happens: launched, refused, and back at a new generation without being asked. */
  method RefusedStopIsReachable(id: PluginId) returns (answer: HostResult, launched: nat, refreshed: nat)
    ensures answer == Rejected(StopRefused) && launched == 1 < refreshed
  {
    var host := new Host(ExitsWhileStopped());
    assert host.world.StartsUp(host.tick, id, Registered);
    var _ := host.Launch(id);
    launched := host.processes[id].generation;
    answer := RefusedStopComesBack(host, id);
    refreshed := host.processes[id].generation;
  }

  lemma StrictSubsetIsSmaller<T>(small: set<T>, large: set<T>)
    requires small < large
    ensures |small| < |large|
  {
    var x :| x in large && x !in small;
    assert small <= large - {x};
    SubsetIsNotLarger(small, large - {x});
  }

  lemma {:induction false} SubsetIsNotLarger<T>(small: set<T>, large: set<T>)
    requires small <= large
    ensures |small| <= |large|
  {
    if small != {} {
      var x :| x in small;
      SubsetIsNotLarger(small - {x}, large - {x});
    }
  }
}
