/** Startup and lifecycle of statically registered plugins
    (crates/yunxi-cordis-runtime/src/runtime.rs). */
module CordisRuntime {
  import opened Wrappers

  type PluginId = string
  type Service = string

  // ------------------------------------------------------------------
  // Manifests and records
  // ------------------------------------------------------------------

  datatype Role = Core | AgentSpine | Optional {
    predicate IsRequired() { Core? || AgentSpine? }
  }

  datatype Risk = Safe | External

  datatype Enablement = Always | WhenSafe | Never

  datatype Manifest = Manifest(id: PluginId, role: Role, risk: Risk, enablement: Enablement) {
    predicate DefaultEnabled() {
      role.IsRequired() || enablement.Always? || (enablement.WhenSafe? && risk.Safe?)
    }
  }

  datatype Lifecycle = Disabled | Pending | Mounting | Mounted | Failed | Unmounting

  datatype FiberState = FiberMounting | FiberMounted | FiberFailed | FiberUnmounting | FiberUnmounted

  datatype Phase = Factory | Identity | Mount | Unmount

  datatype Failure = Failure(phase: Phase, attempts: nat)

  datatype Record = Record(enabled: bool, lifecycle: Lifecycle, fiber: Option<nat>,
                           fiberState: Option<FiberState>, failure: Option<Failure>, attempts: nat)

  const MAX_MOUNT_ATTEMPTS: nat := 255

  datatype Error =
    | RuntimeClosed
    | UnknownPlugin
    | CorePluginCannotDisable
    | InvalidPluginState
    | MountRefused(phase: Phase, missing: bool)
    | UnmountFailed
    | RequiredPluginFailed
    | RootFailed

  type RuntimeResult<T> = Result<T, Error>

  // ------------------------------------------------------------------
  // What the runtime does not decide: the plugins and the root scope
  // ------------------------------------------------------------------

  datatype MountAnswer =
    | FactoryPanics
    | IdentityFails
    | MissingDependency
    | MountFails
    | Mounts(fiber: nat)

  /** Answers of the plugins. The n-th interaction with plugin p while the root offers s
      gives an answer and what the root offers afterwards. */
  datatype World = World(mount: (nat, PluginId, set<Service>) -> (MountAnswer, set<Service>),
                         unmount: (nat, PluginId, set<Service>) -> (bool, set<Service>),
                         rootDisposes: bool)

  function NewRecord(m: Manifest): Record {
    Record(m.DefaultEnabled(), if m.DefaultEnabled() then Pending else Disabled, None, None, None, 0)
  }

  function Capped(attempts: nat): nat {
    if attempts > MAX_MOUNT_ATTEMPTS then MAX_MOUNT_ATTEMPTS else attempts
  }

  function FailureOf(phase: Phase, attempts: nat): Failure {
    Failure(phase, if attempts == 0 then 1 else attempts)
  }

  datatype Report = Report(activated: seq<nat>, skipped: seq<nat>, failures: seq<nat>)

  ghost predicate DistinctManifests(registry: seq<Manifest>) {
    forall i, j :: 0 <= i < j < |registry| ==> registry[i].id != registry[j].id
  }

  // ------------------------------------------------------------------
  // The dependency fixpoint
  // ------------------------------------------------------------------

  /** A plugin whose mount outcome depends on the root services alone: it fails before or
      after its dependencies are checked, or it mounts and adds `offers` to the root. */
  datatype Spec = Spec(deps: set<Service>, offers: set<Service>, failsEarly: bool, failsLate: bool) {
    predicate CanMount() { !failsEarly && !failsLate }
  }

  predicate Agrees(spec: Spec, offered: set<Service>, answer: MountAnswer, after: set<Service>) {
    if spec.failsEarly then (answer.FactoryPanics? || answer.IdentityFails?) && after == offered
    else if !(spec.deps <= offered) then answer.MissingDependency? && after == offered
    else if spec.failsLate then answer.MountFails? && after == offered
    else answer.Mounts? && after == offered + spec.offers
  }

  /** Only successful mounts add root services; all else is fixed per plugin. */
  ghost predicate Fixed(registry: seq<Manifest>, world: World, specs: map<PluginId, Spec>) {
    && (forall i :: 0 <= i < |registry| ==> registry[i].id in specs)
    && forall i, n: nat, s ::
      0 <= i < |registry| ==>
        Agrees(specs[registry[i].id], s, world.mount(n, registry[i].id, s).0, world.mount(n, registry[i].id, s).1)
  }

  /** What the root offers once the plugins of `mounted` are up. */
  ghost function Offered(base: set<Service>, specs: map<PluginId, Spec>, mounted: set<PluginId>): set<Service> {
    base + set id, x | id in mounted && id in specs && x in specs[id].offers :: x
  }

  /** No wanted plugin outside `mounted` could still mount. */
  ghost predicate Saturated(base: set<Service>, specs: map<PluginId, Spec>, wanted: set<PluginId>,
                            mounted: set<PluginId>) {
    forall id :: id in wanted && id in specs && specs[id].CanMount() && specs[id].deps <= Offered(base, specs, mounted)
                 ==> id in mounted
  }

  ghost predicate BelowSaturated(base: set<Service>, specs: map<PluginId, Spec>, wanted: set<PluginId>,
                                 mounted: set<PluginId>)
  {
    forall other :: Saturated(base, specs, wanted, other) ==> mounted <= other
  }

  /** The least set of wanted plugins that no further mount can extend. */
  ghost predicate LeastFixpoint(base: set<Service>, specs: map<PluginId, Spec>, wanted: set<PluginId>,
                                mounted: set<PluginId>)
  {
    mounted <= wanted && Saturated(base, specs, wanted, mounted) && BelowSaturated(base, specs, wanted, mounted)
  }

  /** What the fixpoint is about: the services at the start, the plugins and the wanted ids. */
  datatype Goal = Goal(base: set<Service>, specs: map<PluginId, Spec>, wanted: set<PluginId>)

  predicate IsMissing(error: Error) {
    error.MountRefused? && error.missing
  }

  /** The order of the registry plays no part: the wanted plugins and their dependencies
      determine which plugins are mounted. */
  lemma LeastFixpointIsUnique(base: set<Service>, specs: map<PluginId, Spec>, wanted: set<PluginId>,
                              one: set<PluginId>, two: set<PluginId>)
    requires LeastFixpoint(base, specs, wanted, one) && LeastFixpoint(base, specs, wanted, two)
    ensures one == two && Offered(base, specs, one) == Offered(base, specs, two)
  {
    assert one <= two && two <= one;
  }

  lemma OfferedGrows(base: set<Service>, specs: map<PluginId, Spec>, small: set<PluginId>, large: set<PluginId>)
    requires small <= large
    ensures Offered(base, specs, small) <= Offered(base, specs, large)
  {
  }

  /** A plugin that mounts on top of `mounted` belongs to every saturated set. */
  lemma MountStaysBelow(base: set<Service>, specs: map<PluginId, Spec>, wanted: set<PluginId>,
                        mounted: set<PluginId>, id: PluginId)
    requires BelowSaturated(base, specs, wanted, mounted)
    requires id in wanted && id in specs && specs[id].CanMount() && specs[id].deps <= Offered(base, specs, mounted)
    ensures BelowSaturated(base, specs, wanted, mounted + {id})
    ensures Offered(base, specs, mounted + {id}) == Offered(base, specs, mounted) + specs[id].offers
  {
    forall other | Saturated(base, specs, wanted, other) ensures mounted + {id} <= other {
      OfferedGrows(base, specs, mounted, other);
    }
    var more := Offered(base, specs, mounted + {id});
    forall x | x in specs[id].offers ensures x in more {
      assert id in mounted + {id};
    }
    forall x | x in Offered(base, specs, mounted) ensures x in more {
      if x !in base {
        var p :| p in mounted && p in specs && x in specs[p].offers;
        assert p in mounted + {id};
      }
    }
  }

  class Runtime {
    const registry: seq<Manifest>
    const world: World
    var records: map<PluginId, Record>
    var overrides: map<PluginId, bool>
    var started: bool
    var closed: bool
    /** Services of the root scope. */
    var services: set<Service>
    /** How many times a plugin has been asked something. */
    var clock: nat

    ghost predicate Valid()
      reads this`records
    {
      && DistinctManifests(registry)
      && forall i :: 0 <= i < |registry| ==> registry[i].id in records
    }

    function EffectiveEnabled(m: Manifest): bool
      reads this`overrides
    {
      if m.role.IsRequired() then true
      else if m.id in overrides then overrides[m.id]
      else m.DefaultEnabled()
    }

    /** Between calls: a fiber is held exactly by a mounted entry, nothing is half way, and
        an entry is enabled exactly when its override or default says so. */
    ghost predicate SettledAt(i: nat)
      requires i < |registry|
      reads this`records, this`overrides
    {
      && registry[i].id in records
      && var r := records[registry[i].id];
         && (r.fiber.Some? <==> r.lifecycle == Mounted)
         && r.lifecycle != Mounting && r.lifecycle != Unmounting
         && r.enabled == EffectiveEnabled(registry[i])
         && (r.lifecycle == Disabled ==> !r.enabled)
         && (!r.enabled ==> r.fiber.None?)
    }

    ghost predicate Settled()
      reads this`records, this`overrides
    {
      Valid() && forall i :: 0 <= i < |registry| ==> SettledAt(i)
    }

    /** Between public calls; a closed runtime holds nothing. */
    ghost predicate AtRest()
      reads this`records, this`overrides, this`closed
    {
      Valid() && if closed then forall i :: 0 <= i < |registry| ==> IsDisabled(records, i) else Settled()
    }

    /** No required plugin lost or changed its fiber. */
    twostate predicate RequiredStayMounted()
      reads this`records
    {
      forall i :: 0 <= i < |registry| && registry[i].role.IsRequired() && registry[i].id in old(records)
                  && old(records)[registry[i].id].fiber.Some? ==>
                    registry[i].id in records && records[registry[i].id].fiber == old(records)[registry[i].id].fiber
    }

    /** Only the record of plugin i may differ. */
    twostate predicate OnlyRecord(i: nat)
      requires i < |registry|
      reads this`records
    {
      registry[i].id in records && records == old(records)[registry[i].id := records[registry[i].id]]
    }

    constructor (registry: seq<Manifest>, world: World, services: set<Service>)
      requires DistinctManifests(registry)
      ensures Settled() && !started && !closed && overrides == map[]
      ensures this.registry == registry && this.world == world && this.services == services
    {
      this.registry, this.world := registry, world;
      records := map i | 0 <= i < |registry| :: registry[i].id := NewRecord(registry[i]);
      overrides, started, closed, clock := map[], false, false, 0;
      this.services := services;
    }

    function HasFiber(i: nat): bool
      requires Valid() && i < |registry|
      reads this`records
    {
      records[registry[i].id].fiber.Some?
    }

    method Put(i: nat, r: Record)
      requires Valid() && i < |registry|
      modifies this`records
      ensures Valid() && OnlyRecord(i) && records[registry[i].id] == r
    {
      records := records[registry[i].id := r];
    }

    method DeactivateWithoutMount(i: nat)
      requires Valid() && i < |registry|
      modifies this`records
      ensures Valid() && OnlyRecord(i)
      ensures var r := old(records)[registry[i].id];
              records[registry[i].id] ==
              Record(false, Disabled, r.fiber, if r.fiber.None? then None else r.fiberState, None, 0)
    {
      var r := records[registry[i].id];
      Put(i, Record(false, Disabled, r.fiber, if r.fiber.None? then None else r.fiberState, None, 0));
    }

    method ResetForManualMount(i: nat)
      requires Valid() && i < |registry|
      modifies this`records
      ensures Valid() && OnlyRecord(i)
      ensures records[registry[i].id] ==
              old(records)[registry[i].id].(failure := None, attempts := 0, fiberState := None, lifecycle := Pending)
    {
      Put(i, records[registry[i].id].(failure := None, attempts := 0, fiberState := None, lifecycle := Pending));
    }

    method RecordFailure(i: nat, phase: Phase)
      requires Valid() && i < |registry|
      modifies this`records
      ensures Valid() && OnlyRecord(i)
      ensures var r := old(records)[registry[i].id];
              records[registry[i].id] ==
              r.(lifecycle := Failed,
                 fiberState := match phase
                               case Factory => None
                               case Identity => None
                               case Mount => Some(FiberFailed)
                               case Unmount => Some(FiberUnmounted),
                 failure := Some(FailureOf(phase, r.attempts)))
    {
      var r := records[registry[i].id];
      var state := match phase
                   case Factory => None
                   case Identity => None
                   case Mount => Some(FiberFailed)
                   case Unmount => Some(FiberUnmounted);
      Put(i, r.(lifecycle := Failed, fiberState := state, failure := Some(FailureOf(phase, r.attempts))));
    }

    /** Mounts plugin i. The answer and the services afterwards are the world's. */
    method MountIndex(i: nat) returns (result: RuntimeResult<nat>)
      requires Valid() && i < |registry|
      modifies this`records, this`services, this`clock
      ensures Valid() && OnlyRecord(i)
      ensures old(HasFiber(i)) ==>
                && result == Err(InvalidPluginState) && records == old(records) && services == old(services)
                && clock == old(clock)
      ensures !old(HasFiber(i)) ==>
                var (answer, after) := world.mount(old(clock), registry[i].id, old(services));
                && services == after && clock == old(clock) + 1
                && records[registry[i].id].enabled
                && (if answer.Mounts? then
                      && result == Ok(answer.fiber)
                      && records[registry[i].id] ==
                         Record(true, Mounted, Some(answer.fiber), Some(FiberMounted), None, 0)
                    else
                      && result == Err(MountRefused(if answer.FactoryPanics? then Factory
                                                    else if answer.IdentityFails? then Identity else Mount,
                                                    answer.MissingDependency?))
                      && records[registry[i].id].lifecycle == Failed && records[registry[i].id].fiber == None
                      && records[registry[i].id].failure == Some(Failure(
                           if answer.FactoryPanics? then Factory else if answer.IdentityFails? then Identity else Mount,
                           records[registry[i].id].attempts))
                      && records[registry[i].id].attempts == Capped(old(records)[registry[i].id].attempts + 1))
                && MountTried(i, old(clock), old(services), records[registry[i].id], services, Silent(result))
    {
      var r := records[registry[i].id];
      if r.fiber.Some? {
        return Err(InvalidPluginState);
      }
      var attempts := if r.attempts + 1 <= MAX_MOUNT_ATTEMPTS then r.attempts + 1 else MAX_MOUNT_ATTEMPTS;
      Put(i, Record(true, Mounting, None, Some(FiberMounting), None, attempts));
      var (answer, after) := world.mount(clock, registry[i].id, services);
      services, clock := after, clock + 1;
      match answer {
        case FactoryPanics =>
          RecordFailure(i, Factory);
          result := Err(MountRefused(Factory, false));
        case IdentityFails =>
          RecordFailure(i, Identity);
          result := Err(MountRefused(Identity, false));
        case Mounts(fiber) =>
          Put(i, Record(true, Mounted, Some(fiber), Some(FiberMounted), None, 0));
          result := Ok(fiber);
        case _ =>
          RecordFailure(i, Mount);
          result := Err(MountRefused(Mount, answer.MissingDependency?));
      }
    }

    /** The plugin was asked to unmount; it gave up its services or reported a failure, and holds no fiber either
        way. */
    ghost predicate Unmounted(i: nat, tick: nat, offered: set<Service>, r: Record, offered': set<Service>,
                              result: RuntimeResult<()>)
      requires i < |registry|
    {
      var (ok, after) := world.unmount(tick, registry[i].id, offered);
      && offered' == after
      && result == (if ok then Ok(()) else Err(UnmountFailed))
      && r == Record(false, Disabled, None, Some(FiberUnmounted), if ok then None else Some(Failure(Unmount, 1)), 0)
    }

    /** The plugin was asked to mount; it holds a fiber exactly if it did. */
    ghost predicate MountTried(i: nat, tick: nat, offered: set<Service>, r: Record, offered': set<Service>,
                               result: RuntimeResult<()>)
      requires i < |registry|
    {
      var (answer, after) := world.mount(tick, registry[i].id, offered);
      && offered' == after
      && if answer.Mounts? then
           result == Ok(()) && r == Record(true, Mounted, Some(answer.fiber), Some(FiberMounted), None, 0)
         else
           && result.Err? && result.error.MountRefused? && (result.error.missing <==> answer.MissingDependency?)
           && r.enabled && r.lifecycle == Failed && r.fiber == None && r.failure.Some?
    }

    function Silent<T>(result: RuntimeResult<T>): RuntimeResult<()> {
      if result.Ok? then Ok(()) else Err(result.error)
    }

    /** The entry without a question to the plugin. */
    ghost predicate LeftAlone(r: Record, wanted: bool, r': Record)
      reads `started
    {
      if !wanted then r' == Record(false, Disabled, None, None, None, 0)
      else if started then r' == r
      else if r.fiber.None? then r' == Record(true, Pending, None, None, None, 0)
      else r' == Record(true, Mounted, r.fiber, r.fiberState, None, 0)
    }

    /** What a toggle makes of an entry: one that holds a fiber and is not wanted is unmounted, one that holds none
        and is wanted after startup is mounted, and otherwise no plugin is asked anything. */
    ghost predicate Toggled(i: nat, r: Record, wanted: bool, tick: nat, offered: set<Service>,
                            r': Record, tick': nat, offered': set<Service>, result: RuntimeResult<()>)
      requires i < |registry|
      reads `started
    {
      if r.fiber.Some? && !wanted then Unmounted(i, tick, offered, r', offered', result) && tick' == tick + 1
      else if r.fiber.None? && wanted && started then
        MountTried(i, tick, offered, r', offered', result) && tick' == tick + 1
      else LeftAlone(r, wanted, r') && offered' == offered && tick' == tick && result == Ok(())
    }

    /** Unmounts plugin i; the fiber is given up even when its disposal fails. */
    method UnmountIndex(i: nat, allowRequired: bool) returns (result: RuntimeResult<()>)
      requires Valid() && i < |registry|
      modifies this`records, this`services, this`clock
      ensures Valid() && OnlyRecord(i)
      ensures !allowRequired && registry[i].role.IsRequired() ==>
                && result == Err(CorePluginCannotDisable) && records == old(records) && services == old(services)
                && clock == old(clock)
      ensures allowRequired || !registry[i].role.IsRequired() ==>
                var r := records[registry[i].id];
                && r.fiber == None && r.lifecycle == Disabled && !r.enabled
                && (!old(HasFiber(i)) ==> result == Ok(()) && r == Record(false, Disabled, None, None, None, 0)
                                          && services == old(services) && clock == old(clock))
                && (old(HasFiber(i)) ==>
                      && Unmounted(i, old(clock), old(services), r, services, result) && clock == old(clock) + 1
                      && (r.failure.Some? <==> result.Err?))
    {
      if !allowRequired && registry[i].role.IsRequired() {
        return Err(CorePluginCannotDisable);
      }
      if records[registry[i].id].fiber.None? {
        Put(i, Record(false, Disabled, None, None, None, 0));
        return Ok(());
      }
      Put(i, records[registry[i].id].(lifecycle := Unmounting, fiberState := Some(FiberUnmounting)));
      var (ok, after) := world.unmount(clock, registry[i].id, services);
      services, clock := after, clock + 1;
      Put(i, Record(false, Disabled, None, Some(FiberUnmounted), if ok then None else Some(FailureOf(Unmount, 1)), 0));
      result := if ok then Ok(()) else Err(UnmountFailed);
    }

    // ----------------------------------------------------------------
    // Startup
    // ----------------------------------------------------------------

    ghost function IdsOf(indexes: seq<nat>): set<PluginId> {
      set k | 0 <= k < |indexes| && indexes[k] < |registry| :: registry[indexes[k]].id
    }

    ghost predicate Indexes(indexes: seq<nat>) {
      (forall k :: 0 <= k < |indexes| ==> indexes[k] < |registry|)
      && forall j, k :: 0 <= j < k < |indexes| ==> indexes[j] != indexes[k]
    }

    /** Retried after the pass: back to Pending, without a failure. */
    method DeferMissingDependency(i: nat)
      requires Valid() && i < |registry|
      modifies this`records
      ensures Valid() && OnlyRecord(i)
      ensures records[registry[i].id] ==
              old(records)[registry[i].id].(lifecycle := Pending, fiberState := None, failure := None, attempts := 0)
    {
      Put(i, records[registry[i].id].(lifecycle := Pending, fiberState := None, failure := None, attempts := 0));
    }

    ghost predicate IsMounted(recs: map<PluginId, Record>, i: nat)
      requires i < |registry|
    {
      registry[i].id in recs
      && var r := recs[registry[i].id]; r.enabled && r.lifecycle == Mounted && r.fiber.Some?
    }

    ghost predicate IsFailed(recs: map<PluginId, Record>, i: nat)
      requires i < |registry|
    {
      registry[i].id in recs
      && var r := recs[registry[i].id]; r.enabled && r.lifecycle == Failed && r.fiber.None?
    }

    ghost predicate IsDeferred(recs: map<PluginId, Record>, i: nat)
      requires i < |registry|
    {
      registry[i].id in recs
      && var r := recs[registry[i].id]; r.enabled && r.lifecycle == Pending && r.fiber.None?
    }

    /** What one pass knows about the fixpoint, when the outcomes are fixed. */
    ghost predicate Progress(goal: Goal, mounted: set<PluginId>)
      reads this`services
    {
      && services == Offered(goal.base, goal.specs, mounted)
      && BelowSaturated(goal.base, goal.specs, goal.wanted, mounted)
      && mounted <= goal.wanted
    }

    /** Tries one pending plugin. */
    method TryMount(i: nat, ghost goal: Goal, ghost mounted: set<PluginId>) returns (result: RuntimeResult<nat>)
      requires Valid() && i < |registry| && !HasFiber(i)
      requires registry[i].id in goal.wanted && (Fixed(registry, world, goal.specs) ==> Progress(goal, mounted))
      modifies this`records, this`services, this`clock
      ensures Valid() && OnlyRecord(i)
      ensures result.Ok? ==> IsMounted(records, i)
      ensures result.Err? && IsMissing(result.error) ==> IsDeferred(records, i)
      ensures result.Err? && !IsMissing(result.error) ==> IsFailed(records, i) && records[registry[i].id].failure.Some?
      ensures Fixed(registry, world, goal.specs) ==>
                var spec := goal.specs[registry[i].id];
                && Progress(goal, if result.Ok? then mounted + {registry[i].id} else mounted)
                && (result.Ok? <==> spec.CanMount() && spec.deps <= old(services))
                && old(services) <= services && (result.Err? ==> services == old(services))
                && (result.Err? ==> (IsMissing(result.error) <==> !spec.failsEarly && !(spec.deps <= old(services))))
    {
      ghost var before := services;
      result := MountIndex(i);
      if result.Err? && IsMissing(result.error) {
        DeferMissingDependency(i);
      }
      if Fixed(registry, world, goal.specs) {
        assert Agrees(goal.specs[registry[i].id], before,
                      world.mount(old(clock), registry[i].id, before).0,
                      world.mount(old(clock), registry[i].id, before).1);
        if result.Ok? {
          MountStaysBelow(goal.base, goal.specs, goal.wanted, mounted, registry[i].id);
        }
      }
    }

    ghost predicate AnyRequired(indexes: seq<nat>) {
      exists k :: 0 <= k < |indexes| && indexes[k] < |registry| && registry[indexes[k]].role.IsRequired()
    }

    /** Where the plugins tried so far stand. */
    ghost predicate Sorted(recs: map<PluginId, Record>, tried: seq<nat>,
                           next: seq<nat>, activated: seq<nat>, failures: seq<nat>)
    {
      && Indexes(next) && Indexes(activated) && Indexes(failures)
      && (forall j :: j in tried <==> j in next || j in activated || j in failures)
      && (forall k :: 0 <= k < |next| ==> IsDeferred(recs, next[k]))
      && (forall k :: 0 <= k < |activated| ==> IsMounted(recs, activated[k]))
      && (forall k :: 0 <= k < |failures| ==> IsFailed(recs, failures[k]))
    }

    /** What the plugins tried so far mean for the fixpoint. */
    ghost predicate PassFacts(goal: Goal, before: set<PluginId>, start: set<Service>,
                              next: seq<nat>, activated: seq<nat>, failures: seq<nat>)
      requires Indexes(next) && Indexes(failures) && Fixed(registry, world, goal.specs)
      reads this`services
    {
      && Progress(goal, before + IdsOf(activated)) && start <= services
      && (activated == [] ==> services == start)
      && (forall k :: 0 <= k < |next| ==> !(goal.specs[registry[next[k]].id].deps <= start))
      && (forall k :: 0 <= k < |failures| ==> !goal.specs[registry[failures[k]].id].CanMount())
    }

    /** Sorting one more plugin by its state. */
    lemma SortedMore(tried: seq<nat>, next: seq<nat>, activated: seq<nat>, failures: seq<nat>, i: nat)
      requires Valid() && Sorted(records, tried, next, activated, failures) && i < |registry| && i !in tried
      ensures IsDeferred(records, i) ==> Sorted(records, tried + [i], next + [i], activated, failures)
      ensures IsMounted(records, i) ==> Sorted(records, tried + [i], next, activated + [i], failures)
      ensures IsFailed(records, i) ==> Sorted(records, tried + [i], next, activated, failures + [i])
    {
      IndexesMore(next, i);
      IndexesMore(activated, i);
      IndexesMore(failures, i);
    }

    lemma IndexesMore(indexes: seq<nat>, i: nat)
      requires Indexes(indexes) && i < |registry|
      ensures i !in indexes ==> Indexes(indexes + [i])
    {
    }

    lemma OthersStand(recs: map<PluginId, Record>, i: nat, r: Record, tried: seq<nat>,
                      next: seq<nat>, activated: seq<nat>, failures: seq<nat>)
      requires i < |registry| && i !in tried && DistinctManifests(registry)
      requires Sorted(recs, tried, next, activated, failures)
      ensures Sorted(recs[registry[i].id := r], tried, next, activated, failures)
    {
      assert i !in next && i !in activated && i !in failures;
    }

    lemma PassFactsMore(goal: Goal, before: set<PluginId>, start: set<Service>,
                        next: seq<nat>, activated: seq<nat>, failures: seq<nat>, i: nat, result: RuntimeResult<nat>)
      requires Indexes(next) && Indexes(failures) && Fixed(registry, world, goal.specs)
      requires i < |registry| && i !in next && i !in failures && start <= services
      requires Progress(goal,
                        if result.Ok? then before + IdsOf(activated) + {registry[i].id} else before + IdsOf(activated))
      requires result.Err? && activated == [] ==> services == start
      requires forall k :: 0 <= k < |next| ==> !(goal.specs[registry[next[k]].id].deps <= start)
      requires forall k :: 0 <= k < |failures| ==> !goal.specs[registry[failures[k]].id].CanMount()
      requires result.Err? && IsMissing(result.error) ==> !(goal.specs[registry[i].id].deps <= start)
      requires result.Err? && !IsMissing(result.error) ==> !goal.specs[registry[i].id].CanMount()
      ensures result.Ok? ==> PassFacts(goal, before, start, next, activated + [i], failures)
      ensures result.Err? && IsMissing(result.error) ==>
                Indexes(next + [i]) && PassFacts(goal, before, start, next + [i], activated, failures)
      ensures result.Err? && !IsMissing(result.error) ==>
                Indexes(failures + [i]) && PassFacts(goal, before, start, next, activated, failures + [i])
    {
      IdsOfMore(activated, i);
      IndexesMore(next, i);
      IndexesMore(failures, i);
      assert before + (IdsOf(activated) + {registry[i].id}) == before + IdsOf(activated) + {registry[i].id};
    }

    /** One more plugin of a pass: tried, and sorted by its outcome. */
    method TryNext(i: nat, ghost tried: seq<nat>, next: seq<nat>, activated: seq<nat>, failures: seq<nat>,
                   firstRequired: Option<Error>, ghost goal: Goal, ghost before: set<PluginId>,
                   ghost start: set<Service>)
      returns (next': seq<nat>, activated': seq<nat>, failures': seq<nat>, firstRequired': Option<Error>)
      requires Valid() && i < |registry| && i !in tried && !HasFiber(i) && registry[i].id in goal.wanted
      requires Sorted(records, tried, next, activated, failures) && (firstRequired.Some? <==> AnyRequired(failures))
      requires Fixed(registry, world, goal.specs) ==> PassFacts(goal, before, start, next, activated, failures)
      modifies this`records, this`services, this`clock
      ensures Valid() && OnlyRecord(i)
      ensures Sorted(records, tried + [i], next', activated', failures')
      ensures (firstRequired'.Some? <==> AnyRequired(failures'))
      ensures Fixed(registry, world, goal.specs) ==> PassFacts(goal, before, start, next', activated', failures')
    {
      next', activated', failures', firstRequired' := next, activated, failures, firstRequired;
      assert i !in next && i !in failures;
      ghost var recs := records;
      var result := TryMount(i, goal, before + IdsOf(activated));
      OthersStand(recs, i, records[registry[i].id], tried, next, activated, failures);
      SortedMore(tried, next, activated, failures, i);
      if Fixed(registry, world, goal.specs) {
        PassFactsMore(goal, before, start, next, activated, failures, i, result);
      }
      match result
      case Ok(_) =>
        activated' := activated + [i];
      case Err(error) =>
        if IsMissing(error) {
          next' := next + [i];
        } else {
          AnyRequiredMore(failures, i);
          failures' := failures + [i];
          if registry[i].role.IsRequired() && firstRequired.None? {
            firstRequired' := Some(error);
          }
        }
    }

    /** One pass over the pending plugins, in registry order. */
    method MountPass(pending: seq<nat>, ghost goal: Goal, ghost before: set<PluginId>)
      returns (next: seq<nat>, activated: seq<nat>, failures: seq<nat>, firstRequired: Option<Error>)
      requires Valid() && Indexes(pending)
      requires forall k :: 0 <= k < |pending| ==> !HasFiber(pending[k]) && registry[pending[k]].id in goal.wanted
      requires Fixed(registry, world, goal.specs) ==> Progress(goal, before)
      modifies this`records, this`services, this`clock
      ensures Valid() && Sorted(records, pending, next, activated, failures)
      ensures forall j :: 0 <= j < |registry| && j !in pending ==>
              records[registry[j].id] == old(records)[registry[j].id]
      ensures firstRequired.Some? <==> AnyRequired(failures)
      ensures Fixed(registry, world, goal.specs) ==> PassFacts(goal, before, old(services), next, activated, failures)
    {
      next, activated, failures, firstRequired := [], [], [], None;
      assert before + IdsOf([]) == before;
      for k := 0 to |pending|
        invariant Valid() && Sorted(records, pending[..k], next, activated, failures)
        invariant forall j :: 0 <= j < |registry| && j !in pending[..k] ==>
                                records[registry[j].id] == old(records)[registry[j].id]
        invariant firstRequired.Some? <==> AnyRequired(failures)
        invariant Fixed(registry, world, goal.specs) ==>
                  PassFacts(goal, before, old(services), next, activated, failures)
      {
        var i := pending[k];
        assert i !in pending[..k] && pending[..k + 1] == pending[..k] + [i];
        next, activated, failures, firstRequired :=
          TryNext(i, pending[..k], next, activated, failures, firstRequired, goal, before, old(services));
      }
      assert pending[..|pending|] == pending;
    }

    lemma AnyRequiredMore(indexes: seq<nat>, i: nat)
      requires i < |registry|
      ensures AnyRequired(indexes + [i]) <==> AnyRequired(indexes) || registry[i].role.IsRequired()
    {
      var more := indexes + [i];
      assert more[|indexes|] == i;
      if AnyRequired(indexes) {
        var k :| 0 <= k < |indexes| && indexes[k] < |registry| && registry[indexes[k]].role.IsRequired();
        assert more[k] == indexes[k];
      }
    }

    lemma IdsOfMore(indexes: seq<nat>, i: nat)
      requires i < |registry|
      ensures IdsOf(indexes + [i]) == IdsOf(indexes) + {registry[i].id}
    {
      var more := indexes + [i];
      forall id ensures id in IdsOf(more) <==> id in IdsOf(indexes) || id == registry[i].id {
        if id in IdsOf(indexes) {
          var k :| 0 <= k < |indexes| && indexes[k] < |registry| && registry[indexes[k]].id == id;
          assert more[k] == indexes[k];
        }
        assert more[|indexes|] == i;
      }
    }

    /** How far the passes have come: every wanted plugin is pending, mounted or failed. */
    ghost predicate Underway(recs: map<PluginId, Record>, wanted: seq<nat>,
                             pending: seq<nat>, activated: seq<nat>, failures: seq<nat>)
    {
      && Indexes(pending) && Indexes(activated) && Indexes(failures)
      && (forall j :: j in wanted <==> j in pending || j in activated || j in failures)
      && (forall j :: j in pending ==> j !in activated && j !in failures)
      && (forall k :: 0 <= k < |pending| ==>
            registry[pending[k]].id in recs && recs[registry[pending[k]].id].fiber.None?)
      && (forall k :: 0 <= k < |activated| ==> IsMounted(recs, activated[k]))
      && (forall k :: 0 <= k < |failures| ==> IsFailed(recs, failures[k]))
    }

    /** Records of plugins outside `touched` are the same in both maps. */
    ghost predicate SameOutside(recs: map<PluginId, Record>, recs': map<PluginId, Record>, touched: seq<nat>) {
      forall j :: 0 <= j < |registry| && j !in touched ==>
                    registry[j].id in recs && registry[j].id in recs' && recs'[registry[j].id] == recs[registry[j].id]
    }

    lemma IndexesConcat(a: seq<nat>, b: seq<nat>)
      requires Indexes(a) && Indexes(b) && forall j :: j in a ==> j !in b
      ensures Indexes(a + b)
    {
      var c := a + b;
      forall j, k | 0 <= j < k < |c| ensures c[j] != c[k] {
        if j < |a| && k >= |a| {
          assert c[j] in a && c[k] in b;
        }
      }
    }

    lemma StaysMountedAndFailed(recs: map<PluginId, Record>, recs': map<PluginId, Record>, wanted: seq<nat>,
                                pending: seq<nat>, activated: seq<nat>, failures: seq<nat>)
      requires Underway(recs, wanted, pending, activated, failures) && SameOutside(recs, recs', pending)
      ensures forall k :: 0 <= k < |activated| ==> IsMounted(recs', activated[k])
      ensures forall k :: 0 <= k < |failures| ==> IsFailed(recs', failures[k])
    {
      forall k | 0 <= k < |activated| ensures IsMounted(recs', activated[k]) {
        assert activated[k] !in pending;
      }
      forall k | 0 <= k < |failures| ensures IsFailed(recs', failures[k]) {
        assert failures[k] !in pending;
      }
    }

    lemma UnderwayAfterPass(recs: map<PluginId, Record>, recs': map<PluginId, Record>, wanted: seq<nat>,
                            pending: seq<nat>,
                            activated: seq<nat>, failures: seq<nat>, next: seq<nat>, up: seq<nat>, down: seq<nat>)
      requires Underway(recs, wanted, pending, activated, failures) && SameOutside(recs, recs', pending)
      requires Sorted(recs', pending, next, up, down)
      ensures Underway(recs', wanted, next, activated + up, failures + down)
      ensures |next| <= |pending| && (up != [] ==> |next| < |pending|)
    {
      StaysMountedAndFailed(recs, recs', wanted, pending, activated, failures);
      forall j | j in activated ensures j !in up {
        assert j !in pending;
      }
      forall j | j in failures ensures j !in down {
        assert j !in pending;
      }
      IndexesConcat(activated, up);
      IndexesConcat(failures, down);
      forall j | j in next ensures j !in activated + up && j !in failures + down {
        assert j in pending;
      }
      forall j | j in next ensures j !in up {
        assert IsDeferred(recs', j);
      }
      IndexesConcat(next, up);
      IndexesFit(next + up, pending);
    }

    lemma {:induction false} IndexesFit(few: seq<nat>, many: seq<nat>)
      requires Indexes(few) && forall k :: 0 <= k < |few| ==> few[k] in many
      ensures |few| <= |many|
    {
      if few != [] {
        var n := |few| - 1;
        var i :| 0 <= i < |many| && many[i] == few[n];
        var fewer := many[..i] + many[i + 1..];
        forall k | 0 <= k < n ensures few[k] in fewer {
          var j :| 0 <= j < |many| && many[j] == few[k];
          assert fewer[if j < i then j else j - 1] == few[k];
        }
        IndexesFit(few[..n], fewer);
      }
    }

    lemma IdsOfConcat(a: seq<nat>, b: seq<nat>)
      ensures IdsOf(a + b) == IdsOf(a) + IdsOf(b)
    {
      var c := a + b;
      forall id ensures id in IdsOf(c) <==> id in IdsOf(a) || id in IdsOf(b) {
        if id in IdsOf(a) {
          var k :| 0 <= k < |a| && a[k] < |registry| && registry[a[k]].id == id;
          assert c[k] == a[k];
        }
        if id in IdsOf(b) {
          var k :| 0 <= k < |b| && b[k] < |registry| && registry[b[k]].id == id;
          assert c[|a| + k] == b[k];
        }
        if id in IdsOf(c) {
          var k :| 0 <= k < |c| && c[k] < |registry| && registry[c[k]].id == id;
          assert if k < |a| then c[k] == a[k] else c[k] == b[k - |a|];
        }
      }
    }

    /** A plugin that failed could not have mounted, or still misses a service. */
    ghost predicate FailedForReason(goal: Goal, failures: seq<nat>)
      requires Indexes(failures) && Fixed(registry, world, goal.specs)
      reads this`services
    {
      forall k :: 0 <= k < |failures| ==>
                    var spec := goal.specs[registry[failures[k]].id];
                    !spec.CanMount() || !(spec.deps <= services)
    }

    /** The plugins that no pass could mount become failures. */
    method FailRemaining(next: seq<nat>) returns (firstRequired: bool)
      requires Valid() && Indexes(next) && forall k :: 0 <= k < |next| ==> IsDeferred(records, next[k])
      modifies this`records
      ensures Valid() && SameOutside(old(records), records, next)
      ensures forall k :: 0 <= k < |next| ==> IsFailed(records, next[k])
      ensures firstRequired <==> AnyRequired(next)
    {
      firstRequired := false;
      for k := 0 to |next|
        invariant Valid() && SameOutside(old(records), records, next[..k])
        invariant forall j :: 0 <= j < k ==> IsFailed(records, next[j])
        invariant forall j :: k <= j < |next| ==> IsDeferred(records, next[j])
        invariant firstRequired <==> AnyRequired(next[..k])
      {
        assert next[..k + 1] == next[..k] + [next[k]];
        AnyRequiredMore(next[..k], next[k]);
        RecordFailure(next[k], Mount);
        if registry[next[k]].role.IsRequired() {
          firstRequired := true;
        }
      }
      assert next[..|next|] == next;
    }

    lemma AnyRequiredConcat(a: seq<nat>, b: seq<nat>)
      ensures AnyRequired(a + b) <==> AnyRequired(a) || AnyRequired(b)
    {
      var c := a + b;
      if AnyRequired(a) {
        var k :| 0 <= k < |a| && a[k] < |registry| && registry[a[k]].role.IsRequired();
        assert c[k] == a[k];
      }
      if AnyRequired(b) {
        var k :| 0 <= k < |b| && b[k] < |registry| && registry[b[k]].role.IsRequired();
        assert c[|a| + k] == b[k];
      }
    }

    /** What the passes have settled about the fixpoint: a failure so far is not about
        dependencies, unless no pass follows. */
    ghost predicate Settling(goal: Goal, pending: seq<nat>, activated: seq<nat>, failures: seq<nat>)
      requires Indexes(failures) && Fixed(registry, world, goal.specs)
      reads this`services
    {
      && Progress(goal, IdsOf(activated))
      && FailedForReason(goal, failures)
      && (pending != [] ==> forall k :: 0 <= k < |failures| ==> !goal.specs[registry[failures[k]].id].CanMount())
    }

    lemma PendingIsWanted(recs: map<PluginId, Record>, wanted: seq<nat>, pending: seq<nat>,
                          activated: seq<nat>, failures: seq<nat>)
      requires Indexes(wanted) && Underway(recs, wanted, pending, activated, failures)
      ensures forall k :: 0 <= k < |pending| ==> registry[pending[k]].id in IdsOf(wanted)
    {
      forall k | 0 <= k < |pending| ensures registry[pending[k]].id in IdsOf(wanted) {
        assert pending[k] in wanted;
        var m :| 0 <= m < |wanted| && wanted[m] == pending[k];
        assert registry[wanted[m]].id in IdsOf(wanted);
      }
    }

    lemma UnderwayAfterFailing(recs: map<PluginId, Record>, recs': map<PluginId, Record>, wanted: seq<nat>,
                               next: seq<nat>, activated: seq<nat>, failures: seq<nat>)
      requires Underway(recs, wanted, next, activated, failures) && SameOutside(recs, recs', next)
      requires forall k :: 0 <= k < |next| ==> IsFailed(recs', next[k])
      ensures Underway(recs', wanted, [], activated, failures + next)
    {
      StaysMountedAndFailed(recs, recs', wanted, next, activated, failures);
      IndexesConcat(failures, next);
    }

    /** One pass; when it mounted nothing, the plugins it deferred fail. */
    method PassAndSettle(wanted: seq<nat>, pending: seq<nat>, activated: seq<nat>, failures: seq<nat>, ghost goal: Goal)
      returns (pending': seq<nat>, activated': seq<nat>, failures': seq<nat>, required: bool)
      requires Valid() && Indexes(wanted) && goal.wanted == IdsOf(wanted) && pending != []
      requires Underway(records, wanted, pending, activated, failures)
      requires Fixed(registry, world, goal.specs) ==> Settling(goal, pending, activated, failures)
      modifies this`records, this`services, this`clock
      ensures Valid() && SameOutside(old(records), records, pending)
      ensures Underway(records, wanted, pending', activated', failures')
      ensures |pending'| < |pending|
      ensures (AnyRequired(failures) || required) <==> AnyRequired(failures')
      ensures Fixed(registry, world, goal.specs) ==> Settling(goal, pending', activated', failures')
    {
      ghost var recs := records;
      PendingIsWanted(records, wanted, pending, activated, failures);
      var next, up, down, error := MountPass(pending, goal, IdsOf(activated));
      UnderwayAfterPass(recs, records, wanted, pending, activated, failures, next, up, down);
      AnyRequiredConcat(failures, down);
      IdsOfConcat(activated, up);
      pending', activated', failures', required := next, activated + up, failures + down, error.Some?;
      if next != [] && up == [] {
        recs := records;
        var waited := FailRemaining(next);
        UnderwayAfterFailing(recs, records, wanted, next, activated', failures');
        AnyRequiredConcat(failures', next);
        pending', failures', required := [], failures' + next, required || waited;
      }
    }

    /** Passes until one mounts nothing; they end because each earlier one mounts something. */
    method MountPasses(wanted: seq<nat>, ghost goal: Goal)
      returns (activated: seq<nat>, failures: seq<nat>, requiredFailed: bool)
      requires Valid() && Indexes(wanted) && goal.wanted == IdsOf(wanted) && goal.base == services
      requires forall k :: 0 <= k < |wanted| ==> !HasFiber(wanted[k])
      modifies this`records, this`services, this`clock
      ensures Valid() && SameOutside(old(records), records, wanted)
      ensures Sorted(records, wanted, [], activated, failures)
      ensures requiredFailed <==> AnyRequired(failures)
      ensures Fixed(registry, world, goal.specs) ==>
                Progress(goal, IdsOf(activated)) && FailedForReason(goal, failures)
    {
      activated, failures, requiredFailed := [], [], false;
      var pending := wanted;
      assert Offered(goal.base, goal.specs, {}) == goal.base;
      while pending != []
        invariant Valid() && SameOutside(old(records), records, wanted)
        invariant Underway(records, wanted, pending, activated, failures)
        invariant requiredFailed <==> AnyRequired(failures)
        invariant Fixed(registry, world, goal.specs) ==> Settling(goal, pending, activated, failures)
        decreases |pending|
      {
        var required;
        pending, activated, failures, required := PassAndSettle(wanted, pending, activated, failures, goal);
        requiredFailed := requiredFailed || required;
      }
    }

    /** Sorts the registry: unwanted entries are disabled, mounted ones stay, the rest is
        pending. An unwanted entry never holds a fiber, so nothing is unmounted here. */
    method SelectPending() returns (pending: seq<nat>, activated: seq<nat>, skipped: seq<nat>)
      requires Settled()
      modifies this`records
      ensures Valid() && Selected(old(records), |registry|, pending, activated, skipped)
      ensures SameOutside(old(records), records, skipped)
      ensures forall k :: 0 <= k < |skipped| ==> IsDisabled(records, skipped[k])
    {
      pending, activated, skipped := [], [], [];
      for i := 0 to |registry|
        invariant Valid() && Selected(old(records), i, pending, activated, skipped)
        invariant SameOutside(old(records), records, skipped)
        invariant forall k :: 0 <= k < |skipped| ==> IsDisabled(records, skipped[k])
      {
        assert old(SettledAt(i)) && i !in skipped;
        SelectedMore(old(records), i, pending, activated, skipped);
        if !EffectiveEnabled(registry[i]) {
          if HasFiber(i) {
            assert false;
          }
          ghost var recs := records;
          DeactivateWithoutMount(i);
          SkippedMore(old(records), recs, skipped, i, records[registry[i].id]);
          skipped := skipped + [i];
        } else if HasFiber(i) {
          activated := activated + [i];
        } else {
          pending := pending + [i];
        }
      }
    }

    ghost predicate IsDisabled(recs: map<PluginId, Record>, i: nat)
      requires i < |registry|
    {
      registry[i].id in recs
      && var r := recs[registry[i].id]; !r.enabled && r.lifecycle == Disabled && r.fiber.None?
    }

    /** The first `count` plugins, sorted by whether they are wanted and already mounted. */
    ghost predicate Selected(recs: map<PluginId, Record>, count: nat,
                             pending: seq<nat>, activated: seq<nat>, skipped: seq<nat>)
      requires count <= |registry| && forall i :: 0 <= i < |registry| ==> registry[i].id in recs
      reads this`overrides
    {
      && Indexes(pending) && Indexes(activated) && Indexes(skipped)
      && (forall j :: j in pending <==>
            0 <= j < count && EffectiveEnabled(registry[j]) && recs[registry[j].id].fiber.None?)
      && (forall j :: j in activated <==>
            0 <= j < count && EffectiveEnabled(registry[j]) && recs[registry[j].id].fiber.Some?)
      && (forall j :: j in skipped <==> 0 <= j < count && !EffectiveEnabled(registry[j]))
    }

    lemma SkippedMore(recs0: map<PluginId, Record>, recs: map<PluginId, Record>, skipped: seq<nat>, i: nat, r: Record)
      requires DistinctManifests(registry) && Indexes(skipped) && i < |registry| && i !in skipped
      requires SameOutside(recs0, recs, skipped) && forall k :: 0 <= k < |skipped| ==> IsDisabled(recs, skipped[k])
      requires !r.enabled && r.lifecycle == Disabled && r.fiber.None?
      ensures SameOutside(recs0, recs[registry[i].id := r], skipped + [i])
      ensures forall k :: 0 <= k < |skipped + [i]| ==> IsDisabled(recs[registry[i].id := r], (skipped + [i])[k])
    {
      forall k | 0 <= k < |skipped| ensures IsDisabled(recs[registry[i].id := r], skipped[k]) {
        assert skipped[k] in skipped;
      }
    }

    lemma SelectedMore(recs: map<PluginId, Record>, i: nat, pending: seq<nat>, activated: seq<nat>, skipped: seq<nat>)
      requires i < |registry| && forall j :: 0 <= j < |registry| ==> registry[j].id in recs
      requires Selected(recs, i, pending, activated, skipped)
      ensures !EffectiveEnabled(registry[i]) ==> Selected(recs, i + 1, pending, activated, skipped + [i])
      ensures EffectiveEnabled(registry[i]) && recs[registry[i].id].fiber.Some? ==>
                Selected(recs, i + 1, pending, activated + [i], skipped)
      ensures EffectiveEnabled(registry[i]) && recs[registry[i].id].fiber.None? ==>
                Selected(recs, i + 1, pending + [i], activated, skipped)
    {
      IndexesMore(pending, i);
      IndexesMore(activated, i);
      IndexesMore(skipped, i);
    }

    /** The ids that startup has to mount. */
    ghost function Wanted(recs: map<PluginId, Record>): set<PluginId>
      reads this`overrides
    {
      set i | 0 <= i < |registry| && EffectiveEnabled(registry[i]) && registry[i].id in recs
              && recs[registry[i].id].fiber.None? :: registry[i].id
    }

    /** Those of `ids` that hold a fiber. */
    ghost function Holding(ids: set<PluginId>): set<PluginId>
      reads this`records
    {
      set id | id in ids && id in records && records[id].fiber.Some?
    }

    lemma PendingIdsAreWanted(recs: map<PluginId, Record>, pending: seq<nat>)
      requires forall i :: 0 <= i < |registry| ==> registry[i].id in recs
      requires forall j :: j in pending <==>
                             0 <= j < |registry| && EffectiveEnabled(registry[j]) && recs[registry[j].id].fiber.None?
      ensures IdsOf(pending) == Wanted(recs)
    {
      forall id ensures id in IdsOf(pending) <==> id in Wanted(recs) {
        if id in IdsOf(pending) {
          var k :| 0 <= k < |pending| && pending[k] < |registry| && registry[pending[k]].id == id;
          assert pending[k] in pending;
        }
        if id in Wanted(recs) {
          var i :| 0 <= i < |registry| && EffectiveEnabled(registry[i]) && registry[i].id in recs
                   && recs[registry[i].id].fiber.None? && registry[i].id == id;
          assert i in pending;
          var k :| 0 <= k < |pending| && pending[k] == i;
          assert registry[pending[k]].id == id;
        }
      }
    }

    lemma MountedIdsHold(wanted: seq<nat>, activated: seq<nat>, failures: seq<nat>)
      requires Valid() && Sorted(records, wanted, [], activated, failures)
      ensures IdsOf(activated) == Holding(IdsOf(wanted))
    {
      forall id ensures id in IdsOf(activated) <==> id in Holding(IdsOf(wanted)) {
        if id in IdsOf(activated) {
          var k :| 0 <= k < |activated| && activated[k] < |registry| && registry[activated[k]].id == id;
          assert activated[k] in wanted;
          var m :| 0 <= m < |wanted| && wanted[m] == activated[k];
          assert registry[wanted[m]].id == id;
        }
        if id in Holding(IdsOf(wanted)) {
          var k :| 0 <= k < |wanted| && wanted[k] < |registry| && registry[wanted[k]].id == id;
          assert wanted[k] in wanted;
          forall m | 0 <= m < |failures| ensures failures[m] != wanted[k] {
            assert IsFailed(records, failures[m]);
          }
          assert wanted[k] in activated;
          var m :| 0 <= m < |activated| && activated[m] == wanted[k];
          assert registry[activated[m]].id == id;
        }
      }
    }

    /** The passes reach the least fixpoint. */
    lemma PassesReachFixpoint(goal: Goal, wanted: seq<nat>, activated: seq<nat>, failures: seq<nat>)
      requires Valid() && Sorted(records, wanted, [], activated, failures) && goal.wanted == IdsOf(wanted)
      requires Fixed(registry, world, goal.specs)
      requires Progress(goal, IdsOf(activated)) && FailedForReason(goal, failures)
      ensures LeastFixpoint(goal.base, goal.specs, goal.wanted, Holding(goal.wanted))
      ensures services == Offered(goal.base, goal.specs, Holding(goal.wanted))
    {
      MountedIdsHold(wanted, activated, failures);
      forall id | id in goal.wanted && goal.specs[id].CanMount()
                  && goal.specs[id].deps <= Offered(goal.base, goal.specs, IdsOf(activated))
        ensures id in IdsOf(activated)
      {
        var k :| 0 <= k < |wanted| && wanted[k] < |registry| && registry[wanted[k]].id == id;
        assert wanted[k] in wanted;
        forall m | 0 <= m < |failures| ensures failures[m] != wanted[k] {
          assert registry[failures[m]].id != id;
        }
        assert wanted[k] in activated;
        var m :| 0 <= m < |activated| && activated[m] == wanted[k];
        assert registry[activated[m]].id == id;
      }
    }

    /** The report names every plugin exactly once, under the state it is in. */
    ghost predicate ReportFits(report: Report)
      requires Valid()
      reads this`records
    {
      && Indexes(report.activated) && Indexes(report.skipped) && Indexes(report.failures)
      && (forall i :: 0 <= i < |registry| ==>
            && (i in report.activated <==> records[registry[i].id].lifecycle == Mounted)
            && (i in report.skipped <==> records[registry[i].id].lifecycle == Disabled)
            && (i in report.failures <==> records[registry[i].id].lifecycle == Failed)
            && records[registry[i].id].lifecycle in {Mounted, Disabled, Failed})
    }

    /** Startup. It ends, leaves nothing pending, disturbs no mounted plugin, reports each
        plugin once, and fails exactly when a required plugin failed; and when outcomes
        depend on services alone, it mounts the least fixpoint of the dependency relation. */
    method StartDefault(ghost specs: map<PluginId, Spec>) returns (result: RuntimeResult<Report>, ghost report: Report)
      requires AtRest()
      modifies this
      ensures AtRest()
      ensures old(closed) ==>
                result == Err(RuntimeClosed) && records == old(records) && overrides == old(overrides)
                && started == old(started) && closed
      ensures !old(closed) ==>
                && Settled() && started && !closed && overrides == old(overrides)
                && ReportFits(report)
                && (forall i :: 0 <= i < |registry| && old(HasFiber(i)) ==>
                      records[registry[i].id] == old(records)[registry[i].id])
                && (result == Ok(report) || result == Err(RequiredPluginFailed))
                && (result.Err? <==> AnyRequired(report.failures))
      ensures !old(closed) && Fixed(registry, world, specs) ==>
                && LeastFixpoint(old(services), specs, Wanted(old(records)), Holding(Wanted(old(records))))
                && services == Offered(old(services), specs, Holding(Wanted(old(records))))
                && forall i :: 0 <= i < |registry| && i in report.failures && specs[registry[i].id].CanMount() ==>
                     !(specs[registry[i].id].deps <= services)
    {
      report := Report([], [], []);
      if closed {
        return Err(RuntimeClosed), report;
      }
      started := true;
      var pending, activated, skipped := SelectPending();
      ghost var goal := Goal(services, specs, IdsOf(pending));
      PendingIdsAreWanted(old(records), pending);
      ghost var recs := records;
      var up, failures, requiredFailed := MountPasses(pending, goal);
      if Fixed(registry, world, specs) {
        PassesReachFixpoint(goal, pending, up, failures);
      }
      forall j | j in activated ensures j !in up {
        assert j !in pending;
      }
      IndexesConcat(activated, up);
      forall i | 0 <= i < |registry| && old(HasFiber(i))
        ensures i in activated && old(records)[registry[i].id].enabled
                && old(records)[registry[i].id].lifecycle == Mounted
      {
        assert old(SettledAt(i));
      }
      report := Report(activated + up, skipped, failures);
      StartupSettles(old(records), recs, pending, activated, skipped, up, failures);
      result := if requiredFailed then Err(RequiredPluginFailed) else Ok(Report(activated + up, skipped, failures));
    }

    lemma StartupSettles(recs0: map<PluginId, Record>, recs1: map<PluginId, Record>, pending: seq<nat>,
                         activated: seq<nat>, skipped: seq<nat>, up: seq<nat>, failures: seq<nat>)
      requires Valid() && Indexes(activated + up) && Indexes(skipped)
      requires SameOutside(recs0, recs1, skipped) && SameOutside(recs1, records, pending)
      requires forall i :: 0 <= i < |registry| ==> i in pending || i in activated || i in skipped
      requires forall i :: i in pending || i in activated <==> 0 <= i < |registry| && EffectiveEnabled(registry[i])
      requires forall i :: i in skipped <==> 0 <= i < |registry| && !EffectiveEnabled(registry[i])
      requires forall i :: i in activated ==> i !in pending
      requires forall i :: i in activated ==>
                 registry[i].id in recs0 && recs0[registry[i].id].enabled && recs0[registry[i].id].lifecycle == Mounted
                 && recs0[registry[i].id].fiber.Some?
      requires forall k :: 0 <= k < |skipped| ==> IsDisabled(recs1, skipped[k])
      requires Sorted(records, pending, [], up, failures)
      ensures Settled() && ReportFits(Report(activated + up, skipped, failures))
      ensures forall i :: i in activated ==> records[registry[i].id] == recs0[registry[i].id]
    {
      forall i | 0 <= i < |registry|
        ensures SettledAt(i)
        ensures i in activated + up <==> records[registry[i].id].lifecycle == Mounted
        ensures i in skipped <==> records[registry[i].id].lifecycle == Disabled
        ensures i in failures <==> records[registry[i].id].lifecycle == Failed
        ensures records[registry[i].id].lifecycle in {Mounted, Disabled, Failed}
      {
        if i in up {
          assert i in pending && IsMounted(records, i);
        } else if i in failures {
          assert i in pending && IsFailed(records, i);
        } else {
          assert i !in pending;
        }
      }
    }

    // ----------------------------------------------------------------
    // Public operations after construction
    // ----------------------------------------------------------------

    function IndexOf(id: PluginId): (i: nat)
      ensures i <= |registry| && (i < |registry| ==> registry[i].id == id)
      ensures i == |registry| ==> forall j :: 0 <= j < |registry| ==> registry[j].id != id
    {
      IndexFrom(id, 0)
    }

    function IndexFrom(id: PluginId, from: nat): (i: nat)
      requires from <= |registry|
      ensures from <= i <= |registry| && (i < |registry| ==> registry[i].id == id)
      ensures forall j :: from <= j < i ==> registry[j].id != id
      decreases |registry| - from
    {
      if from == |registry| then from else if registry[from].id == id then from else IndexFrom(id, from + 1)
    }

    /** When one record and one override change together, the other entries stay settled. */
    lemma OneEntryChanged(recs: map<PluginId, Record>, overs: map<PluginId, bool>, i: nat)
      requires Valid() && i < |registry|
      requires forall j :: 0 <= j < |registry| ==> registry[j].id in recs
      requires records == recs[registry[i].id := records[registry[i].id]]
      requires forall id :: id != registry[i].id ==>
                 (id in overs <==> id in overrides) && (id in overs ==> overs[id] == overrides[id])
      requires forall j :: 0 <= j < |registry| && j != i ==> SettledIn(recs, overs, j)
      requires SettledAt(i)
      ensures Settled()
    {
      forall j | 0 <= j < |registry| ensures SettledAt(j) {
        if j != i {
          assert SettledIn(recs, overs, j);
          assert registry[j].id != registry[i].id;
        }
      }
    }

    ghost predicate SettledIn(recs: map<PluginId, Record>, overs: map<PluginId, bool>, i: nat)
      requires i < |registry|
    {
      && registry[i].id in recs
      && var r := recs[registry[i].id];
         && (r.fiber.Some? <==> r.lifecycle == Mounted)
         && r.lifecycle != Mounting && r.lifecycle != Unmounting
         && r.enabled == (if registry[i].role.IsRequired() then true
                          else if registry[i].id in overs then overs[registry[i].id]
                          else registry[i].DefaultEnabled())
         && (r.lifecycle == Disabled ==> !r.enabled)
         && (!r.enabled ==> r.fiber.None?)
    }

    lemma SettledEntries()
      requires Settled()
      ensures forall i :: 0 <= i < |registry| ==> SettledIn(records, overrides, i)
    {
      forall i | 0 <= i < |registry| ensures SettledIn(records, overrides, i) {
        assert SettledAt(i);
      }
    }

    /** Explicit mount of one plugin. */
    method MountPlugin(id: PluginId) returns (result: RuntimeResult<nat>)
      requires AtRest()
      modifies this
      ensures AtRest()
      ensures closed == old(closed) && started == old(started)
      ensures old(closed) ==> result == Err(RuntimeClosed) && records == old(records) && overrides == old(overrides)
      ensures !old(closed) ==> Settled() && RequiredStayMounted()
      ensures !old(closed) ==>
                var i := IndexOf(id);
                && (i == |registry| ==>
                      result == Err(UnknownPlugin) && records == old(records) && overrides == old(overrides))
                && (i < |registry| ==>
                      && overrides ==
                         (if registry[i].role.IsRequired() then old(overrides) else old(overrides)[id := true])
                      && OnlyRecord(i)
                      && (old(HasFiber(i)) ==> result == Err(InvalidPluginState) && records == old(records))
                      && (result.Ok? <==> !old(HasFiber(i)) && records[id].lifecycle == Mounted)
                      && (result.Ok? ==> records[id].fiber == Some(result.value))
                      && (old(HasFiber(i)) ==> services == old(services) && clock == old(clock))
                      && (!old(HasFiber(i)) ==>
                            && MountTried(i, old(clock), old(services), records[id], services, Silent(result))
                            && clock == old(clock) + 1))
      ensures result == Err(RuntimeClosed) || result == Err(UnknownPlugin) ==>
                services == old(services) && clock == old(clock)
    {
      if closed {
        return Err(RuntimeClosed);
      }
      var i := IndexOf(id);
      if i == |registry| {
        return Err(UnknownPlugin);
      }
      SettledEntries();
      ghost var recs, overs := records, overrides;
      assert SettledAt(i);
      if !registry[i].role.IsRequired() {
        overrides := overrides[id := true];
      }
      if !HasFiber(i) {
        ResetForManualMount(i);
      }
      result := MountIndex(i);
      OneEntryChanged(recs, overs, i);
    }

    /** Before startup an enabled entry only becomes pending; its override does the rest. */
    method EnableBeforeStart(i: nat)
      requires Valid() && i < |registry|
      modifies this`records
      ensures Valid() && OnlyRecord(i)
      ensures var r := old(records)[registry[i].id];
              records[registry[i].id] ==
              if r.fiber.Some? then Record(true, Mounted, r.fiber, r.fiberState, None, 0)
              else Record(true, Pending, None, None, None, 0)
    {
      var r := records[registry[i].id];
      Put(i, if r.fiber.Some? then Record(true, Mounted, r.fiber, r.fiberState, None, 0)
             else Record(true, Pending, None, None, None, 0));
    }

    /** The part of a toggle that acts on the entry, once the override is stored. */
    method ApplyWish(i: nat, wanted: bool, resetFirst: bool) returns (result: RuntimeResult<()>)
      requires Valid() && i < |registry| && (!wanted ==> !registry[i].role.IsRequired())
      requires records[registry[i].id].fiber.Some? <==> records[registry[i].id].lifecycle == Mounted
      requires records[registry[i].id].fiber.Some? ==> records[registry[i].id].enabled
      modifies this`records, this`services, this`clock
      ensures Valid() && OnlyRecord(i)
      ensures var r := records[registry[i].id];
              && r.enabled == wanted
              && (r.fiber.Some? <==> r.lifecycle == Mounted) && r.lifecycle !in {Mounting, Unmounting}
              && (r.lifecycle == Disabled <==> !wanted) && (!wanted ==> r.fiber.None?)
              && (wanted && old(HasFiber(i)) ==> r.fiber == old(records)[registry[i].id].fiber)
              && (wanted && started && result.Ok? ==> r.lifecycle == Mounted)
      ensures Toggled(i, old(records)[registry[i].id], wanted, old(clock), old(services),
                      records[registry[i].id], clock, services, result)
    {
      result := Ok(());
      if !started {
        if wanted {
          EnableBeforeStart(i);
        } else if HasFiber(i) {
          result := UnmountIndex(i, false);
        } else {
          DeactivateWithoutMount(i);
        }
      } else if wanted {
        if HasFiber(i) {
          return;
        }
        if resetFirst {
          ResetForManualMount(i);
        }
        var mounted := MountIndex(i);
        result := Silent(mounted);
      } else {
        result := UnmountIndex(i, false);
      }
    }

    /** `set_enabled`, and with it `enable`, `disable` and `unmount`. */
    method SetEnabled(id: PluginId, enabled: bool) returns (result: RuntimeResult<()>)
      requires AtRest()
      modifies this
      ensures AtRest()
      ensures closed == old(closed) && started == old(started)
      ensures old(closed) ==> result == Err(RuntimeClosed) && records == old(records) && overrides == old(overrides)
      ensures !old(closed) ==> Settled() && RequiredStayMounted()
      ensures !old(closed) ==>
                var i := IndexOf(id);
                && (i == |registry| ==>
                      result == Err(UnknownPlugin) && records == old(records) && overrides == old(overrides))
                && (i < |registry| && !enabled && registry[i].role.IsRequired() ==>
                      result == Err(CorePluginCannotDisable) && records == old(records) && overrides == old(overrides))
                && (i < |registry| && (enabled || !registry[i].role.IsRequired()) ==>
                      overrides == old(overrides)[id := enabled] && records[id].enabled == enabled
                      && (enabled && started && result.Ok? ==> records[id].lifecycle == Mounted)
                      && OnlyRecord(i)
                      && Toggled(i, old(records)[id], enabled, old(clock), old(services),
                                 records[id], clock, services, result))
      ensures result == Err(RuntimeClosed) || result == Err(UnknownPlugin) || result == Err(CorePluginCannotDisable) ==>
                services == old(services) && clock == old(clock)
    {
      if closed {
        return Err(RuntimeClosed);
      }
      var i := IndexOf(id);
      if i == |registry| {
        return Err(UnknownPlugin);
      }
      if !enabled && registry[i].role.IsRequired() {
        return Err(CorePluginCannotDisable);
      }
      SettledEntries();
      ghost var recs, overs := records, overrides;
      assert SettledAt(i);
      overrides := overrides[id := enabled];
      result := ApplyWish(i, enabled, true);
      OneEntryChanged(recs, overs, i);
    }

    /** Back to the manifest default. */
    method ClearOverride(id: PluginId) returns (result: RuntimeResult<()>)
      requires AtRest()
      modifies this
      ensures AtRest()
      ensures closed == old(closed) && started == old(started)
      ensures old(closed) ==> result == Err(RuntimeClosed) && records == old(records) && overrides == old(overrides)
      ensures !old(closed) ==> Settled() && RequiredStayMounted()
      ensures !old(closed) && IndexOf(id) == |registry| ==>
                result == Err(UnknownPlugin) && records == old(records) && overrides == old(overrides)
      ensures !old(closed) && IndexOf(id) < |registry| ==>
                overrides == old(overrides) - {id}
                && records[id].enabled == (if registry[IndexOf(id)].role.IsRequired() then true
                                           else registry[IndexOf(id)].DefaultEnabled())
                && OnlyRecord(IndexOf(id))
                && if registry[IndexOf(id)].role.IsRequired() then
                     records == old(records) && services == old(services) && clock == old(clock) && result == Ok(())
                   else
                     Toggled(IndexOf(id), old(records)[id], registry[IndexOf(id)].DefaultEnabled(),
                             old(clock), old(services), records[id], clock, services, result)
      ensures result == Err(RuntimeClosed) || result == Err(UnknownPlugin) ==>
                services == old(services) && clock == old(clock)
    {
      if closed {
        return Err(RuntimeClosed);
      }
      var i := IndexOf(id);
      if i == |registry| {
        return Err(UnknownPlugin);
      }
      SettledEntries();
      ghost var recs, overs := records, overrides;
      assert SettledAt(i);
      overrides := overrides - {id};
      if registry[i].role.IsRequired() {
        assert records == recs[registry[i].id := records[registry[i].id]];
        result := Ok(());
      } else {
        result := ApplyWish(i, registry[i].DefaultEnabled(), false);
      }
      OneEntryChanged(recs, overs, i);
    }

    /** These plugins were asked to unmount one after the other, `offers` being what the root offered in between. */
    ghost predicate Unmounts(tick: nat, order: seq<nat>, offers: seq<set<Service>>) {
      && |offers| == |order| + 1
      && (forall j, k :: 0 <= j < k < |order| ==> order[j] > order[k])
      && forall k :: 0 <= k < |order| ==> order[k] < |registry| && After(tick + k, order[k], offers[k]) == offers[k + 1]
    }

    ghost function After(tick: nat, i: nat, offered: set<Service>): set<Service>
      requires i < |registry|
    {
      world.unmount(tick, registry[i].id, offered).1
    }

    ghost predicate Refused(tick: nat, i: nat, offered: set<Service>)
      requires i < |registry|
    {
      !world.unmount(tick, registry[i].id, offered).0
    }

    /** Some plugin reported a failure when it was asked. */
    ghost predicate AnyRefused(tick: nat, order: seq<nat>, offers: seq<set<Service>>)
      requires Unmounts(tick, order, offers)
    {
      exists k :: 0 <= k < |order| && Refused(tick + k, order[k], offers[k])
    }

    /** Every plugin that held a fiber was asked to unmount, the last registered first, and no other plugin was
        asked. */
    ghost predicate StopsAll(recs: map<PluginId, Record>, from: nat, tick: nat, offered: set<Service>, tick': nat,
                             offered': set<Service>, anyRefused: bool)
      requires forall i :: 0 <= i < |registry| ==> registry[i].id in recs
    {
      exists order, offers ::
        && Unmounts(tick, order, offers) && offers[0] == offered && offers[|order|] == offered'
        && tick' == tick + |order| && (anyRefused <==> AnyRefused(tick, order, offers))
        && AreHolders(recs, from, order)
    }

    ghost predicate AreHolders(recs: map<PluginId, Record>, from: nat, order: seq<nat>)
      requires forall i :: 0 <= i < |registry| ==> registry[i].id in recs
    {
      forall i: nat :: i in order <==> from <= i < |registry| && recs[registry[i].id].fiber.Some?
    }

    lemma OneMoreAsked(tick: nat, order: seq<nat>, offers: seq<set<Service>>, i: nat)
      requires Unmounts(tick, order, offers) && i < |registry| && forall j :: j in order ==> i < j
      ensures Unmounts(tick, order + [i], offers + [After(tick + |order|, i, offers[|order|])])
    {
      var n := |order|;
      var more, now := order + [i], offers + [After(tick + n, i, offers[n])];
      assert forall k :: 0 <= k < n ==> more[k] == order[k] && order[k] in order;
      assert forall k :: 0 <= k <= n ==> now[k] == offers[k];
    }

    lemma OneMoreAnswer(tick: nat, order: seq<nat>, offers: seq<set<Service>>, i: nat, after: set<Service>)
      requires Unmounts(tick, order, offers) && Unmounts(tick, order + [i], offers + [after])
      ensures AnyRefused(tick, order + [i], offers + [after]) <==>
                AnyRefused(tick, order, offers) || (i < |registry| && Refused(tick + |order|, i, offers[|order|]))
    {
      var n := |order|;
      var more, now := order + [i], offers + [after];
      assert more[n] == i && now[n] == offers[n];
      assert forall k :: 0 <= k < n ==> more[k] == order[k] && now[k] == offers[k];
      if AnyRefused(tick, order, offers) {
        var k :| 0 <= k < n && Refused(tick + k, order[k], offers[k]);
        assert Refused(tick + k, more[k], now[k]);
      }
    }

    lemma OneMoreStops(recs: map<PluginId, Record>, i: nat, tick: nat, offered: set<Service>, tick': nat,
                       offered': set<Service>, anyRefused: bool)
      requires forall j :: 0 <= j < |registry| ==> registry[j].id in recs
      requires i < |registry| && StopsAll(recs, i + 1, tick, offered, tick', offered', anyRefused)
      ensures recs[registry[i].id].fiber.None? ==> StopsAll(recs, i, tick, offered, tick', offered', anyRefused)
      ensures recs[registry[i].id].fiber.Some? ==>
                StopsAll(recs, i, tick, offered, tick' + 1, After(tick', i, offered'),
                         anyRefused || Refused(tick', i, offered'))
    {
      var order, offers :|
        && Unmounts(tick, order, offers) && offers[0] == offered && offers[|order|] == offered'
        && tick' == tick + |order| && (anyRefused <==> AnyRefused(tick, order, offers))
        && AreHolders(recs, i + 1, order);
      if recs[registry[i].id].fiber.Some? {
        OneMoreAsked(tick, order, offers, i);
        OneMoreAnswer(tick, order, offers, i, After(tick', i, offered'));
        assert AreHolders(recs, i, order + [i]);
      } else {
        assert AreHolders(recs, i, order);
      }
    }

    lemma NothingStops(recs: map<PluginId, Record>, tick: nat, offered: set<Service>)
      requires forall i :: 0 <= i < |registry| ==> registry[i].id in recs
      ensures StopsAll(recs, |registry|, tick, offered, tick, offered, false)
    {
      assert Unmounts(tick, [], [offered]) && !AnyRefused(tick, [], [offered]);
    }

    /** Stops every plugin, required ones included, last registered first. Its first failure is the result. */
    method Shutdown() returns (result: RuntimeResult<()>)
      requires AtRest()
      modifies this
      ensures AtRest()
      ensures closed && overrides == old(overrides)
      ensures old(closed) ==>
                result == Ok(()) && records == old(records) && services == old(services) && clock == old(clock)
      ensures !old(closed) ==> !started && Valid() && forall i :: 0 <= i < |registry| ==> IsDisabled(records, i)
      ensures !old(closed) ==>
                StopsAll(old(records), 0, old(clock), old(services), clock, services, result == Err(UnmountFailed))
      ensures !old(closed) && result != Err(UnmountFailed) ==>
                result == if world.rootDisposes then Ok(()) else Err(RootFailed)
    {
      if closed {
        return Ok(());
      }
      result := StopEach();
      if !world.rootDisposes && result.Ok? {
        result := Err(RootFailed);
      }
      started, closed := false, true;
    }

    /** The loop of a shutdown. */
    method StopEach() returns (result: RuntimeResult<()>)
      requires Valid()
      modifies this`records, this`services, this`clock
      ensures Valid() && forall i :: 0 <= i < |registry| ==> IsDisabled(records, i)
      ensures result == Ok(()) || result == Err(UnmountFailed)
      ensures StopsAll(old(records), 0, old(clock), old(services), clock, services, result.Err?)
    {
      result := Ok(());
      var i := |registry|;
      NothingStops(records, clock, services);
      while i > 0
        invariant 0 <= i <= |registry| && Valid()
        invariant forall j :: i <= j < |registry| ==> IsDisabled(records, j)
        invariant forall j :: 0 <= j < i ==> records[registry[j].id] == old(records)[registry[j].id]
        invariant result == Ok(()) || result == Err(UnmountFailed)
        invariant StopsAll(old(records), i, old(clock), old(services), clock, services, result.Err?)
      {
        i := i - 1;
        OneMoreStops(old(records), i, old(clock), old(services), clock, services, result.Err?);
        var stopped := StopOne(i);
        if result.Ok? {
          result := stopped;
        }
      }
    }

    /** One step of a shutdown. */
    method StopOne(i: nat) returns (result: RuntimeResult<()>)
      requires Valid() && i < |registry|
      requires forall j :: i < j < |registry| ==> IsDisabled(records, j)
      modifies this`records, this`services, this`clock
      ensures Valid() && OnlyRecord(i)
      ensures forall j :: i <= j < |registry| ==> IsDisabled(records, j)
      ensures if old(HasFiber(i)) then
                && clock == old(clock) + 1 && services == After(old(clock), i, old(services))
                && result == if Refused(old(clock), i, old(services)) then Err(UnmountFailed) else Ok(())
              else
                clock == old(clock) && services == old(services) && result == Ok(())
    {
      ghost var recs := records;
      assert forall j :: i < j < |registry| ==> IsDisabled(recs, j) && registry[j].id != registry[i].id;
      result := Ok(());
      if HasFiber(i) {
        result := UnmountIndex(i, true);
      } else {
        DeactivateWithoutMount(i);
      }
      assert IsDisabled(records, i);
      assert forall j :: i < j < |registry| ==> records[registry[j].id] == recs[registry[j].id];
    }
  }

  // ------------------------------------------------------------------
  // Whole runs
  // ------------------------------------------------------------------

  datatype RuntimeCall =
    | Start
    | MountOne(id: PluginId)
    | Set(id: PluginId, enabled: bool)
    | Clear(id: PluginId)
    | Stop

  /** What the user wished for so far, as far as the runtime took it. */
  datatype Wishes = Wishes(overrides: map<PluginId, bool>, closed: bool)

  predicate Known(registry: seq<Manifest>, id: PluginId) {
    exists i :: 0 <= i < |registry| && registry[i].id == id
  }

  predicate IsRequired(registry: seq<Manifest>, id: PluginId) {
    exists i :: 0 <= i < |registry| && registry[i].id == id && registry[i].role.IsRequired()
  }

  function Wish(registry: seq<Manifest>, wishes: Wishes, call: RuntimeCall): Wishes {
    if wishes.closed then wishes
    else match call
         case Start => wishes
         case MountOne(id) =>
           if Known(registry, id) && !IsRequired(registry, id)
           then wishes.(overrides := wishes.overrides[id := true]) else wishes
         case Set(id, enabled) =>
           if Known(registry, id) && (enabled || !IsRequired(registry, id))
           then wishes.(overrides := wishes.overrides[id := enabled]) else wishes
         case Clear(id) =>
           if Known(registry, id) then wishes.(overrides := wishes.overrides - {id}) else wishes
         case Stop => wishes.(closed := true)
  }

  function WishAll(registry: seq<Manifest>, wishes: Wishes, calls: seq<RuntimeCall>): Wishes {
    if calls == [] then wishes
    else Wish(registry, WishAll(registry, wishes, calls[..|calls| - 1]), calls[|calls| - 1])
  }

  lemma {:induction false} ClosedForEver(registry: seq<Manifest>, wishes: Wishes, calls: seq<RuntimeCall>)
    ensures WishAll(registry, wishes, calls).closed <==> wishes.closed || Stop in calls
  {
    if calls != [] {
      var before, call := calls[..|calls| - 1], calls[|calls| - 1];
      assert calls == before + [call];
      ClosedForEver(registry, wishes, before);
    }
  }

  lemma RequiredIsByPlace(r: Runtime, id: PluginId)
    requires DistinctManifests(r.registry)
    ensures var i := r.IndexOf(id);
            && (Known(r.registry, id) <==> i < |r.registry|)
            && (IsRequired(r.registry, id) <==> i < |r.registry| && r.registry[i].role.IsRequired())
  {
  }

  method PerformOne(r: Runtime, call: RuntimeCall)
    requires r.AtRest()
    modifies r
    ensures r.AtRest()
    ensures Wishes(r.overrides, r.closed) == Wish(r.registry, old(Wishes(r.overrides, r.closed)), call)
    ensures !r.closed ==> r.RequiredStayMounted()
  {
    match call
    case Start =>
      var _, _ := r.StartDefault(map[]);
    case MountOne(id) =>
      RequiredIsByPlace(r, id);
      var _ := r.MountPlugin(id);
    case Set(id, enabled) =>
      RequiredIsByPlace(r, id);
      var _ := r.SetEnabled(id, enabled);
    case Clear(id) =>
      var _ := r.ClearOverride(id);
    case Stop =>
      var _ := r.Shutdown();
  }

  /** Any sequence of calls. Until a shutdown a required plugin that holds a fiber keeps that very fiber, and every
      plugin is enabled exactly as the wishes taken so far say; from a shutdown on nothing is mounted, whatever is
      asked for. */
  method PerformAll(r: Runtime, calls: seq<RuntimeCall>)
    requires r.AtRest()
    modifies r
    ensures r.AtRest()
    ensures Wishes(r.overrides, r.closed) == WishAll(r.registry, old(Wishes(r.overrides, r.closed)), calls)
    ensures r.closed <==> old(r.closed) || Stop in calls
    ensures !r.closed ==> r.RequiredStayMounted()
    ensures !r.closed ==>
              forall i :: 0 <= i < |r.registry| ==>
                && r.registry[i].id in r.records
                && r.records[r.registry[i].id].enabled == r.EffectiveEnabled(r.registry[i])
    ensures r.closed ==>
              forall i :: 0 <= i < |r.registry| ==>
                r.registry[i].id in r.records && r.records[r.registry[i].id].fiber.None?
  {
    ghost var before := Wishes(r.overrides, r.closed);
    for k := 0 to |calls|
      invariant r.AtRest()
      invariant Wishes(r.overrides, r.closed) == WishAll(r.registry, before, calls[..k])
      invariant !r.closed ==> r.RequiredStayMounted()
    {
      assert calls[..k + 1][..k] == calls[..k];
      PerformOne(r, calls[k]);
    }
    assert calls[..|calls|] == calls;
    ClosedForEver(r.registry, before, calls);
    forall i | !r.closed && 0 <= i < |r.registry|
      ensures r.registry[i].id in r.records
      ensures r.records[r.registry[i].id].enabled == r.EffectiveEnabled(r.registry[i])
    {
      assert r.SettledAt(i);
    }
    forall i | r.closed && 0 <= i < |r.registry|
      ensures r.registry[i].id in r.records && r.records[r.registry[i].id].fiber.None?
    {
      assert r.IsDisabled(r.records, i);
    }
  }

  /** Two registries that list the same wanted plugins in different orders start the same
      plugins and offer the same services. */
  method OrderDoesNotMatter(a: Runtime, b: Runtime, ghost specs: map<PluginId, Spec>)
    requires a != b && a.Settled() && b.Settled() && !a.closed && !b.closed
    requires Fixed(a.registry, a.world, specs) && Fixed(b.registry, b.world, specs)
    requires a.services == b.services && a.Wanted(a.records) == b.Wanted(b.records)
    modifies a, b
    ensures a.Holding(old(a.Wanted(a.records))) == b.Holding(old(b.Wanted(b.records)))
    ensures a.services == b.services
  {
    ghost var base, wanted := a.services, a.Wanted(a.records);
    var _, _ := a.StartDefault(specs);
    var _, _ := b.StartDefault(specs);
    LeastFixpointIsUnique(base, specs, wanted, a.Holding(wanted), b.Holding(wanted));
  }
}
