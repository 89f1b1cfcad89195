/** Scopes, their effects and their fibers, used by one caller at a time: lookup along the parent
    chain, installation, nested disposal, mounting and unmounting
    (crates/yunxi-cordis-core/src/context.rs, crates/yunxi-cordis-core/src/plugin.rs). */
module ScopeTree {
  import opened Wrappers
  import opened ScopeOrder
  import opened ScopeSweep
  import opened ScopeRest

  const MAX_PLUGIN_DEPENDENCIES := 64

  ghost predicate FibersBelow(tree: Tree, next: FiberId) {
    forall f :: f in tree.fibers ==> f < next
  }

  lemma OneMoreFiber(tree: Tree, f: FiberId, info: FiberInfo, tree': Tree)
    requires FibersBelow(tree, f) && tree' == WithFiber(tree, f, info)
    ensures FibersBelow(tree', f + 1)
  {
  }

  /** The first dependency that refuses a mount: a lookup that meets a closed scope, or a required service that is
      missing. */
  ghost function DependencyRefusal(tree: Tree, data: Contexts, s: ScopeId, dependencies: seq<Dependency>): Option<Error>
    requires IsTree(tree) && Fits(tree, data) && s in data
  {
    if dependencies == [] then None else
    match Lookup(tree, data, s, dependencies[0].service)
    case Err(e) => Some(e)
    case Ok(available) =>
      if dependencies[0].required && !available then Some(MissingDependency(dependencies[0].service))
      else DependencyRefusal(tree, data, s, dependencies[1..])
  }

  ghost predicate HasPlugin(tree: Tree, data: Contexts, s: ScopeId, plugin: string)
    requires s in data
  {
    exists f :: f in data[s].fibers && f in tree.fibers && tree.fibers[f].plugin == plugin
  }

  /** A refused mount leaves at most an empty Disposed scope behind. */
  ghost predicate NotMounted(tree: Tree, was: Snapshot, tree': Tree, now: Snapshot) {
    && tree'.fibers == tree.fibers && now.states == was.states
    && (now.data == was.data || now.data == was.data[tree.nextScope := EMPTY.(state := ScopeDisposed)])
  }

  /** A fresh fiber, Mounting, registered with s, and its fresh empty scope below s. */
  ghost predicate BeingMounted(tree: Tree, was: Snapshot, s: ScopeId, plugin: string, f: FiberId, tree': Tree,
                               now: Snapshot) {
    var c := tree.nextScope;
    && f !in tree.fibers && c !in was.data && s in was.data
    && tree' == WithFiber(WithScope(tree, Some(s)), f, FiberInfo(plugin, c))
    && now == Register(was.(data := was.data[c := EMPTY]), f, s)
  }

  lemma SamePlugins(tree: Tree, data: Contexts, s: ScopeId, plugin: string, c: ScopeId, tree': Tree, data': Contexts)
    requires s in data && c !in data && tree' == WithScope(tree, Some(s)) && data' == data[c := EMPTY]
    ensures HasPlugin(tree', data', s, plugin) == HasPlugin(tree, data, s, plugin)
  {
  }

  lemma DroppedIsNotMounted(tree: Tree, was: Snapshot, s: ScopeId, mid: Contexts, tree': Tree, now: Snapshot)
    requires mid == was.data[tree.nextScope := EMPTY] && tree' == WithScope(tree, Some(s)) && now.states == was.states
    requires now.data == mid[tree.nextScope := EMPTY.(state := ScopeDisposed)]
    ensures NotMounted(tree, was, tree', now)
  {
  }

  ghost function MountRefusal(tree: Tree, data: Contexts, s: ScopeId, plugin: string,
                              dependencies: seq<Dependency>): Option<Error>
    requires IsTree(tree) && Fits(tree, data) && s in data
  {
    if |dependencies| > MAX_PLUGIN_DEPENDENCIES then Some(DependencyLimit(plugin))
    else if DependencyRefusal(tree, data, s, dependencies).Some? then DependencyRefusal(tree, data, s, dependencies)
    else match FirstClosed(tree, data, s)
         case Some(x) => Some(ContextClosed(x))
         case None => if HasPlugin(tree, data, s, plugin) then Some(DuplicatePlugin(plugin)) else None
  }

  /** Every required service is offered by some scope around s. */
  ghost predicate ServicesOffered(tree: Tree, data: Contexts, s: ScopeId, dependencies: seq<Dependency>)
    requires IsTree(tree)
  {
    forall k :: 0 <= k < |dependencies| && dependencies[k].required ==>
      exists x :: x in data && Below(tree, s, x) && dependencies[k].service in data[x].services
  }

  /** In an active hierarchy that is all the dependency check asks for. */
  lemma {:induction false} DependenciesAreMet(tree: Tree, data: Contexts, s: ScopeId, dependencies: seq<Dependency>)
    requires IsTree(tree) && Fits(tree, data) && s in data && FirstClosed(tree, data, s) == None
    ensures DependencyRefusal(tree, data, s, dependencies) == None <==> ServicesOffered(tree, data, s, dependencies)
    decreases |dependencies|
  {
    if dependencies != [] {
      LookupFinds(tree, data, s, dependencies[0].service);
      DependenciesAreMet(tree, data, s, dependencies[1..]);
      assert forall k :: 0 < k < |dependencies| ==> dependencies[k] == dependencies[1..][k - 1];
    }
  }

  /** A mount is let in exactly when it has not too many dependencies, every scope around s is active and offers
      between them every required service, and no fiber of the same plugin is registered with s. */
  lemma MountIsLetIn(tree: Tree, data: Contexts, s: ScopeId, plugin: string, dependencies: seq<Dependency>)
    requires IsTree(tree) && Fits(tree, data) && s in data
    ensures MountRefusal(tree, data, s, plugin, dependencies) == None <==>
            && |dependencies| <= MAX_PLUGIN_DEPENDENCIES
            && (forall x :: x in data && Below(tree, s, x) ==> data[x].state == ScopeActive)
            && ServicesOffered(tree, data, s, dependencies)
            && !HasPlugin(tree, data, s, plugin)
  {
    ActiveHierarchy(tree, data, s);
    if FirstClosed(tree, data, s) == None {
      DependenciesAreMet(tree, data, s, dependencies);
    }
  }

  /** All scopes and fibers of a process; `runs` logs the disposers in the order they ran. */
  class Arena {
    var tree: Tree
    var data: Contexts
    var states: States
    var runs: seq<EffectId>
    var nextFiber: FiberId
    var nextEffect: EffectId
    const fails: EffectId -> bool

    ghost predicate Shaped()
      reads `tree, `data, `states
    {
      IsTree(tree) && Fits(tree, data) && states.Keys == tree.fibers.Keys
    }

    ghost function Now(): Snapshot
      reads `data, `states, `runs
    {
      Snapshot(data, states, runs)
    }

    /** Between calls. */
    ghost predicate Valid()
      reads this
    {
      Rested(tree, Now(), nextEffect) && FibersBelow(tree, nextFiber)
    }

    constructor (fails: EffectId -> bool)
      ensures Valid() && this.fails == fails && data == map[] && states == map[] && runs == []
    {
      tree, data, states, runs := Tree(map[], map[], 1), map[], map[], [];
      nextFiber, nextEffect := 1, 1;
      this.fails := fails;
    }

    // ------------------------------------------------------------------
    // Lookup
    // ------------------------------------------------------------------

    method EnsureHierarchyActive(s: ScopeId) returns (r: Option<Error>)
      requires Shaped() && s in data
      ensures r == match FirstClosed(tree, data, s) case None => None case Some(x) => Some(ContextClosed(x))
    {
      var current := Some(s);
      while current.Some?
        invariant current.Some? ==> current.value in data
        invariant FirstClosed(tree, data, s) == if current.None? then None else FirstClosed(tree, data, current.value)
        decreases if current.None? then 0 else current.value + 1
      {
        if data[current.value].state != ScopeActive {
          return Some(ContextClosed(current.value));
        }
        current := tree.parents[current.value];
      }
      r := None;
    }

    method HasService(s: ScopeId, name: string) returns (r: ScopeResult<bool>)
      requires Shaped() && s in data
      ensures r == Lookup(tree, data, s, name)
    {
      var current := Some(s);
      while current.Some?
        invariant current.Some? ==> current.value in data
        invariant Lookup(tree, data, s, name) ==
                  if current.None? then Ok(false) else Lookup(tree, data, current.value, name)
        decreases if current.None? then 0 else current.value + 1
      {
        if data[current.value].state != ScopeActive {
          return Err(ContextClosed(current.value));
        }
        if name in data[current.value].services {
          return Ok(true);
        }
        current := tree.parents[current.value];
      }
      r := Ok(false);
    }

    // ------------------------------------------------------------------
    // Disposal
    // ------------------------------------------------------------------

    /** The last part of dispose: run the taken disposers, record how each one ended and close the scope. */
    method RunAndClose(s: ScopeId, queue: seq<EffectId>, first: Option<Error>) returns (r: Option<Error>)
      requires s in data && forall id :: id in queue ==> id in data[s].effects
      modifies `data, `runs
      ensures var settled := Settled(fails, old(data)[s].effects, IdsOf(queue));
              data == old(data)[s := ContextData(ScopeDisposed, {}, settled, [])]
      ensures runs == old(runs) + queue
      ensures r == if first.Some? then first else FirstFailure(fails, queue)
    {
      r := first;
      ghost var before := data[s];
      assert queue[..0] == [] && IdsOf(queue[..0]) == {};
      assert Settled(fails, before.effects, {}) == before.effects;
      assert data == old(data)[s := before];
      for i := 0 to |queue|
        invariant s in data
        invariant data == old(data)[s := before.(effects := Settled(fails, before.effects, IdsOf(queue[..i])))]
        invariant runs == old(runs) + queue[..i]
        invariant r == if first.Some? then first else FirstFailure(fails, queue[..i])
      {
        var id := queue[i];
        assert queue[..i + 1] == queue[..i] + [id] && queue[..i + 1][..i] == queue[..i] && id in queue;
        runs := runs + [id];
        data := data[s := data[s].(effects := data[s].effects[id := Outcome(fails, id)])];
        if fails(id) && r.None? {
          r := Some(DisposerFailed(id));
        }
        SettleOne(fails, before.effects, queue, i);
      }
      assert queue[..|queue|] == queue;
      data := data[s := data[s].(services := {}, fibers := [], state := ScopeDisposed)];
    }

    /** The first loop of dispose: dispose the scope of each fiber, then mark the fiber. */
    method DisposeFibers(s: ScopeId, list: seq<FiberId>) returns (r: Option<Error>)
      requires Shaped() && s in data && OwnedBy(tree, s, list) && Ascending(list) && DisposingUpTo(data, s)
      modifies `data, `states, `runs
      ensures Progress(tree, fails, old(Now()), s, list, |list|, Now(), r)
      decreases tree.nextScope - s, 0, 1
    {
      r := None;
      ghost var was := Now();
      NoProgress(tree, fails, was, s, list);
      for i := 0 to |list|
        invariant states.Keys == tree.fibers.Keys && Progress(tree, fails, was, s, list, i, Now(), r)
      {
        r := DisposeFiber(was, s, list, i, r);
      }
    }

    /** One round of that loop. */
    method DisposeFiber(ghost was: Snapshot, s: ScopeId, list: seq<FiberId>, i: nat, first: Option<Error>)
      returns (r: Option<Error>)
      requires IsTree(tree) && Fits(tree, was.data) && s in was.data && OwnedBy(tree, s, list) && Ascending(list)
      requires i < |list|
      requires DisposingUpTo(was.data, s) && was.states.Keys == states.Keys == tree.fibers.Keys
      requires Progress(tree, fails, was, s, list, i, Now(), first)
      modifies `data, `states, `runs
      ensures states.Keys == old(states).Keys
      ensures Progress(tree, fails, was, s, list, i + 1, Now(), r)
      decreases tree.nextScope - s, 0, 0
    {
      ghost var t, before := tree, Now();
      NextIsReady(t, fails, was, s, list, i, before, first);
      var one := DisposeScope(tree.fibers[list[i]].scope);
      ghost var after := Now();
      r := if first.Some? then first else one;
      states := states[list[i] := Unmounted];
      FiberProgress(t, fails, was, s, list, i, before, first, after, one, Now(), r);
    }

    /** One call of dispose; the scopes around s may be in the middle of their own disposal. */
    method DisposeScope(s: ScopeId) returns (r: Option<Error>)
      requires Shaped() && s in data && DisposingUpTo(data, s)
      modifies `data, `states, `runs
      ensures IsDisposal(tree, fails, old(Now()), s, Now(), r)
      decreases tree.nextScope - s, 1, 0
    {
      var found := data[s];
      if found.state != ScopeActive {
        NothingToSweep(tree, fails, data, states);
        return if found.state == ScopeDisposed then None else Some(ContextClosed(s));
      }
      ghost var was := Now();
      assert OwnedBy(tree, s, found.fibers) && Ascending(found.fibers);
      BeginUnmounts(found.fibers);
      var queue, taken := TakeEffects(found.effects);
      ghost var during, marked := found.(state := ScopeDisposing, effects := taken), states;
      data := data[s := found.(state := ScopeDisposing, effects := taken)];
      NestedIsTheSame(tree, was.data, s, during);
      var first := DisposeFibers(s, found.fibers);
      ghost var mid := Now();
      r := RunAndClose(s, queue, first);
      ScopeDone(tree, fails, was, s, during, marked, mid, first, queue, Now(), r);
    }

    /** The fibers found Mounting or Mounted are marked while the scope is locked. */
    method BeginUnmounts(list: seq<FiberId>)
      requires forall f :: f in list ==> f in states
      modifies `states
      ensures states.Keys == old(states).Keys
      ensures forall f :: f in states ==>
        states[f] == if f in list && old(states)[f] in {Mounting, Mounted} then Unmounting else old(states)[f]
    {
      for i := 0 to |list|
        invariant states.Keys == old(states).Keys
        invariant forall f :: f in states ==>
          states[f] == if f in list[..i] && old(states)[f] in {Mounting, Mounted} then Unmounting else old(states)[f]
      {
        assert list[..i + 1] == list[..i] + [list[i]] && list[i] in list;
        if states[list[i]] in {Mounting, Mounted} {
          states := states[list[i] := Unmounting];
        }
      }
      assert list[..|list|] == list;
    }

    method Dispose(s: ScopeId) returns (r: Option<Error>)
      requires Valid() && s in data
      modifies `data, `states, `runs
      ensures Valid()
      ensures IsDisposal(tree, fails, old(Now()), s, Now(), r)
    {
      CalmAtRest(tree, Now(), nextEffect);
      r := DisposeScope(s);
      DisposalKeepsRest(tree, fails, old(Now()), s, Now(), r, nextEffect);
    }

    // ------------------------------------------------------------------
    // Scopes, services and effects
    // ------------------------------------------------------------------

    method AddScope(parent: Option<ScopeId>) returns (s: ScopeId)
      requires Valid() && (parent.Some? ==> parent.value in data)
      modifies `tree, `data
      ensures Valid()
      ensures s == old(tree).nextScope && s !in old(data)
      ensures tree == WithScope(old(tree), parent) && data == old(data)[s := EMPTY]
    {
      ghost var was, at := tree, Now();
      assert tree.nextScope !in tree.parents;
      s := StoreScope(parent);
      assert Rested(tree, Now(), nextEffect) by {
        NewScopeKeepsRest(was, at, nextEffect, parent);
        SameRest(WithScope(was, parent), at.(data := at.data[s := EMPTY]), nextEffect, tree, Now());
      }
    }

    method StoreScope(parent: Option<ScopeId>) returns (s: ScopeId)
      modifies `tree, `data
      ensures s == old(tree).nextScope && tree == WithScope(old(tree), parent) && data == old(data)[s := EMPTY]
    {
      s := tree.nextScope;
      data := data[s := EMPTY];
      tree := tree.(parents := tree.parents[s := parent], nextScope := s + 1);
    }

    /** A child can be made exactly while the whole hierarchy is active. */
    method Child(s: ScopeId) returns (r: ScopeResult<ScopeId>)
      requires Valid() && s in data
      modifies `tree, `data
      ensures Valid()
      ensures r == match FirstClosed(old(tree), old(data), s)
                   case Some(x) => Err(ContextClosed(x))
                   case None => Ok(old(tree).nextScope)
      ensures r.Err? ==> tree == old(tree) && data == old(data)
      ensures r.Ok? ==>
                r.value !in old(data) && tree == WithScope(old(tree), Some(s)) && data == old(data)[r.value := EMPTY]
    {
      var refusal := EnsureHierarchyActive(s);
      if refusal.Some? {
        return Err(refusal.value);
      }
      var c := AddScope(Some(s));
      r := Ok(c);
    }

    method Provide(s: ScopeId, name: string) returns (r: Option<Error>)
      requires Valid() && s in data
      modifies `data
      ensures Valid()
      ensures r == match FirstClosed(tree, old(data), s)
                   case Some(x) => Some(ContextClosed(x))
                   case None => if name in old(data)[s].services then Some(DuplicateService(name)) else None
      ensures data == if r == None then old(data)[s := old(data)[s].(services := old(data)[s].services + {name})]
                      else old(data)
    {
      r := EnsureHierarchyActive(s);
      if r.Some? {
        return;
      }
      if name in data[s].services {
        return Some(DuplicateService(name));
      }
      ServicesKeepRest(tree, Now(), nextEffect, s, data[s].services + {name});
      data := data[s := data[s].(services := data[s].services + {name})];
    }

    /** Creates an effect and installs it; below a closed scope the effect is dropped without running. */
    method InstallEffect(s: ScopeId) returns (r: ScopeResult<EffectId>)
      requires Valid() && s in data
      modifies `data, `nextEffect
      ensures Valid() && nextEffect == old(nextEffect) + 1
      ensures r == match FirstClosed(tree, old(data), s)
                   case Some(x) => Err(ContextClosed(x))
                   case None => Ok(old(nextEffect))
      ensures data == if r.Err? then old(data)
                      else old(data)[s := old(data)[s].(effects := old(data)[s].effects[r.value := Active])]
    {
      var id := nextEffect;
      var refusal := EnsureHierarchyActive(s);
      if refusal.Some? {
        RestsLater(tree, Now(), id);
        r := Err(refusal.value);
      } else {
        StoreEffect(s, id);
        r := Ok(id);
      }
      assert Rested(tree, Now(), id + 1) && FibersBelow(tree, nextFiber);
      nextEffect := id + 1;
    }

    method StoreEffect(s: ScopeId, id: EffectId)
      requires Rested(tree, Now(), id) && s in data && data[s].state == ScopeActive
      modifies `data
      ensures Rested(tree, Now(), id + 1)
      ensures data == old(data)[s := old(data)[s].(effects := old(data)[s].effects[id := Active])]
    {
      InstallKeepsRest(tree, Now(), id, s);
      data := data[s := data[s].(effects := data[s].effects[id := Active])];
    }

    /** Only an Active effect is run; then it is Disposed or Failed for good. */
    method DisposeEffect(s: ScopeId, id: EffectId) returns (r: Option<Error>)
      requires Valid() && s in data
      modifies `data, `runs
      ensures Valid()
      ensures r == if id !in old(data)[s].effects then Some(EffectNotFound(id))
                   else if old(data)[s].effects[id] != Active then Some(EffectUnavailable(id, old(data)[s].effects[id]))
                   else if fails(id) then Some(DisposerFailed(id)) else None
      ensures id in ActiveIds(old(data)[s].effects) ==> RanActive(fails, old(Now()), s, id, Now())
      ensures id in ActiveIds(old(data)[s].effects) ==>
                data[s].effects == old(data)[s].effects[id := if fails(id) then Failed else Disposed]
      ensures id !in ActiveIds(old(data)[s].effects) ==> runs == old(runs) && data == old(data)
    {
      if id !in data[s].effects {
        r := Some(EffectNotFound(id));
      } else if data[s].effects[id] != Active {
        r := Some(EffectUnavailable(id, data[s].effects[id]));
      } else {
        RunActive(s, id);
        r := if fails(id) then Some(DisposerFailed(id)) else None;
      }
    }

    method RunActive(s: ScopeId, id: EffectId)
      requires Valid() && s in data && id in ActiveIds(data[s].effects)
      modifies `data, `runs
      ensures Valid()
      ensures RanActive(fails, old(Now()), s, id, Now())
    {
      ghost var at := Now();
      TakeAndRun(s, id);
      RunKeepsRest(tree, fails, at, nextEffect, s, id, Now());
    }

    /** Takes the disposer, runs it and records how it ended. */
    method TakeAndRun(s: ScopeId, id: EffectId)
      requires s in data && id in ActiveIds(data[s].effects)
      modifies `data, `runs
      ensures RanActive(fails, old(Now()), s, id, Now())
    {
      data := data[s := data[s].(effects := data[s].effects[id := Disposing])];
      runs := runs + [id];
      data := data[s := data[s].(effects := data[s].effects[id := Outcome(fails, id)])];
      assert data[s].effects == old(data)[s].effects[id := Outcome(fails, id)];
    }

    // ------------------------------------------------------------------
    // Fibers
    // ------------------------------------------------------------------

    method CheckDependencies(s: ScopeId, dependencies: seq<Dependency>) returns (r: Option<Error>)
      requires Shaped() && s in data
      ensures r == DependencyRefusal(tree, data, s, dependencies)
    {
      assert dependencies[0..] == dependencies;
      for i := 0 to |dependencies|
        invariant DependencyRefusal(tree, data, s, dependencies) == DependencyRefusal(tree, data, s, dependencies[i..])
      {
        assert dependencies[i..][1..] == dependencies[i + 1..];
        var available := HasService(s, dependencies[i].service);
        if available.Err? {
          return Some(available.error);
        }
        if dependencies[i].required && !available.value {
          return Some(MissingDependency(dependencies[i].service));
        }
      }
      r := None;
    }

    /** The registered fibers are live, so the search need not look at their states twice. */
    method FindPlugin(s: ScopeId, plugin: string) returns (found: bool)
      requires Valid() && s in data
      ensures found <==> HasPlugin(tree, data, s, plugin)
    {
      var list := data[s].fibers;
      assert OwnedBy(tree, s, list) && ScopeRests(tree, data[s], states, runs, nextEffect);
      for i := 0 to |list|
        invariant forall f :: f in list[..i] && f in tree.fibers ==> tree.fibers[f].plugin != plugin
      {
        assert list[..i + 1] == list[..i] + [list[i]] && list[i] in list;
        if tree.fibers[list[i]].plugin == plugin && states[list[i]] in {Mounting, Mounted} {
          return true;
        }
      }
      assert list[..|list|] == list;
      found := false;
    }

    method StoreFiber(s: ScopeId, plugin: string, c: ScopeId, f: FiberId)
      requires s in data
      modifies `tree, `data, `states
      ensures tree == WithFiber(old(tree), f, FiberInfo(plugin, c)) && Now() == Register(old(Now()), f, s)
    {
      tree := tree.(fibers := tree.fibers[f := FiberInfo(plugin, c)]);
      states := states[f := Mounting];
      data := data[s := data[s].(fibers := data[s].fibers + [f])];
    }

    method RegisterFiber(s: ScopeId, plugin: string, c: ScopeId, f: FiberId)
      requires Valid() && s in data && data[s].state == ScopeActive && !HasPlugin(tree, data, s, plugin)
      requires c in tree.parents && tree.parents[c] == Some(s)
      requires FibersBelow(tree, f)
      requires forall g :: g in tree.fibers ==> tree.fibers[g].scope != c
      modifies `tree, `data, `states
      ensures Rested(tree, Now(), nextEffect)
      ensures tree == WithFiber(old(tree), f, FiberInfo(plugin, c)) && Now() == Register(old(Now()), f, s)
    {
      ghost var was, at := tree, Now();
      StoreFiber(s, plugin, c, f);
      RegisterKeepsRest(was, at, nextEffect, f, FiberInfo(plugin, c), s, tree, Now());
    }

    /** The scope made for a mount that turns out to be a duplicate. */
    method DropChild(c: ScopeId)
      requires Valid() && c in data && data[c] == EMPTY
      modifies `data, `states, `runs
      ensures Valid()
      ensures states == old(states) && runs == old(runs) && data == old(data)[c := EMPTY.(state := ScopeDisposed)]
    {
      FreshDisposal(tree, fails, Now(), nextEffect, c);
      var ignored := Dispose(c);
    }

    /** Registers a fiber for the plugin, unless one is registered; then the child scope is Disposed. */
    method AttachFiber(s: ScopeId, plugin: string, c: ScopeId) returns (r: ScopeResult<FiberId>)
      requires Valid() && s in data && data[s].state == ScopeActive
      requires c in data && data[c] == EMPTY && tree.parents[c] == Some(s)
      requires forall g :: g in tree.fibers ==> tree.fibers[g].scope != c
      modifies `tree, `data, `states, `runs, `nextFiber
      ensures Valid() && runs == old(runs)
      ensures r == if HasPlugin(old(tree), old(data), s, plugin) then Err(DuplicatePlugin(plugin))
                   else Ok(old(nextFiber))
      ensures r.Err? ==>
                tree == old(tree) && states == old(states) && data == old(data)[c := EMPTY.(state := ScopeDisposed)]
      ensures r.Ok? ==> r.value !in old(tree).fibers
      ensures r.Ok? ==>
                tree == WithFiber(old(tree), r.value, FiberInfo(plugin, c)) && Now() == Register(old(Now()), r.value, s)
    {
      var f := nextFiber;
      nextFiber := f + 1;
      var duplicate := FindPlugin(s, plugin);
      if duplicate {
        DropChild(c);
        r := Err(DuplicatePlugin(plugin));
      } else {
        RegisterFiber(s, plugin, c, f);
        assert FibersBelow(tree, nextFiber) by {
          OneMoreFiber(old(tree), f, FiberInfo(plugin, c), tree);
        }
        r := Ok(f);
      }
    }

    /** A child scope and a registered fiber for the plugin. */
    method CreateFiber(s: ScopeId, plugin: string) returns (r: ScopeResult<FiberId>)
      requires Valid() && s in data
      modifies `tree, `data, `states, `runs, `nextFiber
      ensures Valid() && runs == old(runs)
      ensures r == match FirstClosed(old(tree), old(data), s)
                   case Some(x) => Err(ContextClosed(x))
                   case None =>
                     if HasPlugin(old(tree), old(data), s, plugin) then Err(DuplicatePlugin(plugin))
                     else Ok(old(nextFiber))
      ensures r.Err? ==> NotMounted(old(tree), old(Now()), tree, Now())
      ensures r.Ok? ==> BeingMounted(old(tree), old(Now()), s, plugin, r.value, tree, Now())
    {
      var child := Child(s);
      if child.Err? {
        return Err(child.error);
      }
      ghost var mid := data;
      SamePlugins(old(tree), old(data), s, plugin, child.value, tree, mid);
      r := AttachFiber(s, plugin, child.value);
      if r.Err? {
        DroppedIsNotMounted(old(tree), old(Now()), s, mid, tree, Now());
      }
    }

    /** The part of mount before the plugin's own code. */
    method BeginMount(s: ScopeId, plugin: string, dependencies: seq<Dependency>) returns (r: ScopeResult<FiberId>)
      requires Valid() && s in data
      modifies `tree, `data, `states, `runs, `nextFiber
      ensures Valid() && runs == old(runs)
      ensures r == match MountRefusal(old(tree), old(data), s, plugin, dependencies)
                   case Some(e) => Err(e)
                   case None => Ok(old(nextFiber))
      ensures r.Err? ==> NotMounted(old(tree), old(Now()), tree, Now())
      ensures r.Ok? ==> BeingMounted(old(tree), old(Now()), s, plugin, r.value, tree, Now())
    {
      if |dependencies| > MAX_PLUGIN_DEPENDENCIES {
        return Err(DependencyLimit(plugin));
      }
      var refusal := CheckDependencies(s, dependencies);
      if refusal.Some? {
        return Err(refusal.value);
      }
      r := CreateFiber(s, plugin);
    }

    /** A fiber that is not registered any more is left alone. */
    method Unregister(f: FiberId)
      requires Shaped() && f in tree.fibers && Owner(tree, f) in data
      modifies `data, `states
      ensures Now() == Release(tree, old(Now()), f, Unmounted)
    {
      var owner := Owner(tree, f);
      data := data[owner := data[owner].(fibers := Without(data[owner].fibers, f))];
      states := states[f := Unmounted];
    }

    method DisposeMarked(f: FiberId, mark: FiberState) returns (r: Option<Error>)
      requires Shaped() && f in tree.fibers && DisposingUpTo(data, tree.fibers[f].scope)
      modifies `data, `states, `runs
      ensures Shaped()
      ensures IsDisposal(tree, fails, old(Now()).(states := old(states)[f := mark]), tree.fibers[f].scope, Now(), r)
    {
      states := states[f := mark];
      ghost var was := Now();
      r := DisposeScope(tree.fibers[f].scope);
      DisposedFits(tree, fails, was, tree.fibers[f].scope, Now(), r);
    }

    /** Marks the fiber, disposes its scope and takes it out of its owner's list. */
    method DisposeAndRelease(f: FiberId, mark: FiberState) returns (r: Option<Error>)
      requires Shaped() && f in tree.fibers && Calm(data)
      modifies `data, `states, `runs
      ensures IsTornDown(tree, fails, old(Now()), f, Now(), r)
    {
      ghost var was := Now();
      r := DisposeMarked(f, mark);
      ghost var mid := Now();
      Unregister(f);
      TearDownEnds(tree, fails, was, f, mark, mid, r, Now());
    }

    method TearDown(f: FiberId, mark: FiberState) returns (r: Option<Error>)
      requires Valid() && f in tree.fibers
      modifies `data, `states, `runs
      ensures Valid()
      ensures IsTornDown(tree, fails, old(Now()), f, Now(), r)
    {
      ghost var was := Now();
      CalmAtRest(tree, was, nextEffect);
      r := DisposeAndRelease(f, mark);
      TornDownRests(tree, fails, was, nextEffect, f, Now(), r);
    }

    /** The rest of mount, once the plugin's own code has returned: a failed mount disposes what the
        plugin installed and unregisters the fiber; its handle is dropped, which leaves it Unmounted. */
    method EndMount(f: FiberId, ok: bool) returns (r: ScopeResult<FiberId>)
      requires Valid() && f in tree.fibers && states[f] in {Mounting, Unmounted}
      modifies `data, `states, `runs
      ensures Valid()
      ensures r == if ok then Ok(f) else Err(PluginMountFailed(tree.fibers[f].plugin))
      ensures ok ==> Now() == old(Now()).(states := old(states)[f := Mounted])
      ensures !ok ==> exists cleanup :: IsTornDown(tree, fails, old(Now()), f, Now(), cleanup)
    {
      if ok {
        MountedKeepsRest(tree, Now(), nextEffect, f);
        states := states[f := Mounted];
        r := Ok(f);
      } else {
        var cleanup := TearDown(f, MountFailed);
        r := Err(PluginMountFailed(tree.fibers[f].plugin));
      }
    }

    /** A fiber is unmounted once; while it is Mounting the call is refused. Between calls no fiber is
        Unmounting or MountFailed. */
    method Unmount(f: FiberId) returns (r: Option<Error>)
      requires Valid() && f in tree.fibers
      modifies `data, `states, `runs
      ensures Valid()
      ensures old(states)[f] == Mounted ==> IsTornDown(tree, fails, old(Now()), f, Now(), r)
      ensures old(states)[f] == Mounting ==> r == Some(InvalidFiberState(f)) && Now() == old(Now())
      ensures old(states)[f] == Unmounted ==> r == None && Now() == old(Now())
    {
      if states[f] == Unmounted {
        r := None;
      } else if states[f] == Mounting {
        r := Some(InvalidFiberState(f));
      } else {
        r := TearDown(f, Unmounting);
      }
    }
  }
}
