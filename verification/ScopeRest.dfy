/** Every operation on scopes and fibers keeps the invariants that hold between calls
    (crates/yunxi-cordis-core/src/context.rs, crates/yunxi-cordis-core/src/plugin.rs). */
module ScopeRest {
  import opened Wrappers
  import opened ScopeOrder
  import opened ScopeSweep

  /** A scope is open or closed and empty; its effects ran exactly if they are not Active; its registered fibers
      are live and of different plugins. */
  ghost predicate ScopeRests(tree: Tree, c: ContextData, states: States, runs: seq<EffectId>, nextEffect: EffectId)
    requires states.Keys == tree.fibers.Keys
  {
    Settles(c) && TrackedIn(c.effects, runs, nextEffect) && RegisteredIn(tree, c.fibers, states)
  }

  ghost predicate ScopesRest(tree: Tree, at: Snapshot, nextEffect: EffectId)
    requires at.states.Keys == tree.fibers.Keys
  {
    forall x {:trigger ScopeRests(tree, at.data[x], at.states, at.runs, nextEffect)} ::
      x in at.data ==> ScopeRests(tree, at.data[x], at.states, at.runs, nextEffect)
  }

  ghost predicate LogRests(at: Snapshot, nextEffect: EffectId) {
    && EffectsApart(at.data) && NoDuplicates(at.runs) && (forall id :: id in at.runs ==> id < nextEffect)
    && (forall f :: f in at.states ==> at.states[f] !in {Unmounting, MountFailed})
  }

  /** What holds between calls: every scope rests, no effect has two owners, no disposer ran twice,
      and no fiber is on its way between two states. */
  ghost predicate Rested(tree: Tree, at: Snapshot, nextEffect: EffectId) {
    && IsTree(tree) && Fits(tree, at.data) && at.states.Keys == tree.fibers.Keys
    && LogRests(at, nextEffect)
    && ScopesRest(tree, at, nextEffect)
  }

  lemma RestedParts(tree: Tree, at: Snapshot, nextEffect: EffectId)
    requires Rested(tree, at, nextEffect)
    ensures AtRest(at.data) && Recorded(at.data, at.runs, nextEffect) && Registrations(tree, at.data, at.states)
  {
    forall x | x in at.data
      ensures Settles(at.data[x]) && TrackedIn(at.data[x].effects, at.runs, nextEffect)
      ensures RegisteredIn(tree, at.data[x].fibers, at.states)
    {
      assert ScopeRests(tree, at.data[x], at.states, at.runs, nextEffect);
    }
  }

  lemma RestedFromParts(tree: Tree, at: Snapshot, nextEffect: EffectId)
    requires IsTree(tree) && Fits(tree, at.data) && at.states.Keys == tree.fibers.Keys
    requires AtRest(at.data) && Recorded(at.data, at.runs, nextEffect) && Registrations(tree, at.data, at.states)
    ensures Rested(tree, at, nextEffect)
  {
    forall x | x in at.data ensures ScopeRests(tree, at.data[x], at.states, at.runs, nextEffect) {
      assert Settles(at.data[x]) && TrackedIn(at.data[x].effects, at.runs, nextEffect)
          && RegisteredIn(tree, at.data[x].fibers, at.states);
    }
  }

  function Owner(tree: Tree, f: FiberId): ScopeId
    requires IsTree(tree) && f in tree.fibers
  {
    tree.parents[tree.fibers[f].scope].value
  }

  function Without(list: seq<FiberId>, f: FiberId): (r: seq<FiberId>)
    ensures forall g :: g in r <==> g in list && g != f
  {
    if list == [] then [] else
    var last := list[|list| - 1];
    Without(list[..|list| - 1], f) + if last == f then [] else [last]
  }

  lemma {:induction false} WithoutAscends(list: seq<FiberId>, f: FiberId)
    requires Ascending(list)
    ensures Ascending(Without(list, f))
  {
    if list != [] {
      var front, last := list[..|list| - 1], list[|list| - 1];
      forall j: nat, k: nat | j < k < |front| ensures Increases(front, j, k) {
        assert Increases(list, j, k);
      }
      WithoutAscends(front, f);
      var rest := Without(front, f);
      forall j | 0 <= j < |rest| ensures rest[j] < last {
        assert rest[j] in front;
        var k :| 0 <= k < |front| && front[k] == rest[j];
        assert Increases(list, k, |list| - 1);
      }
      forall j: nat, k: nat | j < k < |Without(list, f)| ensures Increases(Without(list, f), j, k) {
        assert k < |rest| ==> Increases(rest, j, k);
      }
    }
  }

  lemma AppendAscends(list: seq<FiberId>, f: FiberId)
    requires Ascending(list) && forall g :: g in list ==> g < f
    ensures Ascending(list + [f])
  {
    forall j: nat, k: nat | j < k < |list + [f]| ensures Increases(list + [f], j, k) {
      assert list[j] in list;
      assert k < |list| ==> Increases(list, j, k);
    }
  }

  // ------------------------------------------------------------------
  // Disposal
  // ------------------------------------------------------------------

  lemma DisposalKeepsRest(tree: Tree, fails: EffectId -> bool, was: Snapshot, s: ScopeId, now: Snapshot,
                          r: Option<Error>, nextEffect: EffectId)
    requires Rested(tree, was, nextEffect) && s in was.data && IsDisposal(tree, fails, was, s, now, r)
    ensures Rested(tree, now, nextEffect)
  {
    var swept := Swept(tree, was.data, s);
    RestedParts(tree, was, nextEffect);
    assert Settles(was.data[s]);
    SweepFits(tree, fails, was.data, swept);
    SweepSettles(tree, fails, was.data, swept);
    SweepIsRecorded(tree, fails, was.data, s, was.runs, nextEffect);
    SweepKeepsRegistrations(tree, fails, was.data, was.states, swept);
    RestedFromParts(tree, now, nextEffect);
  }

  /** An effect that was Active has ended as its disposer went, and the others are as they were. */
  predicate EndedAs(fails: EffectId -> bool, was: map<EffectId, EffectState>, now: map<EffectId, EffectState>) {
    forall id :: id in was ==>
      id in now && now[id] == if was[id] != Active then was[id] else if fails(id) then Failed else Disposed
  }

  /** A returned dispose: s and every scope reached from it is Disposed and empty, each formerly Active effect
      of these scopes has ended Disposed or Failed, and nothing else changed, whether or not disposers failed. */
  lemma DisposalIsComplete(tree: Tree, fails: EffectId -> bool, was: Snapshot, s: ScopeId, now: Snapshot,
                           r: Option<Error>, nextEffect: EffectId)
    requires Rested(tree, was, nextEffect) && s in was.data && IsDisposal(tree, fails, was, s, now, r)
    ensures now.data.Keys == was.data.Keys && now.data[s].state == ScopeDisposed
    ensures forall x :: x in Swept(tree, was.data, s) ==>
      && x in now.data && Below(tree, x, s)
      && now.data[x].state == ScopeDisposed && now.data[x].services == {} && now.data[x].fibers == []
      && now.data[x].effects.Keys == was.data[x].effects.Keys && ActiveIds(now.data[x].effects) == {}
      && EndedAs(fails, was.data[x].effects, now.data[x].effects)
    ensures forall x :: x in was.data && x !in Swept(tree, was.data, s) ==> now.data[x] == was.data[x]
  {
    assert ScopeRests(tree, was.data[s], was.states, was.runs, nextEffect);
    forall x | x in Swept(tree, was.data, s)
      ensures x in was.data && Below(tree, x, s) && ActiveIds(SweptContext(fails, was.data[x]).effects) == {}
    {
      SweptIsBelow(tree, was.data, s, x);
    }
  }

  /** It ran each of these effects exactly once, inner scopes before outer ones and newer effects before
      older ones, and reports a failure exactly if one of them failed. */
  lemma DisposalRunsInOrder(tree: Tree, fails: EffectId -> bool, was: Snapshot, s: ScopeId, now: Snapshot,
                            r: Option<Error>, nextEffect: EffectId)
    returns (order: seq<EffectId>)
    requires Rested(tree, was, nextEffect) && s in was.data && IsDisposal(tree, fails, was, s, now, r)
    ensures now.runs == was.runs + order && NoDuplicates(order) && InOrder(tree, was.data, order)
    ensures forall id :: id in order <==> RunFrom(was.data, Swept(tree, was.data, s), id)
    ensures r == None <==> forall id :: id in order ==> !fails(id)
  {
    order := Order(tree, was.data, s);
    RestedParts(tree, was, nextEffect);
    assert Settles(was.data[s]);
    OrderIsRight(tree, was.data, s);
    forall id ensures id in order <==> RunFrom(was.data, Swept(tree, was.data, s), id) {
      OrderCovers(tree, was.data, s, id);
    }
  }

  /** No fiber registered inside the disposed branch keeps an open scope. */
  lemma NothingBelowStaysOpen(tree: Tree, fails: EffectId -> bool, was: Snapshot, s: ScopeId, now: Snapshot,
                              r: Option<Error>,
                              nextEffect: EffectId, x: ScopeId, f: FiberId)
    requires Rested(tree, was, nextEffect) && s in was.data && IsDisposal(tree, fails, was, s, now, r)
    requires x in Swept(tree, was.data, s) && x in was.data && f in was.data[x].fibers
    ensures f in tree.fibers && f in now.states && now.states[f] == Unmounted
    ensures tree.fibers[f].scope in now.data && now.data[tree.fibers[f].scope].state == ScopeDisposed
  {
    SweptIsClosed(tree, was.data, s, x, f);
    RestedParts(tree, was, nextEffect);
    assert Settles(was.data[s]) && Settles(was.data[tree.fibers[f].scope]);
    assert Released(tree, was.data, Swept(tree, was.data, s), f);
  }

  // ------------------------------------------------------------------
  // Other operations
  // ------------------------------------------------------------------

  const EMPTY := ContextData(ScopeActive, {}, map[], [])

  lemma SameRest(tree: Tree, at: Snapshot, nextEffect: EffectId, tree': Tree, at': Snapshot)
    requires Rested(tree, at, nextEffect)
    requires tree' == tree && at'.data == at.data && at'.states == at.states && at'.runs == at.runs
    ensures Rested(tree', at', nextEffect) && at' == at
  {
  }

  /** A scope does not notice new fibers elsewhere. */
  lemma StillRests(tree: Tree, states: States, tree': Tree, states': States, c: ContextData, runs: seq<EffectId>,
                   nextEffect: EffectId)
    requires states.Keys == tree.fibers.Keys && states'.Keys == tree'.fibers.Keys
    requires ScopeRests(tree, c, states, runs, nextEffect)
    requires forall f :: f in c.fibers && f in tree.fibers ==>
      f in tree'.fibers && tree'.fibers[f] == tree.fibers[f] && states'[f] == states[f]
    ensures ScopeRests(tree', c, states', runs, nextEffect)
  {
    forall f, g | f in c.fibers && g in c.fibers && f != g
      ensures f in tree'.fibers && g in tree'.fibers && OtherPlugin(tree', f, g)
    {
      assert OtherPlugin(tree, f, g);
    }
  }

  lemma StillApart(data: Contexts, data': Contexts)
    requires EffectsApart(data) && data'.Keys == data.Keys
    requires forall x :: x in data ==> data'[x].effects.Keys == data[x].effects.Keys
    ensures EffectsApart(data')
  {
    forall x, y | x in data' && y in data' && x != y ensures Apart(data', x, y) {
      assert Apart(data, x, y);
    }
  }

  function WithScope(tree: Tree, parent: Option<ScopeId>): Tree {
    tree.(parents := tree.parents[tree.nextScope := parent], nextScope := tree.nextScope + 1)
  }

  lemma NewScopeFits(tree: Tree, data: Contexts, parent: Option<ScopeId>)
    requires IsTree(tree) && Fits(tree, data) && (parent.Some? ==> parent.value in tree.parents)
    ensures tree.nextScope !in data
    ensures IsTree(WithScope(tree, parent)) && Fits(WithScope(tree, parent), data[tree.nextScope := EMPTY])
  {
    var data' := data[tree.nextScope := EMPTY];
    forall g, h | g in tree.fibers && h in tree.fibers && g != h ensures OtherScope(WithScope(tree, parent), g, h) {
      assert OtherScope(tree, g, h);
    }
    forall x | x in data' ensures Ascending(data'[x].fibers) && OwnedBy(WithScope(tree, parent), x, data'[x].fibers) {
      assert x != tree.nextScope ==> OwnedBy(tree, x, data[x].fibers);
    }
  }

  lemma NewScopeApart(data: Contexts, s: ScopeId)
    requires EffectsApart(data) && s !in data
    ensures EffectsApart(data[s := EMPTY])
  {
    var data' := data[s := EMPTY];
    forall x, y | x in data' && y in data' && x != y ensures Apart(data', x, y) {
      assert x != s && y != s ==> Apart(data, x, y);
    }
  }

  lemma NewScopeKeepsRest(tree: Tree, at: Snapshot, nextEffect: EffectId, parent: Option<ScopeId>)
    requires Rested(tree, at, nextEffect) && (parent.Some? ==> parent.value in tree.parents)
    ensures Rested(WithScope(tree, parent), at.(data := at.data[tree.nextScope := EMPTY]), nextEffect)
  {
    NewScopeFits(tree, at.data, parent);
    NewScopeApart(at.data, tree.nextScope);
    NewScopeRests(tree, at, nextEffect, parent);
  }

  lemma NewScopeRests(tree: Tree, at: Snapshot, nextEffect: EffectId, parent: Option<ScopeId>)
    requires at.states.Keys == tree.fibers.Keys && ScopesRest(tree, at, nextEffect)
    ensures ScopesRest(WithScope(tree, parent), at.(data := at.data[tree.nextScope := EMPTY]), nextEffect)
  {
    var tree', data' := WithScope(tree, parent), at.data[tree.nextScope := EMPTY];
    forall x | x in data' ensures ScopeRests(tree', data'[x], at.states, at.runs, nextEffect) {
      if x != tree.nextScope {
        StillRests(tree, at.states, tree', at.states, at.data[x], at.runs, nextEffect);
      }
    }
  }

  /** A change of one Active scope's services. */
  lemma ServicesKeepRest(tree: Tree, at: Snapshot, nextEffect: EffectId, s: ScopeId, services: set<string>)
    requires Rested(tree, at, nextEffect) && s in at.data && at.data[s].state == ScopeActive
    ensures Rested(tree, at.(data := at.data[s := at.data[s].(services := services)]), nextEffect)
  {
    var at' := at.(data := at.data[s := at.data[s].(services := services)]);
    StillApart(at.data, at'.data);
    ServicesFit(tree, at.data, s, services);
    forall x | x in at'.data ensures ScopeRests(tree, at'.data[x], at'.states, at'.runs, nextEffect) {
      assert ScopeRests(tree, at.data[x], at.states, at.runs, nextEffect);
    }
  }

  lemma ServicesFit(tree: Tree, data: Contexts, s: ScopeId, services: set<string>)
    requires Fits(tree, data) && s in data
    ensures Fits(tree, data[s := data[s].(services := services)])
  {
    forall x | x in data ensures Ascending(data[x].fibers) && OwnedBy(tree, x, data[x].fibers) {
    }
  }

  lemma EffectsStayApart(data: Contexts, runs: seq<EffectId>, nextEffect: EffectId, s: ScopeId, effects: map<EffectId,
                         EffectState>)
    requires EffectsApart(data) && Tracked(data, runs, nextEffect) && s in data
    requires forall id :: id in effects ==> id in data[s].effects || id >= nextEffect
    ensures EffectsApart(data[s := data[s].(effects := effects)])
  {
    var data' := data[s := data[s].(effects := effects)];
    forall x, y | x in data' && y in data' && x != y ensures Apart(data', x, y) {
      assert Apart(data, x, y);
      assert TrackedIn(data[x].effects, runs, nextEffect) && TrackedIn(data[y].effects, runs, nextEffect);
    }
  }

  /** A change of one scope's effects: a new one, or one of its own that ran. */
  lemma EffectsKeepRest(tree: Tree, at: Snapshot, nextEffect: EffectId, s: ScopeId, effects: map<EffectId, EffectState>,
                        runs: seq<EffectId>, next: EffectId)
    requires Rested(tree, at, nextEffect) && s in at.data && next >= nextEffect
    requires NoDuplicates(runs) && (forall id :: id in runs ==> id < next) && TrackedIn(effects, runs, next)
    requires forall id :: id in effects ==> effects[id] != Disposing && (id in at.data[s].effects || id >= nextEffect)
    requires at.data[s].state == ScopeDisposed ==> ActiveIds(effects) == {}
    requires forall id :: id !in at.data[s].effects && id < nextEffect ==> (id in runs <==> id in at.runs)
    ensures Rested(tree, Snapshot(at.data[s := at.data[s].(effects := effects)], at.states, runs), next)
  {
    assert EffectsApart(at.data[s := at.data[s].(effects := effects)]) by {
      RestedParts(tree, at, nextEffect);
      EffectsStayApart(at.data, at.runs, nextEffect, s, effects);
    }
    EffectsScopesRest(tree, at, nextEffect, s, effects, runs, next);
  }

  lemma EffectsScopesRest(tree: Tree, at: Snapshot, nextEffect: EffectId, s: ScopeId, effects: map<EffectId,
                          EffectState>,
                          runs: seq<EffectId>, next: EffectId)
    requires at.states.Keys == tree.fibers.Keys && ScopesRest(tree, at, nextEffect) && EffectsApart(at.data)
    requires s in at.data && next >= nextEffect && TrackedIn(effects, runs, next)
    requires forall id :: id in effects ==> effects[id] != Disposing && (id in at.data[s].effects || id >= nextEffect)
    requires at.data[s].state == ScopeDisposed ==> ActiveIds(effects) == {}
    requires forall id :: id !in at.data[s].effects && id < nextEffect ==> (id in runs <==> id in at.runs)
    ensures ScopesRest(tree, Snapshot(at.data[s := at.data[s].(effects := effects)], at.states, runs), next)
  {
    var data' := at.data[s := at.data[s].(effects := effects)];
    forall x | x in data' ensures ScopeRests(tree, data'[x], at.states, runs, next) {
      assert ScopeRests(tree, at.data[x], at.states, at.runs, nextEffect);
      if x != s {
        assert Apart(at.data, x, s);
      }
    }
  }

  // ------------------------------------------------------------------
  // Registering and releasing fibers
  // ------------------------------------------------------------------

  function WithFiber(tree: Tree, f: FiberId, info: FiberInfo): Tree {
    tree.(fibers := tree.fibers[f := info])
  }

  function Register(at: Snapshot, f: FiberId, s: ScopeId): Snapshot
    requires s in at.data
  {
    at.(data := at.data[s := at.data[s].(fibers := at.data[s].fibers + [f])], states := at.states[f := Mounting])
  }

  function Release(tree: Tree, at: Snapshot, f: FiberId, state: FiberState): Snapshot
    requires IsTree(tree) && f in tree.fibers && Owner(tree, f) in at.data
  {
    var owner := at.data[Owner(tree, f)];
    at.(data := at.data[Owner(tree, f) := owner.(fibers := Without(owner.fibers, f))], states := at.states[f := state])
  }

  lemma RegisterFits(tree: Tree, data: Contexts, f: FiberId, info: FiberInfo, s: ScopeId)
    requires IsTree(tree) && Fits(tree, data) && s in data && (forall g :: g in tree.fibers ==> g < f)
    requires info.scope in tree.parents && tree.parents[info.scope] == Some(s)
    requires forall g :: g in tree.fibers ==> tree.fibers[g].scope != info.scope
    ensures IsTree(WithFiber(tree, f, info))
    ensures Fits(WithFiber(tree, f, info), data[s := data[s].(fibers := data[s].fibers + [f])])
  {
    var tree', data' := WithFiber(tree, f, info), data[s := data[s].(fibers := data[s].fibers + [f])];
    AppendAscends(data[s].fibers, f);
    forall g, h | g in tree'.fibers && h in tree'.fibers && g != h ensures OtherScope(tree', g, h) {
      assert g != f && h != f ==> OtherScope(tree, g, h);
    }
    forall x | x in data' ensures Ascending(data'[x].fibers) && OwnedBy(tree', x, data'[x].fibers) {
      assert OwnedBy(tree, x, data[x].fibers);
    }
  }

  lemma RegisterKeepsRest(tree: Tree, at: Snapshot, nextEffect: EffectId, f: FiberId, info: FiberInfo, s: ScopeId,
                          tree': Tree, at': Snapshot)
    requires Rested(tree, at, nextEffect) && s in at.data && at.data[s].state == ScopeActive
    requires forall g :: g in tree.fibers ==> g < f && tree.fibers[g].scope != info.scope
    requires info.scope in tree.parents && tree.parents[info.scope] == Some(s)
    requires forall g :: g in at.data[s].fibers && g in tree.fibers ==> tree.fibers[g].plugin != info.plugin
    requires tree' == WithFiber(tree, f, info) && at' == Register(at, f, s)
    ensures Rested(tree', at', nextEffect)
  {
    RegisterFits(tree, at.data, f, info, s);
    RegisterKeepsLog(at, nextEffect, f, s);
    RegisterScopesRest(tree, at, nextEffect, f, info, s);
  }

  lemma RegisterKeepsLog(at: Snapshot, nextEffect: EffectId, f: FiberId, s: ScopeId)
    requires s in at.data && LogRests(at, nextEffect)
    ensures LogRests(Register(at, f, s), nextEffect)
  {
    StillApart(at.data, Register(at, f, s).data);
  }

  lemma RegisterScopesRest(tree: Tree, at: Snapshot, nextEffect: EffectId, f: FiberId, info: FiberInfo, s: ScopeId)
    requires at.states.Keys == tree.fibers.Keys && ScopesRest(tree, at, nextEffect)
    requires s in at.data && at.data[s].state == ScopeActive && f !in tree.fibers
    requires forall g :: g in at.data[s].fibers && g in tree.fibers ==> tree.fibers[g].plugin != info.plugin
    ensures ScopesRest(WithFiber(tree, f, info), Register(at, f, s), nextEffect)
  {
    var tree', at' := WithFiber(tree, f, info), Register(at, f, s);
    forall x | x in at'.data ensures ScopeRests(tree', at'.data[x], at'.states, at'.runs, nextEffect) {
      StillRests(tree, at.states, tree', at'.states, at.data[x], at.runs, nextEffect);
      if x == s {
        RegisterRests(tree', at.data[s], at'.states, at.runs, nextEffect, f);
      }
    }
  }

  lemma RegisterRests(tree: Tree, c: ContextData, states: States, runs: seq<EffectId>, nextEffect: EffectId, f: FiberId)
    requires states.Keys == tree.fibers.Keys && ScopeRests(tree, c, states, runs, nextEffect) && c.state == ScopeActive
    requires f in states && states[f] == Mounting
    requires forall g :: g in c.fibers && g in tree.fibers ==> tree.fibers[g].plugin != tree.fibers[f].plugin
    ensures ScopeRests(tree, c.(fibers := c.fibers + [f]), states, runs, nextEffect)
  {
    var list := c.fibers + [f];
    forall g, h | g in list && h in list && g != h
      ensures g in tree.fibers && h in tree.fibers && OtherPlugin(tree, g, h)
    {
      assert g in c.fibers && h in c.fibers ==> OtherPlugin(tree, g, h);
    }
  }

  /** Once its fiber is out of the list of its owner, no scope lists it. */
  lemma ReleaseKeepsRest(tree: Tree, at: Snapshot, nextEffect: EffectId, f: FiberId, state: FiberState)
    requires Rested(tree, at, nextEffect) && f in tree.fibers && state !in {Unmounting, MountFailed}
    ensures Rested(tree, Release(tree, at, f, state), nextEffect)
  {
    ReleaseFits(tree, at.data, f);
    ReleaseKeepsLog(tree, at, nextEffect, f, state);
    ReleaseScopesRest(tree, at, nextEffect, f, state);
  }

  lemma ReleaseKeepsLog(tree: Tree, at: Snapshot, nextEffect: EffectId, f: FiberId, state: FiberState)
    requires IsTree(tree) && f in tree.fibers && Owner(tree, f) in at.data && LogRests(at, nextEffect)
    requires state !in {Unmounting, MountFailed}
    ensures LogRests(Release(tree, at, f, state), nextEffect)
  {
    StillApart(at.data, Release(tree, at, f, state).data);
  }

  lemma ReleaseScopesRest(tree: Tree, at: Snapshot, nextEffect: EffectId, f: FiberId, state: FiberState)
    requires IsTree(tree) && Fits(tree, at.data) && at.states.Keys == tree.fibers.Keys
    requires ScopesRest(tree, at, nextEffect)
    requires f in tree.fibers && Owner(tree, f) in at.data
    ensures ScopesRest(tree, Release(tree, at, f, state), nextEffect)
  {
    var at' := Release(tree, at, f, state);
    forall x | x in at'.data ensures ScopeRests(tree, at'.data[x], at'.states, at'.runs, nextEffect) {
      assert OwnedBy(tree, x, at.data[x].fibers);
      ReleaseRests(tree, at.data[x], at.states, at.runs, nextEffect, f, state);
      assert x != Owner(tree, f) ==> f !in at.data[x].fibers;
      if x != Owner(tree, f) {
        StillRests(tree, at.states, tree, at'.states, at.data[x], at.runs, nextEffect);
      }
    }
  }

  lemma ReleaseRests(tree: Tree, c: ContextData, states: States, runs: seq<EffectId>, nextEffect: EffectId, f: FiberId,
                     state: FiberState)
    requires states.Keys == tree.fibers.Keys && ScopeRests(tree, c, states, runs, nextEffect) && f in states
    ensures ScopeRests(tree, c.(fibers := Without(c.fibers, f)), states[f := state], runs, nextEffect)
  {
    var list := Without(c.fibers, f);
    assert c.fibers == [] ==> list == [];
    forall g, h | g in list && h in list && g != h
      ensures g in tree.fibers && h in tree.fibers && OtherPlugin(tree, g, h)
    {
      assert OtherPlugin(tree, g, h);
    }
  }

  lemma ReleaseFits(tree: Tree, data: Contexts, f: FiberId)
    requires IsTree(tree) && Fits(tree, data) && f in tree.fibers
    ensures Owner(tree, f) in data
    ensures Fits(tree, data[Owner(tree, f) := data[Owner(tree, f)].(fibers := Without(data[Owner(tree, f)].fibers, f))])
  {
    var s := Owner(tree, f);
    assert s in data;
    OwnedWithout(tree, s, data[s].fibers, f);
  }

  lemma OwnedWithout(tree: Tree, s: ScopeId, list: seq<FiberId>, f: FiberId)
    requires Ascending(list) && OwnedBy(tree, s, list)
    ensures Ascending(Without(list, f)) && OwnedBy(tree, s, Without(list, f))
  {
    WithoutAscends(list, f);
  }

  // ------------------------------------------------------------------
  // Single effects
  // ------------------------------------------------------------------

  ghost predicate Calm(data: Contexts) {
    forall x {:trigger data[x].state} :: x in data ==> data[x].state != ScopeDisposing
  }

  lemma CalmAtRest(tree: Tree, at: Snapshot, nextEffect: EffectId)
    requires Rested(tree, at, nextEffect)
    ensures Calm(at.data)
  {
    forall x | x in at.data ensures at.data[x].state != ScopeDisposing {
      assert ScopeRests(tree, at.data[x], at.states, at.runs, nextEffect);
    }
  }

  lemma RestsLater(tree: Tree, at: Snapshot, nextEffect: EffectId)
    requires Rested(tree, at, nextEffect)
    ensures Rested(tree, at, nextEffect + 1)
  {
    forall x | x in at.data ensures ScopeRests(tree, at.data[x], at.states, at.runs, nextEffect + 1) {
      assert ScopeRests(tree, at.data[x], at.states, at.runs, nextEffect);
    }
  }

  lemma InstallKeepsRest(tree: Tree, at: Snapshot, id: EffectId, s: ScopeId)
    requires Rested(tree, at, id) && s in at.data && at.data[s].state == ScopeActive
    ensures Rested(tree, at.(data := at.data[s := at.data[s].(effects := at.data[s].effects[id := Active])]), id + 1)
  {
    assert ScopeRests(tree, at.data[s], at.states, at.runs, id);
    EffectsKeepRest(tree, at, id, s, at.data[s].effects[id := Active], at.runs, id + 1);
  }

  /** The disposer of one Active effect ran and its outcome was recorded; nothing else changed. */
  ghost predicate RanActive(fails: EffectId -> bool, was: Snapshot, s: ScopeId, id: EffectId, now: Snapshot)
    requires s in was.data
  {
    && now.data == was.data[s := was.data[s].(effects := was.data[s].effects[id := Outcome(fails, id)])]
    && now.states == was.states && now.runs == was.runs + [id]
  }

  lemma RunKeepsRest(tree: Tree, fails: EffectId -> bool, at: Snapshot, nextEffect: EffectId, s: ScopeId, id: EffectId,
                     now: Snapshot)
    requires Rested(tree, at, nextEffect) && s in at.data && id in ActiveIds(at.data[s].effects)
    requires RanActive(fails, at, s, id, now)
    ensures Rested(tree, now, nextEffect)
  {
    assert ScopeRests(tree, at.data[s], at.states, at.runs, nextEffect);
    assert at.data[s].effects[id] == Active;
    RunsJoin(at.runs, [id]);
    EffectsKeepRest(tree, at, nextEffect, s, at.data[s].effects[id := Outcome(fails, id)], at.runs + [id], nextEffect);
  }

  /** Disposing a scope that was just made runs nothing and changes nothing else. */
  lemma FreshDisposal(tree: Tree, fails: EffectId -> bool, at: Snapshot, nextEffect: EffectId, c: ScopeId)
    requires Rested(tree, at, nextEffect) && c in at.data && at.data[c] == EMPTY
    ensures Swept(tree, at.data, c) == {c} && Order(tree, at.data, c) == []
    ensures SweepFibers(tree, at.data, at.states, {c}) == at.states
    ensures SweepContexts(fails, at.data, {c}) == at.data[c := EMPTY.(state := ScopeDisposed)]
  {
    assert ActiveIds(EMPTY.effects) == {};
    assert Settled(fails, EMPTY.effects, {}) == EMPTY.effects;
  }

  // ------------------------------------------------------------------
  // Mounted and unmounted fibers
  // ------------------------------------------------------------------

  lemma MountedKeepsRest(tree: Tree, at: Snapshot, nextEffect: EffectId, f: FiberId)
    requires Rested(tree, at, nextEffect) && f in at.states
    ensures Rested(tree, at.(states := at.states[f := Mounted]), nextEffect)
  {
    forall x | x in at.data ensures ScopeRests(tree, at.data[x], at.states[f := Mounted], at.runs, nextEffect) {
      MountedRests(tree, at.data[x], at.states, at.runs, nextEffect, f);
    }
  }

  lemma MountedRests(tree: Tree, c: ContextData, states: States, runs: seq<EffectId>, nextEffect: EffectId, f: FiberId)
    requires states.Keys == tree.fibers.Keys && ScopeRests(tree, c, states, runs, nextEffect) && f in states
    ensures ScopeRests(tree, c, states[f := Mounted], runs, nextEffect)
  {
    forall g, h | g in c.fibers && h in c.fibers && g != h
      ensures g in tree.fibers && h in tree.fibers && OtherPlugin(tree, g, h)
    {
      assert OtherPlugin(tree, g, h);
    }
  }

  /** What dispose leaves behind when the scope is not being disposed already. */
  ghost function Disposal(tree: Tree, fails: EffectId -> bool, was: Snapshot, s: ScopeId): Snapshot
    requires IsTree(tree) && Fits(tree, was.data) && s in was.data
  {
    var swept := Swept(tree, was.data, s);
    Snapshot(SweepContexts(fails, was.data, swept), SweepFibers(tree, was.data, was.states, swept),
             was.runs + Order(tree, was.data, s))
  }

  /** The end of a fiber: its scope is disposed, it is Unmounted and out of its owner's list. */
  ghost predicate IsTornDown(tree: Tree, fails: EffectId -> bool, was: Snapshot, f: FiberId, now: Snapshot,
                             r: Option<Error>)
    requires IsTree(tree) && Fits(tree, was.data) && f in tree.fibers
  {
    var mid := Disposal(tree, fails, was, tree.fibers[f].scope);
    && Owner(tree, f) in mid.data
    && now == Release(tree, mid, f, Unmounted)
    && r == FirstFailure(fails, Order(tree, was.data, tree.fibers[f].scope))
  }

  /** The mark that a fiber carries while its scope is disposed does not matter. */
  lemma MarkDoesNotMatter(tree: Tree, data: Contexts, states: States, swept: set<ScopeId>, f: FiberId, mark: FiberState,
                          last: FiberState)
    requires f in states
    ensures SweepFibers(tree, data, states[f := mark], swept)[f := last]
            == SweepFibers(tree, data, states, swept)[f := last]
  {
  }

  lemma DisposedFits(tree: Tree, fails: EffectId -> bool, was: Snapshot, s: ScopeId, mid: Snapshot, r: Option<Error>)
    requires IsTree(tree) && Fits(tree, was.data) && s in was.data && was.states.Keys == tree.fibers.Keys
    requires IsDisposal(tree, fails, was, s, mid, r)
    ensures Fits(tree, mid.data) && mid.states.Keys == tree.fibers.Keys
  {
    SweepFits(tree, fails, was.data, Swept(tree, was.data, s));
  }

  lemma TearDownEnds(tree: Tree, fails: EffectId -> bool, was: Snapshot, f: FiberId, mark: FiberState,
                     mid: Snapshot, r: Option<Error>, now: Snapshot)
    requires IsTree(tree) && Fits(tree, was.data) && f in tree.fibers && f in was.states
    requires was.data[tree.fibers[f].scope].state != ScopeDisposing
    requires IsDisposal(tree, fails, was.(states := was.states[f := mark]), tree.fibers[f].scope, mid, r)
    requires Owner(tree, f) in mid.data && now == Release(tree, mid, f, Unmounted)
    ensures IsTornDown(tree, fails, was, f, now, r)
  {
    MarkDoesNotMatter(tree, was.data, was.states, Swept(tree, was.data, tree.fibers[f].scope), f, mark, Unmounted);
  }

  lemma TornDownRests(tree: Tree, fails: EffectId -> bool, was: Snapshot, nextEffect: EffectId, f: FiberId,
                      now: Snapshot, r: Option<Error>)
    requires Rested(tree, was, nextEffect) && f in tree.fibers && IsTornDown(tree, fails, was, f, now, r)
    ensures Rested(tree, now, nextEffect)
  {
    var c := tree.fibers[f].scope;
    assert ScopeRests(tree, was.data[c], was.states, was.runs, nextEffect);
    var ideal := Disposal(tree, fails, was, c);
    DisposalKeepsRest(tree, fails, was, c, ideal, r, nextEffect);
    ReleaseKeepsRest(tree, ideal, nextEffect, f, Unmounted);
  }
}
