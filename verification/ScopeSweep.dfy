/** What a nested disposal leaves behind, what lookups along the parent chain see, and the
    invariants that scopes, effects and fibers keep between calls
    (crates/yunxi-cordis-core/src/context.rs, crates/yunxi-cordis-core/src/plugin.rs). */
module ScopeSweep {
  import opened Wrappers
  import opened ScopeOrder

  datatype Error =
    | ContextClosed(scope: ScopeId)
    | EffectNotFound(id: EffectId)
    | EffectUnavailable(id: EffectId, state: EffectState)
    | DisposerFailed(id: EffectId)
    | DuplicateService(name: string)
    | DependencyLimit(plugin: string)
    | MissingDependency(service: string)
    | DuplicatePlugin(plugin: string)
    | PluginMountFailed(plugin: string)
    | InvalidFiberState(fiber: FiberId)

  type ScopeResult<T> = Result<T, Error>

  datatype Dependency = Dependency(service: string, required: bool)

  type States = map<FiberId, FiberState>

  // ------------------------------------------------------------------
  // What a sweep leaves behind
  // ------------------------------------------------------------------

  function IdsOf(list: seq<EffectId>): set<EffectId> {
    set id | id in list
  }

  function Outcome(fails: EffectId -> bool, id: EffectId): EffectState {
    if fails(id) then Failed else Disposed
  }

  /** The effects once the listed disposers ran. */
  function Settled(fails: EffectId -> bool, effects: map<EffectId, EffectState>,
                   ran: set<EffectId>): map<EffectId, EffectState> {
    map id | id in effects :: if id in ran then Outcome(fails, id) else effects[id]
  }

  /** A swept scope: closed and empty, its formerly Active effects settled. */
  function SweptContext(fails: EffectId -> bool, c: ContextData): ContextData {
    ContextData(ScopeDisposed, {}, Settled(fails, c.effects, ActiveIds(c.effects)), [])
  }

  ghost function SweepContexts(fails: EffectId -> bool, data: Contexts, swept: set<ScopeId>): Contexts {
    map x | x in data :: if x in swept then SweptContext(fails, data[x]) else data[x]
  }

  /** The fiber is registered with one of the swept scopes. */
  ghost predicate Released(tree: Tree, data: Contexts, swept: set<ScopeId>, f: FiberId) {
    exists x :: x in swept && x in data && f in data[x].fibers
  }

  /** The states of the fibers once the listed ones and those of the swept scopes are unmounted. */
  ghost function StatesAfter(tree: Tree, data: Contexts, states: States, done: seq<FiberId>,
                             swept: set<ScopeId>): States {
    map f | f in states :: if f in done || Released(tree, data, swept, f) then Unmounted else states[f]
  }

  ghost function SweepFibers(tree: Tree, data: Contexts, states: States, swept: set<ScopeId>): States {
    StatesAfter(tree, data, states, [], swept)
  }

  /** The first failure in running order is the one reported. */
  ghost function FirstFailure(fails: EffectId -> bool, order: seq<EffectId>): (r: Option<Error>)
    ensures r == None <==> forall id :: id in order ==> !fails(id)
    ensures r.Some? ==> r.value.DisposerFailed? && r.value.id in order && fails(r.value.id)
  {
    if order == [] then None else
    var front := FirstFailure(fails, order[..|order| - 1]);
    var last := order[|order| - 1];
    assert order == order[..|order| - 1] + [last];
    if front.Some? then front else if fails(last) then Some(DisposerFailed(last)) else None
  }

  lemma {:induction false} FirstFailureJoin(fails: EffectId -> bool, a: seq<EffectId>, b: seq<EffectId>)
    ensures FirstFailure(fails, a + b) ==
            if FirstFailure(fails, a).Some? then FirstFailure(fails, a) else FirstFailure(fails, b)
    decreases |b|
  {
    if b == [] {
      assert a + b == a;
    } else {
      FirstFailureJoin(fails, a, b[..|b| - 1]);
      assert (a + b)[..|a + b| - 1] == a + b[..|b| - 1];
    }
  }

  lemma SweepTwice(fails: EffectId -> bool, data: Contexts, a: set<ScopeId>, b: set<ScopeId>)
    ensures SweepContexts(fails, SweepContexts(fails, data, a), b) == SweepContexts(fails, data, a + b)
  {
    forall x | x in data ensures SweptContext(fails, SweptContext(fails, data[x])) == SweptContext(fails, data[x]) {
      var once := SweptContext(fails, data[x]);
      assert ActiveIds(once.effects) == {};
      assert Settled(fails, once.effects, {}) == once.effects;
    }
  }

  lemma SweepFits(tree: Tree, fails: EffectId -> bool, data: Contexts, swept: set<ScopeId>)
    requires Fits(tree, data)
    ensures Fits(tree, SweepContexts(fails, data, swept))
  {
  }

  // ------------------------------------------------------------------
  // Lookup along the parent chain
  // ------------------------------------------------------------------

  /** The first scope from s upwards that is not Active. */
  ghost function FirstClosed(tree: Tree, data: Contexts, s: ScopeId): Option<ScopeId>
    requires IsTree(tree) && Fits(tree, data) && s in data
    decreases s
  {
    if data[s].state != ScopeActive then Some(s)
    else match tree.parents[s] case None => None case Some(p) => FirstClosed(tree, data, p)
  }

  /** A lookup stops at the first scope that is closed or offers the service. */
  ghost function Lookup(tree: Tree, data: Contexts, s: ScopeId, name: string): ScopeResult<bool>
    requires IsTree(tree) && Fits(tree, data) && s in data
    decreases s
  {
    if data[s].state != ScopeActive then Err(ContextClosed(s))
    else if name in data[s].services then Ok(true)
    else match tree.parents[s] case None => Ok(false) case Some(p) => Lookup(tree, data, p, name)
  }

  /** The hierarchy is active exactly when every scope that s lies below is. */
  lemma {:induction false} ActiveHierarchy(tree: Tree, data: Contexts, s: ScopeId)
    requires IsTree(tree) && Fits(tree, data) && s in data
    ensures FirstClosed(tree, data, s) == None <==>
            forall x :: x in data && Below(tree, s, x) ==> data[x].state == ScopeActive
    decreases s
  {
    if tree.parents[s].Some? {
      var p := tree.parents[s].value;
      ActiveHierarchy(tree, data, p);
      forall x | x in data && Below(tree, p, x) ensures Below(tree, s, x) {}
      assert forall x :: x in data && Below(tree, s, x) ==> x == s || Below(tree, p, x);
    }
    assert Below(tree, s, s);
  }

  /** A service is found in an active hierarchy exactly when some scope around s offers it. */
  lemma {:induction false} LookupFinds(tree: Tree, data: Contexts, s: ScopeId, name: string)
    requires IsTree(tree) && Fits(tree, data) && s in data && FirstClosed(tree, data, s) == None
    ensures Lookup(tree, data, s, name).Ok?
    ensures Lookup(tree, data, s, name).value <==>
              exists x :: x in data && Below(tree, s, x) && name in data[x].services
    decreases s
  {
    assert Below(tree, s, s);
    if tree.parents[s].Some? {
      var p := tree.parents[s].value;
      LookupFinds(tree, data, p, name);
      forall x | x in data && Below(tree, p, x) ensures Below(tree, s, x) {}
      assert forall x :: x in data && Below(tree, s, x) ==> x == s || Below(tree, p, x);
    }
  }

  // ------------------------------------------------------------------
  // Invariants at rest
  // ------------------------------------------------------------------

  /** Only s and scopes created before it may be in the middle of a disposal. */
  ghost predicate DisposingUpTo(data: Contexts, s: ScopeId) {
    forall x {:trigger data[x].state} :: x in data && data[x].state == ScopeDisposing ==> x <= s
  }

  /** A scope is open, or closed and empty; no effect is in the middle of its disposal. */
  ghost predicate Settles(c: ContextData) {
    && c.state != ScopeDisposing
    && (c.state == ScopeDisposed ==> c.services == {} && c.fibers == [] && ActiveIds(c.effects) == {})
    && forall id {:trigger c.effects[id]} :: id in c.effects ==> c.effects[id] != Disposing
  }

  ghost predicate AtRest(data: Contexts) {
    forall s :: s in data ==> Settles(data[s])
  }

  /** Every stored effect is older than the next one and has run exactly if it is not Active. */
  ghost predicate TrackedIn(effects: map<EffectId, EffectState>, runs: seq<EffectId>, nextEffect: EffectId) {
    forall id {:trigger effects[id]} :: id in effects ==> id < nextEffect && (effects[id] == Active <==> id !in runs)
  }

  ghost predicate Tracked(data: Contexts, runs: seq<EffectId>, nextEffect: EffectId) {
    forall s :: s in data ==> TrackedIn(data[s].effects, runs, nextEffect)
  }

  /** The log of disposer runs agrees with the effects: an effect ran, once, exactly if it is not Active. */
  ghost predicate Recorded(data: Contexts, runs: seq<EffectId>, nextEffect: EffectId) {
    && EffectsApart(data)
    && NoDuplicates(runs)
    && (forall id :: id in runs ==> id < nextEffect)
    && Tracked(data, runs, nextEffect)
  }

  ghost predicate OtherPlugin(tree: Tree, f: FiberId, g: FiberId)
    requires f in tree.fibers && g in tree.fibers
  {
    tree.fibers[f].plugin != tree.fibers[g].plugin
  }

  ghost predicate RegisteredIn(tree: Tree, list: seq<FiberId>, states: States)
    requires states.Keys == tree.fibers.Keys
  {
    && (forall f {:trigger f in list} :: f in list ==> f in states && states[f] in {Mounting, Mounted})
    && (forall f, g {:trigger OtherPlugin(tree, f, g)} :: f in list && g in list && f != g ==> OtherPlugin(tree, f, g))
  }

  /** A registered fiber is being mounted or mounted, and at most one per plugin and scope. */
  ghost predicate Registrations(tree: Tree, data: Contexts, states: States)
    requires states.Keys == tree.fibers.Keys
  {
    && (forall s :: s in data ==> RegisteredIn(tree, data[s].fibers, states))
    && (forall f :: f in states ==> states[f] !in {Unmounting, MountFailed})
  }

  lemma SweepSettles(tree: Tree, fails: EffectId -> bool, data: Contexts, swept: set<ScopeId>)
    requires AtRest(data)
    ensures AtRest(SweepContexts(fails, data, swept))
  {
    forall x | x in data && x in swept ensures Settles(SweptContext(fails, data[x])) {
      assert Settles(data[x]);
    }
  }

  lemma SweepKeepsApart(fails: EffectId -> bool, data: Contexts, swept: set<ScopeId>)
    requires EffectsApart(data)
    ensures EffectsApart(SweepContexts(fails, data, swept))
  {
    var data' := SweepContexts(fails, data, swept);
    forall s, t | s in data' && t in data' && s != t ensures Apart(data', s, t) {
      assert Apart(data, s, t);
      assert data'[s].effects.Keys == data[s].effects.Keys && data'[t].effects.Keys == data[t].effects.Keys;
    }
  }

  lemma OrderIsNew(tree: Tree, data: Contexts, s: ScopeId, runs: seq<EffectId>, nextEffect: EffectId, id: EffectId)
    requires IsTree(tree) && Fits(tree, data) && s in data && Recorded(data, runs, nextEffect)
    requires id in Order(tree, data, s)
    ensures id !in runs && id < nextEffect
  {
    OrderCovers(tree, data, s, id);
    var x :| x in Swept(tree, data, s) && x in data && id in ActiveIds(data[x].effects);
    assert TrackedIn(data[x].effects, runs, nextEffect);
  }

  /** Among the effects of one scope exactly the listed ones stopped being Active. */
  ghost predicate RanExactly(before: map<EffectId, EffectState>, after: map<EffectId, EffectState>,
                             order: seq<EffectId>) {
    && after.Keys == before.Keys
    && forall id :: id in before ==> (after[id] == Active <==> before[id] == Active && id !in order)
  }

  lemma SweepRunsActive(tree: Tree, fails: EffectId -> bool, data: Contexts, s: ScopeId, x: ScopeId)
    requires IsTree(tree) && Fits(tree, data) && s in data && EffectsApart(data) && x in data
    ensures RanExactly(data[x].effects, SweepContexts(fails, data, Swept(tree, data, s))[x].effects,
                       Order(tree, data, s))
  {
    var swept := Swept(tree, data, s);
    forall id | id in data[x].effects
      ensures x in swept && id in ActiveIds(data[x].effects) <==>
                data[x].effects[id] == Active && id in Order(tree, data, s)
    {
      OrderCovers(tree, data, s, id);
      if x in swept && id in ActiveIds(data[x].effects) {
        assert RunFrom(data, swept, id);
      }
      if RunFrom(data, swept, id) {
        var y :| y in swept && y in data && id in ActiveIds(data[y].effects);
        OneOwner(data, id, x, y);
      }
    }
  }

  lemma TrackedAfter(data: Contexts, data': Contexts, runs: seq<EffectId>, order: seq<EffectId>, nextEffect: EffectId)
    requires Tracked(data, runs, nextEffect) && data'.Keys == data.Keys
    requires forall x :: x in data ==> RanExactly(data[x].effects, data'[x].effects, order)
    ensures Tracked(data', runs + order, nextEffect)
  {
    forall x | x in data' ensures TrackedIn(data'[x].effects, runs + order, nextEffect) {
      assert x in data && RanExactly(data[x].effects, data'[x].effects, order);
      assert TrackedIn(data[x].effects, runs, nextEffect);
    }
  }

  lemma SweepIsRecorded(tree: Tree, fails: EffectId -> bool, data: Contexts, s: ScopeId, runs: seq<EffectId>,
                        nextEffect: EffectId)
    requires IsTree(tree) && Fits(tree, data) && s in data && Recorded(data, runs, nextEffect)
    ensures Recorded(SweepContexts(fails, data, Swept(tree, data, s)), runs + Order(tree, data, s), nextEffect)
  {
    OrderIsRight(tree, data, s);
    SweepKeepsApart(fails, data, Swept(tree, data, s));
    forall x | x in data
      ensures RanExactly(data[x].effects, SweepContexts(fails, data, Swept(tree, data, s))[x].effects,
                         Order(tree, data, s))
    {
      SweepRunsActive(tree, fails, data, s, x);
    }
    TrackedAfter(data, SweepContexts(fails, data, Swept(tree, data, s)), runs, Order(tree, data, s), nextEffect);
    forall id | id in Order(tree, data, s) ensures id !in runs && id < nextEffect {
      OrderIsNew(tree, data, s, runs, nextEffect, id);
    }
    RunsJoin(runs, Order(tree, data, s));
  }

  lemma RunsJoin(a: seq<nat>, b: seq<nat>)
    requires NoDuplicates(a) && NoDuplicates(b) && forall id :: id in b ==> id !in a
    ensures NoDuplicates(a + b)
  {
    forall k | 0 <= k < |b| ensures b[k] !in a {
      assert b[k] in b;
    }
  }

  lemma SweepKeepsRegistrations(tree: Tree, fails: EffectId -> bool, data: Contexts, states: States,
                                swept: set<ScopeId>)
    requires IsTree(tree) && Fits(tree, data) && states.Keys == tree.fibers.Keys && Registrations(tree, data, states)
    ensures Registrations(tree, SweepContexts(fails, data, swept), SweepFibers(tree, data, states, swept))
  {
    var data' := SweepContexts(fails, data, swept);
    forall x | x in data' ensures RegisteredIn(tree, data'[x].fibers, SweepFibers(tree, data, states, swept)) {
      assert RegisteredIn(tree, data[x].fibers, states);
      if x !in swept {
        StillRegistered(tree, data, states, swept, x);
      }
    }
  }

  lemma StillRegistered(tree: Tree, data: Contexts, states: States, swept: set<ScopeId>, x: ScopeId)
    requires Fits(tree, data) && states.Keys == tree.fibers.Keys && x in data && x !in swept
    requires RegisteredIn(tree, data[x].fibers, states)
    ensures RegisteredIn(tree, data[x].fibers, SweepFibers(tree, data, states, swept))
  {
    forall f | f in data[x].fibers ensures !Released(tree, data, swept, f) {
      NotReleased(tree, data, swept, x, f);
    }
  }

  lemma NotReleased(tree: Tree, data: Contexts, swept: set<ScopeId>, x: ScopeId, f: FiberId)
    requires Fits(tree, data) && x in data && x !in swept && f in data[x].fibers
    ensures !Released(tree, data, swept, f)
  {
    assert OwnedBy(tree, x, data[x].fibers);
    forall y | y in swept && y in data ensures f !in data[y].fibers {
      assert OwnedBy(tree, y, data[y].fibers);
    }
  }

  // ------------------------------------------------------------------
  // Steps of a disposal
  // ------------------------------------------------------------------

  function Taken(effects: map<EffectId, EffectState>): map<EffectId, EffectState> {
    map id | id in effects :: if effects[id] == Active then Disposing else effects[id]
  }

  function ActiveAmong(effects: map<EffectId, EffectState>, ids: seq<EffectId>): seq<EffectId>
    requires forall id :: id in ids ==> id in effects
  {
    if ids == [] then [] else
    var last := ids[|ids| - 1];
    ActiveAmong(effects, ids[..|ids| - 1]) + if effects[last] == Active then [last] else []
  }

  lemma {:induction false} ActiveAmongFilters(effects: map<EffectId, EffectState>, ids: seq<EffectId>)
    requires Descending(ids) && forall id :: id in ids ==> id in effects
    ensures Descending(ActiveAmong(effects, ids))
    ensures forall id :: id in ActiveAmong(effects, ids) <==> id in ids && effects[id] == Active
  {
    if ids != [] {
      var front, last := ids[..|ids| - 1], ids[|ids| - 1];
      ActiveAmongFilters(effects, front);
      assert ids == front + [last];
      var picked := ActiveAmong(effects, front);
      forall k | 0 <= k < |picked| ensures picked[k] > last {
        assert picked[k] in front;
      }
      var all := ActiveAmong(effects, ids);
      assert all == if effects[last] == Active then picked + [last] else picked;
      forall id ensures id in all <==> id in picked || (id == last && effects[last] == Active) {
      }
    }
  }

  lemma ActiveAmongStep(effects: map<EffectId, EffectState>, ids: seq<EffectId>, i: nat)
    requires i < |ids| && forall id :: id in ids ==> id in effects
    ensures ActiveAmong(effects, ids[..i + 1])
         == ActiveAmong(effects, ids[..i]) + if effects[ids[i]] == Active then [ids[i]] else []
  {
    assert ids[..i + 1][..i] == ids[..i] && ids[..i + 1][i] == ids[i];
  }

  function TakenAmong(effects: map<EffectId, EffectState>, ids: seq<EffectId>): map<EffectId, EffectState> {
    map id | id in effects :: if effects[id] == Active && id in ids then Disposing else effects[id]
  }

  lemma TakenAmongStep(effects: map<EffectId, EffectState>, ids: seq<EffectId>, i: nat)
    requires i < |ids| && NoDuplicates(ids) && ids[i] in effects
    ensures TakenAmong(effects, ids[..i])[ids[i]] == effects[ids[i]]
    ensures TakenAmong(effects, ids[..i + 1])
         == if effects[ids[i]] == Active then TakenAmong(effects, ids[..i])[ids[i] := Disposing]
            else TakenAmong(effects, ids[..i])
  {
    assert ids[i] !in ids[..i];
    assert ids[..i + 1] == ids[..i] + [ids[i]];
  }

  /** The loop of dispose over the effects, newest first. */
  method TakeListed(effects: map<EffectId, EffectState>, ids: seq<EffectId>)
    returns (queue: seq<EffectId>, taken: map<EffectId, EffectState>)
    requires NoDuplicates(ids) && forall id :: id in ids ==> id in effects
    ensures queue == ActiveAmong(effects, ids) && taken == TakenAmong(effects, ids)
  {
    queue, taken := [], effects;
    for i := 0 to |ids|
      invariant queue == ActiveAmong(effects, ids[..i])
      invariant taken == TakenAmong(effects, ids[..i])
    {
      ActiveAmongStep(effects, ids, i);
      var id := ids[i];
      TakenAmongStep(effects, ids, i);
      if taken[id] == Active {
        taken := taken[id := Disposing];
        queue := queue + [id];
      }
    }
    assert ids[..|ids|] == ids;
  }

  lemma AllAreListed(effects: map<EffectId, EffectState>, ids: seq<EffectId>)
    requires Descending(ids) && forall id :: id in ids <==> id in effects
    ensures ActiveAmong(effects, ids) == Down(ActiveIds(effects)) && TakenAmong(effects, ids) == Taken(effects)
  {
    ActiveAmongFilters(effects, ids);
    var queue, active := ActiveAmong(effects, ids), ActiveIds(effects);
    DescendingIsUnique(queue, Down(active));
  }

  /** The lock section of dispose that takes the Active effects, newest first. */
  method TakeEffects(effects: map<EffectId, EffectState>)
    returns (queue: seq<EffectId>, taken: map<EffectId, EffectState>)
    ensures queue == Down(ActiveIds(effects)) && taken == Taken(effects)
  {
    var ids := Down(effects.Keys);
    AllAreListed(effects, ids);
    queue, taken := TakeListed(effects, ids);
  }

  /** Closing the branches of the first i fibers leaves the branch of the next one alone. */
  lemma NextBranchIsTheSame(tree: Tree, fails: EffectId -> bool, data: Contexts, now: Contexts, s: ScopeId,
                            list: seq<FiberId>, i: nat)
    requires IsTree(tree) && Fits(tree, data) && s in data && OwnedBy(tree, s, list) && Ascending(list) && i < |list|
    requires list[i] in tree.fibers && tree.fibers[list[i]].scope in data
    requires now == SweepContexts(fails, data, SweptOf(tree, data, s, list, i))
    ensures Fits(tree, now)
    ensures Order(tree, now, tree.fibers[list[i]].scope) == Order(tree, data, tree.fibers[list[i]].scope)
    ensures Swept(tree, now, tree.fibers[list[i]].scope) == Swept(tree, data, tree.fibers[list[i]].scope)
    ensures forall x :: x in Swept(tree, data, tree.fibers[list[i]].scope) ==>
            x in data && x in now && now[x] == data[x]
  {
    var c, swept := tree.fibers[list[i]].scope, SweptOf(tree, data, s, list, i);
    SweepFits(tree, fails, data, swept);
    forall x | x in swept ensures !Below(tree, x, c) {
      if Below(tree, x, c) {
        EarlierBranch(tree, data, s, list, i, x, x);
      }
    }
    BranchDecides(tree, data, now, c);
    forall x | x in Swept(tree, data, c) ensures x in data && x in now && now[x] == data[x] {
      SweptIsBelow(tree, data, c, x);
    }
  }

  lemma StatesStep(tree: Tree, data: Contexts, now: Contexts, states: States, done: seq<FiberId>, f: FiberId,
                   a: set<ScopeId>, b: set<ScopeId>)
    requires f in states && forall x :: x in b ==> x in data && x in now && now[x] == data[x]
    ensures SweepFibers(tree, now, StatesAfter(tree, data, states, done, a), b)[f := Unmounted]
         == StatesAfter(tree, data, states, done + [f], a + b)
  {
    forall g | g in states
      ensures Released(tree, data, a + b, g) <==> Released(tree, data, a, g) || Released(tree, now, b, g)
    {
      if Released(tree, data, a + b, g) {
        var x :| x in a + b && x in data && g in data[x].fibers;
        assert x in a || (x in b && x in now && g in now[x].fibers);
      }
      if Released(tree, data, a, g) {
        var x :| x in a && x in data && g in data[x].fibers;
        assert x in a + b;
      }
      if Released(tree, now, b, g) {
        var x :| x in b && x in now && g in now[x].fibers;
        assert x in a + b && g in data[x].fibers;
      }
    }
  }

  /** The scope s itself is closed last; until then it only lost its Active effects. */
  lemma ScopeStep(tree: Tree, fails: EffectId -> bool, data: Contexts, s: ScopeId, during: ContextData,
                  nested: set<ScopeId>)
    requires s in data && s !in nested && during.effects == Taken(data[s].effects)
    ensures SweepContexts(fails, data[s := during], nested)
              [s := ContextData(ScopeDisposed, {}, Settled(fails, during.effects, ActiveIds(data[s].effects)), [])]
         == SweepContexts(fails, data, {s} + nested)
  {
    assert Settled(fails, during.effects, ActiveIds(data[s].effects))
        == Settled(fails, data[s].effects, ActiveIds(data[s].effects));
  }

  lemma NestedIsTheSame(tree: Tree, data: Contexts, s: ScopeId, during: ContextData)
    requires IsTree(tree) && Fits(tree, data) && s in data && during.fibers == data[s].fibers
    ensures Fits(tree, data[s := during])
    ensures SameResults(tree, data[s := during], data, s, during.fibers, |during.fibers|)
    ensures s !in SweptOf(tree, data, s, during.fibers, |during.fibers|)
  {
    assert OwnedBy(tree, s, data[s].fibers);
    forall f | f in during.fibers ensures SameBranch(tree, data[s := during], data, tree.fibers[f].scope) {
      var c := tree.fibers[f].scope;
      forall x | Below(tree, x, c) ensures x != s {
        BelowChild(tree, x, c, s);
      }
    }
    BranchesDecide(tree, data[s := during], data, s, during.fibers, |during.fibers|);
    if s in SweptOf(tree, data, s, during.fibers, |during.fibers|) {
      var f := SweptOfIsBelow(tree, data, s, during.fibers, |during.fibers|, s);
    }
  }

  /** The fibers of s and of the nested swept scopes end Unmounted, whatever they were set to before. */
  lemma StatesAtTheEnd(tree: Tree, data: Contexts, s: ScopeId, during: ContextData, before: States, states: States,
                       nested: set<ScopeId>)
    requires s in data && s !in nested && during.fibers == data[s].fibers && states.Keys == before.Keys
    requires forall f :: f in before && f !in during.fibers ==> states[f] == before[f]
    ensures StatesAfter(tree, data[s := during], states, during.fibers, nested)
            == SweepFibers(tree, data, before, {s} + nested)
  {
    var data' := data[s := during];
    forall f | f in states
      ensures f in during.fibers || Released(tree, data', nested, f) <==> Released(tree, data, {s} + nested, f)
    {
      if Released(tree, data, {s} + nested, f) {
        var x :| x in {s} + nested && x in data && f in data[x].fibers;
        assert x == s || (x in nested && x in data' && f in data'[x].fibers);
      }
      if Released(tree, data', nested, f) {
        var x :| x in nested && x in data' && f in data'[x].fibers;
        assert x in {s} + nested && x in data && f in data[x].fibers;
      }
      if f in during.fibers {
        assert s in {s} + nested;
      }
    }
  }

  lemma SettleOne(fails: EffectId -> bool, effects: map<EffectId, EffectState>, queue: seq<EffectId>, i: nat)
    requires i < |queue| && queue[i] in effects
    ensures Settled(fails, effects, IdsOf(queue[..i]))[queue[i] := Outcome(fails, queue[i])]
         == Settled(fails, effects, IdsOf(queue[..i + 1]))
  {
    assert queue[..i + 1] == queue[..i] + [queue[i]];
  }

  lemma NothingToSweep(tree: Tree, fails: EffectId -> bool, data: Contexts, states: States)
    ensures SweepContexts(fails, data, {}) == data && SweepFibers(tree, data, states, {}) == states
  {
  }

  /** What a disposal changes. */
  datatype Snapshot = Snapshot(data: Contexts, states: States, runs: seq<EffectId>)

  /** Closing the scopes in `swept` and the listed fibers ran the disposers in `order`. */
  ghost predicate After(tree: Tree, fails: EffectId -> bool, was: Snapshot, done: seq<FiberId>, swept: set<ScopeId>,
                        order: seq<EffectId>, now: Snapshot, r: Option<Error>)
  {
    && now.data == SweepContexts(fails, was.data, swept)
    && now.states == StatesAfter(tree, was.data, was.states, done, swept)
    && now.runs == was.runs + order
    && r == FirstFailure(fails, order)
  }

  /** The loop of dispose over the fibers of s, once the first n are done. */
  ghost predicate Progress(tree: Tree, fails: EffectId -> bool, was: Snapshot, s: ScopeId, list: seq<FiberId>, n: nat,
                           now: Snapshot, r: Option<Error>)
    requires IsTree(tree) && Fits(tree, was.data) && s in was.data && OwnedBy(tree, s, list) && n <= |list|
  {
    After(tree, fails, was, list[..n], SweptOf(tree, was.data, s, list, n), OrderOf(tree, was.data, s, list, n), now, r)
  }

  /** What a call of dispose on scope s does. */
  ghost predicate IsDisposal(tree: Tree, fails: EffectId -> bool, was: Snapshot, s: ScopeId, now: Snapshot,
                             r: Option<Error>)
    requires IsTree(tree) && Fits(tree, was.data) && s in was.data
  {
    if was.data[s].state == ScopeDisposing then
      now == was && r == Some(ContextClosed(s))
    else
      After(tree, fails, was, [], Swept(tree, was.data, s), Order(tree, was.data, s), now, r)
  }

  lemma AfterStep(tree: Tree, fails: EffectId -> bool, was: Snapshot, done: seq<FiberId>, f: FiberId,
                  a: set<ScopeId>, first: seq<EffectId>, now: Snapshot, r: Option<Error>,
                  b: set<ScopeId>, second: seq<EffectId>, after: Snapshot, one: Option<Error>)
    requires After(tree, fails, was, done, a, first, now, r) && After(tree, fails, now, [], b, second, after, one)
    requires f in was.states && forall x :: x in b ==> x in was.data && x in now.data && now.data[x] == was.data[x]
    ensures After(tree, fails, was, done + [f], a + b, first + second,
                  after.(states := after.states[f := Unmounted]), if r.Some? then r else one)
  {
    SweepTwice(fails, was.data, a, b);
    StatesStep(tree, was.data, now.data, was.states, done, f, a, b);
    FirstFailureJoin(fails, first, second);
  }

  lemma NoProgress(tree: Tree, fails: EffectId -> bool, was: Snapshot, s: ScopeId, list: seq<FiberId>)
    requires IsTree(tree) && Fits(tree, was.data) && s in was.data && OwnedBy(tree, s, list)
    ensures Progress(tree, fails, was, s, list, 0, was, None)
  {
    assert list[..0] == [];
    NothingToSweep(tree, fails, was.data, was.states);
  }

  /** A sweep only closes scopes. */
  lemma SweepCalms(fails: EffectId -> bool, data: Contexts, swept: set<ScopeId>, s: ScopeId, c: ScopeId)
    requires DisposingUpTo(data, s) && s < c
    ensures DisposingUpTo(SweepContexts(fails, data, swept), c)
    ensures c in data ==> SweepContexts(fails, data, swept)[c].state != ScopeDisposing
  {
  }

  lemma NextIsReady(tree: Tree, fails: EffectId -> bool, was: Snapshot, s: ScopeId, list: seq<FiberId>, i: nat,
                    now: Snapshot, r: Option<Error>)
    requires IsTree(tree) && Fits(tree, was.data) && s in was.data && OwnedBy(tree, s, list) && Ascending(list)
    requires i < |list|
    requires DisposingUpTo(was.data, s) && Progress(tree, fails, was, s, list, i, now, r)
    ensures list[i] in tree.fibers && tree.fibers[list[i]].scope in now.data && tree.fibers[list[i]].scope > s
    ensures Fits(tree, now.data) && DisposingUpTo(now.data, tree.fibers[list[i]].scope)
    ensures now.data[tree.fibers[list[i]].scope].state != ScopeDisposing
  {
    assert list[i] in list;
    SweepFits(tree, fails, was.data, SweptOf(tree, was.data, s, list, i));
    SweepCalms(fails, was.data, SweptOf(tree, was.data, s, list, i), s, tree.fibers[list[i]].scope);
  }

  lemma FiberProgress(tree: Tree, fails: EffectId -> bool, was: Snapshot, s: ScopeId, list: seq<FiberId>, i: nat,
                      now: Snapshot, r: Option<Error>, after: Snapshot, one: Option<Error>, end: Snapshot,
                      last: Option<Error>)
    requires IsTree(tree) && Fits(tree, was.data) && s in was.data && OwnedBy(tree, s, list) && Ascending(list)
    requires i < |list|
    requires Progress(tree, fails, was, s, list, i, now, r)
    requires list[i] in was.states && list[i] in tree.fibers && tree.fibers[list[i]].scope in now.data
    requires now.data[tree.fibers[list[i]].scope].state != ScopeDisposing
    requires Fits(tree, now.data) && IsDisposal(tree, fails, now, tree.fibers[list[i]].scope, after, one)
    requires end.data == after.data && end.runs == after.runs
    requires list[i] in after.states && end.states == after.states[list[i] := Unmounted]
    requires last == if r.Some? then r else one
    ensures Progress(tree, fails, was, s, list, i + 1, end, last)
  {
    var scope := tree.fibers[list[i]].scope;
    NextBranchIsTheSame(tree, fails, was.data, now.data, s, list, i);
    var a, b := SweptOf(tree, was.data, s, list, i), Swept(tree, was.data, scope);
    var x, y := OrderOf(tree, was.data, s, list, i), Order(tree, was.data, scope);
    AfterStep(tree, fails, was, list[..i], list[i], a, x, now, r, b, y, after, one);
    AfterOneMore(tree, was, s, list, i, scope);
  }

  lemma AfterOneMore(tree: Tree, was: Snapshot, s: ScopeId, list: seq<FiberId>, i: nat, scope: ScopeId)
    requires IsTree(tree) && Fits(tree, was.data) && s in was.data && OwnedBy(tree, s, list) && i < |list|
    requires list[i] in tree.fibers && tree.fibers[list[i]].scope == scope && scope in was.data
    ensures list[..i] + [list[i]] == list[..i + 1]
    ensures SweptOf(tree, was.data, s, list, i) + Swept(tree, was.data, scope)
            == SweptOf(tree, was.data, s, list, i + 1)
    ensures OrderOf(tree, was.data, s, list, i) + Order(tree, was.data, scope)
            == OrderOf(tree, was.data, s, list, i + 1)
  {
  }

  /** From the two loops of dispose to the whole call. */
  lemma LoopsJoin(tree: Tree, fails: EffectId -> bool, was: Snapshot, s: ScopeId, during: ContextData, marked: States,
                  nested: set<ScopeId>, order: seq<EffectId>, mid: Snapshot, first: Option<Error>,
                  queue: seq<EffectId>, now: Snapshot, r: Option<Error>)
    requires s in was.data && s !in nested && during.fibers == was.data[s].fibers
    requires during.effects == Taken(was.data[s].effects)
    requires (forall id :: id in queue <==> id in ActiveIds(was.data[s].effects)) && marked.Keys == was.states.Keys
    requires forall f :: f in was.states && f !in during.fibers ==> marked[f] == was.states[f]
    requires After(tree, fails, Snapshot(was.data[s := during], marked, was.runs), during.fibers, nested, order, mid,
                   first)
    requires now.data == mid.data[s := ContextData(ScopeDisposed, {}, Settled(fails, during.effects, IdsOf(queue)), [])]
    requires now.states == mid.states && now.runs == mid.runs + queue
    requires r == if first.Some? then first else FirstFailure(fails, queue)
    ensures After(tree, fails, was, [], {s} + nested, order + queue, now, r)
  {
    assert IdsOf(queue) == ActiveIds(was.data[s].effects);
    assert now.runs == was.runs + (order + queue);
    ScopeStep(tree, fails, was.data, s, during, nested);
    StatesAtTheEnd(tree, was.data, s, during, was.states, marked, nested);
    FirstFailureJoin(fails, order, queue);
  }

  lemma ScopeDone(tree: Tree, fails: EffectId -> bool, was: Snapshot, s: ScopeId, during: ContextData, marked: States,
                  mid: Snapshot, first: Option<Error>, queue: seq<EffectId>, now: Snapshot, r: Option<Error>)
    requires IsTree(tree) && Fits(tree, was.data) && s in was.data && was.data[s].state == ScopeActive
    requires during.fibers == was.data[s].fibers && during.effects == Taken(was.data[s].effects)
    requires queue == Down(ActiveIds(was.data[s].effects)) && marked.Keys == was.states.Keys
    requires forall f :: f in was.states && f !in during.fibers ==> marked[f] == was.states[f]
    requires Fits(tree, was.data[s := during])
    requires Progress(tree, fails, Snapshot(was.data[s := during], marked, was.runs), s, during.fibers, |during.fibers|,
                      mid, first)
    requires now.data == mid.data[s := ContextData(ScopeDisposed, {}, Settled(fails, during.effects, IdsOf(queue)), [])]
    requires now.states == mid.states && now.runs == mid.runs + queue
    requires r == if first.Some? then first else FirstFailure(fails, queue)
    ensures IsDisposal(tree, fails, was, s, now, r)
  {
    NestedIsTheSame(tree, was.data, s, during);
    assert during.fibers[..|during.fibers|] == during.fibers;
    LoopsJoin(tree, fails, was, s, during, marked, SweptOf(tree, was.data, s, during.fibers, |during.fibers|),
              OrderOf(tree, was.data, s, during.fibers, |during.fibers|), mid, first, queue, now, r);
  }
}
