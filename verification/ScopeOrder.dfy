/** The meaning of a nested disposal: which scopes it closes and in which order it runs their
    disposers (crates/yunxi-cordis-core/src/context.rs, crates/yunxi-cordis-core/src/plugin.rs). */
module ScopeOrder {
  import opened Wrappers

  type ScopeId = nat
  type FiberId = nat
  type EffectId = nat

  datatype ScopeState = ScopeActive | ScopeDisposing | ScopeDisposed

  datatype EffectState = Active | Disposing | Disposed | Failed

  datatype FiberState = Mounting | Mounted | MountFailed | Unmounting | Unmounted

  /** The locked part of a scope; `fibers` lists the registered fibers by ascending id. */
  datatype ContextData = ContextData(state: ScopeState, services: set<string>,
                                     effects: map<EffectId, EffectState>, fibers: seq<FiberId>)

  datatype FiberInfo = FiberInfo(plugin: string, scope: ScopeId)

  /** What is fixed when a scope or a fiber is created, and the id of the next scope. */
  datatype Tree = Tree(parents: map<ScopeId, Option<ScopeId>>, fibers: map<FiberId, FiberInfo>, nextScope: ScopeId)

  type Contexts = map<ScopeId, ContextData>

  ghost predicate Increases(ids: seq<nat>, j: nat, k: nat)
    requires j < k < |ids|
  {
    ids[j] < ids[k]
  }

  ghost predicate Ascending(ids: seq<nat>) {
    forall j: nat, k: nat :: j < k < |ids| ==> Increases(ids, j, k)
  }

  ghost predicate Descending(ids: seq<nat>) {
    forall j, k :: 0 <= j < k < |ids| ==> ids[j] > ids[k]
  }

  ghost predicate NoDuplicates(ids: seq<nat>) {
    forall j, k :: 0 <= j < k < |ids| ==> ids[j] != ids[k]
  }

  ghost predicate OtherScope(tree: Tree, f: FiberId, g: FiberId)
    requires f in tree.fibers && g in tree.fibers
  {
    tree.fibers[f].scope != tree.fibers[g].scope
  }

  /** A scope is created after its parent; a fiber's scope is a child made for that fiber alone. */
  ghost predicate IsTree(tree: Tree) {
    && (forall s {:trigger tree.parents[s]} :: s in tree.parents ==> s < tree.nextScope)
    && (forall s {:trigger tree.parents[s]} :: s in tree.parents && tree.parents[s].Some? ==>
      tree.parents[s].value in tree.parents && tree.parents[s].value < s)
    && (forall f {:trigger tree.fibers[f]} :: f in tree.fibers ==>
          tree.fibers[f].scope in tree.parents && tree.parents[tree.fibers[f].scope].Some?)
    && (forall f, g {:trigger OtherScope(tree, f, g)} :: f in tree.fibers && g in tree.fibers && f != g ==>
          OtherScope(tree, f, g))
  }

  ghost predicate OwnedBy(tree: Tree, s: ScopeId, list: seq<FiberId>) {
    forall f {:trigger f in list} :: f in list ==>
      && f in tree.fibers && tree.fibers[f].scope in tree.parents && tree.parents[tree.fibers[f].scope] == Some(s)
  }

  ghost predicate Fits(tree: Tree, data: Contexts) {
    && data.Keys == tree.parents.Keys
    && forall s {:trigger OwnedBy(tree, s, data[s].fibers)} {:trigger Ascending(data[s].fibers)} ::
         s in data ==> Ascending(data[s].fibers) && OwnedBy(tree, s, data[s].fibers)
  }

  // ------------------------------------------------------------------
  // Descending order
  // ------------------------------------------------------------------

  lemma {:induction false} GreatestOf(ids: set<nat>) returns (m: nat)
    requires ids != {}
    ensures m in ids && forall k :: k in ids ==> k <= m
    decreases |ids|
  {
    m :| m in ids;
    var rest := ids - {m};
    if rest != {} {
      var top := GreatestOf(rest);
      forall k | k in ids ensures k == m || k <= top {
        assert k != m ==> k in rest;
      }
      m := if top < m then m else top;
    } else {
      assert ids == {m};
    }
  }

  lemma GreatestExists(ids: set<nat>)
    requires ids != {}
    ensures exists m :: m in ids && forall k :: k in ids ==> k <= m
  {
    var m := GreatestOf(ids);
  }

  function Greatest(ids: set<nat>): (m: nat)
    requires ids != {}
    ensures m in ids && forall k :: k in ids ==> k <= m
  {
    GreatestExists(ids);
    var m :| m in ids && forall k :: k in ids ==> k <= m;
    m
  }

  /** The ids from the greatest down. */
  function Down(ids: set<nat>): (list: seq<nat>)
    ensures Descending(list)
    ensures forall id :: id in list <==> id in ids
    decreases |ids|
  {
    if ids == {} then [] else
    var m := Greatest(ids);
    var rest := Down(ids - {m});
    assert forall k :: 0 <= k < |rest| ==> rest[k] in ids - {m};
    [m] + rest
  }

  /** A set has only one descending list. */
  lemma {:induction false} DescendingIsUnique(a: seq<nat>, b: seq<nat>)
    requires Descending(a) && Descending(b) && forall id :: id in a <==> id in b
    ensures a == b
  {
    if a == [] {
      assert forall k :: 0 <= k < |b| ==> b[k] in a;
    } else {
      assert a[0] in b;
      assert b[0] in a;
      assert a[0] == b[0];
      forall id ensures id in a[1..] <==> id in b[1..] {
        assert id in a[1..] <==> id in a && id != a[0] by {
          if id in a && id != a[0] { var k :| 0 <= k < |a| && a[k] == id; assert a[1..][k - 1] == id; }
        }
        assert id in b[1..] <==> id in b && id != b[0] by {
          if id in b && id != b[0] { var k :| 0 <= k < |b| && b[k] == id; assert b[1..][k - 1] == id; }
        }
      }
      DescendingIsUnique(a[1..], b[1..]);
    }
  }

  // ------------------------------------------------------------------
  // The scopes that a disposal closes and the disposers that it runs
  // ------------------------------------------------------------------

  function ActiveIds(effects: map<EffectId, EffectState>): set<EffectId> {
    set id | id in effects && effects[id] == Active
  }

  /** Nested fiber scopes first, by ascending fiber id; then the scope's own Active effects from the newest. */
  ghost function Order(tree: Tree, data: Contexts, s: ScopeId): seq<EffectId>
    requires IsTree(tree) && Fits(tree, data) && s in data
    decreases tree.nextScope - s, |data[s].fibers| + 1
  {
    if data[s].state != ScopeActive then [] else
    OrderOf(tree, data, s, data[s].fibers, |data[s].fibers|) + Down(ActiveIds(data[s].effects))
  }

  /** The disposers of the first n fibers in the list. */
  ghost function OrderOf(tree: Tree, data: Contexts, s: ScopeId, list: seq<FiberId>, n: nat): seq<EffectId>
    requires IsTree(tree) && Fits(tree, data) && s in data && OwnedBy(tree, s, list) && n <= |list|
    decreases tree.nextScope - s, n
  {
    if n == 0 then [] else
    assert list[n - 1] in list;
    OrderOf(tree, data, s, list, n - 1) + Order(tree, data, tree.fibers[list[n - 1]].scope)
  }

  /** The Active scopes reached through registered fibers of Active scopes. */
  ghost function Swept(tree: Tree, data: Contexts, s: ScopeId): set<ScopeId>
    requires IsTree(tree) && Fits(tree, data) && s in data
    decreases tree.nextScope - s, |data[s].fibers| + 1
  {
    if data[s].state != ScopeActive then {} else {s} + SweptOf(tree, data, s, data[s].fibers, |data[s].fibers|)
  }

  ghost function SweptOf(tree: Tree, data: Contexts, s: ScopeId, list: seq<FiberId>, n: nat): set<ScopeId>
    requires IsTree(tree) && Fits(tree, data) && s in data && OwnedBy(tree, s, list) && n <= |list|
    decreases tree.nextScope - s, n
  {
    if n == 0 then {} else
    assert list[n - 1] in list;
    SweptOf(tree, data, s, list, n - 1) + Swept(tree, data, tree.fibers[list[n - 1]].scope)
  }

  // ------------------------------------------------------------------
  // Branches of the tree
  // ------------------------------------------------------------------

  /** x is s or one of its descendants. */
  ghost predicate Below(tree: Tree, x: ScopeId, s: ScopeId)
    requires IsTree(tree)
    decreases x
  {
    x in tree.parents && (x == s || (tree.parents[x].Some? && Below(tree, tree.parents[x].value, s)))
  }

  lemma {:induction false} BelowChild(tree: Tree, x: ScopeId, c: ScopeId, s: ScopeId)
    requires IsTree(tree) && Below(tree, x, c) && c in tree.parents && tree.parents[c] == Some(s)
    ensures Below(tree, x, s) && x >= c > s
    decreases x
  {
    if x != c {
      BelowChild(tree, tree.parents[x].value, c, s);
    } else {
      assert Below(tree, s, s);
    }
  }

  /** Two branches of the same scope have nothing in common. */
  lemma {:induction false} BranchesAreApart(tree: Tree, x: ScopeId, c: ScopeId, d: ScopeId, s: ScopeId)
    requires IsTree(tree) && Below(tree, x, c) && Below(tree, x, d)
    requires c in tree.parents && d in tree.parents && tree.parents[c] == Some(s) == tree.parents[d]
    ensures c == d
    decreases x
  {
    BelowChild(tree, x, c, s);
    BelowChild(tree, x, d, s);
    if x != c && x != d {
      BranchesAreApart(tree, tree.parents[x].value, c, d, s);
    } else if c != d {
      var top, other := x, if x == c then d else c;
      assert Below(tree, s, other);
      BelowChild(tree, s, other, s);
    }
  }

  lemma {:induction false} SweptIsBelow(tree: Tree, data: Contexts, s: ScopeId, x: ScopeId)
    requires IsTree(tree) && Fits(tree, data) && s in data && x in Swept(tree, data, s)
    ensures Below(tree, x, s) && x in data && data[x].state == ScopeActive
    decreases tree.nextScope - s, |data[s].fibers| + 1
  {
    if x != s {
      var f := SweptOfIsBelow(tree, data, s, data[s].fibers, |data[s].fibers|, x);
      BelowChild(tree, x, tree.fibers[f].scope, s);
    }
  }

  lemma {:induction false} SweptOfIsBelow(tree: Tree, data: Contexts, s: ScopeId, list: seq<FiberId>, n: nat,
                                          x: ScopeId)
    returns (f: FiberId)
    requires IsTree(tree) && Fits(tree, data) && s in data && OwnedBy(tree, s, list) && n <= |list|
    requires x in SweptOf(tree, data, s, list, n)
    ensures f in list[..n] && f in list && Below(tree, x, tree.fibers[f].scope)
    ensures x in Swept(tree, data, tree.fibers[f].scope)
    ensures x in data && data[x].state == ScopeActive && x > s
    decreases tree.nextScope - s, n
  {
    var last := list[n - 1];
    assert last in list;
    if x in Swept(tree, data, tree.fibers[last].scope) {
      f := last;
      SweptIsBelow(tree, data, tree.fibers[last].scope, x);
      BelowChild(tree, x, tree.fibers[last].scope, s);
    } else {
      f := SweptOfIsBelow(tree, data, s, list, n - 1, x);
    }
  }

  /** The disposal of s looks at nothing outside its branch. */
  ghost predicate SameBranch(tree: Tree, a: Contexts, b: Contexts, s: ScopeId)
    requires IsTree(tree)
  {
    forall x :: Below(tree, x, s) && x in a ==> x in b && b[x] == a[x]
  }

  ghost predicate SameBranches(tree: Tree, a: Contexts, b: Contexts, s: ScopeId, list: seq<FiberId>)
    requires IsTree(tree) && OwnedBy(tree, s, list)
  {
    forall f :: f in list ==> SameBranch(tree, a, b, tree.fibers[f].scope)
  }

  lemma {:induction false} BranchDecides(tree: Tree, a: Contexts, b: Contexts, s: ScopeId)
    requires IsTree(tree) && Fits(tree, a) && Fits(tree, b) && s in a && SameBranch(tree, a, b, s)
    ensures Order(tree, a, s) == Order(tree, b, s) && Swept(tree, a, s) == Swept(tree, b, s)
    decreases tree.nextScope - s, |a[s].fibers| + 1
  {
    assert Below(tree, s, s) && OwnedBy(tree, s, a[s].fibers);
    if a[s].state == ScopeActive {
      forall f | f in a[s].fibers ensures SameBranch(tree, a, b, tree.fibers[f].scope) {
        NarrowBranch(tree, a, b, tree.fibers[f].scope, s);
      }
      BranchesDecide(tree, a, b, s, a[s].fibers, |a[s].fibers|);
    }
  }

  lemma NarrowBranch(tree: Tree, a: Contexts, b: Contexts, c: ScopeId, s: ScopeId)
    requires IsTree(tree) && c in tree.parents && tree.parents[c] == Some(s) && SameBranch(tree, a, b, s)
    ensures SameBranch(tree, a, b, c)
  {
    forall x | Below(tree, x, c) && x in a ensures x in b && b[x] == a[x] {
      BelowChild(tree, x, c, s);
    }
  }

  ghost predicate SameResults(tree: Tree, a: Contexts, b: Contexts, s: ScopeId, list: seq<FiberId>, n: nat)
    requires IsTree(tree) && Fits(tree, a) && Fits(tree, b) && s in a && OwnedBy(tree, s, list) && n <= |list|
  {
    && OrderOf(tree, a, s, list, n) == OrderOf(tree, b, s, list, n)
    && SweptOf(tree, a, s, list, n) == SweptOf(tree, b, s, list, n)
  }

  lemma SameResultsStep(tree: Tree, a: Contexts, b: Contexts, s: ScopeId, list: seq<FiberId>, n: nat, c: ScopeId)
    requires IsTree(tree) && Fits(tree, a) && Fits(tree, b) && s in a && OwnedBy(tree, s, list) && 0 < n <= |list|
    requires list[n - 1] in tree.fibers && tree.fibers[list[n - 1]].scope == c && c in a
    requires SameResults(tree, a, b, s, list, n - 1)
    requires Order(tree, a, c) == Order(tree, b, c) && Swept(tree, a, c) == Swept(tree, b, c)
    ensures SameResults(tree, a, b, s, list, n)
  {
  }

  lemma {:induction false} BranchesDecide(tree: Tree, a: Contexts, b: Contexts, s: ScopeId, list: seq<FiberId>, n: nat)
    requires IsTree(tree) && Fits(tree, a) && Fits(tree, b) && s in a && OwnedBy(tree, s, list) && n <= |list|
    requires SameBranches(tree, a, b, s, list)
    ensures SameResults(tree, a, b, s, list, n)
    decreases tree.nextScope - s, n
  {
    if n > 0 {
      assert list[n - 1] in list;
      var c := tree.fibers[list[n - 1]].scope;
      BranchesDecide(tree, a, b, s, list, n - 1);
      BranchDecides(tree, a, b, c);
      SameResultsStep(tree, a, b, s, list, n, c);
    }
  }

  // ------------------------------------------------------------------
  // What the order promises
  // ------------------------------------------------------------------

  /** An effect belongs to one scope. */
  ghost predicate Apart(data: Contexts, s: ScopeId, t: ScopeId)
    requires s in data && t in data
  {
    data[s].effects.Keys !! data[t].effects.Keys
  }

  ghost predicate EffectsApart(data: Contexts) {
    forall s, t {:trigger Apart(data, s, t)} :: s in data && t in data && s != t ==> Apart(data, s, t)
  }

  lemma OneOwner(data: Contexts, id: EffectId, s: ScopeId, t: ScopeId)
    requires EffectsApart(data) && s in data && t in data && id in data[s].effects && id in data[t].effects
    ensures s == t
  {
    assert s == t || Apart(data, s, t);
  }

  ghost predicate RunFrom(data: Contexts, scopes: set<ScopeId>, id: EffectId) {
    exists x :: x in scopes && x in data && id in ActiveIds(data[x].effects)
  }

  /** Exactly the Active effects of the swept scopes are disposed. */
  lemma {:induction false} OrderCovers(tree: Tree, data: Contexts, s: ScopeId, id: EffectId)
    requires IsTree(tree) && Fits(tree, data) && s in data
    ensures id in Order(tree, data, s) <==> RunFrom(data, Swept(tree, data, s), id)
    decreases tree.nextScope - s, |data[s].fibers| + 1
  {
    if data[s].state == ScopeActive {
      OrderOfCovers(tree, data, s, data[s].fibers, |data[s].fibers|, id);
      RunFromEither(data, {s}, SweptOf(tree, data, s, data[s].fibers, |data[s].fibers|), id);
      assert RunFrom(data, {s}, id) <==> id in ActiveIds(data[s].effects) by {
        assert s in {s};
      }
    }
  }

  lemma {:induction false} OrderOfCovers(tree: Tree, data: Contexts, s: ScopeId, list: seq<FiberId>, n: nat,
                                         id: EffectId)
    requires IsTree(tree) && Fits(tree, data) && s in data && OwnedBy(tree, s, list) && n <= |list|
    ensures id in OrderOf(tree, data, s, list, n) <==> RunFrom(data, SweptOf(tree, data, s, list, n), id)
    decreases tree.nextScope - s, n
  {
    if n > 0 {
      assert list[n - 1] in list;
      var c := tree.fibers[list[n - 1]].scope;
      OrderOfCovers(tree, data, s, list, n - 1, id);
      OrderCovers(tree, data, c, id);
      RunFromEither(data, SweptOf(tree, data, s, list, n - 1), Swept(tree, data, c), id);
    }
  }

  lemma RunFromEither(data: Contexts, a: set<ScopeId>, b: set<ScopeId>, id: EffectId)
    ensures RunFrom(data, a + b, id) <==> RunFrom(data, a, id) || RunFrom(data, b, id)
  {
    if RunFrom(data, a + b, id) {
      var x :| x in a + b && x in data && id in ActiveIds(data[x].effects);
      assert x in a || x in b;
    }
    if RunFrom(data, a, id) {
      var x :| x in a && x in data && id in ActiveIds(data[x].effects);
      assert x in a + b;
    }
    if RunFrom(data, b, id) {
      var x :| x in b && x in data && id in ActiveIds(data[x].effects);
      assert x in a + b;
    }
  }

  /** Two disposers stand in the right order: within one scope the newer effect comes first,
      and nothing of an inner scope comes after something of a scope around it. */
  ghost predicate RightOrder(tree: Tree, data: Contexts, first: EffectId, second: EffectId)
    requires IsTree(tree)
  {
    forall x, y :: x in data && y in data && first in data[x].effects && second in data[y].effects ==>
      (if x == y then first > second else !Below(tree, y, x))
  }

  lemma RightFor(tree: Tree, data: Contexts, first: EffectId, second: EffectId, x: ScopeId, y: ScopeId)
    requires IsTree(tree) && EffectsApart(data) && x in data && y in data && first in data[x].effects
    requires second in data[y].effects
    requires if x == y then first > second else !Below(tree, y, x)
    ensures RightOrder(tree, data, first, second)
  {
    forall v, w | v in data && w in data && first in data[v].effects && second in data[w].effects
      ensures v == x && w == y
    {
      OneOwner(data, first, v, x);
      OneOwner(data, second, w, y);
    }
  }

  ghost predicate InOrder(tree: Tree, data: Contexts, ids: seq<EffectId>)
    requires IsTree(tree)
  {
    forall j, k :: 0 <= j < k < |ids| ==> RightOrder(tree, data, ids[j], ids[k])
  }

  lemma InOrderJoin(tree: Tree, data: Contexts, a: seq<EffectId>, b: seq<EffectId>)
    requires IsTree(tree) && InOrder(tree, data, a) && InOrder(tree, data, b)
    requires forall i, j :: 0 <= i < |a| && 0 <= j < |b| ==> RightOrder(tree, data, a[i], b[j])
    ensures InOrder(tree, data, a + b)
  {
    forall j, k | 0 <= j < k < |a + b| ensures RightOrder(tree, data, (a + b)[j], (a + b)[k]) {
      if k >= |a| && j < |a| {
        assert RightOrder(tree, data, a[j], b[k - |a|]);
      } else if j >= |a| {
        assert RightOrder(tree, data, b[j - |a|], b[k - |a|]);
      }
    }
  }

  lemma {:induction false} OrderIsRight(tree: Tree, data: Contexts, s: ScopeId)
    requires IsTree(tree) && Fits(tree, data) && s in data && EffectsApart(data)
    ensures InOrder(tree, data, Order(tree, data, s)) && NoDuplicates(Order(tree, data, s))
    decreases tree.nextScope - s, |data[s].fibers| + 1
  {
    if data[s].state == ScopeActive {
      var list, n := data[s].fibers, |data[s].fibers|;
      var nested, own := OrderOf(tree, data, s, list, n), Down(ActiveIds(data[s].effects));
      OrderOfIsRight(tree, data, s, list, n);
      forall j, k | 0 <= j < k < |own| ensures RightOrder(tree, data, own[j], own[k]) {
        assert own[j] in own && own[k] in own;
        RightFor(tree, data, own[j], own[k], s, s);
      }
      forall i, j | 0 <= i < |nested| && 0 <= j < |own|
        ensures RightOrder(tree, data, nested[i], own[j]) && nested[i] != own[j]
      {
        assert own[j] in own && nested[i] in nested;
        OrderOfCovers(tree, data, s, list, n, nested[i]);
        var x :| x in SweptOf(tree, data, s, list, n) && x in data && nested[i] in ActiveIds(data[x].effects);
        var f := SweptOfIsBelow(tree, data, s, list, n, x);
        NotBelowLater(tree, s, x);
        RightFor(tree, data, nested[i], own[j], x, s);
        assert nested[i] != own[j] by { if nested[i] == own[j] { OneOwner(data, own[j], x, s); } }
      }
      InOrderJoin(tree, data, nested, own);
    }
  }

  /** A scope is not below one created after it. */
  lemma {:induction false} NotBelowLater(tree: Tree, s: ScopeId, x: ScopeId)
    requires IsTree(tree) && s < x
    ensures !Below(tree, s, x)
    decreases s
  {
    if s in tree.parents && tree.parents[s].Some? {
      NotBelowLater(tree, tree.parents[s].value, x);
    }
  }

  lemma {:induction false} OrderOfIsRight(tree: Tree, data: Contexts, s: ScopeId, list: seq<FiberId>, n: nat)
    requires IsTree(tree) && Fits(tree, data) && s in data && EffectsApart(data)
    requires OwnedBy(tree, s, list) && Ascending(list) && n <= |list|
    ensures InOrder(tree, data, OrderOf(tree, data, s, list, n)) && NoDuplicates(OrderOf(tree, data, s, list, n))
    decreases tree.nextScope - s, n
  {
    if n > 0 {
      assert list[n - 1] in list;
      var c := tree.fibers[list[n - 1]].scope;
      assert c in data && c > s;
      var a, b := OrderOf(tree, data, s, list, n - 1), Order(tree, data, c);
      OrderOfIsRight(tree, data, s, list, n - 1);
      OrderIsRight(tree, data, c);
      forall i, j | 0 <= i < |a| && 0 <= j < |b| ensures RightOrder(tree, data, a[i], b[j]) && a[i] != b[j] {
        assert a[i] in a && b[j] in b;
        SiblingOrder(tree, data, s, list, n - 1, a[i], b[j]);
      }
      InOrderJoin(tree, data, a, b);
    }
  }

  lemma SiblingOrder(tree: Tree, data: Contexts, s: ScopeId, list: seq<FiberId>, k: nat, a: EffectId, b: EffectId)
    requires IsTree(tree) && Fits(tree, data) && s in data && EffectsApart(data)
    requires OwnedBy(tree, s, list) && Ascending(list) && k < |list|
    requires list[k] in tree.fibers && tree.fibers[list[k]].scope in data
    requires a in OrderOf(tree, data, s, list, k) && b in Order(tree, data, tree.fibers[list[k]].scope)
    ensures RightOrder(tree, data, a, b) && a != b
  {
    var c := tree.fibers[list[k]].scope;
    OrderOfCovers(tree, data, s, list, k, a);
    OrderCovers(tree, data, c, b);
    var x :| x in SweptOf(tree, data, s, list, k) && x in data && a in ActiveIds(data[x].effects);
    var y :| y in Swept(tree, data, c) && y in data && b in ActiveIds(data[y].effects);
    SweptIsBelow(tree, data, c, y);
    EarlierBranch(tree, data, s, list, k, x, y);
    assert Below(tree, y, y);
    RightFor(tree, data, a, b, x, y);
    assert a != b by { if a == b { OneOwner(data, a, x, y); } }
  }

  /** The branch of fiber k has nothing in common with what the fibers before it swept. */
  lemma EarlierBranch(tree: Tree, data: Contexts, s: ScopeId, list: seq<FiberId>, k: nat, x: ScopeId, y: ScopeId)
    requires IsTree(tree) && Fits(tree, data) && s in data && OwnedBy(tree, s, list) && Ascending(list) && k < |list|
    requires list[k] in tree.fibers && x in SweptOf(tree, data, s, list, k)
    requires Below(tree, y, tree.fibers[list[k]].scope)
    ensures !Below(tree, y, x)
  {
    var f := SweptOfIsBelow(tree, data, s, list, k, x);
    assert list[k] in list;
    forall j | 0 <= j < k ensures list[j] != list[k] {
      assert Increases(list, j, k);
    }
    assert OtherScope(tree, f, list[k]);
    if Below(tree, y, x) {
      BelowBelow(tree, y, x, tree.fibers[f].scope);
      BranchesAreApart(tree, y, tree.fibers[f].scope, tree.fibers[list[k]].scope, s);
    }
  }

  lemma {:induction false} BelowBelow(tree: Tree, y: ScopeId, x: ScopeId, c: ScopeId)
    requires IsTree(tree) && Below(tree, y, x) && Below(tree, x, c)
    ensures Below(tree, y, c)
    decreases y
  {
    if y != x {
      BelowBelow(tree, tree.parents[y].value, x, c);
    }
  }

  /** A sweep closes everything it can reach: the scope of a fiber registered with a swept scope
      was swept too, unless it was closed already. */
  lemma {:induction false} SweptIsClosed(tree: Tree, data: Contexts, s: ScopeId, x: ScopeId, f: FiberId)
    requires IsTree(tree) && Fits(tree, data) && s in data && x in Swept(tree, data, s)
    requires x in data && f in data[x].fibers
    ensures f in tree.fibers && tree.fibers[f].scope in data
    ensures data[tree.fibers[f].scope].state == ScopeActive ==> tree.fibers[f].scope in Swept(tree, data, s)
    decreases tree.nextScope - s, |data[s].fibers| + 1
  {
    var list, n := data[s].fibers, |data[s].fibers|;
    assert OwnedBy(tree, x, data[x].fibers) && OwnedBy(tree, s, list);
    if x == s {
      SweptOfHolds(tree, data, s, list, n, f, tree.fibers[f].scope);
    } else {
      var g := SweptOfIsBelow(tree, data, s, list, n, x);
      SweptIsClosed(tree, data, tree.fibers[g].scope, x, f);
      if data[tree.fibers[f].scope].state == ScopeActive {
        SweptOfHolds(tree, data, s, list, n, g, tree.fibers[f].scope);
      }
    }
  }

  lemma {:induction false} SweptOfHolds(tree: Tree, data: Contexts, s: ScopeId, list: seq<FiberId>, n: nat, f: FiberId,
                                        x: ScopeId)
    requires IsTree(tree) && Fits(tree, data) && s in data && OwnedBy(tree, s, list) && n <= |list| && f in list[..n]
    requires f in list
    ensures x in Swept(tree, data, tree.fibers[f].scope) ==> x in SweptOf(tree, data, s, list, n)
    decreases n
  {
    if f != list[n - 1] {
      SweptOfHolds(tree, data, s, list, n - 1, f, x);
    }
  }
}
