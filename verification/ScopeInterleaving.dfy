/** Concurrent disposal of one scope: every lock section of `install_effect`,
    `dispose_effect` and `dispose` is an atomic step, and any number of threads interleave
    (crates/yunxi-cordis-core/src/context.rs, crates/yunxi-cordis-core/src/effect.rs). */
module ScopeInterleaving {
  import opened ScopeOrder

  /** A stored effect; `armed` says that the record still owns the disposer. */
  datatype EffectRecord = EffectRecord(state: EffectState, armed: bool)

  /** Where a thread stands inside a call. */
  datatype Thread =
    | Idle
    | Installing(id: EffectId)                                  // the hierarchy was active; not inserted yet
    | Holding(id: EffectId)                                     // dispose_effect took the disposer
    | Ran(id: EffectId, ok: bool)                               // ... and ran it
    | Sweeping(queue: seq<EffectId>)                            // dispose took all disposers
    | SweptOne(id: EffectId, ok: bool, queue: seq<EffectId>)    // ... and ran the first

  /** The shared scope, the threads, the effects created so far and the disposers run so far. */
  datatype State = State(scope: ScopeState, effects: map<EffectId, EffectRecord>, threads: seq<Thread>,
                         created: set<EffectId>, runs: seq<EffectId>)

  datatype Action =
    | BeginInstall(id: EffectId, ancestorsActive: bool)
    | Insert
    | TakeOne(id: EffectId)
    | RunOne(ok: bool)
    | MarkOne
    | BeginDispose(queue: seq<EffectId>)
    | SweepRun(ok: bool)
    | SweepMark
    | Finish

  function ActiveIds(effects: map<EffectId, EffectRecord>): set<EffectId> {
    set id | id in effects && effects[id].state == Active
  }

  function Outcome(ok: bool): EffectState {
    if ok then Disposed else Failed
  }

  function Mark(effects: map<EffectId, EffectRecord>, id: EffectId, ok: bool): map<EffectId, EffectRecord> {
    if id in effects then effects[id := effects[id].(state := Outcome(ok))] else effects
  }

  function TakeAll(effects: map<EffectId, EffectRecord>, ids: seq<EffectId>): map<EffectId, EffectRecord> {
    map id | id in effects :: if id in ids then EffectRecord(Disposing, false) else effects[id]
  }

  /** Thread t does one step. A call that the source refuses without touching the shared state
      (an effect that is gone or busy, a scope that is closed) is a step that leaves it alone. */
  ghost predicate Step(s: State, t: nat, action: Action, s': State) {
    && t < |s.threads|
    && var now := s.threads[t];
       match action
       case BeginInstall(id, ancestorsActive) =>
         now == Idle && id !in s.created
         && s' == s.(created := s.created + {id},
                     threads := s.threads[t := if s.scope == ScopeActive && ancestorsActive
                                                then Installing(id) else Idle])
       case Insert =>
         now.Installing?
         && s' == s.(effects := s.effects[now.id := EffectRecord(Active, true)], threads := s.threads[t := Idle])
       case TakeOne(id) =>
         now == Idle
         && if id in s.effects && s.effects[id].state == Active
            then s' == s.(effects := s.effects[id := EffectRecord(Disposing, false)],
                          threads := s.threads[t := Holding(id)])
            else s' == s
       case RunOne(ok) =>
         now.Holding?
         && s' == s.(runs := s.runs + [now.id], threads := s.threads[t := Ran(now.id, ok)])
       case MarkOne =>
         now.Ran?
         && s' == s.(effects := Mark(s.effects, now.id, now.ok), threads := s.threads[t := Idle])
       case BeginDispose(queue) =>
         now == Idle
         && if s.scope == ScopeActive
            then Descending(queue) && (forall id :: id in queue <==> id in ActiveIds(s.effects))
                 && s' == s.(scope := ScopeDisposing, effects := TakeAll(s.effects, queue),
                             threads := s.threads[t := Sweeping(queue)])
            else s' == s
       case SweepRun(ok) =>
         now.Sweeping? && now.queue != []
         && s' == s.(runs := s.runs + [now.queue[0]],
                     threads := s.threads[t := SweptOne(now.queue[0], ok, now.queue[1..])])
       case SweepMark =>
         now.SweptOne?
         && s' == s.(effects := Mark(s.effects, now.id, now.ok), threads := s.threads[t := Sweeping(now.queue)])
       case Finish =>
         now == Sweeping([])
         && s' == s.(scope := ScopeDisposed, threads := s.threads[t := Idle])
  }

  ghost predicate Initial(s: State) {
    s.scope == ScopeActive && s.effects == map[] && s.runs == [] && s.created == {}
    && forall t :: 0 <= t < |s.threads| ==> s.threads[t] == Idle
  }

  ghost predicate IsRun(states: seq<State>, turns: seq<(nat, Action)>) {
    && |states| == |turns| + 1
    && forall k :: 0 <= k < |turns| ==> Step(states[k], turns[k].0, turns[k].1, states[k + 1])
  }

  // ------------------------------------------------------------------
  // One disposer, one place
  // ------------------------------------------------------------------

  /** The effects that a thread is in the middle of disposing. */
  function Carried(thread: Thread): seq<EffectId> {
    match thread
    case Holding(id) => [id]
    case Ran(id, _) => [id]
    case Sweeping(queue) => queue
    case SweptOne(id, _, queue) => [id] + queue
    case _ => []
  }

  ghost predicate HasRun(thread: Thread, id: EffectId) {
    (thread.Ran? || thread.SweptOne?) && thread.id == id
  }

  /** A carried effect is stored as Disposing; its disposer has run only if the thread just ran it. */
  ghost predicate ThreadInv(s: State, thread: Thread) {
    && NoDuplicates(Carried(thread))
    && (thread.Installing? ==> thread.id in s.created && thread.id !in s.effects)
    && forall id :: id in Carried(thread) ==>
      id in s.effects && s.effects[id].state == Disposing && (id in s.runs <==> HasRun(thread, id))
  }

  ghost predicate Disjoint(a: Thread, b: Thread) {
    && (forall id :: id in Carried(a) ==> id !in Carried(b))
    && (a.Installing? && b.Installing? ==> a.id != b.id)
  }

  ghost predicate SomeoneCarries(s: State, id: EffectId) {
    exists t :: 0 <= t < |s.threads| && id in Carried(s.threads[t])
  }

  /** A record owns its disposer exactly while Active, is Disposing only in some thread's hands,
      and ends Disposed or Failed only after its disposer ran. */
  ghost predicate RecordInv(s: State, id: EffectId)
    requires id in s.effects
  {
    && id in s.created
    && (s.effects[id].armed <==> s.effects[id].state == Active)
    && (s.effects[id].state == Active ==> id !in s.runs)
    && (s.effects[id].state == Disposing ==> SomeoneCarries(s, id))
    && (s.effects[id].state in {Disposed, Failed} ==> id in s.runs)
  }

  ghost predicate ThreadsInv(s: State) {
    && (forall t :: 0 <= t < |s.threads| ==> ThreadInv(s, s.threads[t]))
    && (forall t, u :: 0 <= t < |s.threads| && 0 <= u < |s.threads| && t != u ==> Disjoint(s.threads[t], s.threads[u]))
  }

  ghost predicate RecordsInv(s: State) {
    && (forall id :: id in s.effects ==> RecordInv(s, id))
    && (forall id :: id in s.runs ==> id in s.effects)
    && NoDuplicates(s.runs)
  }

  ghost predicate Inv(s: State) {
    ThreadsInv(s) && RecordsInv(s)
  }

  /** If every other thread keeps its effects apart from what changed, only thread t needs checking. */
  lemma ThreadsInvAfter(s: State, t: nat, s': State)
    requires ThreadsInv(s) && t < |s.threads| && |s'.threads| == |s.threads|
    requires forall u :: 0 <= u < |s.threads| && u != t ==> s'.threads[u] == s.threads[u] && ThreadInv(s', s.threads[u])
    requires ThreadInv(s', s'.threads[t])
    requires forall u :: 0 <= u < |s.threads| && u != t ==>
      Disjoint(s'.threads[t], s.threads[u]) && Disjoint(s.threads[u], s'.threads[t])
    ensures ThreadsInv(s')
  {
    forall u, v | 0 <= u < |s'.threads| && 0 <= v < |s'.threads| && u != v
      ensures Disjoint(s'.threads[u], s'.threads[v])
    {
      assert u != t && v != t ==> Disjoint(s.threads[u], s.threads[v]);
    }
  }

  /** Another thread still carries what it carried before thread t stepped. */
  lemma StillCarried(s: State, t: nat, s': State, id: EffectId)
    requires t < |s.threads| && |s'.threads| == |s.threads|
    requires forall u :: 0 <= u < |s.threads| && u != t ==> s'.threads[u] == s.threads[u]
    requires SomeoneCarries(s, id) && (id in Carried(s.threads[t]) ==> id in Carried(s'.threads[t]))
    ensures SomeoneCarries(s', id)
  {
    var u :| 0 <= u < |s.threads| && id in Carried(s.threads[u]);
    assert id in Carried(s'.threads[u]);
  }

  lemma InstallStepKeepsInv(s: State, t: nat, action: Action, s': State)
    requires Inv(s) && (action.BeginInstall? || action.Insert?) && Step(s, t, action, s')
    ensures Inv(s')
  {
    forall u | 0 <= u < |s.threads| ensures u != t ==> ThreadInv(s', s.threads[u]) {
      assert ThreadInv(s, s.threads[u]) && (u != t ==> Disjoint(s.threads[u], s.threads[t]));
    }
    ThreadsInvAfter(s, t, s');
    forall id | id in s'.effects ensures RecordInv(s', id) {
      if id in s.effects {
        assert RecordInv(s, id);
        if s.effects[id].state == Disposing { StillCarried(s, t, s', id); }
      }
    }
  }

  lemma TakeOneKeepsInv(s: State, t: nat, id: EffectId, s': State)
    requires Inv(s) && Step(s, t, TakeOne(id), s')
    ensures Inv(s')
  {
    if s' != s {
      assert RecordInv(s, id);
      forall u | 0 <= u < |s.threads| ensures u != t ==> ThreadInv(s', s.threads[u]) && id !in Carried(s.threads[u]) {
        assert ThreadInv(s, s.threads[u]);
      }
      ThreadsInvAfter(s, t, s');
      assert id in Carried(s'.threads[t]);
      forall e | e in s'.effects ensures RecordInv(s', e) {
        assert RecordInv(s, e);
        if e != id && s.effects[e].state == Disposing { StillCarried(s, t, s', e); }
      }
    }
  }

  lemma RunStepKeepsInv(s: State, t: nat, action: Action, s': State)
    requires Inv(s) && (action.RunOne? || action.SweepRun?) && Step(s, t, action, s')
    ensures Inv(s')
  {
    var ran := Carried(s.threads[t])[0];
    assert ThreadInv(s, s.threads[t]) && ran in Carried(s.threads[t]);
    assert Carried(s'.threads[t]) == Carried(s.threads[t]);
    forall u | 0 <= u < |s.threads| && u != t
      ensures ThreadInv(s', s.threads[u]) && Disjoint(s'.threads[t], s.threads[u])
      ensures Disjoint(s.threads[u], s'.threads[t])
    {
      assert ThreadInv(s, s.threads[u]) && Disjoint(s.threads[t], s.threads[u]) && Disjoint(s.threads[u], s.threads[t]);
    }
    ThreadsInvAfter(s, t, s');
    forall e | e in s'.effects ensures RecordInv(s', e) {
      assert RecordInv(s, e);
      if s.effects[e].state == Disposing { StillCarried(s, t, s', e); }
    }
  }

  lemma MarkKeepsOther(s: State, t: nat, action: Action, s': State, u: nat)
    requires ThreadsInv(s) && (action.MarkOne? || action.SweepMark?) && Step(s, t, action, s')
    requires u < |s.threads| && u != t
    ensures ThreadInv(s', s.threads[u])
    ensures Disjoint(s'.threads[t], s.threads[u]) && Disjoint(s.threads[u], s'.threads[t])
  {
    assert ThreadInv(s, s.threads[u]) && Disjoint(s.threads[t], s.threads[u]) && Disjoint(s.threads[u], s.threads[t]);
    assert Carried(s.threads[t])[0] == s.threads[t].id && s.threads[t].id in Carried(s.threads[t]);
    assert Carried(s'.threads[t]) == Carried(s.threads[t])[1..];
  }

  lemma MarkKeepsSelf(s: State, t: nat, action: Action, s': State)
    requires ThreadsInv(s) && (action.MarkOne? || action.SweepMark?) && Step(s, t, action, s')
    ensures ThreadInv(s', s'.threads[t])
  {
    var before, after := Carried(s.threads[t]), Carried(s'.threads[t]);
    assert ThreadInv(s, s.threads[t]);
    assert after == before[1..] && before[0] == s.threads[t].id;
    forall id | id in after ensures id in before && id != before[0] {
    }
  }

  lemma MarkKeepsThreads(s: State, t: nat, action: Action, s': State)
    requires ThreadsInv(s) && (action.MarkOne? || action.SweepMark?) && Step(s, t, action, s')
    ensures ThreadsInv(s')
  {
    MarkKeepsSelf(s, t, action, s');
    forall u | 0 <= u < |s.threads| && u != t
      ensures s'.threads[u] == s.threads[u] && ThreadInv(s', s.threads[u])
      ensures Disjoint(s'.threads[t], s.threads[u]) && Disjoint(s.threads[u], s'.threads[t])
    {
      MarkKeepsOther(s, t, action, s', u);
    }
    ThreadsInvAfter(s, t, s');
  }

  lemma MarkKeepsRecords(s: State, t: nat, action: Action, s': State)
    requires Inv(s) && (action.MarkOne? || action.SweepMark?) && Step(s, t, action, s')
    ensures RecordsInv(s')
  {
    var marked := s.threads[t].id;
    assert ThreadInv(s, s.threads[t]) && marked in Carried(s.threads[t]);
    forall e | e in s'.effects ensures RecordInv(s', e) {
      assert RecordInv(s, e);
      if e != marked && s.effects[e].state == Disposing { StillCarried(s, t, s', e); }
    }
  }

  lemma BeginDisposeKeepsInv(s: State, t: nat, queue: seq<EffectId>, s': State)
    requires Inv(s) && Step(s, t, BeginDispose(queue), s')
    ensures Inv(s')
  {
    if s.scope == ScopeActive {
      forall u | 0 <= u < |s.threads| && u != t
        ensures ThreadInv(s', s.threads[u]) && Disjoint(s'.threads[t], s.threads[u])
        ensures Disjoint(s.threads[u], s'.threads[t])
      {
        assert ThreadInv(s, s.threads[u]);
      }
      forall id | id in queue ensures id in s.effects && id !in s.runs {
        assert RecordInv(s, id);
      }
      assert Carried(s'.threads[t]) == queue;
      ThreadsInvAfter(s, t, s');
      forall e | e in s'.effects ensures RecordInv(s', e) {
        assert RecordInv(s, e);
        if e in queue {
          assert e in Carried(s'.threads[t]);
        } else if s.effects[e].state == Disposing {
          StillCarried(s, t, s', e);
        }
      }
    }
  }

  lemma FinishKeepsInv(s: State, t: nat, s': State)
    requires Inv(s) && Step(s, t, Finish, s')
    ensures Inv(s')
  {
    forall u | 0 <= u < |s.threads| && u != t ensures ThreadInv(s', s.threads[u]) {
      assert ThreadInv(s, s.threads[u]);
    }
    ThreadsInvAfter(s, t, s');
    forall e | e in s'.effects ensures RecordInv(s', e) {
      assert RecordInv(s, e);
      if s.effects[e].state == Disposing { StillCarried(s, t, s', e); }
    }
  }

  lemma StepKeepsInv(s: State, t: nat, action: Action, s': State)
    requires Inv(s) && Step(s, t, action, s')
    ensures Inv(s')
  {
    match action
    case BeginInstall(_, _) => InstallStepKeepsInv(s, t, action, s');
    case Insert => InstallStepKeepsInv(s, t, action, s');
    case TakeOne(id) => TakeOneKeepsInv(s, t, id, s');
    case RunOne(_) => RunStepKeepsInv(s, t, action, s');
    case MarkOne => MarkKeepsThreads(s, t, action, s'); MarkKeepsRecords(s, t, action, s');
    case BeginDispose(queue) => BeginDisposeKeepsInv(s, t, queue, s');
    case SweepRun(_) => RunStepKeepsInv(s, t, action, s');
    case SweepMark => MarkKeepsThreads(s, t, action, s'); MarkKeepsRecords(s, t, action, s');
    case Finish => FinishKeepsInv(s, t, s');
  }

  lemma {:induction false} RunsKeepInv(states: seq<State>, turns: seq<(nat, Action)>, k: nat)
    requires IsRun(states, turns) && Initial(states[0]) && k < |states|
    ensures Inv(states[k])
  {
    if k > 0 {
      RunsKeepInv(states, turns, k - 1);
      StepKeepsInv(states[k - 1], turns[k - 1].0, turns[k - 1].1, states[k]);
    }
  }

  /** In every interleaving each disposer runs at most once, and only for an inserted effect that has left Active. */
  lemma EachDisposerRunsAtMostOnce(states: seq<State>, turns: seq<(nat, Action)>, k: nat)
    requires IsRun(states, turns) && Initial(states[0]) && k < |states|
    ensures NoDuplicates(states[k].runs)
    ensures forall id :: id in states[k].runs ==> id in states[k].effects && states[k].effects[id].state != Active
  {
    RunsKeepInv(states, turns, k);
    forall id | id in states[k].runs ensures states[k].effects[id].state != Active {
      assert RecordInv(states[k], id);
    }
  }

  /** An Active record still owns its disposer: the `expect` in dispose_effect cannot fail. */
  lemma ActiveEffectsAreArmed(states: seq<State>, turns: seq<(nat, Action)>, k: nat, id: EffectId)
    requires IsRun(states, turns) && Initial(states[0]) && k < |states| && id in states[k].effects
    ensures states[k].effects[id].armed <==> states[k].effects[id].state == Active
  {
    RunsKeepInv(states, turns, k);
    assert RecordInv(states[k], id);
  }

  /** No disposer is lost: whenever all calls have returned, every inserted effect is either
      still Active and unrun, or Disposed or Failed and run. */
  lemma NothingIsLostAtRest(states: seq<State>, turns: seq<(nat, Action)>, k: nat, id: EffectId)
    requires IsRun(states, turns) && Initial(states[0]) && k < |states| && id in states[k].effects
    requires forall t :: 0 <= t < |states[k].threads| ==> states[k].threads[t] == Idle
    ensures states[k].effects[id].state == Active <==> id !in states[k].runs
    ensures states[k].effects[id].state != Disposing
  {
    RunsKeepInv(states, turns, k);
    assert RecordInv(states[k], id);
    forall t | 0 <= t < |states[k].threads| ensures id !in Carried(states[k].threads[t]) {
      assert states[k].threads[t] == Idle;
    }
  }

  // ------------------------------------------------------------------
  // Effects that survive the disposal
  // ------------------------------------------------------------------

  ghost predicate SomeoneInstalls(s: State) {
    exists t :: 0 <= t < |s.threads| && s.threads[t].Installing?
  }

  ghost predicate Quiet(s: State) {
    s.scope != ScopeActive && ActiveIds(s.effects) == {} && !SomeoneInstalls(s)
  }

  lemma StepKeepsQuiet(s: State, t: nat, action: Action, s': State)
    requires Quiet(s) && Step(s, t, action, s')
    ensures Quiet(s')
  {
    forall id | id in s'.effects ensures s'.effects[id].state != Active {
      assert id in s.effects ==> id !in ActiveIds(s.effects);
    }
    forall u | 0 <= u < |s'.threads| ensures !s'.threads[u].Installing? {
      assert !s.threads[u].Installing?;
    }
  }

  lemma {:induction false} QuietStays(states: seq<State>, turns: seq<(nat, Action)>, k: nat)
    requires IsRun(states, turns) && Quiet(states[0]) && k < |states|
    ensures Quiet(states[k])
  {
    if k > 0 {
      QuietStays(states, turns, k - 1);
      StepKeepsQuiet(states[k - 1], turns[k - 1].0, turns[k - 1].1, states[k]);
    }
  }

  ghost predicate LeavesActiveEffect(states: seq<State>, turns: seq<(nat, Action)>, s: State) {
    IsRun(states, turns) && states[0] == s && ActiveIds(states[|turns|].effects) != {}
  }

  /** When a dispose call closes a scope, an Active effect can be found in it later
      if and only if some install_effect had passed its check and not inserted yet. */
  lemma OnlyALateInstallSurvives(s: State, t: nat, queue: seq<EffectId>, s': State)
    requires s.scope == ScopeActive && Step(s, t, BeginDispose(queue), s')
    ensures (exists states, turns :: LeavesActiveEffect(states, turns, s')) <==> SomeoneInstalls(s)
  {
    forall id | id in s'.effects ensures s'.effects[id].state != Active {
      assert s.effects[id].state == Active ==> id in ActiveIds(s.effects);
    }
    if SomeoneInstalls(s) {
      var u :| 0 <= u < |s.threads| && s.threads[u].Installing?;
      var id := s.threads[u].id;
      var after := s'.(effects := s'.effects[id := EffectRecord(Active, true)], threads := s'.threads[u := Idle]);
      assert Step(s', u, Insert, after) && id in ActiveIds(after.effects);
      assert LeavesActiveEffect([s', after], [(u, Insert)], s');
    } else {
      forall u | 0 <= u < |s'.threads| ensures !s'.threads[u].Installing? {
        assert !s.threads[u].Installing?;
      }
      forall states, turns | IsRun(states, turns) && states[0] == s' ensures !LeavesActiveEffect(states, turns, s') {
        QuietStays(states, turns, |turns|);
      }
    }
  }

  /** The late install happens: a scope can end Disposed with an effect that is Active for good. */
  lemma LateInstallIsReachable(id: EffectId) returns (states: seq<State>, turns: seq<(nat, Action)>)
    ensures IsRun(states, turns) && Initial(states[0])
    ensures states[|turns|].scope == ScopeDisposed && id in ActiveIds(states[|turns|].effects)
    ensures forall t :: 0 <= t < |states[|turns|].threads| ==> states[|turns|].threads[t] == Idle
  {
    var s0 := State(ScopeActive, map[], [Idle, Idle], {}, []);
    var s1 := s0.(created := {id}, threads := [Installing(id), Idle]);
    var s2 := s1.(scope := ScopeDisposing, threads := [Installing(id), Sweeping([])]);
    var s3 := s2.(scope := ScopeDisposed, threads := [Installing(id), Idle]);
    var s4 := s3.(effects := map[id := EffectRecord(Active, true)], threads := [Idle, Idle]);
    states := [s0, s1, s2, s3, s4];
    turns := [(0, BeginInstall(id, true)), (1, BeginDispose([])), (1, Finish), (0, Insert)];
    assert Step(s0, 0, BeginInstall(id, true), s1);
    assert Step(s1, 1, BeginDispose([]), s2) by { assert TakeAll(s1.effects, []) == s1.effects; }
    assert Step(s2, 1, Finish, s3);
    assert Step(s3, 0, Insert, s4);
  }

  // ------------------------------------------------------------------
  // What the states tell
  // ------------------------------------------------------------------

  /** Step k ran the disposer of this effect, and it went like this. */
  ghost predicate RanAt(states: seq<State>, turns: seq<(nat, Action)>, k: nat, id: EffectId, ok: bool)
    requires k < |turns| && k + 1 < |states|
  {
    (turns[k].1 == RunOne(ok) || turns[k].1 == SweepRun(ok)) && states[k + 1].runs == states[k].runs + [id]
  }

  ghost predicate RanAs(states: seq<State>, turns: seq<(nat, Action)>, n: nat, id: EffectId, ok: bool)
    requires |states| == |turns| + 1 && n <= |turns|
  {
    exists k :: 0 <= k < n && RanAt(states, turns, k, id, ok)
  }

  ghost predicate Tells(states: seq<State>, turns: seq<(nat, Action)>, n: nat, state: EffectState, id: EffectId)
    requires |states| == |turns| + 1 && n <= |turns|
  {
    && (state == Disposed ==> RanAs(states, turns, n, id, true))
    && (state == Failed ==> RanAs(states, turns, n, id, false))
  }

  ghost predicate Knows(states: seq<State>, turns: seq<(nat, Action)>, n: nat, thread: Thread)
    requires |states| == |turns| + 1 && n <= |turns|
  {
    thread.Ran? || thread.SweptOne? ==> RanAs(states, turns, n, thread.id, thread.ok)
  }

  lemma LaterToo(states: seq<State>, turns: seq<(nat, Action)>, n: nat)
    requires |states| == |turns| + 1 && n < |turns|
    ensures forall id, ok {:trigger RanAs(states, turns, n, id, ok)} ::
      RanAs(states, turns, n, id, ok) ==> RanAs(states, turns, n + 1, id, ok)
  {
  }

  /** However the threads interleave, an effect that ended Disposed had its disposer run well, and one that ended
      Failed had it fail. */
  lemma {:induction false} OutcomesAreTrue(states: seq<State>, turns: seq<(nat, Action)>, n: nat)
    requires IsRun(states, turns) && Initial(states[0]) && n <= |turns|
    ensures forall id :: id in states[n].effects ==> Tells(states, turns, n, states[n].effects[id].state, id)
    ensures forall t :: 0 <= t < |states[n].threads| ==> Knows(states, turns, n, states[n].threads[t])
  {
    if n > 0 {
      var k := n - 1;
      OutcomesAreTrue(states, turns, k);
      LaterToo(states, turns, k);
      var s, t, action, s' := states[k], turns[k].0, turns[k].1, states[n];
      assert Step(s, t, action, s');
      if action.RunOne? || action.SweepRun? {
        var id := if action.RunOne? then s.threads[t].id else s.threads[t].queue[0];
        assert RanAt(states, turns, k, id, action.ok);
      }
      assert Knows(states, turns, k, s.threads[t]);
      forall u | 0 <= u < |s'.threads| ensures Knows(states, turns, n, s'.threads[u]) {
        assert u != t ==> s'.threads[u] == s.threads[u] && Knows(states, turns, k, s.threads[u]);
      }
      forall id | id in s'.effects ensures Tells(states, turns, n, s'.effects[id].state, id) {
        assert id in s.effects ==> Tells(states, turns, k, s.effects[id].state, id);
      }
    }
  }
}
