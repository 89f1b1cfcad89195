/** Bounded, generation-aware retries (crates/yunxi-plugin-host/src/retry.rs). A controller
    is owned by its slot, so it is a value here. */
module RetryPolicy {
  import opened Wrappers

  const MAX_AUTOMATIC_RESTARTS: nat := 3

  datatype RetryAction = Restart(attempt: nat) | DisablePlugin

  /** `handled` is the generation whose failure was consumed last, while it is current. */
  datatype Controller = Controller(maximum: nat, enabled: bool, generation: Option<nat>,
                                   restarts: nat, handled: Option<nat>)
  {
    predicate Valid() {
      restarts <= maximum <= MAX_AUTOMATIC_RESTARTS
    }

    function ObserveGeneration(g: nat): (Controller, bool) {
      if !enabled then (this, false)
      else if generation.Some? && g < generation.value then (this, false)
      else if generation == Some(g) then (this, true)
      else (this.(generation := Some(g), handled := None), true)
    }

    predicate Accepts(g: nat) {
      enabled && generation == Some(g)
    }

    function OnFailure(g: nat): (Controller, Option<RetryAction>) {
      if !Accepts(g) || handled == Some(g) then (this, None)
      else if restarts < maximum then
        (this.(handled := Some(g), restarts := restarts + 1), Some(Restart(restarts + 1)))
      else
        (this.(handled := Some(g), enabled := false), Some(DisablePlugin))
    }

    function ManualRestart(): Controller {
      Controller(maximum, true, None, 0, None)
    }

    function Disabled(): Controller {
      this.(enabled := false, generation := None, handled := None)
    }
  }

  function NewController(requestedMaximum: nat): (r: Controller)
    ensures r.Valid() && r.enabled && r.restarts == 0 && r.generation.None? && r.handled.None?
    ensures r.maximum == requestedMaximum <==> requestedMaximum <= MAX_AUTOMATIC_RESTARTS
  {
    Controller(if requestedMaximum <= MAX_AUTOMATIC_RESTARTS then requestedMaximum else MAX_AUTOMATIC_RESTARTS,
               true, None, 0, None)
  }

  // ------------------------------------------------------------------
  // Whole enable cycles
  // ------------------------------------------------------------------

  /** Everything a supervisor may tell a controller. */
  datatype Signal = Observed(generation: nat) | Failure(generation: nat) | ManuallyRestarted | SwitchedOff

  function Next(c: Controller, s: Signal): Controller {
    match s
    case Observed(g) => c.ObserveGeneration(g).0
    case Failure(g) => c.OnFailure(g).0
    case ManuallyRestarted => c.ManualRestart()
    case SwitchedOff => c.Disabled()
  }

  function Answer(c: Controller, s: Signal): Option<RetryAction> {
    if s.Failure? then c.OnFailure(s.generation).1 else None
  }

  function After(c: Controller, signals: seq<Signal>): Controller {
    if signals == [] then c else Next(After(c, signals[..|signals| - 1]), signals[|signals| - 1])
  }

  /** The generations whose failures were answered, in order. */
  function Consumed(c: Controller, signals: seq<Signal>): seq<nat> {
    if signals == [] then []
    else
      var before, s := signals[..|signals| - 1], signals[|signals| - 1];
      Consumed(c, before) + (if Answer(After(c, before), s).Some? then [s.generation] else [])
  }

  function RestartCount(c: Controller, signals: seq<Signal>): nat {
    if signals == [] then 0
    else
      var before, s := signals[..|signals| - 1], signals[|signals| - 1];
      var answer := Answer(After(c, before), s);
      RestartCount(c, before) + (if answer.Some? && answer.value.Restart? then 1 else 0)
  }

  predicate OneCycle(signals: seq<Signal>) {
    forall k :: 0 <= k < |signals| ==> !signals[k].ManuallyRestarted?
  }

  /** Within one enable cycle the restarts granted are exactly those counted, so at most
      three, whatever is observed, repeated, delayed or reported late. */
  lemma {:induction false} RestartsAreBounded(c: Controller, signals: seq<Signal>)
    requires c.Valid() && OneCycle(signals)
    ensures After(c, signals).Valid() && After(c, signals).maximum == c.maximum
    ensures RestartCount(c, signals) == After(c, signals).restarts - c.restarts <= MAX_AUTOMATIC_RESTARTS
    ensures !c.enabled ==> !After(c, signals).enabled && Consumed(c, signals) == []
  {
    if signals != [] {
      RestartsAreBounded(c, signals[..|signals| - 1]);
    }
  }

  predicate Increasing(generations: seq<nat>) {
    forall j, k :: 0 <= j < k < |generations| ==> generations[j] < generations[k]
  }

  /** Nothing consumed is newer than the current generation, which is consumed at most if
      it is marked as handled. */
  predicate Behind(generations: seq<nat>, c: Controller) {
    && (c.handled.Some? ==> c.handled == c.generation)
    && (c.enabled && generations != [] ==> c.generation.Some?)
    && forall j :: 0 <= j < |generations| && c.enabled ==>
         generations[j] < c.generation.value || (generations[j] == c.generation.value && c.handled == c.generation)
  }

  lemma NextStaysBehind(generations: seq<nat>, c: Controller, s: Signal)
    requires Behind(generations, c) && Increasing(generations) && !s.ManuallyRestarted?
    ensures Answer(c, s).Some? ==>
              Behind(generations + [s.generation], Next(c, s)) && Increasing(generations + [s.generation])
    ensures Answer(c, s).None? ==> Behind(generations, Next(c, s))
  {
  }

  /** Within one enable cycle the consumed generations strictly increase: no failure is
      consumed twice, and none of an older generation after a newer one. */
  lemma {:induction false} ConsumedGenerationsIncrease(c: Controller, signals: seq<Signal>)
    requires OneCycle(signals) && (c.handled.Some? ==> c.handled == c.generation)
    ensures Increasing(Consumed(c, signals)) && Behind(Consumed(c, signals), After(c, signals))
  {
    if signals != [] {
      var before, s := signals[..|signals| - 1], signals[|signals| - 1];
      ConsumedGenerationsIncrease(c, before);
      NextStaysBehind(Consumed(c, before), After(c, before), s);
    }
  }

  /** A disabled controller grants nothing until an explicit restart. */
  lemma DisabledStaysQuiet(c: Controller, signals: seq<Signal>)
    requires c.Valid() && OneCycle(signals)
    ensures RestartCount(c.Disabled(), signals) == 0 && !After(c.Disabled(), signals).enabled
  {
    StaysDisabled(c.Disabled(), signals);
  }

  lemma {:induction false} StaysDisabled(c: Controller, signals: seq<Signal>)
    requires !c.enabled && OneCycle(signals)
    ensures RestartCount(c, signals) == 0 && !After(c, signals).enabled
  {
    if signals != [] {
      StaysDisabled(c, signals[..|signals| - 1]);
    }
  }

  /** Each generation comes up and fails, one after the other. */
  function Crashes(generations: seq<nat>): seq<Signal> {
    if generations == [] then []
    else
      var n := |generations| - 1;
      Crashes(generations[..n]) + [Observed(generations[n]), Failure(generations[n])]
  }

  lemma AfterTwo(c: Controller, signals: seq<Signal>, s: Signal, t: Signal)
    ensures After(c, signals + [s, t]) == Next(Next(After(c, signals), s), t)
  {
    assert (signals + [s, t])[..|signals| + 1] == signals + [s];
    assert (signals + [s])[..|signals|] == signals;
  }

  /** Where a fresh cycle stands after so many crashes. */
  lemma {:induction false} CrashedSoFar(c: Controller, generations: seq<nat>)
    requires Increasing(generations)
    ensures var n, now := |generations|, After(Next(c, ManuallyRestarted), Crashes(generations));
            && now.maximum == c.maximum && (now.enabled <==> n <= c.maximum)
            && now.restarts == (if n <= c.maximum then n else c.maximum)
            && (n == 0 ==> now.generation == now.handled == None)
            && (0 < n <= c.maximum ==> now.generation == now.handled == Some(generations[n - 1]))
  {
    if generations != [] {
      var n := |generations| - 1;
      CrashedSoFar(c, generations[..n]);
      AfterTwo(Next(c, ManuallyRestarted), Crashes(generations[..n]), Observed(generations[n]),
               Failure(generations[n]));
    }
  }

  /** An explicit restart opens a whole new cycle, whatever came before: as many crashes as the maximum are answered by
      the restarts number 1, 2 and so on, the next one ends the cycle, and later ones are not answered. */
  lemma FreshCycleRunsOut(c: Controller, generations: seq<nat>, k: nat)
    requires Increasing(generations) && k < |generations|
    ensures var before := After(Next(c, ManuallyRestarted), Crashes(generations[..k]));
            var answer := Answer(Next(before, Observed(generations[k])), Failure(generations[k]));
            answer == if k < c.maximum then Some(Restart(k + 1))
                      else if k == c.maximum then Some(DisablePlugin) else None
  {
    CrashedSoFar(c, generations[..k]);
  }

  /** A late failure of an earlier process changes nothing: not right after an explicit restart or while switched
      off, and not once another generation is observed. */
  lemma LateFailureIsIgnored(c: Controller, g: nat, current: nat)
    requires g != current
    ensures var again, off := Next(c, ManuallyRestarted), Next(c, SwitchedOff);
            var seen := Next(again, Observed(current));
            && Answer(again, Failure(g)) == Answer(off, Failure(g)) == Answer(seen, Failure(g)) == None
            && Next(again, Failure(g)) == again && Next(off, Failure(g)) == off && Next(seen, Failure(g)) == seen
            && off.generation == None
  {
  }
}
