/**
 * The per-house state machine, run for every house once per frame after the
 * overload scheduler: the load is updated, then at most one timed or
 * load-driven transition is taken.
 */
module HouseStep {
  import opened EventLog
  import opened Packets
  import opened Houses
  import opened Simulation

  /** The state a house moves to when its transition is due. */
  function Successor(s: HouseState): HouseState {
    match s
    case Normal => Normal
    case Warning => Normal
    case Overloaded => PowerCut
    case PowerCut => Cooldown
    case Cooldown => Normal
  }

  /** Whether the house, after its load update, takes its transition at time `now`. */
  predicate TransitionDue(h: House, now: real) {
    match h.state
    case Normal => false
    case Warning => h.currentLoad < h.warningThreshold
    case Overloaded => !h.showPowerCutPrompt && now - h.stateChangeTime >= AutoCutDelay
    case PowerCut => now - h.stateChangeTime >= PowerCutDuration
    case Cooldown => now - h.stateChangeTime >= CooldownDuration
  }

  /**
   * The state-machine switch for a house whose load has been updated: colour
   * set to that of its current state, then its transition taken if due.
   */
  function Settle(h: House, now: real): House {
    var coloured := h.(colour := SceneColour(h.state));
    if TransitionDue(h, now) then
      coloured.(state := Successor(h.state), stateChangeTime := now,
                isManualCut := h.isManualCut && h.state != Overloaded)
    else coloured
  }

  /**
   * The house after one frame: load updated, colour set to that of the state it
   * was in when the frame started, and its transition taken if due.
   */
  function NextHouse(o: House, now: real, fluctuation: real): House {
    Settle(UpdateLoad(o, fluctuation), now)
  }

  /** The log line for a transition out of `from`. */
  function TransitionMessage(name: string, from: HouseState): string {
    match from
    case Normal => name
    case Warning => name + " returned to NORMAL from WARNING (load dropped)."
    case Overloaded => name + ": Automatic power cut due to prolonged overload."
    case PowerCut => name + ": Power cut cooldown started."
    case Cooldown => name + ": Power restored. Returning to NORMAL."
  }

  /**
   * The switch of the per-house loop for house i, whose load is already
   * updated: a transition is logged and, out of OVERLOADED, clears the house's
   * circles; the house's new colour and state are written.
   */
  function SwitchHouse(w: World, i: nat, now: real): (r: World)
    requires i < |w.houses|
    ensures |r.houses| == |w.houses|
  {
    var h := w.houses[i];
    var n := Settle(h, now);
    var logged := if n.state == h.state then w else AfterAddLog(w, TransitionMessage(h.name, h.state));
    var cleared := if n.state != h.state && h.state == Overloaded then AfterClear(logged, i) else logged;
    SetHouse(cleared, i, n)
  }

  /** One iteration of the per-house loop, for house i: the load update, then the switch. */
  function StepHouse(w: World, i: nat, now: real, fluctuation: real): (r: World)
    requires i < |w.houses|
    ensures |r.houses| == |w.houses|
  {
    SwitchHouse(SetHouse(w, i, UpdateLoad(w.houses[i], fluctuation)), i, now)
  }

  /** The per-house loop over houses i, i+1, ...; `fluctuations[j]` is house j's load factor. */
  function StepFrom(w: World, now: real, fluctuations: seq<real>, i: nat): (r: World)
    requires i <= |w.houses| == |fluctuations|
    ensures |r.houses| == |w.houses|
    decreases |w.houses| - i
  {
    if i == |w.houses| then w else StepFrom(StepHouse(w, i, now, fluctuations[i]), now, fluctuations, i + 1)
  }

  /** The whole per-house loop of one frame. */
  function AfterStep(w: World, now: real, fluctuations: seq<real>): (r: World)
    requires |w.houses| == |fluctuations|
    ensures |r.houses| == |w.houses|
  {
    StepFrom(w, now, fluctuations, 0)
  }

  // ---------------------------------------------------------------------------
  // One house
  // ---------------------------------------------------------------------------

  /**
   * The transition rules of one house in one frame: at most one transition;
   * OVERLOADED is cut exactly when the prompt is dismissed and 10 s have passed
   * (so a shown prompt blocks the automatic cut); POWER_CUT and COOLDOWN each last
   * 5 s; NORMAL never moves on its own; a transition stamps `now`.
   */
  lemma StateMachineRules(o: House, now: real, f: real)
    ensures var n := NextHouse(o, now, f);
      && (n.state == o.state || n.state == Successor(o.state))
      && (o.state == Normal ==> n.state == Normal)
      && (o.state == Overloaded ==>
            (n.state == PowerCut <==> !o.showPowerCutPrompt && now - o.stateChangeTime >= AutoCutDelay))
      && (o.state == Overloaded && o.showPowerCutPrompt ==> n.state == Overloaded)
      && (o.state == PowerCut ==> (n.state == Cooldown <==> now - o.stateChangeTime >= PowerCutDuration))
      && (o.state == Cooldown ==> (n.state == Normal <==> now - o.stateChangeTime >= CooldownDuration))
      && (o.state == Warning ==> (n.state == Normal <==> n.currentLoad < o.warningThreshold))
      && n.stateChangeTime == (if n.state != o.state then now else o.stateChangeTime)
  {
  }

  /**
   * What else a frame does to a house: the automatic cut is never manual, the
   * prompt and capacities are untouched, the colour is that of the state the frame
   * started in, a house that was in POWER_CUT has load 0, and the load stays
   * within capacity.
   */
  lemma StateMachineSideEffects(o: House, now: real, f: real)
    ensures var n := NextHouse(o, now, f);
      && (o.state == Overloaded && n.state == PowerCut ==> !n.isManualCut)
      && n.isManualCut == (o.isManualCut && !(o.state == Overloaded && n.state == PowerCut))
      && n.showPowerCutPrompt == o.showPowerCutPrompt
      && n.name == o.name && n.maxLoad == o.maxLoad
      && n.warningThreshold == o.warningThreshold && n.overloadThreshold == o.overloadThreshold
      && n.colour == SceneColour(o.state)
      && (o.state == PowerCut ==> n.currentLoad == 0.0)
      && (HouseValid(o) ==> HouseValid(n))
  {
  }

  /** Polling twice at the same instant takes no second transition. */
  lemma NextHouseSettles(o: House, now: real, f: real)
    ensures var n := NextHouse(o, now, f);
      var n2 := NextHouse(n, now, f);
      && n2.state == n.state
      && n2.stateChangeTime == n.stateChangeTime
      && n2.showPowerCutPrompt == n.showPowerCutPrompt
      && n2.isManualCut == n.isManualCut
  {
    var n := NextHouse(o, now, f);
    if n.state == Warning {
      assert UpdateLoad(n, f).currentLoad == UpdateLoad(o, f).currentLoad;
    }
  }

  // ---------------------------------------------------------------------------
  // One iteration of the loop, and the loop
  // ---------------------------------------------------------------------------

  /** One iteration changes only house i, as the state machine says. */
  lemma StepHouseHouses(w: World, i: nat, now: real, f: real)
    requires i < |w.houses|
    ensures StepHouse(w, i, now, f).houses == w.houses[i := NextHouse(w.houses[i], now, f)]
  {
  }

  /** One iteration leaves the trunk flow, the prompted index and the scheduler clock alone. */
  lemma StepHouseFrame(w: World, i: nat, now: real, f: real)
    requires i < |w.houses|
    ensures var r := StepHouse(w, i, now, f);
      && r.animatedCircles == w.animatedCircles
      && r.houseIndexToCutPower == w.houseIndexToCutPower
      && r.lastOverloadEventTime == w.lastOverloadEventTime
      && (NextHouse(w.houses[i], now, f).state == w.houses[i].state ==> r.log == w.log && r.overloadCircles == w.overloadCircles)
      && (|w.log| <= Capacity ==> |r.log| <= Capacity)
  {
  }

  /** Whether a frame at `now` cuts the OVERLOADED house `o` automatically. */
  predicate AutoCut(o: House, now: real, f: real) {
    o.state == Overloaded && NextHouse(o, now, f).state == PowerCut
  }

  /** One iteration removes house i's circles exactly when it cuts house i. */
  lemma StepHouseCircles(w: World, i: nat, now: real, f: real)
    requires i < |w.houses|
    ensures var r := StepHouse(w, i, now, f);
      && (forall k :: CountFor(r.overloadCircles, k) ==
            if k == i && AutoCut(w.houses[i], now, f) then 0 else CountFor(w.overloadCircles, k))
      && (forall c :: c in r.overloadCircles ==> c in w.overloadCircles)
  {
    var o := w.houses[i];
    var n := NextHouse(o, now, f);
    if n.state != o.state && o.state == Overloaded {
      var logged := AfterAddLog(SetHouse(w, i, n), TransitionMessage(o.name, o.state));
      ClearRemovesHouseCircles(logged, i);
    }
  }

  /** The loop from i on leaves house j alone if j < i and applies the state machine to it otherwise. */
  lemma {:induction false} StepFromHouse(w: World, now: real, fs: seq<real>, i: nat, j: nat)
    requires i <= |w.houses| == |fs| && j < |w.houses|
    ensures StepFrom(w, now, fs, i).houses[j] == if j < i then w.houses[j] else NextHouse(w.houses[j], now, fs[j])
    decreases |w.houses| - i
  {
    if i < |w.houses| {
      var w' := StepHouse(w, i, now, fs[i]);
      StepFromFirst(w, now, fs, i);
      StepHouseHouses(w, i, now, fs[i]);
      StepFromHouse(w', now, fs, i + 1, j);
    }
  }

  lemma StepFromHouses(w: World, now: real, fs: seq<real>, i: nat)
    requires i <= |w.houses| == |fs|
    ensures forall j :: 0 <= j < i ==> StepFrom(w, now, fs, i).houses[j] == w.houses[j]
    ensures forall j :: i <= j < |w.houses| ==> StepFrom(w, now, fs, i).houses[j] == NextHouse(w.houses[j], now, fs[j])
  {
    forall j | 0 <= j < |w.houses| {
      StepFromHouse(w, now, fs, i, j);
    }
  }

  lemma {:induction false} StepFromFrame(w: World, now: real, fs: seq<real>, i: nat)
    requires i <= |w.houses| == |fs|
    ensures StepFrom(w, now, fs, i).animatedCircles == w.animatedCircles
    ensures StepFrom(w, now, fs, i).houseIndexToCutPower == w.houseIndexToCutPower
    ensures StepFrom(w, now, fs, i).lastOverloadEventTime == w.lastOverloadEventTime
    ensures |w.log| <= Capacity ==> |StepFrom(w, now, fs, i).log| <= Capacity
    decreases |w.houses| - i
  {
    if i < |w.houses| {
      var w' := StepHouse(w, i, now, fs[i]);
      StepHouseFrame(w, i, now, fs[i]);
      StepFromFrame(w', now, fs, i + 1);
      assert StepFrom(w, now, fs, i) == StepFrom(w', now, fs, i + 1);
    }
  }

  /** The loop from i is iteration i followed by the loop from i + 1. */
  lemma StepFromFirst(w: World, now: real, fs: seq<real>, i: nat)
    requires i < |w.houses| == |fs|
    ensures StepFrom(w, now, fs, i) == StepFrom(StepHouse(w, i, now, fs[i]), now, fs, i + 1)
  {
  }

  /** Iteration i leaves every other house as it is. */
  lemma StepHouseOther(w: World, i: nat, now: real, f: real, k: nat)
    requires i < |w.houses| && k < |w.houses| && k != i
    ensures StepHouse(w, i, now, f).houses[k] == w.houses[k]
  {
    StepHouseHouses(w, i, now, f);
  }

  /** Iteration i changes house k's circle count only when it cuts house k = i. */
  lemma StepHouseCount(w: World, i: nat, now: real, f: real, k: int)
    requires i < |w.houses|
    ensures CountFor(StepHouse(w, i, now, f).overloadCircles, k) ==
              if k == i && AutoCut(w.houses[i], now, f) then 0 else CountFor(w.overloadCircles, k)
  {
    StepHouseCircles(w, i, now, f);
  }

  /** A house that is cut loses its overload circles; every other house keeps its count. */
  lemma {:induction false} StepFromCircles(w: World, now: real, fs: seq<real>, i: nat, k: int)
    requires i <= |w.houses| == |fs|
    ensures CountFor(StepFrom(w, now, fs, i).overloadCircles, k) ==
              if i <= k < |w.houses| && AutoCut(w.houses[k], now, fs[k]) then 0 else CountFor(w.overloadCircles, k)
    decreases |w.houses| - i
  {
    if i < |w.houses| {
      var w' := StepHouse(w, i, now, fs[i]);
      StepFromFirst(w, now, fs, i);
      StepHouseCount(w, i, now, fs[i], k);
      StepFromCircles(w', now, fs, i + 1, k);
      if i + 1 <= k < |w.houses| {
        StepHouseOther(w, i, now, fs[i], k);
      }
    }
  }

  /** The loop adds no overload circle. */
  lemma {:induction false} StepFromCirclesShrink(w: World, now: real, fs: seq<real>, i: nat, c: Circle)
    requires i <= |w.houses| == |fs|
    ensures c in StepFrom(w, now, fs, i).overloadCircles ==> c in w.overloadCircles
    decreases |w.houses| - i
  {
    if i < |w.houses| {
      var w' := StepHouse(w, i, now, fs[i]);
      StepFromFirst(w, now, fs, i);
      StepHouseCircles(w, i, now, fs[i]);
      StepFromCirclesShrink(w', now, fs, i + 1, c);
    }
  }

  /** When no house from i on takes a transition, the loop leaves circles and log alone. */
  lemma {:induction false} StepFromQuiet(w: World, now: real, fs: seq<real>, i: nat)
    requires i <= |w.houses| == |fs|
    requires forall j :: i <= j < |w.houses| ==> NextHouse(w.houses[j], now, fs[j]).state == w.houses[j].state
    ensures StepFrom(w, now, fs, i).overloadCircles == w.overloadCircles
    ensures StepFrom(w, now, fs, i).log == w.log
    decreases |w.houses| - i
  {
    if i < |w.houses| {
      var w' := StepHouse(w, i, now, fs[i]);
      StepFromFirst(w, now, fs, i);
      StepHouseHouses(w, i, now, fs[i]);
      StepHouseFrame(w, i, now, fs[i]);
      assert forall j :: i + 1 <= j < |w.houses| ==> w'.houses[j] == w.houses[j];
      StepFromQuiet(w', now, fs, i + 1);
    }
  }

  // ---------------------------------------------------------------------------
  // The frame
  // ---------------------------------------------------------------------------

  /** What one frame does to a house, as far as the invariant is concerned. */
  lemma NextHouseKeeps(o: House, now: real, f: real)
    requires o.showPowerCutPrompt ==> o.state == Overloaded
    ensures var n := NextHouse(o, now, f);
      && (HouseValid(o) ==> HouseValid(n))
      && (n.showPowerCutPrompt ==> o.showPowerCutPrompt && n.state == o.state)
      && (n.state == Overloaded ==> o.state == Overloaded)
      && (n.stateChangeTime == o.stateChangeTime || n.stateChangeTime == now)
  {
    StateMachineRules(o, now, f);
    StateMachineSideEffects(o, now, f);
  }

  /** Every house after the loop is valid, prompted only if it was and still is OVERLOADED, and OVERLOADED only if it was. */
  lemma StepHousesKeep(w: World, now: real, fs: seq<real>)
    requires Valid(w) && |fs| == |w.houses|
    ensures var r := AfterStep(w, now, fs);
      forall j :: 0 <= j < |w.houses| ==>
        && HouseValid(r.houses[j])
        && (r.houses[j].showPowerCutPrompt ==> w.houses[j].showPowerCutPrompt && r.houses[j].state == w.houses[j].state)
        && (r.houses[j].state == Overloaded ==> w.houses[j].state == Overloaded)
  {
    StepFromHouses(w, now, fs, 0);
    forall j | 0 <= j < |w.houses| {
      NextHouseKeeps(w.houses[j], now, fs[j]);
    }
  }

  /** After the loop the overloaded house still has exactly its two circles and every other house none. */
  lemma StepCirclesKeep(w: World, now: real, fs: seq<real>)
    requires Valid(w) && |fs| == |w.houses|
    ensures CirclesMatchOverloads(AfterStep(w, now, fs))
    ensures forall c :: c in AfterStep(w, now, fs).overloadCircles ==> c in w.overloadCircles
  {
    var r := AfterStep(w, now, fs);
    StepFromHouses(w, now, fs, 0);
    forall c | c in r.overloadCircles ensures c in w.overloadCircles {
      StepFromCirclesShrink(w, now, fs, 0, c);
    }
    forall j | 0 <= j < |w.houses|
      ensures CountFor(r.overloadCircles, j) == if r.houses[j].state == Overloaded then 2 else 0
    {
      StepFromCircles(w, now, fs, 0, j);
      StateMachineRules(w.houses[j], now, fs[j]);
    }
  }

  /**
   * The per-house loop of a frame applies the state machine to every house
   * independently and keeps the simulation invariant.
   */
  lemma StepKeepsValid(w: World, now: real, fs: seq<real>)
    requires Valid(w) && |fs| == |w.houses|
    ensures forall j :: 0 <= j < |w.houses| ==> AfterStep(w, now, fs).houses[j] == NextHouse(w.houses[j], now, fs[j])
    ensures Valid(AfterStep(w, now, fs))
  {
    var r := AfterStep(w, now, fs);
    StepFromHouses(w, now, fs, 0);
    StepFromFrame(w, now, fs, 0);
    StepHousesKeep(w, now, fs);
    StepCirclesKeep(w, now, fs);
    assert PromptsConsistent(r);
    assert AtMostOneOverloaded(r.houses);
  }

  /** Timestamps written by the loop never move past `now`, and never back. */
  lemma StepKeepsTimes(w: World, now: real, fs: seq<real>)
    requires |fs| == |w.houses|
    requires TimesNotAfter(w, now)
    ensures TimesNotAfter(AfterStep(w, now, fs), now)
    ensures forall j :: 0 <= j < |w.houses| ==> w.houses[j].stateChangeTime <= AfterStep(w, now, fs).houses[j].stateChangeTime
  {
    StepFromHouses(w, now, fs, 0);
    forall j | 0 <= j < |w.houses| {
      StateMachineRules(w.houses[j], now, fs[j]);
    }
  }

  /**
   * Running the per-house loop twice at the same instant gives the same states,
   * timestamps, flags, circles and log as running it once (only the loads of
   * houses that have just been cut differ: they drop to 0).
   */
  lemma StepTwiceSameInstant(w: World, now: real, fs: seq<real>)
    requires |fs| == |w.houses|
    ensures var r := AfterStep(w, now, fs);
      var r2 := AfterStep(r, now, fs);
      && (forall j :: 0 <= j < |w.houses| ==>
            && r2.houses[j].state == r.houses[j].state
            && r2.houses[j].stateChangeTime == r.houses[j].stateChangeTime
            && r2.houses[j].showPowerCutPrompt == r.houses[j].showPowerCutPrompt
            && r2.houses[j].isManualCut == r.houses[j].isManualCut)
      && r2.overloadCircles == r.overloadCircles
      && r2.log == r.log
      && r2.houseIndexToCutPower == r.houseIndexToCutPower
  {
    var r := AfterStep(w, now, fs);
    StepFromHouses(w, now, fs, 0);
    StepFromHouses(r, now, fs, 0);
    StepFromFrame(r, now, fs, 0);
    forall j | 0 <= j < |w.houses| ensures NextHouse(r.houses[j], now, fs[j]).state == r.houses[j].state {
      NextHouseSettles(w.houses[j], now, fs[j]);
    }
    forall j | 0 <= j < |w.houses|
      ensures var r2 := AfterStep(r, now, fs);
        && r2.houses[j].state == r.houses[j].state
        && r2.houses[j].stateChangeTime == r.houses[j].stateChangeTime
        && r2.houses[j].showPowerCutPrompt == r.houses[j].showPowerCutPrompt
        && r2.houses[j].isManualCut == r.houses[j].isManualCut
    {
      NextHouseSettles(w.houses[j], now, fs[j]);
    }
    StepFromQuiet(r, now, fs, 0);
  }
}
