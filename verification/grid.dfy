/**
 * The simulation as the program runs it: one object holding the global state,
 * whose methods update it in place the way the helper functions, the frame
 * loop and the control-panel handlers do. Every method is proved to compute
 * the corresponding World-to-World function, so everything proved about those
 * functions (the invariant Valid, the scheduler and state-machine rules, the
 * effect of each intent) holds of the object too.
 */
module GridLoop {
  import opened EventLog
  import opened Packets
  import opened Houses
  import opened Simulation
  import opened OverloadScheduler
  import opened HouseStep
  import opened OperatorIntents

  /** The sixteen trunk circles of start-up, in the order they are pushed. */
  method BuildTrunkFlow() returns (trunk: seq<Circle>)
    ensures trunk == InitialAnimatedCircles()
  {
    trunk := [];
    // generator to the two transmitters: four staggered pairs
    for i := 0 to 4
      invariant |trunk| == 2 * i
      invariant forall k :: 0 <= k < |trunk| ==> trunk[k] == Circle(2.0, (k / 2) as real * 0.5, NoHouse, true)
    {
      trunk := trunk + [Circle(2.0, i as real * 0.5, NoHouse, true), Circle(2.0, i as real * 0.5, NoHouse, true)];
    }
    // transmitters to the houses: two staggered rounds over houses 0..3
    for i := 0 to 2
      invariant |trunk| == 8 + 4 * i
      invariant forall k :: 0 <= k < 8 ==> trunk[k] == Circle(2.0, (k / 2) as real * 0.5, NoHouse, true)
      invariant forall k :: 8 <= k < |trunk| ==> trunk[k] == Circle(1.5, ((k - 8) / 4) as real * 0.75 + 2.0, (k - 8) % 4, true)
    {
      var delay := i as real * 0.75 + 2.0;
      trunk := trunk + [Circle(1.5, delay, 0, true), Circle(1.5, delay, 1, true),
                        Circle(1.5, delay, 2, true), Circle(1.5, delay, 3, true)];
    }
  }

  class Grid {
    var houses: seq<House>
    var animatedCircles: seq<Circle>
    var overloadCircles: seq<Circle>
    var log: seq<string>
    var houseIndexToCutPower: int
    var lastOverloadEventTime: real

    /** The object's fields as one value. */
    function State(): World
      reads this
    {
      World(houses, animatedCircles, overloadCircles, log, houseIndexToCutPower, lastOverloadEventTime)
    }

    /** Start-up: four NORMAL houses, the sixteen trunk circles and the first log line. */
    constructor ()
      ensures State() == InitialWorld()
    {
      houses := [InitialHouse("House 1"), InitialHouse("House 2"), InitialHouse("House 3"), InitialHouse("House 4")];
      var trunk := BuildTrunkFlow();
      animatedCircles := trunk;
      overloadCircles := [];
      log := [];
      houseIndexToCutPower := NoPrompt;
      lastOverloadEventTime := -OverloadInterval;
      new;
      AddLog("Simulation started.");
    }

    /** Append a message to the log, keeping only the newest Capacity entries. */
    method AddLog(m: string)
      modifies this
      ensures State() == AfterAddLog(old(State()), m)
    {
      log := log + [m];
      if |log| > Capacity {
        log := log[1..];
      }
    }

    /** Push the two overload circles for house h, then log it. */
    method SpawnOverloadCircles(h: nat)
      requires h < |houses|
      modifies this
      ensures State() == AfterSpawn(old(State()), h)
    {
      for i := 0 to 2
        invariant State() == old(State()).(overloadCircles := old(overloadCircles) + OverloadPair(h)[..i])
      {
        overloadCircles := overloadCircles + [Circle(OverloadPathDuration, i as real * OverloadStagger, h, true)];
      }
      AddLog("Spawned 2 overload circles for " + houses[h].name);
    }

    /** Remove every overload circle aimed at house h, keeping the others in order, then log it. */
    method ClearOverloadCirclesForHouse(h: nat)
      requires h < |houses|
      modifies this
      ensures State() == AfterClear(old(State()), h)
    {
      var kept: seq<Circle> := [];
      for k := 0 to |overloadCircles|
        invariant kept == WithoutTarget(overloadCircles[..k], h)
      {
        assert overloadCircles[..k + 1][..k] == overloadCircles[..k];
        if overloadCircles[k].targetHouseIndex != h {
          kept := kept + [overloadCircles[k]];
        }
      }
      assert overloadCircles[..|overloadCircles|] == overloadCircles;
      overloadCircles := kept;
      AddLog("Cleared overload circles for " + houses[h].name);
    }

    /** The overload event, when OverloadInterval seconds have passed since the last one. */
    method RunScheduler(now: real, pick: nat)
      modifies this
      ensures State() == AfterScheduler(old(State()), now, pick)
      ensures |houses| == old(|houses|)
    {
      if now - lastOverloadEventTime >= OverloadInterval {
        lastOverloadEventTime := now;
        ResetForNewCycle();
        houseIndexToCutPower := NoPrompt;
        assert State() == AfterReset(old(State()), now);
        var available := AvailableHouses();
        if |available| > 0 {
          var chosen := available[pick % |available|];
          ForceOverloadAt(chosen, now);
        } else {
          AddLog("No available houses to overload. All are in POWER_CUT or COOLDOWN.");
        }
      }
    }

    /** The reset loop of an overload event: every house not shedding load back to NORMAL, circles cleared. */
    method ResetForNewCycle()
      modifies this
      ensures State() == ResetFrom(old(State()), 0)
      ensures |houses| == old(|houses|)
    {
      ghost var w0 := State();
      var i := 0;
      while i < |houses|
        invariant i <= |houses| == |w0.houses|
        invariant ResetFrom(State(), i) == ResetFrom(w0, 0)
      {
        ResetHouseAt(i);
        i := i + 1;
      }
    }

    /** One iteration of the reset loop: house i back to NORMAL without a prompt and its circles cleared, unless it is shedding load. */
    method ResetHouseAt(i: nat)
      requires i < |houses|
      modifies this
      ensures State() == ResetHouse(old(State()), i)
    {
      var house := houses[i];
      if house.state != PowerCut && house.state != Cooldown {
        if house.state != Normal {
          AddLog(house.name + " reset to NORMAL for new cycle.");
        }
        houses := houses[i := house.(state := Normal, showPowerCutPrompt := false)];
        ClearOverloadCirclesForHouse(i);
      }
    }

    /** Indices of the houses in NORMAL or WARNING, in ascending order. */
    method AvailableHouses() returns (available: seq<nat>)
      ensures available == EligibleBelow(houses, |houses|)
      ensures forall k :: 0 <= k < |available| ==> available[k] < |houses| && IsEligible(houses[available[k]].state)
      ensures forall i :: 0 <= i < |houses| && IsEligible(houses[i].state) ==> i in available
    {
      var hs := houses;
      available := [];
      for j := 0 to |hs|
        invariant available == EligibleBelow(hs, j)
      {
        if hs[j].state == Normal || hs[j].state == Warning {
          available := available + [j];
        }
      }
      assert hs == houses;
    }

    /** Force house idx into OVERLOADED with a prompt, and spawn its circles. */
    method ForceOverloadAt(idx: nat, now: real)
      requires idx < |houses|
      modifies this
      ensures State() == ForceOverload(old(State()), idx, now)
    {
      var house := houses[idx];
      houses := houses[idx := house.(state := Overloaded, stateChangeTime := now,
                                    showPowerCutPrompt := true, isManualCut := false)];
      houseIndexToCutPower := idx;
      AddLog("FORCING " + house.name + " into OVERLOADED state.");
      SpawnOverloadCircles(idx);
    }

    /** One iteration of the per-house loop: load update, then the state switch. */
    method StepHouseAt(i: nat, now: real, fluctuation: real)
      requires i < |houses|
      modifies this
      ensures State() == StepHouse(old(State()), i, now, fluctuation)
    {
      if houses[i].state != PowerCut {
        houses := houses[i := houses[i].(currentLoad := FluctuatingLoad(houses[i].maxLoad, fluctuation))];
      } else {
        houses := houses[i := houses[i].(currentLoad := 0.0)];
      }
      SwitchAt(i, now);
    }

    /** The state switch for house i: colour of its current state, then at most one transition. */
    method SwitchAt(i: nat, now: real)
      requires i < |houses|
      modifies this
      ensures State() == SwitchHouse(old(State()), i, now)
    {
      match houses[i].state {
        case Normal =>
          houses := houses[i := houses[i].(colour := Green)];
        case Warning =>
          SwitchWarning(i, now);
        case Overloaded =>
          SwitchOverloaded(i, now);
        case PowerCut =>
          SwitchPowerCut(i, now);
        case Cooldown =>
          SwitchCooldown(i, now);
      }
    }

    /** The WARNING arm of the switch: yellow, back to NORMAL once the load drops below the warning threshold. */
    method SwitchWarning(i: nat, now: real)
      requires i < |houses| && houses[i].state == Warning
      modifies this
      ensures State() == SwitchHouse(old(State()), i, now)
    {
      var house := houses[i];
      if house.currentLoad < house.warningThreshold {
        house := house.(state := Normal, stateChangeTime := now);
        AddLog(house.name + " returned to NORMAL from WARNING (load dropped).");
      }
      houses := houses[i := house.(colour := Yellow)];
    }

    /** The OVERLOADED arm: red, cut automatically 10 s after entry unless the prompt is still shown. */
    method SwitchOverloaded(i: nat, now: real)
      requires i < |houses| && houses[i].state == Overloaded
      modifies this
      ensures State() == SwitchHouse(old(State()), i, now)
    {
      var house := houses[i];
      if !house.showPowerCutPrompt && now - house.stateChangeTime >= AutoCutDelay {
        house := house.(state := PowerCut, stateChangeTime := now, isManualCut := false);
        AddLog(house.name + ": Automatic power cut due to prolonged overload.");
        ClearOverloadCirclesForHouse(i);
      }
      houses := houses[i := house.(colour := Red)];
    }

    /** The POWER_CUT arm: dark grey, into COOLDOWN after 5 s. */
    method SwitchPowerCut(i: nat, now: real)
      requires i < |houses| && houses[i].state == PowerCut
      modifies this
      ensures State() == SwitchHouse(old(State()), i, now)
    {
      var house := houses[i];
      if now - house.stateChangeTime >= PowerCutDuration {
        house := house.(state := Cooldown, stateChangeTime := now);
        AddLog(house.name + ": Power cut cooldown started.");
      }
      houses := houses[i := house.(colour := DarkGray)];
    }

    /** The COOLDOWN arm: grey, back to NORMAL after 5 s. */
    method SwitchCooldown(i: nat, now: real)
      requires i < |houses| && houses[i].state == Cooldown
      modifies this
      ensures State() == SwitchHouse(old(State()), i, now)
    {
      var house := houses[i];
      if now - house.stateChangeTime >= CooldownDuration {
        house := house.(state := Normal, stateChangeTime := now);
        AddLog(house.name + ": Power restored. Returning to NORMAL.");
      }
      houses := houses[i := house.(colour := Gray)];
    }

    /** The per-house loop of one frame; `fluctuations[i]` is house i's load factor. */
    method StepHouses(now: real, fluctuations: seq<real>)
      requires |fluctuations| == |houses|
      modifies this
      ensures State() == AfterStep(old(State()), now, fluctuations)
    {
      ghost var w0 := State();
      for i := 0 to |fluctuations|
        invariant |houses| == |fluctuations|
        invariant StepFrom(State(), now, fluctuations, i) == StepFrom(w0, now, fluctuations, 0)
      {
        StepHouseAt(i, now, fluctuations[i]);
      }
    }

    /** The simulation part of one frame: the overload event, then the per-house loop. */
    method Frame(now: real, pick: nat, fluctuations: seq<real>)
      requires |fluctuations| == |houses|
      modifies this
      ensures State() == AfterStep(AfterScheduler(old(State()), now, pick), now, fluctuations)
      ensures Valid(old(State())) ==> Valid(State())
    {
      ghost var w0 := State();
      RunScheduler(now, pick);
      StepHouses(now, fluctuations);
      if Valid(w0) {
        SchedulerKeepsValid(w0, now, pick);
        StepKeepsValid(AfterScheduler(w0, now, pick), now, fluctuations);
      }
    }

    /** The "Manual Shed" button of house i. */
    method ManualShed(i: nat, now: real)
      requires i < |houses|
      modifies this
      ensures State() == AfterManualShed(old(State()), i, now)
      ensures Valid(old(State())) ==> Valid(State())
    {
      if houses[i].state == Overloaded {
        var house := houses[i];
        houses := houses[i := house.(state := PowerCut, stateChangeTime := now,
                                    isManualCut := true, showPowerCutPrompt := false)];
        AddLog(house.name + ": Manual power cut initiated.");
        ClearOverloadCirclesForHouse(i);
        if Valid(old(State())) {
          ManualShedKeepsValid(old(State()), i, now);
        }
      }
    }

    /** "Yes, Cut Power" in the confirmation dialog. */
    method ConfirmCut(now: real)
      requires NoPrompt <= houseIndexToCutPower < |houses|
      modifies this
      ensures State() == AfterConfirmCut(old(State()), now)
      ensures Valid(old(State())) ==> Valid(State())
    {
      if houseIndexToCutPower != NoPrompt && houses[houseIndexToCutPower].showPowerCutPrompt {
        var i := houseIndexToCutPower;
        var house := houses[i];
        houses := houses[i := house.(state := PowerCut, stateChangeTime := now,
                                    isManualCut := true, showPowerCutPrompt := false)];
        AddLog(house.name + ": Manual power cut confirmed.");
        ClearOverloadCirclesForHouse(i);
        houseIndexToCutPower := NoPrompt;
      }
      if Valid(old(State())) {
        ConfirmCutKeepsValid(old(State()), now);
      }
    }

    /** "No, Continue" in the confirmation dialog. */
    method Decline()
      requires NoPrompt <= houseIndexToCutPower < |houses|
      modifies this
      ensures State() == AfterDecline(old(State()))
      ensures Valid(old(State())) ==> Valid(State())
    {
      if houseIndexToCutPower != NoPrompt && houses[houseIndexToCutPower].showPowerCutPrompt {
        var i := houseIndexToCutPower;
        var house := houses[i];
        houses := houses[i := house.(showPowerCutPrompt := false)];
        AddLog(house.name + ": Manual power cut declined. Monitoring...");
        houseIndexToCutPower := NoPrompt;
      }
      if Valid(old(State())) {
        DeclineKeepsValid(old(State()));
      }
    }

    /**
     * The drawn size of every trunk circle this frame: zero for a circle whose
     * house is in POWER_CUT, the normal size otherwise.
     */
    method TrunkCircleSizes() returns (sizes: seq<real>)
      requires forall c :: c in animatedCircles ==> c.targetHouseIndex == NoHouse || 0 <= c.targetHouseIndex < |houses|
      ensures |sizes| == |animatedCircles|
      ensures forall k :: 0 <= k < |sizes| ==>
        (sizes[k] == 0.0 <==> animatedCircles[k].targetHouseIndex != NoHouse && houses[animatedCircles[k].targetHouseIndex].state == PowerCut)
      ensures forall k :: 0 <= k < |sizes| ==> sizes[k] == 0.0 || sizes[k] == CircleSize
    {
      sizes := [];
      for k := 0 to |animatedCircles|
        invariant |sizes| == k
        invariant forall j :: 0 <= j < k ==> sizes[j] == TrunkCircleSize(State(), animatedCircles[j])
      {
        var c := animatedCircles[k];
        assert c in animatedCircles;
        if c.targetHouseIndex != NoHouse && houses[c.targetHouseIndex].state == PowerCut {
          sizes := sizes + [0.0];
        } else {
          sizes := sizes + [CircleSize];
        }
      }
    }
  }
}
