/**
 * The overload scheduler: once every OverloadInterval seconds it resets the
 * houses that are not shedding load and forces one eligible house into
 * OVERLOADED. The random choice is an input: `pick` stands for the value of
 * rand(), and the chosen house is the (pick mod n)-th eligible one.
 */
module OverloadScheduler {
  import opened EventLog
  import opened Packets
  import opened Houses
  import opened Simulation

  /** Whether the scheduler fires at time `now`. */
  predicate Fires(w: World, now: real) {
    now - w.lastOverloadEventTime >= OverloadInterval
  }

  /** What the reset does to one house: unless it is shedding load, it is NORMAL again without a prompt. */
  function ResetState(h: House): House {
    if IsProtected(h.state) then h else h.(state := Normal, showPowerCutPrompt := false)
  }

  /** The reset of house i: state, prompt, overload circles, and a log line if its state changes. */
  function ResetHouse(w: World, i: nat): (r: World)
    requires i < |w.houses|
    ensures |r.houses| == |w.houses|
  {
    var h := w.houses[i];
    if IsProtected(h.state) then w
    else
      var logged := if h.state != Normal then AfterAddLog(w, h.name + " reset to NORMAL for new cycle.") else w;
      AfterClear(SetHouse(logged, i, ResetState(h)), i)
  }

  /** The reset loop over houses i, i+1, ... */
  function ResetFrom(w: World, i: nat): (r: World)
    requires i <= |w.houses|
    ensures |r.houses| == |w.houses|
    decreases |w.houses| - i
  {
    if i == |w.houses| then w else ResetFrom(ResetHouse(w, i), i + 1)
  }

  /** Indices below n of the houses in NORMAL or WARNING, in ascending order. */
  function EligibleBelow(hs: seq<House>, n: nat): (r: seq<nat>)
    requires n <= |hs|
    ensures forall k :: 0 <= k < |r| ==> r[k] < n && IsEligible(hs[r[k]].state)
    ensures forall i :: 0 <= i < n && IsEligible(hs[i].state) ==> i in r
    ensures forall k, l :: 0 <= k < l < |r| ==> r[k] < r[l]
  {
    if n == 0 then []
    else EligibleBelow(hs, n - 1) + (if IsEligible(hs[n - 1].state) then [n - 1] else [])
  }

  /** The reset part of an overload event: restart the interval, reset the houses, drop the prompt. */
  function AfterReset(w: World, now: real): (r: World)
    ensures |r.houses| == |w.houses|
  {
    ResetFrom(w.(lastOverloadEventTime := now), 0).(houseIndexToCutPower := NoPrompt)
  }

  /** The forcing part of an overload event: the chosen house enters OVERLOADED with a fresh prompt and two overload circles. */
  function ForceOverload(w: World, idx: nat, now: real): (r: World)
    requires idx < |w.houses|
    ensures |r.houses| == |w.houses|
  {
    var h := w.houses[idx];
    var forced := SetHouse(w, idx, h.(state := Overloaded, stateChangeTime := now,
                                      showPowerCutPrompt := true, isManualCut := false));
    AfterSpawn(AfterAddLog(forced.(houseIndexToCutPower := idx),
                           "FORCING " + h.name + " into OVERLOADED state."), idx)
  }

  /** The house an overload event picks (the (pick mod n)-th eligible one after the reset), or NoPrompt. */
  function Chosen(w: World, now: real, pick: nat): (c: int)
    ensures NoPrompt <= c < |w.houses|
  {
    var reset := AfterReset(w, now);
    var avail := EligibleBelow(reset.houses, |reset.houses|);
    if |avail| == 0 then NoPrompt else avail[pick % |avail|]
  }

  /** One run of the scheduler at time `now`. */
  function AfterScheduler(w: World, now: real, pick: nat): (r: World)
    ensures |r.houses| == |w.houses|
  {
    if !Fires(w, now) then w
    else
      var reset := AfterReset(w, now);
      var c := Chosen(w, now, pick);
      if c == NoPrompt then
        AfterAddLog(reset, "No available houses to overload. All are in POWER_CUT or COOLDOWN.")
      else
        ForceOverload(reset, c, now)
  }

  // ---------------------------------------------------------------------------
  // Proofs
  // ---------------------------------------------------------------------------

  /** Resetting house i rewrites that house alone. */
  lemma ResetHouseHouses(w: World, i: nat)
    requires i < |w.houses|
    ensures ResetHouse(w, i).houses == w.houses[i := ResetState(w.houses[i])]
  {
  }

  /** Resetting a house touches neither the trunk circles, the prompted index nor the clock, and keeps the log bound. */
  lemma ResetHouseFrame(w: World, i: nat)
    requires i < |w.houses|
    ensures var r := ResetHouse(w, i);
      && r.animatedCircles == w.animatedCircles
      && r.houseIndexToCutPower == w.houseIndexToCutPower
      && r.lastOverloadEventTime == w.lastOverloadEventTime
      && (|w.log| <= Capacity ==> |r.log| <= Capacity)
  {
  }

  /** Resetting house i removes its overload circles, unless it is shedding load, and no other house's. */
  lemma ResetHouseCircles(w: World, i: nat)
    requires i < |w.houses|
    ensures var r := ResetHouse(w, i);
      && (forall k :: CountFor(r.overloadCircles, k) ==
            if k == i && !IsProtected(w.houses[i].state) then 0 else CountFor(w.overloadCircles, k))
      && (forall c :: c in r.overloadCircles ==> c in w.overloadCircles)
  {
    var h := w.houses[i];
    if !IsProtected(h.state) {
      var logged := if h.state != Normal then AfterAddLog(w, h.name + " reset to NORMAL for new cycle.") else w;
      ClearRemovesHouseCircles(SetHouse(logged, i, ResetState(h)), i);
    }
  }

  /** The reset loop from house i on resets exactly the houses i.. that are not shedding load. */
  lemma {:induction false} ResetFromHouses(w: World, i: nat)
    requires i <= |w.houses|
    ensures forall j :: 0 <= j < i ==> ResetFrom(w, i).houses[j] == w.houses[j]
    ensures forall j :: i <= j < |w.houses| ==> ResetFrom(w, i).houses[j] == ResetState(w.houses[j])
    decreases |w.houses| - i
  {
    if i < |w.houses| {
      var w' := ResetHouse(w, i);
      ResetHouseHouses(w, i);
      ResetFromHouses(w', i + 1);
      assert ResetFrom(w, i) == ResetFrom(w', i + 1);
    }
  }

  /** The reset loop touches no other part of the state than houses, circles and log. */
  lemma {:induction false} ResetFromFrame(w: World, i: nat)
    requires i <= |w.houses|
    ensures ResetFrom(w, i).animatedCircles == w.animatedCircles
    ensures ResetFrom(w, i).houseIndexToCutPower == w.houseIndexToCutPower
    ensures ResetFrom(w, i).lastOverloadEventTime == w.lastOverloadEventTime
    ensures |w.log| <= Capacity ==> |ResetFrom(w, i).log| <= Capacity
    decreases |w.houses| - i
  {
    if i < |w.houses| {
      var w' := ResetHouse(w, i);
      ResetHouseFrame(w, i);
      ResetFromFrame(w', i + 1);
      assert ResetFrom(w, i) == ResetFrom(w', i + 1);
    }
  }

  /** The reset loop from house i on removes the circles of exactly the houses i.. it resets. */
  lemma {:induction false} ResetFromCircles(w: World, i: nat)
    requires i <= |w.houses|
    ensures forall k :: CountFor(ResetFrom(w, i).overloadCircles, k) ==
              if i <= k < |w.houses| && !IsProtected(w.houses[k].state) then 0 else CountFor(w.overloadCircles, k)
    ensures forall c :: c in ResetFrom(w, i).overloadCircles ==> c in w.overloadCircles
    decreases |w.houses| - i
  {
    if i < |w.houses| {
      var w' := ResetHouse(w, i);
      ResetHouseHouses(w, i);
      ResetHouseCircles(w, i);
      ResetFromCircles(w', i + 1);
      assert ResetFrom(w, i) == ResetFrom(w', i + 1);
      forall k ensures CountFor(ResetFrom(w, i).overloadCircles, k) ==
              if i <= k < |w.houses| && !IsProtected(w.houses[k].state) then 0 else CountFor(w.overloadCircles, k)
      {
        if i + 1 <= k < |w.houses| {
          assert w'.houses[k] == w.houses[k];
        }
      }
    }
  }

  /** After the reset, the eligible houses are exactly those that were not shedding load. */
  lemma AfterResetHouses(w: World, now: real)
    ensures var r := AfterReset(w, now);
      && (forall j :: 0 <= j < |w.houses| ==> r.houses[j] == ResetState(w.houses[j]))
      && (forall j :: 0 <= j < |w.houses| ==> (IsEligible(r.houses[j].state) <==> !IsProtected(w.houses[j].state)))
  {
    ResetFromHouses(w.(lastOverloadEventTime := now), 0);
  }

  /** The reset restarts the interval at `now`, drops the prompt, keeps the trunk circles and the log bound. */
  lemma AfterResetFrame(w: World, now: real)
    ensures var r := AfterReset(w, now);
      && r.animatedCircles == w.animatedCircles
      && r.houseIndexToCutPower == NoPrompt
      && r.lastOverloadEventTime == now
      && (|w.log| <= Capacity ==> |r.log| <= Capacity)
  {
    ResetFromFrame(w.(lastOverloadEventTime := now), 0);
  }

  /** The reset removes the overload circles of exactly the houses not shedding load. */
  lemma AfterResetCircles(w: World, now: real)
    ensures var r := AfterReset(w, now);
      && (forall k :: CountFor(r.overloadCircles, k) ==
            if 0 <= k < |w.houses| && !IsProtected(w.houses[k].state) then 0 else CountFor(w.overloadCircles, k))
      && (forall c :: c in r.overloadCircles ==> c in w.overloadCircles)
  {
    ResetFromCircles(w.(lastOverloadEventTime := now), 0);
  }

  /** Forcing a house: it alone changes, it is prompted, and it gains its two overload circles. */
  lemma ForceOverloadEffect(w: World, idx: nat, now: real)
    requires idx < |w.houses|
    ensures var r := ForceOverload(w, idx, now);
      && r.houses == w.houses[idx := w.houses[idx].(state := Overloaded, stateChangeTime := now,
                                                    showPowerCutPrompt := true, isManualCut := false)]
      && r.houseIndexToCutPower == idx
      && r.animatedCircles == w.animatedCircles
      && r.lastOverloadEventTime == w.lastOverloadEventTime
      && (forall k :: CountFor(r.overloadCircles, k) == CountFor(w.overloadCircles, k) + (if k == idx then 2 else 0))
      && (forall c :: c in r.overloadCircles ==> c in w.overloadCircles || c.targetHouseIndex == idx)
      && (|w.log| <= Capacity ==> |r.log| <= Capacity)
  {
    var h := w.houses[idx];
    var forced := SetHouse(w, idx, h.(state := Overloaded, stateChangeTime := now,
                                      showPowerCutPrompt := true, isManualCut := false));
    var logged := AfterAddLog(forced.(houseIndexToCutPower := idx), "FORCING " + h.name + " into OVERLOADED state.");
    SpawnAddsPair(logged, idx);
    var r := AfterSpawn(logged, idx);
    forall c | c in r.overloadCircles ensures c in w.overloadCircles || c.targetHouseIndex == idx {
      var k :| 0 <= k < |r.overloadCircles| && r.overloadCircles[k] == c;
      if k < |w.overloadCircles| {
        assert c == r.overloadCircles[..|w.overloadCircles|][k];
      }
    }
  }

  /** Some house is chosen exactly when some house is not shedding load, and the chosen one is not. */
  lemma ChosenIsEligible(w: World, now: real, pick: nat)
    ensures (Chosen(w, now, pick) != NoPrompt) <==> exists i :: 0 <= i < |w.houses| && !IsProtected(w.houses[i].state)
    ensures Chosen(w, now, pick) != NoPrompt ==> !IsProtected(w.houses[Chosen(w, now, pick)].state)
  {
    var reset := AfterReset(w, now);
    AfterResetHouses(w, now);
    var avail := EligibleBelow(reset.houses, |reset.houses|);
    if exists i :: 0 <= i < |w.houses| && !IsProtected(w.houses[i].state) {
      var i :| 0 <= i < |w.houses| && !IsProtected(w.houses[i].state);
      assert i in avail;
    }
  }

  /** When every house below n is eligible, the eligible list below n is 0, 1, ..., n - 1. */
  lemma {:induction false} EligibleBelowAll(hs: seq<House>, n: nat)
    requires n <= |hs|
    requires forall i :: 0 <= i < n ==> IsEligible(hs[i].state)
    ensures |EligibleBelow(hs, n)| == n
    ensures forall k :: 0 <= k < n ==> EligibleBelow(hs, n)[k] == k
  {
    if n > 0 {
      EligibleBelowAll(hs, n - 1);
    }
  }

  /** When no house is shedding load, rand() picks house (pick mod n) directly. */
  lemma AllEligibleChoice(w: World, now: real, pick: nat)
    requires |w.houses| > 0
    requires forall i :: 0 <= i < |w.houses| ==> !IsProtected(w.houses[i].state)
    ensures Chosen(w, now, pick) == pick % |w.houses|
  {
    var reset := AfterReset(w, now);
    AfterResetHouses(w, now);
    EligibleBelowAll(reset.houses, |reset.houses|);
  }

  /**
   * The scheduler waits out the interval; once it fires it restarts the
   * interval at `now` and leaves houses that are in POWER_CUT or COOLDOWN
   * exactly as they were (state and timestamp included), while every other
   * house is NORMAL without a prompt, except the chosen one, which is OVERLOADED
   * since `now`, prompted, not a manual cut, and recorded as the prompted house.
   */
  lemma SchedulerTransitions(w: World, now: real, pick: nat)
    ensures !Fires(w, now) ==> AfterScheduler(w, now, pick) == w
    ensures Fires(w, now) ==>
      var r := AfterScheduler(w, now, pick);
      var c := Chosen(w, now, pick);
      && r.lastOverloadEventTime == now
      && |r.houses| == |w.houses|
      && r.animatedCircles == w.animatedCircles
      && r.houseIndexToCutPower == c
      && (forall i :: 0 <= i < |w.houses| && IsProtected(w.houses[i].state) ==> r.houses[i] == w.houses[i])
      && (forall i :: 0 <= i < |w.houses| && !IsProtected(w.houses[i].state) && i != c ==>
            r.houses[i] == w.houses[i].(state := Normal, showPowerCutPrompt := false))
      && (c != NoPrompt ==>
            && !IsProtected(w.houses[c].state)
            && r.houses[c] == w.houses[c].(state := Overloaded, stateChangeTime := now,
                                           showPowerCutPrompt := true, isManualCut := false))
  {
    if Fires(w, now) {
      var reset := AfterReset(w, now);
      var c := Chosen(w, now, pick);
      var r := AfterScheduler(w, now, pick);
      AfterResetHouses(w, now);
      AfterResetFrame(w, now);
      ChosenIsEligible(w, now, pick);
      if c != NoPrompt {
        ForceOverloadEffect(reset, c, now);
        assert r.houses == reset.houses[c := reset.houses[c].(state := Overloaded, stateChangeTime := now,
                                                             showPowerCutPrompt := true, isManualCut := false)];
      } else {
        assert r.houses == reset.houses;
      }
    }
  }

  /**
   * An overload event overloads a house exactly when one is not shedding load:
   * then exactly one house is OVERLOADED afterwards; otherwise none is and no
   * house is prompted.
   */
  lemma SchedulerPicksExactlyOne(w: World, now: real, pick: nat)
    requires Fires(w, now)
    ensures var r := AfterScheduler(w, now, pick);
      && ((exists i :: 0 <= i < |w.houses| && !IsProtected(w.houses[i].state)) <==> r.houseIndexToCutPower != NoPrompt)
      && (r.houseIndexToCutPower != NoPrompt ==> r.houses[r.houseIndexToCutPower].state == Overloaded)
      && (forall i :: 0 <= i < |r.houses| && r.houses[i].state == Overloaded ==> i == r.houseIndexToCutPower)
  {
    SchedulerTransitions(w, now, pick);
    ChosenIsEligible(w, now, pick);
  }

  /** Every house that is not shedding load can be the one chosen, for some value of rand(). */
  lemma SchedulerCanChooseAnyEligible(w: World, now: real, j: nat)
    requires Fires(w, now) && j < |w.houses| && !IsProtected(w.houses[j].state)
    ensures exists pick: nat :: AfterScheduler(w, now, pick).houseIndexToCutPower == j
  {
    var reset := AfterReset(w, now);
    AfterResetHouses(w, now);
    var avail := EligibleBelow(reset.houses, |reset.houses|);
    assert IsEligible(reset.houses[j].state);
    assert j in avail;
    var k :| 0 <= k < |avail| && avail[k] == j;
    assert k % |avail| == k;
    assert Chosen(w, now, k) == j;
    assert AfterScheduler(w, now, k).houseIndexToCutPower == ForceOverload(reset, j, now).houseIndexToCutPower;
  }

  /** Right after the reset nothing is overloaded, prompted or spawned, and the rest of the invariant holds. */
  lemma AfterResetQuiet(w: World, now: real)
    requires Valid(w)
    ensures var r := AfterReset(w, now);
      && |r.houses| == |w.houses|
      && (forall i :: 0 <= i < |r.houses| ==> HouseValid(r.houses[i]))
      && (forall i :: 0 <= i < |r.houses| ==> r.houses[i].state != Overloaded && !r.houses[i].showPowerCutPrompt)
      && (forall k :: 0 <= k < |r.houses| ==> CountFor(r.overloadCircles, k) == 0)
      && (forall c :: c in r.overloadCircles ==> 0 <= c.targetHouseIndex < |r.houses|)
      && (forall c :: c in r.animatedCircles ==> c.targetHouseIndex == NoHouse || 0 <= c.targetHouseIndex < |r.houses|)
      && |r.log| <= Capacity
      && r.houseIndexToCutPower == NoPrompt
  {
    AfterResetHouses(w, now);
    AfterResetFrame(w, now);
    AfterResetCircles(w, now);
    var r := AfterReset(w, now);
    forall i | 0 <= i < |r.houses| ensures r.houses[i].state != Overloaded && !r.houses[i].showPowerCutPrompt {
      assert w.houses[i].showPowerCutPrompt ==> w.houses[i].state == Overloaded;
    }
    forall k | 0 <= k < |r.houses| ensures CountFor(r.overloadCircles, k) == 0 {
      assert IsProtected(w.houses[k].state) ==> w.houses[k].state != Overloaded;
    }
  }

  /**
   * An overload event keeps the simulation invariant: in particular afterwards
   * only the chosen house shows a prompt, and it alone has overload circles
   * (exactly two).
   */
  lemma SchedulerKeepsValid(w: World, now: real, pick: nat)
    requires Valid(w)
    ensures Valid(AfterScheduler(w, now, pick))
  {
    if Fires(w, now) {
      var reset := AfterReset(w, now);
      var c := Chosen(w, now, pick);
      AfterResetQuiet(w, now);
      if c != NoPrompt {
        ForceOverloadQuietToValid(reset, c, now);
      } else {
        var r := AfterScheduler(w, now, pick);
        assert r == AfterAddLog(reset, "No available houses to overload. All are in POWER_CUT or COOLDOWN.");
        assert CirclesMatchOverloads(r);
        assert PromptsConsistent(r);
      }
    }
  }

  /** An overload event puts no timestamp past `now`: kept houses keep theirs, the forced one gets `now`. */
  lemma SchedulerKeepsTimes(w: World, now: real, pick: nat)
    requires TimesNotAfter(w, now)
    ensures TimesNotAfter(AfterScheduler(w, now, pick), now)
  {
    SchedulerTransitions(w, now, pick);
  }

  /** Forcing one house of a quiet world gives a valid world. */
  lemma ForceOverloadQuietToValid(w: World, idx: nat, now: real)
    requires idx < |w.houses|
    requires forall i :: 0 <= i < |w.houses| ==> HouseValid(w.houses[i])
    requires forall i :: 0 <= i < |w.houses| ==> w.houses[i].state != Overloaded && !w.houses[i].showPowerCutPrompt
    requires forall k :: 0 <= k < |w.houses| ==> CountFor(w.overloadCircles, k) == 0
    requires forall c :: c in w.overloadCircles ==> 0 <= c.targetHouseIndex < |w.houses|
    requires forall c :: c in w.animatedCircles ==> c.targetHouseIndex == NoHouse || 0 <= c.targetHouseIndex < |w.houses|
    requires |w.log| <= Capacity
    ensures Valid(ForceOverload(w, idx, now))
  {
    ForceOverloadEffect(w, idx, now);
    var r := ForceOverload(w, idx, now);
    assert forall i :: 0 <= i < |r.houses| && i != idx ==> r.houses[i] == w.houses[i];
    assert CirclesMatchOverloads(r);
  }
}
