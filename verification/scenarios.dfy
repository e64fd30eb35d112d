/**
 * Concrete runs of the simulation, from the start-up state or from any valid
 * state with an open confirmation dialog, told as the program would play them.
 */
module Scenarios {
  import opened Packets
  import opened Houses
  import opened Simulation
  import opened OverloadScheduler
  import opened HouseStep
  import opened OperatorIntents

  /**
   * An overload event in a valid world where every house is NORMAL: house
   * (pick mod n) is forced into OVERLOADED since `now`, with the dialog open on
   * it and its two circles, and every other house is untouched.
   */
  lemma OverloadFromAllNormal(w: World, now: real, pick: nat)
    requires Valid(w) && Fires(w, now) && |w.houses| > 0
    requires forall j :: 0 <= j < |w.houses| ==> w.houses[j].state == Normal
    ensures var r := AfterScheduler(w, now, pick);
      var c := pick % |w.houses|;
      && r.lastOverloadEventTime == now
      && r.houseIndexToCutPower == c
      && r.houses[c] == w.houses[c].(state := Overloaded, stateChangeTime := now,
                                    showPowerCutPrompt := true, isManualCut := false)
      && (forall j :: 0 <= j < |w.houses| && j != c ==> r.houses[j] == w.houses[j])
      && CountFor(r.overloadCircles, c) == 2
      && DialogOpen(r)
      && Valid(r)
  {
    var r := AfterScheduler(w, now, pick);
    var c := pick % |w.houses|;
    AllEligibleChoice(w, now, pick);
    SchedulerTransitions(w, now, pick);
    SchedulerKeepsValid(w, now, pick);
    forall j | 0 <= j < |w.houses| && j != c ensures r.houses[j] == w.houses[j] {
      assert !w.houses[j].showPowerCutPrompt;
    }
  }

  /**
   * The first overload event fires at any time from 0 on: all four houses are
   * eligible, so house (pick mod 4) is forced into OVERLOADED since `now`, with
   * the dialog open on it and its two circles, and the other houses are untouched.
   */
  lemma FirstOverloadEvent(now: real, pick: nat)
    requires now >= 0.0
    ensures var w := InitialWorld();
      var r := AfterScheduler(w, now, pick);
      var c := pick % 4;
      && r.lastOverloadEventTime == now
      && r.houseIndexToCutPower == c
      && r.houses[c] == w.houses[c].(state := Overloaded, stateChangeTime := now,
                                    showPowerCutPrompt := true, isManualCut := false)
      && (forall j :: 0 <= j < 4 && j != c ==> r.houses[j] == w.houses[j])
      && CountFor(r.overloadCircles, c) == 2
      && DialogOpen(r)
      && Valid(r)
  {
    InitialWorldNormal();
    InitialWorldValid();
    OverloadFromAllNormal(InitialWorld(), now, pick);
  }

  /**
   * The prompt for an OVERLOADED house entered at t = 100 is declined: the house
   * is still OVERLOADED at t = 109.99, and at t = 110 it is cut automatically
   * (not a manual cut) and its overload circles are gone.
   */
  lemma DeclinedOverloadCutAtTen(w: World, fs: seq<real>)
    requires Valid(w) && DialogOpen(w) && |fs| == |w.houses|
    requires w.houses[w.houseIndexToCutPower].stateChangeTime == 100.0
    ensures var i := w.houseIndexToCutPower;
      var d := AfterDecline(w);
      && AfterStep(d, 109.99, fs).houses[i].state == Overloaded
      && AfterStep(d, 110.0, fs).houses[i].state == PowerCut
      && AfterStep(d, 110.0, fs).houses[i].stateChangeTime == 110.0
      && !AfterStep(d, 110.0, fs).houses[i].isManualCut
      && CountFor(AfterStep(d, 110.0, fs).overloadCircles, i) == 0
  {
    var i := w.houseIndexToCutPower;
    var d := AfterDecline(w);
    DeclineKeepsValid(w);
    DeclineEffect(w);
    DeclineKeepsDeadline(w, 109.99, fs[i]);
    DeclineKeepsDeadline(w, 110.0, fs[i]);
    StepKeepsValid(d, 109.99, fs);
    StepKeepsValid(d, 110.0, fs);
    StateMachineRules(d.houses[i], 110.0, fs[i]);
    StateMachineSideEffects(d.houses[i], 110.0, fs[i]);
  }

  /**
   * While the dialog stays unanswered, no frame cuts the prompted house, however
   * long it has been OVERLOADED: the dialog is still open after the frame.
   */
  lemma UnansweredPromptBlocksAutoCut(w: World, now: real, fs: seq<real>)
    requires Valid(w) && DialogOpen(w) && |fs| == |w.houses|
    ensures var i := w.houseIndexToCutPower;
      var r := AfterStep(w, now, fs);
      && r.houses[i].state == Overloaded
      && r.houses[i].stateChangeTime == w.houses[i].stateChangeTime
      && DialogOpen(r)
  {
    var i := w.houseIndexToCutPower;
    StepKeepsValid(w, now, fs);
    StateMachineRules(w.houses[i], now, fs[i]);
    StateMachineSideEffects(w.houses[i], now, fs[i]);
  }

  /**
   * An unanswered overload is never cut by the scheduler either: at the next
   * overload event the house is either NORMAL again or chosen once more, freshly
   * OVERLOADED at that event's time.
   */
  lemma UnansweredOverloadIsReset(w: World, now: real, pick: nat)
    requires Valid(w) && DialogOpen(w) && Fires(w, now)
    ensures var i := w.houseIndexToCutPower;
      var r := AfterScheduler(w, now, pick);
      || (r.houses[i].state == Normal && !r.houses[i].showPowerCutPrompt)
      || (r.houses[i].state == Overloaded && r.houses[i].stateChangeTime == now && r.houseIndexToCutPower == i)
  {
    SchedulerTransitions(w, now, pick);
  }

  /**
   * In a valid world where every house is NORMAL, the house an overload event
   * forces at `now` and the operator confirms at `later` is cut at once, as a
   * manual cut stamped `later`, its prompt and circles gone and the dialog closed,
   * whatever its 10 s timer says.
   */
  lemma ConfirmAfterForcing(w: World, now: real, later: real, pick: nat)
    requires Valid(w) && Fires(w, now) && |w.houses| > 0
    requires forall j :: 0 <= j < |w.houses| ==> w.houses[j].state == Normal
    ensures var r := AfterConfirmCut(AfterScheduler(w, now, pick), later);
      var c := pick % |w.houses|;
      && r.houses[c].state == PowerCut
      && r.houses[c].isManualCut
      && r.houses[c].stateChangeTime == later
      && !r.houses[c].showPowerCutPrompt
      && CountFor(r.overloadCircles, c) == 0
      && r.houseIndexToCutPower == NoPrompt
      && Valid(r)
  {
    var f := AfterScheduler(w, now, pick);
    OverloadFromAllNormal(w, now, pick);
    ConfirmCutEffect(f, later);
    ConfirmCutKeepsValid(f, later);
  }

  /**
   * Forced at t = 100 and confirmed at t = 103: the house is cut at once, as a
   * manual cut stamped 103, its prompt and circles gone and the dialog closed,
   * although its 10 s timer has not run out.
   */
  lemma ConfirmedThreeSecondsAfterForcing(pick: nat)
    ensures var w := AfterScheduler(InitialWorld(), 100.0, pick);
      var r := AfterConfirmCut(w, 103.0);
      var c := pick % 4;
      && r.houses[c].state == PowerCut
      && r.houses[c].isManualCut
      && r.houses[c].stateChangeTime == 103.0
      && !r.houses[c].showPowerCutPrompt
      && CountFor(r.overloadCircles, c) == 0
      && r.houseIndexToCutPower == NoPrompt
      && Valid(r)
  {
    InitialWorldNormal();
    InitialWorldValid();
    ConfirmAfterForcing(InitialWorld(), 100.0, 103.0, pick);
  }

  /**
   * A house cut at t0 stays cut until t0 + 5, cools down from t0 + 5 until
   * t0 + 10, and is NORMAL again from t0 + 10 on, whatever its load does.
   */
  lemma CutHouseRecovers(h: House, t0: real, f1: real, f2: real, f3: real, f4: real)
    requires h.state == PowerCut && h.stateChangeTime == t0
    ensures NextHouse(h, t0 + 4.99, f1).state == PowerCut
    ensures var c := NextHouse(h, t0 + 5.0, f2);
      && c.state == Cooldown && c.stateChangeTime == t0 + 5.0 && c.currentLoad == 0.0
      && NextHouse(c, t0 + 9.99, f3).state == Cooldown
      && NextHouse(c, t0 + 10.0, f4).state == Normal
      && NextHouse(c, t0 + 10.0, f4).stateChangeTime == t0 + 10.0
  {
    StateMachineRules(h, t0 + 4.99, f1);
    StateMachineRules(h, t0 + 5.0, f2);
    StateMachineSideEffects(h, t0 + 5.0, f2);
    var c := NextHouse(h, t0 + 5.0, f2);
    StateMachineRules(c, t0 + 9.99, f3);
    StateMachineRules(c, t0 + 10.0, f4);
  }
}
