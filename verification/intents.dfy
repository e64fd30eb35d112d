/**
 * The three operator intents the control panel and the confirmation dialog
 * post back into the simulation: manual shed (panel button, per house),
 * confirm cut and decline (dialog buttons, for the prompted house). Only their
 * effect on the state is modelled, not the widgets.
 */
module OperatorIntents {
  import opened EventLog
  import opened Packets
  import opened Houses
  import opened Simulation
  import opened OverloadScheduler
  import opened HouseStep

  /** The house after an operator-initiated power cut at `now`. */
  function ManualCut(h: House, now: real): House {
    h.(state := PowerCut, stateChangeTime := now, isManualCut := true, showPowerCutPrompt := false)
  }

  /** The "Manual Shed" button, offered only for an OVERLOADED house. */
  function AfterManualShed(w: World, i: nat, now: real): (r: World)
    requires i < |w.houses|
    ensures |r.houses| == |w.houses|
  {
    var h := w.houses[i];
    if h.state != Overloaded then w
    else AfterClear(AfterAddLog(SetHouse(w, i, ManualCut(h, now)), h.name + ": Manual power cut initiated."), i)
  }

  /** The confirmation dialog is open: a house is recorded as prompted and still shows its prompt. */
  predicate DialogOpen(w: World) {
    0 <= w.houseIndexToCutPower < |w.houses| && w.houses[w.houseIndexToCutPower].showPowerCutPrompt
  }

  /** "Yes, Cut Power" in the dialog: cut the prompted house and close the dialog. */
  function AfterConfirmCut(w: World, now: real): (r: World)
    ensures |r.houses| == |w.houses|
  {
    if !DialogOpen(w) then w
    else
      var i := w.houseIndexToCutPower;
      var h := w.houses[i];
      AfterClear(AfterAddLog(SetHouse(w, i, ManualCut(h, now)), h.name + ": Manual power cut confirmed."), i)
        .(houseIndexToCutPower := NoPrompt)
  }

  /** "No, Continue" in the dialog: dismiss the prompt only; the house stays OVERLOADED. */
  function AfterDecline(w: World): (r: World)
    ensures |r.houses| == |w.houses|
  {
    if !DialogOpen(w) then w
    else
      var i := w.houseIndexToCutPower;
      var h := w.houses[i];
      AfterAddLog(SetHouse(w, i, h.(showPowerCutPrompt := false)), h.name + ": Manual power cut declined. Monitoring...")
        .(houseIndexToCutPower := NoPrompt)
  }

  // ---------------------------------------------------------------------------
  // Proofs
  // ---------------------------------------------------------------------------

  /**
   * Manual shed takes an OVERLOADED house to POWER_CUT at `now`, marked manual,
   * prompt cleared and its circles gone; any other house is left as it is. The
   * prompted index is not touched.
   */
  lemma ManualShedEffect(w: World, i: nat, now: real)
    requires i < |w.houses|
    ensures var r := AfterManualShed(w, i, now);
      && (w.houses[i].state != Overloaded ==> r == w)
      && (w.houses[i].state == Overloaded ==>
            && r.houses == w.houses[i := ManualCut(w.houses[i], now)]
            && r.houses[i].state == PowerCut && r.houses[i].isManualCut && !r.houses[i].showPowerCutPrompt
            && r.houses[i].stateChangeTime == now
            && CountFor(r.overloadCircles, i) == 0
            && (forall k :: k != i ==> CountFor(r.overloadCircles, k) == CountFor(w.overloadCircles, k))
            && (forall c :: c in r.overloadCircles ==> c in w.overloadCircles)
            && r.animatedCircles == w.animatedCircles
            && r.lastOverloadEventTime == w.lastOverloadEventTime
            && r.houseIndexToCutPower == w.houseIndexToCutPower)
  {
    var h := w.houses[i];
    if h.state == Overloaded {
      ClearRemovesHouseCircles(AfterAddLog(SetHouse(w, i, ManualCut(h, now)), h.name + ": Manual power cut initiated."), i);
    }
  }

  /**
   * Confirming cuts the prompted house at once, whatever its 10 s timer says:
   * POWER_CUT at `now`, manual, prompt cleared, circles gone, dialog closed.
   */
  lemma ConfirmCutEffect(w: World, now: real)
    requires Valid(w)
    ensures var r := AfterConfirmCut(w, now);
      && (!DialogOpen(w) ==> r == w)
      && (DialogOpen(w) ==>
            var i := w.houseIndexToCutPower;
            && w.houses[i].state == Overloaded
            && r.houses == w.houses[i := ManualCut(w.houses[i], now)]
            && CountFor(r.overloadCircles, i) == 0
            && (forall k :: k != i ==> CountFor(r.overloadCircles, k) == CountFor(w.overloadCircles, k))
            && (forall c :: c in r.overloadCircles ==> c in w.overloadCircles)
            && r.animatedCircles == w.animatedCircles
            && r.lastOverloadEventTime == w.lastOverloadEventTime
            && r.houseIndexToCutPower == NoPrompt
            && !DialogOpen(r))
  {
    if DialogOpen(w) {
      var i := w.houseIndexToCutPower;
      var h := w.houses[i];
      ClearRemovesHouseCircles(AfterAddLog(SetHouse(w, i, ManualCut(h, now)), h.name + ": Manual power cut confirmed."), i);
    }
  }

  /**
   * Declining clears only the prompt and the prompted index: the state, the
   * timestamp of the OVERLOADED entry and the circles are kept.
   */
  lemma DeclineEffect(w: World)
    ensures var r := AfterDecline(w);
      && (!DialogOpen(w) ==> r == w)
      && (DialogOpen(w) ==>
            var i := w.houseIndexToCutPower;
            && r.houses == w.houses[i := w.houses[i].(showPowerCutPrompt := false)]
            && r.houses[i].state == w.houses[i].state
            && r.houses[i].stateChangeTime == w.houses[i].stateChangeTime
            && r.overloadCircles == w.overloadCircles
            && r.animatedCircles == w.animatedCircles
            && r.lastOverloadEventTime == w.lastOverloadEventTime
            && r.houseIndexToCutPower == NoPrompt
            && (|w.log| <= Capacity ==> |r.log| <= Capacity)
            && !DialogOpen(r))
  {
  }

  /**
   * After a decline, the automatic cut still counts from the original OVERLOADED
   * entry: a later frame at `later` cuts the house exactly when 10 s have passed
   * since that entry, not since the decline.
   */
  lemma DeclineKeepsDeadline(w: World, later: real, f: real)
    requires Valid(w) && DialogOpen(w)
    ensures var i := w.houseIndexToCutPower;
      var o := AfterDecline(w).houses[i];
      && o.state == Overloaded
      && (NextHouse(o, later, f).state == PowerCut <==> later - w.houses[i].stateChangeTime >= AutoCutDelay)
  {
    var i := w.houseIndexToCutPower;
    DeclineEffect(w);
    StateMachineRules(AfterDecline(w).houses[i], later, f);
  }

  /** Cutting the OVERLOADED house i of a valid world, with its circles removed, gives a valid world. */
  lemma CutKeepsValid(w: World, i: nat, now: real, r: World)
    requires Valid(w) && i < |w.houses| && w.houses[i].state == Overloaded
    requires r.houses == w.houses[i := ManualCut(w.houses[i], now)]
    requires r.animatedCircles == w.animatedCircles
    requires r.houseIndexToCutPower == w.houseIndexToCutPower || r.houseIndexToCutPower == NoPrompt
    requires forall k :: CountFor(r.overloadCircles, k) == if k == i then 0 else CountFor(w.overloadCircles, k)
    requires forall c :: c in r.overloadCircles ==> c in w.overloadCircles
    requires |r.log| <= Capacity
    ensures Valid(r)
    ensures TimesNotAfter(w, now) ==> TimesNotAfter(r, now)
  {
    forall j | 0 <= j < |r.houses| && j != i ensures r.houses[j] == w.houses[j] { }
    assert CirclesMatchOverloads(r);
    assert PromptsConsistent(r);
  }

  lemma ManualShedKeepsValid(w: World, i: nat, now: real)
    requires Valid(w) && i < |w.houses|
    ensures Valid(AfterManualShed(w, i, now))
    ensures TimesNotAfter(w, now) ==> TimesNotAfter(AfterManualShed(w, i, now), now)
  {
    var h := w.houses[i];
    if h.state == Overloaded {
      var logged := AfterAddLog(SetHouse(w, i, ManualCut(h, now)), h.name + ": Manual power cut initiated.");
      ClearRemovesHouseCircles(logged, i);
      CutKeepsValid(w, i, now, AfterManualShed(w, i, now));
    }
  }

  lemma ConfirmCutKeepsValid(w: World, now: real)
    requires Valid(w)
    ensures Valid(AfterConfirmCut(w, now))
    ensures TimesNotAfter(w, now) ==> TimesNotAfter(AfterConfirmCut(w, now), now)
  {
    if DialogOpen(w) {
      var i := w.houseIndexToCutPower;
      var h := w.houses[i];
      var logged := AfterAddLog(SetHouse(w, i, ManualCut(h, now)), h.name + ": Manual power cut confirmed.");
      ClearRemovesHouseCircles(logged, i);
      CutKeepsValid(w, i, now, AfterConfirmCut(w, now));
    }
  }

  /** Dismissing the prompt of the prompted house of a valid world, and forgetting the index, gives a valid world. */
  lemma DismissKeepsValid(w: World, i: nat, r: World)
    requires Valid(w) && i < |w.houses| && i == w.houseIndexToCutPower
    requires r.houses == w.houses[i := w.houses[i].(showPowerCutPrompt := false)]
    requires r.overloadCircles == w.overloadCircles && r.animatedCircles == w.animatedCircles
    requires r.houseIndexToCutPower == NoPrompt && |r.log| <= Capacity
    ensures Valid(r)
  {
    assert forall j :: 0 <= j < |r.houses| ==> r.houses[j].state == w.houses[j].state;
    assert forall j :: 0 <= j < |r.houses| ==> !r.houses[j].showPowerCutPrompt;
  }

  lemma DeclineKeepsValid(w: World)
    requires Valid(w)
    ensures Valid(AfterDecline(w))
  {
    if DialogOpen(w) {
      DeclineEffect(w);
      DismissKeepsValid(w, w.houseIndexToCutPower, AfterDecline(w));
    }
  }

  /**
   * While the dialog is open, an overload event never leaves it pointing at no
   * house: the prompted house is OVERLOADED, hence eligible after the reset, so
   * some house is chosen and the dialog shows that one.
   */
  lemma DialogSurvivesScheduler(w: World, now: real, pick: nat)
    requires Valid(w) && DialogOpen(w)
    ensures DialogOpen(AfterScheduler(w, now, pick))
  {
    if Fires(w, now) {
      var i := w.houseIndexToCutPower;
      assert !IsProtected(w.houses[i].state);
      SchedulerPicksExactlyOne(w, now, pick);
      SchedulerTransitions(w, now, pick);
    }
  }
}
