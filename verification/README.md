# Power-grid load-shedding simulation: a Dafny model

PGLMS draws a small power grid. It has a generator, two transmitters and four houses. Each house runs a five-state machine: NORMAL, WARNING, OVERLOADED, POWER_CUT and COOLDOWN. Every 15 seconds an overload scheduler does two things:
- it resets the houses that are not shedding load;
- it forces one NORMAL or WARNING house into OVERLOADED.

The operator is then asked whether to cut that house's power. An OVERLOADED house whose prompt has been dismissed is cut automatically 10 s after it became overloaded. A cut house stays cut for 5 s, then cools down for 5 s, then is restored. Yellow "packets" flow along the lines:
- a fixed trunk flow, hidden at houses whose power is cut;
- two fast overload packets aimed at the overloaded house.

A bounded event log of 20 lines records every decision.

This project models the simulation core of `src/main.cpp`:
- the log (`AddLog`);
- the overload-packet collection (`SpawnOverloadCircles`, `ClearOverloadCirclesForHouse`);
- the overload scheduler;
- the per-house load and state loop;
- the three operator intents: manual shed, confirm cut, decline;
- the trunk-packet visibility gate.

The model has two layers.

**Value layer.** The whole simulation state is one value, `Simulation.World`. Every operation is a function from `World` to `World`, defined in these modules:
- `EventLog`: the log;
- `Packets`: the packets;
- `Houses`: the house record, its load and colours;
- `Simulation`: the world, start-up and the trunk gate;
- `OverloadScheduler`;
- `HouseStep`;
- `OperatorIntents`.

The invariant `Simulation.Valid` states the following:
- every house has ordered thresholds and a load within capacity;
- the log holds at most 20 lines;
- only the prompted house shows a prompt, and it is OVERLOADED;
- at most one house is OVERLOADED;
- that house has exactly two overload packets, and every other house has none;
- every packet targets an existing house, or no house (the generator flow).

The overload event (`OverloadScheduler.SchedulerKeepsValid`), the per-house loop (`HouseStep.StepKeepsValid`), the two together (`GridLoop.Grid.Frame`) and each of the three intents are proved to keep `Valid`. The helpers for the log, spawn and clear are not: they are steps inside those operations, and spawn on its own breaks `Valid` (`Simulation.SpawnAloneBreaksValid`).

**Imperative layer.** `GridLoop.Grid` is a class whose fields are the program's globals. Its methods update them in place, with the source's loops. Each method is proved to compute the corresponding value-layer function. So everything proved about the functions holds of the object too.

Inputs the program takes from its environment become parameters:
- the clock is `now: real`;
- the value of `rand()` is `pick: nat`, and the chosen house is the `(pick mod n)`-th eligible one;
- the sine-wave load factor of house `i` is `fluctuations[i]`.

The following points follow the code where a description of the program could suggest otherwise:
- **A shown prompt blocks the automatic cut.** The cut condition is `!showPowerCutPrompt && now - stateChangeTime >= 10`. A prompt that is never answered is therefore never cut automatically. The next overload event resets that house to NORMAL, unless it chooses the house again (`Scenarios.UnansweredPromptBlocksAutoCut`, `Scenarios.UnansweredOverloadIsReset`). Only after "No, Continue" can the deadline, always counted from the OVERLOADED entry, fire (`Scenarios.DeclinedOverloadCutAtTen`). The comment at `src/main.cpp:499-501` says the automatic cut behaves the same whether the operator clicks "No" or ignores the prompt; the code does not do that, and the model follows the code.
- **The scheduler reset keeps the timestamp.** It does not change `stateChangeTime`.
- **Manual shed keeps the prompted-house index.** It does not reset `houseIndexToCutPower`; only confirm and decline do.
- **WARNING is never entered.** No code path moves a house into WARNING. The WARNING branch can only leave it, so that branch is modelled as written.
- **Scene and panel colours differ.** The scene draws POWER_CUT dark gray (0.2) and COOLDOWN gray (0.5). The control panel prints them in gray (0.5) and light gray (0.7). Both mappings are modelled: `Houses.SceneColour` and `Houses.PanelColour`.
- **The colour lags one frame.** The colour a house gets in a frame is that of the state it started the frame in. A transition shows its colour one frame later.

## Model

| member | source | states |
|---|---|---|
| EventLog.Append | src/main.cpp:74-79 | the new message is the newest entry; the log grows by one until it holds 20, then keeps 20; the result is the newest part of old log plus message, in order; it never exceeds 20 |
| EventLog.AppendIsNewest | src/main.cpp:74-79 | appending to a log of at most 20 entries leaves the newest 20 of the old log followed by the message |
| EventLog.FullLogDropsOldest | src/main.cpp:74-79 | appending to a full log drops exactly the oldest entry and keeps the other 19 and then the new one, in order |
| EventLog.AppendAllKeepsNewest | src/main.cpp:74-79 | after any number of appends the log holds exactly the newest 20 messages it has seen, in order |
| Packets.WithoutTarget | src/main.cpp:110-115 | the filtered packets are exactly the input packets not aimed at the house, and no more of them |
| Packets.CountForWithoutTarget | src/main.cpp:110-115 | after the filter no packet is aimed at the house and every other house keeps its packet count |
| Packets.WithoutTargetIsSubsequence | src/main.cpp:110-115 | the kept packets keep their original relative order |
| Packets.WithoutTargetAppend | src/main.cpp:110-115 | filtering a concatenation is concatenating the filtered parts |
| Packets.WithoutTargetNoop | src/main.cpp:110-115 | a collection with no packet for the house is left exactly as it is |
| Packets.WithoutTargetIdempotent | src/main.cpp:110-115 | filtering twice for one house equals filtering once |
| Packets.WithoutTargetCommutes | src/main.cpp:110-115 | filters for two houses give the same result in either order |
| Packets.CountForOverloadPair | src/main.cpp:94-104 | spawning the pair adds two packets for the house and none for any other |
| Houses.Clamp | src/main.cpp:358 | the clamped value lies in [lo, hi] and a value already inside is unchanged |
| Houses.FluctuatingLoad | src/main.cpp:357-358 | the load lies in [0, maxLoad], and at least 30% of maxLoad for a factor in [0, 1] |
| Houses.UpdateLoad | src/main.cpp:353-361 | only the load changes; it is 0 during POWER_CUT and within [0, maxLoad] |
| Houses.SceneColour | src/main.cpp:366-414 | the scene draws a house green exactly when it is NORMAL and red exactly when it is OVERLOADED; `Houses.ColoursIdentifyState` shows every state gets its own colour |
| Houses.PanelColour | src/main.cpp:433-440 | the panel prints a state green exactly when it is NORMAL and red exactly when it is OVERLOADED; `Houses.ColoursIdentifyState` shows every state gets its own colour |
| Houses.StateLabel | src/main.cpp:441-445 | the printed state name; `Houses.ColoursIdentifyState` shows no two states share a name |
| Houses.ColoursIdentifyState | src/main.cpp:366-445 | scene colour, panel colour and state label each tell the five states apart |
| Simulation.AfterSpawn | src/main.cpp:82-106 | the houses are kept, the earlier packets stay a prefix and exactly two packets are added; `Simulation.SpawnAddsPair` states their target, timing and the log line |
| Simulation.AfterClear | src/main.cpp:109-117 | the houses are kept and no packet is added; `Simulation.ClearRemovesHouseCircles` states that exactly the house's packets go, in order, and that the clear is logged |
| Simulation.SpawnAloneBreaksValid | src/main.cpp:82-106 | spawning on its own always breaks the packet part of the invariant (the house gets two more packets without becoming OVERLOADED); only the forcing step around it, at `src/main.cpp:333-341`, keeps `Valid` |
| Simulation.SpawnAddsPair | src/main.cpp:82-106 | exactly two packets are appended, aimed at the house, cycle 1 s, offsets 0 and 0.5 s, active; earlier packets unchanged; the count for the house grows by 2; the spawn is logged |
| Simulation.ClearRemovesHouseCircles | src/main.cpp:109-117 | no packet aimed at the house remains; the others keep their counts and order; the clear is logged; nothing else changes |
| Simulation.ClearTwiceSameCircles | src/main.cpp:109-117 | clearing twice leaves the packets as clearing once |
| Simulation.InitialAnimatedCircles | src/main.cpp:268-284 | sixteen trunk packets, each aimed at no house (the generator legs) or at one of the four houses |
| Simulation.InitialWorld | src/main.cpp:249-290 | four houses, one log line, no overload packet and no prompted house; `Simulation.InitialWorldNormal` and `Simulation.InitialWorldValid` state the rest |
| Simulation.InitialWorldValid | src/main.cpp:249-290 | the start-up state (four NORMAL houses, 16 trunk packets, one log line) satisfies the invariant, its timestamps are not after 0, and the first overload event fires at time 0 |
| Simulation.InitialWorldNormal | src/main.cpp:249-252 | the start-up state has four houses, all NORMAL |
| Simulation.TrunkCircleSize | src/main.cpp:522-526 | a trunk packet is drawn at size 0 or at the normal size, and a generator packet always at the normal size; `Simulation.TrunkGate` states that size 0 means exactly "aimed at a house in POWER_CUT" |
| Simulation.TrunkGate | src/main.cpp:522-526 | in a valid world every trunk packet can be gated; it is hidden exactly when it is aimed at a house in POWER_CUT; generator packets are always shown |
| OverloadScheduler.Fires | src/main.cpp:304 | the scheduler guard: an overload event happens when at least 15 s have passed since the last one; `OverloadScheduler.SchedulerTransitions` states that nothing changes otherwise |
| OverloadScheduler.ResetHouse | src/main.cpp:310-318 | one reset step keeps the number of houses; `OverloadScheduler.ResetHouseHouses`, `ResetHouseFrame` and `ResetHouseCircles` state its effect |
| OverloadScheduler.ResetFrom | src/main.cpp:309-319 | the reset loop keeps the number of houses; `OverloadScheduler.ResetFromHouses`, `ResetFromFrame` and `ResetFromCircles` state its effect |
| OverloadScheduler.AfterReset | src/main.cpp:305-320 | the reset part of an overload event keeps the number of houses; `OverloadScheduler.AfterResetHouses`, `AfterResetFrame`, `AfterResetCircles` and `AfterResetQuiet` state its effect |
| OverloadScheduler.ForceOverload | src/main.cpp:333-341 | forcing keeps the number of houses; `OverloadScheduler.ForceOverloadEffect` states that only the chosen house changes and how |
| OverloadScheduler.AfterScheduler | src/main.cpp:304-345 | an overload event keeps the number of houses; `OverloadScheduler.SchedulerTransitions`, `SchedulerPicksExactlyOne` and `SchedulerKeepsValid` state its effect |
| OverloadScheduler.EligibleBelow | src/main.cpp:323-328 | the list holds exactly the NORMAL or WARNING houses, in ascending order |
| OverloadScheduler.Chosen | src/main.cpp:330-332 | the choice is "none" or an existing house index |
| OverloadScheduler.ResetHouseHouses | src/main.cpp:309-318 | one reset step rewrites only house i, to NORMAL without a prompt unless it is shedding load |
| OverloadScheduler.ResetHouseFrame | src/main.cpp:309-318 | one reset step keeps the trunk circles, the prompted index and the clock, and the log bounded |
| OverloadScheduler.ResetHouseCircles | src/main.cpp:309-318 | one reset step removes house i's packets exactly when it is not shedding load, and no other house's |
| OverloadScheduler.ResetFromHouses | src/main.cpp:309-319 | the reset loop resets exactly the houses not in POWER_CUT or COOLDOWN and leaves the others as they are |
| OverloadScheduler.ResetFromFrame | src/main.cpp:309-319 | the reset loop does not touch the trunk flow, the prompted index or the scheduler clock, and keeps the log bounded |
| OverloadScheduler.ResetFromCircles | src/main.cpp:309-319 | the reset loop removes the packets of exactly the houses it resets |
| OverloadScheduler.AfterResetHouses | src/main.cpp:309-318 | after the reset every house not shedding load is NORMAL without a prompt, the others are untouched, and the eligible houses are exactly those not shedding load |
| OverloadScheduler.AfterResetFrame | src/main.cpp:304-320 | after the reset the clock is `now`, no house is prompted, the trunk circles are kept and the log stays bounded |
| OverloadScheduler.AfterResetCircles | src/main.cpp:309-318 | after the reset only houses shedding load keep overload circles, and no circle is added |
| OverloadScheduler.AfterResetQuiet | src/main.cpp:309-320 | after the reset of a valid world nothing is OVERLOADED, prompted or has packets |
| OverloadScheduler.ForceOverloadEffect | src/main.cpp:333-341 | only the chosen house changes: OVERLOADED since `now`, prompted, not manual; it is the prompted house and gains two packets |
| OverloadScheduler.ChosenIsEligible | src/main.cpp:323-332 | a house is chosen exactly when some house is not shedding load, and the chosen house is not shedding load |
| OverloadScheduler.EligibleBelowAll | src/main.cpp:323-328 | when every house is eligible the eligible list is 0, 1, ..., n-1 |
| OverloadScheduler.AllEligibleChoice | src/main.cpp:330-332 | when no house is shedding load the chosen house is pick mod n |
| OverloadScheduler.SchedulerTransitions | src/main.cpp:304-345 | no change before 15 s; otherwise clock = now, POWER_CUT/COOLDOWN houses untouched (state and timestamp), others NORMAL without prompt except the chosen one, which is OVERLOADED since `now` and prompted |
| OverloadScheduler.SchedulerPicksExactlyOne | src/main.cpp:323-345 | a house is prompted exactly when one was eligible; then it is OVERLOADED and the only OVERLOADED house; otherwise no house is |
| OverloadScheduler.SchedulerCanChooseAnyEligible | src/main.cpp:330-332 | every eligible house is chosen for some value of rand() |
| OverloadScheduler.SchedulerKeepsValid | src/main.cpp:304-345 | an overload event keeps the invariant: at most one house OVERLOADED, only it prompted, only it with (exactly two) overload circles, the log bounded |
| OverloadScheduler.SchedulerKeepsTimes | src/main.cpp:304-345 | an overload event puts no house's timestamp past `now` |
| OverloadScheduler.ForceOverloadQuietToValid | src/main.cpp:333-341 | forcing one house of a quiet world yields a valid world |
| HouseStep.TransitionDue | src/main.cpp:366-414 | when each state's transition fires; `HouseStep.StateMachineRules` states each condition |
| HouseStep.Settle | src/main.cpp:363-416 | the switch on the updated house; `HouseStep.StateMachineRules` and `HouseStep.StateMachineSideEffects` state its effect |
| HouseStep.NextHouse | src/main.cpp:350-416 | the house after one frame; `HouseStep.StateMachineRules`, `StateMachineSideEffects`, `NextHouseSettles` and `NextHouseKeeps` state its effect |
| HouseStep.SwitchHouse | src/main.cpp:363-416 | the switch keeps the number of houses; its effect on the world is stated through `HouseStep.StepHouseHouses`, `StepHouseFrame` and `StepHouseCircles` |
| HouseStep.StepHouse | src/main.cpp:350-416 | one loop iteration keeps the number of houses; `HouseStep.StepHouseHouses`, `StepHouseOther`, `StepHouseFrame`, `StepHouseCircles` and `StepHouseCount` state its effect |
| HouseStep.AfterStep | src/main.cpp:349-417 | the per-house loop keeps the number of houses; `HouseStep.StepKeepsValid`, `StepKeepsTimes` and `StepTwiceSameInstant` state its effect |
| HouseStep.StateMachineRules | src/main.cpp:366-415 | at most one transition per frame; OVERLOADED is cut exactly when the prompt is dismissed and 10 s have passed; POWER_CUT→COOLDOWN and COOLDOWN→NORMAL exactly at 5 s; WARNING→NORMAL exactly when the load drops below the warning threshold; NORMAL stays; a transition stamps `now` |
| HouseStep.StateMachineSideEffects | src/main.cpp:353-416 | an automatic cut is not manual; prompt, name and capacities unchanged; the colour is that of the starting state; load 0 in POWER_CUT; house validity kept |
| HouseStep.NextHouseSettles | src/main.cpp:349-417 | polling a house twice at the same instant takes no second transition |
| HouseStep.NextHouseKeeps | src/main.cpp:353-416 | a frame keeps a house valid, shows a prompt only where one was shown and the state is unchanged, enters OVERLOADED never, and stamps only `now` |
| HouseStep.StepHouseHouses | src/main.cpp:349-417 | one loop iteration changes only its own house, as the state machine says |
| HouseStep.StepHouseOther | src/main.cpp:349-417 | one iteration leaves every other house as it is |
| HouseStep.StepHouseFrame | src/main.cpp:349-417 | one iteration leaves trunk flow, prompted index and clock alone, and log and packets too when no transition happens |
| HouseStep.StepHouseCircles | src/main.cpp:386-396 | one iteration removes its house's packets exactly when it cuts the house |
| HouseStep.StepHouseCount | src/main.cpp:386-396 | one iteration changes a house's packet count only when it cuts that house, to 0 |
| HouseStep.StepFromHouse | src/main.cpp:349-417 | the loop from house i on leaves earlier houses alone and applies the state machine to each later house |
| HouseStep.StepFromHouses | src/main.cpp:349-417 | the loop applies the state machine to every house independently |
| HouseStep.StepFromFrame | src/main.cpp:349-417 | the loop leaves trunk flow, prompted index and clock alone and keeps the log bounded |
| HouseStep.StepFromCircles | src/main.cpp:349-417 | the loop removes the packets of exactly the houses it cuts |
| HouseStep.StepFromCirclesShrink | src/main.cpp:349-417 | the loop never adds an overload packet |
| HouseStep.StepFromQuiet | src/main.cpp:349-417 | when no house moves, the loop leaves packets and log alone |
| HouseStep.StepHousesKeep | src/main.cpp:349-417 | after the loop every house is valid, prompted only if it was and its state is unchanged, and OVERLOADED only if it was |
| HouseStep.StepCirclesKeep | src/main.cpp:349-417 | after the loop the OVERLOADED house still has exactly two packets, every other house none, and no packet was added |
| HouseStep.StepKeepsValid | src/main.cpp:349-417 | the per-house loop applies the state machine to every house and keeps the invariant |
| HouseStep.StepKeepsTimes | src/main.cpp:349-417 | the per-house loop puts no timestamp past `now` and moves none back |
| HouseStep.StepTwiceSameInstant | src/main.cpp:349-417 | running the loop twice at one instant gives the same states, timestamps, flags, packets and log as once |
| OperatorIntents.DialogOpen | src/main.cpp:470 | the dialog is open when the prompted index names a house that still shows its prompt, the condition under which the source opens it (see "## Left out"); `OperatorIntents.DialogSurvivesScheduler` shows an overload event never leaves it open on no house |
| OperatorIntents.AfterManualShed | src/main.cpp:448-454 | manual shed keeps the number of houses; `OperatorIntents.ManualShedEffect` and `ManualShedKeepsValid` state its effect |
| OperatorIntents.AfterConfirmCut | src/main.cpp:480-489 | confirm keeps the number of houses; `OperatorIntents.ConfirmCutEffect` and `ConfirmCutKeepsValid` state its effect |
| OperatorIntents.AfterDecline | src/main.cpp:492-497 | decline keeps the number of houses; `OperatorIntents.DeclineEffect`, `DeclineKeepsDeadline` and `DeclineKeepsValid` state its effect |
| OperatorIntents.ManualShedEffect | src/main.cpp:448-454 | only for an OVERLOADED house: POWER_CUT at `now`, manual, prompt cleared, packets gone and no packet added, prompted index, trunk flow and scheduler clock untouched; otherwise nothing changes |
| OperatorIntents.ConfirmCutEffect | src/main.cpp:480-489 | the prompted house is cut at once (POWER_CUT, manual, packets gone, no packet added) regardless of its timer, the dialog closes, and the trunk flow and scheduler clock are untouched |
| OperatorIntents.DeclineEffect | src/main.cpp:492-497 | only the prompt and the prompted index are cleared; state, timestamp, packets, trunk flow and scheduler clock are kept |
| OperatorIntents.DeclineKeepsDeadline | src/main.cpp:492-497 | after a decline the automatic cut happens exactly 10 s after the original OVERLOADED entry |
| OperatorIntents.CutKeepsValid | src/main.cpp:448-454 | cutting the OVERLOADED house and clearing its packets keeps the invariant |
| OperatorIntents.DismissKeepsValid | src/main.cpp:492-497 | dismissing the prompted house's prompt and forgetting the index keeps the invariant |
| OperatorIntents.ManualShedKeepsValid | src/main.cpp:448-454 | manual shed keeps the invariant |
| OperatorIntents.ConfirmCutKeepsValid | src/main.cpp:480-489 | confirm keeps the invariant |
| OperatorIntents.DeclineKeepsValid | src/main.cpp:492-497 | decline keeps the invariant |
| OperatorIntents.DialogSurvivesScheduler | src/main.cpp:320-339 | an overload event never leaves an open dialog pointing at no house |
| Scenarios.FirstOverloadEvent | src/main.cpp:304-345 | from start-up, the first event at any time from 0 on overloads house pick mod 4 alone, with its prompt and two packets |
| Scenarios.OverloadFromAllNormal | src/main.cpp:304-345 | in a valid world of NORMAL houses an overload event forces house pick mod n alone, prompted, with two packets, and the result is valid |
| Scenarios.DeclinedOverloadCutAtTen | src/main.cpp:386-396 | entered at 100 and declined: still OVERLOADED at 109.99, automatically cut at 110, not manual, packets gone |
| Scenarios.UnansweredPromptBlocksAutoCut | src/main.cpp:386-396 | while the prompt is unanswered no frame cuts the house, and the dialog stays open |
| Scenarios.UnansweredOverloadIsReset | src/main.cpp:309-341 | the next overload event turns an unanswered OVERLOADED house NORMAL or overloads it afresh; it never cuts it |
| Scenarios.ConfirmedThreeSecondsAfterForcing | src/main.cpp:480-489 | forced at 100, confirmed at 103: POWER_CUT stamped 103, manual, no prompt, no packets, dialog closed |
| Scenarios.ConfirmAfterForcing | src/main.cpp:480-489 | in a valid world of NORMAL houses, the house forced at `now` and confirmed at `later` is POWER_CUT stamped `later`, manual, without prompt or packets, and the dialog is closed |
| Scenarios.CutHouseRecovers | src/main.cpp:398-414 | a house cut at t0 stays cut until t0+5, cools down until t0+10, is NORMAL at t0+10 |
| GridLoop.Grid.constructor | src/main.cpp:249-290 | the object starts as the start-up state `InitialWorld` (valid by `Simulation.InitialWorldValid`) |
| GridLoop.BuildTrunkFlow | src/main.cpp:268-284 | the two push loops build exactly the sixteen trunk packets of `InitialAnimatedCircles` |
| GridLoop.Grid.AddLog | src/main.cpp:74-79 | push then drop the oldest past 20 leaves the log equal to `Append` of the old log, i.e. the newest 20 messages |
| GridLoop.Grid.SpawnOverloadCircles | src/main.cpp:82-106 | the two-iteration push loop computes `AfterSpawn` |
| GridLoop.Grid.ClearOverloadCirclesForHouse | src/main.cpp:109-117 | the filtering scan computes `AfterClear` |
| GridLoop.Grid.RunScheduler | src/main.cpp:304-345 | the scheduler block computes `AfterScheduler` and keeps the number of houses |
| GridLoop.Grid.ResetForNewCycle | src/main.cpp:309-319 | the reset loop computes `ResetFrom` |
| GridLoop.Grid.ResetHouseAt | src/main.cpp:310-318 | one iteration of the reset loop computes `ResetHouse` |
| GridLoop.Grid.AvailableHouses | src/main.cpp:323-328 | the scan returns exactly the eligible houses in ascending order |
| GridLoop.Grid.ForceOverloadAt | src/main.cpp:333-341 | the forcing statements compute `ForceOverload` |
| GridLoop.Grid.StepHouseAt | src/main.cpp:350-416 | the load update followed by the switch computes `StepHouse` |
| GridLoop.Grid.SwitchAt | src/main.cpp:363-416 | the switch on the house's state computes `SwitchHouse` |
| GridLoop.Grid.SwitchWarning | src/main.cpp:373-384 | the WARNING arm computes `SwitchHouse` for a WARNING house |
| GridLoop.Grid.SwitchOverloaded | src/main.cpp:386-396 | the OVERLOADED arm computes `SwitchHouse` for an OVERLOADED house |
| GridLoop.Grid.SwitchPowerCut | src/main.cpp:398-405 | the POWER_CUT arm computes `SwitchHouse` for a POWER_CUT house |
| GridLoop.Grid.SwitchCooldown | src/main.cpp:407-414 | the COOLDOWN arm computes `SwitchHouse` for a COOLDOWN house |
| GridLoop.Grid.StepHouses | src/main.cpp:349-417 | the per-house loop computes `AfterStep` |
| GridLoop.Grid.Frame | src/main.cpp:304-417 | scheduler then per-house loop compute `AfterStep(AfterScheduler(...))` and keep the invariant |
| GridLoop.Grid.ManualShed | src/main.cpp:448-454 | the button handler computes `AfterManualShed` and keeps the invariant |
| GridLoop.Grid.ConfirmCut | src/main.cpp:480-489 | the button handler computes `AfterConfirmCut` and keeps the invariant |
| GridLoop.Grid.Decline | src/main.cpp:492-497 | the button handler computes `AfterDecline` and keeps the invariant |
| GridLoop.Grid.TrunkCircleSizes | src/main.cpp:519-526 | each trunk packet's size is 0 exactly when its house is in POWER_CUT, else the normal size |

## Left out

- Rendering is not modelled: OpenGL, GLFW and ImGui set-up, widgets, the shader and shape files, vertex tables and mesh generation. The simulation's state does not depend on them.
- The modal popup's open/close mechanics and `overloadPromptTime` are not modelled; `overloadPromptTime` is written but never read. The dialog counts as open when `houseIndexToCutPower` names a house whose prompt is shown, which is the condition under which the source opens it. Manual shed is offered whenever the house is OVERLOADED; that the modal dialog blocks the panel is not modelled.
- Houses.FluctuatingLoad: the sine waveform and its time and index phases are replaced by a factor supplied by the caller. Only the scaling and the clamp are modelled, in exact arithmetic rather than 32-bit `float`.
- Time is exact `real` arithmetic, not `double`. Rounding at the 5, 10 and 15 s comparisons is not modelled.
- `srand`/`rand` are replaced by the input `pick`. `rand()` returns a non-negative value, so `pick` is a `nat`.
- Packet positions are not modelled: start and end points, transmitter coordinates, the `fmod` progress and the interpolation. A packet keeps only its cycle, offset, target house and active flag.
- The gate's effect on each shape's drawn size is returned by `Grid.TrunkCircleSizes` as a sequence; it is not stored in the packets.
- Colours are tags (`Houses.Colour`), not RGB triples.
- Simulation.ClearTwiceSameCircles: states only that the packets agree. A second clear still appends one more log line, as the source does.
- The remove/erase idiom is modelled as a filtering scan that builds the kept sequence. The in-place compaction inside `std::remove_if` is not modelled.
