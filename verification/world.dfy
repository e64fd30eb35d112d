/**
 * The whole simulation state as one value: the house pool, the two circle
 * collections, the event log, the prompted house and the scheduler's clock.
 * Every operation of the simulation is a function from World to World here;
 * the imperative class in module GridLoop is proved to compute the same thing.
 */
module Simulation {
  import opened EventLog
  import opened Packets
  import opened Houses

  /** Seconds between two overload events. */
  const OverloadInterval: real := 15.0
  /** Seconds an unprompted OVERLOADED house waits before its automatic power cut. */
  const AutoCutDelay: real := 10.0
  /** Seconds from POWER_CUT to COOLDOWN. */
  const PowerCutDuration: real := 5.0
  /** Seconds from COOLDOWN to NORMAL. */
  const CooldownDuration: real := 5.0
  /** Drawn size of a visible trunk circle. */
  const CircleSize: real := 0.05
  /** No house is awaiting a power-cut decision. */
  const NoPrompt: int := -1

  datatype World = World(
    houses: seq<House>,
    animatedCircles: seq<Circle>,   // the fixed trunk flow
    overloadCircles: seq<Circle>,   // spawned for the overloaded house
    log: seq<string>,
    houseIndexToCutPower: int,
    lastOverloadEventTime: real)

  /** Only the prompted house shows a prompt, and it is OVERLOADED. */
  ghost predicate PromptsConsistent(w: World) {
    forall i :: 0 <= i < |w.houses| && w.houses[i].showPowerCutPrompt ==>
      i == w.houseIndexToCutPower && w.houses[i].state == Overloaded
  }

  ghost predicate AtMostOneOverloaded(hs: seq<House>) {
    forall i, j :: 0 <= i < |hs| && 0 <= j < |hs| && hs[i].state == Overloaded && hs[j].state == Overloaded ==> i == j
  }

  /** The overloaded house has exactly its two overload circles and every other house none. */
  ghost predicate CirclesMatchOverloads(w: World) {
    forall j :: 0 <= j < |w.houses| ==>
      CountFor(w.overloadCircles, j) == if w.houses[j].state == Overloaded then 2 else 0
  }

  /** The invariant every frame of the simulation keeps. */
  ghost predicate Valid(w: World) {
    && (forall i :: 0 <= i < |w.houses| ==> HouseValid(w.houses[i]))
    && |w.log| <= Capacity
    && NoPrompt <= w.houseIndexToCutPower < |w.houses|
    && PromptsConsistent(w)
    && AtMostOneOverloaded(w.houses)
    && CirclesMatchOverloads(w)
    && (forall c :: c in w.overloadCircles ==> 0 <= c.targetHouseIndex < |w.houses|)
    && (forall c :: c in w.animatedCircles ==> c.targetHouseIndex == NoHouse || 0 <= c.targetHouseIndex < |w.houses|)
  }

  /** Every house's last transition happened no later than `now`. */
  ghost predicate TimesNotAfter(w: World, now: real) {
    forall i :: 0 <= i < |w.houses| ==> w.houses[i].stateChangeTime <= now
  }

  // ---------------------------------------------------------------------------
  // Primitive updates shared by the scheduler, the state machine and the intents
  // ---------------------------------------------------------------------------

  function AfterAddLog(w: World, m: string): World {
    w.(log := Append(w.log, m))
  }

  function AfterSpawn(w: World, h: nat): (r: World)
    requires h < |w.houses|
    ensures r.houses == w.houses && w.overloadCircles <= r.overloadCircles
    ensures |r.overloadCircles| == |w.overloadCircles| + 2
  {
    AfterAddLog(w.(overloadCircles := w.overloadCircles + OverloadPair(h)),
                "Spawned 2 overload circles for " + w.houses[h].name)
  }

  function AfterClear(w: World, h: nat): (r: World)
    requires h < |w.houses|
    ensures r.houses == w.houses
    ensures |r.overloadCircles| <= |w.overloadCircles|
  {
    AfterAddLog(w.(overloadCircles := WithoutTarget(w.overloadCircles, h)),
                "Cleared overload circles for " + w.houses[h].name)
  }

  function SetHouse(w: World, i: nat, h: House): World
    requires i < |w.houses|
  {
    w.(houses := w.houses[i := h])
  }

  /**
   * Spawning is not an operation of its own: it always breaks the circle part
   * of the invariant, which only the forcing step around it restores by making
   * the house OVERLOADED.
   */
  lemma SpawnAloneBreaksValid(w: World, h: nat)
    requires CirclesMatchOverloads(w) && h < |w.houses|
    ensures !CirclesMatchOverloads(AfterSpawn(w, h)) && !Valid(AfterSpawn(w, h))
  {
    SpawnAddsPair(w, h);
    var r := AfterSpawn(w, h);
    assert CountFor(r.overloadCircles, h) != if r.houses[h].state == Overloaded then 2 else 0;
  }

  /**
   * Spawning appends exactly the two overload circles for h (cycle 1 s, offsets
   * 0 and 0.5 s, active), leaves the earlier circles and everything but the log
   * alone, and raises h's circle count by two.
   */
  lemma SpawnAddsPair(w: World, h: nat)
    requires h < |w.houses|
    ensures var r := AfterSpawn(w, h);
      && |r.overloadCircles| == |w.overloadCircles| + 2
      && r.overloadCircles[..|w.overloadCircles|] == w.overloadCircles
      && r.overloadCircles[|w.overloadCircles|] == Circle(1.0, 0.0, h, true)
      && r.overloadCircles[|w.overloadCircles| + 1] == Circle(1.0, 0.5, h, true)
      && (forall k :: CountFor(r.overloadCircles, k) == CountFor(w.overloadCircles, k) + (if k == h then 2 else 0))
      && r.houses == w.houses && r.animatedCircles == w.animatedCircles
      && r.houseIndexToCutPower == w.houseIndexToCutPower
      && r.lastOverloadEventTime == w.lastOverloadEventTime
      && r.log == Append(w.log, "Spawned 2 overload circles for " + w.houses[h].name)
  {
    var r := AfterSpawn(w, h);
    assert r.overloadCircles[..|w.overloadCircles|] == w.overloadCircles;
    forall k ensures CountFor(r.overloadCircles, k) == CountFor(w.overloadCircles, k) + (if k == h then 2 else 0) {
      CountForOverloadPair(w.overloadCircles, h, k);
    }
  }

  /**
   * Clearing removes every circle aimed at h, keeps the others (same counts,
   * original relative order) and leaves everything but the log alone.
   */
  lemma ClearRemovesHouseCircles(w: World, h: nat)
    requires h < |w.houses|
    ensures var r := AfterClear(w, h);
      && (forall c :: c in r.overloadCircles ==> c.targetHouseIndex != h && c in w.overloadCircles)
      && (forall k :: CountFor(r.overloadCircles, k) == if k == h then 0 else CountFor(w.overloadCircles, k))
      && IsSubsequence(r.overloadCircles, w.overloadCircles)
      && r.houses == w.houses && r.animatedCircles == w.animatedCircles
      && r.houseIndexToCutPower == w.houseIndexToCutPower
      && r.lastOverloadEventTime == w.lastOverloadEventTime
      && r.log == Append(w.log, "Cleared overload circles for " + w.houses[h].name)
  {
    forall k ensures CountFor(AfterClear(w, h).overloadCircles, k) == if k == h then 0 else CountFor(w.overloadCircles, k) {
      CountForWithoutTarget(w.overloadCircles, h, k);
    }
    WithoutTargetIsSubsequence(w.overloadCircles, h);
  }

  /** Clearing a second time leaves the circle collection as the first clear left it. */
  lemma ClearTwiceSameCircles(w: World, h: nat)
    requires h < |w.houses|
    ensures AfterClear(AfterClear(w, h), h).overloadCircles == AfterClear(w, h).overloadCircles
  {
    WithoutTargetIdempotent(w.overloadCircles, h);
  }

  // ---------------------------------------------------------------------------
  // Start-up state
  // ---------------------------------------------------------------------------

  function InitialHouse(name: string): House {
    House(name, Green, 0.5, 1.0, 0.6, 0.9, Normal, 0.0, false, false)
  }

  /**
   * The trunk flow: four staggered pairs from the generator to the two
   * transmitters (not tied to a house), then two staggered rounds from the
   * transmitters to houses 0, 1, 2 and 3.
   */
  function InitialAnimatedCircles(): (r: seq<Circle>)
    ensures |r| == 16
    ensures forall k :: 0 <= k < |r| ==> r[k].targetHouseIndex == NoHouse || 0 <= r[k].targetHouseIndex < 4
  {
    seq(8, k requires 0 <= k < 8 => Circle(2.0, (k / 2) as real * 0.5, NoHouse, true))
    + seq(8, k requires 0 <= k < 8 => Circle(1.5, (k / 4) as real * 0.75 + 2.0, k % 4, true))
  }

  function InitialWorld(): (r: World)
    ensures |r.houses| == 4 && |r.log| == 1
    ensures r.overloadCircles == [] && r.houseIndexToCutPower == NoPrompt
  {
    World(
      [InitialHouse("House 1"), InitialHouse("House 2"), InitialHouse("House 3"), InitialHouse("House 4")],
      InitialAnimatedCircles(),
      [],
      Append([], "Simulation started."),
      NoPrompt,
      -OverloadInterval)
  }

  /** The start-up state has four houses, all NORMAL. */
  lemma InitialWorldNormal()
    ensures |InitialWorld().houses| == 4
    ensures forall j :: 0 <= j < 4 ==> InitialWorld().houses[j].state == Normal
  {
  }

  /** The start-up state satisfies the invariant, and the first scheduler run fires at any time from 0 on. */
  lemma InitialWorldValid()
    ensures Valid(InitialWorld())
    ensures InitialWorld().lastOverloadEventTime + OverloadInterval == 0.0
    ensures TimesNotAfter(InitialWorld(), 0.0)
  {
    var w := InitialWorld();
    forall j | 0 <= j < |w.houses| ensures CountFor(w.overloadCircles, j) == 0 { }
  }

  // ---------------------------------------------------------------------------
  // Trunk-circle visibility gate (drawing step)
  // ---------------------------------------------------------------------------

  /** A trunk circle aimed at a house whose power is cut is drawn at size zero. */
  function TrunkCircleSize(w: World, c: Circle): (size: real)
    requires c.targetHouseIndex == NoHouse || 0 <= c.targetHouseIndex < |w.houses|
    ensures size == 0.0 || size == CircleSize
    ensures c.targetHouseIndex == NoHouse ==> size == CircleSize
  {
    if c.targetHouseIndex != NoHouse && w.houses[c.targetHouseIndex].state == PowerCut then 0.0 else CircleSize
  }

  /**
   * For a valid world, every trunk circle can be gated, a circle is hidden exactly
   * when its house is in POWER_CUT, and generator circles are always shown.
   */
  lemma TrunkGate(w: World, k: nat)
    requires Valid(w) && k < |w.animatedCircles|
    ensures var c := w.animatedCircles[k];
      && (c.targetHouseIndex == NoHouse || 0 <= c.targetHouseIndex < |w.houses|)
      && (TrunkCircleSize(w, c) == 0.0 <==> c.targetHouseIndex != NoHouse && w.houses[c.targetHouseIndex].state == PowerCut)
      && (TrunkCircleSize(w, c) != 0.0 ==> TrunkCircleSize(w, c) == CircleSize)
  {
    assert w.animatedCircles[k] in w.animatedCircles;
  }
}
