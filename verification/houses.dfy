/** One house zone of the grid: its state, timers, load and the colour it is drawn in. */
module Houses {

  datatype HouseState = Normal | Warning | Overloaded | PowerCut | Cooldown

  /** The colours a house is drawn in, as tags rather than RGB triples. */
  datatype Colour =
    | Green      // (0, 1, 0)
    | Yellow     // (1, 1, 0)
    | Red        // (1, 0, 0)
    | DarkGray   // (0.2, 0.2, 0.2)
    | Gray       // (0.5, 0.5, 0.5)
    | LightGray  // (0.7, 0.7, 0.7)

  datatype House = House(
    name: string,
    colour: Colour,
    currentLoad: real,
    maxLoad: real,
    warningThreshold: real,
    overloadThreshold: real,
    state: HouseState,
    stateChangeTime: real,
    showPowerCutPrompt: bool,
    isManualCut: bool)

  /** Capacity parameters are ordered and the load is within capacity. */
  ghost predicate HouseValid(h: House) {
    && 0.0 <= h.warningThreshold < h.overloadThreshold < h.maxLoad
    && 0.0 <= h.currentLoad <= h.maxLoad
  }

  /** A house the overload scheduler must leave alone: it is shedding load. */
  predicate IsProtected(s: HouseState) {
    s == PowerCut || s == Cooldown
  }

  /** A house the overload scheduler may choose. */
  predicate IsEligible(s: HouseState) {
    s == Normal || s == Warning
  }

  function Min(a: real, b: real): real { if a < b then a else b }
  function Max(a: real, b: real): real { if a < b then b else a }

  /** glm::clamp: `min(max(x, lo), hi)`. */
  function Clamp(x: real, lo: real, hi: real): (r: real)
    ensures lo <= hi ==> lo <= r <= hi
    ensures lo <= x <= hi ==> r == x
  {
    Min(Max(x, lo), hi)
  }

  /**
   * The load of a house that is not cut: between 30% and 100% of its capacity,
   * driven by `fluctuation`, which stands for the source's sine-wave factor in
   * [0, 1] (the waveform itself is not modelled), and clamped to [0, maxLoad].
   */
  function FluctuatingLoad(maxLoad: real, fluctuation: real): (load: real)
    ensures 0.0 <= maxLoad ==> 0.0 <= load <= maxLoad
    ensures 0.0 <= maxLoad && 0.0 <= fluctuation <= 1.0 ==> 0.3 * maxLoad <= load
  {
    var raw := maxLoad * (0.3 + 0.7 * fluctuation);
    assert 0.0 <= maxLoad && 0.0 <= fluctuation <= 1.0 ==> 0.3 * maxLoad <= raw <= maxLoad by {
      if 0.0 <= maxLoad && 0.0 <= fluctuation <= 1.0 {
        assert maxLoad * (0.7 * fluctuation) >= 0.0;
        assert maxLoad * (0.7 * fluctuation) <= maxLoad * 0.7;
      }
    }
    Clamp(raw, 0.0, maxLoad)
  }

  /** The load update done for every house every frame: no load while the power is cut. */
  function UpdateLoad(h: House, fluctuation: real): (r: House)
    ensures r == h.(currentLoad := r.currentLoad)
    ensures h.state == PowerCut ==> r.currentLoad == 0.0
    ensures 0.0 <= h.maxLoad ==> 0.0 <= r.currentLoad <= h.maxLoad
  {
    if h.state != PowerCut then h.(currentLoad := FluctuatingLoad(h.maxLoad, fluctuation))
    else h.(currentLoad := 0.0)
  }

  /** The colour the scene draws a house in, for each state. */
  function SceneColour(s: HouseState): (c: Colour)
    ensures c == Green <==> s == Normal
    ensures c == Red <==> s == Overloaded
  {
    match s
    case Normal => Green
    case Warning => Yellow
    case Overloaded => Red
    case PowerCut => DarkGray
    case Cooldown => Gray
  }

  /** The colour the control panel prints a house's state in. */
  function PanelColour(s: HouseState): (c: Colour)
    ensures c == Green <==> s == Normal
    ensures c == Red <==> s == Overloaded
  {
    match s
    case Normal => Green
    case Warning => Yellow
    case Overloaded => Red
    case PowerCut => Gray
    case Cooldown => LightGray
  }

  /** The state name the control panel prints. */
  function StateLabel(s: HouseState): string {
    match s
    case Normal => "NORMAL"
    case Warning => "WARNING"
    case Overloaded => "OVERLOADED"
    case PowerCut => "POWER CUT"
    case Cooldown => "COOLDOWN"
  }

  /** A drawn house's colour tells which state it is in, both in the scene and in the panel. */
  lemma ColoursIdentifyState(a: HouseState, b: HouseState)
    ensures SceneColour(a) == SceneColour(b) <==> a == b
    ensures PanelColour(a) == PanelColour(b) <==> a == b
    ensures StateLabel(a) == StateLabel(b) <==> a == b
  {
  }
}
