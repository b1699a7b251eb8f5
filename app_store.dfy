/**
 * The store of the earlier app: the flow step, the original photo and the
 * current design, the active region, every region's slider record and the
 * history of results.
 */
module AppStore {
  import opened Wrappers
  import JsRecord
  import opened ClinicalTypes

  /** The flow steps of the earlier app. */
  datatype Step = Scan | Simulation | Results

  /** `INITIAL_REGION_STATE`: every region with its sliders at 0. */
  const InitialRegionState: SimulationState := map[
    Lips := [("volume", 0), ("projection", 0), ("definition", 0), ("width", 0)],
    Jawline := [("definition", 0), ("contour", 0), ("angle", 0)],
    Chin := [("projection", 0), ("length", 0), ("width", 0)],
    Cheeks := [("volume", 0), ("lift", 0), ("projection", 0)],
    Nasolabial := [("smoothing", 0), ("depth_reduction", 0)],
    UpperFace := [("relaxation", 0), ("lift", 0), ("smoothing", 0)],
    TearTroughs := [("fill", 0), ("smoothing", 0)],
    Nose := [("bridge_height", 0), ("tip_projection", 0), ("width", 0)]
  ]

  /** Every region has a slider record, and every slider starts at 0. */
  lemma InitialRegionStateIsZero()
    ensures forall r: SimulationRegion :: r in InitialRegionState
    ensures forall r, i :: r in InitialRegionState && 0 <= i < |InitialRegionState[r]| ==> InitialRegionState[r][i].1 == 0
  {
    forall r: SimulationRegion ensures r in InitialRegionState {
      match r
      case Lips =>
      case Jawline =>
      case Chin =>
      case Cheeks =>
      case Nasolabial =>
      case UpperFace =>
      case TearTroughs =>
      case Nose =>
    }
  }

  /** The store's data fields at one moment. */
  datatype AppState = AppState(
    currentStep: Step, originalImage: Option<string>, currentDesignImage: Option<string>,
    activeRegion: Option<SimulationRegion>, simulationState: SimulationState, history: seq<HistoryItem>)

  /** The initial state: the simulation step, no images, no active region, all sliders at 0, no history. */
  const Initial: AppState := AppState(Simulation, None, None, None, InitialRegionState, [])

  class Store {
    var currentStep: Step
    var originalImage: Option<string>
    var currentDesignImage: Option<string>
    var activeRegion: Option<SimulationRegion>
    var simulationState: SimulationState
    var history: seq<HistoryItem>

    function State(): AppState
      reads this
    {
      AppState(currentStep, originalImage, currentDesignImage, activeRegion, simulationState, history)
    }

    constructor()
      ensures State() == Initial
    {
      currentStep := Simulation;
      originalImage := None;
      currentDesignImage := None;
      activeRegion := None;
      simulationState := InitialRegionState;
      history := [];
    }

    method SetStep(step: Step)
      modifies this
      ensures State() == old(State()).(currentStep := step)
    {
      currentStep := step;
    }

    /** A new photo is both the original and the current design. */
    method SetOriginalImage(url: string)
      modifies this
      ensures State() == old(State()).(originalImage := Some(url), currentDesignImage := Some(url))
    {
      originalImage := Some(url);
      currentDesignImage := Some(url);
    }

    method SetActiveRegion(region: Option<SimulationRegion>)
      modifies this
      ensures State() == old(State()).(activeRegion := region)
    {
      activeRegion := region;
    }

    /**
     * Only the slider `control` of `region` changes: the region's other
     * sliders and every other region's record are kept.
     */
    method UpdateRegionControl(region: SimulationRegion, control: string, value: int)
      modifies this
      ensures State() == old(State()).(simulationState := SetControl(old(simulationState), region, control, value))
      ensures region in simulationState && JsRecord.Get(simulationState[region], control) == Some(value)
      ensures forall k :: k != control ==>
        JsRecord.Get(simulationState[region], k) ==
        (if region in old(simulationState) then JsRecord.Get(old(simulationState)[region], k) else None)
      ensures forall r :: r != region && r in old(simulationState) ==>
        r in simulationState && simulationState[r] == old(simulationState)[r]
    {
      SetControlOnlyChangesControl(simulationState, region, control, value);
      simulationState := SetControl(simulationState, region, control, value);
    }

    /** Appends the item and shows its result; the original photo stays. */
    method AddToHistory(item: HistoryItem)
      modifies this
      ensures State() == old(State()).(history := old(history) + [item], currentDesignImage := Some(item.resultImage))
    {
      history := history + [item];
      currentDesignImage := Some(item.resultImage);
    }
  }

  /** `{ ...state, [region]: { ...state[region], [control]: value } }` */
  function SetControl(state: SimulationState, region: SimulationRegion, control: string, value: int): SimulationState {
    var controls := if region in state then state[region] else [];
    state[region := JsRecord.Put(controls, control, value)]
  }

  /** The slider written reads back as the value written; every other slider and region reads as before. */
  lemma SetControlOnlyChangesControl(state: SimulationState, region: SimulationRegion, control: string, value: int)
    ensures var state' := SetControl(state, region, control, value);
      && region in state' && JsRecord.Get(state'[region], control) == Some(value)
      && (forall k :: k != control ==>
            JsRecord.Get(state'[region], k) == (if region in state then JsRecord.Get(state[region], k) else None))
      && (forall r :: r != region && r in state ==> r in state' && state'[r] == state[r])
  {
    var controls := if region in state then state[region] else [];
    JsRecord.GetPutSame(controls, control, value);
    forall k | k != control
      ensures JsRecord.Get(JsRecord.Put(controls, control, value), k) == JsRecord.Get(controls, k)
    {
      JsRecord.GetPutOther(controls, control, value, k);
    }
  }

  /** Writing sliders of two different regions in either order gives the same state. */
  lemma SetControlsCommute(state: SimulationState, r1: SimulationRegion, c1: string, v1: int,
                           r2: SimulationRegion, c2: string, v2: int)
    requires r1 != r2
    ensures SetControl(SetControl(state, r1, c1, v1), r2, c2, v2) == SetControl(SetControl(state, r2, c2, v2), r1, c1, v1)
  {
  }
}
