/**
 * The session store of the current app: the step of the flow, the captured
 * and the currently shown image, the selected region with its slider values
 * and notes, the history of applied edits, and a few flags. Each action
 * overwrites some fields and leaves the others as they were.
 */
module SessionStore {
  import opened Wrappers
  import JsRecord

  /** `AppStep` */
  datatype AppStep = Scan | Simulation | Results

  /** `RegionControlValues`: slider key to value, in entry order. */
  type ControlValues = JsRecord.Record<int>

  /** `VersionEntry`: one applied edit. */
  datatype VersionEntry = VersionEntry(
    id: string, timestamp: int,
    category: string, categoryLabel: string, subRegion: string, subRegionLabel: string,
    legacyRegion: Option<string>, region: string, regionLabel: string,
    controlValues: ControlValues, notes: string, prompt: string,
    inputImage: string, outputImage: string, meshPreviewImage: Option<string>, maskData: Option<string>)

  /** The store's data fields at one moment. */
  datatype Session = Session(
    step: AppStep, capturedImage: Option<string>, activeImage: Option<string>,
    selectedRegion: Option<string>, controlValues: ControlValues, notes: string,
    history: seq<VersionEntry>, isProcessing: bool, landmarks: Option<seq<seq<real>>>)

  /** `initialState` */
  const Initial: Session := Session(Scan, None, None, None, [], "", [], false, None)

  class Store {
    var step: AppStep
    var capturedImage: Option<string>
    var activeImage: Option<string>
    var selectedRegion: Option<string>
    var controlValues: ControlValues
    var notes: string
    var history: seq<VersionEntry>
    var isProcessing: bool
    var landmarks: Option<seq<seq<real>>>

    /** The data fields as one value. */
    function State(): Session
      reads this
    {
      Session(step, capturedImage, activeImage, selectedRegion, controlValues, notes, history, isProcessing, landmarks)
    }

    /** The store starts from `initialState`. */
    constructor()
      ensures State() == Initial
    {
      step := Scan;
      capturedImage := None;
      activeImage := None;
      selectedRegion := None;
      controlValues := [];
      notes := "";
      history := [];
      isProcessing := false;
      landmarks := None;
    }

    method SetStep(s: AppStep)
      modifies this
      ensures State() == old(State()).(step := s)
    {
      step := s;
    }

    /** A new capture is shown from scratch: no edited image, and the flow moves on to the simulation step. */
    method SetCapturedImage(image: string)
      modifies this
      ensures State() == old(State()).(capturedImage := Some(image), activeImage := None, step := Simulation)
    {
      capturedImage := Some(image);
      activeImage := None;
      step := Simulation;
    }

    method SetActiveImage(image: Option<string>)
      modifies this
      ensures State() == old(State()).(activeImage := image)
    {
      activeImage := image;
    }

    /** Selecting a region, or clearing the selection, drops the slider values and notes. */
    method SetSelectedRegion(region: Option<string>)
      modifies this
      ensures State() == old(State()).(selectedRegion := region, controlValues := [], notes := "")
    {
      selectedRegion := region;
      controlValues := [];
      notes := "";
    }

    /** Only the slider under `key` changes. */
    method SetControlValue(key: string, value: int)
      modifies this
      ensures State() == old(State()).(controlValues := JsRecord.Put(old(controlValues), key, value))
      ensures JsRecord.Get(controlValues, key) == Some(value)
      ensures forall k :: k != key ==> JsRecord.Get(controlValues, k) == JsRecord.Get(old(controlValues), k)
    {
      JsRecord.GetPutSame(controlValues, key, value);
      forall k | k != key
        ensures JsRecord.Get(JsRecord.Put(controlValues, key, value), k) == JsRecord.Get(controlValues, k)
      {
        JsRecord.GetPutOther(controlValues, key, value, k);
      }
      controlValues := JsRecord.Put(controlValues, key, value);
    }

    /** Clears the sliders and notes; the selected region stays. */
    method ResetControls()
      modifies this
      ensures State() == old(State()).(controlValues := [], notes := "")
    {
      controlValues := [];
      notes := "";
    }

    method SetNotes(n: string)
      modifies this
      ensures State() == old(State()).(notes := n)
    {
      notes := n;
    }

    /** Appends the entry after all earlier ones and shows its output image. */
    method AddVersion(entry: VersionEntry)
      modifies this
      ensures State() == old(State()).(history := old(history) + [entry], activeImage := Some(entry.outputImage))
      ensures |history| == |old(history)| + 1 && history[..|old(history)|] == old(history)
    {
      history := history + [entry];
      activeImage := Some(entry.outputImage);
    }

    method SetIsProcessing(value: bool)
      modifies this
      ensures State() == old(State()).(isProcessing := value)
    {
      isProcessing := value;
    }

    method SetLandmarks(lm: Option<seq<seq<real>>>)
      modifies this
      ensures State() == old(State()).(landmarks := lm)
    {
      landmarks := lm;
    }

    /** Back to `initialState`. */
    method Reset()
      modifies this
      ensures State() == Initial
    {
      step := Scan;
      capturedImage := None;
      activeImage := None;
      selectedRegion := None;
      controlValues := [];
      notes := "";
      history := [];
      isProcessing := false;
      landmarks := None;
    }
  }
}
