/** The data of the earlier app: its eight simulation regions, per-region slider records and history items. */
module ClinicalTypes {
  import JsRecord
  import opened Wrappers

  /** `SimulationRegion` */
  datatype SimulationRegion = Lips | Jawline | Chin | Cheeks | Nasolabial | UpperFace | TearTroughs | Nose {
    /** The region's string value. */
    function Name(): string {
      match this
      case Lips => "LIPS"
      case Jawline => "JAWLINE"
      case Chin => "CHIN"
      case Cheeks => "CHEEKS"
      case Nasolabial => "NASOLABIAL"
      case UpperFace => "UPPER_FACE"
      case TearTroughs => "TEAR_TROUGHS"
      case Nose => "NOSE"
    }
  }

  /** `RegionControls`: slider key to value (0..100), in entry order. */
  type RegionControls = JsRecord.Record<int>

  /** `SimulationState`: the slider record of each region. */
  type SimulationState = map<SimulationRegion, RegionControls>

  /** `HistoryItem` */
  datatype HistoryItem = HistoryItem(
    id: string, timestamp: int, originalImage: string, resultImage: string,
    region: SimulationRegion, controls: RegionControls, maskData: Option<string>)

  /** The region names are pairwise distinct. */
  lemma NamesAreDistinct(a: SimulationRegion, b: SimulationRegion)
    requires a != b
    ensures a.Name() != b.Name()
  {
  }
}
