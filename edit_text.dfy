/**
 * The edit wording shared by the prompt builder and the default prompt
 * configuration: for each facial region, its controls in declaration order,
 * each with four descriptions from the slightest to the most dramatic, and
 * the phrase naming the region's location.
 */
module EditText {
  import JsRecord

  /** The four wording levels: 1-25, 26-50, 51-75 and 76-100 on the slider. */
  datatype Intensity = Slight | Noticeable | Significant | Dramatic

  /** A control's four descriptions, one per level. */
  datatype Wording = Wording(slight: string, noticeable: string, significant: string, dramatic: string) {
    function At(level: Intensity): string {
      match level
      case Slight => slight
      case Noticeable => noticeable
      case Significant => significant
      case Dramatic => dramatic
    }
  }

  const LipsVolume: Wording := Wording(
    "Make the lips slightly fuller, as if a small amount of lip filler was injected.",
    "Make the lips noticeably fuller and plumper, with visibly more volume in both upper and lower lips.",
    "Make the lips significantly fuller with prominent volume increase. The lips should look like they received a substantial dermal filler treatment.",
    "Make the lips dramatically fuller and very plump. Both lips should be visibly large and voluminous, like a heavy lip filler result."
  )
  const LipsProjection: Wording := Wording(
    "Slightly increase the forward projection of the lips.",
    "Make the lips project forward more noticeably from the face.",
    "Significantly increase lip projection so they protrude forward prominently.",
    "Dramatically increase lip projection for a very pronounced, pouty appearance."
  )
  const LipsDefinition: Wording := Wording(
    "Slightly sharpen the lip border (vermillion border) for better definition.",
    "Make the lip border clearly more defined and sharp, with a distinct cupid's bow.",
    "Significantly enhance lip border definition with a very crisp, well-defined vermillion border.",
    "Create dramatically sharp and perfectly defined lip borders with an exaggerated cupid's bow."
  )
  const LipsWidth: Wording := Wording(
    "Slightly widen the lips horizontally.",
    "Noticeably widen the lips for a broader smile shape.",
    "Significantly widen the lips horizontally.",
    "Dramatically widen the lips for a much broader mouth appearance."
  )
  const JawlineDefinition: Wording := Wording(
    "Slightly sharpen the jawline for a more defined mandibular border.",
    "Make the jawline noticeably sharper and more chiseled.",
    "Create a significantly more defined, angular jawline with clear bone structure visible.",
    "Dramatically sculpt the jawline to be extremely sharp and angular, like a model's jawline."
  )
  const JawlineContour: Wording := Wording(
    "Slightly refine the overall jawline contour for a cleaner shape.",
    "Noticeably improve jawline contour with a smoother, more refined shape.",
    "Significantly reshape the jawline contour for a sculpted, V-shaped lower face.",
    "Dramatically reshape the jawline into a perfectly contoured, sculpted V-shape."
  )
  const JawlineAngle: Wording := Wording(
    "Slightly increase the angular appearance of the jaw angle.",
    "Make the jaw angle noticeably more angular and defined.",
    "Create a significantly more angular jaw with sharp mandibular angles.",
    "Dramatically enhance the jaw angles for an extremely angular, square-jawed appearance."
  )
  const ChinProjection: Wording := Wording(
    "Slightly increase chin projection, moving it slightly forward.",
    "Noticeably increase chin projection for better facial balance.",
    "Significantly project the chin forward, like a chin implant or substantial filler.",
    "Dramatically increase chin projection for a very prominent, strong chin."
  )
  const ChinLength: Wording := Wording(
    "Slightly elongate the chin vertically.",
    "Noticeably lengthen the chin for a more elongated lower face.",
    "Significantly lengthen the chin vertically.",
    "Dramatically elongate the chin for a much longer lower face proportion."
  )
  const ChinWidth: Wording := Wording(
    "Slightly widen the chin.",
    "Noticeably widen the chin for a broader lower face.",
    "Significantly widen the chin.",
    "Dramatically widen the chin for a much broader appearance."
  )
  const CheeksVolume: Wording := Wording(
    "Add a subtle amount of volume to the cheeks, like a light cheek filler.",
    "Add noticeable volume to the cheeks, making them fuller and rounder, like mid-face filler.",
    "Add significant volume to the cheeks for prominently full, round cheekbones.",
    "Add dramatic volume to the cheeks for very full, prominent, apple-shaped cheeks."
  )
  const CheeksLift: Wording := Wording(
    "Slightly lift the cheekbones upward for a subtle lifted appearance.",
    "Noticeably lift the cheekbones higher on the face.",
    "Significantly lift and elevate the cheekbones for a high-cheekbone look.",
    "Dramatically lift the cheekbones to their highest position for a supermodel cheekbone effect."
  )
  const CheeksProjection: Wording := Wording(
    "Slightly increase the forward projection of the cheekbones.",
    "Noticeably increase cheekbone projection for more prominent cheeks.",
    "Significantly project the cheekbones forward for very prominent mid-face structure.",
    "Dramatically increase cheekbone projection for extremely prominent, sculpted cheekbones."
  )
  const NasolabialDepthReduction: Wording := Wording(
    "Slightly reduce the depth of the nasolabial folds (smile lines from nose to mouth).",
    "Noticeably reduce the nasolabial folds, making the smile lines visibly shallower.",
    "Significantly reduce the nasolabial folds, making them much less visible.",
    "Almost completely eliminate the nasolabial folds for a smooth transition from nose to mouth."
  )
  const NasolabialSmoothing: Wording := Wording(
    "Slightly smooth the skin around the nasolabial area.",
    "Noticeably smooth and soften the nasolabial fold area.",
    "Significantly smooth the entire nasolabial area for a much younger appearance.",
    "Dramatically smooth the nasolabial area, removing nearly all creases and folds."
  )
  const UpperFaceRelaxation: Wording := Wording(
    "Slightly relax the forehead lines, like a mild Botox effect.",
    "Noticeably smooth forehead wrinkles and frown lines, like a Botox treatment.",
    "Significantly relax all forehead muscles, removing most wrinkles and furrows.",
    "Completely smooth the forehead, removing all wrinkles, lines, and furrows for a perfectly smooth forehead."
  )
  const UpperFaceLift: Wording := Wording(
    "Slightly lift the eyebrows upward.",
    "Noticeably lift the brow position for a more open, refreshed eye area.",
    "Significantly lift the eyebrows for a prominent brow lift effect.",
    "Dramatically lift the eyebrows to their highest natural position, creating a very open, arched look."
  )
  const UpperFaceSmoothing: Wording := Wording(
    "Slightly smooth the forehead skin texture.",
    "Noticeably improve forehead skin smoothness and texture.",
    "Significantly smooth the entire forehead for a refined, youthful texture.",
    "Create a perfectly smooth, poreless forehead with flawless skin texture."
  )
  const TearTroughsFill: Wording := Wording(
    "Slightly fill the under-eye hollows to reduce the tired, sunken appearance.",
    "Noticeably fill the tear troughs, reducing dark circles and hollow appearance under the eyes.",
    "Significantly fill the tear troughs for a well-rested, refreshed under-eye area with minimal hollowing.",
    "Completely fill the tear troughs, eliminating all hollowing and dark circles under the eyes."
  )
  const TearTroughsSmoothing: Wording := Wording(
    "Slightly smooth the under-eye skin.",
    "Noticeably smooth the transition between lower eyelid and cheek.",
    "Significantly smooth the entire under-eye area for a rejuvenated look.",
    "Perfectly smooth the under-eye area, creating a seamless transition from eye to cheek."
  )
  const NoseBridgeHeight: Wording := Wording(
    "Slightly raise the nasal bridge height.",
    "Noticeably increase the nasal bridge height for a more prominent nose bridge.",
    "Significantly raise the nasal bridge for a higher, more defined nose profile.",
    "Dramatically increase nasal bridge height for a very prominent, high nose bridge."
  )
  const NoseTipProjection: Wording := Wording(
    "Slightly refine and project the nose tip forward.",
    "Noticeably project the nasal tip forward for better tip definition.",
    "Significantly increase nose tip projection for a more prominent, defined tip.",
    "Dramatically project the nose tip forward with maximum tip refinement."
  )
  const NoseWidth: Wording := Wording(
    "Slightly narrow the nostrils and overall nose width.",
    "Noticeably narrow the nose, reducing nostril width for a slimmer nose.",
    "Significantly narrow the nose for a much slimmer nasal appearance.",
    "Dramatically narrow the nose for the slimmest possible natural appearance."
  )

  /** The controls of each region with their wordings, in declaration order. */
  const Descriptions: JsRecord.Record<JsRecord.Record<Wording>> := [
    ("lips", [("volume", LipsVolume), ("projection", LipsProjection), ("definition", LipsDefinition), ("width", LipsWidth)]),
    ("jawline", [("definition", JawlineDefinition), ("contour", JawlineContour), ("angle", JawlineAngle)]),
    ("chin", [("projection", ChinProjection), ("length", ChinLength), ("width", ChinWidth)]),
    ("cheeks", [("volume", CheeksVolume), ("lift", CheeksLift), ("projection", CheeksProjection)]),
    ("nasolabial", [("depthReduction", NasolabialDepthReduction), ("smoothing", NasolabialSmoothing)]),
    ("upperFace", [("relaxation", UpperFaceRelaxation), ("lift", UpperFaceLift), ("smoothing", UpperFaceSmoothing)]),
    ("tearTroughs", [("fill", TearTroughsFill), ("smoothing", TearTroughsSmoothing)]),
    ("nose", [("bridgeHeight", NoseBridgeHeight), ("tipProjection", NoseTipProjection), ("width", NoseWidth)])
  ]

  /** The phrase naming each region's location. */
  const RegionLocation: map<string, string> := map[
    "lips" := "the lips",
    "jawline" := "the jawline",
    "chin" := "the chin",
    "cheeks" := "the cheeks",
    "nasolabial" := "the nasolabial folds (smile lines)",
    "upperFace" := "the forehead and brow area",
    "tearTroughs" := "the under-eye area (tear troughs)",
    "nose" := "the nose"
  ]

  /** The wording level of a slider value: at most 25, 50 or 75, or above. */
  function Level(v: int): (level: Intensity)
    ensures level == Slight <==> v <= 25
    ensures level == Noticeable <==> 25 < v <= 50
    ensures level == Significant <==> 50 < v <= 75
    ensures level == Dramatic <==> 75 < v
  {
    if v <= 25 then Slight
    else if v <= 50 then Noticeable
    else if v <= 75 then Significant
    else Dramatic
  }

  /** A higher slider value never picks a milder level. */
  lemma LevelIsMonotone(v: int, w: int)
    requires v <= w
    ensures Rank(Level(v)) <= Rank(Level(w))
  {
  }

  function Rank(level: Intensity): nat {
    match level
    case Slight => 0
    case Noticeable => 1
    case Significant => 2
    case Dramatic => 3
  }

  /** Every described region has a location phrase, and no region or control key is listed twice. */
  lemma TableIsWellFormed()
    ensures JsRecord.DistinctKeys(Descriptions)
    ensures forall i :: 0 <= i < |Descriptions| ==>
      Descriptions[i].0 in RegionLocation && JsRecord.DistinctKeys(Descriptions[i].1)
  {
  }
}
