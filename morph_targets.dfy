/**
 * The static catalogs of the simulation engine: the filler morph targets
 * (which landmarks move, in which direction, by at most how much) and the
 * Botox zones (which UV rectangle is smoothed, by at most how much), with
 * their lookups by name and by sub-region.
 */
module MorphTargets {
  import opened Wrappers
  import Seqs
  import opened Vectors
  import opened FaceLayout

  /** `deformationType`: along the vertex normals, or along `customDirection`. */
  datatype DeformationType = Normal | Custom

  datatype MorphTarget = MorphTarget(
    name: string,
    region: string,
    category: string,
    affectedVertices: seq<nat>,
    deformationType: DeformationType,
    customDirection: Option<Vec3>,
    maxDisplacement: real)

  /** `uvBounds`: the rectangle minU..maxU × minV..maxV of texture space. */
  datatype UvBounds = UvBounds(minU: real, maxU: real, minV: real, maxV: real)

  datatype BotoxZone = BotoxZone(
    name: string,
    region: string,
    category: string,
    uvBounds: UvBounds,
    landmarkIndices: seq<nat>,
    maxBlurStrength: real)

  // Landmark index lists, one per catalog entry.

  const LipsUpperVolumeVertices: seq<nat> := [
    61, 185, 40, 39, 37, 0, 267, 269, 270, 409, 291, 308, 415, 310, 311, 312, 13, 82, 81, 80,
    191, 78]

  const LipsLowerVolumeVertices: seq<nat> := [
    61, 146, 91, 181, 84, 17, 314, 405, 321, 375, 291, 308, 324, 318, 402, 317, 14, 87, 178,
    88, 95, 78]

  const LipsVermilionDefinitionVertices: seq<nat> := [
    61, 185, 40, 39, 37, 0, 267, 269, 270, 409, 291, 375, 321, 405, 314, 17, 84, 181, 91, 146]

  const LipsCupidsBowVertices: seq<nat> := [
    37, 0, 267, 312, 311, 310, 13, 82, 81, 80, 39]

  const LipsCornersLiftVertices: seq<nat> := [
    61, 146, 91, 95, 78, 191, 185, 291, 375, 321, 324, 308, 415, 409]

  const CheeksVolumeVertices: seq<nat> := [
    116, 123, 147, 187, 207, 216, 212, 202, 201, 200, 199, 175, 171, 140, 176, 149, 150, 136,
    172, 215, 177, 137, 345, 352, 376, 411, 427, 436, 432, 422, 421, 420, 419, 399, 400, 369,
    395, 378, 379, 365, 397, 435, 401, 366]

  const MidfaceVolumeVertices: seq<nat> := [
    116, 111, 117, 118, 119, 100, 142, 126, 209, 49, 48, 102, 331, 294, 278, 429, 355, 371,
    266, 329, 348, 347, 346, 345]

  const NasolabialFillVertices: seq<nat> := [
    102, 48, 115, 220, 45, 4, 1, 61, 146, 91, 181, 84, 17, 314, 405, 321, 375, 291, 409, 270,
    269, 4, 275, 440, 344, 278, 331]

  const TearTroughFillVertices: seq<nat> := [
    111, 117, 118, 119, 120, 121, 128, 245, 193, 122, 340, 346, 347, 348, 349, 350, 357, 465,
    417, 351]

  const ChinProjectionVertices: seq<nat> := [
    17, 84, 181, 91, 146, 61, 43, 106, 182, 83, 18, 313, 406, 335, 273, 291, 375, 321, 405,
    314, 175, 171, 152, 396, 400]

  const JawlineDefinitionVertices: seq<nat> := [
    172, 136, 150, 149, 176, 148, 152, 377, 400, 378, 379, 365, 397, 288, 361, 435, 401, 366,
    447, 264, 34, 227, 137, 177, 215]

  const MarionetteFillVertices: seq<nat> := [
    61, 43, 106, 182, 83, 18, 17, 84, 181, 91, 146, 291, 273, 335, 406, 313, 18, 17, 314, 405,
    321, 375]

  const PrejowlFillVertices: seq<nat> := [
    58, 172, 215, 177, 137, 227, 34, 143, 111, 117, 288, 397, 435, 401, 366, 447, 264, 372,
    340, 346]

  const NoseBridgeHeightVertices: seq<nat> := [
    168, 6, 197, 195, 5, 4, 45, 220, 115, 48, 64, 98, 327, 294, 331, 279, 278, 439, 344, 275]

  const NoseTipProjectionVertices: seq<nat> := [
    1, 2, 98, 240, 64, 48, 115, 4, 344, 275, 294, 460, 327]

  const ForeheadLinesLandmarks: seq<nat> := [
    10, 109, 67, 103, 54, 21, 71, 68, 104, 69, 108, 151, 337, 299, 333, 298, 301, 251, 284,
    332, 297, 338]

  const GlabellaElevensLandmarks: seq<nat> := [
    9, 107, 66, 105, 63, 70, 156, 168, 6, 197, 383, 300, 293, 334, 296, 336]

  const CrowsFeetLeftLandmarks: seq<nat> := [
    130, 247, 30, 29, 27, 28, 56, 190, 243, 112, 26, 22, 23, 24, 110, 25]

  const CrowsFeetRightLandmarks: seq<nat> := [
    359, 467, 260, 259, 257, 258, 286, 414, 463, 341, 256, 252, 253, 254, 339, 255]

  const BunnyLinesLandmarks: seq<nat> := [
    168, 6, 197, 195, 5, 4]

  /** `FILLER_MORPH_TARGETS`, in catalog order. */
  const FillerMorphTargets: seq<MorphTarget> := [
    // Lips: volume injection
    MorphTarget("lips_upper_volume", "lips_upperLip", "lips",
      LipsUpperVolumeVertices, Normal, None, 0.04),
    MorphTarget("lips_lower_volume", "lips_lowerLip", "lips",
      LipsLowerVolumeVertices, Normal, None, 0.05),
    MorphTarget("lips_vermilion_definition", "lips_vermilionBorder", "lips",
      LipsVermilionDefinitionVertices, Normal, None, 0.02),
    MorphTarget("lips_cupids_bow", "lips_cupidsBow", "lips",
      LipsCupidsBowVertices, Custom, Some(Vec3(0.0, -0.7, 0.7)), 0.03),
    MorphTarget("lips_corners_lift", "lips_mouthCorners", "lips",
      LipsCornersLiftVertices, Custom, Some(Vec3(0.0, -0.8, 0.3)), 0.04),
    // Cheeks and midface: volume restoration
    MorphTarget("cheeks_volume", "cheeksMidface_cheek", "cheeksMidface",
      CheeksVolumeVertices, Normal, None, 0.06),
    MorphTarget("midface_volume", "cheeksMidface_midfaceVolume", "cheeksMidface",
      MidfaceVolumeVertices, Normal, None, 0.05),
    MorphTarget("nasolabial_fill", "cheeksMidface_nasolabialFold", "cheeksMidface",
      NasolabialFillVertices, Normal, None, 0.04),
    // Under-eye: tear-trough filling
    MorphTarget("tear_trough_fill", "underEye_tearTrough", "underEye",
      TearTroughFillVertices, Normal, None, 0.03),
    // Lower face: chin and jawline contouring
    MorphTarget("chin_projection", "lowerFace_chin", "lowerFace",
      ChinProjectionVertices, Custom, Some(Vec3(0.0, 1.0, 0.0)), 0.06),
    MorphTarget("jawline_definition", "lowerFace_jawline", "lowerFace",
      JawlineDefinitionVertices, Normal, None, 0.04),
    MorphTarget("marionette_fill", "lowerFace_marionetteLines", "lowerFace",
      MarionetteFillVertices, Normal, None, 0.03),
    MorphTarget("prejowl_fill", "lowerFace_preJowl", "lowerFace",
      PrejowlFillVertices, Normal, None, 0.04),
    // Nose: non-surgical rhinoplasty
    MorphTarget("nose_bridge_height", "nose_bridge", "nose",
      NoseBridgeHeightVertices, Custom, Some(Vec3(0.0, -1.0, 0.0)), 0.03),
    MorphTarget("nose_tip_projection", "nose_tip", "nose",
      NoseTipProjectionVertices, Custom, Some(Vec3(0.0, 1.0, 0.0)), 0.02)
  ]

  /** `BOTOX_ZONES`, in catalog order. */
  const BotoxZones: seq<BotoxZone> := [
    BotoxZone("forehead_lines", "upperFace_forehead", "upperFace",
      UvBounds(0.2, 0.8, 0.0, 0.25), ForeheadLinesLandmarks, 0.8),
    BotoxZone("glabella_11s", "upperFace_glabella", "upperFace",
      UvBounds(0.35, 0.65, 0.15, 0.35), GlabellaElevensLandmarks, 0.9),
    BotoxZone("crows_feet_left", "upperFace_crowsFeet", "upperFace",
      UvBounds(0.0, 0.2, 0.25, 0.45), CrowsFeetLeftLandmarks, 0.7),
    BotoxZone("crows_feet_right", "upperFace_crowsFeet", "upperFace",
      UvBounds(0.8, 1.0, 0.25, 0.45), CrowsFeetRightLandmarks, 0.7),
    BotoxZone("bunny_lines", "nose_bridge", "nose",
      UvBounds(0.4, 0.6, 0.35, 0.45), BunnyLinesLandmarks, 0.5)
  ]

  /** `getMorphTarget(name)` */
  function GetMorphTarget(name: string): (r: Option<MorphTarget>)
    ensures r.None? <==> forall i :: 0 <= i < |FillerMorphTargets| ==> FillerMorphTargets[i].name != name
    ensures r.Some? ==> exists i :: 0 <= i < |FillerMorphTargets| && FillerMorphTargets[i] == r.value
                          && r.value.name == name
                          && forall j :: 0 <= j < i ==> FillerMorphTargets[j].name != name
  {
    Seqs.FindFirst(FillerMorphTargets, (t: MorphTarget) => t.name == name)
  }

  /** `getMorphTargetsForRegion(region)` */
  function GetMorphTargetsForRegion(region: string): (r: seq<MorphTarget>)
    ensures forall i :: 0 <= i < |r| ==> r[i] in FillerMorphTargets && r[i].region == region
    ensures forall i :: 0 <= i < |FillerMorphTargets| && FillerMorphTargets[i].region == region ==>
              FillerMorphTargets[i] in r
  {
    Seqs.Filter(FillerMorphTargets, (t: MorphTarget) => t.region == region)
  }

  /** `getBotoxZone(name)` */
  function GetBotoxZone(name: string): (r: Option<BotoxZone>)
    ensures r.None? <==> forall i :: 0 <= i < |BotoxZones| ==> BotoxZones[i].name != name
    ensures r.Some? ==> exists i :: 0 <= i < |BotoxZones| && BotoxZones[i] == r.value
                          && r.value.name == name
                          && forall j :: 0 <= j < i ==> BotoxZones[j].name != name
  {
    Seqs.FindFirst(BotoxZones, (z: BotoxZone) => z.name == name)
  }

  /** `getBotoxZonesForRegion(region)` */
  function GetBotoxZonesForRegion(region: string): (r: seq<BotoxZone>)
    ensures forall i :: 0 <= i < |r| ==> r[i] in BotoxZones && r[i].region == region
    ensures forall i :: 0 <= i < |BotoxZones| && BotoxZones[i].region == region ==> BotoxZones[i] in r
  {
    Seqs.Filter(BotoxZones, (z: BotoxZone) => z.region == region)
  }

  /** The morph-target names, in table order. */
  const MorphTargetNames: seq<string> :=
    ["lips_upper_volume", "lips_lower_volume", "lips_vermilion_definition", "lips_cupids_bow",
     "lips_corners_lift", "cheeks_volume", "midface_volume", "nasolabial_fill",
     "tear_trough_fill", "chin_projection", "jawline_definition", "marionette_fill",
     "prejowl_fill", "nose_bridge_height", "nose_tip_projection"]

  lemma MorphTargetNamesDistinct()
    ensures forall i, j :: 0 <= i < j < |MorphTargetNames| ==> MorphTargetNames[i] != MorphTargetNames[j]
  {}

  /** Morph-target names are pairwise distinct. */
  lemma TargetNamesDistinct()
    ensures forall i, j :: 0 <= i < j < |FillerMorphTargets| ==>
              FillerMorphTargets[i].name != FillerMorphTargets[j].name
  {
    var names := seq(|FillerMorphTargets|, i requires 0 <= i < |FillerMorphTargets| => FillerMorphTargets[i].name);
    assert names == MorphTargetNames;
    MorphTargetNamesDistinct();
  }

  /** The morph targets' sub-regions, in table order. */
  const MorphTargetRegions: seq<string> :=
    ["lips_upperLip", "lips_lowerLip", "lips_vermilionBorder", "lips_cupidsBow",
     "lips_mouthCorners", "cheeksMidface_cheek", "cheeksMidface_midfaceVolume",
     "cheeksMidface_nasolabialFold", "underEye_tearTrough", "lowerFace_chin",
     "lowerFace_jawline", "lowerFace_marionetteLines", "lowerFace_preJowl", "nose_bridge",
     "nose_tip"]

  lemma MorphTargetRegionsDistinct()
    ensures forall i, j :: 0 <= i < j < |MorphTargetRegions| ==> MorphTargetRegions[i] != MorphTargetRegions[j]
  {}

  /** No two morph targets share a sub-region. */
  lemma TargetRegionsDistinct()
    ensures forall i, j :: 0 <= i < j < |FillerMorphTargets| ==>
              FillerMorphTargets[i].region != FillerMorphTargets[j].region
  {
    var regions := seq(|FillerMorphTargets|, i requires 0 <= i < |FillerMorphTargets| => FillerMorphTargets[i].region);
    assert regions == MorphTargetRegions;
    MorphTargetRegionsDistinct();
  }

  /** Hence a sub-region that has a target has exactly that one. */
  lemma OneTargetPerRegion(i: nat)
    requires i < |FillerMorphTargets|
    ensures GetMorphTargetsForRegion(FillerMorphTargets[i].region) == [FillerMorphTargets[i]]
  {
    TargetRegionsDistinct();
    Seqs.FilterUnique(FillerMorphTargets, (t: MorphTarget) => t.region == FillerMorphTargets[i].region, i);
  }

  /** A `Custom` target carries a `customDirection`, a `Normal` one none. */
  lemma CustomTargetsCarryDirection()
    ensures forall t :: t in FillerMorphTargets ==> (t.deformationType == Custom <==> t.customDirection.Some?)
  {}

  /** Every displacement is in (0, 0.06] and every blur strength in (0, 1]. */
  lemma DisplacementAndBlurBounds()
    ensures forall t :: t in FillerMorphTargets ==> 0.0 < t.maxDisplacement <= 0.06
    ensures forall z :: z in BotoxZones ==> 0.0 < z.maxBlurStrength <= 1.0
  {}

  /** Every zone is a non-empty rectangle inside the unit UV square. */
  lemma ZoneRectanglesValid()
    ensures forall z :: z in BotoxZones ==>
              0.0 <= z.uvBounds.minU < z.uvBounds.maxU <= 1.0 && 0.0 <= z.uvBounds.minV < z.uvBounds.maxV <= 1.0
  {}

  /** Every landmark index in both catalogs lies in the 468-point layout. */
  lemma CatalogIndicesInLayout()
    ensures forall t :: t in FillerMorphTargets ==> InLayout(t.affectedVertices)
    ensures forall z :: z in BotoxZones ==> InLayout(z.landmarkIndices)
  {
    LipIndicesInLayout();
    MidfaceIndicesInLayout();
    FoldIndicesInLayout();
    LowerFaceIndicesInLayout();
    ZoneIndicesInLayout();
    var f, z := FillerMorphTargets, BotoxZones;
    assert forall i :: 0 <= i < |f| ==> InLayout(f[i].affectedVertices);
    assert forall i :: 0 <= i < |z| ==> InLayout(z[i].landmarkIndices);
    forall t | t in f ensures InLayout(t.affectedVertices) {
      var i :| 0 <= i < |f| && f[i] == t;
    }
    forall t | t in z ensures InLayout(t.landmarkIndices) {
      var i :| 0 <= i < |z| && z[i] == t;
    }
  }

  lemma LipIndicesInLayout()
    ensures InLayout(LipsUpperVolumeVertices) && InLayout(LipsLowerVolumeVertices)
    ensures InLayout(LipsVermilionDefinitionVertices) && InLayout(LipsCupidsBowVertices)
    ensures InLayout(LipsCornersLiftVertices)
  {}

  lemma MidfaceIndicesInLayout()
    ensures InLayout(CheeksVolumeVertices) && InLayout(MidfaceVolumeVertices)
  {}

  lemma FoldIndicesInLayout()
    ensures InLayout(NasolabialFillVertices) && InLayout(TearTroughFillVertices)
  {}

  lemma LowerFaceIndicesInLayout()
    ensures InLayout(ChinProjectionVertices) && InLayout(JawlineDefinitionVertices)
    ensures InLayout(MarionetteFillVertices) && InLayout(PrejowlFillVertices)
    ensures InLayout(NoseBridgeHeightVertices) && InLayout(NoseTipProjectionVertices)
  {}

  lemma ZoneIndicesInLayout()
    ensures InLayout(ForeheadLinesLandmarks) && InLayout(GlabellaElevensLandmarks)
    ensures InLayout(CrowsFeetLeftLandmarks) && InLayout(CrowsFeetRightLandmarks)
    ensures InLayout(BunnyLinesLandmarks)
  {}

  /** The crow's-feet sub-region has two zones, left then right. */
  lemma CrowsFeetHasTwoZones()
    ensures |GetBotoxZonesForRegion("upperFace_crowsFeet")| == 2
    ensures GetBotoxZonesForRegion("upperFace_crowsFeet")[0].name == "crows_feet_left"
    ensures GetBotoxZonesForRegion("upperFace_crowsFeet")[1].name == "crows_feet_right"
  {
    var p := (z: BotoxZone) => z.region == "upperFace_crowsFeet";
    var z := BotoxZones;
    assert z[0].region[10] == 'f' && z[1].region[10] == 'g' && z[4].region[0] == 'n';
    assert !p(z[0]) && !p(z[1]) && p(z[2]) && p(z[3]) && !p(z[4]);
    assert z[1..][1..] == z[2..] && z[2..][1..] == z[3..] && z[3..][1..] == z[4..] && z[4..][1..] == [];
    assert Seqs.Filter(z[4..], p) == [];
    assert Seqs.Filter(z[2..], p) == [z[2], z[3]];
    assert Seqs.Filter(z, p) == Seqs.Filter(z[2..], p);
  }

  /** Index lists may repeat a landmark: `nasolabial_fill` lists 4 twice. */
  lemma IndexListsMayRepeat()
    ensures FillerMorphTargets[7].name == "nasolabial_fill"
    ensures FillerMorphTargets[7].affectedVertices == NasolabialFillVertices
    ensures NasolabialFillVertices[5] == 4 == NasolabialFillVertices[21]
  {}
}
