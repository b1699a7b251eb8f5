/**
 * Region masks for the inpainting request and the region overlay shown over
 * the photo: the polygon of a facial region is read from a fixed table of
 * landmark indices, the indices that exist are scaled to pixels, and the
 * canvas is drawn only when at least three points remain. The drawing is
 * modelled as the list of canvas operations issued, not as pixels.
 */
module Masks {
  import opened Wrappers
  import Seqs
  import MeshBuilder
  import opened FaceLayout

  type Landmark = MeshBuilder.LandmarkPoint

  /*
   * The region table: each list visits the region's outline in order and
   * returns to its first landmark.
   */
  const LipsOutline: seq<nat> := [
    61, 146, 91, 181, 84, 17, 314, 405, 321, 375, 291,
    409, 270, 269, 267, 0, 37, 39, 40, 185, 61
  ]
  const JawlineOutline: seq<nat> := [
    172, 136, 150, 149, 176, 148, 152, 377, 400, 378, 379, 365, 397, 288,
    361, 435, 401, 366, 447, 264, 34, 227, 137, 177, 215, 172
  ]
  const ChinOutline: seq<nat> := [
    175, 171, 152, 396, 400, 377, 152, 148, 176, 140, 171, 175,
    199, 200, 201, 202, 211, 212, 216, 207, 187, 147, 213, 192,
    214, 135, 169, 170, 171, 175
  ]
  const CheeksOutline: seq<nat> := [
    123, 187, 147, 213, 192, 214, 135, 170, 171, 140, 176, 149,
    150, 136, 172, 215, 177, 137, 227, 34, 143, 116, 123
  ]
  const NasolabialOutline: seq<nat> := [
    102, 48, 115, 220, 45, 4, 275, 440, 344, 278,
    331, 294, 439, 278, 294, 455, 305, 289, 102
  ]
  const UpperFaceBrowLine: seq<nat> := [70, 63, 105, 66, 107, 55, 8, 285, 336, 296, 334, 293, 300]
  const UpperFaceTopLeft: seq<nat> := [151, 108, 69, 104, 68, 71, 21, 54, 103, 67, 109, 10]
  const UpperFaceTopRight: seq<nat> := [338, 297, 332, 284, 251, 301, 298, 333, 299, 337, 151]
  const UpperFaceBrowReturn: seq<nat> := [300, 293, 334, 296, 336, 285, 8, 55, 107, 66, 105, 63, 70]
  const UpperFaceOutline: seq<nat> := UpperFaceBrowLine + UpperFaceTopLeft + UpperFaceTopRight + UpperFaceBrowReturn
  const TearTroughsOutline: seq<nat> := [111, 117, 118, 119, 120, 121, 128, 245, 193, 122, 111]
  const NoseOutline: seq<nat> := [
    168, 6, 197, 195, 5, 4, 1, 19, 94, 2,
    98, 326, 327, 278, 279, 420, 399, 351, 168
  ]

  /** The table, keyed by the region names the app passes at run time. */
  const RegionLandmarks: map<string, seq<nat>> := map[
    "lips" := LipsOutline,
    "jawline" := JawlineOutline,
    "chin" := ChinOutline,
    "cheeks" := CheeksOutline,
    "nasolabial" := NasolabialOutline,
    "upperFace" := UpperFaceOutline,
    "tearTroughs" := TearTroughsOutline,
    "nose" := NoseOutline
  ]

  /** A canvas point in pixels. */
  datatype Point = Point(x: real, y: real)

  /** The paints the two canvases use. */
  datatype Paint = Black | White | TranslucentBlue

  /** The canvas operations issued, in order. */
  datatype DrawCommand =
    | FillRect(paint: Paint, width: real, height: real)
    | FillPolygon(paint: Paint, points: seq<Point>)
    | DashedOutline(points: seq<Point>)
    | Feather(radius: real)

  /** The default feather radius of the mask, in pixels. */
  const DefaultFeatherRadius: real := 8.0

  /** A landmark scaled from normalised coordinates to pixels. */
  function ToPixels(p: Landmark, width: real, height: real): Point {
    Point(p.x * width, p.y * height)
  }

  /**
   * The region's points: each index below the number of landmarks, in list
   * order, scaled to pixels. An index at or past the end is skipped without
   * being read.
   */
  function ResolvePoints(indices: seq<nat>, landmarks: seq<Landmark>, width: real, height: real): (points: seq<Point>)
    ensures |points| <= |indices|
  {
    if indices == [] then []
    else
      var rest := ResolvePoints(indices[1..], landmarks, width, height);
      if indices[0] < |landmarks| then [ToPixels(landmarks[indices[0]], width, height)] + rest
      else rest
  }

  /** The indices that name an existing landmark, in list order. */
  function InRange(indices: seq<nat>, count: nat): seq<nat> {
    Seqs.Filter(indices, i => i < count)
  }

  /** The resolved points are the in-range indices, kept in order, each mapped to its landmark in pixels. */
  lemma {:induction false} ResolvePointsIsFilterThenMap(indices: seq<nat>, landmarks: seq<Landmark>, width: real, height: real)
    ensures var kept := InRange(indices, |landmarks|);
      var points := ResolvePoints(indices, landmarks, width, height);
      && |points| == |kept|
      && forall j :: 0 <= j < |kept| ==> kept[j] < |landmarks| && points[j] == ToPixels(landmarks[kept[j]], width, height)
  {
    if indices != [] {
      ResolvePointsIsFilterThenMap(indices[1..], landmarks, width, height);
    }
  }

  /** When every index exists, every index yields a point. */
  lemma {:induction false} AllInRangeResolveAll(indices: seq<nat>, landmarks: seq<Landmark>, width: real, height: real)
    requires forall j :: 0 <= j < |indices| ==> indices[j] < |landmarks|
    ensures |ResolvePoints(indices, landmarks, width, height)| == |indices|
  {
    if indices != [] {
      AllInRangeResolveAll(indices[1..], landmarks, width, height);
    }
  }

  /** The region's polygon, or nothing when the region has no (non-empty) list or fewer than three points exist. */
  function RegionPolygon(landmarks: seq<Landmark>, region: string, width: real, height: real): (polygon: Option<seq<Point>>)
    ensures polygon.Some? <==>
      region in RegionLandmarks && |RegionLandmarks[region]| > 0 &&
      |ResolvePoints(RegionLandmarks[region], landmarks, width, height)| >= 3
    ensures polygon.Some? ==> polygon.value == ResolvePoints(RegionLandmarks[region], landmarks, width, height)
  {
    if region !in RegionLandmarks || |RegionLandmarks[region]| == 0 then None
    else
      var points := ResolvePoints(RegionLandmarks[region], landmarks, width, height);
      if |points| < 3 then None else Some(points)
  }

  /**
   * `generateRegionMask`: the canvas is filled black first; when the region
   * has a polygon it is filled white, and then blurred when the feather
   * radius is positive.
   */
  function RegionMask(landmarks: seq<Landmark>, region: string, width: real, height: real,
                      featherRadius: real := DefaultFeatherRadius)
    : (commands: seq<DrawCommand>)
    ensures |commands| >= 1 && commands[0] == FillRect(Black, width, height)
    ensures RegionPolygon(landmarks, region, width, height).None? ==> commands == [FillRect(Black, width, height)]
    ensures RegionPolygon(landmarks, region, width, height).Some? ==>
      |commands| >= 2 && commands[1] == FillPolygon(White, RegionPolygon(landmarks, region, width, height).value) &&
      (|commands| == 3 <==> featherRadius > 0.0) &&
      (featherRadius > 0.0 ==> commands[2] == Feather(featherRadius))
    ensures |commands| <= 3
  {
    var background := [FillRect(Black, width, height)];
    match RegionPolygon(landmarks, region, width, height)
    case None => background
    case Some(points) =>
      background + [FillPolygon(White, points)] + (if featherRadius > 0.0 then [Feather(featherRadius)] else [])
  }

  /**
   * `generateRegionOverlay`: no background; when the region has a polygon it
   * is filled translucent blue and outlined with a dashed line.
   */
  function RegionOverlay(landmarks: seq<Landmark>, region: string, width: real, height: real): (commands: seq<DrawCommand>)
    ensures RegionPolygon(landmarks, region, width, height).None? ==> commands == []
    ensures RegionPolygon(landmarks, region, width, height).Some? ==>
      var points := RegionPolygon(landmarks, region, width, height).value;
      commands == [FillPolygon(TranslucentBlue, points), DashedOutline(points)]
    ensures forall i :: 0 <= i < |commands| ==> !commands[i].FillRect?
  {
    match RegionPolygon(landmarks, region, width, height)
    case None => []
    case Some(points) => [FillPolygon(TranslucentBlue, points), DashedOutline(points)]
  }

  /** Every list in the table is a closed loop: non-empty, ending where it starts. */
  lemma OutlinesAreClosed()
    ensures forall r :: r in RegionLandmarks ==>
      |RegionLandmarks[r]| >= 3 && RegionLandmarks[r][0] == RegionLandmarks[r][|RegionLandmarks[r]| - 1]
  {
    assert UpperFaceOutline[0] == 70;
    assert UpperFaceOutline[|UpperFaceOutline| - 1] == 70;
  }

  /** Every index in the table names a landmark of the 468-point layout. */
  lemma OutlinesInLayout()
    ensures forall r :: r in RegionLandmarks ==> InLayout(RegionLandmarks[r])
  {
    LowerFaceInLayout();
    MidfaceInLayout();
    UpperFaceInLayout();
  }

  lemma LowerFaceInLayout()
    ensures InLayout(LipsOutline) && InLayout(JawlineOutline) && InLayout(ChinOutline)
  {}

  lemma MidfaceInLayout()
    ensures InLayout(CheeksOutline) && InLayout(NasolabialOutline)
    ensures InLayout(TearTroughsOutline) && InLayout(NoseOutline)
  {}

  lemma UpperFaceInLayout()
    ensures InLayout(UpperFaceOutline)
  {
    assert InLayout(UpperFaceBrowLine);
    assert InLayout(UpperFaceTopLeft);
    assert InLayout(UpperFaceTopRight);
    assert InLayout(UpperFaceBrowReturn);
    InLayoutAppend(UpperFaceBrowLine, UpperFaceTopLeft);
    InLayoutAppend(UpperFaceBrowLine + UpperFaceTopLeft, UpperFaceTopRight);
    InLayoutAppend(UpperFaceBrowLine + UpperFaceTopLeft + UpperFaceTopRight, UpperFaceBrowReturn);
  }

  /** With a full 468-point layout every tabled region resolves all its points and is drawn. */
  lemma FullLayoutDrawsEveryRegion(landmarks: seq<Landmark>, region: string, width: real, height: real)
    requires |landmarks| >= LayoutSize && region in RegionLandmarks
    ensures RegionPolygon(landmarks, region, width, height).Some?
    ensures |RegionPolygon(landmarks, region, width, height).value| == |RegionLandmarks[region]|
  {
    OutlinesInLayout();
    OutlinesAreClosed();
    AllInRangeResolveAll(RegionLandmarks[region], landmarks, width, height);
  }

  /** A region name missing from the table, such as a sub-region key, leaves the mask all black and the overlay empty. */
  lemma UntabledRegionDrawsNothing(landmarks: seq<Landmark>, region: string, width: real, height: real, featherRadius: real)
    requires region !in RegionLandmarks
    ensures RegionMask(landmarks, region, width, height, featherRadius) == [FillRect(Black, width, height)]
    ensures RegionOverlay(landmarks, region, width, height) == []
  {
  }
}
