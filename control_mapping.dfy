/**
 * Mapping the per-sub-region slider values of the control panel onto the
 * intensities of the filler morph targets: a weighted mean of the active
 * (non-zero) sliders, clamped to [0, 1], written under the sub-region's one
 * morph target; and the cumulative state of a whole history of such edits.
 */
module ControlMapping {
  import opened Wrappers
  import JsRecord
  import JsMath
  import Seqs
  import MorphTargets

  /** `RegionControlValues`: slider key to slider value (0..100 from the sliders). */
  type ControlValues = JsRecord.Record<int>

  /** A row of the weight table: control key to its weight. */
  type Weights = JsRecord.Record<real>

  /** `SimulationState`: intensity per morph target and per Botox zone. */
  datatype SimulationState = SimulationState(fillerValues: map<string, real>, botoxValues: map<string, real>)

  const EmptyState: SimulationState := SimulationState(map[], map[])

  /** One applied edit of the history. */
  datatype HistoryEntry = HistoryEntry(subRegion: string, controlValues: ControlValues)

  /** `CONTROL_WEIGHT_MAP`, in declaration order. */
  const ControlWeightMap: JsRecord.Record<Weights> := [
    // Lips
    ("lips_upperLip", [("volume", 0.5), ("projection", 0.3), ("eversion", 0.2)]),
    ("lips_lowerLip", [("volume", 0.5), ("projection", 0.3), ("definition", 0.2)]),
    ("lips_vermilionBorder", [("definition", 0.6), ("enhancement", 0.4)]),
    ("lips_cupidsBow", [("definition", 0.5), ("height", 0.5)]),
    ("lips_mouthCorners", [("lift", 0.6), ("volumization", 0.4)]),
    // Cheeks and midface
    ("cheeksMidface_cheek", [("volume", 0.5), ("lift", 0.25), ("projection", 0.25)]),
    ("cheeksMidface_midfaceVolume", [("volume", 0.6), ("lift", 0.4)]),
    ("cheeksMidface_nasolabialFold", [("depthReduction", 0.6), ("smoothing", 0.4)]),
    // Under-eye
    ("underEye_tearTrough", [("fill", 0.5), ("smoothing", 0.3), ("darkness", 0.2)]),
    // Lower face
    ("lowerFace_chin", [("projection", 0.5), ("length", 0.25), ("width", 0.25)]),
    ("lowerFace_jawline", [("definition", 0.5), ("contour", 0.3), ("angle", 0.2)]),
    ("lowerFace_marionetteLines", [("depthReduction", 0.6), ("smoothing", 0.4)]),
    ("lowerFace_preJowl", [("volume", 0.6), ("contouring", 0.4)]),
    // Nose (the nose base has no morph target)
    ("nose_bridge", [("height", 0.5), ("smoothing", 0.3), ("width", 0.2)]),
    ("nose_tip", [("projection", 0.5), ("rotation", 0.3), ("definition", 0.2)])
  ]

  // ----- Specification -------------------------------------------------------

  /** The slider value read for a control key: `controlValues[key] ?? 0`. */
  function SliderValue(values: ControlValues, key: string): int {
    JsRecord.GetOr(values, key, 0)
  }

  /**
   * `(weightedSum, activeWeight)` after the loop has visited the entries of
   * `weights` in order: only a control whose value is positive contributes.
   */
  function Totals(weights: Weights, values: ControlValues): (real, real)
    decreases |weights|
  {
    if weights == [] then (0.0, 0.0)
    else
      var prior := Totals(weights[..|weights| - 1], values);
      var entry := weights[|weights| - 1];
      var value := SliderValue(values, entry.0);
      if value > 0 then (prior.0 + (value as real / 100.0) * entry.1, prior.1 + entry.1)
      else prior
  }

  /** Visiting entry i adds its weighted value when its slider is positive. */
  lemma TotalsStep(weights: Weights, values: ControlValues, i: nat)
    requires i < |weights|
    ensures var prior := Totals(weights[..i], values);
            var value := SliderValue(values, weights[i].0);
            && Totals(weights[..i + 1], values).0 == (if value > 0 then prior.0 + (value as real / 100.0) * weights[i].1 else prior.0)
            && Totals(weights[..i + 1], values).1 == (if value > 0 then prior.1 + weights[i].1 else prior.1)
  {
    var w' := weights[..i + 1];
    assert w'[..|w'| - 1] == weights[..i];
    assert w'[|w'| - 1] == weights[i];
  }

  /** The weighted mean of the active controls, clamped to [0, 1]; 0 when none is active. */
  function Intensity(weights: Weights, values: ControlValues): (r: real)
    ensures 0.0 <= r <= 1.0
  {
    var (sum, active) := Totals(weights, values);
    JsMath.ClampUnit(if active > 0.0 then sum / active else 0.0)
  }

  /** `mapControlsToSimulation(subRegion, controlValues, existingState)` */
  function MapControls(subRegion: string, values: ControlValues, existing: Option<SimulationState>): (r: SimulationState)
    ensures var base := existing.GetOr(EmptyState);
      && r.botoxValues == base.botoxValues
      && r.fillerValues.Keys >= base.fillerValues.Keys
      && forall k :: k in r.fillerValues && (k !in base.fillerValues || r.fillerValues[k] != base.fillerValues[k]) ==>
           0.0 <= r.fillerValues[k] <= 1.0
  {
    var base := existing.GetOr(EmptyState);
    match JsRecord.Get(ControlWeightMap, subRegion)
    case None => base
    case Some(weights) =>
      var targets := MorphTargets.GetMorphTargetsForRegion(subRegion);
      if |targets| == 0 then base
      else base.(fillerValues := base.fillerValues[targets[0].name := Intensity(weights, values)])
  }

  /** The state after applying the edits of `history` in order to the empty state. */
  function Cumulative(history: seq<HistoryEntry>): (r: SimulationState)
    ensures r.botoxValues == map[]
    ensures forall k :: k in r.fillerValues ==> 0.0 <= r.fillerValues[k] <= 1.0
    decreases |history|
  {
    if history == [] then EmptyState
    else
      var last := history[|history| - 1];
      MapControls(last.subRegion, last.controlValues, Some(Cumulative(history[..|history| - 1])))
  }

  // ----- Operations ----------------------------------------------------------

  /** The accumulation loop of `mapControlsToSimulation` over one weight row. */
  method AccumulateWeights(weights: Weights, values: ControlValues) returns (weightedSum: real, activeWeight: real)
    ensures (weightedSum, activeWeight) == Totals(weights, values)
  {
    weightedSum := 0.0;
    activeWeight := 0.0;
    var i := 0;
    while i < |weights|
      invariant 0 <= i <= |weights|
      invariant weightedSum == Totals(weights[..i], values).0
      invariant activeWeight == Totals(weights[..i], values).1
    {
      var controlKey := weights[i].0;
      var weight := weights[i].1;
      var value := SliderValue(values, controlKey);
      TotalsStep(weights, values, i);
      if value > 0 {
        weightedSum := weightedSum + (value as real / 100.0) * weight;
        activeWeight := activeWeight + weight;
      }
      i := i + 1;
    }
    assert weights[..i] == weights;
  }

  /** `mapControlsToSimulation(subRegion, controlValues, existingState)` */
  method MapControlsToSimulation(subRegion: string, values: ControlValues, existing: Option<SimulationState>)
    returns (state: SimulationState)
    ensures state == MapControls(subRegion, values, existing)
  {
    var base := if existing.Some? then existing.value else EmptyState;
    var found := JsRecord.Get(ControlWeightMap, subRegion);
    if found.None? {
      return base;
    }
    var targets := MorphTargets.GetMorphTargetsForRegion(subRegion);
    if |targets| == 0 {
      return base;
    }
    var weightedSum, activeWeight := AccumulateWeights(found.value, values);
    var intensity := if activeWeight > 0.0 then weightedSum / activeWeight else 0.0;
    state := base.(fillerValues := base.fillerValues[targets[0].name := JsMath.ClampUnit(intensity)]);
  }

  /** `buildCumulativeSimulation(history)` */
  method BuildCumulativeSimulation(history: seq<HistoryEntry>) returns (state: SimulationState)
    ensures state == Cumulative(history)
  {
    state := EmptyState;
    var i := 0;
    while i < |history|
      invariant 0 <= i <= |history|
      invariant state == Cumulative(history[..i])
    {
      assert history[..i + 1][..i] == history[..i];
      state := MapControlsToSimulation(history[i].subRegion, history[i].controlValues, Some(state));
      i := i + 1;
    }
    assert history[..i] == history;
  }

  // ----- The weight table against the morph-target catalog -------------------

  /** The weight table lists exactly the morph targets' sub-regions, in catalog order. */
  lemma WeightTableFollowsCatalog()
    ensures |ControlWeightMap| == |MorphTargets.FillerMorphTargets|
    ensures forall i :: 0 <= i < |ControlWeightMap| ==>
              ControlWeightMap[i].0 == MorphTargets.FillerMorphTargets[i].region
  {
    var regions := seq(|MorphTargets.FillerMorphTargets|,
      i requires 0 <= i < |MorphTargets.FillerMorphTargets| => MorphTargets.FillerMorphTargets[i].region);
    assert regions == JsRecord.Keys(ControlWeightMap);
  }

  /** The sum of a row's weights. */
  function WeightTotal(weights: Weights): real {
    if weights == [] then 0.0 else weights[0].1 + WeightTotal(weights[1..])
  }

  predicate PositiveWeights(weights: Weights) {
    forall j :: 0 <= j < |weights| ==> weights[j].1 > 0.0
  }

  /** Every row's weights are positive and add up to 1. */
  lemma WeightRowsAreDistributions()
    ensures forall i :: 0 <= i < |ControlWeightMap| ==>
              PositiveWeights(ControlWeightMap[i].1) && WeightTotal(ControlWeightMap[i].1) == 1.0
  {
    LipRowsAreDistributions();
    OtherRowsAreDistributions();
  }

  lemma LipRowsAreDistributions()
    ensures forall i :: 0 <= i < 5 ==>
              PositiveWeights(ControlWeightMap[i].1) && WeightTotal(ControlWeightMap[i].1) == 1.0
  {
    assert WeightTotal(ControlWeightMap[0].1) == 1.0;
    assert WeightTotal(ControlWeightMap[1].1) == 1.0;
    assert WeightTotal(ControlWeightMap[2].1) == 1.0;
    assert WeightTotal(ControlWeightMap[3].1) == 1.0;
    assert WeightTotal(ControlWeightMap[4].1) == 1.0;
  }

  lemma OtherRowsAreDistributions()
    ensures forall i :: 5 <= i < 15 ==>
              PositiveWeights(ControlWeightMap[i].1) && WeightTotal(ControlWeightMap[i].1) == 1.0
  {
    assert WeightTotal(ControlWeightMap[5].1) == 1.0;
    assert WeightTotal(ControlWeightMap[6].1) == 1.0;
    assert WeightTotal(ControlWeightMap[7].1) == 1.0;
    assert WeightTotal(ControlWeightMap[8].1) == 1.0;
    assert WeightTotal(ControlWeightMap[9].1) == 1.0;
    assert WeightTotal(ControlWeightMap[10].1) == 1.0;
    assert WeightTotal(ControlWeightMap[11].1) == 1.0;
    assert WeightTotal(ControlWeightMap[12].1) == 1.0;
    assert WeightTotal(ControlWeightMap[13].1) == 1.0;
    assert WeightTotal(ControlWeightMap[14].1) == 1.0;
  }

  /** A listed sub-region finds its weight row and its one morph target, at the same position. */
  lemma ListedRegionLookup(i: nat)
    requires i < |MorphTargets.FillerMorphTargets|
    ensures JsRecord.Get(ControlWeightMap, MorphTargets.FillerMorphTargets[i].region) == Some(ControlWeightMap[i].1)
    ensures MorphTargets.GetMorphTargetsForRegion(MorphTargets.FillerMorphTargets[i].region)
              == [MorphTargets.FillerMorphTargets[i]]
  {
    WeightTableFollowsCatalog();
    MorphTargets.TargetRegionsDistinct();
    assert JsRecord.DistinctKeys(ControlWeightMap);
    JsRecord.GetAt(ControlWeightMap, i);
    MorphTargets.OneTargetPerRegion(i);
  }

  /** A sub-region has a weight row exactly when it has a morph target. */
  lemma WeightedIffTarget(subRegion: string)
    ensures JsRecord.Get(ControlWeightMap, subRegion).Some? <==>
              MorphTargets.GetMorphTargetsForRegion(subRegion) != []
  {
    if JsRecord.Get(ControlWeightMap, subRegion).Some? {
      WeightedHasTarget(subRegion);
    }
    if MorphTargets.GetMorphTargetsForRegion(subRegion) != [] {
      TargetHasWeights(subRegion);
    }
  }

  lemma WeightedHasTarget(subRegion: string)
    requires JsRecord.Get(ControlWeightMap, subRegion).Some?
    ensures MorphTargets.GetMorphTargetsForRegion(subRegion) != []
  {
    WeightTableFollowsCatalog();
    var i :| 0 <= i < |ControlWeightMap| && ControlWeightMap[i] == (subRegion, JsRecord.Get(ControlWeightMap, subRegion).value);
    ListedRegionLookup(i);
  }

  lemma TargetHasWeights(subRegion: string)
    requires MorphTargets.GetMorphTargetsForRegion(subRegion) != []
    ensures JsRecord.Get(ControlWeightMap, subRegion).Some?
  {
    var targets := MorphTargets.GetMorphTargetsForRegion(subRegion);
    var i :| 0 <= i < |MorphTargets.FillerMorphTargets| && MorphTargets.FillerMorphTargets[i] == targets[0];
    ListedRegionLookup(i);
  }

  /**
   * An edit of a listed sub-region writes the clamped weighted mean of its
   * sliders under the name of that sub-region's morph target, and changes
   * nothing else.
   */
  lemma ListedRegionEdit(i: nat, values: ControlValues, s: SimulationState)
    requires i < |MorphTargets.FillerMorphTargets|
    ensures MapControls(MorphTargets.FillerMorphTargets[i].region, values, Some(s)) ==
              s.(fillerValues := s.fillerValues[MorphTargets.FillerMorphTargets[i].name :=
                   Intensity(ControlWeightMap[i].1, values)])
  {
    ListedRegionLookup(i);
  }

  /** An edit of a sub-region without a weight row returns the state it was given. */
  lemma UnlistedRegionKeepsState(subRegion: string, values: ControlValues, existing: Option<SimulationState>)
    requires forall i :: 0 <= i < |ControlWeightMap| ==> ControlWeightMap[i].0 != subRegion
    ensures MapControls(subRegion, values, existing) == existing.GetOr(EmptyState)
  {
  }

  /** The same, for a sub-region no morph target belongs to. */
  lemma TargetlessRegionKeepsState(subRegion: string, values: ControlValues, s: SimulationState)
    requires forall i :: 0 <= i < |MorphTargets.FillerMorphTargets| ==> MorphTargets.FillerMorphTargets[i].region != subRegion
    ensures MapControls(subRegion, values, Some(s)) == s
  {
    WeightTableFollowsCatalog();
    UnlistedRegionKeepsState(subRegion, values, Some(s));
  }

  // ----- The weighted mean ---------------------------------------------------

  /** The slider value of the control at position `j` of a row. */
  function ValueAt(weights: Weights, values: ControlValues, j: nat): int
    requires j < |weights|
  {
    SliderValue(values, weights[j].0)
  }

  /** With no slider above zero, nothing accumulates. */
  lemma {:induction false} NoActiveControlNoTotals(weights: Weights, values: ControlValues)
    requires forall j :: 0 <= j < |weights| ==> ValueAt(weights, values, j) <= 0
    ensures Totals(weights, values) == (0.0, 0.0)
  {
    if weights != [] {
      var w' := weights[..|weights| - 1];
      assert forall j :: 0 <= j < |w'| ==> ValueAt(w', values, j) == ValueAt(weights, values, j);
      NoActiveControlNoTotals(w', values);
      assert ValueAt(weights, values, |weights| - 1) <= 0;
    }
  }

  /** Hence an edit with no active slider sets its target to 0. */
  lemma NoActiveControlGivesZero(weights: Weights, values: ControlValues)
    requires forall j :: 0 <= j < |weights| ==> ValueAt(weights, values, j) <= 0
    ensures Intensity(weights, values) == 0.0
  {
    NoActiveControlNoTotals(weights, values);
  }

  /** With positive weights, the active weight is positive exactly when some slider is above zero. */
  lemma {:induction false} ActiveWeightIffActiveSlider(weights: Weights, values: ControlValues)
    requires PositiveWeights(weights)
    ensures Totals(weights, values).1 >= 0.0
    ensures Totals(weights, values).1 > 0.0 <==> exists j :: 0 <= j < |weights| && ValueAt(weights, values, j) > 0
  {
    if weights != [] {
      var w' := weights[..|weights| - 1];
      assert forall j :: 0 <= j < |w'| ==> w'[j] == weights[j] && ValueAt(w', values, j) == ValueAt(weights, values, j);
      ActiveWeightIffActiveSlider(w', values);
      if ValueAt(weights, values, |weights| - 1) <= 0 {
        if j :| 0 <= j < |weights| && ValueAt(weights, values, j) > 0 {
          assert ValueAt(w', values, j) > 0;
        }
      }
    }
  }

  /** `sum` lies between `l` and `h` times `active`, for totals `(sum, active)`. */
  predicate Within(totals: (real, real), l: real, h: real) {
    l * totals.1 <= totals.0 <= h * totals.1
  }

  /**
   * When every active slider, as a fraction of 100, lies in `l..h`, the
   * weighted sum lies between `l` and `h` times the active weight.
   */
  lemma {:induction false} WeightedSumBounds(weights: Weights, values: ControlValues, l: real, h: real)
    requires PositiveWeights(weights)
    requires forall j :: 0 <= j < |weights| && ValueAt(weights, values, j) > 0 ==>
               l <= ValueAt(weights, values, j) as real / 100.0 <= h
    ensures Within(Totals(weights, values), l, h)
  {
    if weights != [] {
      var w' := weights[..|weights| - 1];
      assert forall j :: 0 <= j < |w'| ==> w'[j] == weights[j] && ValueAt(w', values, j) == ValueAt(weights, values, j);
      WeightedSumBounds(w', values, l, h);
      WeightedSumStep(weights, values, l, h);
    }
  }

  lemma WeightedSumStep(weights: Weights, values: ControlValues, l: real, h: real)
    requires weights != [] && weights[|weights| - 1].1 > 0.0
    requires ValueAt(weights, values, |weights| - 1) > 0 ==>
               l <= ValueAt(weights, values, |weights| - 1) as real / 100.0 <= h
    requires Within(Totals(weights[..|weights| - 1], values), l, h)
    ensures Within(Totals(weights, values), l, h)
  {
    var prior := Totals(weights[..|weights| - 1], values);
    var t := Totals(weights, values);
    var value := ValueAt(weights, values, |weights| - 1);
    if value > 0 {
      BoundsStep(l, h, value as real / 100.0, weights[|weights| - 1].1, prior.1, prior.0, t.1, t.0);
    }
  }

  lemma BoundsStep(l: real, h: real, v: real, w: real, active: real, sum: real, active': real, sum': real)
    requires l <= v <= h && w > 0.0
    requires l * active <= sum <= h * active
    requires active' == active + w && sum' == sum + v * w
    ensures l * active' <= sum' <= h * active'
  {
    assert l * w <= v * w <= h * w;
  }

  /**
   * The weighted mean of the active sliders lies between the least and the
   * greatest active slider, as a fraction of 100.
   */
  lemma IntensityBetween(weights: Weights, values: ControlValues, lo: int, hi: int)
    requires PositiveWeights(weights)
    requires 0 <= lo <= hi <= 100
    requires forall j :: 0 <= j < |weights| && ValueAt(weights, values, j) > 0 ==>
               lo <= ValueAt(weights, values, j) <= hi
    requires exists j :: 0 <= j < |weights| && ValueAt(weights, values, j) > 0
    ensures lo as real / 100.0 <= Intensity(weights, values) <= hi as real / 100.0
  {
    var l, h := lo as real / 100.0, hi as real / 100.0;
    ActiveWeightIffActiveSlider(weights, values);
    WeightedSumBounds(weights, values, l, h);
    var totals := Totals(weights, values);
    MeanWithin(totals, l, h);
    assert Intensity(weights, values) == JsMath.ClampUnit(totals.0 / totals.1);
  }

  /** Totals within `l..h` times the active weight have their mean within `l..h`. */
  lemma MeanWithin(totals: (real, real), l: real, h: real)
    requires totals.1 > 0.0 && Within(totals, l, h)
    ensures l <= totals.0 / totals.1 <= h
  {
    DivideBounds(totals.0, totals.1, l, h);
  }

  lemma DivideBounds(sum: real, active: real, lo: real, hi: real)
    requires active > 0.0 && lo * active <= sum <= hi * active
    ensures lo <= sum / active <= hi
  {
  }

  /**
   * Sliders left at zero do not dilute the mean: when every active slider
   * stands at `x`, the target's intensity is `x/100`.
   */
  lemma IdleSlidersDoNotDilute(weights: Weights, values: ControlValues, x: int)
    requires PositiveWeights(weights)
    requires 0 < x <= 100
    requires forall j :: 0 <= j < |weights| ==> ValueAt(weights, values, j) <= 0 || ValueAt(weights, values, j) == x
    requires exists j :: 0 <= j < |weights| && ValueAt(weights, values, j) > 0
    ensures Intensity(weights, values) == x as real / 100.0
  {
    IntensityBetween(weights, values, x, x);
  }

  /** A single upper-lip volume slider at 85 sets `lips_upper_volume` to 0.85. */
  lemma SingleSliderExample()
    ensures MapControls("lips_upperLip", [("volume", 85)], None).fillerValues == map["lips_upper_volume" := 0.85]
  {
    var values: ControlValues := [("volume", 85)];
    NoStateIsEmptyState("lips_upperLip", values);
    ListedRegionEdit(0, values, EmptyState);
    UpperLipVolumeAlone();
    assert MorphTargets.FillerMorphTargets[0].region == "lips_upperLip";
    assert MorphTargets.FillerMorphTargets[0].name == "lips_upper_volume";
  }

  /** The upper-lip row with only its volume slider at 85 gives intensity 0.85. */
  lemma UpperLipVolumeAlone()
    ensures Intensity(ControlWeightMap[0].1, [("volume", 85)]) == 0.85
  {
    var values: ControlValues := [("volume", 85)];
    LipRowsAreDistributions();
    var row := ControlWeightMap[0].1;
    assert ValueAt(row, values, 0) == 85 && ValueAt(row, values, 1) == 0 && ValueAt(row, values, 2) == 0;
    IdleSlidersDoNotDilute(row, values, 85);
  }

  /** Without an existing state the edit starts from the empty state. */
  lemma NoStateIsEmptyState(subRegion: string, values: ControlValues)
    ensures MapControls(subRegion, values, None) == MapControls(subRegion, values, Some(EmptyState))
  {
  }

  // ----- The cumulative state ------------------------------------------------

  /** An edit of another sub-region keeps the entry of `F[i]`'s morph target as it was. */
  lemma OtherEditKeeps(subRegion: string, values: ControlValues, s: SimulationState, i: nat)
    requires i < |MorphTargets.FillerMorphTargets|
    requires subRegion != MorphTargets.FillerMorphTargets[i].region
    ensures var name := MorphTargets.FillerMorphTargets[i].name;
            var r := MapControls(subRegion, values, Some(s));
            && (name in r.fillerValues <==> name in s.fillerValues)
            && (name in s.fillerValues ==> r.fillerValues[name] == s.fillerValues[name])
  {
    if k :| 0 <= k < |MorphTargets.FillerMorphTargets| && MorphTargets.FillerMorphTargets[k].region == subRegion {
      ListedRegionEdit(k, values, s);
      MorphTargets.TargetNamesDistinct();
      assert k != i;
    } else {
      TargetlessRegionKeepsState(subRegion, values, s);
    }
  }

  /**
   * The morph target of sub-region `F[i].region` has a value in the
   * cumulative state exactly when some entry of the history edits that sub-region.
   */
  lemma {:induction false} CumulativeKeys(history: seq<HistoryEntry>, i: nat)
    requires i < |MorphTargets.FillerMorphTargets|
    ensures MorphTargets.FillerMorphTargets[i].name in Cumulative(history).fillerValues <==>
              exists j :: 0 <= j < |history| && history[j].subRegion == MorphTargets.FillerMorphTargets[i].region
  {
    var t := MorphTargets.FillerMorphTargets[i];
    if history != [] {
      var prefix := history[..|history| - 1];
      var last := history[|history| - 1];
      var before := Cumulative(prefix);
      assert Cumulative(history) == MapControls(last.subRegion, last.controlValues, Some(before));
      CumulativeKeys(prefix, i);
      EditedStep(history, prefix, t.region);
      if last.subRegion == t.region {
        ListedRegionEdit(i, last.controlValues, before);
      } else {
        OtherEditKeeps(last.subRegion, last.controlValues, before, i);
      }
    }
  }

  /** Some entry of history edits region iff its last one does or one of prefix, the rest, does. */
  lemma EditedStep(history: seq<HistoryEntry>, prefix: seq<HistoryEntry>, region: string)
    requires history != [] && prefix == history[..|history| - 1]
    ensures (exists j :: 0 <= j < |history| && history[j].subRegion == region) <==>
              (history[|history| - 1].subRegion == region
               || exists j :: 0 <= j < |prefix| && prefix[j].subRegion == region)
  {
    if j :| 0 <= j < |prefix| && prefix[j].subRegion == region {
      assert history[j].subRegion == region;
    }
    if j :| 0 <= j < |history| && history[j].subRegion == region {
      if j < |prefix| {
        assert prefix[j].subRegion == region;
      }
    }
  }

  /**
   * The last entry of the history that edits sub-region `F[i].region` alone
   * decides the value of its morph target: later edits of other sub-regions
   * leave it alone.
   */
  lemma {:induction false} LatestEntryWins(history: seq<HistoryEntry>, j: nat, i: nat)
    requires i < |MorphTargets.FillerMorphTargets| && j < |history|
    requires history[j].subRegion == MorphTargets.FillerMorphTargets[i].region
    requires forall k :: j < k < |history| ==> history[k].subRegion != MorphTargets.FillerMorphTargets[i].region
    ensures MorphTargets.FillerMorphTargets[i].name in Cumulative(history).fillerValues
    ensures Cumulative(history).fillerValues[MorphTargets.FillerMorphTargets[i].name]
              == Intensity(ControlWeightMap[i].1, history[j].controlValues)
  {
    var prefix := history[..|history| - 1];
    var last := history[|history| - 1];
    if j == |history| - 1 {
      ListedRegionEdit(i, last.controlValues, Cumulative(prefix));
    } else {
      LatestEntryWins(prefix, j, i);
      OtherEditKeeps(last.subRegion, last.controlValues, Cumulative(prefix), i);
    }
  }

  lemma MapUpdatesCommute<K, V>(m: map<K, V>, k1: K, x1: V, k2: K, x2: V)
    requires k1 != k2
    ensures m[k1 := x1][k2 := x2] == m[k2 := x2][k1 := x1]
  {
  }

  /** Edits of two different sub-regions give the same state in either order. */
  lemma EditsOfDistinctRegionsCommute(r1: string, v1: ControlValues, r2: string, v2: ControlValues, s: SimulationState)
    requires r1 != r2
    ensures MapControls(r2, v2, Some(MapControls(r1, v1, Some(s))))
              == MapControls(r1, v1, Some(MapControls(r2, v2, Some(s))))
  {
    var s1 := MapControls(r1, v1, Some(s));
    var s2 := MapControls(r2, v2, Some(s));
    if a :| 0 <= a < |MorphTargets.FillerMorphTargets| && MorphTargets.FillerMorphTargets[a].region == r1 {
      ListedRegionEdit(a, v1, s);
      ListedRegionEdit(a, v1, s2);
      if b :| 0 <= b < |MorphTargets.FillerMorphTargets| && MorphTargets.FillerMorphTargets[b].region == r2 {
        ListedRegionEdit(b, v2, s);
        ListedRegionEdit(b, v2, s1);
        MorphTargets.TargetNamesDistinct();
        var n1, x1 := MorphTargets.FillerMorphTargets[a].name, Intensity(ControlWeightMap[a].1, v1);
        var n2, x2 := MorphTargets.FillerMorphTargets[b].name, Intensity(ControlWeightMap[b].1, v2);
        assert a != b;
        MapUpdatesCommute(s.fillerValues, n1, x1, n2, x2);
      } else {
        TargetlessRegionKeepsState(r2, v2, s);
        TargetlessRegionKeepsState(r2, v2, s1);
      }
    } else {
      TargetlessRegionKeepsState(r1, v1, s);
      TargetlessRegionKeepsState(r1, v1, s2);
    }
  }

  /** Applying the same edit twice gives the state of applying it once. */
  lemma ReapplyingAnEditChangesNothing(subRegion: string, values: ControlValues, s: SimulationState)
    ensures MapControls(subRegion, values, Some(MapControls(subRegion, values, Some(s))))
              == MapControls(subRegion, values, Some(s))
  {
    match JsRecord.Get(ControlWeightMap, subRegion)
    case None =>
    case Some(weights) =>
      var targets := MorphTargets.GetMorphTargetsForRegion(subRegion);
      if |targets| > 0 {
        var n, x := targets[0].name, Intensity(weights, values);
        assert s.fillerValues[n := x][n := x] == s.fillerValues[n := x];
      }
  }
}
