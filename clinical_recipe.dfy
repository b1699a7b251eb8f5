/**
 * The treatment recipe shown with the results: one item per region edited in
 * the session, built from that region's latest edit, with the product for the
 * region, a dosage intensity from the mean slider value, and the treated
 * sites named by the labels of the region's positive sliders.
 */
module ClinicalRecipe {
  import opened Wrappers
  import JsRecord
  import JsMath
  import Seqs
  import opened Text
  import opened SessionStore

  /** A product recommendation. */
  datatype Product = Product(product: string, material: string, icon: string)

  /** The product for each region. */
  const RegionProducts: map<string, Product> := map[
    "upperFace" := Product("Botulinum Toxin Type A", "OnabotulinumtoxinA", "fa-syringe"),
    "lips" := Product("Lip Volumizer", "HA Soft Cohesive Filler", "fa-droplet"),
    "nose" := Product("Nasal Structural Filler", "High G-Prime HA", "fa-droplet"),
    "jawline" := Product("Mandibular Contour Filler", "Cohesive Structural HA", "fa-droplet"),
    "chin" := Product("Chin Projection Filler", "Cohesive Structural HA", "fa-droplet"),
    "cheeks" := Product("Midface Volume Filler", "Cross-linked HA", "fa-droplet"),
    "nasolabial" := Product("Nasolabial Fold Filler", "Medium Cohesive HA", "fa-droplet"),
    "tearTroughs" := Product("Periorbital Filler", "Low G-Prime HA", "fa-droplet")
  ]

  /** The product of a region without an entry. */
  const CustomTreatment: Product := Product("Custom Treatment", "As directed", "fa-syringe")

  /** A slider of a region's configuration: its key and its label. */
  datatype ControlLabel = ControlLabel(key: string, name: string)

  /** The sliders of each region's configuration, in order. */
  const RegionControls: map<string, seq<ControlLabel>> := map[
    "lips" := [ControlLabel("volume", "Volume"), ControlLabel("projection", "Projection"),
               ControlLabel("definition", "Definition"), ControlLabel("width", "Width")],
    "jawline" := [ControlLabel("definition", "Definition"), ControlLabel("contour", "Contour"), ControlLabel("angle", "Angle")],
    "chin" := [ControlLabel("projection", "Projection"), ControlLabel("length", "Length"), ControlLabel("width", "Width")],
    "cheeks" := [ControlLabel("volume", "Volume"), ControlLabel("lift", "Lift"), ControlLabel("projection", "Projection")],
    "nasolabial" := [ControlLabel("depthReduction", "Depth Reduction"), ControlLabel("smoothing", "Smoothing")],
    "upperFace" := [ControlLabel("relaxation", "Relaxation"), ControlLabel("lift", "Lift"), ControlLabel("smoothing", "Smoothing")],
    "tearTroughs" := [ControlLabel("fill", "Fill"), ControlLabel("smoothing", "Smoothing")],
    "nose" := [ControlLabel("bridgeHeight", "Bridge Height"), ControlLabel("tipProjection", "Tip Projection"),
               ControlLabel("width", "Width")]
  ]

  /** One line of the recipe. */
  datatype RecipeItem = RecipeItem(
    product: string, material: string, icon: string,
    region: string, intensity: int, sites: string, notes: string)

  /** The region-to-latest-entry map after `Map.set` for each entry in order. */
  function Latest(history: seq<VersionEntry>): (regionMap: JsRecord.Record<VersionEntry>)
    ensures JsRecord.Keys(regionMap) == Seqs.FirstOccurrences(Regions(history))
    decreases |history|
  {
    if history == [] then []
    else
      var n := |history| - 1;
      assert Regions(history)[..n] == Regions(history[..n]);
      JsRecord.Put(Latest(history[..n]), history[n].region, history[n])
  }

  /** The loop that fills the map, one `Map.set` per history entry. */
  method LatestPerRegion(history: seq<VersionEntry>) returns (regionMap: JsRecord.Record<VersionEntry>)
    ensures regionMap == Latest(history)
  {
    regionMap := [];
    for i := 0 to |history|
      invariant regionMap == Latest(history[..i])
    {
      regionMap := JsRecord.Put(regionMap, history[i].region, history[i]);
      assert history[..i + 1][..i] == history[..i];
    }
    assert history[..|history|] == history;
  }

  function Regions(history: seq<VersionEntry>): (regions: seq<string>)
    ensures |regions| == |history|
    ensures forall i :: 0 <= i < |history| ==> regions[i] == history[i].region
  {
    seq(|history|, i requires 0 <= i < |history| => history[i].region)
  }

  /** The last entry of the history for a region, if any. */
  function LastFor(history: seq<VersionEntry>, region: string): Option<VersionEntry>
    decreases |history|
  {
    if history == [] then None
    else
      var n := |history| - 1;
      if history[n].region == region then Some(history[n]) else LastFor(history[..n], region)
  }

  /** Each region maps to its latest entry; a region never edited is absent. */
  lemma {:induction false} LatestHoldsLastEntry(history: seq<VersionEntry>, region: string)
    ensures JsRecord.Get(Latest(history), region) == LastFor(history, region)
    decreases |history|
  {
    if history != [] {
      var n := |history| - 1;
      LatestHoldsLastEntry(history[..n], region);
      if history[n].region == region {
        JsRecord.GetPutSame(Latest(history[..n]), region, history[n]);
      } else {
        JsRecord.GetPutOther(Latest(history[..n]), history[n].region, history[n], region);
      }
    }
  }

  /** `values.reduce((a, b) => a + b, 0)` */
  function Sum(values: seq<int>): int {
    if values == [] then 0 else Sum(values[..|values| - 1]) + values[|values| - 1]
  }

  /** The mean of the values, 0 when there are none. */
  function Mean(values: seq<int>): (mean: real)
    ensures values == [] ==> mean == 0.0
    ensures (forall i :: 0 <= i < |values| ==> 0 <= values[i] <= 100) ==> 0.0 <= mean <= 100.0
  {
    assert (forall i :: 0 <= i < |values| ==> 0 <= values[i] <= 100) && |values| > 0 ==>
      0.0 <= Sum(values) as real / |values| as real <= 100.0 by {
      if (forall i :: 0 <= i < |values| ==> 0 <= values[i] <= 100) && |values| > 0 {
        SumWithinSliderRange(values);
        MeanBound(Sum(values) as real, |values| as real);
      }
    }
    if |values| > 0 then Sum(values) as real / |values| as real else 0.0
  }

  /** The labels of the configured sliders whose value (missing counting as 0) is positive, in configuration order. */
  function PositiveLabels(controls: seq<ControlLabel>, values: ControlValues): (labels: seq<string>)
    ensures |labels| <= |controls|
  {
    if controls == [] then []
    else
      var rest := PositiveLabels(controls[1..], values);
      if JsRecord.GetOr(values, controls[0].key, 0) > 0 then [controls[0].name] + rest else rest
  }

  /** The treated sites: the positive sliders' labels joined by ", ", or "As directed" for a region without configuration. */
  function Sites(region: string, values: ControlValues): (sites: string)
    ensures region !in RegionControls ==> sites == "As directed"
    ensures region in RegionControls ==>
      sites == Join(Names(Seqs.Filter(RegionControls[region], IsSet(values))), ", ")
  {
    if region in RegionControls then
      PositiveLabelsFilterConfig(RegionControls[region], values);
      Join(PositiveLabels(RegionControls[region], values), ", ") else "As directed"
  }

  /** The recipe line of a region from its latest entry. */
  function ItemOf(region: string, entry: VersionEntry): (item: RecipeItem)
    ensures var p := if region in RegionProducts then RegionProducts[region] else CustomTreatment;
      item.product == p.product && item.material == p.material && item.icon == p.icon
    ensures Mean(JsRecord.Values(entry.controlValues)) - 0.5 < item.intensity as real <= Mean(JsRecord.Values(entry.controlValues)) + 0.5
    ensures item.region == entry.regionLabel && item.notes == entry.notes
    ensures item.sites == Sites(region, entry.controlValues)
  {
    var p := if region in RegionProducts then RegionProducts[region] else CustomTreatment;
    RecipeItem(p.product, p.material, p.icon, entry.regionLabel,
               JsMath.Round(Mean(JsRecord.Values(entry.controlValues))),
               Sites(region, entry.controlValues), entry.notes)
  }

  /**
   * `recipeItems`: one item per distinct region of the history, in the order
   * of the region's first edit, each from the region's latest entry.
   */
  method RecipeItems(history: seq<VersionEntry>) returns (items: seq<RecipeItem>)
    ensures var regions := Seqs.FirstOccurrences(Regions(history));
      && |items| == |regions|
      && forall i :: 0 <= i < |items| ==>
           LastFor(history, regions[i]).Some? && items[i] == ItemOf(regions[i], LastFor(history, regions[i]).value)
  {
    var regionMap := LatestPerRegion(history);
    items := seq(|regionMap|, i requires 0 <= i < |regionMap| => ItemOf(regionMap[i].0, regionMap[i].1));
    forall i | 0 <= i < |regionMap|
      ensures LastFor(history, regionMap[i].0) == Some(regionMap[i].1)
    {
      LatestEntryIsLast(history, i);
    }
  }

  /** The entry stored at position i of the map is the last history entry for its region. */
  lemma LatestEntryIsLast(history: seq<VersionEntry>, i: nat)
    requires i < |Latest(history)|
    ensures LastFor(history, Latest(history)[i].0) == Some(Latest(history)[i].1)
  {
    var regionMap := Latest(history);
    LatestHasDistinctKeys(history);
    JsRecord.GetAt(regionMap, i);
    LatestHoldsLastEntry(history, regionMap[i].0);
  }

  /** No region appears twice in the map. */
  lemma {:induction false} LatestHasDistinctKeys(history: seq<VersionEntry>)
    ensures JsRecord.DistinctKeys(Latest(history))
    decreases |history|
  {
    if history != [] {
      var n := |history| - 1;
      LatestHasDistinctKeys(history[..n]);
      JsRecord.PutKeepsKeysDistinct(Latest(history[..n]), history[n].region, history[n]);
    }
  }

  /** The labels of the given sliders, in order. */
  function Names(controls: seq<ControlLabel>): (names: seq<string>)
    ensures |names| == |controls|
    ensures forall i :: 0 <= i < |names| ==> names[i] == controls[i].name
  {
    if controls == [] then [] else [controls[0].name] + Names(controls[1..])
  }

  /** `c => (values[c.key] ?? 0) > 0` */
  function IsSet(values: ControlValues): ControlLabel -> bool {
    (c: ControlLabel) => JsRecord.GetOr(values, c.key, 0) > 0
  }

  /** The sites are the `filter(value > 0)` of the configured sliders, mapped to their labels. */
  lemma {:induction false} PositiveLabelsFilterConfig(controls: seq<ControlLabel>, values: ControlValues)
    ensures PositiveLabels(controls, values) == Names(Seqs.Filter(controls, IsSet(values)))
    decreases |controls|
  {
    if controls != [] {
      var positive := IsSet(values);
      var rest := Seqs.Filter(controls[1..], positive);
      PositiveLabelsFilterConfig(controls[1..], values);
      if positive(controls[0]) {
        assert Seqs.Filter(controls, positive) == [controls[0]] + rest;
        assert ([controls[0]] + rest)[1..] == rest;
        assert PositiveLabels(controls, values) == [controls[0].name] + PositiveLabels(controls[1..], values);
      } else {
        assert Seqs.Filter(controls, positive) == rest;
        assert PositiveLabels(controls, values) == PositiveLabels(controls[1..], values);
      }
    }
  }

  /** Sliders that stay within 0..100 sum to at most 100 per slider. */
  lemma {:induction false} SumWithinSliderRange(values: seq<int>)
    requires forall i :: 0 <= i < |values| ==> 0 <= values[i] <= 100
    ensures 0 <= Sum(values) <= 100 * |values|
    decreases |values|
  {
    if values != [] {
      SumWithinSliderRange(values[..|values| - 1]);
    }
  }

  /** The quotient of a sum by its count stays within the per-value range. */
  lemma MeanBound(sum: real, count: real)
    requires count > 0.0 && 0.0 <= sum <= 100.0 * count
    ensures 0.0 <= sum / count <= 100.0
  {
    assert sum / count * count == sum;
  }

  /** With every slider within 0..100, the dosage intensity is within 0..100. */
  lemma IntensityWithinSliderRange(region: string, entry: VersionEntry)
    requires forall i :: 0 <= i < |entry.controlValues| ==> 0 <= entry.controlValues[i].1 <= 100
    ensures 0 <= ItemOf(region, entry).intensity <= 100
  {
    var vs := JsRecord.Values(entry.controlValues);
    SumWithinSliderRange(vs);
    if |vs| > 0 {
      MeanBound(Sum(vs) as real, |vs| as real);
    }
  }
}
