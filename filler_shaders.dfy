/**
 * The filler-simulation shaders of the current app: a vertex shader that adds
 * up to eight weighted morph-target offsets to each vertex, and a fragment
 * shader that blurs the luma inside up to five Botox zones.
 */
module FillerShaders {
  import opened Glsl
  import opened Vectors
  import opened ZoneShading

  /** The number of morph-target attributes and weights. */
  const MorphSlots: nat := 8
  /** The number of Botox zone uniforms. */
  const BotoxZoneCount: nat := 5
  /** The width of the fade-in inside each zone edge. */
  const Margin: real := 0.02
  /** Below or at this blur amount the texture colour is written untouched. */
  const BlurThreshold: real := 0.01
  /** The blur radius per unit of blur amount. */
  const BlurRadiusScale: real := 3.0
  /** The share of the blur amount by which the luma moves towards the blurred luma. */
  const LumaSmoothing: real := 0.7

  /** `morphTarget * morphWeight * globalIntensity`. */
  function MorphOffset(target: Vec3, weight: real, intensity: real): Vec3 {
    Scale(Scale(target, weight), intensity)
  }

  /** The sum of the slots' morph offsets, in slot order. */
  function MorphSum(targets: seq<Vec3>, weights: seq<real>, intensity: real): (offset: Vec3)
    requires |targets| == |weights|
    ensures (forall i :: 0 <= i < |weights| ==> weights[i] == 0.0) ==> offset == Zero
    ensures intensity == 0.0 ==> offset == Zero
    decreases |targets|
  {
    if |targets| == 0 then Zero
    else
      var n := |targets| - 1;
      assert forall i :: 0 <= i < n ==> weights[..n][i] == weights[i];
      Add(MorphSum(targets[..n], weights[..n], intensity), MorphOffset(targets[n], weights[n], intensity))
  }

  /**
   * The vertex shader's `main`: starting from `position`, each of the eight
   * slots adds its morph offset in turn. The result is the position moved by
   * the sum of all offsets.
   */
  method VertexMain(position: Vec3, targets: seq<Vec3>, weights: seq<real>, globalIntensity: real)
    returns (transformed: Vec3)
    requires |targets| == MorphSlots && |weights| == MorphSlots
    ensures transformed == Add(position, MorphSum(targets, weights, globalIntensity))
  {
    transformed := position;
    for i := 0 to MorphSlots
      invariant transformed == Add(position, MorphSum(targets[..i], weights[..i], globalIntensity))
    {
      transformed := Add(transformed, MorphOffset(targets[i], weights[i], globalIntensity));
      assert targets[..i + 1][..i] == targets[..i];
      assert weights[..i + 1][..i] == weights[..i];
    }
    assert targets[..MorphSlots] == targets;
    assert weights[..MorphSlots] == weights;
  }

  /** The displacement is linear in the global intensity: intensity `g` gives `g` times the full-intensity displacement. */
  lemma {:induction false} DisplacementIsLinear(targets: seq<Vec3>, weights: seq<real>, g: real)
    requires |targets| == |weights|
    ensures MorphSum(targets, weights, g) == Scale(MorphSum(targets, weights, 1.0), g)
    decreases |targets|
  {
    if |targets| > 0 {
      var n := |targets| - 1;
      DisplacementIsLinear(targets[..n], weights[..n], g);
      ScaleDistributes(MorphSum(targets[..n], weights[..n], 1.0), MorphOffset(targets[n], weights[n], 1.0), g);
      assert MorphOffset(targets[n], weights[n], g) == Scale(MorphOffset(targets[n], weights[n], 1.0), g);
    }
  }

  lemma ScaleDistributes(u: Vec3, v: Vec3, g: real)
    ensures Scale(Add(u, v), g) == Add(Scale(u, g), Scale(v, g))
  {
  }

  /** The blur amount: the weighted zone sum scaled by the global Botox intensity, clamped into [0,1]. */
  function BlurAmount(uv: Uv, zones: seq<Zone>, strengths: seq<real>, globalIntensity: real): (amount: real)
    requires |zones| == |strengths|
    ensures 0.0 <= amount <= 1.0
    ensures globalIntensity == 0.0 ==> amount == 0.0
  {
    Clamp(WeightedZones(uv, zones, strengths, Margin) * globalIntensity, 0.0, 1.0)
  }

  /**
   * The fragment shader's `main`: the zone contributions are added up in
   * turn, scaled by the global intensity and clamped. Above the threshold the
   * luma is smoothed towards the texture blurred with radius 3 times the
   * amount and the original alpha is kept; otherwise the texture colour is
   * written unchanged. `blurSample` stands for the blurred texture lookup at
   * this fragment, as a function of the radius.
   */
  method FragmentMain(uv: Uv, original: Color, blurSample: real -> Color,
                      zones: seq<Zone>, strengths: seq<real>, globalIntensity: real)
    returns (fragColor: Color)
    requires |zones| == BotoxZoneCount && |strengths| == BotoxZoneCount
    ensures var amount := BlurAmount(uv, zones, strengths, globalIntensity);
      fragColor == if amount > BlurThreshold
        then LumaBlend(original, blurSample(BlurRadiusScale * amount), amount * LumaSmoothing, original.a)
        else original
  {
    var totalBlur := AccumulateZones(uv, zones, strengths, Margin);
    ghost var sum := totalBlur;
    totalBlur := totalBlur * globalIntensity;
    assert totalBlur == sum * globalIntensity;
    totalBlur := Clamp(totalBlur, 0.0, 1.0);
    assert totalBlur == Clamp(sum * globalIntensity, 0.0, 1.0);
    assert totalBlur == BlurAmount(uv, zones, strengths, globalIntensity);
    if totalBlur > BlurThreshold {
      var blurredColor := blurSample(BlurRadiusScale * totalBlur);
      fragColor := LumaBlend(original, blurredColor, totalBlur * LumaSmoothing, original.a);
    } else {
      fragColor := original;
    }
  }

  /** A fragment outside every zone gets no blur. */
  lemma OutsideZonesUntouched(uv: Uv, zones: seq<Zone>, strengths: seq<real>, globalIntensity: real)
    requires |zones| == |strengths|
    requires forall i :: 0 <= i < |zones| ==> !Inside(uv, zones[i])
    ensures BlurAmount(uv, zones, strengths, globalIntensity) == 0.0
  {
    OutsideEveryZoneNoBlur(uv, zones, strengths, |zones|, Margin);
  }

  /**
   * In the blur branch the output keeps the original chroma and alpha, and
   * its luma is the original luma moved towards the blurred luma by 0.7 times
   * the blur amount.
   */
  lemma BlurKeepsChromaAndAlpha(original: Color, blurred: Color, amount: real)
    requires BlurThreshold < amount <= 1.0
    ensures var out := LumaBlend(original, blurred, amount * LumaSmoothing, original.a);
      && out.a == original.a
      && out.r - Luma(out) == original.r - Luma(original)
      && out.g - Luma(out) == original.g - Luma(original)
      && out.b - Luma(out) == original.b - Luma(original)
      && Luma(out) == Luma(original) + amount * LumaSmoothing * (Luma(blurred) - Luma(original))
  {
  }
}
