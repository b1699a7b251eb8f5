/**
 * The face-mesh shaders of the earlier app: a vertex shader that leaves the
 * (already deformed) positions alone, and a fragment shader that blurs the
 * luma inside up to five Botox zones with no global intensity and an opaque
 * result.
 */
module FaceShaders {
  import opened Glsl
  import opened Vectors
  import opened ZoneShading
  import FillerShaders

  /** The number of Botox zone uniforms. */
  const BotoxZoneCount: nat := 5
  /** The width of the fade-in inside each zone edge. */
  const Margin: real := 0.03
  /** Below or at this blur amount the texture colour is written untouched. */
  const BlurThreshold: real := 0.01
  /** The blur radius per unit of blur amount. */
  const BlurRadiusScale: real := 5.0
  /** The share of the blur amount by which the luma moves towards the blurred luma. */
  const LumaSmoothing: real := 0.7
  /** The alpha written in the blur branch. */
  const OpaqueAlpha: real := 1.0

  /**
   * The vertex shader's `main`: the morph targets are applied on the CPU, so
   * the position reaching the projection is the attribute itself, the same as
   * the current app's vertex shader with the global intensity at 0.
   */
  function VertexPosition(position: Vec3): (transformed: Vec3)
    ensures forall targets: seq<Vec3>, weights: seq<real> | |targets| == |weights| ::
      transformed == Add(position, FillerShaders.MorphSum(targets, weights, 0.0))
  {
    PassthroughIsZeroIntensity(position);
    position
  }

  lemma PassthroughIsZeroIntensity(position: Vec3)
    ensures forall targets: seq<Vec3>, weights: seq<real> | |targets| == |weights| ::
      position == Add(position, FillerShaders.MorphSum(targets, weights, 0.0))
  {
  }

  /** The blur amount: the weighted zone sum clamped into [0,1]. */
  function BlurAmount(uv: Uv, zones: seq<Zone>, strengths: seq<real>): real
    requires |zones| == |strengths|
  {
    Clamp(WeightedZones(uv, zones, strengths, Margin), 0.0, 1.0)
  }

  /**
   * The fragment shader's `main`: the zone contributions are added up and
   * clamped. Above the threshold the luma is smoothed towards the texture
   * blurred with radius 5 times the amount and alpha is set to 1; otherwise
   * the texture colour is written unchanged. `blurSample` stands for the
   * blurred texture lookup at this fragment, as a function of the radius.
   */
  method FragmentMain(uv: Uv, original: Color, blurSample: real -> Color,
                      zones: seq<Zone>, strengths: seq<real>)
    returns (fragColor: Color)
    requires |zones| == BotoxZoneCount && |strengths| == BotoxZoneCount
    ensures var amount := BlurAmount(uv, zones, strengths);
      fragColor == if amount > BlurThreshold
        then LumaBlend(original, blurSample(BlurRadiusScale * amount), amount * LumaSmoothing, OpaqueAlpha)
        else original
  {
    var totalBlur := AccumulateZones(uv, zones, strengths, Margin);
    totalBlur := Clamp(totalBlur, 0.0, 1.0);
    if totalBlur > BlurThreshold {
      var blurredColor := blurSample(BlurRadiusScale * totalBlur);
      fragColor := LumaBlend(original, blurredColor, totalBlur * LumaSmoothing, OpaqueAlpha);
    } else {
      fragColor := original;
    }
  }

  /**
   * The blur amount is in [0,1]; zones whose contributions add up to 1 or
   * more are capped at 1; with every strength 0 there is no blur.
   */
  lemma BlurAmountCapped(uv: Uv, zones: seq<Zone>, strengths: seq<real>)
    requires |zones| == |strengths|
    ensures 0.0 <= BlurAmount(uv, zones, strengths) <= 1.0
    ensures WeightedZones(uv, zones, strengths, Margin) >= 1.0 ==> BlurAmount(uv, zones, strengths) == 1.0
    ensures (forall i :: 0 <= i < |strengths| ==> strengths[i] == 0.0) ==> BlurAmount(uv, zones, strengths) == 0.0
  {
    if forall i :: 0 <= i < |strengths| ==> strengths[i] == 0.0 {
      NoStrengthNoBlur(uv, zones, strengths, |zones|, Margin);
    }
  }

  /** A fragment outside every zone gets no blur. */
  lemma OutsideZonesUntouched(uv: Uv, zones: seq<Zone>, strengths: seq<real>)
    requires |zones| == |strengths|
    requires forall i :: 0 <= i < |zones| ==> !Inside(uv, zones[i])
    ensures BlurAmount(uv, zones, strengths) == 0.0
  {
    OutsideEveryZoneNoBlur(uv, zones, strengths, |zones|, Margin);
  }

  /**
   * In the blur branch the output keeps the original chroma, is opaque
   * whatever the original alpha, and its luma is the original luma moved
   * towards the blurred luma by 0.7 times the blur amount.
   */
  lemma BlurKeepsChromaForcesOpaque(original: Color, blurred: Color, amount: real)
    requires BlurThreshold < amount <= 1.0
    ensures var out := LumaBlend(original, blurred, amount * LumaSmoothing, OpaqueAlpha);
      && out.a == 1.0
      && out.r - Luma(out) == original.r - Luma(original)
      && out.g - Luma(out) == original.g - Luma(original)
      && out.b - Luma(out) == original.b - Luma(original)
      && Luma(out) == Luma(original) + amount * LumaSmoothing * (Luma(blurred) - Luma(original))
  {
  }
}
