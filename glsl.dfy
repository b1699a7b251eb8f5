/**
 * The built-in functions of the OpenGL ES Shading Language 1.00 that the
 * shaders use (section 8.3, Common Functions), over exact reals, and the
 * RGBA colours they work on.
 */
module Glsl {

  function Min(a: real, b: real): real { if b < a then b else a }

  /** `step(edge, x)`: 0.0 if x < edge, else 1.0. */
  function Step(edge: real, x: real): (r: real)
    ensures r == 0.0 || r == 1.0
    ensures r == 1.0 <==> edge <= x
  {
    if x < edge then 0.0 else 1.0
  }

  /** `clamp(x, minVal, maxVal)` = min(max(x, minVal), maxVal); undefined when minVal > maxVal. */
  function Clamp(x: real, minVal: real, maxVal: real): (r: real)
    requires minVal <= maxVal
    ensures minVal <= r <= maxVal
    ensures minVal <= x <= maxVal ==> r == x
    ensures x <= minVal ==> r == minVal
    ensures x >= maxVal ==> r == maxVal
  {
    var m := if x < minVal then minVal else x;
    if maxVal < m then maxVal else m
  }

  /** `smoothstep(edge0, edge1, x)`: Hermite interpolation t·t·(3 − 2t) of the clamped t; undefined when edge0 >= edge1. */
  function Smoothstep(edge0: real, edge1: real, x: real): (r: real)
    requires edge0 < edge1
    ensures 0.0 <= r <= 1.0
    ensures x <= edge0 ==> r == 0.0
    ensures x >= edge1 ==> r == 1.0
  {
    var t := Clamp((x - edge0) / (edge1 - edge0), 0.0, 1.0);
    HermiteInUnit(t);
    assert x >= edge1 ==> (x - edge0) / (edge1 - edge0) >= 1.0 by {
      if x >= edge1 { DivAtLeastOne(x - edge0, edge1 - edge0); }
    }
    assert x <= edge0 ==> (x - edge0) / (edge1 - edge0) <= 0.0 by {
      if x <= edge0 { DivNonPositive(x - edge0, edge1 - edge0); }
    }
    t * t * (3.0 - 2.0 * t)
  }

  /** `mix(x, y, a)` = x·(1 − a) + y·a */
  function Mix(x: real, y: real, a: real): real {
    x * (1.0 - a) + y * a
  }

  lemma HermiteInUnit(t: real)
    requires 0.0 <= t <= 1.0
    ensures 0.0 <= t * t * (3.0 - 2.0 * t) <= 1.0
  {
    assert 1.0 - t * t * (3.0 - 2.0 * t) == (1.0 - t) * (1.0 - t) * (1.0 + 2.0 * t);
    NonNegProduct((1.0 - t) * (1.0 - t), 1.0 + 2.0 * t);
    NonNegProduct(t * t, 3.0 - 2.0 * t);
  }

  lemma NonNegProduct(a: real, b: real)
    requires 0.0 <= a && 0.0 <= b
    ensures 0.0 <= a * b
  {}

  lemma DivAtLeastOne(a: real, b: real)
    requires 0.0 < b <= a
    ensures a / b >= 1.0
  {}

  lemma DivNonPositive(a: real, b: real)
    requires a <= 0.0 < b
    ensures a / b <= 0.0
  {}

  datatype Color = Color(r: real, g: real, b: real, a: real)

  /** `dot(c.rgb, vec3(0.299, 0.587, 0.114))`: the luma of a colour. */
  function Luma(c: Color): real {
    0.299 * c.r + 0.587 * c.g + 0.114 * c.b
  }

  /**
   * The luma-only blend both fragment shaders apply in their blur branch:
   * the luma is mixed towards the blurred colour's by `amount`, the chroma
   * `rgb - luma` of the original is added back unchanged, and `alpha` is
   * the alpha written.
   */
  function LumaBlend(original: Color, blurred: Color, amount: real, alpha: real): (out: Color)
    ensures Luma(out) == Mix(Luma(original), Luma(blurred), amount)
    ensures out.r - Luma(out) == original.r - Luma(original)
    ensures out.g - Luma(out) == original.g - Luma(original)
    ensures out.b - Luma(out) == original.b - Luma(original)
    ensures out.a == alpha
  {
    var origLum := Luma(original);
    var smoothed := Mix(origLum, Luma(blurred), amount);
    var out := Color(smoothed + (original.r - origLum), smoothed + (original.g - origLum),
                     smoothed + (original.b - origLum), alpha);
    LumaShift(original, smoothed - origLum);
    out
  }

  /** The three luma weights sum to 1, so adding the same amount to r, g and b adds that amount to the luma. */
  lemma LumaShift(c: Color, d: real)
    ensures Luma(Color(c.r + d, c.g + d, c.b + d, c.a)) == Luma(c) + d
  {
    assert 0.299 + 0.587 + 0.114 == 1.0;
  }
}
