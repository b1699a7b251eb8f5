/**
 * The Botox-zone tests shared by both fragment shaders: whether a texture
 * coordinate lies in a zone's rectangle, and the zone's weight there, which
 * fades in over a margin inside each edge.
 */
module ZoneShading {
  import opened Glsl

  /** A texture coordinate `vec2(u, v)`. */
  datatype Uv = Uv(u: real, v: real)

  /** A zone uniform `vec4(minU, maxU, minV, maxV)`. */
  datatype Zone = Zone(minU: real, maxU: real, minV: real, maxV: real)

  /** The zone's rectangle, edges included. */
  predicate Inside(uv: Uv, zone: Zone) {
    zone.minU <= uv.u <= zone.maxU && zone.minV <= uv.v <= zone.maxV
  }

  /** At least `margin` inside every edge of the zone. */
  predicate DeepInside(uv: Uv, zone: Zone, margin: real) {
    zone.minU + margin <= uv.u <= zone.maxU - margin &&
    zone.minV + margin <= uv.v <= zone.maxV - margin
  }

  /** `inZone`: the product of four `step`s. */
  function InZone(uv: Uv, zone: Zone): (r: real)
    ensures r == 1.0 || r == 0.0
    ensures r == 1.0 <==> Inside(uv, zone)
  {
    var inX := Step(zone.minU, uv.u) * Step(uv.u, zone.maxU);
    var inY := Step(zone.minV, uv.v) * Step(uv.v, zone.maxV);
    inX * inY
  }

  /**
   * `zoneWeight`: 0 for a zone that is empty in either direction; otherwise
   * `inZone` times a smoothstep over `margin` of the distance to the nearer
   * edge, in u and in v. The weight is in [0,1], 0 outside the rectangle, and
   * 1 at least `margin` inside every edge.
   */
  function ZoneWeight(uv: Uv, zone: Zone, margin: real): (r: real)
    requires margin > 0.0
    ensures 0.0 <= r <= 1.0
    ensures zone.minU >= zone.maxU || zone.minV >= zone.maxV ==> r == 0.0
    ensures !Inside(uv, zone) ==> r == 0.0
    ensures DeepInside(uv, zone, margin) ==> r == 1.0
  {
    if zone.minU >= zone.maxU || zone.minV >= zone.maxV then 0.0
    else
      var dx := Min(uv.u - zone.minU, zone.maxU - uv.u);
      var dy := Min(uv.v - zone.minV, zone.maxV - uv.v);
      var wx := Smoothstep(0.0, margin, dx);
      var wy := Smoothstep(0.0, margin, dy);
      var inside := InZone(uv, zone);
      WeightProduct(inside, wx, wy);
      inside * wx * wy
  }

  lemma WeightProduct(inside: real, wx: real, wy: real)
    requires inside == 0.0 || inside == 1.0
    requires 0.0 <= wx <= 1.0 && 0.0 <= wy <= 1.0
    ensures 0.0 <= inside * wx * wy <= 1.0
    ensures inside == 0.0 ==> inside * wx * wy == 0.0
    ensures inside == 1.0 && wx == 1.0 && wy == 1.0 ==> inside * wx * wy == 1.0
  {
    UnitProduct(inside, wx);
    UnitProduct(inside * wx, wy);
  }

  lemma UnitProduct(a: real, b: real)
    requires 0.0 <= a <= 1.0 && 0.0 <= b <= 1.0
    ensures 0.0 <= a * b <= 1.0
  {
    NonNegProduct(a, b);
    NonNegProduct(a, 1.0 - b);
    assert a * (1.0 - b) == a - a * b;
  }

  /**
   * `Σ zoneWeight(uv, zone_i) * strength_i` over the first `n` zones in
   * order: what the fragment shaders have accumulated after `n` statements.
   */
  function WeightedPrefix(uv: Uv, zones: seq<Zone>, strengths: seq<real>, n: nat, margin: real): real
    requires n <= |zones| == |strengths| && margin > 0.0
  {
    if n == 0 then 0.0
    else WeightedPrefix(uv, zones, strengths, n - 1, margin) + ZoneWeight(uv, zones[n - 1], margin) * strengths[n - 1]
  }

  /** The blur amount the fragment shaders accumulate over all zones before clamping. */
  function WeightedZones(uv: Uv, zones: seq<Zone>, strengths: seq<real>, margin: real): real
    requires |zones| == |strengths| && margin > 0.0
  {
    WeightedPrefix(uv, zones, strengths, |zones|, margin)
  }

  /**
   * The shaders' unrolled `totalBlur += zoneWeight(uv, zone_i) * strength_i`
   * statements, one per zone in order: they leave the weighted sum.
   */
  method AccumulateZones(uv: Uv, zones: seq<Zone>, strengths: seq<real>, margin: real) returns (totalBlur: real)
    requires |zones| == |strengths| && margin > 0.0
    ensures totalBlur == WeightedZones(uv, zones, strengths, margin)
  {
    totalBlur := 0.0;
    for i := 0 to |zones|
      invariant totalBlur == WeightedPrefix(uv, zones, strengths, i, margin)
    {
      totalBlur := totalBlur + ZoneWeight(uv, zones[i], margin) * strengths[i];
    }
  }

  /** With every strength 0 nothing is accumulated. */
  lemma {:induction false} NoStrengthNoBlur(uv: Uv, zones: seq<Zone>, strengths: seq<real>, n: nat, margin: real)
    requires n <= |zones| == |strengths| && margin > 0.0
    requires forall i :: 0 <= i < |strengths| ==> strengths[i] == 0.0
    ensures WeightedPrefix(uv, zones, strengths, n, margin) == 0.0
  {
    if n > 0 {
      NoStrengthNoBlur(uv, zones, strengths, n - 1, margin);
    }
  }

  /** A point outside every zone accumulates nothing, whatever the strengths. */
  lemma {:induction false} OutsideEveryZoneNoBlur(uv: Uv, zones: seq<Zone>, strengths: seq<real>, n: nat, margin: real)
    requires n <= |zones| == |strengths| && margin > 0.0
    requires forall i :: 0 <= i < |zones| ==> !Inside(uv, zones[i])
    ensures WeightedPrefix(uv, zones, strengths, n, margin) == 0.0
  {
    if n > 0 {
      OutsideEveryZoneNoBlur(uv, zones, strengths, n - 1, margin);
      assert ZoneWeight(uv, zones[n - 1], margin) == 0.0;
    }
  }
}
