/**
 * The mesh simulator view: the hook that holds the simulation state with its
 * clamping setters, and the fitting of the photo into the 600×600 canvas.
 */
module MeshSimulator {
  import JsMath
  import opened ControlMapping

  /** Every stored intensity lies in 0..1. */
  predicate InUnit(state: SimulationState) {
    && (forall k :: k in state.fillerValues ==> 0.0 <= state.fillerValues[k] <= 1.0)
    && (forall k :: k in state.botoxValues ==> 0.0 <= state.botoxValues[k] <= 1.0)
  }

  /** The hook's initial state: no filler and no Botox intensity. */
  function InitialState(): (state: SimulationState)
    ensures state.fillerValues == map[] && state.botoxValues == map[]
    ensures InUnit(state)
  {
    EmptyState
  }

  /** `setFillerValue(name, value)`: stores `value` clamped to 0..1 under `name`. */
  function SetFillerValue(state: SimulationState, name: string, value: real): (r: SimulationState)
    ensures r.fillerValues.Keys == state.fillerValues.Keys + {name}
    ensures 0.0 <= r.fillerValues[name] <= 1.0
    ensures 0.0 <= value <= 1.0 ==> r.fillerValues[name] == value
    ensures value < 0.0 ==> r.fillerValues[name] == 0.0
    ensures value > 1.0 ==> r.fillerValues[name] == 1.0
    ensures forall k :: k in state.fillerValues && k != name ==> r.fillerValues[k] == state.fillerValues[k]
    ensures r.botoxValues == state.botoxValues
  {
    state.(fillerValues := state.fillerValues[name := JsMath.ClampUnit(value)])
  }

  /** `setBotoxValue(name, value)`: stores `value` clamped to 0..1 under `name`. */
  function SetBotoxValue(state: SimulationState, name: string, value: real): (r: SimulationState)
    ensures r.botoxValues.Keys == state.botoxValues.Keys + {name}
    ensures 0.0 <= r.botoxValues[name] <= 1.0
    ensures 0.0 <= value <= 1.0 ==> r.botoxValues[name] == value
    ensures value < 0.0 ==> r.botoxValues[name] == 0.0
    ensures value > 1.0 ==> r.botoxValues[name] == 1.0
    ensures forall k :: k in state.botoxValues && k != name ==> r.botoxValues[k] == state.botoxValues[k]
    ensures r.fillerValues == state.fillerValues
  {
    state.(botoxValues := state.botoxValues[name := JsMath.ClampUnit(value)])
  }

  /** `reset`: both maps emptied, whatever the state was. */
  function Reset(state: SimulationState): (r: SimulationState)
    ensures r.fillerValues == map[] && r.botoxValues == map[]
    ensures r == InitialState()
  {
    EmptyState
  }

  /** The setters keep every stored intensity in 0..1. */
  lemma SettersKeepUnitRange(state: SimulationState, name: string, value: real)
    requires InUnit(state)
    ensures InUnit(SetFillerValue(state, name, value))
    ensures InUnit(SetBotoxValue(state, name, value))
  {
  }

  /** Setting the same slider twice keeps only the second value. */
  lemma LastSetWins(state: SimulationState, name: string, v1: real, v2: real)
    ensures SetFillerValue(SetFillerValue(state, name, v1), name, v2) == SetFillerValue(state, name, v2)
    ensures SetBotoxValue(SetBotoxValue(state, name, v1), name, v2) == SetBotoxValue(state, name, v2)
  {
  }

  /** A filler setter and a Botox setter act on separate maps, so their order does not matter. */
  lemma FillerAndBotoxCommute(state: SimulationState, f: string, fv: real, b: string, bv: real)
    ensures SetBotoxValue(SetFillerValue(state, f, fv), b, bv) == SetFillerValue(SetBotoxValue(state, b, bv), f, fv)
  {
  }

  /** The largest canvas side. */
  const MaxSide: real := 600.0

  /** The sides `w`, `h` have the aspect ratio of `w0`, `h0`. */
  predicate SameAspect(w: real, h: real, w0: real, h0: real) {
    w * h0 == h * w0
  }

  /** `(a * s) / d` undone by multiplying with `d`. */
  lemma DivisionCancels(a: real, s: real, d: real)
    requires d != 0.0
    ensures (a * s / d) * d == a * s
  {
  }

  /** Scaling by `s / d` with `0 <= s < d` does not grow a non-negative side. */
  lemma ShrinkDoesNotGrow(a: real, s: real, d: real)
    requires 0.0 <= a && 0.0 <= s < d
    ensures 0.0 <= a * s / d <= a
  {
    assert a * s <= a * d;
    assert a * s / d <= a * d / d;
  }

  /** Two successive rescalings that keep the cross products equal compose. */
  lemma {:induction false} CrossProductsCompose(w0: real, h0: real, w1: real, h1: real, w2: real, h2: real)
    requires h1 != 0.0
    requires w1 * h0 == h1 * w0
    requires w2 * h1 == w1 * h2
    ensures w2 * h0 == h2 * w0
  {
    calc {
      (w2 * h0) * h1;
      (w2 * h1) * h0;
      (w1 * h2) * h0;
      h2 * (w1 * h0);
      h2 * (h1 * w0);
      (h2 * w0) * h1;
    }
    CancelFactor(w2 * h0, h2 * w0, h1);
  }

  lemma CancelFactor(x: real, y: real, f: real)
    requires f != 0.0 && x * f == y * f
    ensures x == y
  {
    assert (x - y) * f == 0.0;
  }

  /** Bringing the width down to 600 and the height alike keeps the aspect ratio and shrinks the height. */
  lemma FitWidthStep(w: real, h: real)
    requires w > MaxSide && h >= 0.0
    ensures SameAspect(MaxSide, h * MaxSide / w, w, h)
    ensures 0.0 <= h * MaxSide / w <= h
  {
    ShrinkDoesNotGrow(h, MaxSide, w);
    DivisionCancels(h, MaxSide, w);
  }

  /** Bringing the height down to 600 and the width alike keeps the aspect ratio of the original. */
  lemma FitHeightStep(w: real, h: real, w0: real, h0: real)
    requires h > MaxSide && w >= 0.0 && SameAspect(w, h, w0, h0)
    ensures SameAspect(w * MaxSide / h, MaxSide, w0, h0)
    ensures 0.0 <= w * MaxSide / h <= w
  {
    ShrinkDoesNotGrow(w, MaxSide, h);
    DivisionCancels(w, MaxSide, h);
    CrossProductsCompose(w0, h0, w, h, w * MaxSide / h, MaxSide);
  }

  /** Sides already within the canvas keep the aspect ratio of themselves. */
  lemma AspectOfItself(w: real, h: real)
    ensures SameAspect(w, h, w, h)
  {
  }

  /**
   * The photo's natural size fitted into the canvas: first the width is
   * brought down to 600 with the height scaled alike, then the height.
   */
  method FitToCanvas(naturalWidth: nat, naturalHeight: nat) returns (width: real, height: real)
    ensures 0.0 <= width <= MaxSide && 0.0 <= height <= MaxSide
    ensures width * naturalHeight as real == height * naturalWidth as real
    ensures width <= naturalWidth as real && height <= naturalHeight as real
    ensures naturalWidth as real <= MaxSide && naturalHeight as real <= MaxSide ==>
      width == naturalWidth as real && height == naturalHeight as real
    ensures naturalWidth as real > MaxSide || naturalHeight as real > MaxSide ==>
      width == MaxSide || height == MaxSide
  {
    ghost var w0, h0 := naturalWidth as real, naturalHeight as real;
    width := naturalWidth as real;
    height := naturalHeight as real;
    AspectOfItself(w0, h0);
    if width > MaxSide {
      FitWidthStep(width, height);
      height := (height * MaxSide) / width;
      width := MaxSide;
    }
    if height > MaxSide {
      FitHeightStep(width, height, w0, h0);
      width := (width * MaxSide) / height;
      height := MaxSide;
    }
    assert SameAspect(width, height, w0, h0);
  }

  /** The canvas size is the fitted size rounded; it stays within 600×600. */
  lemma RoundedCanvasStaysWithin(side: real)
    requires 0.0 <= side <= MaxSide
    ensures 0 <= JsMath.Round(side) <= 600
  {
  }
}
