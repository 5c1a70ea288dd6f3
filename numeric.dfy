/** The affine rescaling used by both terrain generators
    (crates/core/src/terrain.rs and src/noise.rs declare the same `scale`),
    and the float-to-integer conversions applied to its result. Floats are
    modelled as exact reals. */
module Numeric {
  import opened Common

  /** The value that `scale` computes before checking it. */
  function Affine(number: real, aMin: real, aMax: real, bMin: real, bMax: real): real
    requires aMin < aMax
  {
    (number - aMin) * (bMax - bMin) / (aMax - aMin) + bMin
  }

  /** Rescales `number` from `[aMin, aMax]` to `[bMin, bMax]`. The source
      asserts that the input lies in its range and that the output lies in
      its range; `None` stands for the panic of a failed assertion. An empty
      input range divides zero by zero, which yields NaN and fails the
      output assertions. */
  function Scale(number: real, aMin: real, aMax: real, bMin: real, bMax: real): (r: Option<real>)
    ensures r.Some? <==> aMin <= number <= aMax && aMin < aMax && bMin <= bMax
    ensures r.Some? ==> bMin <= r.value <= bMax
  {
    if number < aMin || aMax < number || aMax == aMin then None
    else
      var scaled := Affine(number, aMin, aMax, bMin, bMax);
      AffineInRange(number, aMin, aMax, bMin, bMax);
      if scaled < bMin || bMax < scaled then None else Some(scaled)
  }

  /** The affine map sends `[aMin, aMax]` into `[bMin, bMax]` exactly when the
      target range is not reversed. */
  lemma AffineInRange(number: real, aMin: real, aMax: real, bMin: real, bMax: real)
    requires aMin <= number <= aMax && aMin < aMax
    ensures bMin <= bMax ==> bMin <= Affine(number, aMin, aMax, bMin, bMax) <= bMax
    ensures bMax < bMin ==> !(bMin <= Affine(number, aMin, aMax, bMin, bMax) <= bMax)
  {
    var x, w, d := number - aMin, bMax - bMin, aMax - aMin;
    if w >= 0.0 {
      assert x * w >= 0.0;
      DivSub(w * d, x * w, d);
      assert w * d / d == w;
      assert w * d - x * w == (d - x) * w;
      assert (d - x) * w >= 0.0;
    } else {
      assert x * w <= 0.0;
      assert x * w / d == -((-(x * w)) / d);
    }
  }

  /** `scale` sends the ends of the input range to the ends of the output
      range and preserves order in between. */
  lemma ScaleEndpointsAndOrder(u: real, v: real, aMin: real, aMax: real, bMin: real, bMax: real)
    requires aMin < aMax && bMin <= bMax
    requires aMin <= u <= v <= aMax
    ensures Scale(aMin, aMin, aMax, bMin, bMax) == Some(bMin)
    ensures Scale(aMax, aMin, aMax, bMin, bMax) == Some(bMax)
    ensures Scale(u, aMin, aMax, bMin, bMax).value <= Scale(v, aMin, aMax, bMin, bMax).value
  {
    AffineEndpoints(aMin, aMax, bMin, bMax);
    AffineMonotone(u, v, aMin, aMax, bMin, bMax);
  }

  lemma AffineEndpoints(aMin: real, aMax: real, bMin: real, bMax: real)
    requires aMin < aMax
    ensures Affine(aMin, aMin, aMax, bMin, bMax) == bMin
    ensures Affine(aMax, aMin, aMax, bMin, bMax) == bMax
  {
    var w, d := bMax - bMin, aMax - aMin;
    assert d * w / d == w;
  }

  lemma AffineMonotone(u: real, v: real, aMin: real, aMax: real, bMin: real, bMax: real)
    requires aMin < aMax && bMin <= bMax && u <= v
    ensures Affine(u, aMin, aMax, bMin, bMax) <= Affine(v, aMin, aMax, bMin, bMax)
  {
    var w, d := bMax - bMin, aMax - aMin;
    DivSub((v - aMin) * w, (u - aMin) * w, d);
    assert (v - aMin) * w - (u - aMin) * w == (v - u) * w;
    assert (v - u) * w >= 0.0;
    assert (v - u) * w / d >= 0.0;
  }

  /** Subtracting two quotients by the same positive divisor. */
  lemma DivSub(a: real, b: real, d: real)
    requires d > 0.0
    ensures a / d - b / d == (a - b) / d
  {
    var qa, qb, q := a / d, b / d, (a - b) / d;
    assert qa * d == a;
    assert qb * d == b;
    assert q * d == a - b;
    assert (qa - qb - q) * d == 0.0;
  }

  /** `as i32` on a float: truncation toward zero (the values here are far
      from the saturation bounds). */
  function Trunc(x: real): (n: int)
    ensures x >= 0.0 ==> n as real <= x < n as real + 1.0
    ensures x < 0.0 ==> n as real - 1.0 < x <= n as real
  {
    if x >= 0.0 then x.Floor else -((-x).Floor)
  }

  /** `f64::round`: to the nearest integer, halves away from zero. */
  function Round(x: real): (n: int)
    ensures x >= 0.0 ==> n as real - 0.5 <= x < n as real + 0.5
    ensures x < 0.0 ==> n as real - 0.5 < x <= n as real + 0.5
  {
    if x >= 0.0 then (x + 0.5).Floor else -((-x + 0.5).Floor)
  }

  /** Rounding and truncation keep a value that lies between two integers
      between those integers. */
  lemma ConversionsStayInRange(x: real, lo: int, hi: int)
    requires lo as real <= x <= hi as real
    ensures lo <= Round(x) <= hi
    ensures lo <= Trunc(x) <= hi
  {
  }
}
