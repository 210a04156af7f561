/** `ReluActivationFn`: the rectifier `max(0, x)`, applied elementwise. */
module ReluActivation {
  import opened Vectors

  /** `Math.max(0, x)`: the least value that is at least both 0 and `x`. */
  function Squash(x: real): (r: real)
    ensures r >= 0.0 && r >= x
    ensures r == 0.0 || r == x
  {
    if x <= 0.0 then 0.0 else x
  }

  /** The slope of `Squash`; at 0 the left slope 0 is taken. */
  function Derivative(x: real): (d: real)
    ensures d == 0.0 || d == 1.0
    ensures d == 1.0 <==> x > 0.0
  {
    if x <= 0.0 then 0.0 else 1.0
  }

  /** Every output is non-negative and at least its input. */
  lemma SquashBounds(v: Vector)
    ensures NonNegative(Lift(Squash, v))
    ensures forall i :: 0 <= i < |v| ==> Lift(Squash, v)[i] >= v[i]
  {
  }

  /** Rectifying twice is rectifying once. */
  lemma SquashIdempotent(v: Vector)
    ensures Lift(Squash, Lift(Squash, v)) == Lift(Squash, v)
  {
  }

  /** On each linear piece (the closed left piece includes 0) the derivative
      is the slope of `Squash`. */
  lemma DerivativeIsSlope(x: real, y: real)
    requires x <= 0.0 <==> y <= 0.0
    ensures Squash(y) - Squash(x) == Derivative(x) * (y - x)
  {
  }

  /** The values the unit tests check. */
  lemma TestValues()
    ensures Squash(-0.5) == 0.0 && Derivative(-0.5) == 0.0
    ensures Squash(0.5) == 0.5 && Derivative(0.5) == 1.0
    ensures Derivative(0.0) == 0.0
  {
  }
}
