/** `LeakyReluActivationFn`: `max(0.01 x, x)`, applied elementwise. */
module LeakyReluActivation {
  import opened Vectors

  /** The `threshold` field: the slope for negative inputs. */
  const Slope: real := 0.01

  /** `Math.max(Slope * x, x)`. */
  function Squash(x: real): (r: real)
    ensures r >= x && r >= Slope * x
    ensures r == x || r == Slope * x
  {
    if Slope * x >= x then Slope * x else x
  }

  /** `Slope` for inputs up to and including 0, and 1 above. */
  function Derivative(x: real): (d: real)
    ensures d > 0.0
    ensures d == Slope || d == 1.0
    ensures d == 1.0 <==> x > 0.0
  {
    if x <= 0.0 then Slope else 1.0
  }

  /** Non-negative inputs pass through; negative ones are scaled by `Slope`. */
  lemma SquashCases(x: real)
    ensures x >= 0.0 ==> Squash(x) == x
    ensures x < 0.0 ==> Squash(x) == Slope * x
  {
  }

  /** The sign is kept: the output is zero, positive or negative exactly when
      the input is. */
  lemma SquashKeepsSign(x: real)
    ensures Squash(x) == 0.0 <==> x == 0.0
    ensures Squash(x) > 0.0 <==> x > 0.0
    ensures Squash(x) < 0.0 <==> x < 0.0
  {
  }

  /** Both lifted operations are elementwise: equal inputs at two positions
      give equal outputs, whatever the other elements are. */
  lemma Elementwise(v: Vector, w: Vector, i: nat, j: nat)
    requires i < |v| && j < |w| && v[i] == w[j]
    ensures Lift(Squash, v)[i] == Lift(Squash, w)[j]
    ensures Lift(Derivative, v)[i] == Lift(Derivative, w)[j]
    ensures Lift(Derivative, v)[i] > 0.0
  {
  }

  /** On each linear piece (the closed left piece includes 0) the derivative
      is the slope of `Squash`. */
  lemma DerivativeIsSlope(x: real, y: real)
    requires x <= 0.0 <==> y <= 0.0
    ensures Squash(y) - Squash(x) == Derivative(x) * (y - x)
  {
  }
}
