/** `LinearActivationFn`: the identity activation. The source declares only
    the scalar operations; the engine applies them elementwise. */
module LinearActivation {
  import opened Vectors

  function Squash(x: real): real
  {
    x
  }

  function Derivative(x: real): real
  {
    1.0
  }

  /** Lifted elementwise, the activation returns its input unchanged. */
  lemma SquashIsIdentity(v: Vector)
    ensures Lift(Squash, v) == v
  {
  }

  /** The derivative is 1 everywhere. */
  lemma DerivativeIsOne(v: Vector)
    ensures forall i :: 0 <= i < |v| ==> Lift(Derivative, v)[i] == 1.0
  {
  }

  /** The derivative is the slope of `Squash` between any two points. */
  lemma DerivativeIsSlope(x: real, y: real)
    ensures Squash(y) - Squash(x) == Derivative(x) * (y - x)
  {
  }

  /** The values the unit test checks. */
  lemma TestValues()
    ensures Squash(0.5) == 0.5 && Derivative(0.5) == 1.0
  {
  }
}
