/** `SigmoidActivationFn`: the logistic function `1 / (1 + exp(-x))`. */
module SigmoidActivation {
  import opened Elementary

  /** The logistic function; it lies strictly between 0 and 1 for any
      positive exponential. */
  function Squash(exp: real -> real, x: real): (r: real)
    requires Positive(exp)
    ensures 0.0 < r < 1.0
  {
    1.0 / (1.0 + exp(-x))
  }

  /** `s * (1 - s)` with `s` the logistic value; it lies in `(0, 1/4]`. */
  function Derivative(exp: real -> real, x: real): (d: real)
    requires Positive(exp)
    ensures 0.0 < d <= 0.25
  {
    var s := Squash(exp, x);
    assert s * (1.0 - s) == 0.25 - (s - 0.5) * (s - 0.5);
    s * (1.0 - s)
  }
}

/** `TanhActivationFn`: the hyperbolic tangent, taken from the caller. */
module TanhActivation {
  function Squash(tanh: real -> real, x: real): real
  {
    tanh(x)
  }

  /** `1 - tanh(x)^2`; it never exceeds 1. */
  function Derivative(tanh: real -> real, x: real): (d: real)
    ensures d <= 1.0
  {
    1.0 - tanh(x) * tanh(x)
  }
}

/** The activations the engine can hold, and the mapping from the
    configuration's `ActivationType` (`getActivation`). */
module Activations {
  import opened Vectors
  import opened Results
  import opened Elementary
  import LinearActivation
  import SigmoidActivation
  import TanhActivation
  import ReluActivation
  import LeakyReluActivation
  import SoftmaxActivation

  /** `ActivationType`: the hidden activations a configuration may request. */
  datatype ActivationType = Tanh | Sigmoid | Linear | Relu | LeakyRelu

  /** The `ActivationFn` implementations the engine uses. */
  datatype ActivationFn = LinearFn | SigmoidFn | TanhFn | ReluFn | LeakyReluFn | SoftmaxFn

  /** `getActivation`: the function for a requested hidden activation. */
  function GetActivation(t: ActivationType): (a: ActivationFn)
    ensures a != SoftmaxFn
  {
    match t
    case Relu => ReluFn
    case Sigmoid => SigmoidFn
    case Linear => LinearFn
    case Tanh => TanhFn
    case LeakyRelu => LeakyReluFn
  }

  /** The type an activation function was requested by, if any. */
  function TypeOf(a: ActivationFn): Option<ActivationType>
  {
    match a
    case LinearFn => Some(Linear)
    case SigmoidFn => Some(Sigmoid)
    case TanhFn => Some(Tanh)
    case ReluFn => Some(Relu)
    case LeakyReluFn => Some(LeakyRelu)
    case SoftmaxFn => None
  }

  /** `getActivation` maps each type to its own function: it is inverted by
      `TypeOf`, so no two types share a function, and the only function it
      never yields is softmax. */
  lemma GetActivationBijective(t: ActivationType, a: ActivationFn)
    ensures TypeOf(GetActivation(t)) == Some(t)
    ensures a != SoftmaxFn <==> exists u :: GetActivation(u) == a
  {
    if a != SoftmaxFn {
      assert GetActivation(TypeOf(a).value) == a;
    }
  }

  /** The scalar function an elementwise activation applies to each
      pre-activation. */
  function Scalar(f: Functions, a: ActivationFn, x: real): real
    requires Positive(f.exp) && a != SoftmaxFn
  {
    match a
    case LinearFn => LinearActivation.Squash(x)
    case SigmoidFn => SigmoidActivation.Squash(f.exp, x)
    case TanhFn => TanhActivation.Squash(f.tanh, x)
    case ReluFn => ReluActivation.Squash(x)
    case LeakyReluFn => LeakyReluActivation.Squash(x)
  }

  /** `squash` on a vector of pre-activations: every activation but softmax
      applies its scalar function to each element, and softmax normalises
      the whole vector. */
  function Squash(f: Functions, a: ActivationFn, v: Vector): (r: Vector)
    requires Positive(f.exp)
    ensures |r| == |v|
    ensures a == SoftmaxFn ==> r == SoftmaxActivation.Squash(f.exp, v)
  {
    match a
    case LinearFn => Lift(LinearActivation.Squash, v)
    case SigmoidFn => Lift(x => SigmoidActivation.Squash(f.exp, x), v)
    case TanhFn => Lift(x => TanhActivation.Squash(f.tanh, x), v)
    case ReluFn => Lift(ReluActivation.Squash, v)
    case LeakyReluFn => Lift(LeakyReluActivation.Squash, v)
    case SoftmaxFn => SoftmaxActivation.Squash(f.exp, v)
  }

  /** Every activation but softmax applies its scalar function to each
      element of the vector. */
  lemma SquashPointwise(f: Functions, a: ActivationFn, v: Vector, i: nat)
    requires Positive(f.exp) && a != SoftmaxFn && i < |v|
    ensures Squash(f, a, v)[i] == Scalar(f, a, v[i])
  {
  }

  /** The scalar derivative of every activation but softmax, as its
      `squashDerivative` computes it per element. */
  function ScalarSlope(f: Functions, a: ActivationFn, x: real): real
    requires Positive(f.exp) && a != SoftmaxFn
  {
    match a
    case LinearFn => LinearActivation.Derivative(x)
    case SigmoidFn => SigmoidActivation.Derivative(f.exp, x)
    case TanhFn => TanhActivation.Derivative(f.tanh, x)
    case ReluFn => ReluActivation.Derivative(x)
    case LeakyReluFn => LeakyReluActivation.Derivative(x)
  }

  /** Every activation but softmax takes its derivative element by element. */
  lemma DerivativePointwise(f: Functions, a: ActivationFn, v: Vector, i: nat)
    requires Positive(f.exp) && a != SoftmaxFn && i < |v|
    ensures Derivative(f, a, v).Success?
    ensures Derivative(f, a, v).value[i] == ScalarSlope(f, a, v[i])
  {
  }

  /** `squashDerivative` on a vector of pre-activations; it fails exactly for
      softmax. */
  function Derivative(f: Functions, a: ActivationFn, v: Vector): (r: Result<Vector>)
    requires Positive(f.exp)
    ensures r.Failure? <==> a == SoftmaxFn
    ensures r.Failure? ==> r.error == UnsupportedOperation
    ensures r.Success? ==> |r.value| == |v|
  {
    match a
    case LinearFn => Success(Lift(LinearActivation.Derivative, v))
    case SigmoidFn => Success(Lift(x => SigmoidActivation.Derivative(f.exp, x), v))
    case TanhFn => Success(Lift(x => TanhActivation.Derivative(f.tanh, x), v))
    case ReluFn => Success(Lift(ReluActivation.Derivative, v))
    case LeakyReluFn => Success(Lift(LeakyReluActivation.Derivative, v))
    case SoftmaxFn => SoftmaxActivation.Derivative(v)
  }

  /** Every activation except softmax works elementwise: output `i` depends
      only on input `i`. */
  lemma SquashElementwise(f: Functions, a: ActivationFn, v: Vector, w: Vector, i: nat, j: nat)
    requires Positive(f.exp) && a != SoftmaxFn
    requires i < |v| && j < |w| && v[i] == w[j]
    ensures Squash(f, a, v)[i] == Squash(f, a, w)[j]
  {
  }
}
