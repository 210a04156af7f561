/** `SoftmaxActivationFn`: the normalised exponential. It is a whole-vector
    operation, and its derivative is deliberately not implemented. */
module SoftmaxActivation {
  import opened Vectors
  import opened Results
  import opened Elementary

  /** `out[i] = exp(v[i]) / (exp(v[0]) + ... + exp(v[|v| - 1]))`. Whatever the
      exponential is, as long as it is positive, the outputs lie in `(0, 1]`
      and a non-empty output sums to 1. */
  function Squash(exp: real -> real, v: Vector): (r: Vector)
    requires Positive(exp)
    ensures |r| == |v|
    ensures forall i :: 0 <= i < |v| ==> 0.0 < r[i] <= 1.0
    ensures |v| > 0 ==> Sum(r) == 1.0
  {
    if |v| == 0 then []
    else
      var terms := Lift(exp, v);
      assert forall i :: 0 <= i < |terms| ==> terms[i] > 0.0 by {
        forall i | 0 <= i < |terms| ensures terms[i] > 0.0 {
          PositiveAt(exp, v[i]);
        }
      }
      SumPositive(terms);
      Normalise(terms)
  }

  /** Each term divided by the (positive) sum of all terms. */
  function Normalise(terms: Vector): (r: Vector)
    requires |terms| > 0
    requires forall i :: 0 <= i < |terms| ==> terms[i] > 0.0
    ensures |r| == |terms|
    ensures forall i :: 0 <= i < |terms| ==> 0.0 < r[i] <= 1.0
    ensures Sum(r) == 1.0
  {
    SumPositive(terms);
    var total := Sum(terms);
    var r := Lift(x => x / total, terms);
    SumDivided(terms, total);
    forall i | 0 <= i < |terms|
      ensures 0.0 < r[i] <= 1.0
    {
      ElementAtMostSum(terms, i);
      FractionBounds(terms[i], total);
    }
    r
  }

  lemma FractionBounds(a: real, t: real)
    requires 0.0 < a <= t
    ensures 0.0 < a / t <= 1.0
  {
  }

  /** Element `i` is `exp(v[i])` over the sum of the exponentials. */
  lemma SquashElement(exp: real -> real, v: Vector, i: nat)
    requires Positive(exp) && i < |v|
    ensures Sum(Lift(exp, v)) > 0.0
    ensures Squash(exp, v)[i] == exp(v[i]) / Sum(Lift(exp, v))
  {
    forall k | 0 <= k < |v| ensures Lift(exp, v)[k] > 0.0 {
      PositiveAt(exp, v[k]);
    }
    SumPositive(Lift(exp, v));
  }

  /** The derivative is never computed: every call fails. */
  function Derivative(v: Vector): (r: Result<Vector>)
    ensures r == Failure(UnsupportedOperation)
  {
    Failure(UnsupportedOperation)
  }
}
