/** `SquaredErrorLossFn`: half the squared distance between the network's
    output and the target. */
module SquaredError {
  import opened Vectors
  import opened Results

  /** The terms `0.5 * (target[i] - output[i])^2`. */
  function Terms(output: Vector, target: Vector): (t: Vector)
    requires |output| == |target|
    ensures |t| == |output|
    ensures NonNegative(t)
  {
    seq(|output|, i requires 0 <= i < |output| => HalfSquare(target[i] - output[i]))
  }

  /** `0.5 * Math.pow(d, 2)`. */
  function HalfSquare(d: real): (r: real)
    ensures r >= 0.0
  {
    0.5 * (d * d)
  }

  /** `calculate`: fails on vectors of different lengths, otherwise sums the
      halved squared differences. */
  function Calculate(output: Vector, target: Vector): (r: Result<real>)
    ensures r.Failure? <==> |output| != |target|
    ensures r.Failure? ==> r.error == DimensionMismatch
    ensures r.Success? ==> r.value >= 0.0
  {
    if |output| != |target| then Failure(DimensionMismatch)
    else
      SumNonNegative(Terms(output, target));
      Success(Sum(Terms(output, target)))
  }

  /** The loss vanishes when the output equals the target. */
  lemma ZeroWhenEqual(v: Vector)
    ensures Calculate(v, v) == Success(0.0)
  {
    var t := Terms(v, v);
    assert forall i :: 0 <= i < |t| ==> t[i] == HalfSquare(0.0);
    SumZeroIff(t);
  }

  lemma HalfSquareNegated(d: real)
    ensures HalfSquare(-d) == HalfSquare(d)
  {
  }

  /** Swapping output and target does not change the loss. */
  lemma Symmetric(output: Vector, target: Vector)
    ensures Calculate(output, target) == Calculate(target, output)
  {
    if |output| == |target| {
      forall i | 0 <= i < |output|
        ensures Terms(output, target)[i] == Terms(target, output)[i]
      {
        HalfSquareNegated(target[i] - output[i]);
        assert output[i] - target[i] == -(target[i] - output[i]);
      }
      assert Terms(output, target) == Terms(target, output);
    }
  }

  /** The value the unit test checks. */
  lemma TestValue()
    ensures Calculate([3.0, 0.5, 2.0], [4.0, 1.0, 2.0]) == Success(0.625)
  {
    var t := Terms([3.0, 0.5, 2.0], [4.0, 1.0, 2.0]);
    assert t == [0.5, 0.125, 0.0];
    assert t[..2] == [0.5, 0.125];
    assert t[..2][..1] == [0.5];
    assert t[..2][..1][..0] == [];
    assert Sum(t[..2][..1]) == 0.5;
    assert Sum(t[..2]) == 0.625;
  }
}

/** The loss functions the engine can hold, including the two cross-entropy
    losses whose logarithm is taken from the caller. */
module Losses {
  import opened Vectors
  import opened Results
  import opened Elementary
  import SquaredError

  /** `LossFn` implementations. */
  datatype LossFn = SquaredErrorLoss | BinaryCrossEntropy | CategoricalCrossEntropy

  /** `BinaryCrossEntropyLossFn.calculate`'s terms:
      `-(t * log p) - (1 - t) * log(1 - p)`. */
  function BinaryTerms(log: real -> real, predicted: Vector, target: Vector): (t: Vector)
    requires |predicted| == |target|
    ensures |t| == |predicted|
  {
    seq(|predicted|, i requires 0 <= i < |predicted| => BinaryTerm(log, predicted[i], target[i]))
  }

  function BinaryTerm(log: real -> real, p: real, t: real): real
  {
    -(t * log(p)) - (1.0 - t) * log(1.0 - p)
  }

  /** `CategoricalCrossEntropyLossFn.calculate`'s terms: `-(t * log p)`. */
  function CategoricalTerms(log: real -> real, predicted: Vector, target: Vector): (t: Vector)
    requires |predicted| == |target|
    ensures |t| == |predicted|
  {
    seq(|predicted|, i requires 0 <= i < |predicted| => CategoricalTerm(log, predicted[i], target[i]))
  }

  function CategoricalTerm(log: real -> real, p: real, t: real): real
  {
    -(t * log(p))
  }

  /** `calculate` of the held loss function: every one of them fails on
      vectors of different lengths. */
  function Calculate(f: Functions, loss: LossFn, predicted: Vector, target: Vector): (r: Result<real>)
    ensures r.Failure? <==> |predicted| != |target|
    ensures r.Failure? ==> r.error == DimensionMismatch
    ensures loss == SquaredErrorLoss && r.Success? ==> r.value >= 0.0
  {
    if |predicted| != |target| then Failure(DimensionMismatch)
    else
      match loss
      case SquaredErrorLoss => SquaredError.Calculate(predicted, target)
      case BinaryCrossEntropy => Success(Sum(BinaryTerms(f.log, predicted, target)))
      case CategoricalCrossEntropy => Success(Sum(CategoricalTerms(f.log, predicted, target)))
  }

  lemma ScaledLogNonPositive(log: real -> real, t: real, p: real)
    requires NonPositiveOnUnit(log)
    requires 0.0 <= t && 0.0 < p <= 1.0
    ensures t * log(p) <= 0.0
  {
    var l := log(p);
    assert l <= 0.0;
    assert t * l <= 0.0 by {
      assert t * (-l) >= 0.0;
    }
  }

  lemma BinaryTermNonNegative(log: real -> real, t: real, p: real)
    requires NonPositiveOnUnit(log)
    requires 0.0 <= t <= 1.0 && 0.0 < p < 1.0
    ensures BinaryTerm(log, p, t) >= 0.0
  {
    ScaledLogNonPositive(log, t, p);
    ScaledLogNonPositive(log, 1.0 - t, 1.0 - p);
  }

  lemma CategoricalTermNonNegative(log: real -> real, t: real, p: real)
    requires NonPositiveOnUnit(log)
    requires 0.0 <= t && 0.0 < p <= 1.0
    ensures CategoricalTerm(log, p, t) >= 0.0
  {
    ScaledLogNonPositive(log, t, p);
  }

  /** Binary cross-entropy is non-negative for targets in `[0, 1]` and
      predictions strictly inside `(0, 1)` (sigmoid outputs). */
  lemma BinaryNonNegative(f: Functions, predicted: Vector, target: Vector)
    requires NonPositiveOnUnit(f.log)
    requires |predicted| == |target|
    requires forall i :: 0 <= i < |target| ==> 0.0 <= target[i] <= 1.0
    requires forall i :: 0 <= i < |predicted| ==> 0.0 < predicted[i] < 1.0
    ensures Calculate(f, BinaryCrossEntropy, predicted, target).value >= 0.0
  {
    var t := BinaryTerms(f.log, predicted, target);
    forall i | 0 <= i < |t| ensures t[i] >= 0.0 {
      BinaryTermNonNegative(f.log, target[i], predicted[i]);
      assert t[i] == BinaryTerm(f.log, predicted[i], target[i]);
    }
    SumNonNegative(t);
  }

  /** Categorical cross-entropy is non-negative for non-negative targets and
      predictions in `(0, 1]` (softmax outputs). */
  lemma CategoricalNonNegative(f: Functions, predicted: Vector, target: Vector)
    requires NonPositiveOnUnit(f.log)
    requires |predicted| == |target|
    requires NonNegative(target)
    requires forall i :: 0 <= i < |predicted| ==> 0.0 < predicted[i] <= 1.0
    ensures Calculate(f, CategoricalCrossEntropy, predicted, target).value >= 0.0
  {
    var t := CategoricalTerms(f.log, predicted, target);
    forall i | 0 <= i < |t| ensures t[i] >= 0.0 {
      CategoricalTermNonNegative(f.log, target[i], predicted[i]);
      assert t[i] == CategoricalTerm(f.log, predicted[i], target[i]);
    }
    SumNonNegative(t);
  }
}
