/** `MultilayerPerceptron`: a network with one hidden layer, trained by
    mini-batch gradient descent.

    The Java object is a bundle of mutable arrays; here it is an immutable
    record, and each operation returns the record it leaves behind. Weights
    and their gradient accumulators share one shape (`Weights`), and the
    activations cached by the forward pass for the backward pass form a
    `Cache`. A `Valid` network has every array at the size the constructor
    allocates. */
module Perceptron {
  import opened Vectors
  import opened Results
  import opened Elementary
  import opened Activations
  import opened Losses
  import opened Batching
  import LinearActivation
  import SquaredError

  /** `w1`/`b1` connect the input layer to the hidden layer, `w2`/`b2` the
      hidden layer to the output layer; `w[j][i]` weighs unit `j` of the
      lower layer into unit `i` of the upper one. */
  datatype Weights = Weights(w1: Matrix, b1: Vector, w2: Matrix, b2: Vector)

  /** The values the forward pass leaves for the backward pass. */
  datatype Cache = Cache(input: Vector, z1: Vector, h: Vector, z2: Vector, o: Vector)

  datatype Network = Network(
    ni: nat, nh: nat, no: nat,
    hidden: ActivationFn, output: ActivationFn, loss: LossFn,
    epochs: int, learningRate: real, batchSize: int,
    params: Weights,  // w1, b1, w2, b2
    grads: Weights,   // dw1, db1, dw2, db2
    cache: Cache)

  predicate Shaped(p: Weights, ni: nat, nh: nat, no: nat)
  {
    IsMatrix(p.w1, ni, nh) && |p.b1| == nh && IsMatrix(p.w2, nh, no) && |p.b2| == no
  }

  /** Every weight, bias and accumulator entry is zero. */
  predicate IsZero(p: Weights)
  {
    (forall i, j :: 0 <= i < |p.w1| && 0 <= j < |p.w1[i]| ==> p.w1[i][j] == 0.0) &&
    (forall i :: 0 <= i < |p.b1| ==> p.b1[i] == 0.0) &&
    (forall i, j :: 0 <= i < |p.w2| && 0 <= j < |p.w2[i]| ==> p.w2[i][j] == 0.0) &&
    (forall i :: 0 <= i < |p.b2| ==> p.b2[i] == 0.0)
  }

  function ZeroWeights(ni: nat, nh: nat, no: nat): (z: Weights)
    ensures Shaped(z, ni, nh, no) && IsZero(z)
  {
    Weights(ZeroMatrix(ni, nh), Zeros(nh), ZeroMatrix(nh, no), Zeros(no))
  }

  /** The representation invariant: all arrays have the sizes the
      constructor allocates, and the hidden activation is one
      `getActivation` can return. */
  predicate Valid(net: Network)
  {
    Shaped(net.params, net.ni, net.nh, net.no) &&
    Shaped(net.grads, net.ni, net.nh, net.no) &&
    |net.cache.input| == net.ni && |net.cache.z1| == net.nh && |net.cache.h| == net.nh &&
    |net.cache.z2| == net.no && |net.cache.o| == net.no &&
    net.hidden != SoftmaxFn
  }

  /** `n` differs from `net` at most in its weights, accumulators and cache:
      the sizes, activations, loss and training settings are the same. */
  predicate SameConfig(net: Network, n: Network)
  {
    n.(params := net.params, grads := net.grads, cache := net.cache) == net
  }

  // ---------------------------------------------------------------------
  // Construction

  /** The output activation and the loss the constructor picks from the two
      flags. In every pairing the loss's gradient through the activation
      simplifies to `target - o`, which `backward` relies on. */
  function OutputPairing(classification: bool, multiClass: bool): (p: (ActivationFn, LossFn))
    ensures p == (LinearFn, SquaredErrorLoss) <==> !classification
    ensures p == (SoftmaxFn, CategoricalCrossEntropy) <==> classification && multiClass
    ensures p == (SigmoidFn, BinaryCrossEntropy) <==> classification && !multiClass
  {
    if !classification then (LinearFn, SquaredErrorLoss)
    else if multiClass then (SoftmaxFn, CategoricalCrossEntropy)
    else (SigmoidFn, BinaryCrossEntropy)
  }

  /** The constructor. The initial weights, which the Java code draws at
      random, are a parameter. */
  function Create(ni: nat, nh: nat, no: nat, learningRate: real, epochs: int,
                  t: ActivationType, classification: bool, multiClass: bool,
                  batchSize: int, initial: Weights): (net: Network)
    requires Shaped(initial, ni, nh, no)
    ensures Valid(net)
    ensures net.ni == ni && net.nh == nh && net.no == no
    ensures net.hidden == GetActivation(t) && net.hidden != SoftmaxFn
    ensures (net.output, net.loss) == OutputPairing(classification, multiClass)
    ensures net.learningRate == learningRate && net.epochs == epochs && net.batchSize == batchSize
    ensures net.params == initial && IsZero(net.grads)
    ensures net.cache == Cache(Zeros(ni), Zeros(nh), Zeros(nh), Zeros(no), Zeros(no))
  {
    var (output, loss) := OutputPairing(classification, multiClass);
    Network(ni, nh, no, GetActivation(t), output, loss, epochs, learningRate, batchSize,
            initial, ZeroWeights(ni, nh, no),
            Cache(Zeros(ni), Zeros(nh), Zeros(nh), Zeros(no), Zeros(no)))
  }

  // ---------------------------------------------------------------------
  // Forward pass

  /** The activations of a layer: unit `i` receives the weighted sum of the
      lower layer's units plus its bias. */
  function Affine(v: Vector, w: Matrix, b: Vector): (z: Vector)
    requires IsMatrix(w, |v|, |b|)
    ensures |z| == |b|
  {
    seq(|b|, i requires 0 <= i < |b| => Dot(v, Column(w, i)) + b[i])
  }

  /** The reference forward pass: what the caches hold after `forward(x)`. */
  function Propagate(f: Functions, net: Network, x: Vector): (c: Cache)
    requires Positive(f.exp)
    requires Valid(net) && |x| == net.ni
    ensures |c.input| == net.ni && |c.z1| == net.nh && |c.h| == net.nh && |c.z2| == net.no && |c.o| == net.no
  {
    var z1 := Affine(x, net.params.w1, net.params.b1);
    var h := Activations.Squash(f, net.hidden, z1);
    var z2 := Affine(h, net.params.w2, net.params.b2);
    Cache(x, z1, h, z2, Activations.Squash(f, net.output, z2))
  }

  /** One layer's activations, summed as the Java loops sum them. */
  method Layer(v: Vector, w: Matrix, b: Vector) returns (z: Vector)
    requires IsMatrix(w, |v|, |b|)
    ensures |z| == |b|
    ensures forall i :: 0 <= i < |b| ==> z[i] == Dot(v, Column(w, i)) + b[i]
  {
    z := [];
    var i := 0;
    while i < |b|
      invariant 0 <= i <= |b| && |z| == i
      invariant forall k :: 0 <= k < i ==> z[k] == Dot(v, Column(w, k)) + b[k]
    {
      var column := Column(w, i);
      var sum := 0.0;
      var j := 0;
      while j < |v|
        invariant 0 <= j <= |v|
        invariant sum == Dot(v[..j], column[..j])
      {
        assert v[..j + 1][..j] == v[..j] && column[..j + 1][..j] == column[..j];
        sum := sum + v[j] * w[j][i];
        j := j + 1;
      }
      assert v[..j] == v && column[..j] == column;
      z := z + [sum + b[i]];
      i := i + 1;
    }
  }

  lemma LayerIsAffine(z: Vector, v: Vector, w: Matrix, b: Vector)
    requires IsMatrix(w, |v|, |b|) && |z| == |b|
    requires forall i :: 0 <= i < |b| ==> z[i] == Dot(v, Column(w, i)) + b[i]
    ensures z == Affine(v, w, b)
  {
  }

  /** `forward`: fails on an input of the wrong width; otherwise fills the
      caches with the reference pass and changes nothing else. */
  method Forward(f: Functions, net: Network, x: Vector) returns (r: Result<Network>)
    requires Positive(f.exp)
    requires Valid(net)
    ensures r.Failure? <==> |x| != net.ni
    ensures r.Failure? ==> r.error == DimensionMismatch
    ensures r.Success? ==> Valid(r.value) && r.value == net.(cache := Propagate(f, net, x))
  {
    if |x| != net.ni {
      return Failure(DimensionMismatch);
    }
    var z1 := Layer(x, net.params.w1, net.params.b1);
    var h := Activations.Squash(f, net.hidden, z1);
    var z2 := Layer(h, net.params.w2, net.params.b2);
    var o := Activations.Squash(f, net.output, z2);
    LayerIsAffine(z1, x, net.params.w1, net.params.b1);
    LayerIsAffine(z2, h, net.params.w2, net.params.b2);
    r := Success(net.(cache := Cache(x, z1, h, z2, o)));
  }

  /** The caches after `forward(x)`, unit by unit: each hidden and output
      unit holds the weighted sum of the layer below plus its bias, and the
      activations are applied to the whole layer. */
  lemma PropagateUnits(f: Functions, net: Network, x: Vector)
    requires Positive(f.exp)
    requires Valid(net) && |x| == net.ni
    ensures Propagate(f, net, x).input == x
    ensures forall i :: 0 <= i < net.nh ==>
      Propagate(f, net, x).z1[i] == Dot(x, Column(net.params.w1, i)) + net.params.b1[i]
    ensures Propagate(f, net, x).h == Activations.Squash(f, net.hidden, Propagate(f, net, x).z1)
    ensures forall i :: 0 <= i < net.no ==>
      Propagate(f, net, x).z2[i] == Dot(Propagate(f, net, x).h, Column(net.params.w2, i)) + net.params.b2[i]
    ensures Propagate(f, net, x).o == Activations.Squash(f, net.output, Propagate(f, net, x).z2)
  {
  }

  /** For regression (linear output) the network's output is the output
      layer's raw activation. */
  lemma RegressionOutputIsRaw(f: Functions, net: Network, x: Vector)
    requires Positive(f.exp)
    requires Valid(net) && |x| == net.ni
    requires net.output == LinearFn
    ensures Propagate(f, net, x).o == Propagate(f, net, x).z2
  {
    LinearActivation.SquashIsIdentity(Propagate(f, net, x).z2);
  }

  // ---------------------------------------------------------------------
  // Backward pass

  /** The output layer's error signal. */
  function OutputDelta(target: Vector, o: Vector): (d: Vector)
    requires |target| == |o|
    ensures |d| == |o|
    ensures forall j :: 0 <= j < |o| ==> d[j] == target[j] - o[j]
  {
    seq(|o|, j requires 0 <= j < |o| => target[j] - o[j])
  }

  /** `m` plus the outer product of `u` and `v`. */
  function AddOuter(m: Matrix, u: Vector, v: Vector): (r: Matrix)
    requires IsMatrix(m, |u|, |v|)
    ensures IsMatrix(r, |u|, |v|)
    ensures forall i, j :: 0 <= i < |u| && 0 <= j < |v| ==> r[i][j] == m[i][j] + u[i] * v[j]
  {
    seq(|u|, i requires 0 <= i < |u| => seq(|v|, j requires 0 <= j < |v| => m[i][j] + u[i] * v[j]))
  }

  /** The hidden layer's error signal: each hidden unit collects the output
      errors through its outgoing weights, scaled by the slope of its
      activation. */
  function HiddenError(w2: Matrix, delta2: Vector, slopes: Vector): (d: Vector)
    requires IsMatrix(w2, |slopes|, |delta2|)
    ensures |d| == |slopes|
  {
    seq(|slopes|, i requires 0 <= i < |slopes| => UnitError(w2[i], delta2, slopes[i]))
  }

  /** One hidden unit's error: the output errors weighted by the unit's
      outgoing weights `row`, times the slope at the unit. */
  function UnitError(row: Vector, delta2: Vector, slope: real): real
    requires |row| == |delta2|
  {
    Dot(row, delta2) * slope
  }

  lemma HiddenErrorAt(d: Vector, w2: Matrix, delta2: Vector, slopes: Vector)
    requires IsMatrix(w2, |slopes|, |delta2|) && |d| == |slopes|
    requires forall i :: 0 <= i < |d| ==> d[i] == UnitError(w2[i], delta2, slopes[i])
    ensures d == HiddenError(w2, delta2, slopes)
  {
    var e := HiddenError(w2, delta2, slopes);
    forall i | 0 <= i < |d| ensures d[i] == e[i] {
    }
  }

  /** The hidden layer's error signal, summed as the Java loop sums it. */
  method HiddenDelta(w2: Matrix, delta2: Vector, slopes: Vector) returns (delta1: Vector)
    requires IsMatrix(w2, |slopes|, |delta2|)
    ensures |delta1| == |slopes|
    ensures forall i :: 0 <= i < |delta1| ==> delta1[i] == UnitError(w2[i], delta2, slopes[i])
  {
    delta1 := [];
    var i := 0;
    while i < |slopes|
      invariant 0 <= i <= |slopes| && |delta1| == i
      invariant forall k :: 0 <= k < i ==> delta1[k] == UnitError(w2[k], delta2, slopes[k])
    {
      var row := w2[i];
      var sum := 0.0;
      var j := 0;
      while j < |delta2|
        invariant 0 <= j <= |delta2|
        invariant sum == Dot(row[..j], delta2[..j])
      {
        assert row[..j + 1][..j] == row[..j] && delta2[..j + 1][..j] == delta2[..j];
        sum := sum + row[j] * delta2[j];
        j := j + 1;
      }
      assert row[..j] == row && delta2[..j] == delta2;
      delta1 := delta1 + [sum * slopes[i]];
      i := i + 1;
    }
  }

  /** The slopes of the hidden activation at the cached pre-activations. */
  function Slopes(f: Functions, net: Network): (s: Vector)
    requires Positive(f.exp) && Valid(net)
    ensures |s| == net.nh
  {
    Activations.Derivative(f, net.hidden, net.cache.z1).value
  }

  /** The accumulators after `backward(target)`: the weight accumulators
      grow by the outer product of the lower layer with the upper layer's
      error, and the bias accumulators become that error. */
  function Accumulated(f: Functions, net: Network, target: Vector): (g: Weights)
    requires Positive(f.exp)
    requires Valid(net) && |target| == net.no
    ensures Shaped(g, net.ni, net.nh, net.no)
  {
    var delta2 := OutputDelta(target, net.cache.o);
    var delta1 := HiddenError(net.params.w2, delta2, Slopes(f, net));
    Weights(AddOuter(net.grads.w1, net.cache.input, delta1), delta1,
            AddOuter(net.grads.w2, net.cache.h, delta2), delta2)
  }

  /** `backward`: fails on a target of the wrong width. Otherwise the weight
      accumulators grow by the outer products of the lower layer with the
      upper layer's error, while the bias accumulators are OVERWRITTEN with
      the error itself; the weights, biases and caches are untouched. */
  method Backward(f: Functions, net: Network, target: Vector) returns (r: Result<Network>)
    requires Positive(f.exp)
    requires Valid(net)
    ensures r.Failure? <==> |target| != net.no
    ensures r.Failure? ==> r.error == DimensionMismatch
    ensures r.Success? ==> Valid(r.value) && r.value == net.(grads := Accumulated(f, net, target))
  {
    if |target| != net.no {
      return Failure(DimensionMismatch);
    }
    var delta2 := OutputDelta(target, net.cache.o);
    var dw2 := AddOuter(net.grads.w2, net.cache.h, delta2);
    var slopes := Slopes(f, net);
    var delta1 := HiddenDelta(net.params.w2, delta2, slopes);
    HiddenErrorAt(delta1, net.params.w2, delta2, slopes);
    var dw1 := AddOuter(net.grads.w1, net.cache.input, delta1);
    r := Success(net.(grads := Weights(dw1, delta1, dw2, delta2)));
  }

  /** With a linear hidden layer the hidden error is the back-propagated
      output error alone, since the derivative is 1. */
  lemma LinearHiddenDelta(f: Functions, net: Network, target: Vector, i: nat)
    requires Positive(f.exp)
    requires Valid(net) && net.hidden == LinearFn
    requires |target| == net.no && i < net.nh
    ensures HiddenError(net.params.w2, OutputDelta(target, net.cache.o), Slopes(f, net))[i]
         == Dot(net.params.w2[i], OutputDelta(target, net.cache.o))
  {
  }

  // ---------------------------------------------------------------------
  // Weight update

  /** `w + rate * (d / n)` entrywise. */
  function Step(w: Matrix, d: Matrix, rate: real, n: nat): (r: Matrix)
    requires n >= 1 && |d| == |w| && forall i :: 0 <= i < |w| ==> |d[i]| == |w[i]|
    ensures |r| == |w| && forall i :: 0 <= i < |w| ==> |r[i]| == |w[i]|
  {
    seq(|w|, i requires 0 <= i < |w| =>
      seq(|w[i]|, j requires 0 <= j < |w[i]| => w[i][j] + rate * (d[i][j] / n as real)))
  }

  function StepVector(b: Vector, d: Vector, rate: real, n: nat): (r: Vector)
    requires n >= 1 && |d| == |b|
    ensures |r| == |b|
  {
    seq(|b|, i requires 0 <= i < |b| => b[i] + rate * (d[i] / n as real))
  }

  /** `updateWeights(nSamples)`: every weight and bias moves by the learning
      rate times its accumulator averaged over `nSamples` rows; then every
      accumulator is zero again, at its original shape. */
  function UpdateWeights(net: Network, nSamples: nat): (r: Network)
    requires Valid(net) && nSamples >= 1
    ensures Valid(r) && SameConfig(net, r) && r.cache == net.cache
    ensures IsZero(r.grads)
    ensures forall i, j :: 0 <= i < net.ni && 0 <= j < net.nh ==>
      r.params.w1[i][j] == net.params.w1[i][j] + net.learningRate * (net.grads.w1[i][j] / nSamples as real)
    ensures forall i :: 0 <= i < net.nh ==>
      r.params.b1[i] == net.params.b1[i] + net.learningRate * (net.grads.b1[i] / nSamples as real)
    ensures forall i, j :: 0 <= i < net.nh && 0 <= j < net.no ==>
      r.params.w2[i][j] == net.params.w2[i][j] + net.learningRate * (net.grads.w2[i][j] / nSamples as real)
    ensures forall i :: 0 <= i < net.no ==>
      r.params.b2[i] == net.params.b2[i] + net.learningRate * (net.grads.b2[i] / nSamples as real)
  {
    var p := net.params;
    var g := net.grads;
    var rate := net.learningRate;
    net.(params := Weights(Step(p.w1, g.w1, rate, nSamples), StepVector(p.b1, g.b1, rate, nSamples),
                           Step(p.w2, g.w2, rate, nSamples), StepVector(p.b2, g.b2, rate, nSamples)),
         grads := ZeroWeights(net.ni, net.nh, net.no))
  }

  /** An update right after an update moves nothing: the accumulators it
      reads were reset by the first. */
  lemma UpdateAfterUpdate(net: Network, n: nat, m: nat)
    requires Valid(net) && n >= 1 && m >= 1
    ensures UpdateWeights(UpdateWeights(net, n), m).params == UpdateWeights(net, n).params
  {
    var once := UpdateWeights(net, n);
    var p := once.params;
    var g := once.grads;
    StepOfZero(p.w1, g.w1, net.learningRate, m);
    StepVectorOfZero(p.b1, g.b1, net.learningRate, m);
    StepOfZero(p.w2, g.w2, net.learningRate, m);
    StepVectorOfZero(p.b2, g.b2, net.learningRate, m);
  }

  lemma StepOfZero(w: Matrix, d: Matrix, rate: real, n: nat)
    requires n >= 1 && |d| == |w| && forall i :: 0 <= i < |w| ==> |d[i]| == |w[i]|
    requires forall i, j :: 0 <= i < |d| && 0 <= j < |d[i]| ==> d[i][j] == 0.0
    ensures Step(w, d, rate, n) == w
  {
    var r := Step(w, d, rate, n);
    forall i | 0 <= i < |w| ensures r[i] == w[i] {
      forall j | 0 <= j < |w[i]| ensures r[i][j] == w[i][j] {
        ZeroStep(w[i][j], rate, n);
      }
    }
  }

  lemma StepVectorOfZero(b: Vector, d: Vector, rate: real, n: nat)
    requires n >= 1 && |d| == |b|
    requires forall i :: 0 <= i < |d| ==> d[i] == 0.0
    ensures StepVector(b, d, rate, n) == b
  {
    var r := StepVector(b, d, rate, n);
    forall i | 0 <= i < |b| ensures r[i] == b[i] {
      ZeroStep(b[i], rate, n);
    }
  }

  lemma ZeroStep(w: real, rate: real, n: nat)
    requires n >= 1
    ensures w + rate * (0.0 / n as real) == w
  {
  }

  /** The state of the update test: a 2-2-2 network with learning rate 0.5
      and accumulators from one backward pass. */
  function UpdateExample(): (net: Network)
    ensures Valid(net)
  {
    Network(2, 2, 2, SigmoidFn, SigmoidFn, SquaredErrorLoss, 1000, 0.5, 1,
      Weights([[0.15, 0.25], [0.2, 0.3]], [0.35, 0.35], [[0.4, 0.5], [0.45, 0.55]], [0.6, 0.6]),
      Weights([[-0.000439, -0.000498], [-0.000877, -0.000995]], [-0.008771, -0.009954],
              [[-0.082, 0.023], [-0.083, 0.023]], [-0.138499, 0.038099]),
      Cache(Zeros(2), Zeros(2), Zeros(2), Zeros(2), Zeros(2)))
  }

  /** The update test: one update over a single row moves each weight by half
      its accumulator. The test compares these values rounded to 3 or 6
      decimals; `w1[0][0]` and `w2[0][1]` are exact ties there, which the
      test's expected values resolve downwards. */
  lemma UpdateWeightsExample()
    ensures UpdateWeights(UpdateExample(), 1).params ==
      Weights([[0.1497805, 0.249751], [0.1995615, 0.2995025]], [0.3456145, 0.345023],
              [[0.359, 0.5115], [0.4085, 0.5615]], [0.5307505, 0.6190495])
  {
    var p := UpdateWeights(UpdateExample(), 1).params;
    assert p.w1[0] == [0.1497805, 0.249751];
    assert p.w1[1] == [0.1995615, 0.2995025];
    assert p.w2[0] == [0.359, 0.5115];
    assert p.w2[1] == [0.4085, 0.5615];
  }

  // ---------------------------------------------------------------------
  // Training

  /** Why row `i` of an epoch would throw, in the order the Java code meets
      the failures: `forward(x[i])`, then the index `y[i]`, then the loss on
      `y[i]` (whose length check `backward` repeats). */
  function RowError(ni: nat, no: nat, x: Matrix, y: Matrix, i: nat): Option<Error>
    requires i < |x|
  {
    if |x[i]| != ni then Some(DimensionMismatch)
    else if i >= |y| then Some(IndexOutOfBounds)
    else if |y[i]| != no then Some(DimensionMismatch)
    else None
  }

  /** Row `i` is the first row from row `from` on that fails, with error
      `e`. */
  predicate FailsAt(ni: nat, no: nat, x: Matrix, y: Matrix, from: nat, i: nat, e: Error)
  {
    from <= i < |x| && RowError(ni, no, x, y, i) == Some(e) &&
    forall k :: from <= k < i ==> RowError(ni, no, x, y, k) == None
  }

  /** Every row from row `from` on fits. */
  predicate RowsFit(ni: nat, no: nat, x: Matrix, y: Matrix, from: nat)
  {
    forall i :: from <= i < |x| ==> RowError(ni, no, x, y, i) == None
  }

  /** One row of `fit`'s loop before the batch counter: `forward(row)`, then
      `backward(target)` on the caches it leaves. The loss computed between
      them only feeds the printed epoch loss. */
  function TrainStep(f: Functions, net: Network, row: Vector, target: Vector): (n: Network)
    requires Positive(f.exp)
    requires Valid(net) && |row| == net.ni && |target| == net.no
    ensures Valid(n) && SameConfig(net, n) && n.params == net.params
  {
    var c := net.(cache := Propagate(f, net, row));
    c.(grads := Accumulated(f, c, target))
  }

  /** The row loop's body before the batch counter: forward on `x[i]`, the
      loss on `y[i]`, backward on `y[i]`. It fails exactly when the row
      does; otherwise it is the reference step. */
  method TrainRow(f: Functions, net: Network, x: Matrix, y: Matrix, i: nat) returns (r: Result<Network>)
    requires Positive(f.exp)
    requires Valid(net) && i < |x|
    ensures r.Failure? <==> RowError(net.ni, net.no, x, y, i) != None
    ensures r.Failure? ==> RowError(net.ni, net.no, x, y, i) == Some(r.error)
    ensures r.Success? ==> r.value == TrainStep(f, net, x[i], y[i])
  {
    var forward := Forward(f, net, x[i]);
    if forward.Failure? {
      return Failure(DimensionMismatch);
    }
    var cur := forward.value;
    if i >= |y| {
      return Failure(IndexOutOfBounds);
    }
    var rowLoss := Losses.Calculate(f, cur.loss, cur.cache.o, y[i]);
    if rowLoss.Failure? {
      return Failure(DimensionMismatch);
    }
    var backward := Backward(f, cur, y[i]);
    r := backward;
  }

  /** A row from `from` on fits when all do: it has the input width, and a
      target row of the output width. */
  lemma RowFits(ni: nat, no: nat, x: Matrix, y: Matrix, from: nat)
    requires RowsFit(ni, no, x, y, from) && from < |x|
    ensures |x[from]| == ni && from < |y| && |y[from]| == no
    ensures RowsFit(ni, no, x, y, from + 1)
  {
    assert RowError(ni, no, x, y, from) == None;
  }

  /** The error of the first row from row `from` on that does not fit. */
  function FirstError(ni: nat, no: nat, x: Matrix, y: Matrix, from: nat): (e: Error)
    requires !RowsFit(ni, no, x, y, from)
    ensures exists i :: FailsAt(ni, no, x, y, from, i, e)
    decreases |x| - from
  {
    if RowError(ni, no, x, y, from).Some? then
      assert FailsAt(ni, no, x, y, from, from, RowError(ni, no, x, y, from).value);
      RowError(ni, no, x, y, from).value
    else
      var e := FirstError(ni, no, x, y, from + 1);
      var i :| FailsAt(ni, no, x, y, from + 1, i, e);
      assert FailsAt(ni, no, x, y, from, i, e);
      e
  }

  /** The first failing row is unique, so its error is `FirstError`. */
  lemma {:induction false} FirstErrorUnique(ni: nat, no: nat, x: Matrix, y: Matrix, from: nat, i: nat, e: Error)
    requires FailsAt(ni, no, x, y, from, i, e)
    ensures !RowsFit(ni, no, x, y, from) && FirstError(ni, no, x, y, from) == e
    decreases |x| - from
  {
    if from < i {
      FirstErrorUnique(ni, no, x, y, from + 1, i, e);
    }
  }

  /** A network part-way through an epoch, with the `nSamples` of every
      `updateWeights` call made so far. */
  datatype Trained = Trained(net: Network, updates: seq<nat>)

  /** The reference epoch over rows that fit, from row `i` on and `counter`
      rows after the last update: each row takes a `TrainStep`; when the
      incremented counter reaches the batch size, `updateWeights` runs over
      those rows and the counter restarts; after the last row,
      `updateWeights` runs over the remaining rows, if any. The `nSamples`
      of each update is recorded after `updates`. */
  function EpochFrom(f: Functions, net: Network, x: Matrix, y: Matrix, i: nat, counter: nat, updates: seq<nat>): (r: Trained)
    requires Positive(f.exp)
    requires Valid(net) && i <= |x| && RowsFit(net.ni, net.no, x, y, i)
    ensures Valid(r.net) && SameConfig(net, r.net)
    decreases |x| - i
  {
    if i == |x| then
      if counter != 0 then Trained(UpdateWeights(net, counter), updates + [counter])
      else Trained(net, updates)
    else
      RowFits(net.ni, net.no, x, y, i);
      var n := TrainStep(f, net, x[i], y[i]);
      if counter + 1 == net.batchSize then
        EpochFrom(f, UpdateWeights(n, counter + 1), x, y, i + 1, 0, updates + [counter + 1])
      else
        EpochFrom(f, n, x, y, i + 1, counter + 1, updates)
  }

  /** The reference epoch over one more row that fits: its step, and the
      update when the counter reaches the batch size. */
  lemma EpochFromStep(f: Functions, net: Network, x: Matrix, y: Matrix, i: nat, counter: nat, updates: seq<nat>)
    requires Positive(f.exp)
    requires Valid(net) && i < |x| && RowsFit(net.ni, net.no, x, y, i)
    ensures |x[i]| == net.ni && i < |y| && |y[i]| == net.no && RowsFit(net.ni, net.no, x, y, i + 1)
    ensures counter + 1 == net.batchSize ==>
      EpochFrom(f, net, x, y, i, counter, updates) ==
      EpochFrom(f, UpdateWeights(TrainStep(f, net, x[i], y[i]), counter + 1), x, y, i + 1, 0, updates + [counter + 1])
    ensures counter + 1 != net.batchSize ==>
      EpochFrom(f, net, x, y, i, counter, updates) == EpochFrom(f, TrainStep(f, net, x[i], y[i]), x, y, i + 1, counter + 1, updates)
  {
    RowFits(net.ni, net.no, x, y, i);
  }

  /** The reference epoch passes `updateWeights` the `nSamples` its batch
      counter plans, whatever the rows and the weights. */
  lemma {:induction false} EpochFromPlan(f: Functions, net: Network, x: Matrix, y: Matrix, i: nat, counter: nat, updates: seq<nat>)
    requires Positive(f.exp)
    requires Valid(net) && i <= |x| && RowsFit(net.ni, net.no, x, y, i)
    ensures EpochFrom(f, net, x, y, i, counter, updates).updates == updates + Plan(|x| - i, net.batchSize, counter)
    decreases |x| - i
  {
    if i < |x| {
      EpochFromStep(f, net, x, y, i, counter, updates);
      var n := TrainStep(f, net, x[i], y[i]);
      if counter + 1 == net.batchSize {
        var next := UpdateWeights(n, counter + 1);
        EpochFromPlan(f, next, x, y, i + 1, 0, updates + [counter + 1]);
        assert updates + Plan(|x| - i, net.batchSize, counter) ==
          (updates + [counter + 1]) + Plan(|x| - (i + 1), net.batchSize, 0);
      } else {
        EpochFromPlan(f, n, x, y, i + 1, counter + 1, updates);
      }
    }
  }

  /** The reference epoch ends with every accumulator zero when a row is
      still to be trained or counted: the last row is followed by an
      update, full or remainder. */
  lemma {:induction false} EpochFromClears(f: Functions, net: Network, x: Matrix, y: Matrix, i: nat, counter: nat, updates: seq<nat>)
    requires Positive(f.exp)
    requires Valid(net) && i <= |x| && RowsFit(net.ni, net.no, x, y, i)
    requires i < |x| || counter != 0
    ensures IsZero(EpochFrom(f, net, x, y, i, counter, updates).net.grads)
    decreases |x| - i
  {
    if i < |x| {
      EpochFromStep(f, net, x, y, i, counter, updates);
      var n := TrainStep(f, net, x[i], y[i]);
      if counter + 1 == net.batchSize {
        var next := UpdateWeights(n, counter + 1);
        if i + 1 < |x| {
          EpochFromClears(f, next, x, y, i + 1, 0, updates + [counter + 1]);
        }
      } else {
        EpochFromClears(f, n, x, y, i + 1, counter + 1, updates);
      }
    }
  }

  /** One whole epoch of `fit` over rows that fit: `updateWeights` is called
      with the closed-form schedule's `nSamples`, the accumulators end at
      zero when there was a row, and an epoch over no rows changes
      nothing. */
  lemma EpochFacts(f: Functions, net: Network, x: Matrix, y: Matrix)
    requires Positive(f.exp)
    requires Valid(net) && RowsFit(net.ni, net.no, x, y, 0)
    ensures EpochFrom(f, net, x, y, 0, 0, []).updates == Schedule(|x|, net.batchSize)
    ensures |x| >= 1 ==> IsZero(EpochFrom(f, net, x, y, 0, 0, []).net.grads)
    ensures |x| == 0 ==> EpochFrom(f, net, x, y, 0, 0, []) == Trained(net, [])
  {
    EpochFromPlan(f, net, x, y, 0, 0, []);
    PlanCompletes(|x|, net.batchSize, 0, [], 0);
    if |x| >= 1 {
      EpochFromClears(f, net, x, y, 0, 0, []);
    }
  }

  /** The batch counter stays within the batch: with a positive batch size,
      every `nSamples` an epoch passes to `updateWeights` lies in
      `[1, batchSize]`: no batch is empty and none holds more rows than the
      batch size. */
  lemma EpochBatchesBounded(f: Functions, net: Network, x: Matrix, y: Matrix, k: nat)
    requires Positive(f.exp)
    requires Valid(net) && RowsFit(net.ni, net.no, x, y, 0) && net.batchSize >= 1
    requires k < |EpochFrom(f, net, x, y, 0, 0, []).updates|
    ensures 1 <= EpochFrom(f, net, x, y, 0, 0, []).updates[k] <= net.batchSize
  {
    EpochFacts(f, net, x, y);
    ScheduleBounds(|x|, net.batchSize, k);
  }

  /** One epoch of `fit`: forward, loss and backward on each row in turn,
      with an update whenever the counter reaches the batch size and one for
      the remainder. It fails exactly when some row does not fit, with the
      first such row's error; otherwise the loop computes the reference
      epoch. The per-epoch loss is only printed by the Java code and is not
      returned. */
  method Epoch(f: Functions, net: Network, x: Matrix, y: Matrix) returns (r: Result<Trained>)
    requires Positive(f.exp)
    requires Valid(net)
    ensures r.Failure? <==> !RowsFit(net.ni, net.no, x, y, 0)
    ensures r.Failure? ==> r.error == FirstError(net.ni, net.no, x, y, 0)
    ensures r.Success? ==> r.value == EpochFrom(f, net, x, y, 0, 0, [])
  {
    var b := net.batchSize;
    var cur := net;
    var counter: nat := 0;
    var updates: seq<nat> := [];
    var i := 0;
    while i < |x|
      invariant 0 <= i <= |x|
      invariant Valid(cur) && SameConfig(net, cur)
      invariant forall k :: 0 <= k < i ==> RowError(net.ni, net.no, x, y, k) == None
      invariant RowsFit(net.ni, net.no, x, y, 0) ==>
        EpochFrom(f, cur, x, y, i, counter, updates) == EpochFrom(f, net, x, y, 0, 0, [])
    {
      var trained := TrainRow(f, cur, x, y, i);
      if trained.Failure? {
        FirstErrorUnique(net.ni, net.no, x, y, 0, i, trained.error);
        return Failure(trained.error);
      }
      if RowsFit(net.ni, net.no, x, y, 0) {
        EpochFromStep(f, cur, x, y, i, counter, updates);
      }
      cur := trained.value;
      counter := counter + 1;
      if counter == b {
        cur := UpdateWeights(cur, b);
        updates := updates + [b];
        counter := 0;
      }
      i := i + 1;
    }
    if counter != 0 {
      cur := UpdateWeights(cur, counter);
      updates := updates + [counter];
    }
    r := Success(Trained(cur, updates));
  }

  /** The reference `fit`: `epochs` reference epochs in a row (none when
      `epochs` is not positive); when there is an epoch and some row does
      not fit, the first epoch fails at the first such row. */
  function Train(f: Functions, net: Network, x: Matrix, y: Matrix, epochs: int): (r: Result<Network>)
    requires Positive(f.exp)
    requires Valid(net)
    ensures r.Success? ==> Valid(r.value) && SameConfig(net, r.value)
    decreases epochs
  {
    if epochs <= 0 then Success(net)
    else if !RowsFit(net.ni, net.no, x, y, 0) then Failure(FirstError(net.ni, net.no, x, y, 0))
    else Train(f, EpochFrom(f, net, x, y, 0, 0, []).net, x, y, epochs - 1)
  }

  /** Whether a row fails depends only on its width, so `fit` fails exactly
      when there is an epoch and some row does not fit; after at least one
      epoch over at least one row the accumulators are zero. */
  lemma {:induction false} TrainFacts(f: Functions, net: Network, x: Matrix, y: Matrix, epochs: int)
    requires Positive(f.exp)
    requires Valid(net)
    ensures Train(f, net, x, y, epochs).Failure? <==> epochs >= 1 && !RowsFit(net.ni, net.no, x, y, 0)
    ensures Train(f, net, x, y, epochs).Success? && epochs >= 1 && |x| >= 1 ==>
      IsZero(Train(f, net, x, y, epochs).value.grads)
    decreases epochs
  {
    if epochs >= 1 && RowsFit(net.ni, net.no, x, y, 0) {
      EpochFacts(f, net, x, y);
      TrainFacts(f, EpochFrom(f, net, x, y, 0, 0, []).net, x, y, epochs - 1);
    }
  }

  /** `fit`: `epochs` epochs over the same rows. The loop computes the
      reference `Train`, and `updates[e]` lists the `nSamples` of the
      updates of epoch `e + 1`, which follow the closed-form schedule. */
  method Fit(f: Functions, net: Network, x: Matrix, y: Matrix) returns (r: Result<Network>, updates: seq<seq<nat>>)
    requires Positive(f.exp)
    requires Valid(net)
    ensures r == Train(f, net, x, y, net.epochs)
    ensures r.Success? ==> |updates| == (if net.epochs >= 1 then net.epochs else 0)
    ensures r.Success? ==> forall e :: 0 <= e < |updates| ==> updates[e] == Schedule(|x|, net.batchSize)
  {
    var cur := net;
    updates := [];
    var epoch := 1;
    while epoch <= net.epochs
      invariant 1 <= epoch && (net.epochs >= 1 ==> epoch <= net.epochs + 1) && (net.epochs < 1 ==> epoch == 1)
      invariant |updates| == epoch - 1
      invariant Valid(cur) && SameConfig(net, cur)
      invariant forall e :: 0 <= e < |updates| ==> updates[e] == Schedule(|x|, net.batchSize)
      invariant Train(f, cur, x, y, net.epochs - epoch + 1) == Train(f, net, x, y, net.epochs)
    {
      var trained := Epoch(f, cur, x, y);
      if trained.Failure? {
        return Failure(trained.error), updates;
      }
      EpochFacts(f, cur, x, y);
      cur := trained.value.net;
      updates := updates + [trained.value.updates];
      epoch := epoch + 1;
    }
    r := Success(cur);
  }

  // ---------------------------------------------------------------------
  // Prediction and loss

  /** The forward pass reads the weights and the configuration, never the
      cache it overwrites. */
  lemma PropagateIgnoresCache(f: Functions, net: Network, n: Network, x: Vector)
    requires Positive(f.exp)
    requires Valid(net) && Valid(n) && |x| == net.ni
    requires n == net.(cache := n.cache)
    ensures Propagate(f, n, x) == Propagate(f, net, x)
  {
  }

  /** Every row has the width of the input layer. */
  predicate Fits(net: Network, x: Matrix)
  {
    forall k :: 0 <= k < |x| ==> |x[k]| == net.ni
  }

  /** The reference predictions: the output of the forward pass on each
      row, the rows taken independently. */
  function Outputs(f: Functions, net: Network, x: Matrix): (rows: Matrix)
    requires Positive(f.exp)
    requires Valid(net) && Fits(net, x)
    ensures IsMatrix(rows, |x|, net.no)
  {
    seq(|x|, k requires 0 <= k < |x| => Propagate(f, net, x[k]).o)
  }

  lemma OutputsSnoc(f: Functions, net: Network, x: Matrix, i: nat)
    requires Positive(f.exp)
    requires Valid(net) && i < |x| && Fits(net, x[..i]) && |x[i]| == net.ni
    ensures Fits(net, x[..i + 1])
    ensures Outputs(f, net, x[..i + 1]) == Outputs(f, net, x[..i]) + [Propagate(f, net, x[i]).o]
  {
    assert x[..i + 1] == x[..i] + [x[i]];
    var a := Outputs(f, net, x[..i + 1]);
    var b := Outputs(f, net, x[..i]) + [Propagate(f, net, x[i]).o];
    forall k | 0 <= k < i + 1 ensures a[k] == b[k] {
      assert x[..i + 1][k] == x[k];
      if k < i {
        assert x[..i][k] == x[k];
      }
    }
  }

  /** `predict`: the network's output on each row, or a failure on the first
      row of the wrong width. Only the cache changes, to that of the last
      row. */
  method Predict(f: Functions, net: Network, x: Matrix) returns (r: Result<Network>, rows: Matrix)
    requires Positive(f.exp)
    requires Valid(net)
    ensures r.Failure? <==> !Fits(net, x)
    ensures r.Failure? ==> r.error == DimensionMismatch
    ensures r.Success? ==> Valid(r.value) && r.value == net.(cache := r.value.cache)
    ensures r.Success? ==> rows == Outputs(f, net, x)
    ensures r.Success? && |x| > 0 ==> r.value.cache == Propagate(f, net, x[|x| - 1])
    ensures r.Success? && |x| == 0 ==> r.value == net
  {
    var cur := net;
    rows := [];
    var i := 0;
    while i < |x|
      invariant 0 <= i <= |x|
      invariant Valid(cur) && cur == net.(cache := cur.cache)
      invariant Fits(net, x[..i]) && rows == Outputs(f, net, x[..i])
      invariant i > 0 ==> cur.cache == Propagate(f, net, x[i - 1])
      invariant i == 0 ==> cur == net
    {
      var forward := Forward(f, cur, x[i]);
      if forward.Failure? {
        return Failure(DimensionMismatch), rows;
      }
      PropagateIgnoresCache(f, net, cur, x[i]);
      OutputsSnoc(f, net, x, i);
      cur := forward.value;
      rows := rows + [cur.cache.o];
      i := i + 1;
    }
    assert x[..i] == x;
    r := Success(cur);
  }

  /** The loss of each row, failing on the first pair of rows of different
      widths. */
  function RowLosses(f: Functions, loss: LossFn, predicted: Matrix, target: Matrix): (r: Result<Vector>)
    requires |predicted| == |target|
    ensures r.Failure? <==> exists i :: 0 <= i < |target| && |predicted[i]| != |target[i]|
    ensures r.Failure? ==> r.error == DimensionMismatch
    ensures r.Success? ==> |r.value| == |target|
    ensures r.Success? ==> forall i :: 0 <= i < |target| ==>
      Success(r.value[i]) == Losses.Calculate(f, loss, predicted[i], target[i])
  {
    if |target| == 0 then Success([])
    else
      var n := |target| - 1;
      var init :- RowLosses(f, loss, predicted[..n], target[..n]);
      var last :- Losses.Calculate(f, loss, predicted[n], target[n]);
      Success(init + [last])
  }

  /** `loss`: the mean of the row losses; the row counts must agree, and an
      empty batch averages to NaN. */
  function Loss(f: Functions, net: Network, predicted: Matrix, target: Matrix): (r: Result<Quotient>)
    ensures r.Failure? <==> |predicted| != |target| || exists i :: 0 <= i < |target| && |predicted[i]| != |target[i]|
    ensures r.Failure? ==> r.error == DimensionMismatch
    ensures r.Success? ==> (r.value == NaN <==> |target| == 0)
    ensures r.Success? && |target| > 0 ==>
      r.value == Value(Sum(RowLosses(f, net.loss, predicted, target).value) / |target| as real)
  {
    if |target| != |predicted| then Failure(DimensionMismatch)
    else
      var losses :- RowLosses(f, net.loss, predicted, target);
      if |target| == 0 then Success(NaN)
      else
        Success(Value(Sum(losses) / |target| as real))
  }

  /** A mean squared-error loss is never negative. */
  lemma SquaredLossNonNegative(f: Functions, net: Network, predicted: Matrix, target: Matrix)
    requires net.loss == SquaredErrorLoss
    requires Loss(f, net, predicted, target).Success? && |target| > 0
    ensures Loss(f, net, predicted, target).value.v >= 0.0
  {
    var losses := RowLosses(f, net.loss, predicted, target).value;
    forall i | 0 <= i < |losses| ensures losses[i] >= 0.0 {
      assert Success(losses[i]) == Losses.Calculate(f, net.loss, predicted[i], target[i]);
    }
    SumNonNegative(losses);
  }

  /** Predicting the targets exactly gives a mean squared-error loss of 0. */
  lemma SquaredLossOfExactPrediction(f: Functions, net: Network, target: Matrix)
    requires net.loss == SquaredErrorLoss && |target| > 0
    ensures Loss(f, net, target, target) == Success(Value(0.0))
  {
    var losses := RowLosses(f, net.loss, target, target).value;
    forall i | 0 <= i < |losses| ensures losses[i] == 0.0 {
      assert Success(losses[i]) == Losses.Calculate(f, net.loss, target[i], target[i]);
      SquaredError.ZeroWhenEqual(target[i]);
    }
    SumZeroIff(losses);
  }
}
