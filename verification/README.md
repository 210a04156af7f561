# A verified model of the `mlp` perceptron engine

This project is a Dafny model of the core of `mlp`, a small Java library. The library trains a multilayer perceptron with one hidden layer by mini-batch gradient descent. The model covers:

- `MultilayerPerceptron`:
  - how the constructor picks the output activation and the loss;
  - `getActivation`;
  - the forward pass and the backward pass;
  - `updateWeights`;
  - the mini-batch schedule of `fit`;
  - `predict` and `loss`.
- The piecewise-linear activations (ReLU, leaky ReLU, linear) and softmax.
- The squared-error loss.
- Two experiment helpers, `accuracyScore` and `trainTestSplit`.

Numbers are Dafny `real`s, not IEEE doubles. The Java object is a bundle of mutable arrays. The model instead holds the network in an immutable record (`Perceptron.Network`), and each operation returns the record it leaves behind. Every exception the modelled Java code throws on non-null arguments becomes a `Failure` with the kind of error (`Results.Error`); negative layer sizes are excluded by their type (see "Left out"). A Java `double` division by a zero row count becomes `Results.Quotient.NaN`.

`Math.exp`, `Math.tanh` and `Math.log` are not computed. They are parameters, bundled in `Elementary.Functions`. A member that needs a fact about them states it as a precondition: the exponential is positive everywhere (`Positive`), and the logarithm is non-positive on `(0, 1]` (`NonPositiveOnUnit`).

Files and modules:

| file | module(s) | what it holds |
|---|---|---|
| `results.dfy` | `Results` | result, option and quotient types |
| `vectors.dfy` | `Vectors` | vectors, matrices, left-to-right sums and dot products |
| `elementary.dfy` | `Elementary` | the transcendental-function parameters |
| `relu.dfy`, `leaky_relu.dfy`, `linear.dfy`, `softmax.dfy` | one module per activation | the activations the core names |
| `activations.dfy` | `SigmoidActivation`, `TanhActivation`, `Activations` | sigmoid, tanh, `ActivationType`, `getActivation`, dispatch |
| `losses.dfy` | `SquaredError`, `Losses` | the squared-error loss and the loss dispatch |
| `batching.dfy` | `Batching` | the closed-form mini-batch schedule and the per-row counter plan that meets it |
| `perceptron.dfy` | `Perceptron` | the engine |
| `utils.dfy` | `Utils` | `accuracyScore` and `trainTestSplit` |

## Model

Source paths are relative to the repository root.

| member | source | states |
|---|---|---|
| Perceptron.OutputPairing | src/main/java/mlp/MultilayerPerceptron.java:125-137 | Regression gets linear output with squared error. Multi-class classification gets softmax with categorical cross-entropy. Other classification gets sigmoid with binary cross-entropy. Each pairing holds exactly when its flags say so (all three directions are if-and-only-if). |
| Perceptron.Create | src/main/java/mlp/MultilayerPerceptron.java:115-156 | The constructed network has every array at its allocated size. Its hidden activation is `getActivation(type)`, never softmax. Output and loss follow the pairing. The learning rate, epoch count and batch size are the arguments. The weights are the given initial ones, every gradient accumulator is zero, and every cache is a fresh zero array. |
| Activations.GetActivation | src/main/java/mlp/MultilayerPerceptron.java:164-178 | `getActivation` never yields softmax. |
| Activations.GetActivationBijective | src/main/java/mlp/MultilayerPerceptron.java:164-178 | Each of the five `ActivationType` values maps to its own function, which `TypeOf` inverts. A function is some type's activation exactly when it is not softmax. |
| Perceptron.Layer | src/main/java/mlp/MultilayerPerceptron.java:241-251 | The double loop leaves unit `i` equal to the dot product of the lower layer with column `i` of the weights, plus bias `i`. |
| Perceptron.Forward | src/main/java/mlp/MultilayerPerceptron.java:233-270 | Fails exactly when the input width is not `ni`. On success the loops' result is the reference pass `Propagate`: the new network is the old one with only its caches replaced by `Propagate(x)`, so weights, accumulators and configuration are unchanged. |
| Activations.Squash | src/main/java/mlp/MultilayerPerceptron.java:254-269 | `squash` keeps the vector's length, and for softmax it is the whole-vector softmax. |
| Activations.SquashPointwise | src/main/java/mlp/MultilayerPerceptron.java:254-269 | For every activation but softmax, element `i` of `squash` is that activation's scalar function (`Activations.Scalar`) at element `i`. |
| Perceptron.PropagateUnits | src/main/java/mlp/MultilayerPerceptron.java:239-269 | The reference pass unit by unit: the cached input is `x`; `z1[i] = Σ_j x[j]·w1[j][i] + b1[i]`; `h` is the hidden activation of `z1`; `z2[i] = Σ_j h[j]·w2[j][i] + b2[i]`; and `o` is the output activation of `z2`. |
| Perceptron.RegressionOutputIsRaw | src/main/java/mlp/MultilayerPerceptron.java:268-269 | With the linear output activation, the output `o` is the raw activation `z2`. |
| Perceptron.HiddenDelta | src/main/java/mlp/MultilayerPerceptron.java:310-320 | Hidden error `i` is the output errors summed through row `i` of `w2`, times the slope at hidden unit `i`. |
| Perceptron.Backward | src/main/java/mlp/MultilayerPerceptron.java:277-331 | Fails exactly when the target width is not `no`. On success the loops' result is the reference `Accumulated`, and only the accumulators change: `dw2`/`dw1` grow by the outer products `h ⊗ delta2` and `input ⊗ delta1`, while `db2`/`db1` are OVERWRITTEN with `delta2 = target - o` and `delta1`. Weights, caches and configuration are unchanged. The softmax derivative is never reached, since the network's hidden activation is never softmax. |
| Perceptron.LinearHiddenDelta | src/main/java/mlp/MultilayerPerceptron.java:315-319 | With a linear hidden layer, hidden error `i` is just the back-propagated output error `Σ_j w2[i][j]·delta2[j]`. |
| Perceptron.UpdateWeights | src/main/java/mlp/MultilayerPerceptron.java:338-376 | Every weight and bias becomes `old + lr·(d/n)` for its accumulator `d`. Afterwards every accumulator is zero and keeps its shape. Caches and configuration are unchanged. |
| Perceptron.UpdateAfterUpdate | src/main/java/mlp/MultilayerPerceptron.java:371-375 | Because the accumulators are reset, a second update right after an update leaves the weights where the first put them. |
| Perceptron.UpdateWeightsExample | src/test/java/TestMLP.java:149-187 | The update test's 2-2-2 state with `lr = 0.5` and `n = 1` gives these exact weights and biases, for example `w2[0][0] = 0.4 + 0.5·(-0.082) = 0.359`. Rounded as the test rounds them, all but two match its expected values. The other two, `w1[0][0] = 0.1497805` and `w2[0][1] = 0.5115`, are exact ties; see "Left out". |
| Perceptron.TrainStep | src/main/java/mlp/MultilayerPerceptron.java:392-398 | The reference row step (forward on the row, then backward on its target) changes only the caches and accumulators, never the weights or the configuration. |
| Perceptron.TrainRow | src/main/java/mlp/MultilayerPerceptron.java:392-398 | Forward, loss and backward on row `i` fail exactly when the row does, with the error the Java code meets first: a wrong input width, a missing target row, then a wrong target width. On success the result is exactly the reference step `TrainStep` on `x[i]` and `y[i]`. |
| Batching.PendingStep | src/main/java/mlp/MultilayerPerceptron.java:400-405 | After each row the counter rises. When it reaches the batch size, an update of that size is recorded and the counter is reset. The counter stays below the batch size between rows. |
| Batching.PendingComplete | src/main/java/mlp/MultilayerPerceptron.java:407-411 | Full batches plus the trailing remainder update (made only when the counter is non-zero) are exactly the closed-form schedule `n / b` batches of `b`, then `n mod b` when non-zero. |
| Batching.PlanCompletes | src/main/java/mlp/MultilayerPerceptron.java:390-411 | From any counter state that the rows so far can produce, the updates made plus those `Plan` still schedules are the closed-form schedule. From the start of an epoch, the plan is the schedule. |
| Perceptron.FirstError | src/main/java/mlp/MultilayerPerceptron.java:392-398 | When some row from `from` on does not fit, there is a first such row, and this is its error. |
| Perceptron.FirstErrorUnique | src/main/java/mlp/MultilayerPerceptron.java:392-398 | The first failing row is unique: any row that fails after only fitting rows has the error `FirstError`. |
| Perceptron.EpochFrom | src/main/java/mlp/MultilayerPerceptron.java:392-411 | The reference epoch over rows that fit. Each row takes a `TrainStep`, `updateWeights(b)` runs when the counter reaches the batch size `b`, and `updateWeights(counter)` runs after the last row when rows remain. Each update's `nSamples` is recorded. Shapes and configuration are kept. |
| Perceptron.EpochFromPlan | src/main/java/mlp/MultilayerPerceptron.java:390-411 | The `nSamples` the reference epoch passes to `updateWeights` are those its batch counter plans (`Batching.Plan`), whatever the rows and weights. |
| Perceptron.EpochFromClears | src/main/java/mlp/MultilayerPerceptron.java:400-411 | Whenever a row remains to be trained or counted, the reference epoch ends with every accumulator zero, because the last row is followed by an update. |
| Perceptron.EpochFacts | src/main/java/mlp/MultilayerPerceptron.java:386-411 | Over rows that all fit, one epoch calls `updateWeights` with exactly the `nSamples` of `Schedule(n, batchSize)`: `n / b` times with `b`, then once with `n mod b` when that is non-zero. It ends with zero accumulators when there was a row, and over no rows it changes nothing. |
| Perceptron.EpochBatchesBounded | src/main/java/mlp/MultilayerPerceptron.java:400-411 | With a positive batch size, every `nSamples` an epoch over fitting rows passes to `updateWeights` lies in `[1, batchSize]`, so the counter never passes the batch size and no update divides by zero. |
| Perceptron.Epoch | src/main/java/mlp/MultilayerPerceptron.java:386-411 | One epoch fails exactly when some row does not fit, with that first row's error (`FirstError`). Otherwise the loop's result, network and recorded `nSamples`, is exactly the reference epoch `EpochFrom`. |
| Perceptron.Train | src/main/java/mlp/MultilayerPerceptron.java:384-414 | The reference `fit`: `max(epochs, 0)` reference epochs in a row. When there is an epoch and some row does not fit, the first epoch fails with the first such row's error. Shapes and configuration are kept. |
| Perceptron.TrainFacts | src/main/java/mlp/MultilayerPerceptron.java:384-414 | `fit` fails exactly when there is at least one epoch and some row does not fit. After at least one epoch over at least one row, the accumulators are zero. |
| Perceptron.Fit | src/main/java/mlp/MultilayerPerceptron.java:384-414 | The loop's result is exactly the reference `Train` over `epochs` epochs. On success it records `max(epochs, 0)` traces, and each epoch's `nSamples` are `Schedule(n, batchSize)`. |
| Batching.ScheduleTotal | src/main/java/mlp/MultilayerPerceptron.java:390-411 | Every row of an epoch is counted in exactly one update (the schedule sums to `n`). |
| Batching.ScheduleBounds | src/main/java/mlp/MultilayerPerceptron.java:400-411 | Every update averages over at least one row, so the division in `updateWeights` never divides by zero. It is at most one batch, or all rows when the batch size is below 1. |
| Batching.ScheduleStochastic | src/main/java/mlp/MultilayerPerceptron.java:41-42 | With batch size 1 there is one single-row update per row. |
| Batching.ScheduleFullBatch | src/main/java/mlp/MultilayerPerceptron.java:41-42 | A batch size of at least `n`, or below 1, gives one update over all `n` rows. |
| Batching.ScheduleEmpty | src/main/java/mlp/MultilayerPerceptron.java:390-411 | An epoch makes an update exactly when it has rows. |
| Perceptron.Predict | src/main/java/mlp/MultilayerPerceptron.java:422-431 | Fails exactly when some row has the wrong width. Otherwise it returns one row of width `no` per input row, and row `i` is the output of the forward pass on `x[i]`. Only the cache changes, to that of the last row; with no rows the network is returned unchanged. |
| Perceptron.PropagateIgnoresCache | src/main/java/mlp/MultilayerPerceptron.java:233-270 | The forward pass never reads the caches it overwrites, so two networks that differ only in their caches predict alike. |
| Perceptron.Loss | src/main/java/mlp/MultilayerPerceptron.java:440-453 | Fails when the row counts differ, or when a row's width differs from its target's. Otherwise it is the mean of the per-row losses, and NaN exactly when there are no rows. |
| Perceptron.RowLosses | src/main/java/mlp/MultilayerPerceptron.java:447-450 | Each per-row loss is the held loss function on that pair of rows. It fails exactly when some pair differs in width. |
| Perceptron.SquaredLossNonNegative | src/main/java/mlp/MultilayerPerceptron.java:440-453 | A mean squared-error loss is never negative. |
| Perceptron.SquaredLossOfExactPrediction | src/main/java/mlp/MultilayerPerceptron.java:440-453 | Predicting the targets exactly gives a mean squared-error loss of 0. |
| ReluActivation.Squash | src/main/java/mlp/activations/ReluActivationFn.java:10-16 | `max(0, x)`: at least both 0 and `x`, and equal to one of them. |
| ReluActivation.Derivative | src/main/java/mlp/activations/ReluActivationFn.java:19-25 | The slope is 0 or 1, and 1 exactly for positive inputs (0 at 0 itself). |
| ReluActivation.SquashBounds | src/main/java/mlp/activations/ReluActivationFn.java:13 | Every rectified output is non-negative and at least its input. |
| ReluActivation.SquashIdempotent | src/main/java/mlp/activations/ReluActivationFn.java:13 | Rectifying twice is rectifying once. |
| ReluActivation.DerivativeIsSlope | src/main/java/mlp/activations/ReluActivationFn.java:19-25 | On each linear piece the derivative is the slope of `squash`; the closed left piece includes 0. |
| ReluActivation.TestValues | src/test/java/TestActivationFn.java:20-28 | `squash(-0.5) = 0`, `deriv(-0.5) = 0`, `squash(0.5) = 0.5`, `deriv(0.5) = 1`. |
| LeakyReluActivation.Squash | src/main/java/mlp/activations/LeakyReluActivationFn.java:9-20 | `max(0.01·x, x)`: at least both, and equal to one of them. |
| LeakyReluActivation.SquashCases | src/main/java/mlp/activations/LeakyReluActivationFn.java:16 | Non-negative inputs pass through; negative ones are scaled by 0.01. |
| LeakyReluActivation.SquashKeepsSign | src/main/java/mlp/activations/LeakyReluActivationFn.java:16 | The output is zero, positive or negative exactly when the input is. |
| LeakyReluActivation.Derivative | src/main/java/mlp/activations/LeakyReluActivationFn.java:23-31 | The slope is 0.01 or 1, always positive, and 1 exactly for positive inputs. |
| LeakyReluActivation.Elementwise | src/main/java/mlp/activations/LeakyReluActivationFn.java:13-30 | Element `i` of either lifted operation depends only on input element `i`. |
| LeakyReluActivation.DerivativeIsSlope | src/main/java/mlp/activations/LeakyReluActivationFn.java:12-31 | On each linear piece the derivative is the slope of `squash`. |
| LinearActivation.SquashIsIdentity | src/main/java/mlp/activations/LinearActivationFn.java:9-11 | Lifted elementwise, the activation returns its input unchanged. |
| LinearActivation.DerivativeIsOne | src/main/java/mlp/activations/LinearActivationFn.java:13-15 | The derivative is 1 at every element. |
| LinearActivation.DerivativeIsSlope | src/main/java/mlp/activations/LinearActivationFn.java:9-15 | The derivative is the slope of `squash` between any two points. |
| LinearActivation.TestValues | src/test/java/TestActivationFn.java:15-16 | `squash(0.5) = 0.5` and `deriv(0.5) = 1`. |
| SoftmaxActivation.Squash | src/main/java/mlp/activations/SoftmaxActivationFn.java:14-24 | For any positive exponential, the outputs have the input's length and lie in `(0, 1]`, and a non-empty output sums to 1. |
| SoftmaxActivation.SquashElement | src/main/java/mlp/activations/SoftmaxActivationFn.java:17-22 | Output `i` is `exp(v[i])` divided by the (positive) sum of all the exponentials. |
| SoftmaxActivation.Derivative | src/main/java/mlp/activations/SoftmaxActivationFn.java:27-30 | The derivative fails for every input. |
| Activations.Derivative | src/main/java/mlp/MultilayerPerceptron.java:307 | The held activation's derivative fails exactly for softmax. |
| Activations.DerivativePointwise | src/main/java/mlp/MultilayerPerceptron.java:307 | For every activation but softmax, element `i` of `squashDerivative` is that activation's scalar derivative (`Activations.ScalarSlope`) at element `i`. |
| Activations.SquashElementwise | src/main/java/mlp/MultilayerPerceptron.java:254 | Every hidden-capable activation works elementwise. |
| SigmoidActivation.Squash | src/main/java/mlp/activations/SigmoidActivationFn.java:15-17 | For any positive exponential, the logistic value lies strictly between 0 and 1. |
| SigmoidActivation.Derivative | src/main/java/mlp/activations/SigmoidActivationFn.java:31-39 | `s·(1 - s)` lies in `(0, 1/4]`. |
| TanhActivation.Derivative | src/main/java/mlp/activations/TanhActivationFn.java:21-29 | `1 - tanh²` never exceeds 1. |
| SquaredError.Calculate | src/main/java/mlp/loss_functions/SquaredErrorLossFn.java:11-20 | Fails exactly on vectors of different lengths. Otherwise the sum of the half squared differences is non-negative. |
| SquaredError.ZeroWhenEqual | src/main/java/mlp/loss_functions/SquaredErrorLossFn.java:15-19 | The loss of an output against itself is 0. |
| SquaredError.Symmetric | src/main/java/mlp/loss_functions/SquaredErrorLossFn.java:17 | Swapping output and target leaves the loss, or the failure, unchanged. |
| SquaredError.TestValue | src/test/java/TestLossFn.java:18 | `calculate([3, 0.5, 2], [4, 1, 2]) = 0.625`. |
| Losses.Calculate | src/main/java/mlp/loss_functions/SquaredErrorLossFn.java:12-14 | Every held loss fails exactly on vectors of different lengths; the squared error is non-negative. |
| Losses.BinaryNonNegative | src/main/java/mlp/loss_functions/BinaryCrossEntropyLossFn.java:19-24 | Binary cross-entropy is non-negative for targets in `[0, 1]` and predictions strictly inside `(0, 1)`. |
| Losses.CategoricalNonNegative | src/main/java/mlp/loss_functions/CategoricalCrossEntropyLossFn.java:17-21 | Categorical cross-entropy is non-negative for non-negative targets and predictions in `(0, 1]`. |
| Utils.AccuracyScore | src/main/java/experiments/utils/Utils.java:21-33 | Fails exactly when the row counts differ, and is NaN exactly when there are no rows. Otherwise it is the number of exactly matching rows over the row count. It lies in `[0, 1]` and is 1 exactly when the predictions equal the targets. |
| Utils.MatchesCountsAgreeingRows | src/main/java/experiments/utils/Utils.java:27-30 | The loop's count is the number of rows on which prediction and target agree. |
| Utils.MatchesAll | src/main/java/experiments/utils/Utils.java:27-30 | The count is at most the row count, and equals it exactly when the matrices are equal. |
| Utils.SplitPoint | src/main/java/experiments/utils/Utils.java:73 | The split point is `floor(count·trainSize)` and lies in `[0, count]`. |
| Utils.TrainTestSplit | src/main/java/experiments/utils/Utils.java:61-89 | It fails exactly as the Java code does, in its order: row counts differ, `trainSize` outside `[0, 1]`, no rows, or a row shorter than the first. Otherwise the training parts have `splitPoint` rows and the test parts the rest. Concatenated, they give back input and output in order, each row cut to the first row's width. |
| Utils.SplitAligned | src/main/java/experiments/utils/Utils.java:70-87 | Training row `k` pairs input `k` with output `k`, and test row `k` pairs input and output `splitPoint + k`. Rectangular data is split with nothing lost: `trainInput ++ testInput == input`. |
| Utils.TruncateRectangular | src/main/java/experiments/utils/Utils.java:81-85 | Copying a row of exactly the first row's width keeps it whole. |

## Behaviour as the code has it

In these places the code is looser than its callers might expect, and the model follows the code:

- The batch size is not checked to be positive. With a batch size below 1 the counter never equals it, so each epoch makes one update over all rows (`Batching.Schedule`, `Batching.ScheduleFullBatch`).
- `getActivation` covers every `ActivationType`, so its "unknown activation" exception cannot be raised. `Activations.GetActivation` is total.
- `fit` does not compare row counts up front. A target matrix with fewer rows fails at the first missing row with an index error; extra target rows are ignored (`Perceptron.RowError`).
- `loss` also fails when a predicted row and its target row differ in width, through the loss function's own length check. With no rows it returns NaN.
- `trainTestSplit` also fails, with an index error, on an empty data set and on a row shorter than the first. Longer rows are cut to the first row's width.
- `predict` returns the raw output activations.
- When `fit` or `predict` throws part-way, the rows already processed have changed the object. For `fit` this includes the weights and biases of every full batch already updated. See "Left out".

## Left out

- `randomise` (Xavier initialisation, `MultilayerPerceptron.java:186-226`): it depends on the stream of `java.util.Random` and on `Math.sqrt`. The initial weights are a parameter of `Perceptron.Create`, required only to have the right shapes.
- IEEE doubles: the model works over the reals. Rounding, overflow, infinities and NaN arising from arithmetic are not modelled. The one NaN the code produces deliberately, a division by a zero row count, is `Quotient.NaN`.
- `Math.exp`, `Math.tanh`, `Math.log`: these are uninterpreted parameters, constrained only by positivity (exp) and non-positivity on `(0, 1]` (log). So the sigmoid, tanh and cross-entropy test constants, and the rounded expected values of the forward and backward tests, cannot be stated.
- TanhActivation.Squash: has no contract, since nothing about an uninterpreted tanh is assumed.
- Console output: `printInfo`, the `System.out` lines of `fit`, and `prettyPrintPrediction`.
- The per-epoch loss of `fit`: it is only printed, so `Perceptron.Epoch` does not return it. The loss computation on each row is still modelled, because its length check can throw.
- State left by an exception: when `fit` or `predict` throws part-way, the Java object keeps what the rows already processed did to it. For `predict` that is the caches. For `fit` it is the caches and accumulators, and also the weights `w1`, `w2` and biases `b1`, `b2` from every `updateWeights` call already made, since a row at or beyond the batch size follows a full batch (and rows of earlier epochs, which in the Java code can only fail in the first epoch, never precede it). The model returns a `Failure` and drops that partial state.
- The experiment drivers (`LetterRecognitionExperiment`, `SinExperiment`, `XORExperiment`): file and console I/O, and calls to constructors that do not exist.
- `src/main/java/experiments/Utils.java`: an older duplicate of the helpers. The model follows `experiments/utils/Utils.java`.
- The legacy classes `ReluActivation`, `TanhActivation`, `SigmoidActivation`, `Activation`, `SquaredErrorLoss`, `CrossEntropyLoss` and `CrossEntropyLossFn`: the engine never uses them.
- The `ActivationFn` interface: it declares scalar `squash(double)` and `squashDerivative(double)`, which only `LinearActivationFn` implements, while the engine calls array versions. Each activation is modelled as a scalar function lifted elementwise; softmax is modelled as the whole-vector operation it is.
- The other constructors (`MultilayerPerceptron.java:56-98`): they only fill in a random seed or batch size 1, so each is `Create` with those arguments.
- `MLPException` messages: only the kind of error is kept.
- Null arguments: a null matrix, row, vector or `ActivationType` makes the Java code throw `NullPointerException` (for example the `switch` at `MultilayerPerceptron.java:165`). Dafny sequences and datatypes have no null, so this is not modelled.
- Perceptron.Fit: the Java epoch counter is a 32-bit `int` (`MultilayerPerceptron.java:386`). With `epochs == Integer.MAX_VALUE`, `epoch++` wraps to `Integer.MIN_VALUE` after the last epoch and `epoch <= epochs` stays true, so the Java `fit` never returns. The model counts with unbounded integers: `Fit` (and `Perceptron.Train`) runs exactly `epochs` epochs and terminates.
- Negative layer sizes: `ni`, `nh` and `no` are natural numbers in the model, so the `NegativeArraySizeException` the constructor throws for a negative size (`MultilayerPerceptron.java:142-148`) is not modelled.
- Perceptron.UpdateWeightsExample: two of the test's expected values depend on IEEE doubles. Over the reals, `w1[0][0] = 0.15 - 0.0002195 = 0.1497805` and `w2[0][1] = 0.5 + 0.0115 = 0.5115` are exact ties. `Math.round` would take them up, to `0.149781` and `0.512`, but the test expects `0.14978` and `0.511`. In double arithmetic the computed values, `0.14978049999999998` and `0.51149999999999995`, fall below the ties, so the test's rounding yields the expected `0.14978` and `0.511`. For `w1[0][0]` this is an effect of rounding in the operations themselves, since the double nearest `0.1497805` lies above it. The lemma states the exact real values.
- Reflection in the tests, used to set and read private fields: the model reads and writes the fields of the record directly.
