/** The experiment helpers around the engine: the accuracy of a batch of
    predictions and the split of a data set into training and test parts. */
module Utils {
  import opened Vectors
  import opened Results

  // ---------------------------------------------------------------------
  // Accuracy

  /** The number of rows on which `predicted` and `target` agree entirely,
      counted from the first row on as the Java loop counts. */
  function Matches(predicted: Matrix, target: Matrix): nat
    requires |predicted| == |target|
  {
    if |target| == 0 then 0
    else
      var n := |target| - 1;
      Matches(predicted[..n], target[..n]) + (if predicted[n] == target[n] then 1 else 0)
  }

  /** The rows on which the two matrices agree. */
  ghost function AgreeingRows(predicted: Matrix, target: Matrix): set<nat>
    requires |predicted| == |target|
  {
    set i: nat | i < |target| && predicted[i] == target[i]
  }

  /** The count is the number of agreeing rows. */
  lemma {:induction false} MatchesCountsAgreeingRows(predicted: Matrix, target: Matrix)
    requires |predicted| == |target|
    ensures Matches(predicted, target) == |AgreeingRows(predicted, target)|
  {
    if |target| > 0 {
      var n := |target| - 1;
      var p, t := predicted[..n], target[..n];
      MatchesCountsAgreeingRows(p, t);
      var before := AgreeingRows(p, t);
      var after := AgreeingRows(predicted, target);
      if predicted[n] == target[n] {
        assert after == before + {n};
      } else {
        assert after == before;
      }
    }
  }

  /** At most every row agrees, and every row does exactly when the two
      matrices are equal. */
  lemma {:induction false} MatchesAll(predicted: Matrix, target: Matrix)
    requires |predicted| == |target|
    ensures Matches(predicted, target) <= |target|
    ensures Matches(predicted, target) == |target| <==> predicted == target
  {
    if |target| > 0 {
      var n := |target| - 1;
      MatchesAll(predicted[..n], target[..n]);
      if Matches(predicted, target) == |target| {
        assert predicted[..n] == target[..n];
        assert predicted == predicted[..n] + [predicted[n]];
        assert target == target[..n] + [target[n]];
      }
    }
  }

  /** `accuracyScore`: the fraction of rows predicted exactly. The row counts
      must agree; with no rows the fraction is 0/0, a NaN. */
  function AccuracyScore(predicted: Matrix, target: Matrix): (r: Result<Quotient>)
    ensures r.Failure? <==> |predicted| != |target|
    ensures r.Failure? ==> r.error == DimensionMismatch
    ensures r.Success? ==> (r.value == NaN <==> |target| == 0)
    ensures r.Success? && |target| > 0 ==>
      r.value.v == |AgreeingRows(predicted, target)| as real / |target| as real
    ensures r.Success? && |target| > 0 ==> 0.0 <= r.value.v <= 1.0
    ensures r.Success? && |target| > 0 ==> (r.value.v == 1.0 <==> predicted == target)
  {
    if |target| != |predicted| then Failure(DimensionMismatch)
    else if |target| == 0 then Success(NaN)
    else
      var correct := Matches(predicted, target);
      MatchesCountsAgreeingRows(predicted, target);
      MatchesAll(predicted, target);
      RatioBounds(correct, |target|);
      Success(Value(correct as real / |target| as real))
  }

  /** `c / n` for `0 <= c <= n` lies in `[0, 1]` and is 1 exactly when
      `c == n`. */
  lemma RatioBounds(c: nat, n: nat)
    requires 0 < n && c <= n
    ensures 0.0 <= c as real / n as real <= 1.0
    ensures c as real / n as real == 1.0 <==> c == n
  {
    var q := c as real / n as real;
    assert q * n as real == c as real;
    if q == 1.0 {
      assert c as real == n as real;
    }
  }

  // ---------------------------------------------------------------------
  // Train/test split

  /** The four parts of a split data set. */
  datatype Split = Split(trainInput: Matrix, testInput: Matrix, trainOutput: Matrix, testOutput: Matrix)

  /** `(int) (count * trainSize)`: the product is non-negative, so the cast
      rounds down. */
  function SplitPoint(count: nat, trainSize: real): (s: nat)
    requires 0.0 <= trainSize <= 1.0
    ensures s <= count
    ensures s as real <= count as real * trainSize < s as real + 1.0
  {
    ProductBounds(count, trainSize);
    (count as real * trainSize).Floor
  }

  lemma ProductBounds(count: nat, trainSize: real)
    requires 0.0 <= trainSize <= 1.0
    ensures 0.0 <= count as real * trainSize <= count as real
  {
    assert count as real * (1.0 - trainSize) >= 0.0;
  }

  /** Every row of `m` has at least `width` entries. */
  predicate Wide(m: Matrix, width: nat)
  {
    forall i :: 0 <= i < |m| ==> |m[i]| >= width
  }

  /** The first `width` entries of every row: what `System.arraycopy` into
      rows of that width keeps. */
  function Truncate(m: Matrix, width: nat): (r: Matrix)
    requires Wide(m, width)
    ensures IsMatrix(r, |m|, width)
  {
    seq(|m|, i requires 0 <= i < |m| => m[i][..width])
  }

  lemma TruncateSnoc(m: Matrix, row: Vector, width: nat)
    requires Wide(m, width) && |row| >= width
    ensures Wide(m + [row], width)
    ensures Truncate(m + [row], width) == Truncate(m, width) + [row[..width]]
  {
    assert Wide(m + [row], width) by {
      forall i | 0 <= i < |m| + 1 ensures |(m + [row])[i]| >= width {
        if i < |m| {
          assert (m + [row])[i] == m[i];
        }
      }
    }
    var a := Truncate(m + [row], width);
    var b := Truncate(m, width) + [row[..width]];
    forall i | 0 <= i < |a| ensures a[i] == b[i] {
      if i < |m| {
        assert (m + [row])[i] == m[i];
      }
    }
  }

  /** Rows that already have exactly the width are kept whole. */
  lemma TruncateRectangular(m: Matrix, width: nat)
    requires IsMatrix(m, |m|, width)
    ensures Truncate(m, width) == m
  {
    var t := Truncate(m, width);
    forall i | 0 <= i < |m| ensures t[i] == m[i] {
      assert m[i][..width] == m[i];
    }
  }

  /** The failure `trainTestSplit` raises, if any, in the order it checks:
      the row counts, the fraction, the first row (read for the widths), and
      then each row too short for the width of the first. */
  function SplitError(input: Matrix, output: Matrix, trainSize: real): Option<Error>
  {
    if |input| != |output| then Some(DimensionMismatch)
    else if trainSize < 0.0 || trainSize > 1.0 then Some(InvalidParameter)
    else if |input| == 0 then Some(IndexOutOfBounds)
    else if !Wide(input, |input[0]|) || !Wide(output, |output[0]|) then Some(IndexOutOfBounds)
    else None
  }

  /** `trainTestSplit`: the first `floor(count * trainSize)` rows of input
      and output for training, the rest for testing, in order and without
      shuffling, each row cut to the width of the first row. */
  method TrainTestSplit(input: Matrix, output: Matrix, trainSize: real) returns (r: Result<Split>)
    ensures r.Failure? <==> SplitError(input, output, trainSize) != None
    ensures r.Failure? ==> SplitError(input, output, trainSize) == Some(r.error)
    ensures r.Success? ==>
      var count := |input|;
      var split := SplitPoint(count, trainSize);
      var s := r.value;
      |s.trainInput| == split && |s.trainOutput| == split &&
      |s.testInput| == count - split && |s.testOutput| == count - split &&
      s.trainInput + s.testInput == Truncate(input, |input[0]|) &&
      s.trainOutput + s.testOutput == Truncate(output, |output[0]|)
  {
    if |input| != |output| {
      return Failure(DimensionMismatch);
    }
    if trainSize < 0.0 || trainSize > 1.0 {
      return Failure(InvalidParameter);
    }
    if |input| == 0 {
      return Failure(IndexOutOfBounds);
    }
    var count := |input|;
    var inputWidth := |input[0]|;
    var outputWidth := |output[0]|;
    var split := SplitPoint(count, trainSize);
    var trainInput, testInput, trainOutput, testOutput := [], [], [], [];
    var i := 0;
    while i < count
      invariant 0 <= i <= count
      invariant Wide(input[..i], inputWidth) && Wide(output[..i], outputWidth)
      invariant |trainInput| == |trainOutput| == if i < split then i else split
      invariant |testInput| == |testOutput| == if i < split then 0 else i - split
      invariant trainInput + testInput == Truncate(input[..i], inputWidth)
      invariant trainOutput + testOutput == Truncate(output[..i], outputWidth)
    {
      if |input[i]| < inputWidth || |output[i]| < outputWidth {
        assert !Wide(input, inputWidth) || !Wide(output, outputWidth);
        return Failure(IndexOutOfBounds);
      }
      assert input[..i + 1] == input[..i] + [input[i]];
      assert output[..i + 1] == output[..i] + [output[i]];
      TruncateSnoc(input[..i], input[i], inputWidth);
      TruncateSnoc(output[..i], output[i], outputWidth);
      if i < split {
        trainInput := trainInput + [input[i][..inputWidth]];
        trainOutput := trainOutput + [output[i][..outputWidth]];
      } else {
        testInput := testInput + [input[i][..inputWidth]];
        testOutput := testOutput + [output[i][..outputWidth]];
      }
      i := i + 1;
    }
    assert input[..count] == input && output[..count] == output;
    r := Success(Split(trainInput, testInput, trainOutput, testOutput));
  }

  /** The parts stay aligned: training row `k` pairs input row `k` with
      output row `k`, and test row `k` pairs input and output row
      `split + k`; rectangular data is split without losing any entry. */
  lemma SplitAligned(input: Matrix, output: Matrix, s: Split, split: nat)
    requires |input| == |output| > 0
    requires Wide(input, |input[0]|) && Wide(output, |output[0]|)
    requires split <= |input| && |s.trainInput| == split && |s.trainOutput| == split
    requires s.trainInput + s.testInput == Truncate(input, |input[0]|)
    requires s.trainOutput + s.testOutput == Truncate(output, |output[0]|)
    ensures |s.testInput| == |s.testOutput| == |input| - split
    ensures forall k :: 0 <= k < split ==>
      s.trainInput[k] == input[k][..|input[0]|] && s.trainOutput[k] == output[k][..|output[0]|]
    ensures forall k :: 0 <= k < |input| - split ==>
      s.testInput[k] == input[split + k][..|input[0]|] && s.testOutput[k] == output[split + k][..|output[0]|]
    ensures IsMatrix(input, |input|, |input[0]|) ==> s.trainInput + s.testInput == input
    ensures IsMatrix(output, |output|, |output[0]|) ==> s.trainOutput + s.testOutput == output
  {
    var ti := Truncate(input, |input[0]|);
    var to := Truncate(output, |output[0]|);
    forall k | 0 <= k < split
      ensures s.trainInput[k] == input[k][..|input[0]|] && s.trainOutput[k] == output[k][..|output[0]|]
    {
      assert s.trainInput[k] == ti[k];
      assert s.trainOutput[k] == to[k];
    }
    forall k | 0 <= k < |input| - split
      ensures s.testInput[k] == input[split + k][..|input[0]|] && s.testOutput[k] == output[split + k][..|output[0]|]
    {
      assert s.testInput[k] == ti[split + k];
      assert s.testOutput[k] == to[split + k];
    }
    if IsMatrix(input, |input|, |input[0]|) {
      TruncateRectangular(input, |input[0]|);
    }
    if IsMatrix(output, |output|, |output[0]|) {
      TruncateRectangular(output, |output[0]|);
    }
  }
}
