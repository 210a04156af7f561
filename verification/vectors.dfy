/** Vectors and matrices of reals, as the Java code holds them in `double[]`
    and `double[][]`, with the left-to-right sums its loops accumulate. */
module Vectors {

  type Vector = seq<real>
  type Matrix = seq<Vector>

  /** The sum `s[0] + s[1] + ... + s[|s| - 1]`, accumulated from the left as
      a `sum += s[i]` loop does. */
  function Sum(s: Vector): real
  {
    if |s| == 0 then 0.0 else Sum(s[..|s| - 1]) + s[|s| - 1]
  }

  /** The inner product `a[0] * b[0] + ... `, accumulated from the left. */
  function Dot(a: Vector, b: Vector): real
    requires |a| == |b|
  {
    if |a| == 0 then 0.0 else Dot(a[..|a| - 1], b[..|b| - 1]) + a[|a| - 1] * b[|b| - 1]
  }

  /** `m` has `rows` rows of `cols` entries each. */
  predicate IsMatrix(m: Matrix, rows: nat, cols: nat)
  {
    |m| == rows && forall i :: 0 <= i < rows ==> |m[i]| == cols
  }

  /** Column `j` of a matrix whose rows all reach past `j`. */
  function Column(m: Matrix, j: nat): (c: Vector)
    requires forall i :: 0 <= i < |m| ==> j < |m[i]|
    ensures |c| == |m|
    ensures forall i :: 0 <= i < |m| ==> c[i] == m[i][j]
  {
    seq(|m|, i requires 0 <= i < |m| => m[i][j])
  }

  /** `f` applied to every element of `v`. */
  function Lift(f: real -> real, v: Vector): (r: Vector)
    ensures |r| == |v|
    ensures forall i :: 0 <= i < |v| ==> r[i] == f(v[i])
  {
    seq(|v|, i requires 0 <= i < |v| => f(v[i]))
  }

  /** A freshly allocated Java `double[n]`. */
  function Zeros(n: nat): (z: Vector)
    ensures |z| == n
    ensures forall i :: 0 <= i < n ==> z[i] == 0.0
  {
    seq(n, i => 0.0)
  }

  /** A freshly allocated Java `double[rows][cols]`. */
  function ZeroMatrix(rows: nat, cols: nat): (z: Matrix)
    ensures IsMatrix(z, rows, cols)
    ensures forall i, j :: 0 <= i < rows && 0 <= j < cols ==> z[i][j] == 0.0
  {
    seq(rows, i => Zeros(cols))
  }

  /** Every element of `s` is non-negative. */
  predicate NonNegative(s: Vector)
  {
    forall i :: 0 <= i < |s| ==> s[i] >= 0.0
  }

  lemma {:induction false} SumNonNegative(s: Vector)
    requires NonNegative(s)
    ensures Sum(s) >= 0.0
  {
    if |s| > 0 {
      SumNonNegative(s[..|s| - 1]);
    }
  }

  /** A sum of non-negative terms vanishes exactly when every term does. */
  lemma {:induction false} SumZeroIff(s: Vector)
    requires NonNegative(s)
    ensures Sum(s) == 0.0 <==> forall i :: 0 <= i < |s| ==> s[i] == 0.0
  {
    if |s| > 0 {
      var init := s[..|s| - 1];
      SumZeroIff(init);
      SumNonNegative(init);
      if Sum(s) == 0.0 {
        forall i | 0 <= i < |s| ensures s[i] == 0.0 {
          if i < |s| - 1 {
            assert s[i] == init[i];
          }
        }
      }
    }
  }

  /** Each non-negative term is bounded by the sum. */
  lemma {:induction false} ElementAtMostSum(s: Vector, k: nat)
    requires NonNegative(s)
    requires k < |s|
    ensures s[k] <= Sum(s)
  {
    var init := s[..|s| - 1];
    if k == |s| - 1 {
      SumNonNegative(init);
    } else {
      ElementAtMostSum(init, k);
    }
  }

  /** A non-empty sum of positive terms is positive. */
  lemma {:induction false} SumPositive(s: Vector)
    requires |s| > 0
    requires forall i :: 0 <= i < |s| ==> s[i] > 0.0
    ensures Sum(s) > 0.0
  {
    SumNonNegative(s[..|s| - 1]);
  }

  /** Dividing every term by `c` divides the sum by `c`. */
  lemma {:induction false} SumDivided(s: Vector, c: real)
    requires c != 0.0
    ensures Sum(Lift(x => x / c, s)) == Sum(s) / c
  {
    if |s| > 0 {
      var init := s[..|s| - 1];
      SumDivided(init, c);
      assert Lift(x => x / c, s)[..|s| - 1] == Lift(x => x / c, init);
    }
  }
}
