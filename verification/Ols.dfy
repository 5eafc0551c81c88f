/** `ols` (bench/chromium/analyze.py) over exact reals: least squares by the normal
    equations. The square root is a parameter. */
module Ols {
  import opened Resources
  import opened LinearAlgebra
  import opened GaussJordan

  datatype Fit = Fit(beta: Vector, se: Vector, r2: Option<real>, n: nat)

  /** X^T X */
  function Gram(x: Matrix, k: nat): (g: Matrix)
    requires IsMatrix(x, |x|, k)
    ensures IsMatrix(g, k, k)
  {
    seq(k, a requires 0 <= a < k => seq(k, b requires 0 <= b < k => Dot(Column(x, k, a), Column(x, k, b))))
  }

  /** X^T y */
  function Moments(x: Matrix, k: nat, y: Vector): (t: Vector)
    requires IsMatrix(x, |y|, k)
    ensures |t| == k
  {
    seq(k, a requires 0 <= a < k => Dot(Column(x, k, a), y))
  }

  function Residuals(x: Matrix, y: Vector, beta: Vector): (r: Vector)
    requires IsMatrix(x, |y|, |beta|)
    ensures |r| == |y|
  {
    Axpy(y, 1.0, Times(x, beta))
  }

  function Rss(x: Matrix, y: Vector, beta: Vector): real
    requires IsMatrix(x, |y|, |beta|)
  {
    Dot(Residuals(x, y, beta), Residuals(x, y, beta))
  }

  function Sum(v: Vector): real {
    if v == [] then 0.0 else Sum(v[..|v| - 1]) + v[|v| - 1]
  }

  function Mean(y: Vector): real
    requires y != []
  {
    Sum(y) / (|y| as real)
  }

  /** The total sum of squares about the mean. */
  function Tss(y: Vector): real
    requires y != []
  {
    var centred := seq(|y|, i requires 0 <= i < |y| => y[i] - Mean(y));
    Dot(centred, centred)
  }

  /** The share of the variation the fit explains; not a number when there is none. */
  function R2(x: Matrix, y: Vector, beta: Vector): Option<real>
    requires IsMatrix(x, |y|, |beta|) && y != []
  {
    if Tss(y) > 0.0 then Some(1.0 - Rss(x, y, beta) / Tss(y)) else None
  }

  /** A row of the Gram matrix is a column of X applied to X. */
  lemma GramRow(x: Matrix, k: nat, a: nat)
    requires IsMatrix(x, |x|, k) && a < k
    ensures Gram(x, k)[a] == Combine(Column(x, k, a), x, k)
  {
    forall b | 0 <= b < k
      ensures Gram(x, k)[a][b] == Combine(Column(x, k, a), x, k)[b]
    {
      CombineEntry(Column(x, k, a), x, k, b);
    }
  }

  /** (X^T X) v == X^T (X v) */
  lemma GramTimes(x: Matrix, v: Vector, a: nat)
    requires IsMatrix(x, |x|, |v|) && a < |v|
    ensures Times(Gram(x, |v|), v)[a] == Dot(Column(x, |v|, a), Times(x, v))
  {
    GramRow(x, |v|, a);
    DotCombine(Column(x, |v|, a), x, v);
  }

  /** Residuals orthogonal to every column of X. */
  ghost predicate Orthogonal(x: Matrix, k: nat, r: Vector)
    requires IsMatrix(x, |r|, k)
  {
    forall a :: 0 <= a < k ==> Dot(Column(x, k, a), r) == 0.0
  }

  lemma NormalEquations(x: Matrix, y: Vector, beta: Vector)
    requires IsMatrix(x, |y|, |beta|)
    requires Times(Gram(x, |beta|), beta) == Moments(x, |beta|, y)
    ensures Orthogonal(x, |beta|, Residuals(x, y, beta))
  {
    var k := |beta|;
    forall a | 0 <= a < k
      ensures Dot(Column(x, k, a), Residuals(x, y, beta)) == 0.0
    {
      var col := Column(x, k, a);
      GramTimes(x, beta, a);
      DotComm(col, Residuals(x, y, beta));
      DotAxpy(y, 1.0, Times(x, beta), col);
      DotComm(y, col);
      DotComm(Times(x, beta), col);
    }
  }

  lemma OrthogonalToImage(x: Matrix, r: Vector, v: Vector)
    requires IsMatrix(x, |r|, |v|) && Orthogonal(x, |v|, r)
    ensures Dot(r, Times(x, v)) == 0.0
  {
    DotCombine(r, x, v);
    forall a | 0 <= a < |v|
      ensures Combine(r, x, |v|)[a] == 0.0
    {
      CombineEntry(r, x, |v|, a);
      DotComm(r, Column(x, |v|, a));
    }
    assert Combine(r, x, |v|) == Zero(|v|);
    DotZero(v);
  }

  /** Pythagoras: any other coefficients add the square of the distance they move the fit. */
  lemma RssSplits(x: Matrix, y: Vector, beta: Vector, b: Vector)
    requires |b| == |beta| && IsMatrix(x, |y|, |beta|)
    requires Orthogonal(x, |beta|, Residuals(x, y, beta))
    ensures
      var move := Times(x, Axpy(b, 1.0, beta));
      Rss(x, y, b) == Rss(x, y, beta) + Dot(move, move)
  {
    var delta := Axpy(b, 1.0, beta);
    var r, move := Residuals(x, y, beta), Times(x, delta);
    TimesAxpy(x, b, 1.0, beta);
    assert Residuals(x, y, b) == Axpy(r, 1.0, move);
    DotDifference(r, move);
    OrthogonalToImage(x, r, delta);
  }

  /** `beta` minimises the residual sum of squares, and nothing else does. */
  ghost predicate LeastSquares(x: Matrix, y: Vector, beta: Vector)
    requires IsMatrix(x, |y|, |beta|)
  {
    forall b :: |b| == |beta| ==> Rss(x, y, beta) <= Rss(x, y, b) && (Rss(x, y, b) == Rss(x, y, beta) ==> b == beta)
  }

  lemma SolvesLeastSquares(x: Matrix, y: Vector, beta: Vector, inverse: Matrix)
    requires IsMatrix(x, |y|, |beta|)
    requires Orthogonal(x, |beta|, Residuals(x, y, beta))
    requires LeftInverse(inverse, Gram(x, |beta|), |beta|)
    ensures LeastSquares(x, y, beta)
  {
    forall b | |b| == |beta|
      ensures Rss(x, y, beta) <= Rss(x, y, b) && (Rss(x, y, b) == Rss(x, y, beta) ==> b == beta)
    {
      var delta := Axpy(b, 1.0, beta);
      var move := Times(x, delta);
      RssSplits(x, y, beta, b);
      DotSelf(move);
      if Rss(x, y, b) == Rss(x, y, beta) {
        NoMoveNoChange(x, delta, inverse);
        forall i | 0 <= i < |b|
          ensures b[i] == beta[i]
        {
          assert delta[i] == 0.0;
        }
      }
    }
  }

  lemma NoMoveNoChange(x: Matrix, delta: Vector, inverse: Matrix)
    requires IsMatrix(x, |x|, |delta|) && Times(x, delta) == Zero(|x|)
    requires LeftInverse(inverse, Gram(x, |delta|), |delta|)
    ensures delta == Zero(|delta|)
  {
    var k := |delta|;
    forall a | 0 <= a < k
      ensures Times(Gram(x, k), delta)[a] == 0.0
    {
      GramTimes(x, delta, a);
      DotComm(Column(x, k, a), Zero(|x|));
      DotZero(Column(x, k, a));
    }
    assert Times(Gram(x, k), delta) == Zero(k);
    InverseMeansNonsingular(inverse, Gram(x, k), delta);
  }

  lemma GramSymmetric(x: Matrix, k: nat, b: nat)
    requires IsMatrix(x, |x|, k) && b < k
    ensures Column(Gram(x, k), k, b) == Gram(x, k)[b]
  {
    forall a | 0 <= a < k
      ensures Gram(x, k)[a][b] == Gram(x, k)[b][a]
    {
      DotComm(Column(x, k, a), Column(x, k, b));
    }
  }

  /** A diagonal entry of the inverse is a squared length, so no variance is negative. */
  lemma InverseDiagonal(x: Matrix, k: nat, inverse: Matrix, a: nat)
    requires IsMatrix(x, |x|, k) && a < k && LeftInverse(inverse, Gram(x, k), k)
    ensures inverse[a][a] == Dot(Times(x, inverse[a]), Times(x, inverse[a])) >= 0.0
  {
    var w := inverse[a];
    var image := Times(x, w);
    DotSelf(image);
    DotCombine(image, x, w);
    forall b | 0 <= b < k
      ensures Combine(image, x, k)[b] == Unit(k, a)[b]
    {
      CombineEntry(image, x, k, b);
      DotComm(image, Column(x, k, b));
      GramTimes(x, w, b);
      GramSymmetric(x, k, b);
      CombineEntry(w, Gram(x, k), k, b);
      DotComm(w, Gram(x, k)[b]);
    }
    assert Combine(image, x, k) == Unit(k, a);
    DotUnit(a, w);
  }

  predicate OnesColumn(x: Matrix, k: nat, j: nat) {
    j < k && IsMatrix(x, |x|, k) && forall i :: 0 <= i < |x| ==> x[i][j] == 1.0
  }

  /** With an intercept column, the mean alone is a candidate fit. */
  lemma MeanIsACandidate(x: Matrix, k: nat, y: Vector, j: nat)
    requires IsMatrix(x, |y|, k) && y != [] && OnesColumn(x, k, j)
    ensures Rss(x, y, Scale(Mean(y), Unit(k, j))) == Tss(y)
  {
    var b := Scale(Mean(y), Unit(k, j));
    var centred := seq(|y|, i requires 0 <= i < |y| => y[i] - Mean(y));
    forall i | 0 <= i < |y|
      ensures Residuals(x, y, b)[i] == centred[i]
    {
      DotComm(x[i], b);
      DotScale(Mean(y), Unit(k, j), x[i]);
      DotUnit(j, x[i]);
      assert Mul(Mean(y), 1.0) == Mean(y);
    }
    assert Residuals(x, y, b) == centred;
  }

  lemma RatioInUnit(rss: real, tss: real)
    requires 0.0 <= rss <= tss && tss > 0.0
    ensures 0.0 <= 1.0 - rss / tss <= 1.0
  {
  }

  lemma QuotientNonneg(a: real, b: real)
    requires a >= 0.0 && b > 0.0
    ensures a / b >= 0.0
  {
  }

  lemma ProductNonneg(a: real, b: real)
    requires a >= 0.0 && b >= 0.0
    ensures Mul(a, b) >= 0.0
  {
  }

  /** What a fit promises of its coefficients and of R². */
  ghost predicate Fits(x: Matrix, k: nat, y: Vector, fit: Fit) {
    && IsMatrix(x, |y|, k) && |y| > k && fit.n == |y|
    && |fit.beta| == |fit.se| == k
    && Orthogonal(x, k, Residuals(x, y, fit.beta))
    && LeastSquares(x, y, fit.beta)
    && fit.r2 == R2(x, y, fit.beta)
    && (fit.r2.Some? && (exists j :: OnesColumn(x, k, j)) ==> 0.0 <= fit.r2.value <= 1.0)
  }

  /** `root` is the square root. */
  ghost predicate IsRoot(root: real -> real) {
    forall v :: v >= 0.0 ==> root(v) >= 0.0 && Mul(root(v), root(v)) == v
  }

  /** The square of each standard error is the estimated covariance's diagonal entry, unclipped:
      the `max(0.0, ...)` never acts. */
  ghost predicate ErrorsBy(x: Matrix, k: nat, y: Vector, fit: Fit, inverse: Matrix) {
    && IsMatrix(x, |y|, k) && |y| > k && |fit.beta| == |fit.se| == k
    && LeftInverse(inverse, Gram(x, k), k) && LeftInverse(Gram(x, k), inverse, k)
    && var sigma2 := ResidualVariance(x, k, y, fit.beta);
       forall a :: 0 <= a < k ==> fit.se[a] >= 0.0 && Mul(fit.se[a], fit.se[a]) == Mul(sigma2, inverse[a][a])
  }

  ghost predicate StandardErrors(x: Matrix, k: nat, y: Vector, fit: Fit) {
    exists inverse :: ErrorsBy(x, k, y, fit, inverse)
  }

  lemma R2InUnit(x: Matrix, k: nat, y: Vector, beta: Vector, j: nat)
    requires IsMatrix(x, |y|, k) && |beta| == k && y != [] && Tss(y) > 0.0
    requires LeastSquares(x, y, beta) && OnesColumn(x, k, j)
    ensures 0.0 <= 1.0 - Rss(x, y, beta) / Tss(y) <= 1.0
  {
    MeanIsACandidate(x, k, y, j);
    DotSelf(Residuals(x, y, beta));
    var b := Scale(Mean(y), Unit(k, j));
    assert Rss(x, y, beta) <= Rss(x, y, b);
    RatioInUnit(Rss(x, y, beta), Tss(y));
  }

  lemma R2Facts(x: Matrix, k: nat, y: Vector, beta: Vector)
    requires IsMatrix(x, |y|, k) && |beta| == k && y != [] && LeastSquares(x, y, beta)
    ensures Tss(y) > 0.0 && (exists j :: OnesColumn(x, k, j)) ==> 0.0 <= 1.0 - Rss(x, y, beta) / Tss(y) <= 1.0
  {
    if Tss(y) > 0.0 && (exists j :: OnesColumn(x, k, j)) {
      var j :| OnesColumn(x, k, j);
      R2InUnit(x, k, y, beta, j);
    }
  }

  /** The inverse of the Gram matrix turns the moments into the least squares solution. */
  lemma InverseGivesLeastSquares(x: Matrix, k: nat, y: Vector, inverse: Matrix)
    requires IsMatrix(x, |y|, k)
    requires LeftInverse(inverse, Gram(x, k), k) && LeftInverse(Gram(x, k), inverse, k)
    ensures
      var beta := Times(inverse, Moments(x, k, y));
      Orthogonal(x, k, Residuals(x, y, beta)) && LeastSquares(x, y, beta)
  {
    var beta := Times(inverse, Moments(x, k, y));
    InverseSolves(inverse, Gram(x, k), Moments(x, k, y));
    NormalEquations(x, y, beta);
    SolvesLeastSquares(x, y, beta, inverse);
  }

  lemma AssembleFit(x: Matrix, k: nat, y: Vector, beta: Vector, se: Vector)
    requires IsMatrix(x, |y|, k) && |y| > k && |beta| == |se| == k
    ensures Orthogonal(x, k, Residuals(x, y, beta)) && LeastSquares(x, y, beta) ==>
              Fits(x, k, y, Fit(beta, se, R2(x, y, beta), |y|))
  {
    if LeastSquares(x, y, beta) {
      R2Facts(x, k, y, beta);
    }
  }

  /** From the inverse of the Gram matrix to the fit. */
  method FitWith(x: Matrix, k: nat, y: Vector, inverse: Matrix, root: real -> real) returns (fit: Fit)
    requires IsMatrix(x, |y|, k) && |y| > k
    requires LeftInverse(inverse, Gram(x, k), k) && LeftInverse(Gram(x, k), inverse, k)
    ensures Fits(x, k, y, fit) && (IsRoot(root) ==> StandardErrors(x, k, y, fit))
  {
    var beta := Times(inverse, Moments(x, k, y));
    InverseGivesLeastSquares(x, k, y, inverse);
    var sigma2 := ResidualVariance(x, k, y, beta);
    var se := ErrorsOf(x, k, inverse, sigma2, root);
    fit := Fit(beta, se, R2(x, y, beta), |y|);
    AssembleFit(x, k, y, beta, se);
    assert IsRoot(root) ==> ErrorsBy(x, k, y, fit, inverse);
  }

  function ResidualVariance(x: Matrix, k: nat, y: Vector, beta: Vector): (sigma2: real)
    requires IsMatrix(x, |y|, k) && |beta| == k && |y| > k
    ensures sigma2 >= 0.0 && Mul(sigma2, (|y| - k) as real) == Rss(x, y, beta)
  {
    DotSelf(Residuals(x, y, beta));
    QuotientNonneg(Rss(x, y, beta), (|y| - k) as real);
    QuotientTimes(Rss(x, y, beta), (|y| - k) as real);
    Rss(x, y, beta) / ((|y| - k) as real)
  }

  lemma QuotientTimes(a: real, b: real)
    requires b != 0.0
    ensures Mul(a / b, b) == a
  {
  }

  /** `ols`: refused when there are too few rows or the Gram matrix is nearly singular. */
  method Fitted(x: Matrix, k: nat, y: Vector, root: real -> real) returns (fit: Option<Fit>)
    requires IsMatrix(x, |y|, k) && |x| > 0
    ensures fit.Some? ==> Fits(x, k, y, fit.value) && (IsRoot(root) ==> StandardErrors(x, k, y, fit.value))
    ensures fit.None? ==> |y| <= k || NearSingular(Gram(x, k), k)
  {
    var n := |x|;
    if n <= k {
      return None;
    }
    var inverse := Inv(Gram(x, k));
    if inverse.None? {
      return None;
    }
    var result := FitWith(x, k, y, inverse.value, root);
    return Some(result);
  }

  method ErrorsOf(x: Matrix, k: nat, inverse: Matrix, sigma2: real, root: real -> real) returns (se: Vector)
    requires IsMatrix(x, |x|, k) && LeftInverse(inverse, Gram(x, k), k) && sigma2 >= 0.0
    ensures |se| == k
    ensures IsRoot(root) ==> forall a :: 0 <= a < k ==> se[a] >= 0.0 && Mul(se[a], se[a]) == Mul(sigma2, inverse[a][a])
  {
    forall a | 0 <= a < k
      ensures Mul(sigma2, inverse[a][a]) >= 0.0
    {
      InverseDiagonal(x, k, inverse, a);
      ProductNonneg(sigma2, inverse[a][a]);
    }
    se := seq(k, a requires 0 <= a < k =>
      root(if Mul(sigma2, inverse[a][a]) > 0.0 then Mul(sigma2, inverse[a][a]) else 0.0));
  }
}
