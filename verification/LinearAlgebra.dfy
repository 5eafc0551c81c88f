/** Vectors and matrices over exact reals, for `_inv` and `ols` (bench/chromium/analyze.py).
    Floating-point rounding is idealised away. */
module LinearAlgebra {

  type Vector = seq<real>
  type Matrix = seq<seq<real>>

  predicate IsMatrix(m: Matrix, rows: nat, cols: nat) {
    |m| == rows && forall i :: 0 <= i < rows ==> |m[i]| == cols
  }

  /** A product, named so that equal factors are seen to give equal products. */
  function Mul(x: real, y: real): real {
    x * y
  }

  function Dot(u: Vector, v: Vector): real
    requires |u| == |v|
  {
    if u == [] then 0.0
    else Dot(u[..|u| - 1], v[..|v| - 1]) + Mul(u[|u| - 1], v[|v| - 1])
  }

  /** u - f * v */
  function Axpy(u: Vector, f: real, v: Vector): (w: Vector)
    requires |u| == |v|
    ensures |w| == |u|
  {
    seq(|u|, i requires 0 <= i < |u| => u[i] - Mul(f, v[i]))
  }

  function Scale(c: real, u: Vector): (w: Vector)
    ensures |w| == |u|
  {
    seq(|u|, i requires 0 <= i < |u| => Mul(c, u[i]))
  }

  function Zero(n: nat): (w: Vector)
    ensures |w| == n
  {
    seq(n, i => 0.0)
  }

  function Unit(n: nat, k: nat): (w: Vector)
    ensures |w| == n
  {
    seq(n, i => if i == k then 1.0 else 0.0)
  }

  /** The linear combination of the rows of `m` with coefficients `r`: the row r * m. */
  function Combine(r: Vector, m: Matrix, cols: nat): (w: Vector)
    requires |r| == |m| && IsMatrix(m, |m|, cols)
    ensures |w| == cols
  {
    if r == [] then Zero(cols)
    else Axpy(Combine(r[..|r| - 1], m[..|m| - 1], cols), -r[|r| - 1], m[|m| - 1])
  }

  /** The product m * v. */
  function Times(m: Matrix, v: Vector): (w: Vector)
    requires IsMatrix(m, |m|, |v|)
    ensures |w| == |m|
  {
    seq(|m|, i requires 0 <= i < |m| => Dot(m[i], v))
  }

  function Column(m: Matrix, cols: nat, j: nat): (w: Vector)
    requires IsMatrix(m, |m|, cols) && j < cols
    ensures |w| == |m|
  {
    seq(|m|, i requires 0 <= i < |m| => m[i][j])
  }

  lemma {:induction false} DotComm(u: Vector, v: Vector)
    requires |u| == |v|
    ensures Dot(u, v) == Dot(v, u)
  {
    if u != [] {
      DotComm(u[..|u| - 1], v[..|v| - 1]);
    }
  }

  lemma {:induction false} DotAxpy(u: Vector, f: real, v: Vector, w: Vector)
    requires |u| == |v| == |w|
    ensures Dot(Axpy(u, f, v), w) == Dot(u, w) - Mul(f, Dot(v, w))
  {
    if u != [] {
      var n := |u| - 1;
      DotAxpy(u[..n], f, v[..n], w[..n]);
      assert Axpy(u, f, v)[..n] == Axpy(u[..n], f, v[..n]);
      Distribute(Dot(u[..n], w[..n]), Dot(v[..n], w[..n]), f, u[n], v[n], w[n]);
    }
  }

  lemma Distribute(du: real, dv: real, f: real, u: real, v: real, w: real)
    ensures (du - Mul(f, dv)) + Mul(u - Mul(f, v), w) == (du + Mul(u, w)) - Mul(f, dv + Mul(v, w))
  {
  }

  lemma {:induction false} DotScale(c: real, u: Vector, w: Vector)
    requires |u| == |w|
    ensures Dot(Scale(c, u), w) == Mul(c, Dot(u, w))
  {
    if u != [] {
      var n := |u| - 1;
      DotScale(c, u[..n], w[..n]);
      assert Scale(c, u)[..n] == Scale(c, u[..n]);
    }
  }

  lemma {:induction false} DotZero(w: Vector)
    ensures Dot(Zero(|w|), w) == 0.0
  {
    if w != [] {
      var n := |w| - 1;
      DotZero(w[..n]);
      assert Zero(|w|)[..n] == Zero(n);
    }
  }

  lemma {:induction false} DotUnit(k: nat, w: Vector)
    requires k < |w|
    ensures Dot(Unit(|w|, k), w) == w[k]
  {
    var n := |w| - 1;
    if k == n {
      assert Unit(|w|, k)[..n] == Zero(n);
      DotZero(w[..n]);
    } else {
      DotUnit(k, w[..n]);
      assert Unit(|w|, k)[..n] == Unit(n, k);
    }
  }

  lemma {:induction false} DotSelf(u: Vector)
    ensures Dot(u, u) >= 0.0
    ensures Dot(u, u) == 0.0 ==> u == Zero(|u|)
  {
    if u != [] {
      var n := |u| - 1;
      DotSelf(u[..n]);
      SquareNonneg(u[n]);
      if Dot(u, u) == 0.0 {
        assert u[..n] == Zero(n);
      }
    }
  }

  lemma SquareNonneg(x: real)
    ensures Mul(x, x) >= 0.0
    ensures Mul(x, x) == 0.0 ==> x == 0.0
  {
    if x > 0.0 {
      ProductPositive(x, x);
    } else if x < 0.0 {
      ProductPositive(-x, -x);
      NegateFactor(x, -x);
      MulComm(x, -x);
      NegateFactor(x, x);
    }
  }

  lemma ProductPositive(x: real, y: real)
    requires x > 0.0 && y > 0.0
    ensures Mul(x, y) > 0.0
  {
  }

  lemma MulComm(x: real, y: real)
    ensures Mul(x, y) == Mul(y, x)
  {
  }

  lemma AxpyFront(a: Vector, f: real, b: Vector)
    requires |a| == |b| && a != []
    ensures
      var n := |a| - 1;
      Axpy(a, f, b)[..n] == Axpy(a[..n], f, b[..n]) && Axpy(a, f, b)[n] == a[n] - Mul(f, b[n])
  {
  }

  /** Combining is linear in the coefficients. */
  lemma {:induction false} CombineAxpy(a: Vector, f: real, b: Vector, m: Matrix, cols: nat)
    requires |a| == |b| == |m| && IsMatrix(m, |m|, cols)
    ensures Combine(Axpy(a, f, b), m, cols) == Axpy(Combine(a, m, cols), f, Combine(b, m, cols))
  {
    if a != [] {
      var n := |a| - 1;
      AxpyFront(a, f, b);
      CombineAxpy(a[..n], f, b[..n], m[..n], cols);
      AxpyExchange(Combine(a[..n], m[..n], cols), Combine(b[..n], m[..n], cols), f, a[n], b[n], m[n]);
    }
  }

  lemma AxpyExchange(p: Vector, q: Vector, f: real, x: real, y: real, row: Vector)
    requires |p| == |q| == |row|
    ensures Axpy(Axpy(p, f, q), -(x - Mul(f, y)), row) == Axpy(Axpy(p, -x, row), f, Axpy(q, -y, row))
  {
    var u, v := Axpy(Axpy(p, f, q), -(x - Mul(f, y)), row), Axpy(Axpy(p, -x, row), f, Axpy(q, -y, row));
    forall j | 0 <= j < |p|
      ensures u[j] == v[j]
    {
      Distribute(p[j], q[j], f, x, y, row[j]);
    }
  }

  lemma {:induction false} CombineScale(c: real, a: Vector, m: Matrix, cols: nat)
    requires |a| == |m| && IsMatrix(m, |m|, cols)
    ensures Combine(Scale(c, a), m, cols) == Scale(c, Combine(a, m, cols))
  {
    if a != [] {
      var n := |a| - 1;
      CombineScale(c, a[..n], m[..n], cols);
      assert Scale(c, a)[..n] == Scale(c, a[..n]);
      var p := Combine(a[..n], m[..n], cols);
      forall j | 0 <= j < cols
        ensures Combine(Scale(c, a), m, cols)[j] == Scale(c, Combine(a, m, cols))[j]
      {
        Distribute(0.0, p[j], -c, 0.0, a[n], m[n][j]);
      }
    }
  }

  lemma {:induction false} CombineZero(m: Matrix, cols: nat)
    requires IsMatrix(m, |m|, cols)
    ensures Combine(Zero(|m|), m, cols) == Zero(cols)
  {
    if m != [] {
      var n := |m| - 1;
      CombineZero(m[..n], cols);
      assert Zero(|m|)[..n] == Zero(n);
    }
  }

  lemma {:induction false} CombineUnit(k: nat, m: Matrix, cols: nat)
    requires k < |m| && IsMatrix(m, |m|, cols)
    ensures Combine(Unit(|m|, k), m, cols) == m[k]
  {
    var n := |m| - 1;
    if k == n {
      assert Unit(|m|, k)[..n] == Zero(n);
      CombineZero(m[..n], cols);
    } else {
      CombineUnit(k, m[..n], cols);
      assert Unit(|m|, k)[..n] == Unit(n, k);
    }
  }

  /** (r * m) . v == r . (m * v) */
  lemma {:induction false} DotCombine(r: Vector, m: Matrix, v: Vector)
    requires |r| == |m| && IsMatrix(m, |m|, |v|)
    ensures Dot(Combine(r, m, |v|), v) == Dot(r, Times(m, v))
  {
    if r == [] {
      DotZero(v);
    } else {
      var n := |r| - 1;
      DotCombine(r[..n], m[..n], v);
      DotAxpy(Combine(r[..n], m[..n], |v|), -r[n], m[n], v);
      assert Times(m, v)[..n] == Times(m[..n], v);
      NegateFactor(r[n], Dot(m[n], v));
    }
  }

  lemma NegateFactor(x: real, y: real)
    ensures Mul(-x, y) == -Mul(x, y)
  {
  }

  /** Combining with the unit rows gives the coefficients back. */
  lemma {:induction false} CombineUnits(r: Vector, m: Matrix, n: nat)
    requires |m| == |r| <= n && IsMatrix(m, |m|, n)
    requires forall i :: 0 <= i < |m| ==> m[i] == Unit(n, i)
    ensures Combine(r, m, n) == seq(n, i => if 0 <= i < |r| then r[i] else 0.0)
  {
    if r != [] {
      CombineUnits(r[..|r| - 1], m[..|m| - 1], n);
    }
  }

  /** m[i][j] as a product with a unit vector. */
  lemma TimesUnit(m: Matrix, cols: nat, j: nat)
    requires IsMatrix(m, |m|, cols) && j < cols
    ensures Times(m, Unit(cols, j)) == Column(m, cols, j)
  {
    forall i | 0 <= i < |m|
      ensures Times(m, Unit(cols, j))[i] == Column(m, cols, j)[i]
    {
      DotComm(m[i], Unit(cols, j));
      DotUnit(j, m[i]);
    }
  }

  /** An entry of a combination is the product with a column. */
  lemma CombineEntry(r: Vector, m: Matrix, cols: nat, j: nat)
    requires |r| == |m| && IsMatrix(m, |m|, cols) && j < cols
    ensures Combine(r, m, cols)[j] == Dot(r, Column(m, cols, j))
  {
    DotCombine(r, m, Unit(cols, j));
    TimesUnit(m, cols, j);
    DotComm(Combine(r, m, cols), Unit(cols, j));
    DotUnit(j, Combine(r, m, cols));
  }

  /** (r * a) * m == r * (a * m) */
  lemma CombineAssoc(r: Vector, a: Matrix, m: Matrix, n: nat, product: Matrix)
    requires |r| == |a| == |product| && IsMatrix(a, |a|, n) && IsMatrix(m, n, n) && IsMatrix(product, |a|, n)
    requires forall k :: 0 <= k < |a| ==> product[k] == Combine(a[k], m, n)
    ensures Combine(Combine(r, a, n), m, n) == Combine(r, product, n)
  {
    forall j | 0 <= j < n
      ensures Combine(Combine(r, a, n), m, n)[j] == Combine(r, product, n)[j]
    {
      var col := Column(m, n, j);
      CombineEntry(Combine(r, a, n), m, n, j);
      DotCombine(r, a, col);
      CombineEntry(r, product, n, j);
      forall k | 0 <= k < |a|
        ensures Column(product, n, j)[k] == Times(a, col)[k]
      {
        CombineEntry(a[k], m, n, j);
      }
      assert Column(product, n, j) == Times(a, col);
    }
  }

  lemma TimesAxpy(m: Matrix, u: Vector, f: real, v: Vector)
    requires |u| == |v| && IsMatrix(m, |m|, |u|)
    ensures Times(m, Axpy(u, f, v)) == Axpy(Times(m, u), f, Times(m, v))
  {
    forall i | 0 <= i < |m|
      ensures Times(m, Axpy(u, f, v))[i] == Axpy(Times(m, u), f, Times(m, v))[i]
    {
      DotComm(m[i], Axpy(u, f, v));
      DotAxpy(u, f, v, m[i]);
      DotComm(u, m[i]);
      DotComm(v, m[i]);
    }
  }

  /** |u - v|^2 */
  lemma DotDifference(u: Vector, v: Vector)
    requires |u| == |v|
    ensures Dot(Axpy(u, 1.0, v), Axpy(u, 1.0, v)) == Dot(u, u) - 2.0 * Dot(u, v) + Dot(v, v)
  {
    var w := Axpy(u, 1.0, v);
    DotAxpy(u, 1.0, v, w);
    DotComm(u, w);
    DotComm(v, w);
    DotAxpy(u, 1.0, v, u);
    DotAxpy(u, 1.0, v, v);
    DotComm(u, v);
  }
}
