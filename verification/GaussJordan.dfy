/** `_inv` (bench/chromium/analyze.py): Gauss-Jordan elimination with partial pivoting. */
module GaussJordan {
  import opened Resources
  import opened LinearAlgebra

  const THRESHOLD := 0.000000000001

  function Abs(x: real): real {
    if x < 0.0 then -x else x
  }

  // The augmented matrix: the left half is being reduced, the right half records how.

  function Left(row: Vector, n: nat): Vector
    requires |row| == 2 * n
  {
    row[..n]
  }

  function Right(row: Vector, n: nat): Vector
    requires |row| == 2 * n
  {
    row[n..]
  }

  function Rights(a: Matrix, n: nat): (e: Matrix)
    requires IsMatrix(a, n, 2 * n)
    ensures IsMatrix(e, n, n)
  {
    seq(n, r requires 0 <= r < n => Right(a[r], n))
  }

  /** Each row's left half is its right half applied to the input. */
  ghost predicate Linked(a: Matrix, m: Matrix, n: nat)
    requires IsMatrix(a, n, 2 * n) && IsMatrix(m, n, n)
  {
    forall r :: 0 <= r < n ==> Left(a[r], n) == Combine(Right(a[r], n), m, n)
  }

  /** The first `c` columns are the identity's. */
  ghost predicate Reduced(a: Matrix, n: nat, c: nat)
    requires IsMatrix(a, n, 2 * n) && c <= n
  {
    forall r, j :: 0 <= r < n && 0 <= j < c ==> a[r][j] == if r == j then 1.0 else 0.0
  }

  ghost predicate LeftInverse(b: Matrix, m: Matrix, n: nat)
    requires IsMatrix(m, n, n)
  {
    IsMatrix(b, n, n) && forall i :: 0 <= i < n ==> Combine(b[i], m, n) == Unit(n, i)
  }

  /** `m1`, which sends the vector `v` to zero, is within the threshold of `m` in every
      entry. */
  ghost predicate SingularNear(m: Matrix, n: nat, m1: Matrix, v: Vector)
    requires IsMatrix(m, n, n)
  {
    && IsMatrix(m1, n, n) && |v| == n && v != Zero(n) && Times(m1, v) == Zero(n)
    && forall i, j :: 0 <= i < n && 0 <= j < n ==> Abs(m1[i][j] - m[i][j]) < THRESHOLD
  }

  ghost predicate NearSingular(m: Matrix, n: nat)
    requires IsMatrix(m, n, n)
  {
    exists m1, v :: SingularNear(m, n, m1, v)
  }

  // Row operations on the linked halves.

  lemma LeftRightAxpy(x: Vector, f: real, y: Vector, n: nat)
    requires |x| == |y| == 2 * n
    ensures Left(Axpy(x, f, y), n) == Axpy(Left(x, n), f, Left(y, n))
    ensures Right(Axpy(x, f, y), n) == Axpy(Right(x, n), f, Right(y, n))
  {
  }

  lemma LeftRightScale(c: real, x: Vector, n: nat)
    requires |x| == 2 * n
    ensures Left(Scale(c, x), n) == Scale(c, Left(x, n))
    ensures Right(Scale(c, x), n) == Scale(c, Right(x, n))
  {
  }

  lemma LinkedScale(x: Vector, c: real, m: Matrix, n: nat)
    requires |x| == 2 * n && IsMatrix(m, n, n)
    requires Left(x, n) == Combine(Right(x, n), m, n)
    ensures Left(Scale(c, x), n) == Combine(Right(Scale(c, x), n), m, n)
  {
    LeftRightScale(c, x, n);
    CombineScale(c, Right(x, n), m, n);
  }

  lemma LinkedAxpy(x: Vector, f: real, y: Vector, m: Matrix, n: nat)
    requires |x| == |y| == 2 * n && IsMatrix(m, n, n)
    requires Left(x, n) == Combine(Right(x, n), m, n)
    requires Left(y, n) == Combine(Right(y, n), m, n)
    ensures Left(Axpy(x, f, y), n) == Combine(Right(Axpy(x, f, y), n), m, n)
  {
    LeftRightAxpy(x, f, y, n);
    CombineAxpy(Right(x, n), f, Right(y, n), m, n);
  }

  // Row operations can be undone.

  lemma {:induction false} DotUpdate(u: Vector, v: Vector, k: nat, x: real, y: real)
    requires |u| == |v| && k < |u|
    ensures Dot(u[k := x], v[k := y]) == Dot(u, v) - Mul(u[k], v[k]) + Mul(x, y)
  {
    var n := |u| - 1;
    if k < n {
      DotUpdate(u[..n], v[..n], k, x, y);
      assert u[k := x][..n] == u[..n][k := x];
      assert v[k := y][..n] == v[..n][k := y];
    } else {
      assert u[k := x][..n] == u[..n];
      assert v[k := y][..n] == v[..n];
    }
  }

  lemma SwapCombines(w: Vector, e: Matrix, n: nat, c: nat, p: nat)
    requires IsMatrix(e, n, n) && |w| == n && c < n && p < n
    ensures Combine(w[c := w[p]][p := w[c]], e[c := e[p]][p := e[c]], n) == Combine(w, e, n)
  {
    var w', e' := w[c := w[p]][p := w[c]], e[c := e[p]][p := e[c]];
    forall j | 0 <= j < n
      ensures Combine(w', e', n)[j] == Combine(w, e, n)[j]
    {
      var u := Column(e, n, j);
      CombineEntry(w, e, n, j);
      CombineEntry(w', e', n, j);
      assert Column(e', n, j) == u[c := u[p]][p := u[c]];
      DotUpdate(w, u, c, w[p], u[p]);
      DotUpdate(w[c := w[p]], u[c := u[p]], p, w[c], u[c]);
    }
  }

  lemma ScaleCombines(w: Vector, e: Matrix, n: nat, c: nat, s: real, t: real)
    requires IsMatrix(e, n, n) && |w| == n && c < n && s * t == 1.0
    ensures Combine(w[c := Mul(t, w[c])], e[c := Scale(s, e[c])], n) == Combine(w, e, n)
  {
    var w', e' := w[c := Mul(t, w[c])], e[c := Scale(s, e[c])];
    forall j | 0 <= j < n
      ensures Combine(w', e', n)[j] == Combine(w, e, n)[j]
    {
      var u := Column(e, n, j);
      CombineEntry(w, e, n, j);
      CombineEntry(w', e', n, j);
      assert Column(e', n, j) == u[c := Mul(s, u[c])];
      DotUpdate(w, u, c, Mul(t, w[c]), Mul(s, u[c]));
      CancelFactors(s, t, w[c], u[c]);
    }
  }

  lemma CancelFactors(s: real, t: real, x: real, y: real)
    requires s * t == 1.0
    ensures Mul(Mul(t, x), Mul(s, y)) == Mul(x, y)
  {
    calc {
      (t * x) * (s * y);
      (s * t) * (x * y);
      x * y;
    }
  }

  lemma SubtractDot(w: Vector, u: Vector, r: nat, c: nat, f: real)
    requires |w| == |u| && r < |w| && c < |w| && r != c
    ensures Dot(w[c := w[c] + Mul(f, w[r])], u[r := u[r] - Mul(f, u[c])]) == Dot(w, u)
  {
    assert w[r := w[r]] == w;
    DotUpdate(w, u, r, w[r], u[r] - Mul(f, u[c]));
    var u' := u[r := u[r] - Mul(f, u[c])];
    assert u'[c := u'[c]] == u';
    DotUpdate(w, u', c, w[c] + Mul(f, w[r]), u'[c]);
    CarryOver(w[r], u[r], w[c], u[c], f);
  }

  lemma SubtractCombines(w: Vector, e: Matrix, n: nat, r: nat, c: nat, f: real)
    requires IsMatrix(e, n, n) && |w| == n && r < n && c < n && r != c
    ensures Combine(w[c := w[c] + Mul(f, w[r])], e[r := Axpy(e[r], f, e[c])], n) == Combine(w, e, n)
  {
    var w', e' := w[c := w[c] + Mul(f, w[r])], e[r := Axpy(e[r], f, e[c])];
    forall j | 0 <= j < n
      ensures Combine(w', e', n)[j] == Combine(w, e, n)[j]
    {
      var u := Column(e, n, j);
      CombineEntry(w, e, n, j);
      CombineEntry(w', e', n, j);
      assert Column(e', n, j) == u[r := u[r] - Mul(f, u[c])];
      SubtractDot(w, u, r, c, f);
    }
  }

  lemma CarryOver(wr: real, ur: real, wc: real, uc: real, f: real)
    ensures -Mul(wr, ur) + Mul(wr, ur - Mul(f, uc)) - Mul(wc, uc) + Mul(wc + Mul(f, wr), uc) == 0.0
  {
  }

  lemma UndoSwap(d: Matrix, e: Matrix, n: nat, c: nat, p: nat) returns (d': Matrix)
    requires IsMatrix(e, n, n) && LeftInverse(d, e, n) && c < n && p < n
    ensures LeftInverse(d', e[c := e[p]][p := e[c]], n)
  {
    d' := seq(n, i requires 0 <= i < n => d[i][c := d[i][p]][p := d[i][c]]);
    forall i | 0 <= i < n
      ensures Combine(d'[i], e[c := e[p]][p := e[c]], n) == Unit(n, i)
    {
      SwapCombines(d[i], e, n, c, p);
    }
  }

  lemma UndoScale(d: Matrix, e: Matrix, n: nat, c: nat, s: real, t: real) returns (d': Matrix)
    requires IsMatrix(e, n, n) && LeftInverse(d, e, n) && c < n && s * t == 1.0
    ensures LeftInverse(d', e[c := Scale(s, e[c])], n)
  {
    d' := seq(n, i requires 0 <= i < n => d[i][c := Mul(t, d[i][c])]);
    forall i | 0 <= i < n
      ensures Combine(d'[i], e[c := Scale(s, e[c])], n) == Unit(n, i)
    {
      ScaleCombines(d[i], e, n, c, s, t);
    }
  }

  lemma UndoSubtract(d: Matrix, e: Matrix, n: nat, r: nat, c: nat, f: real) returns (d': Matrix)
    requires IsMatrix(e, n, n) && LeftInverse(d, e, n) && r < n && c < n && r != c
    ensures LeftInverse(d', e[r := Axpy(e[r], f, e[c])], n)
  {
    d' := seq(n, i requires 0 <= i < n => d[i][c := d[i][c] + Mul(f, d[i][r])]);
    forall i | 0 <= i < n
      ensures Combine(d'[i], e[r := Axpy(e[r], f, e[c])], n) == Unit(n, i)
    {
      SubtractCombines(d[i], e, n, r, c, f);
    }
  }

  /** Everything the elimination keeps, with `d` undoing the row operations so far. */
  ghost predicate Eliminating(a: Matrix, d: Matrix, m: Matrix, n: nat) {
    && IsMatrix(m, n, n) && IsMatrix(a, n, 2 * n)
    && Linked(a, m, n)
    && LeftInverse(d, Rights(a, n), n)
  }

  lemma StartLinked(m: Matrix, n: nat, a: Matrix)
    requires IsMatrix(m, n, n) && |a| == n
    requires forall i :: 0 <= i < n ==> a[i] == m[i] + Unit(n, i)
    ensures IsMatrix(a, n, 2 * n) && Linked(a, m, n)
    ensures forall r :: 0 <= r < n ==> Rights(a, n)[r] == Unit(n, r)
  {
    forall r | 0 <= r < n
      ensures Left(a[r], n) == Combine(Right(a[r], n), m, n) && Right(a[r], n) == Unit(n, r)
    {
      assert Right(a[r], n) == Unit(n, r);
      CombineUnit(r, m, n);
    }
  }

  lemma StartElimination(m: Matrix, n: nat, a: Matrix) returns (d: Matrix)
    requires IsMatrix(m, n, n) && |a| == n
    requires forall i :: 0 <= i < n ==> a[i] == m[i] + Unit(n, i)
    ensures Eliminating(a, d, m, n)
  {
    StartLinked(m, n, a);
    var e := Rights(a, n);
    d := seq(n, i requires 0 <= i < n => Unit(n, i));
    forall i | 0 <= i < n
      ensures Combine(d[i], e, n) == Unit(n, i)
    {
      CombineUnit(i, e, n);
    }
  }

  lemma EliminateSwap(a: Matrix, d: Matrix, m: Matrix, n: nat, c: nat, p: nat) returns (d': Matrix)
    requires Eliminating(a, d, m, n) && c <= p < n && Reduced(a, n, c)
    ensures
      var a' := a[c := a[p]][p := a[c]];
      && Eliminating(a', d', m, n) && Reduced(a', n, c)
      && Rights(a', n) == Rights(a, n)[c := Rights(a, n)[p]][p := Rights(a, n)[c]]
  {
    var a' := a[c := a[p]][p := a[c]];
    var e := Rights(a, n);
    d' := UndoSwap(d, e, n, c, p);
    assert Rights(a', n) == e[c := e[p]][p := e[c]];
  }

  lemma EliminateScale(a: Matrix, d: Matrix, m: Matrix, n: nat, c: nat, s: real) returns (d': Matrix)
    requires Eliminating(a, d, m, n) && c < n && Reduced(a, n, c) && s * a[c][c] == 1.0
    ensures
      var a' := a[c := Scale(s, a[c])];
      && Eliminating(a', d', m, n) && Reduced(a', n, c) && a'[c][c] == 1.0
      && Rights(a', n) == Rights(a, n)[c := Scale(s, Rights(a, n)[c])]
  {
    var a' := a[c := Scale(s, a[c])];
    var e := Rights(a, n);
    d' := UndoScale(d, e, n, c, s, a[c][c]);
    LinkedScale(a[c], s, m, n);
    LeftRightScale(s, a[c], n);
    assert Rights(a', n) == e[c := Scale(s, e[c])];
    ReducedScale(a, n, c, s);
  }

  lemma ReducedScale(a: Matrix, n: nat, c: nat, s: real)
    requires IsMatrix(a, n, 2 * n) && c < n && Reduced(a, n, c)
    ensures Reduced(a[c := Scale(s, a[c])], n, c)
  {
    forall j | 0 <= j < c
      ensures Scale(s, a[c])[j] == 0.0
    {
      assert a[c][j] == 0.0;
    }
  }

  lemma EliminateSubtract(a: Matrix, d: Matrix, m: Matrix, n: nat, r: nat, c: nat) returns (d': Matrix)
    requires Eliminating(a, d, m, n) && r < n && c < n && r != c && Reduced(a, n, c) && a[c][c] == 1.0
    ensures
      var a' := a[r := Axpy(a[r], a[r][c], a[c])];
      && Eliminating(a', d', m, n) && Reduced(a', n, c) && a'[c][c] == 1.0 && a'[r][c] == 0.0
      && Rights(a', n) == Rights(a, n)[r := Axpy(Rights(a, n)[r], a[r][c], Rights(a, n)[c])]
  {
    var f := a[r][c];
    var a' := a[r := Axpy(a[r], f, a[c])];
    var e := Rights(a, n);
    d' := UndoSubtract(d, e, n, r, c, f);
    LinkedAxpy(a[r], f, a[c], m, n);
    LeftRightAxpy(a[r], f, a[c], n);
    assert Rights(a', n) == e[r := Axpy(e[r], f, e[c])];
    ReducedSubtract(a, n, r, c, f);
  }

  lemma ReducedSubtract(a: Matrix, n: nat, r: nat, c: nat, f: real)
    requires IsMatrix(a, n, 2 * n) && r < n && c < n && r != c && Reduced(a, n, c)
    ensures Reduced(a[r := Axpy(a[r], f, a[c])], n, c)
  {
    forall j | 0 <= j < c
      ensures Axpy(a[r], f, a[c])[j] == a[r][j]
    {
      assert a[c][j] == 0.0;
    }
  }

  lemma {:induction false} DotConcat(a: Vector, b: Vector, x: Vector, y: Vector)
    requires |a| == |x| && |b| == |y|
    ensures Dot(a + b, x + y) == Dot(a, x) + Dot(b, y)
  {
    if b == [] {
      assert a + b == a && x + y == x;
    } else {
      var n := |b| - 1;
      DotConcat(a, b[..n], x, y[..n]);
      assert (a + b)[..|a + b| - 1] == a + b[..n];
      assert (x + y)[..|x + y| - 1] == x + y[..n];
    }
  }

  /** The columns combination that the reduced columns turn into the column `c` below its
      diagonal. */
  ghost function Witness(a: Matrix, n: nat, c: nat): (v: Vector)
    requires IsMatrix(a, n, 2 * n) && c < n
    ensures |v| == n && v[c] == 1.0
  {
    seq(c, j requires 0 <= j < c => -a[j][c]) + ([1.0] + Zero(n - c - 1))
  }

  lemma WitnessEntry(a: Matrix, n: nat, c: nat, r: nat)
    requires IsMatrix(a, n, 2 * n) && c < n && r < n && Reduced(a, n, c)
    ensures Dot(Left(a[r], n), Witness(a, n, c)) == if r < c then 0.0 else a[r][c]
  {
    var row := Left(a[r], n);
    var above, rest := seq(c, j requires 0 <= j < c => -a[j][c]), Zero(n - c - 1);
    assert row == row[..c] + (row[c..c + 1] + row[c + 1..]);
    DotConcat(row[..c], row[c..c + 1] + row[c + 1..], above, [1.0] + rest);
    DotConcat(row[c..c + 1], row[c + 1..], [1.0], rest);
    DotComm(row[c + 1..], rest);
    DotZero(row[c + 1..]);
    assert Dot(row[c..c + 1], [1.0]) == row[c] by {
      assert row[c..c + 1][..0] == [] && [1.0][..0] == [];
    }
    if r < c {
      assert row[..c] == Unit(c, r);
      DotUnit(r, above);
    } else {
      assert row[..c] == Zero(c);
      DotZero(above);
    }
  }

  // Which input rows are still as they were, up to multiples of the pivot rows.

  ghost predicate IsPermutation(perm: seq<nat>, n: nat) {
    && |perm| == n && (forall k :: 0 <= k < n ==> perm[k] < n)
    && forall i, k :: 0 <= i < k < n ==> perm[i] != perm[k]
  }

  /** Row `k`, from `c` on, is the input's row `perm[k]` once, and no other row has any of it. */
  ghost predicate Kept(e: Matrix, n: nat, c: nat, perm: seq<nat>) {
    && IsMatrix(e, n, n) && IsPermutation(perm, n)
    && forall r, k :: 0 <= r < n && c <= k < n ==> e[r][perm[k]] == if r == k then 1.0 else 0.0
  }

  lemma KeptAtStart(e: Matrix, n: nat) returns (perm: seq<nat>)
    requires IsMatrix(e, n, n) && forall r :: 0 <= r < n ==> e[r] == Unit(n, r)
    ensures Kept(e, n, 0, perm)
  {
    perm := seq(n, k requires 0 <= k < n => k);
  }

  lemma KeptSwap(e: Matrix, n: nat, c: nat, p: nat, perm: seq<nat>)
    requires Kept(e, n, c, perm) && c <= p < n
    ensures Kept(e[c := e[p]][p := e[c]], n, c, perm[c := perm[p]][p := perm[c]])
  {
  }

  lemma KeptScale(e: Matrix, n: nat, c: nat, s: real, perm: seq<nat>)
    requires Kept(e, n, c, perm) && c < n
    ensures Kept(e[c := Scale(s, e[c])], n, c + 1, perm)
  {
    forall k | c + 1 <= k < n
      ensures Scale(s, e[c])[perm[k]] == 0.0
    {
      assert e[c][perm[k]] == 0.0;
    }
  }

  lemma KeptSubtract(e: Matrix, n: nat, r: nat, c: nat, f: real, perm: seq<nat>)
    requires Kept(e, n, c + 1, perm) && r < n && c < n && r != c
    ensures Kept(e[r := Axpy(e[r], f, e[c])], n, c + 1, perm)
  {
    forall k | c + 1 <= k < n
      ensures Axpy(e[r], f, e[c])[perm[k]] == e[r][perm[k]]
    {
      assert e[c][perm[k]] == 0.0;
    }
  }

  /** Column `c` of the rows from `c` up to `k`, each at its input row. */
  ghost function Leftover(a: Matrix, n: nat, c: nat, perm: seq<nat>, k: nat): (t: Vector)
    requires IsMatrix(a, n, 2 * n) && c <= k <= n && IsPermutation(perm, n)
    ensures |t| == n
  {
    if k == c then Zero(n) else Leftover(a, n, c, perm, k - 1)[perm[k - 1] := a[k - 1][c]]
  }

  lemma {:induction false} LeftoverEntry(a: Matrix, n: nat, c: nat, perm: seq<nat>, k: nat, i: nat)
    requires IsMatrix(a, n, 2 * n) && c <= k <= n && IsPermutation(perm, n) && i < n
    requires forall r :: c <= r < n ==> Abs(a[r][c]) < THRESHOLD
    ensures Abs(Leftover(a, n, c, perm, k)[i]) < THRESHOLD
    ensures (forall r :: c <= r < k ==> perm[r] != i) ==> Leftover(a, n, c, perm, k)[i] == 0.0
  {
    if c < k {
      LeftoverEntry(a, n, c, perm, k - 1, i);
    }
  }

  lemma {:induction false} LeftoverDot(a: Matrix, e: Matrix, n: nat, c: nat, perm: seq<nat>, k: nat, r: nat)
    requires IsMatrix(a, n, 2 * n) && c <= k <= n && Kept(e, n, c, perm) && r < n
    requires forall i :: c <= i < n ==> Abs(a[i][c]) < THRESHOLD
    ensures Dot(e[r], Leftover(a, n, c, perm, k)) == if c <= r < k then a[r][c] else 0.0
  {
    if k == c {
      DotComm(e[r], Zero(n));
      DotZero(e[r]);
    } else {
      var t, q, x := Leftover(a, n, c, perm, k - 1), perm[k - 1], a[k - 1][c];
      LeftoverDot(a, e, n, c, perm, k - 1, r);
      LeftoverEntry(a, n, c, perm, k - 1, q);
      DotUpdate(e[r], t, q, e[r][q], x);
      assert e[r][q := e[r][q]] == e[r];
      assert e[r][q] == if r == k - 1 then 1.0 else 0.0;
      Ends(e[r][q], t[q], x);
    }
  }

  lemma Ends(w: real, t: real, x: real)
    requires t == 0.0 && (w == 0.0 || w == 1.0)
    ensures Mul(w, t) == 0.0 && Mul(w, x) == if w == 0.0 then 0.0 else x
  {
  }

  lemma CancelLeft(d: Matrix, e: Matrix, x: Vector, y: Vector)
    requires |x| == |y| && IsMatrix(e, |x|, |x|) && LeftInverse(d, e, |x|) && Times(e, x) == Times(e, y)
    ensures x == y
  {
    forall i | 0 <= i < |x|
      ensures x[i] == y[i]
    {
      DotUnit(i, x);
      DotUnit(i, y);
      DotCombine(d[i], e, x);
      DotCombine(d[i], e, y);
    }
  }

  /** What the witness leaves of the input is the leftover column. */
  lemma WitnessLeaves(a: Matrix, d: Matrix, m: Matrix, n: nat, c: nat, perm: seq<nat>)
    requires Eliminating(a, d, m, n) && c < n && Reduced(a, n, c) && Kept(Rights(a, n), n, c, perm)
    requires forall r :: c <= r < n ==> Abs(a[r][c]) < THRESHOLD
    ensures Times(m, Witness(a, n, c)) == Leftover(a, n, c, perm, n)
  {
    var e, v, t := Rights(a, n), Witness(a, n, c), Leftover(a, n, c, perm, n);
    var left := Times(m, v);
    forall r | 0 <= r < n
      ensures Times(e, left)[r] == Times(e, t)[r]
    {
      WitnessEntry(a, n, c, r);
      DotCombine(e[r], m, v);
      LeftoverDot(a, e, n, c, perm, n, r);
      assert e[r] == Right(a[r], n);
    }
    assert Times(e, left) == Times(e, t);
    CancelLeft(d, e, left, t);
  }

  /** The input with the leftover taken out of its column `c`. */
  ghost function Nearby(m: Matrix, n: nat, c: nat, t: Vector): (m1: Matrix)
    requires IsMatrix(m, n, n) && c < n && |t| == n
    ensures IsMatrix(m1, n, n)
  {
    seq(n, i requires 0 <= i < n => m[i][c := m[i][c] - t[i]])
  }

  lemma NearbyIsSingular(m: Matrix, n: nat, c: nat, t: Vector, v: Vector)
    requires IsMatrix(m, n, n) && c < n && |t| == |v| == n && v[c] == 1.0 && Times(m, v) == t
    ensures Times(Nearby(m, n, c, t), v) == Zero(n)
  {
    forall i | 0 <= i < n
      ensures Times(Nearby(m, n, c, t), v)[i] == 0.0
    {
      assert v[c := v[c]] == v;
      DotUpdate(m[i], v, c, m[i][c] - t[i], v[c]);
      TimesOne(m[i][c], v[c]);
      TimesOne(m[i][c] - t[i], v[c]);
    }
  }

  lemma TimesOne(x: real, one: real)
    requires one == 1.0
    ensures Mul(x, one) == x
  {
  }

  /** A pivot below the threshold means that a singular matrix is within it of the input. */
  lemma NoPivotNearSingular(a: Matrix, d: Matrix, m: Matrix, n: nat, c: nat, perm: seq<nat>)
    requires Eliminating(a, d, m, n) && c < n && Reduced(a, n, c) && Kept(Rights(a, n), n, c, perm)
    requires forall r :: c <= r < n ==> Abs(a[r][c]) < THRESHOLD
    ensures NearSingular(m, n)
  {
    var v, t := Witness(a, n, c), Leftover(a, n, c, perm, n);
    WitnessLeaves(a, d, m, n, c, perm);
    var m1 := Nearby(m, n, c, t);
    NearbyIsSingular(m, n, c, t, v);
    forall i, j | 0 <= i < n && 0 <= j < n
      ensures Abs(m1[i][j] - m[i][j]) < THRESHOLD
    {
      LeftoverEntry(a, n, c, perm, n, i);
    }
    assert v[c] != Zero(n)[c];
    assert SingularNear(m, n, m1, v);
  }

  /** The row, from `c` down, with the largest entry in column `c`. */
  method FindPivot(a: Matrix, n: nat, c: nat) returns (p: nat)
    requires IsMatrix(a, n, 2 * n) && c < n
    ensures c <= p < n
    ensures forall r :: c <= r < n ==> Abs(a[r][c]) <= Abs(a[p][c])
  {
    p := c;
    for r := c + 1 to n
      invariant c <= p < n
      invariant forall i :: c <= i < r ==> Abs(a[i][c]) <= Abs(a[p][c])
    {
      if Abs(a[r][c]) > Abs(a[p][c]) {
        p := r;
      }
    }
  }

  /** Take row `c` out of every other row, which clears column `c`. */
  method ClearColumn(m: Matrix, n: nat, c: nat, a0: Matrix, ghost d0: Matrix, ghost perm: seq<nat>)
    returns (a: Matrix, ghost d: Matrix)
    requires Eliminating(a0, d0, m, n) && c < n && Reduced(a0, n, c) && a0[c][c] == 1.0
    requires Kept(Rights(a0, n), n, c + 1, perm)
    ensures Eliminating(a, d, m, n) && Reduced(a, n, c + 1) && Kept(Rights(a, n), n, c + 1, perm)
  {
    a, d := a0, d0;
    for r := 0 to n
      invariant Eliminating(a, d, m, n) && Reduced(a, n, c) && a[c][c] == 1.0
      invariant Kept(Rights(a, n), n, c + 1, perm)
      invariant forall i :: 0 <= i < r && i != c ==> a[i][c] == 0.0
    {
      if r != c {
        var f := a[r][c];
        if f != 0.0 {
          KeptSubtract(Rights(a, n), n, r, c, f, perm);
          d := EliminateSubtract(a, d, m, n, r, c);
          a := a[r := Axpy(a[r], f, a[c])];
        }
      }
    }
  }

  lemma Reciprocal(x: real)
    requires x != 0.0
    ensures (1.0 / x) * x == 1.0
  {
  }

  /** Bring row `p` up to row `c` and divide it by its pivot. */
  method PlacePivot(m: Matrix, n: nat, c: nat, p: nat, a0: Matrix, ghost d0: Matrix, ghost perm0: seq<nat>)
    returns (a: Matrix, ghost d: Matrix, ghost perm: seq<nat>)
    requires Eliminating(a0, d0, m, n) && c <= p < n && Reduced(a0, n, c) && a0[p][c] != 0.0
    requires Kept(Rights(a0, n), n, c, perm0)
    ensures Eliminating(a, d, m, n) && Reduced(a, n, c) && a[c][c] == 1.0
    ensures Kept(Rights(a, n), n, c + 1, perm)
  {
    KeptSwap(Rights(a0, n), n, c, p, perm0);
    perm := perm0[c := perm0[p]][p := perm0[c]];
    d := EliminateSwap(a0, d0, m, n, c, p);
    a := a0[c := a0[p]][p := a0[c]];
    var pivot := a[c][c];
    Reciprocal(pivot);
    KeptScale(Rights(a, n), n, c, 1.0 / pivot, perm);
    d := EliminateScale(a, d, m, n, c, 1.0 / pivot);
    a := a[c := Scale(1.0 / pivot, a[c])];
  }

  /** Whatever matrix it returns is a left and a right inverse of its input, and it refuses
      an input only when a singular matrix is within the threshold of it in every entry. */
  method Inv(m: Matrix) returns (inverse: Option<Matrix>)
    requires IsMatrix(m, |m|, |m|)
    ensures inverse.Some? ==> LeftInverse(inverse.value, m, |m|) && LeftInverse(m, inverse.value, |m|)
    ensures inverse.None? ==> NearSingular(m, |m|)
  {
    var n := |m|;
    var a: Matrix := seq(n, i requires 0 <= i < n => m[i] + Unit(n, i));
    ghost var d := StartElimination(m, n, a);
    StartLinked(m, n, a);
    ghost var perm := KeptAtStart(Rights(a, n), n);
    for c := 0 to n
      invariant Eliminating(a, d, m, n) && Reduced(a, n, c) && Kept(Rights(a, n), n, c, perm)
    {
      var p := FindPivot(a, n, c);
      if Abs(a[p][c]) < THRESHOLD {
        NoPivotNearSingular(a, d, m, n, c, perm);
        return None;
      }
      a, d, perm := PlacePivot(m, n, c, p, a, d, perm);
      a, d := ClearColumn(m, n, c, a, d, perm);
    }
    ReducedIsInverse(a, d, m, n);
    InverseOfInverse(d, Rights(a, n), m, n);
    inverse := Some(Rights(a, n));
  }

  lemma ReducedIsInverse(a: Matrix, d: Matrix, m: Matrix, n: nat)
    requires Eliminating(a, d, m, n) && Reduced(a, n, n)
    ensures LeftInverse(Rights(a, n), m, n)
  {
    forall i | 0 <= i < n
      ensures Combine(Rights(a, n)[i], m, n) == Unit(n, i)
    {
      assert Left(a[i], n) == Unit(n, i);
    }
  }

  /** The matrix that undoes the row operations can only be the input itself. */
  lemma InverseOfInverse(d: Matrix, b: Matrix, m: Matrix, n: nat)
    requires IsMatrix(m, n, n) && LeftInverse(b, m, n) && LeftInverse(d, b, n)
    ensures LeftInverse(m, b, n)
  {
    var units := seq(n, i requires 0 <= i < n => Unit(n, i));
    forall i | 0 <= i < n
      ensures Combine(m[i], b, n) == Unit(n, i)
    {
      CombineAssoc(d[i], b, m, n, units);
      CombineUnits(d[i], units, n);
      CombineUnit(i, m, n);
      assert d[i] == m[i];
    }
  }

  /** A matrix with a left inverse sends no vector but zero to zero. */
  lemma InverseMeansNonsingular(b: Matrix, m: Matrix, v: Vector)
    requires IsMatrix(m, |v|, |v|) && LeftInverse(b, m, |v|)
    requires Times(m, v) == Zero(|v|)
    ensures v == Zero(|v|)
  {
    forall i | 0 <= i < |v|
      ensures v[i] == 0.0
    {
      DotUnit(i, v);
      DotCombine(b[i], m, v);
      DotComm(b[i], Zero(|v|));
      DotZero(b[i]);
    }
  }

  /** A right inverse solves: m * (b * t) == t. */
  lemma InverseSolves(b: Matrix, m: Matrix, t: Vector)
    requires IsMatrix(m, |t|, |t|) && IsMatrix(b, |t|, |t|) && LeftInverse(m, b, |t|)
    ensures Times(m, Times(b, t)) == t
  {
    forall i | 0 <= i < |t|
      ensures Times(m, Times(b, t))[i] == t[i]
    {
      DotCombine(m[i], b, t);
      DotUnit(i, t);
    }
  }
}
