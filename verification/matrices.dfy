/** Real vectors and matrices, as the estimators and the wrench mapper use them. */
module Matrices {
  type Vector = seq<real>
  type Matrix = seq<Vector>

  predicate IsMatrix(m: Matrix, rows: nat, cols: nat) {
    |m| == rows && forall i :: 0 <= i < rows ==> |m[i]| == cols
  }

  // ---- vectors ----

  function Zeros(n: nat): Vector {
    seq(n, _ => 0.0)
  }

  function Plus(a: Vector, b: Vector): (c: Vector)
    requires |a| == |b|
    ensures |c| == |a| && forall i :: 0 <= i < |c| ==> c[i] == a[i] + b[i]
  {
    seq(|a|, i requires 0 <= i < |a| => a[i] + b[i])
  }

  function Minus(a: Vector, b: Vector): (c: Vector)
    requires |a| == |b|
    ensures |c| == |a| && forall i :: 0 <= i < |c| ==> c[i] == a[i] - b[i]
  {
    seq(|a|, i requires 0 <= i < |a| => a[i] - b[i])
  }

  function DotTo(a: Vector, b: Vector, n: nat): real
    requires n <= |a| && n <= |b|
  {
    if n == 0 then 0.0 else DotTo(a, b, n - 1) + a[n - 1] * b[n - 1]
  }

  function Dot(a: Vector, b: Vector): real
    requires |a| == |b|
  {
    DotTo(a, b, |a|)
  }

  lemma {:induction false} DotToPlus(a: Vector, x: Vector, y: Vector, n: nat)
    requires |x| == |y| && n <= |a| && n <= |x|
    ensures DotTo(a, Plus(x, y), n) == DotTo(a, x, n) + DotTo(a, y, n)
  {
    if n > 0 {
      DotToPlus(a, x, y, n - 1);
      assert a[n - 1] * (x[n - 1] + y[n - 1]) == a[n - 1] * x[n - 1] + a[n - 1] * y[n - 1];
    }
  }

  lemma {:induction false} DotToMinus(a: Vector, x: Vector, y: Vector, n: nat)
    requires |x| == |y| && n <= |a| && n <= |x|
    ensures DotTo(a, Minus(x, y), n) == DotTo(a, x, n) - DotTo(a, y, n)
  {
    if n > 0 {
      DotToMinus(a, x, y, n - 1);
      assert a[n - 1] * (x[n - 1] - y[n - 1]) == a[n - 1] * x[n - 1] - a[n - 1] * y[n - 1];
    }
  }

  lemma {:induction false} DotToCommutes(a: Vector, b: Vector, n: nat)
    requires n <= |a| && n <= |b|
    ensures DotTo(a, b, n) == DotTo(b, a, n)
  {
    if n > 0 {
      DotToCommutes(a, b, n - 1);
    }
  }

  lemma {:induction false} DotToZero(a: Vector, b: Vector, n: nat)
    requires n <= |a| && n <= |b| && forall i :: 0 <= i < n ==> a[i] == 0.0
    ensures DotTo(a, b, n) == 0.0
  {
    if n > 0 {
      DotToZero(a, b, n - 1);
    }
  }

  /** A row with a single entry picks that entry. */
  lemma {:induction false} DotToOne(row: Vector, x: Vector, n: nat, k: nat)
    requires k < n <= |row| && n <= |x|
    requires forall i :: 0 <= i < n && i != k ==> row[i] == 0.0
    ensures DotTo(row, x, n) == row[k] * x[k]
  {
    if k == n - 1 {
      DotToZero(row, x, n - 1);
    } else {
      DotToOne(row, x, n - 1, k);
    }
  }

  /** A row with two entries adds the two it picks. */
  lemma {:induction false} DotToTwo(row: Vector, x: Vector, n: nat, j: nat, k: nat)
    requires j < k < n <= |row| && n <= |x|
    requires forall i :: 0 <= i < n && i != j && i != k ==> row[i] == 0.0
    ensures DotTo(row, x, n) == row[j] * x[j] + row[k] * x[k]
  {
    if k == n - 1 {
      DotToOne(row, x, n - 1, j);
    } else {
      DotToTwo(row, x, n - 1, j, k);
    }
  }

  lemma Product(x: real, y: real) returns (p: real)
    ensures p == x * y
    ensures (x > 0.0 && y > 0.0) || (x < 0.0 && y < 0.0) ==> p > 0.0
    ensures x == 0.0 ==> p == 0.0
  {
    p := x * y;
  }

  lemma Square(x: real) returns (y: real)
    ensures y == x * x && y >= 0.0
    ensures x != 0.0 ==> y > 0.0
    ensures x == 0.0 ==> y == 0.0
  {
    y := Product(x, x);
  }

  /** The square of a vector's length is positive unless the vector is zero. */
  lemma {:induction false} SquareIsPositive(a: Vector, n: nat)
    requires n <= |a|
    ensures DotTo(a, a, n) >= 0.0
    ensures (exists i :: 0 <= i < n && a[i] != 0.0) ==> DotTo(a, a, n) > 0.0
  {
    if n > 0 {
      SquareIsPositive(a, n - 1);
      var last := Square(a[n - 1]);
      assert DotTo(a, a, n) == DotTo(a, a, n - 1) + last;
    }
  }

  // ---- matrices ----

  function Apply(m: Matrix, v: Vector): (r: Vector)
    requires IsMatrix(m, |m|, |v|)
    ensures |r| == |m| && forall i :: 0 <= i < |m| ==> r[i] == Dot(m[i], v)
  {
    seq(|m|, i requires 0 <= i < |m| => Dot(m[i], v))
  }

  function Column(m: Matrix, rows: nat, cols: nat, j: nat): (c: Vector)
    requires IsMatrix(m, rows, cols) && j < cols
    ensures |c| == rows && forall i :: 0 <= i < rows ==> c[i] == m[i][j]
  {
    seq(rows, i requires 0 <= i < rows => m[i][j])
  }

  function Transpose(m: Matrix, rows: nat, cols: nat): (t: Matrix)
    requires IsMatrix(m, rows, cols)
    ensures IsMatrix(t, cols, rows) && forall j :: 0 <= j < cols ==> t[j] == Column(m, rows, cols, j)
  {
    seq(cols, j requires 0 <= j < cols => Column(m, rows, cols, j))
  }

  function MulRow(row: Vector, b: Matrix, inner: nat, cols: nat): (r: Vector)
    requires |row| == inner && IsMatrix(b, inner, cols)
    ensures |r| == cols && forall j :: 0 <= j < cols ==> r[j] == Dot(row, Column(b, inner, cols, j))
  {
    seq(cols, j requires 0 <= j < cols => Dot(row, Column(b, inner, cols, j)))
  }

  function Mul(a: Matrix, b: Matrix, rows: nat, inner: nat, cols: nat): (m: Matrix)
    requires IsMatrix(a, rows, inner) && IsMatrix(b, inner, cols)
    ensures IsMatrix(m, rows, cols) && forall i :: 0 <= i < rows ==> m[i] == MulRow(a[i], b, inner, cols)
  {
    seq(rows, i requires 0 <= i < rows => MulRow(a[i], b, inner, cols))
  }

  function MatrixPlus(a: Matrix, b: Matrix, rows: nat, cols: nat): (m: Matrix)
    requires IsMatrix(a, rows, cols) && IsMatrix(b, rows, cols)
    ensures IsMatrix(m, rows, cols) && forall i :: 0 <= i < rows ==> m[i] == Plus(a[i], b[i])
  {
    seq(rows, i requires 0 <= i < rows => Plus(a[i], b[i]))
  }

  function MatrixMinus(a: Matrix, b: Matrix, rows: nat, cols: nat): (m: Matrix)
    requires IsMatrix(a, rows, cols) && IsMatrix(b, rows, cols)
    ensures IsMatrix(m, rows, cols) && forall i :: 0 <= i < rows ==> m[i] == Minus(a[i], b[i])
  {
    seq(rows, i requires 0 <= i < rows => Minus(a[i], b[i]))
  }

  function Scaled(s: real, a: Vector): (c: Vector)
    ensures |c| == |a| && forall i :: 0 <= i < |a| ==> c[i] == s * a[i]
  {
    seq(|a|, i requires 0 <= i < |a| => s * a[i])
  }

  function MatrixScaled(s: real, a: Matrix, rows: nat, cols: nat): (m: Matrix)
    requires IsMatrix(a, rows, cols)
    ensures IsMatrix(m, rows, cols) && forall i :: 0 <= i < rows ==> m[i] == Scaled(s, a[i])
  {
    seq(rows, i requires 0 <= i < rows => Scaled(s, a[i]))
  }

  /** The matrix that has `diagonal` on its diagonal and zeros elsewhere. */
  function Diagonal(diagonal: Vector): (m: Matrix)
    ensures IsMatrix(m, |diagonal|, |diagonal|)
    ensures forall i, j :: 0 <= i < |diagonal| && 0 <= j < |diagonal| ==> m[i][j] == if i == j then diagonal[i] else 0.0
  {
    seq(|diagonal|, i requires 0 <= i < |diagonal| =>
      seq(|diagonal|, j requires 0 <= j < |diagonal| => if i == j then diagonal[i] else 0.0))
  }

  /** The value an array of two dimensions holds. */
  function Held(a: array2<real>): (m: Matrix)
    reads a
    ensures IsMatrix(m, a.Length0, a.Length1)
    ensures forall i, j :: 0 <= i < a.Length0 && 0 <= j < a.Length1 ==> m[i][j] == a[i, j]
  {
    seq(a.Length0, i requires 0 <= i < a.Length0 reads a =>
      seq(a.Length1, j requires 0 <= j < a.Length1 reads a => a[i, j]))
  }

  lemma SameMatrix(a: Matrix, b: Matrix, rows: nat, cols: nat)
    requires IsMatrix(a, rows, cols) && IsMatrix(b, rows, cols)
    requires forall i, j :: 0 <= i < rows && 0 <= j < cols ==> a[i][j] == b[i][j]
    ensures a == b
  {
    forall i | 0 <= i < rows
      ensures a[i] == b[i]
    {
    }
  }

  lemma ApplyPlus(m: Matrix, x: Vector, y: Vector)
    requires |x| == |y| && IsMatrix(m, |m|, |x|)
    ensures Apply(m, Plus(x, y)) == Plus(Apply(m, x), Apply(m, y))
  {
    forall i | 0 <= i < |m|
      ensures Apply(m, Plus(x, y))[i] == Apply(m, x)[i] + Apply(m, y)[i]
    {
      DotToPlus(m[i], x, y, |x|);
    }
  }

  lemma ApplyMinus(m: Matrix, x: Vector, y: Vector)
    requires |x| == |y| && IsMatrix(m, |m|, |x|)
    ensures Apply(m, Minus(x, y)) == Minus(Apply(m, x), Apply(m, y))
  {
    forall i | 0 <= i < |m|
      ensures Apply(m, Minus(x, y))[i] == Apply(m, x)[i] - Apply(m, y)[i]
    {
      DotToMinus(m[i], x, y, |x|);
    }
  }

  // ---- exchanging the order of two sums ----

  /** The first `n` rows of `m`, each times its entry of `u`, added up. */
  function Combined(u: Vector, m: Matrix, n: nat, cols: nat): (v: Vector)
    requires n <= |u| && IsMatrix(m, |m|, cols) && n <= |m|
    ensures |v| == cols
  {
    if n == 0 then Zeros(cols) else Plus(Combined(u, m, n - 1, cols), Scaled(u[n - 1], m[n - 1]))
  }

  lemma {:induction false} DotToScaled(s: real, a: Vector, b: Vector, n: nat)
    requires n <= |a| && n <= |b|
    ensures DotTo(Scaled(s, a), b, n) == s * DotTo(a, b, n)
  {
    if n > 0 {
      DotToScaled(s, a, b, n - 1);
      assert s * a[n - 1] * b[n - 1] == s * (a[n - 1] * b[n - 1]);
    }
  }

  lemma {:induction false} CombinedAt(u: Vector, m: Matrix, n: nat, cols: nat, j: nat)
    requires n <= |u| && IsMatrix(m, |m|, cols) && n <= |m| && j < cols
    ensures Combined(u, m, n, cols)[j] == DotTo(u, Column(m, |m|, cols, j), n)
  {
    if n > 0 {
      CombinedAt(u, m, n - 1, cols, j);
    }
  }

  /** Rows first or columns first, the double sum is the same. */
  lemma {:induction false} CombinedDot(u: Vector, m: Matrix, n: nat, f: Vector)
    requires n <= |u| && IsMatrix(m, |m|, |f|) && n <= |m|
    ensures Dot(Combined(u, m, n, |f|), f) == DotTo(u, Apply(m, f), n)
  {
    if n == 0 {
      DotToZero(Zeros(|f|), f, |f|);
    } else {
      CombinedDot(u, m, n - 1, f);
      var before, more := Combined(u, m, n - 1, |f|), Scaled(u[n - 1], m[n - 1]);
      DotToCommutes(Plus(before, more), f, |f|);
      DotToPlus(f, before, more, |f|);
      DotToCommutes(before, f, |f|);
      DotToCommutes(more, f, |f|);
      DotToScaled(u[n - 1], m[n - 1], f, |f|);
    }
  }

  /** The transpose is the adjoint. */
  lemma Adjoint(m: Matrix, rows: nat, u: Vector, f: Vector)
    requires IsMatrix(m, rows, |f|) && |u| == rows
    ensures Dot(Apply(Transpose(m, rows, |f|), u), f) == Dot(u, Apply(m, f))
  {
    CombinedDot(u, m, rows, f);
    var back := Apply(Transpose(m, rows, |f|), u);
    forall j | 0 <= j < |f|
      ensures back[j] == Combined(u, m, rows, |f|)[j]
    {
      CombinedAt(u, m, rows, |f|, j);
      DotToCommutes(u, Column(m, rows, |f|, j), rows);
    }
    assert back == Combined(u, m, rows, |f|);
  }

  /** Applying a product is applying its factors one after the other. */
  lemma ApplyMul(a: Matrix, b: Matrix, rows: nat, inner: nat, v: Vector)
    requires IsMatrix(a, rows, inner) && IsMatrix(b, inner, |v|)
    ensures Apply(Mul(a, b, rows, inner, |v|), v) == Apply(a, Apply(b, v))
  {
    forall i | 0 <= i < rows
      ensures Dot(MulRow(a[i], b, inner, |v|), v) == Dot(a[i], Apply(b, v))
    {
      CombinedDot(a[i], b, inner, v);
      var row := MulRow(a[i], b, inner, |v|);
      forall j | 0 <= j < |v|
        ensures row[j] == Combined(a[i], b, inner, |v|)[j]
      {
        CombinedAt(a[i], b, inner, |v|, j);
      }
      assert row == Combined(a[i], b, inner, |v|);
    }
  }

  lemma IdentityApplies(v: Vector)
    ensures Apply(Diagonal(seq(|v|, _ => 1.0)), v) == v
  {
    var one := Diagonal(seq(|v|, _ => 1.0));
    forall i | 0 <= i < |v|
      ensures Dot(one[i], v) == v[i]
    {
      DotToOne(one[i], v, |v|, i);
    }
  }
}
