/**
 What one update of the linear filter gets right, for a linear solve that solves: how far the
 corrected state still is from the measurement, how sure it is in every direction, and which
 state leaves nothing to correct.
 */
module KfCorrection {
  import opened Basics
  import opened Matrices
  import opened LinearKf

  // ---- more about matrices ----

  lemma ApplyMatrixPlus(a: Matrix, b: Matrix, rows: nat, v: Vector)
    requires IsMatrix(a, rows, |v|) && IsMatrix(b, rows, |v|)
    ensures Apply(MatrixPlus(a, b, rows, |v|), v) == Plus(Apply(a, v), Apply(b, v))
  {
    forall i | 0 <= i < rows
      ensures Dot(Plus(a[i], b[i]), v) == Dot(a[i], v) + Dot(b[i], v)
    {
      DotToCommutes(Plus(a[i], b[i]), v, |v|);
      DotToPlus(v, a[i], b[i], |v|);
      DotToCommutes(a[i], v, |v|);
      DotToCommutes(b[i], v, |v|);
    }
  }

  lemma ApplyMatrixMinus(a: Matrix, b: Matrix, rows: nat, v: Vector)
    requires IsMatrix(a, rows, |v|) && IsMatrix(b, rows, |v|)
    ensures Apply(MatrixMinus(a, b, rows, |v|), v) == Minus(Apply(a, v), Apply(b, v))
  {
    forall i | 0 <= i < rows
      ensures Dot(Minus(a[i], b[i]), v) == Dot(a[i], v) - Dot(b[i], v)
    {
      DotToCommutes(Minus(a[i], b[i]), v, |v|);
      DotToMinus(v, a[i], b[i], |v|);
      DotToCommutes(a[i], v, |v|);
      DotToCommutes(b[i], v, |v|);
    }
  }

  // ---- the state after the correction ----

  /** A linear solve that solves for `e`. */
  predicate Solves(lib: Library, sm: Matrix, e: Vector)
    requires IsMatrix(sm, |e|, |e|)
  {
    Apply(sm, lib.solve(sm, e)) == e
  }

  /** C P Cᵀ z is S z less R z. */
  lemma SplitCovariance(pm: Matrix, s: Settings, planted: seq<bool>, z: Vector)
    requires |planted| == s.contacts && IsMatrix(pm, StateSize(s.contacts), StateSize(s.contacts))
    requires |z| == ObserveSize(s.contacts)
    ensures var c := Measurement(s.contacts);
            var m, o := StateSize(s.contacts), ObserveSize(s.contacts);
            Apply(c, Apply(Mul(pm, Transpose(c, o, m), m, m, o), z)) ==
            Minus(Apply(InnovationCovariance(pm, s, planted), z), Apply(Diagonal(SensorNoise(s, planted)), z))
  {
    var m, o := StateSize(s.contacts), ObserveSize(s.contacts);
    var c, r := Measurement(s.contacts), Diagonal(SensorNoise(s, planted));
    var ct := Transpose(c, o, m);
    ApplyMul(pm, ct, m, m, z);
    ApplyMul(Mul(c, pm, o, m, m), ct, o, m, z);
    ApplyMul(c, pm, o, m, Apply(ct, z));
    ApplyMatrixPlus(Mul(Mul(c, pm, o, m, m), ct, o, m, o), r, o, z);
  }

  /**
   What is left of the innovation after the correction is the sensor noise times the solution, so
   the state moves towards the measurement as far as the noise allows, and all the way without any.
   */
  lemma ResidualIsNoise(lib: Library, s: Settings, x: Vector, pm: Matrix, planted: seq<bool>, y: Vector)
    requires |planted| == s.contacts && Fits(Filter(x, pm), s.contacts) && |y| == ObserveSize(s.contacts)
    requires var sm := InnovationCovariance(pm, s, planted);
             Solves(lib, sm, Minus(y, Apply(Measurement(s.contacts), x)))
    ensures var sm := InnovationCovariance(pm, s, planted);
            var e := Minus(y, Apply(Measurement(s.contacts), x));
            Minus(y, Apply(Measurement(s.contacts), Corrected(lib, s.contacts, x, pm, sm, y).x)) ==
            Apply(Diagonal(SensorNoise(s, planted)), lib.solve(sm, e))
  {
    var c, sm := Measurement(s.contacts), InnovationCovariance(pm, s, planted);
    var e := Minus(y, Apply(c, x));
    var z := lib.solve(sm, e);
    var dx := Correction(lib, pm, sm, e, s.contacts);
    SplitCovariance(pm, s, planted, z);
    ApplyPlus(c, x, dx);
  }

  /** The same for a whole update, from the filter before it. */
  lemma UpdateResidual(lib: Library, s: Settings, f: Filter, i: Input)
    requires Fits(f, s.contacts) && |i.planted| == s.contacts
    requires var x := Predicted(f.x, WorldAcceleration(lib, i), s.contacts, s.dt);
             Solves(lib, InnovationCovariance(PriorCovariance(f.p, s, i.planted), s, i.planted),
                    Minus(Measured(lib, s, i), Apply(Measurement(s.contacts), x)))
    ensures var x := Predicted(f.x, WorldAcceleration(lib, i), s.contacts, s.dt);
            var sm := InnovationCovariance(PriorCovariance(f.p, s, i.planted), s, i.planted);
            var e := Minus(Measured(lib, s, i), Apply(Measurement(s.contacts), x));
            && Minus(Measured(lib, s, i), Apply(Measurement(s.contacts), Update(lib, s, f, i).x)) ==
               Apply(Diagonal(SensorNoise(s, i.planted)), lib.solve(sm, e))
            && Nis(lib, s, f, i) == Dot(Apply(sm, lib.solve(sm, e)), lib.solve(sm, e))
  {
    var x := Predicted(f.x, WorldAcceleration(lib, i), s.contacts, s.dt);
    ResidualIsNoise(lib, s, x, PriorCovariance(f.p, s, i.planted), i.planted, Measured(lib, s, i));
  }

  // ---- how sure the filter is ----

  /** A linear solve that is the inverse of `sm`. */
  ghost predicate Inverts(lib: Library, sm: Matrix, o: nat)
    requires IsMatrix(sm, o, o)
  {
    forall v: Vector :: |v| == o ==> InvertsAt(lib, sm, v)
  }

  predicate InvertsAt(lib: Library, sm: Matrix, v: Vector)
    requires IsMatrix(sm, |v|, |v|)
  {
    Apply(sm, lib.solve(sm, v)) == v && lib.solve(sm, Apply(sm, v)) == v
  }

  /** The solved columns of a matrix, applied to a vector, are the solution for what the matrix makes of it. */
  lemma SolvedColumnsApply(lib: Library, sm: Matrix, c: Matrix, o: nat, v: Vector)
    requires IsMatrix(sm, o, o) && IsMatrix(c, o, |v|) && Inverts(lib, sm, o)
    ensures Apply(SolvedColumns(lib, sm, c, o, |v|), v) == lib.solve(sm, Apply(c, v))
  {
    var z := SolvedColumns(lib, sm, c, o, |v|);
    forall j | 0 <= j < |v|
      ensures Apply(sm, Column(z, o, |v|, j)) == Column(c, o, |v|, j)
    {
      assert Column(z, o, |v|, j) == SolvedColumn(lib, sm, c, o, |v|, j);
      assert InvertsAt(lib, sm, Column(c, o, |v|, j));
    }
    ColumnsAre(sm, z, c, o, |v|);
    ApplyMul(sm, z, o, o, v);
    assert InvertsAt(lib, sm, Apply(z, v));
  }

  lemma ColumnsAre(a: Matrix, z: Matrix, c: Matrix, o: nat, m: nat)
    requires IsMatrix(a, o, o) && IsMatrix(z, o, m) && IsMatrix(c, o, m)
    requires forall j :: 0 <= j < m ==> Apply(a, Column(z, o, m, j)) == Column(c, o, m, j)
    ensures Mul(a, z, o, o, m) == c
  {
    forall i, j | 0 <= i < o && 0 <= j < m
      ensures Dot(a[i], Column(z, o, m, j)) == c[i][j]
    {
      assert Apply(a, Column(z, o, m, j))[i] == Column(c, o, m, j)[i];
    }
    SameMatrix(Mul(a, z, o, o, m), c, o, m);
  }

  /** Solving for what is left of `w` without the noise leaves `w` less the solution for the noise. */
  lemma SolveDifference(lib: Library, sm: Matrix, w: Vector, noise: Vector)
    requires |w| == |noise| && IsMatrix(sm, |w|, |w|) && Inverts(lib, sm, |w|)
    ensures lib.solve(sm, Minus(Apply(sm, w), noise)) == Minus(w, lib.solve(sm, noise))
  {
    var q := lib.solve(sm, noise);
    assert InvertsAt(lib, sm, noise) && InvertsAt(lib, sm, Minus(w, q));
    ApplyMinus(sm, w, q);
  }

  /** Of what the prior covariance makes of `v`, the correction takes away what the measurement sees. */
  function Remaining(lib: Library, pm: Matrix, sm: Matrix, n: nat, v: Vector): (w: Vector)
    requires IsMatrix(pm, StateSize(n), StateSize(n)) && |v| == StateSize(n)
    ensures |w| == StateSize(n)
  {
    var m, o := StateSize(n), ObserveSize(n);
    var c := Measurement(n);
    Minus(Apply(pm, v), Apply(Mul(pm, Transpose(c, o, m), m, m, o), lib.solve(sm, Apply(c, Apply(pm, v)))))
  }

  /** The posterior covariance before it is made symmetric. */
  function Raw(lib: Library, pm: Matrix, sm: Matrix, n: nat): (p: Matrix)
    requires IsMatrix(pm, StateSize(n), StateSize(n))
    ensures IsMatrix(p, StateSize(n), StateSize(n))
  {
    var m, o := StateSize(n), ObserveSize(n);
    var c := Measurement(n);
    var gain := Mul(Mul(pm, Transpose(c, o, m), m, m, o), SolvedColumns(lib, sm, c, o, m), m, o, m);
    Mul(MatrixMinus(Diagonal(seq(m, _ => 1.0)), gain, m, m), pm, m, m, m)
  }

  lemma RawApplies(lib: Library, pm: Matrix, sm: Matrix, n: nat, v: Vector)
    requires IsMatrix(pm, StateSize(n), StateSize(n)) && IsMatrix(sm, ObserveSize(n), ObserveSize(n))
    requires |v| == StateSize(n) && Inverts(lib, sm, ObserveSize(n))
    ensures Apply(Raw(lib, pm, sm, n), v) == Remaining(lib, pm, sm, n, v)
  {
    var m, o := StateSize(n), ObserveSize(n);
    var c := Measurement(n);
    var k, z, u := Mul(pm, Transpose(c, o, m), m, m, o), SolvedColumns(lib, sm, c, o, m), Apply(pm, v);
    ApplyMul(MatrixMinus(Diagonal(seq(m, _ => 1.0)), Mul(k, z, m, o, m), m, m), pm, m, m, v);
    ApplyMatrixMinus(Diagonal(seq(m, _ => 1.0)), Mul(k, z, m, o, m), m, u);
    IdentityApplies(u);
    ApplyMul(k, z, m, o, u);
    SolvedColumnsApply(lib, sm, c, o, u);
  }

  /** P⁺ Cᵀ = P⁻ Cᵀ S⁻¹ R, applied to any `w`, before P⁺ is made symmetric. */
  lemma CovarianceLaw(lib: Library, s: Settings, pm: Matrix, planted: seq<bool>, w: Vector)
    requires |planted| == s.contacts && IsMatrix(pm, StateSize(s.contacts), StateSize(s.contacts))
    requires |w| == ObserveSize(s.contacts)
    requires Inverts(lib, InnovationCovariance(pm, s, planted), ObserveSize(s.contacts))
    ensures var sm := InnovationCovariance(pm, s, planted);
            var m, o := StateSize(s.contacts), ObserveSize(s.contacts);
            var ct := Transpose(Measurement(s.contacts), o, m);
            Apply(Raw(lib, pm, sm, s.contacts), Apply(ct, w)) ==
            Apply(Mul(pm, ct, m, m, o), lib.solve(sm, Apply(Diagonal(SensorNoise(s, planted)), w)))
  {
    var m, o := StateSize(s.contacts), ObserveSize(s.contacts);
    var c, sm := Measurement(s.contacts), InnovationCovariance(pm, s, planted);
    var ct, noise := Transpose(c, o, m), Apply(Diagonal(SensorNoise(s, planted)), w);
    var k, q := Mul(pm, ct, m, m, o), lib.solve(sm, noise);
    RawApplies(lib, pm, sm, s.contacts, Apply(ct, w));
    ApplyMul(pm, ct, m, m, w);
    assert Apply(pm, Apply(ct, w)) == Apply(k, w);
    SplitCovariance(pm, s, planted, w);
    assert Apply(c, Apply(k, w)) == Minus(Apply(sm, w), noise);
    SolveDifference(lib, sm, w, noise);
    RestIsLeft(k, w, q);
  }

  lemma RestIsLeft(k: Matrix, w: Vector, q: Vector)
    requires |w| == |q| && IsMatrix(k, |k|, |w|)
    ensures Minus(Apply(k, w), Apply(k, Minus(w, q))) == Apply(k, q)
  {
    ApplyMinus(k, w, q);
  }

  /** Making a matrix symmetric changes no square. */
  lemma SymmetricSquares(p: Matrix, m: nat, v: Vector)
    requires IsMatrix(p, m, m) && |v| == m
    ensures Dot(v, Apply(Symmetric(p, m), v)) == Dot(v, Apply(p, v))
  {
    var t := Transpose(p, m, m);
    var sum := MatrixPlus(p, t, m, m);
    ApplyMatrixPlus(p, t, m, v);
    HalfApplies(sum, m, v);
    Adjoint(p, m, v, v);
    DotToCommutes(Apply(t, v), v, m);
    DotToPlus(v, Apply(p, v), Apply(t, v), m);
    DotToCommutes(v, Scaled(0.5, Apply(sum, v)), m);
    DotToScaled(0.5, Apply(sum, v), v, m);
    DotToCommutes(Apply(sum, v), v, m);
  }

  lemma HalfApplies(a: Matrix, m: nat, v: Vector)
    requires IsMatrix(a, m, m) && |v| == m
    ensures Apply(MatrixScaled(0.5, a, m, m), v) == Scaled(0.5, Apply(a, v))
  {
    forall i | 0 <= i < m
      ensures Dot(Scaled(0.5, a[i]), v) == 0.5 * Dot(a[i], v)
    {
      DotToScaled(0.5, a[i], v, m);
    }
  }

  /**
   In every direction the variance after the correction is the one before it, less what the
   innovation along that direction, weighed by the inverse of its covariance, accounts for.
   */
  lemma VarianceFalls(lib: Library, pm: Matrix, sm: Matrix, n: nat, v: Vector)
    requires IsMatrix(pm, StateSize(n), StateSize(n)) && IsMatrix(sm, ObserveSize(n), ObserveSize(n))
    requires |v| == StateSize(n) && Inverts(lib, sm, ObserveSize(n))
    ensures var c := Measurement(n);
            var back := Apply(c, Apply(Transpose(pm, StateSize(n), StateSize(n)), v));
            Dot(v, Apply(Posterior(lib, pm, sm, n), v)) ==
            Dot(v, Apply(pm, v)) - Dot(back, lib.solve(sm, Apply(c, Apply(pm, v))))
  {
    var m, o := StateSize(n), ObserveSize(n);
    var c := Measurement(n);
    var ct, z := Transpose(c, o, m), lib.solve(sm, Apply(c, Apply(pm, v)));
    var k, back := Mul(pm, ct, m, m, o), Apply(Transpose(pm, m, m), v);
    assert Posterior(lib, pm, sm, n) == Symmetric(Raw(lib, pm, sm, n), m);
    SymmetricSquares(Raw(lib, pm, sm, n), m, v);
    RawApplies(lib, pm, sm, n, v);
    DotToMinus(v, Apply(pm, v), Apply(k, z), m);
    ApplyMul(pm, ct, m, m, z);
    Adjoint(pm, m, v, Apply(ct, z));
    Adjoint(c, o, z, back);
    DotToCommutes(back, Apply(ct, z), m);
    DotToCommutes(z, Apply(c, back), o);
  }

  /** In every direction the predicted variance is that along the direction carried back, plus the process noise. */
  lemma PriorVariance(p: Matrix, s: Settings, planted: seq<bool>, v: Vector)
    requires |planted| == s.contacts && IsMatrix(p, StateSize(s.contacts), StateSize(s.contacts))
    requires |v| == StateSize(s.contacts)
    ensures var m := StateSize(s.contacts);
            var u := Apply(Transpose(Transition(s.contacts, s.dt), m, m), v);
            Dot(v, Apply(PriorCovariance(p, s, planted), v)) ==
            Dot(u, Apply(p, u)) + Dot(v, Apply(Diagonal(ProcessNoise(s, planted)), v))
  {
    var m, a := StateSize(s.contacts), Transition(s.contacts, s.dt);
    var at, q := Transpose(a, m, m), Diagonal(ProcessNoise(s, planted));
    Congruence(a, p, m, m, v);
    ApplyMatrixPlus(Mul(Mul(a, p, m, m, m), at, m, m, m), q, m, v);
    DotToPlus(v, Apply(Mul(Mul(a, p, m, m, m), at, m, m, m), v), Apply(q, v), m);
  }

  /** And that of the innovation is the predicted one along what is measured, plus the sensor noise. */
  lemma InnovationVariance(pm: Matrix, s: Settings, planted: seq<bool>, w: Vector)
    requires |planted| == s.contacts && IsMatrix(pm, StateSize(s.contacts), StateSize(s.contacts))
    requires |w| == ObserveSize(s.contacts)
    ensures var u := Apply(Transpose(Measurement(s.contacts), ObserveSize(s.contacts), StateSize(s.contacts)), w);
            Dot(w, Apply(InnovationCovariance(pm, s, planted), w)) ==
            Dot(u, Apply(pm, u)) + Dot(w, Apply(Diagonal(SensorNoise(s, planted)), w))
  {
    var m, o, c := StateSize(s.contacts), ObserveSize(s.contacts), Measurement(s.contacts);
    var ct, r := Transpose(c, o, m), Diagonal(SensorNoise(s, planted));
    Congruence(c, pm, o, m, w);
    ApplyMatrixPlus(Mul(Mul(c, pm, o, m, m), ct, o, m, o), r, o, w);
    DotToPlus(w, Apply(Mul(Mul(c, pm, o, m, m), ct, o, m, o), w), Apply(r, w), o);
  }

  lemma Congruence(a: Matrix, p: Matrix, rows: nat, m: nat, v: Vector)
    requires IsMatrix(a, rows, m) && IsMatrix(p, m, m) && |v| == rows
    ensures var u := Apply(Transpose(a, rows, m), v);
            Dot(v, Apply(Mul(Mul(a, p, rows, m, m), Transpose(a, rows, m), rows, m, rows), v)) == Dot(u, Apply(p, u))
  {
    var u := Apply(Transpose(a, rows, m), v);
    ApplyMul(Mul(a, p, rows, m, m), Transpose(a, rows, m), rows, m, v);
    ApplyMul(a, p, rows, m, u);
    Adjoint(a, rows, v, Apply(p, u));
  }

  // ---- what there is to correct ----

  /**
   The state agrees with the kinematics: every contact point lies where the foot is seen from the
   base, less the radius of the foot, on the ground at height zero, and does not move.
   */
  predicate Agrees(lib: Library, s: Settings, i: Input, x: Vector)
    requires |x| == StateSize(s.contacts)
  {
    forall j: nat :: j < s.contacts ==> ContactAgrees(lib, s, i, x, j)
  }

  predicate ContactAgrees(lib: Library, s: Settings, i: Input, x: Vector, j: nat)
    requires |x| == StateSize(s.contacts) && j < s.contacts
  {
    Matches(x, 6 + 3 * j, lib.footPosition(i.orientation, i.joints, j),
            lib.footVelocity(i.orientation, i.angularVelocity, i.joints, i.jointVelocities, j), s.footRadius)
  }

  predicate Matches(x: Vector, k: nat, foot: V3, slip: V3, radius: real)
    requires 6 <= k && k + 3 <= |x|
  {
    && x[k] == x[0] + foot[0] && x[k + 1] == x[1] + foot[1] && x[k + 2] == x[2] + foot[2] - radius
    && x[k + 2] == 0.0
    && x[3] + slip[0] == 0.0 && x[4] + slip[1] == 0.0 && x[5] + slip[2] == 0.0
  }

  /** What is predicted and what is measured of contact `j` agree: position, velocity and height. */
  predicate RowsAgree(y: Vector, m: Vector, n: nat, j: nat)
    requires |y| == |m| == ObserveSize(n) && j < n
  {
    && y[3 * j] == m[3 * j] && y[3 * j + 1] == m[3 * j + 1] && y[3 * j + 2] == m[3 * j + 2]
    && y[3 * (n + j)] == m[3 * (n + j)] && y[3 * (n + j) + 1] == m[3 * (n + j) + 1]
    && y[3 * (n + j) + 2] == m[3 * (n + j) + 2]
    && y[6 * n + j] == m[6 * n + j]
  }

  lemma RowOf(n: nat, r: nat) returns (j: nat)
    requires r < ObserveSize(n)
    ensures j < n
    ensures r == 3 * j || r == 3 * j + 1 || r == 3 * j + 2
            || r == 3 * (n + j) || r == 3 * (n + j) + 1 || r == 3 * (n + j) + 2 || r == 6 * n + j
  {
    j := if r < 3 * n then r / 3 else if r < 6 * n then (r - 3 * n) / 3 else r - 6 * n;
  }

  lemma SameRows(y: Vector, m: Vector, n: nat)
    requires |y| == |m| == ObserveSize(n)
    ensures y == m <==> forall j: nat :: j < n ==> RowsAgree(y, m, n, j)
  {
    if forall j: nat :: j < n ==> RowsAgree(y, m, n, j) {
      forall r: nat | r < ObserveSize(n)
        ensures y[r] == m[r]
      {
        var j := RowOf(n, r);
        assert RowsAgree(y, m, n, j);
      }
    }
  }

  lemma PositionRow(lib: Library, s: Settings, i: Input, j: nat, k: nat)
    requires j < s.contacts && k < 3
    ensures Measured(lib, s, i)[3 * j + k] ==
            (if k == 2 then s.footRadius else 0.0) - lib.footPosition(i.orientation, i.joints, j)[k]
  {
    assert (3 * j + k) / 3 == j && (3 * j + k) % 3 == k;
    assert Measured(lib, s, i)[3 * j + k] == PositionPart(lib, s, i)[3 * j + k];
  }

  lemma VelocityRow(lib: Library, s: Settings, i: Input, j: nat, k: nat)
    requires j < s.contacts && k < 3
    ensures Measured(lib, s, i)[3 * (s.contacts + j) + k] ==
            -lib.footVelocity(i.orientation, i.angularVelocity, i.joints, i.jointVelocities, j)[k]
  {
    assert (3 * j + k) / 3 == j && (3 * j + k) % 3 == k;
    assert Measured(lib, s, i)[3 * (s.contacts + j) + k] == VelocityPart(lib, s, i)[3 * j + k];
  }

  lemma PredictedRows(n: nat, x: Vector, j: nat, k: nat)
    requires |x| == StateSize(n) && j < n && k < 3
    ensures var y := Apply(Measurement(n), x);
            && y[3 * j + k] == x[k] - x[6 + 3 * j + k]
            && y[3 * (n + j) + k] == x[3 + k]
            && y[6 * n + j] == x[6 + 3 * j + 2]
  {
    MeasurementPerContact(n, x);
    assert (3 * j + k) % 3 == k && (3 * (n + j) + k) % 3 == k;
  }

  /** Row `r` of the one against row `r` of the other, as the kinematics have them. */
  predicate RowIs(y: Vector, m: Vector, r: nat, predicted: real, measured: real)
    requires r < |y| == |m|
  {
    y[r] == predicted && m[r] == measured
  }

  /** The rows of contact `j` along axis `k`, and the row of its height. */
  predicate RowsAre(y: Vector, m: Vector, n: nat, j: nat, x: Vector, foot: V3, slip: V3, radius: real, k: nat)
    requires |y| == |m| == ObserveSize(n) && j < n && |x| == StateSize(n) && k < 3
  {
    && RowIs(y, m, 3 * j + k, x[k] - x[6 + 3 * j + k], (if k == 2 then radius else 0.0) - foot[k])
    && RowIs(y, m, 3 * (n + j) + k, x[3 + k], -slip[k])
    && RowIs(y, m, 6 * n + j, x[6 + 3 * j + 2], 0.0)
  }

  lemma RowsMatch(y: Vector, m: Vector, n: nat, j: nat, x: Vector, foot: V3, slip: V3, radius: real)
    requires |y| == |m| == ObserveSize(n) && j < n && |x| == StateSize(n)
    requires RowsAre(y, m, n, j, x, foot, slip, radius, 0) && RowsAre(y, m, n, j, x, foot, slip, radius, 1)
    requires RowsAre(y, m, n, j, x, foot, slip, radius, 2)
    ensures RowsAgree(y, m, n, j) <==> Matches(x, 6 + 3 * j, foot, slip, radius)
  {
  }

  lemma ContactRow(lib: Library, s: Settings, i: Input, x: Vector, j: nat, k: nat)
    requires |x| == StateSize(s.contacts) && j < s.contacts && k < 3
    ensures RowsAre(Apply(Measurement(s.contacts), x), Measured(lib, s, i), s.contacts, j, x,
                    lib.footPosition(i.orientation, i.joints, j),
                    lib.footVelocity(i.orientation, i.angularVelocity, i.joints, i.jointVelocities, j), s.footRadius, k)
  {
    PositionRow(lib, s, i, j, k);
    VelocityRow(lib, s, i, j, k);
    PredictedRows(s.contacts, x, j, k);
  }

  lemma RowsOfContact(lib: Library, s: Settings, i: Input, x: Vector, j: nat)
    requires |x| == StateSize(s.contacts) && j < s.contacts
    ensures RowsAgree(Apply(Measurement(s.contacts), x), Measured(lib, s, i), s.contacts, j)
       <==> ContactAgrees(lib, s, i, x, j)
  {
    ContactRow(lib, s, i, x, j, 0);
    ContactRow(lib, s, i, x, j, 1);
    ContactRow(lib, s, i, x, j, 2);
    RowsMatch(Apply(Measurement(s.contacts), x), Measured(lib, s, i), s.contacts, j, x,
              lib.footPosition(i.orientation, i.joints, j),
              lib.footVelocity(i.orientation, i.angularVelocity, i.joints, i.jointVelocities, j), s.footRadius);
  }

  /** Such a state leaves nothing to correct, and no other does. */
  lemma NothingToCorrectExactlyWhenItAgrees(lib: Library, s: Settings, i: Input, x: Vector)
    requires |x| == StateSize(s.contacts)
    ensures Apply(Measurement(s.contacts), x) == Measured(lib, s, i) <==> Agrees(lib, s, i, x)
  {
    SameRows(Apply(Measurement(s.contacts), x), Measured(lib, s, i), s.contacts);
    forall j: nat | j < s.contacts
      ensures RowsAgree(Apply(Measurement(s.contacts), x), Measured(lib, s, i), s.contacts, j)
         <==> ContactAgrees(lib, s, i, x, j)
    {
      RowsOfContact(lib, s, i, x, j);
    }
  }

  /** An accelerometer that reads nothing but gravity predicts no change of velocity. */
  lemma AtRestStaysAtRest(lib: Library, s: Settings, i: Input, x: Vector)
    requires |x| == StateSize(s.contacts) && lib.rotate(i.orientation, i.acceleration) == [0.0, 0.0, 9.81]
    ensures var y := Predicted(x, WorldAcceleration(lib, i), s.contacts, s.dt);
            && (forall k :: 0 <= k < 3 ==> y[k] == x[k] + s.dt * x[k + 3])
            && (forall k :: 3 <= k < StateSize(s.contacts) ==> y[k] == x[k])
  {
    Unaccelerated(s.contacts, s.dt, x, WorldAcceleration(lib, i));
  }

  lemma Unaccelerated(n: nat, dt: real, x: Vector, a: V3)
    requires |x| == StateSize(n) && forall k :: 0 <= k < 3 ==> a[k] == 0.0
    ensures var y := Predicted(x, a, n, dt);
            && (forall k :: 0 <= k < 3 ==> y[k] == x[k] + dt * x[k + 3])
            && (forall k :: 3 <= k < StateSize(n) ==> y[k] == x[k])
  {
    PredictionPerBlock(n, dt, x, a);
    forall k | 0 <= k < 3
      ensures 0.5 * dt * dt * a[k] == 0.0 && dt * a[k] == 0.0
    {
    }
  }

  /** The noise of a contact is the nominal one while it is planted, and scaled by the swing factor in the air. */
  lemma NoiseFollowsTheContact(s: Settings, planted: seq<bool>, j: nat, k: nat)
    requires |planted| == s.contacts && j < s.contacts && k < 3
    ensures var scale := if planted[j] then 1.0 else s.swing;
            && ProcessNoise(s, planted)[6 + 3 * j + k] == s.dt * s.noise.foot * scale
            && SensorNoise(s, planted)[3 * j + k] == s.noise.sensorPosition * scale
            && SensorNoise(s, planted)[3 * (s.contacts + j) + k] == s.noise.sensorVelocity * scale
            && SensorNoise(s, planted)[6 * s.contacts + j] == s.noise.sensorHeight * scale
  {
    assert (3 * j + k) / 3 == j && (3 * (s.contacts + j) + k - 3 * s.contacts) / 3 == j;
  }

  /** The base has the nominal noise: a twentieth of the sampling time, and of that times 9.81 for the velocity. */
  lemma BaseNoise(s: Settings, planted: seq<bool>, k: nat)
    requires |planted| == s.contacts && k < 6
    ensures 20.0 * ProcessNoise(s, planted)[k] ==
            s.dt * if k < 3 then s.noise.position else 9.81 * s.noise.velocity
  {
    var q := ProcessNoise(s, planted)[k];
    if k < 3 {
      Twentieth(s.dt, s.noise.position, q);
    } else {
      Twentieth(s.dt * 9.81, s.noise.velocity, q);
      assert s.dt * 9.81 * s.noise.velocity == s.dt * (9.81 * s.noise.velocity);
    }
  }

  lemma Twentieth(a: real, b: real, q: real)
    requires q == a / 20.0 * b
    ensures 20.0 * q == a * b
  {
    var c := a / 20.0;
    assert 20.0 * c == a;
    assert 20.0 * (c * b) == (20.0 * c) * b;
  }

  /** A seeded state has the base where it is told, at rest, and every contact where the foot is seen from it. */
  lemma SeedStandsStill(lib: Library, n: nat, base: V3, orientation: Quaternion, joints: seq<real>, j: nat, k: nat)
    requires j < n && k < 3
    ensures var x := Seeded(lib, n, base, orientation, joints);
            && x[k] == base[k] && x[3 + k] == 0.0
            && x[6 + 3 * j + k] - x[k] == lib.footPosition(orientation, joints, j)[k]
  {
    assert (3 * j + k) / 3 == j && (3 * j + k) % 3 == k;
  }

  /** The statistic is reported as it is and as a share of its dimension. */
  lemma ReportIsPerDimension(nis: real, dimension: nat)
    requires dimension > 0
    ensures var d := Report(nis, dimension);
            d.corrected && d.nis == nis && d.correctionDim == dimension && d.nisPerDof * (dimension as real) == nis
  {
  }
}
