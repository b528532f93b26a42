/**
 Spreading a contact wrench over the corners of a contact polygon: the forces reproduce the
 wrench and are the smallest that do, in the sum of their squared norms.
 */
module WrenchMapper {
  import opened Matrices

  datatype V3 = V3(x: real, y: real, z: real)

  /** A corner of the polygon, in the plane of the foot. */
  datatype Corner = Corner(x: real, y: real)

  datatype Wrench = Wrench(force: V3, moment: V3)

  // ---- mechanics ----

  function Add(a: V3, b: V3): V3 { V3(a.x + b.x, a.y + b.y, a.z + b.z) }

  function Cross(a: V3, b: V3): V3 {
    V3(a.y * b.z - a.z * b.y, a.z * b.x - a.x * b.z, a.x * b.y - a.y * b.x)
  }

  function Inner(a: V3, b: V3): real { a.x * b.x + a.y * b.y + a.z * b.z }

  function Arm(c: Corner): V3 { V3(c.x, c.y, 0.0) }

  /** Force and moment of the forces at the first `n` corners. */
  function WrenchTo(corners: seq<Corner>, forces: seq<V3>, n: nat): Wrench
    requires n <= |corners| == |forces|
  {
    if n == 0 then Wrench(V3(0.0, 0.0, 0.0), V3(0.0, 0.0, 0.0))
    else
      var before := WrenchTo(corners, forces, n - 1);
      Wrench(Add(before.force, forces[n - 1]), Add(before.moment, Cross(Arm(corners[n - 1]), forces[n - 1])))
  }

  function WrenchOf(corners: seq<Corner>, forces: seq<V3>): Wrench
    requires |corners| == |forces|
  {
    WrenchTo(corners, forces, |forces|)
  }

  function SquaredNormsTo(forces: seq<V3>, n: nat): real
    requires n <= |forces|
  {
    if n == 0 then 0.0 else SquaredNormsTo(forces, n - 1) + Inner(forces[n - 1], forces[n - 1])
  }

  // ---- the matrix ----

  /** Entry (r, m) of the cross-product matrix of a corner's arm. */
  function CrossEntry(c: Corner, r: nat, m: nat): real {
    if r == 0 && m == 2 then c.y
    else if r == 1 && m == 2 then -c.x
    else if r == 2 && m == 0 then -c.y
    else if r == 2 && m == 1 then c.x
    else 0.0
  }

  /** Three columns per corner: the identity over the cross-product matrix. */
  function MapEntry(corners: seq<Corner>, r: nat, k: nat): real
    requires k < 3 * |corners|
  {
    if r < 3 then (if k % 3 == r then 1.0 else 0.0) else CrossEntry(corners[k / 3], r - 3, k % 3)
  }

  function Map(corners: seq<Corner>): (a: Matrix)
    ensures IsMatrix(a, 6, 3 * |corners|)
  {
    seq(6, r requires 0 <= r < 6 =>
      seq(3 * |corners|, k requires 0 <= k < 3 * |corners| => MapEntry(corners, r, k)))
  }

  function Component(v: V3, m: nat): real {
    if m == 0 then v.x else if m == 1 then v.y else v.z
  }

  function WrenchComponent(w: Wrench, r: nat): real {
    if r < 3 then Component(w.force, r) else Component(w.moment, r - 3)
  }

  function WrenchVector(w: Wrench): (v: Vector)
    ensures |v| == 6
  {
    seq(6, r requires 0 <= r < 6 => WrenchComponent(w, r))
  }

  function Flat(forces: seq<V3>): (v: Vector)
    ensures |v| == 3 * |forces|
  {
    seq(3 * |forces|, k requires 0 <= k < 3 * |forces| => Component(forces[k / 3], k % 3))
  }

  lemma FlatAt(forces: seq<V3>, i: nat)
    requires i < |forces|
    ensures var v := Flat(forces); V3(v[3 * i], v[3 * i + 1], v[3 * i + 2]) == forces[i]
  {
  }

  lemma MapAt(corners: seq<Corner>, r: nat, i: nat)
    requires i < |corners| && r < 6
    ensures var row := Map(corners)[r];
            && row[3 * i] == (if r < 3 then (if r == 0 then 1.0 else 0.0) else CrossEntry(corners[i], r - 3, 0))
            && row[3 * i + 1] == (if r < 3 then (if r == 1 then 1.0 else 0.0) else CrossEntry(corners[i], r - 3, 1))
            && row[3 * i + 2] == (if r < 3 then (if r == 2 then 1.0 else 0.0) else CrossEntry(corners[i], r - 3, 2))
  {
  }

  lemma ThreeMore(a: Vector, b: Vector, n: nat)
    requires n + 3 <= |a| && n + 3 <= |b|
    ensures DotTo(a, b, n + 3) == DotTo(a, b, n) + (a[n] * b[n] + a[n + 1] * b[n + 1] + a[n + 2] * b[n + 2])
  {
    assert DotTo(a, b, n + 2) == DotTo(a, b, n + 1) + a[n + 1] * b[n + 1];
  }

  function Share(c: Corner, f: V3): Wrench {
    Wrench(f, Cross(Arm(c), f))
  }

  /** One corner's columns times its force are its share of the wrench. */
  lemma CornerShare(c: Corner, f: V3, r: nat, a: real, b: real, d: real)
    requires r < 6
    requires a == if r < 3 then (if r == 0 then 1.0 else 0.0) else CrossEntry(c, r - 3, 0)
    requires b == if r < 3 then (if r == 1 then 1.0 else 0.0) else CrossEntry(c, r - 3, 1)
    requires d == if r < 3 then (if r == 2 then 1.0 else 0.0) else CrossEntry(c, r - 3, 2)
    ensures a * f.x + b * f.y + d * f.z == WrenchComponent(Share(c, f), r)
  {
    if r < 3 {
    } else if r == 3 {
    } else if r == 4 {
    } else {
    }
  }

  lemma WrenchAdds(corners: seq<Corner>, forces: seq<V3>, r: nat, n: nat)
    requires |corners| == |forces| && r < 6 && 0 < n <= |forces|
    ensures WrenchComponent(WrenchTo(corners, forces, n), r)
         == WrenchComponent(WrenchTo(corners, forces, n - 1), r) +
            WrenchComponent(Share(corners[n - 1], forces[n - 1]), r)
  {
  }

  lemma ThreeMoreAre(a: Vector, b: Vector, n: nat, x: real, y: real, z: real, f: V3, sum: real)
    requires n + 3 <= |a| && n + 3 <= |b|
    requires a[n] == x && a[n + 1] == y && a[n + 2] == z && b[n] == f.x && b[n + 1] == f.y && b[n + 2] == f.z
    requires sum == x * f.x + y * f.y + z * f.z
    ensures DotTo(a, b, n + 3) == DotTo(a, b, n) + sum
  {
    ThreeMore(a, b, n);
  }

  /** Three more columns of a row, as the entries `x`, `y`, `z` of corner `c`, add its share. */
  lemma BlockAdds(row: Vector, v: Vector, k: nat, c: Corner, f: V3, r: nat, x: real, y: real, z: real)
    requires r < 6 && k + 3 <= |row| && k + 3 <= |v|
    requires row[k] == x && row[k + 1] == y && row[k + 2] == z && v[k] == f.x && v[k + 1] == f.y && v[k + 2] == f.z
    requires x == if r < 3 then (if r == 0 then 1.0 else 0.0) else CrossEntry(c, r - 3, 0)
    requires y == if r < 3 then (if r == 1 then 1.0 else 0.0) else CrossEntry(c, r - 3, 1)
    requires z == if r < 3 then (if r == 2 then 1.0 else 0.0) else CrossEntry(c, r - 3, 2)
    ensures DotTo(row, v, k + 3) == DotTo(row, v, k) + WrenchComponent(Share(c, f), r)
  {
    CornerShare(c, f, r, x, y, z);
    ThreeMoreAre(row, v, k, x, y, z, f, x * f.x + y * f.y + z * f.z);
  }

  lemma ColumnsAdd(corners: seq<Corner>, forces: seq<V3>, r: nat, i: nat)
    requires |corners| == |forces| && r < 6 && i < |forces|
    ensures DotTo(Map(corners)[r], Flat(forces), 3 * i + 3)
         == DotTo(Map(corners)[r], Flat(forces), 3 * i) + WrenchComponent(Share(corners[i], forces[i]), r)
  {
    var row, v, k := Map(corners)[r], Flat(forces), 3 * i;
    MapAt(corners, r, i);
    FlatAt(forces, i);
    BlockAdds(row, v, k, corners[i], forces[i], r, row[k], row[k + 1], row[k + 2]);
  }

  lemma {:induction false} RowIsWrench(corners: seq<Corner>, forces: seq<V3>, r: nat, n: nat)
    requires |corners| == |forces| && r < 6 && n <= |forces|
    ensures DotTo(Map(corners)[r], Flat(forces), 3 * n) == WrenchComponent(WrenchTo(corners, forces, n), r)
  {
    if n > 0 {
      RowIsWrench(corners, forces, r, n - 1);
      ColumnsAdd(corners, forces, r, n - 1);
      WrenchAdds(corners, forces, r, n);
    }
  }

  /** The matrix does what mechanics says. */
  lemma MapIsWrench(corners: seq<Corner>, forces: seq<V3>)
    requires |corners| == |forces|
    ensures Apply(Map(corners), Flat(forces)) == WrenchVector(WrenchOf(corners, forces))
  {
    forall r | 0 <= r < 6
      ensures Dot(Map(corners)[r], Flat(forces)) == WrenchComponent(WrenchOf(corners, forces), r)
    {
      RowIsWrench(corners, forces, r, |forces|);
    }
  }

  lemma {:induction false} FlatSquare(forces: seq<V3>, n: nat)
    requires n <= |forces|
    ensures DotTo(Flat(forces), Flat(forces), 3 * n) == SquaredNormsTo(forces, n)
  {
    if n > 0 {
      FlatSquare(forces, n - 1);
      ThreeMore(Flat(forces), Flat(forces), 3 * (n - 1));
      FlatAt(forces, n - 1);
    }
  }

  // ---- the right inverse ----

  function Square6(corners: seq<Corner>): (m: Matrix)
    ensures IsMatrix(m, 6, 6)
  {
    Mul(Map(corners), Transpose(Map(corners), 6, 3 * |corners|), 6, 3 * |corners|, 6)
  }

  /** `inverse` is what the library returned for A Aᵀ; it is its inverse when there is one. */
  predicate Inverts(inverse: Matrix, corners: seq<Corner>) {
    IsMatrix(inverse, 6, 6) && Mul(Square6(corners), inverse, 6, 6, 6) == Diagonal(seq(6, _ => 1.0))
  }

  function RightInverse(corners: seq<Corner>, inverse: Matrix): (m: Matrix)
    requires IsMatrix(inverse, 6, 6)
    ensures IsMatrix(m, 3 * |corners|, 6)
  {
    Mul(Transpose(Map(corners), 6, 3 * |corners|), inverse, 3 * |corners|, 6, 6)
  }

  /** The spread forces are the transpose applied to some u. */
  lemma SpreadIsTransposed(corners: seq<Corner>, inverse: Matrix, w: Vector)
    requires IsMatrix(inverse, 6, 6) && |w| == 6
    ensures Apply(RightInverse(corners, inverse), w)
         == Apply(Transpose(Map(corners), 6, 3 * |corners|), Apply(inverse, w))
  {
    ApplyMul(Transpose(Map(corners), 6, 3 * |corners|), inverse, 3 * |corners|, 6, w);
  }

  lemma SpreadReproduces(corners: seq<Corner>, inverse: Matrix, w: Vector)
    requires Inverts(inverse, corners) && |w| == 6
    ensures Apply(Map(corners), Apply(RightInverse(corners, inverse), w)) == w
  {
    var a, t := Map(corners), Transpose(Map(corners), 6, 3 * |corners|);
    var u := Apply(inverse, w);
    SpreadIsTransposed(corners, inverse, w);
    ApplyMul(a, t, 6, 3 * |corners|, u);
    ApplyMul(Square6(corners), inverse, 6, 6, w);
    IdentityApplies(w);
  }

  /** Anything with the same wrench is the spread forces plus something at right angles to them. */
  lemma RestIsOrthogonal(corners: seq<Corner>, inverse: Matrix, w: Vector, f: Vector)
    requires Inverts(inverse, corners) && |w| == 6 && |f| == 3 * |corners|
    requires Apply(Map(corners), f) == w
    ensures var s := Apply(RightInverse(corners, inverse), w);
            Dot(s, Minus(f, s)) == 0.0
  {
    var a, u := Map(corners), Apply(inverse, w);
    var s := Apply(RightInverse(corners, inverse), w);
    SpreadReproduces(corners, inverse, w);
    SpreadIsTransposed(corners, inverse, w);
    ApplyMinus(a, f, s);
    Adjoint(a, 6, u, Minus(f, s));
    var zero := Apply(a, Minus(f, s));
    DotToCommutes(u, zero, 6);
    DotToZero(zero, u, 6);
  }

  lemma SquareOfSum(s: Vector, d: Vector)
    requires |s| == |d|
    ensures Dot(Plus(s, d), Plus(s, d)) == Dot(s, s) + 2.0 * Dot(s, d) + Dot(d, d)
  {
    var n := |s|;
    DotToPlus(Plus(s, d), s, d, n);
    DotToCommutes(Plus(s, d), s, n);
    DotToCommutes(Plus(s, d), d, n);
    DotToPlus(s, s, d, n);
    DotToPlus(d, s, d, n);
    DotToCommutes(d, s, n);
  }

  /** The spread forces have the least square, and nothing else with the wrench is as small. */
  lemma SpreadIsLeast(corners: seq<Corner>, inverse: Matrix, w: Vector, f: Vector)
    requires Inverts(inverse, corners) && |w| == 6 && |f| == 3 * |corners|
    requires Apply(Map(corners), f) == w
    ensures var s := Apply(RightInverse(corners, inverse), w);
            Dot(s, s) <= Dot(f, f) && (f != s ==> Dot(s, s) < Dot(f, f))
  {
    var s := Apply(RightInverse(corners, inverse), w);
    var d := Minus(f, s);
    RestIsOrthogonal(corners, inverse, w, f);
    SquareOfSum(s, d);
    assert Plus(s, d) == f;
    SquareIsPositive(d, |d|);
    if f != s {
      var i :| 0 <= i < |f| && f[i] != s[i];
      assert d[i] != 0.0;
    }
  }

  // ---- the object ----

  class ContactWrenchMapper {
    const corners: seq<Corner>
    const inverse: Matrix
    const toWrench: array2<real>

    ghost predicate Valid()
      reads toWrench
    {
      && IsMatrix(inverse, 6, 6)
      && toWrench.Length0 == 6 && toWrench.Length1 == 3 * |corners| && Held(toWrench) == Map(corners)
    }

    /** The block loop of the constructor, on a matrix of zeros. */
    static method Fill(a: array2<real>, corners: seq<Corner>)
      requires a.Length0 == 6 && a.Length1 == 3 * |corners|
      requires forall r, k :: 0 <= r < 6 && 0 <= k < a.Length1 ==> a[r, k] == 0.0
      modifies a
      ensures forall r, k :: 0 <= r < 6 && 0 <= k < a.Length1 ==> a[r, k] == MapEntry(corners, r, k)
    {
      for i := 0 to |corners|
        invariant forall r, k :: 0 <= r < 6 && 0 <= k < a.Length1 ==>
          a[r, k] == if k < 3 * i then MapEntry(corners, r, k) else 0.0
      {
        var k, c := 3 * i, corners[i];
        a[0, k], a[1, k + 1], a[2, k + 2] := 1.0, 1.0, 1.0;
        a[3, k + 2], a[4, k + 2], a[5, k], a[5, k + 1] := c.y, -c.x, -c.y, c.x;
      }
    }

    /** `invert` is the library's matrix inverse. */
    constructor (corners: seq<Corner>, invert: Matrix -> Matrix)
      requires IsMatrix(invert(Square6(corners)), 6, 6)
      ensures Valid() && this.corners == corners && inverse == invert(Square6(corners)) && fresh(toWrench)
    {
      this.corners := corners;
      var a := new real[6, 3 * |corners|]((_, _) => 0.0);
      Fill(a, corners);
      SameMatrix(Held(a), Map(corners), 6, 3 * |corners|);
      toWrench := a;
      inverse := invert(Mul(Held(a), Transpose(Held(a), 6, 3 * |corners|), 6, 3 * |corners|, 6));
    }

    /**
     `computeVisualizationForceArray`: when A Aᵀ was inverted, the forces reproduce the wrench and
     have the smallest sum of squared norms of all forces that do.
     */
    method ComputeForces(wrench: Wrench) returns (forces: seq<V3>)
      requires Valid()
      ensures |forces| == |corners|
      ensures Inverts(inverse, corners) ==> WrenchOf(corners, forces) == wrench
      ensures Inverts(inverse, corners) ==> forall other: seq<V3> ::
        |other| == |corners| && WrenchOf(corners, other) == wrench ==>
          && SquaredNormsTo(forces, |forces|) <= SquaredNormsTo(other, |other|)
          && (other != forces ==> SquaredNormsTo(forces, |forces|) < SquaredNormsTo(other, |other|))
    {
      var n := |corners|;
      var spread := Apply(Mul(Transpose(Held(toWrench), 6, 3 * n), inverse, 3 * n, 6, 6), WrenchVector(wrench));
      forces := [];
      for i := 0 to n
        invariant |forces| == i
        invariant forall k :: 0 <= k < i ==> forces[k] == V3(spread[3 * k], spread[3 * k + 1], spread[3 * k + 2])
      {
        forces := forces + [V3(spread[3 * i], spread[3 * i + 1], spread[3 * i + 2])];
      }
      ForcesAreSpread(forces, spread);
      if Inverts(inverse, corners) {
        SpreadIsRight(corners, inverse, wrench, forces);
        forall other: seq<V3> | |other| == n && WrenchOf(corners, other) == wrench
          ensures SquaredNormsTo(forces, n) <= SquaredNormsTo(other, n)
          ensures other != forces ==> SquaredNormsTo(forces, n) < SquaredNormsTo(other, n)
        {
          OtherIsLarger(corners, inverse, wrench, forces, other);
        }
      }
    }
  }

  lemma ForcesAreSpread(forces: seq<V3>, spread: Vector)
    requires |spread| == 3 * |forces|
    requires forall k :: 0 <= k < |forces| ==> forces[k] == V3(spread[3 * k], spread[3 * k + 1], spread[3 * k + 2])
    ensures Flat(forces) == spread
  {
    forall k | 0 <= k < |spread|
      ensures Flat(forces)[k] == spread[k]
    {
      FlatAt(forces, k / 3);
      assert forces[k / 3] == V3(spread[3 * (k / 3)], spread[3 * (k / 3) + 1], spread[3 * (k / 3) + 2]);
    }
  }

  lemma SameWrench(a: Wrench, b: Wrench)
    requires WrenchVector(a) == WrenchVector(b)
    ensures a == b
  {
    forall r | 0 <= r < 6
      ensures WrenchComponent(a, r) == WrenchComponent(b, r)
    {
      assert WrenchVector(a)[r] == WrenchVector(b)[r];
    }
    assert WrenchComponent(a, 0) == WrenchComponent(b, 0) && WrenchComponent(a, 1) == WrenchComponent(b, 1)
        && WrenchComponent(a, 2) == WrenchComponent(b, 2) && WrenchComponent(a, 3) == WrenchComponent(b, 3)
        && WrenchComponent(a, 4) == WrenchComponent(b, 4) && WrenchComponent(a, 5) == WrenchComponent(b, 5);
  }

  lemma SpreadIsRight(corners: seq<Corner>, inverse: Matrix, wrench: Wrench, forces: seq<V3>)
    requires Inverts(inverse, corners) && |forces| == |corners|
    requires Flat(forces) == Apply(RightInverse(corners, inverse), WrenchVector(wrench))
    ensures WrenchOf(corners, forces) == wrench
  {
    SpreadReproduces(corners, inverse, WrenchVector(wrench));
    MapIsWrench(corners, forces);
    SameWrench(WrenchOf(corners, forces), wrench);
  }

  lemma SameForces(a: seq<V3>, b: seq<V3>)
    requires |a| == |b| && Flat(a) == Flat(b)
    ensures a == b
  {
    forall i | 0 <= i < |a|
      ensures a[i] == b[i]
    {
      FlatAt(a, i);
      FlatAt(b, i);
    }
  }

  lemma OtherIsLarger(corners: seq<Corner>, inverse: Matrix, wrench: Wrench, forces: seq<V3>, other: seq<V3>)
    requires Inverts(inverse, corners) && |forces| == |other| == |corners|
    requires Flat(forces) == Apply(RightInverse(corners, inverse), WrenchVector(wrench))
    requires WrenchOf(corners, other) == wrench
    ensures SquaredNormsTo(forces, |forces|) <= SquaredNormsTo(other, |other|)
    ensures other != forces ==> SquaredNormsTo(forces, |forces|) < SquaredNormsTo(other, |other|)
  {
    MapIsWrench(corners, other);
    SpreadIsLeast(corners, inverse, WrenchVector(wrench), Flat(other));
    FlatSquare(forces, |forces|);
    FlatSquare(other, |other|);
    if other != forces && Flat(other) == Flat(forces) {
      SameForces(other, forces);
    }
  }

  // ---- when there is no inverse ----

  /** All corners on the line through `c` along `d`. */
  predicate Collinear(corners: seq<Corner>, c: Corner, d: Corner) {
    forall i :: 0 <= i < |corners| ==> (corners[i].x - c.x) * d.y == (corners[i].y - c.y) * d.x
  }

  /** The moment about the line, from the moment's x and y and the force's z. */
  function AboutLine(mx: real, my: real, fz: real, c: Corner, d: Corner): real {
    d.x * (mx - c.y * fz) + d.y * (my + c.x * fz)
  }

  /** The moment about the line of the forces at the first `n` corners. */
  function TurnOf(corners: seq<Corner>, forces: seq<V3>, n: nat, c: Corner, d: Corner): real
    requires n <= |corners| == |forces|
  {
    var w := WrenchTo(corners, forces, n);
    AboutLine(w.moment.x, w.moment.y, w.force.z, c, d)
  }

  lemma {:induction false} NothingTurnsTheLine(corners: seq<Corner>, forces: seq<V3>, c: Corner, d: Corner, n: nat)
    requires |corners| == |forces| && n <= |forces| && Collinear(corners, c, d)
    ensures TurnOf(corners, forces, n, c, d) == 0.0
  {
    if n > 0 {
      NothingTurnsTheLine(corners, forces, c, d, n - 1);
    }
  }

  lemma PureTurnIsPositive(c: Corner, d: Corner)
    requires d.x != 0.0 || d.y != 0.0
    ensures AboutLine(d.x, d.y, 0.0, c, d) > 0.0
  {
    var x := Square(d.x);
    var y := Square(d.y);
    assert AboutLine(d.x, d.y, 0.0, c, d) == x + y;
  }

  /** The forces the mapper would spread a wrench into. */
  lemma SpreadForces(corners: seq<Corner>, inverse: Matrix, wrench: Wrench) returns (forces: seq<V3>)
    requires Inverts(inverse, corners)
    ensures |forces| == |corners| && WrenchOf(corners, forces) == wrench
  {
    var spread := Apply(RightInverse(corners, inverse), WrenchVector(wrench));
    forces := seq(|corners|, i requires 0 <= i < |corners| => V3(spread[3 * i], spread[3 * i + 1], spread[3 * i + 2]));
    ForcesAreSpread(forces, spread);
    SpreadIsRight(corners, inverse, wrench, forces);
  }

  /** With all corners on one line no force set makes a moment about it, and A Aᵀ has no inverse. */
  lemma CollinearHasNoInverse(corners: seq<Corner>, c: Corner, d: Corner, inverse: Matrix)
    requires Collinear(corners, c, d) && (d.x != 0.0 || d.y != 0.0)
    ensures !Inverts(inverse, corners)
  {
    if Inverts(inverse, corners) {
      var forces := SpreadForces(corners, inverse, Wrench(V3(0.0, 0.0, 0.0), V3(d.x, d.y, 0.0)));
      NothingTurnsTheLine(corners, forces, c, d, |corners|);
      PureTurnIsPositive(c, d);
      assert false;
    }
  }
}
