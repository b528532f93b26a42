/**
 When a wrench can be spread: A Aᵀ has an inverse exactly when the corners are not all on one
 line. For planar corners it splits into two blocks of three, which are solved outright.
 */
module WrenchInvertible {
  import opened Matrices
  import opened WrenchMapper

  ghost predicate OnOneLine(corners: seq<Corner>) {
    exists c: Corner, d: Corner :: (d.x != 0.0 || d.y != 0.0) && Collinear(corners, c, d)
  }

  // ---- sums over the corners ----

  /** Number of corners, and the sums of their coordinates and products. */
  datatype Sums = Sums(n: real, x: real, y: real, xx: real, xy: real, yy: real)
  {
    /** Minors of the moments: `n` times the scatter about the mean. */
    function YY(): real { n * yy - y * y }
    function XY(): real { n * xy - x * y }
    function XX(): real { n * xx - x * x }
  }

  function Plus1(s: Sums, c: Corner): Sums {
    Sums(s.n + 1.0, s.x + c.x, s.y + c.y, s.xx + c.x * c.x, s.xy + c.x * c.y, s.yy + c.y * c.y)
  }

  function SumsTo(corners: seq<Corner>, n: nat): Sums
    requires n <= |corners|
  {
    if n == 0 then Sums(0.0, 0.0, 0.0, 0.0, 0.0, 0.0) else Plus1(SumsTo(corners, n - 1), corners[n - 1])
  }

  // ---- the two blocks ----

  /** Aᵀ applied to (force, moment) = (g, m), at one corner. */
  function Back(g: V3, m: V3, c: Corner): V3 {
    V3(g.x - m.z * c.y, g.y + m.z * c.x, g.z + m.x * c.y - m.y * c.x)
  }

  function BackTo(g: V3, m: V3, corners: seq<Corner>): (f: seq<V3>)
    ensures |f| == |corners| && forall i :: 0 <= i < |f| ==> f[i] == Back(g, m, corners[i])
  {
    seq(|corners|, i requires 0 <= i < |corners| => Back(g, m, corners[i]))
  }

  /** A Aᵀ applied to (g, m), by the sums alone. */
  function Blocks(s: Sums, g: V3, m: V3): Wrench {
    Wrench(V3(s.n * g.x - s.y * m.z, s.n * g.y + s.x * m.z, s.n * g.z + s.y * m.x - s.x * m.y),
           V3(s.y * g.z + s.yy * m.x - s.xy * m.y,
              s.xx * m.y - s.x * g.z - s.xy * m.x,
              s.x * g.y - s.y * g.x + s.xx * m.z + s.yy * m.z))
  }

  /** One more corner at (x, y): each sum grows by its share, with the products multiplied out. */
  lemma OneForce(s: Sums, x: real, y: real, a: real, b: real, c: real, p: real, q: real, r: real)
    ensures (s.n + 1.0) * a - (s.y + y) * r == (s.n * a - s.y * r) + (a - r * y)
    ensures (s.n + 1.0) * b + (s.x + x) * r == (s.n * b + s.x * r) + (b + r * x)
    ensures (s.n + 1.0) * c + (s.y + y) * p - (s.x + x) * q == (s.n * c + s.y * p - s.x * q) + (c + p * y - q * x)
  {
  }

  lemma OneTilt(u: real, uu: real, uv: real, c: real, p: real, q: real, x: real, y: real, f: real)
    requires f == c + p * y - q * x
    ensures (u + y) * c + (uu + y * y) * p - (uv + x * y) * q == (u * c + uu * p - uv * q) + y * f
  {
    assert y * f == y * c + y * y * p - x * y * q;
  }

  lemma OtherTilt(u: real, uu: real, uv: real, c: real, p: real, q: real, x: real, y: real, f: real)
    requires f == c + p * y - q * x
    ensures (uu + x * x) * q - (u + x) * c - (uv + x * y) * p == (uu * q - u * c - uv * p) - x * f
  {
    assert x * f == x * c + x * y * p - x * x * q;
  }

  lemma OneTurn(s: Sums, x: real, y: real, a: real, b: real, r: real, f: real, g: real)
    requires f == a - r * y && g == b + r * x
    ensures (s.x + x) * b - (s.y + y) * a + (s.xx + x * x) * r + (s.yy + y * y) * r
         == (s.x * b - s.y * a + s.xx * r + s.yy * r) + (x * g - y * f)
  {
    assert x * g == x * b + x * x * r && y * f == y * a - y * y * r;
  }

  predicate Sum3(a: V3, b: V3, c: V3) {
    a.x == b.x + c.x && a.y == b.y + c.y && a.z == b.z + c.z
  }

  lemma ForcesAdd(s: Sums, c: Corner, g: V3, m: V3)
    ensures Sum3(Blocks(Plus1(s, c), g, m).force, Blocks(s, g, m).force, Back(g, m, c))
  {
    OneForce(s, c.x, c.y, g.x, g.y, g.z, m.x, m.y, m.z);
  }

  lemma MomentsAdd(s: Sums, c: Corner, g: V3, m: V3)
    ensures Sum3(Blocks(Plus1(s, c), g, m).moment, Blocks(s, g, m).moment, Cross(Arm(c), Back(g, m, c)))
  {
    var f := Back(g, m, c);
    TiltsAdd(s, c, g, m, f);
    OneTurn(s, c.x, c.y, g.x, g.y, m.z, f.x, f.y);
    FlatCross(c, f);
  }

  lemma TiltsAdd(s: Sums, c: Corner, g: V3, m: V3, f: V3)
    requires f.z == g.z + m.x * c.y - m.y * c.x
    ensures Blocks(Plus1(s, c), g, m).moment.x == Blocks(s, g, m).moment.x + c.y * f.z
    ensures Blocks(Plus1(s, c), g, m).moment.y == Blocks(s, g, m).moment.y - c.x * f.z
  {
    OneTilt(s.y, s.yy, s.xy, g.z, m.x, m.y, c.x, c.y, f.z);
    OtherTilt(s.x, s.xx, s.xy, g.z, m.x, m.y, c.x, c.y, f.z);
  }

  lemma FlatCross(c: Corner, f: V3)
    ensures Cross(Arm(c), f) == V3(c.y * f.z, -(c.x * f.z), c.x * f.y - c.y * f.x)
  {
  }

  lemma Sum3IsAdd(a: V3, b: V3, c: V3)
    requires Sum3(a, b, c)
    ensures a == Add(b, c)
  {
  }

  lemma {:induction false} BlocksAreWrench(corners: seq<Corner>, g: V3, m: V3, n: nat)
    requires n <= |corners|
    ensures WrenchTo(corners, BackTo(g, m, corners), n) == Blocks(SumsTo(corners, n), g, m)
  {
    if n > 0 {
      var s, c := SumsTo(corners, n - 1), corners[n - 1];
      BlocksAreWrench(corners, g, m, n - 1);
      ForcesAdd(s, c, g, m);
      MomentsAdd(s, c, g, m);
      Sum3IsAdd(Blocks(Plus1(s, c), g, m).force, Blocks(s, g, m).force, Back(g, m, c));
      Sum3IsAdd(Blocks(Plus1(s, c), g, m).moment, Blocks(s, g, m).moment, Cross(Arm(c), Back(g, m, c)));
    }
  }

  // ---- they can be solved ----

  /** Division undoes multiplication. */
  lemma Quotient(a: real, b: real) returns (q: real)
    requires b != 0.0
    ensures q * b == a
  {
    q := a / b;
  }

  lemma Cancel(n: real, a: real, b: real)
    requires n != 0.0 && n * a == n * b
    ensures a == b
  {
    assert n * (a - b) == 0.0;
  }

  predicate TurnSolved(s: Sums, a: real, b: real, r: real, fx: real, fy: real, mz: real) {
    && s.n * a - s.y * r == fx
    && s.n * b + s.x * r == fy
    && s.x * b - s.y * a + s.xx * r + s.yy * r == mz
  }

  /** The last equation, times `n`, with the first two put in. */
  lemma TurnBalances(n: real, x: real, y: real, k: real, a: real, b: real, r: real, fx: real, fy: real, mz: real)
    requires a * n == fx + y * r && b * n == fy - x * r
    requires r * (n * k - x * x - y * y) == n * mz + y * fx - x * fy
    ensures n * (x * b - y * a + k * r) == n * mz
  {
    assert x * (b * n) == x * fy - x * x * r;
    assert y * (a * n) == y * fx + y * y * r;
    assert r * (n * k - x * x - y * y) == n * k * r - x * x * r - y * y * r;
    assert n * (x * b - y * a + k * r) == x * (b * n) - y * (a * n) + n * k * r;
  }

  /** The block of the horizontal force and the moment about the vertical. */
  lemma SolveTurn(s: Sums, fx: real, fy: real, mz: real) returns (a: real, b: real, r: real)
    requires s.n != 0.0 && s.XX() + s.YY() != 0.0
    ensures TurnSolved(s, a, b, r, fx, fy, mz)
  {
    var det, top := s.XX() + s.YY(), s.n * mz + s.y * fx - s.x * fy;
    r := Quotient(top, det);
    a := Quotient(fx + s.y * r, s.n);
    b := Quotient(fy - s.x * r, s.n);
    var k := s.xx + s.yy;
    assert det == s.n * k - s.x * s.x - s.y * s.y;
    TurnBalances(s.n, s.x, s.y, k, a, b, r, fx, fy, mz);
    Cancel(s.n, s.x * b - s.y * a + k * r, mz);
    assert k * r == s.xx * r + s.yy * r;
  }

  predicate TiltSolved(s: Sums, c: real, p: real, q: real, fz: real, mx: real, my: real) {
    && s.n * c + s.y * p - s.x * q == fz
    && s.y * c + s.yy * p - s.xy * q == mx
    && s.xx * q - s.x * c - s.xy * p == my
  }

  /** Two equations with a symmetric matrix, solved by its adjugate. */
  lemma SolveTwo(a: real, b: real, g: real, d: real, e: real, f: real) returns (p: real, q: real)
    requires d == a * g - b * b && d != 0.0
    ensures a * p - b * q == e && g * q - b * p == f
  {
    p := Quotient(g * e + b * f, d);
    q := Quotient(b * e + a * f, d);
  }

  /** The block of the vertical force and the moments about the horizontal axes. */
  lemma SolveTilt(s: Sums, fz: real, mx: real, my: real) returns (c: real, p: real, q: real)
    requires s.n != 0.0 && s.XX() * s.YY() - s.XY() * s.XY() != 0.0
    ensures TiltSolved(s, c, p, q, fz, mx, my)
  {
    var det := s.YY() * s.XX() - s.XY() * s.XY();
    p, q := SolveTwo(s.YY(), s.XY(), s.XX(), det, s.n * mx - s.y * fz, s.n * my + s.x * fz);
    c := Quotient(fz - s.y * p + s.x * q, s.n);
    Cancel(s.n, s.y * c + s.yy * p - s.xy * q, mx);
    Cancel(s.n, -s.x * c + s.xx * q - s.xy * p, my);
  }

  // ---- they can be solved when the corners spread ----

  /** How far to the side of the direction (s, t) a corner lies. */
  function Aside(c: Corner, s: real, t: real): real {
    s * c.y - t * c.x
  }

  function Squared(x: real): real { x * x }

  /** Their sum aside and the sum of squares aside, from the sums. */
  function SumAside(m: Sums, s: real, t: real): real { s * m.y - t * m.x }

  function SquaresAside(m: Sums, s: real, t: real): real {
    s * s * m.yy - 2.0 * s * t * m.xy + t * t * m.xx
  }

  lemma AsideAdds(m: Sums, c: Corner, s: real, t: real)
    ensures SumAside(Plus1(m, c), s, t) == SumAside(m, s, t) + Aside(c, s, t)
    ensures SquaresAside(Plus1(m, c), s, t) == SquaresAside(m, s, t) + Squared(Aside(c, s, t))
  {
    assert Squared(s * c.y - t * c.x) == s * s * (c.y * c.y) - 2.0 * s * t * (c.x * c.y) + t * t * (c.x * c.x);
  }

  /** The sums of the first `k` numbers, of their squares, and of their squared distances from `z`. */
  function FirstTo(zs: seq<real>, k: nat): real
    requires k <= |zs|
  {
    if k == 0 then 0.0 else FirstTo(zs, k - 1) + zs[k - 1]
  }

  function SecondTo(zs: seq<real>, k: nat): real
    requires k <= |zs|
  {
    if k == 0 then 0.0 else SecondTo(zs, k - 1) + Squared(zs[k - 1])
  }

  function DistancesTo(zs: seq<real>, z: real, k: nat): real
    requires k <= |zs|
  {
    if k == 0 then 0.0 else DistancesTo(zs, z, k - 1) + Squared(zs[k - 1] - z)
  }

  function Expanded(first: real, second: real, z: real, k: real): real {
    second - 2.0 * z * first + k * Squared(z)
  }

  /** `k` times the sum of squares less the square of the sum. */
  function Variance(first: real, second: real, k: real): real {
    k * second - Squared(first)
  }

  lemma ExpandStep(first: real, second: real, z: real, k: real, w: real)
    ensures Expanded(first + w, second + Squared(w), z, k + 1.0) == Expanded(first, second, z, k) + Squared(w - z)
  {
  }

  lemma VarianceStep(first: real, second: real, k: real, w: real)
    ensures Variance(first + w, second + Squared(w), k + 1.0)
         == Variance(first, second, k) + Expanded(first, second, w, k)
  {
  }

  lemma {:induction false} DistancesExpand(zs: seq<real>, z: real, k: nat)
    requires k <= |zs|
    ensures DistancesTo(zs, z, k) == Expanded(FirstTo(zs, k), SecondTo(zs, k), z, k as real)
  {
    if k > 0 {
      DistancesExpand(zs, z, k - 1);
      ExpandStep(FirstTo(zs, k - 1), SecondTo(zs, k - 1), z, (k - 1) as real, zs[k - 1]);
    }
  }

  lemma {:induction false} DistancesPositive(zs: seq<real>, z: real, k: nat)
    requires k <= |zs|
    ensures DistancesTo(zs, z, k) >= 0.0
    ensures k > 0 && zs[0] != z ==> DistancesTo(zs, z, k) > 0.0
  {
    if k > 0 {
      DistancesPositive(zs, z, k - 1);
      var last := Square(zs[k - 1] - z);
    }
  }

  /** Numbers that are not all equal vary. */
  lemma {:induction false} VariancePositive(zs: seq<real>, k: nat)
    requires k <= |zs|
    ensures Variance(FirstTo(zs, k), SecondTo(zs, k), k as real) >= 0.0
    ensures (exists i :: 0 <= i < k && zs[i] != zs[0]) ==>
              Variance(FirstTo(zs, k), SecondTo(zs, k), k as real) > 0.0
  {
    if k > 0 {
      VariancePositive(zs, k - 1);
      DistancesPositive(zs, zs[k - 1], k - 1);
      DistancesExpand(zs, zs[k - 1], k - 1);
      VarianceStep(FirstTo(zs, k - 1), SecondTo(zs, k - 1), (k - 1) as real, zs[k - 1]);
    }
  }

  // ---- the corners' scatter ----

  function Asides(corners: seq<Corner>, s: real, t: real): (zs: seq<real>)
    ensures |zs| == |corners| && forall i :: 0 <= i < |zs| ==> zs[i] == Aside(corners[i], s, t)
  {
    seq(|corners|, i requires 0 <= i < |corners| => Aside(corners[i], s, t))
  }

  lemma {:induction false} MomentsAreSums(corners: seq<Corner>, s: real, t: real, k: nat)
    requires k <= |corners|
    ensures FirstTo(Asides(corners, s, t), k) == SumAside(SumsTo(corners, k), s, t)
    ensures SecondTo(Asides(corners, s, t), k) == SquaresAside(SumsTo(corners, k), s, t)
  {
    if k > 0 {
      MomentsAreSums(corners, s, t, k - 1);
      AsideAdds(SumsTo(corners, k - 1), corners[k - 1], s, t);
    }
  }

  /** The scatter of the corners to the side of the direction (s, t), times their number. */
  function Scatter(m: Sums, s: real, t: real): real {
    s * s * m.YY() - 2.0 * s * t * m.XY() + t * t * m.XX()
  }

  lemma ScatterIsVariance(m: Sums, s: real, t: real)
    ensures Scatter(m, s, t) == Variance(SumAside(m, s, t), SquaresAside(m, s, t), m.n)
  {
    var a, b := s * m.y, t * m.x;
    assert Squared(a - b) == a * a - 2.0 * (a * b) + b * b;
    assert a * a == s * s * (m.y * m.y) && a * b == s * t * (m.x * m.y) && b * b == t * t * (m.x * m.x);
  }

  lemma {:induction false} CountIs(corners: seq<Corner>, n: nat)
    requires n <= |corners|
    ensures SumsTo(corners, n).n == n as real
  {
    if n > 0 {
      CountIs(corners, n - 1);
    }
  }

  /** Corners that are not on one line scatter to the side of every direction. */
  lemma ScatterPositive(corners: seq<Corner>, s: real, t: real)
    requires !OnOneLine(corners) && (s != 0.0 || t != 0.0) && |corners| > 0
    ensures Scatter(SumsTo(corners, |corners|), s, t) > 0.0
  {
    var k := |corners|;
    CountIs(corners, k);
    var i := OffTheLine(corners, s, t);
    VariancePositive(Asides(corners, s, t), k);
    MomentsAreSums(corners, s, t, k);
    ScatterIsVariance(SumsTo(corners, k), s, t);
  }

  lemma OffTheLine(corners: seq<Corner>, s: real, t: real) returns (i: nat)
    requires !OnOneLine(corners) && (s != 0.0 || t != 0.0) && |corners| > 0
    ensures i < |corners| && Aside(corners[i], s, t) != Aside(corners[0], s, t)
  {
    var c, d := corners[0], Corner(s, t);
    assert !Collinear(corners, c, d);
    i :| 0 <= i < |corners| && (corners[i].x - c.x) * d.y != (corners[i].y - c.y) * d.x;
  }

  predicate Regular(m: Sums) {
    m.n > 0.0 && m.XX() + m.YY() > 0.0 && m.XX() * m.YY() - m.XY() * m.XY() > 0.0
  }

  lemma ScattersRegular(m: Sums)
    requires m.n > 0.0 && Scatter(m, 1.0, 0.0) > 0.0 && Scatter(m, 0.0, 1.0) > 0.0
    requires Scatter(m, m.XX(), m.XY()) > 0.0
    ensures Regular(m)
  {
  }

  /** So neither block is singular. */
  lemma BlocksRegular(corners: seq<Corner>)
    requires !OnOneLine(corners)
    ensures Regular(SumsTo(corners, |corners|))
  {
    if corners == [] {
      assert Collinear(corners, Corner(0.0, 0.0), Corner(1.0, 0.0));
      assert false;
    }
    var m := SumsTo(corners, |corners|);
    CountIs(corners, |corners|);
    ScatterPositive(corners, 1.0, 0.0);
    ScatterPositive(corners, 0.0, 1.0);
    SidePositive(corners, m);
    ScattersRegular(m);
  }

  lemma SidePositive(corners: seq<Corner>, m: Sums)
    requires !OnOneLine(corners) && |corners| > 0 && m == SumsTo(corners, |corners|)
    requires Scatter(m, 0.0, 1.0) > 0.0
    ensures Scatter(m, m.XX(), m.XY()) > 0.0
  {
    var s, t := m.XX(), m.XY();
    assert s > 0.0 by {
    }
    ScatterPositive(corners, s, t);
  }

  // ---- the inverse ----

  function VectorOf(g: V3, m: V3): (v: Vector)
    ensures |v| == 6
  {
    [g.x, g.y, g.z, m.x, m.y, m.z]
  }

  /** The transposed matrix takes (g, m) to the forces of `Back`. */
  lemma TransposeIsBack(corners: seq<Corner>, g: V3, m: V3)
    ensures Apply(Transpose(Map(corners), 6, 3 * |corners|), VectorOf(g, m)) == Flat(BackTo(g, m, corners))
  {
    var a, u := Map(corners), VectorOf(g, m);
    forall k | 0 <= k < 3 * |corners|
      ensures Dot(Column(a, 6, 3 * |corners|, k), u) == Flat(BackTo(g, m, corners))[k]
    {
      ColumnDot(corners[k / 3], k % 3, Column(a, 6, 3 * |corners|, k), g, m);
    }
  }

  lemma ColumnDot(c: Corner, j: nat, column: Vector, g: V3, m: V3)
    requires j < 3 && |column| == 6
    requires forall r :: 0 <= r < 3 ==> column[r] == if j == r then 1.0 else 0.0
    requires forall r :: 3 <= r < 6 ==> column[r] == CrossEntry(c, r - 3, j)
    ensures Dot(column, VectorOf(g, m)) == Component(Back(g, m, c), j)
  {
    var u := VectorOf(g, m);
    ThreeMore(column, u, 0);
    ThreeMore(column, u, 3);
    if j == 0 {
    } else if j == 1 {
    } else {
    }
  }

  /** A Aᵀ on (g, m) is the two blocks. */
  lemma SquareIsBlocks(corners: seq<Corner>, g: V3, m: V3)
    ensures Apply(Square6(corners), VectorOf(g, m)) == WrenchVector(Blocks(SumsTo(corners, |corners|), g, m))
  {
    var a := Map(corners);
    ApplyMul(a, Transpose(a, 6, 3 * |corners|), 6, 3 * |corners|, VectorOf(g, m));
    TransposeIsBack(corners, g, m);
    MapIsWrench(corners, BackTo(g, m, corners));
    BlocksAreWrench(corners, g, m, |corners|);
  }

  lemma SolveBlocks(s: Sums, w: Wrench) returns (g: V3, m: V3)
    requires Regular(s)
    ensures Blocks(s, g, m) == w
  {
    var a, b, r := SolveTurn(s, w.force.x, w.force.y, w.moment.z);
    var c, p, q := SolveTilt(s, w.force.z, w.moment.x, w.moment.y);
    g, m := V3(a, b, c), V3(p, q, r);
  }

  /** The wrench with a single unit component. */
  function Unit(j: nat): Wrench {
    Wrench(V3(if j == 0 then 1.0 else 0.0, if j == 1 then 1.0 else 0.0, if j == 2 then 1.0 else 0.0),
           V3(if j == 3 then 1.0 else 0.0, if j == 4 then 1.0 else 0.0, if j == 5 then 1.0 else 0.0))
  }

  lemma SolveUnit(corners: seq<Corner>, j: nat) returns (u: Vector)
    requires !OnOneLine(corners) && j < 6
    ensures |u| == 6 && forall i :: 0 <= i < 6 ==> Dot(Square6(corners)[i], u) == if i == j then 1.0 else 0.0
  {
    BlocksRegular(corners);
    var g, m := SolveBlocks(SumsTo(corners, |corners|), Unit(j));
    u := VectorOf(g, m);
    SquareIsBlocks(corners, g, m);
    forall i | 0 <= i < 6
      ensures Dot(Square6(corners)[i], u) == WrenchComponent(Unit(j), i)
    {
      assert Apply(Square6(corners), u)[i] == WrenchVector(Unit(j))[i];
    }
  }

  /** Corners that are not on one line: the solutions of the unit wrenches are the columns of an inverse. */
  lemma SpreadHasInverse(corners: seq<Corner>) returns (inverse: Matrix)
    requires !OnOneLine(corners)
    ensures Inverts(inverse, corners)
  {
    var u0 := SolveUnit(corners, 0);
    var u1 := SolveUnit(corners, 1);
    var u2 := SolveUnit(corners, 2);
    var u3 := SolveUnit(corners, 3);
    var u4 := SolveUnit(corners, 4);
    var u5 := SolveUnit(corners, 5);
    var us := [u0, u1, u2, u3, u4, u5];
    inverse := Transpose(us, 6, 6);
    ColumnsInvert(corners, us, inverse);
  }

  lemma ColumnsInvert(corners: seq<Corner>, us: Matrix, inverse: Matrix)
    requires IsMatrix(us, 6, 6) && inverse == Transpose(us, 6, 6)
    requires forall j, i :: 0 <= j < 6 && 0 <= i < 6 ==>
      Dot(Square6(corners)[i], us[j]) == if i == j then 1.0 else 0.0
    ensures Inverts(inverse, corners)
  {
    var s := Square6(corners);
    forall j | 0 <= j < 6
      ensures Column(inverse, 6, 6, j) == us[j]
    {
    }
    SameMatrix(Mul(s, inverse, 6, 6, 6), Diagonal(seq(6, _ => 1.0)), 6, 6);
  }

  // ---- exactly when ----

  /** A wrench can be spread over the corners if and only if they are not all on one line. */
  lemma InvertibleExactlyWhenNotOnOneLine(corners: seq<Corner>)
    ensures (exists inverse :: Inverts(inverse, corners)) <==> !OnOneLine(corners)
  {
    if OnOneLine(corners) {
      var c: Corner, d: Corner :| (d.x != 0.0 || d.y != 0.0) && Collinear(corners, c, d);
      forall inverse
        ensures !Inverts(inverse, corners)
      {
        CollinearHasNoInverse(corners, c, d, inverse);
      }
    } else {
      var inverse := SpreadHasInverse(corners);
    }
  }

  /** A library inverse that returns the inverse of every matrix that has one. */
  ghost predicate IsInversion(invert: Matrix -> Matrix) {
    forall m: Matrix, i: Matrix ::
      IsMatrix(m, 6, 6) && IsMatrix(i, 6, 6) && Mul(m, i, 6, 6, 6) == Diagonal(seq(6, _ => 1.0)) ==>
        IsMatrix(invert(m), 6, 6) && Mul(m, invert(m), 6, 6, 6) == Diagonal(seq(6, _ => 1.0))
  }

  /** What a caller can check of the polygon is enough for the forces of `ComputeForces` to be right. */
  lemma LibraryInverts(corners: seq<Corner>, invert: Matrix -> Matrix)
    requires IsInversion(invert) && !OnOneLine(corners)
    ensures Inverts(invert(Square6(corners)), corners)
  {
    var inverse := SpreadHasInverse(corners);
  }
}
