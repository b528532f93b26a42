/**
 The linear Kalman filter of the floating base. Its state is base position, base velocity and
 one position per contact point; its matrices are filled in block by block. Kinematics and the
 linear solve are arbitrary functions: of orientation and joints, and of the covariance.
 */
module LinearKf {
  import opened Basics
  import opened Matrices

  type V3 = v: Vector | |v| == 3 witness [0.0, 0.0, 0.0]

  type Solver = f: (Matrix, Vector) -> Vector | (forall s: Matrix, v: Vector :: |f(s, v)| == |v|)
    witness ((s: Matrix, v: Vector) => v)

  datatype Quaternion = Quaternion(x: real, y: real, z: real, w: real)

  /** What the libraries compute. A foot's position and velocity are relative to the base. */
  datatype Library = Library(
    normalized: Quaternion -> Quaternion,
    rotate: (Quaternion, V3) -> V3,
    footPosition: (Quaternion, seq<real>, nat) -> V3,
    footVelocity: (Quaternion, V3, seq<real>, seq<real>, nat) -> V3,
    solve: Solver)

  datatype Settings = Settings(
    contacts: nat,
    footIndices: seq<int>,
    dt: real,
    groundZ: real,
    footRadius: real,
    swing: real,
    noise: Noise)

  datatype Noise = Noise(position: real, velocity: real, foot: real,
                         sensorPosition: real, sensorVelocity: real, sensorHeight: real)

  datatype Input = Input(
    orientation: Quaternion,
    angularVelocity: V3,
    acceleration: V3,
    joints: seq<real>,
    jointVelocities: seq<real>,
    planted: seq<bool>)

  /** What one update reports besides its estimate. */
  datatype Diagnostics = Diagnostics(corrected: bool, nis: real, correctionDim: nat, nisPerDof: real)

  /** The statistic as it is and per measured number. */
  function Report(nis: real, dimension: nat): Diagnostics {
    Diagnostics(true, nis, dimension, if dimension > 0 then nis / (dimension as real) else 0.0)
  }

  datatype Estimate = Estimate(position: V3, orientation: Quaternion, velocity: V3, angularVelocity: V3, valid: bool)

  /** The base part of a state, with the attitude and the turn rate it was measured with. */
  function EstimateOf(x: Vector, orientation: Quaternion, angularVelocity: V3): (e: Estimate)
    requires |x| >= 6
    ensures e.valid && e.position == x[0..3] && e.velocity == x[3..6]
  {
    Estimate([x[0], x[1], x[2]], orientation, [x[3], x[4], x[5]], angularVelocity, true)
  }

  const GRAVITY: V3 := [0.0, 0.0, -9.81]

  function StateSize(n: nat): nat { 6 + 3 * n }

  function ObserveSize(n: nat): nat { 7 * n }

  // ---- the matrices, entry by entry ----

  /** Contact point `i` measures base minus contact, base velocity, and the contact's height. */
  function MeasurementEntry(n: nat, r: nat, k: nat): real {
    if r < 3 * n then
      if k < 6 then (if k == r % 3 then 1.0 else 0.0) else (if k == 6 + r then -1.0 else 0.0)
    else if r < 6 * n then (if k == 3 + r % 3 then 1.0 else 0.0)
    else (if k == 6 + 3 * (r - 6 * n) + 2 then 1.0 else 0.0)
  }

  function TransitionEntry(dt: real, i: nat, j: nat): real {
    if i == j then 1.0 else if i < 3 && j == i + 3 then dt else 0.0
  }

  function InputEntry(half: real, dt: real, i: nat, j: nat): real {
    if i < 3 && j == i then half else if i < 6 && i == j + 3 then dt else 0.0
  }

  function Measurement(n: nat): (c: Matrix)
    ensures IsMatrix(c, ObserveSize(n), StateSize(n))
  {
    seq(ObserveSize(n), r requires 0 <= r < ObserveSize(n) =>
      seq(StateSize(n), k requires 0 <= k < StateSize(n) => MeasurementEntry(n, r, k)))
  }

  function Transition(n: nat, dt: real): (a: Matrix)
    ensures IsMatrix(a, StateSize(n), StateSize(n))
  {
    seq(StateSize(n), i requires 0 <= i < StateSize(n) =>
      seq(StateSize(n), j requires 0 <= j < StateSize(n) => TransitionEntry(dt, i, j)))
  }

  function InputBlocks(n: nat, half: real, dt: real): (b: Matrix)
    ensures IsMatrix(b, StateSize(n), 3)
  {
    seq(StateSize(n), i requires 0 <= i < StateSize(n) =>
      seq(3, j requires 0 <= j < 3 => InputEntry(half, dt, i, j)))
  }

  function InputMatrix(n: nat, dt: real): (b: Matrix)
    ensures IsMatrix(b, StateSize(n), 3)
  {
    InputBlocks(n, 0.5 * dt * dt, dt)
  }

  function NoiseScale(s: Settings, planted: seq<bool>, i: nat): real
    requires i < |planted|
  {
    if planted[i] then 1.0 else s.swing
  }

  /** Process noise: base position, base velocity, then each contact, more for one in the air. */
  function ProcessNoise(s: Settings, planted: seq<bool>): (q: Vector)
    requires |planted| == s.contacts
    ensures |q| == StateSize(s.contacts)
  {
    seq(StateSize(s.contacts), i requires 0 <= i < StateSize(s.contacts) =>
      if i < 3 then s.dt / 20.0 * s.noise.position
      else if i < 6 then s.dt * 9.81 / 20.0 * s.noise.velocity
      else s.dt * s.noise.foot * NoiseScale(s, planted, (i - 6) / 3))
  }

  function SensorNoise(s: Settings, planted: seq<bool>): (r: Vector)
    requires |planted| == s.contacts
    ensures |r| == ObserveSize(s.contacts)
  {
    var n := s.contacts;
    seq(ObserveSize(n), i requires 0 <= i < ObserveSize(n) =>
      if i < 3 * n then s.noise.sensorPosition * NoiseScale(s, planted, i / 3)
      else if i < 6 * n then s.noise.sensorVelocity * NoiseScale(s, planted, (i - 3 * n) / 3)
      else s.noise.sensorHeight * NoiseScale(s, planted, i - 6 * n))
  }

  lemma ProcessNoiseAt(s: Settings, planted: seq<bool>, i: nat, m: nat, foot: real, scale: real)
    requires |planted| == s.contacts && i < s.contacts && m < 3
    requires foot == s.dt * s.noise.foot && scale == NoiseScale(s, planted, i)
    ensures ProcessNoise(s, planted)[6 + 3 * i + m] == foot * scale
  {
  }

  lemma SensorNoiseAt(s: Settings, planted: seq<bool>, i: nat, m: nat, scale: real, p: real, v: real)
    requires |planted| == s.contacts && i < s.contacts && m < 3 && scale == NoiseScale(s, planted, i)
    requires p == s.noise.sensorPosition * scale && v == s.noise.sensorVelocity * scale
    ensures SensorNoise(s, planted)[3 * i + m] == p
    ensures SensorNoise(s, planted)[3 * (s.contacts + i) + m] == v
  {
    assert (3 * i + m) / 3 == i;
    assert (3 * (s.contacts + i) + m - 3 * s.contacts) / 3 == i;
  }

  lemma HeightNoiseAt(s: Settings, planted: seq<bool>, i: nat, scale: real, h: real)
    requires |planted| == s.contacts && i < s.contacts && scale == NoiseScale(s, planted, i)
    requires h == s.noise.sensorHeight * scale
    ensures SensorNoise(s, planted)[6 * s.contacts + i] == h
  {
  }

  /** The entries of contact `i`: its position block, its velocity block and its height. */
  predicate Blocks(noise: Vector, n: nat, i: nat, p: real, v: real, h: real)
    requires |noise| == ObserveSize(n) && i < n
  {
    && noise[3 * i] == noise[3 * i + 1] == noise[3 * i + 2] == p
    && noise[3 * (n + i)] == noise[3 * (n + i) + 1] == noise[3 * (n + i) + 2] == v
    && noise[6 * n + i] == h
  }

  lemma NoiseOfContact(s: Settings, planted: seq<bool>, i: nat, scale: real, noise: Vector, p: real, v: real, h: real)
    requires |planted| == s.contacts && i < s.contacts && scale == NoiseScale(s, planted, i)
    requires noise == SensorNoise(s, planted)
    requires p == s.noise.sensorPosition * scale && v == s.noise.sensorVelocity * scale
        && h == s.noise.sensorHeight * scale
    ensures Blocks(noise, s.contacts, i, p, v, h)
  {
    SensorNoiseAt(s, planted, i, 0, scale, p, v);
    SensorNoiseAt(s, planted, i, 1, scale, p, v);
    SensorNoiseAt(s, planted, i, 2, scale, p, v);
    HeightNoiseAt(s, planted, i, scale, h);
  }

  // ---- one update ----

  datatype Filter = Filter(x: Vector, p: Matrix)

  predicate Fits(f: Filter, n: nat) {
    |f.x| == StateSize(n) && IsMatrix(f.p, StateSize(n), StateSize(n))
  }

  /** The measured vector: minus each foot's relative position, minus its velocity, zero height. */
  function Measured(lib: Library, s: Settings, i: Input): (y: Vector)
    ensures |y| == ObserveSize(s.contacts)
  {
    PositionPart(lib, s, i) + VelocityPart(lib, s, i) + Zeros(s.contacts)
  }

  function PositionPart(lib: Library, s: Settings, i: Input): (ps: Vector)
    ensures |ps| == 3 * s.contacts
  {
    seq(3 * s.contacts, r requires 0 <= r < 3 * s.contacts =>
      -lib.footPosition(i.orientation, i.joints, r / 3)[r % 3] + (if r % 3 == 2 then s.footRadius else 0.0))
  }

  function VelocityPart(lib: Library, s: Settings, i: Input): (vs: Vector)
    ensures |vs| == 3 * s.contacts
  {
    seq(3 * s.contacts, r requires 0 <= r < 3 * s.contacts =>
      -lib.footVelocity(i.orientation, i.angularVelocity, i.joints, i.jointVelocities, r / 3)[r % 3])
  }

  function WorldAcceleration(lib: Library, i: Input): (a: V3) {
    Plus(lib.rotate(i.orientation, i.acceleration), GRAVITY)
  }

  function Predicted(x: Vector, acceleration: V3, n: nat, dt: real): (y: Vector)
    requires |x| == StateSize(n)
    ensures |y| == StateSize(n)
  {
    Plus(Apply(Transition(n, dt), x), Apply(InputMatrix(n, dt), acceleration))
  }

  /** A P Aᵀ + Q. */
  function PriorCovariance(p: Matrix, s: Settings, planted: seq<bool>): (pm: Matrix)
    requires |planted| == s.contacts && IsMatrix(p, StateSize(s.contacts), StateSize(s.contacts))
    ensures IsMatrix(pm, StateSize(s.contacts), StateSize(s.contacts))
  {
    var m := StateSize(s.contacts);
    var a := Transition(s.contacts, s.dt);
    MatrixPlus(Mul(Mul(a, p, m, m, m), Transpose(a, m, m), m, m, m), Diagonal(ProcessNoise(s, planted)), m, m)
  }

  /** C P Cᵀ + R. */
  function InnovationCovariance(pm: Matrix, s: Settings, planted: seq<bool>): (sm: Matrix)
    requires |planted| == s.contacts && IsMatrix(pm, StateSize(s.contacts), StateSize(s.contacts))
    ensures IsMatrix(sm, ObserveSize(s.contacts), ObserveSize(s.contacts))
  {
    var m, o := StateSize(s.contacts), ObserveSize(s.contacts);
    var c := Measurement(s.contacts);
    MatrixPlus(Mul(Mul(c, pm, o, m, m), Transpose(c, o, m), o, m, o), Diagonal(SensorNoise(s, planted)), o, o)
  }

  function Innovation(x: Vector, y: Vector, n: nat): (e: Vector)
    requires |x| == StateSize(n) && |y| == ObserveSize(n)
    ensures |e| == ObserveSize(n)
  {
    Minus(y, Apply(Measurement(n), x))
  }

  /** P Cᵀ times the solution for the innovation. */
  function Correction(lib: Library, pm: Matrix, sm: Matrix, e: Vector, n: nat): (dx: Vector)
    requires |e| == ObserveSize(n) && IsMatrix(pm, StateSize(n), StateSize(n))
    ensures |dx| == StateSize(n)
  {
    var m, o := StateSize(n), ObserveSize(n);
    Apply(Mul(pm, Transpose(Measurement(n), o, m), m, m, o), lib.solve(sm, e))
  }

  /** The solve with a matrix on the right, column by column. */
  function SolvedColumns(lib: Library, sm: Matrix, c: Matrix, rows: nat, cols: nat): (z: Matrix)
    requires IsMatrix(c, rows, cols)
    ensures IsMatrix(z, rows, cols)
  {
    Transpose(seq(cols, j requires 0 <= j < cols => SolvedColumn(lib, sm, c, rows, cols, j)), cols, rows)
  }

  function SolvedColumn(lib: Library, sm: Matrix, c: Matrix, rows: nat, cols: nat, j: nat): (z: Vector)
    requires IsMatrix(c, rows, cols) && j < cols
    ensures |z| == rows
  {
    lib.solve(sm, Column(c, rows, cols, j))
  }

  /** (I - P Cᵀ S⁻¹ C) P, made symmetric. */
  function Posterior(lib: Library, pm: Matrix, sm: Matrix, n: nat): (p: Matrix)
    requires IsMatrix(pm, StateSize(n), StateSize(n))
    ensures IsMatrix(p, StateSize(n), StateSize(n))
  {
    var m, o := StateSize(n), ObserveSize(n);
    var c := Measurement(n);
    var gain := Mul(Mul(pm, Transpose(c, o, m), m, m, o), SolvedColumns(lib, sm, c, o, m), m, o, m);
    var left := MatrixMinus(Diagonal(seq(m, _ => 1.0)), gain, m, m);
    Symmetric(Mul(left, pm, m, m, m), m)
  }

  function Symmetric(p: Matrix, m: nat): (q: Matrix)
    requires IsMatrix(p, m, m)
    ensures IsMatrix(q, m, m)
    ensures forall i, j :: 0 <= i < m && 0 <= j < m ==> q[i][j] == q[j][i]
  {
    MatrixScaled(0.5, MatrixPlus(p, Transpose(p, m, m), m, m), m, m)
  }

  /** The correction of a predicted state `x` towards the measurement `y`. */
  function Corrected(lib: Library, n: nat, x: Vector, pm: Matrix, sm: Matrix, y: Vector): (g: Filter)
    requires Fits(Filter(x, pm), n) && |y| == ObserveSize(n)
    ensures Fits(g, n)
  {
    Filter(Plus(x, Correction(lib, pm, sm, Innovation(x, y, n), n)), Posterior(lib, pm, sm, n))
  }

  function Update(lib: Library, s: Settings, f: Filter, i: Input): (g: Filter)
    requires Fits(f, s.contacts) && |i.planted| == s.contacts
    ensures Fits(g, s.contacts)
  {
    var x := Predicted(f.x, WorldAcceleration(lib, i), s.contacts, s.dt);
    var pm := PriorCovariance(f.p, s, i.planted);
    var sm := InnovationCovariance(pm, s, i.planted);
    Corrected(lib, s.contacts, x, pm, sm, Measured(lib, s, i))
  }

  /** The innovation, weighed by the inverse of its covariance. */
  function Nis(lib: Library, s: Settings, f: Filter, i: Input): real
    requires Fits(f, s.contacts) && |i.planted| == s.contacts
  {
    var x := Predicted(f.x, WorldAcceleration(lib, i), s.contacts, s.dt);
    var sm := InnovationCovariance(PriorCovariance(f.p, s, i.planted), s, i.planted);
    var e := Innovation(x, Measured(lib, s, i), s.contacts);
    Weighed(lib, sm, e)
  }

  function Weighed(lib: Library, sm: Matrix, e: Vector): real {
    Dot(e, lib.solve(sm, e))
  }

  // ---- what the matrices do ----

  /** The measurement matrix in its per-contact form. */
  lemma MeasurementPerContact(n: nat, x: Vector)
    requires |x| == StateSize(n)
    ensures var y := Apply(Measurement(n), x);
            && (forall r :: 0 <= r < 3 * n ==> y[r] == x[r % 3] - x[6 + r])
            && (forall r :: 3 * n <= r < 6 * n ==> y[r] == x[3 + r % 3])
            && (forall r :: 6 * n <= r < 7 * n ==> y[r] == x[6 + 3 * (r - 6 * n) + 2])
  {
    var c := Measurement(n);
    forall r | 0 <= r < 3 * n
      ensures Dot(c[r], x) == x[r % 3] - x[6 + r]
    {
      DotToTwo(c[r], x, |x|, r % 3, 6 + r);
    }
    forall r | 3 * n <= r < 6 * n
      ensures Dot(c[r], x) == x[3 + r % 3]
    {
      DotToOne(c[r], x, |x|, 3 + r % 3);
    }
    forall r | 6 * n <= r < 7 * n
      ensures Dot(c[r], x) == x[6 + 3 * (r - 6 * n) + 2]
    {
      DotToOne(c[r], x, |x|, 6 + 3 * (r - 6 * n) + 2);
    }
  }

  lemma TransitionPerBlock(n: nat, dt: real, x: Vector)
    requires |x| == StateSize(n)
    ensures var y := Apply(Transition(n, dt), x);
            && (forall i :: 0 <= i < 3 ==> y[i] == x[i] + dt * x[i + 3])
            && (forall i :: 3 <= i < StateSize(n) ==> y[i] == x[i])
  {
    var a := Transition(n, dt);
    forall i | 0 <= i < 3
      ensures Dot(a[i], x) == x[i] + dt * x[i + 3]
    {
      DotToTwo(a[i], x, |x|, i, i + 3);
    }
    forall i | 3 <= i < StateSize(n)
      ensures Dot(a[i], x) == x[i]
    {
      DotToOne(a[i], x, |x|, i);
    }
  }

  lemma InputPerBlock(n: nat, dt: real, acceleration: V3)
    ensures var y := Apply(InputMatrix(n, dt), acceleration);
            && (forall i :: 0 <= i < 3 ==> y[i] == 0.5 * dt * dt * acceleration[i])
            && (forall i :: 3 <= i < 6 ==> y[i] == dt * acceleration[i - 3])
            && (forall i :: 6 <= i < StateSize(n) ==> y[i] == 0.0)
  {
    var b := InputMatrix(n, dt);
    forall i | 0 <= i < 3
      ensures Dot(b[i], acceleration) == 0.5 * dt * dt * acceleration[i]
    {
      DotToOne(b[i], acceleration, 3, i);
    }
    forall i | 3 <= i < 6
      ensures Dot(b[i], acceleration) == dt * acceleration[i - 3]
    {
      DotToOne(b[i], acceleration, 3, i - 3);
    }
    forall i | 6 <= i < StateSize(n)
      ensures Dot(b[i], acceleration) == 0.0
    {
      DotToZero(b[i], acceleration, 3);
    }
  }

  /** The prediction: constant acceleration on the base, contacts where they were. */
  lemma PredictionPerBlock(n: nat, dt: real, x: Vector, acceleration: V3)
    requires |x| == StateSize(n)
    ensures var y := Predicted(x, acceleration, n, dt);
            && (forall i :: 0 <= i < 3 ==> y[i] == x[i] + dt * x[i + 3] + 0.5 * dt * dt * acceleration[i])
            && (forall i :: 3 <= i < 6 ==> y[i] == x[i] + dt * acceleration[i - 3])
            && (forall i :: 6 <= i < StateSize(n) ==> y[i] == x[i])
  {
    TransitionPerBlock(n, dt, x);
    InputPerBlock(n, dt, acceleration);
  }

  // ---- gauge ----

  /** The base and every contact moved by `d`; velocities kept. */
  function Shift(n: nat, d: V3): (s: Vector)
    ensures |s| == StateSize(n)
  {
    seq(StateSize(n), i requires 0 <= i < StateSize(n) => if i < 3 then d[i] else if i < 6 then 0.0 else d[i % 3])
  }

  lemma TransitionKeepsShift(n: nat, dt: real, d: V3)
    ensures Apply(Transition(n, dt), Shift(n, d)) == Shift(n, d)
  {
    var s := Shift(n, d);
    TransitionPerBlock(n, dt, s);
    var y := Apply(Transition(n, dt), s);
    assert dt * 0.0 == 0.0;
    forall i | 0 <= i < StateSize(n)
      ensures y[i] == s[i]
    {
      if i < 3 {
        assert y[i] == s[i] + dt * s[i + 3];
      }
    }
  }

  /** Height rows see the vertical part of a move, and no other row sees anything. */
  lemma ShiftMeasured(n: nat, d: V3, r: nat)
    requires r < ObserveSize(n)
    ensures Apply(Measurement(n), Shift(n, d))[r] == if r < 6 * n then 0.0 else d[2]
  {
    var s := Shift(n, d);
    var y := Apply(Measurement(n), s);
    MeasurementPerContact(n, s);
    if r < 3 * n {
      assert y[r] == s[r % 3] - s[6 + r];
      assert s[6 + r] == d[(6 + r) % 3] == d[r % 3];
    } else if r < 6 * n {
      assert y[r] == s[3 + r % 3];
    } else {
      var k := 6 + 3 * (r - 6 * n) + 2;
      assert y[r] == s[k] == d[k % 3];
      assert k % 3 == 2;
    }
  }

  /** Only a horizontal move leaves every measurement as it was. */
  lemma InvisibleExactlyWhenHorizontal(n: nat, d: V3)
    requires n > 0
    ensures Apply(Measurement(n), Shift(n, d)) == Zeros(ObserveSize(n)) <==> d[2] == 0.0
  {
    var y := Apply(Measurement(n), Shift(n, d));
    ShiftMeasured(n, d, 6 * n);
    if d[2] == 0.0 {
      forall r | 0 <= r < ObserveSize(n)
        ensures y[r] == 0.0
      {
        ShiftMeasured(n, d, r);
      }
    }
  }

  lemma PredictionShifts(x: Vector, acceleration: V3, n: nat, dt: real, d: V3)
    requires |x| == StateSize(n)
    ensures Predicted(Plus(x, Shift(n, d)), acceleration, n, dt) == Plus(Predicted(x, acceleration, n, dt), Shift(n, d))
  {
    ApplyPlus(Transition(n, dt), x, Shift(n, d));
    TransitionKeepsShift(n, dt, d);
  }

  lemma InnovationUnmoved(x: Vector, y: Vector, n: nat, d: V3)
    requires n > 0 && |x| == StateSize(n) && |y| == ObserveSize(n) && d[2] == 0.0
    ensures Innovation(Plus(x, Shift(n, d)), y, n) == Innovation(x, y, n)
  {
    ApplyPlus(Measurement(n), x, Shift(n, d));
    InvisibleExactlyWhenHorizontal(n, d);
  }

  function Moved(f: Filter, n: nat, d: V3): (g: Filter)
    requires Fits(f, n)
    ensures Fits(g, n)
  {
    Filter(Plus(f.x, Shift(n, d)), f.p)
  }

  lemma CorrectionMoves(lib: Library, n: nat, x: Vector, pm: Matrix, sm: Matrix, y: Vector, d: V3)
    requires n > 0 && Fits(Filter(x, pm), n) && |y| == ObserveSize(n) && d[2] == 0.0
    ensures Corrected(lib, n, Plus(x, Shift(n, d)), pm, sm, y) == Moved(Corrected(lib, n, x, pm, sm, y), n, d)
  {
    InnovationUnmoved(x, y, n, d);
    var dx := Correction(lib, pm, sm, Innovation(x, y, n), n);
    assert Plus(Plus(x, Shift(n, d)), dx) == Plus(Plus(x, dx), Shift(n, d));
  }

  /** One update of a filter moved horizontally is the moved update, with the same innovation statistic. */
  lemma UpdateIsEquivariant(lib: Library, s: Settings, f: Filter, i: Input, d: V3)
    requires s.contacts > 0 && Fits(f, s.contacts) && |i.planted| == s.contacts && d[2] == 0.0
    ensures Update(lib, s, Moved(f, s.contacts, d), i) == Moved(Update(lib, s, f, i), s.contacts, d)
    ensures Nis(lib, s, Moved(f, s.contacts, d), i) == Nis(lib, s, f, i)
  {
    var x := Predicted(f.x, WorldAcceleration(lib, i), s.contacts, s.dt);
    var pm := PriorCovariance(f.p, s, i.planted);
    var sm := InnovationCovariance(pm, s, i.planted);
    PredictionShifts(f.x, WorldAcceleration(lib, i), s.contacts, s.dt, d);
    CorrectionMoves(lib, s.contacts, x, pm, sm, Measured(lib, s, i), d);
    InnovationUnmoved(x, Measured(lib, s, i), s.contacts, d);
  }

  function Run(lib: Library, s: Settings, f: Filter, inputs: seq<Input>): (g: Filter)
    requires Fits(f, s.contacts) && forall k :: 0 <= k < |inputs| ==> |inputs[k].planted| == s.contacts
    ensures Fits(g, s.contacts)
  {
    if inputs == [] then f else Update(lib, s, Run(lib, s, f, inputs[..|inputs| - 1]), inputs[|inputs| - 1])
  }

  /** Two filters that differ by one horizontal move differ by exactly that move after any number of updates. */
  lemma {:induction false} RunIsEquivariant(lib: Library, s: Settings, f: Filter, inputs: seq<Input>, d: V3)
    requires s.contacts > 0 && Fits(f, s.contacts) && d[2] == 0.0
    requires forall k :: 0 <= k < |inputs| ==> |inputs[k].planted| == s.contacts
    ensures Run(lib, s, Moved(f, s.contacts, d), inputs) == Moved(Run(lib, s, f, inputs), s.contacts, d)
  {
    if inputs != [] {
      RunIsEquivariant(lib, s, f, inputs[..|inputs| - 1], d);
      UpdateIsEquivariant(lib, s, Run(lib, s, f, inputs[..|inputs| - 1]), inputs[|inputs| - 1], d);
    }
  }

  // ---- seeding ----

  /** Base at `base`, at rest, every contact where kinematics puts it. */
  function Seeded(lib: Library, n: nat, base: V3, orientation: Quaternion, joints: seq<real>): (x: Vector)
    ensures |x| == StateSize(n)
  {
    seq(StateSize(n), i requires 0 <= i < StateSize(n) =>
      if i < 3 then base[i] else if i < 6 then 0.0
      else base[i % 3] + lib.footPosition(orientation, joints, (i - 6) / 3)[i % 3])
  }

  /** Heights of the first `n` contacts, added up. */
  function HeightSum(x: Vector, n: nat): real
    requires |x| >= StateSize(n)
  {
    if n == 0 then 0.0 else HeightSum(x, n - 1) + x[6 + 3 * (n - 1) + 2]
  }

  lemma {:induction false} HeightSumRaised(lib: Library, n: nat, m: nat, h: real, orientation: Quaternion,
      joints: seq<real>)
    requires m <= n
    ensures HeightSum(Seeded(lib, n, [0.0, 0.0, h], orientation, joints), m)
         == HeightSum(Seeded(lib, n, [0.0, 0.0, 0.0], orientation, joints), m) + (m as real) * h
  {
    if m > 0 {
      HeightSumRaised(lib, n, m - 1, h, orientation, joints);
      var k := 6 + 3 * (m - 1) + 2;
      assert k % 3 == 2;
      assert (m as real) * h == ((m - 1) as real) * h + h;
    }
  }

  /** Raising every contact by the mean distance to the ground brings their mean onto it. */
  lemma MeanLandsOnGround(lib: Library, n: nat, sum: real, height: real, orientation: Quaternion, joints: seq<real>)
    requires n > 0 && height == sum / (n as real)
    ensures HeightSum(Seeded(lib, n, [0.0, 0.0, height], orientation, joints), n)
         == HeightSum(Seeded(lib, n, [0.0, 0.0, 0.0], orientation, joints), n) + sum
  {
    HeightSumRaised(lib, n, n, height, orientation, joints);
  }

  // ---- the object ----

  class Estimator {
    const lib: Library
    const settings: Settings
    var a: array2<real>
    var b: array2<real>
    var c: array2<real>
    var ps: array<real>
    var vs: array<real>
    var xHat: Vector
    var p: Matrix
    var orientation: Quaternion
    var initialized: bool
    var diagnostics: Diagnostics

    ghost predicate Valid()
      reads this, a, b, c
    {
      && settings.contacts > 0 && Shaped()
      && IsMeasurement(c, settings.contacts) && MayBeTransition(a) && MayBeInput(b)
    }

    static ghost predicate IsMeasurement(c: array2<real>, n: nat)
      reads c
    {
      forall r, k :: 0 <= r < c.Length0 && 0 <= k < c.Length1 ==> c[r, k] == MeasurementEntry(n, r, k)
    }

    /** All entries but those that hold the sampling time. */
    static ghost predicate MayBeTransition(a: array2<real>)
      reads a
    {
      forall i, j :: 0 <= i < a.Length0 && 0 <= j < a.Length1 && !(i < 3 && j == i + 3) ==>
        a[i, j] == if i == j then 1.0 else 0.0
    }

    static ghost predicate MayBeInput(b: array2<real>)
      reads b
    {
      forall i, j :: 0 <= i < b.Length0 && 0 <= j < b.Length1 && !(i < 3 && j == i) && !(3 <= i < 6 && i == j + 3) ==>
        b[i, j] == 0.0
    }

    ghost predicate Shaped()
      reads this
    {
      var n := settings.contacts;
      && a.Length0 == a.Length1 == b.Length0 == StateSize(n) && b.Length1 == 3
      && c.Length0 == ObserveSize(n) && c.Length1 == StateSize(n)
      && ps.Length == vs.Length == 3 * n && ps != vs
      && a != b && b != c && a != c
      && Fits(Filter(xHat, p), n)
    }

    /** The contact positions' columns are still to be filled for rows from `i` on. */
    static ghost predicate FilledTo(c: array2<real>, n: nat, i: nat)
      reads c
    {
      forall r, k :: 0 <= r < c.Length0 && 0 <= k < c.Length1 ==>
        c[r, k] == if i <= r < 3 * n && k >= 6 then 0.0 else MeasurementEntry(n, r, k)
    }

    /** The block loop of the constructor, on a matrix of zeros. */
    static method FillContacts(c: array2<real>, n: nat)
      requires c.Length0 == ObserveSize(n) && c.Length1 == StateSize(n)
      requires forall r, k :: 0 <= r < c.Length0 && 0 <= k < c.Length1 ==> c[r, k] == 0.0
      modifies c
      ensures FilledTo(c, n, 0)
    {
      for i := 0 to n
        invariant forall r, k :: 0 <= r < c.Length0 && 0 <= k < c.Length1 ==>
          c[r, k] == if r < 3 * i || 3 * n <= r < 3 * (n + i) || 6 * n <= r < 6 * n + i
                     then (if r < 3 * n && k >= 6 then 0.0 else MeasurementEntry(n, r, k)) else 0.0
      {
        c[3 * i, 0], c[3 * i + 1, 1], c[3 * i + 2, 2] := 1.0, 1.0, 1.0;
        var v := 3 * (n + i);
        c[v, 3], c[v + 1, 4], c[v + 2, 5] := 1.0, 1.0, 1.0;
        c[6 * n + i, 6 + 3 * i + 2] := 1.0;
      }
    }

    /** The measurement matrix: the blocks per contact, then minus the identity over the contact positions. */
    static method FillMeasurement(c: array2<real>, n: nat)
      requires c.Length0 == ObserveSize(n) && c.Length1 == StateSize(n)
      requires forall r, k :: 0 <= r < c.Length0 && 0 <= k < c.Length1 ==> c[r, k] == 0.0
      modifies c
      ensures IsMeasurement(c, n)
    {
      FillContacts(c, n);
      for i := 0 to 3 * n
        invariant FilledTo(c, n, i)
      {
        c[i, 6 + i] := -1.0;
      }
    }

    constructor (lib: Library, settings: Settings)
      requires settings.contacts > 0
      ensures Valid() && fresh({a, b, c, ps, vs}) && !initialized
      ensures this.lib == lib && this.settings == settings
    {
      var n := settings.contacts;
      this.lib, this.settings := lib, settings;
      a := new real[StateSize(n), StateSize(n)]((i, j) => if i == j then 1.0 else 0.0);
      b := new real[StateSize(n), 3]((_, _) => 0.0);
      var measurement := new real[ObserveSize(n), StateSize(n)]((_, _) => 0.0);
      c := measurement;
      ps := new real[3 * n](_ => 0.0);
      vs := new real[3 * n](_ => 0.0);
      xHat := Zeros(StateSize(n));
      p := Diagonal(seq(StateSize(n), _ => 100.0));
      orientation := Quaternion(0.0, 0.0, 0.0, 1.0);
      initialized, diagnostics := false, Diagnostics(false, 0.0, 0, 0.0);
      new;
      FillMeasurement(c, n);
    }

    /** The contact loop of `initialize`. */
    static method Seed(lib: Library, n: nat, base: V3, orientation: Quaternion, joints: seq<real>) returns (x: Vector)
      ensures x == Seeded(lib, n, base, orientation, joints)
    {
      var state := new real[StateSize(n)](_ => 0.0);
      state[0], state[1], state[2] := base[0], base[1], base[2];
      ghost var seeded := Seeded(lib, n, base, orientation, joints);
      for i := 0 to n
        invariant forall r :: 0 <= r < 6 + 3 * i ==> state[r] == seeded[r]
      {
        var foot := lib.footPosition(orientation, joints, i);
        var k := 6 + 3 * i;
        state[k], state[k + 1], state[k + 2] := base[0] + foot[0], base[1] + foot[1], base[2] + foot[2];
      }
      x := state[..];
    }

    /** `initialize`. */
    method Initialize(base: V3, attitude: Quaternion, joints: seq<real>)
      requires Valid()
      modifies `xHat, `p, `orientation, `initialized
      ensures Valid() && initialized && orientation == lib.normalized(attitude)
      ensures xHat == Seeded(lib, settings.contacts, base, orientation, joints)
      ensures p == Diagonal(seq(StateSize(settings.contacts), _ => 100.0))
    {
      orientation := lib.normalized(attitude);
      xHat := Seed(lib, settings.contacts, base, orientation, joints);
      p := Diagonal(seq(StateSize(settings.contacts), _ => 100.0));
      initialized := true;
    }

    /** The loop of `initializeFromStance`: how far the contacts are below the ground, in all. */
    method SumToGround() returns (sum: real)
      requires Valid()
      ensures sum == (settings.contacts as real) * settings.groundZ - HeightSum(xHat, settings.contacts)
    {
      sum := 0.0;
      var n, ground := settings.contacts, settings.groundZ;
      for i := 0 to n
        invariant sum == (i as real) * ground - HeightSum(xHat, i)
      {
        assert ((i + 1) as real) * ground == (i as real) * ground + ground;
        sum := sum + (ground - xHat[6 + 3 * i + 2]);
      }
    }

    /** `initializeFromStance`: the mean height of the contacts ends up on the ground. */
    method InitializeFromStance(attitude: Quaternion, joints: seq<real>)
      requires Valid()
      modifies `xHat, `p, `orientation, `initialized
      ensures Valid() && initialized && orientation == lib.normalized(attitude)
      ensures HeightSum(xHat, settings.contacts) == (settings.contacts as real) * settings.groundZ
      ensures xHat == Seeded(lib, settings.contacts, [0.0, 0.0, xHat[2]], orientation, joints)
    {
      Initialize([0.0, 0.0, 0.0], attitude, joints);
      var sum := SumToGround();
      var height := sum / (settings.contacts as real);
      MeanLandsOnGround(lib, settings.contacts, sum, height, orientation, joints);
      Initialize([0.0, 0.0, height], attitude, joints);
    }

    /** `expandContactFlags`: a point takes its foot's flag; a foot out of range counts as planted. */
    method ExpandContactFlags(footFlags: seq<bool>) returns (planted: seq<bool>)
      ensures |planted| == settings.contacts
      ensures forall i :: 0 <= i < |planted| ==>
        var foot := if i < |settings.footIndices| then settings.footIndices[i] else 0;
        planted[i] <==> (0 <= foot < |footFlags| ==> footFlags[foot])
    {
      planted := seq(settings.contacts, _ => true);
      for i := 0 to settings.contacts
        invariant |planted| == settings.contacts
        invariant forall k :: 0 <= k < i ==>
          var foot := if k < |settings.footIndices| then settings.footIndices[k] else 0;
          planted[k] <==> (0 <= foot < |footFlags| ==> footFlags[foot])
      {
        var foot := 0;
        if i < |settings.footIndices| {
          foot := settings.footIndices[i];
        }
        planted := planted[i := if 0 <= foot < |footFlags| then footFlags[foot] else true];
      }
    }

    /** The process model's block for this sampling time. */
    static method SetTransition(a: array2<real>, n: nat, dt: real)
      requires a.Length0 == a.Length1 == StateSize(n) && MayBeTransition(a)
      modifies a
      ensures MayBeTransition(a) && Held(a) == Transition(n, dt)
    {
      a[0, 3], a[1, 4], a[2, 5] := dt, dt, dt;
      SameMatrix(Held(a), Transition(n, dt), StateSize(n), StateSize(n));
    }

    static method SetInput(b: array2<real>, n: nat, half: real, dt: real)
      requires b.Length0 == StateSize(n) && b.Length1 == 3 && MayBeInput(b)
      modifies b
      ensures MayBeInput(b)
      ensures forall i, j :: 0 <= i < b.Length0 && 0 <= j < 3 ==> b[i, j] == InputEntry(half, dt, i, j)
    {
      for k := 0 to 3
        invariant MayBeInput(b)
        invariant forall i, j :: 0 <= i < b.Length0 && 0 <= j < k ==> b[i, j] == InputEntry(half, dt, i, j)
      {
        b[k, k] := half;
        b[3 + k, k] := dt;
      }
    }

    /** The measurements of the contact loop. */
    method MeasureFeet(input: Input)
      requires Valid()
      modifies ps, vs
      ensures Valid()
      ensures ps[..] + vs[..] == PositionPart(lib, settings, input) + VelocityPart(lib, settings, input)
    {
      ghost var position, velocity := PositionPart(lib, settings, input), VelocityPart(lib, settings, input);
      for i := 0 to settings.contacts
        invariant forall r :: 0 <= r < 3 * i ==> ps[r] == position[r] && vs[r] == velocity[r]
      {
        var foot := lib.footPosition(input.orientation, input.joints, i);
        var speed := lib.footVelocity(input.orientation, input.angularVelocity, input.joints, input.jointVelocities, i);
        ps[3 * i], ps[3 * i + 1], ps[3 * i + 2] := -foot[0], -foot[1], -foot[2];
        ps[3 * i + 2] := ps[3 * i + 2] + settings.footRadius;
        vs[3 * i], vs[3 * i + 1], vs[3 * i + 2] := -speed[0], -speed[1], -speed[2];
      }
      assert ps[..] == position && vs[..] == velocity;
    }

    /** The block of `size` rows and columns from `k` on, a multiple of the identity, times `scale`. */
    static method ScaleBlock(q: array2<real>, k: nat, size: nat, ghost before: real, scale: real, ghost after: real)
      requires k + size <= q.Length0 && k + size <= q.Length1 && after == before * scale
      requires forall i, j :: k <= i < k + size && k <= j < k + size ==> q[i, j] == if i == j then before else 0.0
      modifies q
      ensures forall i, j :: 0 <= i < q.Length0 && 0 <= j < q.Length1 ==>
        q[i, j] == if k <= i < k + size && k <= j < k + size then (if i == j then after else 0.0) else old(q[i, j])
    {
      for r := k to k + size
        invariant forall i, j :: 0 <= i < q.Length0 && 0 <= j < q.Length1 ==>
          q[i, j] == if k <= i < r && k <= j < k + size then (if i == j then after else 0.0) else old(q[i, j])
      {
        for c := k to k + size
          invariant forall i, j :: 0 <= i < q.Length0 && 0 <= j < q.Length1 ==>
            q[i, j] == if k <= j < k + size && (k <= i < r || (i == r && j < c))
                       then (if i == j then after else 0.0) else old(q[i, j])
        {
          q[r, c] := q[r, c] * scale;
        }
      }
    }

    /** The first `i` contacts scaled: their blocks hold the noise, the others what they started with. */
    static ghost predicate ProcessScaled(q: array2<real>, noise: Vector, foot: real, i: nat)
      reads q
    {
      && q.Length0 == q.Length1 == |noise|
      && forall k, j :: 0 <= k < q.Length0 && 0 <= j < q.Length0 ==>
           q[k, j] == if k != j then 0.0 else if k < 6 + 3 * i then noise[k] else foot
    }

    static method ScaleFoot(q: array2<real>, ghost noise: Vector, foot: real, scale: real, i: nat)
      requires ProcessScaled(q, noise, foot, i) && 9 + 3 * i <= |noise|
      requires noise[6 + 3 * i] == noise[7 + 3 * i] == noise[8 + 3 * i] == foot * scale
      modifies q
      ensures ProcessScaled(q, noise, foot, i + 1)
    {
      ScaleBlock(q, 6 + 3 * i, 3, foot, scale, noise[6 + 3 * i]);
    }

    /** The process noise of the contact loop: a foot in the air has its block scaled up. */
    method ScaleProcessNoise(planted: seq<bool>) returns (q: array2<real>)
      requires |planted| == settings.contacts
      ensures fresh(q)
      ensures Held(q) == Diagonal(ProcessNoise(settings, planted))
    {
      var n, s := settings.contacts, settings;
      var foot, position, velocity := s.dt * s.noise.foot, s.dt / 20.0 * s.noise.position,
          s.dt * 9.81 / 20.0 * s.noise.velocity;
      ghost var noise := ProcessNoise(s, planted);
      assert forall i :: 0 <= i < 3 ==> noise[i] == position;
      assert forall i :: 3 <= i < 6 ==> noise[i] == velocity;
      q := new real[StateSize(n), StateSize(n)]((i, j) =>
        if i != j then 0.0 else if i < 3 then position else if i < 6 then velocity else foot);
      for i := 0 to n
        invariant ProcessScaled(q, noise, foot, i)
      {
        var scale := if planted[i] then 1.0 else s.swing;
        ProcessNoiseAt(s, planted, i, 0, foot, scale);
        ProcessNoiseAt(s, planted, i, 1, foot, scale);
        ProcessNoiseAt(s, planted, i, 2, foot, scale);
        ScaleFoot(q, noise, foot, scale, i);
      }
      SameMatrix(Held(q), Diagonal(noise), StateSize(n), StateSize(n));
    }

    /** The blocks scaled so far: `i` of the positions, `v` of the velocities, `h` of the heights. */
    static ghost predicate SensorScaled(r: array2<real>, noise: Vector, level: Noise, n: nat, i: nat, v: nat, h: nat)
      reads r
    {
      && r.Length0 == r.Length1 == |noise|
      && forall k, j :: 0 <= k < r.Length0 && 0 <= j < r.Length0 ==>
           r[k, j] == if k != j then 0.0
                      else if k < 3 * i || 3 * n <= k < 3 * (n + v) || 6 * n <= k < 6 * n + h then noise[k]
                      else if k < 3 * n then level.sensorPosition
                      else if k < 6 * n then level.sensorVelocity
                      else level.sensorHeight
    }

    static method ScalePosition(r: array2<real>, ghost noise: Vector, level: Noise, n: nat, scale: real, i: nat,
        ghost p: real)
      requires SensorScaled(r, noise, level, n, i, i, i) && i < n && |noise| == ObserveSize(n)
      requires noise[3 * i] == noise[3 * i + 1] == noise[3 * i + 2] == p && p == level.sensorPosition * scale
      modifies r
      ensures SensorScaled(r, noise, level, n, i + 1, i, i)
    {
      ScaleBlock(r, 3 * i, 3, level.sensorPosition, scale, p);
    }

    static method ScaleVelocity(r: array2<real>, ghost noise: Vector, level: Noise, n: nat, scale: real, i: nat,
        ghost v: real)
      requires SensorScaled(r, noise, level, n, i + 1, i, i) && i < n && |noise| == ObserveSize(n)
      requires noise[3 * (n + i)] == noise[3 * (n + i) + 1] == noise[3 * (n + i) + 2] == v
          && v == level.sensorVelocity * scale
      modifies r
      ensures SensorScaled(r, noise, level, n, i + 1, i + 1, i)
    {
      ScaleBlock(r, 3 * (n + i), 3, level.sensorVelocity, scale, v);
    }

    static method ScaleHeight(r: array2<real>, ghost noise: Vector, level: Noise, n: nat, scale: real, i: nat,
        ghost h: real)
      requires SensorScaled(r, noise, level, n, i + 1, i + 1, i) && i < n && |noise| == ObserveSize(n)
      requires noise[6 * n + i] == h && h == level.sensorHeight * scale
      modifies r
      ensures SensorScaled(r, noise, level, n, i + 1, i + 1, i + 1)
    {
      ScaleBlock(r, 6 * n + i, 1, level.sensorHeight, scale, h);
    }

    static method ScaleMeasurements(r: array2<real>, ghost noise: Vector, level: Noise, n: nat, scale: real, i: nat,
                                    ghost p: real, ghost v: real, ghost h: real)
      requires SensorScaled(r, noise, level, n, i, i, i) && i < n && |noise| == ObserveSize(n)
      requires Blocks(noise, n, i, p, v, h)
      requires p == level.sensorPosition * scale && v == level.sensorVelocity * scale && h == level.sensorHeight * scale
      modifies r
      ensures SensorScaled(r, noise, level, n, i + 1, i + 1, i + 1)
    {
      ScalePosition(r, noise, level, n, scale, i, p);
      ScaleVelocity(r, noise, level, n, scale, i, v);
      ScaleHeight(r, noise, level, n, scale, i, h);
    }

    static lemma AllScaled(r: array2<real>, noise: Vector, level: Noise, n: nat)
      requires |noise| == ObserveSize(n) && SensorScaled(r, noise, level, n, n, n, n)
      ensures Held(r) == Diagonal(noise)
    {
      SameMatrix(Held(r), Diagonal(noise), ObserveSize(n), ObserveSize(n));
    }

    static method PlainSensorNoise(ghost noise: Vector, level: Noise, n: nat) returns (r: array2<real>)
      requires |noise| == ObserveSize(n)
      ensures fresh(r) && SensorScaled(r, noise, level, n, 0, 0, 0)
    {
      r := new real[ObserveSize(n), ObserveSize(n)]((i, j) =>
        if i != j then 0.0
        else if i < 3 * n then level.sensorPosition
        else if i < 6 * n then level.sensorVelocity
        else level.sensorHeight);
    }

    /** The measurement noise of the contact loop. */
    method ScaleSensorNoise(planted: seq<bool>) returns (r: array2<real>)
      requires |planted| == settings.contacts
      ensures fresh(r)
      ensures Held(r) == Diagonal(SensorNoise(settings, planted))
    {
      var n, level := settings.contacts, settings.noise;
      ghost var noise := SensorNoise(settings, planted);
      r := PlainSensorNoise(noise, level, n);
      for i := 0 to n
        invariant SensorScaled(r, noise, level, n, i, i, i)
      {
        var scale := if planted[i] then 1.0 else settings.swing;
        ghost var p, v, h := level.sensorPosition * scale, level.sensorVelocity * scale, level.sensorHeight * scale;
        NoiseOfContact(settings, planted, i, scale, noise, p, v, h);
        ScaleMeasurements(r, noise, level, n, scale, i, p, v, h);
      }
      AllScaled(r, noise, level, n);
    }

    /** The correction and its report. */
    method Correct(x: Vector, pm: Matrix, s: Matrix, y: Vector)
      requires Valid()
      requires Fits(Filter(x, pm), settings.contacts) && |y| == ObserveSize(settings.contacts)
      modifies `xHat, `p, `diagnostics
      ensures Valid()
      ensures Filter(xHat, p) == Corrected(lib, settings.contacts, x, pm, s, y)
      ensures diagnostics == Report(Weighed(lib, s, Innovation(x, y, settings.contacts)), |y|)
    {
      var n := settings.contacts;
      var m, o := StateSize(n), ObserveSize(n);
      SameMatrix(Held(c), Measurement(n), o, m);
      var innovation := Minus(y, Apply(Held(c), x));
      xHat := Plus(x, Apply(Mul(pm, Transpose(Held(c), o, m), m, m, o), lib.solve(s, innovation)));
      p := Posterior(lib, pm, s, n);
      diagnostics := Report(Weighed(lib, s, innovation), o);
    }

    /** The prediction, and what the correction needs. */
    method Predict(input: Input) returns (x: Vector, pm: Matrix, s: Matrix, y: Vector)
      requires Valid() && |input.planted| == settings.contacts && input.orientation == orientation
      modifies a, b, ps, vs
      ensures Valid()
      ensures x == Predicted(xHat, WorldAcceleration(lib, input), settings.contacts, settings.dt)
      ensures pm == PriorCovariance(p, settings, input.planted)
      ensures s == InnovationCovariance(pm, settings, input.planted)
      ensures y == Measured(lib, settings, input)
    {
      var n := settings.contacts;
      var m, o := StateSize(n), ObserveSize(n);
      SetTransition(a, n, settings.dt);
      SetInput(b, n, 0.5 * settings.dt * settings.dt, settings.dt);
      SameMatrix(Held(b), InputMatrix(n, settings.dt), m, 3);
      SameMatrix(Held(c), Measurement(n), o, m);
      MeasureFeet(input);
      var q := ScaleProcessNoise(input.planted);
      var r := ScaleSensorNoise(input.planted);
      var acceleration: V3 := Plus(lib.rotate(orientation, input.acceleration), GRAVITY);
      x := Plus(Apply(Held(a), xHat), Apply(Held(b), acceleration));
      pm := MatrixPlus(Mul(Mul(Held(a), p, m, m, m), Transpose(Held(a), m, m), m, m, m), Held(q), m, m);
      y := ps[..] + vs[..] + Zeros(n);
      s := MatrixPlus(Mul(Mul(Held(c), pm, o, m, m), Transpose(Held(c), o, m), o, m, o), Held(r), o, o);
    }

    /** `updateImpl`, with the orientation the caller has set. */
    method UpdateImpl(input: Input) returns (estimate: Estimate)
      requires Valid() && |input.planted| == settings.contacts && input.orientation == orientation
      modifies a, b, ps, vs, `xHat, `p, `diagnostics
      ensures Valid()
      ensures Filter(xHat, p) == Update(lib, settings, old(Filter(xHat, p)), input)
      ensures |xHat| >= 6 && estimate == EstimateOf(xHat, orientation, input.angularVelocity)
      ensures diagnostics == Report(Nis(lib, settings, old(Filter(xHat, p)), input), ObserveSize(settings.contacts))
    {
      var x, pm, s, y := Predict(input);
      Correct(x, pm, s, y);
      estimate := EstimateOf(xHat, orientation, input.angularVelocity);
    }
  }

  /** The constructor's check: a filter without contact points is refused. */
  method Create(lib: Library, settings: Settings) returns (created: Option<Estimator>)
    ensures created.Some? <==> settings.contacts > 0
    ensures created.Some? ==>
              var e := created.value;
              fresh(e) && e.Valid() && e.lib == lib && e.settings == settings && !e.initialized
  {
    if settings.contacts == 0 {
      return None;
    }
    var e := new Estimator(lib, settings);
    created := Some(e);
  }
}
