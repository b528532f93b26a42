/**
 Heights of the uneven terrain: a bounded random walk along each axis, added up, with jitter.
 Every random draw is an arbitrary value of its range, and the trend's sine is arbitrary; the
 uniform and the triangular draw are the quantile functions of the generator's library.
 */
module TerrainHeights {
  import opened Basics
  import opened TerrainConfig

  /** What one step of the walk draws: a coin in [0, 1], a choice, and where in its range the distance falls. */
  datatype Draw = Draw(coin: real, choice: nat, fraction: real)

  predicate InRange(d: Draw) {
    0.0 <= d.coin <= 1.0 && 0.0 <= d.fraction <= 1.0
  }

  predicate AllInRange(draws: seq<Draw>) {
    forall i :: 0 <= i < |draws| ==> InRange(draws[i])
  }

  /** How far the walk may go up or down before it leaves [0, span]. */
  function Room(span: real, previous: real, sign: int): real {
    if sign > 0 then span - previous else previous
  }

  function Least(h: Height): real { h.step.min + 2.0 * h.jitter }

  function Most(h: Height): real { h.step.max - 2.0 * h.jitter }

  /** The signs with room for the least step. */
  function Signs(span: real, previous: real, least: real): (signs: seq<int>)
    ensures forall s :: s in signs <==> (s == -1 || s == 1) && Room(span, previous, s) >= least - TOLERANCE
  {
    (if Room(span, previous, -1) >= least - TOLERANCE then [-1] else []) +
    (if Room(span, previous, 1) >= least - TOLERANCE then [1] else [])
  }

  /** The walk can always go on. */
  lemma SignsAreNeverEmpty(h: Height, previous: real)
    requires ValidHeight(h)
    ensures Signs(Span(h), previous, Least(h)) != []
  {
    if Room(Span(h), previous, 1) < Least(h) - TOLERANCE {
      assert Room(Span(h), previous, -1) >= Least(h) - TOLERANCE;
      assert -1 in Signs(Span(h), previous, Least(h));
    } else {
      assert 1 in Signs(Span(h), previous, Least(h));
    }
  }

  function Sign(signs: seq<int>, preferred: int, strength: real, d: Draw): (s: int)
    requires signs != []
    ensures s in signs
  {
    if preferred in signs && d.coin < strength then preferred else signs[d.choice % |signs|]
  }

  /** The longest step with this sign; never less than the least one. */
  function Upper(h: Height, previous: real, sign: int): (u: real)
    ensures u >= Least(h)
  {
    Larger(Least(h), Smaller(Most(h), Room(Span(h), previous, sign)))
  }

  lemma ShrinksBetween(width: real, fraction: real)
    requires width >= 0.0 && 0.0 <= fraction <= 1.0
    ensures 0.0 <= width * fraction <= width
  {
    assert width * (1.0 - fraction) >= 0.0;
  }

  function Clipped(v: real, span: real): real {
    Smaller(span, Larger(0.0, v))
  }

  function Stepped(span: real, previous: real, sign: int, distance: real): real {
    Clipped(if sign > 0 then previous + distance else previous - distance, span)
  }

  /** Two neighbouring values of one axis: apart by at least the least and at most the most, up to the tolerance. */
  predicate Apart(h: Height, a: real, b: real) {
    Least(h) - TOLERANCE <= Abs(b - a) <= Most(h) + TOLERANCE
  }

  /** One step stays in the span and moves by an allowed distance. */
  lemma StepIsApart(h: Height, previous: real, sign: int, distance: real)
    requires ValidHeight(h) && 0.0 <= previous <= Span(h)
    requires sign in Signs(Span(h), previous, Least(h))
    requires Least(h) <= distance <= Upper(h, previous, sign)
    ensures 0.0 <= Stepped(Span(h), previous, sign, distance) <= Span(h)
    ensures Apart(h, previous, Stepped(Span(h), previous, sign, distance))
  {
    var room := Room(Span(h), previous, sign);
    if distance > room {
      assert distance == Least(h);
    }
  }

  /** The axis walk: `count` values in the span, neighbours an allowed distance apart. */
  ghost predicate Profile(h: Height, values: seq<real>, count: int) {
    && |values| == count
    && (forall i :: 0 <= i < |values| ==> 0.0 <= values[i] <= Span(h))
    && (forall i, j :: 0 <= i < j < |values| && j == i + 1 ==> Apart(h, values[i], values[j]))
  }

  /** The height the walk tends to at cell `index`. */
  function Target(c: Config, axis: Axis, index: int, phase: real, sine: real -> real, twoPi: real): real
    requires axis.cells > 0 && axis.wavelength > 0.0
  {
    var x := -axis.length / 2.0 + (index as real + 0.5) * axis.length / (axis.cells as real);
    Span(c.height) / 2.0 + c.amplitude * sine(twoPi * x / axis.wavelength + phase)
  }

  /**
   The trend at the middle of cell `index`, a sine about the middle of the span, lies above `height`:
   with the middle `k` half cells from the left end of the axis, k odd.
   */
  predicate TrendAbove(c: Config, axis: Axis, index: int, phase: real, sine: real -> real, twoPi: real, height: real)
    requires axis.cells > 0 && axis.wavelength > 0.0
  {
    var cell := axis.length / (axis.cells as real);
    var middle := (index as real) * cell + cell / 2.0 - axis.length / 2.0;
    c.amplitude * sine(phase + middle * twoPi / axis.wavelength) >
      height - ((c.height.max - c.height.min) / 2.0 - c.height.jitter) / 2.0
  }

  /** There is room for the least step, twice the jitter added, above `height` or below it. */
  predicate RoomFor(h: Height, height: real, up: bool) {
    var room := if up then (h.max - h.min) / 2.0 - h.jitter - height else height;
    room + TOLERANCE >= h.step.min + 2.0 * h.jitter
  }

  /**
   The direction of a step: towards the trend, if the coin falls below the strength and there is
   room; else the one chosen of those with room, down before up.
   */
  predicate GoesUp(c: Config, d: Draw, above: bool, height: real) {
    if d.coin < c.strength && RoomFor(c.height, height, above) then above
    else if RoomFor(c.height, height, true) && RoomFor(c.height, height, false) then d.choice % 2 == 1
    else RoomFor(c.height, height, true)
  }

  /** The step from `a` to `b`: the drawn distance in that direction, cut off at the end of the span. */
  ghost predicate StepsFrom(c: Config, d: Draw, above: bool, a: real, b: real) {
    var h := c.height;
    var up := GoesUp(c, d, above, a);
    var room := if up then (h.max - h.min) / 2.0 - h.jitter - a else a;
    exists distance: real :: IsDrawn(h, room, d.fraction, distance) && Reaches(up, room, a, b, distance)
  }

  predicate Reaches(up: bool, room: real, a: real, b: real, distance: real) {
    b == if up then a + Smaller(distance, room) else a - Smaller(distance, room)
  }

  /** The quantile at `u` between the least step and the most there is room for, but no less than the least. */
  predicate IsDrawn(h: Height, room: real, u: real, distance: real) {
    var least := h.step.min + 2.0 * h.jitter;
    var most := Larger(least, Smaller(h.step.max - 2.0 * h.jitter, room));
    && least <= distance <= most
    && (h.step.distribution.Uniform? ==> distance - least == (most - least) * u)
    && (h.step.distribution.Triangular? ==>
          IsTriangular(least, most, Smaller(most, Larger(least, h.step.mode)), u, distance))
  }

  /**
   With the coin below the strength and room towards the trend, the step leans towards it: it rises
   if and only if the trend is above. Any step moves by as much as there is room for.
   */
  lemma LeansTowardsTheTrend(c: Config, d: Draw, above: bool, a: real, b: real)
    requires ValidHeight(c.height) && 0.0 <= a <= Span(c.height) && StepsFrom(c, d, above, a, b)
    ensures b > a <==> GoesUp(c, d, above, a) && a < Span(c.height)
    ensures b < a <==> !GoesUp(c, d, above, a) && a > 0.0
    ensures c.height.step.min > TOLERANCE && d.coin < c.strength && RoomFor(c.height, a, above) ==> (b > a <==> above)
  {
    var h := c.height;
    var up := GoesUp(c, d, above, a);
    var room := if up then (h.max - h.min) / 2.0 - h.jitter - a else a;
    var distance: real :| IsDrawn(h, room, d.fraction, distance) && Reaches(up, room, a, b, distance);
    DrawnIsPositive(h, room, d.fraction, distance);
    Moves(up, room, a, b, distance);
  }

  lemma DrawnIsPositive(h: Height, room: real, u: real, distance: real)
    requires ValidHeight(h) && IsDrawn(h, room, u, distance)
    ensures distance > 0.0
  {
  }

  lemma Moves(up: bool, room: real, a: real, b: real, distance: real)
    requires room >= 0.0 && distance > 0.0 && Reaches(up, room, a, b, distance)
    ensures up ==> (b > a <==> room > 0.0) && b >= a
    ensures !up ==> (b < a <==> room > 0.0) && b <= a
  {
  }

  /** The walk starts in the middle of the span, and each step is such a one. */
  ghost predicate Walks(c: Config, axis: Axis, draws: seq<Draw>, phase: real, sine: real -> real, twoPi: real,
                        values: seq<real>)
    requires axis.cells > 0 && axis.wavelength > 0.0 && |values| <= |draws|
  {
    && (|values| > 0 ==> values[0] == ((c.height.max - c.height.min) / 2.0 - c.height.jitter) / 2.0)
    && forall i, j :: 0 <= i < j < |values| && j == i + 1 ==>
         StepsFrom(c, draws[j], TrendAbove(c, axis, j, phase, sine, twoPi, values[i]), values[i], values[j])
  }

  method AxisProfile(c: Config, axis: Axis, draws: seq<Draw>, phase: real, sine: real -> real, twoPi: real,
                     root: real -> real)
    returns (values: seq<real>)
    requires IsRoot(root)
    requires Valid(c) && (axis == c.x || axis == c.y) && |draws| == axis.cells && AllInRange(draws)
    ensures Profile(c.height, values, axis.cells)
    ensures Walks(c, axis, draws, phase, sine, twoPi, values)
  {
    var h := c.height;
    values := [Span(h) / 2.0];
    for index := 1 to axis.cells
      invariant Profile(h, values, index) && Walks(c, axis, draws, phase, sine, twoPi, values)
    {
      var target := Target(c, axis, index, phase, sine, twoPi);
      var previous := values[|values| - 1];
      TrendIsTarget(c, axis, index, phase, sine, twoPi, previous);
      var v := NextHeight(c, draws[index], target, previous, root);
      values := values + [v];
    }
  }

  /** The body of the walk's loop. */
  method NextHeight(c: Config, d: Draw, target: real, previous: real, root: real -> real) returns (v: real)
    requires ValidHeight(c.height) && 0.0 <= previous <= Span(c.height) && InRange(d) && IsRoot(root)
    ensures 0.0 <= v <= Span(c.height) && Apart(c.height, previous, v)
    ensures StepsFrom(c, d, target > previous, previous, v)
  {
    var h := c.height;
    var span := Span(h);
    var minimum, maximum := Least(h), Most(h);
    var signs := Signs(span, previous, minimum);
    SignsAreNeverEmpty(h, previous);
    var preferred := if target > previous then 1 else -1;
    var sign := Sign(signs, preferred, c.strength, d);
    var upper := Smaller(maximum, Room(span, previous, sign));
    upper := Larger(minimum, upper);
    var distance := Drawn(h, minimum, upper, d.fraction, root);
    DrawIsDrawn(h, Room(span, previous, sign), d.fraction, upper, distance);
    StepIsApart(h, previous, sign, distance);
    SignIsDirection(c, d, target > previous, previous, sign);
    StepIsFrom(c, d, target > previous, previous, sign, distance);
    v := Stepped(span, previous, sign, distance);
  }

  /** Two ways to write where in the sine the middle of a cell lies. */
  lemma MiddleIs(length: real, n: real, i: real, phase: real, twoPi: real, wavelength: real) returns (a: real, b: real)
    requires n > 0.0 && wavelength > 0.0
    ensures a == twoPi * (-length / 2.0 + (i + 0.5) * length / n) / wavelength + phase
    ensures b == phase + (i * (length / n) + length / n / 2.0 - length / 2.0) * twoPi / wavelength
    ensures a == b
  {
    var cell := length / n;
    assert (i + 0.5) * length / n == (i + 0.5) * cell;
    assert (i + 0.5) * cell == i * cell + cell / 2.0;
    a := twoPi * (-length / 2.0 + (i + 0.5) * length / n) / wavelength + phase;
    b := phase + (i * cell + cell / 2.0 - length / 2.0) * twoPi / wavelength;
  }

  lemma TrendIsTarget(c: Config, axis: Axis, index: int, phase: real, sine: real -> real, twoPi: real, height: real)
    requires axis.cells > 0 && axis.wavelength > 0.0
    ensures TrendAbove(c, axis, index, phase, sine, twoPi, height)
       <==> Target(c, axis, index, phase, sine, twoPi) > height
  {
    var n, i := axis.cells as real, index as real;
    var a, b := MiddleIs(axis.length, n, i, phase, twoPi, axis.wavelength);
    var trend := c.amplitude * sine(a);
    assert Target(c, axis, index, phase, sine, twoPi) == Span(c.height) / 2.0 + trend;
    assert TrendAbove(c, axis, index, phase, sine, twoPi, height) <==> trend > height - Span(c.height) / 2.0;
  }

  lemma SignIsDirection(c: Config, d: Draw, above: bool, previous: real, sign: int)
    requires Signs(Span(c.height), previous, Least(c.height)) != []
    requires sign == Sign(Signs(Span(c.height), previous, Least(c.height)), if above then 1 else -1, c.strength, d)
    ensures sign == if GoesUp(c, d, above, previous) then 1 else -1
  {
    var signs := Signs(Span(c.height), previous, Least(c.height));
    var down := Room(Span(c.height), previous, -1) >= Least(c.height) - TOLERANCE;
    var up := Room(Span(c.height), previous, 1) >= Least(c.height) - TOLERANCE;
    assert RoomFor(c.height, previous, true) == up && RoomFor(c.height, previous, false) == down;
    assert signs == if down && up then [-1, 1] else if down then [-1] else [1];
  }

  lemma CutOff(span: real, previous: real, sign: int, distance: real)
    requires 0.0 <= previous <= span && distance >= 0.0
    ensures Reaches(sign > 0, Room(span, previous, sign), previous, Stepped(span, previous, sign, distance), distance)
  {
  }

  /** What the draw returns is a quantile between the least step and the room for one. */
  lemma DrawIsDrawn(h: Height, room: real, u: real, upper: real, distance: real)
    requires upper == Larger(Least(h), Smaller(Most(h), room)) && Least(h) <= distance <= upper
    requires h.step.distribution.Uniform? ==> distance - Least(h) == (upper - Least(h)) * u
    requires h.step.distribution.Triangular? ==> IsTriangular(Least(h), upper, Mode(h, Least(h), upper), u, distance)
    ensures IsDrawn(h, room, u, distance)
  {
  }

  lemma StepIsFrom(c: Config, d: Draw, above: bool, previous: real, sign: int, distance: real)
    requires ValidHeight(c.height) && 0.0 <= previous <= Span(c.height)
    requires sign == if GoesUp(c, d, above, previous) then 1 else -1
    requires IsDrawn(c.height, Room(Span(c.height), previous, sign), d.fraction, distance)
    ensures StepsFrom(c, d, above, previous, Stepped(Span(c.height), previous, sign, distance))
  {
    var h := c.height;
    var up := GoesUp(c, d, above, previous);
    var room := if up then (h.max - h.min) / 2.0 - h.jitter - previous else previous;
    CutOff(Span(h), previous, sign, distance);
    assert IsDrawn(h, room, d.fraction, distance);
    assert Reaches(up, room, previous, Stepped(Span(h), previous, sign, distance), distance);
  }

  /** `random.uniform`. */
  method Even(minimum: real, upper: real, u: real) returns (distance: real)
    requires minimum <= upper && 0.0 <= u <= 1.0
    ensures minimum <= distance <= upper && distance - minimum == (upper - minimum) * u
  {
    var width := upper - minimum;
    var d := width * u;
    ShrinksBetween(width, u);
    distance := minimum + d;
  }

  /** A square root. */
  ghost predicate IsRoot(root: real -> real) {
    forall x: real :: x >= 0.0 ==> root(x) >= 0.0 && root(x) * root(x) == x
  }

  lemma AboveOne(r: real)
    requires r > 1.0
    ensures r * r > 1.0
  {
    assert r * r == 1.0 + (r - 1.0) * (r + 1.0);
  }

  /** The distance from one end: the root of `u` times the peak's place, scaled by the width. */
  lemma RootScales(width: real, u: real, c: real, part: real, r: real) returns (d: real)
    requires width >= 0.0 && 0.0 <= u <= 1.0 && 0.0 <= c <= 1.0 && c * width == part
    requires r >= 0.0 && r * r == u * c
    ensures d == width * r && 0.0 <= d <= width
    ensures d * d == u * width * part
  {
    d := width * r;
    ShrinksBetween(u, c);
    if r > 1.0 {
      AboveOne(r);
      assert false;
    }
    ShrinksBetween(width, r);
    assert d * d == width * (width * (r * r));
    assert width * (u * c) == u * part;
  }

  lemma PeakPlace(u: real, c: real, width: real, part: real)
    requires width > 0.0 && c == part / width && 0.0 <= part <= width
    ensures 0.0 <= c <= 1.0 && c * width == part && (1.0 - c) * width == width - part
    ensures u > c <==> u * width > part
  {
    assert c * width == part;
    if u > c {
      assert (u - c) * width > 0.0;
    } else {
      assert (c - u) * width >= 0.0;
    }
  }

  /** The square of the distance from the lower end below the mode, from the upper end above it. */
  predicate IsTriangular(minimum: real, upper: real, mode: real, u: real, distance: real) {
    if u * (upper - minimum) <= mode - minimum
    then (distance - minimum) * (distance - minimum) == u * (upper - minimum) * (mode - minimum)
    else (upper - distance) * (upper - distance) == (1.0 - u) * (upper - minimum) * (upper - mode)
  }

  lemma NoWidth(minimum: real, upper: real, mode: real, u: real)
    requires minimum == mode == upper
    ensures IsTriangular(minimum, upper, mode, u, minimum)
  {
    assert u * (upper - minimum) == 0.0;
  }

  /** `random.triangular`: from the lower end up, or from the upper end down. */
  method Triangle(minimum: real, upper: real, mode: real, u: real, root: real -> real) returns (distance: real)
    requires minimum <= mode <= upper && 0.0 <= u <= 1.0 && IsRoot(root)
    ensures minimum <= distance <= upper
    ensures IsTriangular(minimum, upper, mode, u, distance)
  {
    if minimum == upper {
      NoWidth(minimum, upper, mode, u);
      return minimum;
    }
    var width, c := upper - minimum, (mode - minimum) / (upper - minimum);
    PeakPlace(u, c, width, mode - minimum);
    if u > c {
      distance := FromAbove(minimum, upper, mode, u, c, root);
    } else {
      distance := FromBelow(minimum, upper, mode, u, c, root);
    }
  }

  method FromBelow(minimum: real, upper: real, mode: real, u: real, c: real, root: real -> real)
    returns (distance: real)
    requires minimum <= upper && 0.0 <= u <= 1.0 && 0.0 <= c <= 1.0 && IsRoot(root)
    requires c * (upper - minimum) == mode - minimum
    ensures minimum <= distance <= upper
    ensures (distance - minimum) * (distance - minimum) == u * (upper - minimum) * (mode - minimum)
  {
    ShrinksBetween(u, c);
    var r := root(u * c);
    ghost var d := RootScales(upper - minimum, u, c, mode - minimum, r);
    distance := minimum + (upper - minimum) * r;
    assert distance == minimum + d;
  }

  method FromAbove(minimum: real, upper: real, mode: real, u: real, c: real, root: real -> real)
    returns (distance: real)
    requires minimum <= upper && 0.0 <= u <= 1.0 && 0.0 <= c <= 1.0 && IsRoot(root)
    requires (1.0 - c) * (upper - minimum) == upper - mode
    ensures minimum <= distance <= upper
    ensures (upper - distance) * (upper - distance) == (1.0 - u) * (upper - minimum) * (upper - mode)
  {
    ShrinksBetween(1.0 - u, 1.0 - c);
    var r := root((1.0 - u) * (1.0 - c));
    ghost var d := RootScales(upper - minimum, 1.0 - u, 1.0 - c, upper - mode, r);
    distance := upper + (minimum - upper) * r;
    assert distance == upper - d;
  }

  /** The mode the triangular draw is given: the configured one, brought between the bounds. */
  function Mode(h: Height, minimum: real, upper: real): real {
    Smaller(upper, Larger(minimum, h.step.mode))
  }

  /** The draw is the quantile of the uniform or of the triangular distribution between its bounds. */
  method Drawn(h: Height, minimum: real, upper: real, u: real, root: real -> real) returns (distance: real)
    requires minimum <= upper && 0.0 <= u <= 1.0 && IsRoot(root)
    ensures minimum <= distance <= upper
    ensures h.step.distribution.Uniform? ==> distance - minimum == (upper - minimum) * u
    ensures h.step.distribution.Triangular? ==>
              IsTriangular(minimum, upper, Mode(h, minimum, upper), u, distance)
  {
    match h.step.distribution {
      case Uniform =>
        distance := Even(minimum, upper, u);
      case Triangular =>
        var mode := Smaller(upper, Larger(minimum, h.step.mode));
        distance := Triangle(minimum, upper, mode, u, root);
    }
  }

  // ---- the grid ----

  type Grid = seq<seq<real>>

  predicate IsGrid(g: Grid, nx: int, ny: int) {
    |g| == nx && forall i :: 0 <= i < nx ==> |g[i]| == ny
  }

  function HeightAt(h: Height, x: real, y: real, jitter: real): real {
    h.min + h.jitter + x + y + jitter
  }

  function Heights(h: Height, xs: seq<real>, ys: seq<real>, jitters: Grid): (g: Grid)
    requires IsGrid(jitters, |xs|, |ys|)
    ensures IsGrid(g, |xs|, |ys|)
    ensures forall i, j :: 0 <= i < |xs| && 0 <= j < |ys| ==> g[i][j] == HeightAt(h, xs[i], ys[j], jitters[i][j])
  {
    seq(|xs|, i requires 0 <= i < |xs| =>
      seq(|ys|, j requires 0 <= j < |ys| => HeightAt(h, xs[i], ys[j], jitters[i][j])))
  }

  predicate Jitters(h: Height, jitters: Grid) {
    forall i, j :: 0 <= i < |jitters| && 0 <= j < |jitters[i]| ==> -h.jitter <= jitters[i][j] <= h.jitter
  }

  predicate Within(d: real, lo: real, hi: real) {
    lo <= d <= hi
  }

  /** Cell (i, j) and the next cell of each axis differ by between `lo` and `hi`. */
  predicate CellWithin(g: Grid, nx: int, ny: int, i: int, j: int, lo: real, hi: real)
    requires IsGrid(g, nx, ny) && 0 <= i < nx && 0 <= j < ny
  {
    && (i + 1 < nx ==> Within(Abs(g[i][j] - g[i + 1][j]), lo, hi))
    && (j + 1 < ny ==> Within(Abs(g[i][j] - g[i][j + 1]), lo, hi))
  }

  /** Every two cells that share an edge differ by between `lo` and `hi`. */
  predicate EdgesWithin(g: Grid, nx: int, ny: int, lo: real, hi: real)
    requires IsGrid(g, nx, ny)
  {
    forall i, j :: 0 <= i < nx && 0 <= j < ny ==> CellWithin(g, nx, ny, i, j, lo, hi)
  }

  lemma HeightInRange(h: Height, x: real, y: real, jitter: real)
    requires ValidHeight(h) && 0.0 <= x <= Span(h) && 0.0 <= y <= Span(h) && -h.jitter <= jitter <= h.jitter
    ensures h.min <= HeightAt(h, x, y, jitter) <= h.max
  {
  }

  lemma NeighboursDiffer(h: Height, a: real, b: real, other: real, ja: real, jb: real)
    requires ValidHeight(h) && Apart(h, a, b) && -h.jitter <= ja <= h.jitter && -h.jitter <= jb <= h.jitter
    ensures Within(Abs(HeightAt(h, a, other, ja) - HeightAt(h, b, other, jb)), h.step.min - TOLERANCE,
        h.step.max + TOLERANCE)
    ensures Within(Abs(HeightAt(h, other, a, ja) - HeightAt(h, other, b, jb)), h.step.min - TOLERANCE,
        h.step.max + TOLERANCE)
  {
  }

  lemma CellIsWithin(h: Height, xs: seq<real>, ys: seq<real>, jitters: Grid, i: int, j: int, lo: real, hi: real)
    requires ValidHeight(h) && Profile(h, xs, |xs|) && Profile(h, ys, |ys|)
    requires IsGrid(jitters, |xs|, |ys|) && Jitters(h, jitters) && 0 <= i < |xs| && 0 <= j < |ys|
    requires lo == h.step.min - TOLERANCE && hi == h.step.max + TOLERANCE
    ensures CellWithin(Heights(h, xs, ys, jitters), |xs|, |ys|, i, j, lo, hi)
  {
    if i + 1 < |xs| {
      NeighboursDiffer(h, xs[i], xs[i + 1], ys[j], jitters[i][j], jitters[i + 1][j]);
    }
    if j + 1 < |ys| {
      NeighboursDiffer(h, ys[j], ys[j + 1], xs[i], jitters[i][j], jitters[i][j + 1]);
    }
  }

  predicate InEnvelope(h: Height, g: Grid) {
    forall i, j :: 0 <= i < |g| && 0 <= j < |g[i]| ==> h.min <= g[i][j] <= h.max
  }

  /** For every draw, every height is in the configured range. */
  lemma HeightsInEnvelope(h: Height, xs: seq<real>, ys: seq<real>, jitters: Grid)
    requires ValidHeight(h) && Profile(h, xs, |xs|) && Profile(h, ys, |ys|)
    requires IsGrid(jitters, |xs|, |ys|) && Jitters(h, jitters)
    ensures InEnvelope(h, Heights(h, xs, ys, jitters))
  {
    var g := Heights(h, xs, ys, jitters);
    forall i, j | 0 <= i < |g| && 0 <= j < |g[i]|
      ensures h.min <= g[i][j] <= h.max
    {
      HeightInRange(h, xs[i], ys[j], jitters[i][j]);
    }
  }

  /** For every draw, every edge's step is in the configured bounds up to the tolerance. */
  lemma StepsAreBounded(h: Height, xs: seq<real>, ys: seq<real>, jitters: Grid, lo: real, hi: real)
    requires ValidHeight(h) && Profile(h, xs, |xs|) && Profile(h, ys, |ys|)
    requires IsGrid(jitters, |xs|, |ys|) && Jitters(h, jitters)
    requires lo == h.step.min - TOLERANCE && hi == h.step.max + TOLERANCE
    ensures EdgesWithin(Heights(h, xs, ys, jitters), |xs|, |ys|, lo, hi)
  {
    var g := Heights(h, xs, ys, jitters);
    forall i, j | 0 <= i < |xs| && 0 <= j < |ys|
      ensures CellWithin(g, |xs|, |ys|, i, j, lo, hi)
    {
      CellIsWithin(h, xs, ys, jitters, i, j, lo, hi);
    }
  }

  // ---- the final check ----

  /** The differences of cell (i, j) to the next cell of each axis. */
  function CellDifferences(g: Grid, nx: int, ny: int, i: int, j: int): seq<real>
    requires IsGrid(g, nx, ny) && 0 <= i < nx && 0 <= j < ny
  {
    (if i + 1 < nx then [Abs(g[i][j] - g[i + 1][j])] else []) +
    (if j + 1 < ny then [Abs(g[i][j] - g[i][j + 1])] else [])
  }

  /** `adjacent_differences`. */
  method AdjacentDifferences(g: Grid, nx: int, ny: int) returns (ds: seq<real>)
    requires nx >= 1 && ny >= 1 && IsGrid(g, nx, ny)
    ensures ds == Differences(g, nx, ny, nx, 0)
  {
    ds := [];
    for i := 0 to nx
      invariant ds == Differences(g, nx, ny, i, 0)
    {
      for j := 0 to ny
        invariant ds == Differences(g, nx, ny, i, j)
      {
        if i + 1 < nx {
          ds := ds + [Abs(g[i][j] - g[i + 1][j])];
        }
        if j + 1 < ny {
          ds := ds + [Abs(g[i][j] - g[i][j + 1])];
        }
      }
    }
  }

  /** Row by row, the differences of the cells before cell (i, j). */
  function Differences(g: Grid, nx: int, ny: int, i: int, j: int): seq<real>
    requires IsGrid(g, nx, ny) && ny >= 1 && 0 <= i <= nx && 0 <= j <= ny && (i < nx || j == 0)
    decreases i, j
  {
    if j > 0 then Differences(g, nx, ny, i, j - 1) + CellDifferences(g, nx, ny, i, j - 1)
    else if i > 0 then Differences(g, nx, ny, i - 1, ny)
    else []
  }

  predicate AllWithin(ds: seq<real>, lo: real, hi: real) {
    forall k :: 0 <= k < |ds| ==> Within(ds[k], lo, hi)
  }

  lemma AllWithinConcat(a: seq<real>, b: seq<real>, lo: real, hi: real)
    ensures AllWithin(a + b, lo, hi) <==> AllWithin(a, lo, hi) && AllWithin(b, lo, hi)
  {
    if AllWithin(a + b, lo, hi) {
      forall k | 0 <= k < |a|
        ensures Within(a[k], lo, hi)
      {
        assert (a + b)[k] == a[k];
      }
      forall k | 0 <= k < |b|
        ensures Within(b[k], lo, hi)
      {
        assert (a + b)[|a| + k] == b[k];
      }
    }
  }

  lemma CellDifferencesWithin(g: Grid, nx: int, ny: int, i: int, j: int, lo: real, hi: real)
    requires IsGrid(g, nx, ny) && 0 <= i < nx && 0 <= j < ny
    ensures AllWithin(CellDifferences(g, nx, ny, i, j), lo, hi) <==> CellWithin(g, nx, ny, i, j, lo, hi)
  {
    var first := if i + 1 < nx then [Abs(g[i][j] - g[i + 1][j])] else [];
    var second := if j + 1 < ny then [Abs(g[i][j] - g[i][j + 1])] else [];
    AllWithinConcat(first, second, lo, hi);
    assert i + 1 < nx ==> first[0] == Abs(g[i][j] - g[i + 1][j]);
    assert j + 1 < ny ==> second[0] == Abs(g[i][j] - g[i][j + 1]);
  }

  lemma {:induction false} DifferencesWithin(g: Grid, nx: int, ny: int, i: int, j: int, lo: real, hi: real)
    requires IsGrid(g, nx, ny) && ny >= 1 && 0 <= i <= nx && 0 <= j <= ny && (i < nx || j == 0)
    ensures AllWithin(Differences(g, nx, ny, i, j), lo, hi) <==>
            forall a, b :: 0 <= a <= i && 0 <= b < ny && (a < i || b < j) ==> CellWithin(g, nx, ny, a, b, lo, hi)
    decreases i, j
  {
    if j > 0 {
      DifferencesWithin(g, nx, ny, i, j - 1, lo, hi);
      CellDifferencesWithin(g, nx, ny, i, j - 1, lo, hi);
      AllWithinConcat(Differences(g, nx, ny, i, j - 1), CellDifferences(g, nx, ny, i, j - 1), lo, hi);
    } else if i > 0 {
      DifferencesWithin(g, nx, ny, i - 1, ny, lo, hi);
    }
  }

  /** The list holds exactly the differences across the grid's edges. */
  lemma DifferencesAreEdges(g: Grid, nx: int, ny: int, lo: real, hi: real)
    requires nx >= 1 && ny >= 1 && IsGrid(g, nx, ny)
    ensures AllWithin(Differences(g, nx, ny, nx, 0), lo, hi) <==> EdgesWithin(g, nx, ny, lo, hi)
  {
    DifferencesWithin(g, nx, ny, nx, 0, lo, hi);
  }

  const CHECK: real := 0.0000000001

  lemma CheckPasses(c: Config, g: Grid, differences: seq<real>)
    requires Valid(c) && IsGrid(g, c.x.cells, c.y.cells)
    requires differences == Differences(g, c.x.cells, c.y.cells, c.x.cells, 0)
    requires EdgesWithin(g, c.x.cells, c.y.cells, c.height.step.min - TOLERANCE, c.height.step.max + TOLERANCE)
    ensures AllWithin(differences, c.height.step.min - CHECK, c.height.step.max + CHECK)
  {
    var lo, hi := c.height.step.min - CHECK, c.height.step.max + CHECK;
    EdgesLoosen(g, c.x.cells, c.y.cells, c.height.step.min - TOLERANCE, c.height.step.max + TOLERANCE, lo, hi);
    DifferencesAreEdges(g, c.x.cells, c.y.cells, lo, hi);
  }

  /** Each height is the sum of one value of each walk and of the cell's jitter, above the lowest plus the jitter. */
  ghost predicate IsSumOfWalks(c: Config, g: Grid, drawsX: seq<Draw>, drawsY: seq<Draw>, jitters: Grid,
                               phases: (real, real), sine: real -> real, twoPi: real)
    requires ValidGrid(c.x, c.y) && IsGrid(g, c.x.cells, c.y.cells) && IsGrid(jitters, c.x.cells, c.y.cells)
    requires |drawsX| == c.x.cells && |drawsY| == c.y.cells
  {
    exists xs: seq<real>, ys: seq<real> ::
      && |xs| == c.x.cells && |ys| == c.y.cells
      && Walks(c, c.x, drawsX, phases.0, sine, twoPi, xs) && Walks(c, c.y, drawsY, phases.1, sine, twoPi, ys)
      && forall i, j :: 0 <= i < |xs| && 0 <= j < |ys| ==>
           g[i][j] == c.height.min + (xs[i] + ys[j]) + (c.height.jitter + jitters[i][j])
  }

  /** The heights of a valid configuration, whatever is drawn. */
  method Walk(c: Config, drawsX: seq<Draw>, drawsY: seq<Draw>, jitters: Grid, phases: (real, real),
              sine: real -> real, twoPi: real, root: real -> real)
    returns (heights: Grid)
    requires IsRoot(root)
    requires Valid(c) && |drawsX| == c.x.cells && |drawsY| == c.y.cells && AllInRange(drawsX) && AllInRange(drawsY)
    requires IsGrid(jitters, c.x.cells, c.y.cells) && Jitters(c.height, jitters)
    ensures IsGrid(heights, c.x.cells, c.y.cells) && InEnvelope(c.height, heights)
    ensures EdgesWithin(heights, c.x.cells, c.y.cells, c.height.step.min - TOLERANCE, c.height.step.max + TOLERANCE)
    ensures IsSumOfWalks(c, heights, drawsX, drawsY, jitters, phases, sine, twoPi)
  {
    var xs := AxisProfile(c, c.x, drawsX, phases.0, sine, twoPi, root);
    var ys := AxisProfile(c, c.y, drawsY, phases.1, sine, twoPi, root);
    heights := Heights(c.height, xs, ys, jitters);
    WalkedHeights(c.height, xs, ys, jitters, c.x.cells, c.y.cells);
  }

  lemma WalkedHeights(h: Height, xs: seq<real>, ys: seq<real>, jitters: Grid, nx: int, ny: int)
    requires ValidHeight(h) && |xs| == nx && |ys| == ny && Profile(h, xs, |xs|) && Profile(h, ys, |ys|)
    requires IsGrid(jitters, nx, ny) && Jitters(h, jitters)
    ensures InEnvelope(h, Heights(h, xs, ys, jitters))
    ensures EdgesWithin(Heights(h, xs, ys, jitters), nx, ny, h.step.min - TOLERANCE, h.step.max + TOLERANCE)
  {
    HeightsInEnvelope(h, xs, ys, jitters);
    StepsAreBounded(h, xs, ys, jitters, h.step.min - TOLERANCE, h.step.max + TOLERANCE);
  }

  /**
   `generate_heights`: nothing but an invalid configuration makes it fail, whatever is drawn, and
   the heights keep the configured range and steps.
   */
  method GenerateHeights(c: Config, drawsX: seq<Draw>, drawsY: seq<Draw>, jitters: Grid, phases: (real, real),
                         sine: real -> real, twoPi: real, root: real -> real)
    returns (result: Option<Grid>)
    requires IsRoot(root)
    requires |drawsX| == c.x.cells && |drawsY| == c.y.cells && AllInRange(drawsX) && AllInRange(drawsY)
    requires IsGrid(jitters, c.x.cells, c.y.cells) && Jitters(c.height, jitters)
    ensures result.Some? <==> Valid(c)
    ensures result.Some? ==> IsGrid(result.value, c.x.cells, c.y.cells) && InEnvelope(c.height, result.value)
    ensures result.Some? ==>
              EdgesWithin(result.value, c.x.cells, c.y.cells, c.height.step.min - TOLERANCE,
                  c.height.step.max + TOLERANCE)
    ensures result.Some? ==> IsSumOfWalks(c, result.value, drawsX, drawsY, jitters, phases, sine, twoPi)
  {
    if !Valid(c) {
      return None;
    }
    var heights := Walk(c, drawsX, drawsY, jitters, phases, sine, twoPi, root);
    var differences := AdjacentDifferences(heights, c.x.cells, c.y.cells);
    CheckPasses(c, heights, differences);
    if !AllWithin(differences, c.height.step.min - CHECK, c.height.step.max + CHECK) {
      return None;
    }
    result := Some(heights);
  }

  lemma EdgesLoosen(g: Grid, nx: int, ny: int, lo: real, hi: real, lower: real, higher: real)
    requires IsGrid(g, nx, ny) && EdgesWithin(g, nx, ny, lo, hi) && lower <= lo && hi <= higher
    ensures EdgesWithin(g, nx, ny, lower, higher)
  {
    forall i, j | 0 <= i < nx && 0 <= j < ny
      ensures CellWithin(g, nx, ny, i, j, lower, higher)
    {
      assert CellWithin(g, nx, ny, i, j, lo, hi);
    }
  }
}
