/** The shared terrain configuration and its validation. */
module TerrainConfig {
  import opened Basics

  datatype Axis = Axis(length: real, cells: int, wavelength: real)

  datatype Distribution = Uniform | Triangular

  datatype Step = Step(min: real, max: real, mode: real, distribution: Distribution)

  datatype Height = Height(min: real, max: real, jitter: real, step: Step)

  datatype Patch = Patch(centerX: real, centerY: real, sizeX: real, sizeY: real)

  datatype Config = Config(x: Axis, y: Axis, height: Height, amplitude: real, strength: real,
                           baseZ: real, depth: real, gap: real, patch: Patch,
                           friction: seq<real>, grey: real)

  /** The slack the validation and the walk allow for rounding. */
  const TOLERANCE: real := 0.000000000001

  const CELL_LIMIT: int := 10000

  /** The part of the height range each axis may use. */
  function Span(h: Height): real {
    (h.max - h.min) / 2.0 - h.jitter
  }

  function Smaller(a: real, b: real): (m: real)
    ensures m <= a && m <= b && (m == a || m == b)
  {
    if b < a then b else a
  }

  function Larger(a: real, b: real): (m: real)
    ensures m >= a && m >= b && (m == a || m == b)
  {
    if b > a then b else a
  }

  predicate ValidGrid(x: Axis, y: Axis) {
    && x.length > 0.0 && y.length > 0.0
    && x.cells >= 2 && y.cells >= 2 && x.cells * y.cells <= CELL_LIMIT
    && x.wavelength > 0.0 && y.wavelength > 0.0
  }

  predicate ValidHeight(h: Height) {
    && 0.0 < h.step.min <= h.step.max
    && h.step.min <= h.step.mode <= h.step.max
    && 0.0 <= h.jitter && 4.0 * h.jitter <= h.step.max - h.step.min + TOLERANCE
    && Span(h) >= 2.0 * (h.step.min + 2.0 * h.jitter) - TOLERANCE
  }

  predicate ValidPatch(c: Config) {
    && ((c.patch.sizeX == 0.0 && c.patch.sizeY == 0.0) || (c.patch.sizeX > 0.0 && c.patch.sizeY > 0.0))
    && Abs(c.patch.centerX) + c.patch.sizeX / 2.0 <= c.x.length / 2.0 + TOLERANCE
    && Abs(c.patch.centerY) + c.patch.sizeY / 2.0 <= c.y.length / 2.0 + TOLERANCE
  }

  /** Three coefficients, and a shade between black and white. */
  predicate ValidSurface(c: Config) {
    && |c.friction| == 3 && (forall k :: 0 <= k < 3 ==> c.friction[k] >= 0.0)
    && 0.0 <= c.grey <= 1.0
  }

  /** `validate`; any seed and any yaw will do. */
  predicate Valid(c: Config) {
    && ValidGrid(c.x, c.y) && ValidHeight(c.height)
    && c.baseZ + c.height.min >= 0.0
    && c.depth > 0.0 && c.depth + c.height.min > 0.0
    && 0.0 <= c.gap && c.gap < c.x.length / (c.x.cells as real) && c.gap < c.y.length / (c.y.cells as real)
    && 0.0 <= c.strength <= 1.0
    && 0.0 <= c.amplitude <= Span(c.height) / 2.0
    && ValidPatch(c)
    && ValidSurface(c)
  }
}
