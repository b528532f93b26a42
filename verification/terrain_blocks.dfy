/**
 The boxes of the uneven terrain: one rectangle per grid cell, clipped to an exact rectangular
 opening. Boxes have positive size, stay in the field, never overlap, and miss the opening.
 */
module TerrainBlocks {
  import opened Basics
  import opened TerrainConfig
  import TerrainHeights

  datatype Rect = Rect(x0: real, x1: real, y0: real, y1: real)

  predicate Solid(r: Rect) { r.x0 < r.x1 && r.y0 < r.y1 }

  predicate Inside(r: Rect, s: Rect) { s.x0 <= r.x0 && r.x1 <= s.x1 && s.y0 <= r.y0 && r.y1 <= s.y1 }

  /** No point is inside both. */
  predicate Apart(r: Rect, s: Rect) { r.x1 <= s.x0 || s.x1 <= r.x0 || r.y1 <= s.y0 || s.y1 <= r.y0 }

  predicate Holds(r: Rect, x: real, y: real) { r.x0 <= x <= r.x1 && r.y0 <= y <= r.y1 }

  function Area(r: Rect): real { (r.x1 - r.x0) * (r.y1 - r.y0) }

  /** Parts thinner than this are dropped. */
  const THIN: real := 0.0000000001

  predicate Thick(r: Rect) { r.x1 - r.x0 > THIN && r.y1 - r.y0 > THIN }

  /** The rectangle of the configured size about the configured centre. */
  function Opening(p: Patch): (o: Rect)
    ensures o.x1 - o.x0 == p.sizeX && o.x0 + o.x1 == 2.0 * p.centerX
    ensures o.y1 - o.y0 == p.sizeY && o.y0 + o.y1 == 2.0 * p.centerY
  {
    Rect(p.centerX - p.sizeX / 2.0, p.centerX + p.sizeX / 2.0, p.centerY - p.sizeY / 2.0, p.centerY + p.sizeY / 2.0)
  }

  // ---- clipping one cell ----

  function Overlap(r: Rect, o: Rect): Rect {
    Rect(Larger(r.x0, o.x0), Smaller(r.x1, o.x1), Larger(r.y0, o.y0), Smaller(r.y1, o.y1))
  }

  /** Left and right of the overlap over the whole height, then below and above it. */
  function Around(r: Rect, m: Rect): (parts: seq<Rect>)
    ensures |parts| == 4
  {
    [Rect(r.x0, m.x0, r.y0, r.y1), Rect(m.x1, r.x1, r.y0, r.y1),
     Rect(m.x0, m.x1, r.y0, m.y0), Rect(m.x0, m.x1, m.y1, r.y1)]
  }

  function ThickOnly(parts: seq<Rect>): (kept: seq<Rect>)
    ensures |kept| <= |parts|
    ensures forall k :: 0 <= k < |kept| ==> Thick(kept[k]) && kept[k] in parts
    ensures forall r :: r in parts && Thick(r) ==> r in kept
  {
    if parts == [] then []
    else if Thick(parts[0]) then [parts[0]] + ThickOnly(parts[1..])
    else ThickOnly(parts[1..])
  }

  predicate NoOpening(p: Patch) { p.sizeX == 0.0 && p.sizeY == 0.0 }

  predicate Missed(r: Rect, p: Patch) {
    var m := Overlap(r, Opening(p));
    NoOpening(p) || m.x0 >= m.x1 || m.y0 >= m.y1
  }

  /** `outside_patch`. */
  function OutsidePatch(r: Rect, p: Patch): seq<Rect> {
    if Missed(r, p) then [r] else ThickOnly(Around(r, Overlap(r, Opening(p))))
  }

  predicate PairwiseApart(parts: seq<Rect>) {
    forall i, j :: 0 <= i < j < |parts| ==> Apart(parts[i], parts[j])
  }

  lemma {:induction false} ThickOnlyKeepsApart(parts: seq<Rect>)
    requires PairwiseApart(parts)
    ensures PairwiseApart(ThickOnly(parts))
  {
    if parts != [] {
      var rest := parts[1..];
      assert forall i, j :: 0 <= i < j < |rest| ==> rest[i] == parts[i + 1] && rest[j] == parts[j + 1];
      ThickOnlyKeepsApart(rest);
      var kept := ThickOnly(rest);
      forall j | 0 <= j < |kept|
        ensures Apart(parts[0], kept[j])
      {
        var k :| 0 <= k < |rest| && rest[k] == kept[j];
        assert parts[k + 1] == kept[j];
      }
    }
  }

  /** What clipping leaves: solid parts of the cell, pairwise apart, all outside the opening. */
  lemma PartsAreClean(r: Rect, p: Patch)
    requires Solid(r) && (NoOpening(p) || (p.sizeX > 0.0 && p.sizeY > 0.0))
    ensures var parts := OutsidePatch(r, p);
            && PairwiseApart(parts)
            && forall k :: 0 <= k < |parts| ==>
                 Solid(parts[k]) && Inside(parts[k], r) && (NoOpening(p) || Apart(parts[k], Opening(p)))
  {
    var parts := OutsidePatch(r, p);
    if !Missed(r, p) {
      var m := Overlap(r, Opening(p));
      ThickOnlyKeepsApart(Around(r, m));
      forall k | 0 <= k < |parts|
        ensures Solid(parts[k]) && Inside(parts[k], r) && Apart(parts[k], Opening(p))
      {
      }
    }
  }

  function TotalArea(parts: seq<Rect>): real {
    if parts == [] then 0.0 else Area(parts[0]) + TotalArea(parts[1..])
  }

  /** The strips that are dropped for being thin. */
  function Dropped(parts: seq<Rect>): (thin: seq<Rect>)
    ensures forall k :: 0 <= k < |thin| ==> !Thick(thin[k]) && thin[k] in parts
    ensures forall r :: r in parts && !Thick(r) ==> r in thin
  {
    if parts == [] then []
    else if Thick(parts[0]) then Dropped(parts[1..])
    else [parts[0]] + Dropped(parts[1..])
  }

  lemma {:induction false} KeptAndDropped(parts: seq<Rect>)
    ensures TotalArea(ThickOnly(parts)) + TotalArea(Dropped(parts)) == TotalArea(parts)
  {
    if parts != [] {
      var first, rest := parts[0], parts[1..];
      KeptAndDropped(rest);
      if Thick(first) {
        assert ([first] + ThickOnly(rest))[1..] == ThickOnly(rest);
      } else {
        assert ([first] + Dropped(rest))[1..] == Dropped(rest);
      }
    }
  }

  lemma FourAreas(a: Rect, b: Rect, c: Rect, d: Rect)
    ensures TotalArea([a, b, c, d]) == Area(a) + Area(b) + Area(c) + Area(d)
  {
    assert [a, b, c, d][1..] == [b, c, d] && [b, c, d][1..] == [c, d] && [c, d][1..] == [d] && [d][1..] == [];
    assert TotalArea([d]) == Area(d);
    assert TotalArea([c, d]) == Area(c) + TotalArea([d]);
    assert TotalArea([b, c, d]) == Area(b) + TotalArea([c, d]);
  }

  lemma AroundArea(r: Rect, m: Rect)
    ensures TotalArea(Around(r, m)) + Area(m) == Area(r)
  {
    var parts := Around(r, m);
    FourAreas(parts[0], parts[1], parts[2], parts[3]);
  }

  /** The strips of this cell that are dropped. */
  function Strips(r: Rect, p: Patch): seq<Rect> {
    if Missed(r, p) then [] else Dropped(Around(r, Overlap(r, Opening(p))))
  }

  /** The cell's area is that of its parts, of its overlap with the opening, and of the thin strips dropped. */
  lemma AreaIsAccountedFor(r: Rect, p: Patch)
    ensures var taken := if Missed(r, p) then 0.0 else Area(Overlap(r, Opening(p)));
            TotalArea(OutsidePatch(r, p)) + TotalArea(Strips(r, p)) + taken == Area(r)
    ensures forall k :: 0 <= k < |Strips(r, p)| ==> !Thick(Strips(r, p)[k])
  {
    if Missed(r, p) {
      assert [r][1..] == [];
    } else {
      var m := Overlap(r, Opening(p));
      KeptAndDropped(Around(r, m));
      AroundArea(r, m);
    }
  }

  predicate Covers(parts: seq<Rect>, x: real, y: real) {
    exists k :: 0 <= k < |parts| && Holds(parts[k], x, y)
  }

  /** Every point of the cell is in a part, in the opening or in a dropped strip. */
  lemma PointsAreCovered(r: Rect, p: Patch, x: real, y: real)
    requires Holds(r, x, y)
    ensures Covers(OutsidePatch(r, p), x, y) || (!NoOpening(p) && Holds(Opening(p), x, y)) || Covers(Strips(r, p), x, y)
  {
    if Missed(r, p) {
      assert Holds([r][0], x, y);
    } else {
      var m := Overlap(r, Opening(p));
      var parts := Around(r, m);
      if !Holds(m, x, y) {
        var k := if x < m.x0 then 0 else if x > m.x1 then 1 else if y < m.y0 then 2 else 3;
        var part := parts[k];
        assert Holds(part, x, y) && part in parts;
        if Thick(part) {
          var i :| 0 <= i < |ThickOnly(parts)| && ThickOnly(parts)[i] == part;
        } else {
          var i :| 0 <= i < |Dropped(parts)| && Dropped(parts)[i] == part;
        }
      }
    }
  }

  // ---- the grid of cells ----

  /** Where cell `i` of the axis starts, before the gap. */
  function Edge(a: Axis, i: int): real
    requires a.cells > 0
  {
    -a.length / 2.0 + (i as real) * a.length / (a.cells as real)
  }

  function Cell(c: Config, i: int, j: int): Rect
    requires c.x.cells > 0 && c.y.cells > 0
  {
    Rect(Edge(c.x, i) + c.gap / 2.0, Edge(c.x, i + 1) - c.gap / 2.0,
         Edge(c.y, j) + c.gap / 2.0, Edge(c.y, j + 1) - c.gap / 2.0)
  }

  function Field(c: Config): Rect {
    Rect(-c.x.length / 2.0, c.x.length / 2.0, -c.y.length / 2.0, c.y.length / 2.0)
  }

  /** Edges are one pitch apart. */
  lemma EdgePitch(a: Axis, i: int)
    requires a.cells > 0
    ensures Edge(a, i) == -a.length / 2.0 + (i as real) * (a.length / (a.cells as real))
    ensures Edge(a, i + 1) == Edge(a, i) + a.length / (a.cells as real)
    ensures Edge(a, 0) == -a.length / 2.0 && Edge(a, a.cells) == a.length / 2.0
  {
    var n := a.cells as real;
    assert (i as real) * a.length / n == (i as real) * (a.length / n);
    assert ((i + 1) as real) * a.length / n == (i as real) * (a.length / n) + a.length / n;
    assert n * a.length / n == a.length;
  }

  lemma EdgesGrow(a: Axis, i: int, k: int)
    requires a.cells > 0 && a.length > 0.0 && i <= k
    ensures Edge(a, i) <= Edge(a, k)
    decreases k - i
  {
    if i < k {
      EdgesGrow(a, i, k - 1);
      EdgePitch(a, k - 1);
    }
  }

  predicate IsCell(c: Config, i: int, j: int) {
    0 <= i < c.x.cells && 0 <= j < c.y.cells
  }

  lemma CellIsInField(c: Config, i: int, j: int)
    requires Valid(c) && IsCell(c, i, j)
    ensures Solid(Cell(c, i, j)) && Inside(Cell(c, i, j), Field(c))
  {
    EdgePitch(c.x, i);
    EdgePitch(c.y, j);
    EdgesGrow(c.x, 0, i);
    EdgesGrow(c.x, i + 1, c.x.cells);
    EdgesGrow(c.y, 0, j);
    EdgesGrow(c.y, j + 1, c.y.cells);
  }

  lemma CellsAreApart(c: Config, i: int, j: int, k: int, l: int)
    requires Valid(c) && IsCell(c, i, j) && IsCell(c, k, l) && (i != k || j != l)
    ensures Apart(Cell(c, i, j), Cell(c, k, l))
  {
    if i < k {
      EdgesGrow(c.x, i + 1, k);
    } else if k < i {
      EdgesGrow(c.x, k + 1, i);
    } else if j < l {
      EdgesGrow(c.y, j + 1, l);
    } else {
      EdgesGrow(c.y, l + 1, j);
    }
  }

  lemma {:induction false} AxisIsTiled(a: Axis, n: int, v: real) returns (i: int)
    requires a.cells > 0 && n >= 1 && Edge(a, 0) <= v <= Edge(a, n)
    ensures 0 <= i < n && Edge(a, i) <= v <= Edge(a, i + 1)
    decreases n
  {
    if n == 1 || Edge(a, n - 1) <= v {
      i := n - 1;
    } else {
      i := AxisIsTiled(a, n - 1, v);
    }
  }

  function Widened(r: Rect, margin: real): Rect {
    Rect(r.x0 - margin, r.x1 + margin, r.y0 - margin, r.y1 + margin)
  }

  /** Every point of the field is in a cell, or in the gap around one; with no gap the cells tile the field. */
  lemma FieldIsTiled(c: Config, x: real, y: real) returns (i: int, j: int)
    requires Valid(c) && Holds(Field(c), x, y)
    ensures IsCell(c, i, j) && Holds(Widened(Cell(c, i, j), c.gap / 2.0), x, y)
  {
    EdgePitch(c.x, 0);
    EdgePitch(c.y, 0);
    i := AxisIsTiled(c.x, c.x.cells, x);
    j := AxisIsTiled(c.y, c.y.cells, y);
  }

  // ---- the boxes ----

  datatype Vector = Vector(x: real, y: real, z: real)

  datatype Block = Block(i: int, j: int, part: nat, pos: Vector, size: Vector)

  function Footprint(b: Block): Rect {
    Rect(b.pos.x - b.size.x / 2.0, b.pos.x + b.size.x / 2.0, b.pos.y - b.size.y / 2.0, b.pos.y + b.size.y / 2.0)
  }

  function Top(b: Block): real { b.pos.z + b.size.z / 2.0 }

  function Bottom(b: Block): real { b.pos.z - b.size.z / 2.0 }

  function Box(r: Rect, i: int, j: int, part: nat, top: real, bottom: real): (b: Block)
    ensures Footprint(b) == r && Top(b) == top && Bottom(b) == bottom
  {
    Block(i, j, part, Vector((r.x0 + r.x1) / 2.0, (r.y0 + r.y1) / 2.0, (top + bottom) / 2.0),
          Vector(r.x1 - r.x0, r.y1 - r.y0, top - bottom))
  }

  function CellParts(c: Config, i: int, j: int): seq<Rect>
    requires c.x.cells > 0 && c.y.cells > 0
  {
    OutsidePatch(Cell(c, i, j), c.patch)
  }

  /** A box of cell (i, j): one of its parts, from the bottom up to the cell's height. */
  predicate IsBoxOf(c: Config, heights: TerrainHeights.Grid, b: Block)
    requires c.x.cells > 0 && c.y.cells > 0 && TerrainHeights.IsGrid(heights, c.x.cells, c.y.cells)
  {
    && IsCell(c, b.i, b.j) && b.part < |CellParts(c, b.i, b.j)|
    && b == Box(CellParts(c, b.i, b.j)[b.part], b.i, b.j, b.part, heights[b.i][b.j], -c.depth)
  }

  /** The order in which the boxes are appended. */
  predicate Before(a: Block, b: Block) {
    a.i < b.i || (a.i == b.i && (a.j < b.j || (a.j == b.j && a.part < b.part)))
  }

  /** Everything before box `p` of cell (i, j) has been appended, once and in order, and nothing else. */
  ghost predicate Emitted(c: Config, heights: TerrainHeights.Grid, blocks: seq<Block>, i: int, j: int, p: nat)
    requires c.x.cells > 0 && c.y.cells > 0 && TerrainHeights.IsGrid(heights, c.x.cells, c.y.cells)
  {
    && (forall k :: 0 <= k < |blocks| ==> IsBoxOf(c, heights, blocks[k]) && Reached(blocks[k], i, j, p))
    && (forall k, l :: 0 <= k < l < |blocks| ==> Before(blocks[k], blocks[l]))
    && (forall b: Block :: IsBoxOf(c, heights, b) && Reached(b, i, j, p) ==> b in blocks)
  }

  predicate Reached(b: Block, i: int, j: int, p: nat) {
    b.i < i || (b.i == i && (b.j < j || (b.j == j && b.part < p)))
  }

  lemma BoxesAreApart(c: Config, heights: TerrainHeights.Grid, a: Block, b: Block)
    requires Valid(c) && TerrainHeights.IsGrid(heights, c.x.cells, c.y.cells)
    requires IsBoxOf(c, heights, a) && IsBoxOf(c, heights, b) && Before(a, b)
    ensures Apart(Footprint(a), Footprint(b))
  {
    CellIsInField(c, a.i, a.j);
    CellIsInField(c, b.i, b.j);
    PartsAreClean(Cell(c, a.i, a.j), c.patch);
    PartsAreClean(Cell(c, b.i, b.j), c.patch);
    if a.i != b.i || a.j != b.j {
      CellsAreApart(c, a.i, a.j, b.i, b.j);
    }
  }

  /**
   A box has positive size, lies in the field, stands on the bottom and reaches its cell's height, and
   misses the opening.
   */
  lemma BoxIsClean(c: Config, heights: TerrainHeights.Grid, b: Block)
    requires Valid(c) && TerrainHeights.IsGrid(heights, c.x.cells, c.y.cells) && IsBoxOf(c, heights, b)
    requires TerrainHeights.InEnvelope(c.height, heights)
    ensures Solid(Footprint(b)) && Inside(Footprint(b), Field(c))
    ensures Bottom(b) == -c.depth < heights[b.i][b.j] == Top(b)
    ensures NoOpening(c.patch) || Apart(Footprint(b), Opening(c.patch))
  {
    CellIsInField(c, b.i, b.j);
    PartsAreClean(Cell(c, b.i, b.j), c.patch);
  }

  predicate BlocksApart(blocks: seq<Block>) {
    forall k, l :: 0 <= k < l < |blocks| ==> Apart(Footprint(blocks[k]), Footprint(blocks[l]))
  }

  /** The box of part `p`, appended to those before it. */
  lemma EmittedOneMore(c: Config, heights: TerrainHeights.Grid, blocks: seq<Block>, i: int, j: int, p: nat, b: Block)
    requires c.x.cells > 0 && c.y.cells > 0 && TerrainHeights.IsGrid(heights, c.x.cells, c.y.cells)
    requires Emitted(c, heights, blocks, i, j, p) && IsBoxOf(c, heights, b) && b.i == i && b.j == j && b.part == p
    ensures Emitted(c, heights, blocks + [b], i, j, p + 1)
  {
    var more := blocks + [b];
    forall k | 0 <= k < |more|
      ensures IsBoxOf(c, heights, more[k]) && Reached(more[k], i, j, p + 1)
    {
      if k < |blocks| {
        assert Reached(blocks[k], i, j, p);
      }
    }
    forall k, l | 0 <= k < l < |more|
      ensures Before(more[k], more[l])
    {
      if l == |blocks| {
        assert Reached(blocks[k], i, j, p);
      }
    }
    forall q: Block | IsBoxOf(c, heights, q) && Reached(q, i, j, p + 1)
      ensures q in more
    {
      if Reached(q, i, j, p) {
        assert q in blocks;
      } else {
        assert q == b == more[|blocks|];
      }
    }
  }

  /** What was emitted for the whole grid: every part of every cell, once, with no two boxes overlapping. */
  lemma EmittedIsClean(c: Config, heights: TerrainHeights.Grid, blocks: seq<Block>)
    requires Valid(c) && TerrainHeights.IsGrid(heights, c.x.cells, c.y.cells)
    requires Emitted(c, heights, blocks, c.x.cells, 0, 0)
    ensures BlocksApart(blocks)
    ensures forall b: Block :: b in blocks <==> IsBoxOf(c, heights, b)
  {
    forall k, l | 0 <= k < l < |blocks|
      ensures Apart(Footprint(blocks[k]), Footprint(blocks[l]))
    {
      assert Before(blocks[k], blocks[l]);
      BoxesAreApart(c, heights, blocks[k], blocks[l]);
    }
    forall b: Block
      ensures b in blocks <==> IsBoxOf(c, heights, b)
    {
      if IsBoxOf(c, heights, b) {
        assert Reached(b, c.x.cells, 0, 0);
      }
    }
  }

  // ---- when a box is left ----

  /** The ends of cell `i` along an axis, less the gap. */
  function Low(a: Axis, gap: real, i: int): real
    requires a.cells > 0
  {
    Edge(a, i) + gap / 2.0
  }

  function High(a: Axis, gap: real, i: int): real
    requires a.cells > 0
  {
    Edge(a, i + 1) - gap / 2.0
  }

  /** The opening from `o0` to `o1` reaches into the first and into the last cell of the axis. */
  predicate Spans(a: Axis, gap: real, o0: real, o1: real)
    requires a.cells > 0
  {
    o0 < High(a, gap, 0) && Low(a, gap, a.cells - 1) < o1
  }

  /** The first or the last cell sticks out of the opening by more than what is dropped. */
  predicate SticksOut(a: Axis, gap: real, o0: real, o1: real)
    requires a.cells > 0
  {
    o0 - Low(a, gap, 0) > THIN || High(a, gap, a.cells - 1) - o1 > THIN
  }

  /** Cells are wider than what is dropped. */
  predicate Wide(a: Axis, gap: real)
    requires a.cells > 0
  {
    a.length / (a.cells as real) - gap > THIN
  }

  /** In some cell the opening is wider than what is dropped: in the first, the last or one between. */
  predicate Bites(a: Axis, gap: real, o0: real, o1: real)
    requires a.cells > 0
  {
    || High(a, gap, 0) - Larger(Low(a, gap, 0), o0) > THIN
    || Smaller(High(a, gap, a.cells - 1), o1) - Low(a, gap, a.cells - 1) > THIN
    || (a.cells >= 3 && Wide(a, gap))
  }

  /** What the configuration alone says about the error: at most the outermost cells have to be looked at. */
  predicate LeavesBlocks(c: Config)
    requires c.x.cells > 0 && c.y.cells > 0
  {
    var o := Opening(c.patch);
    || NoOpening(c.patch)
    || !Spans(c.x, c.gap, o.x0, o.x1) || !Spans(c.y, c.gap, o.y0, o.y1)
    || (SticksOut(c.x, c.gap, o.x0, o.x1) && Wide(c.y, c.gap))
    || (Bites(c.x, c.gap, o.x0, o.x1) && SticksOut(c.y, c.gap, o.y0, o.y1))
  }

  predicate ValidAxis(a: Axis, gap: real) {
    a.cells >= 2 && a.length > 0.0 && 0.0 <= gap < a.length / (a.cells as real)
  }

  lemma CellWidth(a: Axis, gap: real, i: int)
    requires ValidAxis(a, gap)
    ensures High(a, gap, i) - Low(a, gap, i) == a.length / (a.cells as real) - gap
  {
    EdgePitch(a, i);
  }

  /** Between the first and the last cell the opening covers everything. */
  lemma InnerIsCovered(a: Axis, gap: real, o0: real, o1: real, i: int)
    requires ValidAxis(a, gap) && Spans(a, gap, o0, o1) && 0 <= i < a.cells
    ensures i > 0 ==> o0 <= Low(a, gap, i)
    ensures i < a.cells - 1 ==> High(a, gap, i) <= o1
  {
    EdgePitch(a, i);
    if i > 0 {
      EdgesGrow(a, 1, i);
    }
    if i < a.cells - 1 {
      EdgesGrow(a, i + 1, a.cells - 1);
    }
  }

  /** How far cell `i` sticks out below and above, and how much of it the opening takes. */
  lemma CellAgainstOpening(a: Axis, gap: real, o0: real, o1: real, i: int)
    requires ValidAxis(a, gap) && Spans(a, gap, o0, o1) && o0 < o1 && 0 <= i < a.cells
    ensures var lo, hi := Low(a, gap, i), High(a, gap, i);
            var m0, m1 := Larger(lo, o0), Smaller(hi, o1);
            && m0 < m1
            && (!SticksOut(a, gap, o0, o1) ==> m0 - lo <= THIN && hi - m1 <= THIN)
            && (!Bites(a, gap, o0, o1) ==> m1 - m0 <= THIN)
            && hi - lo == a.length / (a.cells as real) - gap
  {
    CellWidth(a, gap, i);
    InnerIsCovered(a, gap, o0, o1, i);
  }

  lemma NoneThick(parts: seq<Rect>)
    requires forall k :: 0 <= k < |parts| ==> !Thick(parts[k])
    ensures ThickOnly(parts) == []
  {
    if parts != [] {
      NoneThick(parts[1..]);
    }
  }

  lemma NothingThick(r: Rect, m: Rect)
    requires (m.x0 - r.x0 <= THIN && r.x1 - m.x1 <= THIN) || r.y1 - r.y0 <= THIN
    requires (m.y0 - r.y0 <= THIN && r.y1 - m.y1 <= THIN) || m.x1 - m.x0 <= THIN
    ensures ThickOnly(Around(r, m)) == []
  {
    assert forall k :: 0 <= k < 4 ==> !Thick(Around(r, m)[k]);
    NoneThick(Around(r, m));
  }

  /** If the configuration says so, no cell leaves a part. */
  lemma NoPartsLeft(c: Config, i: int, j: int)
    requires Valid(c) && !LeavesBlocks(c) && IsCell(c, i, j)
    ensures CellParts(c, i, j) == []
  {
    var o, r := Opening(c.patch), Cell(c, i, j);
    CellAgainstOpening(c.x, c.gap, o.x0, o.x1, i);
    CellAgainstOpening(c.y, c.gap, o.y0, o.y1, j);
    NothingThick(r, Overlap(r, o));
  }

  lemma ThickPartStays(r: Rect, p: Patch, k: nat)
    requires k < 4 && (Missed(r, p) || Thick(Around(r, Overlap(r, Opening(p)))[k]))
    ensures OutsidePatch(r, p) != []
  {
    if !Missed(r, p) {
      assert Around(r, Overlap(r, Opening(p)))[k] in ThickOnly(Around(r, Overlap(r, Opening(p))));
    }
  }

  /** An axis on which the opening is wider than what is dropped in some cell, and the cell. */
  lemma CellBitten(a: Axis, gap: real, o0: real, o1: real) returns (i: int)
    requires ValidAxis(a, gap) && o0 < o1 && Spans(a, gap, o0, o1) && Bites(a, gap, o0, o1)
    ensures 0 <= i < a.cells && Smaller(High(a, gap, i), o1) - Larger(Low(a, gap, i), o0) > THIN
  {
    CellWidth(a, gap, 1);
    InnerIsCovered(a, gap, o0, o1, 0);
    InnerIsCovered(a, gap, o0, o1, 1);
    InnerIsCovered(a, gap, o0, o1, a.cells - 1);
    i := if High(a, gap, 0) - Larger(Low(a, gap, 0), o0) > THIN then 0
         else if Smaller(High(a, gap, a.cells - 1), o1) - Low(a, gap, a.cells - 1) > THIN then a.cells - 1
         else 1;
  }

  /** If the configuration says so, some cell leaves a part. */
  lemma SomePartLeft(c: Config) returns (i: int, j: int)
    requires Valid(c) && LeavesBlocks(c)
    ensures IsCell(c, i, j) && CellParts(c, i, j) != []
  {
    var o := Opening(c.patch);
    i, j := 0, 0;
    CellIsInField(c, 0, 0);
    if NoOpening(c.patch) {
    } else if !Spans(c.x, c.gap, o.x0, o.x1) {
      i := if o.x0 >= High(c.x, c.gap, 0) then 0 else c.x.cells - 1;
    } else if !Spans(c.y, c.gap, o.y0, o.y1) {
      j := if o.y0 >= High(c.y, c.gap, 0) then 0 else c.y.cells - 1;
    } else if SticksOut(c.x, c.gap, o.x0, o.x1) && Wide(c.y, c.gap) {
      i := PartBeside(c);
    } else {
      i, j := PartBelowOrAbove(c);
    }
  }

  lemma PartBeside(c: Config) returns (i: int)
    requires Valid(c) && !NoOpening(c.patch) && Wide(c.y, c.gap)
    requires var o := Opening(c.patch);
             && Spans(c.x, c.gap, o.x0, o.x1) && Spans(c.y, c.gap, o.y0, o.y1)
             && SticksOut(c.x, c.gap, o.x0, o.x1)
    ensures IsCell(c, i, 0) && CellParts(c, i, 0) != []
  {
    var left := Opening(c.patch).x0 - Low(c.x, c.gap, 0) > THIN;
    i := if left then 0 else c.x.cells - 1;
    CellIsInField(c, i, 0);
    CellWidth(c.y, c.gap, 0);
    ThickPartStays(Cell(c, i, 0), c.patch, if left then 0 else 1);
  }

  lemma PartBelowOrAbove(c: Config) returns (i: int, j: int)
    requires Valid(c) && !NoOpening(c.patch)
    requires var o := Opening(c.patch);
             && Spans(c.x, c.gap, o.x0, o.x1) && Spans(c.y, c.gap, o.y0, o.y1) && LeavesBlocks(c)
             && !(SticksOut(c.x, c.gap, o.x0, o.x1) && Wide(c.y, c.gap))
    ensures IsCell(c, i, j) && CellParts(c, i, j) != []
  {
    var o := Opening(c.patch);
    var below := o.y0 - Low(c.y, c.gap, 0) > THIN;
    i := CellBitten(c.x, c.gap, o.x0, o.x1);
    j := if below then 0 else c.y.cells - 1;
    CellIsInField(c, i, j);
    ThickPartStays(Cell(c, i, j), c.patch, if below then 2 else 3);
  }

  /** A box is left if and only if the configuration says so, whatever the heights. */
  lemma BoxIsLeft(c: Config, heights: TerrainHeights.Grid)
    requires Valid(c) && TerrainHeights.IsGrid(heights, c.x.cells, c.y.cells)
    ensures (exists b: Block :: IsBoxOf(c, heights, b)) <==> LeavesBlocks(c)
  {
    if LeavesBlocks(c) {
      var i, j := SomePartLeft(c);
      assert IsBoxOf(c, heights, Box(CellParts(c, i, j)[0], i, j, 0, heights[i][j], -c.depth));
    } else {
      forall b: Block
        ensures !IsBoxOf(c, heights, b)
      {
        if IsCell(c, b.i, b.j) {
          NoPartsLeft(c, b.i, b.j);
        }
      }
    }
  }

  /** With cells wider than twice what is dropped: a box is left exactly if a cell sticks out on some side. */
  lemma BoxIsLeftExactlyWhenACellSticksOut(c: Config)
    requires Valid(c)
    requires c.x.length / (c.x.cells as real) - c.gap > 2.0 * THIN
    requires c.y.length / (c.y.cells as real) - c.gap > 2.0 * THIN
    ensures var o := Opening(c.patch);
            LeavesBlocks(c) <==> NoOpening(c.patch) || SticksOut(c.x, c.gap, o.x0, o.x1)
                                 || SticksOut(c.y, c.gap, o.y0, o.y1)
  {
    CellWidth(c.x, c.gap, 0);
    CellWidth(c.x, c.gap, c.x.cells - 1);
    CellWidth(c.y, c.gap, 0);
    CellWidth(c.y, c.gap, c.y.cells - 1);
  }

  /** `generate_blocks`: the boxes of all parts of all cells; an error only when there is none. */
  method GenerateBlocks(c: Config, heights: TerrainHeights.Grid) returns (result: Option<seq<Block>>)
    requires Valid(c) && TerrainHeights.IsGrid(heights, c.x.cells, c.y.cells)
    ensures result.Some? <==> LeavesBlocks(c)
    ensures result.Some? ==>
              BlocksApart(result.value) && forall b: Block :: b in result.value <==> IsBoxOf(c, heights, b)
  {
    var blocks: seq<Block> := [];
    for i := 0 to c.x.cells
      invariant Emitted(c, heights, blocks, i, 0, 0)
    {
      for j := 0 to c.y.cells
        invariant Emitted(c, heights, blocks, i, j, 0)
      {
        var parts := CellParts(c, i, j);
        for p := 0 to |parts|
          invariant Emitted(c, heights, blocks, i, j, p)
        {
          var b := Box(parts[p], i, j, p, heights[i][j], -c.depth);
          EmittedOneMore(c, heights, blocks, i, j, p, b);
          blocks := blocks + [b];
        }
      }
    }
    EmittedIsClean(c, heights, blocks);
    BoxIsLeft(c, heights);
    if blocks == [] {
      return None;
    }
    assert IsBoxOf(c, heights, blocks[0]);
    result := Some(blocks);
  }

  // ---- what the validation asks for ----

  /** There are cells, not too many, and between the gaps something is left of each. */
  ghost predicate GridMakesCells(c: Config) {
    && c.x.length > 0.0 && c.y.length > 0.0 && c.gap >= 0.0
    && 2 <= c.x.cells && 2 <= c.y.cells && c.x.cells * c.y.cells <= 10000
    && forall i, j :: IsCell(c, i, j) ==> Solid(Cell(c, i, j))
  }

  /**
   The least step, with jitter on both sides, is no longer than the longest, and from everywhere
   there is room for it up or down.
   */
  ghost predicate WalkHasSteps(h: Height) {
    && 0.0 < h.step.min <= h.step.mode <= h.step.max && 0.0 <= h.jitter
    && TerrainHeights.Least(h) <= TerrainHeights.Most(h) + TOLERANCE
    && forall p: real :: RoomSomewhere(h, p)
  }

  predicate RoomSomewhere(h: Height, p: real) {
    var least := h.step.min + 2.0 * h.jitter - TOLERANCE / 2.0;
    p >= least || (h.max - h.min) / 2.0 - h.jitter - p >= least
  }

  /** Whatever its sine, the trend stays in the span of an axis. */
  ghost predicate TrendStaysInSpan(c: Config) {
    && c.amplitude >= 0.0 && c.x.wavelength > 0.0 && c.y.wavelength > 0.0 && 0.0 <= c.strength <= 1.0
    && forall sine: real :: -1.0 <= sine <= 1.0 ==> 0.0 <= Trend(c, sine) <= Span(c.height)
  }

  function Trend(c: Config, sine: real): real {
    ((c.height.max - c.height.min) / 2.0 - c.height.jitter) / 2.0 + c.amplitude * sine
  }

  /** The opening lies in the field, and is a rectangle unless there is none. */
  predicate OpeningFits(c: Config) {
    && (NoOpening(c.patch) || Solid(Opening(c.patch)))
    && Inside(Opening(c.patch), Widened(Field(c), TOLERANCE))
  }

  /** A block of the least height has its top above the ground and its bottom below the top. */
  predicate LowestBlockStands(c: Config) {
    c.baseZ + c.height.min >= 0.0 && c.depth > 0.0 && -c.depth < c.height.min
  }

  /** Exactly the configurations that all this holds of are valid. */
  lemma ValidExactlyWhenTheFieldMakesSense(c: Config)
    ensures Valid(c) <==>
      && GridMakesCells(c) && WalkHasSteps(c.height) && TrendStaysInSpan(c) && OpeningFits(c) && LowestBlockStands(c)
      && 0.0 <= c.grey <= 1.0
      && |c.friction| == 3 && c.friction[0] >= 0.0 && c.friction[1] >= 0.0 && c.friction[2] >= 0.0
  {
    if c.x.cells >= 2 && c.y.cells >= 2 {
      GapLeavesCells(c);
    }
    assert RoomSomewhere(c.height, Span(c.height) / 2.0)
      <==> Span(c.height) >= 2.0 * (c.height.step.min + 2.0 * c.height.jitter) - TOLERANCE;
    assert (forall p: real :: RoomSomewhere(c.height, p)) <==> RoomSomewhere(c.height, Span(c.height) / 2.0);
    if c.amplitude >= 0.0 {
      AmplitudeBounds(c);
    }
  }

  lemma GapLeavesCells(c: Config)
    requires c.x.cells >= 2 && c.y.cells >= 2
    ensures (forall i, j :: IsCell(c, i, j) ==> Solid(Cell(c, i, j))) <==>
            c.gap < c.x.length / (c.x.cells as real) && c.gap < c.y.length / (c.y.cells as real)
  {
    forall i, j | IsCell(c, i, j)
      ensures Solid(Cell(c, i, j)) <==>
              c.gap < c.x.length / (c.x.cells as real) && c.gap < c.y.length / (c.y.cells as real)
    {
      EdgePitch(c.x, i);
      EdgePitch(c.y, j);
    }
    assert IsCell(c, 0, 0);
  }

  lemma AmplitudeBounds(c: Config)
    requires c.amplitude >= 0.0
    ensures (forall sine: real :: -1.0 <= sine <= 1.0 ==> 0.0 <= Trend(c, sine) <= Span(c.height)) <==>
            c.amplitude <= Span(c.height) / 2.0
  {
    assert Trend(c, 1.0) == Span(c.height) / 2.0 + c.amplitude;
    if c.amplitude <= Span(c.height) / 2.0 {
      forall sine: real | -1.0 <= sine <= 1.0
        ensures 0.0 <= Trend(c, sine) <= Span(c.height)
      {
        var up, down := 1.0 - sine, 1.0 + sine;
        assert c.amplitude * up >= 0.0 && c.amplitude * down >= 0.0;
      }
    }
  }
}
