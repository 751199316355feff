/**
  The triangle-line tessellation (`TrianglesLine`) as a specification: the
  configuration it reads, the grid of cells it walks, and the polygon it
  emits at every position of the buffer. The generation loop itself is
  `ProceduralTriangles.Generator.TrianglesLine`, proved to produce exactly
  `LineBuffer`.
*/
module TriangleLine {
  import opened RandomStream
  import opened Colors
  import opened Palette
  import opened Geometry
  import opened Polygons
  import opened Arithmetic

  /** The fixed scene size the tile counts are computed from. */
  const SCREEN_WIDTH: real := 850.0
  const SCREEN_HEIGHT: real := 1125.0

  /** The triangle-line configuration (`ConfigTriangle`). */
  datatype ConfigTriangle = ConfigTriangle(
    height: real,
    widthPercent: real,
    offsetted: bool,
    colorRandom: real,
    nonRandomColors: bool,
    offsetX: real,
    offsetY: real,
    screenWidth: real,
    screenHeight: real,
    whiteLines: bool,
    lineWidth: real,
    lineAlpha: real,
    seed: real)

  /** The configuration's initial values. */
  const DefaultConfigTriangle := ConfigTriangle(
    138.4, 0.9588, true, 0.1, true, 82.0, 78.0, 640.0, 1419.0, false, 1.5, 1.0, 1234.0)

  /** The divisors the generator uses are positive. */
  predicate Generable(cfg: ConfigTriangle)
  {
    cfg.height > 0.0 && cfg.widthPercent > 0.0 && cfg.screenWidth > 0.0 && cfg.screenHeight > 0.0
  }

  /** The tile width, `width_percent * height`. */
  function TileWidth(cfg: ConfigTriangle): real
  {
    cfg.widthPercent * cfg.height
  }

  /** `count_height`: whole tile rows in the fixed scene height (truncation of a positive value). */
  function CountHeight(cfg: ConfigTriangle): nat
    requires Generable(cfg)
  {
    (SCREEN_HEIGHT / cfg.height).Floor
  }

  /** `count_width`: whole tile columns in the fixed scene width. */
  function CountWidth(cfg: ConfigTriangle): nat
    requires Generable(cfg)
  {
    assert TileWidth(cfg) > 0.0;
    (SCREEN_WIDTH / TileWidth(cfg)).Floor
  }

  /** Cells per row: columns -1 through `count_width`. */
  function Columns(cfg: ConfigTriangle): nat
    requires Generable(cfg)
  {
    CountWidth(cfg) + 2
  }

  /** Triangles emitted in all: two per cell, `count_height + 1` rows of cells. */
  function LineCount(cfg: ConfigTriangle): nat
    requires Generable(cfg)
  {
    2 * ((CountHeight(cfg) + 1) * Columns(cfg))
  }

  /** `color_width`: the horizontal gradient divisor, from the configured screen width. */
  function ColorWidth(cfg: ConfigTriangle): real
    requires Generable(cfg)
  {
    assert TileWidth(cfg) > 0.0;
    cfg.screenWidth / TileWidth(cfg)
  }

  /** `color_height`: the vertical gradient divisor, from the configured screen height. */
  function ColorHeight(cfg: ConfigTriangle): real
    requires Generable(cfg)
  {
    cfg.screenHeight / cfg.height
  }

  /** The top-left point of cell (iy, ix): even rows move half a tile right when offsetted. */
  function CellOrigin(cfg: ConfigTriangle, iy: int, ix: int): Vec2
  {
    var w := TileWidth(cfg);
    var x := ix as real * w;
    var y := iy as real * cfg.height;
    Vec2(if cfg.offsetted && iy % 2 == 0 then x + 0.5 * w else x, y)
  }

  /** The upward triangle of a cell whose origin is `o`. */
  function FirstVerts(cfg: ConfigTriangle, o: Vec2): seq<Vec2>
  {
    var w, h := TileWidth(cfg), cfg.height;
    [Vec2(o.x, o.y + h), Vec2(o.x + w * 0.5, o.y), Vec2(o.x + w, o.y + h)]
  }

  /** The downward triangle of a cell whose origin is `o`. */
  function SecondVerts(cfg: ConfigTriangle, o: Vec2): seq<Vec2>
  {
    var w, h := TileWidth(cfg), cfg.height;
    [Vec2(o.x + w * 0.5, o.y), Vec2(o.x + w, o.y + h), Vec2(o.x + w * 1.5, o.y)]
  }

  /** The gradient target of cell (iy, ix), before jitter. */
  function CellGradient(cfg: ConfigTriangle, iy: int, ix: int): Rgb
    requires Generable(cfg)
  {
    Gradient(ix as real / ColorWidth(cfg), iy as real / ColorHeight(cfg))
  }

  /** Position in the buffer of the first triangle of cell (iy, ix). */
  function CellIndex(cfg: ConfigTriangle, iy: int, ix: int): int
    requires Generable(cfg)
  {
    2 * (iy * Columns(cfg) + ix + 1)
  }

  /**
    The triangle at position `n` of the buffer: cell `n / 2` in row-major
    order over columns -1 .. count_width, the upward triangle for even `n`
    and the downward one for odd `n`; its colour is the palette entry the
    closest-colour scan selects for the cell's gradient jittered by draws
    3n, 3n + 1 and 3n + 2 of the stream seeded with `seed`; its vertices are
    moved by the offset.
  */
  function LineAt(cfg: ConfigTriangle, alg: Algorithm, dist: Distance, colors: seq<Pixel>, n: nat): Triangle
    requires Generable(cfg) && |colors| > 0
  {
    var cell := n / 2;
    var iy := cell / Columns(cfg);
    var ix := cell % Columns(cfg) - 1;
    var o := CellOrigin(cfg, iy, ix);
    var raw := if n % 2 == 0 then FirstVerts(cfg, o) else SecondVerts(cfg, o);
    var target := Jittered(alg, Rng(cfg.seed, 3 * n), cfg.colorRandom, CellGradient(cfg, iy, ix)).0;
    Triangle(ShiftVerts(raw, cfg.offsetX, cfg.offsetY), Entry(colors[ClosestIndex(colors, target, dist)]))
  }

  /** The whole buffer `TrianglesLine` leaves behind. */
  function LineBuffer(cfg: ConfigTriangle, alg: Algorithm, dist: Distance, colors: seq<Pixel>): seq<Triangle>
    requires Generable(cfg) && |colors| > 0
  {
    seq(LineCount(cfg), n requires 0 <= n < LineCount(cfg) => LineAt(cfg, alg, dist, colors, n))
  }

  /**
    Position `CellIndex(iy, ix) + s` of the buffer is triangle `s` of cell
    (iy, ix), coloured from the draws that follow the `3 * position` draws
    of the triangles before it.
  */
  lemma LineAtCell(cfg: ConfigTriangle, alg: Algorithm, dist: Distance, colors: seq<Pixel>,
                   iy: nat, ix: int, s: nat)
    requires Generable(cfg) && |colors| > 0
    requires iy <= CountHeight(cfg) && -1 <= ix <= CountWidth(cfg) && s < 2
    ensures 0 <= CellIndex(cfg, iy, ix) + s < LineCount(cfg)
    ensures var n := CellIndex(cfg, iy, ix) + s;
            var o := CellOrigin(cfg, iy, ix);
            var raw := if s == 0 then FirstVerts(cfg, o) else SecondVerts(cfg, o);
            var target := Jittered(alg, Rng(cfg.seed, 3 * n), cfg.colorRandom, CellGradient(cfg, iy, ix)).0;
            LineAt(cfg, alg, dist, colors, n) ==
              Triangle(ShiftVerts(raw, cfg.offsetX, cfg.offsetY), Entry(colors[ClosestIndex(colors, target, dist)]))
  {
    CellIndexDecode(cfg, iy, ix, s, CellIndex(cfg, iy, ix) + s);
  }

  /** Decoding buffer position `CellIndex(iy, ix) + s` gives back row iy, column ix and triangle s. */
  lemma CellIndexDecode(cfg: ConfigTriangle, iy: nat, ix: int, s: nat, n: int)
    requires Generable(cfg)
    requires iy <= CountHeight(cfg) && -1 <= ix <= CountWidth(cfg) && s < 2
    requires n == CellIndex(cfg, iy, ix) + s
    ensures 0 <= n < LineCount(cfg)
    ensures n / 2 / Columns(cfg) == iy && n / 2 % Columns(cfg) - 1 == ix && n % 2 == s
  {
    var w := Columns(cfg);
    var cell := iy * w + ix + 1;
    DivModUnique(n, 2, cell, s);
    DivModUnique(cell, w, iy, ix + 1);
    assert iy * w <= CountHeight(cfg) * w by {
      if iy < CountHeight(cfg) {
        assert (CountHeight(cfg) - iy) * w >= 0;
      }
    }
    assert cell < (CountHeight(cfg) + 1) * w;
  }


  /**
    The two vertex lists of a cell, written with the tile's width `w` and
    height `h` and its origin (x, y). The coordinates and sizes are
    parameters pinned by the precondition rather than `var`s in the
    ensures, which keeps each use of the lemma cheap for the verifier; a
    caller passes the expressions the precondition names.
  */
  lemma CellVertsAt(cfg: ConfigTriangle, o: Vec2, x: real, y: real, w: real, h: real)
    requires o == Vec2(x, y) && w == TileWidth(cfg) && h == cfg.height
    ensures FirstVerts(cfg, o) == [Vec2(x, y + h), Vec2(x + w * 0.5, y), Vec2(x + w, y + h)]
    ensures SecondVerts(cfg, o) == [Vec2(x + w * 0.5, y), Vec2(x + w, y + h), Vec2(x + w * 1.5, y)]
  {
  }

  /** Every cell the loops visit, and the row end after it, lies within the buffer. */
  lemma CellIndexBound(cfg: ConfigTriangle, iy: nat, ix: int)
    requires Generable(cfg)
    requires iy <= CountHeight(cfg) && -1 <= ix <= CountWidth(cfg) + 1
    ensures 0 <= CellIndex(cfg, iy, ix) <= LineCount(cfg)
    ensures CellIndex(cfg, iy, CountWidth(cfg) + 1) == 2 * ((iy + 1) * Columns(cfg))
  {
    var w := Columns(cfg);
    assert (iy + 1) * w <= (CountHeight(cfg) + 1) * w by {
      assert (CountHeight(cfg) - iy) * w >= 0;
    }
  }

  /** Appending the triangle at position `n` extends the buffer's prefix of length `n` by one. */
  lemma LinePrefixStep(cfg: ConfigTriangle, alg: Algorithm, dist: Distance, colors: seq<Pixel>, n: nat)
    requires Generable(cfg) && |colors| > 0 && n < LineCount(cfg)
    ensures LineBuffer(cfg, alg, dist, colors)[..n] + [LineAt(cfg, alg, dist, colors, n)] ==
            LineBuffer(cfg, alg, dist, colors)[..n + 1]
  {
    var buf := LineBuffer(cfg, alg, dist, colors);
    assert buf[..n + 1] == buf[..n] + [buf[n]];
  }

  /**
    The two triangles of cell (iy, ix) after the offset, written out
    coordinate by coordinate from the cell's moved top-left point (x, y).
    The coordinates are parameters pinned by the precondition rather than
    `var`s in the ensures, which keeps each use of the lemma cheap for the
    verifier; a caller passes the expressions the precondition names.
  */
  lemma CellVertsExplicit(cfg: ConfigTriangle, iy: int, ix: int, x: real, y: real)
    requires x == ix as real * TileWidth(cfg) +
                  (if cfg.offsetted && iy % 2 == 0 then TileWidth(cfg) / 2.0 else 0.0) + cfg.offsetX
    requires y == iy as real * cfg.height + cfg.offsetY
    ensures var w, h := TileWidth(cfg), cfg.height;
            ShiftVerts(FirstVerts(cfg, CellOrigin(cfg, iy, ix)), cfg.offsetX, cfg.offsetY) ==
              [Vec2(x, y + h), Vec2(x + w / 2.0, y), Vec2(x + w, y + h)] &&
            ShiftVerts(SecondVerts(cfg, CellOrigin(cfg, iy, ix)), cfg.offsetX, cfg.offsetY) ==
              [Vec2(x + w / 2.0, y), Vec2(x + w, y + h), Vec2(x + 3.0 * w / 2.0, y)]
  {
    var o := CellOrigin(cfg, iy, ix);
    var w := TileWidth(cfg);
    if cfg.offsetted && iy % 2 == 0 {
      assert o.x == ix as real * w + 0.5 * w;
    } else {
      assert o.x == ix as real * w;
    }
    ShiftedCellVerts(cfg, o, cfg.offsetX, cfg.offsetY, x, y);
  }

  /**
    The same, for a cell origin `o` moved by (dx, dy) to (x, y). The
    coordinates are parameters pinned by the precondition rather than
    `var`s in the ensures, which keeps each use of the lemma cheap for the
    verifier; a caller passes the expressions the precondition names.
  */
  lemma ShiftedCellVerts(cfg: ConfigTriangle, o: Vec2, dx: real, dy: real, x: real, y: real)
    requires x == o.x + dx && y == o.y + dy
    ensures var w, h := TileWidth(cfg), cfg.height;
            ShiftVerts(FirstVerts(cfg, o), dx, dy) == [Vec2(x, y + h), Vec2(x + w / 2.0, y), Vec2(x + w, y + h)] &&
            ShiftVerts(SecondVerts(cfg, o), dx, dy) == [Vec2(x + w / 2.0, y), Vec2(x + w, y + h), Vec2(x + 3.0 * w / 2.0, y)]
  {
  }

  /**
    Cell (iy, ix) sits at buffer positions `CellIndex(iy, ix)` and the next
    one. With (x, y) the cell's top-left grid point moved by
    `(offset_x, offset_y)` (the row shifted by half a tile exactly when
    `offsetted` is set and the row index is even), the upward triangle has
    its apex half a tile right of x on the top edge, the downward triangle's
    first two vertices are the upward one's last two, and its third lies a
    tile and a half right of x on the top edge.
    The coordinates are parameters pinned by the precondition rather than
    `var`s in the ensures, which keeps each use of the lemma cheap for the
    verifier; a caller passes the expressions the precondition names.
  */
  lemma LineCellGeometry(cfg: ConfigTriangle, alg: Algorithm, dist: Distance, colors: seq<Pixel>,
                         iy: nat, ix: int, x: real, y: real)
    requires Generable(cfg) && |colors| > 0
    requires iy <= CountHeight(cfg) && -1 <= ix <= CountWidth(cfg)
    requires x == ix as real * TileWidth(cfg) +
                  (if cfg.offsetted && iy % 2 == 0 then TileWidth(cfg) / 2.0 else 0.0) + cfg.offsetX
    requires y == iy as real * cfg.height + cfg.offsetY
    ensures 0 <= CellIndex(cfg, iy, ix) && CellIndex(cfg, iy, ix) + 1 < |LineBuffer(cfg, alg, dist, colors)|
    ensures var w, h := TileWidth(cfg), cfg.height;
            LineBuffer(cfg, alg, dist, colors)[CellIndex(cfg, iy, ix)].vert ==
              [Vec2(x, y + h), Vec2(x + w / 2.0, y), Vec2(x + w, y + h)]
    ensures var w, h := TileWidth(cfg), cfg.height;
            LineBuffer(cfg, alg, dist, colors)[CellIndex(cfg, iy, ix) + 1].vert ==
              [Vec2(x + w / 2.0, y), Vec2(x + w, y + h), Vec2(x + 3.0 * w / 2.0, y)]
  {
    var n := CellIndex(cfg, iy, ix);
    var buf := LineBuffer(cfg, alg, dist, colors);
    LineCellVerts(cfg, alg, dist, colors, iy, ix, 0);
    LineCellVerts(cfg, alg, dist, colors, iy, ix, 1);
    assert buf[n] == LineAt(cfg, alg, dist, colors, n);
    assert buf[n + 1] == LineAt(cfg, alg, dist, colors, n + 1);
    CellVertsExplicit(cfg, iy, ix, x, y);
  }

  /** The vertices half of `LineAtCell`. */
  lemma LineCellVerts(cfg: ConfigTriangle, alg: Algorithm, dist: Distance, colors: seq<Pixel>,
                      iy: nat, ix: int, s: nat)
    requires Generable(cfg) && |colors| > 0
    requires iy <= CountHeight(cfg) && -1 <= ix <= CountWidth(cfg) && s < 2
    ensures 0 <= CellIndex(cfg, iy, ix) + s < LineCount(cfg)
    ensures LineAt(cfg, alg, dist, colors, CellIndex(cfg, iy, ix) + s).vert ==
              ShiftVerts(if s == 0 then FirstVerts(cfg, CellOrigin(cfg, iy, ix))
                         else SecondVerts(cfg, CellOrigin(cfg, iy, ix)), cfg.offsetX, cfg.offsetY)
  {
    LineAtCell(cfg, alg, dist, colors, iy, ix, s);
  }

  /**
    Within every cell the downward triangle's first two vertices are the
    upward triangle's last two: the pair shares an edge.
  */
  lemma LineCellsShareEdge(cfg: ConfigTriangle, alg: Algorithm, dist: Distance, colors: seq<Pixel>, m: nat)
    requires Generable(cfg) && |colors| > 0
    requires 2 * m + 1 < LineCount(cfg)
    ensures var buf := LineBuffer(cfg, alg, dist, colors);
            |buf[2 * m].vert| == |buf[2 * m + 1].vert| == 3 &&
            buf[2 * m + 1].vert[0] == buf[2 * m].vert[1] && buf[2 * m + 1].vert[1] == buf[2 * m].vert[2]
  {
    DivModUnique(2 * m, 2, m, 0);
    DivModUnique(2 * m + 1, 2, m, 1);
  }
  /** The next cell of a row starts one tile width further right. */
  lemma NextCellOrigin(cfg: ConfigTriangle, iy: int, ix: int)
    ensures CellOrigin(cfg, iy, ix + 1) == Vec2(CellOrigin(cfg, iy, ix).x + TileWidth(cfg), CellOrigin(cfg, iy, ix).y)
  {
    var w := TileWidth(cfg);
    assert (ix + 1) as real * w == ix as real * w + w;
  }

  /** The downward triangle of a cell at `o` and the upward one of the cell a tile to its right share an edge. */
  lemma CellVertsAbut(cfg: ConfigTriangle, o: Vec2, o2: Vec2, dx: real, dy: real)
    requires o2 == Vec2(o.x + TileWidth(cfg), o.y)
    ensures |ShiftVerts(SecondVerts(cfg, o), dx, dy)| == |ShiftVerts(FirstVerts(cfg, o2), dx, dy)| == 3
    ensures ShiftVerts(SecondVerts(cfg, o), dx, dy)[1] == ShiftVerts(FirstVerts(cfg, o2), dx, dy)[0]
    ensures ShiftVerts(SecondVerts(cfg, o), dx, dy)[2] == ShiftVerts(FirstVerts(cfg, o2), dx, dy)[1]
  {
    var w := TileWidth(cfg);
    ShiftedCellVerts(cfg, o, dx, dy, o.x + dx, o.y + dy);
    ShiftedCellVerts(cfg, o2, dx, dy, o.x + w + dx, o.y + dy);
  }

  /**
    Along a row, the downward triangle of cell (iy, ix) and the upward
    triangle of the next cell share the edge from (x + w, y + h) to
    (x + 1.5 w, y), so the row is tiled without gaps.
  */
  lemma CrossCellEdge(cfg: ConfigTriangle, alg: Algorithm, dist: Distance, colors: seq<Pixel>, iy: nat, ix: int)
    requires Generable(cfg) && |colors| > 0
    requires iy <= CountHeight(cfg) && -1 <= ix < CountWidth(cfg)
    ensures 0 <= CellIndex(cfg, iy, ix) && CellIndex(cfg, iy, ix + 1) == CellIndex(cfg, iy, ix) + 2
    ensures CellIndex(cfg, iy, ix) + 2 < |LineBuffer(cfg, alg, dist, colors)|
    ensures |LineBuffer(cfg, alg, dist, colors)[CellIndex(cfg, iy, ix) + 1].vert| == 3
    ensures |LineBuffer(cfg, alg, dist, colors)[CellIndex(cfg, iy, ix + 1)].vert| == 3
    ensures LineBuffer(cfg, alg, dist, colors)[CellIndex(cfg, iy, ix) + 1].vert[1] ==
            LineBuffer(cfg, alg, dist, colors)[CellIndex(cfg, iy, ix + 1)].vert[0]
    ensures LineBuffer(cfg, alg, dist, colors)[CellIndex(cfg, iy, ix) + 1].vert[2] ==
            LineBuffer(cfg, alg, dist, colors)[CellIndex(cfg, iy, ix + 1)].vert[1]
  {
    var o, o2 := CellOrigin(cfg, iy, ix), CellOrigin(cfg, iy, ix + 1);
    NextCellOrigin(cfg, iy, ix);
    LineCellVerts(cfg, alg, dist, colors, iy, ix, 1);
    LineCellVerts(cfg, alg, dist, colors, iy, ix + 1, 0);
    CellVertsAbut(cfg, o, o2, cfg.offsetX, cfg.offsetY);
    assert CellIndex(cfg, iy, ix + 1) == CellIndex(cfg, iy, ix) + 2;
  }


  /**
    Both triangles of cell (iy, ix) take the palette entry the
    closest-colour scan selects for a target within `color_random` of the
    cell's gradient colour, in every channel. Before the jitter that gradient lies in the unit cube, with
    `r = clamp(1 - ix / color_width)`, `b = clamp(ix / color_width)` and
    `g` between 2/3 and all of `clamp(iy / color_height)`.
  */
  lemma LineCellColor(cfg: ConfigTriangle, alg: Algorithm, dist: Distance, colors: seq<Pixel>,
                      iy: nat, ix: int, s: nat)
    requires Generable(cfg) && |colors| > 0
    requires iy <= CountHeight(cfg) && -1 <= ix <= CountWidth(cfg) && s < 2
    ensures 0 <= CellIndex(cfg, iy, ix) + s < |LineBuffer(cfg, alg, dist, colors)|
    ensures var grad := CellGradient(cfg, iy, ix);
            InUnitCube(grad) &&
            grad.r == Clamp01(1.0 - ix as real / ColorWidth(cfg)) &&
            grad.b == Clamp01(ix as real / ColorWidth(cfg)) &&
            2.0 / 3.0 * Clamp01(iy as real / ColorHeight(cfg)) <= grad.g <= Clamp01(iy as real / ColorHeight(cfg))
    ensures exists target :: Near(target, CellGradient(cfg, iy, ix), cfg.colorRandom) &&
              LineBuffer(cfg, alg, dist, colors)[CellIndex(cfg, iy, ix) + s].color ==
              Entry(colors[ClosestIndex(colors, target, dist)])
  {
    LineAtCell(cfg, alg, dist, colors, iy, ix, s);
    GradientInRange(ix as real / ColorWidth(cfg), iy as real / ColorHeight(cfg));
    var n := CellIndex(cfg, iy, ix) + s;
    var target := Jittered(alg, Rng(cfg.seed, 3 * n), cfg.colorRandom, CellGradient(cfg, iy, ix)).0;
    assert Near(target, CellGradient(cfg, iy, ix), cfg.colorRandom);
  }
}
