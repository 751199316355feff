/**
  The room layout (`TriangleRooms`) as a specification: the configuration it
  reads, the centre box with its four polygons, the rings of quads that
  interpolate between the outer rectangle and the centre box, and the
  polygon stored at every position of the buffer. The generation loop
  itself is `ProceduralTriangles.Generator.TriangleRooms`, proved to produce
  exactly `RoomBuffer`.
*/
module TriangleRooms {
  import opened RandomStream
  import opened Colors
  import opened Geometry
  import opened Palette
  import opened Polygons
  import opened Arithmetic

  /** The room configuration (`ConfigRoom`). */
  datatype ConfigRoom = ConfigRoom(
    offsetX: real,
    offsetY: real,
    screenWidth: real,
    screenHeight: real,
    boxWidthP: real,
    boxHeightP: real,
    colorRandom: real,
    nBoxes: int,
    colorOffset1: int,
    colorOffset2: int,
    colorOffset3: int,
    colorOffset4: int,
    normalizedBoxes: bool,
    whiteLines: bool,
    lineWidth: real,
    lineAlpha: real,
    seed: real)

  /** The configuration's initial values. */
  const DefaultConfigRoom := ConfigRoom(
    82.0, 78.0, 662.0, 968.0, 0.077, 0.23, 0.1, 5, 0, 1, 2, 3, false, false, 1.5, 1.0, 1234.0)

  // ---------------------------------------------------------------------
  // The centre box
  // ---------------------------------------------------------------------

  /** `center_p = 0.5 * size`. */
  function CenterX(cfg: ConfigRoom): real { 0.5 * cfg.screenWidth }
  function CenterY(cfg: ConfigRoom): real { 0.5 * cfg.screenHeight }

  /** Half the centre box's width, `size.x * box_width_p`. */
  function HalfBox(cfg: ConfigRoom): real { cfg.screenWidth * cfg.boxWidthP }

  /** The y of the centre box's top and bottom edges. */
  function BoxTop(cfg: ConfigRoom): real { CenterY(cfg) - cfg.boxHeightP * cfg.screenHeight }
  function BoxBottom(cfg: ConfigRoom): real { CenterY(cfg) + cfg.boxHeightP * cfg.screenHeight }

  /** `corners`: the centre box clockwise from its top-left corner. */
  function Corners(cfg: ConfigRoom): seq<Vec2>
  {
    [Vec2(CenterX(cfg) - HalfBox(cfg), BoxTop(cfg)), Vec2(CenterX(cfg) + HalfBox(cfg), BoxTop(cfg)),
     Vec2(CenterX(cfg) + HalfBox(cfg), BoxBottom(cfg)), Vec2(CenterX(cfg) - HalfBox(cfg), BoxBottom(cfg))]
  }

  /** The outer rectangle clockwise from the origin: top-left, top-right, bottom-right, bottom-left. */
  function OuterCorners(cfg: ConfigRoom): seq<Vec2>
  {
    [Vec2(0.0, 0.0), Vec2(cfg.screenWidth, 0.0),
     Vec2(cfg.screenWidth, cfg.screenHeight), Vec2(0.0, cfg.screenHeight)]
  }

  /**
    The four centre polygons in emission order: the left and right halves
    of the box (quads), then the left and right triangles around the box's
    horizontal midline. The triangles' half-height is half of `HalfBox`,
    a width-based quantity, as in the original.
  */
  function CenterPolygon(cfg: ConfigRoom, k: nat): seq<Vec2>
    requires k < 4
  {
    var cx, cy, hw := CenterX(cfg), CenterY(cfg), HalfBox(cfg);
    var top, bottom := BoxTop(cfg), BoxBottom(cfg);
    if k == 0 then [Vec2(cx - hw, top), Vec2(cx, top), Vec2(cx - hw, bottom), Vec2(cx, bottom)]
    else if k == 1 then [Vec2(cx + hw, top), Vec2(cx, top), Vec2(cx + hw, bottom), Vec2(cx, bottom)]
    else if k == 2 then [Vec2(cx - hw, cy), Vec2(cx, cy - 0.5 * hw), Vec2(cx, cy + 0.5 * hw)]
    else [Vec2(cx + hw, cy), Vec2(cx, cy - 0.5 * hw), Vec2(cx, cy + 0.5 * hw)]
  }

  /** The cyclic colour index of centre polygon `k`. */
  function CenterCycle(k: nat): int
    requires k < 4
  {
    if k == 0 then 0 else if k == 3 then 2 else 1
  }

  // ---------------------------------------------------------------------
  // The rings
  // ---------------------------------------------------------------------

  /** The four quads of a ring, in emission order. */
  datatype Side = Top | Right | Bottom | Left

  function SideAt(s: nat): Side
    requires s < 4
  {
    if s == 0 then Top else if s == 1 then Right else if s == 2 then Bottom else Left
  }

  /** The point a fraction `t` of the way from outer corner `j` to box corner `j`. */
  function Rail(cfg: ConfigRoom, j: nat, t: real): Vec2
    requires j < 4
  {
    Lerp(OuterCorners(cfg)[j], Corners(cfg)[j], t)
  }

  /** The two rails a side's quad lies between. */
  function RailA(side: Side): nat
  {
    match side
    case Top => 0
    case Right => 1
    case Bottom => 3
    case Left => 0
  }

  function RailB(side: Side): nat
  {
    match side
    case Top => 1
    case Right => 2
    case Bottom => 2
    case Left => 3
  }

  /**
    The quad of `side` between boundaries `lo` and `hi`: the top and
    bottom quads list both rails at `lo` then both at `hi`; the right and
    left quads list rail A at `lo` and `hi`, then rail B at `lo` and `hi`.
  */
  function SideQuad(cfg: ConfigRoom, side: Side, lo: real, hi: real): seq<Vec2>
  {
    var a, b := RailA(side), RailB(side);
    if side == Top || side == Bottom then [Rail(cfg, a, lo), Rail(cfg, b, lo), Rail(cfg, a, hi), Rail(cfg, b, hi)]
    else [Rail(cfg, a, lo), Rail(cfg, a, hi), Rail(cfg, b, lo), Rail(cfg, b, hi)]
  }

  /** Ring `i`'s boundaries `low` and `high`, eased when `normalized_boxes` is set. */
  function Low(cfg: ConfigRoom, i: int): real
    requires cfg.nBoxes > 0
  {
    RingBound(i, cfg.nBoxes, cfg.normalizedBoxes)
  }

  function High(cfg: ConfigRoom, i: int): real
    requires cfg.nBoxes > 0
  {
    RingBound(i + 1, cfg.nBoxes, cfg.normalizedBoxes)
  }

  /** The quad of `side` in ring `i`, before the offset. */
  function RingQuad(cfg: ConfigRoom, i: int, side: Side): seq<Vec2>
    requires cfg.nBoxes > 0
  {
    SideQuad(cfg, side, Low(cfg, i), High(cfg, i))
  }

  /** The colour offset each side adds to the ring index. */
  function SideOffset(cfg: ConfigRoom, side: Side): int
  {
    match side
    case Top => cfg.colorOffset2
    case Right => cfg.colorOffset3
    case Bottom => cfg.colorOffset4
    case Left => cfg.colorOffset1
  }

  // ---------------------------------------------------------------------
  // The buffer
  // ---------------------------------------------------------------------

  /** Polygons emitted in all: the four centre ones and four per ring (no ring when `n_boxes <= 0`). */
  function RoomCount(cfg: ConfigRoom): nat
  {
    4 + 4 * (if cfg.nBoxes > 0 then cfg.nBoxes else 0)
  }

  /** The polygon at buffer position `n`, before the offset. */
  function RawPolygon(cfg: ConfigRoom, n: nat): seq<Vec2>
    requires n < RoomCount(cfg)
  {
    if n < 4 then CenterPolygon(cfg, n) else RingQuad(cfg, (n - 4) / 4, SideAt((n - 4) % 4))
  }

  /** The cyclic colour index used for buffer position `n`. */
  function CycleIndex(cfg: ConfigRoom, n: nat): int
  {
    if n < 4 then CenterCycle(n) else (n - 4) / 4 + SideOffset(cfg, SideAt((n - 4) % 4))
  }

  /**
    Buffer position `n`: the raw polygon moved by the offset, coloured with
    the palette entry at the cyclic slot of its index.
  */
  function RoomAt(cfg: ConfigRoom, colors: seq<Pixel>, n: nat): Triangle
    requires |colors| > 0 && n < RoomCount(cfg)
  {
    Triangle(ShiftVerts(RawPolygon(cfg, n), cfg.offsetX, cfg.offsetY),
             Entry(colors[CycleSlot(CycleIndex(cfg, n), |colors|)]))
  }

  /** The whole buffer `TriangleRooms` leaves behind. */
  function RoomBuffer(cfg: ConfigRoom, colors: seq<Pixel>): seq<Triangle>
    requires |colors| > 0
  {
    seq(RoomCount(cfg), n requires 0 <= n < RoomCount(cfg) => RoomAt(cfg, colors, n))
  }

  /** Appending the polygon at position `n` extends the buffer's prefix of length `n` by one. */
  lemma RoomPrefixStep(cfg: ConfigRoom, colors: seq<Pixel>, n: nat)
    requires |colors| > 0 && n < RoomCount(cfg)
    ensures RoomBuffer(cfg, colors)[..n] + [RoomAt(cfg, colors, n)] == RoomBuffer(cfg, colors)[..n + 1]
  {
    var buf := RoomBuffer(cfg, colors);
    assert buf[..n + 1] == buf[..n] + [buf[n]];
  }

  // ---------------------------------------------------------------------
  // The colour of a polygon from its position
  // ---------------------------------------------------------------------

  /**
    The target colour sampled at point `p`: the gradient at `p` in
    screen-relative coordinates, jittered in every channel by
    `color_random` when a randomizer is given.
  */
  function TargetAt(cfg: ConfigRoom, alg: Algorithm, p: Vec2, randomizer: Option<Rng>): Rgb
    requires cfg.screenWidth != 0.0 && cfg.screenHeight != 0.0
  {
    var g := Gradient(p.x / cfg.screenWidth, p.y / cfg.screenHeight);
    if randomizer.None? then g else Jittered(alg, randomizer.value, cfg.colorRandom, g).0
  }

  /** The target colour `FindColorFor` snaps to the palette: the target sampled at the polygon's centroid. */
  function RoomTarget(cfg: ConfigRoom, alg: Algorithm, vs: seq<Vec2>, randomizer: Option<Rng>): Rgb
    requires |vs| > 0 && cfg.screenWidth != 0.0 && cfg.screenHeight != 0.0
  {
    TargetAt(cfg, alg, Centroid(vs), randomizer)
  }

  /**
    The target is the centroid's gradient colour, which lies in the unit
    cube, exactly when no randomizer is given, and within `color_random` of
    it in every channel otherwise.
  */
  lemma RoomTargetNearGradient(cfg: ConfigRoom, alg: Algorithm, vs: seq<Vec2>, randomizer: Option<Rng>)
    requires |vs| > 0 && cfg.screenWidth != 0.0 && cfg.screenHeight != 0.0
    ensures var p := Centroid(vs);
            var g := Gradient(p.x / cfg.screenWidth, p.y / cfg.screenHeight);
            InUnitCube(g) &&
            (randomizer.None? ==> RoomTarget(cfg, alg, vs, randomizer) == g) &&
            Near(RoomTarget(cfg, alg, vs, randomizer), g, cfg.colorRandom)
  {
    var p := Centroid(vs);
    GradientInRange(p.x / cfg.screenWidth, p.y / cfg.screenHeight);
  }

  /**
    Moving a polygon moves the point its colour is sampled at: with or
    without a randomizer, the target of the polygon moved by `(dx, dy)` is
    the target sampled at its old centroid moved by `(dx, dy)`, from the
    same draws. Without a randomizer that is the gradient there.
  */
  lemma RoomTargetShift(cfg: ConfigRoom, alg: Algorithm, vs: seq<Vec2>, dx: real, dy: real, randomizer: Option<Rng>)
    requires |vs| > 0 && cfg.screenWidth != 0.0 && cfg.screenHeight != 0.0
    ensures |ShiftVerts(vs, dx, dy)| > 0
    ensures var p := Centroid(vs);
            RoomTarget(cfg, alg, ShiftVerts(vs, dx, dy), randomizer) ==
              TargetAt(cfg, alg, Vec2(p.x + dx, p.y + dy), randomizer)
    ensures var p := Centroid(vs);
            randomizer.None? ==>
              RoomTarget(cfg, alg, ShiftVerts(vs, dx, dy), randomizer) ==
                Gradient((p.x + dx) / cfg.screenWidth, (p.y + dy) / cfg.screenHeight)
  {
    CentroidShift(vs, dx, dy);
  }

  // ---------------------------------------------------------------------
  // Properties
  // ---------------------------------------------------------------------

  /** Position `4 + 4 i + s` of the buffer is the quad of side `s` of ring `i`. */
  lemma RoomAtRing(cfg: ConfigRoom, colors: seq<Pixel>, i: nat, s: nat)
    requires |colors| > 0 && i < cfg.nBoxes && s < 4
    ensures 4 + 4 * i + s < RoomCount(cfg)
    ensures RoomAt(cfg, colors, 4 + 4 * i + s) ==
              Triangle(ShiftVerts(RingQuad(cfg, i, SideAt(s)), cfg.offsetX, cfg.offsetY),
                       Entry(colors[CycleSlot(i + SideOffset(cfg, SideAt(s)), |colors|)]))
  {
    DivModUnique(4 * i + s, 4, i, s);
  }

  /**
    The buffer holds the four centre polygons and four quads per ring; the
    centre polygons are two quads then two triangles, and every ring
    polygon is a quad.
  */
  lemma RoomShape(cfg: ConfigRoom, colors: seq<Pixel>)
    requires |colors| > 0
    ensures |RoomBuffer(cfg, colors)| == 4 + 4 * (if cfg.nBoxes > 0 then cfg.nBoxes else 0)
    ensures |RoomBuffer(cfg, colors)[0].vert| == |RoomBuffer(cfg, colors)[1].vert| == 4
    ensures |RoomBuffer(cfg, colors)[2].vert| == |RoomBuffer(cfg, colors)[3].vert| == 3
    ensures forall n :: 4 <= n < |RoomBuffer(cfg, colors)| ==> |RoomBuffer(cfg, colors)[n].vert| == 4
  {
    forall n | 4 <= n < |RoomBuffer(cfg, colors)|
      ensures |RoomBuffer(cfg, colors)[n].vert| == 4
    {
      assert RoomBuffer(cfg, colors)[n] == RoomAt(cfg, colors, n);
    }
  }

  /**
    The centre polygons: the two box halves span the box's left and right
    corners and share the vertical centre line, and the two triangles point
    at the midpoints of the box's left and right edges and share their
    vertical edge. Every vertex is moved by the offset.
  */
  lemma RoomCenterShape(cfg: ConfigRoom, colors: seq<Pixel>)
    requires |colors| > 0
    ensures var buf, c := RoomBuffer(cfg, colors), ShiftVerts(Corners(cfg), cfg.offsetX, cfg.offsetY);
            buf[0].vert[0] == c[0] && buf[0].vert[2] == c[3] &&
            buf[1].vert[0] == c[1] && buf[1].vert[2] == c[2] &&
            buf[0].vert[1] == buf[1].vert[1] && buf[0].vert[3] == buf[1].vert[3] &&
            buf[2].vert[1] == buf[3].vert[1] && buf[2].vert[2] == buf[3].vert[2]
    ensures var buf, c := RoomBuffer(cfg, colors), ShiftVerts(Corners(cfg), cfg.offsetX, cfg.offsetY);
            buf[2].vert[0] == Vec2(c[0].x, (c[0].y + c[3].y) / 2.0) &&
            buf[3].vert[0] == Vec2(c[1].x, (c[1].y + c[2].y) / 2.0)
  {
    var buf := RoomBuffer(cfg, colors);
    assert buf[0] == RoomAt(cfg, colors, 0) && buf[1] == RoomAt(cfg, colors, 1);
    assert buf[2] == RoomAt(cfg, colors, 2) && buf[3] == RoomAt(cfg, colors, 3);
  }

  /** The centre polygons take the palette entries at cyclic indices 0, 1, 1 and 2. */
  lemma RoomCenterColors(cfg: ConfigRoom, colors: seq<Pixel>)
    requires |colors| > 0
    ensures RoomBuffer(cfg, colors)[0].color == Entry(colors[0])
    ensures RoomBuffer(cfg, colors)[1].color == Entry(colors[1 % |colors|])
    ensures RoomBuffer(cfg, colors)[2].color == Entry(colors[1 % |colors|])
    ensures RoomBuffer(cfg, colors)[3].color == Entry(colors[2 % |colors|])
  {
    var buf := RoomBuffer(cfg, colors);
    assert buf[0] == RoomAt(cfg, colors, 0) && buf[1] == RoomAt(cfg, colors, 1);
    assert buf[2] == RoomAt(cfg, colors, 2) && buf[3] == RoomAt(cfg, colors, 3);
    CycleSlotInRange(0, |colors|);
    CycleSlotInRange(1, |colors|);
    CycleSlotInRange(2, |colors|);
  }

  /**
    Side `s` of ring `i` takes the palette entry at cyclic index
    `i + color_offset2`, `i + color_offset3`, `i + color_offset4` or
    `i + color_offset1` for the top, right, bottom and left quad.
  */
  lemma RoomRingColors(cfg: ConfigRoom, colors: seq<Pixel>, i: nat, s: nat)
    requires |colors| > 0 && i < cfg.nBoxes && s < 4
    ensures 4 + 4 * i + s < |RoomBuffer(cfg, colors)|
    ensures var offset := if s == 0 then cfg.colorOffset2 else if s == 1 then cfg.colorOffset3
                          else if s == 2 then cfg.colorOffset4 else cfg.colorOffset1;
            RoomBuffer(cfg, colors)[4 + 4 * i + s].color == Entry(colors[CycleSlot(i + offset, |colors|)])
  {
    RoomAtRing(cfg, colors, i, s);
    assert RoomBuffer(cfg, colors)[4 + 4 * i + s] == RoomAt(cfg, colors, 4 + 4 * i + s);
  }

  /**
    With non-negative colour offsets, rings a palette length apart get the
    same four colours: the ring colours repeat with the palette's period.
  */
  lemma RoomRingColorsRepeat(cfg: ConfigRoom, colors: seq<Pixel>, i: nat, s: nat)
    requires |colors| > 0 && i + |colors| < cfg.nBoxes && s < 4
    requires SideOffset(cfg, SideAt(s)) >= 0
    requires i + |colors| + SideOffset(cfg, SideAt(s)) + |colors| < SIZE_T_MODULUS
    ensures 4 + 4 * (i + |colors|) + s < |RoomBuffer(cfg, colors)|
    ensures RoomBuffer(cfg, colors)[4 + 4 * (i + |colors|) + s].color ==
            RoomBuffer(cfg, colors)[4 + 4 * i + s].color
  {
    RoomRingColors(cfg, colors, i, s);
    RoomRingColors(cfg, colors, i + |colors|, s);
    CycleSlotPeriodic(i + SideOffset(cfg, SideAt(s)), |colors|);
  }

  /** Where each side's quad leaves its ring (its `hi` vertices). */
  function OuterEdge(q: seq<Vec2>, side: Side): (Vec2, Vec2)
    requires |q| == 4
  {
    if side == Top || side == Bottom then (q[2], q[3]) else (q[1], q[3])
  }

  /** Where each side's quad enters its ring (its `lo` vertices). */
  function InnerEdge(q: seq<Vec2>, side: Side): (Vec2, Vec2)
    requires |q| == 4
  {
    if side == Top || side == Bottom then (q[0], q[1]) else (q[0], q[2])
  }

  /** `p` moved by the room offset. */
  function Placed(cfg: ConfigRoom, p: Vec2): Vec2
  {
    Vec2(p.x + cfg.offsetX, p.y + cfg.offsetY)
  }

  /**
    In the buffer, the `lo` edge of side `s` of ring `i` lies on the side's
    two rails at `low`, its `hi` edge on the same rails at `high`.
  */
  lemma RingEdges(cfg: ConfigRoom, colors: seq<Pixel>, i: nat, s: nat)
    requires |colors| > 0 && i < cfg.nBoxes && s < 4
    ensures 4 + 4 * i + s < |RoomBuffer(cfg, colors)|
    ensures |RoomBuffer(cfg, colors)[4 + 4 * i + s].vert| == 4
    ensures var side := SideAt(s);
            var q := RoomBuffer(cfg, colors)[4 + 4 * i + s].vert;
            InnerEdge(q, side) == (Placed(cfg, Rail(cfg, RailA(side), Low(cfg, i))), Placed(cfg, Rail(cfg, RailB(side), Low(cfg, i)))) &&
            OuterEdge(q, side) == (Placed(cfg, Rail(cfg, RailA(side), High(cfg, i))), Placed(cfg, Rail(cfg, RailB(side), High(cfg, i))))
  {
    RoomAtRing(cfg, colors, i, s);
    assert RoomBuffer(cfg, colors)[4 + 4 * i + s] == RoomAt(cfg, colors, 4 + 4 * i + s);
  }

  /**
    Adjacent rings share edges: where each side's quad of ring `i` ends is
    exactly where the same side's quad of ring `i + 1` begins.
  */
  lemma RoomRingsShareEdges(cfg: ConfigRoom, colors: seq<Pixel>, i: nat, s: nat)
    requires |colors| > 0 && i + 1 < cfg.nBoxes && s < 4
    ensures 4 + 4 * (i + 1) + s < |RoomBuffer(cfg, colors)|
    ensures |RoomBuffer(cfg, colors)[4 + 4 * i + s].vert| == |RoomBuffer(cfg, colors)[4 + 4 * (i + 1) + s].vert| == 4
    ensures OuterEdge(RoomBuffer(cfg, colors)[4 + 4 * i + s].vert, SideAt(s)) ==
            InnerEdge(RoomBuffer(cfg, colors)[4 + 4 * (i + 1) + s].vert, SideAt(s))
  {
    assert High(cfg, i) == Low(cfg, i + 1);
    RingEdges(cfg, colors, i, s);
    RingEdges(cfg, colors, i + 1, s);
  }

  /**
    Ring 0 starts at the outer rectangle: the `lo` edge of each of its quads
    joins two outer corners (moved by the offset), eased or not.
  */
  lemma RoomFirstRingOuter(cfg: ConfigRoom, colors: seq<Pixel>, s: nat)
    requires |colors| > 0 && 0 < cfg.nBoxes && s < 4
    ensures 4 + s < |RoomBuffer(cfg, colors)| && |RoomBuffer(cfg, colors)[4 + s].vert| == 4
    ensures var side, o := SideAt(s), OuterCorners(cfg);
            InnerEdge(RoomBuffer(cfg, colors)[4 + s].vert, side) ==
              (Placed(cfg, o[RailA(side)]), Placed(cfg, o[RailB(side)]))
  {
    RingEdges(cfg, colors, 0, s);
    RingBoundEnds(cfg.nBoxes, cfg.normalizedBoxes);
    var side := SideAt(s);
    LerpEnds(OuterCorners(cfg)[RailA(side)], Corners(cfg)[RailA(side)]);
    LerpEnds(OuterCorners(cfg)[RailB(side)], Corners(cfg)[RailB(side)]);
  }

  /**
    The last ring ends at the centre box: the `hi` edge of each of its
    quads joins two box corners (moved by the offset), eased or not.
  */
  lemma RoomLastRingInner(cfg: ConfigRoom, colors: seq<Pixel>, s: nat)
    requires |colors| > 0 && 0 < cfg.nBoxes && s < 4
    ensures 4 + 4 * (cfg.nBoxes - 1) + s < |RoomBuffer(cfg, colors)|
    ensures |RoomBuffer(cfg, colors)[4 + 4 * (cfg.nBoxes - 1) + s].vert| == 4
    ensures var side, c := SideAt(s), Corners(cfg);
            OuterEdge(RoomBuffer(cfg, colors)[4 + 4 * (cfg.nBoxes - 1) + s].vert, side) ==
              (Placed(cfg, c[RailA(side)]), Placed(cfg, c[RailB(side)]))
  {
    RingEdges(cfg, colors, cfg.nBoxes - 1, s);
    RingBoundEnds(cfg.nBoxes, cfg.normalizedBoxes);
    var side := SideAt(s);
    LerpEnds(OuterCorners(cfg)[RailA(side)], Corners(cfg)[RailA(side)]);
    LerpEnds(OuterCorners(cfg)[RailB(side)], Corners(cfg)[RailB(side)]);
  }

  /**
    The rings are nested in order: every ring has positive width inside
    [0, 1], and a later ring starts no earlier than an earlier one ends, so
    each ring lies between the previous one and the centre box, eased or not.
  */
  lemma RoomRingsOrdered(cfg: ConfigRoom, i: int, j: int)
    requires 0 <= i <= j < cfg.nBoxes
    ensures 0.0 <= Low(cfg, i) < High(cfg, i) <= 1.0
    ensures i < j ==> High(cfg, i) <= Low(cfg, j)
  {
    RingBoundOrdered(i, i + 1, cfg.nBoxes, cfg.normalizedBoxes);
    RingBoundStrict(i, cfg.nBoxes, cfg.normalizedBoxes);
    if i < j {
      RingBoundOrdered(i + 1, j, cfg.nBoxes, cfg.normalizedBoxes);
    }
  }
}
