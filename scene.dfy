/**
  The generator's state and its operations: the palette and the polygon
  buffer the original keeps as globals (`colors`, `triangles`), the two
  configurations, and the routines that fill them. Each routine is proved
  against the specification in the modules it imports: `LoadColors`
  against `Dedup` of the row-major scan, `FindClosestColor` against the
  arg-min scan, and the two generators against `LineBuffer` and
  `RoomBuffer`.
*/
module ProceduralTriangles {
  import opened RandomStream
  import opened Colors
  import opened Palette
  import opened Geometry
  import opened Polygons
  import opened TriangleLine
  import opened TriangleRooms

  class Generator {
    /** The randomizer's draw sequence (`ceng::CLGMRandom`), fixed for a run. */
    const alg: Algorithm
    /** `ceng::ColorDistance`. */
    const dist: Distance

    /** The palette (`std::vector<Uint32> colors`). */
    var colors: seq<Pixel>
    /** The polygon buffer (`std::vector<Triangle> triangles`). */
    var triangles: seq<Triangle>
    /** `config` and `room_config`. */
    var config: ConfigTriangle
    var roomConfig: ConfigRoom

    /** Empty palette and buffer, both configurations at their initial values. */
    constructor(alg: Algorithm, dist: Distance)
      ensures this.alg == alg && this.dist == dist
      ensures colors == [] && triangles == []
      ensures config == DefaultConfigTriangle && roomConfig == DefaultConfigRoom
    {
      this.alg := alg;
      this.dist := dist;
      colors := [];
      triangles := [];
      config := DefaultConfigTriangle;
      roomConfig := DefaultConfigRoom;
    }

    // -------------------------------------------------------------------
    // Palette
    // -------------------------------------------------------------------

    /**
      Replaces the palette by the distinct pixel values of `img` in the
      order a row-major scan first meets them (see `Palette.LoadedPalette`).
    */
    method LoadColors(img: Texture)
      requires img.Valid()
      modifies this`colors
      ensures colors == Dedup(RowMajor(img.pixels))
    {
      colors := [];
      var y := 0;
      while y < img.height
        invariant 0 <= y <= img.height
        invariant colors == Dedup(RowMajor(img.pixels[..y]))
      {
        ghost var scanned := RowMajor(img.pixels[..y]);
        LoadRowDone(img.pixels, y);
        var x := 0;
        while x < img.width
          invariant 0 <= x <= img.width
          invariant colors == Dedup(scanned + img.pixels[y][..x])
        {
          var c := img.pixels[y][x];
          LoadStep(scanned, img.pixels[y], x);
          // ceng::VectorAddUnique( colors, c )
          if c !in colors {
            colors := colors + [c];
          }
          x := x + 1;
        }
        y := y + 1;
      }
      assert img.pixels[..y] == img.pixels;
    }

    /**
      A palette entry chosen by one integer draw in `[0, |colors| - 1]`
      from `randomizer`, which has then handed out one more draw.
    */
    method GetRandomColor(randomizer: Rng) returns (c: Color, next: Rng)
      requires |colors| > 0
      ensures c.Entry? && c.pixel in colors
      ensures c == Entry(colors[NextInt(alg, randomizer, 0, |colors| - 1).0])
      ensures next == Advance(randomizer)
    {
      var draw := NextInt(alg, randomizer, 0, |colors| - 1);
      var i := draw.0;
      next := draw.1;
      c := Entry(colors[i]);
    }

    /**
      The palette entry the closest-colour scan selects for `target`: the
      lowest-index minimum when some entry is closer than 1000, entry 0
      otherwise (see `Palette.ClosestIsFirstMinimum`).
    */
    method FindClosestColor(target: Rgb) returns (c: Color)
      requires |colors| > 0
      ensures c == Entry(colors[ClosestIndex(colors, target, dist)])
    {
      var closest := INITIAL_CLOSEST;
      var closestI := 0;
      var i := 0;
      while i < |colors|
        invariant 0 <= i <= |colors|
        invariant (closest, closestI) == Scan(colors, target, dist, i)
      {
        var d := dist(target, colors[i]);
        if d < closest {
          closest := d;
          closestI := i;
        }
        i := i + 1;
      }
      c := Entry(colors[closestI]);
    }

    /**
      `t` recoloured with the palette entry at the cyclic slot of `index`
      (see `Palette.CycleSlotPeriodic`); an empty palette leaves `t` as it
      is. The vertices are never changed.
    */
    method CycleColors(t: Triangle, index: int) returns (u: Triangle)
      ensures u.vert == t.vert
      ensures |colors| == 0 ==> u == t
      ensures |colors| > 0 ==> u.color == Entry(colors[CycleSlot(index, |colors|)])
    {
      if |colors| == 0 {
        return t;
      }
      u := t.(color := Entry(colors[CycleSlot(index, |colors|)]));
    }

    // -------------------------------------------------------------------
    // Room helpers
    // -------------------------------------------------------------------

    /**
      `t` coloured by the palette entry `FindClosestColor` selects for
      `RoomTarget`: the gradient at its centroid relative to the room's
      screen size, jittered by three draws when a randomizer is given. The vertices are kept.
    */
    method FindColorFor(t: Triangle, randomizer: Option<Rng>) returns (u: Triangle, next: Option<Rng>)
      requires |colors| > 0 && |t.vert| > 0
      requires roomConfig.screenWidth != 0.0 && roomConfig.screenHeight != 0.0
      ensures u.vert == t.vert
      ensures u.color == Entry(colors[ClosestIndex(colors, RoomTarget(roomConfig, alg, t.vert, randomizer), dist)])
      ensures randomizer.None? ==> next.None?
      ensures randomizer.Some? ==> next == Some(Rng(randomizer.value.seed, randomizer.value.taken + 3))
    {
      var pos := Vec2(0.0, 0.0);
      var i := 0;
      while i < |t.vert|
        invariant 0 <= i <= |t.vert|
        invariant pos == VertexSum(t.vert[..i])
      {
        assert t.vert[..i + 1][..i] == t.vert[..i];
        pos := Vec2(pos.x + t.vert[i].x, pos.y + t.vert[i].y);
        i := i + 1;
      }
      assert t.vert[..i] == t.vert;
      pos := Vec2(pos.x / |t.vert| as real, pos.y / |t.vert| as real);
      pos := Vec2(pos.x / roomConfig.screenWidth, pos.y / roomConfig.screenHeight);
      var fc := Gradient(pos.x, pos.y);
      next := randomizer;
      if randomizer.Some? {
        var jittered := Jittered(alg, randomizer.value, roomConfig.colorRandom, fc);
        fc := jittered.0;
        next := Some(jittered.1);
      }
      var c := FindClosestColor(fc);
      u := t.(color := c);
    }

    /** Moves every vertex of `t` by the room offset and appends the result to the buffer. */
    method AddTriangle(t: Triangle) returns (u: Triangle)
      modifies this`triangles
      ensures u == Shifted(t, roomConfig.offsetX, roomConfig.offsetY)
      ensures triangles == old(triangles) + [u]
    {
      u := OffsetVertices(t, roomConfig.offsetX, roomConfig.offsetY);
      triangles := triangles + [u];
    }

    /**
      What follows the construction of every room polygon: a random colour,
      immediately replaced by the cyclic colour of `index`, then the offset
      and the append.
    */
    method EmitRoomPolygon(t: Triangle, index: int, randomizer: Rng) returns (next: Rng)
      requires |colors| > 0
      modifies this`triangles
      ensures triangles == old(triangles) +
                [Triangle(ShiftVerts(t.vert, roomConfig.offsetX, roomConfig.offsetY),
                          Entry(colors[CycleSlot(index, |colors|)]))]
      ensures next == Advance(randomizer)
    {
      var u := t;
      var c;
      c, next := GetRandomColor(randomizer);
      u := u.(color := c);
      u := CycleColors(u, index);
      u := AddTriangle(u);
    }

    // -------------------------------------------------------------------
    // Generators
    // -------------------------------------------------------------------

    /**
      The triangle-line tessellation: clears the buffer and fills it with
      `LineBuffer`, two triangles per cell over `count_height + 1` rows of
      `count_width + 2` cells (see `TriangleLine.LineCellGeometry`,
      `LineCellsShareEdge` and `LineCellColor`).
    */
    method TrianglesLine()
      requires Generable(config) && |colors| > 0
      modifies this`triangles
      ensures triangles == LineBuffer(config, alg, dist, colors)
      ensures |triangles| == 2 * ((CountHeight(config) + 1) * (CountWidth(config) + 2))
    {
      triangles := [];
      var randomizer := SetSeed(config.seed);
      var countHeight := CountHeight(config);
      var countWidth := CountWidth(config);
      ghost var buf := LineBuffer(config, alg, dist, colors);
      ghost var columns := Columns(config);
      assert |buf| == LineCount(config);

      var iy: nat := 0;
      while iy < countHeight + 1
        invariant 0 <= iy <= countHeight + 1
        invariant triangles == buf[..2 * (iy * columns)]
        invariant randomizer == Rng(config.seed, 3 * |triangles|)
      {
        var ix: int := -1;
        CellIndexBound(config, iy, ix);
        while ix < countWidth + 1
          invariant -1 <= ix <= countWidth + 1
          invariant 0 <= CellIndex(config, iy, ix) <= |buf|
          invariant triangles == buf[..CellIndex(config, iy, ix)]
          invariant randomizer == Rng(config.seed, 3 * |triangles|)
        {
          CellIndexBound(config, iy, ix + 1);
          randomizer := EmitCell(iy, ix, randomizer);
          ix := ix + 1;
        }
        CellIndexBound(config, iy, ix);
        iy := iy + 1;
      }
      assert 2 * (iy * columns) == |buf|;
    }

    /**
      The two triangles of cell (iy, ix): the upward one, then the downward
      one written over the same vertex list, each placed from the cell's
      top-left point.
    */
    method EmitCell(iy: nat, ix: int, randomizer: Rng) returns (next: Rng)
      requires Generable(config) && |colors| > 0
      requires iy <= CountHeight(config) && -1 <= ix <= CountWidth(config)
      requires 0 <= CellIndex(config, iy, ix) && CellIndex(config, iy, ix) + 2 <= LineCount(config)
      requires triangles == LineBuffer(config, alg, dist, colors)[..CellIndex(config, iy, ix)]
      requires randomizer == Rng(config.seed, 3 * |triangles|)
      modifies this`triangles
      ensures triangles == LineBuffer(config, alg, dist, colors)[..CellIndex(config, iy, ix) + 2]
      ensures next == Rng(config.seed, 3 * |triangles|)
    {
      var height := config.height;
      var width := TileWidth(config);
      var x := ix as real * width;
      var y := iy as real * height;
      if config.offsetted && iy % 2 == 0 {
        x := x + 0.5 * width;
      }
      ghost var origin := CellOrigin(config, iy, ix);
      assert origin == Vec2(x, y);
      LineAtCell(config, alg, dist, colors, iy, ix, 1);
      CellIndexBound(config, iy, ix);
      CellVertsAt(config, origin, x, y, width, height);

      var t := NewTriangle();
      t := t.(vert := t.vert[0 := Vec2(x, y + height)][1 := Vec2(x + width * 0.5, y)][2 := Vec2(x + width, y + height)]);
      assert t.vert == [Vec2(x, y + height), Vec2(x + width * 0.5, y), Vec2(x + width, y + height)];
      t, next := EmitLineTriangle(iy, ix, 0, t, randomizer);

      t := t.(vert := t.vert[0 := Vec2(x + width * 0.5, y)][1 := Vec2(x + width, y + height)][2 := Vec2(x + width * 1.5, y)]);
      assert t.vert == [Vec2(x + width * 0.5, y), Vec2(x + width, y + height), Vec2(x + width * 1.5, y)];
      t, next := EmitLineTriangle(iy, ix, 1, t, next);
    }

    /**
      Colours triangle `s` of cell (iy, ix), whose vertices the caller has
      placed at the cell's origin, with the palette entry `FindClosestColor`
      selects for the jittered gradient, moves it by the configured offset
      and appends it.
    */
    method EmitLineTriangle(iy: nat, ix: int, s: nat, t: Triangle, randomizer: Rng) returns (u: Triangle, next: Rng)
      requires Generable(config) && |colors| > 0
      requires iy <= CountHeight(config) && -1 <= ix <= CountWidth(config) && s < 2
      requires 0 <= CellIndex(config, iy, ix) + s < LineCount(config)
      requires t.vert == (if s == 0 then FirstVerts(config, CellOrigin(config, iy, ix))
                          else SecondVerts(config, CellOrigin(config, iy, ix)))
      requires triangles == LineBuffer(config, alg, dist, colors)[..CellIndex(config, iy, ix) + s]
      requires randomizer == Rng(config.seed, 3 * |triangles|)
      modifies this`triangles
      ensures triangles == LineBuffer(config, alg, dist, colors)[..CellIndex(config, iy, ix) + s + 1]
      ensures |u.vert| == 3
      ensures next == Rng(config.seed, 3 * |triangles|)
    {
      LineAtCell(config, alg, dist, colors, iy, ix, s);
      var n := CellIndex(config, iy, ix) + s;
      var jittered := Jittered(alg, randomizer, config.colorRandom, CellGradient(config, iy, ix));
      next := jittered.1;
      var c := FindClosestColor(jittered.0);
      u := t.(color := c);
      u := OffsetVertices(u, config.offsetX, config.offsetY);
      LinePrefixStep(config, alg, dist, colors, n);
      triangles := triangles + [u];
    }

    /**
      The room layout: clears the buffer and fills it with `RoomBuffer`,
      the four centre polygons then four quads per ring (see
      `TriangleRooms.RoomShape`, `RoomCenterColors`, `RoomRingColors` and
      `RoomRingsShareEdges`). The randomizer is seeded from the
      triangle-line configuration's seed; its colours are all replaced.
    */
    method TriangleRooms()
      requires |colors| > 0
      modifies this`triangles
      ensures triangles == RoomBuffer(roomConfig, colors)
      ensures |triangles| == 4 + 4 * (if roomConfig.nBoxes > 0 then roomConfig.nBoxes else 0)
    {
      triangles := [];
      var randomizer := SetSeed(config.seed);
      randomizer := EmitCenter(randomizer);

      var i := 0;
      while i < roomConfig.nBoxes
        invariant 0 <= i && (roomConfig.nBoxes > 0 ==> i <= roomConfig.nBoxes)
        invariant roomConfig.nBoxes <= 0 ==> i == 0
        invariant 4 + 4 * i <= RoomCount(roomConfig)
        invariant triangles == RoomBuffer(roomConfig, colors)[..4 + 4 * i]
      {
        randomizer := EmitRing(i, randomizer);
        i := i + 1;
      }
      assert 4 + 4 * i == |RoomBuffer(roomConfig, colors)|;
      assert RoomBuffer(roomConfig, colors)[..4 + 4 * i] == RoomBuffer(roomConfig, colors);
    }

    /** The four centre polygons: the two box halves, then the two triangles. */
    method EmitCenter(randomizer: Rng) returns (next: Rng)
      requires |colors| > 0 && triangles == []
      modifies this`triangles
      ensures triangles == RoomBuffer(roomConfig, colors)[..4]
    {
      var cx, cy, hw := CenterX(roomConfig), CenterY(roomConfig), HalfBox(roomConfig);
      var top, bottom := BoxTop(roomConfig), BoxBottom(roomConfig);
      next := randomizer;

      var leftBox := NewTriangle();
      leftBox := leftBox.(vert := leftBox.vert + [Vec2(0.0, 0.0)]);
      leftBox := leftBox.(vert := leftBox.vert[0 := Vec2(cx - hw, top)][1 := Vec2(cx, top)]
                                              [3 := Vec2(cx, bottom)][2 := Vec2(cx - hw, bottom)]);
      assert leftBox.vert == CenterPolygon(roomConfig, 0);
      RoomPrefixStep(roomConfig, colors, 0);
      next := EmitRoomPolygon(leftBox, 0, next);
      assert triangles == RoomBuffer(roomConfig, colors)[..1];

      var rightBox := NewTriangle();
      rightBox := rightBox.(vert := rightBox.vert + [Vec2(0.0, 0.0)]);
      rightBox := rightBox.(vert := rightBox.vert[0 := Vec2(cx + hw, top)][1 := Vec2(cx, top)]
                                                 [3 := Vec2(cx, bottom)][2 := Vec2(cx + hw, bottom)]);
      assert rightBox.vert == CenterPolygon(roomConfig, 1);
      RoomPrefixStep(roomConfig, colors, 1);
      next := EmitRoomPolygon(rightBox, 1, next);
      assert triangles == RoomBuffer(roomConfig, colors)[..2];

      var left := NewTriangle();
      left := left.(vert := left.vert[0 := Vec2(cx - hw, cy)][1 := Vec2(cx, cy - 0.5 * hw)][2 := Vec2(cx, cy + 0.5 * hw)]);
      assert left.vert == CenterPolygon(roomConfig, 2);
      RoomPrefixStep(roomConfig, colors, 2);
      next := EmitRoomPolygon(left, 1, next);
      assert triangles == RoomBuffer(roomConfig, colors)[..3];

      var right := NewTriangle();
      right := right.(vert := right.vert[0 := Vec2(cx + hw, cy)][1 := Vec2(cx, cy - 0.5 * hw)][2 := Vec2(cx, cy + 0.5 * hw)]);
      assert right.vert == CenterPolygon(roomConfig, 3);
      RoomPrefixStep(roomConfig, colors, 3);
      next := EmitRoomPolygon(right, 2, next);
      assert triangles == RoomBuffer(roomConfig, colors)[..4];
    }

    /** Ring `i`: its top, right, bottom and left quads between boundaries `low` and `high`. */
    method EmitRing(i: nat, randomizer: Rng) returns (next: Rng)
      requires |colors| > 0 && i < roomConfig.nBoxes
      requires triangles == RoomBuffer(roomConfig, colors)[..4 + 4 * i]
      modifies this`triangles
      ensures triangles == RoomBuffer(roomConfig, colors)[..4 + 4 * (i + 1)]
    {
      var corners := Corners(roomConfig);
      var topLeft, topRight := Vec2(0.0, 0.0), Vec2(roomConfig.screenWidth, 0.0);
      var bottomRight, bottomLeft := Vec2(roomConfig.screenWidth, roomConfig.screenHeight), Vec2(0.0, roomConfig.screenHeight);
      var low, high := RingFractions(i);
      next := randomizer;

      var topBox := Triangle([Lerp(topLeft, corners[0], low), Lerp(topRight, corners[1], low),
                              Lerp(topLeft, corners[0], high), Lerp(topRight, corners[1], high)], Unset);
      next := EmitRingQuad(i, 0, topBox, i + roomConfig.colorOffset2, next);

      var rightBox := Triangle([Lerp(topRight, corners[1], low), Lerp(topRight, corners[1], high),
                                Lerp(bottomRight, corners[2], low), Lerp(bottomRight, corners[2], high)], Unset);
      next := EmitRingQuad(i, 1, rightBox, i + roomConfig.colorOffset3, next);

      var bottomBox := Triangle([Lerp(bottomLeft, corners[3], low), Lerp(bottomRight, corners[2], low),
                                 Lerp(bottomLeft, corners[3], high), Lerp(bottomRight, corners[2], high)], Unset);
      next := EmitRingQuad(i, 2, bottomBox, i + roomConfig.colorOffset4, next);

      var leftBox := Triangle([Lerp(topLeft, corners[0], low), Lerp(topLeft, corners[0], high),
                               Lerp(bottomLeft, corners[3], low), Lerp(bottomLeft, corners[3], high)], Unset);
      next := EmitRingQuad(i, 3, leftBox, i + roomConfig.colorOffset1, next);
    }

    /** The fractions along each rail at which ring `i` starts and ends, eased when the rings are normalised. */
    method RingFractions(i: nat) returns (low: real, high: real)
      requires i < roomConfig.nBoxes
      ensures low == Low(roomConfig, i) && high == High(roomConfig, i)
    {
      var n := roomConfig.nBoxes;
      low := i as real / n as real;
      high := (i as real + 1.0) / n as real;
      if roomConfig.normalizedBoxes {
        low := 1.0 - low;
        low := low * low;
        low := 1.0 - low;
        high := 1.0 - high;
        high := high * high;
        high := 1.0 - high;
      }
    }

    /** Emits quad `s` of ring `i`, built by the caller, with the cyclic colour of `index`. */
    method EmitRingQuad(i: nat, s: nat, quad: Triangle, index: int, randomizer: Rng) returns (next: Rng)
      requires |colors| > 0 && i < roomConfig.nBoxes && s < 4
      requires quad.vert == RingQuad(roomConfig, i, SideAt(s))
      requires index == i + SideOffset(roomConfig, SideAt(s))
      requires triangles == RoomBuffer(roomConfig, colors)[..4 + 4 * i + s]
      modifies this`triangles
      ensures triangles == RoomBuffer(roomConfig, colors)[..4 + 4 * i + s + 1]
    {
      ghost var n := 4 + 4 * i + s;
      RoomAtRing(roomConfig, colors, i, s);
      RoomPrefixStep(roomConfig, colors, n);
      assert Triangle(ShiftVerts(quad.vert, roomConfig.offsetX, roomConfig.offsetY),
                      Entry(colors[CycleSlot(index, |colors|)])) == RoomAt(roomConfig, colors, n);
      next := EmitRoomPolygon(quad, index, randomizer);
    }
  }
}
