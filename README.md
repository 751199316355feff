# Procedural triangles: a verified model of the card-back generator

This project models the generation engine of the card-back generator's
`Source/procedural_triangles.cpp`. The engine has six parts:

- **The palette.** `LoadColors` reads every pixel of an image, row by row,
  into a list of distinct 32-bit colours. Three routines pick from that list:
  `FindClosestColor` takes the first entry nearest to a target colour among
  those closer than 1000, and entry 0 when there is none. `GetRandomColor`
  takes a random entry, and `CycleColors` takes the entry at `index % size`.
- **The `Triangle` record.** It holds a vertex list (three vertices by
  default) and a colour.
- **`TrianglesLine`.** It tiles the scene with rows of triangle pairs. Each
  triangle is coloured by the palette entry the closest-colour scan selects
  for a jittered red/green/blue gradient of its cell position. Every
  triangle is then moved by the configured offset.
- **`TriangleRooms`.** It lays out a centre box: two quads and two side
  triangles. Around the box it builds `n_boxes` rings of four quads each, on
  the rails that run from the outer screen corners to the box corners. Every
  ring polygon gets the palette entry of its cyclic index.
- **`FindColorFor`.** It computes the gradient colour at the centroid of a
  polygon, optionally jittered.
- **`AddTriangle`.** It moves a polygon by the room offset and appends it to
  the output buffer.

The program's globals `colors`, `triangles`, `config` and `room_config` are
the fields of the class `ProceduralTriangles.Generator`. Its routines are
methods with loops, written in the order of the original. Each method is
proved against a specification function of the state:

| method | specification |
|---|---|
| `LoadColors` | `Palette.Dedup` of the row-major pixel scan |
| `FindClosestColor` | `Palette.ClosestIndex` |
| `TrianglesLine` | `TriangleLine.LineBuffer` |
| `TriangleRooms` | `TriangleRooms.RoomBuffer` |

The properties the layout promises are then proved as lemmas about those
functions:

- the two triangles of each cell share an edge, and so does each cell with the next cell of its row;
- consecutive rings meet;
- the first ring starts at the screen edge and the last ends at the box;
- for non-negative colour offsets, ring colours repeat with the palette's period;
- each colour target stays within `color_random` of the gradient, and the colour is the palette entry chosen for that target;
- the palette is duplicate-free and in first-seen order.

Modules, one per file:

| module | file | contents |
|---|---|---|
| `RandomStream` | `random_stream.dfy` | seeded randomizer as seed plus draws taken; the integer and real draws |
| `Colors` | `colors.dfy` | clamping, the position gradient, jitter |
| `Arithmetic` | `arithmetic.dfy` | integer facts the models need |
| `Geometry` | `geometry.dfy` | points, `Lerp`, the ring easing |
| `Polygons` | `polygons.dfy` | the `Triangle` record, the vertex offset, centroids |
| `Palette` | `palette.dfy` | loading, the closest-colour scan, cyclic slots |
| `TriangleLine` | `triangle_line.dfy` | the tessellation specification |
| `TriangleRooms` | `triangle_rooms.dfy` | the room layout specification |
| `ProceduralTriangles` | `scene.dfy` | the `Generator` class and its routines |

Parameters of the model:

- The randomizer's draw algorithm (`ceng::CLGMRandom`) is the constant
  function `alg` of the generator: `alg(seed, k)` is the k-th raw draw in
  [0, 1).
- The colour distance (`ceng::ColorDistance`) is the constant function
  `dist`.
- A decoded image is a `Palette.Texture`: a grid of 32-bit pixels.

## Model

| member | source | states |
|---|---|---|
| ProceduralTriangles.Generator.constructor | Source/procedural_triangles.cpp:86-105 | The palette and the buffer start empty. Both configurations start at their declared defaults (lines 87-99 and 212-228). |
| ProceduralTriangles.Generator.LoadColors | Source/procedural_triangles.cpp:31-45 | The palette is replaced. It becomes the image's pixels in row-major order, each value kept only at its first occurrence (the unique append). |
| Palette.LoadedPalette | Source/procedural_triangles.cpp:33-44 | The loaded palette has no duplicates and holds every pixel of the image. It holds nothing that is not a pixel. Its entries are ordered by where the scan first meets them. |
| Palette.Dedup | Source/procedural_triangles.cpp:42 | The unique append of a whole sequence gives a duplicate-free list with exactly the elements of the input. |
| Palette.DedupFirstSeenOrder | Source/procedural_triangles.cpp:42 | `VectorAddUnique` keeps the values in the order of their first occurrence in the input. |
| Palette.RowMajorElements | Source/procedural_triangles.cpp:37-41 | The nested scan visits every pixel of the grid and yields nothing else. |
| Palette.RowMajor | Source/procedural_triangles.cpp:37-41 | Encodes the nested `y`/`x` scan: the rows of the grid concatenated in order, each row left to right. |
| Palette.AddUnique | Source/procedural_triangles.cpp:42 | Encodes `VectorAddUnique`: `s` when `c` is already in `s`, otherwise `s + [c]`. |
| ProceduralTriangles.Generator.GetRandomColor | Source/procedural_triangles.cpp:47-62 | On a non-empty palette the colour is the entry at `Random(0, size - 1)`, so it is a palette entry. The palette and buffer are unchanged. The randomizer advances by exactly one draw. |
| RandomStream.NextInt | Source/procedural_triangles.cpp:52 | `Random(lo, hi)` gives an integer in the inclusive range and consumes one draw. |
| RandomStream.NextReal | Source/procedural_triangles.cpp:160-162 | `randomizer(lo, hi)` gives a real between the bounds and consumes one draw. |
| RandomStream.SetSeed | Source/procedural_triangles.cpp:117 | Encodes `randomizer.SetSeed(config.seed)`: a stream at that seed with no draws taken. The call at line 298 is the same. |
| ProceduralTriangles.Generator.FindClosestColor | Source/procedural_triangles.cpp:64-81 | The result is the palette entry at the index the strict-less-than scan from the initial value 1000 selects. |
| Palette.ClosestIndex | Source/procedural_triangles.cpp:66-76 | The selected index is always a valid palette position. |
| Palette.Scan | Source/procedural_triangles.cpp:66-76 | Encodes the loop state `(closest, closest_i)` after n entries: `(1000, 0)` at first, then `(d, n - 1)` when the distance d of entry n - 1 is strictly below `closest`, else unchanged. Its ensures: the index is 0 or below n. |
| Palette.ScanInvariant | Source/procedural_triangles.cpp:66-76 | After n steps, `closest` is at most 1000 and at most every distance seen so far. While `closest` is still 1000 the index is 0. Otherwise `closest` is the distance at the index, and every earlier entry is strictly farther. |
| Palette.ClosestIsFirstMinimum | Source/procedural_triangles.cpp:64-81 | If some distance is below 1000, the result is a nearest entry and the first of the nearest, because ties keep the earlier entry. If no distance is below 1000, the result is entry 0. |
| ProceduralTriangles.Generator.CycleColors | Source/procedural_triangles.cpp:236-243 | The vertices never change. An empty palette leaves the triangle as it was. Otherwise the colour becomes the entry at `index % size`, with the index read as a `size_t`. |
| Palette.CycleSlot | Source/procedural_triangles.cpp:241 | The slot of `index % colors.size()`, with the `int` index converted to a 64-bit unsigned value, is a valid palette position. |
| Palette.CycleSlotInRange | Source/procedural_triangles.cpp:241 | For an index that is non-negative and below 2^64, the slot is the ordinary remainder. |
| Palette.CycleSlotPeriodic | Source/procedural_triangles.cpp:241 | For non-negative indices, indices that differ by the palette size give the same slot. |
| ProceduralTriangles.Generator.FindColorFor | Source/procedural_triangles.cpp:246-273 | The vertices are kept. The colour is the entry the closest-colour scan selects for the gradient at the centroid, scaled by the room size. The gradient is jittered by three draws exactly when a randomizer is given, and a null randomizer stays null. |
| TriangleRooms.RoomTargetNearGradient | Source/procedural_triangles.cpp:255-270 | The unjittered target lies in the unit colour cube. Without a randomizer the target is exactly that gradient. With one, each channel lies within `color_random` of it. |
| TriangleRooms.RoomTargetShift | Source/procedural_triangles.cpp:248-270 | Moving a polygon by (dx, dy) moves the point its target is sampled at by the same amount. This holds with or without a randomizer, because the moved polygon's target uses the same draws. Without a randomizer, the target is the gradient at the moved centroid. |
| TriangleRooms.TargetAt | Source/procedural_triangles.cpp:255-268 | Encodes the target at a point p: `Gradient(p.x / screen_width, p.y / screen_height)`. When a randomizer is given, each channel is jittered by `Randomf(-color_random, color_random)`, in red, green, blue order. |
| TriangleRooms.RoomTarget | Source/procedural_triangles.cpp:246-270 | Encodes the target of `FindColorFor`: `TargetAt` of the polygon's centroid. |
| Polygons.VertexSum | Source/procedural_triangles.cpp:248-250 | Encodes `pos += t.vert[i]` from the origin, vertex by vertex in order. |
| Polygons.Centroid | Source/procedural_triangles.cpp:248-253 | Encodes the vertex sum divided by the vertex count in each coordinate. |
| Colors.Clamp01 | Source/procedural_triangles.cpp:154-156 | Encodes `ceng::math::Clamp(x, 0, 1)`: 0 below 0, 1 above 1, otherwise x. The same clamp is used at lines 184-186 and 259-261. |
| Colors.GradientInRange | Source/procedural_triangles.cpp:153-158 | The gradient is in the unit cube: red is `Clamp(1 - u)` and blue is `Clamp(u)`, so they add up to 1. Green is between two thirds of `Clamp(v)` and `Clamp(v)`. |
| Colors.Gradient | Source/procedural_triangles.cpp:154-158 | Encodes the gradient at normalised position (u, v): `r = Clamp(1 - u)`, `b = Clamp(u)`, `g = Clamp(v) * (2 + r) / 3`. The same formula is used at lines 259-263. |
| Colors.Jittered | Source/procedural_triangles.cpp:160-162 | Each channel moves by at most `color_random`, and exactly three draws are consumed. |
| ProceduralTriangles.Generator.AddTriangle | Source/procedural_triangles.cpp:275-284 | Every vertex of the polygon is moved by the room offset and nothing else changes. The moved polygon is appended to the buffer. |
| Polygons.OffsetVertices | Source/procedural_triangles.cpp:167-171 | The per-vertex loop moves every vertex by (dx, dy) and keeps the colour. |
| Polygons.ShiftVerts | Source/procedural_triangles.cpp:167-171 | Encodes the offset loop on a vertex list: every vertex `(x, y)` becomes `(x + dx, y + dy)`, in order. The same loop is at lines 197-201 and 277-281. |
| Polygons.Shifted | Source/procedural_triangles.cpp:277-281 | Encodes a polygon with `ShiftVerts` applied to its vertices and its colour kept. |
| Polygons.NewTriangle | Source/procedural_triangles.cpp:18-24 | Encodes the default `Triangle`: `vert(3)` gives three default vertices at (0, 0), and the colour is unset. |
| Polygons.VertexSumShift | Source/procedural_triangles.cpp:248-250 | The vertex sum of a moved polygon is the original sum plus the vertex count times the offset. |
| Polygons.CentroidShift | Source/procedural_triangles.cpp:248-253 | The centroid of a moved polygon is the original centroid moved by the same offset. |
| ProceduralTriangles.Generator.TrianglesLine | Source/procedural_triangles.cpp:108-206 | The buffer is cleared and filled with exactly the tessellation: `2 * (count_height + 1) * (count_width + 2)` triangles in the order the loops emit them. |
| ProceduralTriangles.Generator.EmitCell | Source/procedural_triangles.cpp:133-202 | One inner-loop step appends the two triangles of its cell. The randomizer then stands at three draws per emitted triangle. |
| ProceduralTriangles.Generator.EmitLineTriangle | Source/procedural_triangles.cpp:153-172 | One triangle is coloured from the jittered gradient, moved by the offset and appended at the next buffer position. |
| TriangleLine.LineAtCell | Source/procedural_triangles.cpp:129-202 | Buffer position `2 * (iy * (count_width + 2) + ix + 1) + s` holds the moved triangle s of cell (iy, ix), where ix starts at -1. Its colour is the entry the closest-colour scan selects for the cell gradient jittered by the draws after the first `3 * position`. |
| TriangleLine.CellIndexBound | Source/procedural_triangles.cpp:129-131 | Every cell the two loops visit lies inside the buffer. A finished row ends where the next one begins. |
| TriangleLine.CountHeight | Source/procedural_triangles.cpp:122 | Encodes `count_height` as the floor of `1125 / height`. |
| TriangleLine.CountWidth | Source/procedural_triangles.cpp:123 | Encodes `count_width` as the floor of `850 / width`, with `width = width_percent * height`. |
| TriangleLine.ColorWidth | Source/procedural_triangles.cpp:125 | Encodes `color_width = screen_width / width`. |
| TriangleLine.ColorHeight | Source/procedural_triangles.cpp:126 | Encodes `color_height = screen_height / height`. |
| TriangleLine.TileWidth | Source/procedural_triangles.cpp:112 | Encodes `width = width_percent * height`. |
| TriangleLine.Columns | Source/procedural_triangles.cpp:131 | Encodes the number of cells per row, `count_width + 2`, as `ix` runs from -1 to `count_width`. |
| TriangleLine.LineCount | Source/procedural_triangles.cpp:129-202 | Encodes the buffer length `2 * (count_height + 1) * (count_width + 2)`: two pushes per cell over all rows and columns. |
| TriangleLine.CellGradient | Source/procedural_triangles.cpp:154-158 | Encodes the cell gradient `Gradient(ix / color_width, iy / color_height)`. The same formula is used at lines 184-188. |
| TriangleLine.CellOrigin | Source/procedural_triangles.cpp:133-139 | Encodes the cell base point `(ix * width, iy * height)`, moved right by `width / 2` when `offsetted` is set and iy is even. |
| TriangleLine.FirstVerts | Source/procedural_triangles.cpp:143-145 | Encodes the upward triangle `(x, y + h)`, `(x + w/2, y)`, `(x + w, y + h)`. |
| TriangleLine.SecondVerts | Source/procedural_triangles.cpp:174-176 | Encodes the downward triangle `(x + w/2, y)`, `(x + w, y + h)`, `(x + 3w/2, y)`. |
| TriangleLine.LineAt | Source/procedural_triangles.cpp:129-193 | Encodes buffer position n: cell `n / 2` in row-major order over columns -1 to `count_width`, upward for even n and downward for odd n. It is moved by the offset and coloured by the entry the closest-colour scan selects for the cell gradient jittered by draws 3n to 3n + 2. |
| TriangleLine.LineBuffer | Source/procedural_triangles.cpp:108-206 | Encodes the whole buffer as the `2 * (count_height + 1) * (count_width + 2)` positions given by `LineAt`. |
| TriangleLine.LinePrefixStep | Source/procedural_triangles.cpp:172 | Pushing the triangle of the next position extends the emitted prefix by one. |
| TriangleLine.CellVertsExplicit | Source/procedural_triangles.cpp:133-145 | Both triangles of a cell have the vertices of lines 143-145 and 174-176, moved by the offset. |
| TriangleLine.LineCellGeometry | Source/procedural_triangles.cpp:133-176 | The two triangles at the cell's buffer positions have the vertices of lines 143-145 and 174-176. Their base point is `(ix * width, iy * height)`, pushed right by half a tile on even rows when `offsetted` is set, then moved by the offset. |
| TriangleLine.LineCellVerts | Source/procedural_triangles.cpp:142-176 | Each of the cell's two triangles is its unmoved vertex list moved by the offset. |
| TriangleLine.LineCellsShareEdge | Source/procedural_triangles.cpp:143-176 | Both triangles of a cell have three vertices. The downward triangle's first two vertices are the upward triangle's last two, so the pair shares an edge. |
| TriangleLine.CrossCellEdge | Source/procedural_triangles.cpp:143-176 | Within a row, the downward triangle of cell ix and the upward triangle of cell ix + 1 sit two buffer positions apart. The last two vertices of the first are the first two vertices of the second, so they share an edge. |
| TriangleLine.CellVertsAbut | Source/procedural_triangles.cpp:143-176 | For two cell origins one tile width apart, the downward triangle of the left cell and the upward triangle of the right cell share that edge, with the same offset applied to both. |
| TriangleLine.NextCellOrigin | Source/procedural_triangles.cpp:133-139 | The base point of cell ix + 1 is one tile width to the right of that of cell ix. |
| TriangleLine.LineCellColor | Source/procedural_triangles.cpp:153-193 | The cell gradient lies in the unit cube, with red `Clamp(1 - ix / color_width)` and blue `Clamp(ix / color_width)`. Green lies between two thirds of `Clamp(iy / color_height)` and `Clamp(iy / color_height)`. Each triangle's colour is the entry the closest-colour scan selects for some target within `color_random` of that gradient. |
| ProceduralTriangles.Generator.TriangleRooms | Source/procedural_triangles.cpp:288-428 | The buffer is cleared and filled with exactly the room layout: the four centre polygons, then four quads for each of the `n_boxes` rings (none when `n_boxes` is not positive). |
| ProceduralTriangles.Generator.EmitCenter | Source/procedural_triangles.cpp:300-355 | The centre block appends the left box, the right box, the left triangle and the right triangle, with cyclic colours 0, 1, 1 and 2. |
| ProceduralTriangles.Generator.EmitRing | Source/procedural_triangles.cpp:369-424 | One ring step appends the top, right, bottom and left quads of ring i. |
| ProceduralTriangles.Generator.RingFractions | Source/procedural_triangles.cpp:369-381 | The ring's low and high rail fractions are `i / n` and `(i + 1) / n`, each passed through `1 - (1 - t)^2` when `normalized_boxes` is set. |
| ProceduralTriangles.Generator.EmitRingQuad | Source/procedural_triangles.cpp:383-424 | A quad whose vertices are the ring's rail points is appended with the colour of its `i + color_offset` index. |
| ProceduralTriangles.Generator.EmitRoomPolygon | Source/procedural_triangles.cpp:389-391 | The random colour is drawn and replaced by the cyclic one. The polygon is then moved by the room offset and appended, and one draw is consumed. |
| TriangleRooms.RoomAtRing | Source/procedural_triangles.cpp:383-424 | Position `4 + 4i + s` holds quad s of ring i: top, right, bottom, left in that order, moved by the offset, with the colour of `i` plus that side's colour offset. |
| TriangleRooms.Corners | Source/procedural_triangles.cpp:310-313 | Encodes the box corners: top-left, top-right, bottom-right, bottom-left at `center.x ∓ size.x * box_width_p` and `center.y ∓ size.y * box_height_p`. |
| TriangleRooms.CenterX | Source/procedural_triangles.cpp:295 | Encodes `center_p.x = 0.5 * screen_width`. |
| TriangleRooms.CenterY | Source/procedural_triangles.cpp:295 | Encodes `center_p.y = 0.5 * screen_height`. |
| TriangleRooms.HalfBox | Source/procedural_triangles.cpp:310-313 | Encodes the half-width `size.x * box_width_p` of the centre box. |
| TriangleRooms.BoxTop | Source/procedural_triangles.cpp:303-305 | Encodes `center_top.y = center_p.y - box_height_p * size.y`. |
| TriangleRooms.BoxBottom | Source/procedural_triangles.cpp:304-306 | Encodes `center_bottom.y = center_p.y + box_height_p * size.y`. |
| TriangleRooms.OuterCorners | Source/procedural_triangles.cpp:362-365 | Encodes the screen corners `top_left`, `top_right`, `bottom_right` and `bottom_left`. |
| TriangleRooms.CenterCycle | Source/procedural_triangles.cpp:324-353 | Encodes the `CycleColors` indices of the centre polygons: 0, 1, 1 and 2 (lines 324, 335, 344 and 353). |
| TriangleRooms.CenterPolygon | Source/procedural_triangles.cpp:316-351 | Encodes the left and right box halves (outer-top, centre-top, outer-bottom, centre-bottom) and the left and right triangles (outer point at mid-height, then the centre points `0.5 * size.x * box_width_p` above and below). |
| TriangleRooms.SideQuad | Source/procedural_triangles.cpp:383-421 | Encodes the quad vertex order: top and bottom give both rails at `low`, then both at `high`. Right and left give rail A at `low` and `high`, then rail B at `low` and `high`. Each rail point is `Lerp(outer corner, box corner, t)`. |
| TriangleRooms.Rail | Source/procedural_triangles.cpp:385-421 | Encodes rail point j at fraction t as `Lerp(outer corner j, corners[j], t)`. |
| TriangleRooms.RailA | Source/procedural_triangles.cpp:385-421 | Encodes the first corner index of each side's quad: 0 for top, 1 for right, 3 for bottom and 0 for left. |
| TriangleRooms.RailB | Source/procedural_triangles.cpp:385-421 | Encodes the second corner index of each side's quad: 1 for top, 2 for right, 2 for bottom and 3 for left. |
| TriangleRooms.SideAt | Source/procedural_triangles.cpp:383-423 | Encodes the emission order of a ring's quads: top, right, bottom, left for slots 0 to 3. |
| TriangleRooms.RoomCount | Source/procedural_triangles.cpp:300-424 | Encodes the buffer length `4 + 4 * max(n_boxes, 0)`: four centre polygons, then four quads for each iteration of the loop at line 367. |
| TriangleRooms.Low | Source/procedural_triangles.cpp:369-380 | Encodes ring i's `low = i / n_boxes`, eased when `normalized_boxes` is set. |
| TriangleRooms.High | Source/procedural_triangles.cpp:370-380 | Encodes ring i's `high = (i + 1) / n_boxes`, eased when `normalized_boxes` is set. |
| TriangleRooms.RingQuad | Source/procedural_triangles.cpp:369-421 | Encodes ring i's quad on one side as `SideQuad` between `RingBound(i)` and `RingBound(i + 1)`. |
| TriangleRooms.SideOffset | Source/procedural_triangles.cpp:390-422 | Encodes the colour offset of each side: top `color_offset2`, right `color_offset3`, bottom `color_offset4`, left `color_offset1`. |
| TriangleRooms.CycleIndex | Source/procedural_triangles.cpp:323-422 | Encodes the index passed to `CycleColors`: 0, 1, 1, 2 for the centre polygons and `i + SideOffset(side)` for ring i. |
| TriangleRooms.RawPolygon | Source/procedural_triangles.cpp:316-421 | Encodes buffer position n before the offset: centre polygon n for n < 4, otherwise ring `(n - 4) / 4` on side `(n - 4) % 4`. |
| TriangleRooms.RoomAt | Source/procedural_triangles.cpp:389-423 | Encodes buffer position n: `RawPolygon(n)` moved by the offset, coloured with the entry at `CycleSlot(CycleIndex(n))`. |
| TriangleRooms.RoomBuffer | Source/procedural_triangles.cpp:288-428 | Encodes the whole buffer as the `4 + 4 * max(n_boxes, 0)` positions given by `RoomAt`. |
| TriangleRooms.RoomShape | Source/procedural_triangles.cpp:290-424 | The buffer holds `4 + 4 * max(n_boxes, 0)` polygons, so there are no rings when `n_boxes` is not positive. The two centre boxes have four vertices, the two centre triangles have three, and every ring polygon has four. |
| TriangleRooms.RoomCenterShape | Source/procedural_triangles.cpp:310-351 | The centre boxes span the box corners and share their middle edge. The centre triangles share their inner edge and have their points on the box's left and right sides at mid-height. |
| TriangleRooms.RoomCenterColors | Source/procedural_triangles.cpp:323-353 | The centre polygons take palette entries 0, `1 % size`, `1 % size` and `2 % size`. |
| TriangleRooms.RoomRingColors | Source/procedural_triangles.cpp:389-423 | Ring i's top, right, bottom and left quads take the entries of `i + color_offset2`, `i + color_offset3`, `i + color_offset4` and `i + color_offset1`. |
| TriangleRooms.RoomRingColorsRepeat | Source/procedural_triangles.cpp:389-423 | For non-negative colour offsets, the quads of ring i and of ring i + size on the same side have the same colour. |
| TriangleRooms.RingEdges | Source/procedural_triangles.cpp:383-421 | Each quad's inner edge is at the ring's low fraction of its two rails, and its outer edge at the high fraction. |
| TriangleRooms.RoomRingsShareEdges | Source/procedural_triangles.cpp:369-424 | On each side, the outer edge of ring i's quad is the inner edge of ring i + 1's quad. |
| TriangleRooms.RoomFirstRingOuter | Source/procedural_triangles.cpp:362-390 | The first ring's inner edge on each side lies on the screen's outer corners. |
| TriangleRooms.RoomLastRingInner | Source/procedural_triangles.cpp:310-424 | The last ring's outer edge on each side lies on the centre box's corners. |
| TriangleRooms.RoomRingsOrdered | Source/procedural_triangles.cpp:369-381 | Each ring starts at a fraction in [0, 1) and ends strictly later, at most at 1. A later ring never starts before an earlier one ends. |
| Geometry.LerpEnds | Source/procedural_triangles.cpp:385-388 | Interpolation at 0 gives the rail's outer point and at 1 its inner point. |
| Geometry.Lerp | Source/procedural_triangles.cpp:385-421 | Encodes `ceng::math::Lerp(a, b, t)` as `a + (b - a) * t`, coordinate by coordinate. |
| Geometry.Ease | Source/procedural_triangles.cpp:374-380 | Encodes the `normalized_boxes` easing `low = 1 - (1 - low)^2`. |
| Geometry.RingBound | Source/procedural_triangles.cpp:369-380 | Encodes ring boundary `i / n_boxes`, eased when `normalized_boxes` is set. |
| Geometry.EaseMonotone | Source/procedural_triangles.cpp:372-381 | The easing fixes 0 and 1 and is monotone on [0, 1]. |
| Geometry.EaseStrict | Source/procedural_triangles.cpp:372-381 | The easing is strictly increasing on [0, 1]. |
| Geometry.RingBoundEnds | Source/procedural_triangles.cpp:369-381 | Ring 0 starts at 0 and ring n ends at 1, with or without the easing. |
| Geometry.RingBoundOrdered | Source/procedural_triangles.cpp:369-381 | The ring bounds are monotone in the ring index and stay in [0, 1]. |
| Geometry.RingBoundStrict | Source/procedural_triangles.cpp:369-381 | Each ring's high bound lies strictly above its low bound. |

## Left out

- Rendering is not modelled. That covers `DrawTriangle` and the drawing and white-line routines, none of which changes the generated data.
- The configuration UI (`DEFINE_CONFIG_UI`, `MetaData` ranges) is not modelled. It edits `room_config` (and `config`), which the generators read on every call. In the model such edits are made outside the class, by assigning its public `config` and `roomConfig` fields, and the UI's value ranges are not enforced.
- The application lifecycle is not modelled. It only invokes the modelled routines: `Init` (line 474) and `OnKeyDown` (line 562) call `LoadColors`, and `Update` calls `TriangleRooms` every frame (line 494). The `TrianglesLine` call at line 495 is commented out.
- Image decoding (`GetTexture`, `GetPixel`) is not modelled. `LoadColors` receives the decoded pixel grid as a `Texture`.
- `ceng::CLGMRandom`'s algorithm is an abstract draw function. The model defines `Random(lo, hi)` as `lo + floor(u * (hi - lo + 1))` and `randomizer(lo, hi)`/`Randomf` as `lo + u * (hi - lo)`. Only the draw count and the range of each mapping are relied on.
- GetRandomColor: the `randomizer == NULL` branch, which draws from the global `ceng::Random`, is not modelled. The generators always pass a randomizer.
- `ceng::ColorDistance` is an abstract function. The `Set32`/`GetFColor` channel conversion is not modelled: a triangle's colour is the palette entry it was given (`Entry(pixel)`), or `Unset` for a default colour.
- Floating point is not modelled. Arithmetic is on exact reals with no rounding, NaN or infinity. For that reason `FindColorFor` requires a non-zero room size and a non-empty vertex list.
- ProceduralTriangles.Generator.TrianglesLine requires a positive `height`, `width_percent`, `screen_width` and `screen_height`, so non-positive configurations are not modelled. In floats a zero value divides by zero, and the `(int)` conversion of the resulting infinity is undefined. Negative values are well defined: the `(int)` conversions truncate toward zero and the loops run over whatever counts result. For example, `height = -100` gives `count_height = -11`, so the loop at line 129 never runs and the buffer is empty. A negative tile width likewise gives a non-positive `count_width`.
- The int32 wrap-around of `i + color_offset` is not modelled. The sum is taken in unbounded integers before the `size_t` conversion.
- The `random_colors` branch of `TrianglesLine` is not modelled. The variable is the constant `false`, so that branch never runs.
- `FindColorFor` is modelled and specified, but no generator here calls it.
- FindClosestColor and GetRandomColor read `colors[0]` on an empty palette, which is undefined behaviour. They, `TrianglesLine` and `TriangleRooms` therefore require a non-empty palette. `CycleColors` does check for an empty palette, and the model follows that check.
- TrianglesLine adds the jitter after clamping and never clamps again, so a target may leave the unit cube by up to `color_random`. The model follows the code here.
- TriangleRooms seeds its randomizer from the triangle-line configuration's `seed` (`config.seed`), not from `room_config.seed`, and the model does the same. The random colours it draws are all overwritten by `CycleColors`, so its ensures does not describe the randomizer's final state.
- EmitRing builds each ring quad as a four-vertex list in one step, where the original calls `resize(4)` and then assigns the four entries one by one. The resulting vertex lists are the same. The centre polygons are built as the original builds them, including the out-of-order assignment of `vert[3]` before `vert[2]`.
- TrianglesLine: its ensures does not state the randomizer's final state (three draws per emitted triangle). Only the loop invariant and `EmitCell` carry it.
- Geometry.Lerp: `ceng::math::Lerp` is not part of this model. It is taken to be `a + (b - a) * t`.
- Palette.CycleSlot: `size_t` is taken to be 64 bits, so a negative index wraps modulo 2^64. On a 32-bit build it would wrap modulo 2^32.
- TriangleLine.CountHeight and TriangleLine.CountWidth: the `(int)` conversion of `1125 / height` and `850 / width` would overflow for very small tiles. The model's natural number has no such limit.
- Palette.AddUnique: `ceng::VectorAddUnique` is not part of this model. It is taken to append the value when it is absent and to leave the vector unchanged otherwise.
- Colors.Clamp01: `ceng::math::Clamp` is not part of this model. It is taken to be the usual clamp to [low, high].
- Polygons.NewTriangle: a default-constructed `types::vector2` is taken to be (0, 0). `NewTriangle` (`vert(3)`), the `resize(4)` at line 317 and the starting `pos` at line 248 rely on this.
