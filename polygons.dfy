/**
  The polygons the generators emit (the `Triangle` struct of the original,
  which holds three or four vertices) and the in-place vertex translation
  that every generator applies before appending a polygon to the buffer.
*/
module Polygons {
  import opened Geometry
  import opened Palette

  /**
    A polygon's fill colour. A default-constructed polygon has `Unset`; every
    colour the generators assign is a palette entry converted for drawing,
    recorded here by the entry it came from (the channel conversion itself is
    not modelled).
  */
  datatype Color = Unset | Entry(pixel: Pixel)

  /** A polygon: its vertices in winding order and its fill colour. */
  datatype Triangle = Triangle(vert: seq<Vec2>, color: Color)

  /** `Triangle t;`: three vertices at the origin and the default colour. */
  function NewTriangle(): Triangle
  {
    Triangle([Vec2(0.0, 0.0), Vec2(0.0, 0.0), Vec2(0.0, 0.0)], Unset)
  }

  /** Every vertex of `vs` moved by `(dx, dy)`. */
  function ShiftVerts(vs: seq<Vec2>, dx: real, dy: real): seq<Vec2>
  {
    seq(|vs|, i requires 0 <= i < |vs| => Vec2(vs[i].x + dx, vs[i].y + dy))
  }

  /** `t` with every vertex moved by `(dx, dy)` and its colour kept. */
  function Shifted(t: Triangle, dx: real, dy: real): Triangle
  {
    t.(vert := ShiftVerts(t.vert, dx, dy))
  }

  /**
    The vertex-offset loop (`t.vert[i].x += offset_x; t.vert[i].y += offset_y`
    for every i), applied to a copy of the polygon.
  */
  method OffsetVertices(t: Triangle, dx: real, dy: real) returns (u: Triangle)
    ensures u == Shifted(t, dx, dy)
  {
    u := t;
    var i := 0;
    while i < |u.vert|
      invariant 0 <= i <= |u.vert| == |t.vert|
      invariant u.color == t.color
      invariant forall k :: 0 <= k < i ==> u.vert[k] == Vec2(t.vert[k].x + dx, t.vert[k].y + dy)
      invariant forall k :: i <= k < |u.vert| ==> u.vert[k] == t.vert[k]
    {
      u := u.(vert := u.vert[i := Vec2(u.vert[i].x + dx, u.vert[i].y + dy)]);
      i := i + 1;
    }
    assert u.vert == ShiftVerts(t.vert, dx, dy);
  }

  /** The sum of the vertices of `vs`, added in order. */
  function VertexSum(vs: seq<Vec2>): Vec2
  {
    if |vs| == 0 then Vec2(0.0, 0.0)
    else
      var s := VertexSum(vs[..|vs| - 1]);
      Vec2(s.x + vs[|vs| - 1].x, s.y + vs[|vs| - 1].y)
  }

  /** The centroid of a non-empty vertex list. */
  function Centroid(vs: seq<Vec2>): Vec2
    requires |vs| > 0
  {
    var s := VertexSum(vs);
    Vec2(s.x / |vs| as real, s.y / |vs| as real)
  }

  /** Translating every vertex adds the offset once per vertex to their sum. */
  lemma {:induction false} VertexSumShift(vs: seq<Vec2>, dx: real, dy: real)
    ensures VertexSum(ShiftVerts(vs, dx, dy)) ==
            Vec2(VertexSum(vs).x + |vs| as real * dx, VertexSum(vs).y + |vs| as real * dy)
  {
    if |vs| > 0 {
      var init := vs[..|vs| - 1];
      assert ShiftVerts(vs, dx, dy)[..|vs| - 1] == ShiftVerts(init, dx, dy);
      VertexSumShift(init, dx, dy);
    }
  }

  /** Dividing a sum that includes `n` copies of `d` by `n` gives the quotient plus `d`. */
  lemma DivideShift(a: real, n: real, d: real)
    requires n > 0.0
    ensures (a + n * d) / n == a / n + d
  {
    assert (a / n + d) * n == a + n * d;
  }

  /** The centroid moves with the polygon: translating a polygon translates its centroid. */
  lemma CentroidShift(vs: seq<Vec2>, dx: real, dy: real)
    requires |vs| > 0
    ensures Centroid(ShiftVerts(vs, dx, dy)) == Vec2(Centroid(vs).x + dx, Centroid(vs).y + dy)
  {
    var n := |vs| as real;
    var s := VertexSum(vs);
    VertexSumShift(vs, dx, dy);
    assert |ShiftVerts(vs, dx, dy)| == |vs|;
    assert VertexSum(ShiftVerts(vs, dx, dy)) == Vec2(s.x + n * dx, s.y + n * dy);
    DivideShift(s.x, n, dx);
    DivideShift(s.y, n, dy);
  }
}
