/**
  Plane geometry used by the generators: points, linear interpolation, and
  the ring boundaries of the room layout with their optional easing.
*/
module Geometry {

  /** A point of the scene (`types::vector2`), coordinates as exact reals. */
  datatype Vec2 = Vec2(x: real, y: real)

  /** `ceng::math::Lerp(a, b, t)`: the point a fraction `t` of the way from `a` to `b`. */
  function Lerp(a: Vec2, b: Vec2, t: real): Vec2
  {
    Vec2(a.x + (b.x - a.x) * t, a.y + (b.y - a.y) * t)
  }

  /** Interpolation starts at `a` and ends at `b`, with no drift at either end. */
  lemma LerpEnds(a: Vec2, b: Vec2)
    ensures Lerp(a, b, 0.0) == a && Lerp(a, b, 1.0) == b
  {
  }

  /** The `normalized_boxes` easing `x ↦ 1 - (1 - x)²`. */
  function Ease(x: real): real
  {
    var y := 1.0 - x;
    1.0 - y * y
  }

  /** The easing fixes 0 and 1, maps [0, 1] into itself and preserves order there. */
  lemma EaseMonotone(x: real, y: real)
    requires 0.0 <= x <= y <= 1.0
    ensures Ease(0.0) == 0.0 && Ease(1.0) == 1.0
    ensures 0.0 <= Ease(x) <= Ease(y) <= 1.0
  {
    var a, b := 1.0 - x, 1.0 - y;
    assert 0.0 <= b <= a <= 1.0;
    assert a * a - b * b == (a - b) * (a + b);
    assert (a - b) * (a + b) >= 0.0;
    assert a * a <= 1.0 by {
      assert a * a <= a * 1.0;
    }
    assert b * b >= 0.0;
  }

  /**
    The boundary between ring `i - 1` and ring `i` of an `n`-ring layout:
    `i / n`, eased when the layout is normalised.
  */
  function RingBound(i: int, n: int, normalized: bool): real
    requires n > 0
  {
    var t := i as real / n as real;
    if normalized then Ease(t) else t
  }

  /** The first boundary is 0 and the last is 1, eased or not. */
  lemma RingBoundEnds(n: int, normalized: bool)
    requires n > 0
    ensures RingBound(0, n, normalized) == 0.0 && RingBound(n, n, normalized) == 1.0
  {
    assert n as real / n as real == 1.0;
  }

  /** Boundaries increase with the ring index and stay inside [0, 1], eased or not. */
  lemma RingBoundOrdered(i: int, j: int, n: int, normalized: bool)
    requires n > 0 && 0 <= i <= j <= n
    ensures 0.0 <= RingBound(i, n, normalized) <= RingBound(j, n, normalized) <= 1.0
  {
    var ti, tj := i as real / n as real, j as real / n as real;
    DivideOrdered(0.0, i as real, n as real);
    DivideOrdered(i as real, j as real, n as real);
    DivideOrdered(j as real, n as real, n as real);
    assert n as real / n as real == 1.0;
    if normalized {
      EaseMonotone(ti, tj);
    }
  }

  /** Consecutive boundaries are strictly ordered: every ring has positive width, eased or not. */
  lemma RingBoundStrict(i: int, n: int, normalized: bool)
    requires n > 0 && 0 <= i < n
    ensures RingBound(i, n, normalized) < RingBound(i + 1, n, normalized)
  {
    var ti, tj := i as real / n as real, (i + 1) as real / n as real;
    assert tj == ti + 1.0 / n as real;
    assert 1.0 / n as real > 0.0;
    if normalized {
      RingBoundOrdered(i, i + 1, n, normalized);
      DivideOrdered(i as real, n as real, n as real);
      DivideOrdered(0.0, i as real, n as real);
      DivideOrdered((i + 1) as real, n as real, n as real);
      assert n as real / n as real == 1.0;
      EaseStrict(ti, tj);
    }
  }

  /** The easing is strictly increasing on [0, 1]. */
  lemma EaseStrict(x: real, y: real)
    requires 0.0 <= x < y <= 1.0
    ensures Ease(x) < Ease(y)
  {
    var d, e := y - x, 2.0 - x - y;
    ProductPositive(d, e);
    assert Ease(y) - Ease(x) == d * e;
  }

  lemma ProductPositive(a: real, b: real)
    requires a > 0.0 && b > 0.0
    ensures a * b > 0.0
  {
  }

  lemma DivideOrdered(a: real, b: real, d: real)
    requires a <= b && d > 0.0
    ensures a / d <= b / d
  {
    var s, t := a / d, b / d;
    assert s * d == a && t * d == b;
  }
}
