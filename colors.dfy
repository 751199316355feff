/**
  Target colours: the floating-point colour a generator asks the palette to
  match, the gradient formula both generators use to derive it from a
  normalised position, and the random jitter added to each channel.
*/
module Colors {
  import opened RandomStream

  /** A target colour (`ceng::CColorFloat` / `types::fcolor`), channels as exact reals. */
  datatype Rgb = Rgb(r: real, g: real, b: real)

  /** `ceng::math::Clamp(x, 0, 1)`. */
  function Clamp01(x: real): real
  {
    if x < 0.0 then 0.0 else if x > 1.0 then 1.0 else x
  }

  /**
    The gradient target for a position whose horizontal coordinate,
    normalised, is `u` and whose vertical one is `v`: red fades out and blue
    fades in along `u`, green follows `v` damped by `(2 + r) / 3`.
  */
  function Gradient(u: real, v: real): Rgb
  {
    var r := Clamp01(1.0 - u);
    var g := Clamp01(v);
    var b := Clamp01(u);
    Rgb(r, g * ((2.0 + r) / 3.0), b)
  }

  /** Every channel of `c` lies in [0, 1]. */
  predicate InUnitCube(c: Rgb)
  {
    0.0 <= c.r <= 1.0 && 0.0 <= c.g <= 1.0 && 0.0 <= c.b <= 1.0
  }

  /**
    The gradient always yields a colour inside the unit cube; red and blue
    are complementary, and green is the clamped `v` scaled into [2/3, 1] of
    itself.
  */
  lemma GradientInRange(u: real, v: real)
    ensures InUnitCube(Gradient(u, v))
    ensures Gradient(u, v).r + Gradient(u, v).b == 1.0
    ensures Gradient(u, v).r == Clamp01(1.0 - u) && Gradient(u, v).b == Clamp01(u)
    ensures 2.0 / 3.0 * Clamp01(v) <= Gradient(u, v).g <= Clamp01(v)
  {
    var r := Clamp01(1.0 - u);
    var g := Clamp01(v);
    var k := (2.0 + r) / 3.0;
    assert 2.0 / 3.0 <= k <= 1.0;
    assert g * k <= g by {
      assert g * (1.0 - k) >= 0.0;
    }
    assert 2.0 / 3.0 * g <= g * k by {
      assert g * (k - 2.0 / 3.0) >= 0.0;
    }
  }

  /** Each channel of `a` differs from that of `c` by at most `|amount|`. */
  predicate Near(a: Rgb, c: Rgb, amount: real)
  {
    var m := if amount < 0.0 then -amount else amount;
    -m <= a.r - c.r <= m && -m <= a.g - c.g <= m && -m <= a.b - c.b <= m
  }

  /**
    Adds `randomizer(-amount, amount)` to the red, green and blue channels
    in that order, taking three draws from the stream.
  */
  function Jittered(alg: Algorithm, rng: Rng, amount: real, c: Rgb): (res: (Rgb, Rng))
    ensures Near(res.0, c, amount)
    ensures res.1 == Rng(rng.seed, rng.taken + 3)
  {
    var dr := NextReal(alg, rng, -amount, amount);
    var dg := NextReal(alg, dr.1, -amount, amount);
    var db := NextReal(alg, dg.1, -amount, amount);
    (Rgb(c.r + dr.0, c.g + dg.0, c.b + db.0), db.1)
  }
}
