/**
  The seeded random stream the generators draw from (the `ceng::CLGMRandom`
  class of the original). Its algorithm is not part of this model: a
  generator is an abstract function giving, for a seed, the k-th raw draw
  in [0, 1). A randomizer instance is the seed it was given and the number
  of draws it has handed out, so re-seeding with the same value replays the
  same stream.
*/
module RandomStream {

  /** An optional value: a `ceng::CLGMRandom*` that may be null is an `Option<Rng>`. */
  datatype Option<T> = None | Some(value: T)

  /** A raw draw of the generator. */
  type UnitDraw = u: real | 0.0 <= u < 1.0

  /** The generator's algorithm: `alg(seed, k)` is the k-th raw draw after `SetSeed(seed)`. */
  type Algorithm = (real, nat) -> UnitDraw

  /** The state of one randomizer: its seed and how many draws it has produced. */
  datatype Rng = Rng(seed: real, taken: nat)

  /** A freshly seeded randomizer. */
  function SetSeed(seed: real): Rng
  {
    Rng(seed, 0)
  }

  /** The randomizer after handing out one more draw. */
  function Advance(r: Rng): Rng
  {
    Rng(r.seed, r.taken + 1)
  }

  /** `v` lies between the two bounds, in whichever order they are given. */
  predicate Between(v: real, lo: real, hi: real)
  {
    (lo <= hi ==> lo <= v <= hi) && (hi < lo ==> hi <= v <= lo)
  }

  /** `Random(lo, hi)`: an integer in the inclusive range, from one draw. */
  function NextInt(alg: Algorithm, r: Rng, lo: int, hi: int): (res: (int, Rng))
    requires lo <= hi
    ensures lo <= res.0 <= hi
    ensures res.1 == Advance(r)
  {
    var u := alg(r.seed, r.taken);
    var m := hi - lo + 1;
    var scaled := u * m as real;
    ScaleWithin(u, m as real);
    (lo + scaled.Floor, Advance(r))
  }

  /** `randomizer(lo, hi)` / `Randomf(lo, hi)`: a real in the range, from one draw. */
  function NextReal(alg: Algorithm, r: Rng, lo: real, hi: real): (res: (real, Rng))
    ensures Between(res.0, lo, hi)
    ensures res.1 == Advance(r)
  {
    var u := alg(r.seed, r.taken);
    DrawBetween(u, lo, hi);
    (lo + u * (hi - lo), Advance(r))
  }

  lemma DrawBetween(u: UnitDraw, lo: real, hi: real)
    ensures Between(lo + u * (hi - lo), lo, hi)
  {
    if lo <= hi {
      ProductNonNegative(u, hi - lo);
      ProductNonNegative(1.0 - u, hi - lo);
      assert u * (hi - lo) + (1.0 - u) * (hi - lo) == hi - lo;
    } else {
      ProductNonNegative(u, lo - hi);
      ProductNonNegative(1.0 - u, lo - hi);
      assert u * (lo - hi) + (1.0 - u) * (lo - hi) == lo - hi;
      assert u * (hi - lo) == -(u * (lo - hi));
    }
  }

  /** Scaling by a draw keeps a quantity between zero and itself. */
  lemma ScaleWithin(u: UnitDraw, d: real)
    ensures d >= 0.0 ==> 0.0 <= u * d <= d && (d > 0.0 ==> u * d < d)
    ensures d < 0.0 ==> d <= u * d <= 0.0
  {
    ProductNonNegative(1.0 - u, if d >= 0.0 then d else -d);
    ProductNonNegative(u, if d >= 0.0 then d else -d);
  }

  lemma ProductNonNegative(a: real, b: real)
    requires a >= 0.0 && b >= 0.0
    ensures a * b >= 0.0
  {
  }
}
