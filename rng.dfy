/**
 * NumPy's global random generator as app.py uses it. The generator's
 * internal algorithm is not modelled: its output is a deterministic stream
 * of draws in [0, 1) that depends only on the last seed and on how many
 * draws were taken since. `randint` and `uniform` turn one draw into a
 * value of the requested range.
 */
module Rng {

  /** One raw draw of the generator. */
  type Unit = u: real | 0.0 <= u < 1.0

  /** The k-th draw after seeding with s is source(s, k). */
  type Source = (int, nat) -> Unit

  /** A draw stretched over a positive width stays inside [0, width). */
  function Scale(u: Unit, width: real): (s: real)
    requires 0.0 < width
    ensures 0.0 <= s < width
  {
    u * width
  }

  /** `np.random.randint(lo, hi)`: an integer of the half-open range [lo, hi). */
  function IntDraw(lo: int, hi: int, u: Unit): (v: int)
    requires lo < hi
    ensures lo <= v < hi
  {
    lo + Scale(u, (hi - lo) as real).Floor
  }

  /** `np.random.uniform(lo, hi)`: a real of the half-open range [lo, hi). */
  function UniformDraw(lo: real, hi: real, u: Unit): (v: real)
    requires lo < hi
    ensures lo <= v < hi
  {
    lo + Scale(u, hi - lo)
  }

  /** The process-wide generator state: the last seed and the draws taken since. */
  class GlobalRng {
    const source: Source
    var seed: int
    var drawn: nat

    constructor (source: Source, seed: int)
      ensures this.source == source && this.seed == seed && drawn == 0
    {
      this.source := source;
      this.seed := seed;
      drawn := 0;
    }

    /** `np.random.seed(s)`: restarts the stream. */
    method Seed(s: int)
      modifies this
      ensures seed == s && drawn == 0
    {
      seed := s;
      drawn := 0;
    }

    /** `np.random.randint(lo, hi)`: consumes the next draw. */
    method RandInt(lo: int, hi: int) returns (v: int)
      requires lo < hi
      modifies this
      ensures v == IntDraw(lo, hi, source(old(seed), old(drawn)))
      ensures lo <= v < hi
      ensures seed == old(seed) && drawn == old(drawn) + 1
    {
      v := IntDraw(lo, hi, source(seed, drawn));
      drawn := drawn + 1;
    }

    /** `np.random.uniform(lo, hi)`: consumes the next draw. */
    method Uniform(lo: real, hi: real) returns (v: real)
      requires lo < hi
      modifies this
      ensures v == UniformDraw(lo, hi, source(old(seed), old(drawn)))
      ensures lo <= v < hi
      ensures seed == old(seed) && drawn == old(drawn) + 1
    {
      v := UniformDraw(lo, hi, source(seed, drawn));
      drawn := drawn + 1;
    }
  }
}
