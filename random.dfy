/** The random source: a seeded, sequential, cloneable stream of draws.

    The ChaCha8 generator itself is not modelled. A generator is the infinite sequence of its
    draws, each uniform in [0, 1), together with the index of the next draw; `random_range(lo..hi)`
    maps one draw onto the half-open range. */
module Random {
  import opened Arith

  /** One raw draw of the generator. */
  type Unit = u: real | 0.0 <= u < 1.0

  /** The value `random_range(lo..hi)` yields for the raw draw `u` (floating-point ranges). */
  function Scale(u: Unit, lo: real, hi: real): (r: real)
    requires lo < hi
    ensures lo <= r < hi
  {
    FractionOf(hi - lo, u);
    lo + Times(hi - lo, u)
  }

  /** The value `random_range(lo..hi)` yields for the raw draw `u` (integer ranges). */
  function ScaleInt(u: Unit, lo: int, hi: int): (r: int)
    requires lo < hi
    ensures lo <= r < hi
  {
    lo + Scale(u, 0.0, (hi - lo) as real).Floor
  }

  /** A generator: the fixed stream of its draws and how many of them have been consumed. */
  class Rng {
    const draws: nat -> Unit
    var next: nat

    /** A freshly seeded generator; `draws` is the stream its seed determines. */
    constructor (draws: nat -> Unit)
      ensures this.draws == draws && next == 0
    {
      this.draws := draws;
      next := 0;
    }

    /** `clone()`: an independent generator at the same point of the same stream. */
    constructor Clone(other: Rng)
      ensures draws == other.draws && next == other.next
    {
      draws := other.draws;
      next := other.next;
    }

    /** `random_range(lo..hi)` over floats: consumes exactly one draw. */
    method RandomRange(lo: real, hi: real) returns (r: real)
      requires lo < hi
      modifies this
      ensures next == old(next) + 1
      ensures r == Scale(draws(old(next)), lo, hi)
    {
      r := Scale(draws(next), lo, hi);
      next := next + 1;
    }

    /** `random_range(lo..hi)` over integers: consumes exactly one draw. */
    method RandomInt(lo: int, hi: int) returns (r: int)
      requires lo < hi
      modifies this
      ensures next == old(next) + 1
      ensures r == ScaleInt(draws(old(next)), lo, hi)
    {
      r := ScaleInt(draws(next), lo, hi);
      next := next + 1;
    }
  }
}
