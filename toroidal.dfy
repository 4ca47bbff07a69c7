/** Wrap-around arithmetic on the horizontally toroidal playfield.

    Every `rem_euclid` of the game is modelled by `Wrap`: the Euclidean remainder of a real by a
    positive modulus, leaving out `f32` rounding. */
module Toroidal {
  import opened Arith

  /** Virtual width of the playfield (`PLAYFIELD_WIDTH`). */
  const PlayfieldWidth: real := 8.0

  /** `x.rem_euclid(w)` for a positive modulus `w`. */
  function Wrap(x: real, w: real): (r: real)
    requires w > 0.0
    ensures 0.0 <= r < w
  {
    FloorBounds(x, w);
    x - w * ((x / w).Floor as real)
  }

  /** The multiple of `w` that `Wrap` subtracts lies within one period below `x`. */
  lemma FloorBounds(x: real, w: real)
    requires w > 0.0
    ensures w * ((x / w).Floor as real) <= x < w * ((x / w).Floor as real) + w
  {
    var q := (x / w).Floor;
    assert w * (x / w) == x;
    assert q as real <= x / w < q as real + 1.0;
    MulLeftMono(w, q as real, x / w);
    MulLeftStrict(w, x / w, q as real + 1.0);
    assert x < w * (q as real + 1.0);
    assert w * (q as real + 1.0) == w * (q as real) + w;
  }

  /** Wrap is the unique representative in [0, w) of x modulo w. */
  lemma WrapUnique(x: real, w: real, k: int, y: real)
    requires w > 0.0
    requires 0.0 <= y < w
    requires x == y + k as real * w
    ensures Wrap(x, w) == y
  {
    var q := (x / w).Floor;
    var r := Wrap(x, w);
    assert r == x - w * q as real;
    var d := k - q;
    assert d as real == k as real - q as real;
    assert w * q as real == q as real * w;
    assert d as real * w == k as real * w - q as real * w;
    assert r - y == d as real * w;
    NoMultipleBetween(w, r, y, d);
  }

  /** `Wrap` only ever moves `x` by a whole number of periods. */
  lemma WrapCongruent(x: real, w: real) returns (k: int)
    requires w > 0.0
    ensures x == Wrap(x, w) + k as real * w
  {
    k := (x / w).Floor;
  }

  /** A value already in [0, w) is left alone. */
  lemma WrapInRange(x: real, w: real)
    requires w > 0.0 && 0.0 <= x < w
    ensures Wrap(x, w) == x
  {
    WrapUnique(x, w, 0, x);
  }

  /** Wrapping twice is wrapping once. */
  lemma WrapIdempotent(x: real, w: real)
    requires w > 0.0
    ensures Wrap(Wrap(x, w), w) == Wrap(x, w)
  {
    WrapInRange(Wrap(x, w), w);
  }

  /** Shifting the argument by whole periods does not change the result. */
  lemma WrapPeriodic(x: real, w: real, n: int)
    requires w > 0.0
    ensures Wrap(x + n as real * w, w) == Wrap(x, w)
  {
    var k := WrapCongruent(x, w);
    assert x + n as real * w == Wrap(x, w) + (k + n) as real * w;
    WrapUnique(x + n as real * w, w, k + n, Wrap(x, w));
  }

  /** Shifting before or after wrapping gives the same result: a scroll by `d` moves a wrapped
      coordinate by `d`, modulo `w`. */
  lemma WrapShift(x: real, d: real, w: real)
    requires w > 0.0
    ensures Wrap(x + d, w) == Wrap(Wrap(x, w) + d, w)
  {
    var k := WrapCongruent(x, w);
    assert x + d == (Wrap(x, w) + d) + k as real * w;
    WrapPeriodic(Wrap(x, w) + d, w, k);
  }
}
