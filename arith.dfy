/** Small facts of real arithmetic that the solver does not find on its own. */
module Arith {

  lemma MulLeftMono(w: real, a: real, b: real)
    requires w > 0.0 && a <= b
    ensures w * a <= w * b
  {
    assert w * b - w * a == w * (b - a);
  }

  lemma MulLeftStrict(w: real, a: real, b: real)
    requires w > 0.0 && a < b
    ensures w * a < w * b
  {
    assert w * b - w * a == w * (b - a);
  }

  lemma AtLeastOnce(w: real, a: real)
    ensures w > 0.0 && a >= 1.0 ==> a * w >= w
  {
    if w > 0.0 && a >= 1.0 {
      assert a * w - w == (a - 1.0) * w;
    }
  }

  /** Two points of [0, w) differ by no whole nonzero multiple of `w`. */
  lemma NoMultipleBetween(w: real, r: real, y: real, d: int)
    requires w > 0.0 && 0.0 <= r < w && 0.0 <= y < w
    requires r - y == d as real * w
    ensures d == 0
  {
    AtLeastOnce(w, d as real);
    AtLeastOnce(w, (-d) as real);
    assert (-d) as real * w == -(d as real * w);
  }

  /** Multiplication behind a function symbol, so that facts about a product of compound
      operands carry over from a lemma to its caller. */
  function Times(a: real, b: real): real { a * b }

  /** `MulLeftMono` and `MulLeftStrict` over `Times`, for when the factors may coincide. */
  lemma TimesLeftMono(w: real, a: real, b: real)
    requires w > 0.0 && a <= b
    ensures Times(w, a) <= Times(w, b)
  {
    MulLeftMono(w, a, b);
  }

  lemma TimesLeftStrict(w: real, a: real, b: real)
    requires w > 0.0 && a < b
    ensures Times(w, a) < Times(w, b)
  {
    MulLeftStrict(w, a, b);
  }

  /** A fraction in [0, 1) of a positive quantity lies in [0, d). */
  lemma FractionOf(d: real, u: real)
    requires d > 0.0 && 0.0 <= u < 1.0
    ensures 0.0 <= Times(d, u) < d
  {
    MulLeftMono(d, 0.0, u);
    MulLeftStrict(d, u, 1.0);
  }

  function Abs(x: real): real { if x < 0.0 then -x else x }
  function Min(a: real, b: real): real { if a <= b then a else b }
  function Max(a: real, b: real): real { if a >= b then a else b }

  /** `x.clamp(lo, hi)`. */
  function Clamp(x: real, lo: real, hi: real): (r: real)
    requires lo <= hi
    ensures lo <= r <= hi
    ensures lo <= x <= hi ==> r == x
  {
    if x < lo then lo else if x > hi then hi else x
  }
}
