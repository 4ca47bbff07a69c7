/** The parallax mountain ranges (`mountains.rs`): the midpoint-displacement height profile, the
    triangle-strip outline built from it, and the per-frame horizontal scroll of each layer. */
module Mountains {
  import opened Arith
  import opened Toroidal
  import opened Ecs
  import opened Random

  /** `NUM_SAMPLES`: height samples per playfield width. */
  const NumSamples: nat := 128
  /** Number of anchor-to-anchor blocks the refinement loop visits. */
  const NumBlocks: nat := 32
  /** Half-width of the random displacement added at every midpoint. */
  const Roughness: real := 0.02
  const AnchorLow: real := 0.2
  const AnchorHigh: real := 0.3
  /** Bounds on every refined height: the anchor range widened by one displacement per draw a
      block consumes. */
  const MinHeight: real := 0.06
  const MaxHeight: real := 0.44

  // ---------------------------------------------------------------------------------------------
  // gen_fract

  /** How many draws a refinement of a span of width `n` consumes: one per call of the
      recursion, and a span of width `n` makes `2n - 1` calls (one for itself, then those of its
      two halves, whose widths add up to `n`). */
  function FractDraws(n: nat): (d: nat)
    requires n >= 1
  {
    2 * n - 1
  }

  /** `gen_fract(h, i0, i1)` as a value: the new heights and the index of the next unused draw.
      The midpoint takes the mean of the two end samples plus a displacement in [-0.02, 0.02);
      a span wider than one sample then refines both halves, left first. Only indices in
      [i0, i1) are ever written, `i1` never. */
  function Fract(h: seq<real>, i0: nat, i1: nat, draws: nat -> Unit, next: nat): (r: (seq<real>, nat))
    requires i0 < i1 < |h|
    ensures |r.0| == |h|
    ensures r.1 == next + FractDraws(i1 - i0)
    decreases i1 - i0
  {
    var im := (i0 + i1) / 2;
    var h' := h[im := (h[i0] + h[i1]) * 0.5 + Scale(draws(next), -Roughness, Roughness)];
    if i1 > i0 + 1 then
      assert im - i0 == (i1 - i0) / 2;
      var left := Fract(h', i0, im, draws, next + 1);
      Fract(left.0, im, i1, draws, left.1)
    else
      (h', next + 1)
  }

  /** Only indices in [i0, i1) are ever written; in particular `i1` is only read. */
  lemma {:induction false} FractFrame(h: seq<real>, i0: nat, i1: nat, draws: nat -> Unit, next: nat)
    requires i0 < i1 < |h|
    ensures forall k :: 0 <= k < |h| && !(i0 <= k < i1) ==> Fract(h, i0, i1, draws, next).0[k] == h[k]
    decreases i1 - i0
  {
    var im := (i0 + i1) / 2;
    var h' := h[im := (h[i0] + h[i1]) * 0.5 + Scale(draws(next), -Roughness, Roughness)];
    if i1 > i0 + 1 {
      var left := Fract(h', i0, im, draws, next + 1);
      FractFrame(h', i0, im, draws, next + 1);
      FractFrame(left.0, im, i1, draws, left.1);
    }
  }

  /** `FractFrame` at one index. */
  lemma FractFrameAt(h: seq<real>, i0: nat, i1: nat, draws: nat -> Unit, next: nat, k: nat)
    requires i0 < i1 < |h| && k < |h| && !(i0 <= k < i1)
    ensures Fract(h, i0, i1, draws, next).0[k] == h[k]
  {
    FractFrame(h, i0, i1, draws, next);
  }

  /** `gen_fract`: the recursive midpoint displacement, in place on `height`. */
  method GenFract(height: array<real>, i0: nat, i1: nat, rng: Rng)
    requires i0 < i1 < height.Length
    modifies height, rng
    ensures (height[..], rng.next) == Fract(old(height[..]), i0, i1, rng.draws, old(rng.next))
    decreases i1 - i0
  {
    ghost var h := height[..];
    ghost var n := rng.next;
    var im := Displace(height, i0, i1, rng);
    if i1 > i0 + 1 {
      ghost var left := Fract(height[..], i0, im, rng.draws, n + 1);
      GenFract(height, i0, im, rng);
      assert (height[..], rng.next) == left;
      GenFract(height, im, i1, rng);
    }
  }

  /** The first step of `gen_fract`: the midpoint of [i0, i1] set to the mean of the two ends
      plus one displacement draw. */
  method Displace(height: array<real>, i0: nat, i1: nat, rng: Rng) returns (im: nat)
    requires i0 < i1 < height.Length
    modifies height, rng
    ensures im == (i0 + i1) / 2
    ensures rng.next == old(rng.next) + 1
    ensures height[..] == old(height[..])[im := (old(height[i0]) + old(height[i1])) * 0.5
                                                + Scale(rng.draws(old(rng.next)), -Roughness, Roughness)]
  {
    var h0 := height[i0];
    var h1 := height[i1];
    im := (i0 + i1) / 2;
    var noise := rng.RandomRange(-Roughness, Roughness);
    height[im] := (h0 + h1) * 0.5 + noise;
  }

  /** The indices the recursion of `gen_fract(_, i0, i1)` writes: one midpoint per call. */
  function FractWrites(i0: nat, i1: nat): set<nat>
    requires i0 < i1
    decreases i1 - i0
  {
    var im := (i0 + i1) / 2;
    {im} + (if i1 > i0 + 1 then FractWrites(i0, im) + FractWrites(im, i1) else {})
  }

  /** The calls of `gen_fract(_, i0, i1)` write every index of [i0, i1) and nothing else. */
  lemma {:induction false} FractWritesSpan(i0: nat, i1: nat)
    requires i0 < i1
    ensures forall k: nat :: k in FractWrites(i0, i1) <==> i0 <= k < i1
    decreases i1 - i0
  {
    var im := (i0 + i1) / 2;
    if i1 > i0 + 1 {
      FractWritesSpan(i0, im);
      FractWritesSpan(im, i1);
    }
  }

  /** When the span is a single sample the midpoint is `i0` itself: the start sample is
      overwritten with the mean of itself and its neighbour plus a displacement. */
  lemma UnitSpanRewritesStart(h: seq<real>, i0: nat, draws: nat -> Unit, next: nat)
    requires i0 + 1 < |h|
    ensures Fract(h, i0, i0 + 1, draws, next).0[i0]
         == (h[i0] + h[i0 + 1]) * 0.5 + Scale(draws(next), -Roughness, Roughness)
  {
  }

  /** In a block of four, the anchor at the start of the block is rewritten by the third draw:
      the first draw sets sample 2 from the two anchors, the second sets sample 1 from the
      start anchor and sample 2, the third rewrites the start anchor from itself and sample 1. */
  lemma {:induction false} BlockRewritesAnchor(h: seq<real>, i: nat, draws: nat -> Unit, next: nat)
    requires i + 4 < |h|
    ensures var n0 := Scale(draws(next), -Roughness, Roughness);
            var n1 := Scale(draws(next + 1), -Roughness, Roughness);
            var n2 := Scale(draws(next + 2), -Roughness, Roughness);
            var v2 := (h[i] + h[i + 4]) * 0.5 + n0;
            var v1 := (h[i] + v2) * 0.5 + n1;
            Fract(h, i, i + 4, draws, next).0[i] == (h[i] + v1) * 0.5 + n2
  {
    var n0 := Scale(draws(next), -Roughness, Roughness);
    var n1 := Scale(draws(next + 1), -Roughness, Roughness);
    var v2 := (h[i] + h[i + 4]) * 0.5 + n0;
    var h1 := h[i + 2 := v2];
    var v1 := (h1[i] + h1[i + 2]) * 0.5 + n1;
    var h2 := h1[i + 1 := v1];
    var ll := Fract(h2, i, i + 1, draws, next + 2);
    var lr := Fract(ll.0, i + 1, i + 2, draws, ll.1);
    assert Fract(h1, i, i + 2, draws, next + 1) == lr;
    var right := Fract(lr.0, i + 2, i + 4, draws, lr.1);
    assert Fract(h, i, i + 4, draws, next) == right;
    FractFrame(ll.0, i + 1, i + 2, draws, ll.1);
    FractFrame(lr.0, i + 2, i + 4, draws, lr.1);
    assert right.0[i] == lr.0[i] == ll.0[i];
  }

  /** The furthest `n` displacement draws can move a sample: `n` times the roughness, 0.02. */
  function Drift(n: nat): (e: real)
    ensures e >= 0.0
  {
    0.02 * n as real
  }

  /** A sample of a span refined from end samples in [lo, hi] stays within [lo, hi] widened by
      the drift of all the draws the span consumes. */
  lemma {:induction false} FractBoundsAt(h: seq<real>, i0: nat, i1: nat, draws: nat -> Unit, next: nat,
                                         lo: real, hi: real, k: nat)
    requires i0 <= k <= i1 < |h| && i0 < i1
    requires lo <= h[i0] <= hi && lo <= h[i1] <= hi
    ensures lo - Drift(FractDraws(i1 - i0)) <= Fract(h, i0, i1, draws, next).0[k] <= hi + Drift(FractDraws(i1 - i0))
    decreases i1 - i0
  {
    var im := (i0 + i1) / 2;
    if i1 > i0 + 1 {
      var eL := Drift(FractDraws(im - i0));
      var e := Drift(FractDraws(i1 - i0));
      var m := (h[i0] + h[i1]) * 0.5 + Scale(draws(next), -Roughness, Roughness);
      var h' := h[im := m];
      var left := Fract(h', i0, im, draws, next + 1);
      var r := Fract(left.0, im, i1, draws, left.1).0;
      assert Fract(h, i0, i1, draws, next).0 == r;
      if k < im {
        FractBoundsAt(h', i0, im, draws, next + 1, lo - Roughness, hi + Roughness, k);
        FractFrameAt(left.0, im, i1, draws, left.1, k);
      } else {
        FractBoundsAt(h', i0, im, draws, next + 1, lo - Roughness, hi + Roughness, im);
        FractFrameAt(h', i0, im, draws, next + 1, i1);
        FractBoundsAt(left.0, im, i1, draws, left.1, lo - Roughness - eL, hi + Roughness + eL, k);
      }
    }
  }

  /** `FractBoundsAt` for every sample of the span. */
  lemma FractBounds(h: seq<real>, i0: nat, i1: nat, draws: nat -> Unit, next: nat, lo: real, hi: real)
    requires i0 < i1 < |h|
    requires lo <= h[i0] <= hi && lo <= h[i1] <= hi
    ensures forall k :: i0 <= k <= i1 ==>
              lo - Drift(FractDraws(i1 - i0)) <= Fract(h, i0, i1, draws, next).0[k] <= hi + Drift(FractDraws(i1 - i0))
  {
    forall k | i0 <= k <= i1
      ensures lo - Drift(FractDraws(i1 - i0)) <= Fract(h, i0, i1, draws, next).0[k] <= hi + Drift(FractDraws(i1 - i0))
    {
      FractBoundsAt(h, i0, i1, draws, next, lo, hi, k);
    }
  }



  // ---------------------------------------------------------------------------------------------
  // create_mountain_mesh

  /** The anchor sample of block `b`, at index `4b`. */
  function AnchorAt(h: seq<real>, b: nat): real
    requires 4 * b < |h|
  {
    h[4 * b]
  }

  /** The samples before refinement: an anchor drawn in [0.2, 0.3) at every multiple of four
      (one draw each, in order), zero elsewhere, and the closing sample a copy of the first. */
  function Anchors(draws: nat -> Unit, next: nat): (h: seq<real>)
    ensures |h| == NumSamples + 1
    ensures h[NumSamples] == h[0]
  {
    seq(NumSamples + 1, k requires 0 <= k <= NumSamples =>
      if k == NumSamples then Scale(draws(next), AnchorLow, AnchorHigh)
      else if k % 4 == 0 then Scale(draws(next + k / 4), AnchorLow, AnchorHigh)
      else 0.0)
  }

  /** Anchor `b` is the `b`-th draw, scaled into [0.2, 0.3); the closing anchor repeats the
      first. */
  lemma AnchorsDrawn(draws: nat -> Unit, next: nat)
    ensures forall b :: 0 <= b < NumBlocks ==> AnchorAt(Anchors(draws, next), b) == Scale(draws(next + b), AnchorLow, AnchorHigh)
    ensures forall b :: 0 <= b <= NumBlocks ==> AnchorLow <= AnchorAt(Anchors(draws, next), b) < AnchorHigh
  {
    var h := Anchors(draws, next);
    forall b | 0 <= b <= NumBlocks
      ensures b < NumBlocks ==> AnchorAt(h, b) == Scale(draws(next + b), AnchorLow, AnchorHigh)
      ensures AnchorLow <= AnchorAt(h, b) < AnchorHigh
    {
      assert (4 * b) % 4 == 0 && (4 * b) / 4 == b;
    }
  }

  /** The refinement loop after its first `j` blocks, with the index of the next unused draw;
      block `b` refines [4b, 4b + 4). Nothing at or beyond `4j` has been touched. */
  function Refine(h: seq<real>, j: nat, draws: nat -> Unit, next: nat): (r: (seq<real>, nat))
    requires |h| == NumSamples + 1 && j <= NumBlocks
    ensures |r.0| == |h| && r.1 == next + 7 * j
  {
    if j == 0 then (h, next)
    else
      var prev := Refine(h, j - 1, draws, next);
      assert FractDraws(4) == 7;
      Fract(prev.0, 4 * (j - 1), 4 * j, draws, prev.1)
  }

  /** Nothing at or beyond `4j` is touched by the first `j` blocks. */
  lemma {:induction false} RefineFrame(h: seq<real>, j: nat, draws: nat -> Unit, next: nat)
    requires |h| == NumSamples + 1 && j <= NumBlocks
    ensures forall k :: 4 * j <= k < |h| ==> Refine(h, j, draws, next).0[k] == h[k]
  {
    if j > 0 {
      RefineFrame(h, j - 1, draws, next);
      var prev := Refine(h, j - 1, draws, next);
      var r := Fract(prev.0, 4 * (j - 1), 4 * j, draws, prev.1);
      assert Refine(h, j, draws, next) == r;
      FractFrame(prev.0, 4 * (j - 1), 4 * j, draws, prev.1);
      forall k | 4 * j <= k < |h|
        ensures r.0[k] == h[k]
      {
        assert r.0[k] == prev.0[k];
      }
    }
  }

  /** The indices the first `j` blocks of the refinement loop write. */
  function RefineWrites(j: nat): set<nat>
  {
    if j == 0 then {} else RefineWrites(j - 1) + FractWrites(4 * (j - 1), 4 * j)
  }

  /** The refinement loop writes every sample before the closing one, and the closing sample
      keeps the copy of the first anchor made before refinement. */
  lemma {:induction false} RefineWritesAll(j: nat)
    ensures forall k: nat :: k in RefineWrites(j) <==> k < 4 * j
  {
    if j > 0 {
      RefineWritesAll(j - 1);
      FractWritesSpan(4 * (j - 1), 4 * j);
    }
  }

  /** After refinement, the closing sample still holds the pre-refinement first anchor. */
  lemma ClosingSampleKept(draws: nat -> Unit, next: nat)
    ensures Refine(Anchors(draws, next), NumBlocks, draws, next + NumBlocks).0[NumSamples] == Anchors(draws, next)[0]
  {
    RefineFrame(Anchors(draws, next), NumBlocks, draws, next + NumBlocks);
  }

  /** If every anchor lies in [0.2, 0.3], the first `j` blocks leave every sample up to `4j` in
      [0.06, 0.44]. */
  lemma {:induction false} RefineBounds(h: seq<real>, j: nat, draws: nat -> Unit, next: nat)
    requires |h| == NumSamples + 1 && j <= NumBlocks
    requires forall b :: 0 <= b <= NumBlocks ==> AnchorLow <= AnchorAt(h, b) <= AnchorHigh
    ensures forall k :: 0 <= k <= 4 * j ==> MinHeight <= Refine(h, j, draws, next).0[k] <= MaxHeight
  {
    if j > 0 {
      RefineBounds(h, j - 1, draws, next);
      assert AnchorLow <= AnchorAt(h, j - 1) <= AnchorHigh && AnchorLow <= AnchorAt(h, j) <= AnchorHigh;
      RefineStepBounds(h, j - 1, j, draws, next);
    } else {
      assert AnchorAt(h, 0) == h[0];
    }
  }

  /** The induction step of `RefineBounds`: block `j` lies between two anchors in [0.2, 0.3]
      and after samples already in [0.06, 0.44]. */
  lemma RefineStepBounds(h: seq<real>, j: nat, j': nat, draws: nat -> Unit, next: nat)
    requires |h| == NumSamples + 1 && j < NumBlocks && j' == j + 1
    requires AnchorLow <= h[4 * j] <= AnchorHigh && AnchorLow <= h[4 * j + 4] <= AnchorHigh
    requires forall k :: 0 <= k <= 4 * j ==> MinHeight <= Refine(h, j, draws, next).0[k] <= MaxHeight
    ensures forall k :: 0 <= k <= 4 * j' ==> MinHeight <= Refine(h, j', draws, next).0[k] <= MaxHeight
  {
    var prev := Refine(h, j, draws, next);
    var i0 := 4 * j;
    RefineFrame(h, j, draws, next);
    assert prev.0[i0] == h[i0] && prev.0[i0 + 4] == h[i0 + 4];
    var r := Fract(prev.0, i0, i0 + 4, draws, prev.1);
    assert Refine(h, j', draws, next) == r;
    BlockBounds(prev.0, i0, i0 + 4, draws, prev.1);
  }

  /** One block of the refinement keeps every sample in [0.06, 0.44], given that its two anchors
      lie in [0.2, 0.3] and the samples before it already lie in [0.06, 0.44]. */
  lemma BlockBounds(h: seq<real>, i0: nat, i1: nat, draws: nat -> Unit, next: nat)
    requires i1 == i0 + 4 && i1 < |h|
    requires AnchorLow <= h[i0] <= AnchorHigh && AnchorLow <= h[i1] <= AnchorHigh
    requires forall k :: 0 <= k < i0 ==> MinHeight <= h[k] <= MaxHeight
    ensures forall k :: 0 <= k <= i1 ==> MinHeight <= Fract(h, i0, i1, draws, next).0[k] <= MaxHeight
  {
    FractBounds(h, i0, i1, draws, next, AnchorLow, AnchorHigh);
    FractFrame(h, i0, i1, draws, next);
    assert FractDraws(4) == 7;
  }

  /** The 128 heights of one mountain profile, from the draws starting at `next`: 32 anchors,
      then seven displacements per block. Every height lies in [0.06, 0.44]. */
  function MountainHeights(draws: nat -> Unit, next: nat): (hs: seq<real>)
    ensures |hs| == NumSamples
    ensures forall k :: 0 <= k < NumSamples ==> MinHeight <= hs[k] <= MaxHeight
  {
    var anchors := Anchors(draws, next);
    AnchorsDrawn(draws, next);
    RefineBounds(anchors, NumBlocks, draws, next + NumBlocks);
    Refine(anchors, NumBlocks, draws, next + NumBlocks).0[..NumSamples]
  }

  /** Draws one mountain profile consumes. */
  const MeshDraws: nat := 256

  /** The x coordinate of sample `i`: the samples split one playfield width evenly. */
  function SampleX(i: nat): (x: real)
    ensures i < NumSamples ==> 0.0 <= x < PlayfieldWidth
  {
    (i as real) * PlayfieldWidth / (NumSamples as real)
  }

  /** The outline a triangle strip follows: for each sample, its top `(x, h)` and then its foot
      `(x, 0)`, shifted right by `shift`. */
  function Outline(heights: seq<real>, shift: real): (ps: seq<Vec2>)
    ensures |ps| == 2 * |heights|
    ensures forall i :: 0 <= i < |heights| ==>
              ps[2 * i] == Vec2(SampleX(i) + shift, heights[i]) && ps[2 * i + 1] == Vec2(SampleX(i) + shift, 0.0)
  {
    if heights == [] then []
    else
      var n := |heights| - 1;
      Outline(heights[..n], shift) + [Vec2(SampleX(n) + shift, heights[n]), Vec2(SampleX(n) + shift, 0.0)]
  }

  /** Entry `k` of an outline belongs to sample `k / 2`: its top when `k` is even, its foot when
      odd. */
  lemma OutlineAt(heights: seq<real>, shift: real, k: nat)
    requires k < 2 * |heights|
    ensures Outline(heights, shift)[k] == Vec2(SampleX(k / 2) + shift, if k % 2 == 0 then heights[k / 2] else 0.0)
  {
    var i := k / 2;
    if k % 2 == 0 {
      assert k == 2 * i;
    } else {
      assert k == 2 * i + 1;
    }
  }

  /** The texture coordinates of a mountain mesh: the outline once, then again one playfield
      width to the right. */
  function MeshUvs(heights: seq<real>): seq<Vec2>
  {
    Outline(heights, 0.0) + Outline(heights, PlayfieldWidth)
  }

  /** Vertex positions: the texture coordinates placed on the z = 0 plane. */
  function Flat(ps: seq<Vec2>): (qs: seq<Vec3>)
    ensures |qs| == |ps|
  {
    seq(|ps|, k requires 0 <= k < |ps| => Vec3(ps[k].x, ps[k].y, 0.0))
  }

  /** A mesh has 4 * 128 vertices, each position the texture coordinate at z = 0; the second
      half repeats the first one playfield width to the right, so the strip covers [0, 16). */
  lemma {:induction false} MeshLayout(heights: seq<real>)
    requires |heights| == NumSamples
    ensures |MeshUvs(heights)| == 4 * NumSamples && |Flat(MeshUvs(heights))| == 4 * NumSamples
    ensures forall k :: 0 <= k < 4 * NumSamples ==>
              Flat(MeshUvs(heights))[k] == Vec3(MeshUvs(heights)[k].x, MeshUvs(heights)[k].y, 0.0)
    ensures forall k :: 0 <= k < 2 * NumSamples ==>
              MeshUvs(heights)[2 * NumSamples + k] == Vec2(MeshUvs(heights)[k].x + PlayfieldWidth, MeshUvs(heights)[k].y)
    ensures forall k :: 0 <= k < 4 * NumSamples ==> 0.0 <= MeshUvs(heights)[k].x < 2.0 * PlayfieldWidth
  {
    var uvs := MeshUvs(heights);
    forall k | 0 <= k < 4 * NumSamples
      ensures 0.0 <= uvs[k].x < 2.0 * PlayfieldWidth
      ensures k < 2 * NumSamples ==> uvs[2 * NumSamples + k] == Vec2(uvs[k].x + PlayfieldWidth, uvs[k].y)
    {
      if k < 2 * NumSamples {
        OutlineAt(heights, 0.0, k);
        OutlineAt(heights, PlayfieldWidth, k);
        assert uvs[k] == Outline(heights, 0.0)[k];
        assert uvs[2 * NumSamples + k] == Outline(heights, PlayfieldWidth)[k];
      } else {
        OutlineAt(heights, PlayfieldWidth, k - 2 * NumSamples);
        assert uvs[k] == Outline(heights, PlayfieldWidth)[k - 2 * NumSamples];
      }
    }
  }

  /** The anchor loop of `create_mountain_mesh`, then the copy of the first anchor into the
      closing sample. */
  method DrawAnchors(rng: Rng) returns (height: array<real>)
    modifies rng
    ensures fresh(height)
    ensures height[..] == Anchors(rng.draws, old(rng.next)) && rng.next == old(rng.next) + NumBlocks
  {
    height := new real[NumSamples + 1](_ => 0.0);
    var i := 0;
    while i < NumSamples
      invariant i <= NumSamples && i % 4 == 0
      invariant rng.next == old(rng.next) + i / 4
      invariant forall k :: 0 <= k < height.Length ==>
                  height[k] == if k < i && k % 4 == 0 then Scale(rng.draws(old(rng.next) + k / 4), AnchorLow, AnchorHigh) else 0.0
      modifies height, rng
    {
      height[i] := rng.RandomRange(AnchorLow, AnchorHigh);
      i := i + 4;
    }
    height[NumSamples] := height[0];
  }

  /** The refinement loop of `create_mountain_mesh`: `gen_fract` over each block, in order. */
  method RefineAll(height: array<real>, rng: Rng)
    requires height.Length == NumSamples + 1
    modifies height, rng
    ensures height[..] == Refine(old(height[..]), NumBlocks, rng.draws, old(rng.next)).0
    ensures rng.next == old(rng.next) + 7 * NumBlocks
  {
    ghost var h0, start := height[..], rng.next;
    for b := 0 to NumBlocks
      invariant height[..] == Refine(h0, b, rng.draws, start).0
      invariant rng.next == start + 7 * b
    {
      RefineBlock(height, b, rng, h0, start);
    }
  }

  /** One iteration of the refinement loop: `gen_fract` over block `b`. */
  method RefineBlock(height: array<real>, b: nat, rng: Rng, ghost h0: seq<real>, ghost start: nat)
    requires |h0| == NumSamples + 1 && b < NumBlocks
    requires height[..] == Refine(h0, b, rng.draws, start).0 && rng.next == start + 7 * b
    modifies height, rng
    ensures height[..] == Refine(h0, b + 1, rng.draws, start).0 && rng.next == start + 7 * (b + 1)
  {
    ghost var prev := Refine(h0, b, rng.draws, start);
    ghost var next := Fract(prev.0, 4 * b, 4 * b + 4, rng.draws, prev.1);
    assert Refine(h0, b + 1, rng.draws, start) == next;
    assert height[..] == prev.0 && rng.next == prev.1;
    var i := 4 * b;
    GenFract(height, i, i + 4, rng);
    assert (height[..], rng.next) == next;
  }

  /** One vertex loop of `create_mountain_mesh`: pushes the outline of `heights`, shifted by
      `shift`, onto the texture coordinates and (at z = 0) onto the positions. */
  method PushOutline(heights: seq<real>, shift: real, positions: seq<Vec3>, uvs: seq<Vec2>)
    returns (positions': seq<Vec3>, uvs': seq<Vec2>)
    requires positions == Flat(uvs)
    ensures uvs' == uvs + Outline(heights, shift) && positions' == Flat(uvs')
  {
    positions', uvs' := positions, uvs;
    for j := 0 to |heights|
      invariant uvs' == uvs + Outline(heights[..j], shift) && positions' == Flat(uvs')
    {
      assert heights[..j + 1][..j] == heights[..j];
      var x := j as real * PlayfieldWidth / NumSamples as real;
      positions' := positions' + [Vec3(x + shift, heights[j], 0.0), Vec3(x + shift, 0.0, 0.0)];
      uvs' := uvs' + [Vec2(x + shift, heights[j]), Vec2(x + shift, 0.0)];
    }
    assert heights[..|heights|] == heights;
  }

  /** A triangle-strip mesh: vertex positions and texture coordinates. */
  datatype Mesh = Mesh(positions: seq<Vec3>, uvs: seq<Vec2>)

  /** The mountain mesh built from the draws starting at `next`. */
  function MountainMesh(draws: nat -> Unit, next: nat): Mesh
  {
    var uvs := MeshUvs(MountainHeights(draws, next));
    Mesh(Flat(uvs), uvs)
  }

  /** Every vertex of a mountain mesh lies on the z = 0 plane at its texture coordinate, and
      no higher than 0.44 above the ground line: even vertices are sample tops, odd ones feet. */
  lemma MountainMeshShape(draws: nat -> Unit, next: nat)
    ensures var m := MountainMesh(draws, next);
            && |m.uvs| == 4 * NumSamples && |m.positions| == 4 * NumSamples
            && forall k :: 0 <= k < 4 * NumSamples ==>
                 m.positions[k] == Vec3(m.uvs[k].x, m.uvs[k].y, 0.0) && 0.0 <= m.uvs[k].y <= MaxHeight
  {
    var heights := MountainHeights(draws, next);
    MeshLayout(heights);
    var uvs := MeshUvs(heights);
    forall k | 0 <= k < 4 * NumSamples
      ensures 0.0 <= uvs[k].y <= MaxHeight
    {
      if k < 2 * NumSamples {
        OutlineAt(heights, 0.0, k);
        assert uvs[k] == Outline(heights, 0.0)[k];
      } else {
        OutlineAt(heights, PlayfieldWidth, k - 2 * NumSamples);
        assert uvs[k] == Outline(heights, PlayfieldWidth)[k - 2 * NumSamples];
      }
    }
  }

  /** `create_mountain_mesh`: draws the anchors, closes the loop, refines block by block in
      place, drops the closing sample and emits both copies of the outline. */
  method CreateMountainMesh(rng: Rng) returns (mesh: Mesh)
    modifies rng
    ensures rng.next == old(rng.next) + MeshDraws
    ensures mesh == MountainMesh(rng.draws, old(rng.next))
  {
    ghost var start := rng.next;
    var height := DrawAnchors(rng);
    RefineAll(height, rng);
    var heights := height[..NumSamples];
    assert heights == MountainHeights(rng.draws, start);
    var positions, uvs := PushOutline(heights, 0.0, [], []);
    positions, uvs := PushOutline(heights, PlayfieldWidth, positions, uvs);
    mesh := Mesh(positions, uvs);
  }

  // ---------------------------------------------------------------------------------------------
  // spawn_mountains

  /** `MOUNTAINS_DEPTH`. */
  const MountainsDepth: real := -60.0

  /** What each mountain layer is spawned with (its material colours are left out). */
  datatype MountainLayer = MountainLayer(mesh: Mesh, translation: Vec3, scale: real, speed: real)

  /** `spawn_mountains`: three layers from one generator, nearest first. Each layer is scaled by
      its own scroll speed, so a layer's outline (two playfield widths of mesh) is exactly twice
      the distance it wraps over. */
  method SpawnMountains(rng: Rng) returns (cmds: seq<Command<MountainLayer>>)
    modifies rng
    ensures rng.next == old(rng.next) + 3 * 256
    ensures |cmds| == 3 && forall i :: 0 <= i < 3 ==> cmds[i].Spawn? && cmds[i].bundle.scale == cmds[i].bundle.speed > 0.0
    ensures cmds[0].bundle == MountainLayer(MountainMesh(rng.draws, old(rng.next)), Vec3(0.0, -0.55, MountainsDepth + 0.11), 1.0, 1.0)
    ensures cmds[1].bundle == MountainLayer(MountainMesh(rng.draws, old(rng.next) + MeshDraws), Vec3(0.0, -0.37, MountainsDepth + 0.1), 0.5, 0.5)
    ensures cmds[2].bundle == MountainLayer(MountainMesh(rng.draws, old(rng.next) + 2 * 256), Vec3(0.0, -0.29, MountainsDepth), 0.3, 0.3)
  {
    ghost var n := rng.next;
    var bottom := CreateMountainMesh(rng);
    assert rng.next == n + MeshDraws;
    var middle := CreateMountainMesh(rng);
    assert rng.next == n + 2 * 256;
    var top := CreateMountainMesh(rng);
    cmds := [Spawn(MountainLayer(bottom, Vec3(0.0, -0.55, MountainsDepth + 0.11), 1.0, 1.0)),
             Spawn(MountainLayer(middle, Vec3(0.0, -0.37, MountainsDepth + 0.1), 0.5, 0.5)),
             Spawn(MountainLayer(top, Vec3(0.0, -0.29, MountainsDepth), 0.3, 0.3))];
  }

  // ---------------------------------------------------------------------------------------------
  // update_mountains

  /** One row of the mountain query: the layer's scroll speed and its translation. */
  datatype MountainRow = MountainRow(speed: real, translation: Vec3)

  /** The x offset of a layer: the viewpoint scaled by the layer's speed, wrapped over the
      distance `d = 8 * speed` the layer travels per playfield, then moved left by `1.5 * d`. */
  function MountainX(speed: real, viewpoint: real): (x: real)
    requires speed > 0.0
    ensures -1.5 * (PlayfieldWidth * speed) <= x < -0.5 * (PlayfieldWidth * speed)
  {
    var d := PlayfieldWidth * speed;
    Wrap(Times(-viewpoint, speed), d) - d * 1.5
  }

  /** Parallax: moving the viewpoint by `delta` scrolls a layer left by `delta * speed`, modulo
      the layer's wrap distance; a whole playfield of movement brings it back. */
  lemma MountainParallax(speed: real, viewpoint: real, delta: real)
    requires speed > 0.0
    ensures var d := PlayfieldWidth * speed;
            MountainX(speed, viewpoint + delta)
              == Wrap(MountainX(speed, viewpoint) + 1.5 * d - Times(delta, speed), d) - 1.5 * d
    ensures MountainX(speed, viewpoint + PlayfieldWidth) == MountainX(speed, viewpoint)
  {
    var d := PlayfieldWidth * speed;
    assert Times(-(viewpoint + delta), speed) == Times(-viewpoint, speed) - Times(delta, speed);
    WrapShift(Times(-viewpoint, speed), -Times(delta, speed), d);
    assert Times(-(viewpoint + PlayfieldWidth), speed) == Times(-viewpoint, speed) + (-1) as real * d;
    WrapPeriodic(Times(-viewpoint, speed), d, -1);
  }

  /** `update_mountains`: every layer's x becomes `MountainX`; nothing else changes. Layers
      must scroll at a positive speed, as all spawned layers do. */
  method UpdateMountains(rows: array<MountainRow>, viewpoint: Viewpoint)
    requires forall i :: 0 <= i < rows.Length ==> rows[i].speed > 0.0
    modifies rows
    ensures forall i :: 0 <= i < rows.Length ==>
              rows[i].speed == old(rows[i].speed)
              && rows[i].translation == old(rows[i].translation).(x := MountainX(rows[i].speed, viewpoint.position))
  {
    for i := 0 to rows.Length
      invariant forall k :: 0 <= k < i ==>
                  rows[k].speed == old(rows[k].speed)
                  && rows[k].translation == old(rows[k].translation).(x := MountainX(rows[k].speed, viewpoint.position))
      invariant forall k :: i <= k < rows.Length ==> rows[k] == old(rows[k])
    {
      var mtn := rows[i];
      var distTraveled := PlayfieldWidth * mtn.speed;
      var x := Wrap(Times(-viewpoint.position, mtn.speed), distTraveled) - distTraveled * 1.5;
      rows[i] := mtn.(translation := mtn.translation.(x := x));
    }
  }
}
