/** The parallax star field (`stars.rs`): how each star's look and scroll speed derive from one
    random distance, and where a star is drawn for a given viewpoint. */
module Stars {
  import opened Arith
  import opened Toroidal
  import opened Ecs
  import opened Random

  /** `NUM_STARS`. */
  const NumStars: nat := 200
  /** `STARS_DEPTH`. */
  const StarsDepth: real := -80.0

  /** The `Star` component: the star's offset from the playfield origin and its scroll speed. */
  datatype Star = Star(offset: Vec2, speed: real)

  /** The parts of a spawned star that are modelled: the alpha of its material, the component,
      and its transform's translation and uniform scale. */
  datatype StarBundle = StarBundle(alpha: real, star: Star, translation: Vec3, scale: real)

  // ---------------------------------------------------------------------------------------------
  // spawn_stars

  /** The star spawned from the three draws starting at `n`: its distance in [0.4, 0.9), then
      its offset's x and y. A farther star is smaller, fainter and slower. */
  function StarFrom(draws: nat -> Unit, n: nat): (b: StarBundle)
    ensures 0.37 < b.star.speed <= 0.72
    ensures 0.0 < b.scale && 0.1 < b.alpha <= 0.6
    ensures 0.0 <= b.star.offset.x < PlayfieldWidth && -0.35 <= b.star.offset.y < 0.49
    ensures b.translation == Vec3(0.0, 0.0, StarsDepth)
  {
    var dist := Scale(draws(n), 0.4, 0.9);
    var size := 0.006 * (1.0 - dist * 0.5);
    var offset := Vec2(Scale(draws(n + 1), 0.0, PlayfieldWidth), Scale(draws(n + 2), -0.35, 0.49));
    StarBundle(1.0 - dist, Star(offset, 1.0 - dist * 0.7), Vec3(0.0, 0.0, StarsDepth), size)
  }

  /** Nearer stars are bigger, brighter and faster: all three follow the drawn distance in the
      same order. */
  lemma StarDepthCues(draws: nat -> Unit, n: nat, m: nat)
    requires draws(n) < draws(m)
    ensures StarFrom(draws, n).scale > StarFrom(draws, m).scale
    ensures StarFrom(draws, n).alpha > StarFrom(draws, m).alpha
    ensures StarFrom(draws, n).star.speed > StarFrom(draws, m).star.speed
  {
    TimesLeftStrict(0.5, draws(n), draws(m));
  }

  /** `spawn_stars`: 200 stars, three draws each, from the star field's own generator. */
  method SpawnStars(rng: Rng) returns (cmds: seq<Command<StarBundle>>)
    modifies rng
    ensures rng.next == old(rng.next) + 3 * NumStars
    ensures |cmds| == NumStars
    ensures forall i :: 0 <= i < NumStars ==> cmds[i] == Spawn(StarFrom(rng.draws, old(rng.next) + 3 * i))
  {
    cmds := [];
    for i := 0 to NumStars
      invariant |cmds| == i && rng.next == old(rng.next) + 3 * i
      invariant forall k :: 0 <= k < i ==> cmds[k] == Spawn(StarFrom(rng.draws, old(rng.next) + 3 * k))
    {
      var dist := rng.RandomRange(0.4, 0.9);
      var size := 0.006 * (1.0 - dist * 0.5);
      var x := rng.RandomRange(0.0, PlayfieldWidth);
      var y := rng.RandomRange(-0.35, 0.49);
      var star := Star(Vec2(x, y), 1.0 - dist * 0.7);
      cmds := cmds + [Spawn(StarBundle(1.0 - dist, star, Vec3(0.0, 0.0, StarsDepth), size))];
    }
  }

  // ---------------------------------------------------------------------------------------------
  // update_stars

  /** The screen x of a star: its offset moved left by the viewpoint scaled by the star's speed,
      wrapped over the distance `d = 8 * speed` the star travels per playfield, centred on 0. */
  function StarX(star: Star, viewpoint: real): (x: real)
    requires star.speed > 0.0
    ensures -0.5 * (PlayfieldWidth * star.speed) <= x < 0.5 * (PlayfieldWidth * star.speed)
  {
    var d := PlayfieldWidth * star.speed;
    Wrap(star.offset.x + d * 0.5 - Times(viewpoint, star.speed), d) - d * 0.5
  }

  /** A star is drawn at its offset less the scaled viewpoint, up to whole wrap distances. */
  lemma StarXCongruent(star: Star, viewpoint: real) returns (k: int)
    requires star.speed > 0.0
    ensures StarX(star, viewpoint) == star.offset.x - Times(viewpoint, star.speed) + k as real * (PlayfieldWidth * star.speed)
  {
    var d := PlayfieldWidth * star.speed;
    var base := star.offset.x + d * 0.5 - Times(viewpoint, star.speed);
    var n := WrapCongruent(base, d);
    k := -n;
    assert StarX(star, viewpoint) == Wrap(base, d) - d * 0.5;
    assert k as real * d == -(n as real * d);
  }

  /** Parallax: moving the viewpoint by `delta` moves a star left by `delta * speed`, modulo its
      wrap distance; a whole playfield of movement brings it back. */
  lemma StarParallax(star: Star, viewpoint: real, delta: real)
    requires star.speed > 0.0
    ensures var d := PlayfieldWidth * star.speed;
            StarX(star, viewpoint + delta)
              == Wrap(StarX(star, viewpoint) + 0.5 * d - Times(delta, star.speed), d) - 0.5 * d
    ensures StarX(star, viewpoint + PlayfieldWidth) == StarX(star, viewpoint)
  {
    var d := PlayfieldWidth * star.speed;
    var base := star.offset.x + d * 0.5 - Times(viewpoint, star.speed);
    assert Times(viewpoint + delta, star.speed) == Times(viewpoint, star.speed) + Times(delta, star.speed);
    WrapShift(base, -Times(delta, star.speed), d);
    assert Times(viewpoint + PlayfieldWidth, star.speed) == Times(viewpoint, star.speed) + d;
    WrapPeriodic(base, d, -1);
  }

  /** One row of the star query: the component (only read) and the transform's translation. */
  datatype StarRow = StarRow(star: Star, translation: Vec3)

  /** `update_stars`: every star's translation gets the screen x from `StarX` and its offset's y;
      its depth and its `Star` component are left as they were. Stars must scroll at a positive
      speed, as all spawned stars do. */
  method UpdateStars(rows: array<StarRow>, viewpoint: Viewpoint)
    requires forall i :: 0 <= i < rows.Length ==> rows[i].star.speed > 0.0
    modifies rows
    ensures forall i :: 0 <= i < rows.Length ==>
              rows[i].star == old(rows[i].star)
              && rows[i].translation
                 == Vec3(StarX(rows[i].star, viewpoint.position), rows[i].star.offset.y, old(rows[i].translation.z))
  {
    for i := 0 to rows.Length
      invariant forall k :: 0 <= k < i ==>
                  rows[k].star == old(rows[k].star)
                  && rows[k].translation
                     == Vec3(StarX(rows[k].star, viewpoint.position), rows[k].star.offset.y, old(rows[k].translation.z))
      invariant forall k :: i <= k < rows.Length ==> rows[k] == old(rows[k])
    {
      var star := rows[i].star;
      var distTraveled := PlayfieldWidth * star.speed;
      var x := Wrap(star.offset.x + distTraveled * 0.5 - Times(viewpoint.position, star.speed), distTraveled)
               - distTraveled * 0.5;
      rows[i] := rows[i].(translation := rows[i].translation.(x := x, y := star.offset.y));
    }
  }
}
