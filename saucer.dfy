/** Saucers (`saucer.rs`): the enemies' state machine, their spawn layout and what a hit does. */
module Saucers {
  import opened Arith
  import opened Toroidal
  import opened Ecs
  import opened Random
  import opened Explosion

  /** `SaucerState`. Only the first two states have behaviour; the others are placeholders. */
  datatype SaucerState =
    | Arriving
    | Patrolling(velocity: Vec2)
    | Seeking
    | Grabbing
    | Escaping
    | Queened

  /** The `Saucer` component. */
  datatype Saucer = Saucer(state: SaucerState, timer: real)

  const SaucerSpeedX: real := 0.4
  const SaucerSpeedY: real := 0.2
  const PatrolTop: real := 0.4
  const PatrolBottom: real := -0.4
  const NumSaucers: nat := 24

  // ---------------------------------------------------------------------------------------------
  // choose_random_angle

  /** `sqrt(2) / 2`, the cosine and sine of 45 degrees, as a decimal. */
  const HalfSqrt2: real := 0.7071067811865476

  /** The direction index a draw picks: `trunc` of a value in [0, 8), so one of the eight
      multiples of 45 degrees. */
  function DirectionIndex(u: Unit): (d: nat)
    ensures d < 8
  {
    Scale(u, 0.0, 8.0).Floor
  }

  /** The unit vector at `d * 45` degrees. */
  function Direction(d: nat): (v: Vec2)
    requires d < 8
    ensures -1.0 <= v.x <= 1.0 && -1.0 <= v.y <= 1.0
  {
    match d
    case 0 => Vec2(1.0, 0.0)
    case 1 => Vec2(HalfSqrt2, HalfSqrt2)
    case 2 => Vec2(0.0, 1.0)
    case 3 => Vec2(-HalfSqrt2, HalfSqrt2)
    case 4 => Vec2(-1.0, 0.0)
    case 5 => Vec2(-HalfSqrt2, -HalfSqrt2)
    case 6 => Vec2(0.0, -1.0)
    case _ => Vec2(HalfSqrt2, -HalfSqrt2)
  }

  /** The patrol velocity a draw picks: the chosen direction scaled by the saucer speeds. */
  function AngleVelocity(u: Unit): (v: Vec2)
    ensures Abs(v.x) <= SaucerSpeedX && Abs(v.y) <= SaucerSpeedY
  {
    var dir := Direction(DirectionIndex(u));
    Vec2(dir.x * SaucerSpeedX, dir.y * SaucerSpeedY)
  }

  /** `choose_random_angle`: consumes one draw. */
  method ChooseRandomAngle(rng: Rng) returns (v: Vec2)
    modifies rng
    ensures rng.next == old(rng.next) + 1
    ensures v == AngleVelocity(rng.draws(old(rng.next)))
  {
    var dir := rng.RandomRange(0.0, 8.0);
    var d := Direction(dir.Floor);
    v := Vec2(d.x * SaucerSpeedX, d.y * SaucerSpeedY);
  }

  // ---------------------------------------------------------------------------------------------
  // animate_saucers

  /** One row of the saucer query: the saucer and its world position. */
  datatype SaucerRow = SaucerRow(saucer: Saucer, position: Vec2)

  /** The states `animate_saucers` handles; the others stop the game with `todo!()`. */
  predicate Handled(s: SaucerState)
  {
    s.Arriving? || s.Patrolling?
  }

  /** The velocity of a patrolling saucer is within the saucer speeds. */
  predicate BoundedVelocity(s: SaucerState)
  {
    s.Patrolling? ==> Abs(s.velocity.x) <= SaucerSpeedX && Abs(s.velocity.y) <= SaucerSpeedY
  }

  /** A fresh patrol leg: a new velocity from the draw at `next`, a dwell timer in [1, 2) from
      the draw after it. */
  function Reroll(draws: nat -> Unit, next: nat): (s: Saucer)
    ensures s.state.Patrolling? && BoundedVelocity(s.state)
    ensures 1.0 <= s.timer < 2.0
  {
    Saucer(Patrolling(AngleVelocity(draws(next))), Scale(draws(next + 1), 1.0, 2.0))
  }

  /** One saucer after one tick, with the index of the next unused draw.

      Arriving: starts patrolling with fresh draws and does not move this tick.
      Patrolling: the timer runs down, the saucer moves and its x wraps into [-4, 4); above the
      patrol band it turns downward, below it upward (keeping its horizontal speed and timer);
      inside the band a timer that has run out re-rolls the leg. */
  function StepSaucer(row: SaucerRow, dt: real, draws: nat -> Unit, next: nat): (r: (SaucerRow, nat))
    requires Handled(row.saucer.state)
    ensures r.0.saucer.state.Patrolling?
    ensures r.1 == next || r.1 == next + 2
    ensures row.saucer.state.Arriving? ==>
              r.0 == SaucerRow(Reroll(draws, next), row.position) && r.1 == next + 2
    ensures row.saucer.state.Patrolling? ==>
              -PlayfieldWidth * 0.5 <= r.0.position.x < PlayfieldWidth * 0.5
  {
    match row.saucer.state
    case Arriving => (SaucerRow(Reroll(draws, next), row.position), next + 2)
    case Patrolling(vel) =>
      var timer := row.saucer.timer - dt;
      var moved := Vec2(row.position.x + Times(vel.x, dt), row.position.y + Times(vel.y, dt));
      var position := Vec2(Wrap(moved.x + PlayfieldWidth * 0.5, PlayfieldWidth) - PlayfieldWidth * 0.5, moved.y);
      if position.y > PatrolTop then (SaucerRow(Saucer(Patrolling(Vec2(vel.x, -SaucerSpeedY)), timer), position), next)
      else if position.y < PatrolBottom then (SaucerRow(Saucer(Patrolling(Vec2(vel.x, SaucerSpeedY)), timer), position), next)
      else if timer <= 0.0 then (SaucerRow(Reroll(draws, next), position), next + 2)
      else (SaucerRow(Saucer(Patrolling(vel), timer), position), next)
  }

  /** The patrol rules: the move and the timer, the bounces (which keep the horizontal speed and
      the timer and take precedence), and a re-roll only inside the band with the timer run out. */
  lemma PatrolRules(row: SaucerRow, dt: real, draws: nat -> Unit, next: nat)
    requires row.saucer.state.Patrolling?
    ensures var vel := row.saucer.state.velocity;
            var r := StepSaucer(row, dt, draws, next);
            var y := row.position.y + Times(vel.y, dt);
            var timer := row.saucer.timer - dt;
            && r.0.position == Vec2(Wrap(row.position.x + Times(vel.x, dt) + PlayfieldWidth * 0.5, PlayfieldWidth)
                                    - PlayfieldWidth * 0.5, y)
            && (y > PatrolTop ==> r.0.saucer == Saucer(Patrolling(Vec2(vel.x, -SaucerSpeedY)), timer) && r.1 == next)
            && (y < PatrolBottom ==> r.0.saucer == Saucer(Patrolling(Vec2(vel.x, SaucerSpeedY)), timer) && r.1 == next)
            && (r.1 == next + 2 <==> PatrolBottom <= y <= PatrolTop && timer <= 0.0)
            && (r.1 == next + 2 ==> r.0.saucer == Reroll(draws, next))
            && (r.1 == next ==> r.0.saucer.timer == timer)
  {
  }

  /** Every saucer in the query after one tick, with the index of the next unused draw; the
      draws are consumed in query order. */
  function AnimateAll(rows: seq<SaucerRow>, dt: real, draws: nat -> Unit, next: nat): (r: (seq<SaucerRow>, nat))
    requires forall i :: 0 <= i < |rows| ==> Handled(rows[i].saucer.state)
    ensures |r.0| == |rows| && r.1 >= next
  {
    if rows == [] then ([], next)
    else
      var prev := AnimateAll(rows[..|rows| - 1], dt, draws, next);
      var last := StepSaucer(rows[|rows| - 1], dt, draws, prev.1);
      (prev.0 + [last.0], last.1)
  }

  /** Velocities stay within the saucer speeds: after a tick every saucer is patrolling within
      them, provided the patrolling ones were before. */
  lemma {:induction false} AnimateAllBounded(rows: seq<SaucerRow>, dt: real, draws: nat -> Unit, next: nat)
    requires forall i :: 0 <= i < |rows| ==> Handled(rows[i].saucer.state) && BoundedVelocity(rows[i].saucer.state)
    ensures forall i :: 0 <= i < |rows| ==>
              var s := AnimateAll(rows, dt, draws, next).0[i].saucer.state;
              s.Patrolling? && BoundedVelocity(s)
  {
    if rows != [] {
      var init := rows[..|rows| - 1];
      AnimateAllBounded(init, dt, draws, next);
      var prev := AnimateAll(init, dt, draws, next);
      var row := rows[|rows| - 1];
      var last := StepSaucer(row, dt, draws, prev.1);
      if row.saucer.state.Patrolling? {
        PatrolRules(row, dt, draws, prev.1);
      }
      assert BoundedVelocity(last.0.saucer.state);
      assert AnimateAll(rows, dt, draws, next).0 == prev.0 + [last.0];
    }
  }

  /** One iteration of `animate_saucers`' loop, drawing from the shared generator. */
  method AnimateSaucer(row: SaucerRow, dt: real, rng: Rng) returns (r: SaucerRow)
    requires Handled(row.saucer.state)
    modifies rng
    ensures (r, rng.next) == StepSaucer(row, dt, rng.draws, old(rng.next))
  {
    r := row;
    match row.saucer.state {
      case Arriving =>
        var vel := ChooseRandomAngle(rng);
        var timer := rng.RandomRange(1.0, 2.0);
        r := r.(saucer := Saucer(Patrolling(vel), timer));
      case Patrolling(vel) =>
        var timer := row.saucer.timer - dt;
        var p := Vec2(row.position.x + Times(vel.x, dt), row.position.y + Times(vel.y, dt));
        p := p.(x := Wrap(p.x + PlayfieldWidth * 0.5, PlayfieldWidth) - PlayfieldWidth * 0.5);
        r := SaucerRow(Saucer(row.saucer.state, timer), p);
        if p.y > PatrolTop {
          r := r.(saucer := r.saucer.(state := Patrolling(Vec2(vel.x, -SaucerSpeedY))));
        } else if p.y < PatrolBottom {
          r := r.(saucer := r.saucer.(state := Patrolling(Vec2(vel.x, SaucerSpeedY))));
        } else if timer <= 0.0 {
          var v := ChooseRandomAngle(rng);
          var t := rng.RandomRange(1.0, 2.0);
          r := r.(saucer := Saucer(Patrolling(v), t));
        }
    }
  }

  /** `animate_saucers`: every saucer advances by `StepSaucer`, consuming the shared generator's
      draws in query order. Saucers must be arriving or patrolling. */
  method AnimateSaucers(saucers: array<SaucerRow>, dt: real, rng: Rng)
    requires forall i :: 0 <= i < saucers.Length ==> Handled(saucers[i].saucer.state)
    modifies saucers, rng
    ensures saucers[..] == AnimateAll(old(saucers[..]), dt, rng.draws, old(rng.next)).0
    ensures rng.next == AnimateAll(old(saucers[..]), dt, rng.draws, old(rng.next)).1
  {
    ghost var start := rng.next;
    for i := 0 to saucers.Length
      invariant saucers[..i] == AnimateAll(old(saucers[..i]), dt, rng.draws, start).0
      invariant rng.next == AnimateAll(old(saucers[..i]), dt, rng.draws, start).1
      invariant saucers[i..] == old(saucers[i..])
    {
      assert old(saucers[..i + 1])[..i] == old(saucers[..i]);
      assert saucers[i] == old(saucers[i]);
      var next := AnimateSaucer(saucers[i], dt, rng);
      saucers[i] := next;
      assert saucers[..i + 1] == saucers[..i] + [next];
    }
    assert old(saucers[..saucers.Length]) == old(saucers[..]);
  }

  // ---------------------------------------------------------------------------------------------
  // spawn_saucer

  /** The parts of a spawned saucer that are modelled: the component and the world position. */
  datatype SaucerBundle = SaucerBundle(saucer: Saucer, position: Vec2)

  /** The saucer spawned from the three draws starting at `n`: its timer, then its x and y. */
  function SaucerFrom(draws: nat -> Unit, n: nat): (b: SaucerBundle)
    ensures b.saucer.state == Arriving
    ensures 1.0 <= b.saucer.timer < 2.0
    ensures 0.0 <= b.position.x < PlayfieldWidth && 0.6 <= b.position.y < 0.7
  {
    SaucerBundle(Saucer(Arriving, Scale(draws(n), 1.0, 2.0)),
                 Vec2(Scale(draws(n + 1), 0.0, PlayfieldWidth), Scale(draws(n + 2), 0.6, 0.7)))
  }

  /** `spawn_saucer`: 24 arriving saucers, three draws each from the shared generator. */
  method SpawnSaucers(rng: Rng) returns (cmds: seq<Command<SaucerBundle>>)
    modifies rng
    ensures rng.next == old(rng.next) + 3 * NumSaucers
    ensures |cmds| == NumSaucers
    ensures forall i :: 0 <= i < NumSaucers ==> cmds[i] == Spawn(SaucerFrom(rng.draws, old(rng.next) + 3 * i))
  {
    cmds := [];
    for i := 0 to NumSaucers
      invariant |cmds| == i && rng.next == old(rng.next) + 3 * i
      invariant forall k :: 0 <= k < i ==> cmds[k] == Spawn(SaucerFrom(rng.draws, old(rng.next) + 3 * k))
    {
      var timer := rng.RandomRange(1.0, 2.0);
      var x := rng.RandomRange(0.0, PlayfieldWidth);
      var y := rng.RandomRange(0.6, 0.7);
      cmds := cmds + [Spawn(SaucerBundle(Saucer(Arriving, timer), Vec2(x, y)))];
    }
  }

  /** A freshly spawned saucer starts patrolling on its first tick without moving; on its second
      tick (any tick shorter than a second) it is still above the patrol band and turns downward. */
  lemma {:induction false} FirstPatrolTurnsDown(draws: nat -> Unit, n: nat, dt1: real, dt2: real, next: nat)
    requires 0.0 <= dt2 < 1.0
    ensures var b := SaucerFrom(draws, n);
            var first := StepSaucer(SaucerRow(b.saucer, b.position), dt1, draws, next);
            var second := StepSaucer(first.0, dt2, draws, first.1);
            && first.0.position == b.position
            && second.0.saucer.state.velocity.y == -SaucerSpeedY
  {
    var b := SaucerFrom(draws, n);
    var first := StepSaucer(SaucerRow(b.saucer, b.position), dt1, draws, next);
    var vel := first.0.saucer.state.velocity;
    assert Abs(vel.y) <= SaucerSpeedY;
    PatrolRules(first.0, dt2, draws, first.1);
    DriftBound(vel.y, dt2);
  }

  /** Under a second at vertical speed at most 0.2 moves a saucer less than 0.2. */
  lemma DriftBound(vy: real, dt: real)
    requires Abs(vy) <= SaucerSpeedY && 0.0 <= dt < 1.0
    ensures Times(vy, dt) > -SaucerSpeedY
  {
    if dt > 0.0 {
      assert Times(vy, dt) == vy * dt;
      if vy < 0.0 {
        MulLeftStrict(-vy, dt, 1.0);
        assert (-vy) * dt < -vy;
        assert vy * dt == -((-vy) * dt);
      } else {
        MulLeftMono(dt, 0.0, vy);
        assert dt * vy >= 0.0;
      }
    }
  }

  // ---------------------------------------------------------------------------------------------
  // saucer_hit

  /** What a hit spawns: the explosion sound, a flare and a shrapnel burst at a position. */
  datatype HitBundle =
    | ExplosionSound
    | Flare(flare: FlareEffect, position: Vec2)
    | Shrapnel(shrapnel: ShrapnelEffect, position: Vec2)

  const InitialFlareSize: real := 0.01

  /** `saucer_hit`, for the target of an `EnemyHit`; `positions` holds the `UnitPosition` of every
      entity that has one. */
  function SaucerHit(target: Entity, positions: map<Entity, Vec2>): (cmds: seq<Command<HitBundle>>)
    ensures target !in positions <==> cmds == []
  {
    if target !in positions then []
    else
      var p := positions[target];
      [Despawn(target), Spawn(ExplosionSound), Spawn(Flare(FlareEffect(InitialFlareSize, Zero), p)),
       Spawn(Shrapnel(ShrapnelEffect(Zero), p))]
  }

  /** A hit on a positioned target despawns exactly that target and spawns exactly the sound, one
      motionless flare of size 0.01 and one motionless shrapnel burst, both where the target was. */
  lemma SaucerHitProject(target: Entity, positions: map<Entity, Vec2>)
    requires target in positions
    ensures Despawns(SaucerHit(target, positions)) == [target]
    ensures TriggerTargets(SaucerHit(target, positions)) == []
    ensures Spawned(SaucerHit(target, positions))
         == [ExplosionSound, Flare(FlareEffect(InitialFlareSize, Zero), positions[target]),
             Shrapnel(ShrapnelEffect(Zero), positions[target])]
  {
    var p := positions[target];
    DespawnThenSpawns(target, ExplosionSound, Flare(FlareEffect(InitialFlareSize, Zero), p),
                      Shrapnel(ShrapnelEffect(Zero), p));
  }
}
