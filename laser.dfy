/** Shots from the player's ship (`laser.rs`): spawning, the per-tick countdown, movement, growth
    and colour cycling, and turning collisions into kills. */
module Laser {
  import opened Arith
  import opened Toroidal
  import opened Ecs
  import opened Ship

  /** The `LaserShot` component. */
  datatype LaserShot = LaserShot(expiration: real, size: real, speed: real)

  const ShotLifetime: real := 0.3
  const ShotSpeed: real := 3.0
  const ShotSize: real := 0.2
  const MuzzleOffset: real := 0.18

  /** What `spawn_laser` spawns: the shot, its world position and the x scale of its transform
      (collider, mesh and material handles left out). */
  datatype LaserBundle = LaserBundle(shot: LaserShot, position: Vec2, scaleX: real)

  /** `spawn_laser`: a fresh shot just ahead of the ship's nose, flying the way the ship faces. */
  function SpawnLaser(position: Vec2, facing: Facing): (b: LaserBundle)
    ensures b.shot.expiration == ShotLifetime && b.shot.size == ShotSize && b.scaleX == ShotSize
    ensures b.position.y == position.y
    ensures Abs(b.shot.speed) == ShotSpeed && Abs(b.position.x - position.x) == MuzzleOffset
    ensures facing == Right ==> b.shot.speed > 0.0 && b.position.x > position.x
    ensures facing == Left ==> b.shot.speed < 0.0 && b.position.x < position.x
  {
    var speed := match facing
      case Right => ShotSpeed
      case Left => -ShotSpeed;
    var x := match facing
      case Right => position.x + MuzzleOffset
      case Left => position.x - MuzzleOffset;
    LaserBundle(LaserShot(ShotLifetime, ShotSize, speed), Vec2(x, position.y), ShotSize)
  }

  // ---------------------------------------------------------------------------------------------
  // update_laser

  /** The `ShotMesh` resource; only the hue it cycles through is kept. */
  class ShotMesh {
    var hue: real

    constructor ()
      ensures hue == 0.0
    {
      hue := 0.0;
    }
  }

  /** The shared laser material; its colour is kept as the hue it was computed from (the HSL to
      linear RGB conversion is left out). */
  class LaserMaterial {
    var colorHue: real

    constructor (hue: real)
      ensures colorHue == hue
    {
      colorHue := hue;
    }
  }

  /** The hue after one tick: a full turn of the colour wheel per second. */
  function NextHue(hue: real, dt: real): (r: real)
    ensures 0.0 <= r < 360.0
  {
    Wrap(hue + dt * 360.0, 360.0)
  }

  /** The hue moves by `360 * dt` modulo a full turn. */
  lemma NextHueTurns(hue: real, dt: real) returns (k: int)
    ensures hue + dt * 360.0 == NextHue(hue, dt) + k as real * 360.0
  {
    k := WrapCongruent(hue + dt * 360.0, 360.0);
  }

  /** A whole second brings the hue back to where it was. */
  lemma NextHueFullSecond(hue: real)
    requires 0.0 <= hue < 360.0
    ensures NextHue(hue, 1.0) == hue
  {
    WrapPeriodic(hue, 360.0, 1);
    WrapInRange(hue, 360.0);
  }

  /** One row of the shot query: entity, shot, world position and transform x scale. */
  datatype ShotRow = ShotRow(entity: Entity, shot: LaserShot, position: Vec2, scaleX: real)

  /** Whether this tick's countdown ends the shot. */
  predicate Expires(row: ShotRow, dt: real)
  {
    row.shot.expiration - dt <= 0.0
  }

  /** One shot after one tick: the countdown runs down; a shot that is not expiring moves at its
      speed (never wrapped); every shot grows, the expiring one included. */
  function StepShot(row: ShotRow, dt: real): (r: ShotRow)
    ensures r.entity == row.entity && r.shot.speed == row.shot.speed && r.position.y == row.position.y
    ensures r.shot.expiration == row.shot.expiration - dt
    ensures r.shot.size == row.shot.size + dt && r.scaleX == r.shot.size
    ensures Expires(row, dt) ==> r.position.x == row.position.x
    ensures !Expires(row, dt) ==> r.position.x == row.position.x + Times(row.shot.speed, dt)
  {
    var expiration := row.shot.expiration - dt;
    var x := if expiration <= 0.0 then row.position.x else row.position.x + Times(row.shot.speed, dt);
    var size := row.shot.size + dt;
    ShotRow(row.entity, LaserShot(expiration, size, row.shot.speed), Vec2(x, row.position.y), size)
  }

  /** The despawn commands one tick issues for the given shots, in query order. */
  function DespawnExpired(rows: seq<ShotRow>, dt: real): (cmds: seq<Command<LaserBundle>>)
    ensures |cmds| <= |rows|
    ensures Spawned(cmds) == [] && TriggerTargets(cmds) == []
  {
    if rows == [] then []
    else
      var cmds := DespawnExpired(rows[..|rows| - 1], dt);
      var last := rows[|rows| - 1];
      var c: seq<Command<LaserBundle>> := if Expires(last, dt) then [Despawn(last.entity)] else [];
      ProjectionsAppend(cmds, c);
      cmds + c
  }

  /** The commands for one more shot: a despawn when its countdown runs out, nothing otherwise. */
  lemma DespawnExpiredLast(rows: seq<ShotRow>, dt: real)
    requires rows != []
    ensures Despawns(DespawnExpired(rows, dt))
         == Despawns(DespawnExpired(rows[..|rows| - 1], dt))
            + (if Expires(rows[|rows| - 1], dt) then [rows[|rows| - 1].entity] else [])
  {
    var last := rows[|rows| - 1];
    var c: seq<Command<LaserBundle>> := if Expires(last, dt) then [Despawn(last.entity)] else [];
    ProjectionsAppend(DespawnExpired(rows[..|rows| - 1], dt), c);
    assert c == [] || c[..0] == [];
  }

  /** Only shots of this query are despawned. */
  lemma {:induction false} OnlyShotsDespawned(rows: seq<ShotRow>, dt: real, e: Entity)
    requires forall i :: 0 <= i < |rows| ==> rows[i].entity != e
    ensures e !in Despawns(DespawnExpired(rows, dt))
  {
    if rows != [] {
      DespawnExpiredLast(rows, dt);
      var init := rows[..|rows| - 1];
      assert forall i :: 0 <= i < |init| ==> init[i] == rows[i];
      OnlyShotsDespawned(init, dt, e);
    }
  }

  /** A shot is despawned this tick exactly when its countdown runs out (given that no other
      shot of the query has its entity id, as ids of one query never repeat). */
  lemma {:induction false} DespawnedIffExpiring(rows: seq<ShotRow>, dt: real, i: nat)
    requires i < |rows|
    requires forall j :: 0 <= j < |rows| && j != i ==> rows[j].entity != rows[i].entity
    ensures rows[i].entity in Despawns(DespawnExpired(rows, dt)) <==> Expires(rows[i], dt)
  {
    var init := rows[..|rows| - 1];
    var last := rows[|rows| - 1];
    DespawnedWith(rows, dt, rows[i].entity);
    OthersInPrefix(rows, init, i);
    if i < |rows| - 1 {
      DespawnedIffExpiring(init, dt, i);
    } else {
      OnlyShotsDespawned(init, dt, last.entity);
    }
  }

  /** An entity is despawned by a query's commands exactly when the commands for all but the
      last shot despawn it, or it is the last shot and that one expires. */
  lemma DespawnedWith(rows: seq<ShotRow>, dt: real, e: Entity)
    requires rows != []
    ensures e in Despawns(DespawnExpired(rows, dt))
            <==> e in Despawns(DespawnExpired(rows[..|rows| - 1], dt))
                 || (e == rows[|rows| - 1].entity && Expires(rows[|rows| - 1], dt))
  {
    DespawnExpiredLast(rows, dt);
  }

  /** Distinctness from shot `i` carries over to the query without its last shot. */
  lemma OthersInPrefix(rows: seq<ShotRow>, init: seq<ShotRow>, i: nat)
    requires i < |rows| && init == rows[..|rows| - 1]
    requires forall j :: 0 <= j < |rows| && j != i ==> rows[j].entity != rows[i].entity
    ensures forall j :: 0 <= j < |init| && j != i ==> init[j].entity != rows[i].entity
  {
    forall j | 0 <= j < |init| && j != i
      ensures init[j].entity != rows[i].entity
    {
      assert init[j] == rows[j];
    }
  }

  /** `update_laser`. When the laser material exists the hue advances and the material's colour
      follows it; otherwise neither changes. Every shot advances by `StepShot`, and the commands
      despawn exactly the shots whose countdown ran out this tick. */
  method UpdateLaser(shots: array<ShotRow>, dt: real, shotMesh: ShotMesh, material: LaserMaterial?)
    returns (cmds: seq<Command<LaserBundle>>)
    modifies shots, shotMesh, material
    ensures material != null ==> shotMesh.hue == NextHue(old(shotMesh.hue), dt) && material.colorHue == shotMesh.hue
    ensures material == null ==> shotMesh.hue == old(shotMesh.hue)
    ensures forall i :: 0 <= i < shots.Length ==> shots[i] == StepShot(old(shots[i]), dt)
    ensures cmds == DespawnExpired(old(shots[..]), dt)
  {
    RotateHue(dt, shotMesh, material);
    cmds := TickShots(shots, dt);
  }

  /** The colour rotation of `update_laser`: only when the laser material exists. */
  method RotateHue(dt: real, shotMesh: ShotMesh, material: LaserMaterial?)
    modifies shotMesh, material
    ensures material != null ==> shotMesh.hue == NextHue(old(shotMesh.hue), dt) && material.colorHue == shotMesh.hue
    ensures material == null ==> shotMesh.hue == old(shotMesh.hue)
  {
    if material != null {
      shotMesh.hue := Wrap(shotMesh.hue + dt * 360.0, 360.0);
      material.colorHue := shotMesh.hue;
    }
  }

  /** The shot loop of `update_laser`. */
  method TickShots(shots: array<ShotRow>, dt: real) returns (cmds: seq<Command<LaserBundle>>)
    modifies shots
    ensures forall i :: 0 <= i < shots.Length ==> shots[i] == StepShot(old(shots[i]), dt)
    ensures cmds == DespawnExpired(old(shots[..]), dt)
  {
    ghost var rows := shots[..];
    cmds := [];
    for i := 0 to shots.Length
      invariant forall k :: 0 <= k < i ==> shots[k] == StepShot(rows[k], dt)
      invariant forall k :: i <= k < shots.Length ==> shots[k] == rows[k]
      invariant cmds == DespawnExpired(rows[..i], dt)
    {
      assert rows[..i + 1][..i] == rows[..i];
      var row := shots[i];
      ghost var before := shots[..];
      var next, expired := TickShot(row, dt);
      if expired {
        cmds := cmds + [Despawn(row.entity)];
      }
      shots[i] := next;
      assert shots[..] == before[i := StepShot(rows[i], dt)];
    }
    assert rows[..shots.Length] == rows;
  }

  /** The body of `update_laser`'s loop for one shot; `expired` says whether to despawn it. */
  method TickShot(row: ShotRow, dt: real) returns (r: ShotRow, expired: bool)
    ensures r == StepShot(row, dt) && expired == Expires(row, dt)
  {
    var shot := row.shot.(expiration := row.shot.expiration - dt);
    var position := row.position;
    expired := shot.expiration <= 0.0;
    if !expired {
      position := position.(x := position.x + Times(shot.speed, dt));
    }
    shot := shot.(size := shot.size + dt);
    r := ShotRow(row.entity, shot, position, shot.size);
  }

  // ---------------------------------------------------------------------------------------------
  // Lifetime of one shot

  /** A shot after `k` ticks of the same length. */
  function Ticks(row: ShotRow, dt: real, k: nat): ShotRow
  {
    if k == 0 then row else StepShot(Ticks(row, dt, k - 1), dt)
  }

  /** After `k` ticks the countdown has dropped and the size grown by `k * dt`; a shot whose
      countdown is still running has flown `k * dt` at its speed. */
  lemma {:induction false} TicksState(row: ShotRow, dt: real, k: nat)
    requires dt >= 0.0
    ensures Ticks(row, dt, k).shot.expiration == row.shot.expiration - Times(k as real, dt)
    ensures Ticks(row, dt, k).shot.size == row.shot.size + Times(k as real, dt)
    ensures Ticks(row, dt, k).shot.speed == row.shot.speed
    ensures Ticks(row, dt, k).position.y == row.position.y
    ensures Ticks(row, dt, k).shot.expiration > 0.0 ==>
              Ticks(row, dt, k).position.x == row.position.x + Times(k as real, Times(row.shot.speed, dt))
  {
    if k > 0 {
      TicksState(row, dt, k - 1);
      NextMultiple(k - 1, dt);
      var prev := Ticks(row, dt, k - 1);
      if Ticks(row, dt, k).shot.expiration > 0.0 {
        assert prev.shot.expiration > 0.0;
        NextMultiple(k - 1, Times(row.shot.speed, dt));
      }
    }
  }

  /** A fresh shot is despawned on tick `k` (counting from 1) exactly when the time elapsed
      over those `k` ticks reaches its lifetime of 0.3 seconds. */
  lemma ShotLifetimeTicks(position: Vec2, facing: Facing, entity: Entity, dt: real, k: nat)
    requires dt >= 0.0 && k >= 1
    ensures var b := SpawnLaser(position, facing);
            (Expires(Ticks(ShotRow(entity, b.shot, b.position, b.scaleX), dt, k - 1), dt)
             <==> Times(k as real, dt) >= ShotLifetime)
  {
    var b := SpawnLaser(position, facing);
    TicksState(ShotRow(entity, b.shot, b.position, b.scaleX), dt, k - 1);
    NextMultiple(k - 1, dt);
  }

  // ---------------------------------------------------------------------------------------------
  // detect_enemy_kills

  /** One row of the kill query: a shot and the enemies it currently overlaps (the physics
      engine's `CollidingEntities`, a set, given here in its iteration order). */
  datatype ShotCollisions = ShotCollisions(entity: Entity, colliding: seq<Entity>)

  /** An `EnemyHit` for each of the given enemies, in order. */
  function HitCommands(enemies: seq<Entity>): (cmds: seq<Command<LaserBundle>>)
    ensures |cmds| == |enemies|
  {
    if enemies == [] then []
    else HitCommands(enemies[..|enemies| - 1]) + [Trigger(enemies[|enemies| - 1], EnemyHit)]
  }

  /** The commands for one shot: a despawn if it overlaps anything, then a hit per enemy. */
  function ShotKill(c: ShotCollisions): seq<Command<LaserBundle>>
  {
    (if c.colliding != [] then [Despawn(c.entity)] else []) + HitCommands(c.colliding)
  }

  /** The commands for every shot, in query order. */
  function KillCommands(shots: seq<ShotCollisions>): seq<Command<LaserBundle>>
  {
    if shots == [] then [] else KillCommands(shots[..|shots| - 1]) + ShotKill(shots[|shots| - 1])
  }

  /** Hit commands trigger exactly the given enemies and do nothing else. */
  lemma {:induction false} HitCommandsProject(enemies: seq<Entity>)
    ensures TriggerTargets(HitCommands(enemies)) == enemies
    ensures Despawns(HitCommands(enemies)) == [] && Spawned(HitCommands(enemies)) == []
  {
    if enemies != [] {
      var init := enemies[..|enemies| - 1];
      var hit: seq<Command<LaserBundle>> := [Trigger(enemies[|enemies| - 1], EnemyHit)];
      HitCommandsProject(init);
      ProjectionsAppend(HitCommands(init), hit);
      assert hit[..0] == [];
      assert init + [enemies[|enemies| - 1]] == enemies;
    }
  }

  /** One shot: despawned once if it overlaps anything (not at all otherwise), and one hit per
      overlapped enemy, so a shot over n enemies yields n hits and one despawn. */
  lemma ShotKillProject(c: ShotCollisions)
    ensures Despawns(ShotKill(c)) == (if c.colliding != [] then [c.entity] else [])
    ensures TriggerTargets(ShotKill(c)) == c.colliding
    ensures Spawned(ShotKill(c)) == []
  {
    var d: seq<Command<LaserBundle>> := if c.colliding != [] then [Despawn(c.entity)] else [];
    HitCommandsProject(c.colliding);
    ProjectionsAppend(d, HitCommands(c.colliding));
    assert d == [] || d[..0] == [];
  }

  /** The shots that overlap something, in query order. */
  function HitShots(shots: seq<ShotCollisions>): seq<Entity>
  {
    if shots == [] then []
    else HitShots(shots[..|shots| - 1])
         + (if shots[|shots| - 1].colliding != [] then [shots[|shots| - 1].entity] else [])
  }

  /** Every enemy overlapped by any shot, with one entry per (shot, enemy) pair. */
  function AllCollisions(shots: seq<ShotCollisions>): seq<Entity>
  {
    if shots == [] then [] else AllCollisions(shots[..|shots| - 1]) + shots[|shots| - 1].colliding
  }

  /** Over the whole query: the despawned entities are exactly the shots that overlap something,
      the hits are exactly the overlaps, and nothing is spawned. */
  lemma {:induction false} KillCommandsProject(shots: seq<ShotCollisions>)
    ensures Despawns(KillCommands(shots)) == HitShots(shots)
    ensures TriggerTargets(KillCommands(shots)) == AllCollisions(shots)
    ensures Spawned(KillCommands(shots)) == []
  {
    if shots != [] {
      var init := shots[..|shots| - 1];
      KillCommandsProject(init);
      ShotKillProject(shots[|shots| - 1]);
      ProjectionsAppend(KillCommands(init), ShotKill(shots[|shots| - 1]));
    }
  }

  /** `detect_enemy_kills`. */
  method DetectEnemyKills(shots: seq<ShotCollisions>) returns (cmds: seq<Command<LaserBundle>>)
    ensures cmds == KillCommands(shots)
    ensures Despawns(cmds) == HitShots(shots) && TriggerTargets(cmds) == AllCollisions(shots)
  {
    cmds := [];
    for i := 0 to |shots|
      invariant cmds == KillCommands(shots[..i])
    {
      var c := shots[i];
      var before := cmds;
      if c.colliding != [] {
        cmds := cmds + [Despawn(c.entity)];
      }
      for j := 0 to |c.colliding|
        invariant cmds == before + (if c.colliding != [] then [Despawn(c.entity)] else []) + HitCommands(c.colliding[..j])
      {
        assert c.colliding[..j + 1][..j] == c.colliding[..j];
        cmds := cmds + [Trigger(c.colliding[j], EnemyHit)];
      }
      assert c.colliding[..|c.colliding|] == c.colliding;
      assert shots[..i + 1][..i] == shots[..i];
    }
    assert shots[..|shots|] == shots;
    KillCommandsProject(shots);
  }
}
