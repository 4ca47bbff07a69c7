/** The fire trigger of the player's ship (`fire_shots` in `ship.rs`). It lives in a module of its
    own because it needs both the ship and the laser, and the laser needs the ship's `Facing`. */
module ShipFiring {
  import opened Ecs
  import opened Ship
  import opened Laser

  /** What firing spawns: a laser shot, or a one-shot laser sound. */
  datatype FireBundle = LaserSpawn(laser: LaserBundle) | ShotSound

  /** One row of the player query: the ship's facing and world position. */
  datatype ShipView = ShipView(facing: Facing, position: Vec2)

  /** A despawn for each of the given entities, in order. */
  function DespawnAll(es: seq<Entity>): (cmds: seq<Command<FireBundle>>)
    ensures |cmds| == |es|
    ensures Despawns(cmds) == es && Spawned(cmds) == [] && TriggerTargets(cmds) == []
  {
    if es == [] then []
    else
      var init := DespawnAll(es[..|es| - 1]);
      AppendDespawn(init, es[|es| - 1]);
      assert es[..|es| - 1] + [es[|es| - 1]] == es;
      init + [Despawn(es[|es| - 1])]
  }

  /** The commands firing issues for one ship: the laser, a despawn per playing shot sound, and
      the new shot sound. */
  function FireCommands(ship: ShipView, shotSounds: seq<Entity>): (cmds: seq<Command<FireBundle>>)
    ensures |cmds| == |shotSounds| + 2
    ensures cmds[0] == Spawn(LaserSpawn(SpawnLaser(ship.position, ship.facing)))
    ensures cmds[|cmds| - 1] == Spawn(ShotSound)
  {
    [Spawn(LaserSpawn(SpawnLaser(ship.position, ship.facing)))] + DespawnAll(shotSounds) + [Spawn(ShotSound)]
  }

  /** Firing spawns exactly one laser (from the ship's position and facing) and one shot sound,
      despawns every shot sound that was playing, and triggers nothing. */
  lemma FireCommandsProject(ship: ShipView, shotSounds: seq<Entity>)
    ensures Spawned(FireCommands(ship, shotSounds)) == [LaserSpawn(SpawnLaser(ship.position, ship.facing)), ShotSound]
    ensures Despawns(FireCommands(ship, shotSounds)) == shotSounds
    ensures TriggerTargets(FireCommands(ship, shotSounds)) == []
  {
    SpawnAround(LaserSpawn(SpawnLaser(ship.position, ship.facing)), DespawnAll(shotSounds), ShotSound);
  }

  /** `fire_shots`: nothing unless there is exactly one ship, otherwise `FireCommands`. */
  method FireShots(ships: seq<ShipView>, shotSounds: seq<Entity>) returns (cmds: seq<Command<FireBundle>>)
    ensures |ships| != 1 ==> cmds == []
    ensures |ships| == 1 ==> cmds == FireCommands(ships[0], shotSounds)
  {
    if |ships| != 1 {
      return [];
    }
    var ship := ships[0];
    var laser: seq<Command<FireBundle>> := [Spawn(LaserSpawn(SpawnLaser(ship.position, ship.facing)))];
    cmds := laser;
    for i := 0 to |shotSounds|
      invariant cmds == laser + DespawnAll(shotSounds[..i])
    {
      assert shotSounds[..i + 1][..i] == shotSounds[..i];
      cmds := cmds + [Despawn(shotSounds[i])];
    }
    assert shotSounds[..|shotSounds|] == shotSounds;
    cmds := cmds + [Spawn(ShotSound)];
  }
}
