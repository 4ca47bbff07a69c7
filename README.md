# guardian gameplay core in Dafny

This project models the per-tick gameplay logic of *guardian*, a side-scrolling arcade shooter
written in Rust on the Bevy engine, and proves properties of it. The world is a cylinder
`PLAYFIELD_WIDTH` = 8 units around. The player's ship scrolls a virtual viewpoint. Every other
unit, star layer and mountain layer is drawn relative to that viewpoint with Euclidean
remainder (`rem_euclid`) wrap-around.

The modelled systems are:

- **ship movement** (`move_ship`): clamped speed integration, wrapped x, clamped y, sticky
  facing, and smoothed yaw, pitch, camera offset and thrust;
- **firing** (`fire_shots`, `spawn_laser`);
- **the laser shot lifecycle** (`update_laser`, `detect_enemy_kills`);
- **the saucer state machine** (`animate_saucers`, `choose_random_angle`, `spawn_saucer`,
  `saucer_hit`);
- **the explosion effects** (`EffectTimer`, `on_add_shrapnel`, `update_shrapnel`,
  `update_flare`);
- **the mountain profile**, the recursive midpoint displacement in `create_mountain_mesh`
  (`gen_fract`), and its parallax scroll (`spawn_mountains`, `update_mountains`);
- **the star field** (`spawn_stars`, `update_stars`);
- **the treasure layout** (`spawn_treasure`);
- **the screen projection** (`update_unit_translation`) and **the letterboxed camera viewport**
  (`update_viewport_rect`).

Modelling conventions:

- `f32` is modelled as `real`.
- `rem_euclid(w)` is `Toroidal.Wrap(x, w) = x - w * floor(x / w)`.
- Bevy `Commands` become a returned list of `Ecs.Command` values: `Spawn(bundle)`,
  `Despawn(entity)` or `Trigger(entity, EnemyHit)`. The projections `Despawns`,
  `TriggerTargets` and `Spawned` state what a system asks of the world.
- A query the system updates in place becomes an `array` of rows, one row per entity.
- A resource the system updates in place becomes a class: `Viewpoint`, `ShotMesh`, the material
  and fragment stores, and the camera.
- The ChaCha8 generator becomes `Random.Rng`, a fixed stream of draws in `[0, 1)` with a cursor
  `next`. Each `random_range` consumes one draw and maps it affinely onto its range. Every
  spawn function therefore says exactly which draws each spawned entity is built from.

Modules, one per source file, plus shared ones:

| module | file | models |
|---|---|---|
| `Arith` | arith.dfy | shared arithmetic lemmas |
| `Toroidal` | toroidal.dfy | `rem_euclid` |
| `Random` | random.dfy | the generator |
| `Ecs` | ecs.dfy | vectors, commands, `Viewpoint` and `UnitPosition` (main.rs) |
| `Screen` | screen.dfy | the rest of main.rs |
| `Ship` | ship.dfy | ship.rs |
| `ShipFiring` | ship_fire.dfy | ship.rs `fire_shots` |
| `Laser` | laser.dfy | laser.rs |
| `Saucers` | saucer.dfy | saucer.rs |
| `Explosion` | explosion.dfy | explosion.rs |
| `Mountains` | mountains.dfy | mountains.rs |
| `Stars` | stars.dfy | stars.rs |
| `Treasures` | treasure.dfy | treasure.rs |

`fire_shots` is in its own module because ship.rs and laser.rs import each other, and Dafny
modules may not.

## Model

| member | source | states |
|---|---|---|
| Toroidal.Wrap | src/ship.rs:156 | `rem_euclid` by a positive width lands in `[0, w)` |
| Toroidal.WrapUnique | src/ship.rs:156 | the wrapped value is the unique representative in `[0, w)` of `x` modulo `w` |
| Toroidal.WrapCongruent | src/ship.rs:156 | `x` and its wrap differ by a whole number of widths |
| Toroidal.WrapInRange | src/ship.rs:156 | a value already in `[0, w)` is left unchanged |
| Toroidal.WrapIdempotent | src/ship.rs:156 | wrapping twice equals wrapping once |
| Toroidal.WrapPeriodic | src/ship.rs:156 | shifting the argument by any multiple of the width does not change the result |
| Toroidal.WrapShift | src/ship.rs:156 | adding a displacement before or after an earlier wrap gives the same wrapped result |
| Arith.Clamp | src/ship.rs:155 | `clamp` lands in `[lo, hi]` and leaves values already inside unchanged |
| Random.Scale | src/saucer.rs:73 | a draw in `[0, 1)` mapped onto `lo..hi` lies in `[lo, hi)` |
| Random.ScaleInt | src/treasure.rs:55 | an integer draw from `lo..hi` lies in `[lo, hi)` |
| Random.Rng.constructor | src/stars.rs:28 | a freshly seeded generator starts at the first draw of its stream |
| Random.Rng.Clone | src/explosion.rs:91 | a clone continues the same stream from the same position |
| Random.Rng.RandomRange | src/saucer.rs:73 | `random_range` on floats consumes exactly one draw and returns it scaled onto the range |
| Random.Rng.RandomInt | src/treasure.rs:55 | `random_range` on integers consumes exactly one draw and returns it scaled onto the range |
| Ecs.Viewpoint.constructor | src/main.rs:47-52 | the viewpoint resource starts at position 0 (its `Default`) |
| Ecs.UnitPosition.constructor | src/main.rs:55-56 | a unit position holds the given world position |
| Ecs.DespawnsIn | src/laser.rs:103 | an entity is in the despawn projection of a command list iff the list despawns it |
| Ecs.TriggerTargetsIn | src/laser.rs:122 | an entity is in the trigger projection iff the list triggers `EnemyHit` on it |
| Ecs.SpawnedIn | src/laser.rs:55 | a bundle is in the spawn projection iff the list spawns it |
| Screen.ScreenX | src/main.rs:369-371 | a unit's screen x is in `[-4, 4)` |
| Screen.ScreenXPeriodic | src/main.rs:369-371 | screen x is unchanged when the unit or the viewpoint moves by any multiple of 8 |
| Screen.ScreenXNear | src/main.rs:369-371 | a unit within half a playfield of the viewpoint is drawn at its plain offset `x - vp` |
| Screen.ScreenXCongruent | src/main.rs:369-371 | screen x equals `x - vp` up to a whole number of playfield widths |
| Screen.UpdateUnitTranslation | src/main.rs:364-374 | every unit's translation becomes (screen x, world y); world positions and the viewpoint are not written |
| Screen.Letterbox | src/main.rs:313-319 | the letterboxed size never exceeds the content size and keeps one full dimension; its aspect lies in `[1.5, 2.5]`; content already inside that range is kept whole |
| Screen.AspectCompare | src/main.rs:314-318 | the aspect comparisons by division agree with the cross-multiplied comparisons, in both directions |
| Screen.ViewportRect | src/main.rs:309-325 | the viewport rectangle has the letterboxed width and height |
| Screen.ViewportCentered | src/main.rs:309-321 | the viewport sits inside the content area with equal margins on opposite sides |
| Screen.Intersect | src/main.rs:322-325 | when the rectangles overlap, a point lies in the intersection iff it lies in both; when they do not, the result has zero width or zero height |
| Screen.AsU32 | src/main.rs:328-330 | the float-to-`u32` cast saturates at 0 and `u32::MAX` and truncates values in range |
| Screen.PlayfieldCamera.constructor | src/main.rs:246-261 | a camera starts with no viewport (the `Camera` default) and the given projection |
| Screen.UpdateViewportRect | src/main.rs:288-341 | content shorter than 1 leaves the camera untouched; otherwise the viewport is the letterboxed rectangle clipped to the window, cast to `u32`, and an orthographic projection gets fixed height 1 and the viewport's width/height ratio; any other projection is left as it was |
| Ship.TransitionToTarget | src/ship.rs:259-267 | for `delta >= 0` the result lies between current and target, the remaining distance shrinks by exactly `delta` and never past 0, and the target is returned whenever it is within `delta` |
| Ship.ApproachBetween | src/ship.rs:259-267 | repeated smoothing never leaves the interval between the start and the target |
| Ship.ApproachDistance | src/ship.rs:259-267 | after `n` steps the distance to the target is `max(0, abs(t - c) - n * delta)` |
| Ship.ApproachReaches | src/ship.rs:206-213 | once `n * delta` covers the distance, the value sits exactly on the target |
| Ship.PlayerShip.constructor | src/ship.rs:87-94 | the ship starts facing right with zero speed, pitch, yaw, thrust and camera offset |
| Ship.ShipTransform.constructor | src/ship.rs:85-86 | the ship's transform starts at the given height, unrotated |
| Ship.NextSpeed | src/ship.rs:154-155 | the new speed lies in `[-1.5, 1.5]` whatever the input and the old speed |
| Ship.DragDecays | src/ship.rs:154-155 | with no horizontal input and a frame of at most 0.25 s, drag never increases the speed's magnitude or flips its sign |
| Ship.TopSpeedHeld | src/ship.rs:154-155 | full thrust at top speed keeps the top speed in either direction |
| Ship.NextY | src/ship.rs:157 | the new y lies in `[-0.4, 0.45]` and equals `y + 0.005 * iy` when that is in range |
| Ship.NextFacing | src/ship.rs:160-167 | facing becomes Right iff `ix > 0` or (`ix == 0` and it was Right), and symmetrically for Left |
| Ship.TargetThrust | src/ship.rs:160-167 | the target thrust is 1 iff there is horizontal input, and 0 iff there is none |
| Ship.TargetPitch | src/ship.rs:170-173 | the target pitch is 0 iff facing Right and `-π` iff facing Left |
| Ship.TargetYaw | src/ship.rs:176-194 | the yaw is -0.5 or 0.5 exactly when pitch is more than 0.5 away from its target; otherwise it is ±0.2 exactly by the sign of `iy` and the facing, and 0 exactly when `iy == 0` |
| Ship.YawMirrored | src/ship.rs:176-194 | at a settled pitch, the climb yaw for Left is the negation of the one for Right |
| Ship.TargetCameraOffset | src/ship.rs:197-200 | the camera offset target is -0.3 facing Right and 0.3 facing Left |
| Ship.ShipDrawnAtCameraOffset | src/ship.rs:216 | with the viewpoint at `Wrap(x - offset, 8)`, the ship's own screen x is exactly its camera offset |
| Ship.MoveShip | src/ship.rs:135-227 | without a move action nothing changes; otherwise the new speed, wrapped x, clamped y (taken from the transform), sticky facing and smoothed yaw, pitch, camera offset and thrust are the functions above at the source's rates (3, 15, 0.3, 15 per s), the rotation is built from pitch and yaw, the viewpoint is `Wrap(x - offset, 8)`, and every thrust cone is scaled to `thrust * noise` |
| Ship.ScaleThrust | src/ship.rs:219-221 | every thrust-cone transform gets scale `(1, height, 1)` |
| ShipFiring.DespawnAll | src/ship.rs:243-245 | the commands despawn exactly the playing shot sounds, in order, and spawn and trigger nothing |
| ShipFiring.FireCommands | src/ship.rs:240-256 | the first command spawns the laser from the ship's position and facing, and the last spawns a new shot sound |
| ShipFiring.FireCommandsProject | src/ship.rs:240-256 | exactly two spawns (the laser, then the sound), every old shot sound despawned, and no trigger |
| ShipFiring.FireShots | src/ship.rs:229-257 | unless there is exactly one ship, no command is issued |
| Laser.SpawnLaser | src/laser.rs:49-79 | a shot gets expiration 0.3 and size 0.2; speed and muzzle offset have magnitude 3 and 0.18 and point along the facing; y is kept |
| Laser.NextHue | src/laser.rs:95 | the hue stays in `[0, 360)` |
| Laser.NextHueTurns | src/laser.rs:95 | the new hue is the old hue plus `360 * dt`, modulo whole turns |
| Laser.NextHueFullSecond | src/laser.rs:95 | a full second of rotation brings the hue back to where it was |
| Laser.StepShot | src/laser.rs:100-110 | expiration drops by `dt`; an expiring shot keeps its x, a live one moves by `speed * dt` and x is not wrapped; size grows by `dt` on every tick, including the last, and the x scale follows it |
| Laser.DespawnExpired | src/laser.rs:100-103 | the update only despawns, at most once per shot |
| Laser.DespawnExpiredLast | src/laser.rs:100-103 | one more shot adds its despawn exactly when it expires |
| Laser.OnlyShotsDespawned | src/laser.rs:101-103 | no entity outside the query is despawned |
| Laser.DespawnedIffExpiring | src/laser.rs:101-103 | a shot is despawned iff its expiration reaches 0 on this tick |
| Laser.UpdateLaser | src/laser.rs:86-111 | the hue rotates only when the material resolves, and the material's colour takes the new hue; every shot steps as `StepShot`; the commands are `DespawnExpired` of the old shots |
| Laser.RotateHue | src/laser.rs:93-98 | the hue and material update of `update_laser` |
| Laser.TickShots | src/laser.rs:100-110 | each shot row becomes `StepShot` of its old value, and the despawns follow query order |
| Laser.TickShot | src/laser.rs:101-109 | the in-loop step of one shot agrees with `StepShot` and `Expires` |
| Laser.TicksState | src/laser.rs:100-110 | after `k` ticks the expiration has fallen and the size grown by `k * dt`; a live shot has moved `k * speed * dt` |
| Laser.ShotLifetimeTicks | src/laser.rs:55-110 | a freshly fired shot expires on tick `k` iff `k * dt >= 0.3`, so it survives exactly the ticks before the cumulative time first reaches 0.3 |
| Laser.HitCommands | src/laser.rs:121-123 | one command per colliding enemy |
| Laser.HitCommandsProject | src/laser.rs:121-123 | exactly one `EnemyHit` per colliding enemy, in order, and nothing else |
| Laser.ShotKillProject | src/laser.rs:117-124 | a shot is despawned iff its colliding set is non-empty, and every colliding entity is hit |
| Laser.KillCommandsProject | src/laser.rs:113-125 | over all shots, the despawns are exactly the shots that hit something and the hits are all collisions in order |
| Laser.DetectEnemyKills | src/laser.rs:113-125 | the loop issues the kill commands: one despawn per hitting shot and one hit per overlapped enemy |
| Saucers.DirectionIndex | src/saucer.rs:164-165 | the truncated direction index is one of the 8 directions 0..7 |
| Saucers.Direction | src/saucer.rs:165-166 | each of the 8 unit directions has components in `[-1, 1]` |
| Saucers.AngleVelocity | src/saucer.rs:163-167 | a random heading has `abs(vx) <= 0.4` and `abs(vy) <= 0.2` |
| Saucers.ChooseRandomAngle | src/saucer.rs:163-167 | choosing a heading consumes exactly one draw |
| Saucers.Reroll | src/saucer.rs:139-140 | a re-roll patrols at a bounded velocity with a timer in `[1, 2)` |
| Saucers.StepSaucer | src/saucer.rs:137-159 | every handled saucer is Patrolling after a tick and uses 0 or 2 draws; an arriving saucer re-rolls without moving; a patrolling one stays in `[-4, 4)` |
| Saucers.PatrolRules | src/saucer.rs:143-157 | a patrolling saucer moves by `vel * dt` with x wrapped into `[-4, 4)`; above 0.4 it turns down and below -0.4 it turns up, keeping `vel.x` and the timer; it re-rolls iff y is within `[-0.4, 0.4]` and the timer has run out |
| Saucers.AnimateAll | src/saucer.rs:136-160 | one row per saucer, and the draw cursor only advances |
| Saucers.AnimateAllBounded | src/saucer.rs:136-160 | every saucer patrols at a velocity bounded by `(0.4, 0.2)` after a tick |
| Saucers.AnimateSaucer | src/saucer.rs:137-159 | the in-loop step of one saucer agrees with `StepSaucer`, draws included |
| Saucers.AnimateSaucers | src/saucer.rs:130-161 | the saucer array becomes `AnimateAll` of the old one, taking the generator's draws in query order |
| Saucers.SaucerFrom | src/saucer.rs:71-82 | a new saucer is Arriving with a timer in `[1, 2)`, x in `[0, 8)` and y in `[0.6, 0.7)` |
| Saucers.SpawnSaucers | src/saucer.rs:64-94 | 24 saucers, each built from its three draws of the shared generator |
| Saucers.FirstPatrolTurnsDown | src/saucer.rs:138-152 | a spawned saucer does not move on its arrival tick, and it turns downward on its first patrol tick |
| Saucers.SaucerHit | src/saucer.rs:177-179 | a target without a position yields no commands, and one with a position yields some |
| Saucers.SaucerHitProject | src/saucer.rs:177-201 | a hit despawns exactly the target and spawns the explosion sound, a flare of size 0.01 and a shrapnel effect, both at rest at the target's position |
| Explosion.T | src/explosion.rs:21-23 | `t * total == elapsed`, and `t` lies in `[0, 1)` while the effect is alive |
| Explosion.AdvanceByElapsed | src/explosion.rs:172 | `k` ticks add `k * dt` to the elapsed time and leave the total alone |
| Explosion.DespawnTick | src/explosion.rs:172-175 | a fresh effect is despawned on tick `k` iff `k * dt >= total` |
| Explosion.FragmentFrom | src/explosion.rs:99-117 | a fragment's speed is in `[0.2, 0.6)` and its angles in their drawn ranges |
| Explosion.OnAddShrapnel | src/explosion.rs:75-120 | the effect gets timer (0.8, 0) and exactly 64 fragments, fragment `i` drawn from draws `7i..7i+6` of a clone; the shared generator's state is untouched |
| Explosion.DrawFragment | src/explosion.rs:100-111 | one fragment consumes exactly 7 draws |
| Explosion.DrawRotation | src/explosion.rs:100-105 | the rotation consumes three draws, in X, Y, Z order |
| Explosion.DrawMotion | src/explosion.rs:106-111 | heading, speed and spin axis consume four draws, in source order |
| Explosion.MoveFragments | src/explosion.rs:182-201 | moving the children changes neither the set of fragments nor any velocity or material |
| Explosion.MoveFragmentsEach | src/explosion.rs:182-201 | each child fragment moves once by `velocity * dt`, and any other fragment stays put |
| Explosion.FirstFragmentMaterial | src/explosion.rs:182-193 | the material that gets updated is that of the first child that resolves to a fragment, and there is none iff no child resolves |
| Explosion.FragmentLoopStep | src/explosion.rs:182-201 | one more child moves its fragment and updates the material only if no earlier child did |
| Explosion.FadeMaterial | src/explosion.rs:187-191 | alpha becomes `min(4 * fade, 1)`; for a live effect the emissive colour is a red-to-yellow glow in `(0, 1]` |
| Explosion.PowersOfFade | src/explosion.rs:189 | `fade^4 <= fade^3` stay in `(0, 1]` for `fade` in `(0, 1]` |
| Explosion.ShrapnelMaterials | src/explosion.rs:181-193 | at most one material changes per effect per tick: that of the first resolvable child |
| Explosion.StepShrapnel | src/explosion.rs:172-178 | the timer advances; on the expiring tick the position is not advanced, otherwise it moves by `velocity * dt` |
| Explosion.Fade | src/explosion.rs:180 | while alive, `fade = 1 - t` lies in `(0, 1]` |
| Explosion.ShrapnelWorld | src/explosion.rs:171-203 | one tick keeps the sets of fragments and materials |
| Explosion.EffectWorld | src/explosion.rs:180-202 | one effect's tick keeps the sets of fragments and materials |
| Explosion.EffectDespawns | src/explosion.rs:171-175 | at most one despawn per effect |
| Explosion.EffectDespawned | src/explosion.rs:172-175 | an entity is despawned iff it is one of the effects and its timer reaches its total on this tick |
| Explosion.EffectDespawnsStep | src/explosion.rs:171-175 | one more effect appends its own despawn, if it expires, after those of the effects before it |
| Explosion.UpdateFragments | src/explosion.rs:181-202 | the children loop moves the fragments and updates the material with the `material_updated` flag exactly as specified |
| Explosion.UpdateOneShrapnel | src/explosion.rs:172-202 | one effect's tick agrees with `StepShrapnel`, `Expires` and `EffectWorld` |
| Explosion.UpdateShrapnel | src/explosion.rs:147-204 | every effect steps as `StepShrapnel`, the despawns are those of expiring effects in query order, and fragments and materials end as `ShrapnelWorld` |
| Explosion.ShrapnelStep | src/explosion.rs:171-203 | one more effect applies its own world update after those of the effects before it |
| Explosion.FlareColor | src/explosion.rs:230-232 | the flare colour is `(1, 1 - t/2, 1 - t, 1 - t)`, with blue and alpha in `(0, 1]` while alive |
| Explosion.StepFlare | src/explosion.rs:220-237 | the timer advances; an expiring flare is otherwise unchanged (the `continue` skips its growth); a live one moves by `velocity * dt`, grows by `2 * dt` and is scaled to its size |
| Explosion.FlareMaterials | src/explosion.rs:219-238 | one tick of flares keeps the set of materials |
| Explosion.FlareMaterial | src/explosion.rs:229-233 | a flare recolours at most its own material |
| Explosion.FlareStep | src/explosion.rs:219-238 | one more flare recolours its own material after the flares before it |
| Explosion.UpdateFlare | src/explosion.rs:206-239 | every flare steps as `StepFlare`, despawns follow query order, and the materials end as `FlareMaterials` |
| Explosion.UpdateOneFlare | src/explosion.rs:220-237 | one flare's tick agrees with `StepFlare`, `Expires` and `FlareMaterial` |
| Mountains.Fract | src/mountains.rs:100-109 | `gen_fract` terminates (measure `i1 - i0`), keeps the length, and consumes `2(i1 - i0) - 1` draws |
| Mountains.FractFrame | src/mountains.rs:100-109 | only indices in `[i0, i1)` are written; `i1` is never written |
| Mountains.FractFrameAt | src/mountains.rs:100-109 | the same frame, for a single index |
| Mountains.GenFract | src/mountains.rs:100-109 | the in-place recursion writes the array and advances the generator exactly as `Fract` |
| Mountains.Displace | src/mountains.rs:101-104 | one call writes only the midpoint: the mean of the end samples plus a draw in `[-0.02, 0.02)` |
| Mountains.FractWritesSpan | src/mountains.rs:100-109 | the set of indices written is exactly `[i0, i1)` |
| Mountains.UnitSpanRewritesStart | src/mountains.rs:103-105 | on a span of width 1 the midpoint is `i0`, so the start sample itself is overwritten |
| Mountains.BlockRewritesAnchor | src/mountains.rs:103-107 | refining a block of 4 rewrites its anchor sample with a value derived from three displacements |
| Mountains.FractBoundsAt | src/mountains.rs:100-109 | inside the span, refined heights stay within the end samples' range widened by 0.02 per draw |
| Mountains.FractBounds | src/mountains.rs:100-109 | the same bound over the whole span |
| Mountains.Anchors | src/mountains.rs:93-98 | the height buffer has 129 entries and its last equals its first |
| Mountains.AnchorsDrawn | src/mountains.rs:95-97 | anchor `b` comes from draw `b` and every anchor lies in `[0.2, 0.3)` |
| Mountains.Refine | src/mountains.rs:111-113 | refining `j` blocks keeps the length and consumes `7j` draws |
| Mountains.RefineFrame | src/mountains.rs:111-113 | refining `j` blocks leaves every index from `4j` on untouched |
| Mountains.RefineWritesAll | src/mountains.rs:111-113 | the refinement loop writes exactly the indices below `4j`, so every index in `[0, 128)` is written |
| Mountains.ClosingSampleKept | src/mountains.rs:98-113 | after refinement, `height[128]` still holds the pre-refinement `height[0]` |
| Mountains.RefineBounds | src/mountains.rs:111-113 | every refined height lies in `[0.06, 0.44]` |
| Mountains.RefineStepBounds | src/mountains.rs:111-113 | one more block keeps every refined height in `[0.06, 0.44]` |
| Mountains.BlockBounds | src/mountains.rs:112 | refining one block keeps the heights so far in `[0.06, 0.44]` |
| Mountains.MountainHeights | src/mountains.rs:93-116 | after `pop`, 128 heights, each in `[0.06, 0.44]` |
| Mountains.SampleX | src/mountains.rs:121 | sample x coordinates lie in `[0, 8)` |
| Mountains.Outline | src/mountains.rs:120-126 | each sample contributes its top `(x, h)` and then its foot `(x, 0)` |
| Mountains.OutlineAt | src/mountains.rs:120-126 | entry `k` is the top of sample `k/2` when `k` is even and its foot when `k` is odd |
| Mountains.MeshLayout | src/mountains.rs:118-133 | `4 * 128` positions and UVs; positions are the UVs at z = 0; the second half is the first shifted by 8 |
| Mountains.DrawAnchors | src/mountains.rs:93-98 | the anchors are drawn from 32 consecutive draws |
| Mountains.RefineAll | src/mountains.rs:111-113 | the in-place refinement loop computes `Refine` over all 32 blocks |
| Mountains.RefineBlock | src/mountains.rs:112 | one loop iteration refines the next block |
| Mountains.PushOutline | src/mountains.rs:120-133 | the push loop appends the outline to the UVs and keeps positions equal to the flattened UVs |
| Mountains.MountainMeshShape | src/mountains.rs:87-138 | the mesh has `4 * 128` positions and UVs, with every position at z = 0 and every height in `[0, 0.44]` |
| Mountains.CreateMountainMesh | src/mountains.rs:87-138 | the mesh is `MountainMesh` of the generator's next draws, and exactly 256 draws are consumed |
| Mountains.SpawnMountains | src/mountains.rs:21-83 | three layers from consecutive meshes of one generator, with translations, scales and speeds 1.0, 0.5 and 0.3 as in the source |
| Mountains.MountainX | src/mountains.rs:147-149 | a layer's x lies in `[-1.5d, -0.5d)` with `d = 8 * speed` |
| Mountains.MountainParallax | src/mountains.rs:147-149 | moving the viewpoint by `delta` scrolls a layer by `delta * speed` modulo `d`; a full playfield of movement brings it back |
| Mountains.UpdateMountains | src/mountains.rs:140-151 | each layer's x becomes `MountainX`; its speed and its other coordinates are kept |
| Stars.StarFrom | src/stars.rs:32-52 | speed in `(0.37, 0.72]`, a positive size, alpha in `(0.1, 0.6]`, offset x in `[0, 8)` and y in `[-0.35, 0.49)`, at the star depth |
| Stars.StarDepthCues | src/stars.rs:33-49 | a nearer star is bigger, brighter and faster |
| Stars.SpawnStars | src/stars.rs:21-54 | 200 stars, each built from its three draws |
| Stars.StarX | src/stars.rs:64-68 | a star's screen x lies in `[-d/2, d/2)` with `d = 8 * speed` |
| Stars.StarXCongruent | src/stars.rs:64-68 | a star is drawn at its offset less `vp * speed`, up to whole multiples of `d` |
| Stars.StarParallax | src/stars.rs:64-68 | moving the viewpoint by `delta` scrolls a star by `delta * speed` modulo `d`; a full playfield of movement brings it back |
| Stars.UpdateStars | src/stars.rs:57-71 | screen x is `StarX`, y is the offset's y, depth is kept, and `Star` components are never modified |
| Treasures.TreasureFrom | src/treasure.rs:52-75 | treasure `i` lies unwrapped in `[0.5i - 0.15, 0.5i + 0.15)`, Standing at y = -0.47, and its transform matches its unit position |
| Treasures.SpawnTreasure | src/treasure.rs:42-78 | 16 treasures, each from its three draws; the model index is in `{0, 1, 2}`, so the `unreachable!()` arm is never taken |
| Treasures.TreasuresSpaced | src/treasure.rs:52-54 | treasure x increases strictly with the index, by more than 0.2 per slot |
| Treasures.TreasuresInPlayfield | src/treasure.rs:52-54 | treasures lie in `[-0.15, 7.65)`; only the first can be negative and only the last can be right of 7.5 |

## Left out

- Rendering, assets and audio are left out: meshes, materials and shaders (except the material
  colours the effects write), `setup*`, `spawn_ship`'s model and cone, animation playback,
  audio volume and playback settings. They are presentation and foreign calls.
- Input binding is left out. The move action is an `Option<Axis2>` parameter of `MoveShip`;
  `None` models the early return of `actions.get::<Move>()?`.
- Physics is left out. How avian2d computes `CollidingEntities` is outside the model: each
  shot's colliding set is an input sequence, taken in iteration order.
- The ECS plumbing is left out: system scheduling, observers, `Single`, `Children`, and
  deferred application of `Commands`. Commands are a returned list; queries are arrays or
  sequences in iteration order.
- Floating point is left out. `f32` rounding is not modelled; `rem_euclid` can round up to
  exactly the modulus in `f32`, but `Wrap` is exact.
- Trigonometry is left out: `cos`/`sin` in `choose_random_angle` become a table of the eight
  directions. Quaternion rotations are reduced to their Euler angles. Colour-space conversion is
  left out: the flare colour is the sRGB value the source builds, and the laser colour is
  represented by its hue.
- The shrapnel fragments' spin is left out: the rotation by `8.1 * dt` about the spin axis is
  rotation algebra. Fragments keep their drawn spin-axis angles, and only their translation is
  modelled.
- Thrust noise (`1 + 0.3 sin(100 t)`) is a parameter of `MoveShip`, because it reads the clock.
  Frame time `dt` is a parameter of every update.
- The ChaCha8 generator is modelled by a fixed stream of draws in `[0, 1)`, and its internals
  are left out. The three locally seeded generators of stars, mountains and treasure use the
  same seed in the source; here each spawn method takes a generator, so whether two of them see
  the same stream is up to the caller.
- src/game_state.rs is left out: two state enums with no transitions.
- `on_add_flare` is modelled only as the constant `Explosion.FlareTimer` (total 0.2, elapsed 0).
  Its mesh and material insertion is rendering.
- `Saucers.AnimateSaucers` requires every saucer to be Arriving or Patrolling, because the other
  states reach `todo!()` and panic.
- `Stars.StarX`, `Stars.StarXCongruent`, `Stars.StarParallax` and `Stars.UpdateStars` require a
  positive star speed. `rem_euclid` by a zero width is not a number; every spawned star has
  speed in `(0.37, 0.72]`.
- `Mountains.MountainX`, `Mountains.MountainParallax` and `Mountains.UpdateMountains` require a
  positive layer speed, for the same reason; the spawned layers have speeds 1.0, 0.5 and 0.3.
- `Explosion.T`, `Explosion.Fade`, `Explosion.EffectWorld`, `Explosion.ShrapnelWorld`,
  `Explosion.FlareMaterial` and `Explosion.FlareMaterials` require a positive timer total, and
  so do `Explosion.UpdateOneShrapnel`, `Explosion.UpdateShrapnel`, `Explosion.UpdateOneFlare`
  and `Explosion.UpdateFlare`. The source divides by it; the only totals installed are 0.8 and
  0.2.
- `Laser.DespawnedIffExpiring` requires the shot's entity to be distinct from the others in the
  query, which the ECS guarantees.
- `Explosion.MoveFragmentsEach` requires the children of an effect to be distinct, which Bevy's
  `Children` relationship guarantees.
- `Laser.UpdateLaser` is split into `Laser.RotateHue` and `Laser.TickShots`, and `Explosion`'s
  loops are split into per-row methods. Each split keeps one proof obligation per loop body; the
  effect on state is the same as the source's single loop.
- `Screen.UpdateViewportRect`: `content_pos` comes from the node's global transform, modelled as
  the content node's centre.
