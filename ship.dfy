/** The player's ship: the smoothing primitive and the per-tick movement (`ship.rs`). */
module Ship {
  import opened Arith
  import opened Toroidal
  import opened Ecs
  import opened Screen

  /** Which way the ship points; sticky, following the most recent horizontal thrust. */
  datatype Facing = Right | Left

  // ---------------------------------------------------------------------------------------------
  // Smoothing

  /** `transition_to_target`: step from `current` toward `target` by at most `delta`. For a
      non-negative step the result stays between the two, never overshoots, and its distance to
      the target shrinks by exactly `delta` (down to zero). */
  function TransitionToTarget(current: real, target: real, delta: real): (r: real)
    ensures delta >= 0.0 ==> Min(current, target) <= r <= Max(current, target)
    ensures delta >= 0.0 ==> Abs(target - r) == Max(0.0, Abs(target - current) - delta)
    ensures Abs(target - current) <= delta || current == target ==> r == target
  {
    if current < target then Min(current + delta, target)
    else if current > target then Max(current - delta, target)
    else target
  }

  /** `n` successive smoothing steps of the same size toward a fixed target. */
  function Approach(current: real, target: real, delta: real, n: nat): real
  {
    if n == 0 then current else TransitionToTarget(Approach(current, target, delta, n - 1), target, delta)
  }

  /** The value never leaves the interval between its start and the target. */
  lemma {:induction false} ApproachBetween(current: real, target: real, delta: real, n: nat)
    requires delta >= 0.0
    ensures Min(current, target) <= Approach(current, target, delta, n) <= Max(current, target)
  {
    if n > 0 {
      ApproachBetween(current, target, delta, n - 1);
    }
  }

  /** After `n` steps the distance to the target has shrunk by `n * delta`, down to zero. */
  lemma {:induction false} ApproachDistance(current: real, target: real, delta: real, n: nat)
    requires delta >= 0.0
    ensures Abs(target - Approach(current, target, delta, n)) == Max(0.0, Abs(target - current) - Times(n as real, delta))
  {
    if n > 0 {
      var a := Approach(current, target, delta, n - 1);
      var d := Abs(target - current);
      var e := d - Times((n - 1) as real, delta);
      ApproachDistance(current, target, delta, n - 1);
      assert Abs(target - Approach(current, target, delta, n)) == Max(0.0, Max(0.0, e) - delta);
      NextMultiple(n - 1, delta);
      assert e - delta == d - Times(n as real, delta);
    }
  }

  lemma NextMultiple(n: nat, delta: real)
    ensures Times((n + 1) as real, delta) == Times(n as real, delta) + delta
  {
  }

  /** Smoothing reaches the target exactly once `n * delta` covers the initial distance. */
  lemma ApproachReaches(current: real, target: real, delta: real, n: nat)
    requires delta >= 0.0 && Times(n as real, delta) >= Abs(target - current)
    ensures Approach(current, target, delta, n) == target
  {
    ApproachDistance(current, target, delta, n);
  }

  // ---------------------------------------------------------------------------------------------
  // Ship state and tick

  const MaxSpeed: real := 1.5
  const Drag: real := 4.0
  const ThrustAccel: real := 10.0
  const MinY: real := -0.4
  const MaxY: real := 0.45
  const ClimbStep: real := 0.005
  const YawRate: real := 3.0
  const PitchRate: real := 15.0
  const CameraRate: real := 0.3
  const ThrustRate: real := 15.0

  /** The `PlayerShip` component. */
  class PlayerShip {
    var facing: Facing
    var cameraOffset: real
    var speed: real
    var pitch: real
    var yaw: real
    var thrust: real

    /** The ship as `spawn_ship` creates it: facing right, everything else zero. */
    constructor ()
      ensures facing == Right && cameraOffset == 0.0 && speed == 0.0
      ensures pitch == 0.0 && yaw == 0.0 && thrust == 0.0
    {
      facing := Right;
      cameraOffset := 0.0;
      speed := 0.0;
      pitch := 0.0;
      yaw := 0.0;
      thrust := 0.0;
    }
  }

  /** A rotation given by Euler angles in Y, X, Z order. */
  datatype Rotation = EulerYXZ(y: real, x: real, z: real)

  /** The ship's own `Transform`: the vertical translation it is read from and its rotation. */
  class ShipTransform {
    var translationY: real
    var rotation: Rotation

    constructor (y: real)
      ensures translationY == y && rotation == EulerYXZ(0.0, 0.0, 0.0)
    {
      translationY := y;
      rotation := EulerYXZ(0.0, 0.0, 0.0);
    }
  }

  /** The value of the `Move` action: a 2D axis. */
  datatype Axis2 = Axis2(x: real, y: real)

  /** Horizontal speed after one tick: drag toward zero plus thrust, clamped to the top speed. */
  function NextSpeed(speed: real, ix: real, dt: real): (r: real)
    ensures -MaxSpeed <= r <= MaxSpeed
  {
    Clamp(speed + Times(-speed * Drag + ix * ThrustAccel, dt), -MaxSpeed, MaxSpeed)
  }

  /** Without thrust, a tick no longer than a quarter second slows the ship without reversing it. */
  lemma DragDecays(speed: real, dt: real)
    requires -MaxSpeed <= speed <= MaxSpeed
    requires 0.0 <= dt <= 0.25
    ensures Abs(NextSpeed(speed, 0.0, dt)) <= Abs(speed)
    ensures speed >= 0.0 ==> NextSpeed(speed, 0.0, dt) >= 0.0
    ensures speed <= 0.0 ==> NextSpeed(speed, 0.0, dt) <= 0.0
  {
    var f := 1.0 - Drag * dt;
    assert 0.0 <= f <= 1.0;
    assert speed + Times(-speed * Drag + 0.0 * ThrustAccel, dt) == speed * f;
    if speed >= 0.0 {
      MulLeftMono(speed + 1.0, 0.0, f);
      assert speed * f <= speed by { assert speed - speed * f == speed * (1.0 - f); }
      assert speed * f >= 0.0;
    } else {
      MulLeftMono(-speed, 0.0, f);
      assert -(speed * f) == (-speed) * f;
      assert (-speed) * f <= -speed by { assert -speed - (-speed) * f == (-speed) * (1.0 - f); }
      assert (-speed) * f >= 0.0;
    }
  }

  /** Holding full thrust at top speed keeps top speed. */
  lemma TopSpeedHeld(dt: real)
    requires dt >= 0.0
    ensures NextSpeed(MaxSpeed, 1.0, dt) == MaxSpeed
    ensures NextSpeed(-MaxSpeed, -1.0, dt) == -MaxSpeed
  {
  }

  /** Vertical position after one tick, from the transform's current height. */
  function NextY(translationY: real, iy: real): (r: real)
    ensures MinY <= r <= MaxY
    ensures MinY <= translationY + iy * ClimbStep <= MaxY ==> r == translationY + iy * ClimbStep
  {
    Clamp(translationY + iy * ClimbStep, MinY, MaxY)
  }

  /** Facing follows the sign of the horizontal input and is kept when there is none. */
  function NextFacing(facing: Facing, ix: real): (r: Facing)
    ensures r == Right <==> ix > 0.0 || (ix == 0.0 && facing == Right)
    ensures r == Left <==> ix < 0.0 || (ix == 0.0 && facing == Left)
  {
    if ix > 0.0 then Right else if ix < 0.0 then Left else facing
  }

  /** Full thrust whenever there is horizontal input. */
  function TargetThrust(ix: real): (r: real)
    ensures r == 1.0 <==> ix != 0.0
    ensures r == 0.0 <==> ix == 0.0
  {
    if ix > 0.0 || ix < 0.0 then 1.0 else 0.0
  }

  /** The pitch the ship turns to: 0 facing right, -pi facing left. */
  function TargetPitch(facing: Facing): (r: real)
    ensures r == 0.0 <==> facing == Right
    ensures r == -Pi <==> facing == Left
  {
    match facing
    case Right => 0.0
    case Left => -Pi
  }

  /** The yaw the ship banks to: +-0.5 while turning round, +-0.2 while climbing or diving (the
      sign depends on which way the ship faces), 0 otherwise. */
  function TargetYaw(targetPitch: real, pitch: real, iy: real, facing: Facing): (r: real)
    ensures r == -0.5 <==> targetPitch > pitch + 0.5
    ensures r == 0.5 <==> targetPitch < pitch - 0.5
    ensures r == -0.2 <==> Abs(targetPitch - pitch) <= 0.5 && ((iy > 0.0 && facing == Right) || (iy < 0.0 && facing == Left))
    ensures r == 0.2 <==> Abs(targetPitch - pitch) <= 0.5 && ((iy > 0.0 && facing == Left) || (iy < 0.0 && facing == Right))
    ensures r == 0.0 <==> Abs(targetPitch - pitch) <= 0.5 && iy == 0.0
  {
    if targetPitch > pitch + 0.5 then -0.5
    else if targetPitch < pitch - 0.5 then 0.5
    else
      assert Abs(targetPitch - pitch) <= 0.5;
      match facing
      case Right => if iy > 0.0 then -0.2 else if iy < 0.0 then 0.2 else 0.0
      case Left => if iy > 0.0 then 0.2 else if iy < 0.0 then -0.2 else 0.0
  }

  /** Once the ship has turned, climbing banks it the opposite way facing left as facing right. */
  lemma YawMirrored(pitch: real, iy: real)
    requires Abs(TargetPitch(Right) - pitch) <= 0.5 || Abs(TargetPitch(Left) - pitch) <= 0.5
    ensures Abs(TargetPitch(Right) - pitch) <= 0.5 ==>
              TargetYaw(TargetPitch(Right), pitch, iy, Right) == -TargetYaw(TargetPitch(Right), pitch, iy, Left)
    ensures Abs(TargetPitch(Left) - pitch) <= 0.5 ==>
              TargetYaw(TargetPitch(Left), pitch, iy, Left) == -TargetYaw(TargetPitch(Left), pitch, iy, Right)
  {
  }

  /** The camera sits behind the ship so that there is more room in front of it. */
  function TargetCameraOffset(facing: Facing): (r: real)
    ensures facing == Right ==> r < 0.0
    ensures facing == Left ==> r > 0.0
    ensures Abs(r) == 0.3
  {
    match facing
    case Right => -0.3
    case Left => 0.3
  }

  /** With the viewpoint at `Wrap(x - offset)`, the ship is drawn at screen x `offset`: once the
      camera offset has settled, a ship facing right is drawn left of centre and vice versa. */
  lemma {:induction false} ShipDrawnAtCameraOffset(x: real, offset: real)
    requires -PlayfieldWidth * 0.5 <= offset < PlayfieldWidth * 0.5
    ensures ScreenX(x, Wrap(x - offset, PlayfieldWidth)) == offset
  {
    var vp := Wrap(x - offset, PlayfieldWidth);
    var k := WrapCongruent(x - offset, PlayfieldWidth);
    assert x == offset + vp + k as real * PlayfieldWidth;
    ScreenXPeriodic(offset + vp, vp, k, 0);
    assert vp + 0 as real * PlayfieldWidth == vp;
    ScreenXNear(offset + vp, vp);
  }

  /** `move_ship`. Without a `Move` action value nothing changes. Otherwise the ship's speed,
      position, facing, yaw, pitch, camera offset and thrust advance by one tick of `dt`; the
      ship's rotation follows its pitch and yaw; the viewpoint sits the camera offset behind the
      ship; and every thrust cone is scaled by the thrust times `thrustNoise` (the flicker the
      source derives from the clock). */
  method MoveShip(ship: PlayerShip, move: Option<Axis2>, dt: real, thrustNoise: real,
                  position: UnitPosition, transform: ShipTransform, thrustScales: array<Vec3>,
                  viewpoint: Viewpoint)
    modifies ship, position, transform, thrustScales, viewpoint
    ensures move.None? ==>
              && ship.facing == old(ship.facing) && ship.cameraOffset == old(ship.cameraOffset)
              && ship.speed == old(ship.speed) && ship.pitch == old(ship.pitch)
              && ship.yaw == old(ship.yaw) && ship.thrust == old(ship.thrust)
              && position.value == old(position.value) && transform.rotation == old(transform.rotation)
              && transform.translationY == old(transform.translationY)
              && thrustScales[..] == old(thrustScales[..]) && viewpoint.position == old(viewpoint.position)
    ensures move.Some? ==>
              && ship.speed == NextSpeed(old(ship.speed), move.value.x, dt)
              && position.value == Vec2(Wrap(old(position.value.x) + Times(ship.speed, dt), PlayfieldWidth),
                                        NextY(old(transform.translationY), move.value.y))
              && ship.facing == NextFacing(old(ship.facing), move.value.x)
              && ship.yaw == TransitionToTarget(old(ship.yaw),
                                                TargetYaw(TargetPitch(ship.facing), old(ship.pitch), move.value.y, ship.facing),
                                                dt * YawRate)
              && ship.pitch == TransitionToTarget(old(ship.pitch), TargetPitch(ship.facing), dt * PitchRate)
              && ship.cameraOffset == TransitionToTarget(old(ship.cameraOffset), TargetCameraOffset(ship.facing), dt * CameraRate)
              && ship.thrust == TransitionToTarget(old(ship.thrust), TargetThrust(move.value.x), dt * ThrustRate)
              && transform.rotation == EulerYXZ(ship.pitch, ship.yaw, 0.0)
              && transform.translationY == old(transform.translationY)
              && viewpoint.position == Wrap(position.value.x - ship.cameraOffset, PlayfieldWidth)
              && forall i :: 0 <= i < thrustScales.Length ==> thrustScales[i] == Vec3(1.0, Times(ship.thrust, thrustNoise), 1.0)
  {
    if move.None? {
      return;
    }
    var action := move.value;

    // Move the ship.
    var accel := Times(-ship.speed * Drag + action.x * ThrustAccel, dt);
    var speed := Clamp(ship.speed + accel, -MaxSpeed, MaxSpeed);
    var x := Wrap(position.value.x + Times(speed, dt), PlayfieldWidth);
    var y := Clamp(transform.translationY + action.y * ClimbStep, MinY, MaxY);

    // Facing is sticky.
    var facing := ship.facing;
    var targetThrust := 0.0;
    if action.x > 0.0 {
      facing := Right;
      targetThrust := 1.0;
    } else if action.x < 0.0 {
      facing := Left;
      targetThrust := 1.0;
    }

    var targetPitch := TargetPitch(facing);
    var targetYaw := TargetYaw(targetPitch, ship.pitch, action.y, facing);
    var targetCameraOffset := TargetCameraOffset(facing);

    var yaw := TransitionToTarget(ship.yaw, targetYaw, dt * YawRate);
    var pitch := TransitionToTarget(ship.pitch, targetPitch, dt * PitchRate);
    var cameraOffset := TransitionToTarget(ship.cameraOffset, targetCameraOffset, dt * CameraRate);
    var thrust := TransitionToTarget(ship.thrust, targetThrust, dt * ThrustRate);

    ship.speed, ship.facing, ship.yaw, ship.pitch, ship.cameraOffset, ship.thrust :=
      speed, facing, yaw, pitch, cameraOffset, thrust;
    position.value := Vec2(x, y);
    transform.rotation := EulerYXZ(pitch, yaw, 0.0);
    viewpoint.position := Wrap(x - cameraOffset, PlayfieldWidth);
    ScaleThrust(thrustScales, Times(thrust, thrustNoise));
  }

  /** Scales every thrust cone vertically by `height`. */
  method ScaleThrust(thrustScales: array<Vec3>, height: real)
    modifies thrustScales
    ensures forall i :: 0 <= i < thrustScales.Length ==> thrustScales[i] == Vec3(1.0, height, 1.0)
  {
    var i := 0;
    while i < thrustScales.Length
      invariant 0 <= i <= thrustScales.Length
      invariant forall k :: 0 <= k < i ==> thrustScales[k] == Vec3(1.0, height, 1.0)
    {
      thrustScales[i] := Vec3(1.0, height, 1.0);
      i := i + 1;
    }
  }
}
