/** The abductable treasures (`treasure.rs`): their states and where a level places them. */
module Treasures {
  import opened Ecs
  import opened Random

  /** `TreasureState`: on the ground, being abducted, or falling after its abductor died. */
  datatype TreasureState = Standing | Abducted | Falling

  /** The `Treasure` component. */
  datatype Treasure = Treasure(state: TreasureState)

  /** The three treasure models. */
  datatype TreasureModel = Tank | Dish | Rover

  /** A rotation given as Euler angles applied in X, Y, Z order. */
  datatype EulerXYZ = EulerXYZ(x: real, y: real, z: real)

  /** `NUM_TREASURES`. */
  const NumTreasures: nat := 16
  /** `TREASURE_DEPTH`. */
  const TreasureDepth: real := -40.0
  /** Distance between treasures: the playfield width shared evenly, 8 / 16. */
  const TreasureInterval: real := 0.5
  /** Largest random displacement from a treasure's slot: 30% of the interval. */
  const TreasureDisplacement: real := 0.15
  /** Height of the ground the treasures stand on. */
  const GroundY: real := -0.47

  /** The parts of a spawned treasure that are modelled. */
  datatype TreasureBundle = TreasureBundle(
    model: TreasureModel, translation: Vec3, scale: real, rotation: EulerXYZ,
    treasure: Treasure, position: Vec2)

  /** The model for a drawn type; the source's fallback arm is unreachable because the type is
      drawn from [0, 3). */
  function ModelFor(t: int): TreasureModel
    requires 0 <= t < 3
  {
    if t == 0 then Tank else if t == 1 then Dish else Rover
  }

  /** Treasure `i`, spawned from the three draws starting at `n`: its displacement, its type,
      then its spin about the vertical axis. */
  function TreasureFrom(draws: nat -> Unit, n: nat, i: nat): (b: TreasureBundle)
    ensures i as real * TreasureInterval - TreasureDisplacement <= b.position.x
            < i as real * TreasureInterval + TreasureDisplacement
    ensures b.position.y == GroundY && b.treasure.state == Standing
    ensures b.translation == Vec3(b.position.x, b.position.y, TreasureDepth)
    ensures b.rotation.x == 0.1 && 0.1 <= b.rotation.y < 5.0 && b.rotation.z == 0.0
  {
    var pos := i as real * TreasureInterval + Scale(draws(n), -TreasureDisplacement, TreasureDisplacement);
    var t := ScaleInt(draws(n + 1), 0, 3);
    TreasureBundle(ModelFor(t), Vec3(pos, GroundY, TreasureDepth), 0.013,
                   EulerXYZ(0.1, Scale(draws(n + 2), 0.1, 5.0), 0.0), Treasure(Standing), Vec2(pos, GroundY))
  }

  /** `spawn_treasure`: 16 standing treasures, three draws each, from the level's generator. */
  method SpawnTreasure(rng: Rng) returns (cmds: seq<Command<TreasureBundle>>)
    modifies rng
    ensures rng.next == old(rng.next) + 3 * NumTreasures
    ensures |cmds| == NumTreasures
    ensures forall i :: 0 <= i < NumTreasures ==> cmds[i] == Spawn(TreasureFrom(rng.draws, old(rng.next) + 3 * i, i))
  {
    var treasureInterval := 8.0 / NumTreasures as real;
    var treasureDisplacement := treasureInterval * 0.3;
    cmds := [];
    for i := 0 to NumTreasures
      invariant |cmds| == i && rng.next == old(rng.next) + 3 * i
      invariant forall k :: 0 <= k < i ==> cmds[k] == Spawn(TreasureFrom(rng.draws, old(rng.next) + 3 * k, k))
    {
      var pos := rng.RandomRange(-treasureDisplacement, treasureDisplacement);
      pos := i as real * treasureInterval + pos;
      var treasureType := rng.RandomInt(0, 3);
      var model := ModelFor(treasureType);
      var spin := rng.RandomRange(0.1, 5.0);
      var bundle := TreasureBundle(model, Vec3(pos, GroundY, TreasureDepth), 0.013, EulerXYZ(0.1, spin, 0.0),
                                   Treasure(Standing), Vec2(pos, GroundY));
      cmds := cmds + [Spawn(bundle)];
    }
  }

  /** The treasures of a level stand left to right in spawn order, each more than 0.2 to the
      right of the one before it (and more than 0.2 per slot further along). */
  lemma TreasuresSpaced(draws: nat -> Unit, start: nat, i: nat, j: nat)
    requires i < j
    ensures TreasureFrom(draws, start + 3 * j, j).position.x - TreasureFrom(draws, start + 3 * i, i).position.x
            > 0.2 * (j - i) as real
  {
  }

  /** All treasures lie within the playfield's first width, widened by the displacement: only
      the first can be left of 0 and only the last right of 7.5. */
  lemma TreasuresInPlayfield(draws: nat -> Unit, start: nat, i: nat)
    requires i < NumTreasures
    ensures -TreasureDisplacement <= TreasureFrom(draws, start + 3 * i, i).position.x < 7.5 + TreasureDisplacement
    ensures 0 < i ==> 0.0 < TreasureFrom(draws, start + 3 * i, i).position.x
    ensures i < NumTreasures - 1 ==> TreasureFrom(draws, start + 3 * i, i).position.x < 7.5
  {
  }
}
