/** The parts of the entity-component system and of `main.rs` that every gameplay module shares:
    entities, vectors, the deferred command list and the viewpoint resource. */
module Ecs {

  /** An entity id. */
  type Entity = nat

  /** `f32::consts::PI`, as a real (rounding left out). */
  const Pi: real := 3.14159265358979

  datatype Vec2 = Vec2(x: real, y: real)
  {
    function Plus(other: Vec2): Vec2 { Vec2(x + other.x, y + other.y) }
    function Times(s: real): Vec2 { Vec2(x * s, y * s) }
  }

  datatype Vec3 = Vec3(x: real, y: real, z: real)

  const Zero: Vec2 := Vec2(0.0, 0.0)

  datatype Option<T> = None | Some(value: T)

  /** `EnemyHit`, the event sent to an enemy that a shot hits. */
  datatype Event = EnemyHit

  /** One deferred command; `B` is the kind of bundle a system spawns. */
  datatype Command<B> =
    | Spawn(bundle: B)
    | Despawn(entity: Entity)
    | Trigger(target: Entity, event: Event)

  /** The entities a command list despawns, in order. */
  function Despawns<B>(cmds: seq<Command<B>>): (es: seq<Entity>)
    ensures |es| <= |cmds|
  {
    if cmds == [] then []
    else Despawns(cmds[..|cmds| - 1]) + (if cmds[|cmds| - 1].Despawn? then [cmds[|cmds| - 1].entity] else [])
  }

  /** The targets of the events a command list triggers, in order. */
  function TriggerTargets<B>(cmds: seq<Command<B>>): (es: seq<Entity>)
    ensures |es| <= |cmds|
  {
    if cmds == [] then []
    else TriggerTargets(cmds[..|cmds| - 1]) + (if cmds[|cmds| - 1].Trigger? then [cmds[|cmds| - 1].target] else [])
  }

  /** The bundles a command list spawns, in order. */
  function Spawned<B>(cmds: seq<Command<B>>): (bs: seq<B>)
    ensures |bs| <= |cmds|
  {
    if cmds == [] then []
    else Spawned(cmds[..|cmds| - 1]) + (if cmds[|cmds| - 1].Spawn? then [cmds[|cmds| - 1].bundle] else [])
  }

  /** An entity is in the despawn projection exactly when the list holds a despawn of it. */
  lemma {:induction false} DespawnsIn<B>(cmds: seq<Command<B>>, e: Entity)
    ensures e in Despawns(cmds) <==> Despawn(e) in cmds
  {
    if cmds != [] {
      var init := cmds[..|cmds| - 1];
      DespawnsIn(init, e);
      assert cmds == init + [cmds[|cmds| - 1]];
    }
  }

  /** An entity is in the trigger projection exactly when the list triggers `EnemyHit` on it. */
  lemma {:induction false} TriggerTargetsIn<B>(cmds: seq<Command<B>>, e: Entity)
    ensures e in TriggerTargets(cmds) <==> Trigger(e, EnemyHit) in cmds
  {
    if cmds != [] {
      var init := cmds[..|cmds| - 1];
      var last := cmds[|cmds| - 1];
      TriggerTargetsIn(init, e);
      assert cmds == init + [last];
      assert last.Trigger? ==> last == Trigger(last.target, EnemyHit);
    }
  }

  /** A bundle is in the spawn projection exactly when the list spawns it. */
  lemma {:induction false} SpawnedIn<B>(cmds: seq<Command<B>>, b: B)
    ensures b in Spawned(cmds) <==> Spawn(b) in cmds
  {
    if cmds != [] {
      var init := cmds[..|cmds| - 1];
      SpawnedIn(init, b);
      assert cmds == init + [cmds[|cmds| - 1]];
    }
  }

  /** The three projections distribute over concatenation. */
  lemma {:induction false} ProjectionsAppend<B>(a: seq<Command<B>>, b: seq<Command<B>>)
    ensures Despawns(a + b) == Despawns(a) + Despawns(b)
    ensures TriggerTargets(a + b) == TriggerTargets(a) + TriggerTargets(b)
    ensures Spawned(a + b) == Spawned(a) + Spawned(b)
    decreases |b|
  {
    if b != [] {
      var b' := b[..|b| - 1];
      var ab := a + b;
      assert ab[..|ab| - 1] == a + b';
      assert ab[|ab| - 1] == b[|b| - 1];
      ProjectionsAppend(a, b');
    } else {
      assert a + b == a;
    }
  }

  /** A list that spawns one bundle, then issues commands that spawn and trigger nothing, then
      spawns another: it spawns exactly the two bundles and despawns what the middle does. */
  lemma SpawnAround<B>(first: B, middle: seq<Command<B>>, last: B)
    requires Spawned(middle) == [] && TriggerTargets(middle) == []
    ensures Spawned([Spawn(first)] + middle + [Spawn(last)]) == [first, last]
    ensures Despawns([Spawn(first)] + middle + [Spawn(last)]) == Despawns(middle)
    ensures TriggerTargets([Spawn(first)] + middle + [Spawn(last)]) == []
  {
    var front := [Spawn(first)] + middle;
    SingletonProjections(Spawn(first));
    SingletonProjections(Spawn(last));
    ProjectionsAppend([Spawn(first)], middle);
    ProjectionsAppend(front, [Spawn(last)]);
    assert Despawns(front) == Despawns(middle);
    assert Spawned(front) == [first];
    assert Spawned(front + [Spawn(last)]) == [first] + [last];
  }

  /** One more despawn adds its entity to the despawns and nothing to the other projections. */
  lemma AppendDespawn<B>(cmds: seq<Command<B>>, e: Entity)
    ensures Despawns(cmds + [Despawn(e)]) == Despawns(cmds) + [e]
    ensures Spawned(cmds + [Despawn(e)]) == Spawned(cmds)
    ensures TriggerTargets(cmds + [Despawn(e)]) == TriggerTargets(cmds)
  {
    var all := cmds + [Despawn(e)];
    assert all[..|all| - 1] == cmds;
  }

  /** A despawn followed by three spawns. */
  lemma DespawnThenSpawns<B>(e: Entity, a: B, b: B, c: B)
    ensures Despawns([Despawn(e), Spawn(a), Spawn(b), Spawn(c)]) == [e]
    ensures TriggerTargets([Despawn(e), Spawn(a), Spawn(b), Spawn(c)]) == []
    ensures Spawned([Despawn(e), Spawn(a), Spawn(b), Spawn(c)]) == [a, b, c]
  {
    var c1: seq<Command<B>> := [Despawn(e)];
    var c2 := c1 + [Spawn(a)];
    var c3 := c2 + [Spawn(b)];
    var c4 := c3 + [Spawn(c)];
    assert c2[..1] == c1 && c3[..2] == c2 && c4[..3] == c3;
    assert c1[..0] == [];
    assert Spawned(c1) == [] && Despawns(c1) == [e] && TriggerTargets(c1) == [];
    assert Spawned(c2) == [a] && Despawns(c2) == [e] && TriggerTargets(c2) == [];
    assert Spawned(c3) == [a, b] && Despawns(c3) == [e] && TriggerTargets(c3) == [];
    assert Spawned(c4) == [a, b, c] && Despawns(c4) == [e] && TriggerTargets(c4) == [];
    assert c4 == [Despawn(e), Spawn(a), Spawn(b), Spawn(c)];
  }

  /** The projections of a single command. */
  lemma SingletonProjections<B>(c: Command<B>)
    ensures Despawns([c]) == if c.Despawn? then [c.entity] else []
    ensures TriggerTargets([c]) == if c.Trigger? then [c.target] else []
    ensures Spawned([c]) == if c.Spawn? then [c.bundle] else []
  {
    assert [c][..0] == [];
  }


  /** The camera scroll position (`Viewpoint`), in [0, PLAYFIELD_WIDTH) once the ship has moved. */
  class Viewpoint {
    var position: real

    constructor ()
      ensures position == 0.0
    {
      position := 0.0;
    }
  }

  /** Position of a game element in the wrap-around world (`UnitPosition`). */
  class UnitPosition {
    var value: Vec2

    constructor (v: Vec2)
      ensures value == v
    {
      value := v;
    }
  }
}
