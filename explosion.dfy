/** Explosion effects (`explosion.rs`): the effect timer, the shower of shrapnel fragments and the
    expanding flare, with the shared materials they fade. */
module Explosion {
  import opened Arith
  import opened Ecs
  import opened Random

  // ---------------------------------------------------------------------------------------------
  // Components

  /** The `EffectTimer` component: the lifetime of an effect and the time spent so far. */
  datatype EffectTimer = EffectTimer(total: real, elapsed: real)

  /** `EffectTimer::t`: the elapsed time as a proportion of the total. */
  function T(timer: EffectTimer): (t: real)
    requires timer.total > 0.0
    ensures Times(t, timer.total) == timer.elapsed
    ensures 0.0 <= timer.elapsed < timer.total ==> 0.0 <= t < 1.0
  {
    QuotientBounds(timer.elapsed, timer.total);
    timer.elapsed / timer.total
  }

  lemma QuotientBounds(e: real, total: real)
    requires total > 0.0
    ensures Times(e / total, total) == e
    ensures 0.0 <= e < total ==> 0.0 <= e / total < 1.0
  {
    var t := e / total;
    assert t * total == e;
    assert Times(t, total) == e;
    if 0.0 <= e < total {
      if t < 0.0 { MulLeftStrict(total, t, 0.0); }
      if t >= 1.0 { MulLeftMono(total, 1.0, t); }
    }
  }

  /** The `ShrapnelEffect` component. */
  datatype ShrapnelEffect = ShrapnelEffect(velocity: Vec2)

  /** The `FlareEffect` component. */
  datatype FlareEffect = FlareEffect(size: real, velocity: Vec2)

  const NumFragments: nat := 64
  const ShrapnelLifetime: real := 0.8
  const FlareLifetime: real := 0.2

  /** The timer `on_add_flare` installs. */
  const FlareTimer: EffectTimer := EffectTimer(FlareLifetime, 0.0)

  /** A colour as four components. */
  datatype Rgba = Rgba(r: real, g: real, b: real, a: real)

  type MaterialId = nat

  /** The parts of a `StandardMaterial` the effects change. */
  datatype StandardMaterial = StandardMaterial(baseColor: Rgba, emissive: Rgba)

  /** The `Assets<StandardMaterial>` resource. */
  class MaterialStore {
    var assets: map<MaterialId, StandardMaterial>

    constructor (assets: map<MaterialId, StandardMaterial>)
      ensures this.assets == assets
    {
      this.assets := assets;
    }
  }

  // ---------------------------------------------------------------------------------------------
  // Lifetimes

  /** Whether the tick of length `dt` ends the effect. */
  predicate Expires(timer: EffectTimer, dt: real)
  {
    timer.elapsed + dt >= timer.total
  }

  function Advance(timer: EffectTimer, dt: real): EffectTimer
  {
    timer.(elapsed := timer.elapsed + dt)
  }

  /** A timer after `k` ticks of the same length. */
  function AdvanceBy(timer: EffectTimer, dt: real, k: nat): EffectTimer
  {
    if k == 0 then timer else Advance(AdvanceBy(timer, dt, k - 1), dt)
  }

  lemma {:induction false} AdvanceByElapsed(timer: EffectTimer, dt: real, k: nat)
    ensures AdvanceBy(timer, dt, k) == EffectTimer(timer.total, timer.elapsed + Times(k as real, dt))
  {
    if k > 0 {
      AdvanceByElapsed(timer, dt, k - 1);
      NextMultiple(k - 1, dt);
    }
  }

  lemma NextMultiple(n: nat, d: real)
    ensures Times((n + 1) as real, d) == Times(n as real, d) + d
  {
  }

  /** An effect started with a fresh timer of lifetime `total` is despawned on tick `k` (counting
      from 1) exactly when the time elapsed over those `k` ticks reaches `total`; with a positive
      `dt` every earlier tick leaves it alive. */
  lemma DespawnTick(total: real, dt: real, k: nat)
    requires k >= 1
    ensures Expires(AdvanceBy(EffectTimer(total, 0.0), dt, k - 1), dt) <==> Times(k as real, dt) >= total
  {
    AdvanceByElapsed(EffectTimer(total, 0.0), dt, k - 1);
    NextMultiple(k - 1, dt);
  }

  /** Effects spawn nothing; the bundle type of their command lists. */
  datatype EffectBundle = NoBundle

  /** The despawns one tick of an effect system issues, for effects given as their entity and
      timer in query order: one despawn per effect whose timer runs out on this tick. */
  function EffectDespawns(effects: seq<(Entity, EffectTimer)>, dt: real): (cmds: seq<Command<EffectBundle>>)
    ensures |cmds| <= |effects|
  {
    if effects == [] then []
    else
      var e := effects[|effects| - 1];
      EffectDespawns(effects[..|effects| - 1], dt) + (if Expires(e.1, dt) then [Despawn(e.0)] else [])
  }

  /** An entity is despawned exactly when one of the effects is that entity and its timer runs
      out on this tick. */
  lemma {:induction false} EffectDespawned(effects: seq<(Entity, EffectTimer)>, dt: real, e: Entity)
    ensures Despawn(e) in EffectDespawns(effects, dt)
            <==> exists i :: 0 <= i < |effects| && effects[i].0 == e && Expires(effects[i].1, dt)
  {
    if effects != [] {
      var init := effects[..|effects| - 1];
      EffectDespawned(init, dt, e);
      if exists i :: 0 <= i < |effects| && effects[i].0 == e && Expires(effects[i].1, dt) {
        var i :| 0 <= i < |effects| && effects[i].0 == e && Expires(effects[i].1, dt);
        if i < |init| {
          assert init[i] == effects[i];
        }
      }
      if exists i :: 0 <= i < |init| && init[i].0 == e && Expires(init[i].1, dt) {
        var i :| 0 <= i < |init| && init[i].0 == e && Expires(init[i].1, dt);
        assert effects[i] == init[i];
      }
    }
  }

  /** One more effect of the query adds its despawn exactly when its timer runs out. */
  lemma EffectDespawnsStep(effects: seq<(Entity, EffectTimer)>, i: nat, dt: real)
    requires i < |effects|
    ensures EffectDespawns(effects[..i + 1], dt)
            == EffectDespawns(effects[..i], dt) + (if Expires(effects[i].1, dt) then [Despawn(effects[i].0)] else [])
  {
    assert effects[..i + 1][..i] == effects[..i];
  }

  // ---------------------------------------------------------------------------------------------
  // on_add_shrapnel

  /** The seven draws one fragment takes: its rotation (three Euler angles), the direction and
      magnitude of its velocity, and the two angles of its spin axis. The trigonometry that turns
      them into a quaternion, a velocity and a unit vector is left out. */
  datatype FragmentSpawn = FragmentSpawn(
    rotX: real, rotY: real, rotZ: real, angle: real, speed: real, theta: real, phi: real)

  const DrawsPerFragment: nat := 7

  /** The fragment spawned from the draws starting at index `n`. */
  function FragmentFrom(draws: nat -> Unit, n: nat): (f: FragmentSpawn)
    ensures 0.2 <= f.speed < 0.6
    ensures 0.0 <= f.angle < 2.0 * Pi && 0.0 <= f.theta < 2.0 * Pi && 0.0 <= f.phi < Pi
    ensures 0.0 <= f.rotX < 2.0 * Pi && 0.0 <= f.rotY < Pi && 0.0 <= f.rotZ < 2.0 * Pi
  {
    FragmentSpawn(
      Scale(draws(n), 0.0, Pi * 2.0), Scale(draws(n + 1), 0.0, Pi), Scale(draws(n + 2), 0.0, Pi * 2.0),
      Scale(draws(n + 3), 0.0, Pi * 2.0), Scale(draws(n + 4), 0.2, 0.6),
      Scale(draws(n + 5), 0.0, 2.0 * Pi), Scale(draws(n + 6), 0.0, Pi))
  }

  /** `on_add_shrapnel`: a timer of 0.8 seconds and exactly 64 fragments, drawn one after another
      from a clone of the shared generator, which is itself left untouched. */
  method OnAddShrapnel(random: Rng) returns (timer: EffectTimer, fragments: seq<FragmentSpawn>)
    ensures timer == EffectTimer(ShrapnelLifetime, 0.0)
    ensures |fragments| == NumFragments
    ensures forall i :: 0 <= i < NumFragments ==>
              fragments[i] == FragmentFrom(random.draws, random.next + 7 * i)
  {
    var rng := new Rng.Clone(random);
    ghost var draws, start := random.draws, random.next;
    timer := EffectTimer(ShrapnelLifetime, 0.0);
    fragments := [];
    for i := 0 to NumFragments
      invariant |fragments| == i
      invariant rng.draws == draws && rng.next == start + 7 * i
      invariant forall k :: 0 <= k < i ==> fragments[k] == FragmentFrom(draws, start + 7 * k)
    {
      var fragment := DrawFragment(rng);
      assert fragment == FragmentFrom(draws, start + 7 * i);
      fragments := fragments + [fragment];
    }
  }

  /** One iteration of `on_add_shrapnel`'s loop: the seven draws of one fragment, in order. */
  method DrawFragment(rng: Rng) returns (f: FragmentSpawn)
    modifies rng
    ensures rng.next == old(rng.next) + DrawsPerFragment
    ensures f == FragmentFrom(rng.draws, old(rng.next))
  {
    var rotX, rotY, rotZ := DrawRotation(rng);
    var angle, speed, theta, phi := DrawMotion(rng);
    f := FragmentSpawn(rotX, rotY, rotZ, angle, speed, theta, phi);
  }

  /** The first three draws of a fragment: its initial rotation about x, y and z. */
  method DrawRotation(rng: Rng) returns (rotX: real, rotY: real, rotZ: real)
    modifies rng
    ensures rng.next == old(rng.next) + 3
    ensures rotX == Scale(rng.draws(old(rng.next)), 0.0, Pi * 2.0)
    ensures rotY == Scale(rng.draws(old(rng.next) + 1), 0.0, Pi)
    ensures rotZ == Scale(rng.draws(old(rng.next) + 2), 0.0, Pi * 2.0)
  {
    rotX := rng.RandomRange(0.0, Pi * 2.0);
    rotY := rng.RandomRange(0.0, Pi);
    rotZ := rng.RandomRange(0.0, Pi * 2.0);
  }

  /** The last four draws of a fragment: the heading of its velocity, its speed, and the two
      angles of its spin axis (`random_unit_vector`). */
  method DrawMotion(rng: Rng) returns (angle: real, speed: real, theta: real, phi: real)
    modifies rng
    ensures rng.next == old(rng.next) + 4
    ensures angle == Scale(rng.draws(old(rng.next)), 0.0, Pi * 2.0)
    ensures speed == Scale(rng.draws(old(rng.next) + 1), 0.2, 0.6)
    ensures theta == Scale(rng.draws(old(rng.next) + 2), 0.0, 2.0 * Pi)
    ensures phi == Scale(rng.draws(old(rng.next) + 3), 0.0, Pi)
  {
    angle := rng.RandomRange(0.0, Pi * 2.0);
    speed := rng.RandomRange(0.2, 0.6);
    theta := rng.RandomRange(0.0, 2.0 * Pi);
    phi := rng.RandomRange(0.0, Pi);
  }

  // ---------------------------------------------------------------------------------------------
  // update_shrapnel

  /** One fragment: its velocity, the x, y of its translation and its material (rotation left out). */
  datatype Fragment = Fragment(velocity: Vec2, translation: Vec2, material: MaterialId)

  /** The fragment query's storage, by entity. */
  class FragmentStore {
    var rows: map<Entity, Fragment>

    constructor (rows: map<Entity, Fragment>)
      ensures this.rows == rows
    {
      this.rows := rows;
    }
  }

  function MoveFragment(f: Fragment, dt: real): Fragment
  {
    f.(translation := Vec2(f.translation.x + Times(f.velocity.x, dt), f.translation.y + Times(f.velocity.y, dt)))
  }

  /** The fragments after moving each of `children` that is a fragment, in order. */
  function MoveFragments(frags: map<Entity, Fragment>, children: seq<Entity>, dt: real): (r: map<Entity, Fragment>)
    ensures r.Keys == frags.Keys
    ensures forall c :: c in r ==> r[c].velocity == frags[c].velocity && r[c].material == frags[c].material
  {
    if children == [] then frags
    else
      var m := MoveFragments(frags, children[..|children| - 1], dt);
      var c := children[|children| - 1];
      if c in m then m[c := MoveFragment(m[c], dt)] else m
  }

  /** With distinct children, every child that is a fragment moves by its velocity times `dt`
      and every other fragment stays where it is. */
  lemma {:induction false} MoveFragmentsEach(frags: map<Entity, Fragment>, children: seq<Entity>, dt: real, c: Entity)
    requires forall i, j :: 0 <= i < j < |children| ==> children[i] != children[j]
    requires c in frags
    ensures MoveFragments(frags, children, dt)[c] == if c in children then MoveFragment(frags[c], dt) else frags[c]
  {
    if children != [] {
      var init := children[..|children| - 1];
      MoveFragmentsEach(frags, init, dt, c);
      assert children == init + [children[|children| - 1]];
      if c == children[|children| - 1] {
        assert c !in init by {
          forall i | 0 <= i < |init| ensures init[i] != c { assert init[i] == children[i]; }
        }
      }
    }
  }

  /** The material of the first of `children` that is a fragment, if any. */
  function FirstFragmentMaterial(children: seq<Entity>, frags: map<Entity, Fragment>): (r: Option<MaterialId>)
    ensures r.None? <==> forall i :: 0 <= i < |children| ==> children[i] !in frags
    ensures r.Some? ==> exists i :: 0 <= i < |children| && children[i] in frags && frags[children[i]].material == r.value
                                    && forall j :: 0 <= j < i ==> children[j] !in frags
  {
    if children == [] then None
    else
      var init := children[..|children| - 1];
      var c := children[|children| - 1];
      var p := FirstFragmentMaterial(init, frags);
      assert forall i :: 0 <= i < |init| ==> init[i] == children[i];
      if p.Some? then p else if c in frags then Some(frags[c].material) else None
  }

  /** One more child of a shrapnel effect: it moves if it is a fragment, and it supplies the
      faded material if it is the first fragment. */
  lemma FragmentLoopStep(children: seq<Entity>, j: nat, frags: map<Entity, Fragment>,
                         mats: map<MaterialId, StandardMaterial>, fade: real, dt: real)
    requires j < |children|
    ensures var m := MoveFragments(frags, children[..j], dt);
            var c := children[j];
            MoveFragments(frags, children[..j + 1], dt) == if c in m then m[c := MoveFragment(m[c], dt)] else m
    ensures var p := FirstFragmentMaterial(children[..j], frags);
            var c := children[j];
            FirstFragmentMaterial(children[..j + 1], frags)
              == if p.Some? then p else if c in frags then Some(frags[c].material) else None
    ensures var p := FirstFragmentMaterial(children[..j], frags);
            var c := children[j];
            ShrapnelMaterials(mats, children[..j + 1], frags, fade)
              == if p.Some? || c !in frags then ShrapnelMaterials(mats, children[..j], frags, fade)
                 else if frags[c].material in mats then mats[frags[c].material := FadeMaterial(mats[frags[c].material], fade)]
                 else mats
  {
    assert children[..j + 1][..j] == children[..j];
  }

  /** The faded look of the shrapnel material: emissive `(f^3, f^4, 0, 1)` and alpha `min(4f, 1)`. */
  function FadeMaterial(m: StandardMaterial, fade: real): (r: StandardMaterial)
    ensures r.baseColor == m.baseColor.(a := Min(fade * 4.0, 1.0))
    ensures 0.0 < fade <= 1.0 ==>
              && 0.0 < r.baseColor.a <= 1.0
              && 0.0 < r.emissive.g <= r.emissive.r <= 1.0
              && r.emissive.b == 0.0 && r.emissive.a == 1.0
  {
    PowersOfFade(fade);
    var cube := Times(Times(fade, fade), fade);
    StandardMaterial(m.baseColor.(a := Min(fade * 4.0, 1.0)), Rgba(cube, Times(cube, fade), 0.0, 1.0))
  }

  /** For a fade in (0, 1], its cube and fourth power lie in (0, 1] and the fourth is the smaller. */
  lemma PowersOfFade(fade: real)
    ensures 0.0 < fade <= 1.0 ==>
              var cube := Times(Times(fade, fade), fade);
              0.0 < Times(cube, fade) <= cube <= 1.0
  {
    if 0.0 < fade <= 1.0 {
      var square := Times(fade, fade);
      TimesLeftStrict(fade, 0.0, fade);
      TimesLeftMono(fade, fade, 1.0);
      var cube := Times(square, fade);
      TimesLeftStrict(square, 0.0, fade);
      TimesLeftMono(square, fade, 1.0);
      TimesLeftStrict(cube, 0.0, fade);
      TimesLeftMono(cube, fade, 1.0);
    }
  }

  /** The materials after the shrapnel material of one effect is faded: only the material of the
      first resolvable fragment is written, and only if it exists. */
  function ShrapnelMaterials(mats: map<MaterialId, StandardMaterial>, children: seq<Entity>,
                             frags: map<Entity, Fragment>, fade: real): (r: map<MaterialId, StandardMaterial>)
    ensures r.Keys == mats.Keys
    ensures forall k :: k in mats && r[k] != mats[k] ==> FirstFragmentMaterial(children, frags) == Some(k)
  {
    match FirstFragmentMaterial(children, frags)
    case None => mats
    case Some(id) => if id in mats then mats[id := FadeMaterial(mats[id], fade)] else mats
  }

  /** One row of the shrapnel query. */
  datatype ShrapnelRow = ShrapnelRow(
    entity: Entity, effect: ShrapnelEffect, timer: EffectTimer, position: Vec2, children: seq<Entity>)

  /** One shrapnel effect after one tick: the timer always advances; the effect moves only when it
      is not expiring. */
  function StepShrapnel(row: ShrapnelRow, dt: real): (r: ShrapnelRow)
    ensures r.entity == row.entity && r.effect == row.effect && r.children == row.children
    ensures r.timer == Advance(row.timer, dt)
    ensures Expires(row.timer, dt) ==> r.position == row.position
    ensures !Expires(row.timer, dt) ==>
              r.position == Vec2(row.position.x + Times(row.effect.velocity.x, dt),
                                 row.position.y + Times(row.effect.velocity.y, dt))
  {
    var timer := Advance(row.timer, dt);
    if timer.elapsed >= timer.total then row.(timer := timer)
    else
      row.(timer := timer,
           position := Vec2(row.position.x + Times(row.effect.velocity.x, dt),
                            row.position.y + Times(row.effect.velocity.y, dt)))
  }

  /** The fade of a live effect: one minus its progress. */
  function Fade(timer: EffectTimer): (f: real)
    requires timer.total > 0.0
    ensures 0.0 <= timer.elapsed < timer.total ==> 0.0 < f <= 1.0
  {
    1.0 - T(timer)
  }

  predicate PositiveTotals(rows: seq<ShrapnelRow>)
  {
    forall i :: 0 <= i < |rows| ==> rows[i].timer.total > 0.0
  }

  /** Fragments and materials after one tick of the given shrapnel effects, in query order. */
  function ShrapnelWorld(rows: seq<ShrapnelRow>, frags: map<Entity, Fragment>,
                         mats: map<MaterialId, StandardMaterial>, dt: real): (w: (map<Entity, Fragment>, map<MaterialId, StandardMaterial>))
    requires PositiveTotals(rows)
    ensures w.0.Keys == frags.Keys && w.1.Keys == mats.Keys
  {
    if rows == [] then (frags, mats)
    else
      var w := ShrapnelWorld(rows[..|rows| - 1], frags, mats, dt);
      EffectWorld(rows[|rows| - 1], w.0, w.1, dt)
  }

  /** Fragments and materials after one tick of one shrapnel effect: untouched if it expires,
      otherwise its fragments move and its material fades. */
  function EffectWorld(row: ShrapnelRow, frags: map<Entity, Fragment>,
                       mats: map<MaterialId, StandardMaterial>, dt: real): (w: (map<Entity, Fragment>, map<MaterialId, StandardMaterial>))
    requires row.timer.total > 0.0
    ensures w.0.Keys == frags.Keys && w.1.Keys == mats.Keys
  {
    if Expires(row.timer, dt) then (frags, mats)
    else
      (MoveFragments(frags, row.children, dt),
       ShrapnelMaterials(mats, row.children, frags, Fade(Advance(row.timer, dt))))
  }

  /** The entity and timer of each shrapnel effect, in query order. */
  function ShrapnelTimers(rows: seq<ShrapnelRow>): (ps: seq<(Entity, EffectTimer)>)
    ensures |ps| == |rows| && forall i :: 0 <= i < |rows| ==> ps[i] == (rows[i].entity, rows[i].timer)
  {
    seq(|rows|, i requires 0 <= i < |rows| => (rows[i].entity, rows[i].timer))
  }

  /** The fragment loop of one live shrapnel effect: every resolvable child fragment moves, and
      the shared material is written at most once, for the first resolvable fragment. */
  method UpdateFragments(children: seq<Entity>, fragments: FragmentStore, materials: MaterialStore, fade: real, dt: real)
    modifies fragments, materials
    ensures fragments.rows == MoveFragments(old(fragments.rows), children, dt)
    ensures materials.assets == ShrapnelMaterials(old(materials.assets), children, old(fragments.rows), fade)
  {
    ghost var frags := fragments.rows;
    var materialUpdated := false;
    for j := 0 to |children|
      invariant fragments.rows == MoveFragments(frags, children[..j], dt)
      invariant materialUpdated <==> FirstFragmentMaterial(children[..j], frags).Some?
      invariant materials.assets == ShrapnelMaterials(old(materials.assets), children[..j], frags, fade)
    {
      var child := children[j];
      FragmentLoopStep(children, j, frags, old(materials.assets), fade, dt);
      if child in fragments.rows {
        var fragment := fragments.rows[child];
        if !materialUpdated {
          if fragment.material in materials.assets {
            materials.assets := materials.assets[fragment.material := FadeMaterial(materials.assets[fragment.material], fade)];
          }
          materialUpdated := true;
        }
        fragments.rows := fragments.rows[child := MoveFragment(fragment, dt)];
      }
    }
    assert children[..|children|] == children;
  }

  /** One iteration of `update_shrapnel`'s loop, for one effect. */
  method UpdateOneShrapnel(row: ShrapnelRow, fragments: FragmentStore, materials: MaterialStore, dt: real)
    returns (r: ShrapnelRow, despawned: bool)
    requires row.timer.total > 0.0
    modifies fragments, materials
    ensures r == StepShrapnel(row, dt)
    ensures despawned == Expires(row.timer, dt)
    ensures (fragments.rows, materials.assets) == EffectWorld(row, old(fragments.rows), old(materials.assets), dt)
  {
    var timer := row.timer.(elapsed := row.timer.elapsed + dt);
    if timer.elapsed >= timer.total {
      return row.(timer := timer), true;
    }
    var position := Vec2(row.position.x + Times(row.effect.velocity.x, dt), row.position.y + Times(row.effect.velocity.y, dt));
    var fade := 1.0 - T(timer);
    UpdateFragments(row.children, fragments, materials, fade, dt);
    return row.(timer := timer, position := position), false;
  }

  /** `update_shrapnel`. Every effect's timer advances; an effect whose time is up is despawned
      and neither moves nor touches its fragments; the others move, move their fragments and fade
      their material, as `ShrapnelWorld` describes. */
  method UpdateShrapnel(effects: array<ShrapnelRow>, fragments: FragmentStore, materials: MaterialStore, dt: real)
    returns (cmds: seq<Command<EffectBundle>>)
    requires PositiveTotals(effects[..])
    modifies effects, fragments, materials
    ensures forall i :: 0 <= i < effects.Length ==> effects[i] == StepShrapnel(old(effects[i]), dt)
    ensures cmds == EffectDespawns(ShrapnelTimers(old(effects[..])), dt)
    ensures fragments.rows == ShrapnelWorld(old(effects[..]), old(fragments.rows), old(materials.assets), dt).0
    ensures materials.assets == ShrapnelWorld(old(effects[..]), old(fragments.rows), old(materials.assets), dt).1
  {
    ghost var rows, frags, mats := effects[..], fragments.rows, materials.assets;
    ghost var timers := ShrapnelTimers(rows);
    cmds := [];
    for i := 0 to effects.Length
      invariant forall k :: 0 <= k < i ==> effects[k] == StepShrapnel(rows[k], dt)
      invariant forall k :: i <= k < effects.Length ==> effects[k] == rows[k]
      invariant cmds == EffectDespawns(timers[..i], dt)
      invariant (fragments.rows, materials.assets) == ShrapnelWorld(rows[..i], frags, mats, dt)
    {
      ShrapnelStep(rows, i, frags, mats, dt);
      EffectDespawnsStep(timers, i, dt);
      var row := effects[i];
      assert timers[i] == (row.entity, row.timer);
      ghost var before := effects[..];
      var next, despawned := UpdateOneShrapnel(row, fragments, materials, dt);
      assert effects[..] == before;
      if despawned {
        cmds := cmds + [Despawn(row.entity)];
      }
      effects[i] := next;
      assert effects[..] == before[i := StepShrapnel(rows[i], dt)];
    }
    assert rows[..effects.Length] == rows;
    assert timers[..effects.Length] == timers;
  }

  /** One more effect of the query: its world update follows those of the ones before it. */
  lemma ShrapnelStep(rows: seq<ShrapnelRow>, i: nat, frags: map<Entity, Fragment>,
                     mats: map<MaterialId, StandardMaterial>, dt: real)
    requires PositiveTotals(rows) && i < |rows|
    ensures ShrapnelWorld(rows[..i + 1], frags, mats, dt)
            == var w := ShrapnelWorld(rows[..i], frags, mats, dt); EffectWorld(rows[i], w.0, w.1, dt)
  {
    assert rows[..i + 1][..i] == rows[..i];
  }

  // ---------------------------------------------------------------------------------------------
  // update_flare

  /** One row of the flare query: entity, effect, timer, material, world position and the x, y
      scale of its transform. */
  datatype FlareRow = FlareRow(
    entity: Entity, effect: FlareEffect, timer: EffectTimer, material: MaterialId, position: Vec2, scale: Vec2)

  /** The flare's colour at progress `t`: white fading through yellow to transparent. */
  function FlareColor(t: real): (c: Rgba)
    ensures c.r == 1.0
    ensures 0.0 <= t < 1.0 ==> 0.0 < c.b <= c.g <= 1.0 && c.a == c.b
  {
    Rgba(1.0, 1.0 - t * 0.5, 1.0 - t, 1.0 - t)
  }

  /** One flare after one tick: the timer always advances; an expiring flare changes nothing
      else; a live one moves and grows by twice `dt`, and its transform scale follows its size. */
  function StepFlare(row: FlareRow, dt: real): (r: FlareRow)
    ensures r.entity == row.entity && r.material == row.material && r.effect.velocity == row.effect.velocity
    ensures r.timer == Advance(row.timer, dt)
    ensures Expires(row.timer, dt) ==> r.position == row.position && r.effect == row.effect && r.scale == row.scale
    ensures !Expires(row.timer, dt) ==>
              && r.position == Vec2(row.position.x + Times(row.effect.velocity.x, dt),
                                    row.position.y + Times(row.effect.velocity.y, dt))
              && r.effect.size == row.effect.size + dt * 2.0
              && r.scale == Vec2(r.effect.size, r.effect.size)
  {
    var timer := Advance(row.timer, dt);
    if timer.elapsed >= timer.total then row.(timer := timer)
    else
      var size := row.effect.size + dt * 2.0;
      row.(timer := timer,
           position := Vec2(row.position.x + Times(row.effect.velocity.x, dt),
                            row.position.y + Times(row.effect.velocity.y, dt)),
           effect := row.effect.(size := size),
           scale := Vec2(size, size))
  }

  predicate FlareTotalsPositive(rows: seq<FlareRow>)
  {
    forall i :: 0 <= i < |rows| ==> rows[i].timer.total > 0.0
  }

  /** The materials after one tick of the given flares: each live flare whose material exists
      sets its base colour from its progress. */
  function FlareMaterials(rows: seq<FlareRow>, mats: map<MaterialId, StandardMaterial>, dt: real): (r: map<MaterialId, StandardMaterial>)
    requires FlareTotalsPositive(rows)
    ensures r.Keys == mats.Keys
  {
    if rows == [] then mats
    else FlareMaterial(rows[|rows| - 1], FlareMaterials(rows[..|rows| - 1], mats, dt), dt)
  }

  /** The entity and timer of each flare, in query order. */
  function FlareTimers(rows: seq<FlareRow>): (ps: seq<(Entity, EffectTimer)>)
    ensures |ps| == |rows| && forall i :: 0 <= i < |rows| ==> ps[i] == (rows[i].entity, rows[i].timer)
  {
    seq(|rows|, i requires 0 <= i < |rows| => (rows[i].entity, rows[i].timer))
  }

  /** The material a live flare colours, after one tick of that flare. */
  function FlareMaterial(row: FlareRow, mats: map<MaterialId, StandardMaterial>, dt: real): (r: map<MaterialId, StandardMaterial>)
    requires row.timer.total > 0.0
    ensures r.Keys == mats.Keys
    ensures forall k :: k in mats && k != row.material ==> r[k] == mats[k]
  {
    if !Expires(row.timer, dt) && row.material in mats then
      mats[row.material := mats[row.material].(baseColor := FlareColor(T(Advance(row.timer, dt))))]
    else mats
  }

  /** One more flare of the query: its material update follows those of the ones before it. */
  lemma FlareStep(rows: seq<FlareRow>, i: nat, mats: map<MaterialId, StandardMaterial>, dt: real)
    requires FlareTotalsPositive(rows) && i < |rows|
    ensures FlareMaterials(rows[..i + 1], mats, dt) == FlareMaterial(rows[i], FlareMaterials(rows[..i], mats, dt), dt)
  {
    assert rows[..i + 1][..i] == rows[..i];
  }

  /** `update_flare`. */
  method UpdateFlare(flares: array<FlareRow>, materials: MaterialStore, dt: real) returns (cmds: seq<Command<EffectBundle>>)
    requires FlareTotalsPositive(flares[..])
    modifies flares, materials
    ensures forall i :: 0 <= i < flares.Length ==> flares[i] == StepFlare(old(flares[i]), dt)
    ensures cmds == EffectDespawns(FlareTimers(old(flares[..])), dt)
    ensures materials.assets == FlareMaterials(old(flares[..]), old(materials.assets), dt)
  {
    ghost var rows, mats := flares[..], materials.assets;
    cmds := [];
    for i := 0 to flares.Length
      invariant forall k :: 0 <= k < i ==> flares[k] == StepFlare(rows[k], dt)
      invariant forall k :: i <= k < flares.Length ==> flares[k] == rows[k]
      invariant cmds == EffectDespawns(FlareTimers(rows)[..i], dt)
      invariant materials.assets == FlareMaterials(rows[..i], mats, dt)
    {
      FlareStep(rows, i, mats, dt);
      EffectDespawnsStep(FlareTimers(rows), i, dt);
      var row := flares[i];
      ghost var before := flares[..];
      var next, despawned := UpdateOneFlare(row, materials, dt);
      if despawned {
        cmds := cmds + [Despawn(row.entity)];
      }
      flares[i] := next;
      assert flares[..] == before[i := StepFlare(rows[i], dt)];
    }
    assert rows[..flares.Length] == rows;
    assert FlareTimers(rows)[..flares.Length] == FlareTimers(rows);
  }

  /** The body of `update_flare`'s loop for one flare. */
  method UpdateOneFlare(row: FlareRow, materials: MaterialStore, dt: real) returns (r: FlareRow, despawned: bool)
    requires row.timer.total > 0.0
    modifies materials
    ensures r == StepFlare(row, dt)
    ensures despawned == Expires(row.timer, dt)
    ensures materials.assets == FlareMaterial(row, old(materials.assets), dt)
  {
    var timer := row.timer.(elapsed := row.timer.elapsed + dt);
    if timer.elapsed >= timer.total {
      return row.(timer := timer), true;
    }
    var position := Vec2(row.position.x + Times(row.effect.velocity.x, dt), row.position.y + Times(row.effect.velocity.y, dt));
    if row.material in materials.assets {
      var t := T(timer);
      materials.assets := materials.assets[row.material := materials.assets[row.material].(baseColor := Rgba(1.0, 1.0 - t * 0.5, 1.0 - t, 1.0 - t))];
    }
    var size := row.effect.size + dt * 2.0;
    return row.(timer := timer, position := position, effect := row.effect.(size := size), scale := Vec2(size, size)), false;
  }
}
