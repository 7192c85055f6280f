/** The game as the program runs it: systems that update the registry in place, in loops over
    its views, and the `Game` object that sequences them. */
module TankSystems {
  import opened Wrappers
  import opened Vectors
  import opened TankModel
  import opened CollisionModel
  import opened GameModel

  class GameState {
    var tickCount: nat
    var nextEntity: Entity
    var tanks: map<Entity, Tank>
    var bullets: map<Entity, Bullet>
    var collectibles: map<Entity, Collectible>
    var destructibles: map<Entity, Destructible>

    constructor ()
      ensures World() == EMPTY
    {
      tickCount, nextEntity := 0, 0;
      tanks, bullets, collectibles, destructibles := map[], map[], map[], map[];
    }

    function World(): World
      reads this
    {
      TankModel.World(tickCount, nextEntity, tanks, bullets, collectibles, destructibles)
    }

    method Create() returns (e: Entity)
      modifies this`nextEntity
      ensures e == old(nextEntity) && nextEntity == e + 1
    {
      e := nextEntity;
      nextEntity := nextEntity + 1;
    }
  }

  // ---------- MovementSystem ----------

  /** The tanks in `seen` have become what `target` says, the others are as before. */
  ghost predicate PartlyDone(before: map<Entity, Tank>, now: map<Entity, Tank>, target: map<Entity, Tank>,
                             seen: seq<Entity>) {
    && now.Keys == before.Keys == target.Keys
    && (forall e :: e in before ==> now[e] == if e in seen then target[e] else before[e])
  }

  lemma OneMoreDone(before: map<Entity, Tank>, now: map<Entity, Tank>, target: map<Entity, Tank>,
                    view: seq<Entity>, i: nat)
    requires Enumerates(view, before.Keys) && i < |view| && PartlyDone(before, now, target, view[..i])
    ensures view[i] in now && now[view[i]] == before[view[i]]
    ensures PartlyDone(before, now[view[i] := target[view[i]]], target, view[..i + 1])
  {
    assert view[..i + 1] == view[..i] + [view[i]];
    assert view[i] in view && view[i] !in view[..i];
  }

  lemma AllDone(before: map<Entity, Tank>, now: map<Entity, Tank>, target: map<Entity, Tank>, view: seq<Entity>)
    requires Enumerates(view, before.Keys) && PartlyDone(before, now, target, view[..|view|])
    ensures now == target
  {
    assert view[..|view|] == view;
  }

  method MovementUpdate(state: GameState, m: Maths, dt: real, view: seq<Entity>)
    requires Enumerates(view, state.tanks.Keys)
    requires forall e :: e in state.tanks ==> state.tanks[e].maxSpeed >= 0.0
    modifies state`tanks
    ensures state.tanks == MoveTanks(m, old(state.tanks), dt)
  {
    ghost var target := MoveTanks(m, state.tanks, dt);
    var i := 0;
    while i < |view|
      invariant 0 <= i <= |view|
      invariant PartlyDone(old(state.tanks), state.tanks, target, view[..i])
    {
      OneMoreDone(old(state.tanks), state.tanks, target, view, i);
      var e := view[i];
      var tank := MoveOne(m, state.tanks[e], dt);
      state.tanks := state.tanks[e := tank];
      i := i + 1;
    }
    AllDone(old(state.tanks), state.tanks, target, view);
  }

  lemma ScaleCommutes(k: real, v: Vec2)
    ensures Vec2(v.x * k, v.y * k) == Scale(k, v)
  {
  }

  method MoveOne(m: Maths, tank: Tank, dt: real) returns (moved: Tank)
    requires tank.maxSpeed >= 0.0
    ensures moved == MoveTank(m, tank, dt)
  {
    var linear := Vec2(tank.linear.x * tank.friction, tank.linear.y * tank.friction);
    ScaleCommutes(tank.friction, tank.linear);
    var angular := tank.angular * tank.friction;
    var speed := m.length(linear);
    if speed > tank.maxSpeed {
      linear := Scale(tank.maxSpeed / speed, linear);
    }
    var position := Vec2(tank.position.x + linear.x * dt, tank.position.y + linear.y * dt);
    ScaleCommutes(dt, linear);
    moved := tank.(linear := linear, angular := angular, position := position,
                   rotation := tank.rotation + angular * dt);
  }

  // ---------- InputSystem ----------

  method InputApply(state: GameState, m: Maths, peer: PeerID, input: InputState, view: seq<Entity>)
    requires Enumerates(view, state.tanks.Keys)
    modifies state`tanks
    ensures state.tanks == SteerTanks(m, old(state.tanks), peer, input)
  {
    ghost var target := SteerTanks(m, state.tanks, peer, input);
    var i := 0;
    while i < |view|
      invariant 0 <= i <= |view|
      invariant PartlyDone(old(state.tanks), state.tanks, target, view[..i])
    {
      OneMoreDone(old(state.tanks), state.tanks, target, view, i);
      var e := view[i];
      var tank := state.tanks[e];
      if Controls(tank, peer) {
        tank := SteerOne(m, tank, input);
        state.tanks := state.tanks[e := tank];
      } else {
        assert state.tanks[e := tank] == state.tanks;
      }
      i := i + 1;
    }
    AllDone(old(state.tanks), state.tanks, target, view);
  }

  method SteerOne(m: Maths, tank: Tank, input: InputState) returns (steered: Tank)
    ensures steered == SteerTank(m, tank, input)
  {
    var h := m.heading(tank.rotation);
    var thrust := Vec2((h.x * input.throttle) * tank.acceleration, (h.y * input.throttle) * tank.acceleration);
    assert thrust == Scale(input.throttle * tank.acceleration, h);
    steered := tank.(linear := Vec2(tank.linear.x + thrust.x, tank.linear.y + thrust.y),
                     angular := input.turn * tank.turnSpeed);
  }

  // ---------- ShootSystem ----------

  method ShootProcess(state: GameState, m: Maths, tick: nat, input: InputState, peer: PeerID, view: seq<Entity>)
    requires Enumerates(view, state.tanks.Keys) && tick == state.tickCount
    modifies state`bullets, state`nextEntity
    ensures state.World() == if input.shoot then FireAll(m, old(state.World()), peer, view) else old(state.World())
  {
    if !input.shoot {
      return;
    }
    var i := 0;
    while i < |view|
      invariant 0 <= i <= |view|
      invariant state.World() == FireAll(m, old(state.World()), peer, view[..i])
    {
      assert view[..i + 1][..i] == view[..i];
      var tank := state.tanks[view[i]];
      if Controls(tank, peer) {
        var bulletId := state.Create();
        var bullet := FiredBullet(m, tank, peer, tick);
        state.bullets := state.bullets[bulletId := bullet];
      }
      i := i + 1;
    }
    assert view[..i] == view;
  }

  method ShootUpdate(state: GameState, dt: real, currentTick: nat, view: seq<Entity>)
    requires Enumerates(view, state.bullets.Keys) && TicksInRange(state.bullets, currentTick)
    modifies state`bullets
    ensures state.bullets == AgeBullets(old(state.bullets), dt, currentTick)
  {
    var toRemove := AdvanceAndMark(state, dt, currentTick, view);
    var ok := DestroyBullets(state, toRemove);
    ghost var advanced := AdvanceBullets(old(state.bullets), dt);
    DestroyListedIff(advanced, toRemove);
    assert ok;  // every registry.destroy here acts on a live entity
    assert Listed(toRemove) == ExpiredBullets(old(state.bullets), currentTick);
  }

  /** The bullets in `seen` have been advanced, the others not yet, and `toRemove` lists the
      expired ones among those seen, each once. */
  ghost predicate Ageing(before: map<Entity, Bullet>, now: map<Entity, Bullet>, dt: real, currentTick: nat,
                         seen: seq<Entity>, toRemove: seq<Entity>)
    requires TicksInRange(before, currentTick)
  {
    && now.Keys == before.Keys && Distinct(toRemove)
    && (forall e :: e in before ==> now[e] == if e in seen then AdvanceBullet(before[e], dt) else before[e])
    && (forall e :: e in toRemove <==> e in seen && e in before && Expired(before[e], currentTick))
  }

  lemma AgeingNext(before: map<Entity, Bullet>, now: map<Entity, Bullet>, dt: real, currentTick: nat,
                   seen: seq<Entity>, toRemove: seq<Entity>, e: Entity)
    requires TicksInRange(before, currentTick) && e in before && e !in seen
    requires Ageing(before, now, dt, currentTick, seen, toRemove)
    ensures now[e] == before[e]
    ensures Ageing(before, now[e := AdvanceBullet(before[e], dt)], dt, currentTick, seen + [e],
                   if Expired(before[e], currentTick) then toRemove + [e] else toRemove)
  {
  }

  method AdvanceAndMark(state: GameState, dt: real, currentTick: nat, view: seq<Entity>) returns (toRemove: seq<Entity>)
    requires Enumerates(view, state.bullets.Keys) && TicksInRange(state.bullets, currentTick)
    modifies state`bullets
    ensures state.bullets == AdvanceBullets(old(state.bullets), dt)
    ensures Distinct(toRemove)
    ensures forall e :: e in toRemove <==> e in ExpiredBullets(old(state.bullets), currentTick)
  {
    toRemove := [];
    var i := 0;
    while i < |view|
      invariant 0 <= i <= |view|
      invariant Ageing(old(state.bullets), state.bullets, dt, currentTick, view[..i], toRemove)
    {
      var e := view[i];
      assert e !in view[..i] && view[..i + 1] == view[..i] + [e];
      AgeingNext(old(state.bullets), state.bullets, dt, currentTick, view[..i], toRemove, e);
      var bullet := state.bullets[e];
      state.bullets := state.bullets[e := AdvanceBullet(bullet, dt)];
      if Expired(bullet, currentTick) {
        toRemove := toRemove + [e];
      }
      i := i + 1;
    }
    assert view[..i] == view;
  }

  // ---------- CollisionSystem ----------

  method StrikeDestructibles(state: GameState, bulletEntity: Entity, bullet: Bullet, view: seq<Entity>,
                             log: seq<Entity>)
    returns (log': seq<Entity>)
    requires forall e :: e in view ==> e in state.destructibles
    modifies state`destructibles
    ensures Strikes(state.destructibles, log') ==
            StrikeAll(Strikes(old(state.destructibles), log), bulletEntity, bullet, view)
  {
    log' := log;
    var i := 0;
    while i < |view|
      invariant 0 <= i <= |view|
      invariant Strikes(state.destructibles, log') ==
                StrikeAll(Strikes(old(state.destructibles), log), bulletEntity, bullet, view[..i])
    {
      assert view[..i + 1][..i] == view[..i];
      var e := view[i];
      var d := state.destructibles[e];
      if d.active && HitsDestructible(bullet, d) {
        d := d.(health := d.health - BULLET_DAMAGE);
        if d.health <= 0.0 {
          d := d.(active := false);
        }
        state.destructibles := state.destructibles[e := d];
        log' := log' + [bulletEntity];
      }
      i := i + 1;
    }
    assert view[..i] == view;
  }

  method StrikeTanks(state: GameState, bulletEntity: Entity, bullet: Bullet, view: seq<Entity>, log: seq<Entity>)
    returns (log': seq<Entity>)
    requires forall e :: e in view ==> e in state.tanks
    ensures log' == TankHits(log, bulletEntity, bullet, state.tanks, view)
  {
    log' := log;
    for i := 0 to |view|
      invariant log' == TankHits(log, bulletEntity, bullet, state.tanks, view[..i])
    {
      assert view[..i + 1][..i] == view[..i];
      if HitsTank(bullet, state.tanks[view[i]]) {
        log' := log' + [bulletEntity];
      }
    }
    assert view[..|view|] == view;
  }

  method Collect(state: GameState, tank: Tank, view: seq<Entity>)
    requires forall e :: e in view ==> e in state.collectibles
    modifies state`collectibles
    ensures state.collectibles == CollectAll(old(state.collectibles), tank, view)
  {
    var i := 0;
    while i < |view|
      invariant 0 <= i <= |view|
      invariant state.collectibles == CollectAll(old(state.collectibles), tank, view[..i])
    {
      assert view[..i + 1][..i] == view[..i];
      var c := state.collectibles[view[i]];
      if c.active && Collects(tank, c) {
        state.collectibles := state.collectibles[view[i] := c.(active := false)];
      }
      i := i + 1;
    }
    assert view[..i] == view;
  }

  /** False when the destroy loop meets a bullet that is no longer alive. */
  method CollisionCheck(state: GameState, o: Orders) returns (ok: bool)
    requires OrdersFor(state.World(), o)
    modifies state`bullets, state`destructibles, state`collectibles
    ensures ok == Collide(old(state.World()), o).Some?
    ensures ok ==> Some(state.World()) == Collide(old(state.World()), o)
  {
    var bulletsToRemove := DestructiblePass(state, o);
    bulletsToRemove := TankPass(state, o, bulletsToRemove);
    CollectiblePass(state, o);
    ok := DestroyBullets(state, bulletsToRemove);
  }

  method DestructiblePass(state: GameState, o: Orders) returns (log: seq<Entity>)
    requires OrdersFor(state.World(), o)
    modifies state`destructibles
    ensures Strikes(state.destructibles, log) ==
            StrikePass(old(state.destructibles), old(state.bullets), o.bullets, o.destructibles)
  {
    log := [];
    var i := 0;
    while i < |o.bullets|
      invariant 0 <= i <= |o.bullets|
      invariant Strikes(state.destructibles, log) ==
                StrikePass(old(state.destructibles), state.bullets, o.bullets[..i], o.destructibles)
    {
      assert o.bullets[..i + 1][..i] == o.bullets[..i];
      var e := o.bullets[i];
      log := StrikeDestructibles(state, e, state.bullets[e], o.destructibles, log);
      i := i + 1;
    }
    assert o.bullets[..i] == o.bullets;
  }

  method TankPass(state: GameState, o: Orders, log: seq<Entity>) returns (log': seq<Entity>)
    requires forall e :: e in o.tanks ==> e in state.tanks
    requires forall e :: e in o.bullets ==> e in state.bullets
    ensures log' == CollisionModel.TankPass(log, state.bullets, o.bullets, state.tanks, o.tanks)
  {
    log' := log;
    for j := 0 to |o.bullets|
      invariant log' == CollisionModel.TankPass(log, state.bullets, o.bullets[..j], state.tanks, o.tanks)
    {
      assert o.bullets[..j + 1][..j] == o.bullets[..j];
      var e := o.bullets[j];
      log' := StrikeTanks(state, e, state.bullets[e], o.tanks, log');
    }
    assert o.bullets[..|o.bullets|] == o.bullets;
  }

  method CollectiblePass(state: GameState, o: Orders)
    requires forall e :: e in o.tanks ==> e in state.tanks
    requires forall e :: e in o.collectibles ==> e in state.collectibles
    modifies state`collectibles
    ensures state.collectibles == CollectPass(old(state.collectibles), state.tanks, o.tanks, o.collectibles)
  {
    var i := 0;
    while i < |o.tanks|
      invariant 0 <= i <= |o.tanks|
      invariant state.collectibles == CollectPass(old(state.collectibles), state.tanks, o.tanks[..i], o.collectibles)
    {
      assert o.tanks[..i + 1][..i] == o.tanks[..i];
      Collect(state, state.tanks[o.tanks[i]], o.collectibles);
      i := i + 1;
    }
    assert o.tanks[..i] == o.tanks;
  }

  method DestroyBullets(state: GameState, list: seq<Entity>) returns (ok: bool)
    modifies state`bullets
    ensures ok == DestroyListed(old(state.bullets), list).Some?
    ensures ok ==> state.bullets == DestroyListed(old(state.bullets), list).value
  {
    var i := 0;
    while i < |list|
      invariant 0 <= i <= |list|
      invariant DestroyListed(old(state.bullets), list[..i]) == Some(state.bullets)
    {
      assert list[..i + 1][..i] == list[..i];
      if list[i] !in state.bullets {
        DestroyStaysFailed(old(state.bullets), list, i + 1);
        return false;
      }
      state.bullets := state.bullets - {list[i]};
      i := i + 1;
    }
    assert list[..i] == list;
    return true;
  }

  lemma {:induction false} DestroyStaysFailed(bullets: map<Entity, Bullet>, list: seq<Entity>, i: nat)
    requires i <= |list| && DestroyListed(bullets, list[..i]).None?
    ensures DestroyListed(bullets, list).None?
  {
    if i == |list| {
      assert list[..i] == list;
    } else {
      var n := |list| - 1;
      assert list[..n][..i] == list[..i];
      DestroyStaysFailed(bullets, list[..n], i);
    }
  }

  // ---------- Game ----------

  class Game {
    const isServer: bool
    const maths: Maths
    const state: GameState

    constructor (p_isServer: bool, maths: Maths)
      ensures fresh(state) && isServer == p_isServer && this.maths == maths
      ensures state.World() == InitialWorld(isServer)
    {
      isServer := p_isServer;
      this.maths := maths;
      state := new GameState();
      new;
      if isServer {
        SetupInitialGameState();
      }
    }

    method SetupInitialGameState()
      modifies state
      ensures state.World() == SetUp(old(state.World()))
    {
      var e := SpawnCollectible(Vec2(10.0, 10.0));
      e := SpawnCollectible(Vec2(-10.0, 15.0));
      e := SpawnCollectible(Vec2(15.0, -10.0));
      e := SpawnDestructible(Vec2(20.0, 0.0));
      e := SpawnDestructible(Vec2(-20.0, 5.0));
      e := SpawnDestructible(Vec2(0.0, -25.0));
    }

    /** One fixed timestep. `movement` and `ageing` are the orders of the first two loops and
        cannot be seen in the result; `o` holds the orders of the collision pass. */
    method Step(movement: seq<Entity>, ageing: seq<Entity>, o: Orders) returns (ok: bool)
      requires Steppable(state.World())
      requires Enumerates(movement, state.tanks.Keys) && Enumerates(ageing, state.bullets.Keys)
      requires OrdersFor(BeforeCollision(maths, state.World()), o)
      modifies state
      ensures ok == Collide(BeforeCollision(maths, old(state.World())), o).Some?
      ensures ok ==> Next(maths, old(state.World()), GameModel.Step(o), state.World())
    {
      state.tickCount := state.tickCount + 1;
      MovementUpdate(state, maths, TIMESTEP, movement);
      ShootUpdate(state, TIMESTEP, state.tickCount, ageing);
      assert state.World() == BeforeCollision(maths, old(state.World()));
      ok := CollisionCheck(state, o);
    }

    method QueueInput(input: InputState, peerId: PeerID, steering: seq<Entity>, view: seq<Entity>)
      requires Enumerates(steering, state.tanks.Keys) && Enumerates(view, state.tanks.Keys)
      modifies state
      ensures Next(maths, old(state.World()), Input(input, peerId, view), state.World())
    {
      InputApply(state, maths, Truncate32(peerId), input, steering);
      if input.shoot {
        ShootProcess(state, maths, state.tickCount, input, peerId, view);
      }
    }

    method SpawnTank(position: Vec2, rotation: real, peerId: PeerID) returns (e: Entity)
      modifies state
      ensures e == old(state.nextEntity)
      ensures Next(maths, old(state.World()), AddTank(position, rotation, peerId), state.World())
    {
      e := state.Create();
      state.tanks := state.tanks[e := NewTank(position, rotation, peerId)];
    }

    method SpawnBullet(position: Vec2, rotation: real, peerId: PeerID) returns (e: Entity)
      modifies state
      ensures e == old(state.nextEntity)
      ensures Next(maths, old(state.World()), AddBullet(position, rotation, peerId), state.World())
    {
      e := state.Create();
      state.bullets := state.bullets[e := NewBullet(position, rotation, peerId)];
    }

    method SpawnCollectible(position: Vec2) returns (e: Entity)
      modifies state
      ensures e == old(state.nextEntity)
      ensures Next(maths, old(state.World()), AddCollectible(position), state.World())
    {
      e := state.Create();
      state.collectibles := state.collectibles[e := NewCollectible(position)];
    }

    method SpawnDestructible(position: Vec2) returns (e: Entity)
      modifies state
      ensures e == old(state.nextEntity)
      ensures Next(maths, old(state.World()), AddDestructible(position), state.World())
    {
      e := state.Create();
      state.destructibles := state.destructibles[e := NewDestructible(position)];
    }

    method DestroyEntity(e: Entity)
      modifies state
      ensures Next(maths, old(state.World()), Destroy(e), state.World())
    {
      if e in state.World().Entities() {
        state.tanks, state.bullets := state.tanks - {e}, state.bullets - {e};
        state.collectibles, state.destructibles := state.collectibles - {e}, state.destructibles - {e};
      } else {
        assert GameModel.DestroyEntity(state.World(), e) == state.World();
      }
    }
  }
}
