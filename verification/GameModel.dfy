/** The game's operations as a step relation on worlds: what `step`, `queueInput`, the spawns
    and `destroyEntity` do, for any order in which the registry's views are visited. */
module GameModel {
  import opened Wrappers
  import opened Vectors
  import opened TankModel
  import opened CollisionModel

  function MoveTanks(m: Maths, tanks: map<Entity, Tank>, dt: real): map<Entity, Tank>
    requires forall e :: e in tanks ==> tanks[e].maxSpeed >= 0.0
  {
    map e | e in tanks :: MoveTank(m, tanks[e], dt)
  }

  function SteerTanks(m: Maths, tanks: map<Entity, Tank>, peer: PeerID, input: InputState): map<Entity, Tank> {
    map e | e in tanks :: if Controls(tanks[e], peer) then SteerTank(m, tanks[e], input) else tanks[e]
  }

  /** No bullet's spawn tick is more than a 64-bit range ahead of `tick`. */
  ghost predicate TicksInRange(bullets: map<Entity, Bullet>, tick: nat) {
    forall e :: e in bullets ==> bullets[e].spawnTick - tick <= UINT64_RANGE
  }

  function ExpiredBullets(bullets: map<Entity, Bullet>, tick: nat): set<Entity>
    requires TicksInRange(bullets, tick)
  {
    set e | e in bullets && Expired(bullets[e], tick)
  }

  function AdvanceBullets(bullets: map<Entity, Bullet>, dt: real): map<Entity, Bullet> {
    map e | e in bullets :: AdvanceBullet(bullets[e], dt)
  }

  /** Bullets advance, and those at the end of their lifetime are destroyed. */
  function AgeBullets(bullets: map<Entity, Bullet>, dt: real, tick: nat): map<Entity, Bullet>
    requires TicksInRange(bullets, tick)
  {
    AdvanceBullets(bullets, dt) - ExpiredBullets(bullets, tick)
  }

  ghost predicate Steppable(w: World) {
    && (forall e :: e in w.tanks ==> w.tanks[e].maxSpeed >= 0.0)
    && TicksInRange(w.bullets, w.tick + 1)
  }

  /** A step up to the collision pass: the tick, the movement, the bullets. */
  function BeforeCollision(m: Maths, w: World): World
    requires Steppable(w)
  {
    w.(tick := w.tick + 1,
       tanks := MoveTanks(m, w.tanks, TIMESTEP),
       bullets := AgeBullets(w.bullets, TIMESTEP, w.tick + 1))
  }

  /** One bullet for each tank in the view that `peer` controls, in view order. */
  function FireAll(m: Maths, w: World, peer: PeerID, view: seq<Entity>): (r: World)
    requires forall e :: e in view ==> e in w.tanks
    ensures r.tanks == w.tanks && r.tick == w.tick
    ensures r.collectibles == w.collectibles && r.destructibles == w.destructibles
    ensures r.next >= w.next
  {
    if view == [] then w
    else
      var e := view[|view| - 1];
      var before := FireAll(m, w, peer, view[..|view| - 1]);
      if Controls(w.tanks[e], peer)
      then before.(next := before.next + 1,
                   bullets := before.bullets[before.next := FiredBullet(m, w.tanks[e], peer, w.tick)])
      else before
  }

  function QueueInput(m: Maths, w: World, input: InputState, peer: PeerID, view: seq<Entity>): World
    requires forall e :: e in view ==> e in w.tanks
  {
    var steered := w.(tanks := SteerTanks(m, w.tanks, Truncate32(peer), input));
    if input.shoot then FireAll(m, steered, peer, view) else steered
  }

  function DestroyEntity(w: World, e: Entity): World {
    w.(tanks := w.tanks - {e}, bullets := w.bullets - {e},
       collectibles := w.collectibles - {e}, destructibles := w.destructibles - {e})
  }

  function Spawned(w: World): World {
    w.(next := w.next + 1)
  }

  function SpawnCollectible(w: World, position: Vec2): World {
    Spawned(w).(collectibles := w.collectibles[w.next := NewCollectible(position)])
  }

  function SpawnDestructible(w: World, position: Vec2): World {
    Spawned(w).(destructibles := w.destructibles[w.next := NewDestructible(position)])
  }

  function SpawnTank(w: World, position: Vec2, rotation: real, peer: PeerID): World {
    Spawned(w).(tanks := w.tanks[w.next := NewTank(position, rotation, peer)])
  }

  function SpawnBullet(w: World, position: Vec2, rotation: real, peer: PeerID): World {
    Spawned(w).(bullets := w.bullets[w.next := NewBullet(position, rotation, peer)])
  }

  const EMPTY := World(0, 0, map[], map[], map[], map[])

  /** Three collectibles and three destructibles more. */
  function SetUp(w: World): World {
    var c1 := SpawnCollectible(w, Vec2(10.0, 10.0));
    var c2 := SpawnCollectible(c1, Vec2(-10.0, 15.0));
    var c3 := SpawnCollectible(c2, Vec2(15.0, -10.0));
    var d1 := SpawnDestructible(c3, Vec2(20.0, 0.0));
    var d2 := SpawnDestructible(d1, Vec2(-20.0, 5.0));
    SpawnDestructible(d2, Vec2(0.0, -25.0))
  }

  /** A server game starts set up, a client game empty. */
  function InitialWorld(isServer: bool): World {
    if isServer then SetUp(EMPTY) else EMPTY
  }

  /** A call on the game, with the view orders the registry happens to use. */
  datatype Event =
    | Step(orders: Orders)
    | Input(input: InputState, peer: PeerID, view: seq<Entity>)
    | AddTank(position: Vec2, rotation: real, peer: PeerID)
    | AddBullet(position: Vec2, rotation: real, peer: PeerID)
    | AddCollectible(position: Vec2)
    | AddDestructible(position: Vec2)
    | Destroy(entity: Entity)

  /** `w'` follows from `w` by the call. A step whose collision pass destroys a bullet twice
      has no successor: the registry's behaviour is undefined from there on. */
  ghost predicate Next(m: Maths, w: World, ev: Event, w': World) {
    match ev
    case Step(orders) =>
      && Steppable(w)
      && OrdersFor(BeforeCollision(m, w), orders)
      && Collide(BeforeCollision(m, w), orders) == Some(w')
    case Input(input, peer, view) =>
      Enumerates(view, w.tanks.Keys) && w' == QueueInput(m, w, input, peer, view)
    case AddTank(position, rotation, peer) => w' == SpawnTank(w, position, rotation, peer)
    case AddBullet(position, rotation, peer) => w' == SpawnBullet(w, position, rotation, peer)
    case AddCollectible(position) => w' == SpawnCollectible(w, position)
    case AddDestructible(position) => w' == SpawnDestructible(w, position)
    case Destroy(entity) => w' == DestroyEntity(w, entity)
  }

  /** A run: the worlds before and after each of the calls. */
  ghost predicate IsRun(m: Maths, ws: seq<World>, evs: seq<Event>) {
    && m.Valid()
    && |ws| == |evs| + 1
    && (ws[0] == InitialWorld(false) || ws[0] == InitialWorld(true))
    && forall i :: 0 <= i < |evs| ==> Next(m, ws[i], evs[i], ws[i + 1])
  }
}
