/** The entities of the tank game and what each system does to one of them, on values.
    Coordinates are exact reals; square roots and sines come from a library contract. */
module TankModel {
  import opened RealMath
  import opened Vectors

  /** An EnTT identifier, version included: never handed out twice. */
  type Entity = nat

  const TIMESTEP: real := 1.0 / 60.0
  const UINT32_RANGE := 0x1_0000_0000
  const UINT64_RANGE := 0x1_0000_0000_0000_0000

  type PeerID = n: int | 0 <= n < UINT64_RANGE

  datatype Tank = Tank(position: Vec2, rotation: real, linear: Vec2, angular: real,
                       maxSpeed: real, acceleration: real, turnSpeed: real, friction: real,
                       isPlayer: bool, peerId: PeerID)

  datatype Bullet = Bullet(position: Vec2, rotation: real, linear: Vec2,
                           speed: real, lifetime: real, ownerPeerId: PeerID, spawnTick: nat)

  datatype Collectible = Collectible(position: Vec2, value: real, radius: real, active: bool)

  datatype Destructible = Destructible(position: Vec2, health: real, maxHealth: real, radius: real, active: bool)

  datatype InputState = InputState(throttle: real, turn: real, shoot: bool)

  /** What the simulation asks of its mathematics library: lengths and unit headings. */
  datatype Maths = Maths(length: Vec2 -> real, heading: real -> Vec2) {
    ghost predicate Valid() {
      && (forall v: Vec2 :: length(v) >= 0.0 && length(v) * length(v) == NormSq(v))
      && (forall r: real :: NormSq(heading(r)) == 1.0)
    }
  }

  /** The whole simulation state: the tick counter and the registry, one map per entity type. */
  datatype World = World(tick: nat, next: Entity, tanks: map<Entity, Tank>, bullets: map<Entity, Bullet>,
                         collectibles: map<Entity, Collectible>, destructibles: map<Entity, Destructible>) {
    function Entities(): set<Entity> {
      tanks.Keys + bullets.Keys + collectibles.Keys + destructibles.Keys
    }

    /** The identifiers handed out so far are below `next`. */
    ghost predicate WellFormed() {
      && (forall e :: e in tanks ==> e < next)
      && (forall e :: e in bullets ==> e < next)
      && (forall e :: e in collectibles ==> e < next)
      && (forall e :: e in destructibles ==> e < next)
    }
  }

  /** `order` visits exactly the entities of a view, each once; EnTT chooses it. */
  ghost predicate Enumerates(order: seq<Entity>, keys: set<Entity>) {
    && (forall e :: e in order <==> e in keys)
    && (forall i, j :: 0 <= i < j < |order| ==> order[i] != order[j])
  }

  // ---------- movement and input ----------

  /** Friction, then the clamp to the maximum speed, then one Euler step. */
  function MoveTank(m: Maths, t: Tank, dt: real): Tank
    requires t.maxSpeed >= 0.0
  {
    var slowed := Scale(t.friction, t.linear);
    var speed := m.length(slowed);
    var linear := if speed > t.maxSpeed then Scale(t.maxSpeed / speed, slowed) else slowed;
    var angular := t.angular * t.friction;
    t.(linear := linear, angular := angular,
       position := Add(t.position, Scale(dt, linear)),
       rotation := t.rotation + angular * dt)
  }

  predicate Controls(t: Tank, peer: int) {
    t.isPlayer && t.peerId == peer
  }

  function SteerTank(m: Maths, t: Tank, input: InputState): Tank {
    var h := m.heading(t.rotation);
    t.(linear := Add(t.linear, Scale(input.throttle * t.acceleration, h)),
       angular := input.turn * t.turnSpeed)
  }

  /** Conversion of a 64-bit peer id to the 32-bit parameter of the input and spawn systems. */
  function Truncate32(peer: PeerID): (r: PeerID)
    ensures r < UINT32_RANGE && (peer - r) % UINT32_RANGE == 0
    ensures r == peer <==> peer < UINT32_RANGE
  {
    peer % UINT32_RANGE
  }

  // ---------- bullets ----------

  const MUZZLE_DISTANCE := 3.0
  const BULLET_SPEED := 400.0

  function FiredBullet(m: Maths, t: Tank, peer: PeerID, tick: nat): Bullet {
    var h := m.heading(t.rotation);
    Bullet(Add(t.position, Scale(MUZZLE_DISTANCE, h)), t.rotation, Scale(BULLET_SPEED, h),
           BULLET_SPEED, 2.0, peer, tick)
  }

  function AdvanceBullet(b: Bullet, dt: real): Bullet {
    b.(position := Add(b.position, Scale(dt, b.linear)))
  }

  /** Subtraction of 64-bit unsigned tick counts. */
  function TickDifference(a: nat, b: nat): nat
    requires b - a <= UINT64_RANGE
  {
    if b <= a then a - b else a - b + UINT64_RANGE
  }

  /** Ticks a bullet lives: its lifetime at sixty ticks a second, truncated. */
  function LifetimeTicks(b: Bullet): int {
    (b.lifetime * 60.0).Floor
  }

  predicate Expired(b: Bullet, tick: nat)
    requires b.spawnTick - tick <= UINT64_RANGE
  {
    TickDifference(tick, b.spawnTick) >= LifetimeTicks(b)
  }

  // ---------- spawning ----------

  function NewTank(position: Vec2, rotation: real, peer: PeerID): Tank {
    Tank(position, rotation, ORIGIN, 0.0, 100.0, 20.0, 2.0, 0.98, true, Truncate32(peer))
  }

  function NewBullet(position: Vec2, rotation: real, peer: PeerID): Bullet {
    Bullet(position, rotation, ORIGIN, 400.0, 2.0, Truncate32(peer), 0)
  }

  function NewCollectible(position: Vec2): Collectible {
    Collectible(position, 10.0, 1.0, true)
  }

  function NewDestructible(position: Vec2): Destructible {
    Destructible(position, 100.0, 100.0, 2.0, true)
  }

  // ---------- collisions ----------

  const BULLET_RADIUS := 0.5
  const TANK_RADIUS := 1.5
  const BULLET_DAMAGE := 25.0

  /** The distance between `p` and `q` is below `r`. */
  predicate Near(p: Vec2, q: Vec2, r: real) {
    r > 0.0 && DistSq(p, q) < r * r
  }

  lemma NearIsDistance(m: Maths, p: Vec2, q: Vec2, r: real)
    requires m.Valid()
    ensures Near(p, q, r) <==> m.length(Sub(p, q)) < r
  {
    var d := m.length(Sub(p, q));
    if r > 0.0 {
      SquareLt(d, r);
    }
  }

  predicate HitsDestructible(b: Bullet, d: Destructible) {
    Near(b.position, d.position, d.radius + BULLET_RADIUS)
  }

  predicate HitsTank(b: Bullet, t: Tank) {
    b.ownerPeerId != t.peerId && Near(b.position, t.position, TANK_RADIUS + BULLET_RADIUS)
  }

  predicate Collects(t: Tank, c: Collectible) {
    Near(t.position, c.position, c.radius + TANK_RADIUS)
  }

  /** One hit of an active destructible. */
  function Damage(d: Destructible): Destructible {
    var health := d.health - BULLET_DAMAGE;
    d.(health := health, active := health > 0.0)
  }
}
