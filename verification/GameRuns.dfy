/** The invariant of the simulation, kept by every call, and what follows for bullets over
    whole runs of steps, inputs, spawns and destructions. */
module GameRuns {
  import opened Wrappers
  import opened Vectors
  import opened TankModel
  import opened CollisionModel
  import opened GameModel

  const BULLET_LIFETIME: nat := 120

  ghost predicate StandardTank(t: Tank) {
    && t.maxSpeed == 100.0 && t.acceleration == 20.0 && t.turnSpeed == 2.0 && t.friction == 0.98
    && t.isPlayer && t.peerId < UINT32_RANGE
  }

  /** A bullet that a tank fired, as opposed to one placed by `spawnBullet`. */
  ghost predicate Fired(b: Bullet) {
    NormSq(b.linear) == BULLET_SPEED * BULLET_SPEED
  }

  ghost predicate StandardBullet(b: Bullet, tick: nat) {
    && b.lifetime == 2.0
    && b.spawnTick <= tick
    && (Fired(b) ==> tick - b.spawnTick < BULLET_LIFETIME)
    && (!Fired(b) ==> b.linear == ORIGIN && b.spawnTick == 0)
  }

  /** Health comes in quarters, and a destructible is active exactly while some is left. */
  ghost predicate StandardDestructible(d: Destructible) {
    && d.health in {0.0, 25.0, 50.0, 75.0, 100.0}
    && d.radius == 2.0 && d.maxHealth == 100.0
    && (d.active <==> d.health > 0.0)
  }

  ghost predicate Invariant(w: World) {
    && w.WellFormed()
    && (forall e :: e in w.tanks ==> StandardTank(w.tanks[e]))
    && (forall e :: e in w.bullets ==> StandardBullet(w.bullets[e], w.tick))
    && (forall e :: e in w.destructibles ==> StandardDestructible(w.destructibles[e]))
  }

  lemma InitialInvariant(isServer: bool)
    ensures Invariant(InitialWorld(isServer))
  {
  }

  // ---------- each call keeps the invariant ----------

  lemma AgeingKeeps(bullets: map<Entity, Bullet>, tick: nat)
    requires forall e :: e in bullets ==> StandardBullet(bullets[e], tick)
    ensures TicksInRange(bullets, tick + 1)
    ensures forall e :: e in AgeBullets(bullets, TIMESTEP, tick + 1) ==>
      e in bullets && AgeBullets(bullets, TIMESTEP, tick + 1)[e] == AdvanceBullet(bullets[e], TIMESTEP)
      && StandardBullet(bullets[e], tick + 1) && tick + 1 - bullets[e].spawnTick < BULLET_LIFETIME
  {
    forall e | e in bullets
      ensures Expired(bullets[e], tick + 1) <==> tick + 1 - bullets[e].spawnTick >= BULLET_LIFETIME
    {
      assert LifetimeTicks(bullets[e]) == BULLET_LIFETIME;
    }
  }

  lemma HitsToKillStandard(h: real)
    requires h in {25.0, 50.0, 75.0, 100.0}
    ensures h == 25.0 * (HitsToKill(h) as real) && 1 <= HitsToKill(h) <= 4
  {
  }

  lemma StruckKeeps(d: Destructible, n: nat)
    requires StandardDestructible(d)
    ensures StandardDestructible(Struck(d, n))
    ensures Struck(d, n).health == d.health - 25.0 * (HitsTaken(d, n) as real)
  {
    if d.active {
      HitsToKillStandard(d.health);
    }
  }

  lemma CollisionKeeps(w: World, o: Orders, w': World)
    requires OrdersFor(w, o) && Collide(w, o) == Some(w')
    requires Invariant(w)
    ensures Invariant(w')
    ensures w'.tanks == w.tanks && w'.tick == w.tick && w'.next == w.next
    ensures forall e :: e in w'.bullets ==> e in w.bullets && w'.bullets[e] == w.bullets[e]
    ensures w'.destructibles.Keys == w.destructibles.Keys && w'.collectibles.Keys == w.collectibles.Keys
  {
    DestroysOnlyLiveIff(w, o);
    forall e | e in w.destructibles ensures StandardDestructible(w'.destructibles[e]) {
      PrefixClosedForm(w.destructibles, w.bullets, o.bullets, o.destructibles, e);
      StruckKeeps(w.destructibles[e], |InRangeOf(w.bullets, o.bullets, w.destructibles[e])|);
    }
  }

  lemma BeforeCollisionKeeps(m: Maths, w: World)
    requires Invariant(w)
    ensures Steppable(w)
    ensures Invariant(BeforeCollision(m, w))
  {
    AgeingKeeps(w.bullets, w.tick);
    InvariantIsSteppable(w);
    var tanks := BeforeCollision(m, w).tanks;
    forall e | e in tanks ensures StandardTank(tanks[e]) {
      assert StandardTank(w.tanks[e]);
    }
  }

  lemma InvariantIsSteppable(w: World)
    requires Invariant(w)
    ensures Steppable(w)
  {
    forall e | e in w.tanks ensures w.tanks[e].maxSpeed >= 0.0 {
      assert StandardTank(w.tanks[e]);
    }
    assert forall e :: e in w.bullets ==> StandardBullet(w.bullets[e], w.tick);
  }

  lemma StepKeeps(m: Maths, w: World, o: Orders, w': World)
    requires Invariant(w) && Next(m, w, Step(o), w')
    ensures Invariant(w') && w'.tick == w.tick + 1 && w'.next == w.next
    ensures w'.tanks == MoveTanks(m, w.tanks, TIMESTEP)
    ensures forall e :: e in w'.bullets ==>
      && e in w.bullets && w'.bullets[e] == AdvanceBullet(w.bullets[e], TIMESTEP)
      && w'.tick - w'.bullets[e].spawnTick < BULLET_LIFETIME
    ensures w'.destructibles.Keys == w.destructibles.Keys && w'.collectibles.Keys == w.collectibles.Keys
  {
    BeforeCollisionKeeps(m, w);
    AgeingKeeps(w.bullets, w.tick);
    CollisionKeeps(BeforeCollision(m, w), o, w');
  }

  lemma FiredBulletKeeps(m: Maths, t: Tank, peer: PeerID, tick: nat)
    requires m.Valid()
    ensures Fired(FiredBullet(m, t, peer, tick))
    ensures StandardBullet(FiredBullet(m, t, peer, tick), tick)
  {
    NormSqOfScale(BULLET_SPEED, m.heading(t.rotation));
  }

  lemma {:induction false} FireKeeps(m: Maths, w: World, peer: PeerID, view: seq<Entity>)
    requires m.Valid() && Invariant(w) && forall e :: e in view ==> e in w.tanks
    ensures var r := FireAll(m, w, peer, view);
      && Invariant(r)
      && (forall e :: e in w.bullets ==> e in r.bullets && r.bullets[e] == w.bullets[e])
      && (forall e :: e in r.bullets && e !in w.bullets ==>
            w.next <= e < r.next && Fired(r.bullets[e]) && r.bullets[e].spawnTick == w.tick)
  {
    if view != [] {
      var n, e := |view| - 1, view[|view| - 1];
      FireKeeps(m, w, peer, view[..n]);
      FiredBulletKeeps(m, w.tanks[e], peer, w.tick);
      assert peer < UINT64_RANGE;
    }
  }

  lemma InputKeeps(m: Maths, w: World, input: InputState, peer: PeerID, view: seq<Entity>)
    requires m.Valid() && Invariant(w) && forall e :: e in view ==> e in w.tanks
    ensures var r := QueueInput(m, w, input, peer, view);
      && Invariant(r) && r.tick == w.tick && r.next >= w.next && r.tanks.Keys == w.tanks.Keys
      && r.destructibles == w.destructibles && r.collectibles == w.collectibles
      && (forall e :: e in w.bullets ==> e in r.bullets && r.bullets[e] == w.bullets[e])
      && (forall e :: e in r.bullets && e !in w.bullets ==>
            w.next <= e < r.next && Fired(r.bullets[e]) && r.bullets[e].spawnTick == w.tick)
  {
    var steered := w.(tanks := SteerTanks(m, w.tanks, Truncate32(peer), input));
    forall e | e in steered.tanks ensures StandardTank(steered.tanks[e]) && e < w.next {
      assert e in w.tanks;
    }
    FireKeeps(m, steered, peer, view);
  }

  lemma OtherKeepsInvariant(m: Maths, w: World, ev: Event, w': World)
    requires Invariant(w) && Next(m, w, ev, w') && !ev.Step? && !ev.Input?
    ensures Invariant(w') && w'.tick == w.tick && w'.next >= w.next
  {
  }

  /** Calls that are neither steps nor inputs only add or remove whole entities. */
  lemma OtherKeeps(m: Maths, w: World, ev: Event, w': World)
    requires Invariant(w) && Next(m, w, ev, w') && !ev.Step? && !ev.Input?
    ensures Invariant(w') && w'.tick == w.tick && w'.next >= w.next
    ensures forall e :: e in w'.tanks ==> if e in w.tanks then w'.tanks[e] == w.tanks[e] else e >= w.next
    ensures forall e :: e in w'.bullets ==>
      if e in w.bullets then w'.bullets[e] == w.bullets[e] else e >= w.next && !Fired(w'.bullets[e])
    ensures forall e :: e in w'.destructibles ==>
      if e in w.destructibles then w'.destructibles[e] == w.destructibles[e]
      else e >= w.next && w'.destructibles[e].health == 100.0
    ensures forall e :: e in w'.collectibles ==>
      if e in w.collectibles then w'.collectibles[e] == w.collectibles[e] else e >= w.next
  {
    OtherKeepsInvariant(m, w, ev, w');
  }

  /** What one call does to the bullets: they fly on, stay, or are new. */
  lemma NextBullets(m: Maths, w: World, ev: Event, w': World, e: Entity)
    requires m.Valid() && Invariant(w) && Next(m, w, ev, w') && e in w'.bullets
    ensures e in w.bullets ==> w'.bullets[e] == if ev.Step? then AdvanceBullet(w.bullets[e], TIMESTEP) else w.bullets[e]
    ensures e !in w.bullets ==> e >= w.next
    ensures e !in w.bullets && Fired(w'.bullets[e]) ==> ev.Input? && w'.bullets[e].spawnTick == w.tick
  {
    match ev
    case Step(o) => StepKeeps(m, w, o, w');
    case Input(input, peer, view) => InputKeeps(m, w, input, peer, view);
    case _ => OtherKeeps(m, w, ev, w');
  }

  lemma NextKeeps(m: Maths, w: World, ev: Event, w': World)
    requires m.Valid() && Invariant(w) && Next(m, w, ev, w')
    ensures Invariant(w') && w.next <= w'.next
    ensures w'.tick == w.tick + if ev.Step? then 1 else 0
  {
    match ev
    case Step(o) => StepKeeps(m, w, o, w');
    case Input(input, peer, view) => InputKeeps(m, w, input, peer, view);
    case _ => OtherKeeps(m, w, ev, w');
  }

  /** Every reachable world satisfies the invariant. */
  lemma {:induction false} RunInvariant(m: Maths, ws: seq<World>, evs: seq<Event>, i: nat)
    requires IsRun(m, ws, evs) && i < |ws|
    ensures Invariant(ws[i])
    decreases i
  {
    if i == 0 {
      InitialInvariant(false);
      InitialInvariant(true);
    } else {
      RunInvariant(m, ws, evs, i - 1);
      NextKeeps(m, ws[i - 1], evs[i - 1], ws[i]);
    }
  }

  ghost predicate NotEarlier(w: World, w': World) {
    w.tick <= w'.tick && w.next <= w'.next
  }

  lemma {:induction false} NotEarlierInRow(ws: seq<World>, i: nat, j: nat)
    requires i <= j < |ws| && forall k :: 0 <= k < |ws| - 1 ==> NotEarlier(ws[k], ws[k + 1])
    ensures NotEarlier(ws[i], ws[j])
    decreases j
  {
    if i < j {
      NotEarlierInRow(ws, i, j - 1);
      assert NotEarlier(ws[j - 1], ws[j - 1 + 1]);
    }
  }

  lemma TimeAdvances(m: Maths, ws: seq<World>, evs: seq<Event>, i: nat, j: nat)
    requires IsRun(m, ws, evs) && i <= j < |ws|
    ensures ws[i].tick <= ws[j].tick && ws[i].next <= ws[j].next
  {
    forall k | 0 <= k < |ws| - 1 ensures NotEarlier(ws[k], ws[k + 1]) {
      RunInvariant(m, ws, evs, k);
      NextKeeps(m, ws[k], evs[k], ws[k + 1]);
    }
    NotEarlierInRow(ws, i, j);
  }

  // ---------- ageing ----------

  /** Spawn ticks never lie ahead, so the unsigned age is the true age; it is below 120 for every
      bullet that survives a step, and for every fired bullet at all times. */
  lemma BulletAges(m: Maths, ws: seq<World>, evs: seq<Event>, i: nat, e: Entity)
    requires IsRun(m, ws, evs) && i < |ws| && e in ws[i].bullets
    ensures var b := ws[i].bullets[e];
      && b.spawnTick <= ws[i].tick
      && TickDifference(ws[i].tick, b.spawnTick) == ws[i].tick - b.spawnTick
      && (Fired(b) ==> ws[i].tick - b.spawnTick < 120)
      && (i > 0 && evs[i - 1].Step? ==> ws[i].tick - b.spawnTick < 120)
  {
    RunInvariant(m, ws, evs, i);
    if i > 0 && evs[i - 1].Step? {
      RunInvariant(m, ws, evs, i - 1);
      StepKeeps(m, ws[i - 1], evs[i - 1].orders, ws[i]);
    }
  }

  // ---------- trajectories ----------

  /** The bullet after `n` further ticks of straight flight. */
  function Flown(b: Bullet, n: nat): Bullet {
    b.(position := Add(b.position, Scale((n as real) * TIMESTEP, b.linear)))
  }

  lemma FliesOn(b: Bullet, n: nat)
    ensures Flown(b, 0) == b
    ensures AdvanceBullet(Flown(b, n), TIMESTEP) == Flown(b, n + 1)
  {
    ScaleSum((n as real) * TIMESTEP, TIMESTEP, b.linear);
    assert ((n + 1) as real) * TIMESTEP == (n as real) * TIMESTEP + TIMESTEP;
  }

  lemma ScaleSum(k: real, l: real, a: Vec2)
    ensures Scale(k + l, a) == Add(Scale(k, a), Scale(l, a))
  {
    assert (k + l) * a.x == k * a.x + l * a.x;
    assert (k + l) * a.y == k * a.y + l * a.y;
  }

  ghost predicate FlownTo(w: World, w': World, e: Entity) {
    && e in w.bullets && e in w'.bullets && w.tick <= w'.tick
    && w'.bullets[e] == Flown(w.bullets[e], w'.tick - w.tick)
  }

  lemma FlightStep(b: Bullet, n: nat, now: Bullet, later: Bullet, stepped: bool)
    requires now == Flown(b, n)
    requires later == if stepped then AdvanceBullet(now, TIMESTEP) else now
    ensures later == Flown(b, n + if stepped then 1 else 0)
  {
    FliesOn(b, n);
  }

  lemma FliesFurther(m: Maths, start: World, w: World, ev: Event, w': World, e: Entity)
    requires m.Valid() && Invariant(w) && Next(m, w, ev, w') && e in w'.bullets && FlownTo(start, w, e)
    ensures FlownTo(start, w', e)
  {
    NextKeeps(m, w, ev, w');
    NextBullets(m, w, ev, w', e);
    FlightStep(start.bullets[e], w.tick - start.tick, w.bullets[e], w'.bullets[e], ev.Step?);
  }

  lemma WasAlive(m: Maths, ws: seq<World>, evs: seq<Event>, i: nat, k: nat, e: Entity)
    requires IsRun(m, ws, evs) && i <= k < |evs| && e < ws[i].next && e in ws[k + 1].bullets
    ensures Invariant(ws[k]) && e in ws[k].bullets
  {
    RunInvariant(m, ws, evs, k);
    TimeAdvances(m, ws, evs, i, k);
    NextBullets(m, ws[k], evs[k], ws[k + 1], e);
  }

  /** A bullet alive at two moments has flown straight between them, and was alive throughout. */
  lemma {:induction false} BulletTrajectory(m: Maths, ws: seq<World>, evs: seq<Event>, i: nat, j: nat, e: Entity)
    requires IsRun(m, ws, evs) && i <= j < |ws|
    requires e < ws[i].next && e in ws[j].bullets
    ensures FlownTo(ws[i], ws[j], e)
    decreases j
  {
    if i == j {
      FliesOn(ws[i].bullets[e], 0);
    } else {
      WasAlive(m, ws, evs, i, j - 1, e);
      BulletTrajectory(m, ws, evs, i, j - 1, e);
      FliesFurther(m, ws[i], ws[j - 1], evs[j - 1], ws[j], e);
    }
  }

  /** The bullets as the collision pass of step `k` sees them. */
  function Colliding(m: Maths, w: World): map<Entity, Bullet>
    requires Steppable(w)
  {
    AgeBullets(w.bullets, TIMESTEP, w.tick + 1)
  }

  /** A bullet fired by the input at `i` is seen by the collision pass of any later step `k` on its
      straight line and no further than 119 ticks of flight from its muzzle. */
  lemma RangeBound(m: Maths, ws: seq<World>, evs: seq<Event>, i: nat, k: nat, e: Entity)
    requires IsRun(m, ws, evs) && i < k < |evs|
    requires evs[i].Input? && e !in ws[i].bullets && e in ws[i + 1].bullets
    requires evs[k].Step?
    ensures Steppable(ws[k]) && ws[i].tick <= ws[k].tick
    ensures e in Colliding(m, ws[k]) ==>
      var b, muzzle := Colliding(m, ws[k])[e], ws[i + 1].bullets[e];
      && b == Flown(muzzle, ws[k].tick + 1 - ws[i].tick)
      && ws[k].tick + 1 - ws[i].tick <= 119
      && NormSq(muzzle.linear) == 400.0 * 400.0
      && Within(Sub(b.position, muzzle.position), 119.0 * (400.0 / 60.0))
  {
    TimeAdvances(m, ws, evs, i, k);
    RunInvariant(m, ws, evs, k);
    BeforeCollisionKeeps(m, ws[k]);
    if e in Colliding(m, ws[k]) {
      CollidingIsAdvanced(m, ws[k], e);
      RunInvariant(m, ws, evs, i);
      NextBullets(m, ws[i], evs[i], ws[i + 1], e);
      JustFired(m, ws, evs, i, e);
      BulletTrajectory(m, ws, evs, i + 1, k, e);
      FliesOn(ws[i + 1].bullets[e], ws[k].tick - ws[i].tick);
      FlightDistance(ws[i + 1].bullets[e], ws[k].tick + 1 - ws[i].tick);
    }
  }

  lemma CollidingIsAdvanced(m: Maths, w: World, e: Entity)
    requires Invariant(w) && Steppable(w) && e in Colliding(m, w)
    ensures e in w.bullets && Colliding(m, w)[e] == AdvanceBullet(w.bullets[e], TIMESTEP)
    ensures w.tick + 1 - w.bullets[e].spawnTick < BULLET_LIFETIME
  {
    AgeingKeeps(w.bullets, w.tick);
  }

  lemma JustFired(m: Maths, ws: seq<World>, evs: seq<Event>, i: nat, e: Entity)
    requires IsRun(m, ws, evs) && i < |evs|
    requires evs[i].Input? && e !in ws[i].bullets && e in ws[i + 1].bullets
    ensures Fired(ws[i + 1].bullets[e]) && ws[i + 1].bullets[e].spawnTick == ws[i].tick == ws[i + 1].tick
    ensures e < ws[i + 1].next
  {
    RunInvariant(m, ws, evs, i);
    InputKeeps(m, ws[i], evs[i].input, evs[i].peer, evs[i].view);
  }

  lemma FlightDistance(b: Bullet, n: nat)
    requires Fired(b) && n <= 119
    ensures Within(Sub(Flown(b, n).position, b.position), 119.0 * (400.0 / 60.0))
  {
    var k := (n as real) * TIMESTEP;
    assert Sub(Flown(b, n).position, b.position) == Scale(k, b.linear);
    ScaleWithin(k, b.linear, BULLET_SPEED);
    WithinMonotone(Scale(k, b.linear), k * BULLET_SPEED, 119.0 * (400.0 / 60.0));
  }

  // ---------- the number of live bullets ----------

  ghost function NewBullets(ws: seq<World>, i: nat): set<Entity>
    requires i + 1 < |ws|
  {
    ws[i + 1].bullets.Keys - ws[i].bullets.Keys
  }

  /** The bullets fired by the inputs of a run while the tick counter read `v`. */
  ghost function FiredDuring(ws: seq<World>, evs: seq<Event>, v: int): set<Entity>
    requires |ws| == |evs| + 1
  {
    set i, e | 0 <= i < |evs| && e in NewBullets(ws, i) && evs[i].Input? && ws[i].tick == v :: e
  }

  ghost function LiveFired(w: World): set<Entity> {
    set e | e in w.bullets && Fired(w.bullets[e])
  }

  lemma {:induction false} FiredWhen(m: Maths, ws: seq<World>, evs: seq<Event>, j: nat, e: Entity)
    requires IsRun(m, ws, evs) && j < |ws| && e in LiveFired(ws[j])
    ensures e in FiredDuring(ws, evs, ws[j].bullets[e].spawnTick)
    decreases j
  {
    if j > 0 {
      var w, ev := ws[j - 1], evs[j - 1];
      RunInvariant(m, ws, evs, j - 1);
      RunInvariant(m, ws, evs, j);
      NextBullets(m, w, ev, ws[j], e);
      if e in w.bullets {
        FiredWhen(m, ws, evs, j - 1, e);
      } else {
        assert e in NewBullets(ws, j - 1);
      }
    }
  }

  /** The union of the sets that `f` gives for the `n` tick values from `lo`. */
  ghost function Unions(f: int -> set<Entity>, lo: int, n: nat): set<Entity> {
    if n == 0 then {} else Unions(f, lo, n - 1) + f(lo + n - 1)
  }

  ghost predicate FiresAtMost(ws: seq<World>, evs: seq<Event>, s: nat)
    requires |ws| == |evs| + 1
  {
    forall v :: |FiredDuring(ws, evs, v)| <= s
  }

  /** `n` times `s`, added up. */
  function Times(n: nat, s: nat): nat {
    if n == 0 then 0 else Times(n - 1, s) + s
  }

  lemma {:induction false} TimesIs(n: nat, s: nat)
    ensures Times(n, s) == n * s
  {
    if n > 0 {
      TimesIs(n - 1, s);
    }
  }

  lemma {:induction false} UnionsBound(f: int -> set<Entity>, lo: int, n: nat, s: nat)
    requires forall v :: |f(v)| <= s
    ensures |Unions(f, lo, n)| <= Times(n, s)
  {
    if n > 0 {
      UnionsBound(f, lo, n - 1, s);
      UnionSize(Unions(f, lo, n - 1), f(lo + n - 1));
    }
  }

  lemma UnionSize(a: set<Entity>, b: set<Entity>)
    ensures |a + b| <= |a| + |b|
  {
    assert a + b == a + (b - a);
    SubsetSize(b - a, b);
  }

  lemma {:induction false} InUnions(f: int -> set<Entity>, lo: int, n: nat, v: int)
    requires lo <= v < lo + n
    ensures f(v) <= Unions(f, lo, n)
  {
    if v < lo + n - 1 {
      InUnions(f, lo, n - 1, v);
    }
  }

  /** If at most `s` bullets are fired during any one tick value, no more than 120 times `s`
      fired bullets are ever alive. */
  lemma LiveBulletBound(m: Maths, ws: seq<World>, evs: seq<Event>, j: nat, s: nat)
    requires IsRun(m, ws, evs) && j < |ws| && FiresAtMost(ws, evs, s)
    ensures |LiveFired(ws[j])| <= 120 * s
  {
    var lo, fired := ws[j].tick - 119, v => FiredDuring(ws, evs, v);
    UnionsBound(fired, lo, 120, s);
    TimesIs(120, s);
    RunInvariant(m, ws, evs, j);
    forall e | e in LiveFired(ws[j]) ensures e in Unions(fired, lo, 120) {
      FiredWhen(m, ws, evs, j, e);
      InUnions(fired, lo, 120, ws[j].bullets[e].spawnTick);
    }
    SubsetSize(LiveFired(ws[j]), Unions(fired, lo, 120));
  }
}
