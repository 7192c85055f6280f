/** What one step of a run does to bullets, destructibles and collectibles, said with distances,
    ids and ticks alone. */
module Fates {
  import opened Wrappers
  import opened Vectors
  import opened TankModel
  import opened CollisionModel
  import opened GameModel
  import opened GameRuns

  // ---------- the collision pass of any world ----------

  /** The bullets closer to the destructible than its radius and half a unit. */
  function Reaching(m: Maths, bullets: map<Entity, Bullet>, d: Destructible): set<Entity> {
    set be | be in bullets && m.length(Sub(bullets[be].position, d.position)) < d.radius + 0.5
  }

  /** Those of them that the order `bs` visits. */
  function ReachingAmong(m: Maths, bullets: map<Entity, Bullet>, bs: seq<Entity>, d: Destructible): set<Entity>
    requires forall be :: be in bs ==> be in bullets
  {
    set be | be in bs && m.length(Sub(bullets[be].position, d.position)) < d.radius + 0.5
  }

  lemma ReachingIsInRange(m: Maths, bullets: map<Entity, Bullet>, d: Destructible)
    requires m.Valid()
    ensures Reaching(m, bullets, d) == InRange(bullets, d)
  {
    forall be | be in bullets
      ensures be in Reaching(m, bullets, d) <==> be in InRange(bullets, d)
    {
      NearIsDistance(m, bullets[be].position, d.position, d.radius + 0.5);
    }
  }

  lemma ReachingAmongIsInRange(m: Maths, bullets: map<Entity, Bullet>, bs: seq<Entity>, d: Destructible)
    requires m.Valid() && forall be :: be in bs ==> be in bullets
    ensures ReachingAmong(m, bullets, bs, d) == InRangeOf(bullets, bs, d)
  {
    forall be | be in bs
      ensures be in ReachingAmong(m, bullets, bs, d) <==> be in InRangeOf(bullets, bs, d)
    {
      NearIsDistance(m, bullets[be].position, d.position, d.radius + 0.5);
    }
  }

  /** No tank of another owner is closer to the bullet than two units. */
  ghost predicate ClearOfTanks(m: Maths, b: Bullet, tanks: map<Entity, Tank>) {
    forall t :: t in tanks && tanks[t].peerId != b.ownerPeerId ==> m.length(Sub(b.position, tanks[t].position)) >= 2.0
  }

  /** Whatever active destructible the bullet at place `i` reaches has been finished by the bullets
      before it. */
  ghost predicate FindsNothingLeft(m: Maths, w: World, bs: seq<Entity>, i: nat)
    requires i < |bs| && forall be :: be in bs ==> be in w.bullets
  {
    forall e | e in w.destructibles && w.destructibles[e].active
               && m.length(Sub(w.bullets[bs[i]].position, w.destructibles[e].position))
                  < w.destructibles[e].radius + 0.5 ::
      var earlier := |ReachingAmong(m, w.bullets, bs[..i], w.destructibles[e])|;
      earlier > 0 && 25.0 * (earlier as real) >= w.destructibles[e].health
  }

  lemma NoTankHit(m: Maths, b: Bullet, tanks: map<Entity, Tank>)
    requires m.Valid()
    ensures TanksHit(b, tanks) == {} <==> ClearOfTanks(m, b, tanks)
  {
    forall t | t in tanks
      ensures t in TanksHit(b, tanks) <==>
              tanks[t].peerId != b.ownerPeerId && m.length(Sub(b.position, tanks[t].position)) < 2.0
    {
      NearIsDistance(m, b.position, tanks[t].position, 2.0);
    }
    if TanksHit(b, tanks) == {} {
      forall t | t in tanks && tanks[t].peerId != b.ownerPeerId
        ensures m.length(Sub(b.position, tanks[t].position)) >= 2.0
      {
        assert t !in TanksHit(b, tanks);
      }
    }
  }

  lemma NothingDamaged(m: Maths, w: World, bs: seq<Entity>, i: nat)
    requires m.Valid() && i < |bs| && forall be :: be in bs ==> be in w.bullets
    ensures Damages(w.destructibles, w.bullets, bs, i) == {} <==> FindsNothingLeft(m, w, bs, i)
  {
    var damages := Damages(w.destructibles, w.bullets, bs, i);
    forall e | e in w.destructibles && w.destructibles[e].active
      ensures e in damages <==>
        && m.length(Sub(w.bullets[bs[i]].position, w.destructibles[e].position)) < w.destructibles[e].radius + 0.5
        && var earlier := |ReachingAmong(m, w.bullets, bs[..i], w.destructibles[e])|;
           !(earlier > 0 && 25.0 * (earlier as real) >= w.destructibles[e].health)
    {
      var d := w.destructibles[e];
      assert bs[i] in bs;
      NearIsDistance(m, w.bullets[bs[i]].position, d.position, d.radius + 0.5);
      ReachingAmongIsInRange(m, w.bullets, bs[..i], d);
      HitsToKillBounds(d.health, |InRangeOf(w.bullets, bs[..i], d)|);
    }
    if damages == {} {
      forall e | e in w.destructibles && w.destructibles[e].active
                 && m.length(Sub(w.bullets[bs[i]].position, w.destructibles[e].position))
                    < w.destructibles[e].radius + 0.5
        ensures var earlier := |ReachingAmong(m, w.bullets, bs[..i], w.destructibles[e])|;
          earlier > 0 && 25.0 * (earlier as real) >= w.destructibles[e].health
      {
        assert e !in damages;
      }
    }
  }

  /** When the pass destroys nothing twice, a bullet survives it exactly when no tank of another
      owner is within two units and it finds no destructible left to damage. */
  lemma SurvivesCollisionIff(m: Maths, w: World, o: Orders, i: nat)
    requires m.Valid() && OrdersFor(w, o) && Collide(w, o).Some? && i < |o.bullets|
    ensures o.bullets[i] in w.bullets
    ensures o.bullets[i] in Collide(w, o).value.bullets <==>
      ClearOfTanks(m, w.bullets[o.bullets[i]], w.tanks) && FindsNothingLeft(m, w, o.bullets, i)
  {
    assert o.bullets[i] in o.bullets;
    DestroysOnlyLiveIff(w, o);
    NoTankHit(m, w.bullets[o.bullets[i]], w.tanks);
    NothingDamaged(m, w, o.bullets, i);
  }

  // ---------- bullets over runs ----------

  /** A sixtieth of a second of straight flight. */
  function Flight(b: Bullet): Vec2 {
    Vec2(b.position.x + b.linear.x / 60.0, b.position.y + b.linear.y / 60.0)
  }

  lemma AdvanceIsFlight(b: Bullet)
    ensures AdvanceBullet(b, TIMESTEP) == b.(position := Flight(b))
  {
  }

  /** The collision pass of a step sees exactly the bullets that are not yet 120 ticks old by then,
      each a tick further on. */
  lemma YoungBulletsAreSeen(m: Maths, ws: seq<World>, evs: seq<Event>, i: nat, e: Entity)
    requires IsRun(m, ws, evs) && i < |evs| && evs[i].Step?
    ensures Steppable(ws[i])
    ensures e in BeforeCollision(m, ws[i]).bullets <==>
      e in ws[i].bullets && ws[i].tick + 1 - ws[i].bullets[e].spawnTick <= 119
    ensures e in BeforeCollision(m, ws[i]).bullets ==>
      BeforeCollision(m, ws[i]).bullets[e] == ws[i].bullets[e].(position := Flight(ws[i].bullets[e]))
  {
    RunInvariant(m, ws, evs, i);
    BeforeCollisionKeeps(m, ws[i]);
    if e in ws[i].bullets {
      assert StandardBullet(ws[i].bullets[e], ws[i].tick);
      ExpiredAt120(ws[i].bullets[e], ws[i].tick);
      AdvanceIsFlight(ws[i].bullets[e]);
    }
  }

  lemma ExpiredAt120(b: Bullet, tick: nat)
    requires b.lifetime == 2.0 && b.spawnTick <= tick
    ensures Expired(b, tick + 1) <==> tick + 1 - b.spawnTick >= 120
  {
    assert LifetimeTicks(b) == 120;
  }

  /** The place of an entity in an order that visits it. */
  lemma PlaceOf(order: seq<Entity>, e: Entity) returns (k: nat)
    ensures k <= |order|
    ensures e in order ==> k < |order| && order[k] == e
  {
    if e in order {
      k :| 0 <= k < |order| && order[k] == e;
    } else {
      k := |order|;
    }
  }

  /** A bullet survives a step exactly when it is not yet 120 ticks old, no tank of another owner is
      within two units of where it has flown to, and it finds no destructible left to damage. */
  lemma BulletFate(m: Maths, ws: seq<World>, evs: seq<Event>, i: nat, e: Entity) returns (k: nat)
    requires IsRun(m, ws, evs) && i < |evs| && evs[i].Step? && e in ws[i].bullets
    ensures Steppable(ws[i]) && OrdersFor(BeforeCollision(m, ws[i]), evs[i].orders)
    ensures ws[i].tick + 1 - ws[i].bullets[e].spawnTick <= 119 ==>
      k < |evs[i].orders.bullets| && evs[i].orders.bullets[k] == e
    ensures e in ws[i + 1].bullets <==>
      && ws[i].tick + 1 - ws[i].bullets[e].spawnTick <= 119
      && ClearOfTanks(m, ws[i].bullets[e].(position := Flight(ws[i].bullets[e])), ws[i + 1].tanks)
      && FindsNothingLeft(m, BeforeCollision(m, ws[i]), evs[i].orders.bullets, k)
  {
    var w, o, w' := ws[i], evs[i].orders, ws[i + 1];
    assert Next(m, w, evs[i], w');
    var v := BeforeCollision(m, w);
    k := PlaceOf(o.bullets, e);
    YoungBulletsAreSeen(m, ws, evs, i, e);
    CollisionLeaves(v, o, w');
    if e in v.bullets {
      SurvivesCollisionIff(m, v, o, k);
    }
  }

  lemma CollisionLeaves(v: World, o: Orders, w': World)
    requires OrdersFor(v, o) && Collide(v, o) == Some(w')
    ensures w'.tanks == v.tanks && forall e :: e in w'.bullets ==> e in v.bullets
  {
    DestroysOnlyLiveIff(v, o);
  }

  /** A bullet leaves the world only by its age, by a hit, or because it is destroyed by name. */
  lemma BulletLeaves(m: Maths, ws: seq<World>, evs: seq<Event>, i: nat, e: Entity)
    requires IsRun(m, ws, evs) && i < |evs| && e in ws[i].bullets && e !in ws[i + 1].bullets
    ensures evs[i].Step? || evs[i] == Destroy(e)
    ensures evs[i].Step? && ws[i].tick + 1 - ws[i].bullets[e].spawnTick <= 119 ==>
      && Steppable(ws[i]) && OrdersFor(BeforeCollision(m, ws[i]), evs[i].orders)
      && e in RemovalList(BeforeCollision(m, ws[i]), evs[i].orders)
  {
    assert Next(m, ws[i], evs[i], ws[i + 1]);
    if evs[i].Step? {
      YoungBulletsAreSeen(m, ws, evs, i, e);
      if ws[i].tick + 1 - ws[i].bullets[e].spawnTick <= 119 {
        GoneIsListed(BeforeCollision(m, ws[i]), evs[i].orders, e);
      }
    } else {
      RunInvariant(m, ws, evs, i);
      OthersTakeByName(m, ws[i], evs[i], ws[i + 1], e);
    }
  }

  lemma OthersTakeByName(m: Maths, w: World, ev: Event, w': World, e: Entity)
    requires m.Valid() && Invariant(w) && Next(m, w, ev, w') && !ev.Step? && e in w.bullets && e !in w'.bullets
    ensures ev == Destroy(e)
  {
    if ev.Input? {
      InputKeeps(m, w, ev.input, ev.peer, ev.view);
    }
  }

  lemma GoneIsListed(v: World, o: Orders, e: Entity)
    requires OrdersFor(v, o) && Collide(v, o).Some? && e in v.bullets && e !in Collide(v, o).value.bullets
    ensures e in RemovalList(v, o)
  {
    if e !in RemovalList(v, o) {
      UnlistedStay(v, o, e);
    }
  }

  lemma UnlistedStay(v: World, o: Orders, e: Entity)
    requires OrdersFor(v, o) && Collide(v, o).Some? && e in v.bullets && e !in RemovalList(v, o)
    ensures e in Collide(v, o).value.bullets
  {
    var log := RemovalList(v, o);
    forall be | be in log ensures be in v.bullets {
      RemovalListIsBullets(v, o, be);
    }
    DestroyListedIff(v.bullets, log);
  }

  // ---------- destructibles and collectibles over runs ----------

  /** `n` bullets take 25 health each, down to none; a destructible is active while it has some. */
  lemma StruckInQuarters(d: Destructible, n: nat)
    requires StandardDestructible(d)
    ensures var left := d.health - 25.0 * (n as real);
      Struck(d, n) == if left > 0.0 then d.(health := left) else d.(health := 0.0, active := false)
  {
    if d.active {
      HitsToKillStandard(d.health);
    }
  }

  /** A step takes 25 health from a destructible for each bullet that has come closer to it than its
      radius and half a unit, until none is left, whatever the orders. */
  lemma DestructibleFate(m: Maths, ws: seq<World>, evs: seq<Event>, i: nat, e: Entity)
    requires IsRun(m, ws, evs) && i < |evs| && evs[i].Step? && e in ws[i].destructibles
    ensures Steppable(ws[i]) && e in ws[i + 1].destructibles
    ensures var d := ws[i].destructibles[e];
      var left := d.health - 25.0 * (|Reaching(m, BeforeCollision(m, ws[i]).bullets, d)| as real);
      ws[i + 1].destructibles[e] == if left > 0.0 then d.(health := left) else d.(health := 0.0, active := false)
  {
    RunInvariant(m, ws, evs, i);
    assert Next(m, ws[i], evs[i], ws[i + 1]);
    var v, o, d := BeforeCollision(m, ws[i]), evs[i].orders, ws[i].destructibles[e];
    PrefixClosedForm(v.destructibles, v.bullets, o.bullets, o.destructibles, e);
    EnumeratedRange(v.bullets, o.bullets, d);
    ReachingIsInRange(m, v.bullets, d);
    StruckInQuarters(d, |Reaching(m, v.bullets, d)|);
  }

  /** A step leaves a collectible active exactly when it was and no tank has come closer to it than
      its radius and one and a half units. */
  lemma CollectibleFate(m: Maths, ws: seq<World>, evs: seq<Event>, i: nat, e: Entity)
    requires IsRun(m, ws, evs) && i < |evs| && evs[i].Step? && e in ws[i].collectibles
    ensures e in ws[i + 1].collectibles
    ensures var c, tanks := ws[i].collectibles[e], ws[i + 1].tanks;
      ws[i + 1].collectibles[e] == c.(active := c.active
        && forall t :: t in tanks ==> m.length(Sub(tanks[t].position, c.position)) >= c.radius + 1.5)
  {
    RunInvariant(m, ws, evs, i);
    assert Next(m, ws[i], evs[i], ws[i + 1]);
    var v, c := BeforeCollision(m, ws[i]), ws[i].collectibles[e];
    CollectiblesClosedForm(v, evs[i].orders, e);
    forall t | t in v.tanks
      ensures Collects(v.tanks[t], c) <==> m.length(Sub(v.tanks[t].position, c.position)) < c.radius + 1.5
    {
      NearIsDistance(m, v.tanks[t].position, c.position, c.radius + 1.5);
    }
  }

  // ---------- what comes into the world, and what is taken out of it ----------

  /** What the calls other than steps and inputs do. */
  lemma EntitiesComeAndGo(m: Maths, w: World, ev: Event, w': World)
    requires Next(m, w, ev, w') && !ev.Step? && !ev.Input?
    ensures match ev
      case AddTank(position, rotation, peer) =>
        w' == w.(next := w.next + 1, tanks := w.tanks[w.next :=
          Tank(position, rotation, Vec2(0.0, 0.0), 0.0, 100.0, 20.0, 2.0, 0.98, true, peer % 0x1_0000_0000)])
      case AddBullet(position, rotation, peer) =>
        w' == w.(next := w.next + 1, bullets := w.bullets[w.next :=
          Bullet(position, rotation, Vec2(0.0, 0.0), 400.0, 2.0, peer % 0x1_0000_0000, 0)])
      case AddCollectible(position) =>
        w' == w.(next := w.next + 1, collectibles := w.collectibles[w.next := Collectible(position, 10.0, 1.0, true)])
      case AddDestructible(position) =>
        w' == w.(next := w.next + 1,
                 destructibles := w.destructibles[w.next := Destructible(position, 100.0, 100.0, 2.0, true)])
      case Destroy(e) =>
        w' == w.(tanks := w.tanks - {e}, bullets := w.bullets - {e},
                 collectibles := w.collectibles - {e}, destructibles := w.destructibles - {e})
      case _ => true
  {
  }

  /** Where a server's game puts its first entities. */
  lemma ServerStartsWith()
    ensures var w := InitialWorld(true);
      && w.tick == 0 && w.next == 6 && w.tanks == map[] && w.bullets == map[]
      && w.collectibles == map[0 := Collectible(Vec2(10.0, 10.0), 10.0, 1.0, true),
                               1 := Collectible(Vec2(-10.0, 15.0), 10.0, 1.0, true),
                               2 := Collectible(Vec2(15.0, -10.0), 10.0, 1.0, true)]
      && w.destructibles == map[3 := Destructible(Vec2(20.0, 0.0), 100.0, 100.0, 2.0, true),
                                4 := Destructible(Vec2(-20.0, 5.0), 100.0, 100.0, 2.0, true),
                                5 := Destructible(Vec2(0.0, -25.0), 100.0, 100.0, 2.0, true)]
  {
  }
}
