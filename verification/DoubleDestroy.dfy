/** A reachable world whose next step destroys one bullet twice. */
module DoubleDestroy {
  import opened Vectors
  import opened TankModel
  import opened CollisionModel
  import opened CollisionOrder
  import opened GameModel

  const SPOT := Vec2(20.0, 0.0)
  const SHOT := InputState(0.0, 0.0, true)

  /** Where to stand so that a shot straight ahead is at `SPOT` when a collision pass first sees it: three
      units to the muzzle, and one tick of flight. */
  function Stand(m: Maths): Vec2 {
    Sub(SPOT, Scale(3.0 + 400.0 / 60.0, m.heading(0.0)))
  }

  /** A server game, and a second destructible where the first one stands. */
  function Doubled(): World {
    SpawnDestructible(InitialWorld(true), SPOT)
  }

  function Armed(m: Maths, peer: PeerID): World {
    SpawnTank(Doubled(), Stand(m), 0.0, peer)
  }

  /** The tank has fired at the two of them. */
  function Stacked(m: Maths, peer: PeerID): World {
    var tank := NewTank(Stand(m), 0.0, peer);
    Armed(m, peer).(next := 9, bullets := map[8 := FiredBullet(m, tank, peer, 0)])
  }

  lemma ShotIs(m: Maths, peer: PeerID)
    requires peer < UINT32_RANGE
    ensures Enumerates([7], Armed(m, peer).tanks.Keys)
    ensures QueueInput(m, Armed(m, peer), SHOT, peer, [7]) == Stacked(m, peer)
  {
    var w, tank := Armed(m, peer), NewTank(Stand(m), 0.0, peer);
    assert w.tanks == map[7 := tank] && w.next == 8 && w.bullets == map[];
    assert SteerTank(m, tank, SHOT) == tank by {
      assert Scale(0.0, m.heading(0.0)) == ORIGIN;
    }
    assert SteerTanks(m, w.tanks, Truncate32(peer), SHOT) == w.tanks;
    var view := [7];
    assert view[..|view| - 1] == [];
    assert FireAll(m, w, peer, view) == Stacked(m, peer);
  }

  lemma StackedIsReachable(m: Maths, peer: PeerID)
    requires m.Valid() && peer < UINT32_RANGE
    ensures IsRun(m, [InitialWorld(true), Doubled(), Armed(m, peer), Stacked(m, peer)],
                  [AddDestructible(SPOT), AddTank(Stand(m), 0.0, peer), Input(SHOT, peer, [7])])
  {
    ShotIs(m, peer);
  }

  lemma ShotArrives(m: Maths, peer: PeerID)
    ensures AdvanceBullet(FiredBullet(m, NewTank(Stand(m), 0.0, peer), peer, 0), TIMESTEP).position == SPOT
  {
  }

  lemma StackedBullet(m: Maths, peer: PeerID)
    requires peer < UINT32_RANGE
    ensures Steppable(Stacked(m, peer))
    ensures var v := BeforeCollision(m, Stacked(m, peer));
      && v.bullets.Keys == {8} && v.bullets[8].position == SPOT
      && 3 in v.destructibles && v.destructibles[3] == NewDestructible(SPOT)
      && 6 in v.destructibles && v.destructibles[6] == NewDestructible(SPOT)
  {
    ShotArrives(m, peer);
  }

  lemma TwoMembers(s: set<Entity>, a: Entity, b: Entity)
    requires a in s && b in s && a != b
    ensures |s| >= 2
  {
    assert {a, b} <= s;
    SubsetSize({a, b}, s);
  }

  /** A lone bullet in range of two active destructibles is destroyed twice, in any order. */
  lemma LoneBulletTwoTargets(w: World, o: Orders, be: Entity, e: Entity, f: Entity)
    requires OrdersFor(w, o) && w.bullets.Keys == {be} && e != f
    requires e in w.destructibles && w.destructibles[e].active && HitsDestructible(w.bullets[be], w.destructibles[e])
    requires f in w.destructibles && w.destructibles[f].active && HitsDestructible(w.bullets[be], w.destructibles[f])
    ensures Collide(w, o).None?
  {
    assert be in o.bullets;
    assert o.bullets[0] in o.bullets && o.bullets[0] in w.bullets.Keys;
    FirstBulletDamages(w, o, e);
    FirstBulletDamages(w, o, f);
    TwoMembers(Damages(w.destructibles, w.bullets, o.bullets, 0), e, f);
    assert !HitsAtMostOne(w, o, 0);
    DestroysOnlyLiveIff(w, o);
  }

  lemma BothInOneSpot(v: World, o: Orders)
    requires OrdersFor(v, o) && v.bullets.Keys == {8} && v.bullets[8].position == SPOT
    requires 3 in v.destructibles && v.destructibles[3] == NewDestructible(SPOT)
    requires 6 in v.destructibles && v.destructibles[6] == NewDestructible(SPOT)
    ensures Collide(v, o).None?
  {
    LoneBulletTwoTargets(v, o, 8, 3, 6);
  }

  /** Whatever the view orders, the next step destroys the bullet a second time. */
  lemma StackedStepFails(m: Maths, peer: PeerID, o: Orders)
    requires peer < UINT32_RANGE && Steppable(Stacked(m, peer))
    requires OrdersFor(BeforeCollision(m, Stacked(m, peer)), o)
    ensures Collide(BeforeCollision(m, Stacked(m, peer)), o).None?
  {
    StackedBullet(m, peer);
    BothInOneSpot(BeforeCollision(m, Stacked(m, peer)), o);
  }
}
