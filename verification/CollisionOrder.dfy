/** What the collision pass does not owe to the view orders, and when geometry keeps it safe. */
module CollisionOrder {
  import opened Vectors
  import opened TankModel
  import opened CollisionModel

  // ---------- the number of recorded hits ----------

  function SumOver(order: seq<Entity>, f: map<Entity, nat>): nat
    requires forall e :: e in order ==> e in f
  {
    if order == [] then 0 else SumOver(order[..|order| - 1], f) + f[order[|order| - 1]]
  }

  lemma {:induction false} SumWithout(order: seq<Entity>, f: map<Entity, nat>, k: nat)
    requires k < |order| && forall e :: e in order ==> e in f
    ensures SumOver(order, f) == SumOver(order[..k] + order[k + 1..], f) + f[order[k]]
  {
    var n := |order| - 1;
    var without := order[..k] + order[k + 1..];
    if k < n {
      SumWithout(order[..n], f, k);
      assert order[..n][..k] + order[..n][k + 1..] == without[..n - 1];
    } else {
      assert without == order[..n];
    }
  }

  lemma HasMember(order: seq<Entity>)
    ensures order != [] ==> exists e :: e in order
  {
    if order != [] {
      assert order[0] in order;
    }
  }

  /** A sum over a set does not depend on the order it is enumerated in. */
  lemma {:induction false} SumIsOrderFree(a: seq<Entity>, b: seq<Entity>, f: map<Entity, nat>)
    requires Distinct(a) && Distinct(b) && forall e :: e in a <==> e in b
    requires forall e :: e in a ==> e in f
    ensures SumOver(a, f) == SumOver(b, f)
    decreases |a|
  {
    if a == [] {
      HasMember(b);
    } else {
      var n, e := |a| - 1, a[|a| - 1];
      assert a == a[..n] + [e];
      assert e in b;
      var k :| 0 <= k < |b| && b[k] == e;
      SumWithout(b, f, k);
      SameWithout(a, b, k);
      SumIsOrderFree(a[..n], b[..k] + b[k + 1..], f);
    }
  }

  lemma SameWithout(a: seq<Entity>, b: seq<Entity>, k: nat)
    requires Distinct(a) && Distinct(b) && a != [] && k < |b| && b[k] == a[|a| - 1]
    requires forall e :: e in a <==> e in b
    ensures var rest := b[..k] + b[k + 1..];
      Distinct(rest) && forall e :: e in a[..|a| - 1] <==> e in rest
  {
    var n, last := |a| - 1, a[|a| - 1];
    var rest := b[..k] + b[k + 1..];
    assert a == a[..n] + [last];
    assert b == b[..k] + [last] + b[k + 1..];
    forall x ensures x in a[..n] <==> x in rest {
      assert x in a <==> x in a[..n] || x == last;
      assert x in b <==> x in rest || x == last;
    }
  }

  function HitCounts(dests: map<Entity, Destructible>, bullets: map<Entity, Bullet>, bs: seq<Entity>): map<Entity, nat>
    requires forall be :: be in bs ==> be in bullets
  {
    map e | e in dests :: HitsTaken(dests[e], |InRangeOf(bullets, bs, dests[e])|)
  }

  function Common(order: seq<Entity>, grown: set<Entity>): set<Entity> {
    set e | e in order && e in grown
  }

  lemma CommonGrows(order: seq<Entity>, grown: set<Entity>)
    requires Distinct(order) && order != []
    ensures var n, last := |order| - 1, order[|order| - 1];
      |Common(order, grown)| == |Common(order[..n], grown)| + if last in grown then 1 else 0
  {
    var n, last := |order| - 1, order[|order| - 1];
    assert order == order[..n] + [last];
    var rest := Common(order[..n], grown);
    assert last !in rest;
    assert Common(order, grown) == if last in grown then rest + {last} else rest;
  }

  lemma {:induction false} SumGrows(order: seq<Entity>, f: map<Entity, nat>, g: map<Entity, nat>, grown: set<Entity>)
    requires Distinct(order)
    requires forall e :: e in order ==> e in f && e in g
    requires forall e :: e in order ==> g[e] == f[e] + if e in grown then 1 else 0
    ensures SumOver(order, g) == SumOver(order, f) + |Common(order, grown)|
  {
    if order == [] {
      assert Common(order, grown) == {};
    } else {
      SumGrows(order[..|order| - 1], f, g, grown);
      CommonGrows(order, grown);
    }
  }

  lemma CountsGrow(dests: map<Entity, Destructible>, bullets: map<Entity, Bullet>,
                   bs: seq<Entity>, ds: seq<Entity>, e: Entity)
    requires Enumerates(ds, dests.Keys) && Distinct(bs) && bs != [] && e in ds
    requires forall be :: be in bs ==> be in bullets
    ensures var n := |bs| - 1;
      var hit := TargetsAmong(StrikePass(dests, bullets, bs[..n], ds).destructibles, bullets[bs[n]], ds);
      HitCounts(dests, bullets, bs)[e] == HitCounts(dests, bullets, bs[..n])[e] + if e in hit then 1 else 0
  {
    var n := |bs| - 1;
    PrefixClosedForm(dests, bullets, bs[..n], ds, e);
    InRangeGrows(bullets, bs, dests[e]);
    OneMoreHit(dests[e], |InRangeOf(bullets, bs[..n], dests[e])|, bullets[bs[n]]);
  }

  /** A bullet in range is one more hit exactly while the destructible is still active. */
  lemma OneMoreHit(d: Destructible, n: nat, b: Bullet)
    ensures HitsTaken(d, n + if HitsDestructible(b, d) then 1 else 0)
         == HitsTaken(d, n) + if Struck(d, n).active && HitsDestructible(b, Struck(d, n)) then 1 else 0
  {
    DamageIsOneMore(d, n);
  }

  lemma {:induction false} LogLength(dests: map<Entity, Destructible>, bullets: map<Entity, Bullet>,
                                     bs: seq<Entity>, ds: seq<Entity>)
    requires Enumerates(ds, dests.Keys) && Distinct(bs)
    requires forall be :: be in bs ==> be in bullets
    ensures |StrikePass(dests, bullets, bs, ds).log| == SumOver(ds, HitCounts(dests, bullets, bs))
  {
    var counts := HitCounts(dests, bullets, bs);
    if bs == [] {
      forall e | e in dests ensures counts[e] == 0 {
        assert InRangeOf(bullets, bs, dests[e]) == {};
      }
      AllZero(ds, counts);
    } else {
      var n, be := |bs| - 1, bs[|bs| - 1];
      LogLength(dests, bullets, bs[..n], ds);
      var s := StrikePass(dests, bullets, bs[..n], ds);
      StrikeAllEffect(s, be, bullets[be], ds);
      var hit := TargetsAmong(s.destructibles, bullets[be], ds);
      forall e | e in ds
        ensures counts[e] == HitCounts(dests, bullets, bs[..n])[e] + if e in hit then 1 else 0
      {
        CountsGrow(dests, bullets, bs, ds, e);
      }
      SumGrows(ds, HitCounts(dests, bullets, bs[..n]), counts, hit);
      assert Common(ds, hit) == hit;
    }
  }

  lemma {:induction false} AllZero(order: seq<Entity>, f: map<Entity, nat>)
    requires forall e :: e in order ==> e in f && f[e] == 0
    ensures SumOver(order, f) == 0
  {
    if order != [] {
      AllZero(order[..|order| - 1], f);
    }
  }

  /** The total number of recorded destructible hits, for one enumeration of the destructibles. */
  lemma HitTotal(w: World, o: Orders)
    requires OrdersFor(w, o)
    ensures |StrikePass(w.destructibles, w.bullets, o.bullets, o.destructibles).log| ==
            SumOver(o.destructibles, HitCounts(w.destructibles, w.bullets, o.bullets))
  {
    LogLength(w.destructibles, w.bullets, o.bullets, o.destructibles);
  }

  function TankCounts(bullets: map<Entity, Bullet>, tanks: map<Entity, Tank>): map<Entity, nat> {
    map be | be in bullets :: |TanksHit(bullets[be], tanks)|
  }

  lemma {:induction false} TankHitsLength(log: seq<Entity>, be: Entity, b: Bullet, tanks: map<Entity, Tank>,
                                          ts: seq<Entity>)
    requires Distinct(ts) && forall e :: e in ts ==> e in tanks
    ensures |TankHits(log, be, b, tanks, ts)| == |log| + |TanksAmong(b, tanks, ts)|
  {
    if ts == [] {
      assert TanksAmong(b, tanks, ts) == {};
    } else {
      var n, e := |ts| - 1, ts[|ts| - 1];
      TankHitsLength(log, be, b, tanks, ts[..n]);
      var rest := TanksAmong(b, tanks, ts[..n]);
      assert ts == ts[..n] + [e];
      assert e !in rest;
      assert TanksAmong(b, tanks, ts) == if HitsTank(b, tanks[e]) then rest + {e} else rest;
    }
  }

  lemma {:induction false} TankPassLength(log: seq<Entity>, bullets: map<Entity, Bullet>, bs: seq<Entity>,
                                          tanks: map<Entity, Tank>, ts: seq<Entity>)
    requires Enumerates(ts, tanks.Keys) && forall be :: be in bs ==> be in bullets
    ensures |TankPass(log, bullets, bs, tanks, ts)| == |log| + SumOver(bs, TankCounts(bullets, tanks))
  {
    if bs != [] {
      var n, be := |bs| - 1, bs[|bs| - 1];
      TankPassLength(log, bullets, bs[..n], tanks, ts);
      TankHitsLength(TankPass(log, bullets, bs[..n], tanks, ts), be, bullets[be], tanks, ts);
      assert TanksAmong(bullets[be], tanks, ts) == TanksHit(bullets[be], tanks);
    }
  }

  lemma HitCountsAreOrderFree(dests: map<Entity, Destructible>, bullets: map<Entity, Bullet>, order: seq<Entity>,
                              order': seq<Entity>)
    requires Enumerates(order, bullets.Keys) && Enumerates(order', bullets.Keys)
    ensures HitCounts(dests, bullets, order) == HitCounts(dests, bullets, order')
  {
    var f, g := HitCounts(dests, bullets, order), HitCounts(dests, bullets, order');
    forall e | e in dests ensures f[e] == g[e] {
      EnumeratedRange(bullets, order, dests[e]);
      EnumeratedRange(bullets, order', dests[e]);
    }
    assert f == g;
  }

  lemma StrikeTotalIsOrderFree(w: World, o: Orders, p: Orders)
    requires OrdersFor(w, o) && OrdersFor(w, p)
    ensures |StrikePass(w.destructibles, w.bullets, o.bullets, o.destructibles).log|
         == |StrikePass(w.destructibles, w.bullets, p.bullets, p.destructibles).log|
  {
    HitTotal(w, o);
    HitTotal(w, p);
    HitCountsAreOrderFree(w.destructibles, w.bullets, o.bullets, p.bullets);
    SumIsOrderFree(o.destructibles, p.destructibles, HitCounts(w.destructibles, w.bullets, o.bullets));
  }

  /** Two orders record the same number of hits, although not on the same bullets. */
  lemma HitTotalIsOrderFree(w: World, o: Orders, p: Orders)
    requires OrdersFor(w, o) && OrdersFor(w, p)
    ensures |RemovalList(w, o)| == |RemovalList(w, p)|
  {
    StrikeTotalIsOrderFree(w, o, p);
    RemovalLength(w, o);
    RemovalLength(w, p);
    SumIsOrderFree(o.bullets, p.bullets, TankCounts(w.bullets, w.tanks));
  }

  lemma RemovalLength(w: World, o: Orders)
    requires OrdersFor(w, o)
    ensures |RemovalList(w, o)| ==
            |StrikePass(w.destructibles, w.bullets, o.bullets, o.destructibles).log|
            + SumOver(o.bullets, TankCounts(w.bullets, w.tanks))
  {
    TankPassLength(StrikePass(w.destructibles, w.bullets, o.bullets, o.destructibles).log,
                   w.bullets, o.bullets, w.tanks, o.tanks);
  }

  /** Two orders leave the same destructibles. */
  lemma DestructiblesAreOrderFree(w: World, o: Orders, p: Orders)
    requires OrdersFor(w, o) && OrdersFor(w, p)
    ensures StrikePass(w.destructibles, w.bullets, o.bullets, o.destructibles).destructibles
         == StrikePass(w.destructibles, w.bullets, p.bullets, p.destructibles).destructibles
  {
    var s, t := StrikePass(w.destructibles, w.bullets, o.bullets, o.destructibles).destructibles,
                StrikePass(w.destructibles, w.bullets, p.bullets, p.destructibles).destructibles;
    forall e | e in w.destructibles ensures s[e] == t[e] {
      PrefixClosedForm(w.destructibles, w.bullets, o.bullets, o.destructibles, e);
      PrefixClosedForm(w.destructibles, w.bullets, p.bullets, p.destructibles, e);
      EnumeratedRange(w.bullets, o.bullets, w.destructibles[e]);
      EnumeratedRange(w.bullets, p.bullets, w.destructibles[e]);
    }
    assert s == t;
  }

  /** Two orders leave the same collectibles. */
  lemma CollectiblesAreOrderFree(w: World, o: Orders, p: Orders)
    requires OrdersFor(w, o) && OrdersFor(w, p)
    ensures CollectPass(w.collectibles, w.tanks, o.tanks, o.collectibles)
         == CollectPass(w.collectibles, w.tanks, p.tanks, p.collectibles)
  {
    var c, d := CollectPass(w.collectibles, w.tanks, o.tanks, o.collectibles),
                CollectPass(w.collectibles, w.tanks, p.tanks, p.collectibles);
    forall e | e in w.collectibles ensures c[e] == d[e] {
      CollectiblesClosedForm(w, o, e);
      CollectiblesClosedForm(w, p, e);
    }
    assert c == d;
  }

  /** Two bullets, no tanks, and a destructible in range of both that one more hit finishes. */
  ghost predicate LastHitContested(w: World, a: Entity, b: Entity, e: Entity) {
    && a != b && w.bullets.Keys == {a, b} && w.destructibles.Keys == {e} && w.tanks == map[]
    && w.destructibles[e].active && 0.0 < w.destructibles[e].health <= BULLET_DAMAGE
    && HitsDestructible(w.bullets[a], w.destructibles[e]) && HitsDestructible(w.bullets[b], w.destructibles[e])
  }

  /** Which bullet is recorded does depend on the order: it is the one that comes first. */
  lemma FirstTakesTheLastHit(w: World, o: Orders, a: Entity, b: Entity, e: Entity)
    requires LastHitContested(w, a, b, e) && OrdersFor(w, o) && o.bullets == [a, b] && o.destructibles == [e]
    ensures RemovalList(w, o) == [a]
  {
    assert forall x :: x !in o.tanks;
    HasMember(o.tanks);
    OneMoreBullet(w.destructibles, w.bullets, [], a, e);
    assert [] + [a] == [a] && [a] + [b] == [a, b];
    var s := StrikePass(w.destructibles, w.bullets, [a], [e]);
    assert s == Strikes(w.destructibles[e := Damage(w.destructibles[e])], [a]);
    OneMoreBullet(w.destructibles, w.bullets, [a], b, e);
    assert !s.destructibles[e].active;
    TankPassEmpty(StrikePass(w.destructibles, w.bullets, o.bullets, o.destructibles).log, w.bullets, o.bullets);
  }

  lemma OneMoreBullet(dests: map<Entity, Destructible>, bullets: map<Entity, Bullet>, bs: seq<Entity>, be: Entity,
                      e: Entity)
    requires e in dests && be in bullets && forall x :: x in bs ==> x in bullets
    ensures StrikePass(dests, bullets, bs + [be], [e]) ==
        StrikeOne(StrikePass(dests, bullets, bs, [e]), be, bullets[be], e)
  {
    assert (bs + [be])[..|bs|] == bs;
    var s := StrikePass(dests, bullets, bs, [e]);
    assert StrikeAll(s, be, bullets[be], [e][..0]) == s;
  }

  lemma {:induction false} TankPassEmpty(log: seq<Entity>, bullets: map<Entity, Bullet>, bs: seq<Entity>)
    requires forall be :: be in bs ==> be in bullets
    ensures TankPass(log, bullets, bs, map[], []) == log
  {
    if bs != [] {
      TankPassEmpty(log, bullets, bs[..|bs| - 1]);
    }
  }

  // ---------- safety in every order ----------

  /** The active destructibles in range of a bullet. */
  function ActiveTargets(dests: map<Entity, Destructible>, b: Bullet): set<Entity> {
    set e | e in dests && dests[e].active && HitsDestructible(b, dests[e])
  }

  /** Of all the active destructibles and tanks of others, the bullet is in range of one at most. */
  predicate AtMostOneTarget(w: World, be: Entity)
    requires be in w.bullets
  {
    |ActiveTargets(w.destructibles, w.bullets[be])| + |TanksHit(w.bullets[be], w.tanks)| <= 1
  }

  lemma EnumerationExists(s: set<Entity>) returns (order: seq<Entity>)
    ensures Enumerates(order, s)
  {
    if s == {} {
      order := [];
    } else {
      var e :| e in s;
      var rest := EnumerationExists(s - {e});
      order := rest + [e];
    }
  }

  lemma FirstBulletDamages(w: World, o: Orders, e: Entity)
    requires OrdersFor(w, o) && o.bullets != []
    requires e in w.destructibles && w.destructibles[e].active
    requires HitsDestructible(w.bullets[o.bullets[0]], w.destructibles[e])
    ensures e in Damages(w.destructibles, w.bullets, o.bullets, 0)
  {
    assert InRangeOf(w.bullets, o.bullets[..0], w.destructibles[e]) == {};
  }

  lemma FirstBulletDamagesAll(w: World, o: Orders)
    requires OrdersFor(w, o) && o.bullets != []
    ensures o.bullets[0] in w.bullets
    ensures Damages(w.destructibles, w.bullets, o.bullets, 0)
         == ActiveTargets(w.destructibles, w.bullets[o.bullets[0]])
  {
    assert o.bullets[0] in o.bullets;
    forall e | e in ActiveTargets(w.destructibles, w.bullets[o.bullets[0]])
      ensures e in Damages(w.destructibles, w.bullets, o.bullets, 0)
    {
      FirstBulletDamages(w, o, e);
    }
  }

  lemma DamagesAreTargets(w: World, o: Orders, i: nat)
    requires OrdersFor(w, o) && i < |o.bullets|
    ensures o.bullets[i] in w.bullets
    ensures |Damages(w.destructibles, w.bullets, o.bullets, i)|
         <= |ActiveTargets(w.destructibles, w.bullets[o.bullets[i]])|
  {
    assert o.bullets[i] in o.bullets;
    SubsetSize(Damages(w.destructibles, w.bullets, o.bullets, i),
               ActiveTargets(w.destructibles, w.bullets[o.bullets[i]]));
  }

  /** Some orders visit the bullet `be` before any other. */
  lemma OrdersWithFirst(w: World, be: Entity) returns (o: Orders)
    requires be in w.bullets
    ensures OrdersFor(w, o) && o.bullets != [] && o.bullets[0] == be
  {
    var others := EnumerationExists(w.bullets.Keys - {be});
    var ds := EnumerationExists(w.destructibles.Keys);
    var ts := EnumerationExists(w.tanks.Keys);
    var cs := EnumerationExists(w.collectibles.Keys);
    o := Orders([be] + others, ds, ts, cs);
  }

  /** The collision pass destroys only live bullets in every order exactly when each bullet is in
      range of one active destructible or tank of others at most. */
  lemma SafeInEveryOrderIff(w: World)
    ensures (forall o :: OrdersFor(w, o) ==> Collide(w, o).Some?)
       <==> forall be :: be in w.bullets ==> AtMostOneTarget(w, be)
  {
    if be :| be in w.bullets && !AtMostOneTarget(w, be) {
      var o := OrdersWithFirst(w, be);
      FirstBulletDamagesAll(w, o);
      assert !HitsAtMostOne(w, o, 0);
      DestroysOnlyLiveIff(w, o);
    } else {
      forall o | OrdersFor(w, o) ensures Collide(w, o).Some? {
        forall i | 0 <= i < |o.bullets| ensures HitsAtMostOne(w, o, i) {
          DamagesAreTargets(w, o, i);
          assert AtMostOneTarget(w, o.bullets[i]);
        }
        DestroysOnlyLiveIff(w, o);
      }
    }
  }

  // ---------- separation ----------

  function HitRadius(d: Destructible): real {
    d.radius + BULLET_RADIUS
  }

  const TANK_HIT_RADIUS := TANK_RADIUS + BULLET_RADIUS

  /** Active destructibles and tanks stand pairwise at least their hit radii apart. */
  ghost predicate Separated(w: World) {
    && (forall e :: e in w.destructibles ==> HitRadius(w.destructibles[e]) > 0.0)
    && (forall e, f | e in w.destructibles && f in w.destructibles && e != f
          && w.destructibles[e].active && w.destructibles[f].active ::
          !Near(w.destructibles[e].position, w.destructibles[f].position,
                HitRadius(w.destructibles[e]) + HitRadius(w.destructibles[f])))
    && (forall e, t :: e in w.destructibles && t in w.tanks && w.destructibles[e].active ==>
          !Near(w.destructibles[e].position, w.tanks[t].position, HitRadius(w.destructibles[e]) + TANK_HIT_RADIUS))
    && (forall t, u :: t in w.tanks && u in w.tanks && t != u ==>
          !Near(w.tanks[t].position, w.tanks[u].position, TANK_HIT_RADIUS + TANK_HIT_RADIUS))
  }

  lemma AtMostOne(s: set<Entity>)
    requires forall x, y :: x in s && y in s ==> x == y
    ensures |s| <= 1
  {
    if s != {} {
      var x :| x in s;
      assert s == {x};
    }
  }

  /** In a separated world no bullet hits two things, so the pass never destroys a bullet twice
      and exactly the bullets without a hit survive. */
  lemma SeparationIsSafe(w: World, o: Orders)
    requires OrdersFor(w, o) && Separated(w)
    ensures Collide(w, o).Some?
    ensures forall i :: 0 <= i < |o.bullets| ==>
      (o.bullets[i] in Collide(w, o).value.bullets <==> HitsNothing(w, o, i))
  {
    forall i | 0 <= i < |o.bullets| ensures HitsAtMostOne(w, o, i) {
      SeparatedBulletHitsOne(w, o, i);
    }
    DestroysOnlyLiveIff(w, o);
  }

  lemma NearThroughThird(p: Vec2, q: Vec2, b: Vec2, r: real, s: real)
    requires Near(b, p, r) && Near(b, q, s)
    ensures Near(p, q, r + s)
  {
    CloseThroughThird(p, q, b, r, s);
  }

  lemma OneDestructible(w: World, b: Bullet, e: Entity, f: Entity)
    requires Separated(w) && e in w.destructibles && f in w.destructibles
    requires w.destructibles[e].active && HitsDestructible(b, w.destructibles[e])
    requires w.destructibles[f].active && HitsDestructible(b, w.destructibles[f])
    ensures e == f
  {
    var d, c := w.destructibles[e], w.destructibles[f];
    NearThroughThird(d.position, c.position, b.position, HitRadius(d), HitRadius(c));
  }

  lemma OneTank(w: World, b: Bullet, t: Entity, u: Entity)
    requires Separated(w) && t in w.tanks && u in w.tanks
    requires HitsTank(b, w.tanks[t]) && HitsTank(b, w.tanks[u])
    ensures t == u
  {
    NearThroughThird(w.tanks[t].position, w.tanks[u].position, b.position, TANK_HIT_RADIUS, TANK_HIT_RADIUS);
  }

  lemma NotBoth(w: World, b: Bullet, e: Entity, t: Entity)
    requires Separated(w) && e in w.destructibles && t in w.tanks
    requires w.destructibles[e].active && HitsDestructible(b, w.destructibles[e])
    ensures !HitsTank(b, w.tanks[t])
  {
    if HitsTank(b, w.tanks[t]) {
      var d := w.destructibles[e];
      NearThroughThird(d.position, w.tanks[t].position, b.position, HitRadius(d), TANK_HIT_RADIUS);
    }
  }

  lemma SeparatedBulletHitsOne(w: World, o: Orders, i: nat)
    requires OrdersFor(w, o) && Separated(w) && i < |o.bullets|
    ensures HitsAtMostOne(w, o, i)
  {
    var b := w.bullets[o.bullets[i]];
    var ds, ts := Damages(w.destructibles, w.bullets, o.bullets, i), TanksHit(b, w.tanks);
    forall e, f | e in ds && f in ds ensures e == f {
      OneDestructible(w, b, e, f);
    }
    AtMostOne(ds);
    forall t, u | t in ts && u in ts ensures t == u {
      OneTank(w, b, t, u);
    }
    AtMostOne(ts);
    if e :| e in ds {
      forall t | t in w.tanks ensures t !in ts {
        NotBoth(w, b, e, t);
      }
      assert ts == {};
    }
  }
}
