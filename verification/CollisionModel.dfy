/** The collision pass as the nested loops run it, for given view orders, and its closed form. */
module CollisionModel {
  import opened Wrappers
  import opened TankModel

  // ---------- bullets against destructibles ----------

  /** The destructibles so far, and the removal list so far. */
  datatype Strikes = Strikes(destructibles: map<Entity, Destructible>, log: seq<Entity>)

  function StrikeOne(s: Strikes, be: Entity, b: Bullet, e: Entity): (r: Strikes)
    requires e in s.destructibles
  {
    var d := s.destructibles[e];
    if d.active && HitsDestructible(b, d) then Strikes(s.destructibles[e := Damage(d)], s.log + [be]) else s
  }

  /** One bullet against the destructibles in view order. */
  function StrikeAll(s: Strikes, be: Entity, b: Bullet, ds: seq<Entity>): (r: Strikes)
    requires forall e :: e in ds ==> e in s.destructibles
    ensures r.destructibles.Keys == s.destructibles.Keys
  {
    if ds == [] then s
    else StrikeOne(StrikeAll(s, be, b, ds[..|ds| - 1]), be, b, ds[|ds| - 1])
  }

  /** Every bullet in view order against every destructible in view order. */
  function StrikePass(dests: map<Entity, Destructible>, bullets: map<Entity, Bullet>,
                      bs: seq<Entity>, ds: seq<Entity>): (r: Strikes)
    requires forall e :: e in ds ==> e in dests
    requires forall be :: be in bs ==> be in bullets
    ensures r.destructibles.Keys == dests.Keys
  {
    if bs == [] then Strikes(dests, [])
    else
      var be := bs[|bs| - 1];
      StrikeAll(StrikePass(dests, bullets, bs[..|bs| - 1], ds), be, bullets[be], ds)
  }

  // ---------- bullets against tanks ----------

  function TankHits(log: seq<Entity>, be: Entity, b: Bullet, tanks: map<Entity, Tank>, ts: seq<Entity>): seq<Entity>
    requires forall e :: e in ts ==> e in tanks
  {
    if ts == [] then log
    else
      var before := TankHits(log, be, b, tanks, ts[..|ts| - 1]);
      if HitsTank(b, tanks[ts[|ts| - 1]]) then before + [be] else before
  }

  function TankPass(log: seq<Entity>, bullets: map<Entity, Bullet>, bs: seq<Entity>,
                    tanks: map<Entity, Tank>, ts: seq<Entity>): seq<Entity>
    requires forall e :: e in ts ==> e in tanks
    requires forall be :: be in bs ==> be in bullets
  {
    if bs == [] then log
    else
      var be := bs[|bs| - 1];
      TankHits(TankPass(log, bullets, bs[..|bs| - 1], tanks, ts), be, bullets[be], tanks, ts)
  }

  // ---------- tanks against collectibles ----------

  function CollectOne(cs: map<Entity, Collectible>, t: Tank, e: Entity): map<Entity, Collectible>
    requires e in cs
  {
    if cs[e].active && Collects(t, cs[e]) then cs[e := cs[e].(active := false)] else cs
  }

  function CollectAll(cs: map<Entity, Collectible>, t: Tank, order: seq<Entity>): (r: map<Entity, Collectible>)
    requires forall e :: e in order ==> e in cs
    ensures r.Keys == cs.Keys
  {
    if order == [] then cs
    else CollectOne(CollectAll(cs, t, order[..|order| - 1]), t, order[|order| - 1])
  }

  function CollectPass(cs: map<Entity, Collectible>, tanks: map<Entity, Tank>,
                       ts: seq<Entity>, order: seq<Entity>): (r: map<Entity, Collectible>)
    requires forall e :: e in order ==> e in cs
    requires forall e :: e in ts ==> e in tanks
    ensures r.Keys == cs.Keys
  {
    if ts == [] then cs
    else CollectAll(CollectPass(cs, tanks, ts[..|ts| - 1], order), tanks[ts[|ts| - 1]], order)
  }

  // ---------- removing the bullets on the list ----------

  /** Destroys the listed bullets in turn; None when one of them is no longer alive. */
  function DestroyListed(bullets: map<Entity, Bullet>, log: seq<Entity>): Option<map<Entity, Bullet>> {
    if log == [] then Some(bullets)
    else
      var before := DestroyListed(bullets, log[..|log| - 1]);
      var be := log[|log| - 1];
      if before.None? || be !in before.value then None else Some(before.value - {be})
  }

  /** The orders in which the collision pass visits its four views. */
  datatype Orders = Orders(bullets: seq<Entity>, destructibles: seq<Entity>, tanks: seq<Entity>,
                           collectibles: seq<Entity>)

  ghost predicate OrdersFor(w: World, o: Orders) {
    && Enumerates(o.bullets, w.bullets.Keys)
    && Enumerates(o.destructibles, w.destructibles.Keys)
    && Enumerates(o.tanks, w.tanks.Keys)
    && Enumerates(o.collectibles, w.collectibles.Keys)
  }

  function RemovalList(w: World, o: Orders): seq<Entity>
    requires OrdersFor(w, o)
  {
    TankPass(StrikePass(w.destructibles, w.bullets, o.bullets, o.destructibles).log,
             w.bullets, o.bullets, w.tanks, o.tanks)
  }

  /** The whole collision pass; None when it destroys a bullet that is already gone. */
  function Collide(w: World, o: Orders): Option<World>
    requires OrdersFor(w, o)
  {
    var s := StrikePass(w.destructibles, w.bullets, o.bullets, o.destructibles);
    var cs := CollectPass(w.collectibles, w.tanks, o.tanks, o.collectibles);
    var left := DestroyListed(w.bullets, RemovalList(w, o));
    if left.None? then None
    else Some(w.(bullets := left.value, collectibles := cs, destructibles := s.destructibles))
  }

  // ---------- closed form: destructibles ----------

  function Ceiling(x: real): int {
    -((-x).Floor)
  }

  /** Hits that an active destructible of this health takes before it goes inactive. */
  function HitsToKill(health: real): nat {
    var c := Ceiling(health / BULLET_DAMAGE);
    if c <= 1 then 1 else c
  }

  function MinNat(a: nat, b: nat): nat {
    if a <= b then a else b
  }

  /** The hits recorded on `d` when `n` bullets are in its range. */
  function HitsTaken(d: Destructible, n: nat): nat {
    if d.active then MinNat(n, HitsToKill(d.health)) else 0
  }

  function Struck(d: Destructible, n: nat): Destructible {
    d.(health := d.health - BULLET_DAMAGE * (HitsTaken(d, n) as real),
       active := d.active && HitsTaken(d, n) < HitsToKill(d.health))
  }

  /** The bullets that are in range of `d`. */
  function InRange(bullets: map<Entity, Bullet>, d: Destructible): set<Entity> {
    set be | be in bullets && HitsDestructible(bullets[be], d)
  }

  function InRangeOf(bullets: map<Entity, Bullet>, bs: seq<Entity>, d: Destructible): set<Entity>
    requires forall be :: be in bs ==> be in bullets
  {
    set be | be in bs && HitsDestructible(bullets[be], d)
  }

  lemma CeilingBounds(x: real)
    ensures (Ceiling(x) as real) - 1.0 < x <= Ceiling(x) as real
  {
  }

  lemma HitsToKillBounds(h: real, n: nat)
    ensures n < HitsToKill(h) ==> n == 0 || h - BULLET_DAMAGE * (n as real) > 0.0
    ensures n >= HitsToKill(h) ==> h - BULLET_DAMAGE * (n as real) <= 0.0
  {
    CeilingBounds(h / BULLET_DAMAGE);
  }

  lemma DamageIsOneMore(d: Destructible, n: nat)
    ensures Struck(d, n).active ==> Damage(Struck(d, n)) == Struck(d, n + 1)
    ensures Struck(d, n).active ==> HitsTaken(d, n + 1) == HitsTaken(d, n) + 1
    ensures !Struck(d, n).active ==> Struck(d, n) == Struck(d, n + 1) && HitsTaken(d, n + 1) == HitsTaken(d, n)
    ensures Struck(d, n).active <==> d.active && n < HitsToKill(d.health)
  {
    if d.active {
      HitsToKillBounds(d.health, n + 1);
      if n < HitsToKill(d.health) {
        assert (n + 1) as real == n as real + 1.0;
      }
    }
  }

  ghost predicate Distinct(order: seq<Entity>) {
    forall i, j :: 0 <= i < j < |order| ==> order[i] != order[j]
  }

  /** The destructibles that bullet `b` damages when they are as in `dests`. */
  function TargetsAmong(dests: map<Entity, Destructible>, b: Bullet, ds: seq<Entity>): set<Entity>
    requires forall e :: e in ds ==> e in dests
  {
    set e | e in ds && dests[e].active && HitsDestructible(b, dests[e])
  }

  /** From `s` to `r` the bullet has hit each of `targets` once, and is listed once for each. */
  ghost predicate HitEach(s: Strikes, r: Strikes, be: Entity, targets: set<Entity>) {
    && r.destructibles.Keys == s.destructibles.Keys
    && (forall e :: e in s.destructibles ==>
          r.destructibles[e] == if e in targets then Damage(s.destructibles[e]) else s.destructibles[e])
    && multiset(r.log) == multiset(s.log)[be := multiset(s.log)[be] + |targets|]
    && |r.log| == |s.log| + |targets|
  }

  lemma HitOneMore(s: Strikes, r: Strikes, be: Entity, b: Bullet, targets: set<Entity>, e: Entity)
    requires HitEach(s, r, be, targets) && e in s.destructibles && e !in targets
    ensures var hit := s.destructibles[e].active && HitsDestructible(b, s.destructibles[e]);
      HitEach(s, StrikeOne(r, be, b, e), be, if hit then targets + {e} else targets)
  {
  }

  lemma TargetsGrow(dests: map<Entity, Destructible>, b: Bullet, ds: seq<Entity>)
    requires Distinct(ds) && ds != [] && forall e :: e in ds ==> e in dests
    ensures var n, e := |ds| - 1, ds[|ds| - 1];
      && e !in TargetsAmong(dests, b, ds[..n])
      && TargetsAmong(dests, b, ds) == TargetsAmong(dests, b, ds[..n]) +
           if dests[e].active && HitsDestructible(b, dests[e]) then {e} else {}
  {
    var n := |ds| - 1;
    assert ds == ds[..n] + [ds[n]];
  }

  /** One bullet hits each of its targets once, and is listed once for each. */
  lemma {:induction false} StrikeAllEffect(s: Strikes, be: Entity, b: Bullet, ds: seq<Entity>)
    requires Distinct(ds) && forall e :: e in ds ==> e in s.destructibles
    ensures HitEach(s, StrikeAll(s, be, b, ds), be, TargetsAmong(s.destructibles, b, ds))
  {
    if ds == [] {
      assert TargetsAmong(s.destructibles, b, ds) == {};
    } else {
      var n := |ds| - 1;
      StrikeAllEffect(s, be, b, ds[..n]);
      TargetsGrow(s.destructibles, b, ds);
      var rest := TargetsAmong(s.destructibles, b, ds[..n]);
      HitOneMore(s, StrikeAll(s, be, b, ds[..n]), be, b, rest, ds[n]);
      assert rest + {} == rest;
    }
  }

  lemma {:induction false} InRangeGrows(bullets: map<Entity, Bullet>, bs: seq<Entity>, d: Destructible)
    requires Distinct(bs) && bs != []
    requires forall be :: be in bs ==> be in bullets
    ensures var n, be := |bs| - 1, bs[|bs| - 1];
      |InRangeOf(bullets, bs, d)| ==
          |InRangeOf(bullets, bs[..n], d)| + if HitsDestructible(bullets[be], d) then 1 else 0
  {
    var n, be := |bs| - 1, bs[|bs| - 1];
    assert bs == bs[..n] + [be];
    var rest := InRangeOf(bullets, bs[..n], d);
    assert be !in bs[..n];
    if HitsDestructible(bullets[be], d) {
      assert InRangeOf(bullets, bs, d) == rest + {be};
    } else {
      assert InRangeOf(bullets, bs, d) == rest;
    }
  }

  /** After any prefix of the bullets, each destructible has been struck by those in range. */
  lemma {:induction false} PrefixClosedForm(dests: map<Entity, Destructible>, bullets: map<Entity, Bullet>,
                                            bs: seq<Entity>, ds: seq<Entity>, e: Entity)
    requires Enumerates(ds, dests.Keys) && Distinct(bs)
    requires forall be :: be in bs ==> be in bullets
    requires e in dests
    ensures StrikePass(dests, bullets, bs, ds).destructibles[e] == Struck(dests[e], |InRangeOf(bullets, bs, dests[e])|)
  {
    var d := dests[e];
    if bs == [] {
      assert InRangeOf(bullets, bs, d) == {};
    } else {
      var n, be := |bs| - 1, bs[|bs| - 1];
      PrefixClosedForm(dests, bullets, bs[..n], ds, e);
      InRangeGrows(bullets, bs, d);
      var s := StrikePass(dests, bullets, bs[..n], ds);
      StrikeAllEffect(s, be, bullets[be], ds);
      OneMoreStrike(d, |InRangeOf(bullets, bs[..n], d)|, bullets[be]);
    }
  }

  /** A bullet in range strikes once more, and hits exactly while the destructible is active. */
  lemma OneMoreStrike(d: Destructible, n: nat, b: Bullet)
    ensures var now := Struck(d, n);
      Struck(d, n + if HitsDestructible(b, d) then 1 else 0) ==
      if now.active && HitsDestructible(b, now) then Damage(now) else now
  {
    DamageIsOneMore(d, n);
  }

  lemma EnumeratedRange(bullets: map<Entity, Bullet>, bs: seq<Entity>, d: Destructible)
    requires Enumerates(bs, bullets.Keys)
    ensures InRangeOf(bullets, bs, d) == InRange(bullets, d)
  {
  }

  /** Whatever the orders, `n` bullets in range take 25 health each until the destructible is
      spent, and it stays active exactly while health is left. */
  lemma DestructiblesClosedForm(w: World, o: Orders, e: Entity)
    requires OrdersFor(w, o) && e in w.destructibles
    ensures var d, n := w.destructibles[e], |InRange(w.bullets, w.destructibles[e])|;
      var r := StrikePass(w.destructibles, w.bullets, o.bullets, o.destructibles).destructibles[e];
      && r == d.(health := r.health, active := r.active)
      && (!d.active ==> r == d)
      && (d.active ==> r.health == d.health - 25.0 * (MinNat(n, HitsToKill(d.health)) as real))
      && (d.active && d.health > 0.0 ==>
          (r.active <==> r.health > 0.0) && HitsToKill(d.health) == Ceiling(d.health / 25.0))
  {
    var d, n := w.destructibles[e], |InRange(w.bullets, w.destructibles[e])|;
    PrefixClosedForm(w.destructibles, w.bullets, o.bullets, o.destructibles, e);
    EnumeratedRange(w.bullets, o.bullets, d);
    HitsToKillBounds(d.health, HitsTaken(d, n));
    CeilingBounds(d.health / 25.0);
  }

  lemma SubsetSize(a: set<Entity>, b: set<Entity>)
    requires a <= b
    ensures |a| <= |b|
  {
    assert b == a + (b - a);
  }

  // ---------- closed form: the removal list ----------

  /** What the bullet at place `i` of the order damages, said about the initial destructibles:
      those in its range that earlier bullets have not already finished. */
  function Damages(dests: map<Entity, Destructible>, bullets: map<Entity, Bullet>, bs: seq<Entity>, i: nat): set<Entity>
    requires i < |bs| && forall be :: be in bs ==> be in bullets
  {
    set e | e in dests && dests[e].active && HitsDestructible(bullets[bs[i]], dests[e])
            && |InRangeOf(bullets, bs[..i], dests[e])| < HitsToKill(dests[e].health)
  }

  /** The tanks of other owners that a bullet is close enough to hit. */
  function TanksHit(b: Bullet, tanks: map<Entity, Tank>): set<Entity> {
    set e | e in tanks && HitsTank(b, tanks[e])
  }

  lemma TargetsAreDamages(dests: map<Entity, Destructible>, bullets: map<Entity, Bullet>,
                          bs: seq<Entity>, ds: seq<Entity>, i: nat)
    requires Enumerates(ds, dests.Keys) && Distinct(bs) && i < |bs|
    requires forall be :: be in bs ==> be in bullets
    ensures TargetsAmong(StrikePass(dests, bullets, bs[..i], ds).destructibles, bullets[bs[i]], ds)
         == Damages(dests, bullets, bs, i)
  {
    var s := StrikePass(dests, bullets, bs[..i], ds);
    forall e | e in dests
      ensures s.destructibles[e].active <==>
          dests[e].active && |InRangeOf(bullets, bs[..i], dests[e])| < HitsToKill(dests[e].health)
      ensures HitsDestructible(bullets[bs[i]], s.destructibles[e]) <==> HitsDestructible(bullets[bs[i]], dests[e])
    {
      PrefixClosedForm(dests, bullets, bs[..i], ds, e);
      DamageIsOneMore(dests[e], |InRangeOf(bullets, bs[..i], dests[e])|);
    }
  }

  lemma {:induction false} StrikeMultiplicity(dests: map<Entity, Destructible>, bullets: map<Entity, Bullet>,
                                              bs: seq<Entity>, ds: seq<Entity>, i: nat)
    requires Enumerates(ds, dests.Keys) && Distinct(bs) && i < |bs|
    requires forall be :: be in bs ==> be in bullets
    ensures multiset(StrikePass(dests, bullets, bs, ds).log)[bs[i]] == |Damages(dests, bullets, bs, i)|
    decreases |bs|
  {
    var n := |bs| - 1;
    if i < n {
      StrikeMultiplicity(dests, bullets, bs[..n], ds, i);
      EarlierDamages(dests, bullets, bs, i);
      EarlierKeepsCount(dests, bullets, bs, ds, i);
    } else {
      LastMultiplicity(dests, bullets, bs, ds);
    }
  }

  lemma EarlierDamages(dests: map<Entity, Destructible>, bullets: map<Entity, Bullet>, bs: seq<Entity>, i: nat)
    requires i < |bs| - 1 && forall be :: be in bs ==> be in bullets
    ensures Damages(dests, bullets, bs[..|bs| - 1], i) == Damages(dests, bullets, bs, i)
  {
    assert bs[..|bs| - 1][..i] == bs[..i];
  }

  lemma EarlierKeepsCount(dests: map<Entity, Destructible>, bullets: map<Entity, Bullet>,
                          bs: seq<Entity>, ds: seq<Entity>, i: nat)
    requires Enumerates(ds, dests.Keys) && Distinct(bs) && i < |bs| - 1
    requires forall be :: be in bs ==> be in bullets
    ensures multiset(StrikePass(dests, bullets, bs, ds).log)[bs[i]]
         == multiset(StrikePass(dests, bullets, bs[..|bs| - 1], ds).log)[bs[i]]
  {
    var n, be := |bs| - 1, bs[|bs| - 1];
    assert bs[i] != be;
    StrikeAllEffect(StrikePass(dests, bullets, bs[..n], ds), be, bullets[be], ds);
  }

  lemma LastMultiplicity(dests: map<Entity, Destructible>, bullets: map<Entity, Bullet>, bs: seq<Entity>,
                         ds: seq<Entity>)
    requires Enumerates(ds, dests.Keys) && Distinct(bs) && bs != []
    requires forall be :: be in bs ==> be in bullets
    ensures var n := |bs| - 1;
      multiset(StrikePass(dests, bullets, bs, ds).log)[bs[n]] == |Damages(dests, bullets, bs, n)|
  {
    var n, be := |bs| - 1, bs[|bs| - 1];
    StrikeAllEffect(StrikePass(dests, bullets, bs[..n], ds), be, bullets[be], ds);
    TargetsAreDamages(dests, bullets, bs, ds, n);
    assert be !in bs[..n];
    OnlyListed(dests, bullets, bs[..n], ds, be);
  }

  lemma {:induction false} OnlyListed(dests: map<Entity, Destructible>, bullets: map<Entity, Bullet>,
                                      bs: seq<Entity>, ds: seq<Entity>, be: Entity)
    requires Enumerates(ds, dests.Keys) && be !in bs
    requires forall be :: be in bs ==> be in bullets
    ensures multiset(StrikePass(dests, bullets, bs, ds).log)[be] == 0
  {
    if bs != [] {
      var n := |bs| - 1;
      OnlyListed(dests, bullets, bs[..n], ds, be);
      StrikeAllEffect(StrikePass(dests, bullets, bs[..n], ds), bs[n], bullets[bs[n]], ds);
    }
  }

  function TanksAmong(b: Bullet, tanks: map<Entity, Tank>, ts: seq<Entity>): set<Entity>
    requires forall e :: e in ts ==> e in tanks
  {
    set e | e in ts && HitsTank(b, tanks[e])
  }

  lemma {:induction false} TankHitsEffect(log: seq<Entity>, be: Entity, b: Bullet, tanks: map<Entity, Tank>,
                                          ts: seq<Entity>, x: Entity)
    requires Distinct(ts) && forall e :: e in ts ==> e in tanks
    ensures multiset(TankHits(log, be, b, tanks, ts))[x] ==
            multiset(log)[x] + if x == be then |TanksAmong(b, tanks, ts)| else 0
  {
    var hit := TanksAmong(b, tanks, ts);
    if ts == [] {
      assert hit == {};
    } else {
      var n, e := |ts| - 1, ts[|ts| - 1];
      TankHitsEffect(log, be, b, tanks, ts[..n], x);
      var rest := TanksAmong(b, tanks, ts[..n]);
      assert ts == ts[..n] + [e];
      assert e !in rest;
      if HitsTank(b, tanks[e]) {
        assert hit == rest + {e};
      } else {
        assert hit == rest;
      }
    }
  }

  lemma {:induction false} TankPassMultiplicity(log: seq<Entity>, bullets: map<Entity, Bullet>, bs: seq<Entity>,
                                                tanks: map<Entity, Tank>, ts: seq<Entity>, be: Entity)
    requires Enumerates(ts, tanks.Keys) && Distinct(bs)
    requires forall x :: x in bs ==> x in bullets
    ensures multiset(TankPass(log, bullets, bs, tanks, ts))[be] ==
            multiset(log)[be] + if be in bs then |TanksHit(bullets[be], tanks)| else 0
  {
    if bs != [] {
      var n, last := |bs| - 1, bs[|bs| - 1];
      TankPassMultiplicity(log, bullets, bs[..n], tanks, ts, be);
      assert bs == bs[..n] + [last];
      TankHitsEffect(TankPass(log, bullets, bs[..n], tanks, ts), last, bullets[last], tanks, ts, be);
      assert TanksAmong(bullets[last], tanks, ts) == TanksHit(bullets[last], tanks);
    }
  }

  /** How often a bullet is on the removal list: the destructibles it damaged plus the tanks
      of other owners within reach. */
  lemma RemovalMultiplicity(w: World, o: Orders, i: nat)
    requires OrdersFor(w, o) && i < |o.bullets|
    ensures multiset(RemovalList(w, o))[o.bullets[i]] ==
            |Damages(w.destructibles, w.bullets, o.bullets, i)| + |TanksHit(w.bullets[o.bullets[i]], w.tanks)|
  {
    var log := StrikePass(w.destructibles, w.bullets, o.bullets, o.destructibles).log;
    StrikeMultiplicity(w.destructibles, w.bullets, o.bullets, o.destructibles, i);
    TankPassMultiplicity(log, w.bullets, o.bullets, w.tanks, o.tanks, o.bullets[i]);
  }

  /** Nothing but live bullets is ever listed. */
  lemma RemovalListIsBullets(w: World, o: Orders, be: Entity)
    requires OrdersFor(w, o) && be in RemovalList(w, o)
    ensures be in w.bullets
  {
    var log := StrikePass(w.destructibles, w.bullets, o.bullets, o.destructibles).log;
    if be !in w.bullets {
      OnlyListed(w.destructibles, w.bullets, o.bullets, o.destructibles, be);
      TankPassMultiplicity(log, w.bullets, o.bullets, w.tanks, o.tanks, be);
      assert false;
    }
  }

  // ---------- the destroy loop ----------

  lemma DistinctGrows(log: seq<Entity>)
    requires log != []
    ensures var n := |log| - 1; Distinct(log) <==> Distinct(log[..n]) && log[n] !in log[..n]
  {
    var n := |log| - 1;
    assert log == log[..n] + [log[n]];
  }

  function Listed(log: seq<Entity>): set<Entity> {
    set be | be in log
  }

  lemma ListedGrows(log: seq<Entity>)
    requires log != []
    ensures Listed(log) == Listed(log[..|log| - 1]) + {log[|log| - 1]}
  {
    assert log == log[..|log| - 1] + [log[|log| - 1]];
  }

  lemma DestroyOneMore(bullets: map<Entity, Bullet>, gone: set<Entity>, be: Entity)
    ensures (bullets - gone) - {be} == bullets - (gone + {be})
  {
  }

  lemma {:induction false} DestroyListedIff(bullets: map<Entity, Bullet>, log: seq<Entity>)
    requires forall be :: be in log ==> be in bullets
    ensures DestroyListed(bullets, log).Some? <==> Distinct(log)
    ensures Distinct(log) ==> DestroyListed(bullets, log).value == bullets - Listed(log)
  {
    if log == [] {
      assert Listed(log) == {};
    } else {
      var n := |log| - 1;
      DestroyListedIff(bullets, log[..n]);
      DistinctGrows(log);
      ListedGrows(log);
      DestroyOneMore(bullets, Listed(log[..n]), log[n]);
    }
  }

  lemma {:induction false} DistinctIffMultiplicity(log: seq<Entity>)
    ensures Distinct(log) <==> forall be :: multiset(log)[be] <= 1
  {
    if log != [] {
      var n, be := |log| - 1, log[|log| - 1];
      DistinctIffMultiplicity(log[..n]);
      assert log == log[..n] + [be];
      assert multiset(log) == multiset(log[..n]) + multiset{be};
      DistinctGrows(log);
      if Distinct(log[..n]) {
        if be in log[..n] {
          assert multiset(log)[be] > 1;
        }
      } else {
        var x :| multiset(log[..n])[x] > 1;
        assert multiset(log)[x] > 1;
      }
    }
  }

  /** A bullet hits at most one thing: the number a caller can count before the pass. */
  ghost predicate HitsAtMostOne(w: World, o: Orders, i: nat)
    requires OrdersFor(w, o) && i < |o.bullets|
  {
    |Damages(w.destructibles, w.bullets, o.bullets, i)| + |TanksHit(w.bullets[o.bullets[i]], w.tanks)| <= 1
  }

  ghost predicate HitsNothing(w: World, o: Orders, i: nat)
    requires OrdersFor(w, o) && i < |o.bullets|
  {
    |Damages(w.destructibles, w.bullets, o.bullets, i)| + |TanksHit(w.bullets[o.bullets[i]], w.tanks)| == 0
  }

  /** The pass destroys only live entities exactly when every bullet hits at most one thing,
      and then the bullets that hit nothing are the ones that survive. */
  lemma DestroysOnlyLiveIff(w: World, o: Orders)
    requires OrdersFor(w, o)
    ensures Collide(w, o).Some? <==> forall i :: 0 <= i < |o.bullets| ==> HitsAtMostOne(w, o, i)
    ensures Collide(w, o).Some? ==> forall i :: 0 <= i < |o.bullets| ==>
      (o.bullets[i] in Collide(w, o).value.bullets <==> HitsNothing(w, o, i))
    ensures Collide(w, o).Some? ==> forall be :: be in Collide(w, o).value.bullets ==>
      be in w.bullets && Collide(w, o).value.bullets[be] == w.bullets[be]
  {
    var log := RemovalList(w, o);
    forall be | be in log ensures be in w.bullets { RemovalListIsBullets(w, o, be); }
    DestroyListedIff(w.bullets, log);
    DistinctIffMultiplicity(log);
    forall i | 0 <= i < |o.bullets|
      ensures HitsAtMostOne(w, o, i) <==> multiset(log)[o.bullets[i]] <= 1
      ensures HitsNothing(w, o, i) <==> multiset(log)[o.bullets[i]] == 0
    {
      RemovalMultiplicity(w, o, i);
    }
    if forall i :: 0 <= i < |o.bullets| ==> HitsAtMostOne(w, o, i) {
      forall be ensures multiset(log)[be] <= 1 {
        if be in w.bullets {
          assert be in o.bullets;
          var i :| 0 <= i < |o.bullets| && o.bullets[i] == be;
          assert HitsAtMostOne(w, o, i);
        } else {
          assert be !in log;
        }
      }
    }
  }

  // ---------- closed form: collectibles ----------

  lemma {:induction false} CollectAllEffect(cs: map<Entity, Collectible>, t: Tank, order: seq<Entity>, e: Entity)
    requires e in cs && forall x :: x in order ==> x in cs
    ensures CollectAll(cs, t, order)[e] == cs[e].(active := cs[e].active && !(e in order && Collects(t, cs[e])))
  {
    if order != [] {
      var n := |order| - 1;
      assert order == order[..n] + [order[n]];
      CollectAllEffect(cs, t, order[..n], e);
    }
  }

  lemma {:induction false} CollectPassEffect(cs: map<Entity, Collectible>, tanks: map<Entity, Tank>,
                                             ts: seq<Entity>, order: seq<Entity>, e: Entity)
    requires Enumerates(order, cs.Keys) && e in cs
    requires forall x :: x in ts ==> x in tanks
    ensures CollectPass(cs, tanks, ts, order)[e] ==
      cs[e].(active := cs[e].active && forall x :: x in ts ==> !Collects(tanks[x], cs[e]))
  {
    if ts != [] {
      var n := |ts| - 1;
      assert ts == ts[..n] + [ts[n]];
      CollectPassEffect(cs, tanks, ts[..n], order, e);
      CollectAllEffect(CollectPass(cs, tanks, ts[..n], order), tanks[ts[n]], order, e);
    }
  }

  /** A collectible stays active exactly when it was and no tank touches it, in any order. */
  lemma CollectiblesClosedForm(w: World, o: Orders, e: Entity)
    requires OrdersFor(w, o) && e in w.collectibles
    ensures CollectPass(w.collectibles, w.tanks, o.tanks, o.collectibles)[e] ==
      w.collectibles[e].(active := w.collectibles[e].active
        && forall t :: t in w.tanks ==> !Collects(w.tanks[t], w.collectibles[e]))
  {
    CollectPassEffect(w.collectibles, w.tanks, o.tanks, o.collectibles, e);
  }
}
