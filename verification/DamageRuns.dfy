/** Health and activity over whole runs: damage is conserved and nothing comes back to life. */
module DamageRuns {
  import opened TankModel
  import opened CollisionModel
  import opened CollisionOrder
  import opened GameModel
  import opened GameRuns

  /** Every destructible ever seen has its health in quarters and is active exactly while some
      is left. */
  lemma HealthLevels(m: Maths, ws: seq<World>, evs: seq<Event>, i: nat, e: Entity)
    requires IsRun(m, ws, evs) && i < |ws| && e in ws[i].destructibles
    ensures var d := ws[i].destructibles[e];
      && 0 <= Level(d) <= 4 && d.health == 25.0 * (Level(d) as real)
      && (d.active <==> d.health > 0.0)
  {
    RunInvariant(m, ws, evs, i);
  }

  function Level(d: Destructible): int {
    if d.health == 100.0 then 4 else if d.health == 75.0 then 3 else if d.health == 50.0 then 2
    else if d.health == 25.0 then 1 else 0
  }

  /** The hits that the call `ev` records on the destructible `e`. */
  ghost function HitsOn(m: Maths, w: World, ev: Event, e: Entity): nat {
    if ev.Step? && Steppable(w) && e in w.destructibles
    then HitsTaken(w.destructibles[e], |InRange(Colliding(m, w), w.destructibles[e])|)
    else 0
  }

  /** What one call does to a destructible that is still there. */
  lemma NextDestructibles(m: Maths, w: World, ev: Event, w': World, e: Entity)
    requires m.Valid() && Invariant(w) && Next(m, w, ev, w') && e in w'.destructibles
    ensures e !in w.destructibles ==> e >= w.next && w'.destructibles[e].health == 100.0
    ensures e in w.destructibles ==>
        w'.destructibles[e].health == w.destructibles[e].health - 25.0 * (HitsOn(m, w, ev, e) as real)
    ensures e in w.destructibles && !w.destructibles[e].active ==> !w'.destructibles[e].active
  {
    match ev
    case Step(o) =>
      BeforeCollisionKeeps(m, w);
      StepKeeps(m, w, o, w');
      var v := BeforeCollision(m, w);
      PrefixClosedForm(v.destructibles, v.bullets, o.bullets, o.destructibles, e);
      EnumeratedRange(v.bullets, o.bullets, v.destructibles[e]);
      StruckKeeps(w.destructibles[e], |InRange(Colliding(m, w), w.destructibles[e])|);
    case Input(input, peer, view) =>
    case _ => OtherKeeps(m, w, ev, w');
  }

  ghost function HitsBetween(m: Maths, ws: seq<World>, evs: seq<Event>, i: nat, j: nat, e: Entity): nat
    requires |ws| == |evs| + 1 && i <= j < |ws|
    decreases j
  {
    if i == j then 0 else HitsBetween(m, ws, evs, i, j - 1, e) + HitsOn(m, ws[j - 1], evs[j - 1], e)
  }

  ghost predicate HurtTo(w: World, w': World, e: Entity, hits: nat) {
    && e in w.destructibles && e in w'.destructibles
    && w.destructibles[e].health - w'.destructibles[e].health == 25.0 * (hits as real)
    && (!w.destructibles[e].active ==> !w'.destructibles[e].active)
  }

  lemma HurtFurther(m: Maths, start: World, w: World, ev: Event, w': World, e: Entity, hits: nat)
    requires m.Valid() && Invariant(w) && Next(m, w, ev, w') && e in w'.destructibles && HurtTo(start, w, e, hits)
    ensures HurtTo(start, w', e, hits + HitsOn(m, w, ev, e))
  {
    NextDestructibles(m, w, ev, w', e);
  }

  lemma StoodBefore(m: Maths, ws: seq<World>, evs: seq<Event>, i: nat, k: nat, e: Entity)
    requires IsRun(m, ws, evs) && i <= k < |evs| && e < ws[i].next && e in ws[k + 1].destructibles
    ensures Invariant(ws[k]) && e in ws[k].destructibles
  {
    TimeAdvances(m, ws, evs, i, k);
    RunInvariant(m, ws, evs, k);
    NextDestructibles(m, ws[k], evs[k], ws[k + 1], e);
  }

  /** A destructible loses 25 health for every hit recorded on it, and never reactivates. */
  lemma {:induction false} DamageConserved(m: Maths, ws: seq<World>, evs: seq<Event>, i: nat, j: nat, e: Entity)
    requires IsRun(m, ws, evs) && i <= j < |ws|
    requires e < ws[i].next && e in ws[j].destructibles
    ensures HurtTo(ws[i], ws[j], e, HitsBetween(m, ws, evs, i, j, e))
    decreases j
  {
    if i < j {
      StoodBefore(m, ws, evs, i, j - 1, e);
      DamageConserved(m, ws, evs, i, j - 1, e);
      HurtFurther(m, ws[i], ws[j - 1], evs[j - 1], ws[j], e, HitsBetween(m, ws, evs, i, j - 1, e));
    }
  }

  lemma NextCollectibles(m: Maths, w: World, ev: Event, w': World, e: Entity)
    requires m.Valid() && Invariant(w) && Next(m, w, ev, w') && e in w'.collectibles
    ensures e !in w.collectibles ==> e >= w.next
    ensures e in w.collectibles ==>
      w'.collectibles[e].active ==
        (w.collectibles[e].active
          && (ev.Step? ==> forall t :: t in w'.tanks ==> !Collects(w'.tanks[t], w.collectibles[e])))
  {
    match ev
    case Step(o) =>
      StepKeeps(m, w, o, w');
      CollectiblesClosedForm(BeforeCollision(m, w), o, e);
    case Input(input, peer, view) =>
    case _ => OtherKeeps(m, w, ev, w');
  }

  ghost predicate GoneStays(w: World, w': World, e: Entity) {
    && e in w.collectibles && e in w'.collectibles
    && (!w.collectibles[e].active ==> !w'.collectibles[e].active)
  }

  lemma GoneStaysNext(m: Maths, ws: seq<World>, evs: seq<Event>, i: nat, k: nat, e: Entity)
    requires IsRun(m, ws, evs) && i <= k < |evs| && e < ws[i].next && e in ws[k + 1].collectibles
    ensures GoneStays(ws[k], ws[k + 1], e)
  {
    TimeAdvances(m, ws, evs, i, k);
    RunInvariant(m, ws, evs, k);
    NextCollectibles(m, ws[k], evs[k], ws[k + 1], e);
  }

  /** A collectible is taken by the first step that ends with a tank touching it, for good. */
  lemma {:induction false} CollectedForGood(m: Maths, ws: seq<World>, evs: seq<Event>, i: nat, j: nat, e: Entity)
    requires IsRun(m, ws, evs) && i <= j < |ws|
    requires e < ws[i].next && e in ws[j].collectibles
    ensures GoneStays(ws[i], ws[j], e)
    decreases j
  {
    if i < j {
      GoneStaysNext(m, ws, evs, i, j - 1, e);
      CollectedForGood(m, ws, evs, i, j - 1, e);
    }
  }

  // ---------- the total ----------

  /** The length of the destructible part of the removal list of a step. */
  ghost function Recorded(m: Maths, w: World, ev: Event): nat {
    if ev.Step? && Steppable(w) && OrdersFor(BeforeCollision(m, w), ev.orders) then
      var v := BeforeCollision(m, w);
      |StrikePass(v.destructibles, v.bullets, ev.orders.bullets, ev.orders.destructibles).log|
    else 0
  }

  ghost function TotalRecorded(m: Maths, ws: seq<World>, evs: seq<Event>, j: nat): nat
    requires |ws| == |evs| + 1 && j < |ws|
  {
    if j == 0 then 0 else TotalRecorded(m, ws, evs, j - 1) + Recorded(m, ws[j - 1], evs[j - 1])
  }

  /** The quarters of health each destructible has lost since it was created. */
  function Lost(dests: map<Entity, Destructible>): map<Entity, nat> {
    map e | e in dests :: 4 - Level(dests[e])
  }

  /** The quarters of health that a destructible had lost when the call `ev` removed it. */
  ghost function LostBefore(w: World, ev: Event): nat {
    if ev.Destroy? && ev.entity in w.destructibles then Lost(w.destructibles)[ev.entity] else 0
  }

  ghost function TotalLostBefore(ws: seq<World>, evs: seq<Event>, j: nat): nat
    requires |ws| == |evs| + 1 && j < |ws|
  {
    if j == 0 then 0 else TotalLostBefore(ws, evs, j - 1) + LostBefore(ws[j - 1], evs[j - 1])
  }

  lemma {:induction false} SumAdds(order: seq<Entity>, f: map<Entity, nat>, g: map<Entity, nat>, h: map<Entity, nat>)
    requires forall e :: e in order ==> e in f && e in g && e in h && h[e] == f[e] + g[e]
    ensures SumOver(order, h) == SumOver(order, f) + SumOver(order, g)
  {
    if order != [] {
      SumAdds(order[..|order| - 1], f, g, h);
    }
  }

  lemma LostByStriking(d: Destructible, d': Destructible, n: nat)
    requires StandardDestructible(d) && StandardDestructible(d') && d'.health == d.health - 25.0 * (n as real)
    ensures 4 - Level(d') == 4 - Level(d) + n
  {
    assert d.health == 25.0 * (Level(d) as real) && d'.health == 25.0 * (Level(d') as real);
  }

  lemma CountsAreHits(m: Maths, w: World, o: Orders, v: World, e: Entity)
    requires Steppable(w) && v == BeforeCollision(m, w) && OrdersFor(v, o) && e in w.destructibles
    ensures HitCounts(v.destructibles, v.bullets, o.bullets)[e] == HitsOn(m, w, Step(o), e)
  {
    EnumeratedRange(v.bullets, o.bullets, v.destructibles[e]);
  }

  /** What a destructible loses is what is recorded on it, counted in quarters. */
  lemma LostByHits(before: map<Entity, Destructible>, after: map<Entity, Destructible>, e: Entity, hits: nat)
    requires e in before && e in after && StandardDestructible(before[e]) && StandardDestructible(after[e])
    requires after[e].health == before[e].health - 25.0 * (hits as real)
    ensures Lost(after)[e] == Lost(before)[e] + hits
  {
    LostByStriking(before[e], after[e], hits);
  }

  /** The hits of one collision pass, added up per destructible, are its recorded hits. */
  lemma HitsAddUp(v: World, o: Orders, order: seq<Entity>, lost: map<Entity, nat>, lost': map<Entity, nat>)
    requires OrdersFor(v, o) && Enumerates(order, v.destructibles.Keys)
    requires forall e :: e in order ==> e in lost && e in lost'
    requires forall e :: e in order ==> lost'[e] == lost[e] + HitCounts(v.destructibles, v.bullets, o.bullets)[e]
    ensures SumOver(order, lost') ==
            SumOver(order, lost) + |StrikePass(v.destructibles, v.bullets, o.bullets, o.destructibles).log|
  {
    var counts := HitCounts(v.destructibles, v.bullets, o.bullets);
    SumAdds(order, lost, counts, lost');
    LogLength(v.destructibles, v.bullets, o.bullets, o.destructibles);
    SumIsOrderFree(order, o.destructibles, counts);
  }

  lemma StepLoses(m: Maths, w: World, o: Orders, w': World, order: seq<Entity>)
    requires m.Valid() && Invariant(w) && Next(m, w, Step(o), w')
    requires Enumerates(order, w'.destructibles.Keys)
    ensures w'.destructibles.Keys == w.destructibles.Keys
    ensures SumOver(order, Lost(w'.destructibles)) == SumOver(order, Lost(w.destructibles)) + Recorded(m, w, Step(o))
  {
    StepKeeps(m, w, o, w');
    var v := BeforeCollision(m, w);
    forall e | e in order
      ensures Lost(w'.destructibles)[e] ==
          Lost(w.destructibles)[e] + HitCounts(v.destructibles, v.bullets, o.bullets)[e]
    {
      NextDestructibles(m, w, Step(o), w', e);
      CountsAreHits(m, w, o, v, e);
      LostByHits(w.destructibles, w'.destructibles, e, HitsOn(m, w, Step(o), e));
    }
    HitsAddUp(v, o, order, Lost(w.destructibles), Lost(w'.destructibles));
  }

  lemma {:induction false} SumSame(order: seq<Entity>, f: map<Entity, nat>, g: map<Entity, nat>)
    requires forall e :: e in order ==> e in f && e in g && f[e] == g[e]
    ensures SumOver(order, f) == SumOver(order, g)
  {
    if order != [] {
      SumSame(order[..|order| - 1], f, g);
    }
  }

  lemma UnhurtLoseNothing(before: map<Entity, Destructible>, after: map<Entity, Destructible>, order: seq<Entity>,
                          order': seq<Entity>)
    requires Enumerates(order, before.Keys) && Enumerates(order', after.Keys)
    requires after.Keys == before.Keys && forall e :: e in before ==> after[e] == before[e]
    ensures SumOver(order', Lost(after)) == SumOver(order, Lost(before))
  {
    SumSame(order', Lost(after), Lost(before));
    SumIsOrderFree(order', order, Lost(before));
  }

  lemma AdditionLosesNothing(before: map<Entity, Destructible>, e: Entity, d: Destructible, order: seq<Entity>,
                             order': seq<Entity>)
    requires e !in before && d.health == 100.0
    requires Enumerates(order, before.Keys) && Enumerates(order', before[e := d].Keys)
    ensures SumOver(order', Lost(before[e := d])) == SumOver(order, Lost(before))
  {
    var longer := order + [e];
    assert Enumerates(longer, before[e := d].Keys);
    assert longer[..|order|] == order;
    SumSame(order, Lost(before[e := d]), Lost(before));
    SumIsOrderFree(order', longer, Lost(before[e := d]));
  }

  lemma RemovalTakesItsLoss(before: map<Entity, Destructible>, e: Entity, order: seq<Entity>, order': seq<Entity>)
    requires e in before
    requires Enumerates(order, before.Keys) && Enumerates(order', (before - {e}).Keys)
    ensures SumOver(order', Lost(before - {e})) + Lost(before)[e] == SumOver(order, Lost(before))
  {
    var longer := order' + [e];
    assert Enumerates(longer, before.Keys);
    assert longer[..|order'|] == order';
    SumSame(order', Lost(before - {e}), Lost(before));
    SumIsOrderFree(order, longer, Lost(before));
  }

  /** A call that is not a step adds at most one destructible, undamaged, or removes one. */
  lemma OtherLosesNothing(m: Maths, w: World, ev: Event, w': World, order: seq<Entity>, order': seq<Entity>)
    requires m.Valid() && Invariant(w) && Next(m, w, ev, w') && !ev.Step?
    requires Enumerates(order, w.destructibles.Keys) && Enumerates(order', w'.destructibles.Keys)
    ensures SumOver(order', Lost(w'.destructibles)) + LostBefore(w, ev) == SumOver(order, Lost(w.destructibles))
  {
    if ev.AddDestructible? {
      AdditionLosesNothing(w.destructibles, w.next, w'.destructibles[w.next], order, order');
    } else if ev.Destroy? && ev.entity in w.destructibles {
      RemovalTakesItsLoss(w.destructibles, ev.entity, order, order');
    } else {
      SameDestructibles(m, w, ev, w');
      UnhurtLoseNothing(w.destructibles, w'.destructibles, order, order');
    }
  }

  lemma SameDestructibles(m: Maths, w: World, ev: Event, w': World)
    requires Next(m, w, ev, w') && !ev.Step? && !ev.AddDestructible?
    requires ev.Destroy? ==> ev.entity !in w.destructibles
    ensures w'.destructibles == w.destructibles
  {
  }

  /** The quarters of health lost by the destructibles that are there, together with those that
      the removed ones had lost when they were removed, are exactly the destructible hits
      recorded since the start, in whatever order they are added. */
  lemma {:induction false} TotalDamageConserved(m: Maths, ws: seq<World>, evs: seq<Event>, j: nat, order: seq<Entity>)
    requires IsRun(m, ws, evs) && j < |ws|
    requires Enumerates(order, ws[j].destructibles.Keys)
    ensures SumOver(order, Lost(ws[j].destructibles)) + TotalLostBefore(ws, evs, j) == TotalRecorded(m, ws, evs, j)
    decreases j
  {
    if j == 0 {
      AllZero(order, Lost(ws[0].destructibles));
    } else {
      var w, ev := ws[j - 1], evs[j - 1];
      RunInvariant(m, ws, evs, j - 1);
      var before := EnumerationExists(w.destructibles.Keys);
      TotalDamageConserved(m, ws, evs, j - 1, before);
      CallConserves(m, w, ev, ws[j], before, order);
    }
  }

  lemma CallConserves(m: Maths, w: World, ev: Event, w': World, order: seq<Entity>, order': seq<Entity>)
    requires m.Valid() && Invariant(w) && Next(m, w, ev, w')
    requires Enumerates(order, w.destructibles.Keys) && Enumerates(order', w'.destructibles.Keys)
    ensures SumOver(order', Lost(w'.destructibles)) + LostBefore(w, ev)
         == SumOver(order, Lost(w.destructibles)) + Recorded(m, w, ev)
  {
    if ev.Step? {
      StepLoses(m, w, ev.orders, w', order');
      SumIsOrderFree(order', order, Lost(w.destructibles));
    } else {
      OtherLosesNothing(m, w, ev, w', order, order');
    }
  }
}
