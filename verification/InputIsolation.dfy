/** What one peer's input can and cannot touch, and how two peers' inputs commute. */
module InputIsolation {
  import opened Vectors
  import opened TankModel
  import opened CollisionModel
  import opened GameModel
  import opened GameRuns

  /** The tanks an input steers: the peer id is truncated to 32 bits. */
  function SteeredBy(w: World, peer: PeerID): set<Entity> {
    set e | e in w.tanks && w.tanks[e].isPlayer && w.tanks[e].peerId == peer % 0x1_0000_0000
  }

  /** The tanks a shooting input fires from: the peer id is compared in 64 bits. */
  function FiresFor(w: World, peer: PeerID): set<Entity> {
    set e | e in w.tanks && w.tanks[e].isPlayer && w.tanks[e].peerId == peer
  }

  /** In every run, an input steers and fires from the same tanks exactly when its peer id fits
      in 32 bits or its truncation names no tank. */
  lemma SameTanksIff(m: Maths, ws: seq<World>, evs: seq<Event>, i: nat, peer: PeerID)
    requires IsRun(m, ws, evs) && i < |ws|
    ensures SteeredBy(ws[i], peer) == FiresFor(ws[i], peer) <==> peer < UINT32_RANGE || SteeredBy(ws[i], peer) == {}
  {
    RunInvariant(m, ws, evs, i);
    if peer >= UINT32_RANGE {
      assert FiresFor(ws[i], peer) == {};
    }
  }

  // ---------- the bullets of one input ----------

  /** The bullets of a shooting input, in view order. */
  function Volley(m: Maths, tanks: map<Entity, Tank>, peer: PeerID, tick: nat, view: seq<Entity>): seq<Bullet>
    requires forall e :: e in view ==> e in tanks
  {
    if view == [] then []
    else
      var t := tanks[view[|view| - 1]];
      Volley(m, tanks, peer, tick, view[..|view| - 1]) +
          if Controls(t, peer) then [FiredBullet(m, t, peer, tick)] else []
  }

  /** The bullets with `bs` added under consecutive fresh identifiers. */
  function Numbered(bullets: map<Entity, Bullet>, start: nat, bs: seq<Bullet>): map<Entity, Bullet> {
    if bs == [] then bullets
    else
      var n := |bs| - 1;
      Numbered(bullets, start, bs[..n])[start + n := bs[n]]
  }

  lemma {:induction false} NumberedMeans(bullets: map<Entity, Bullet>, start: nat, bs: seq<Bullet>, e: Entity)
    ensures var r := Numbered(bullets, start, bs);
      && (start <= e < start + |bs| ==> e in r && r[e] == bs[e - start])
      && (!(start <= e < start + |bs|) ==> (e in r <==> e in bullets) && (e in bullets ==> r[e] == bullets[e]))
  {
    if bs != [] {
      NumberedMeans(bullets, start, bs[..|bs| - 1], e);
    }
  }

  lemma {:induction false} FireAllIsVolley(m: Maths, w: World, peer: PeerID, view: seq<Entity>)
    requires forall e :: e in view ==> e in w.tanks
    ensures var r, v := FireAll(m, w, peer, view), Volley(m, w.tanks, peer, w.tick, view);
      r.next == w.next + |v| && r.bullets == Numbered(w.bullets, w.next, v)
  {
    if view != [] {
      var n := |view| - 1;
      FireAllIsVolley(m, w, peer, view[..n]);
      var before, after := Volley(m, w.tanks, peer, w.tick, view[..n]), Volley(m, w.tanks, peer, w.tick, view);
      if Controls(w.tanks[view[n]], peer) {
        assert after[..|after| - 1] == before;
      } else {
        assert after == before;
      }
    }
  }

  function FiringAmong(w: World, peer: PeerID, view: seq<Entity>): set<Entity> {
    set e | e in view && e in FiresFor(w, peer)
  }

  /** A shooting input fires one bullet for each tank its peer controls. */
  lemma {:induction false} OneShotPerTank(m: Maths, w: World, peer: PeerID, view: seq<Entity>)
    requires Distinct(view) && forall e :: e in view ==> e in w.tanks
    ensures |Volley(m, w.tanks, peer, w.tick, view)| == |FiringAmong(w, peer, view)|
  {
    if view == [] {
      assert FiringAmong(w, peer, view) == {};
    } else {
      var n, last := |view| - 1, view[|view| - 1];
      OneShotPerTank(m, w, peer, view[..n]);
      assert view == view[..n] + [last];
      var before := FiringAmong(w, peer, view[..n]);
      assert last !in before;
      assert FiringAmong(w, peer, view) == if Controls(w.tanks[last], peer) then before + {last} else before;
    }
  }

  /** Each of those bullets leaves the muzzle of such a tank. */
  lemma {:induction false} ShotsLeaveMuzzles(m: Maths, w: World, peer: PeerID, view: seq<Entity>, b: Bullet)
    returns (e: Entity)
    requires forall e :: e in view ==> e in w.tanks
    requires b in Volley(m, w.tanks, peer, w.tick, view)
    ensures e in FiringAmong(w, peer, view)
    ensures Muzzle(m, w.tanks[e], b) && b.ownerPeerId == peer && b.spawnTick == w.tick
  {
    var n := |view| - 1;
    e := view[n];
    if !Controls(w.tanks[e], peer) || b != FiredBullet(m, w.tanks[e], peer, w.tick) {
      e := ShotsLeaveMuzzles(m, w, peer, view[..n], b);
    }
  }

  /** The bullet starts three units ahead of the tank and flies straight on at speed 400. */
  ghost predicate Muzzle(m: Maths, t: Tank, b: Bullet) {
    && Sub(b.position, t.position) == Scale(3.0, m.heading(t.rotation))
    && b.linear == Scale(400.0, m.heading(t.rotation))
    && b.rotation == t.rotation
  }

  // ---------- isolation ----------

  function Shots(m: Maths, w: World, input: InputState, peer: PeerID, view: seq<Entity>): seq<Bullet>
    requires forall e :: e in view ==> e in w.tanks
  {
    if input.shoot then Volley(m, w.tanks, peer, w.tick, view) else []
  }

  /** The world after an input, in one piece. */
  lemma QueueInputIs(m: Maths, w: World, input: InputState, peer: PeerID, view: seq<Entity>)
    requires Enumerates(view, w.tanks.Keys)
    ensures var v := Shots(m, w, input, peer, view);
      QueueInput(m, w, input, peer, view) ==
        w.(tanks := SteerTanks(m, w.tanks, Truncate32(peer), input), next := w.next + |v|,
           bullets := Numbered(w.bullets, w.next, v))
  {
    var steered := w.(tanks := SteerTanks(m, w.tanks, Truncate32(peer), input));
    FireAllIsVolley(m, steered, peer, view);
    VolleyIgnoresSteering(m, w.tanks, steered.tanks, peer, w.tick, view);
  }

  /** Steering changes velocities only, so it does not show in the bullets fired. */
  lemma {:induction false} VolleyIgnoresSteering(m: Maths, tanks: map<Entity, Tank>, tanks': map<Entity, Tank>,
                                                 peer: PeerID, tick: nat, view: seq<Entity>)
    requires forall e :: e in view ==> e in tanks && e in tanks'
    requires forall e :: e in view ==> tanks'[e] == tanks[e].(linear := tanks'[e].linear, angular := tanks'[e].angular)
    ensures Volley(m, tanks', peer, tick, view) == Volley(m, tanks, peer, tick, view)
  {
    if view != [] {
      VolleyIgnoresSteering(m, tanks, tanks', peer, tick, view[..|view| - 1]);
    }
  }

  /** An input creates one bullet for each tank its peer controls if it shoots, and none if not. */
  lemma ShotsPerInput(m: Maths, w: World, input: InputState, peer: PeerID, view: seq<Entity>)
    requires Enumerates(view, w.tanks.Keys)
    ensures var r := QueueInput(m, w, input, peer, view);
      && r.next == w.next + (if input.shoot then |FiresFor(w, peer)| else 0)
      && forall e :: e in r.bullets <==> e in w.bullets || w.next <= e < r.next
  {
    QueueInputIs(m, w, input, peer, view);
    OneShotPerTank(m, w, peer, view);
    assert FiringAmong(w, peer, view) == FiresFor(w, peer);
    forall e { NumberedMeans(w.bullets, w.next, Shots(m, w, input, peer, view), e); }
  }

  /** Every bullet that an input creates leaves the muzzle of a tank of its peer. */
  lemma NewBulletsLeaveMuzzles(m: Maths, w: World, input: InputState, peer: PeerID, view: seq<Entity>, b: Entity)
    returns (e: Entity)
    requires Enumerates(view, w.tanks.Keys)
    requires b in QueueInput(m, w, input, peer, view).bullets && b !in w.bullets
    ensures input.shoot && e in FiresFor(w, peer)
    ensures var bullet := QueueInput(m, w, input, peer, view).bullets[b];
      Muzzle(m, w.tanks[e], bullet) && bullet.ownerPeerId == peer && bullet.spawnTick == w.tick
  {
    var v := Shots(m, w, input, peer, view);
    QueueInputIs(m, w, input, peer, view);
    NumberedMeans(w.bullets, w.next, v, b);
    e := ShotsLeaveMuzzles(m, w, peer, view, v[b - w.next]);
  }

  /** An input changes no tank whose id differs from the truncated id, and no existing bullet. */
  lemma InputIsolated(m: Maths, w: World, input: InputState, peer: PeerID, view: seq<Entity>, e: Entity)
    requires Invariant(w) && Enumerates(view, w.tanks.Keys) && e in w.tanks
    requires w.tanks[e].peerId != Truncate32(peer)
    ensures e in QueueInput(m, w, input, peer, view).tanks && QueueInput(m, w, input, peer, view).tanks[e] == w.tanks[e]
    ensures forall b :: b in w.bullets ==>
      b in QueueInput(m, w, input, peer, view).bullets && QueueInput(m, w, input, peer, view).bullets[b] == w.bullets[b]
  {
    QueueInputIs(m, w, input, peer, view);
    var v := Shots(m, w, input, peer, view);
    forall b | b in w.bullets
      ensures b in Numbered(w.bullets, w.next, v) && Numbered(w.bullets, w.next, v)[b] == w.bullets[b]
    {
      NumberedMeans(w.bullets, w.next, v, b);
    }
  }

  // ---------- steering ----------

  /** The input pushes a tank along its heading by 20 times the throttle, not sideways, sets its
      angular velocity to twice the turn, and does nothing else to it. */
  ghost predicate PushedBy(m: Maths, t: Tank, input: InputState, r: Tank) {
    var h, push := m.heading(t.rotation), Sub(r.linear, t.linear);
    && Dot(push, h) == 20.0 * input.throttle
    && push.x * h.y == push.y * h.x
    && r == t.(linear := r.linear, angular := 2.0 * input.turn)
  }

  lemma SteeringPushes(m: Maths, t: Tank, input: InputState)
    requires m.Valid() && t.acceleration == 20.0 && t.turnSpeed == 2.0
    ensures PushedBy(m, t, input, SteerTank(m, t, input))
  {
    var h, k := m.heading(t.rotation), input.throttle * 20.0;
    assert Sub(SteerTank(m, t, input).linear, t.linear) == Scale(k, h);
    PushAlong(k, h);
  }

  lemma PushAlong(k: real, h: Vec2)
    requires NormSq(h) == 1.0
    ensures Dot(Scale(k, h), h) == k && Scale(k, h).x * h.y == Scale(k, h).y * h.x
  {
    calc {
      Dot(Scale(k, h), h);
    ==
      (k * h.x) * h.x + (k * h.y) * h.y;
    ==
      k * (h.x * h.x + h.y * h.y);
    ==
      k * NormSq(h);
    }
    assert (k * h.x) * h.y == (k * h.y) * h.x;
  }

  /** In every run, an input pushes exactly the tanks of the peer whose id it has in the low 32 bits. */
  lemma SteeringInRuns(m: Maths, ws: seq<World>, evs: seq<Event>, i: nat, e: Entity)
    requires IsRun(m, ws, evs) && i < |evs| && evs[i].Input? && e in ws[i].tanks
    ensures e in ws[i + 1].tanks
    ensures if ws[i].tanks[e].isPlayer && ws[i].tanks[e].peerId == evs[i].peer % 0x1_0000_0000
      then PushedBy(m, ws[i].tanks[e], evs[i].input, ws[i + 1].tanks[e])
      else ws[i + 1].tanks[e] == ws[i].tanks[e]
  {
    RunInvariant(m, ws, evs, i);
    assert Next(m, ws[i], evs[i], ws[i + 1]);
    QueueInputIs(m, ws[i], evs[i].input, evs[i].peer, evs[i].view);
    assert StandardTank(ws[i].tanks[e]);
    SteeringPushes(m, ws[i].tanks[e], evs[i].input);
  }

  /** Of two opposite turns at least one changes the tank. */
  lemma TurningShows(m: Maths, t: Tank)
    requires t.turnSpeed == 2.0
    ensures SteerTank(m, t, InputState(0.0, 1.0, false)) != t || SteerTank(m, t, InputState(0.0, -1.0, false)) != t
  {
  }

  /** The inputs of `peer` leave every tank of another peer as it is. */
  ghost predicate OnlyOwnTanks(m: Maths, w: World, peer: PeerID, view: seq<Entity>)
    requires Enumerates(view, w.tanks.Keys)
  {
    forall input, e :: e in w.tanks && w.tanks[e].peerId != peer ==>
      QueueInput(m, w, input, peer, view).tanks[e] == w.tanks[e]
  }

  /** In every run, the inputs of a peer leave the tanks of the others alone exactly when its id
      fits in 32 bits or its truncation names no tank. */
  lemma OnlyOwnTanksIff(m: Maths, ws: seq<World>, evs: seq<Event>, i: nat, peer: PeerID, view: seq<Entity>)
    requires IsRun(m, ws, evs) && i < |ws| && Enumerates(view, ws[i].tanks.Keys)
    ensures OnlyOwnTanks(m, ws[i], peer, view) <==> peer < UINT32_RANGE || SteeredBy(ws[i], peer) == {}
  {
    RunInvariant(m, ws, evs, i);
    var w := ws[i];
    if peer < UINT32_RANGE || SteeredBy(w, peer) == {} {
      forall input, e | e in w.tanks && w.tanks[e].peerId != peer
        ensures QueueInput(m, w, input, peer, view).tanks[e] == w.tanks[e]
      {
        assert e !in SteeredBy(w, peer);
      }
    } else {
      var e :| e in SteeredBy(w, peer);
      TurningShows(m, w.tanks[e]);
      assert QueueInput(m, w, InputState(0.0, 1.0, false), peer, view).tanks[e] != w.tanks[e]
        || QueueInput(m, w, InputState(0.0, -1.0, false), peer, view).tanks[e] != w.tanks[e];
    }
  }

  /** Two inputs one after the other: the second one's bullets are numbered after the first's. */
  ghost predicate FiredInOrder(w: World, first: seq<Bullet>, second: seq<Bullet>, r: World) {
    && r.bullets == Numbered(Numbered(w.bullets, w.next, first), w.next + |first|, second)
    && r.next == w.next + |first| + |second|
  }

  /** Two inputs commute, up to which fresh identifiers the new bullets get, exactly when their
      truncated peer ids differ, or they turn alike, or they steer no tank at all. */
  lemma InputsCommute(m: Maths, w: World, a: InputState, p: PeerID, vp: seq<Entity>, b: InputState, q: PeerID,
                      vq: seq<Entity>)
    requires Invariant(w) && Enumerates(vp, w.tanks.Keys) && Enumerates(vq, w.tanks.Keys)
    ensures var pq, qp := QueueInput(m, QueueInput(m, w, a, p, vp), b, q, vq),
                          QueueInput(m, QueueInput(m, w, b, q, vq), a, p, vp);
      var x, y := Shots(m, w, a, p, vp), Shots(m, w, b, q, vq);
      && (pq.tanks == qp.tanks <==> Truncate32(p) != Truncate32(q) || a.turn == b.turn || SteeredBy(w, p) == {})
      && pq.tick == qp.tick && pq.next == qp.next
      && pq.collectibles == qp.collectibles && pq.destructibles == qp.destructibles
      && FiredInOrder(w, x, y, pq) && FiredInOrder(w, y, x, qp)
  {
    OneAfterTheOther(m, w, a, p, vp, b, q, vq);
    OneAfterTheOther(m, w, b, q, vq, a, p, vp);
    SteeringCommutesIff(m, w, a, p, b, q);
  }

  /** In particular the inputs of any two distinct peers commute whose ids fit in 32 bits: the two
      worlds differ only in which fresh identifiers the same new bullets have. */
  lemma NarrowIdsCommute(m: Maths, w: World, a: InputState, p: PeerID, vp: seq<Entity>, b: InputState, q: PeerID,
                         vq: seq<Entity>)
    requires Invariant(w) && Enumerates(vp, w.tanks.Keys) && Enumerates(vq, w.tanks.Keys)
    requires p != q && p < UINT32_RANGE && q < UINT32_RANGE
    ensures var pq, qp := QueueInput(m, QueueInput(m, w, a, p, vp), b, q, vq),
                          QueueInput(m, QueueInput(m, w, b, q, vq), a, p, vp);
      var x, y := Shots(m, w, a, p, vp), Shots(m, w, b, q, vq);
      && pq == qp.(bullets := pq.bullets)
      && FiredInOrder(w, x, y, pq) && FiredInOrder(w, y, x, qp)
  {
    InputsCommute(m, w, a, p, vp, b, q, vq);
  }

  /** A peer id beyond 32 bits steers the tank of another peer and fires from no tank. */
  lemma WideIdSteersAnother(m: Maths, position: Vec2, rotation: real, p: PeerID) returns (w: World)
    requires m.Valid() && p < UINT32_RANGE
    ensures IsRun(m, [InitialWorld(false), w], [AddTank(position, rotation, p)])
    ensures var q: PeerID := p + UINT32_RANGE; SteeredBy(w, q) == SteeredBy(w, p) == {0} && FiresFor(w, q) == {}
  {
    w := SpawnTank(InitialWorld(false), position, rotation, p);
  }

  lemma OneAfterTheOther(m: Maths, w: World, a: InputState, p: PeerID, vp: seq<Entity>, b: InputState, q: PeerID,
                         vq: seq<Entity>)
    requires Enumerates(vp, w.tanks.Keys) && Enumerates(vq, w.tanks.Keys)
    ensures var r := QueueInput(m, QueueInput(m, w, a, p, vp), b, q, vq);
      var x, y := Shots(m, w, a, p, vp), Shots(m, w, b, q, vq);
      && FiredInOrder(w, x, y, r) && r.tick == w.tick
      && r.tanks == SteerTanks(m, SteerTanks(m, w.tanks, Truncate32(p), a), Truncate32(q), b)
      && r.collectibles == w.collectibles && r.destructibles == w.destructibles
  {
    var mid := QueueInput(m, w, a, p, vp);
    QueueInputIs(m, w, a, p, vp);
    ShotsUnaffected(m, w, a, p, vp, b, q, vq);
    QueueInputIs(m, mid, b, q, vq);
  }

  lemma ShotsUnaffected(m: Maths, w: World, a: InputState, p: PeerID, vp: seq<Entity>, b: InputState, q: PeerID,
                        vq: seq<Entity>)
    requires Enumerates(vp, w.tanks.Keys) && Enumerates(vq, w.tanks.Keys)
    ensures Enumerates(vq, QueueInput(m, w, a, p, vp).tanks.Keys)
    ensures Shots(m, QueueInput(m, w, a, p, vp), b, q, vq) == Shots(m, w, b, q, vq)
  {
    QueueInputIs(m, w, a, p, vp);
    VolleyIgnoresSteering(m, w.tanks, SteerTanks(m, w.tanks, Truncate32(p), a), q, w.tick, vq);
  }

  lemma SteeringTwice(m: Maths, t: Tank, a: InputState, b: InputState)
    ensures SteerTank(m, SteerTank(m, t, a), b) == SteerTank(m, SteerTank(m, t, b), a).(angular := b.turn * t.turnSpeed)
  {
    var x := Scale(a.throttle * t.acceleration, m.heading(t.rotation));
    var y := Scale(b.throttle * t.acceleration, m.heading(t.rotation));
    assert Add(Add(t.linear, x), y) == Add(Add(t.linear, y), x);
  }

  lemma SteeringCommutesIff(m: Maths, w: World, a: InputState, p: PeerID, b: InputState, q: PeerID)
    requires Invariant(w)
    ensures SteerTanks(m, SteerTanks(m, w.tanks, Truncate32(p), a), Truncate32(q), b)
         == SteerTanks(m, SteerTanks(m, w.tanks, Truncate32(q), b), Truncate32(p), a)
       <==> Truncate32(p) != Truncate32(q) || a.turn == b.turn || SteeredBy(w, p) == {}
  {
    var pq, qp := SteerTanks(m, SteerTanks(m, w.tanks, Truncate32(p), a), Truncate32(q), b),
                  SteerTanks(m, SteerTanks(m, w.tanks, Truncate32(q), b), Truncate32(p), a);
    forall e | e in w.tanks
      ensures pq[e] == qp[e] <==> Truncate32(p) != Truncate32(q) || a.turn == b.turn || e !in SteeredBy(w, p)
    {
      TankCommutesIff(m, w.tanks, a, p, b, q, e);
    }
    if pq != qp {
      var e :| e in w.tanks && pq[e] != qp[e];
    }
  }

  lemma TankCommutesIff(m: Maths, tanks: map<Entity, Tank>, a: InputState, p: PeerID, b: InputState, q: PeerID,
                        e: Entity)
    requires e in tanks && tanks[e].turnSpeed == 2.0
    ensures SteerTanks(m, SteerTanks(m, tanks, Truncate32(p), a), Truncate32(q), b)[e]
         == SteerTanks(m, SteerTanks(m, tanks, Truncate32(q), b), Truncate32(p), a)[e]
       <==> Truncate32(p) != Truncate32(q) || a.turn == b.turn || !Controls(tanks[e], Truncate32(p))
  {
    if Truncate32(p) == Truncate32(q) && Controls(tanks[e], Truncate32(p)) {
      SteeringTwice(m, tanks[e], a, b);
    }
  }
}
