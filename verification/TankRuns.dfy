/** How fast and how far tanks go: under arbitrary inputs, and when nobody steers them. */
module TankRuns {
  import opened RealMath
  import opened Vectors
  import opened TankModel
  import opened GameModel
  import opened GameRuns

  // ---------- one movement update ----------

  /** The clamp scales the velocity down to the maximum speed and keeps its direction. */
  lemma ClampScales(m: Maths, v: Vec2, maxSpeed: real)
    requires m.Valid() && maxSpeed >= 0.0 && m.length(v) > maxSpeed
    ensures 0.0 <= maxSpeed / m.length(v) <= 1.0
    ensures NormSq(Scale(maxSpeed / m.length(v), v)) == maxSpeed * maxSpeed
  {
    var l := m.length(v);
    var k := maxSpeed / l;
    assert k * l == maxSpeed;
    NormSqOfScale(k, v);
    assert (k * k) * (l * l) == (k * l) * (k * l);
    if k > 1.0 {
      MulLt(l, 1.0, k);
    }
    if k < 0.0 {
      MulLt(l, k, 0.0);
    }
  }

  lemma ShrinkFactor(c: real, f: real)
    requires 0.0 <= c <= 1.0 && 0.0 <= f
    ensures 0.0 <= c * f <= f
  {
    MulLe(f, c, 1.0);
    MulNonneg(c, f);
  }

  lemma ShrinkWithin(k: real, v: Vec2, r: real)
    requires 0.0 <= k <= 1.0 && r >= 0.0 && Within(v, r)
    ensures Within(Scale(k, v), r)
  {
    ScaleWithin(k, v, r);
    MulLe(r, k, 1.0);
    WithinMonotone(Scale(k, v), k * r, r);
  }

  predicate Along(r: Vec2, k: real, v: Vec2) {
    r == Scale(k, v)
  }

  /** The clamp on a bare velocity. */
  function Clamped(m: Maths, slowed: Vec2, maxSpeed: real): Vec2
    requires maxSpeed >= 0.0
  {
    var speed := m.length(slowed);
    if speed > maxSpeed then Scale(maxSpeed / speed, slowed) else slowed
  }

  lemma ClampedWithin(m: Maths, slowed: Vec2, maxSpeed: real, r: real) returns (c: real)
    requires m.Valid() && maxSpeed >= 0.0 && r >= 0.0 && Within(slowed, r)
    ensures 0.0 <= c <= 1.0 && Clamped(m, slowed, maxSpeed) == Scale(c, slowed)
    ensures Within(Clamped(m, slowed, maxSpeed), maxSpeed) && Within(Clamped(m, slowed, maxSpeed), r)
    ensures Clamped(m, slowed, maxSpeed) == slowed || NormSq(Clamped(m, slowed, maxSpeed)) == maxSpeed * maxSpeed
  {
    if m.length(slowed) > maxSpeed {
      c := maxSpeed / m.length(slowed);
      ClampScales(m, slowed, maxSpeed);
      ShrinkWithin(c, slowed, r);
    } else {
      c := 1.0;
      UnclampedWithin(m, slowed, maxSpeed);
    }
  }

  lemma SlowedWithin(m: Maths, u: Vec2, f: real, maxSpeed: real, v: real) returns (k: real)
    requires m.Valid() && maxSpeed >= 0.0 && f >= 0.0 && v >= 0.0 && Within(u, v)
    ensures var linear := Clamped(m, Scale(f, u), maxSpeed);
      && Within(linear, maxSpeed) && Within(linear, f * v)
      && (linear == Scale(f, u) || NormSq(linear) == maxSpeed * maxSpeed)
      && 0.0 <= k <= f && Along(linear, k, u)
  {
    ScaleWithin(f, u, v);
    MulNonneg(f, v);
    var c := ClampedWithin(m, Scale(f, u), maxSpeed, f * v);
    ScaleTwice(c, f, u);
    ShrinkFactor(c, f);
    k := c * f;
  }

  lemma MovesBy(m: Maths, t: Tank, dt: real)
    requires t.maxSpeed >= 0.0
    ensures var r := MoveTank(m, t, dt);
      && r.linear == Clamped(m, Scale(t.friction, t.linear), t.maxSpeed)
      && Sub(r.position, t.position) == Scale(dt, r.linear)
  {
  }

  /** After a movement update the speed is the smaller of the maximum and the slowed speed, the
      direction is unchanged, and the tank has moved by the new velocity. */
  lemma MoveTankSpeed(m: Maths, t: Tank, dt: real, v: real)
    requires m.Valid() && t.maxSpeed >= 0.0 && 0.0 <= t.friction && v >= 0.0 && Within(t.linear, v)
    ensures var r := MoveTank(m, t, dt);
      && Within(r.linear, t.maxSpeed)
      && Within(r.linear, t.friction * v)
      && Sub(r.position, t.position) == Scale(dt, r.linear)
      && (r.linear == Scale(t.friction, t.linear) || NormSq(r.linear) == t.maxSpeed * t.maxSpeed)
      && (exists k :: 0.0 <= k <= t.friction && Along(r.linear, k, t.linear))
  {
    MovesBy(m, t, dt);
    var k := SlowedWithin(m, t.linear, t.friction, t.maxSpeed, v);
  }

  lemma UnclampedWithin(m: Maths, v: Vec2, maxSpeed: real)
    requires m.Valid() && m.length(v) <= maxSpeed
    ensures Within(v, maxSpeed)
  {
    if m.length(v) < maxSpeed {
      SquareLt(m.length(v), maxSpeed);
    }
  }

  lemma ScaleTwice(a: real, b: real, v: Vec2)
    ensures Scale(a, Scale(b, v)) == Scale(a * b, v)
  {
    assert a * (b * v.x) == (a * b) * v.x;
    assert a * (b * v.y) == (a * b) * v.y;
  }

  // ---------- speed and reach over runs ----------

  /** After every step, every tank's speed is at most its maximum, whatever inputs came before. */
  lemma SpeedAfterStep(m: Maths, ws: seq<World>, evs: seq<Event>, i: nat, e: Entity)
    requires IsRun(m, ws, evs) && i < |evs| && evs[i].Step? && e in ws[i + 1].tanks
    ensures Within(ws[i + 1].tanks[e].linear, ws[i + 1].tanks[e].maxSpeed)
    ensures ws[i + 1].tanks[e].maxSpeed == 100.0
  {
    RunInvariant(m, ws, evs, i);
    StepKeeps(m, ws[i], evs[i].orders, ws[i + 1]);
    var t := ws[i].tanks[e];
    LengthWithin(m, t.linear);
    MoveTankSpeed(m, t, TIMESTEP, m.length(t.linear));
  }

  lemma LengthWithin(m: Maths, v: Vec2)
    requires m.Valid()
    ensures m.length(v) >= 0.0 && Within(v, m.length(v))
  {
  }

  predicate Steers(ev: Event, t: Tank) {
    ev.Input? && Controls(t, Truncate32(ev.peer))
  }

  /** What one call does to a tank that is still there: a step moves it, an input from its own
      peer steers it, and nothing else touches it. */
  lemma NextTanks(m: Maths, w: World, ev: Event, w': World, e: Entity)
    requires m.Valid() && Invariant(w) && Next(m, w, ev, w') && e in w'.tanks
    ensures e !in w.tanks ==> e >= w.next
    ensures e in w.tanks && ev.Step? ==> w'.tanks[e] == MoveTank(m, w.tanks[e], TIMESTEP)
    ensures e in w.tanks && !ev.Step? ==>
      w'.tanks[e] == if Steers(ev, w.tanks[e]) then SteerTank(m, w.tanks[e], ev.input) else w.tanks[e]
  {
    match ev
    case Step(o) => StepKeeps(m, w, o, w');
    case Input(input, peer, view) =>
    case _ => OtherKeeps(m, w, ev, w');
  }

  lemma NextPosition(m: Maths, w: World, ev: Event, w': World, e: Entity)
    requires m.Valid() && Invariant(w) && Next(m, w, ev, w') && e in w.tanks && e in w'.tanks
    ensures ev.Step? ==> Within(Sub(w'.tanks[e].position, w.tanks[e].position), 100.0 * TIMESTEP)
    ensures !ev.Step? ==> w'.tanks[e].position == w.tanks[e].position
  {
    NextTanks(m, w, ev, w', e);
    if ev.Step? {
      var t := w.tanks[e];
      LengthWithin(m, t.linear);
      MoveTankSpeed(m, t, TIMESTEP, m.length(t.linear));
      ScaleWithin(TIMESTEP, w'.tanks[e].linear, 100.0);
    }
  }

  lemma AddToReach(p: Vec2, q: Vec2, r: Vec2, n: nat)
    requires Within(Sub(q, p), (n as real) * (100.0 * TIMESTEP)) && Within(Sub(r, q), 100.0 * TIMESTEP)
    ensures Within(Sub(r, p), ((n + 1) as real) * (100.0 * TIMESTEP))
  {
    Triangle(Sub(q, p), Sub(r, q), (n as real) * (100.0 * TIMESTEP), 100.0 * TIMESTEP);
    assert Add(Sub(q, p), Sub(r, q)) == Sub(r, p);
  }

  ghost predicate ReachedFrom(w: World, w': World, e: Entity) {
    && e in w.tanks && e in w'.tanks && w.tick <= w'.tick
    && Within(Sub(w'.tanks[e].position, w.tanks[e].position), ((w'.tick - w.tick) as real) * (100.0 * TIMESTEP))
  }

  lemma ReachesFurther(m: Maths, start: World, w: World, ev: Event, w': World, e: Entity)
    requires m.Valid() && Invariant(w) && Next(m, w, ev, w') && e in w'.tanks && ReachedFrom(start, w, e)
    ensures ReachedFrom(start, w', e)
  {
    NextKeeps(m, w, ev, w');
    NextPosition(m, w, ev, w', e);
    if ev.Step? {
      AddToReach(start.tanks[e].position, w.tanks[e].position, w'.tanks[e].position, w.tick - start.tick);
    }
  }

  lemma StillThere(m: Maths, ws: seq<World>, evs: seq<Event>, i: nat, k: nat, e: Entity)
    requires IsRun(m, ws, evs) && i <= k < |evs| && e < ws[i].next && e in ws[k + 1].tanks
    ensures Invariant(ws[k]) && e in ws[k].tanks
  {
    TimeAdvances(m, ws, evs, i, k);
    RunInvariant(m, ws, evs, k);
    NextTanks(m, ws[k], evs[k], ws[k + 1], e);
  }

  /** Over any stretch of a run a tank moves at most its maximum speed times the steps taken,
      in a straight line, whatever inputs were queued in between. */
  lemma {:induction false} TankReach(m: Maths, ws: seq<World>, evs: seq<Event>, i: nat, j: nat, e: Entity)
    requires IsRun(m, ws, evs) && i <= j < |ws|
    requires e < ws[i].next && e in ws[j].tanks
    ensures ReachedFrom(ws[i], ws[j], e)
    decreases j
  {
    if i < j {
      StillThere(m, ws, evs, i, j - 1, e);
      TankReach(m, ws, evs, i, j - 1, e);
      ReachesFurther(m, ws[i], ws[j - 1], evs[j - 1], ws[j], e);
    }
  }

  // ---------- coasting ----------

  function Pow(b: real, n: nat): real {
    if n == 0 then 1.0 else b * Pow(b, n - 1)
  }

  /** `n` movement updates without any input. */
  function Coast(m: Maths, t: Tank, n: nat): (r: Tank)
    requires t.maxSpeed >= 0.0
    ensures r.maxSpeed == t.maxSpeed && r.friction == t.friction && r.isPlayer == t.isPlayer && r.peerId == t.peerId
  {
    if n == 0 then t else MoveTank(m, Coast(m, t, n - 1), TIMESTEP)
  }

  /** What `n` updates of friction leave of `v`. */
  function Faded(v: real, n: nat): real {
    if n == 0 then v else 0.98 * Faded(v, n - 1)
  }

  lemma {:induction false} FadedIs(v: real, n: nat)
    ensures Faded(v, n) == Pow(0.98, n) * v
  {
    if n > 0 {
      FadedIs(v, n - 1);
      assert Pow(0.98, n) * v == 0.98 * (Pow(0.98, n - 1) * v);
    }
  }

  lemma {:induction false} FadedBounds(v: real, n: nat)
    requires v >= 0.0
    ensures 0.0 <= Faded(v, n) <= v
  {
    if n > 0 {
      FadedBounds(v, n - 1);
    }
  }

  /** With no input the speed decays at least geometrically, in spite of the clamp. */
  lemma {:induction false} CoastingSpeed(m: Maths, t: Tank, v: real, n: nat)
    requires m.Valid() && StandardTank(t) && v >= 0.0 && Within(t.linear, v)
    ensures Within(Coast(m, t, n).linear, Faded(v, n))
  {
    if n > 0 {
      CoastingSpeed(m, t, v, n - 1);
      FadedBounds(v, n - 1);
      MoveTankSpeed(m, Coast(m, t, n - 1), TIMESTEP, Faded(v, n - 1));
    }
  }

  /** How far a tank can coast in `n` steps: a partial sum of the geometric series. */
  function CoastingReach(v: real, n: nat): real {
    if n == 0 then 0.0 else CoastingReach(v, n - 1) + TIMESTEP * Faded(v, n)
  }

  /** The sum in closed form. */
  lemma {:induction false} CoastingReachIs(v: real, n: nat)
    ensures CoastingReach(v, n) == 49.0 * TIMESTEP * (v - Faded(v, n))
  {
    if n > 0 {
      CoastingReachIs(v, n - 1);
    }
  }

  lemma CoastingReachBounds(v: real, n: nat)
    requires v >= 0.0
    ensures 0.0 <= CoastingReach(v, n) <= 49.0 * v * TIMESTEP
  {
    CoastingReachIs(v, n);
    FadedBounds(v, n);
  }

  /** One more timestep at the velocity `linear` adds at most its length times the timestep. */
  lemma ReachOneMore(p: Vec2, q: Vec2, r: Vec2, linear: Vec2, reach: real, u: real)
    requires Within(Sub(q, p), reach) && reach >= 0.0 && Within(linear, u) && u >= 0.0
    requires Sub(r, q) == Scale(TIMESTEP, linear)
    ensures Within(Sub(r, p), reach + TIMESTEP * u)
  {
    ScaleWithin(TIMESTEP, linear, u);
    Triangle(Sub(q, p), Sub(r, q), reach, TIMESTEP * u);
    assert Add(Sub(q, p), Sub(r, q)) == Sub(r, p);
  }

  /** One more coasting step, from `reach` to `next`. */
  lemma CoastsOneMore(m: Maths, start: Vec2, t: Tank, reach: real, u: real, next: real)
    requires t.maxSpeed >= 0.0 && Within(Sub(t.position, start), reach) && reach >= 0.0
    requires u >= 0.0 && Within(MoveTank(m, t, TIMESTEP).linear, u) && next == reach + TIMESTEP * u
    ensures Within(Sub(MoveTank(m, t, TIMESTEP).position, start), next)
  {
    MovesBy(m, t, TIMESTEP);
    var r := MoveTank(m, t, TIMESTEP);
    ReachOneMore(start, t.position, r.position, r.linear, reach, u);
  }

  lemma {:induction false} CoastingDistance(m: Maths, t: Tank, v: real, n: nat)
    requires m.Valid() && StandardTank(t) && v >= 0.0 && Within(t.linear, v)
    ensures Within(Sub(Coast(m, t, n).position, t.position), CoastingReach(v, n))
  {
    if n > 0 {
      CoastingDistance(m, t, v, n - 1);
      CoastingSpeed(m, t, v, n);
      FadedBounds(v, n);
      CoastingReachBounds(v, n - 1);
      CoastsOneMore(m, t.position, Coast(m, t, n - 1), CoastingReach(v, n - 1), Faded(v, n), CoastingReach(v, n));
    } else {
      assert Sub(t.position, t.position) == ORIGIN;
    }
  }

  lemma {:induction false} CoastingSpin(m: Maths, t: Tank, n: nat)
    requires StandardTank(t)
    ensures Coast(m, t, n).angular == Faded(t.angular, n)
  {
    if n > 0 {
      CoastingSpin(m, t, n - 1);
      TurnsByVelocity(m, Coast(m, t, n - 1));
    }
  }

  lemma TurnsByVelocity(m: Maths, t: Tank)
    requires t.maxSpeed >= 0.0 && t.friction == 0.98
    ensures var r := MoveTank(m, t, TIMESTEP);
      r.angular == 0.98 * t.angular && r.rotation == t.rotation + TIMESTEP * r.angular
  {
  }

  lemma {:induction false} CoastingRotation(m: Maths, t: Tank, n: nat)
    requires StandardTank(t)
    ensures Coast(m, t, n).rotation == t.rotation + CoastingReach(t.angular, n)
  {
    if n > 0 {
      CoastingRotation(m, t, n - 1);
      TurnsByVelocity(m, Coast(m, t, n - 1));
      CoastingSpin(m, t, n);
    }
  }

  /** A coasting tank turns by exactly its share of the same geometric series. */
  lemma CoastingTurn(m: Maths, t: Tank, n: nat)
    requires StandardTank(t)
    ensures Coast(m, t, n).angular == Pow(0.98, n) * t.angular
    ensures Coast(m, t, n).rotation == t.rotation + 49.0 * TIMESTEP * (t.angular - Pow(0.98, n) * t.angular)
  {
    CoastingSpin(m, t, n);
    CoastingRotation(m, t, n);
    CoastingReachIs(t.angular, n);
    FadedIs(t.angular, n);
  }

  /** However long it coasts, a tank ends within 49 timesteps of its starting speed. */
  lemma CoastingBound(m: Maths, t: Tank, v: real, n: nat)
    requires m.Valid() && StandardTank(t) && v >= 0.0 && Within(t.linear, v)
    ensures Within(Coast(m, t, n).linear, Pow(0.98, n) * v)
    ensures Within(Sub(Coast(m, t, n).position, t.position), 49.0 * v * TIMESTEP)
  {
    CoastingSpeed(m, t, v, n);
    FadedIs(v, n);
    SameBound(Coast(m, t, n).linear, Faded(v, n), Pow(0.98, n) * v);
    CoastingDistanceBound(m, t, v, n);
  }

  lemma SameBound(a: Vec2, r: real, s: real)
    requires Within(a, r) && r == s
    ensures Within(a, s)
  {
  }

  lemma CoastingDistanceBound(m: Maths, t: Tank, v: real, n: nat)
    requires m.Valid() && StandardTank(t) && v >= 0.0 && Within(t.linear, v)
    ensures Within(Sub(Coast(m, t, n).position, t.position), 49.0 * v * TIMESTEP)
  {
    CoastingDistance(m, t, v, n);
    CoastingReachBounds(v, n);
    WithinMonotone(Sub(Coast(m, t, n).position, t.position), CoastingReach(v, n), 49.0 * v * TIMESTEP);
  }

  /** What `n` coasting steps can make of a tank `t` whose speed is at most `v`. */
  ghost predicate CoastedWithin(t: Tank, now: Tank, v: real, n: nat) {
    && Within(now.linear, Pow(0.98, n) * v)
    && Within(Sub(now.position, t.position), 49.0 * v * TIMESTEP)
    && now.rotation == t.rotation + 49.0 * TIMESTEP * (t.angular - Pow(0.98, n) * t.angular)
  }

  lemma CoastingIsWithin(m: Maths, t: Tank, now: Tank, v: real, n: nat)
    requires m.Valid() && StandardTank(t) && v >= 0.0 && Within(t.linear, v) && now == Coast(m, t, n)
    ensures CoastedWithin(t, now, v, n)
  {
    CoastingTurn(m, t, n);
    CoastingBound(m, t, v, n);
  }

  /** No input between `i` and `j` reaches the tank. */
  ghost predicate Unsteered(ws: seq<World>, evs: seq<Event>, i: nat, j: nat, e: Entity)
    requires |ws| == |evs| + 1 && i <= j < |ws|
  {
    forall k :: i <= k < j && e in ws[k].tanks ==> !Steers(evs[k], ws[k].tanks[e])
  }

  ghost predicate CoastedTo(m: Maths, w: World, w': World, e: Entity) {
    && e in w.tanks && e in w'.tanks && w.tick <= w'.tick && StandardTank(w.tanks[e])
    && w'.tanks[e] == Coast(m, w.tanks[e], w'.tick - w.tick)
  }

  /** In a run, a tank that nobody steers coasts, whatever else happens around it. */
  lemma {:induction false} UnsteeredCoasts(m: Maths, ws: seq<World>, evs: seq<Event>, i: nat, j: nat, e: Entity)
    requires IsRun(m, ws, evs) && i <= j < |ws|
    requires e < ws[i].next && e in ws[j].tanks && Unsteered(ws, evs, i, j, e)
    ensures CoastedTo(m, ws[i], ws[j], e)
    decreases j
  {
    if i == j {
      TankIsStandard(m, ws, evs, i, e);
    } else {
      StillThere(m, ws, evs, i, j - 1, e);
      UnsteeredCoasts(m, ws, evs, i, j - 1, e);
      CoastsOn(m, ws, evs, j - 1, ws[i], e);
    }
  }

  lemma TankIsStandard(m: Maths, ws: seq<World>, evs: seq<Event>, i: nat, e: Entity)
    requires IsRun(m, ws, evs) && i < |ws| && e in ws[i].tanks
    ensures StandardTank(ws[i].tanks[e])
  {
    RunInvariant(m, ws, evs, i);
  }

  lemma CoastsOn(m: Maths, ws: seq<World>, evs: seq<Event>, k: nat, w: World, e: Entity)
    requires IsRun(m, ws, evs) && k < |evs| && e in ws[k + 1].tanks
    requires CoastedTo(m, w, ws[k], e) && !Steers(evs[k], ws[k].tanks[e])
    ensures CoastedTo(m, w, ws[k + 1], e)
  {
    RunInvariant(m, ws, evs, k);
    NextKeeps(m, ws[k], evs[k], ws[k + 1]);
    NextTanks(m, ws[k], evs[k], ws[k + 1], e);
  }

  /** The coasting bound over runs. */
  lemma CoastingInRuns(m: Maths, ws: seq<World>, evs: seq<Event>, i: nat, j: nat, e: Entity, v: real)
    requires IsRun(m, ws, evs) && i <= j < |ws|
    requires e < ws[i].next && e in ws[j].tanks && Unsteered(ws, evs, i, j, e)
    requires v >= 0.0 && e in ws[i].tanks && Within(ws[i].tanks[e].linear, v)
    ensures ws[i].tick <= ws[j].tick
    ensures CoastedWithin(ws[i].tanks[e], ws[j].tanks[e], v, ws[j].tick - ws[i].tick)
  {
    UnsteeredCoasts(m, ws, evs, i, j, e);
    CoastingIsWithin(m, ws[i].tanks[e], ws[j].tanks[e], v, ws[j].tick - ws[i].tick);
  }
}
