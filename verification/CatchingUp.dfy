/** When the server loop catches up with a constant load: exactly for loads below a timestep with a
    small enough backlog. Otherwise the backlog stays, or grows without bound. */
module CatchingUp {
  import opened RealMath
  import opened ServerLoop
  import opened ServerLoopStability

  /** A constant load: every measurement in the window, and the next one, is `e`. */
  ghost predicate SteadyLoad(s: LoopState, e: real) {
    0.0 < e <= MAX_ELAPSED && AllWithin(s.record, e, e)
  }

  /** The timestep that a backlog `b` gets under the constant load `e`. */
  function SteadyTimestep(b: real, e: real): real {
    F * Timescale(b, e)
  }

  function Ramp(b: real): real {
    Clamp((b - F) / (F * 3.0), 0.0, 1.0)
  }

  lemma SteadyTimestepIs(b: real, e: real)
    requires b > F
    ensures SteadyTimestep(b, e) == F - Ramp(b) * (F - 0.9 * e)
  {
    var target := 0.9 * e / F;
    assert F * target == 0.9 * e;
    assert F * (target * Ramp(b) + 1.0 * (1.0 - Ramp(b))) == (F * target) * Ramp(b) + F * (1.0 - Ramp(b));
  }

  /** On the ramp the shortfall `w` is proportional to the backlog's excess over a timestep. */
  lemma OnTheRamp(b: real, e: real, w: real)
    requires F < b <= 4.0 * F && w == Ramp(b) * (F - 0.9 * e)
    ensures (b - F) * (F - 0.9 * e) == 3.0 * F * w
  {
    assert Ramp(b) * (F * 3.0) == b - F;
  }

  lemma BeyondTheRamp(b: real, e: real)
    requires b > 4.0 * F && 0.0 < e < F
    ensures SteadyTimestep(b, e) < e
    ensures (b - F) * (F - 0.9 * e) > 3.0 * F * (F - e)
  {
    SteadyTimestepIs(b, e);
    calc {
      3.0 * F * (F - e);
    <
      (3.0 * F) * (F - 0.9 * e);
    ==
      (F - 0.9 * e) * (3.0 * F);
    < { MulLt(F - 0.9 * e, 3.0 * F, b - F); }
      (F - 0.9 * e) * (b - F);
    ==
      (b - F) * (F - 0.9 * e);
    }
  }

  lemma ScaledThreshold(w: real, e: real, scaled: real)
    requires scaled == 3.0 * F * w
    ensures F - w > e <==> scaled < 3.0 * F * (F - e)
    ensures F - w < e <==> scaled > 3.0 * F * (F - e)
  {
  }

  /** The timestep beats the load, or loses to it, exactly by these conditions on the backlog. */
  lemma TimestepVersusLoad(b: real, e: real)
    requires b > F && e > 0.0
    ensures SteadyTimestep(b, e) > e <==> e < F && (b - F) * (F - 0.9 * e) < 3.0 * F * (F - e)
    ensures SteadyTimestep(b, e) < e <==> e >= F || (b - F) * (F - 0.9 * e) > 3.0 * F * (F - e)
  {
    if F <= e {
      OverloadFallsBehind(b, e);
    } else {
      SteadyTimestepIs(b, e);
      if b <= 4.0 * F {
        var w := Ramp(b) * (F - 0.9 * e);
        OnTheRamp(b, e, w);
        ScaledThreshold(w, e, (b - F) * (F - 0.9 * e));
      } else {
        BeyondTheRamp(b, e);
      }
    }
  }

  /** A load of at least a timestep falls behind at every backlog. */
  lemma OverloadFallsBehind(b: real, e: real)
    requires b > F && e >= F
    ensures SteadyTimestep(b, e) < e
  {
    SteadyTimestepIs(b, e);
    var a := Ramp(b);
    if e == F {
      MulPos(a, F - 0.9 * e);
    } else {
      MixtureLe(a, F, 0.9 * e, e);
    }
  }

  lemma RampGrows(b: real, c: real)
    requires F < b <= c
    ensures 0.0 <= Ramp(b) <= Ramp(c) <= 1.0
  {
  }

  /** How much an iteration at backlog `b` falls behind. */
  function Gap(b: real, e: real): real {
    e - SteadyTimestep(b, e)
  }

  /** A larger share of the shortfall is either larger, or no less than all of it. */
  lemma ShareGrows(a: real, c: real, d: real, share: real, share': real)
    requires 0.0 <= a <= c <= 1.0 && share == a * d && share' == c * d
    ensures share' >= share || share' >= d
  {
    if d >= 0.0 {
      MulLeLeft(a, c, d);
    } else {
      MulNegative(c, d);
    }
  }

  lemma GapIs(b: real, e: real, share: real)
    requires b > F && share == Ramp(b) * (F - 0.9 * e)
    ensures Gap(b, e) == e - F + share
  {
    SteadyTimestepIs(b, e);
  }

  lemma GapPersists(b: real, c: real, e: real)
    requires F < b <= c && e > 0.0
    ensures Gap(c, e) >= Min(Gap(b, e), e / 10.0)
  {
    RampGrows(b, c);
    var share, share' := Ramp(b) * (F - 0.9 * e), Ramp(c) * (F - 0.9 * e);
    GapIs(b, e, share);
    GapIs(c, e, share');
    ShareGrows(Ramp(b), Ramp(c), F - 0.9 * e, share, share');
  }

  // ---------- the backlog from one iteration to the next ----------

  /** What an iteration leaves in the accumulator, if it finds `r` there under the load `e`. */
  function LeftOver(r: real, e: real): real {
    var timestep := SteadyTimestep(r + e, e);
    if r + e >= timestep then r + e - timestep else r + e
  }

  function LeftAfter(r: real, e: real, n: nat): real {
    if n == 0 then r else LeftOver(LeftAfter(r, e, n - 1), e)
  }

  /** With more than a timestep of backlog the iteration steps, and falls behind by the gap. */
  lemma LeftOverIs(r: real, e: real)
    requires r >= 0.0 && e > 0.0 && r + e > F
    ensures LeftOver(r, e) == r + Gap(r + e, e) >= 0.0
  {
    var b := r + e;
    SteadyTimestepIs(b, e);
    MixtureLe(Ramp(b), F, 0.9 * e, b);
  }

  // ---------- falling behind ----------

  /** A loss that an iteration which finds `r` left over, and every later one, is sure to make. */
  ghost predicate Loses(r: real, e: real, loss: real) {
    r + e > F && 0.0 <= loss <= e / 10.0 && loss <= Gap(r + e, e)
  }

  lemma LosesOn(r: real, now: real, e: real, loss: real)
    requires e > 0.0 && Loses(r, e, loss) && now >= r
    ensures Loses(now, e, loss)
  {
    GapPersists(r + e, now + e, e);
  }

  /** To what was left over before the losses, `n` of them have come. */
  ghost predicate Lost(r: real, now: real, n: real, loss: real) {
    now >= r + n * loss
  }

  lemma FallsFurther(r: real, now: real, e: real, n: real, loss: real)
    requires e > 0.0 && r >= 0.0 && n >= 0.0 && Loses(r, e, loss) && Lost(r, now, n, loss)
    ensures Lost(r, LeftOver(now, e), n + 1.0, loss)
  {
    MulNonneg(n, loss);
    LosesOn(r, now, e, loss);
    LeftOverIs(now, e);
    assert (n + 1.0) * loss == n * loss + loss;
  }

  /** Once a constant load loses, the backlog grows in proportion to the iterations: the loop
      never recovers, for loads above the timestep and for loads below it alike. */
  lemma {:induction false} NeverRecovers(r: real, e: real, n: nat, loss: real)
    requires e > 0.0 && r >= 0.0 && Loses(r, e, loss)
    ensures Lost(r, LeftAfter(r, e, n), n as real, loss)
  {
    if n > 0 {
      NeverRecovers(r, e, n - 1, loss);
      FallsFurther(r, LeftAfter(r, e, n - 1), e, n as real - 1.0, loss);
    }
  }

  // ---------- recovering ----------

  /** A smaller share of a shortfall that is not negative is smaller. */
  lemma ShareShrinks(a: real, c: real, d: real, share: real, share': real)
    requires a <= c && d >= 0.0 && share == a * d && share' == c * d
    ensures share <= share'
  {
    MulLeLeft(a, c, d);
  }

  lemma GapShrinks(b: real, c: real, e: real)
    requires F < b <= c && 0.0 < e < F
    ensures Gap(b, e) <= Gap(c, e)
  {
    RampGrows(b, c);
    var share, share' := Ramp(b) * (F - 0.9 * e), Ramp(c) * (F - 0.9 * e);
    GapIs(b, e, share);
    GapIs(c, e, share');
    ShareShrinks(Ramp(b), Ramp(c), F - 0.9 * e, share, share');
  }

  lemma GainMeansLightLoad(b: real, e: real)
    requires b > F && e > 0.0 && Gap(b, e) < 0.0
    ensures e < F
  {
    if e >= F {
      OverloadFallsBehind(b, e);
    }
  }

  /** A gain that an iteration which finds `r` left over is sure to make. */
  ghost predicate Gains(r: real, e: real, gain: real) {
    e > 0.0 && r + e > F && 0.0 < gain <= -Gap(r + e, e)
  }

  /** From what was left over before the gains, `n` of them are gone. */
  ghost predicate Gained(r: real, now: real, n: real, gain: real) {
    0.0 <= now <= r - n * gain
  }

  lemma GainsFurther(r: real, now: real, e: real, n: real, gain: real)
    requires Gains(r, e, gain) && now + e > F && n >= 0.0 && Gained(r, now, n, gain)
    ensures Gained(r, LeftOver(now, e), n + 1.0, gain)
  {
    MulNonneg(n, gain);
    LeftOverIs(now, e);
    GainMeansLightLoad(r + e, e);
    GapShrinks(now + e, r + e, e);
    assert (n + 1.0) * gain == n * gain + gain;
  }

  /** The backlog before each of the next `n` iterations is above a timestep. */
  ghost predicate AboveFor(r: real, e: real, n: nat) {
    forall k :: 0 <= k < n ==> LeftAfter(r, e, k) + e > F
  }

  lemma {:induction false} GainsWhileAbove(r: real, e: real, n: nat, gain: real)
    requires r >= 0.0 && Gains(r, e, gain) && AboveFor(r, e, n)
    ensures Gained(r, LeftAfter(r, e, n), n as real, gain)
  {
    if n > 0 {
      GainsWhileAbove(r, e, n - 1, gain);
      GainsFurther(r, LeftAfter(r, e, n - 1), e, n as real - 1.0, gain);
    }
  }

  /** A backlog that shrinks is down to a timestep within as many iterations as the gain fits into
      it; before that it is above a timestep. */
  lemma RecoversWithin(r: real, e: real, n: nat, gain: real) returns (k: nat)
    requires r >= 0.0 && Gains(r, e, gain) && n as real * gain > r
    ensures k < n && LeftAfter(r, e, k) + e <= F && AboveFor(r, e, k)
  {
    k := 0;
    while LeftAfter(r, e, k) + e > F
      invariant k < n && AboveFor(r, e, k)
      decreases n - k
    {
      NotAboveFor(r, e, n, gain);
      k := k + 1;
    }
  }

  lemma NotAboveFor(r: real, e: real, n: nat, gain: real)
    requires r >= 0.0 && Gains(r, e, gain) && n as real * gain > r
    ensures n > 0 && !AboveFor(r, e, n)
  {
    if AboveFor(r, e, n) {
      GainsWhileAbove(r, e, n, gain);
    }
  }

  lemma EnoughIterations(r: real, gain: real) returns (n: nat)
    requires r >= 0.0 && gain > 0.0
    ensures n as real * gain > r
  {
    n := (r / gain).Floor + 1;
    MulLt(gain, r / gain, n as real);
  }

  /** The loop catches up with a constant load when its backlog comes down to a timestep; then it
      does so for a first time. */
  ghost predicate CatchesUp(r: real, e: real) {
    exists n: nat :: AboveFor(r, e, n) && LeftAfter(r, e, n) + e <= F
  }

  /** The load is below a timestep, and the backlog small enough for it. */
  predicate Manageable(backlog: real, e: real) {
    e < F && (backlog - F) * (F - 0.9 * e) < 3.0 * F * (F - e)
  }

  lemma GainsIff(b: real, e: real)
    requires b > F && e > 0.0
    ensures Gap(b, e) < 0.0 <==> Manageable(b, e)
  {
    TimestepVersusLoad(b, e);
  }

  lemma ManageableCatchesUp(r: real, e: real)
    requires e > 0.0 && r >= 0.0 && r + e > F && Gap(r + e, e) < 0.0
    ensures CatchesUp(r, e)
  {
    var gain := -Gap(r + e, e);
    var n := EnoughIterations(r, gain);
    var k := RecoversWithin(r, e, n, gain);
  }

  lemma OtherwiseAbove(r: real, e: real, n: nat)
    requires e > 0.0 && r >= 0.0 && r + e > F && Gap(r + e, e) >= 0.0
    ensures LeftAfter(r, e, n) + e > F
  {
    NeverRecovers(r, e, n, 0.0);
  }

  // ---------- runs with a constant load ----------

  /** The clock readings `clock`, followed by `n` more at the constant distance `e`. */
  function Ticking(start: real, clock: seq<real>, e: real, n: nat): seq<real> {
    if n == 0 then clock else OneMore(start, Ticking(start, clock, e, n - 1), e)
  }

  function OneMore(start: real, clock: seq<real>, e: real): seq<real> {
    clock + [StateAfter(start, clock).previous + e]
  }

  function Left(start: real, clock: seq<real>): real {
    StateAfter(start, clock).remaining
  }

  ghost predicate Steady(start: real, clock: seq<real>, e: real) {
    SteadyLoad(StateAfter(start, clock), e)
  }

  /** What an iteration under a constant load leaves behind. */
  lemma SteadyTurnLeaves(s: LoopState, e: real)
    requires SteadyLoad(s, e)
    ensures var t := Iterate(s, s.previous + e);
      t.state.remaining == LeftOver(s.remaining, e) && SteadyLoad(t.state, e)
  {
    PushedWithin(s.record, e, e, e);
    MeanWithin(Pushed(s.record, e), e, e);
  }

  lemma OneMoreTurn(start: real, clock: seq<real>, e: real)
    ensures var s := StateAfter(start, clock);
      LastTurn(start, OneMore(start, clock, e)) == Iterate(s, s.previous + e)
  {
    LastTurnOf(start, clock, StateAfter(start, clock).previous + e);
  }

  lemma LastTurnOf(start: real, clock: seq<real>, now: real)
    ensures LastTurn(start, clock + [now]) == Iterate(StateAfter(start, clock), now)
  {
    var longer, n := clock + [now], |clock|;
    assert longer[..n] == clock && longer[n] == now;
    assert LastTurn(start, longer) == Iterate(StateAfter(start, longer[..n]), longer[n]);
  }

  lemma OneMoreLeaves(start: real, clock: seq<real>, e: real)
    requires Steady(start, clock, e)
    ensures Steady(start, OneMore(start, clock, e), e)
    ensures Left(start, OneMore(start, clock, e)) == LeftOver(Left(start, clock), e)
  {
    OneMoreTurn(start, clock, e);
    SteadyTurnLeaves(StateAfter(start, clock), e);
  }

  lemma {:induction false} TickingIsSteady(start: real, clock: seq<real>, e: real, n: nat)
    requires Steady(start, clock, e)
    ensures Steady(start, Ticking(start, clock, e, n), e)
    ensures Left(start, Ticking(start, clock, e, n)) == LeftAfter(Left(start, clock), e, n)
  {
    if n > 0 {
      TickingIsSteady(start, clock, e, n - 1);
      OneMoreLeaves(start, Ticking(start, clock, e, n - 1), e);
    }
  }

  /** The clock never runs backwards. */
  predicate Monotone(start: real, clock: seq<real>) {
    clock == [] ||
    var n := |clock| - 1;
    Monotone(start, clock[..n]) && StateAfter(start, clock[..n]).previous <= clock[n]
  }

  lemma {:induction false} NothingOwed(start: real, clock: seq<real>)
    requires Monotone(start, clock)
    ensures StateAfter(start, clock).remaining >= 0.0
  {
    if clock != [] {
      NothingOwed(start, clock[..|clock| - 1]);
    }
  }

  /** The last `n` measurements in the window are `e`, or the window holds nothing else. */
  ghost predicate EndsSteady(record: seq<real>, e: real, n: nat) {
    |record| <= WINDOW && forall i :: 0 <= i < |record| && |record| - n <= i ==> record[i] == e
  }

  lemma PushedEndsSteady(record: seq<real>, e: real, n: nat)
    requires EndsSteady(record, e, n)
    ensures EndsSteady(Pushed(record, e), e, n + 1)
  {
  }

  lemma OneMoreRecord(start: real, clock: seq<real>, e: real)
    requires 0.0 < e <= MAX_ELAPSED
    ensures StateAfter(start, OneMore(start, clock, e)).record == Pushed(StateAfter(start, clock).record, e)
  {
    OneMoreTurn(start, clock, e);
  }

  lemma {:induction false} WindowFills(start: real, clock: seq<real>, e: real, n: nat)
    requires 0.0 < e <= MAX_ELAPSED
    ensures EndsSteady(StateAfter(start, Ticking(start, clock, e, n)).record, e, n)
  {
    if n == 0 {
      DequeIsWindow(start, clock);
    } else {
      WindowFills(start, clock, e, n - 1);
      OneMoreRecord(start, Ticking(start, clock, e, n - 1), e);
      PushedEndsSteady(StateAfter(start, Ticking(start, clock, e, n - 1)).record, e, n - 1);
    }
  }

  /** Whatever came before, twenty iterations make a constant load steady. */
  lemma SteadyAfterAWindow(start: real, clock: seq<real>, e: real, n: nat)
    requires 0.0 < e <= MAX_ELAPSED && n >= WINDOW
    ensures Steady(start, Ticking(start, clock, e, n), e)
  {
    WindowFills(start, clock, e, n);
  }

  // ---------- the sleep between the readings ----------

  /** Every reading comes no earlier than the sleep requested before it allows. */
  predicate Slept(start: real, clock: seq<real>) {
    clock == [] ||
    var n := |clock| - 1;
    && Slept(start, clock[..n])
    && clock[n] - StateAfter(start, clock[..n]).previous >= Requested(start, clock)
  }

  lemma {:induction false} SleptIsMonotone(start: real, clock: seq<real>)
    requires Slept(start, clock)
    ensures Monotone(start, clock)
  {
    if clock != [] {
      SleptIsMonotone(start, clock[..|clock| - 1]);
    }
  }

  lemma TimestepAtMost(b: real, e: real)
    requires e > 0.0
    ensures SteadyTimestep(b, e) <= F || SteadyTimestep(b, e) <= 0.9 * e
  {
    if b > F {
      SteadyTimestepIs(b, e);
      if F >= 0.9 * e {
        MixtureLe(Ramp(b), F, 0.9 * e, F);
      } else {
        MixtureLe(Ramp(b), F, 0.9 * e, 0.9 * e);
      }
    }
  }

  /** A turn at the load `e` that leaves more than a timestep for the next one asks for a sleep
      shorter than `e`. */
  lemma SleepIsShort(remaining: real, record: seq<real>, e: real, now: real)
    requires e > 0.0 && remaining >= e && AllWithin(Pushed(record, e), e, e)
    ensures var t := Settle(remaining, record, e, now); t.state.remaining + e > F ==> t.sleep < e
  {
    MeanWithin(Pushed(record, e), e, e);
    TimestepAtMost(remaining, e);
  }

  lemma LastMeasured(record: seq<real>, elapsed: real, e: real)
    requires AllWithin(Pushed(record, elapsed), e, e)
    ensures elapsed == e
  {
    var r := Pushed(record, elapsed);
    assert r[|r| - 1] == elapsed;
  }

  lemma LastSleepIsShort(start: real, clock: seq<real>, e: real)
    requires clock != [] && Monotone(start, clock) && Steady(start, clock, e) && Left(start, clock) + e > F
    ensures LastTurn(start, clock).sleep < e
  {
    var n := |clock| - 1;
    var s := StateAfter(start, clock[..n]);
    NothingOwed(start, clock[..n]);
    assert StateAfter(start, clock) == LastTurn(start, clock).state;
    LastMeasured(s.record, Elapsed(s.previous, clock[n]), e);
    SleepIsShort(s.remaining + e, s.record, e, clock[n]);
  }

  /** While the backlog is above a timestep the next reading at the load `e` is no earlier than
      the sleep requested before it allows. */
  lemma OneMoreSlept(start: real, clock: seq<real>, e: real)
    requires Slept(start, clock) && Steady(start, clock, e) && Left(start, clock) + e > F
    ensures Slept(start, OneMore(start, clock, e))
  {
    var longer := OneMore(start, clock, e);
    assert longer[..|longer| - 1] == clock;
    if clock != [] {
      SleptIsMonotone(start, clock);
      LastSleepIsShort(start, clock, e);
    }
  }

  lemma {:induction false} TickingSlept(start: real, clock: seq<real>, e: real, n: nat)
    requires Slept(start, clock) && Steady(start, clock, e) && AboveFor(Left(start, clock), e, n)
    ensures Slept(start, Ticking(start, clock, e, n))
  {
    if n > 0 {
      TickingSlept(start, clock, e, n - 1);
      TickingIsSteady(start, clock, e, n - 1);
      OneMoreSlept(start, Ticking(start, clock, e, n - 1), e);
    }
  }

  // ---------- the results ----------

  /** A run that has come to the constant load `e` with more than a timestep of backlog. */
  ghost predicate Loaded(start: real, clock: seq<real>, e: real) {
    Slept(start, clock) && Steady(start, clock, e) && Left(start, clock) + e > F
  }

  /** The run, continued at the load `e` for `n` iterations that sleep as they asked to, has its
      backlog down to a timestep. */
  ghost predicate DownAfter(start: real, clock: seq<real>, e: real, n: nat) {
    var later := Ticking(start, clock, e, n);
    Slept(start, later) && Left(start, later) + e <= F
  }

  ghost predicate StillLoaded(start: real, clock: seq<real>, e: real, n: nat) {
    Loaded(start, Ticking(start, clock, e, n), e)
  }

  lemma LoadedGains(start: real, clock: seq<real>, e: real)
    requires Loaded(start, clock, e)
    ensures Left(start, clock) >= 0.0
    ensures Gap(Left(start, clock) + e, e) < 0.0 <==> Manageable(Left(start, clock) + e, e)
  {
    SleptIsMonotone(start, clock);
    NothingOwed(start, clock);
    GainsIff(Left(start, clock) + e, e);
  }

  lemma ComesDown(start: real, clock: seq<real>, e: real) returns (n: nat)
    requires Loaded(start, clock, e) && Left(start, clock) >= 0.0 && Gap(Left(start, clock) + e, e) < 0.0
    ensures DownAfter(start, clock, e, n)
  {
    var r := Left(start, clock);
    ManageableCatchesUp(r, e);
    n :| AboveFor(r, e, n) && LeftAfter(r, e, n) + e <= F;
    TickingSlept(start, clock, e, n);
    TickingIsSteady(start, clock, e, n);
  }

  lemma StaysLoaded(start: real, clock: seq<real>, e: real, n: nat)
    requires Loaded(start, clock, e) && Left(start, clock) >= 0.0 && Gap(Left(start, clock) + e, e) >= 0.0
    ensures StillLoaded(start, clock, e, n) && !DownAfter(start, clock, e, n)
  {
    var r := Left(start, clock);
    forall k: nat ensures LeftAfter(r, e, k) + e > F {
      OtherwiseAbove(r, e, k);
    }
    TickingSlept(start, clock, e, n);
    TickingIsSteady(start, clock, e, n);
  }

  /** In every run that has come to a constant load, the backlog comes down to a timestep at some
      later iteration if and only if the load is below a timestep and the backlog small enough.
      Otherwise the run goes on for ever, above a timestep. */
  lemma CatchesUpInRunsIff(start: real, clock: seq<real>, e: real)
    requires Loaded(start, clock, e)
    ensures (exists n: nat :: DownAfter(start, clock, e, n)) <==> Manageable(Left(start, clock) + e, e)
    ensures !Manageable(Left(start, clock) + e, e) ==> forall n: nat :: StillLoaded(start, clock, e, n)
  {
    LoadedGains(start, clock, e);
    if Manageable(Left(start, clock) + e, e) {
      var n := ComesDown(start, clock, e);
    } else {
      forall n: nat ensures StillLoaded(start, clock, e, n) && !DownAfter(start, clock, e, n) {
        StaysLoaded(start, clock, e, n);
      }
    }
  }

  /** A backlog that shrinks comes down within `n` iterations when `n` gains exceed it. */
  lemma RecoversInRuns(start: real, clock: seq<real>, e: real, n: nat, gain: real) returns (k: nat)
    requires Loaded(start, clock, e) && Gains(Left(start, clock), e, gain) && n as real * gain > Left(start, clock)
    ensures k < n && DownAfter(start, clock, e, k)
  {
    LoadedGains(start, clock, e);
    k := RecoversWithin(Left(start, clock), e, n, gain);
    TickingSlept(start, clock, e, k);
    TickingIsSteady(start, clock, e, k);
  }

  /** A backlog that loses grows in proportion to the iterations. */
  lemma NeverRecoversInRuns(start: real, clock: seq<real>, e: real, n: nat, loss: real)
    requires Loaded(start, clock, e) && Loses(Left(start, clock), e, loss)
    ensures StillLoaded(start, clock, e, n)
    ensures Left(start, Ticking(start, clock, e, n)) >= Left(start, clock) + n as real * loss
  {
    LoadedGains(start, clock, e);
    StaysLoaded(start, clock, e, n);
    NeverRecovers(Left(start, clock), e, n, loss);
    TickingIsSteady(start, clock, e, n);
  }

  /** From its very start the loop falls behind every constant load above a timestep. */
  lemma OverloadFromTheStart(start: real, e: real, n: nat) returns (loss: real)
    requires F < e <= MAX_ELAPSED
    ensures loss == Min(Gap(e, e), e / 10.0) > 0.0
    ensures Slept(start, Ticking(start, [], e, n)) && Left(start, Ticking(start, [], e, n)) >= n as real * loss
  {
    OverloadFallsBehind(e, e);
    loss := Min(Gap(e, e), e / 10.0);
    NeverRecoversInRuns(start, [], e, n, loss);
  }

  /** A load below a timestep for which the comment fails, from the very start. */
  const HEAVY := 0.99 * F

  lemma OneReading(start: real, now: real)
    ensures StateAfter(start, [now]) == Iterate(Initial(start), now).state && Slept(start, [now]) == (now >= start)
  {
    LastTurnOf(start, [], now);
    assert [] + [now] == [now] && [now][..0] == [];
  }

  lemma HeavyLoses(start: real)
    ensures Loaded(start, [start + HEAVY], HEAVY)
    ensures Left(start, [start + HEAVY]) == HEAVY && Loses(HEAVY, HEAVY, F / 50.0)
  {
    OneReading(start, start + HEAVY);
    assert StateAfter(start, [start + HEAVY]).record == [HEAVY];
    var b := HEAVY + HEAVY;
    assert Ramp(b) == 0.98 / 3.0;
    GapIs(b, HEAVY, Ramp(b) * (F - 0.9 * HEAVY));
  }

  /** A constant load of 99 hundredths of a timestep is never caught up with. */
  lemma HeavyLoadFromTheStart(start: real, n: nat)
    ensures var later := Ticking(start, [start + HEAVY], HEAVY, n);
      Slept(start, later) && Left(start, later) >= HEAVY + n as real * (F / 50.0)
  {
    HeavyLoses(start);
    NeverRecoversInRuns(start, [start + HEAVY], HEAVY, n, F / 50.0);
  }
}
