/** What the server loop promises over whole runs: time is conserved, and the feedback through
    the sleep is stable when overheads are small. */
module ServerLoopStability {
  import opened RealMath
  import opened ServerLoop

  const F := FIXED_TIMESTEP

  lemma {:induction false} MeasuredLength(start: real, clock: seq<real>)
    ensures |Measured(start, clock)| == |clock|
  {
    if clock != [] {
      MeasuredLength(start, clock[..|clock| - 1]);
    }
  }

  /** The deque always holds exactly the last min(i, 20) measurements, oldest first. */
  lemma {:induction false} DequeIsWindow(start: real, clock: seq<real>)
    ensures StateAfter(start, clock).record == LastOf(Measured(start, clock), WINDOW)
    ensures |Measured(start, clock)| == |clock|
    ensures StateAfter(start, clock).record ==
      if |clock| < 20 then Measured(start, clock) else Measured(start, clock)[|clock| - 20..]
  {
    MeasuredLength(start, clock);
    if clock != [] {
      var before := clock[..|clock| - 1];
      DequeIsWindow(start, before);
      var m := Measured(start, before);
      var e := LastTurn(start, clock).elapsed;
      assert StateAfter(start, clock).record == Pushed(LastOf(m, WINDOW), e);
      assert Pushed(LastOf(m, WINDOW), e) == LastOf(m + [e], WINDOW);
    }
  }

  /** No time is lost or invented: what was measured is what was stepped plus what is left. */
  lemma {:induction false} TimeIsConserved(start: real, clock: seq<real>)
    ensures Sum(Measured(start, clock)) == StateAfter(start, clock).remaining + Spent(start, clock)
  {
    if clock != [] {
      var before := clock[..|clock| - 1];
      TimeIsConserved(start, before);
      var m, e := Measured(start, before), LastTurn(start, clock).elapsed;
      assert (m + [e])[..|m|] == m;
    }
  }

  // ---------- stability of the closed loop ----------

  /** The sleep the loop asked for before taking the last reading of `clock`. */
  function Requested(start: real, clock: seq<real>): real
    requires clock != []
  {
    var before := clock[..|clock| - 1];
    if before == [] || LastTurn(start, before).sleep <= 0.0 then 0.0 else LastTurn(start, before).sleep
  }

  /** Every iteration took its requested sleep plus at most a ninth of a timestep. */
  predicate Prompt(start: real, clock: seq<real>) {
    clock == [] ||
    var n := |clock| - 1;
    && Prompt(start, clock[..n])
    && 0.0 <= clock[n] - StateAfter(start, clock[..n]).previous - Requested(start, clock) <= F / 9.0
  }

  predicate AllWithin(xs: seq<real>, lo: real, hi: real) {
    forall i :: 0 <= i < |xs| ==> lo <= xs[i] <= hi
  }

  lemma {:induction false} SumWithin(xs: seq<real>, lo: real, hi: real)
    requires AllWithin(xs, lo, hi)
    ensures lo * (|xs| as real) <= Sum(xs) <= hi * (|xs| as real)
  {
    if xs != [] {
      var n := |xs| - 1;
      SumWithin(xs[..n], lo, hi);
      assert |xs| as real == n as real + 1.0;
      assert lo * (|xs| as real) == lo * (n as real) + lo;
      assert hi * (|xs| as real) == hi * (n as real) + hi;
    }
  }

  lemma DivideBounds(total: real, n: real, lo: real, hi: real)
    requires n > 0.0 && lo * n <= total <= hi * n
    ensures lo <= total / n <= hi
  {
    var q := total / n;
    assert q * n == total;
    if q < lo {
      MulLt(n, q, lo);
    }
    if hi < q {
      MulLt(n, hi, q);
    }
  }

  lemma MeanWithin(xs: seq<real>, lo: real, hi: real)
    requires xs != [] && AllWithin(xs, lo, hi)
    ensures lo <= Mean(xs) <= hi
  {
    SumWithin(xs, lo, hi);
    DivideBounds(Sum(xs), |xs| as real, lo, hi);
  }

  ghost predicate StableState(s: LoopState) {
    0.0 <= s.remaining < F && AllWithin(s.record, 0.0, 10.0 * F / 9.0)
  }

  ghost predicate StableTurn(t: Turn) {
    && StableState(t.state)
    && 26.0 * F / 27.0 <= t.timestep <= F
    && t.sleep == t.timestep - t.state.remaining > 0.0
    && (t.stepped ==> t.state.remaining <= 4.0 * F / 27.0)
    && (!t.stepped ==> t.timestep == F)
  }

  /** A mixture of 1 and a target in [0, 1], with weight at most 1/27 on the target. */
  lemma MixtureBounds(target: real, alpha: real)
    requires 0.0 <= target <= 1.0 && 0.0 <= alpha <= 1.0 / 27.0
    ensures 26.0 / 27.0 <= target * alpha + 1.0 * (1.0 - alpha) <= 1.0
  {
    MulNonneg(target, alpha);
    MulLe(alpha, target, 1.0);
  }

  lemma TimescaleBounds(remaining: real, mean: real)
    requires 0.0 <= remaining <= 10.0 * F / 9.0
    requires 0.0 <= mean <= 10.0 * F / 9.0
    ensures 26.0 / 27.0 <= Timescale(remaining, mean) <= 1.0
    ensures remaining <= F ==> Timescale(remaining, mean) == 1.0
  {
    if remaining > F {
      MixtureBounds(0.9 * mean / F, Clamp((remaining - F) / (F * 3.0), 0.0, 1.0));
    }
  }

  lemma PushedWithin(record: seq<real>, e: real, lo: real, hi: real)
    requires AllWithin(record, lo, hi) && lo <= e <= hi
    ensures AllWithin(Pushed(record, e), lo, hi)
  {
  }

  lemma StableStep(s: LoopState, now: real)
    requires StableState(s)
    requires 0.0 <= now - s.previous <= 10.0 * F / 9.0
    requires s.remaining + (now - s.previous) <= 10.0 * F / 9.0
    ensures StableTurn(Iterate(s, now))
    ensures s.remaining + (now - s.previous) >= F ==> Iterate(s, now).stepped
    ensures Mean(Iterate(s, now).state.record) <= 10.0 * F / 9.0
  {
    var e := now - s.previous;
    var record := Pushed(s.record, e);
    PushedWithin(s.record, e, 0.0, 10.0 * F / 9.0);
    MeanWithin(record, 0.0, 10.0 * F / 9.0);
    TimescaleBounds(s.remaining + e, Mean(record));
  }

  lemma {:induction false} PromptRunsAreStable(start: real, clock: seq<real>)
    requires Prompt(start, clock)
    ensures StableState(StateAfter(start, clock))
    ensures clock != [] ==> StableTurn(LastTurn(start, clock))
    ensures clock != [] ==> Mean(StateAfter(start, clock).record) <= 10.0 * F / 9.0
    ensures |clock| >= 2 ==> LastTurn(start, clock).stepped || LastTurn(start, clock[..|clock| - 1]).stepped
  {
    if clock != [] {
      var n := |clock| - 1;
      PromptRunsAreStable(start, clock[..n]);
      StableStep(StateAfter(start, clock[..n]), clock[n]);
    }
  }

  /** Closed-loop stability, at every iteration of every prompt run. */
  lemma {:induction false} StabilityThroughout(start: real, clock: seq<real>, i: nat)
    requires Prompt(start, clock) && 0 < i <= |clock|
    ensures var t := LastTurn(start, clock[..i]);
      && Mean(t.state.record) <= 10.0 * F / 9.0
      && 26.0 * F / 27.0 <= t.timestep <= F
      && 0.0 <= t.state.remaining < F
      && (t.stepped ==> t.state.remaining <= 4.0 * F / 27.0)
      && (i >= 2 ==> t.stepped || LastTurn(start, clock[..i - 1]).stepped)
    decreases |clock|
  {
    if i == |clock| {
      assert clock[..i] == clock;
      PromptRunsAreStable(start, clock);
    } else {
      var n := |clock| - 1;
      assert clock[..n][..i] == clock[..i];
      if i >= 2 { assert clock[..n][..i - 1] == clock[..i - 1]; }
      StabilityThroughout(start, clock[..n], i);
    }
  }

  lemma {:induction false} SpentPerStep(start: real, clock: seq<real>)
    requires Prompt(start, clock)
    ensures (StepCount(start, clock) as real) * (26.0 * F / 27.0) <= Spent(start, clock)
    ensures Spent(start, clock) <= (StepCount(start, clock) as real) * F
  {
    if clock != [] {
      SpentPerStep(start, clock[..|clock| - 1]);
      PromptRunsAreStable(start, clock);
    }
  }

  /** The step rate is pinned to the fixed timestep from both sides. */
  lemma RateBound(start: real, clock: seq<real>)
    requires Prompt(start, clock)
    ensures var total, n := Sum(Measured(start, clock)), StepCount(start, clock) as real;
      n * F > total - F && n * (26.0 / 27.0) * F <= total
  {
    SpentPerStep(start, clock);
    TimeIsConserved(start, clock);
    PromptRunsAreStable(start, clock);
  }
}
