/** Every iteration of every run of the server loop, in plain arithmetic on the clock readings. */
module LoopTurns {
  import opened ServerLoop
  import opened ServerLoopStability
  import opened CatchingUp

  lemma PreviousReading(start: real, clock: seq<real>)
    ensures StateAfter(start, clock).previous == if clock == [] then start else clock[|clock| - 1]
  {
  }

  /** Each measurement is the time since the reading before, or two seconds if that is less. */
  lemma {:induction false} MeasuredIs(start: real, clock: seq<real>, i: nat)
    requires i < |clock|
    ensures |Measured(start, clock)| == |clock|
    ensures var gap := clock[i] - if i == 0 then start else clock[i - 1];
      Measured(start, clock)[i] == if gap < 2.0 then gap else 2.0
    decreases |clock|
  {
    var n := |clock| - 1;
    MeasuredLength(start, clock);
    MeasuredLength(start, clock[..n]);
    if i < n {
      MeasuredIs(start, clock[..n], i);
    } else {
      PreviousReading(start, clock[..n]);
      LastElapsed(start, clock);
    }
  }

  lemma LastElapsed(start: real, clock: seq<real>)
    requires clock != []
    ensures var gap := clock[|clock| - 1] - StateAfter(start, clock[..|clock| - 1]).previous;
      LastTurn(start, clock).elapsed == if gap < 2.0 then gap else 2.0
  {
  }

  /** What the last 20 measurements, or all of them, add up to, and how many they are. */
  function Window(start: real, clock: seq<real>): seq<real> {
    var measured := Measured(start, clock);
    if |measured| < 20 then measured else measured[|measured| - 20..]
  }

  /** The timestep that goes with a backlog `b` when the window has `count` measurements that add
      up to `total`: one sixtieth of a second up to that much backlog, 0.9 of the mean from four
      times as much on, and in between the straight line from the one to the other. */
  ghost predicate TimestepFor(timestep: real, b: real, total: real, count: real) {
    var f := 1.0 / 60.0;
    && (b <= f ==> timestep == f)
    && (b >= 4.0 * f ==> timestep * count == 0.9 * total)
    && (f < b < 4.0 * f ==> 3.0 * f * (f - timestep) * count == (b - f) * (f * count - 0.9 * total))
  }

  lemma SettledTimestep(timestep: real, b: real, mean: real, total: real, count: real)
    requires mean * count == total && timestep == SteadyTimestep(b, mean)
    ensures TimestepFor(timestep, b, total, count)
  {
    if b > F {
      SteadyTimestepIs(b, mean);
      if b >= 4.0 * F {
        Scaled(mean, count, total);
      } else {
        OnTheRamp(b, mean, Ramp(b) * (F - 0.9 * mean));
        RampScaled(b, mean, total, count, timestep);
      }
    }
  }

  lemma Scaled(mean: real, count: real, total: real)
    requires mean * count == total
    ensures (F - 1.0 * (F - 0.9 * mean)) * count == 0.9 * total
  {
    assert (0.9 * mean) * count == 0.9 * (mean * count);
  }

  lemma RampScaled(b: real, mean: real, total: real, count: real, timestep: real)
    requires mean * count == total && (b - F) * (F - 0.9 * mean) == 3.0 * F * (F - timestep)
    ensures 3.0 * F * (F - timestep) * count == (b - F) * (F * count - 0.9 * total)
  {
    calc {
      3.0 * F * (F - timestep) * count;
    ==
      ((b - F) * (F - 0.9 * mean)) * count;
    ==
      (b - F) * ((F - 0.9 * mean) * count);
    == { assert (F - 0.9 * mean) * count == F * count - 0.9 * (mean * count); }
      (b - F) * (F * count - 0.9 * total);
    }
  }

  /** A turn steps exactly when the backlog covers the timestep, and asks to sleep for what is
      missing of the next one, or a second. */
  ghost predicate Balances(t: Turn, backlog: real) {
    && (t.stepped <==> backlog >= t.timestep)
    && t.state.remaining == backlog - (if t.stepped then t.timestep else 0.0)
    && t.sleep == (if t.timestep - t.state.remaining < 1.0 then t.timestep - t.state.remaining else 1.0)
  }

  lemma SettledBalances(backlog: real, record: seq<real>, e: real, now: real)
    ensures Balances(Settle(backlog, record, e, now), backlog)
  {
  }

  lemma SettledWindow(timestep: real, backlog: real, window: seq<real>)
    requires window != [] && timestep == F * Timescale(backlog, Mean(window))
    ensures TimestepFor(timestep, backlog, Sum(window), |window| as real)
  {
    MeanTimesCount(window);
    SettledTimestep(timestep, backlog, Mean(window), Sum(window), |window| as real);
  }

  lemma MeanTimesCount(xs: seq<real>)
    requires xs != []
    ensures Mean(xs) * (|xs| as real) == Sum(xs)
  {
  }

  lemma LastMeasurement(start: real, clock: seq<real>)
    requires clock != [] && |Measured(start, clock)| == |clock|
    ensures var n := |clock| - 1;
      Measured(start, clock)[n] == Elapsed(StateAfter(start, clock[..n]).previous, clock[n])
  {
    MeasuredLength(start, clock[..|clock| - 1]);
  }

  lemma LastRecord(start: real, clock: seq<real>)
    requires clock != []
    ensures LastTurn(start, clock).state.record == Window(start, clock)
  {
    DequeIsWindow(start, clock);
    assert StateAfter(start, clock) == LastTurn(start, clock).state;
  }

  lemma TurnSettles(start: real, clock: seq<real>, backlog: real, e: real)
    requires clock != [] && |Measured(start, clock)| == |clock| && e == Measured(start, clock)[|clock| - 1]
    requires backlog == StateAfter(start, clock[..|clock| - 1]).remaining + e
    ensures LastTurn(start, clock) ==
      Settle(backlog, StateAfter(start, clock[..|clock| - 1]).record, e, clock[|clock| - 1])
  {
    LastMeasurement(start, clock);
  }

  /** Every iteration of every run finds the backlog left by the one before and its own measurement,
      and keeps the account of it. */
  lemma TurnBalances(start: real, clock: seq<real>)
    requires clock != []
    ensures |Measured(start, clock)| == |clock|
    ensures var n := |clock| - 1;
      Balances(LastTurn(start, clock), StateAfter(start, clock[..n]).remaining + Measured(start, clock)[n])
  {
    var n := |clock| - 1;
    MeasuredLength(start, clock);
    var s, e := StateAfter(start, clock[..n]), Measured(start, clock)[n];
    TurnSettles(start, clock, s.remaining + e, e);
    SettledBalances(s.remaining + e, s.record, e, clock[n]);
  }

  /** The backlog and the window that the last iteration of a run decides by. */
  ghost predicate DecidesBy(start: real, clock: seq<real>, t: Turn, backlog: real, window: seq<real>) {
    && clock != [] && t == LastTurn(start, clock)
    && |Measured(start, clock)| == |clock| && window == Window(start, clock)
    && backlog == StateAfter(start, clock[..|clock| - 1]).remaining + Measured(start, clock)[|clock| - 1]
  }

  /** What an iteration decides, apart from where it comes from. */
  lemma Decision(start: real, clock: seq<real>, t: Turn, backlog: real, window: seq<real>)
    requires DecidesBy(start, clock, t, backlog, window)
    ensures window != [] && t.timestep == F * Timescale(backlog, Mean(window))
  {
    var record, e, now := DecidedFrom(start, clock, t, backlog, window);
    SettleDecides(t, backlog, record, e, now, window);
  }

  lemma DecidedFrom(start: real, clock: seq<real>, t: Turn, backlog: real, window: seq<real>)
    returns (record: seq<real>, e: real, now: real)
    requires DecidesBy(start, clock, t, backlog, window)
    ensures t == Settle(backlog, record, e, now) && window == t.state.record
  {
    var n := |clock| - 1;
    record, e, now := StateAfter(start, clock[..n]).record, Measured(start, clock)[n], clock[n];
    TurnSettles(start, clock, backlog, e);
    LastRecord(start, clock);
  }

  lemma SettleDecides(t: Turn, backlog: real, record: seq<real>, e: real, now: real, window: seq<real>)
    requires t == Settle(backlog, record, e, now) && window == t.state.record
    ensures window != [] && t.timestep == F * Timescale(backlog, Mean(window))
  {
  }

  /** Every iteration of every run has the timestep of its backlog and of the last twenty measurements. */
  lemma TimestepIs(start: real, clock: seq<real>, t: Turn, backlog: real, window: seq<real>)
    requires DecidesBy(start, clock, t, backlog, window)
    ensures TimestepFor(t.timestep, backlog, Sum(window), |window| as real)
  {
    Decision(start, clock, t, backlog, window);
    SettledWindow(t.timestep, backlog, window);
  }
}
