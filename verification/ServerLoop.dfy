/** The fixed-timestep main loop of the game server: a rolling window of measured
    iteration times drives a timescale, an accumulator decides whether to step, and the
    requested sleep feeds the next measurement. Times are exact reals, in seconds. */
module ServerLoop {

  const FIXED_TIMESTEP: real := 1.0 / 60.0
  const MAX_ELAPSED: real := 2.0
  const MAX_SLEEP: real := 1.0
  const WINDOW: nat := 20

  function Min(a: real, b: real): real {
    if a <= b then a else b
  }

  function Clamp(x: real, lo: real, hi: real): real {
    if x < lo then lo else if hi < x then hi else x
  }

  function Sum(xs: seq<real>): real {
    if xs == [] then 0.0 else Sum(xs[..|xs| - 1]) + xs[|xs| - 1]
  }

  function Mean(xs: seq<real>): real
    requires xs != []
  {
    Sum(xs) / (|xs| as real)
  }

  function LastOf(xs: seq<real>, n: nat): seq<real> {
    if |xs| <= n then xs else xs[|xs| - n..]
  }

  /** The variables that live across iterations of the loop. */
  datatype LoopState = LoopState(remaining: real, timescale: real, record: seq<real>, previous: real)

  /** One completed iteration: what it measured, decided and left behind. */
  datatype Turn = Turn(state: LoopState, elapsed: real, stepped: bool, timestep: real, sleep: real) {
    /** How much of the accumulator the iteration spent on a game step. */
    function Consumed(): real {
      if stepped then timestep else 0.0
    }
  }

  function Elapsed(previous: real, now: real): real {
    Min(MAX_ELAPSED, now - previous)
  }

  function Pushed(record: seq<real>, elapsed: real): (r: seq<real>)
    ensures r != []
  {
    var pushed := record + [elapsed];
    if |pushed| > WINDOW then pushed[1..] else pushed
  }

  /** The timescale for an accumulator and a mean measured duration. */
  function Timescale(remaining: real, mean: real): real {
    if remaining > FIXED_TIMESTEP then
      var target := 0.9 * mean / FIXED_TIMESTEP;
      var alpha := Clamp((remaining - FIXED_TIMESTEP) / (FIXED_TIMESTEP * 3.0), 0.0, 1.0);
      target * alpha + 1.0 * (1.0 - alpha)
    else 1.0
  }

  function Iterate(s: LoopState, now: real): Turn {
    var elapsed := Elapsed(s.previous, now);
    Settle(s.remaining + elapsed, s.record, elapsed, now)
  }

  /** An iteration that ends after its measurement. */
  function Interrupted(s: LoopState, now: real): LoopState {
    s.(remaining := s.remaining + Elapsed(s.previous, now), previous := now)
  }

  /** The iteration from the point where `elapsed` has been added to the accumulator. */
  function Settle(remaining: real, oldRecord: seq<real>, elapsed: real, now: real): Turn {
    var record := Pushed(oldRecord, elapsed);
    var timescale := Timescale(remaining, Mean(record));
    var timestep := FIXED_TIMESTEP * timescale;
    var stepped := remaining >= timestep;
    var left := if stepped then remaining - timestep else remaining;
    Turn(LoopState(left, timescale, record, now), elapsed, stepped, timestep, Min(timestep - left, MAX_SLEEP))
  }

  function Initial(start: real): LoopState {
    LoopState(0.0, 1.0, [], start)
  }

  /** The state after the readings `clock` of the steady clock, starting from reading `start`. */
  function StateAfter(start: real, clock: seq<real>): LoopState
    decreases |clock|, 1
  {
    if clock == [] then Initial(start) else LastTurn(start, clock).state
  }

  /** The iteration that took the last reading of `clock`. */
  function LastTurn(start: real, clock: seq<real>): Turn
    requires clock != []
    decreases |clock|, 0
  {
    var n := |clock| - 1;
    Iterate(StateAfter(start, clock[..n]), clock[n])
  }

  function Measured(start: real, clock: seq<real>): seq<real> {
    if clock == [] then [] else Measured(start, clock[..|clock| - 1]) + [LastTurn(start, clock).elapsed]
  }

  function Spent(start: real, clock: seq<real>): real {
    if clock == [] then 0.0 else Spent(start, clock[..|clock| - 1]) + LastTurn(start, clock).Consumed()
  }

  function StepCount(start: real, clock: seq<real>): nat {
    if clock == [] then 0
    else StepCount(start, clock[..|clock| - 1]) + if LastTurn(start, clock).stepped then 1 else 0
  }

  /** How many iterations run to the end before the kill flag is seen set. */
  function Completed(killFlag: seq<bool>): (n: nat)
    ensures n <= |killFlag|
    ensures forall i :: 0 <= i < n ==> !killFlag[i]
    ensures n < |killFlag| ==> killFlag[n]
  {
    if killFlag == [] || killFlag[0] then 0 else 1 + Completed(killFlag[1..])
  }

  lemma {:induction false} CompletedAt(killFlag: seq<bool>, n: nat)
    requires n <= |killFlag|
    requires forall i :: 0 <= i < n ==> !killFlag[i]
    requires n < |killFlag| ==> killFlag[n]
    ensures Completed(killFlag) == n
  {
    if n > 0 {
      CompletedAt(killFlag[1..], n - 1);
    }
  }

  lemma OneMoreReading(start: real, clock: seq<real>, i: nat)
    requires i < |clock|
    ensures var s := StateAfter(start, clock[..i]);
      var elapsed := Elapsed(s.previous, clock[i]);
      var t := Settle(s.remaining + elapsed, s.record, elapsed, clock[i]);
      && StateAfter(start, clock[..i + 1]) == t.state
      && StepCount(start, clock[..i + 1]) == StepCount(start, clock[..i]) + if t.stepped then 1 else 0
  {
    assert clock[..i + 1][..i] == clock[..i];
  }

  class ServerInstance {
    var remainingTime: real
    var previousTime: real
    var timescale: real
    var stepDurationRecord: seq<real>
    var gameSteps: nat

    constructor ()
      ensures gameSteps == 0 && timescale == 1.0 && stepDurationRecord == []
    {
      remainingTime, previousTime, timescale, stepDurationRecord, gameSteps := 0.0, 0.0, 1.0, [], 0;
    }

    function State(): LoopState
      reads this
    {
      LoopState(remainingTime, timescale, stepDurationRecord, previousTime)
    }

    /** The main loop over a finite prefix of the clock readings and kill-flag polls it makes. */
    method Run(start: real, clock: seq<real>, killFlag: seq<bool>)
      requires |clock| == |killFlag|
      modifies this
      ensures var n := Completed(killFlag);
        && gameSteps == old(gameSteps) + StepCount(start, clock[..n])
        && State() == if n < |clock| then Interrupted(StateAfter(start, clock[..n]), clock[n])
                      else StateAfter(start, clock[..n])
    {
      stepDurationRecord := [];
      timescale := 1.0;
      previousTime := start;
      remainingTime := 0.0;
      var i := 0;
      while i < |clock|
        invariant 0 <= i <= |clock|
        invariant forall j :: 0 <= j < i ==> !killFlag[j]
        invariant State() == StateAfter(start, clock[..i])
        invariant gameSteps == old(gameSteps) + StepCount(start, clock[..i])
      {
        var elapsed := Measure(clock[i]);
        if killFlag[i] {
          CompletedAt(killFlag, i);
          return;
        }
        Complete(elapsed, start, clock, i);
        i := i + 1;
      }
      CompletedAt(killFlag, i);
    }

    /** The measurement at the head of an iteration. */
    method Measure(currentTime: real) returns (elapsed: real)
      modifies this`remainingTime, this`previousTime
      ensures elapsed == Elapsed(old(State()).previous, currentTime)
      ensures State() == Interrupted(old(State()), currentTime)
    {
      elapsed := Min(MAX_ELAPSED, currentTime - previousTime);
      previousTime := currentTime;
      remainingTime := remainingTime + elapsed;
    }

    /** Iteration `i`, once the kill flag has been seen clear. */
    method Complete(elapsed: real, ghost start: real, ghost clock: seq<real>, ghost i: nat)
      requires i < |clock|
      requires var s := StateAfter(start, clock[..i]);
        elapsed == Elapsed(s.previous, clock[i]) && State() == Interrupted(s, clock[i])
      modifies this
      ensures State() == StateAfter(start, clock[..i + 1])
      ensures gameSteps == old(gameSteps) + StepCount(start, clock[..i + 1]) - StepCount(start, clock[..i])
    {
      var sleepTime := Orchestrate(elapsed);
      OneMoreReading(start, clock, i);
    }

    /** The rest of an iteration after the measurement: statistics, timescale, step and sleep. */
    method Orchestrate(elapsed: real) returns (sleepTime: real)
      modifies this
      ensures var t := Settle(old(remainingTime), old(stepDurationRecord), elapsed, old(previousTime));
        && State() == t.state && sleepTime == t.sleep
        && gameSteps == old(gameSteps) + if t.stepped then 1 else 0
    {
      stepDurationRecord := stepDurationRecord + [elapsed];
      if |stepDurationRecord| > WINDOW {
        stepDurationRecord := stepDurationRecord[1..];
      }
      var meanStepDuration := MeanDuration(stepDurationRecord);
      timescale := NextTimescale(remainingTime, meanStepDuration);
      var currentTimestep := FIXED_TIMESTEP * timescale;
      if remainingTime >= currentTimestep {
        gameSteps := gameSteps + 1;
        remainingTime := remainingTime - currentTimestep;
      }
      sleepTime := Min(currentTimestep - remainingTime, MAX_SLEEP);
    }

    /** std::accumulate over the window, divided by its size. */
    static method MeanDuration(record: seq<real>) returns (mean: real)
      requires record != []
      ensures mean == Mean(record)
      ensures mean * (|record| as real) == Sum(record)
    {
      var total := 0.0;
      var k := 0;
      while k < |record|
        invariant 0 <= k <= |record|
        invariant total == Sum(record[..k])
      {
        assert record[..k + 1][..k] == record[..k];
        total := total + record[k];
        k := k + 1;
      }
      assert record[..k] == record;
      mean := total / (|record| as real);
    }

    static method NextTimescale(remaining: real, mean: real) returns (timescale: real)
      ensures timescale == Timescale(remaining, mean)
    {
      var targetTimescale := 0.9 * mean / FIXED_TIMESTEP;
      if remaining > FIXED_TIMESTEP {
        var rampTime := FIXED_TIMESTEP * 3.0;
        var alpha := Clamp((remaining - FIXED_TIMESTEP) / rampTime, 0.0, 1.0);
        timescale := targetTimescale * alpha + 1.0 * (1.0 - alpha);
      } else {
        timescale := 1.0;
      }
    }
  }
}
