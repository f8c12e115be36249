/** The simulation: forward-Euler integration of the rider's location,
    altitude, speed and acceleration over fixed time steps, with a cursor
    that tracks which segment of the path the rider is on. The loop runs
    until the cursor reaches the last waypoint, or stops early when the
    speed turns negative (the bicycle rolls backwards). */
module Simulator {
  import opened Path
  import opened Resistance

  /** Below this speed (m/s) the power-derived acceleration is replaced by
      a fixed push-off acceleration, avoiding a division by a speed close
      to zero. */
  const PushOffSpeed: real := 1.5
  /** The fixed acceleration (m/s^2) used below `PushOffSpeed`. */
  const PushOffAcceleration: real := 1.0

  /** The loop's variables: the cursor `chk` (index of the waypoint that
      starts the current segment), the cached `slope`, location `x`,
      altitude `y`, speed `v`, acceleration `a`, elapsed time `t`, and the
      number of loop iterations started so far. */
  datatype SimState = SimState(
    chk: nat, slope: real, x: real, y: real, v: real, a: real, t: real, iterations: nat)

  /** How a run ends: the cursor reached the last waypoint, the speed went
      negative, or the iteration budget ran out first. */
  datatype Outcome =
    | Arrived(final: SimState)
    | RolledBack(final: SimState)
    | OutOfFuel(final: SimState)

  /** The state before the first iteration: at rest at location 0 with
      altitude 0, on the first segment. */
  function Start(p: seq<Point>): SimState
    requires |p| >= 2 && Increasing(p)
  {
    SimState(0, Slope(p, 0), 0.0, 0.0, 0.0, 0.0, 0.0, 0)
  }

  /** The acceleration set after the speed is updated to `v`. */
  function Acceleration(power: real, mass: real, slope: real, v: real): real
    requires mass > 0.0
  {
    var needed := WattKmh(v * KmhPerMps, slope, mass);
    if v >= PushOffSpeed then (power - needed) / (v * mass) else PushOffAcceleration
  }

  /** One iteration of the loop up to (not including) the negative-speed
      test and the time increment. The cursor moves forward by at most one
      segment, exactly when the new location lies past the next waypoint,
      and the cached slope is then that of the new segment. Altitude is
      computed on the segment the rider was on before the move. Unlike the
      program, the slope is recomputed only when the new segment exists:
      on arrival at the last waypoint the old slope is kept instead of
      reading past the end of the path (see `AsWrittenReadsPastEnd`). */
  function Step(p: seq<Point>, power: real, mass: real, dt: real, s: SimState): (r: SimState)
    requires Increasing(p) && s.chk + 1 < |p|
    requires mass > 0.0
    ensures r.iterations == s.iterations + 1 && r.t == s.t
    ensures r.chk == s.chk || r.chk == s.chk + 1
    ensures r.chk == s.chk + 1 <==> r.x > p[s.chk + 1].x
    ensures r.chk == s.chk ==> r.slope == s.slope
    ensures r.chk != s.chk && r.chk + 1 < |p| ==> r.slope == Slope(p, r.chk)
    ensures r.chk != s.chk && r.chk + 1 == |p| ==> r.slope == s.slope
  {
    var x := s.x + s.v * dt;
    var y := Altitude(p, s.chk, s.slope, x);
    var v := s.v + s.a * dt;
    var a := Acceleration(power, mass, s.slope, v);
    var advance := x > p[s.chk + 1].x;
    var chk := if advance then s.chk + 1 else s.chk;
    var slope := if advance && chk + 1 < |p| then Slope(p, chk) else s.slope;
    SimState(chk, slope, x, y, v, a, s.t, s.iterations + 1)
  }

  /** The acceleration an iteration sets: the fixed push-off value below
      `PushOffSpeed`; otherwise the one whose force times the new speed is
      the power left over once the resistance at the new speed on the
      pre-advance grade is paid (force times speed is power). */
  lemma StepAcceleration(p: seq<Point>, power: real, mass: real, dt: real, s: SimState)
    requires Increasing(p) && s.chk + 1 < |p|
    requires mass > 0.0
    ensures var r := Step(p, power, mass, dt, s);
            && (r.v < PushOffSpeed ==> r.a == PushOffAcceleration)
            && (r.v >= PushOffSpeed ==>
                  r.a * (r.v * mass) == power - WattKmh(r.v * KmhPerMps, s.slope, mass))
  {
  }

  /** The whole loop, with at most `fuel` further iterations: stop when
      the cursor is on the last waypoint, otherwise run one iteration. */
  function Run(p: seq<Point>, power: real, mass: real, dt: real, s: SimState, fuel: nat): (o: Outcome)
    requires Increasing(p) && s.chk < |p|
    requires mass > 0.0
    ensures s.chk <= o.final.chk < |p|
    ensures s.iterations <= o.final.iterations <= s.iterations + fuel
    ensures o.Arrived? ==> o.final.chk + 1 == |p|
    ensures o.RolledBack? ==> o.final.v < 0.0 && o.final.iterations > s.iterations
    ensures o.OutOfFuel? ==> o.final.chk + 1 < |p| && o.final.iterations == s.iterations + fuel
    decreases fuel, 0
  {
    if s.chk + 1 == |p| then Arrived(s)
    else if fuel == 0 then OutOfFuel(s)
    else Continue(p, power, mass, dt, Step(p, power, mass, dt, s), fuel - 1)
  }

  /** The end of an iteration that produced `r`: stop if the speed is
      negative, without counting the time step; otherwise count it and go
      on. */
  function Continue(p: seq<Point>, power: real, mass: real, dt: real, r: SimState, fuel: nat): (o: Outcome)
    requires Increasing(p) && r.chk < |p|
    requires mass > 0.0
    ensures r.chk <= o.final.chk < |p|
    ensures r.iterations <= o.final.iterations <= r.iterations + fuel
    ensures o.Arrived? ==> o.final.chk + 1 == |p|
    ensures o.RolledBack? ==> o.final.v < 0.0 && o.final.iterations >= r.iterations
    ensures o.OutOfFuel? ==> o.final.chk + 1 < |p| && o.final.iterations == r.iterations + fuel
    ensures r.v < 0.0 <==> o == RolledBack(r)
    ensures r.v >= 0.0 && r.chk + 1 == |p| ==> o == Arrived(r.(t := r.t + dt))
    ensures r.v >= 0.0 && r.chk + 1 < |p| && fuel == 0 ==> o == OutOfFuel(r.(t := r.t + dt))
    decreases fuel, 1
  {
    if r.v < 0.0 then RolledBack(r)
    else Run(p, power, mass, dt, r.(t := r.t + dt), fuel)
  }

  /** The time accumulated by adding `dt` once per completed iteration. */
  function Ticks(n: nat, dt: real): real
  {
    if n == 0 then 0.0 else Ticks(n - 1, dt) + dt
  }

  /** Repeated addition of the time step is multiplication. */
  lemma {:induction false} TicksIsProduct(n: nat, dt: real)
    ensures Ticks(n, dt) == n as real * dt
  {
    if n > 0 {
      TicksIsProduct(n - 1, dt);
      assert (n - 1) as real * dt + dt == n as real * dt;
    }
  }

  /** What holds at the head of every iteration: the cursor is on the path,
      the cached slope is that of the current segment, the rider is not
      rolling backwards, has passed the waypoint the cursor points to
      (unless still on the first segment), and the elapsed time is one
      time step per completed iteration. */
  predicate Consistent(p: seq<Point>, dt: real, s: SimState)
  {
    && Increasing(p)
    && s.chk < |p|
    && (s.chk + 1 < |p| ==> s.slope == Slope(p, s.chk))
    && s.v >= 0.0
    && (s.chk > 0 ==> s.x > p[s.chk].x)
    && s.t == Ticks(s.iterations, dt)
  }

  lemma StartConsistent(p: seq<Point>, dt: real)
    requires |p| >= 2 && Increasing(p)
    ensures Consistent(p, dt, Start(p))
  {
  }

  lemma NonNegativeProduct(a: real, b: real)
    requires a >= 0.0 && b >= 0.0
    ensures a * b >= 0.0
  {
  }

  /** An iteration that does not end the loop keeps the state consistent. */
  lemma StepPreservesConsistent(p: seq<Point>, power: real, mass: real, dt: real, s: SimState)
    requires Consistent(p, dt, s) && s.chk + 1 < |p|
    requires mass > 0.0 && dt > 0.0
    ensures var r := Step(p, power, mass, dt, s);
            r.v >= 0.0 ==> Consistent(p, dt, r.(t := r.t + dt))
    ensures Step(p, power, mass, dt, s).x >= s.x
  {
    var r := Step(p, power, mass, dt, s);
    NonNegativeProduct(s.v, dt);
    assert r.x == s.x + s.v * dt;
  }

  /** With a consistent state, the altitude an iteration computes lies on
      the straight line through the two waypoints of the segment the rider
      was on BEFORE the cursor moved, even when the new location is already
      past that segment. */
  lemma StepAltitudeOnOldSegment(p: seq<Point>, power: real, mass: real, dt: real, s: SimState)
    requires Consistent(p, dt, s) && s.chk + 1 < |p|
    requires mass > 0.0
    ensures var r := Step(p, power, mass, dt, s);
            (r.y - p[s.chk].y) * (p[s.chk + 1].x - p[s.chk].x)
            == (p[s.chk + 1].y - p[s.chk].y) * (r.x - p[s.chk].x)
  {
    var r := Step(p, power, mass, dt, s);
    assert r.y == Altitude(p, s.chk, Slope(p, s.chk), r.x);
    AltitudeOnSegmentLine(p, s.chk, r.x);
  }

  /** The end of a run from a consistent state. Arriving means the rider
      is past the last waypoint, with one time step counted per iteration.
      Rolling back means the last iteration's time step was not counted.
      Running out of the iteration budget leaves a consistent state. */
  lemma {:induction false} RunOutcome(p: seq<Point>, power: real, mass: real, dt: real,
                                      s: SimState, fuel: nat)
    requires |p| >= 2 && Consistent(p, dt, s)
    requires mass > 0.0 && dt > 0.0
    ensures var o := Run(p, power, mass, dt, s, fuel);
            && (o.Arrived? ==>
                  && o.final.x > p[|p| - 1].x
                  && o.final.t == Ticks(o.final.iterations, dt))
            && (o.RolledBack? ==>
                  && o.final.iterations >= 1
                  && o.final.t == Ticks(o.final.iterations - 1, dt))
            && (o.OutOfFuel? ==> Consistent(p, dt, o.final))
    decreases fuel
  {
    if s.chk + 1 == |p| || fuel == 0 {
    } else {
      var r := Step(p, power, mass, dt, s);
      assert Run(p, power, mass, dt, s, fuel) == Continue(p, power, mass, dt, r, fuel - 1);
      if r.v >= 0.0 {
        StepPreservesConsistent(p, power, mass, dt, s);
        RunOutcome(p, power, mass, dt, r.(t := r.t + dt), fuel - 1);
      }
    }
  }

  /** A run of the program from its start state: it ends on the last
      waypoint with the rider past it and `iterations * dt` seconds
      elapsed, or rolling backwards with the last iteration's time step not
      counted, or (only in this model) out of iteration budget with the
      cached slope still that of the current segment. */
  lemma SimulationOutcome(p: seq<Point>, power: real, mass: real, dt: real, fuel: nat)
    requires |p| >= 2 && Increasing(p)
    requires mass > 0.0 && dt > 0.0
    ensures var o := Run(p, power, mass, dt, Start(p), fuel);
            && (o.Arrived? ==>
                  && o.final.chk == |p| - 1
                  && o.final.x > p[|p| - 1].x
                  && o.final.t == o.final.iterations as real * dt)
            && (o.RolledBack? ==>
                  && o.final.v < 0.0
                  && o.final.iterations >= 1
                  && o.final.t == (o.final.iterations - 1) as real * dt)
            && (o.OutOfFuel? ==>
                  && o.final.iterations == fuel
                  && o.final.chk + 1 < |p|
                  && o.final.slope == Slope(p, o.final.chk))
  {
    var o := Run(p, power, mass, dt, Start(p), fuel);
    StartConsistent(p, dt);
    RunOutcome(p, power, mass, dt, Start(p), fuel);
    ElapsedAsProduct(o, dt);
    if o.OutOfFuel? {
      assert Consistent(p, dt, o.final);
    }
  }

  lemma ElapsedAsProduct(o: Outcome, dt: real)
    requires o.Arrived? ==> o.final.t == Ticks(o.final.iterations, dt)
    requires o.RolledBack? ==> o.final.iterations >= 1 && o.final.t == Ticks(o.final.iterations - 1, dt)
    ensures o.Arrived? ==> o.final.t == o.final.iterations as real * dt
    ensures o.RolledBack? ==> o.final.t == (o.final.iterations - 1) as real * dt
  {
    if o.Arrived? {
      TicksIsProduct(o.final.iterations, dt);
    } else if o.RolledBack? {
      TicksIsProduct(o.final.iterations - 1, dt);
    }
  }

  /** The cursor moves at most one segment per iteration, so a step long
      enough to pass two waypoints leaves it one segment behind the rider. */
  lemma CursorLagsOnLongStep()
    ensures var p := [Point(0.0, 0.0), Point(1.0, 0.0), Point(2.0, 0.0), Point(10.0, 0.0)];
            var s := SimState(0, 0.0, 0.0, 0.0, 5.0, 0.0, 0.0, 0);
            var r := Step(p, 150.0, 90.0, 1.0, s);
            r.chk == 1 && r.x > p[2].x
  {
    var p := [Point(0.0, 0.0), Point(1.0, 0.0), Point(2.0, 0.0), Point(10.0, 0.0)];
    assert Increasing(p);
  }

  /** Which segment's slope the program asks for when it updates the
      cursor: it advances the cursor and then always asks for the slope of
      the segment starting at the new cursor. */
  datatype SlopeQuery = NoQuery | SlopeOf(index: nat)

  function SlopeQueryAsWritten(p: seq<Point>, chk: nat, x: real): (q: SlopeQuery)
    requires chk + 1 < |p|
    ensures q.SlopeOf? <==> x > p[chk + 1].x
    ensures q.SlopeOf? ==> q.index == chk + 1 && q.index < |p|
  {
    if x > p[chk + 1].x then SlopeOf(chk + 1) else NoQuery
  }

  /** As written, passing the last waypoint asks for the slope of a segment
      that starts at the last waypoint; that segment does not exist, so the
      program reads one element past the end of the path. */
  lemma AsWrittenReadsPastEnd(p: seq<Point>, x: real)
    requires |p| >= 2 && x > p[|p| - 1].x
    ensures SlopeQueryAsWritten(p, |p| - 2, x) == SlopeOf(|p| - 1)
    ensures !(SlopeQueryAsWritten(p, |p| - 2, x).index + 1 < |p|)
  {
  }

  /** One pass through the loop body up to the negative-speed test, on the
      program's local variables: integrate the location, recompute the
      altitude on the current segment, integrate the speed, set the new
      acceleration, and move the cursor if the rider passed the next
      waypoint. It computes exactly one `Step`. */
  method Iterate(p: seq<Point>, power: real, mass: real, dt: real,
                 chk0: nat, slope0: real, x0: real, v0: real, a0: real, ghost s: SimState)
    returns (chk: nat, slope: real, x: real, y: real, v: real, a: real)
    requires Increasing(p) && chk0 + 1 < |p|
    requires mass > 0.0
    requires s.chk == chk0 && s.slope == slope0 && s.x == x0 && s.v == v0 && s.a == a0
    ensures Step(p, power, mass, dt, s) == SimState(chk, slope, x, y, v, a, s.t, s.iterations + 1)
  {
    chk, slope, x, v, a := chk0, slope0, x0, v0, a0;
    x := x + v * dt;
    y := Altitude(p, chk, slope, x);
    v := v + a * dt;
    a := Acceleration(power, mass, slope, v);
    if x > p[chk + 1].x {
      chk := chk + 1;
      if chk + 1 < |p| {
        slope := Slope(p, chk);
      }
    }
  }

  /** The loop itself, on local variables as the program has them, with an
      iteration budget `fuel`. Its result is the run the specification
      functions describe. */
  method Simulate(p: seq<Point>, power: real, mass: real, dt: real, fuel: nat) returns (r: Outcome)
    requires |p| >= 2 && Increasing(p)
    requires mass > 0.0 && dt > 0.0
    ensures r == Run(p, power, mass, dt, Start(p), fuel)
  {
    var x, y, v, a, t := 0.0, 0.0, 0.0, 0.0, 0.0;
    var chk: nat := 0;
    var slope := Slope(p, chk);
    var iterations: nat := 0;
    ghost var run := Run(p, power, mass, dt, Start(p), fuel);
    while chk + 1 != |p| && iterations < fuel
      invariant chk < |p| && iterations <= fuel
      invariant v >= 0.0
      invariant run == Run(p, power, mass, dt, SimState(chk, slope, x, y, v, a, t, iterations), fuel - iterations)
    {
      ghost var before := SimState(chk, slope, x, y, v, a, t, iterations);
      chk, slope, x, y, v, a := Iterate(p, power, mass, dt, chk, slope, x, v, a, before);
      iterations := iterations + 1;
      assert Step(p, power, mass, dt, before) == SimState(chk, slope, x, y, v, a, t, iterations);
      if v < 0.0 {
        break;
      }
      t := t + dt;
    }
    var final := SimState(chk, slope, x, y, v, a, t, iterations);
    r := if v < 0.0 then RolledBack(final)
         else if chk + 1 == |p| then Arrived(final)
         else OutOfFuel(final);
  }
}
