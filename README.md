# Cycling time predictor: simulation core in Dafny

This project models the simulation core of a cycling-time predictor. The
predictor estimates how long a rider takes to cover a piecewise-linear
elevation profile, given an average power and a combined mass. The C++
program (`pathsim.cpp`) has four parts, and each is modelled here with
`double` replaced by exact `real`:

- **Power model** (`Resistance`): `WattKmh` is the power needed to hold a
  speed in km/h on a grade. It adds rolling resistance `3.1·kmh`, drag
  `0.0065·kmh³` and a climb term `(kmh/3.6)·slope·mass·9.81`.
- **Path and slope** (`Path`): a waypoint is a `Point(x, y)`, with `x` the
  location in metres and `y` the altitude. `Slope(p, i)` is the grade of the
  segment from waypoint `i` to waypoint `i + 1`. It requires that this
  segment exists.
- **Path loading** (`PathLoader`): the loop in `main` appends parsed points
  in order. It rejects the input at the first point whose location is not
  strictly after the previous one. `LoadPoints` is that loop as written.
  `LoadPath` adds the missing check for at least two points (see Findings).
- **Simulation** (`Simulator`): `Simulate` is the program's `for` loop, as a
  method over local variables. Its result equals the specification function
  `Run`. `Run` repeats `Step` (one iteration of the loop) and `Continue`
  (the negative-speed test and the time increment) until one of three
  things happens:
  - the cursor reaches the last waypoint;
  - the speed turns negative (a `break` that skips that iteration's `t += dt`);
  - an iteration budget `fuel` runs out.

  `Iterate` is the loop body as statements, proved to compute one `Step`.
  `Consistent` is the loop's invariant:
  - while a segment remains, the cached slope is the current segment's slope;
  - the speed is not negative;
  - once past the first segment, the rider has passed the cursor's waypoint;
  - the time is one `dt` per completed iteration.

The design documentation scales rolling resistance by `mass / 90`. The code
does not, and the model follows the code. `AgreesWithScaledIff` proves that
the two formulas agree exactly when the mass is 90 kg or the speed is zero.
`main` always passes 90 kg.

## Model

| member | source | states |
|---|---|---|
| Resistance.WattKmh | pathsim.cpp:39-43 | no contract of its own: the required power is rolling resistance plus drag plus the climb term, with friction not scaled by mass; its facts are the lemmas ZeroAtRest, FlatIndependentOfMass, StrictlyIncreasingInSpeed, NegativeIffSteepDescent and AgreesWithScaledIff |
| Resistance.ZeroAtRest | pathsim.cpp:39-43 | zero speed needs zero power, whatever the grade and the mass |
| Resistance.FlatIndependentOfMass | pathsim.cpp:40-42 | on a zero grade the power is `3.1·kmh + 0.0065·kmh³`, the same for every mass |
| Resistance.StrictlyIncreasingInSpeed | pathsim.cpp:40-42 | for grade ≥ 0 and mass ≥ 0, the required power is strictly increasing in speed over speeds ≥ 0 |
| Resistance.AgreesWithScaledIff | pathsim.cpp:40 | the coded formula (friction not scaled by mass) equals the mass-scaled design formula iff mass = 90 or speed = 0 |
| Resistance.NegativeIffSteepDescent | pathsim.cpp:40-42 | for every positive speed and any mass, the required power is negative exactly when the downhill pull `−slope·mass·9.81` exceeds `(3.1 + 0.0065·kmh²)·3.6` |
| Path.IncreasingSorted | pathsim.cpp:37 | a path whose consecutive locations increase is sorted: every waypoint lies strictly before every later one |
| Path.Slope | pathsim.cpp:46-50 | needs segment `i` to exist (waypoint `i + 1` is on the path); slope × location change = altitude change; for an increasing segment, the slope is positive, negative or zero exactly as the altitude rises, falls or stays |
| Path.Altitude | pathsim.cpp:65 | no contract of its own: the altitude on the line through waypoint `i` with a given grade; its facts are the lemmas SegmentEndpoints and AltitudeOnSegmentLine |
| Path.SegmentEndpoints | pathsim.cpp:65 | the altitude line through waypoint `i` with the segment's slope passes through both of the segment's waypoints |
| Path.AltitudeOnSegmentLine | pathsim.cpp:65 | a point computed with the segment's slope is collinear with the segment's two waypoints |
| PathLoader.LoadPoints | pathsim.cpp:129-141 | accepts iff locations are strictly increasing; on acceptance the stored path equals the input in order; on rejection it names the first point not past its predecessor, with every earlier point increasing |
| PathLoader.ShortPathPassesLoop | pathsim.cpp:129-141 | the loading loop, run on no point and on a single point, accepts both and stores them unchanged, so paths with fewer than two waypoints (no segment 0) get through |
| PathLoader.LoadPath | pathsim.cpp:126-145 | accepts iff strictly increasing with at least two points, which is what the simulation requires; otherwise reports the first backwards point or the short count |
| Simulator.Start | pathsim.cpp:54-57 | no contract of its own: at rest at location 0 and altitude 0 with the cursor on waypoint 0 and the slope of segment 0; StartConsistent proves it satisfies the loop invariant |
| Simulator.Acceleration | pathsim.cpp:68-70 | no contract of its own: the acceleration set from the new speed; StepAcceleration states its meaning |
| Simulator.Step | pathsim.cpp:64-83 | one iteration: the cursor stays or moves forward by one; it moves exactly when the new location is past the next waypoint; after a move the cached slope is the new segment's slope, or the old one kept when the move reaches the last waypoint; without a move the slope is unchanged |
| Simulator.StepAcceleration | pathsim.cpp:68-70 | below 1.5 m/s the acceleration is 1; otherwise acceleration × speed × mass = power − the power needed at the new speed on the pre-advance grade |
| Simulator.Run | pathsim.cpp:61-92 | the cursor never moves back and stays on the path; arrival is at the last waypoint; a backward roll has negative speed; the budget bounds the iterations |
| Simulator.Continue | pathsim.cpp:86-89 | after an iteration: the run stops as a backward roll on exactly that iteration's state iff the speed is negative, with that iteration's time step not counted; otherwise the time step is counted and the loop goes on (arriving with `t + dt` at once when the cursor is on the last waypoint), with the same guarantees as `Run` |
| Simulator.TicksIsProduct | pathsim.cpp:61 | adding `dt` once per iteration gives `iterations · dt` |
| Simulator.StartConsistent | pathsim.cpp:54-57 | the initial state (at rest, cursor at the first waypoint, slope of segment 0) satisfies the loop invariant |
| Simulator.StepPreservesConsistent | pathsim.cpp:61-90 | an iteration that does not roll back keeps the invariant, and the location never decreases |
| Simulator.StepAltitudeOnOldSegment | pathsim.cpp:65 | the altitude an iteration computes lies on the line through the pre-advance segment's two waypoints |
| Simulator.RunOutcome | pathsim.cpp:61-92 | from a consistent state: on arrival the rider is past the last waypoint with one `dt` per iteration; on a backward roll the last iteration's `dt` is not counted |
| Simulator.SimulationOutcome | pathsim.cpp:53-93 | a run from the start ends past the last waypoint after `iterations · dt` seconds, or rolling backwards after `(iterations − 1) · dt` seconds, or out of budget with the slope still current |
| Simulator.CursorLagsOnLongStep | pathsim.cpp:80-83 | a step that passes two waypoints moves the cursor only one segment |
| Simulator.SlopeQueryAsWritten | pathsim.cpp:80-82 | the program asks for a slope exactly when the new location is past the next waypoint, and then for the segment starting at the new cursor |
| Simulator.AsWrittenReadsPastEnd | pathsim.cpp:80-83 | as written, passing the last waypoint asks for the slope of the segment starting at the last waypoint, which does not exist |
| Simulator.Iterate | pathsim.cpp:64-83 | the loop body's statements compute exactly one `Step` |
| Simulator.Simulate | pathsim.cpp:53-93 | the loop over local variables returns exactly `Run` from the start state with the given budget |

## Left out

- File opening, `getline`/`strtod` parsing and the "unable to open file" error (pathsim.cpp:125-145) are I/O. The loader works on the sequence of already-parsed pairs.
- Command-line handling is argument plumbing: the argument count, the power and precision checks, `getopt` with its `"v:r:h"` option string, the help text and the hard-coded mass of 90 kg.
- `sleep_for` (pathsim.cpp:62) is wall-clock pacing. The source calls it on every iteration, whatever the realtime flag says. All console output is left out too, including the every-10th-iteration verbose line and its `print_counter`, which affect no simulation state.
- Exact IEEE-754 behaviour of doubles is not modelled: all arithmetic is exact on `real`. A zero-length segment would divide by zero and give an infinite or NaN slope, but `Slope` requires distinct locations, which the loader guarantees.
- The final `double`→`int` truncation of the returned time (pathsim.cpp:92) is not modelled. The model returns the full final state, including `t`.
- Simulator.Simulate: termination of the source loop is not guaranteed, so the model takes an iteration budget `fuel` and reports `OutOfFuel` when it runs out. That outcome does not exist in the program.
- Numerical claims are not proved: convergence to a terminal speed and particular trip times.
- The invariant that the rider stays within the cursor's current segment is only half true. Once past the first segment, the model proves that the rider has passed the cursor's waypoint. On segment 0 even that lower bound fails whenever the first waypoint lies after location 0, because the rider starts at location 0. The upper bound can fail because the cursor moves at most one segment per iteration (`CursorLagsOnLongStep`).

## Findings

| source | as written | input that shows it | evidently intended | confidence | as-written member | corrected member |
|---|---|---|---|---|---|---|
| pathsim.cpp:80-83 | after moving the cursor onto the last waypoint, `current_slope(chkpoint)` is called with `chkpoint == end() - 1`. The comment at line 46 forbids this, and the call reads one element past the end of the path | path `[(0,0),(10,0)]`, any iteration whose location passes 10 | recompute the slope only when a next segment exists; the loop ends right after, so the slope is never used again | high; not executed | Simulator.AsWrittenReadsPastEnd | Simulator.Step |
| pathsim.cpp:129-141, 56-57 | the loading loop accepts an empty file or a single line; `simulate` then reads waypoint 1 at line 57 (via `current_slope`) before testing anything | a path file with one line `0,240` | reject paths with fewer than two waypoints before simulating | medium; not executed | PathLoader.ShortPathPassesLoop | PathLoader.LoadPath |
