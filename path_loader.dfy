/** Loading the path: the waypoints parsed from the input file, one per
    line, are appended in order; a waypoint whose location does not lie
    strictly after the previous one rejects the whole input. Parsing the
    text itself is not modelled: the input is the sequence of parsed
    (location, altitude) pairs. */
module PathLoader {
  import opened Path

  datatype LoadError =
    | Backwards(line: nat)       // the 0-based line whose location is not past the previous one
    | TooFewPoints(count: nat)   // fewer than two waypoints: there is no segment to ride

  datatype Loaded = Accepted(path: seq<Point>) | Rejected(error: LoadError)

  /** The loading loop exactly as the program runs it: it accepts an input
      iff its locations are strictly increasing, stores it unchanged and in
      order, and otherwise stops at the first point that is not past its
      predecessor. It accepts inputs of any length, including none. */
  method LoadPoints(input: seq<Point>) returns (r: Loaded)
    ensures r.Accepted? <==> Increasing(input)
    ensures r.Accepted? ==> r.path == input
    ensures r.Rejected? ==>
              && r.error.Backwards?
              && 0 < r.error.line < |input|
              && input[r.error.line].x <= input[r.error.line - 1].x
              && Increasing(input[..r.error.line])
  {
    var p: seq<Point> := [];
    var k := 0;
    while k < |input|
      invariant 0 <= k <= |input|
      invariant p == input[..k]
      invariant Increasing(p)
    {
      var point := input[k];
      if p != [] && point.x <= p[|p| - 1].x {
        return Rejected(Backwards(k));
      }
      p := p + [point];
      k := k + 1;
    }
    assert p == input;
    return Accepted(p);
  }

  /** The loop admits a path with no segment at all (no line, or a single
      line), and such a path is handed to the simulation, which reads the
      segment from waypoint 0 to waypoint 1 before anything else. */
  method ShortPathPassesLoop(point: Point) returns (none: Loaded, single: Loaded)
    ensures none == Accepted([])
    ensures single == Accepted([point])
  {
    none := LoadPoints([]);
    single := LoadPoints([point]);
  }

  /** Loading followed by the check the simulation needs: at least two
      waypoints. An accepted path is exactly what the simulation
      requires. */
  method LoadPath(input: seq<Point>) returns (r: Loaded)
    ensures r.Accepted? <==> Increasing(input) && |input| >= 2
    ensures r.Accepted? ==> r.path == input
    ensures r.Rejected? && r.error.TooFewPoints? ==>
              Increasing(input) && r.error.count == |input| < 2
    ensures r.Rejected? && r.error.Backwards? ==>
              && 0 < r.error.line < |input|
              && input[r.error.line].x <= input[r.error.line - 1].x
              && Increasing(input[..r.error.line])
  {
    r := LoadPoints(input);
    if r.Accepted? && |r.path| < 2 {
      r := Rejected(TooFewPoints(|r.path|));
    }
  }
}
