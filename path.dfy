/** The path: waypoints (location, altitude) and the slope of the segment
    that starts at a waypoint. */
module Path {

  /** One waypoint: `x` is the location along the route in metres, `y` the
      altitude in metres. */
  datatype Point = Point(x: real, y: real)

  /** Locations grow strictly from each waypoint to the next: no duplicate
      location, and the path never goes backwards. */
  predicate Increasing(p: seq<Point>)
  {
    forall i :: 0 < i < |p| ==> p[i - 1].x < p[i].x
  }

  /** An increasing path is sorted by location: every waypoint lies
      strictly before every later one. */
  lemma {:induction false} IncreasingSorted(p: seq<Point>, i: nat, j: nat)
    requires Increasing(p)
    requires i < j < |p|
    ensures p[i].x < p[j].x
    decreases j - i
  {
    if i + 1 < j {
      IncreasingSorted(p, i + 1, j);
    }
  }

  /** Grade of the segment from waypoint `i` to waypoint `i + 1`: altitude
      change over location change. Segment `i` must exist, which excludes
      the last waypoint. */
  function Slope(p: seq<Point>, i: nat): (s: real)
    requires i + 1 < |p|
    requires p[i].x != p[i + 1].x
    ensures s * (p[i + 1].x - p[i].x) == p[i + 1].y - p[i].y
    ensures p[i].x < p[i + 1].x ==>
              (s > 0.0 <==> p[i + 1].y > p[i].y) &&
              (s < 0.0 <==> p[i + 1].y < p[i].y) &&
              (s == 0.0 <==> p[i + 1].y == p[i].y)
  {
    (p[i + 1].y - p[i].y) / (p[i + 1].x - p[i].x)
  }

  /** Altitude on the line through waypoint `i` with grade `slope`, at
      location `x`. */
  function Altitude(p: seq<Point>, i: nat, slope: real, x: real): real
    requires i < |p|
  {
    slope * (x - p[i].x) + p[i].y
  }

  /** With the segment's own slope, the altitude line through waypoint `i`
      passes through both ends of the segment: the profile is continuous. */
  lemma SegmentEndpoints(p: seq<Point>, i: nat)
    requires i + 1 < |p| && p[i].x != p[i + 1].x
    ensures Altitude(p, i, Slope(p, i), p[i].x) == p[i].y
    ensures Altitude(p, i, Slope(p, i), p[i + 1].x) == p[i + 1].y
  {
  }

  /** A point computed with the segment's slope lies on the straight line
      through the segment's two waypoints. */
  lemma AltitudeOnSegmentLine(p: seq<Point>, i: nat, x: real)
    requires i + 1 < |p| && p[i].x != p[i + 1].x
    ensures (Altitude(p, i, Slope(p, i), x) - p[i].y) * (p[i + 1].x - p[i].x)
         == (p[i + 1].y - p[i].y) * (x - p[i].x)
  {
    var s := Slope(p, i);
    var dx := p[i + 1].x - p[i].x;
    var h := x - p[i].x;
    assert Altitude(p, i, s, x) - p[i].y == s * h;
    assert s * h * dx == s * dx * h;
  }
}
