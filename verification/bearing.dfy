/**
 * Distance and relative bearing to the goal (`calculate_distance_and_angle`, identical in
 * the chatGPT and geminiPro copies of the SC-28 `gps.py`).
 *
 * The geodesic inverse problem (`pyproj.Geod.inv`) is not part of this model: it is a
 * parameter `inv`, taking (lon1, lat1, lon2, lat2) and returning the forward azimuth in
 * degrees (north 0, east 90, clockwise) and the distance in metres, or `None` when it raises.
 */
module Bearing {
  import opened Common

  /** The distance reported when no course can be computed. */
  const ErrorDistance: real := 2727272727.0

  /** The travel below which the rover counts as stationary, in metres. */
  const StationaryLimit: real := 0.1

  datatype Inverse = Inverse(azimuth: real, backAzimuth: real, distance: real)

  type Geodesic = (real, real, real, real) -> Option<Inverse>

  /** Distance to the goal in metres and relative angle in radians (left positive). */
  datatype Course = Course(distance: real, angle: real)

  function Radians(deg: real): real { deg * (Pi / 180.0) }

  /** The measure the reduction loops bring down. */
  function ReductionMeasure(d: real): int
  {
    if d > 180.0 then d.Floor else if d < -180.0 then (-d).Floor else 0
  }

  /**
   * An angle in degrees brought into [-180, 180] by whole turns: first 360 is taken
   * away while above 180, then added while below -180.
   */
  function ReduceDegrees(d: real): (r: real)
    ensures -180.0 <= r <= 180.0
    ensures -180.0 <= d <= 180.0 ==> r == d
    ensures d > 180.0 ==> r > -180.0
    ensures d < -180.0 ==> r < 180.0
    decreases ReductionMeasure(d)
  {
    if d > 180.0 then ReduceDegrees(d - 360.0)
    else if d < -180.0 then ReduceDegrees(d + 360.0)
    else d
  }

  /** The reduction only removes whole turns: `d - ReduceDegrees(d)` is a multiple of 360. */
  lemma {:induction false} ReduceByWholeTurns(d: real)
    ensures (d - ReduceDegrees(d)) / 360.0 == ((d - ReduceDegrees(d)) / 360.0).Floor as real
    decreases ReductionMeasure(d)
  {
    if d > 180.0 {
      ReduceByWholeTurns(d - 360.0);
      var k := ((d - 360.0 - ReduceDegrees(d - 360.0)) / 360.0).Floor;
      assert (d - ReduceDegrees(d)) / 360.0 == k as real + 1.0;
    } else if d < -180.0 {
      ReduceByWholeTurns(d + 360.0);
      var k := ((d + 360.0 - ReduceDegrees(d + 360.0)) / 360.0).Floor;
      assert (d - ReduceDegrees(d)) / 360.0 == k as real - 1.0;
    }
  }

  /** The two `while` loops of the normalisation. */
  method NormalizeDegrees(d: real) returns (r: real)
    ensures r == ReduceDegrees(d)
  {
    r := d;
    while r > 180.0
      invariant ReduceDegrees(r) == ReduceDegrees(d)
      decreases r.Floor
    {
      r := r - 360.0;
    }
    while r < -180.0
      invariant r <= 180.0
      invariant ReduceDegrees(r) == ReduceDegrees(d)
      decreases (-r).Floor
    {
      r := r + 360.0;
    }
  }

  /** The course as a function of the six coordinates and the geodesic. */
  function DistanceAndAngle(curLat: Option<real>, curLon: Option<real>,
                            startLat: Option<real>, startLon: Option<real>,
                            goalLat: Option<real>, goalLon: Option<real>,
                            inv: Geodesic): Course
  {
    if curLat.None? || curLon.None? || startLat.None? || startLon.None? || goalLat.None? || goalLon.None? then
      Course(ErrorDistance, 0.0)
    else
      var moved := inv(startLon.value, startLat.value, curLon.value, curLat.value);
      if moved.None? then Course(ErrorDistance, 0.0)
      else
        var toGoal := inv(curLon.value, curLat.value, goalLon.value, goalLat.value);
        if toGoal.None? then Course(ErrorDistance, 0.0)
        else if moved.value.distance < StationaryLimit then Course(toGoal.value.distance, 0.0)
        else Course(toGoal.value.distance, Radians(ReduceDegrees(-(toGoal.value.azimuth - moved.value.azimuth))))
  }

  /** `calculate_distance_and_angle`, with its normalisation loops. */
  method CalculateDistanceAndAngle(curLat: Option<real>, curLon: Option<real>,
                                   startLat: Option<real>, startLon: Option<real>,
                                   goalLat: Option<real>, goalLon: Option<real>,
                                   inv: Geodesic) returns (c: Course)
    ensures c == DistanceAndAngle(curLat, curLon, startLat, startLon, goalLat, goalLon, inv)
  {
    if curLat.None? || curLon.None? || startLat.None? || startLon.None? || goalLat.None? || goalLon.None? {
      return Course(ErrorDistance, 0.0);
    }
    var moved := inv(startLon.value, startLat.value, curLon.value, curLat.value);
    if moved.None? {
      return Course(ErrorDistance, 0.0);
    }
    var toGoal := inv(curLon.value, curLat.value, goalLon.value, goalLat.value);
    if toGoal.None? {
      return Course(ErrorDistance, 0.0);
    }
    if moved.value.distance < StationaryLimit {
      return Course(toGoal.value.distance, 0.0);
    }
    var diff := NormalizeDegrees(-(toGoal.value.azimuth - moved.value.azimuth));
    c := Course(toGoal.value.distance, Radians(diff));
  }

  /** A missing coordinate, or a geodesic that raises, gives the sentinel pair. */
  lemma SentinelWhenUnavailable(curLat: Option<real>, curLon: Option<real>,
                                startLat: Option<real>, startLon: Option<real>,
                                goalLat: Option<real>, goalLon: Option<real>, inv: Geodesic)
    requires curLat.None? || curLon.None? || startLat.None? || startLon.None? || goalLat.None? || goalLon.None?
    ensures DistanceAndAngle(curLat, curLon, startLat, startLon, goalLat, goalLon, inv) == Course(ErrorDistance, 0.0)
  {
  }

  /** Travel under 0.1 m: the distance is still current to goal and the angle is 0. */
  lemma StationaryGivesStraightAhead(cur: (real, real), start: (real, real), goal: (real, real), inv: Geodesic)
    requires inv(start.1, start.0, cur.1, cur.0).Some? && inv(cur.1, cur.0, goal.1, goal.0).Some?
    requires inv(start.1, start.0, cur.1, cur.0).value.distance < StationaryLimit
    ensures DistanceAndAngle(Some(cur.0), Some(cur.1), Some(start.0), Some(start.1), Some(goal.0), Some(goal.1), inv)
         == Course(inv(cur.1, cur.0, goal.1, goal.0).value.distance, 0.0)
  {
  }

  /** Every angle returned lies in [-pi, pi]. */
  lemma AngleInHalfTurn(curLat: Option<real>, curLon: Option<real>,
                        startLat: Option<real>, startLon: Option<real>,
                        goalLat: Option<real>, goalLon: Option<real>, inv: Geodesic)
    ensures -Pi <= DistanceAndAngle(curLat, curLon, startLat, startLon, goalLat, goalLon, inv).angle <= Pi
  {
  }

  /**
   * Sign convention: a goal clockwise of the heading by less than half a turn (to the
   * right) gives a negative angle; counter-clockwise (to the left) a positive one.
   * Going north with the goal due east gives exactly -pi/2.
   */
  lemma {:induction false} RightIsNegative(azMove: real, azGoal: real)
    requires -180.0 <= azMove <= 180.0 && -180.0 <= azGoal <= 180.0
    ensures (0.0 < azGoal - azMove < 180.0 || -360.0 < azGoal - azMove < -180.0) ==> Radians(ReduceDegrees(-(azGoal - azMove))) < 0.0
    ensures (-180.0 < azGoal - azMove < 0.0 || 180.0 < azGoal - azMove < 360.0) ==> Radians(ReduceDegrees(-(azGoal - azMove))) > 0.0
    ensures azMove == 0.0 && azGoal == 90.0 ==> Radians(ReduceDegrees(-(azGoal - azMove))) == -Pi / 2.0
  {
    var d := -(azGoal - azMove);
    if d > 180.0 {
      assert ReduceDegrees(d) == d - 360.0;
    } else if d < -180.0 {
      assert ReduceDegrees(d) == d + 360.0;
    }
  }
}
