/** Satellite positions between the points of a trajectory, and longitudes across the antimeridian. */
module Trajectory {
  import opened Reals

  datatype Point = Point(time: real, x: real, y: real, z: real, latitude: real, longitude: real, altitude: real)

  datatype Position = Position(x: real, y: real, z: real)

  datatype GeoPosition = GeoPosition(latitude: real, longitude: real, altitudeKm: real)

  /** Strictly between the first and the last point in time, the case the scan is for. */
  predicate Inside(points: seq<Point>, t: real) {
    points != [] && points[0].time < t < points[|points| - 1].time
  }

  /** The scan from point `i` on: past every point whose successor is still earlier. */
  function Scan(points: seq<Point>, t: real, i: nat): (r: nat)
    requires i < |points|
    ensures i <= r < |points|
    decreases |points| - i
  {
    if i < |points| - 1 && points[i + 1].time < t then Scan(points, t, i + 1) else i
  }

  lemma {:induction false} ScanEndsBefore(points: seq<Point>, t: real, i: nat)
    requires i < |points| && points[i].time < t < points[|points| - 1].time
    ensures var r := Scan(points, t, i); r + 1 < |points| && points[r].time < t <= points[r + 1].time
    decreases |points| - i
  {
    if i < |points| - 1 && points[i + 1].time < t {
      ScanEndsBefore(points, t, i + 1);
    }
  }

  /** For any trajectory, sorted or not, the scan ends on a segment that straddles the time, so the
      interpolation never divides by zero. */
  function Segment(points: seq<Point>, t: real): (i: nat)
    requires Inside(points, t)
    ensures i + 1 < |points| && points[i].time < t <= points[i + 1].time
  {
    ScanEndsBefore(points, t, 0);
    Scan(points, t, 0)
  }

  /** How far into the segment. */
  function Alpha(points: seq<Point>, t: real): (a: real)
    requires Inside(points, t)
    ensures 0.0 < a <= 1.0
  {
    var i := Segment(points, t);
    var whole, part := points[i + 1].time - points[i].time, t - points[i].time;
    OverSign(part, whole);
    OverIsFraction(part, whole);
    Over(part, whole)
  }

  function Blend(a: real, p: real, q: real): real {
    p + Times(a, q - p)
  }

  function PositionAt(points: seq<Point>, t: real): Position
    requires points != []
  {
    if t <= points[0].time then Position(points[0].x, points[0].y, points[0].z)
    else
      var last := points[|points| - 1];
      if t >= last.time then Position(last.x, last.y, last.z)
      else
        var i, a := Segment(points, t), Alpha(points, t);
        var p, q := points[i], points[i + 1];
        Position(Blend(a, p.x, q.x), Blend(a, p.y, q.y), Blend(a, p.z, q.z))
  }

  /** InterpolatePosition for a satellite that has a trajectory. */
  method InterpolatePosition(points: seq<Point>, t: real) returns (position: Position)
    requires points != []
    ensures position == PositionAt(points, t)
  {
    if t <= points[0].time {
      return Position(points[0].x, points[0].y, points[0].z);
    }
    var last := points[|points| - 1];
    if t >= last.time {
      return Position(last.x, last.y, last.z);
    }
    var i := FindSegment(points, t);
    var p, q := points[i], points[i + 1];
    var alpha := (t - p.time) / (q.time - p.time);
    assert alpha == Alpha(points, t);
    position := Position(p.x + alpha * (q.x - p.x), p.y + alpha * (q.y - p.y), p.z + alpha * (q.z - p.z));
    assert position.x == Blend(alpha, p.x, q.x) && position.y == Blend(alpha, p.y, q.y) && position.z == Blend(alpha, p.z, q.z);
  }

  method FindSegment(points: seq<Point>, t: real) returns (i: nat)
    requires Inside(points, t)
    ensures i == Segment(points, t)
  {
    i := 0;
    while i < |points| - 1 && points[i + 1].time < t
      invariant i < |points| && Scan(points, t, i) == Scan(points, t, 0)
    {
      i := i + 1;
    }
  }

  // ----- what interpolation promises -----

  lemma BlendBetween(a: real, p: real, q: real)
    requires 0.0 <= a <= 1.0
    ensures Min(p, q) <= Blend(a, p, q) <= Max(p, q)
    ensures Blend(1.0, p, q) == q
  {
    hide Times;
    var d := q - p;
    TimesLinear(1.0, a, d);
    TimesSign(a, Abs(d));
    TimesSign(1.0 - a, Abs(d));
    TimesLinear(d, -d, a);
    TimesLinear(d, -d, 1.0 - a);
  }

  /** Between the two points that straddle the time, in every coordinate. */
  lemma StaysInSegment(points: seq<Point>, t: real)
    requires Inside(points, t)
    ensures var i, r := Segment(points, t), PositionAt(points, t);
            && i + 1 < |points|
            && Min(points[i].x, points[i + 1].x) <= r.x <= Max(points[i].x, points[i + 1].x)
            && Min(points[i].y, points[i + 1].y) <= r.y <= Max(points[i].y, points[i + 1].y)
            && Min(points[i].z, points[i + 1].z) <= r.z <= Max(points[i].z, points[i + 1].z)
  {
    hide Blend, Segment;
    var i, a := Segment(points, t), Alpha(points, t);
    BlendBetween(a, points[i].x, points[i + 1].x);
    BlendBetween(a, points[i].y, points[i + 1].y);
    BlendBetween(a, points[i].z, points[i + 1].z);
  }

  /** At an even pace: the way covered is to the way between the two points as the time gone by is to the
      time between them. */
  lemma MovesEvenly(points: seq<Point>, t: real)
    requires Inside(points, t)
    ensures var i, r := Segment(points, t), PositionAt(points, t);
            var p, q := points[i], points[i + 1];
            var part, whole := t - p.time, q.time - p.time;
            && 0.0 < part <= whole && Alpha(points, t) * whole == part
            && (r.x - p.x) * whole == (q.x - p.x) * part
            && (r.y - p.y) * whole == (q.y - p.y) * part
            && (r.z - p.z) * whole == (q.z - p.z) * part
  {
    hide Segment, Blend;
    var i := Segment(points, t);
    var p, q := points[i], points[i + 1];
    OverTimes(t - p.time, q.time - p.time);
    BlendIsEven(Alpha(points, t), p.x, q.x, t - p.time, q.time - p.time);
    BlendIsEven(Alpha(points, t), p.y, q.y, t - p.time, q.time - p.time);
    BlendIsEven(Alpha(points, t), p.z, q.z, t - p.time, q.time - p.time);
  }

  lemma BlendIsEven(a: real, p: real, q: real, part: real, whole: real)
    requires a * whole == part
    ensures (Blend(a, p, q) - p) * whole == (q - p) * part
  {
  }

  ghost predicate InOrder(points: seq<Point>) {
    forall j, k :: 0 <= j < k < |points| ==> points[j].time < points[k].time
  }

  lemma {:induction false} ScanReaches(points: seq<Point>, i: nat, k: nat)
    requires InOrder(points) && i < k < |points|
    ensures Scan(points, points[k].time, i) == k - 1
    decreases k - i
  {
    if i + 1 < k {
      ScanReaches(points, i + 1, k);
    }
  }

  /** On an ordered trajectory the interpolation passes through every point. */
  lemma PassesThroughItsPoints(points: seq<Point>, k: nat)
    requires InOrder(points) && k < |points|
    ensures PositionAt(points, points[k].time) == Position(points[k].x, points[k].y, points[k].z)
  {
    if 0 < k < |points| - 1 {
      hide Blend, Times, Over;
      ScanReaches(points, 0, k);
      var p, q := points[k - 1], points[k];
      TimesLinear(1.0, 1.0, q.time - p.time);
      OverUnique(q.time - p.time, q.time - p.time, 1.0);
      BlendBetween(1.0, p.x, q.x);
      BlendBetween(1.0, p.y, q.y);
      BlendBetween(1.0, p.z, q.z);
    }
  }

  // ----- longitudes -----

  predicate IsLongitude(d: real) {
    -180.0 <= d <= 180.0
  }

  function Turned(degrees: real, turns: int): real {
    degrees + 360.0 * turns as real
  }

  /** The same meridian: whole turns apart. */
  ghost predicate SameMeridian(a: real, b: real) {
    exists turns :: a == Turned(b, turns)
  }

  lemma TurnsAdd(a: real, b: real, c: real)
    requires SameMeridian(a, b) && SameMeridian(b, c)
    ensures SameMeridian(a, c)
  {
    var m :| a == Turned(b, m);
    var n :| b == Turned(c, n);
    assert a == Turned(c, m + n);
  }

  lemma SomeTurns(a: real, b: real, turns: int)
    requires a == Turned(b, turns)
    ensures SameMeridian(a, b) && SameMeridian(b, a)
  {
    assert b == Turned(a, -turns);
  }

  method NormalizeLongitude(degrees: real) returns (r: real)
    ensures IsLongitude(r) && SameMeridian(r, degrees)
  {
    r := degrees;
    SomeTurns(r, degrees, 0);
    while r > 180.0
      invariant SameMeridian(r, degrees) && (degrees >= -180.0 ==> r >= -180.0) && (degrees <= 180.0 ==> r == degrees)
      decreases r.Floor
    {
      SomeTurns(r - 360.0, r, -1);
      TurnsAdd(r - 360.0, r, degrees);
      FloorDrops(r);
      r := r - 360.0;
    }
    while r < -180.0
      invariant SameMeridian(r, degrees) && r <= 180.0
      decreases (-r).Floor
    {
      SomeTurns(r + 360.0, r, 1);
      TurnsAdd(r + 360.0, r, degrees);
      FloorDrops(-r);
      r := r + 360.0;
    }
  }

  lemma FloorDrops(x: real)
    ensures (x - 360.0).Floor == x.Floor - 360
  {
  }

  /** The signed way from one longitude to another along the shorter arc. */
  function ShortWay(from: real, to: real): real {
    var d := to - from;
    if d > 180.0 then d - 360.0 else if d < -180.0 then d + 360.0 else d
  }

  /** It is the way, and no way between the two meridians is shorter. */
  lemma ShortWayIsShortest(from: real, to: real, other: real)
    requires IsLongitude(from) && IsLongitude(to)
    ensures SameMeridian(from + ShortWay(from, to), to) && Abs(ShortWay(from, to)) <= 180.0
    ensures SameMeridian(from + other, to) ==> Abs(ShortWay(from, to)) <= Abs(other)
  {
    var d := to - from;
    SomeTurns(from + ShortWay(from, to), to, if d > 180.0 then -1 else if d < -180.0 then 1 else 0);
    if SameMeridian(from + other, to) {
      var n :| from + other == Turned(to, n);
      assert other == Turned(d, n);
    }
  }

  /** The longitude part of InterpolateGeoPosition: `alpha` of the way along the shorter arc, back in
      range, whether or not the arc crosses the antimeridian. */
  method InterpolateLongitude(from: real, to: real, alpha: real) returns (r: real)
    requires IsLongitude(from) && IsLongitude(to)
    ensures IsLongitude(r) && SameMeridian(r, from + Times(alpha, ShortWay(from, to)))
  {
    var lon1, lon2 := from, to;
    if Abs(lon2 - lon1) > 180.0 {
      if lon2 > lon1 {
        lon1 := lon1 + 360.0;
      } else {
        lon2 := lon2 + 360.0;
      }
    }
    assert lon2 - lon1 == ShortWay(from, to);
    r := NormalizeLongitude(lon1 + Times(alpha, lon2 - lon1));
    SomeTurns(lon1 + Times(alpha, lon2 - lon1), from + Times(alpha, ShortWay(from, to)), if lon1 == from then 0 else 1);
    TurnsAdd(r, lon1 + Times(alpha, lon2 - lon1), from + Times(alpha, ShortWay(from, to)));
  }

  /** InterpolateGeoPosition for a satellite that has a trajectory. */
  method InterpolateGeoPosition(points: seq<Point>, t: real) returns (g: GeoPosition)
    requires points != [] && forall k :: 0 <= k < |points| ==> IsLongitude(points[k].longitude)
    ensures IsLongitude(g.longitude)
    ensures t <= points[0].time ==> g == OfPoint(points[0])
    ensures points[0].time < t && t >= points[|points| - 1].time ==> g == OfPoint(points[|points| - 1])
    ensures Inside(points, t) ==>
              var i, a := Segment(points, t), Alpha(points, t);
              var p, q := points[i], points[i + 1];
              && g.latitude == Blend(a, p.latitude, q.latitude)
              && g.altitudeKm == Blend(a, p.altitude, q.altitude) / 1000.0
              && SameMeridian(g.longitude, p.longitude + Times(a, ShortWay(p.longitude, q.longitude)))
  {
    if t <= points[0].time {
      return OfPoint(points[0]);
    }
    if t >= points[|points| - 1].time {
      return OfPoint(points[|points| - 1]);
    }
    var i := FindSegment(points, t);
    var p, q := points[i], points[i + 1];
    var alpha := (t - p.time) / (q.time - p.time);
    assert alpha == Alpha(points, t);
    var longitude := InterpolateLongitude(p.longitude, q.longitude, alpha);
    g := GeoPosition(Blend(alpha, p.latitude, q.latitude), longitude, Blend(alpha, p.altitude, q.altitude) / 1000.0);
  }

  function OfPoint(p: Point): GeoPosition {
    GeoPosition(p.latitude, p.longitude, p.altitude / 1000.0)
  }
}
