/**
  `_generateIntermediatePoints` and `_generateDetourPoints`: the waypoints a
  round trip is laid out on, and the detours pushed between the ends of a
  point-to-point route.

  The spherical helpers `_calculateDistance`, `_calculateBearing` and
  `_calculatePointAtDistance` are floating-point trigonometry; they are
  passed in as the functions of a `Geo` value, and the model states only what
  the generators do with their results. `Math.random()` is passed in as
  `random`, whose `i`-th value is the draw made in iteration `i`.
*/
module Waypoints {
  import opened JsNumber
  import opened Curves

  /** `Math.PI` as the source's double. */
  const PI: real := 3.141592653589793

  /** The three spherical helpers; `pointAt` gives the `[lng, lat]` components of its result. */
  datatype Geo = Geo(
    distance: (seq<Num>, seq<Num>) -> Num,
    bearing: (seq<Num>, seq<Num>) -> Num,
    pointAt: (seq<Num>, Num, Num) -> (Num, Num))

  /** `_calculatePointAtDistance(point, distance, bearing)`: a fresh two-element array. */
  function Destination(geo: Geo, point: seq<Num>, distance: Num, bearing: Num): (r: seq<Num>)
    ensures |r| == 2
  {
    var (lng, lat) := geo.pointAt(point, distance, bearing);
    [lng, lat]
  }

  // ---------------------------------------------------------------------
  // Round trip

  /** `radiusKm * 1000` with `radiusKm = (targetDistance / 1000) / (2 * Math.PI)`. */
  function RingRadius(targetDistance: Num): Num {
    Mul(Div(Div(targetDistance, 1000.0), 2.0 * PI), Fin(1000.0))
  }

  /** `angle = startBearing + (360 / numPoints) * (i + 1)`. */
  function RingBearing(startBearing: Num, n: nat, i: nat): Num
    requires n > 0
  {
    Add(startBearing, Fin((360.0 / n as real) * (i + 1) as real))
  }

  /** `(Math.random() - 0.5) * 0.01` for the draw `u`. */
  function Jitter(u: real): real {
    (u - 0.5) * 0.01
  }

  /**
    Round-trip point `i`: the point at the ring radius and bearing `i`, with
    the same jitter added to both of its coordinates.
  */
  function RingPoint(geo: Geo, start: seq<Num>, targetDistance: Num, level: string, startBearing: Num,
                     random: nat -> real, i: nat): seq<Num>
  {
    var p := Destination(geo, start, RingRadius(targetDistance), RingBearing(startBearing, IntermediateCount(level), i));
    var offset := Fin(Jitter(random(i)));
    [Add(p[0], offset), Add(p[1], offset)]
  }

  /** The points `_generateIntermediatePoints` returns: one per ring position, in order. */
  function Ring(geo: Geo, start: seq<Num>, targetDistance: Num, level: string, startBearing: Num,
                random: nat -> real): (r: seq<seq<Num>>)
    ensures |r| == IntermediateCount(level)
    ensures forall i :: 0 <= i < |r| ==> r[i] == RingPoint(geo, start, targetDistance, level, startBearing, random, i)
  {
    seq(IntermediateCount(level), i requires 0 <= i => RingPoint(geo, start, targetDistance, level, startBearing, random, i))
  }

  /** `_generateIntermediatePoints(startPoint, targetDistance, curveLevel, startBearing)`. */
  method IntermediatePoints(geo: Geo, startPoint: seq<Num>, targetDistance: Num, curveLevel: string,
                            startBearing: Num, random: nat -> real) returns (points: seq<seq<Num>>)
    ensures points == Ring(geo, startPoint, targetDistance, curveLevel, startBearing, random)
  {
    points := [];
    var numPoints := if curveLevel == "high" then 3 else (if curveLevel == "medium" then 2 else 1);
    var radius := RingRadius(targetDistance);
    for i := 0 to numPoints
      invariant |points| == i
      invariant forall k :: 0 <= k < i ==>
        points[k] == RingPoint(geo, startPoint, targetDistance, curveLevel, startBearing, random, k)
    {
      var angle := RingBearing(startBearing, numPoints, i);
      var point := Destination(geo, startPoint, radius, angle);
      var randomOffset := Jitter(random(i));
      point := point[0 := Add(point[0], Fin(randomOffset))];
      point := point[1 := Add(point[1], Fin(randomOffset))];
      points := points + [point];
    }
  }

  /**
    The ring bearings are evenly spaced, 360 / n apart, and the last one
    completes the circle back to the start bearing plus 360.
  */
  lemma {:induction false} RingBearingsEvenlySpaced(startBearing: real, n: nat, i: nat)
    requires n > 0 && i < n
    ensures RingBearing(Fin(startBearing), n, i).r == startBearing + (360.0 / n as real) * (i + 1) as real
    ensures i + 1 < n ==> RingBearing(Fin(startBearing), n, i + 1).r - RingBearing(Fin(startBearing), n, i).r == 360.0 / n as real
    ensures RingBearing(Fin(startBearing), n, n - 1) == Fin(startBearing + 360.0)
  {
    var step := 360.0 / n as real;
    assert step * (i + 2) as real - step * (i + 1) as real == step;
    assert step * n as real == 360.0;
  }

  /**
    The jitter moves both coordinates of a ring point by the same amount:
    the point is shifted along the diagonal, never along one axis only.
  */
  lemma {:induction false} RingJitterSameOnBothAxes(geo: Geo, start: seq<Num>, targetDistance: Num, level: string,
                                                    startBearing: Num, random: nat -> real, i: nat)
    requires var p := Destination(geo, start, RingRadius(targetDistance), RingBearing(startBearing, IntermediateCount(level), i));
             p[0].Fin? && p[1].Fin?
    ensures var p := Destination(geo, start, RingRadius(targetDistance), RingBearing(startBearing, IntermediateCount(level), i));
            var q := RingPoint(geo, start, targetDistance, level, startBearing, random, i);
            q[0].r - p[0].r == q[1].r - p[1].r == Jitter(random(i))
  {
  }

  // ---------------------------------------------------------------------
  // Point to point

  /** `progress = (i + 1) / (numDetours + 1)`. */
  function Progress(n: nat, i: nat): real {
    (i + 1) as real / (n + 1) as real
  }

  /** `a + (b - a) * t`: the coordinate a fraction `t` of the way from `a` to `b`. */
  function Along(a: Num, b: Num, t: real): Num {
    Add(a, Mul(Sub(b, a), Fin(t)))
  }

  /** `midPoint`: both coordinates a fraction `t` of the way from `s` to `e` (missing ones read as NaN). */
  function Midpoint(s: seq<Num>, e: seq<Num>, t: real): seq<Num> {
    [Along(Get(s, 0), Get(e, 0), t), Along(Get(s, 1), Get(e, 1), t)]
  }

  /** `extraDistance = targetDistance - directDistance`. */
  function ExtraDistance(geo: Geo, s: seq<Num>, e: seq<Num>, targetDistance: Num): Num {
    Sub(targetDistance, geo.distance(s, e))
  }

  /** `!(extraDistance <= 0)`: NaN, from a missing target distance, does not stop the detours. */
  predicate NeedsDetour(extra: Num) {
    !AtMost(extra, Fin(0.0))
  }

  /** `perpBearing = bearing + 90 + (Math.random() - 0.5) * 60` for the draw `u`. */
  function PerpendicularBearing(bearing: Num, u: real): Num {
    Add(Add(bearing, Fin(90.0)), Fin((u - 0.5) * 60.0))
  }

  /** `offsetDistance = (extraDistance / numDetours) * 0.3`. */
  function OffsetDistance(extra: Num, n: nat): Num
    requires n > 0
  {
    Mul(Div(extra, n as real), Fin(0.3))
  }

  /** Detour `i`: pushed off the point at `progress` along the segment, roughly at right angles to it. */
  function DetourPoint(geo: Geo, s: seq<Num>, e: seq<Num>, targetDistance: Num, level: string,
                       random: nat -> real, i: nat): seq<Num>
  {
    var n := DetourCount(level);
    Destination(geo, Midpoint(s, e, Progress(n, i)),
                OffsetDistance(ExtraDistance(geo, s, e, targetDistance), n),
                PerpendicularBearing(geo.bearing(s, e), random(i)))
  }

  /**
    The points `_generateDetourPoints` returns: none when there is no extra
    distance to cover, otherwise one per detour, in order along the segment.
  */
  function Detours(geo: Geo, s: seq<Num>, e: seq<Num>, targetDistance: Num, level: string,
                   random: nat -> real): (r: seq<seq<Num>>)
    ensures !NeedsDetour(ExtraDistance(geo, s, e, targetDistance)) ==> r == []
    ensures NeedsDetour(ExtraDistance(geo, s, e, targetDistance)) ==>
      |r| == DetourCount(level) &&
      forall i :: 0 <= i < |r| ==> r[i] == DetourPoint(geo, s, e, targetDistance, level, random, i)
  {
    if !NeedsDetour(ExtraDistance(geo, s, e, targetDistance)) then []
    else seq(DetourCount(level), i requires 0 <= i => DetourPoint(geo, s, e, targetDistance, level, random, i))
  }

  /** `_generateDetourPoints(startPoint, endPoint, targetDistance, curveLevel)`. */
  method DetourPoints(geo: Geo, startPoint: seq<Num>, endPoint: seq<Num>, targetDistance: Num, curveLevel: string,
                      random: nat -> real) returns (points: seq<seq<Num>>)
    ensures points == Detours(geo, startPoint, endPoint, targetDistance, curveLevel, random)
  {
    points := [];
    var directDistance := geo.distance(startPoint, endPoint);
    var extraDistance := Sub(targetDistance, directDistance);
    if AtMost(extraDistance, Fin(0.0)) {
      return;
    }
    var numDetours := if curveLevel == "high" then 2 else (if curveLevel == "medium" then 1 else 1);
    for i := 0 to numDetours
      invariant |points| == i
      invariant forall k :: 0 <= k < i ==>
        points[k] == DetourPoint(geo, startPoint, endPoint, targetDistance, curveLevel, random, k)
    {
      var progress := Progress(numDetours, i);
      var midPoint := Midpoint(startPoint, endPoint, progress);
      var bearing := geo.bearing(startPoint, endPoint);
      var perpBearing := PerpendicularBearing(bearing, random(i));
      var offsetDistance := OffsetDistance(extraDistance, numDetours);
      var detourPoint := Destination(geo, midPoint, offsetDistance, perpBearing);
      points := points + [detourPoint];
    }
  }

  /** The detours sit strictly inside the segment, and each one further along than the one before. */
  lemma {:induction false} ProgressInside(n: nat, i: nat)
    requires i < n
    ensures 0.0 < Progress(n, i) < 1.0
    ensures i + 1 < n ==> Progress(n, i) < Progress(n, i + 1)
  {
    var d := (n + 1) as real;
    assert Progress(n, i) * d == (i + 1) as real;
    assert Progress(n, i + 1) * d == (i + 2) as real;
  }

  /** The sign of `d * u` for a non-negative `u` follows the sign of `d`. */
  lemma ProductSign(d: real, u: real)
    requires 0.0 <= u
    ensures 0.0 <= d ==> 0.0 <= d * u
    ensures d <= 0.0 ==> d * u <= 0.0
  {
  }

  /** The gaps between `a`, `a + d * t`, `a + d * t'` and `a + d`, as products. */
  lemma Gaps(d: real, t: real, t': real)
    ensures d * t' - d * t == d * (t' - t)
    ensures d - d * t' == d * (1.0 - t')
  {
  }

  /** Later detours are further along. */
  lemma {:induction false} ProgressMonotone(n: nat, i: nat, j: nat)
    requires i <= j
    ensures Progress(n, i) <= Progress(n, j)
  {
    var d := (n + 1) as real;
    assert Progress(n, j) - Progress(n, i) == (j - i) as real / d;
  }

  /** Moving along a segment: the coordinate stays between its ends and moves monotonically. */
  lemma {:induction false} AlongBetween(a: real, b: real, t: real, t': real)
    requires 0.0 <= t <= t' <= 1.0
    ensures var x, x' := Along(Fin(a), Fin(b), t).r, Along(Fin(a), Fin(b), t').r;
            (a <= b ==> a <= x <= x' <= b) && (b <= a ==> b <= x' <= x <= a)
  {
    var d := b - a;
    assert Along(Fin(a), Fin(b), t).r == a + d * t;
    assert Along(Fin(a), Fin(b), t').r == a + d * t';
    Gaps(d, t, t');
    ProductSign(d, t);
    ProductSign(d, t' - t);
    ProductSign(d, 1.0 - t');
  }

  /**
    With finite ends, the midpoints of detours `i < j` lie on the segment from
    start to end, the one of `i` nearer the start on both axes.
  */
  lemma {:induction false} MidpointsInOrder(s: seq<Num>, e: seq<Num>, n: nat, i: nat, j: nat)
    requires |s| == 2 && |e| == 2 && s[0].Fin? && s[1].Fin? && e[0].Fin? && e[1].Fin?
    requires i <= j < n
    ensures forall c :: 0 <= c < 2 ==>
      var x, x' := Midpoint(s, e, Progress(n, i))[c].r, Midpoint(s, e, Progress(n, j))[c].r;
      (s[c].r <= e[c].r ==> s[c].r <= x <= x' <= e[c].r) &&
      (e[c].r <= s[c].r ==> e[c].r <= x' <= x <= s[c].r)
  {
    ProgressInside(n, i);
    ProgressInside(n, j);
    ProgressMonotone(n, i, j);
    AlongBetween(s[0].r, e[0].r, Progress(n, i), Progress(n, j));
    AlongBetween(s[1].r, e[1].r, Progress(n, i), Progress(n, j));
  }
}
