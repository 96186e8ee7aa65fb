/**
  What `_doRouteRequest` does to the routing service's answer before handing
  it back: every path's encoded `points` and `snapped_waypoints` are replaced,
  in place, by a GeoJSON-like LineString of decoded coordinates. And what the
  two internal generators add to it: a `route_info` record read off the
  first path.

  The answer itself is an input here: sending the request, HTTP status
  handling and JSON parsing are not part of the model.
*/
module Responses {
  import opened Wrappers
  import opened JsNumber
  import opened Errors
  import opened Polyline

  /** A path's `points` or `snapped_waypoints`, as far as the normalisation tells them apart. */
  datatype Json =
    | JString(s: string)
    | LineString(coordinates: seq<Coord>)
    | /** any other JSON value, with its truthiness */ Other(truthy: bool)

  /** One element of `data.paths`. */
  class Path {
    var distance: Num
    var pointsEncoded: bool
    var points: Json
    var snappedWaypoints: Json

    constructor (distance: Num, pointsEncoded: bool, points: Json, snappedWaypoints: Json)
      ensures this.distance == distance && this.pointsEncoded == pointsEncoded
      ensures this.points == points && this.snappedWaypoints == snappedWaypoints
    {
      this.distance := distance;
      this.pointsEncoded := pointsEncoded;
      this.points := points;
      this.snappedWaypoints := snappedWaypoints;
    }
  }

  /** `route_info`, as `_generateRoundTrip` and `_generatePointToPoint` build it. */
  datatype RouteInfo =
    | RoundTripInfo(targetDistance: Num, actualDistance: Num, curveLevel: string, startBearing: Num)
    | PointToPointInfo(targetDistance: Num, actualDistance: Num, directDistance: Num, curveLevel: string)

  /** The route info a generator has ready before the answer arrives, if it adds one. */
  datatype InfoDraft =
    | NoInfo
    | RoundTripDraft(targetDistance: Num, curveLevel: string, startBearing: Num)
    | PointToPointDraft(targetDistance: Num, directDistance: Num, curveLevel: string)

  /** The answer `data`: `paths` may be absent. */
  class Response {
    var paths: Option<seq<Path>>
    var routeInfo: Option<RouteInfo>

    constructor (paths: Option<seq<Path>>)
      ensures this.paths == paths && routeInfo == None
    {
      this.paths := paths;
      routeInfo := None;
    }
  }

  /** `points` after normalisation: decoded when `points_encoded` is truthy and `points` is a string, even "". */
  function NormalizedPoints(pointsEncoded: bool, points: Json): (r: Json)
    ensures !r.JString? || r == points
    ensures r.LineString? <==> points.LineString? || (pointsEncoded && points.JString?)
  {
    if pointsEncoded && points.JString? then LineString(Decode(points.s)) else points
  }

  /** `snapped_waypoints` after normalisation: decoded when it is a non-empty (truthy) string. */
  function NormalizedSnapped(snapped: Json): (r: Json)
    ensures r.JString? ==> r == snapped && r.s == ""
    ensures r.LineString? <==> snapped.LineString? || (snapped.JString? && snapped.s != "")
  {
    if snapped.JString? && snapped.s != "" then LineString(Decode(snapped.s)) else snapped
  }

  /** Normalising twice is normalising once. */
  lemma {:induction false} NormalizeIdempotent(pointsEncoded: bool, points: Json, snapped: Json)
    ensures NormalizedPoints(pointsEncoded, NormalizedPoints(pointsEncoded, points)) == NormalizedPoints(pointsEncoded, points)
    ensures NormalizedSnapped(NormalizedSnapped(snapped)) == NormalizedSnapped(snapped)
  {
  }

  /** An encoded empty `points` string becomes an empty line; an empty `snapped_waypoints` string stays. */
  lemma {:induction false} EmptyStrings()
    ensures NormalizedPoints(true, JString("")) == LineString([])
    ensures NormalizedSnapped(JString("")) == JString("")
  {
  }

  /**
    The loop over `data.paths`. The same path object may occur twice in the
    array; normalising it again changes nothing, so every path ends up
    normalised exactly once.
  */
  method NormalizePaths(paths: seq<Path>)
    modifies set i | 0 <= i < |paths| :: paths[i]
    ensures forall i :: 0 <= i < |paths| ==>
      paths[i].points == NormalizedPoints(old(paths[i].pointsEncoded), old(paths[i].points)) &&
      paths[i].snappedWaypoints == NormalizedSnapped(old(paths[i].snappedWaypoints)) &&
      paths[i].distance == old(paths[i].distance) && paths[i].pointsEncoded == old(paths[i].pointsEncoded)
  {
    for i := 0 to |paths|
      invariant forall k :: 0 <= k < |paths| ==>
        paths[k].distance == old(paths[k].distance) && paths[k].pointsEncoded == old(paths[k].pointsEncoded)
      invariant forall k :: 0 <= k < i ==>
        paths[k].points == NormalizedPoints(old(paths[k].pointsEncoded), old(paths[k].points)) &&
        paths[k].snappedWaypoints == NormalizedSnapped(old(paths[k].snappedWaypoints))
      invariant forall k :: i <= k < |paths| ==>
        (paths[k].points == old(paths[k].points) ||
         paths[k].points == NormalizedPoints(old(paths[k].pointsEncoded), old(paths[k].points))) &&
        (paths[k].snappedWaypoints == old(paths[k].snappedWaypoints) ||
         paths[k].snappedWaypoints == NormalizedSnapped(old(paths[k].snappedWaypoints)))
    {
      var path := paths[i];
      NormalizeIdempotent(path.pointsEncoded, old(path.points), old(path.snappedWaypoints));
      if path.pointsEncoded && path.points.JString? {
        var coordinates := DecodePolyline(path.points.s);
        path.points := LineString(coordinates);
      }
      if path.snappedWaypoints.JString? && path.snappedWaypoints.s != "" {
        var coordinates := DecodePolyline(path.snappedWaypoints.s);
        path.snappedWaypoints := LineString(coordinates);
      }
    }
  }

  /** `if (data.paths) { ... }`: the normalisation of a whole answer; the list of paths itself is kept. */
  method NormalizeResponse(data: Response)
    modifies set p: Path | data.paths.Some? && p in data.paths.value
    ensures data.paths == old(data.paths)
    ensures data.paths.Some? ==> forall i :: 0 <= i < |data.paths.value| ==>
      var p := data.paths.value[i];
      p.points == NormalizedPoints(old(p.pointsEncoded), old(p.points)) &&
      p.snappedWaypoints == NormalizedSnapped(old(p.snappedWaypoints)) &&
      p.distance == old(p.distance) && p.pointsEncoded == old(p.pointsEncoded)
  {
    if data.paths.Some? {
      NormalizePaths(data.paths.value);
    }
  }

  /** The route info once the first path's distance is known. */
  function WithActual(draft: InfoDraft, actual: Num): RouteInfo
    requires !draft.NoInfo?
  {
    match draft
    case RoundTripDraft(target, level, bearing) => RoundTripInfo(target, actual, level, bearing)
    case PointToPointDraft(target, direct, level) => PointToPointInfo(target, actual, direct, level)
  }

  /**
    The rest of the generator after the answer has arrived: normalise it and,
    for the internal generators, set `route_info` from `paths[0].distance`,
    which fails when there is no first path.
  */
  method Complete(data: Response, draft: InfoDraft) returns (r: Result<(), Error>)
    modifies data, set p: Path | data.paths.Some? && p in data.paths.value
    ensures data.paths == old(data.paths)
    ensures data.paths.Some? ==> forall i :: 0 <= i < |data.paths.value| ==>
      var p := data.paths.value[i];
      p.points == NormalizedPoints(old(p.pointsEncoded), old(p.points)) &&
      p.snappedWaypoints == NormalizedSnapped(old(p.snappedWaypoints)) &&
      p.distance == old(p.distance) && p.pointsEncoded == old(p.pointsEncoded)
    ensures r.Err? <==> !draft.NoInfo? && (data.paths == None || data.paths.value == [])
    ensures r.Err? ==> r.error == TypeError && data.routeInfo == old(data.routeInfo)
    ensures r.Ok? && !draft.NoInfo? ==> data.routeInfo == Some(WithActual(draft, old(data.paths.value[0].distance)))
    ensures draft.NoInfo? ==> data.routeInfo == old(data.routeInfo)
  {
    NormalizeResponse(data);
    if draft.NoInfo? {
      return Ok(());
    }
    if data.paths == None || data.paths.value == [] {
      return Err(TypeError);
    }
    data.routeInfo := Some(WithActual(draft, data.paths.value[0].distance));
    r := Ok(());
  }
}
