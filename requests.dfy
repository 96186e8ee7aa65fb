/**
  The request object `_generateRoundTrip`, `_generatePointToPoint` and
  `_requestRoute` build for the routing service, and `_applyCurveSettings`,
  which sets its `avoid` and `weighting` fields in place.
*/
module Requests {
  import opened Wrappers
  import opened JsNumber
  import opened Curves

  /** `routeRequest`: `avoid` and `weighting` are absent until the curve settings are applied. */
  class RouteRequest {
    var points: seq<seq<Num>>
    var profile: string
    var instructions: bool
    var pointsEncoded: bool
    var elevation: bool
    var locale: string
    var avoid: Option<string>
    var weighting: Option<string>

    constructor (points: seq<seq<Num>>, profile: string, instructions: bool, pointsEncoded: bool,
                 elevation: bool, locale: string)
      ensures this.points == points && this.profile == profile && this.instructions == instructions
      ensures this.pointsEncoded == pointsEncoded && this.elevation == elevation && this.locale == locale
      ensures avoid == None && weighting == None
    {
      this.points := points;
      this.profile := profile;
      this.instructions := instructions;
      this.pointsEncoded := pointsEncoded;
      this.elevation := elevation;
      this.locale := locale;
      avoid := None;
      weighting := None;
    }
  }

  /**
    `request` holds these points and fields, and the curve settings for
    `level` have been applied to it with `avoid` unset before.
  */
  predicate Built(request: RouteRequest, points: seq<seq<Num>>, profile: string, instructions: bool,
                  pointsEncoded: bool, elevation: bool, locale: string, level: string)
    reads request
  {
    request.points == points && request.profile == profile && request.instructions == instructions &&
    request.pointsEncoded == pointsEncoded && request.elevation == elevation && request.locale == locale &&
    request.weighting == Some(if Scenic(level) then "shortest" else "fastest") &&
    request.avoid == (if Scenic(level) then Some("motorway") else None)
  }

  /**
    `_applyCurveSettings(routeRequest, curveLevel)`: a scenic level asks for
    the "shortest" weighting and avoids motorways; any other level asks for
    "fastest" and leaves `avoid` as it was. Nothing else changes.
  */
  method ApplyCurveSettings(request: RouteRequest, curveLevel: string)
    modifies request
    ensures request.weighting == Some(if Scenic(curveLevel) then "shortest" else "fastest")
    ensures request.avoid == if Scenic(curveLevel) then Some("motorway") else old(request.avoid)
    ensures request.points == old(request.points) && request.profile == old(request.profile)
    ensures request.instructions == old(request.instructions) && request.pointsEncoded == old(request.pointsEncoded)
    ensures request.elevation == old(request.elevation) && request.locale == old(request.locale)
  {
    var settings := EffectiveFlags(curveLevel);
    EffectiveFlagsAreScenic(curveLevel);
    if settings.avoidHighways {
      request.avoid := Some("motorway");
    }
    if settings.preferScenic {
      request.weighting := Some("shortest");
    } else {
      request.weighting := Some("fastest");
    }
  }
}
