/**
  The `Blucap` class: its constructor, the public generators
  `generateFunRoute`, `generateRoundTrip` and `generatePointToPoint`, the
  internal `_generateRoundTrip`, `_generatePointToPoint` and `_requestRoute`
  up to the request each would send, and the coordinate swap.

  A generator is modelled as the request it builds (`Prepared`), together
  with the route info it will add once the answer is there; `Complete` in
  module Responses models what happens to that answer.
*/
module Blucap {
  import opened Wrappers
  import opened JsNumber
  import opened Errors
  import opened Requests
  import opened Waypoints
  import opened Responses

  // ---------------------------------------------------------------------
  // Construction

  /** The constructor's `options`; `None` is an absent option. */
  datatype Options = Options(
    apiKey: Option<string>, host: Option<string>, timeout: Option<Num>, profile: Option<string>,
    locale: Option<string>, instructions: Option<bool>, pointsEncoded: Option<bool>, elevation: Option<bool>,
    curveLevel: Option<string>, routeType: Option<string>)

  /** `this.config`. */
  datatype Config = Config(
    apiKey: string, host: string, timeout: Num, profile: string, locale: string,
    instructions: bool, pointsEncoded: bool, elevation: bool, curveLevel: string, routeType: string)

  /** The value an absent option takes. */
  const Defaults: Config := Config("", "https://graphhopper.com/api/1", Fin(15000.0), "car", "en",
                                   true, true, false, "medium", "roundtrip")

  /** `s || d` for an optional string: the empty string is falsy. */
  function OrString(s: Option<string>, d: string): string {
    if s.Some? && s.value != "" then s.value else d
  }

  /** The object literal before `...options` is spread over it. */
  function Fallbacks(options: Options): Config {
    Config(
      OrString(options.apiKey, ""),
      OrString(options.host, Defaults.host),
      if options.timeout.Some? && Truthy(options.timeout.value) then options.timeout.value else Defaults.timeout,
      OrString(options.profile, Defaults.profile),
      OrString(options.locale, Defaults.locale),
      options.instructions != Some(false),
      options.pointsEncoded != Some(false),
      options.elevation == Some(true),
      Defaults.curveLevel,
      Defaults.routeType)
  }

  /** `{ ...fallbacks, ...options }`: every option given overwrites its fallback. */
  function Spread(c: Config, options: Options): Config {
    Config(
      options.apiKey.GetOr(c.apiKey), options.host.GetOr(c.host), options.timeout.GetOr(c.timeout),
      options.profile.GetOr(c.profile), options.locale.GetOr(c.locale),
      options.instructions.GetOr(c.instructions), options.pointsEncoded.GetOr(c.pointsEncoded),
      options.elevation.GetOr(c.elevation), options.curveLevel.GetOr(c.curveLevel),
      options.routeType.GetOr(c.routeType))
  }

  /**
    `new Blucap(options)`: throws exactly when no non-empty `apiKey` is given.
    Otherwise every option that is given is taken as it is, even a falsy one
    such as an empty profile, and every absent one takes its default.
  */
  function Construct(options: Options): (r: Result<Config, Error>)
    ensures r.Err? <==> options.apiKey.None? || options.apiKey.value == ""
    ensures r.Err? ==> r.error == MissingApiKey
    ensures r.Ok? ==> r.value == Config(
      options.apiKey.value, options.host.GetOr(Defaults.host), options.timeout.GetOr(Defaults.timeout),
      options.profile.GetOr(Defaults.profile), options.locale.GetOr(Defaults.locale),
      options.instructions.GetOr(Defaults.instructions), options.pointsEncoded.GetOr(Defaults.pointsEncoded),
      options.elevation.GetOr(Defaults.elevation), options.curveLevel.GetOr(Defaults.curveLevel),
      options.routeType.GetOr(Defaults.routeType))
  {
    var config := Spread(Fallbacks(options), options);
    if config.apiKey == "" then Err(MissingApiKey) else Ok(config)
  }

  // ---------------------------------------------------------------------
  // Points and routes

  /** A point argument: absent (or null), an array of numbers, or a truthy value that is not an array. */
  datatype PointArg = Absent | Arr(coords: seq<Num>) | NotArray

  /** `[point[1], point[0]]`: the swap between `[lat, lng]` and `[lng, lat]`. */
  function Swap(point: seq<Num>): seq<Num> {
    [Get(point, 1), Get(point, 0)]
  }

  /** `points.map(point => [point[1], point[0]])`. */
  function SwapAll(points: seq<seq<Num>>): (r: seq<seq<Num>>)
    ensures |r| == |points| && forall i :: 0 <= i < |r| ==> r[i] == Swap(points[i])
  {
    seq(|points|, i requires 0 <= i < |points| => Swap(points[i]))
  }

  /** Swapping a two-element point twice gives it back. */
  lemma {:induction false} SwapInvolution(point: seq<Num>)
    requires |point| == 2
    ensures Swap(Swap(point)) == point
  {
  }

  /** Converting a list of two-element points twice gives the list back. */
  lemma {:induction false} SwapAllInvolution(points: seq<seq<Num>>)
    requires forall i :: 0 <= i < |points| ==> |points[i]| == 2
    ensures SwapAll(SwapAll(points)) == points
  {
    forall i | 0 <= i < |points|
      ensures SwapAll(SwapAll(points))[i] == points[i]
    {
      SwapInvolution(points[i]);
    }
  }

  /** `[startPoint, ...intermediatePoints, startPoint]`: the round trip closes on its start. */
  function RoundTripRoute(start: seq<Num>, mids: seq<seq<Num>>): (r: seq<seq<Num>>)
    ensures |r| == |mids| + 2 && r[0] == start && r[|r| - 1] == start && r[1..|r| - 1] == mids
  {
    [start] + mids + [start]
  }

  /** `[startPoint, ...detourPoints, endPoint]`. */
  function PointToPointRoute(start: seq<Num>, mids: seq<seq<Num>>, end: seq<Num>): (r: seq<seq<Num>>)
    ensures |r| == |mids| + 2 && r[0] == start && r[|r| - 1] == end && r[1..|r| - 1] == mids
  {
    [start] + mids + [end]
  }

  // ---------------------------------------------------------------------
  // generateFunRoute

  /** `reqArgs` of `generateFunRoute`; an absent number is `undefined`, which acts as NaN. */
  datatype FunRouteArgs = FunRouteArgs(
    startPoint: PointArg, endPoint: PointArg, targetDistance: Num, curveLevel: Option<string>,
    routeType: Option<string>, startBearing: Num, profile: Option<string>, locale: Option<string>,
    pointsEncoded: Option<bool>, instructions: Option<bool>, elevation: Option<bool>)

  /** `params`: the configured values with the given arguments spread over them. */
  datatype Params = Params(
    profile: string, locale: string, pointsEncoded: bool, instructions: bool, elevation: bool,
    curveLevel: string, routeType: string, startPoint: PointArg, endPoint: PointArg,
    targetDistance: Num, startBearing: Num)

  function ResolveParams(config: Config, args: FunRouteArgs): Params {
    Params(
      args.profile.GetOr(config.profile), args.locale.GetOr(config.locale),
      args.pointsEncoded.GetOr(config.pointsEncoded), args.instructions.GetOr(config.instructions),
      args.elevation.GetOr(config.elevation), args.curveLevel.GetOr(config.curveLevel),
      args.routeType.GetOr(config.routeType), args.startPoint, args.endPoint,
      args.targetDistance, args.startBearing)
  }

  /** `d < lo || d > hi`: never true of NaN. */
  predicate OutOfRange(d: Num, lo: real, hi: real) {
    Less(d, Fin(lo)) || Less(Fin(hi), d)
  }

  /**
    The checks of `generateFunRoute`, in order. The distance bounds are
    inclusive, and an absent `target_distance` passes them.
  */
  function CheckFunRoute(p: Params): (r: Option<Error>)
    ensures r.None? <==>
      p.startPoint.Arr? && (p.routeType == "point_to_point" ==> p.endPoint.Arr?) &&
      (p.targetDistance.Fin? ==> 50000.0 <= p.targetDistance.r <= 500000.0)
    ensures !p.startPoint.Arr? ==> r == Some(InvalidStartPoint)
    ensures p.startPoint.Arr? && p.routeType == "point_to_point" && !p.endPoint.Arr? ==> r == Some(MissingEndPoint)
    ensures p.startPoint.Arr? && (p.routeType == "point_to_point" ==> p.endPoint.Arr?) && r.Some? ==>
      r == Some(TargetDistanceOutOfRange)
  {
    if !p.startPoint.Arr? then Some(InvalidStartPoint)
    else if p.routeType == "point_to_point" && !p.endPoint.Arr? then Some(MissingEndPoint)
    else if OutOfRange(p.targetDistance, 50000.0, 500000.0) then Some(TargetDistanceOutOfRange)
    else None
  }

  /** The request a generator would send, and the route info it adds to the answer. */
  datatype Prepared = Prepared(request: RouteRequest, draft: InfoDraft)

  /** `reqArgs.curve_level || "medium"`. */
  function OrMedium(level: string): string {
    if level == "" then "medium" else level
  }

  /** `reqArgs.start_bearing || 0`. */
  function OrZero(bearing: Num): Num {
    if Truthy(bearing) then bearing else Fin(0.0)
  }

  /**
    `_generateRoundTrip` up to the request: the ring points between two
    copies of the start, the request fields taken from `params`, and the
    curve settings applied.
  */
  method RoundTripRequest(p: Params, geo: Geo, random: nat -> real) returns (prep: Prepared)
    requires p.startPoint.Arr?
    ensures fresh(prep.request)
    ensures var start, level, bearing := p.startPoint.coords, OrMedium(p.curveLevel), OrZero(p.startBearing);
      Built(prep.request, RoundTripRoute(start, Ring(geo, start, p.targetDistance, level, bearing, random)),
            p.profile, p.instructions, p.pointsEncoded, p.elevation, p.locale, level) &&
      prep.draft == RoundTripDraft(p.targetDistance, level, bearing)
  {
    var startPoint := p.startPoint.coords;
    var curveLevel := OrMedium(p.curveLevel);
    var startBearing := OrZero(p.startBearing);
    var intermediatePoints := IntermediatePoints(geo, startPoint, p.targetDistance, curveLevel, startBearing, random);
    var routePoints := [startPoint] + intermediatePoints + [startPoint];
    var request := new RouteRequest(routePoints, p.profile, p.instructions, p.pointsEncoded, p.elevation, p.locale);
    ApplyCurveSettings(request, curveLevel);
    prep := Prepared(request, RoundTripDraft(p.targetDistance, curveLevel, startBearing));
  }

  /**
    What `_generatePointToPoint` gives for `params`: a TypeError without an
    array end point; otherwise a failure exactly when the straight-line
    distance exceeds the target, and else the request with start, detours and
    end, the curve settings applied, and the route info with the direct
    distance.
  */
  predicate PointToPointOutcome(p: Params, geo: Geo, random: nat -> real, r: Result<Prepared, Error>)
    requires p.startPoint.Arr?
    reads if r.Ok? then {r.value.request} else {}
  {
    (!p.endPoint.Arr? ==> r == Err(TypeError)) &&
    (p.endPoint.Arr? ==>
      var start, end := p.startPoint.coords, p.endPoint.coords;
      (r.Err? <==> Less(p.targetDistance, geo.distance(start, end))) &&
      (r.Err? ==> r.error == DirectDistanceExceedsTarget)) &&
    (r.Ok? ==>
      p.endPoint.Arr? &&
      var start, end, level := p.startPoint.coords, p.endPoint.coords, OrMedium(p.curveLevel);
      Built(r.value.request, PointToPointRoute(start, Detours(geo, start, end, p.targetDistance, level, random), end),
            p.profile, p.instructions, p.pointsEncoded, p.elevation, p.locale, level) &&
      r.value.draft == PointToPointDraft(p.targetDistance, geo.distance(start, end), level))
  }

  /** `_generatePointToPoint` up to the request. */
  method PointToPointRequest(p: Params, geo: Geo, random: nat -> real) returns (r: Result<Prepared, Error>)
    requires p.startPoint.Arr?
    ensures PointToPointOutcome(p, geo, random, r)
    ensures r.Ok? ==> fresh(r.value.request)
  {
    if !p.endPoint.Arr? {
      return Err(TypeError);
    }
    var startPoint, endPoint := p.startPoint.coords, p.endPoint.coords;
    var curveLevel := OrMedium(p.curveLevel);
    var directDistance := geo.distance(startPoint, endPoint);
    if Less(p.targetDistance, directDistance) {
      return Err(DirectDistanceExceedsTarget);
    }
    var intermediatePoints := DetourPoints(geo, startPoint, endPoint, p.targetDistance, curveLevel, random);
    var routePoints := [startPoint] + intermediatePoints + [endPoint];
    var request := new RouteRequest(routePoints, p.profile, p.instructions, p.pointsEncoded, p.elevation, p.locale);
    ApplyCurveSettings(request, curveLevel);
    r := Ok(Prepared(request, PointToPointDraft(p.targetDistance, directDistance, curveLevel)));
  }

  /**
    `generateFunRoute(reqArgs)`: the checks, then the round trip when
    `route_type` is "roundtrip" and the point-to-point route for any other
    route type, "point_to_point" or not; only "point_to_point" makes the end
    point a checked argument, so another type without one fails with a TypeError.
  */
  method GenerateFunRoute(config: Config, geo: Geo, random: nat -> real, args: FunRouteArgs)
    returns (r: Result<Prepared, Error>)
    ensures var p := ResolveParams(config, args);
      CheckFunRoute(p).Some? ==> r == Err(CheckFunRoute(p).value)
    ensures var p := ResolveParams(config, args);
      CheckFunRoute(p).None? && p.routeType == "roundtrip" ==> r.Ok? && r.value.draft.RoundTripDraft?
    ensures var p := ResolveParams(config, args);
      CheckFunRoute(p).None? && p.routeType != "roundtrip" ==> PointToPointOutcome(p, geo, random, r)
    ensures r.Ok? ==> fresh(r.value.request)
    ensures r.Ok? && r.value.draft.RoundTripDraft? ==>
      var p := ResolveParams(config, args);
      var start, level, bearing := p.startPoint.coords, OrMedium(p.curveLevel), OrZero(p.startBearing);
      Built(r.value.request, RoundTripRoute(start, Ring(geo, start, p.targetDistance, level, bearing, random)),
            p.profile, p.instructions, p.pointsEncoded, p.elevation, p.locale, level) &&
      r.value.draft == RoundTripDraft(p.targetDistance, level, bearing)
  {
    var params := ResolveParams(config, args);
    var failure := CheckFunRoute(params);
    if failure.Some? {
      return Err(failure.value);
    }
    if params.routeType == "roundtrip" {
      var prep := RoundTripRequest(params, geo, random);
      r := Ok(prep);
    } else {
      r := PointToPointRequest(params, geo, random);
    }
  }

  // ---------------------------------------------------------------------
  // generateRoundTrip

  /** `options` of `generateRoundTrip`: `distance` in km. */
  datatype RoundTripOptions = RoundTripOptions(
    startPoint: PointArg, distance: Num, curveLevel: Option<string>, startBearing: Option<Num>)

  /**
    The checks of `generateRoundTrip` and the arguments it forwards: a
    `[lat, lng]` start point becomes `[lng, lat]`, km become metres, and the
    bounds 50 and 500 km are inclusive.
  */
  function RoundTripArgs(o: RoundTripOptions): (r: Result<FunRouteArgs, Error>)
    ensures r.Ok? <==> o.startPoint.Arr? && |o.startPoint.coords| == 2 &&
                        o.distance.Fin? && 50.0 <= o.distance.r <= 500.0
    ensures r.Err? ==> r.error == (if o.startPoint.Arr? && |o.startPoint.coords| == 2 then DistanceOutOfRange else StartPointShape)
    ensures r.Ok? ==>
      r.value.startPoint == Arr([o.startPoint.coords[1], o.startPoint.coords[0]]) &&
      r.value.targetDistance == Fin(o.distance.r * 1000.0) &&
      r.value.routeType == Some("roundtrip") &&
      r.value.curveLevel == Some(o.curveLevel.GetOr("medium")) &&
      r.value.startBearing == o.startBearing.GetOr(Fin(0.0))
  {
    if !o.startPoint.Arr? || |o.startPoint.coords| != 2 then Err(StartPointShape)
    else if !Truthy(o.distance) || OutOfRange(o.distance, 50.0, 500.0) then Err(DistanceOutOfRange)
    else
      var sp := o.startPoint.coords;
      Ok(FunRouteArgs(
        Arr(Swap(sp)), Absent, Mul(o.distance, Fin(1000.0)), Some(o.curveLevel.GetOr("medium")),
        Some("roundtrip"), o.startBearing.GetOr(Fin(0.0)), None, None, None, None, None))
  }

  /** What `generateRoundTrip` forwards always passes the checks of `generateFunRoute`, as a round trip. */
  lemma {:induction false} ForwardedRoundTripPasses(config: Config, o: RoundTripOptions)
    requires RoundTripArgs(o).Ok?
    ensures var p := ResolveParams(config, RoundTripArgs(o).value);
      CheckFunRoute(p).None? && p.routeType == "roundtrip"
  {
  }

  /** `generateRoundTrip(options)`: it fails only on its own checks. */
  method GenerateRoundTrip(config: Config, geo: Geo, random: nat -> real, o: RoundTripOptions)
    returns (r: Result<Prepared, Error>)
    ensures r.Err? <==> RoundTripArgs(o).Err?
    ensures r.Err? ==> r.error == RoundTripArgs(o).error
    ensures r.Ok? ==> fresh(r.value.request)
    ensures r.Ok? ==>
      var p := ResolveParams(config, RoundTripArgs(o).value);
      var start, level := Swap(o.startPoint.coords), OrMedium(o.curveLevel.GetOr("medium"));
      var bearing := OrZero(o.startBearing.GetOr(Fin(0.0)));
      Built(r.value.request, RoundTripRoute(start, Ring(geo, start, Fin(o.distance.r * 1000.0), level, bearing, random)),
            p.profile, p.instructions, p.pointsEncoded, p.elevation, p.locale, level) &&
      r.value.draft == RoundTripDraft(Fin(o.distance.r * 1000.0), level, bearing)
  {
    var args := RoundTripArgs(o);
    if args.Err? {
      return Err(args.error);
    }
    ForwardedRoundTripPasses(config, o);
    r := GenerateFunRoute(config, geo, random, args.value);
  }

  // ---------------------------------------------------------------------
  // generatePointToPoint

  /** `options` of `generatePointToPoint`: points as `[lat, lng]`, `targetDistance` in km or absent (NaN). */
  datatype PointToPointOptions = PointToPointOptions(
    startPoint: PointArg, endPoint: PointArg, curveLevel: Option<string>, targetDistance: Num)

  /** The checks of `generatePointToPoint`: a target distance is checked only when it is truthy. */
  function PointToPointCheck(o: PointToPointOptions): (r: Option<Error>)
    ensures r.None? <==>
      o.startPoint.Arr? && |o.startPoint.coords| == 2 && o.endPoint.Arr? && |o.endPoint.coords| == 2 &&
      (Truthy(o.targetDistance) ==> 50.0 <= o.targetDistance.r <= 500.0)
    ensures !(o.startPoint.Arr? && |o.startPoint.coords| == 2) ==> r == Some(StartPointShape)
    ensures o.startPoint.Arr? && |o.startPoint.coords| == 2 && !(o.endPoint.Arr? && |o.endPoint.coords| == 2) ==>
      r == Some(EndPointShape)
    ensures o.startPoint.Arr? && |o.startPoint.coords| == 2 && o.endPoint.Arr? && |o.endPoint.coords| == 2 && r.Some? ==>
      r == Some(TargetKmOutOfRange) && o.targetDistance.Fin?
  {
    if !o.startPoint.Arr? || |o.startPoint.coords| != 2 then Some(StartPointShape)
    else if !o.endPoint.Arr? || |o.endPoint.coords| != 2 then Some(EndPointShape)
    else if Truthy(o.targetDistance) && OutOfRange(o.targetDistance, 50.0, 500.0) then Some(TargetKmOutOfRange)
    else None
  }

  /**
    `_requestRoute(points, curveLevel)`: every point swapped, the configured
    profile and locale, instructions and encoded points on, no elevation, and
    the curve settings applied.
  */
  method RequestRoute(config: Config, points: seq<seq<Num>>, curveLevel: string) returns (request: RouteRequest)
    ensures fresh(request)
    ensures Built(request, SwapAll(points), config.profile, true, true, false, config.locale, curveLevel)
  {
    var convertedPoints := seq(|points|, i requires 0 <= i < |points| => [Get(points[i], 1), Get(points[i], 0)]);
    request := new RouteRequest(convertedPoints, config.profile, true, true, false, config.locale);
    ApplyCurveSettings(request, curveLevel);
  }

  /**
    The route `generatePointToPoint` hands to `_requestRoute`, still as
    `[lat, lng]`: the two ends alone without a target distance, otherwise the
    detours in between. The detours are computed from the `[lat, lng]` points
    as they are, and no straight-line distance check is made.
  */
  function PublicPointToPointRoute(geo: Geo, random: nat -> real, o: PointToPointOptions): (r: seq<seq<Num>>)
    requires o.startPoint.Arr? && o.endPoint.Arr?
    ensures |r| >= 2 && r[0] == o.startPoint.coords && r[|r| - 1] == o.endPoint.coords
    ensures !Truthy(o.targetDistance) ==> r == [o.startPoint.coords, o.endPoint.coords]
  {
    var s, e := o.startPoint.coords, o.endPoint.coords;
    if Truthy(o.targetDistance) then
      PointToPointRoute(s, Detours(geo, s, e, Mul(o.targetDistance, Fin(1000.0)), o.curveLevel.GetOr("medium"), random), e)
    else [s, e]
  }

  /** `generatePointToPoint(options)`: it fails only on its own checks. */
  method GeneratePointToPoint(config: Config, geo: Geo, random: nat -> real, o: PointToPointOptions)
    returns (r: Result<Prepared, Error>)
    ensures r.Err? <==> PointToPointCheck(o).Some?
    ensures r.Err? ==> r.error == PointToPointCheck(o).value
    ensures r.Ok? ==> fresh(r.value.request) && r.value.draft == NoInfo
    ensures r.Ok? ==>
      Built(r.value.request, SwapAll(PublicPointToPointRoute(geo, random, o)), config.profile, true, true, false,
            config.locale, o.curveLevel.GetOr("medium"))
  {
    var failure := PointToPointCheck(o);
    if failure.Some? {
      return Err(failure.value);
    }
    var startPoint, endPoint := o.startPoint.coords, o.endPoint.coords;
    var curveLevel := o.curveLevel.GetOr("medium");
    var routePoints := [startPoint, endPoint];
    if Truthy(o.targetDistance) {
      var detourPoints := DetourPoints(geo, startPoint, endPoint, Mul(o.targetDistance, Fin(1000.0)), curveLevel, random);
      routePoints := [startPoint] + detourPoints + [endPoint];
    }
    var request := RequestRoute(config, routePoints, curveLevel);
    r := Ok(Prepared(request, NoInfo));
  }

  /** The request of `generatePointToPoint` starts and ends at the given points, converted to `[lng, lat]`. */
  lemma {:induction false} PublicPointToPointEnds(geo: Geo, random: nat -> real, o: PointToPointOptions)
    requires PointToPointCheck(o).None?
    ensures var q := SwapAll(PublicPointToPointRoute(geo, random, o));
      q[0] == [o.startPoint.coords[1], o.startPoint.coords[0]] &&
      q[|q| - 1] == [o.endPoint.coords[1], o.endPoint.coords[0]] &&
      SwapAll(q) == PublicPointToPointRoute(geo, random, o)
  {
    var route := PublicPointToPointRoute(geo, random, o);
    if Truthy(o.targetDistance) {
      var e := o.endPoint.coords;
      var extra := ExtraDistance(geo, o.startPoint.coords, e, Mul(o.targetDistance, Fin(1000.0)));
      forall i | 0 <= i < |route| ensures |route[i]| == 2 {
        if 0 < i < |route| - 1 {
          assert NeedsDetour(extra);
        }
      }
    }
    SwapAllInvolution(route);
  }
}
