/** The errors the route generator throws, one constructor per `throw` site. */
module Errors {

  datatype Error =
    | /** "GraphHopper API key is required" */ MissingApiKey
    | /** `generateFunRoute`: the start point is missing or not an array */ InvalidStartPoint
    | /** `generateFunRoute`: a point-to-point route without an end point array */ MissingEndPoint
    | /** `generateFunRoute`: `target_distance` outside 50000..500000 metres */ TargetDistanceOutOfRange
    | /** the public generators: `startPoint` is not a two-element array */ StartPointShape
    | /** `generatePointToPoint`: `endPoint` is not a two-element array */ EndPointShape
    | /** `generateRoundTrip`: `distance` missing or outside 50..500 km */ DistanceOutOfRange
    | /** `generatePointToPoint`: `targetDistance` given and outside 50..500 km */ TargetKmOutOfRange
    | /** `_generatePointToPoint`: the straight-line distance exceeds the target */ DirectDistanceExceedsTarget
    | /** reading a property of `undefined` (a missing end point, a response without paths) */ TypeError
}
