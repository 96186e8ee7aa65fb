# Blucap route generator — Dafny model

`blucap.js` defines the `Blucap` class. It builds "fun" driving routes on the
GraphHopper routing API. The class validates its arguments and lays out
waypoints: a ring of points around the start for a round trip, or detours
between the two ends of a point-to-point route. It turns the chosen curve level
into routing preferences and posts the request. In the answer, it decodes the
encoded polylines and adds a `route_info` summary.

This project models that core in Dafny and proves properties of the model:

- `bits32.dfy`: the 32-bit semantics of JavaScript's `|`, `<<`, `>>` and `~` on unbounded integers.
- `jsnumber.dfy`: JavaScript numbers as a finite value or NaN. `undefined` and
  missing array elements are NaN, and every ordered comparison with NaN is false.
- `polyline.dfy`: `_decodePolyline`, both as a function and as the imperative
  loops of the source. It also holds a standard encoder, which exists only as the
  decoder's inverse for the round-trip proof.
- `curves.dfy`: the `curveSettings` table and its lookup, plus the waypoint
  counts for each curve level.
- `requests.dfy`: the route request object and `_applyCurveSettings`.
- `waypoints.dfy`: `_generateIntermediatePoints` and `_generateDetourPoints`.
  The spherical helpers and `Math.random` are passed in as parameters.
- `responses.dfy`: the normalisation loop of `_doRouteRequest`, and how the
  internal generators add `route_info` to the answer.
- `blucap.dfy`: the constructor, the three public generators and the internal
  ones up to the request they send, and `_requestRoute`.
- `errors.dfy` and `wrappers.dfy`: the thrown errors, `Option` and `Result`.

A generator is modelled in two steps. It first returns the request it would
post (`Blucap.Prepared`). `Responses.Complete` then models what it does to
whatever answer comes back.

## Model

| member | source | states |
|---|---|---|
| Blucap.Construct | blucap.js:63-82 | The constructor throws exactly when no non-empty `apiKey` is given. Otherwise every given option is kept as it is, even a falsy one, because `...options` overrides the `||` fallbacks. Every absent option takes its default: the host, a timeout of 15000, "car", "en", instructions and encoded points on, elevation off, "medium", "roundtrip". |
| Blucap.CheckFunRoute | blucap.js:127-138 | `generateFunRoute` accepts exactly these arguments: an array start point, an array end point when the type is "point_to_point", and a target distance that is absent (NaN) or within [50000, 500000] with the bounds inclusive. The start check comes first, then the end check, then the distance check, each with its own error. |
| Blucap.GenerateFunRoute | blucap.js:114-145 | The check errors are passed through. After the checks, "roundtrip" always yields a round-trip request whose points, fields, settings and route info are fully determined. Every other route type, not only "point_to_point", gets the outcome of `Blucap.PointToPointOutcome`: a TypeError without an array end point, a failure exactly when the straight-line distance exceeds the target, and otherwise the full point-to-point request and route info. |
| Blucap.RoundTripRequest | blucap.js:217-245 | The request posts the start, the ring points, then the start again. Its fields come from `params`. The curve settings for `curve_level || "medium"` are applied. The pending route info records the target, the level and `start_bearing || 0`. |
| Blucap.PointToPointRequest | blucap.js:260-293 | It fails exactly when the straight-line distance exceeds the target. A missing end point fails too. Otherwise the request posts start, detours, end with the curve settings applied, and the pending route info records the direct distance. |
| Blucap.RoundTripArgs | blucap.js:156-174 | `generateRoundTrip` accepts exactly a two-element array start point and a finite distance in [50, 500] km, and the error says which check failed. What it forwards has the point swapped to `[lng, lat]`, the distance in metres, type "roundtrip", the level defaulting to "medium" and the bearing defaulting to 0. |
| Blucap.ForwardedRoundTripPasses | blucap.js:168-174 | The arguments `generateRoundTrip` forwards always pass the checks of `generateFunRoute` as a round trip. |
| Blucap.GenerateRoundTrip | blucap.js:156-174 | It fails exactly on its own checks. Otherwise the request is the round trip around the swapped start point, for the distance converted to metres. |
| Blucap.PointToPointCheck | blucap.js:186-203 | `generatePointToPoint` accepts exactly two two-element array points whose target distance is falsy (unchecked) or within [50, 500] km. The start point is checked first, then the end point, then the distance, each with its own error. |
| Blucap.PublicPointToPointRoute | blucap.js:197-209 | The route starts and ends at the given points. Without a truthy target distance it is exactly the two ends. |
| Blucap.GeneratePointToPoint | blucap.js:186-212 | It fails exactly on its own checks. Otherwise the request posts the swapped route with instructions and encoded points on and elevation off. There is no straight-line distance check and no route info. |
| Blucap.PublicPointToPointEnds | blucap.js:197-211 | The posted points start and end at the given points converted to `[lng, lat]`, and converting them back gives the route. |
| Blucap.RequestRoute | blucap.js:409-426 | The request posts every point as `[point[1], point[0]]`, with the configured profile and locale, instructions and encoded points on, elevation off, and the curve settings applied. |
| Blucap.SwapAll | blucap.js:411 | The conversion keeps the number of points and swaps each one. |
| Blucap.SwapAllInvolution | blucap.js:411 | On two-element points the conversion is its own inverse. |
| Blucap.RoundTripRoute | blucap.js:232 | The route has two more points than the ring. It starts and ends at the start point, with the ring in between. |
| Blucap.PointToPointRoute | blucap.js:281 | The route has two more points than the detours. It starts at the start point and ends at the end point, with the detours in between (as also built at line 208). |
| Curves.OwnSetting | blucap.js:85-101 | `curveSettings` has exactly the rows "low", "medium" and "high". In each row both flags are equal and set on all but "low", and the detour factor is above 1. |
| Curves.Lookup | blucap.js:466 | `this.curveSettings[curveLevel]` is an own row exactly for the three keys, an inherited member exactly for the names every object inherits, and `undefined` otherwise. |
| Curves.EffectiveFlags | blucap.js:466 | The settings used have both flags equal. An inherited name has neither flag, and an `undefined` entry takes the flags of the "medium" row. |
| Curves.EffectiveFlagsAreScenic | blucap.js:466-478 | The settings actually used have both flags equal. They are set exactly for a level that is neither "low" nor a name every object inherits (such as "toString"). Any other unknown level falls back to the "medium" row. |
| Curves.UnknownLevelFallsBackToMedium | blucap.js:466 | A level that is neither a row nor an inherited name gets the "medium" settings. |
| Curves.IntermediateCount | blucap.js:311 | A round trip has 1 to 3 intermediate points. |
| Curves.DetourCount | blucap.js:339 | A point-to-point route has 1 or 2 detours. |
| Curves.CountsIgnoreFallback | blucap.js:311 | An unknown level gets the "medium" request settings but only one ring point, fewer than medium's two (settings lookup at line 466). |
| Curves.DetoursAtMostRingPoints | blucap.js:339 | There are never more detours than ring points (line 311). The two counts are equal exactly for levels other than "high" and "medium". |
| Requests.ApplyCurveSettings | blucap.js:465-481 | A scenic level sets weighting "shortest" and avoids "motorway". Any other level sets "fastest" and leaves `avoid` as it was. No other field changes. |
| Waypoints.Ring | blucap.js:309-327 | The ring has the level's point count, and point `i` is the destination at the ring radius and bearing `i`, with draw `i`'s jitter. |
| Waypoints.IntermediatePoints | blucap.js:309-327 | The loop returns exactly the ring. |
| Waypoints.RingBearingsEvenlySpaced | blucap.js:315 | The ring bearings are `360 / n` apart, and the last one is the start bearing plus 360. |
| Waypoints.RingJitterSameOnBothAxes | blucap.js:319-321 | The random offset moves both coordinates of a ring point by the same amount. |
| Waypoints.Destination | blucap.js:519-531 | The point helper returns a two-element point. |
| Waypoints.Detours | blucap.js:332-358 | There are no detours when the extra distance is at most 0. Otherwise there is one per detour count, and detour `i` is pushed off the point at progress `(i + 1) / (n + 1)`. A NaN extra distance (absent target) still gets detours. |
| Waypoints.DetourPoints | blucap.js:332-358 | The loop, with its early return, returns exactly the detours. |
| Waypoints.ProgressInside | blucap.js:342 | Each progress lies strictly between 0 and 1 and increases with `i`. |
| Waypoints.ProgressMonotone | blucap.js:342 | A later detour's progress is never smaller than an earlier one's. |
| Waypoints.AlongBetween | blucap.js:343-346 | A coordinate moved along a segment stays between the segment's ends and moves monotonically. |
| Waypoints.MidpointsInOrder | blucap.js:341-346 | With finite ends, the midpoints of detours `i <= j` lie on the segment between start and end, with the one of `i` nearer the start on both axes. |
| Bits32.ShiftLeft | blucap.js:440 | `<<` always yields a 32-bit pattern. |
| Polyline.ShiftLeftExact | blucap.js:440 | Below 32 bits, `m << n` multiplies `m` by 2^n. |
| Bits32.Or | blucap.js:440 | The bitwise or-assignment of two 32-bit patterns yields a 32-bit pattern. |
| Bits32.BitOrDisjoint | blucap.js:440 | Or-ing bits placed above every set bit of the accumulated result is addition. |
| Polyline.Payload | blucap.js:439-440 | Each character contributes a 5-bit chunk; past the end it contributes 0. |
| Polyline.ReadVarint | blucap.js:437-442 | One value read is a 32-bit pattern. It consumes at least one character and stops at most one position past the end. |
| Polyline.ReadValue | blucap.js:437-442 | The do-while loop computes exactly that value and end index. |
| Polyline.DecodePass | blucap.js:437-456 | One pass of the outer loop reads at least two characters. |
| Polyline.UnZigZag | blucap.js:443 | For a 31-bit pattern the decoded delta lies in [-2^30, 2^30) and is negative exactly when the lowest bit is set. |
| Polyline.DecodeFrom | blucap.js:436-457 | Decoding yields no coordinates exactly when nothing is left to read. |
| Polyline.DecodeFromLength | blucap.js:436-457 | There are at most half as many coordinates as characters, rounded up. |
| Polyline.Decode | blucap.js:431-460 | The decoded list is empty exactly for the empty string and has at most one coordinate per two characters, rounded up. |
| Polyline.DecodePolyline | blucap.js:431-460 | The imperative decoder returns exactly the decoded coordinates. |
| Polyline.EncodeChunks | blucap.js:439-442 | The chunk encoding of a value is non-empty and made only of the characters the decoder reads ('?' to '~'). |
| Polyline.ZigZagRoundTrip | blucap.js:443 | The sign decoding undoes zig-zag encoding for every delta in [-2^30, 2^30). |
| Polyline.UnZigZagRoundTrip | blucap.js:453 | Zig-zag encoding undoes the sign decoding for every 31-bit pattern. |
| Polyline.ReadEncodedChunks | blucap.js:438-442 | Reading the chunk encoding of a value gives the value back and stops right after it. |
| Polyline.DecodeEncode | blucap.js:431-460 | Round trip: decoding the encoding of any coordinates whose deltas fit gives the coordinates back. |
| Polyline.EncodeReferenceVector | blucap.js:431-460 | The three reference coordinates of the format encode to its 27-character reference string, and their deltas are in range. |
| Polyline.DecodeReferenceVector | blucap.js:431-460 | The reference string decodes to (-120.2, 38.5), (-120.95, 40.7), (-126.453, 43.252), scaled by 1e5. |
| Responses.NormalizedPoints | blucap.js:377-383 | `points` becomes a LineString exactly when it already was one, or when `points_encoded` is set and `points` is a string (even ""). A string is never left in any other form. |
| Responses.NormalizedSnapped | blucap.js:385-390 | `snapped_waypoints` becomes a LineString exactly when it already was one or is a non-empty string. Only the empty string stays a string. |
| Responses.NormalizeIdempotent | blucap.js:373-391 | Normalising twice is normalising once. |
| Responses.EmptyStrings | blucap.js:377-388 | An encoded empty `points` string becomes an empty line, and an empty `snapped_waypoints` string is kept. |
| Responses.NormalizePaths | blucap.js:373-391 | Every path ends up normalised exactly once from its old value, even when the same path object occurs twice in the array. Distance and `points_encoded` are kept. |
| Responses.NormalizeResponse | blucap.js:371-394 | Without `paths` nothing changes. Otherwise the list is kept and each path in it is normalised. |
| Responses.Complete | blucap.js:246-254 | The answer is normalised. An internal generator then sets `route_info` from the first path's distance; the point-to-point generator does the same at lines 295-303. It fails (a TypeError) exactly when it needs `paths[0]` and there is none. |

## Left out

- IEEE-754 arithmetic: numbers are exact reals and coordinates exact integers. Rounding, infinities and the final division by 1e5 in `_decodePolyline` are not modelled.
- `_calculateDistance`, `_calculateBearing` and `_calculatePointAtDistance` are trigonometry. They are parameters (`Waypoints.Geo`), so nothing is proved about their values.
- `Math.random` is a parameter whose `i`-th value is the draw in iteration `i`. Its distribution in [0, 1) is not modelled.
- `httpClient.post`, the URL with the API key, the HTTP and network error wrapping of `_doRouteRequest`, and `async`/`await` are left out. The answer is an injected `Responses.Response`.
- `timeout` and `distance_range` are stored by the constructor and never read again, and `detour_factor` is never read. `host` and `apiKey` are read only to build the request URL, which is left out with `httpClient.post` above. The model keeps `timeout` and `host` in `Blucap.Config` and does not model `distance_range` or `detour_factor`.
- Options are either given or absent. An option explicitly set to `undefined` or `null`, and non-string or non-boolean option values, are not modelled.
- Curve levels are strings. A non-string `curve_level` (a number or an object used as a key) is not modelled.
- Points are arrays of numbers, absent, or some other truthy value. A non-array end point that reaches `_generatePointToPoint` (possible only with an unrecognised `route_type`) is modelled as a TypeError. The source would read `undefined` elements from it instead.
- `Responses.Complete`: a truthy `paths` that is not an array, and JSON values other than strings, LineStrings and opaque values, are not modelled.
- Characters are Unicode scalar values (Dafny `char`), not UTF-16 code units. A character outside the Basic Multilingual Plane is read as one character, where `charCodeAt` reads two surrogates, and a lone surrogate cannot be represented. Encoded polylines use only '?' to '~', so real input is unaffected. `charCodeAt` past the end is NaN, modelled as payload 0 with no continuation.
- The export shim at the end of the file, the TypeScript declarations, the build configuration, the scripts and the examples are not part of this model.
