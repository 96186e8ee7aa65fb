/**
  The curve-level table the `Blucap` constructor builds (`curveSettings`),
  the way `_applyCurveSettings` reads it, and the level-to-count rules of the
  two waypoint generators.

  `curveSettings` is a plain JavaScript object, so besides its three own keys
  it also answers every name it inherits from `Object.prototype`
  ("toString", "constructor", ...) with a truthy value that has neither
  `avoid_highways` nor `prefer_scenic`.
*/
module Curves {
  import opened Wrappers

  /** One row of `curveSettings`. `detour_factor` is never read by any method. */
  datatype CurveSetting = CurveSetting(avoidHighways: bool, preferScenic: bool, detourFactor: real)

  /**
    The own keys of `curveSettings` and their rows: "low", "medium" and
    "high". Every row has its two flags equal, set on all but "low", and a
    detour factor above 1.
  */
  function OwnSetting(level: string): (r: Option<CurveSetting>)
    ensures r.Some? <==> level == "low" || level == "medium" || level == "high"
    ensures r.Some? ==> r.value.avoidHighways == r.value.preferScenic == (level != "low")
    ensures r.Some? ==> 1.0 < r.value.detourFactor
  {
    if level == "low" then Some(CurveSetting(false, false, 1.1))
    else if level == "medium" then Some(CurveSetting(true, true, 1.3))
    else if level == "high" then Some(CurveSetting(true, true, 1.6))
    else None
  }

  /** The names every plain object inherits from `Object.prototype`. */
  const InheritedNames: set<string> := {
    "constructor", "__proto__", "__defineGetter__", "__defineSetter__",
    "__lookupGetter__", "__lookupSetter__", "hasOwnProperty", "isPrototypeOf",
    "propertyIsEnumerable", "toString", "toLocaleString", "valueOf"
  }

  /** What `this.curveSettings[level]` evaluates to. */
  datatype Entry = Own(setting: CurveSetting) | Inherited | Undefined

  /** `this.curveSettings[level]`: an own row, an inherited member, or `undefined`. */
  function Lookup(level: string): (e: Entry)
    ensures e.Own? <==> OwnSetting(level).Some?
    ensures e.Own? ==> e.setting == OwnSetting(level).value
    ensures e.Inherited? <==> level in InheritedNames
  {
    match OwnSetting(level)
    case Some(s) => Own(s)
    case None => if level in InheritedNames then Inherited else Undefined
  }

  /** The truth values of `settings.avoid_highways` and `settings.prefer_scenic`. */
  datatype Flags = Flags(avoidHighways: bool, preferScenic: bool)

  /**
    `settings = this.curveSettings[curveLevel] || this.curveSettings["medium"]`:
    an own row is used as it is, an inherited member is truthy and has neither
    flag, and anything else falls back to the "medium" row.
  */
  function EffectiveFlags(level: string): (f: Flags)
    ensures f.avoidHighways == f.preferScenic
    ensures Lookup(level).Inherited? ==> !f.avoidHighways
    ensures Lookup(level).Undefined? ==>
      f == Flags(OwnSetting("medium").value.avoidHighways, OwnSetting("medium").value.preferScenic)
  {
    match Lookup(level)
    case Own(s) => Flags(s.avoidHighways, s.preferScenic)
    case Inherited => Flags(false, false)
    case Undefined =>
      var m := OwnSetting("medium").value;
      Flags(m.avoidHighways, m.preferScenic)
  }

  /**
    The levels whose request avoids motorways and asks for the "shortest"
    weighting: every name except "low" and the inherited names.
  */
  predicate Scenic(level: string) {
    level != "low" && level !in InheritedNames
  }

  /** The two flags of the effective row always agree, and say exactly whether the level is scenic. */
  lemma {:induction false} EffectiveFlagsAreScenic(level: string)
    ensures EffectiveFlags(level) == Flags(Scenic(level), Scenic(level))
  {
    if level in InheritedNames {
      assert OwnSetting(level).None?;
    }
  }

  /** An unknown level is treated as "medium" by the request settings. */
  lemma {:induction false} UnknownLevelFallsBackToMedium(level: string)
    requires Lookup(level).Undefined?
    ensures EffectiveFlags(level) == EffectiveFlags("medium")
  {
  }

  /** `numPoints` of `_generateIntermediatePoints`: 3 for "high", 2 for "medium", 1 otherwise. */
  function IntermediateCount(level: string): (n: nat)
    ensures 1 <= n <= 3
  {
    if level == "high" then 3 else if level == "medium" then 2 else 1
  }

  /** `numDetours` of `_generateDetourPoints`: 2 for "high", 1 otherwise (the "medium" branch is 1 too). */
  function DetourCount(level: string): (n: nat)
    ensures 1 <= n <= 2
  {
    if level == "high" then 2 else if level == "medium" then 1 else 1
  }

  /**
    The counts do not follow the settings fallback: an unknown level gets the
    "medium" request flags but a single round-trip point, not medium's two.
  */
  lemma {:induction false} CountsIgnoreFallback(level: string)
    requires Lookup(level).Undefined?
    ensures EffectiveFlags(level) == EffectiveFlags("medium")
    ensures IntermediateCount(level) == 1 < IntermediateCount("medium")
  {
  }

  /**
    A point-to-point route never gets more detours than a round trip gets ring
    points, and the two agree exactly on the levels other than "high" and "medium".
  */
  lemma {:induction false} DetoursAtMostRingPoints(level: string)
    ensures DetourCount(level) <= IntermediateCount(level)
    ensures DetourCount(level) == IntermediateCount(level) <==> level != "high" && level != "medium"
  {
  }
}
