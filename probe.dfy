/** Support probes: a ray cast from the player's position down, right or left
    against the platform groups, reporting whether a platform is within one
    unit. The ray-box intersection itself is a parameter (a Caster). */
module Probe {
  import opened Geometry

  datatype Direction = Down | Right | Left

  /** The distances of the platform hits of a ray from an origin along a
      direction, as the ray caster reports them. */
  type Caster = (Vec3, Direction) -> seq<real>

  /** The largest distance at which a hit still counts as support. */
  const ProbeReach: real := 1.0

  /** The ray caster reports hits nearest first. */
  predicate Ascending(hits: seq<real>) {
    forall i :: 0 <= i < |hits| - 1 ==> hits[i] <= hits[i + 1]
  }

  /** There is a hit, and the first one reported is at most ProbeReach away.
      No hits means no support; support means some hit is within reach. */
  predicate NearSupport(hits: seq<real>): (r: bool)
    ensures hits == [] ==> !r
    ensures r ==> exists i :: 0 <= i < |hits| && hits[i] <= ProbeReach
  {
    |hits| > 0 && hits[0] <= ProbeReach
  }

  /** A probe from origin in direction dir finds support: never when the ray
      hits nothing, and only when some hit of that ray is within reach. */
  predicate CheckPlatform(cast: Caster, origin: Vec3, dir: Direction): (r: bool)
    ensures cast(origin, dir) == [] ==> !r
    ensures r ==> exists i :: 0 <= i < |cast(origin, dir)| && cast(origin, dir)[i] <= ProbeReach
  {
    NearSupport(cast(origin, dir))
  }

  lemma {:induction false} FirstIsNearest(hits: seq<real>, i: int)
    requires Ascending(hits) && 0 <= i < |hits|
    ensures hits[0] <= hits[i]
  {
    if i > 0 {
      FirstIsNearest(hits, i - 1);
    }
  }

  /** With hits reported nearest first, testing only the first one is the
      same as asking whether any platform is within reach (inclusively). */
  lemma NearSupportIffAnyWithinReach(hits: seq<real>)
    requires Ascending(hits)
    ensures NearSupport(hits) <==> exists i :: 0 <= i < |hits| && hits[i] <= ProbeReach
  {
    if exists i :: 0 <= i < |hits| && hits[i] <= ProbeReach {
      var i :| 0 <= i < |hits| && hits[i] <= ProbeReach;
      FirstIsNearest(hits, i);
    }
  }
}
