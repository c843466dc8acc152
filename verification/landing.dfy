/**
 * Landing resolution for the player against the platforms, in the order the
 * host enumerates them (walls first, then moving platforms).
 */
module Landing {
  import opened Wrappers
  import opened Geometry

  /** Largest gap between the player's bottom and a platform's top that still counts as landing. */
  const Tolerance: real := 8.0

  /** The value the jump-forgiveness counter is set to; nothing ever decrements it. */
  const MaxJumpForgiveness: int := 5

  /**
   * The player lands on `plat` when the host reports an overlap, the player is
   * not moving up, and its bottom is within the tolerance of the platform's top.
   */
  predicate Lands(p: Body, plat: Platform, overlapping: bool) {
    overlapping && p.vy >= 0.0 && Abs(BodyBottom(p) - PlatformTop(plat)) < Tolerance
  }

  /** The index of the first platform the player lands on, scanning in order and stopping at the first. */
  method FindLanding(p: Body, platforms: seq<Platform>, overlapping: seq<bool>) returns (k: Option<nat>)
    requires |overlapping| == |platforms|
    ensures k.Some? ==> k.value < |platforms| && Lands(p, platforms[k.value], overlapping[k.value])
    ensures k.Some? ==> forall j :: 0 <= j < k.value ==> !Lands(p, platforms[j], overlapping[j])
    ensures k.None? <==> forall j :: 0 <= j < |platforms| ==> !Lands(p, platforms[j], overlapping[j])
  {
    k := None;
    var i := 0;
    while i < |platforms|
      invariant 0 <= i <= |platforms|
      invariant forall j :: 0 <= j < i ==> !Lands(p, platforms[j], overlapping[j])
    {
      if overlapping[i] {
        if p.vy >= 0.0 && Abs(BodyBottom(p) - PlatformTop(platforms[i])) < Tolerance {
          k := Some(i);
          return;
        }
      }
      i := i + 1;
    }
  }

  /** The player placed to rest on `plat`: its bottom on the platform's top, vertical velocity zero. */
  function Snap(p: Body, plat: Platform): (q: Body)
    ensures BodyBottom(q) == PlatformTop(plat)
    ensures q == p.(y := q.y, vy := 0.0)
  {
    p.(y := PlatformTop(plat) - Half(PlayerHeight), vy := 0.0)
  }
}
