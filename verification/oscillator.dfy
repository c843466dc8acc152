/**
 * The per-tick back-and-forth of moving platforms and moving hazards
 * (the two loops of the game's update hook). The host integrates positions;
 * this part only flips velocities and, for hazards, pushes them out of their
 * avoid zone.
 */
module Oscillator {
  import opened Wrappers
  import opened Geometry

  predicate AtBound(x: real, minX: real, maxX: real) {
    x <= minX || x >= maxX
  }

  predicate StrictlyBetween(x: real, left: real, right: real) {
    left < x < right
  }

  /** One tick of the moving-platform loop for one platform. */
  function PlatformStep(p: Platform): (q: Platform)
    ensures q == p.(vx := q.vx)
    ensures Abs(q.vx) == Abs(p.vx)
    ensures p.bounds.Some? && p.x <= p.bounds.value.minX && p.vx < 0.0 ==> q.vx > 0.0
    ensures p.bounds.Some? && p.x >= p.bounds.value.maxX && p.vx > 0.0 ==> q.vx < 0.0
    ensures p.bounds.None? || p.bounds.value.minX < p.x < p.bounds.value.maxX ==> q == p
    ensures p.bounds.Some? ==>
      q.vx == if AtBound(p.x, p.bounds.value.minX, p.bounds.value.maxX) then -p.vx else p.vx
  {
    match p.bounds
    case None => p
    case Some(b) => if AtBound(p.x, b.minX, b.maxX) then p.(vx := -p.vx) else p
  }

  /**
   * One tick of the moving-hazard loop for one hazard: reverse at a bound,
   * then, if the hazard is strictly inside its avoid zone, move it 5 units
   * past the edge it is heading for and reverse again.
   */
  function HazardStep(h: Hazard): (g: Hazard)
    ensures g == h.(x := g.x, vx := g.vx)
    ensures Abs(g.vx) == Abs(h.vx)
    ensures h.patrol.None? ==> g == h
    ensures h.patrol.Some? ==>
      var m := h.patrol.value;
      && !StrictlyBetween(g.x, m.avoidLeft, m.avoidRight)
      && (g.vx == if AtBound(h.x, m.minX, m.maxX) == StrictlyBetween(h.x, m.avoidLeft, m.avoidRight)
                  then h.vx else -h.vx)
      && (!StrictlyBetween(h.x, m.avoidLeft, m.avoidRight) ==> g.x == h.x)
      && var bounced := if AtBound(h.x, m.minX, m.maxX) then -h.vx else h.vx;
         (StrictlyBetween(h.x, m.avoidLeft, m.avoidRight) ==>
            g.x == if bounced > 0.0 then m.avoidRight + 5.0 else m.avoidLeft - 5.0)
  {
    match h.patrol
    case None => h
    case Some(m) =>
      var vx := if AtBound(h.x, m.minX, m.maxX) then -h.vx else h.vx;
      if StrictlyBetween(h.x, m.avoidLeft, m.avoidRight) then
        h.(x := if vx > 0.0 then m.avoidRight + 5.0 else m.avoidLeft - 5.0, vx := -vx)
      else
        h.(vx := vx)
  }

  /**
   * After being pushed out of its avoid zone a hazard is heading back towards
   * the zone: the push puts it past the edge it was moving towards and then
   * reverses it.
   */
  lemma PushedOutHeadsBack(h: Hazard)
    requires h.patrol.Some? && h.vx != 0.0
    requires StrictlyBetween(h.x, h.patrol.value.avoidLeft, h.patrol.value.avoidRight)
    ensures var g := HazardStep(h);
      (g.x > h.patrol.value.avoidRight ==> g.vx < 0.0) && (g.x < h.patrol.value.avoidLeft ==> g.vx > 0.0)
  {
  }

  function StepPlatforms(ps: seq<Platform>): (qs: seq<Platform>)
  {
    seq(|ps|, i requires 0 <= i < |ps| => PlatformStep(ps[i]))
  }

  function StepHazards(hs: seq<Hazard>): (gs: seq<Hazard>)
  {
    seq(|hs|, i requires 0 <= i < |hs| => HazardStep(hs[i]))
  }
}
