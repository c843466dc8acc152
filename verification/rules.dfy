/**
 * The random draws a level build consumes, the checks that they lie in the
 * ranges the host's random sources produce, hazard creation from a drawn
 * spot, hazard relocation, and the level-end score.
 */
module Rules {
  import opened Wrappers
  import opened Geometry
  import opened Placement

  /** Draws for one created hazard: image kind (0 or 1), movement range, speed and direction. */
  datatype HazardDraw = HazardDraw(kind: nat, range: int, speed: int, flip: bool)

  /**
   * Kind 0 (chemical barrel) moves at 20..30, kind 1 (battery acid) at
   * 30..45; the range is 20..35.
   */
  predicate HazardDrawOk(d: HazardDraw) {
    d.kind <= 1 && 20 <= d.range <= 35 && (if d.kind == 0 then 20 <= d.speed <= 30 else 30 <= d.speed <= 45)
  }

  /** The horizontal span every moving hazard is kept out of. */
  const AvoidLeft: real := 45.0
  const AvoidRight: real := 115.0

  /** A hazard created at a selected spot; moving spots get speed, direction, bounds and the avoid zone. */
  function NewHazard(s: Spot, d: HazardDraw): (h: Hazard)
    ensures Position(h) == s.at && h.origin == s.at && h.canRelocate
    ensures h.patrol.Some? <==> s.moving
    ensures !s.moving ==> h.vx == 0.0
    ensures s.moving ==>
      var m := h.patrol.value;
      && Abs(h.vx) == Abs(d.speed as real)
      && h.vx == (if d.flip then -(d.speed as real) else d.speed as real)
      && m.minX == Max(20.0, s.at.x - d.range as real) && m.maxX == Min(140.0, s.at.x + d.range as real)
      && 20.0 <= m.minX && m.maxX <= 140.0 && m.startX == s.at.x
      && (20 <= d.range ==> m.minX <= s.at.x - 20.0 || m.minX == 20.0)
      && (20.0 <= s.at.x <= 140.0 && 0 <= d.range ==> m.minX <= s.at.x <= m.maxX)
      && m.avoidLeft == AvoidLeft && m.avoidRight == AvoidRight
  {
    if s.moving then
      var vx := if d.flip then -(d.speed as real) else d.speed as real;
      var range := d.range as real;
      Hazard(s.at.x, s.at.y, vx, true, s.at,
             Some(Patrol(Max(20.0, s.at.x - range), Min(140.0, s.at.x + range), s.at.x, AvoidLeft, AvoidRight)))
    else
      Hazard(s.at.x, s.at.y, 0.0, true, s.at, None)
  }

  /** The lower end of the hazard-count draw: 2..3 on level 1, 3..4 on level 2, 4..5 after. */
  function HazardCountLow(level: int): int {
    if level == 1 then 2 else if level == 2 then 3 else 4
  }

  /** The count draw starts at 2 on level 1, at 3 on level 2 and at 4 on every later level. */
  lemma HazardCountRange(level: int)
    ensures 2 <= HazardCountLow(level) <= 4
    ensures HazardCountLow(level) == 2 <==> level == 1
    ensures HazardCountLow(level) == 3 <==> level == 2
  {
  }

  /** A hazard moved to `p` after a hit; a moving one gets bounds 25 either side and a fresh velocity. */
  function Relocated(h: Hazard, p: Point, speed: int, flip: bool): (g: Hazard)
    ensures Position(g) == p && g.origin == h.origin && g.canRelocate == h.canRelocate
    ensures g.patrol.Some? <==> h.patrol.Some?
    ensures h.patrol.None? ==> g.vx == h.vx
    ensures h.patrol.Some? ==>
      var m := g.patrol.value;
      && Abs(g.vx) == Abs(speed as real)
      && m.minX == Max(20.0, p.x - 25.0) && m.maxX == Min(140.0, p.x + 25.0)
      && g.vx == (if flip then -(speed as real) else speed as real)
      && 20.0 <= m.minX && m.maxX <= 140.0 && m.maxX - m.minX <= 50.0 && m.startX == p.x
      && (20.0 <= p.x <= 140.0 ==> m.minX <= p.x <= m.maxX)
      && m.avoidLeft == h.patrol.value.avoidLeft && m.avoidRight == h.patrol.value.avoidRight
  {
    match h.patrol
    case None => h.(x := p.x, y := p.y)
    case Some(m) =>
      var vx := if flip then -(speed as real) else speed as real;
      h.(x := p.x, y := p.y, vx := vx,
         patrol := Some(m.(minX := Max(20.0, p.x - 25.0), maxX := Min(140.0, p.x + 25.0), startX := p.x)))
  }

  /**
   * The hazard list after hazard `i` hits the player: a relocatable hazard
   * with a target moves there; otherwise it is spliced out.
   */
  function AfterHit(hs: seq<Hazard>, i: nat, recs: seq<Point>, pick: nat, speed: int, flip: bool): (r: seq<Hazard>)
    requires i < |hs|
    requires |RelocationTargets(recs, hs, i)| > 0 ==> pick < |RelocationTargets(recs, hs, i)|
    ensures |r| == |hs| || r == Splice(hs, i)
    ensures |r| == |hs| ==>
      && hs[i].canRelocate
      && Position(r[i]) in Pool && RelocationClear(Position(r[i]), recs, hs, i)
      && r[i].origin == hs[i].origin
      && r[i] == Relocated(hs[i], Position(r[i]), speed, flip)
      && forall j :: 0 <= j < |hs| && j != i ==> r[j] == hs[j]
    ensures r == Splice(hs, i) <==> !hs[i].canRelocate || forall p :: p in Pool ==> !RelocationClear(p, recs, hs, i)
  {
    var targets := RelocationTargets(recs, hs, i);
    if hs[i].canRelocate && |targets| > 0 then
      RelocationZonesMeaning(targets[pick], recs, hs, i);
      hs[i := Relocated(hs[i], targets[pick], speed, flip)]
    else
      assert hs[i].canRelocate ==> forall p :: p in Pool ==> !RelocationClear(p, recs, hs, i) by {
        forall p | p in Pool && |targets| == 0 ensures !RelocationClear(p, recs, hs, i) {
          RelocationZonesMeaning(p, recs, hs, i);
        }
      }
      Splice(hs, i)
  }

  /** The level-end total: score plus 50 per life, 100 if no hazard is left, and 25 per level. */
  function LevelScore(score: int, lives: int, hazardsLeft: nat, level: int): (total: int)
    ensures lives >= 0 && level >= 1 ==> total >= score + 25
    ensures hazardsLeft == 0 <==> total == score + lives * 50 + level * 25 + 100
  {
    score + lives * 50 + (if hazardsLeft == 0 then 100 else 0) + level * 25
  }

  /** Random draws consumed by one level build. */
  datatype LevelDraws = LevelDraws(
    platformSpeeds: seq<int>, platformFlips: seq<bool>,
    movingFlags: seq<bool>, hazardCount: int, hazardPicks: seq<nat>, hazardDraws: seq<HazardDraw>,
    itemPlatforms: seq<nat>, itemAttempts: seq<seq<real>>, itemFallbacks: seq<real>)

  /** Three moving-platform speeds in 15..25 and three directions. */
  predicate PlatformDrawsOk(speeds: seq<int>, flips: seq<bool>) {
    |speeds| == 3 && |flips| == 3 && forall k :: 0 <= k < 3 ==> 15 <= speeds[k] <= 25
  }

  /**
   * Twelve moving flags, a count in the level's range, index draws into the
   * shrinking candidate list, and per-hazard draws for those selected.
   */
  predicate HazardDrawsOk(level: int, recs: seq<Point>, flags: seq<bool>, count: int, picks: seq<nat>, draws: seq<HazardDraw>) {
    && |flags| == |Pool|
    && HazardCountLow(level) <= count <= HazardCountLow(level) + 1
    && var n := MinCount(count, |StartSpots(Spots(flags), Boxes(recs, RecyclableMargin))|);
    && PicksFit(picks, |StartSpots(Spots(flags), Boxes(recs, RecyclableMargin))|, n)
    && n <= |draws|
    && forall k :: 0 <= k < n ==> HazardDrawOk(draws[k])
  }

  /** For each of the `needed` items: a platform index, ten attempt draws and a fallback draw. */
  predicate ItemDrawsOk(needed: int, choices: seq<nat>, attempts: seq<seq<real>>, fallbacks: seq<real>) {
    && needed <= |choices| && needed <= |attempts| && needed <= |fallbacks|
    && forall i :: 0 <= i < needed ==> AttemptDraws(attempts[i]) && UnitDraw(fallbacks[i])
  }

  /** All draws of a level build fit the state it starts from. */
  predicate LevelDrawsOk(d: LevelDraws, level: int, needed: int, recs: seq<Point>) {
    && PlatformDrawsOk(d.platformSpeeds, d.platformFlips)
    && HazardDrawsOk(level, recs, d.movingFlags, d.hazardCount, d.hazardPicks, d.hazardDraws)
    && ItemDrawsOk(needed, d.itemPlatforms, d.itemAttempts, d.itemFallbacks)
  }
}
