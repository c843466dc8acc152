/**
 * The fixed level layout (platforms and invisible side walls), the respawn
 * platform search and the choice of the platform the goal bin stands on.
 */
module Layout {
  import opened Wrappers
  import opened Geometry

  /** Static walls created by the platform layout, in creation order. */
  const GroundWall: Platform := Platform(80.0, 120.0, 80, 8, 0.0, None)
  const LowLeft: Platform := Platform(30.0, 110.0, 20, 3, 0.0, None)
  const LowRight: Platform := Platform(130.0, 100.0, 20, 3, 0.0, None)
  const LayoutWalls: seq<Platform> := [GroundWall, LowLeft, LowRight]

  /** The two invisible 16-by-8 side walls. */
  const Boundaries: seq<Platform> := [Platform(-8.0, 60.0, 16, 8, 0.0, None), Platform(168.0, 60.0, 16, 8, 0.0, None)]

  /**
   * A moving platform at (x, y): drawn speed, drawn direction, and bounds 20
   * units either side of x, kept within [20, 140].
   */
  function MovingPlatform(x: real, y: real, width: nat, height: nat, speed: int, flip: bool): (p: Platform)
    ensures p.x == x && p.y == y && p.width == width && p.height == height
    ensures Abs(p.vx) == Abs(speed as real)
    ensures p.vx == if flip then -(speed as real) else speed as real
    ensures p.bounds == Some(Bounds(Max(20.0, x - 20.0), Min(140.0, x + 20.0), x))
    ensures p.bounds.Some? && p.bounds.value.startX == x
    ensures 20.0 <= p.bounds.value.minX && p.bounds.value.maxX <= 140.0
    ensures 20.0 <= x <= 140.0 ==> p.bounds.value.minX <= x <= p.bounds.value.maxX
    ensures x - 20.0 <= p.bounds.value.minX && p.bounds.value.maxX <= x + 20.0
  {
    var vx := if flip then -(speed as real) else speed as real;
    Platform(x, y, width, height, vx, Some(Bounds(Max(20.0, x - 20.0), Min(140.0, x + 20.0), x)))
  }

  /** The three moving platforms of the layout, from their speed and direction draws. */
  function LayoutMovers(speeds: seq<int>, flips: seq<bool>): (ms: seq<Platform>)
    requires |speeds| == 3 && |flips| == 3
    ensures |ms| == 3
    ensures ms[0].x == 50.0 && ms[0].y == 90.0 && ms[1].x == 110.0 && ms[1].y == 70.0 && ms[2].x == 80.0 && ms[2].y == 50.0
    ensures forall k :: 0 <= k < 3 ==>
      && ms[k].bounds.Some? && Abs(ms[k].vx) == Abs(speeds[k] as real)
      && ms[k].bounds.value.minX <= ms[k].x <= ms[k].bounds.value.maxX
  {
    [ MovingPlatform(50.0, 90.0, 40, 6, speeds[0], flips[0]),
      MovingPlatform(110.0, 70.0, 40, 6, speeds[1], flips[1]),
      MovingPlatform(80.0, 50.0, 30, 4, speeds[2], flips[2]) ]
  }

  /** The respawn platform test: wide and low. */
  predicate IsGround(p: Platform) {
    p.width > 50 && p.y > 100.0
  }

  /** `find`: the index of the first wall that passes `IsGround`. */
  function FindGround(walls: seq<Platform>): (r: Option<nat>)
    ensures r.Some? ==> r.value < |walls| && IsGround(walls[r.value])
    ensures r.Some? ==> forall j :: 0 <= j < r.value ==> !IsGround(walls[j])
    ensures r.None? <==> forall j :: 0 <= j < |walls| ==> !IsGround(walls[j])
  {
    if walls == [] then None
    else if IsGround(walls[0]) then Some(0)
    else match FindGround(walls[1..])
      case None => None
      case Some(k) => Some(k + 1)
  }

  /** Centre of the player standing on the ground platform, or `fallback` if there is none. */
  function SpawnPoint(walls: seq<Platform>, fallback: Point): (p: Point)
    ensures FindGround(walls).None? ==> p == fallback
    ensures FindGround(walls).Some? ==>
      var g := walls[FindGround(walls).value];
      p.x == g.x && p.y + Half(PlayerHeight) == PlatformTop(g)
  {
    match FindGround(walls)
    case None => fallback
    case Some(k) => Point(walls[k].x, PlatformTop(walls[k]) - Half(PlayerHeight))
  }

  /** Where the player is put after damage (fallback at the top centre). */
  const RespawnFallback: Point := Point(80.0, 30.0)

  /** Where the player is put at level start (fallback at the screen centre). */
  const StartFallback: Point := Point(80.0, 60.0)

  /** Inside the bounds the per-tick boundary check enforces. */
  predicate InPlayBounds(p: Point) {
    p.y <= 130.0 && -10.0 <= p.x <= 170.0
  }

  /** Empty, or starting with the ground wall: every wall list the level builds produce. */
  predicate GroundFirst(walls: seq<Platform>) {
    walls == [] || walls[0] == GroundWall
  }

  /** A level build keeps the ground wall first. */
  lemma BuildKeepsGroundFirst(walls: seq<Platform>)
    requires GroundFirst(walls)
    ensures GroundFirst(walls + LayoutWalls + Boundaries)
  {
  }

  /** On such walls both spawn points are inside the play bounds. */
  lemma GroundFirstSpawnsInBounds(walls: seq<Platform>)
    requires GroundFirst(walls)
    ensures InPlayBounds(SpawnPoint(walls, RespawnFallback))
    ensures InPlayBounds(SpawnPoint(walls, StartFallback))
  {
  }

  /** A wall big enough to carry the goal bin. */
  predicate GoalCandidate(p: Platform) {
    p.width >= 20 && p.height >= 3
  }

  predicate UpperCandidate(p: Platform) {
    GoalCandidate(p) && p.y < 80.0
  }

  /**
   * The goal platform: the first candidate in the upper part of the screen
   * (y < 80) if there is one; otherwise the first candidate with the smallest
   * y; `None` when no wall is a candidate.
   */
  predicate GoalChoice(walls: seq<Platform>, best: Option<nat>) {
    && (best.None? <==> forall j :: 0 <= j < |walls| ==> !GoalCandidate(walls[j]))
    && (best.Some? ==> best.value < |walls| && GoalCandidate(walls[best.value]))
    && ((exists j :: 0 <= j < |walls| && UpperCandidate(walls[j])) ==>
         && best.Some? && best.value < |walls| && UpperCandidate(walls[best.value])
         && forall j :: 0 <= j < best.value ==> !UpperCandidate(walls[j]))
    && ((forall j :: 0 <= j < |walls| ==> !UpperCandidate(walls[j])) && best.Some? && best.value < |walls| ==>
         && (forall j :: 0 <= j < |walls| && GoalCandidate(walls[j]) ==> walls[best.value].y <= walls[j].y)
         && (forall j :: 0 <= j < best.value && GoalCandidate(walls[j]) ==> walls[best.value].y < walls[j].y))
  }

  method ChooseGoalPlatform(walls: seq<Platform>) returns (best: Option<nat>)
    ensures GoalChoice(walls, best)
  {
    best := None;
    var i := 0;
    while i < |walls|
      invariant 0 <= i <= |walls|
      invariant forall j :: 0 <= j < i ==> !UpperCandidate(walls[j])
      invariant best.None? <==> forall j :: 0 <= j < i ==> !GoalCandidate(walls[j])
      invariant best.Some? ==> best.value < i && GoalCandidate(walls[best.value])
      invariant best.Some? ==> forall j :: 0 <= j < i && GoalCandidate(walls[j]) ==> walls[best.value].y <= walls[j].y
      invariant best.Some? ==> forall j :: 0 <= j < best.value && GoalCandidate(walls[j]) ==> walls[best.value].y < walls[j].y
    {
      var platform := walls[i];
      if platform.width < 20 || platform.height < 3 {
        i := i + 1;
        continue;
      }
      if platform.y < 80.0 {
        best := Some(i);
        break;
      }
      if best.None? || platform.y < walls[best.value].y {
        best := Some(i);
      }
      i := i + 1;
    }
  }

  /** Where the goal bin is put: centred on the chosen platform's top, or at the screen centre. */
  function GoalPoint(walls: seq<Platform>, best: Option<nat>): (p: Point)
    requires best.Some? ==> best.value < |walls|
    ensures best.None? ==> p == Point(80.0, 60.0)
    ensures best.Some? ==> p.x == walls[best.value].x && p.y + Half(GoalHeight) == PlatformTop(walls[best.value])
  {
    match best
    case None => Point(80.0, 60.0)
    case Some(b) => Point(walls[b].x, PlatformTop(walls[b]) - Half(GoalHeight))
  }
}
