/**
 * Points, axis-aligned boxes and the centre-based sprite geometry of the host
 * engine: a sprite's `x`/`y` is its centre, so `top = y - height/2` and
 * `bottom = y + height/2`. Positions are exact reals; image sizes are whole pixels.
 */
module Geometry {
  import opened Wrappers

  datatype Point = Point(x: real, y: real)

  /** An axis-aligned rectangle given by its four edges. */
  datatype Box = Box(left: real, right: real, top: real, bottom: real)

  /** Strict containment, as every zone test of the game uses `>` and `<`. */
  predicate StrictlyInside(p: Point, b: Box) {
    b.left < p.x < b.right && b.top < p.y < b.bottom
  }

  /** The square of half-side `margin` centred on `c`. */
  function Around(c: Point, margin: real): Box {
    Box(c.x - margin, c.x + margin, c.y - margin, c.y + margin)
  }

  function SqDist(a: Point, b: Point): real {
    (a.x - b.x) * (a.x - b.x) + (a.y - b.y) * (a.y - b.y)
  }

  function Abs(r: real): real {
    if r < 0.0 then -r else r
  }

  function Max(a: real, b: real): real {
    if a < b then b else a
  }

  function Min(a: real, b: real): real {
    if a < b then a else b
  }

  function Half(n: nat): real {
    n as real / 2.0
  }

  /** The player sprite and the goal sprite are 16 by 16 pixel images. */
  const PlayerHeight: nat := 16
  const GoalHeight: nat := 16

  /** The player sprite: centre position and velocity. */
  datatype Body = Body(x: real, y: real, vx: real, vy: real)

  function BodyBottom(b: Body): real {
    b.y + Half(PlayerHeight)
  }

  /** Oscillation bounds of a moving platform. */
  datatype Bounds = Bounds(minX: real, maxX: real, startX: real)

  /** A static wall (`bounds == None`) or a moving platform (`bounds == Some(..)`). */
  datatype Platform = Platform(x: real, y: real, width: nat, height: nat, vx: real, bounds: Option<Bounds>)

  function PlatformTop(p: Platform): real {
    p.y - Half(p.height)
  }

  function PlatformLeft(p: Platform): real {
    p.x - Half(p.width)
  }

  function PlatformRight(p: Platform): real {
    p.x + Half(p.width)
  }

  /**
   * The side data of a moving hazard: oscillation bounds and the horizontal
   * span (`avoidZone`) it is pushed out of.
   */
  datatype Patrol = Patrol(minX: real, maxX: real, startX: real, avoidLeft: real, avoidRight: real)

  /**
   * A hazard sprite with its side data: whether it relocates when it hits the
   * player, the position it was created at, and, for a moving hazard, its patrol.
   */
  datatype Hazard = Hazard(x: real, y: real, vx: real, canRelocate: bool, origin: Point, patrol: Option<Patrol>)

  function Position(h: Hazard): Point {
    Point(h.x, h.y)
  }
}
