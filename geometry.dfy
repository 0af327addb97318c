/** Plane geometry used by the bot: points, and the angle and distance between two of them.
    Go's math.Pi, math.Atan2 and math.Sqrt are not modelled numerically; they are constants the
    proofs know nothing about, except that Pi is positive. Equality on float64 is equality on real. */
module Geometry {

  /** The Point helper struct of the bot. */
  datatype Point = Point(x: real, y: real)

  type Positive = r: real | r > 0.0 witness 1.0

  /** math.Pi, only known to be positive. */
  const Pi: Positive

  /** math.Atan2(y, x), uninterpreted. */
  const Atan2: (real, real) -> real

  /** math.Sqrt, uninterpreted. */
  const Sqrt: real -> real

  /** calculateAngleFrom2Point: direction of the vector from a to b. */
  function AngleFrom2Point(a: Point, b: Point): real
  {
    Atan2(b.y - a.y, b.x - a.x)
  }

  /** calculateDistanceFrom2Point: Euclidean distance, math.Pow(d, 2) written as d * d. */
  function DistanceFrom2Point(a: Point, b: Point): real
  {
    Sqrt((b.y - a.y) * (b.y - a.y) + (b.x - a.x) * (b.x - a.x))
  }

  /** The distance does not depend on which point is measured from. */
  lemma DistanceSymmetric(a: Point, b: Point)
    ensures DistanceFrom2Point(a, b) == DistanceFrom2Point(b, a)
  {
    assert (b.y - a.y) * (b.y - a.y) == (a.y - b.y) * (a.y - b.y);
    assert (b.x - a.x) * (b.x - a.x) == (a.x - b.x) * (a.x - b.x);
  }
}

/** The parts of a world-state snapshot the bot reads, and the bot's constants. */
module Snapshot {
  import opened Geometry

  datatype Option<T> = None | Some(value: T)

  /** A tokyo.Player, reduced to the fields the bot reads. */
  datatype Player = Player(id: int, x: real, y: real, angle: real)

  /** A tokyo.Bullet, reduced to the fields the bot reads. */
  datatype Bullet = Bullet(playerId: int, x: real, y: real, angle: real)

  /** Go's zero values of the two structs. */
  const ZeroPlayer := Player(0, 0.0, 0.0, 0.0)
  const ZeroBullet := Bullet(0, 0.0, 0.0, 0.0)

  /** MAX_SAFE and MAX_SIZE. */
  const MaxSafe: int := 120
  const MaxSize: real := 8000.0

  function PlayerPoint(p: Player): Point
  {
    Point(p.x, p.y)
  }

  function BulletPoint(b: Bullet): Point
  {
    Point(b.x, b.y)
  }
}
