/** checkIfEnemyBehind and checkIfEnemyFront: where another player stands relative to the bot,
    judged from the band of the circle the bot's heading lies in. */
module Quadrants {
  import opened Geometry
  import opened Snapshot

  /** The four angle bands the source tests, in order. */
  predicate InBandI(angle: real)   { 0.0 <= angle <= Pi / 2.0 }
  predicate InBandII(angle: real)  { Pi / 2.0 < angle <= Pi }
  predicate InBandIII(angle: real) { Pi < angle <= Pi * 3.0 / 2.0 }
  predicate InBandIV(angle: real)  { Pi * 3.0 / 2.0 < angle < 2.0 * Pi }

  /** checkIfEnemyBehind: b is behind a. */
  predicate CheckIfEnemyBehind(a: Player, b: Player)
  {
    var behindI := InBandI(a.angle) && (a.x > b.x || a.y > b.y);
    var behindII := InBandII(a.angle) && (a.x < b.x || a.y > b.y);
    var behindIII := InBandIII(a.angle) && (a.x < b.x || a.y < b.y);
    var behindIV := InBandIV(a.angle) && (a.x > b.x || a.y < b.y);
    a.angle == b.angle && (behindI || behindII || behindIII || behindIV)
  }

  /** checkIfEnemyFront: b is in front of a. The angle argument is not used by the source. */
  predicate CheckIfEnemyFront(a: Player, b: Player, angle: real)
  {
    var frontI := InBandI(a.angle) && (a.x < b.x || a.y < b.y);
    var frontII := InBandII(a.angle) && (a.x > b.x || a.y < b.y);
    var frontIII := InBandIII(a.angle) && (a.x > b.x || a.y > b.y);
    var frontIV := InBandIV(a.angle) && (a.x < b.x || a.y > b.y);
    (a.angle == b.angle || a.angle + b.angle == Pi) && (frontI || frontII || frontIII || frontIV)
  }

  /** The bands are pairwise disjoint and together cover exactly [0, 2*Pi). */
  lemma BandsPartitionCircle(angle: real)
    ensures (0.0 <= angle < 2.0 * Pi) <==> (InBandI(angle) || InBandII(angle) || InBandIII(angle) || InBandIV(angle))
    ensures !(InBandI(angle) && InBandII(angle)) && !(InBandI(angle) && InBandIII(angle))
    ensures !(InBandI(angle) && InBandIV(angle)) && !(InBandII(angle) && InBandIII(angle))
    ensures !(InBandII(angle) && InBandIV(angle)) && !(InBandIII(angle) && InBandIV(angle))
  {
  }

  /** Behind needs equal headings and a heading in [0, 2*Pi). */
  lemma BehindGate(a: Player, b: Player)
    ensures CheckIfEnemyBehind(a, b) ==> a.angle == b.angle && 0.0 <= a.angle < 2.0 * Pi
  {
  }

  /** Front needs equal or supplementary headings and a heading in [0, 2*Pi); the third
      argument never matters. */
  lemma FrontGate(a: Player, b: Player, angle: real, other: real)
    ensures CheckIfEnemyFront(a, b, angle) ==> (a.angle == b.angle || a.angle + b.angle == Pi) && 0.0 <= a.angle < 2.0 * Pi
    ensures CheckIfEnemyFront(a, b, angle) == CheckIfEnemyFront(a, b, other)
  {
  }

  /** Every positional comparison is strict, so a player at the same spot is neither behind nor in front. */
  lemma SamePositionIsNeither(a: Player, b: Player, angle: real)
    requires a.x == b.x && a.y == b.y
    ensures !CheckIfEnemyBehind(a, b) && !CheckIfEnemyFront(a, b, angle)
  {
  }

  /** With equal headings in [0, 2*Pi), any player at another spot is behind or in front (or both). */
  lemma ApartIsBehindOrFront(a: Player, b: Player, angle: real)
    requires a.angle == b.angle && 0.0 <= a.angle < 2.0 * Pi
    requires PlayerPoint(a) != PlayerPoint(b)
    ensures CheckIfEnemyBehind(a, b) || CheckIfEnemyFront(a, b, angle)
  {
    BandsPartitionCircle(a.angle);
  }

  /** Behind and front hold together only when b differs from a on both axes. */
  lemma BothOnlyOffBothAxes(a: Player, b: Player, angle: real)
    requires CheckIfEnemyBehind(a, b) && CheckIfEnemyFront(a, b, angle)
    ensures a.x != b.x && a.y != b.y
  {
    BandsPartitionCircle(a.angle);
  }

  /** Behind and front are not exclusive: both hold for heading 0 with a at (2, 1) and b at (1, 2). */
  lemma BehindAndFrontOverlap()
    ensures CheckIfEnemyBehind(Player(1, 2.0, 1.0, 0.0), Player(2, 1.0, 2.0, 0.0))
    ensures CheckIfEnemyFront(Player(1, 2.0, 1.0, 0.0), Player(2, 1.0, 2.0, 0.0), 0.0)
  {
  }
}
