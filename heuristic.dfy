/** calculateAngle: the per-snapshot decision of where to turn and whether to fire before
    and/or after turning. The decision is specified by Decide, a first-applicable-rule function,
    and CalculateAngle is the source's loop-and-early-return procedure proved equal to it. */
module Heuristic {
  import opened Geometry
  import opened Snapshot
  import opened Quadrants

  /** The triple calculateAngle returns. */
  datatype Decision = Decision(angle: real, fireBefore: bool, fireAfter: bool)

  /** float64(MAX_SAFE+100): bullets closer than this are dodged. */
  const DangerRadius: real := (MaxSafe + 100) as real

  /** float64(MAX_SAFE)+200: the nearest enemy is shot at within this range. */
  const FireRange: real := (MaxSafe as real) + 200.0

  /** Distance from the bot to another player. */
  function Distance(me: Player, p: Player): real
  {
    DistanceFrom2Point(PlayerPoint(me), PlayerPoint(p))
  }

  /** State of the nearest-player scan: nearestPlayer and minDistance. */
  datatype Nearest = Nearest(player: Player, distance: real)

  /** The nearest-player scan over `others`, left to right, starting from the zero player at
      MaxSize and taking a player whenever minDistance >= its distance. */
  function ScanNearest(me: Player, others: seq<Player>): (r: Nearest)
    ensures r.distance <= MaxSize
    ensures forall i :: 0 <= i < |others| ==> r.distance <= Distance(me, others[i])
  {
    if others == [] then Nearest(ZeroPlayer, MaxSize)
    else
      var prev := ScanNearest(me, others[..|others| - 1]);
      var d := Distance(me, others[|others| - 1]);
      if prev.distance >= d then Nearest(others[|others| - 1], d) else prev
  }

  /** Index of the last player in `others` at distance m from the bot, if any. */
  function LastAtDistance(me: Player, others: seq<Player>, m: real): (r: Option<nat>)
    ensures r.Some? ==> r.value < |others| && Distance(me, others[r.value]) == m
    ensures r.Some? ==> forall j :: r.value < j < |others| ==> Distance(me, others[j]) != m
    ensures r.None? <==> forall j :: 0 <= j < |others| ==> Distance(me, others[j]) != m
  {
    if others == [] then None
    else if Distance(me, others[|others| - 1]) == m then Some(|others| - 1)
    else LastAtDistance(me, others[..|others| - 1], m)
  }

  /** The `>=` tie-break: the scan ends on the LAST player at the minimum distance; when no
      player is at that distance, the minimum is MaxSize and the scan keeps the zero player. */
  lemma {:induction false} ScanNearestIsLastAtMinimum(me: Player, others: seq<Player>)
    ensures var r := ScanNearest(me, others);
      match LastAtDistance(me, others, r.distance)
      case Some(i) => r.player == others[i]
      case None => r == Nearest(ZeroPlayer, MaxSize)
  {
    if others != [] {
      var prefix := others[..|others| - 1];
      ScanNearestIsLastAtMinimum(me, prefix);
      var prev := ScanNearest(me, prefix);
      if prev.distance < Distance(me, others[|others| - 1]) {
        assert LastAtDistance(me, others, prev.distance) == LastAtDistance(me, prefix, prev.distance);
      }
    }
  }

  /** minDistance is the minimum of MaxSize and of every other player's distance. */
  lemma ScanNearestIsMinimum(me: Player, others: seq<Player>)
    ensures var m := ScanNearest(me, others).distance;
      m <= MaxSize && (forall i :: 0 <= i < |others| ==> m <= Distance(me, others[i])) &&
      (m == MaxSize || exists i :: 0 <= i < |others| && Distance(me, others[i]) == m)
  {
    ScanNearestIsLastAtMinimum(me, others);
  }

  /** With nobody within MaxSize (in particular with nobody at all), the scan keeps the zero
      player at MaxSize. */
  lemma ScanNearestNoneInRange(me: Player, others: seq<Player>)
    requires forall i :: 0 <= i < |others| ==> Distance(me, others[i]) > MaxSize
    ensures ScanNearest(me, others) == Nearest(ZeroPlayer, MaxSize)
  {
    ScanNearestIsLastAtMinimum(me, others);
  }

  /** What one bullet makes the bot do, if anything: the two dodge tests of the bullet loop. */
  function DodgeFor(me: Player, b: Bullet): (r: Option<Decision>)
  {
    var distance := DistanceFrom2Point(PlayerPoint(me), BulletPoint(b));
    var angle := AngleFrom2Point(BulletPoint(b), PlayerPoint(me));
    if distance <= DangerRadius then
      if me.angle + angle == Pi then Some(Decision(Pi / 2.0, false, false))
      else if me.angle == b.angle || angle == b.angle then Some(Decision(Pi / 4.0, false, false))
      else None
    else None
  }

  /** The bullet loop: the dodge of the first bullet that calls for one. A dodge turns to
      Pi/2 or Pi/4 and never fires. */
  function FirstDodge(me: Player, bullets: seq<Bullet>): (r: Option<Decision>)
    ensures r.Some? ==> !r.value.fireBefore && !r.value.fireAfter
    ensures r.Some? ==> r.value.angle == Pi / 2.0 || r.value.angle == Pi / 4.0
  {
    if bullets == [] then None
    else match DodgeFor(me, bullets[0])
      case Some(d) => Some(d)
      case None => FirstDodge(me, bullets[1..])
  }

  /** FirstDodge is decided by the first bullet that calls for a dodge; bullets that do not call
      for one never stop the scan, and with none of them the scan has no effect. */
  lemma {:induction false} FirstDodgeIsFirst(me: Player, bullets: seq<Bullet>)
    ensures FirstDodge(me, bullets).None? <==> forall i :: 0 <= i < |bullets| ==> DodgeFor(me, bullets[i]).None?
    ensures FirstDodge(me, bullets).Some? ==>
      exists i :: 0 <= i < |bullets| && FirstDodge(me, bullets) == DodgeFor(me, bullets[i]) &&
        forall j :: 0 <= j < i ==> DodgeFor(me, bullets[j]).None?
  {
    if bullets != [] {
      FirstDodgeIsFirst(me, bullets[1..]);
      if DodgeFor(me, bullets[0]).None? {
        assert forall i :: 1 <= i < |bullets| ==> bullets[i] == bullets[1..][i - 1];
        if FirstDodge(me, bullets).Some? {
          var k :| 0 <= k < |bullets[1..]| && FirstDodge(me, bullets[1..]) == DodgeFor(me, bullets[1..][k]) &&
            forall j :: 0 <= j < k ==> DodgeFor(me, bullets[1..][j]).None?;
          assert FirstDodge(me, bullets) == DodgeFor(me, bullets[k + 1]);
        }
      }
    }
  }

  /** The rule once no bullet called for a dodge: close-range engagement (behind, then front,
      then juke) within MAX_SAFE, otherwise aim at the nearest player. */
  function Engage(me: Player, nearest: Nearest): Decision
  {
    var anglePlayer := AngleFrom2Point(PlayerPoint(me), PlayerPoint(nearest.player));
    if nearest.distance <= MaxSafe as real then
      if CheckIfEnemyBehind(me, nearest.player) then Decision(Pi / 2.0, false, false)
      else if CheckIfEnemyFront(me, nearest.player, anglePlayer) then Decision(anglePlayer, false, true)
      else Decision(me.angle - Pi / 4.0, true, false)
    else Decision(anglePlayer, false, nearest.distance <= FireRange)
  }

  /** calculateAngle as a first-applicable-rule function. Whatever it decides, the bot never
      fires both before and after turning. */
  function Decide(me: Player, others: seq<Player>, bullets: seq<Bullet>): (r: Decision)
    ensures !(r.fireBefore && r.fireAfter)
  {
    if me.x == 0.0 || me.y == 0.0 then Decision(Pi - me.angle, false, false)
    else match FirstDodge(me, bullets)
      case Some(d) => d
      case None => Engage(me, ScanNearest(me, others))
  }

  /** calculateAngle. */
  method CalculateAngle(player: Player, others: seq<Player>, bullets: seq<Bullet>)
    returns (angle: real, fireBefore: bool, fireAfter: bool)
    ensures Decision(angle, fireBefore, fireAfter) == Decide(player, others, bullets)
    ensures !(fireBefore && fireAfter)
  {
    var minDistance := MaxSize;
    var nearestPlayer := ZeroPlayer;

    if player.x == 0.0 || player.y == 0.0 {
      return Pi - player.angle, false, false;
    }

    for i := 0 to |others|
      invariant Nearest(nearestPlayer, minDistance) == ScanNearest(player, others[..i])
    {
      var distance := DistanceFrom2Point(PlayerPoint(player), PlayerPoint(others[i]));
      assert others[..i + 1][..i] == others[..i];
      if minDistance >= distance {
        minDistance := distance;
        nearestPlayer := others[i];
      }
    }
    assert others[..|others|] == others;

    for i := 0 to |bullets|
      invariant FirstDodge(player, bullets) == FirstDodge(player, bullets[i..])
    {
      var bullet := bullets[i];
      var distance := DistanceFrom2Point(PlayerPoint(player), BulletPoint(bullet));
      var angleToPlayer := AngleFrom2Point(BulletPoint(bullet), PlayerPoint(player));
      assert bullets[i..][1..] == bullets[i + 1..];
      if distance <= DangerRadius {
        if player.angle + angleToPlayer == Pi {
          return Pi / 2.0, false, false;
        }
        if player.angle == bullet.angle || angleToPlayer == bullet.angle {
          return Pi / 4.0, false, false;
        }
      }
    }

    var anglePlayer := AngleFrom2Point(PlayerPoint(player), PlayerPoint(nearestPlayer));

    if minDistance <= MaxSafe as real {
      if CheckIfEnemyBehind(player, nearestPlayer) {
        return Pi / 2.0, false, false;
      }
      if CheckIfEnemyFront(player, nearestPlayer, anglePlayer) {
        return anglePlayer, false, true;
      }
      return player.angle - Pi / 4.0, true, false;
    }

    return anglePlayer, false, minDistance <= FireRange;
  }

  /** An unspawned bot (a zero coordinate) turns to Pi minus its heading and holds fire,
      whatever the snapshot holds. */
  lemma UnspawnedIgnoresSnapshot(me: Player, others: seq<Player>, bullets: seq<Bullet>,
                                 others': seq<Player>, bullets': seq<Bullet>)
    requires me.x == 0.0 || me.y == 0.0
    ensures Decide(me, others, bullets) == Decide(me, others', bullets')
    ensures Decide(me, others, bullets) == Decision(Pi - me.angle, false, false)
  {
  }

  /** A spawned bot that a bullet calls to dodge takes the dodge of that bullet or of an earlier
      one, whoever else is around; when no earlier bullet calls for a dodge, that bullet's own. */
  lemma DodgeOverridesEngagement(me: Player, others: seq<Player>, bullets: seq<Bullet>, i: nat)
    requires me.x != 0.0 && me.y != 0.0
    requires i < |bullets| && DodgeFor(me, bullets[i]).Some?
    ensures Decide(me, others, bullets).angle in {Pi / 2.0, Pi / 4.0}
    ensures !Decide(me, others, bullets).fireBefore && !Decide(me, others, bullets).fireAfter
    ensures exists k :: 0 <= k <= i && DodgeFor(me, bullets[k]).Some? && Decide(me, others, bullets) == DodgeFor(me, bullets[k]).value
    ensures (forall j :: 0 <= j < i ==> DodgeFor(me, bullets[j]).None?) ==>
      Decide(me, others, bullets) == DodgeFor(me, bullets[i]).value
  {
    FirstDodgeIsFirst(me, bullets);
    var k :| 0 <= k < |bullets| && FirstDodge(me, bullets) == DodgeFor(me, bullets[k]) &&
      forall j :: 0 <= j < k ==> DodgeFor(me, bullets[j]).None?;
    assert k <= i;
  }

  /** A run of bullets none of which calls for a dodge can be taken out of the bullet list
      without changing which dodge, if any, is taken. */
  lemma {:induction false} FirstDodgeSkipsQuiet(me: Player, a: seq<Bullet>, quiet: seq<Bullet>, b: seq<Bullet>)
    requires forall i :: 0 <= i < |quiet| ==> DodgeFor(me, quiet[i]).None?
    ensures FirstDodge(me, a + quiet + b) == FirstDodge(me, a + b)
    decreases |a| + |quiet|
  {
    if a != [] {
      assert (a + quiet + b)[1..] == a[1..] + quiet + b;
      assert (a + b)[1..] == a[1..] + b;
      FirstDodgeSkipsQuiet(me, a[1..], quiet, b);
    } else if quiet != [] {
      assert (a + quiet + b)[1..] == [] + quiet[1..] + b;
      FirstDodgeSkipsQuiet(me, [], quiet[1..], b);
      assert a + b == [] + [] + b;
    } else {
      assert a + quiet + b == a + b;
    }
  }

  /** Bullets beyond the danger radius are ignored, however they are aimed and wherever they sit
      in the list. */
  lemma FarBulletsIgnored(me: Player, others: seq<Player>, a: seq<Bullet>, far: seq<Bullet>, b: seq<Bullet>)
    requires forall i :: 0 <= i < |far| ==> DistanceFrom2Point(PlayerPoint(me), BulletPoint(far[i])) > DangerRadius
    ensures Decide(me, others, a + far + b) == Decide(me, others, a + b)
  {
    FirstDodgeSkipsQuiet(me, a, far, b);
  }

  /** The dodge tests at the edge of the danger radius: a bullet at distance exactly 220 whose
      heading equals its direction to the bot makes the bot turn to Pi/4 (unless the Pi/2 test
      fires first); one at 221 decides nothing. */
  lemma DangerRadiusBoundary(me: Player, b: Bullet, far: Bullet)
    requires DistanceFrom2Point(PlayerPoint(me), BulletPoint(b)) == 220.0
    requires AngleFrom2Point(BulletPoint(b), PlayerPoint(me)) == b.angle
    requires me.angle + b.angle != Pi
    requires DistanceFrom2Point(PlayerPoint(me), BulletPoint(far)) == 221.0
    ensures DodgeFor(me, b) == Some(Decision(Pi / 4.0, false, false))
    ensures DodgeFor(me, far) == None
  {
  }

  /** With no dodge and the nearest player within MAX_SAFE, a player in front and not behind
      makes the bot turn towards it and fire after turning. */
  lemma CloseRangeFront(me: Player, others: seq<Player>, bullets: seq<Bullet>)
    requires me.x != 0.0 && me.y != 0.0 && FirstDodge(me, bullets).None?
    requires ScanNearest(me, others).distance <= MaxSafe as real
    requires !CheckIfEnemyBehind(me, ScanNearest(me, others).player)
    requires CheckIfEnemyFront(me, ScanNearest(me, others).player, 0.0)
    ensures Decide(me, others, bullets) ==
      Decision(AngleFrom2Point(PlayerPoint(me), PlayerPoint(ScanNearest(me, others).player)), false, true)
  {
    FrontGate(me, ScanNearest(me, others).player, 0.0,
              AngleFrom2Point(PlayerPoint(me), PlayerPoint(ScanNearest(me, others).player)));
  }

  /** With no dodge and the nearest player within MAX_SAFE but neither behind nor in front, the
      bot fires first and turns to Pi/4 less than its heading. */
  lemma CloseRangeJuke(me: Player, others: seq<Player>, bullets: seq<Bullet>)
    requires me.x != 0.0 && me.y != 0.0 && FirstDodge(me, bullets).None?
    requires ScanNearest(me, others).distance <= MaxSafe as real
    requires !CheckIfEnemyBehind(me, ScanNearest(me, others).player)
    requires !CheckIfEnemyFront(me, ScanNearest(me, others).player, 0.0)
    ensures Decide(me, others, bullets) == Decision(me.angle - Pi / 4.0, true, false)
  {
    FrontGate(me, ScanNearest(me, others).player, 0.0,
              AngleFrom2Point(PlayerPoint(me), PlayerPoint(ScanNearest(me, others).player)));
  }

  /** With no dodge and the nearest player within MAX_SAFE, behind is tested before front: when
      both hold the bot turns away to Pi/2 without firing. */
  lemma BehindTakesPrecedence(me: Player, others: seq<Player>, bullets: seq<Bullet>)
    requires me.x != 0.0 && me.y != 0.0 && FirstDodge(me, bullets).None?
    requires ScanNearest(me, others).distance <= MaxSafe as real
    requires CheckIfEnemyBehind(me, ScanNearest(me, others).player)
    ensures Decide(me, others, bullets) == Decision(Pi / 2.0, false, false)
  {
  }

  /** With no dodge and the nearest player beyond MAX_SAFE, the bot aims at that player, never
      fires first, and fires after turning exactly when it is within MAX_SAFE+200. */
  lemma LongRangeAims(me: Player, others: seq<Player>, bullets: seq<Bullet>)
    requires me.x != 0.0 && me.y != 0.0 && FirstDodge(me, bullets).None?
    requires ScanNearest(me, others).distance > MaxSafe as real
    ensures var r := Decide(me, others, bullets);
      r.angle == AngleFrom2Point(PlayerPoint(me), PlayerPoint(ScanNearest(me, others).player)) &&
      !r.fireBefore && (r.fireAfter <==> ScanNearest(me, others).distance <= FireRange)
  {
  }

  /** One opponent at distance d and no bullets: beyond 320 the bot holds fire; between 120 and
      320 it fires after turning towards the opponent; within 120 it engages at close range;
      beyond 8000 the scan keeps the zero player and the bot turns towards the origin. */
  lemma SingleOpponent(me: Player, enemy: Player)
    requires me.x != 0.0 && me.y != 0.0
    ensures var d := Distance(me, enemy);
      var r := Decide(me, [enemy], []);
      var toEnemy := AngleFrom2Point(PlayerPoint(me), PlayerPoint(enemy));
      (120.0 < d <= 320.0 ==> r == Decision(toEnemy, false, true)) &&
      (320.0 < d <= MaxSize ==> r == Decision(toEnemy, false, false)) &&
      (d > MaxSize ==> r == Decision(AngleFrom2Point(PlayerPoint(me), PlayerPoint(ZeroPlayer)), false, false)) &&
      (d <= 120.0 ==> r == Engage(me, Nearest(enemy, d)))
  {
    assert [enemy][..0] == [];
    var d := Distance(me, enemy);
    assert ScanNearest(me, [enemy]) == if MaxSize >= d then Nearest(enemy, d) else Nearest(ZeroPlayer, MaxSize);
  }

  /** A bot at (100, 100) heading 0 with an opponent 50 units straight below it, also heading 0:
      the opponent is behind, so the bot turns to Pi/2 and holds fire. */
  lemma ScenarioEnemyBehind()
    requires Distance(Player(1, 100.0, 100.0, 0.0), Player(2, 100.0, 50.0, 0.0)) == 50.0
    ensures Decide(Player(1, 100.0, 100.0, 0.0), [Player(2, 100.0, 50.0, 0.0)], []) == Decision(Pi / 2.0, false, false)
  {
    assert [Player(2, 100.0, 50.0, 0.0)][..0] == [];
  }

  /** The same with the opponent heading Pi: its heading passes the front gate (0 + Pi == Pi)
      but not the band-I position test, so the bot fires first and jukes to -Pi/4. */
  lemma ScenarioEnemyOpposite()
    requires Distance(Player(1, 100.0, 100.0, 0.0), Player(2, 100.0, 50.0, Pi)) == 50.0
    ensures Decide(Player(1, 100.0, 100.0, 0.0), [Player(2, 100.0, 50.0, Pi)], []) == Decision(0.0 - Pi / 4.0, true, false)
  {
    var me, enemy := Player(1, 100.0, 100.0, 0.0), Player(2, 100.0, 50.0, Pi);
    assert [enemy][..0] == [];
    assert ScanNearest(me, [enemy]) == Nearest(enemy, 50.0);
    assert !CheckIfEnemyBehind(me, enemy);
    assert !CheckIfEnemyFront(me, enemy, AngleFrom2Point(PlayerPoint(me), PlayerPoint(enemy)));
  }
}
