/** Two consequences of findMyPlayer as written, each next to the behaviour its code evidently
    meant: the zero-valued bullets that pad the bullet list, and the zero player that stands in
    for a bot whose ID is not in the snapshot. */
module Findings {
  import opened Geometry
  import opened Snapshot
  import opened Split
  import opened Heuristic

  /** As written: the list handed to calculateAngle starts with one zero bullet per snapshot
      bullet, sitting at the origin with heading 0. A spawned bot heading 0 within 220 of the
      origin dodges that phantom and holds fire, although the only real bullet is its own and an
      opponent is in firing range. Without the padding it fires after turning to the opponent. */
  lemma PaddingCausesPhantomDodge(me: Player, enemy: Player, own: Bullet)
    requires me.x != 0.0 && me.y != 0.0 && me.angle == 0.0
    requires own.playerId == me.id
    requires DistanceFrom2Point(PlayerPoint(me), BulletPoint(ZeroBullet)) <= DangerRadius
    requires MaxSafe as real < Distance(me, enemy) <= FireRange
    ensures var asWritten := Decide(me, [enemy], ZeroBullets(1) + NotOwnedBy([own], me.id));
      asWritten.angle in {Pi / 2.0, Pi / 4.0} && !asWritten.fireBefore && !asWritten.fireAfter
    ensures Decide(me, [enemy], NotOwnedBy([own], me.id)) ==
      Decision(AngleFrom2Point(PlayerPoint(me), PlayerPoint(enemy)), false, true)
  {
    assert NotOwnedBy([own], me.id) == [];
    assert ZeroBullets(1) == [ZeroBullet];
    assert [enemy][..0] == [];
    assert ScanNearest(me, [enemy]) == Nearest(enemy, Distance(me, enemy));
  }

  /** Intended: with the list built from the foreign bullets only, the bot's own bullets never
      influence the decision, wherever they sit in the snapshot. */
  lemma OwnBulletsIgnored(me: Player, others: seq<Player>, a: seq<Bullet>, own: seq<Bullet>, b: seq<Bullet>)
    requires forall i :: 0 <= i < |own| ==> own[i].playerId == me.id
    ensures Decide(me, others, NotOwnedBy(a + own + b, me.id)) == Decide(me, others, NotOwnedBy(a + b, me.id))
  {
    NotOwnedByConcat(a + own, b, me.id);
    NotOwnedByConcat(a, own, me.id);
    NotOwnedByConcat(a, b, me.id);
    NotOwnedByDropsOwn(own, me.id);
    assert NotOwnedBy(a + own, me.id) == NotOwnedBy(a, me.id);
  }

  /** As written: when the bot's ID is missing, findMyPlayer hands calculateAngle the zero
      player (never nil, so the caller's nil check cannot fire), drops the first player of the
      snapshot, and the bot, seen as unspawned, turns to Pi and holds fire. */
  lemma MissingIdTurnsToPi(players: seq<Player>, bullets: seq<Bullet>, id: int)
    requires |players| > 0
    requires forall j :: 0 <= j < |players| ==> players[j].id != id
    ensures MyPlayer(players, id) == ZeroPlayer
    ensures RemoveAt(players, RemovedIndex(players, id)) == players[1..]
    ensures Decide(MyPlayer(players, id), RemoveAt(players, RemovedIndex(players, id)),
                   ZeroBullets(|bullets|) + NotOwnedBy(bullets, id)) == Decision(Pi, false, false)
  {
    MissingIdDropsFirst(players, id);
  }
}
