/** findMyPlayer: splits a snapshot into the bot's own player, the other players and the
    bullets it must watch. The player list is the caller's array, which the removal shifts in place. */
module Split {
  import opened Snapshot

  /** Index of the first player whose ID is `id`, or None when there is none. */
  function FindIndex(players: seq<Player>, id: int): (r: Option<nat>)
    ensures r.Some? ==> r.value < |players| && players[r.value].id == id
    ensures r.Some? ==> forall j :: 0 <= j < r.value ==> players[j].id != id
    ensures r.None? <==> forall j :: 0 <= j < |players| ==> players[j].id != id
  {
    if players == [] then None
    else if players[0].id == id then Some(0)
    else match FindIndex(players[1..], id)
      case Some(i) => Some(i + 1)
      case None => None
  }

  /** The player findMyPlayer reports: the first match, or the zero player when there is none. */
  function MyPlayer(players: seq<Player>, id: int): Player
  {
    match FindIndex(players, id)
    case Some(i) => players[i]
    case None => ZeroPlayer
  }

  /** The index findMyPlayer removes: the first match, or 0 (Go's zero int) when there is none. */
  function RemovedIndex(players: seq<Player>, id: int): nat
  {
    match FindIndex(players, id)
    case Some(i) => i
    case None => 0
  }

  /** `s` without its element at index i. */
  function RemoveAt(s: seq<Player>, i: nat): (r: seq<Player>)
    requires i < |s|
    ensures |r| == |s| - 1
    ensures forall j :: 0 <= j < i ==> r[j] == s[j]
    ensures forall j :: i <= j < |r| ==> r[j] == s[j + 1]
  {
    s[..i] + s[i + 1..]
  }

  /** Removing index i takes out exactly one copy of s[i] and nothing else. */
  lemma RemoveAtMultiset(s: seq<Player>, i: nat)
    requires i < |s|
    ensures multiset(RemoveAt(s, i)) + multiset{s[i]} == multiset(s)
  {
    assert s == s[..i] + [s[i]] + s[i + 1..];
  }

  /** `count` zero-valued bullets, what make([]tokyo.Bullet, count) holds. */
  function ZeroBullets(count: nat): seq<Bullet>
  {
    seq(count, _ => ZeroBullet)
  }

  /** The bullets not fired by player `id`, in their original order. */
  function NotOwnedBy(bullets: seq<Bullet>, id: int): (r: seq<Bullet>)
    ensures |r| <= |bullets|
    ensures forall b :: b in r <==> b in bullets && b.playerId != id
  {
    if bullets == [] then []
    else if bullets[0].playerId != id then [bullets[0]] + NotOwnedBy(bullets[1..], id)
    else NotOwnedBy(bullets[1..], id)
  }

  /** The filter keeps order: it distributes over concatenation. */
  lemma {:induction false} NotOwnedByConcat(a: seq<Bullet>, b: seq<Bullet>, id: int)
    ensures NotOwnedBy(a + b, id) == NotOwnedBy(a, id) + NotOwnedBy(b, id)
  {
    if a == [] {
      assert a + b == b;
    } else {
      assert (a + b)[1..] == a[1..] + b;
      NotOwnedByConcat(a[1..], b, id);
    }
  }

  /** A list none of whose bullets is fired by `id` is kept whole. */
  lemma {:induction false} NotOwnedByKeepsForeign(bullets: seq<Bullet>, id: int)
    requires forall i :: 0 <= i < |bullets| ==> bullets[i].playerId != id
    ensures NotOwnedBy(bullets, id) == bullets
  {
    if bullets != [] {
      NotOwnedByKeepsForeign(bullets[1..], id);
    }
  }

  /** A list all of whose bullets are fired by `id` is dropped whole. */
  lemma {:induction false} NotOwnedByDropsOwn(bullets: seq<Bullet>, id: int)
    requires forall i :: 0 <= i < |bullets| ==> bullets[i].playerId == id
    ensures NotOwnedBy(bullets, id) == []
  {
    if bullets != [] {
      NotOwnedByDropsOwn(bullets[1..], id);
    }
  }

  /** The first loop: the first player whose ID matches, with its index; otherwise the zero
      player and index 0. */
  method LocatePlayer(players: array<Player>, id: int) returns (currentPlayer: Player, index: nat)
    ensures currentPlayer == MyPlayer(players[..], id) && index == RemovedIndex(players[..], id)
    ensures players.Length > 0 ==> index < players.Length
    ensures currentPlayer == ZeroPlayer || currentPlayer.id == id
  {
    currentPlayer, index := ZeroPlayer, 0;
    var i := 0;
    while i < players.Length
      invariant 0 <= i <= players.Length
      invariant forall j :: 0 <= j < i ==> players[j].id != id
      invariant currentPlayer == ZeroPlayer && index == 0
    {
      if players[i].id == id {
        currentPlayer, index := players[i], i;
        break;
      }
      i := i + 1;
    }
  }

  /** append(players[:index], players[index+1:]...): the tail moves one slot left inside the
      caller's array; its last slot keeps its old player. */
  method ShiftOut(players: array<Player>, index: nat)
    requires index < players.Length
    modifies players
    ensures players[..] == RemoveAt(old(players[..]), index) + [old(players[players.Length - 1])]
  {
    var k := index;
    while k < players.Length - 1
      invariant index <= k <= players.Length - 1
      invariant forall j :: 0 <= j < index ==> players[j] == old(players[j])
      invariant forall j :: index <= j < k ==> players[j] == old(players[j + 1])
      invariant forall j :: k <= j < players.Length ==> players[j] == old(players[j])
    {
      players[k] := players[k + 1];
      k := k + 1;
    }
  }

  /** The bullet loop: a list pre-filled with one zero bullet per input bullet, followed by the
      bullets not fired by `id`. */
  method CollectOtherBullets(bullets: seq<Bullet>, id: int) returns (otherBullets: seq<Bullet>)
    ensures otherBullets == ZeroBullets(|bullets|) + NotOwnedBy(bullets, id)
    ensures |otherBullets| >= |bullets|
    ensures forall i :: 0 <= i < |bullets| ==> otherBullets[i] == ZeroBullet
  {
    otherBullets := ZeroBullets(|bullets|);
    for i := 0 to |bullets|
      invariant otherBullets == ZeroBullets(|bullets|) + NotOwnedBy(bullets[..i], id)
    {
      assert bullets[..i + 1] == bullets[..i] + [bullets[i]];
      NotOwnedByConcat(bullets[..i], [bullets[i]], id);
      if bullets[i].playerId != id {
        otherBullets := otherBullets + [bullets[i]];
      }
    }
    assert bullets[..|bullets|] == bullets;
  }

  /** findMyPlayer. The caller only calls it on a non-empty player list (on an empty one the
      slice expression players[index+1:] would be out of range). */
  method FindMyPlayer(players: array<Player>, bullets: seq<Bullet>, id: int)
    returns (myPlayer: Player, otherPlayers: seq<Player>, otherBullets: seq<Bullet>)
    requires players.Length > 0
    modifies players
    ensures myPlayer == MyPlayer(old(players[..]), id)
    ensures otherPlayers == RemoveAt(old(players[..]), RemovedIndex(old(players[..]), id))
    ensures players[..] == otherPlayers + [old(players[players.Length - 1])]
    ensures otherBullets == ZeroBullets(|bullets|) + NotOwnedBy(bullets, id)
  {
    var index;
    myPlayer, index := LocatePlayer(players, id);
    ShiftOut(players, index);
    otherPlayers := players[..players.Length - 1];
    otherBullets := CollectOtherBullets(bullets, id);
  }

  /** When the ID is present, the split loses nothing: the other players plus the bot are the
      snapshot's players, and the bot carries the ID. */
  lemma SplitPartitionsPlayers(players: seq<Player>, id: int)
    requires FindIndex(players, id).Some?
    ensures MyPlayer(players, id).id == id
    ensures multiset(RemoveAt(players, RemovedIndex(players, id))) + multiset{MyPlayer(players, id)} == multiset(players)
  {
    RemoveAtMultiset(players, RemovedIndex(players, id));
  }

  /** When the ID is absent, the first player (someone else) is dropped and the bot is the zero player. */
  lemma MissingIdDropsFirst(players: seq<Player>, id: int)
    requires |players| > 0
    requires forall j :: 0 <= j < |players| ==> players[j].id != id
    ensures MyPlayer(players, id) == ZeroPlayer
    ensures RemoveAt(players, RemovedIndex(players, id)) == players[1..]
  {
  }
}
