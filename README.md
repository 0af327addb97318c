# tokyo-plane simple bot: decision core in Dafny

The example bot of tokyo-plane receives world-state snapshots (players and bullets) from the
game server and, on each snapshot, decides where to turn and whether to fire before and/or
after turning. This project models that decision core of `examples/simple/main.go`:

- **Snapshot splitting** (`findMyPlayer`, module `Split`): finding the bot's own player by ID,
  removing it from the caller's player array by shifting the tail left in place, and building
  the bullet list: one zero-valued bullet per snapshot bullet, then the bullets not fired by the bot.
- **Decision rule** (`calculateAngle`, module `Heuristic`): the unspawned sentinel, the
  nearest-player scan with its `>=` tie-break, the bullet-danger scan with its two exact-equality
  dodge tests and early returns, close-range behind/front/juke handling and the long-range default.
  `CalculateAngle` keeps the source's loops and early returns and is proved equal to `Decide`, a
  first-applicable-rule function; lemmas then characterise `Decide` and its parts.
- **Quadrant predicates** (`checkIfEnemyBehind`, `checkIfEnemyFront`, module `Quadrants`).

`math.Pi`, `math.Atan2` and `math.Sqrt` are constants the proofs know nothing about (module
`Geometry`), except that Pi is positive; float64 values are reals and `==` on them is equality.
Facts that would need a concrete square root (a distance of 50, of 220) are hypotheses of the
lemmas that use them. Player and bullet records keep only the fields the bot reads.

## Model

| member | source | states |
|---|---|---|
| Geometry.DistanceSymmetric | examples/simple/main.go:145-147 | the distance between two points is the same measured from either |
| Quadrants.BandsPartitionCircle | examples/simple/main.go:219-240 | the four heading bands are pairwise disjoint and their union is exactly [0, 2*Pi) |
| Quadrants.BehindGate | examples/simple/main.go:219-240 | "behind" holds only when both headings are equal and the bot's heading is in [0, 2*Pi) |
| Quadrants.FrontGate | examples/simple/main.go:242-266 | "front" holds only when the headings are equal or sum to Pi and the heading is in [0, 2*Pi); its angle argument never changes the answer |
| Quadrants.SamePositionIsNeither | examples/simple/main.go:219-266 | a player at the bot's own X and Y is neither behind nor in front (every comparison is strict) |
| Quadrants.ApartIsBehindOrFront | examples/simple/main.go:219-266 | with equal headings in [0, 2*Pi), a player anywhere else is behind or in front |
| Quadrants.BothOnlyOffBothAxes | examples/simple/main.go:219-266 | behind and front hold together only when the two players differ in both X and Y |
| Quadrants.BehindAndFrontOverlap | examples/simple/main.go:219-266 | behind and front can both hold (heading 0, bot at (2, 1), other at (1, 2)) |
| Split.FindIndex | examples/simple/main.go:117-123 | the search finds the first player with the ID, and finds none exactly when no player has it |
| Split.RemoveAt | examples/simple/main.go:125 | removal keeps the players before the index and moves every later one down by one |
| Split.RemoveAtMultiset | examples/simple/main.go:125 | removal takes out exactly one copy of the removed player and nothing else |
| Split.NotOwnedBy | examples/simple/main.go:127-131 | a bullet is kept exactly when it is in the snapshot and was not fired by the bot |
| Split.NotOwnedByConcat | examples/simple/main.go:127-131 | the bullet filter keeps the snapshot's order (it distributes over concatenation) |
| Split.NotOwnedByKeepsForeign | examples/simple/main.go:127-131 | when no bullet is the bot's own, every bullet is kept |
| Split.NotOwnedByDropsOwn | examples/simple/main.go:127-131 | when every bullet is the bot's own, none is kept |
| Split.LocatePlayer | examples/simple/main.go:114-123 | the search loop yields the first matching player and its index, or the zero player and index 0 |
| Split.ShiftOut | examples/simple/main.go:125 | the in-place append leaves the caller's array as the list without the removed player, followed by the old last player |
| Split.CollectOtherBullets | examples/simple/main.go:113-131 | the bullet list is len(bullets) zero bullets followed by the bot's non-own bullets in order |
| Split.FindMyPlayer | examples/simple/main.go:108-134 | returns the first player with the ID (or the zero player), the player list without it (without index 0 if absent), the shifted caller array and the padded bullet list |
| Split.SplitPartitionsPlayers | examples/simple/main.go:117-125 | when the ID is present, the bot carries it and the bot plus the other players are exactly the snapshot's players |
| Split.MissingIdDropsFirst | examples/simple/main.go:114-125 | when the ID is absent, the bot is the zero player and the first snapshot player is removed |
| Heuristic.ScanNearest | examples/simple/main.go:154-173 | minDistance is at most 8000 and at most every other player's distance |
| Heuristic.ScanNearestIsLastAtMinimum | examples/simple/main.go:154-173 | the `>=` tie-break: nearestPlayer is the last player at the minimum distance; if none is at it, the scan keeps the zero player at 8000 |
| Heuristic.ScanNearestIsMinimum | examples/simple/main.go:154-173 | minDistance is the minimum of 8000 and all other players' distances |
| Heuristic.ScanNearestNoneInRange | examples/simple/main.go:154-173 | with nobody within 8000 (or nobody at all), the result is the zero player at 8000 |
| Heuristic.FirstDodge | examples/simple/main.go:175-196 | a bullet dodge turns to Pi/2 or Pi/4 and never fires |
| Heuristic.FirstDodgeIsFirst | examples/simple/main.go:175-196 | the first bullet that calls for a dodge decides; bullets that do not never stop the scan, and without one the scan has no effect |
| Heuristic.Decide | examples/simple/main.go:149-217 | every decision fires at most once: never both before and after turning |
| Heuristic.CalculateAngle | examples/simple/main.go:149-217 | the loop-and-early-return procedure returns exactly the first-applicable-rule decision, firing at most once |
| Heuristic.UnspawnedIgnoresSnapshot | examples/simple/main.go:157-159 | with X or Y zero the result is (Pi - heading, false, false) whatever the other players and bullets |
| Heuristic.DodgeOverridesEngagement | examples/simple/main.go:175-196 | for a spawned bot, a bullet calling for a dodge overrides every player rule: the result is the dodge of that bullet or an earlier one (that bullet's own when no earlier one calls for a dodge), a turn to Pi/2 or Pi/4 with no firing |
| Heuristic.FirstDodgeSkipsQuiet | examples/simple/main.go:175-196 | a run of bullets none of which calls for a dodge, anywhere in the list, never changes which dodge is taken |
| Heuristic.FarBulletsIgnored | examples/simple/main.go:186 | bullets farther than 220, anywhere in the list, never change the decision |
| Heuristic.DangerRadiusBoundary | examples/simple/main.go:186-194 | a bullet at exactly 220 whose heading equals its direction to the bot gives Pi/4 (when the Pi/2 test fails); one at 221 decides nothing |
| Heuristic.CloseRangeFront | examples/simple/main.go:203-210 | within 120 with no dodge, a nearest player in front and not behind gives (angle to it, false, true) |
| Heuristic.CloseRangeJuke | examples/simple/main.go:203-212 | within 120 with no dodge, a nearest player neither behind nor in front gives (heading - Pi/4, true, false) |
| Heuristic.BehindTakesPrecedence | examples/simple/main.go:203-210 | within 120 with no dodge, a nearest player behind gives (Pi/2, false, false) even when it is also in front |
| Heuristic.LongRangeAims | examples/simple/main.go:198-216 | beyond 120 with no dodge, the bot turns to the nearest player, never fires first, and fires after exactly when that player is within 320 |
| Heuristic.SingleOpponent | examples/simple/main.go:161-216 | one opponent and no bullets: within 120 close-range engagement, in (120, 320] turn and fire after, in (320, 8000] turn and hold fire, beyond 8000 turn towards the origin (the zero player) and hold fire |
| Heuristic.ScenarioEnemyBehind | examples/simple/main.go:203-205 | bot (100, 100) heading 0, opponent 50 below heading 0: (Pi/2, false, false) |
| Heuristic.ScenarioEnemyOpposite | examples/simple/main.go:203-212 | the same opponent heading Pi passes the front gate but not its position test: (-Pi/4, true, false) |
| Findings.PaddingCausesPhantomDodge | examples/simple/main.go:113-131 | the zero-bullet padding makes a spawned bot heading exactly 0 within 220 of the origin dodge a phantom bullet instead of firing at an opponent in range |
| Findings.OwnBulletsIgnored | examples/simple/main.go:127-131 | with the filtered list alone, inserting any run of the bot's own bullets anywhere in the snapshot's bullets never changes the decision |
| Findings.MissingIdTurnsToPi | examples/simple/main.go:114-133 | with the ID absent, the bot is the zero player, the first snapshot player is dropped and the decision is (Pi, false, false) |

## Behaviour worth knowing

- The `>=` at main.go:169 keeps the last of equally near players, not the first
  (`Heuristic.ScanNearestIsLastAtMinimum`).
- Behind and front can both hold (`Quadrants.BehindAndFrontOverlap`), so the order of the two
  tests at main.go:204-210 matters (`Heuristic.BehindTakesPrecedence`).
- Headings 0 and Pi pass the front gate at main.go:261, since they sum to Pi; the band-I position
  test can still fail, and then the bot jukes (`Heuristic.ScenarioEnemyOpposite`).
- With the ID absent, findMyPlayer removes the first player rather than none
  (`Split.MissingIdDropsFirst`).

## Left out

- `main`, the state and user-ID event handlers, the 100 ms ticker goroutine, `setupCloseHandler`
  and `validateParams` (main.go:25-106): SDK calls, signal handling and flag parsing.
- The unsynchronised sharing of `id`, `angle` and the fire flags between the event handler and
  the ticker goroutine: concurrency, not decision logic.
- The random jitter added to the angle at rotate time (main.go:74): randomness in the command layer.
- `log.Println("Ne")` in the second dodge test: a diagnostic side effect only.
- Numerical behaviour of `math.Atan2`, `math.Sqrt` and `math.Pi`, and IEEE-754 rounding: the
  functions are uninterpreted, Pi is only known to be positive, and float64 arithmetic is exact
  real arithmetic.
- Heuristic.ScenarioEnemyBehind: takes the distance 50 as a hypothesis, because the square root is uninterpreted.
- Heuristic.ScenarioEnemyOpposite: takes the distance 50 as a hypothesis, for the same reason.
- Heuristic.DangerRadiusBoundary: takes the distances 220 and 221 as hypotheses, for the same reason.
- Findings.PaddingCausesPhantomDodge: takes the bot's distance to the origin and to the opponent as hypotheses, for the same reason.
- Split.FindMyPlayer: the other-player slice Go returns shares the caller's backing array; the
  model returns the value of its first len-1 slots, which is the same as long as nothing writes
  through either afterwards, and nothing in the source does. The returned `*tokyo.Player` is
  modelled as the player value, since the pointer is never nil.
- The other fields of the SDK's player and bullet types, and the 64-bit width of IDs (IDs are
  only compared for equality).

## Findings

| source | as written | input that shows it | evidently intended | confidence | as-written member | corrected member |
|---|---|---|---|---|---|---|
| examples/simple/main.go:113 | `make([]tokyo.Bullet, len(bullets))` creates len(bullets) zero bullets (at the origin, heading 0) before the appends | bot 7 at (120, 160) heading 0, 200 from the origin; one opponent 200 away; bullets = one bullet of bot 7: the bot dodges the phantom and holds fire | a list of the other players' bullets only (`make([]tokyo.Bullet, 0, len(bullets))`): the bot turns to the opponent and fires after | high, not executed | Findings.PaddingCausesPhantomDodge | Split.NotOwnedBy |
| examples/simple/main.go:114-133 | with no player carrying the ID, `index` stays 0 and a pointer to the zero player is returned, so the caller's nil check (line 43) never fires | players = [player 2], id = 7: player 2 is dropped and the bot turns to Pi forever | report the absence (nil), which the caller turns into a fatal error | medium, not executed | Findings.MissingIdTurnsToPi | Split.FindIndex |
