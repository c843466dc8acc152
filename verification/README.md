# Eco-runner platformer engine, modelled in Dafny

This project models the game engine inside `src/main.js`, a MakeCode Arcade platformer. In the game, the player collects recyclables, avoids hazardous waste and reaches a recycling bin to finish each level. The model sets aside the sprite art, the sounds and the dialogs. It keeps the engine under them:

- **Platform landing and the jump grace counter.** Each tick, the player lands on the first platform it comes down onto, in list order (walls, then moving platforms). A counter set to 5 lets a jump through after the player walks off a ledge.
- **The per-tick oscillator.** Moving platforms and moving hazards reverse at their bounds. A hazard found inside its avoid zone is pushed 5 units past the zone's edge and reversed.
- **Spatial placement.**
  - Hazards start at positions drawn without replacement from a pool of twelve. A position is usable when it is outside the player's safe zone and outside a 15-unit box around every recyclable.
  - Recyclables go on eligible platforms. Each one takes up to ten tries to find a spot 20 units from every hazard, then falls back to a fresh draw.
  - After a hit, a hazard is relocated to a free pool position. Free means clear of the safe zone, every recyclable's 15-box, every other hazard's 20-box, and the hazard's original position. If no position is free, the hazard is removed.
- **Collection and the goal.** Each collected item adds 10 points. The goal bin unlocks once, when enough items are in. Reaching it completes the level, and the completion score is computed once.
- **Damage and the level lifecycle.** Hazard hits and falls each cost one life. The player respawns on the ground platform, and the game ends at zero lives. After completion, an A press advances to the next, harder level.

## Module structure

- `Geometry` holds points, boxes, bodies, platforms and hazards.
- `Oscillator` holds the per-tick steps.
- `Landing` holds the landing test.
- `Layout` holds the fixed platform layout, the respawn-platform search and the goal-platform choice.
- `Placement` holds the hazard pool, the exclusion zones, selection without replacement, recyclable placement and the relocation search.
- `Rules` holds hazard creation and relocation, the hazard list after a hit, the level score, and the ranges of the random draws.
- `Engine` holds the class `Game`, whose fields are the program's module-level variables. Its methods are the callbacks and functions that update them.

## Modelling choices

- **Random draws are parameters.** Every `Math.randomRange` or `Math.percentChance` result is a parameter of the operation that consumes it, with a precondition giving its range.
- **Draws are unit fractions or list indices.**
  - A coordinate draw is a fraction `f` in `[0, 1]` of the range. `Placement.ItemXCovers` proves that every real point of the range is reachable this way. With whole-number bounds the host draws whole numbers, and each of them is one of these points. From level 2 on, a moving platform kept from an earlier level can stand at a fractional x. Its bounds are then fractional and the host's draw is a real, which is again one of these points.
  - A draw that picks from a list is an index. Where the list's length is not known when the draws are fixed (the recyclable platform pick), the index is taken modulo the length.
- **The host is an input.** Its per-pixel overlap test arrives as one boolean per platform. Its physics integration (gravity, velocity) happens outside the model, between ticks.
- **Platforms are tracked by reference.** The player's current platform is a `PlatformRef`: an index among the walls or among the moving platforms. This works because the wall and moving-platform lists only grow.
- **The distance test is squared.** The hazard-distance test `sqrt(dx² + dy²) < 20` becomes `dx² + dy² < 400`; both sides are non-negative, so the tests agree.
- **Numbers are exact reals.** Coordinates and velocities are `real`, so the rider nudge `vx * 0.1` is the exact `vx / 10`.
- **The goal activation count is ghost state.** `activations` counts how often the goal has been activated in the current level. The class invariant keeps it at 0 or 1, which is the "at most once per level" property.

## Behaviour of the code worth knowing

- **Fallback draw.** When all ten tries fail, `createRecyclableItem` draws a fresh position instead of keeping the last attempt (`src/main.js:274-278`).
- **Collection is not guarded.** The collection callback has no game-over guard (`src/main.js:805-829`), so it also runs after the game is over or the level is complete.
- **The level bonus is kept apart.** `completeLevel` stores its total in `currentLevelScore` and leaves `score` as it is (`src/main.js:1087-1091`). `nextLevel` resets both.
- **Completion also ends play.** `completeLevel` sets `isGameOver` as well as `isLevelComplete` (`src/main.js:1081-1082`). The invariant records that a completed level is always also game-over.
- **Platforms accumulate.** `clearLevel` does not destroy platforms, so every level build appends another layout's walls and moving platforms. The class invariant keeps the first ground wall first, so the respawn point never moves.
- **Relocation avoids the original position, not the current one.** A hazard that has already moved may be "relocated" onto the spot it stands on (`Placement.RelocationMayKeepCurrentSpot`).
- **The counter never decays.** Nothing decrements `jumpForgivenessFrames`, so it is only ever 0 or 5 and acts as a single-use permission.
- **There is no victory check.** Nothing calls `checkWinCondition` (`src/main.js:1452-1463`), so every acknowledgement builds another level.

## Model

| member | source | states |
|---|---|---|
| Engine.Game.constructor | src/main.js:14-39 | The initial state: level 1, 3 lives, score 0, 4 items needed, speed 100, jump power 200, all flags clear, not grounded, no current platform, grace counter 0, player at rest at the origin, no goal, no platforms, hazards or items; the class invariant holds. |
| Engine.Game.Jump | src/main.js:891-899 | A jump fires exactly when the player is grounded or the grace counter is positive. It sets vy to −jumpPower, leaves the ground, forgets the platform and zeroes the counter. Otherwise nothing changes. |
| Engine.Game.OscillatePlatforms | src/main.js:1501-1506 | Every moving platform takes one `PlatformStep` and nothing else changes. |
| Engine.Game.OscillateHazards | src/main.js:1509-1528 | Every hazard takes one `HazardStep` and nothing else changes. |
| Engine.Game.CheckPlatformCollisions | src/main.js:1149-1176 | The player ends grounded if and only if some platform qualifies. In that case it stands on the first qualifying platform (walls, then moving platforms), snapped to its top with vy 0, and the counter is 5. Otherwise it is airborne with no platform and an unchanged body, and the counter becomes 5 exactly when it was grounded before. The invariant, including counter ∈ {0, 5}, is kept. |
| Engine.Game.UpdatePlayerOnMovingPlatform | src/main.js:1181-1187 | A player grounded on a moving platform moves by a tenth of that platform's vx. Otherwise the player is unchanged. |
| Engine.Game.Tick | src/main.js:1491-1543 | One frame keeps the invariant and leaves the walls unchanged. Platforms and hazards each take one oscillator step. At most one life is lost, and only while the game is not over. Game over is never undone, and is newly set only when lives reach 0. |
| Engine.Game.ResetPlayer | src/main.js:1124-1144 | The player is at rest on the first ground wall, or at (80, 30) when there is none. It is grounded with no current platform. |
| Engine.Game.GameOver | src/main.js:1058-1071 | The game is over and the player's velocity is zero. |
| Engine.Game.LoseLife | src/main.js:1591-1608 | Exactly one life is lost and the player respawns at rest. The game is over exactly when no lives remain. |
| Engine.Game.TakeFallDamage | src/main.js:1588-1609 | After game over nothing changes. Otherwise the effect is `LoseLife`'s. |
| Engine.Game.CheckPlayerBounds | src/main.js:1571-1583 | A player inside the bounds, or a finished game, is left alone. A player below y 130 or beyond x −10 / 170 loses exactly one life, even though both tests run: the respawn point is inside the bounds. |
| Engine.Game.RemoveHazard | src/main.js:983-995 | The hazard is spliced out; the others keep their order. |
| Engine.Game.RelocateHazard | src/main.js:946-977 | The hazard list becomes `AfterHit`: the hazard moves to the drawn free pool position, or is removed when none is free. |
| Engine.Game.TakeDamage | src/main.js:913-940 | One life is lost. The hazard is relocated or removed as `AfterHit` says, and the player respawns at rest. The game is over exactly when no lives remain. |
| Engine.Game.HazardHit | src/main.js:751-757 | After game over nothing changes. Otherwise the effect is `TakeDamage`'s. |
| Engine.Game.UpdateScore | src/main.js:1416-1419 | The score is ten points per collected item. |
| Engine.Game.CreateGoal | src/main.js:582-676 | The goal stands where `GoalChoice` puts it on the walls, and is inactive. |
| Engine.Game.ActivateGoal | src/main.js:681-716 | The goal is placed as by `CreateGoal` and is active. The activation count goes up by one. |
| Engine.Game.UpdateGoalStatus | src/main.js:1192-1204 | The goal is activated exactly when enough items are in and it is not already active. Otherwise the goal state is unchanged, so re-evaluation is idempotent. |
| Engine.Game.Collect | src/main.js:804-830 | The item is spliced out and the count goes up by one. The score goes up by ten. Collected plus remaining is constant. An active goal is left as it was, and a newly activated goal is placed by `GoalChoice`. The invariant keeps the goal active exactly when the count reaches the quota, with at most one activation per level. |
| Engine.Game.GoalReached | src/main.js:1209-1230 | After game over or completion it is ignored. With an active goal it completes the level and computes `LevelScore`. Otherwise it reports the positive number of missing items and changes nothing. |
| Engine.Game.CompleteLevel | src/main.js:1076-1119 | It is idempotent once the level is complete or the game is over. Otherwise it sets both flags and stores score + 50·lives + (100 if no hazard is left) + 25·level. |
| Engine.Game.ClearLevel | src/main.js:1468-1486 | No items, no hazards and no goal remain; the platforms stay. |
| Engine.Game.RaiseDifficulty | src/main.js:1425-1430 | The level goes up by one and 4 + level items are needed. Speed and jump power each go up by 10. |
| Engine.Game.ResetCounters | src/main.js:1433-1438 | The count, score and level score are 0. The goal is inactive, and both flags are cleared. |
| Engine.Game.ResetLevelState | src/main.js:1425-1441 | The difficulty is raised, the counters are reset and the level is cleared, and the invariant still holds. |
| Engine.Game.NextLevel | src/main.js:1424-1447 | The level goes up by one with 4 + level items needed. Speed and jump power go up by 10. The counters reset, the lives are kept, and the goal and flags are cleared. One more layout of walls and moving platforms is appended. The player stands at rest at the start point and the grace counter is kept. The new hazards meet `HazardsPlaced` with no items present, and the new items meet `ItemsPlaced` against them. The invariant is kept. |
| Engine.Game.Acknowledge | src/main.js:1112-1118 | The A press advances exactly when the level is complete; then the level goes up by one and the lives are kept. Otherwise the state is unchanged. |
| Engine.Game.CreatePlatforms | src/main.js:1275-1287 | The ground and the two low walls, then the three moving platforms with their drawn speeds and directions, are appended. |
| Engine.Game.CreateBoundaries | src/main.js:1361-1388 | The two invisible side walls at x −8 and 168 are appended. |
| Engine.Game.CreatePlayer | src/main.js:845-863 | The player is at rest on the first ground wall, or at (80, 60) when there is none. It is grounded with no current platform. |
| Engine.Game.CreateHazards | src/main.js:289-437 | The hazards satisfy `HazardsPlaced`: one per drawn usable spot, as many as min(count, usable), at distinct pool positions, outside the safe zone and every recyclable's 15-box, each remembering its start. The level and score fields are unchanged. |
| Engine.Game.CreateRecyclables | src/main.js:150-237 | The items satisfy `ItemsPlaced`: none without an eligible platform, otherwise `recyclablesNeeded` of them. Each lies on its drawn platform's band and is clear of every hazard whenever one of its ten tries was. |
| Engine.Game.CreateTerrain | src/main.js:68-74 | The layout's walls, the boundaries and the moving platforms are appended, and the player stands at rest at the start point. The invariant, including the ground wall staying first, is kept. |
| Engine.Game.CreateEnvironment | src/main.js:57-108 | The terrain, then `HazardsPlaced` against the items present before the build, then `ItemsPlaced` against the new hazards. The invariant is kept. |
| Engine.HazardPlacementSound | src/main.js:376-434 | The hazards built from the drawn spots meet `HazardsPlaced`. Each is at a pool position outside the safe zone and every recyclable's 15-box, and no two share a position. |
| Engine.NewHazards | src/main.js:431-434 | There is one hazard per selected spot, the k-th created from the k-th spot and the k-th draws. |
| Landing.FindLanding | src/main.js:1155-1170 | The result is the index of the first platform the player lands on, and `None` exactly when it lands on none. |
| Landing.Snap | src/main.js:1162-1163 | The player's bottom is on the platform top, vy is 0, and nothing else changes. |
| Layout.MovingPlatform | src/main.js:1298-1316 | A moving platform moves at the drawn speed, reversed when the direction draw says so. Its bounds are exactly max(20, x − 20) to min(140, x + 20) with start x, so they lie in [20, 140], are at most 20 either side of x, and contain x. |
| Layout.LayoutMovers | src/main.js:1280-1282 | The three moving platforms stand at (50, 90), (110, 70) and (80, 50). Each moves at its drawn speed and lies within its bounds. |
| Layout.SpawnPoint | src/main.js:845-857 | With a ground wall, the point is centred on the first one with the player's bottom on its top. Otherwise it is the fallback point. |
| Layout.GoalPoint | src/main.js:634-642 | With a chosen wall, the bin is centred on it with its bottom on the wall's top. Otherwise it is at (80, 60). |
| Layout.FindGround | src/main.js:847 | The result is the index of the first wall wider than 50 with y > 100, and `None` exactly when there is none. |
| Layout.BuildKeepsGroundFirst | src/main.js:1275-1277 | Every build appends a layout that starts with the ground wall, so the first wall stays the ground wall. |
| Layout.GroundFirstSpawnsInBounds | src/main.js:1130-1139 | When the ground wall is first, both spawn points (respawn and level start) are inside the play bounds. |
| Layout.ChooseGoalPlatform | src/main.js:607-632 | The choice is `None` exactly when no wall is a candidate (width ≥ 20, height ≥ 3). It is the first upper candidate (y < 80) if there is one, and otherwise the first candidate with the smallest y. |
| Oscillator.PlatformStep | src/main.js:1502-1505 | Only vx may change, and \|vx\| is kept. A moving platform's vx is negated exactly when x ≤ minX or x ≥ maxX, so one moving outward at a bound turns back. A static platform, or one strictly inside its bounds, is unchanged. |
| Oscillator.HazardStep | src/main.js:1510-1527 | Only x and vx may change, and \|vx\| is kept. The hazard ends outside its avoid zone. vx is negated exactly when "at a bound" and "inside the zone" differ. A hazard outside the zone keeps its x. A hazard inside it is put at avoidRight + 5 when its vx after the bound check is positive, and otherwise at avoidLeft − 5. A static hazard is unchanged. |
| Oscillator.PushedOutHeadsBack | src/main.js:1519-1526 | A moving hazard pushed out of its avoid zone is then heading back towards it. |
| Placement.PoolClearOfSafeZone | src/main.js:341-373 | No pool position is inside the safe zone, so that test never rejects one. |
| Placement.PoolDistinct | src/main.js:355-373 | The twelve pool positions are pairwise distinct. |
| Placement.ZonesAround | src/main.js:344-352 | There is one box per recyclable, with the k-th box around the k-th item. |
| Placement.HitsAnyZone | src/main.js:388-394 | The result is true exactly when the point is strictly inside some zone. |
| Placement.SpotsPositionsDistinct | src/main.js:355-373 | Two spots of one pool draw are equal exactly when their positions are. |
| Placement.StartSpots | src/main.js:376-400 | A spot is kept if and only if it is in the pool, outside the safe zone and outside every recyclable zone. |
| Placement.StartSpotsDistinct | src/main.js:376-400 | Filtering keeps distinct spots distinct. |
| Placement.FilterStartSpots | src/main.js:377-400 | The filter loop computes exactly `StartSpots`, in pool order. |
| Placement.Splice | src/main.js:427 | `splice(i, 1)` removes one element and adds none. |
| Placement.Drawn | src/main.js:424-428 | n draws give n elements, each taken from the list. |
| Placement.DrawnDistinct | src/main.js:424-428 | Drawing without replacement from distinct elements gives distinct elements. |
| Placement.SelectPositions | src/main.js:416-428 | The selection loop computes exactly `Drawn` for min(count, \|valid\|) draws. |
| Placement.StartPlacementSound | src/main.js:376-428 | Every selected spot is a pool position that passes the filter, and no position is selected twice. |
| Placement.ItemPlatforms | src/main.js:216-224 | Every kept platform is eligible (width > 15, 15 < x < 145, y < 115), and no more platforms are kept than given. |
| Placement.ItemPlatformsMembers | src/main.js:220-224 | A platform is kept if and only if it is given and eligible. |
| Placement.FilterItemPlatforms | src/main.js:216-224 | The filter loop computes exactly `ItemPlatforms`. |
| Placement.ItemX | src/main.js:248-257 | A drawn x lies between the platform's left edge + 8 and its right edge − 8. |
| Placement.ItemXCovers | src/main.js:257 | Every x between the left edge + 8 and the right edge − 8, including each whole number there that the host can draw, is reached by some draw. |
| Placement.ChosenPlatform | src/main.js:229 | An in-range index picks that platform. |
| Placement.ChosenPlatformIn | src/main.js:229 | Whatever the draw, the chosen platform is one of the eligible ones. |
| Placement.FarFromHazards | src/main.js:261-268 | The result is true exactly when the point is at least 20 from every hazard. |
| Placement.PlaceItem | src/main.js:244-284 | The item sits 8 above the platform top, within the band. If some try is clear of the hazards, the item is at the first clear try. Otherwise it is at the fallback draw. |
| Placement.RelocationZonesMeaning | src/main.js:448-512 | The zone list rejects a point exactly when the point is inside the safe zone, a recyclable's 15-box or another hazard's 20-box, or is the hazard's origin. |
| Placement.RelocationSpots | src/main.js:482-512 | A position is kept if and only if it is in the pool and passes every exclusion. |
| Placement.OccupiedZones | src/main.js:448-470 | The two loops build a 15-box per recyclable, then a 20-box per other hazard in list order. |
| Placement.FilterRelocationSpots | src/main.js:480-512 | The filter loop computes exactly `RelocationSpots`. |
| Placement.FindNewHazardPosition | src/main.js:444-520 | The result is `None` exactly when no pool position is clear. Otherwise it is the drawn clear pool position. |
| Placement.RelocationMayKeepCurrentSpot | src/main.js:502-506 | A hazard that has moved off its origin may be relocated onto the spot it already occupies. |
| Rules.NewHazard | src/main.js:530-573 | The hazard starts at the spot, remembers it as its origin, and can relocate. It moves exactly when the spot is moving. Then vx is the drawn speed, negated when the direction draw says so, and the bounds are exactly max(20, x − range) to min(140, x + range) with start x. |
| Rules.Relocated | src/main.js:953-969 | The hazard moves to the point and keeps its origin. A moving hazard gets vx equal to the drawn speed, negated when the direction draw says so. Its bounds are exactly max(20, x − 25) to min(140, x + 25) with start x, at most 50 wide. A static hazard keeps its vx. |
| Rules.HazardCountRange | src/main.js:403-410 | The hazard-count draw starts at 2 on level 1, at 3 on level 2 and at 4 on later levels. |
| Rules.LevelScore | src/main.js:1087-1091 | With lives ≥ 0 and level ≥ 1, the total is at least the score plus 25. The 100-point bonus is included exactly when no hazard is left. |
| Rules.AfterHit | src/main.js:921-926 | Either the hazard becomes `Relocated` at a clear pool position, keeping its origin, while all others are unchanged, or it is spliced out. It is spliced out exactly when it cannot relocate or no pool position is clear. |

## Left out

- Rendering, sprite images, particle and visual effects, clouds, sounds, dialogs, the UI display, the camera and logging. These are host I/O with no effect on the engine's state.
- The host's physics integrator (gravity `ay = 400` and velocity integration) and its per-pixel `overlapsWith` test. Positions between ticks are whatever the host produced, and overlaps are a boolean input per platform.
- The left/right button handlers (`src/main.js:870-888`), which depend on the host's `isPressed` polling.
- The A-button registration inside `completeLevel` (`src/main.js:1112-1118`) replaces the jump handler from `src/main.js:891-899`. While a level is complete, A only acknowledges, and jumping returns when the next build's `createPlayer` registers the controls again (`src/main.js:141`). The model has `Acknowledge` for that press but does not stop `Jump` from being called while a level is complete.
- Each level build registers the collection, hazard and goal overlap callbacks again (`src/main.js:77-89`, reached from `src/main.js:1444`). The host keeps every registration, so from level 2 on one overlap may run a callback more than once. The model runs each callback once per overlap event.
- Engine.Game.constructor: the source's player starts as `null` (`src/main.js:14`), and the first level build creates it. The model has no null player; it starts at rest at the origin until `CreatePlayer` places it.
- Each level build creates a new player sprite without destroying the old one (`src/main.js:114`). The model has one player record, repositioned at each build.
- `checkWinCondition` (`src/main.js:1452-1463`), which nothing calls.
- The draw probabilities (60/70/80 % moving, 50 % direction) and the image-kind draw for recyclables. Draws are arbitrary values in their ranges.
- Floating-point rounding. Coordinates are exact reals.
- Placement.ItemX: `Math.randomRange` with whole-number bounds draws whole numbers, but the model's draw is any real fraction of the range. The placement facts hold for every such draw, so they hold for the whole-number ones.
- Engine.Game.Tick: the player's landing and bounds effects are stated by `CheckPlatformCollisions` and `CheckPlayerBounds`, not repeated in Tick's own contract.
- Engine.Game.Acknowledge: when it advances, it states the level step and the kept lives. The rest of the new state is `NextLevel`'s.
- Engine.Game.CreateRecyclables: it states each item's band and hazard clearance, not which try or the fallback produced it. `PlaceItem` states that per item.
- Engine.Game.GoalReached: the missing-items message is practically unreachable, because the goal sprite only exists once activated. The model keeps the branch as written.
