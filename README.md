# Frame-driven simulation core of a 2D action platformer

This project models, in Dafny, the per-frame simulation layer of a browser
platformer. The engine calls `update()` and `draw()` on every entity once per
frame, with a time delta (`clockTick`) and a `running` flag (the game is
paused when the flag is false). The model covers five parts of that layer.

- **Animator** (`animator.dfy`, module `Animation`). A sprite-strip state
  machine. Each draw adds the delta to the elapsed time while the game runs.
  Past one full pass it either wraps (looped) or clamps to the last frame (not
  looped). Otherwise it picks the frame by flooring `elapsed / frameDuration`,
  and it yields the source rectangle on the sheet and the destination
  rectangle on the canvas. The time step is the pure function `Step`.
  `Animator.DrawFrame` performs it in place and is proved to agree with it.
  Properties over many draws are stated about `Run`, which applies `Step`
  once per tick.
- **Flying enemy patrol** (`flying_enemy_base.dfy`, module `FlyingEnemies`).
  The path is converted from spawn-relative to absolute coordinates. A start
  loop chooses the first target. Each update re-targets a neighbouring node on
  arrival and moves the enemy toward the target. The random choice
  `Math.random() > 0.5` is a caller-supplied bit.
- **Rune drop** (`rune_drop.dfy`, module `RuneDrops`). A pickup worth a fixed
  amount by type. It is collected when its box touches the player's box, and
  it takes one explicit physics step per update: a magnet pull within 300
  units, gravity otherwise, movement by velocity times the delta, then a
  rebuilt bounding box.
- **Pause menu** (`pause_menu.dfy`, module `PauseMenus`). A tab strip laid
  out across a 750-wide menu. Paused clicks that fall strictly inside a tab
  select it. Drawing the menu decides whether the save manager listens for
  input.
- **Spawn point** (`spawnpoint.dfy`, module `Spawnpoints`). A six-frame
  looped animation and a timer that accumulates the delta.

Supporting modules:
- `geometry.dfy` (module `Geometry`): vectors, boxes, and the vector
  operations the model does not define, passed in as function values.
- `clock.dfy` (module `Clock`): the tick record and sums of deltas.
- `options.dfy` (module `Options`): an option type for values JavaScript
  leaves `undefined`.

Numbers are Dafny `real`s. The host's floating point is not modelled.

Where the code's comments and its behaviour disagree, the model follows the
code:
- The field comment at `js/classes/animator.js:34` calls `currentFrame` the
  frame being displayed, but the animator can show frame `frameCount`, one
  past the strip. This happens when the elapsed time equals `totalTime`
  exactly, because the wrap and clamp test is a strict `>`. `FrameAtRange`
  and `ClampedScenario` state it. `isDone` (`js/classes/animator.js:77-81`)
  holds from that same instant (`Animator.IsDone`).
- The draw at `js/classes/animator.js:46-62` only adds the delta while the
  game runs, yet a paused draw is not a pure no-op. If a looped animator's
  elapsed time exceeds `totalTime`, the draw still subtracts `totalTime`.
  This can happen after a delta larger than two passes, since one draw
  subtracts only one pass. `PausedKeepsTime` and `LoopWrapOnce` state it.
- The comment at `js/classes/entities/midground/enemies/flying_enemy_base.js:28`
  says the start loop picks the nearest path node, but it does not.
  `!this.target` is true for index 0 as well as for an unset target. The
  loop also compares a distance to a node against a distance to an index.
  The comparison is therefore the parameter `closer`. Whatever it answers, a
  path of two or more nodes never starts at node 0 (`StartIndex`). If it
  always answers false, the path starts at node 1 (`NeverCloserStartsAtOne`).
- The class comment at `js/classes/entities/background/spawnpoint.js:2` says
  the spawn point is removed after a few seconds. Its update only reads
  `removeFromWorld` and never sets it, so the spawn point is never removed by
  its own update (`RunFrames`).
- On a reversed strip, frame 0 reads the cell one past the strip.
  `ReversedMirrors` states this: reversed frame `f` shows forward frame
  `frameCount - f`.

## Model

| member | source | states |
|---|---|---|
| Animation.Animator.constructor | js/classes/animator.js:19-39 | A new animator is at time 0 on frame 0. `totalTime` is `frameCount * frameDuration`. A reversed strip is read from one strip-width to the right. Looped defaults to true and reversed to false. |
| Animation.Animator.DrawFrame | js/classes/animator.js:46-74 | The new elapsed time and frame are exactly `Step` of the old elapsed time and the tick. The source rectangle is the strip cell for the new frame. The destination is at `pos`, with the frame size scaled per axis. |
| Animation.Animator.IsDone | js/classes/animator.js:79-81 | The animation is done if and only if the floored frame has reached `frameCount`, that is, has run off the strip. |
| Animation.DoneIffPastStrip | js/classes/animator.js:59-81 | For any elapsed time, a full pass has been played if and only if the floored frame is at least `frameCount`. |
| Animation.StepWindsBackOnce | js/classes/animator.js:47-62 | A non-looped step never winds time back: the new time is the old one plus the running delta. A looped step winds back at most one pass, and a step that winds back shows frame 0. |
| Animation.PixelScaling | js/classes/animator.js:44-73 | One sheet pixel covers `scale.x` by `scale.y` canvas pixels: the destination is the source rectangle's size times the scale. A single-number scale `s` draws exactly as the vector `(s, s)`. |
| Animation.PausedKeepsTime | js/classes/animator.js:47-58 | A paused draw keeps the elapsed time if and only if no looped wrap is pending. |
| Animation.PausedDrawIdempotent | js/classes/animator.js:47-62 | Within one pass, a paused draw keeps the time, and a second paused draw shows the same playhead. |
| Animation.RunningAddsTick | js/classes/animator.js:47-55 | A running draw adds the whole delta and subtracts one pass only when a looped animation overshoots. |
| Animation.LoopWrapOnce | js/classes/animator.js:51-55 | A looped overshoot gives elapsed minus `totalTime`, on frame 0. A delta of more than two passes still leaves the time past `totalTime`. |
| Animation.FrameAtRange | js/classes/animator.js:59-62 | Within a pass the floored frame lies in `0 .. frameCount`. It equals `frameCount` exactly when the elapsed time equals `totalTime`. |
| Animation.StepFrameRange | js/classes/animator.js:47-62 | With non-negative time and delta, a draw yields a frame in `0 .. frameCount` and a non-negative time. |
| Animation.LoopedDoneOnlyAtBoundary | js/classes/animator.js:47-81 | For a looped animation within a pass and with a delta of at most a pass, the time stays within `[0, totalTime]`. `isDone` then holds only at `totalTime` exactly. |
| Animation.ElapsedNeverNegative | js/classes/animator.js:47-55 | Over any run of non-negative deltas, the elapsed time never becomes negative. |
| Animation.TimeConserved | js/classes/animator.js:47-55 | After any run, the elapsed time is the start plus the running deltas minus the total wound off by wraps. |
| Animation.UnwoundWholePasses | js/classes/animator.js:51-55 | The time wound off is a whole number of passes: the number of wraps times `totalTime`. |
| Animation.LoopedTimeBounded | js/classes/animator.js:47-62 | A looped animation driven by deltas of at most one pass stays within `[0, totalTime]` forever. |
| Animation.ClampForever | js/classes/animator.js:51-81 | Once a non-looped animation is past its pass, time never decreases, `isDone` holds from then on, and every draw shows the last frame. |
| Animation.SheetOrigin | js/classes/animator.js:23 | Reversing a strip never moves it off its row. |
| Animation.ReversedOrigin | js/classes/animator.js:23-70 | A reversed strip is read from the right edge of the forward strip's last cell. A forward strip is read from `start`. |
| Animation.ReversedMirrors | js/classes/animator.js:23-70 | Reversed frame `f` reads the same cell as forward frame `frameCount - f`. |
| Animation.SourceRect | js/classes/animator.js:69-71 | Every source rectangle lies on the strip's row and has the frame size. |
| Animation.AdjacentFrames | js/classes/animator.js:69-71 | Consecutive frames are one frame width apart: to the right on a forward strip, to the left on a reversed one. |
| Animation.LoopedScenario | js/classes/animator.js:46-62 | Six frames of 0.5 s each, with two running ticks of 1.6 s, end at time 0.2 on frame 0. |
| Animation.ClampedScenario | js/classes/animator.js:46-81 | Not looped, with one-second ticks: at exactly 3 s the frame is 6. At 4 s the frame is clamped to 5 and the animation is done. |
| Animation.PausedScenario | js/classes/animator.js:46-62 | A paused tick in mid-pass leaves the playhead unchanged. |
| FlyingEnemies.RelativeToAbsolute | js/classes/entities/midground/enemies/flying_enemy_base.js:60-62 | The absolute path has the same length, and each node is the relative node plus the spawn position. |
| FlyingEnemies.AbsoluteToRelative | js/classes/entities/midground/enemies/flying_enemy_base.js:60-62 | The inverse map: each node minus the spawn position. |
| FlyingEnemies.RelativeRoundTrip | js/classes/entities/midground/enemies/flying_enemy_base.js:60-62 | Converting to absolute coordinates and back gives the original path. |
| FlyingEnemies.PresetShapes | js/classes/entities/midground/enemies/flying_enemy_base.js:113-150 | Every path preset has at least two nodes and begins at the spawn point. The circle preset equals the zig-zag preset. The big jump peaks at -600 via -150. |
| FlyingEnemies.Scan | js/classes/entities/midground/enemies/flying_enemy_base.js:29-35 | After looking at `k` nodes, the target is unset if and only if `k` is 0, and otherwise it is one of the nodes looked at. |
| FlyingEnemies.StartIndex | js/classes/entities/midground/enemies/flying_enemy_base.js:29-35 | The start loop gives `Scan`. The target is unset exactly for an empty path. A one-node path starts at 0, and a longer path at an index in `1 .. n-1`. |
| FlyingEnemies.NeverCloserStartsAtOne | js/classes/entities/midground/enemies/flying_enemy_base.js:29-35 | When the loop's comparison never succeeds, every path of two or more nodes starts at node 1. |
| FlyingEnemies.Retarget | js/classes/entities/midground/enemies/flying_enemy_base.js:89-102 | The new target stays on the path. It differs from the old one if and only if the enemy arrived on a path of two or more nodes. An interior node steps back on a set coin and forward otherwise. The last node steps back and the first steps forward. |
| FlyingEnemies.Patrol | js/classes/entities/midground/enemies/flying_enemy_base.js:83-107 | Over any series of updates the target never leaves the path. On a one-node path it never changes. |
| FlyingEnemies.FlyingEnemyBase.constructor | js/classes/entities/midground/enemies/flying_enemy_base.js:20-35 | The path is stored in absolute coordinates, and the target is the start loop's result. |
| FlyingEnemies.FlyingEnemyBase.GetDirection | js/classes/entities/midground/enemies/flying_enemy_base.js:69-71 | The result is 1 if and only if the target lies strictly right of the centre, and -1 otherwise. |
| FlyingEnemies.FlyingEnemyBase.Update | js/classes/entities/midground/enemies/flying_enemy_base.js:83-107 | A dead enemy changes nothing. Otherwise the target is re-targeted when within half the enemy's width. The enemy then moves by the unit vector toward the new target, times `speed * clockTick`. The target stays on the path. |
| RuneDrops.ValueOf | js/classes/entities/midground/drops/rune_drop.js:135-144 | A type has a value if and only if it is one of the six rune types, and every value is positive. |
| RuneDrops.RuneValues | js/classes/entities/midground/drops/rune_drop.js:98-144 | The values are purple 1, white 2, green 5, gray 10, red 20 and yellow 50. Value strictly increases with the type number. |
| RuneDrops.ScaledSize | js/classes/entities/midground/drops/rune_drop.js:122-128 | The on-screen size is 36 times 1.5, which is 54 by 54. |
| RuneDrops.Accelerate | js/classes/entities/midground/drops/rune_drop.js:53-63 | Within 300 units, the velocity gains the direction times `distance / 10`. Otherwise it gains `gravityAcc * clockTick` downward only. |
| RuneDrops.PullIgnoresTick | js/classes/entities/midground/drops/rune_drop.js:55-58 | The magnet pull is the same whatever the delta. |
| RuneDrops.Move | js/classes/entities/midground/drops/rune_drop.js:66-71 | The position advances by velocity times delta. The box is rebuilt at the new position, and the previous box becomes the last box. |
| RuneDrops.FreeFall | js/classes/entities/midground/drops/rune_drop.js:61-71 | After `n` equal steps out of magnet range, the vertical velocity has gained `n * g * dt` and the horizontal velocity is unchanged. The position follows the Euler sum `n dt v + g dt^2 n(n+1)/2`. `Fall` applies no terrain correction, so this is free fall in open air. |
| RuneDrops.RuneDrop.constructor | js/classes/entities/midground/drops/rune_drop.js:12-32 | The velocity is zero and the amount comes from the value table. An optional pop sets `yVelocity` to -300. The drop has scale 1.5, size 54, the centre at the half size and equal current and last boxes. The animation has 8 frames of 0.15 s from the sheet cell `(36, type * 36)`. |
| RuneDrops.RuneDrop.Draw | js/classes/entities/midground/drops/rune_drop.js:80-81 | The animation advances exactly by `Step` and is drawn at the canvas position, scaled by 1.5. |
| RuneDrops.RuneDrop.Collect | js/classes/entities/midground/drops/rune_drop.js:34-44 | The drop is marked for removal, and its amount is credited. |
| RuneDrops.RuneDrop.Update | js/classes/entities/midground/drops/rune_drop.js:46-77 | The drop is collected if and only if its pre-step box touches the player's box, and then it is removed and its amount credited. Without gravity, nothing else changes. With gravity, the new motion is the terrain correction of `Move` with the `Accelerate`d velocity, using the distance from the construction centre. |
| PauseMenus.Start | js/classes/entities/ui_ground/pause_menu.js:19-24 | The menu is centred horizontally on the camera, and its top is 75 below one sixth of the camera height. |
| PauseMenus.Layout | js/classes/entities/ui_ground/pause_menu.js:62-77 | The strip has one tab per name, in order: tab `i` has index `i` and the `i`-th name. |
| PauseMenus.LayoutTab | js/classes/entities/ui_ground/pause_menu.js:62-76 | Tab `i` keeps its name and has index `i`. Its width is `750 / n - 10`, it starts at `start.x + (w + 10) * i`, it is 100 above the start and it is 75 high. |
| PauseMenus.TabGap | js/classes/entities/ui_ground/pause_menu.js:65-76 | Neighbouring tabs share their row and height and are separated by a gap of exactly 10. |
| PauseMenus.LayoutDisjoint | js/classes/entities/ui_ground/pause_menu.js:62-87 | No point lies strictly inside two different tabs of a strip. |
| PauseMenus.LastHit | js/classes/entities/ui_ground/pause_menu.js:79-95 | The tab a click selects is strictly under the mouse, and no later tab is. There is no selection if and only if the mouse is inside no tab. |
| PauseMenus.ClickSelects | js/classes/entities/ui_ground/pause_menu.js:79-95 | On a laid-out strip, a click selects tab `i` if and only if the mouse is strictly inside tab `i`. |
| PauseMenus.PauseMenuTabs.constructor | js/classes/entities/ui_ground/pause_menu.js:62-101 | The loop builds exactly the layout, and tab 0 is active. |
| PauseMenus.PauseMenuTabs.ActiveTab | js/classes/entities/ui_ground/pause_menu.js:103-105 | On a non-empty strip, the result is the name of the tab whose index is the active one. |
| PauseMenus.PauseMenuTabs.Click | js/classes/entities/ui_ground/pause_menu.js:79-95 | While the game runs, the active tab is kept. While it is paused, the tab under the mouse becomes active, if there is one. The active tab stays on the strip. |
| PauseMenus.ListenFor | js/classes/entities/ui_ground/pause_menu.js:48-57 | The controls tab turns listening off and the save tab turns it on. Any other name leaves listening as it is. |
| PauseMenus.PauseMenu.constructor | js/classes/entities/ui_ground/pause_menu.js:2-5 | The menu has the two tabs, controls and save, laid out from the camera-centred start, with controls active. |
| PauseMenus.PauseMenu.ActiveTab | js/classes/entities/ui_ground/pause_menu.js:39-41 | The menu's active tab is always controls or save, and it is save if and only if tab 1 is active. |
| PauseMenus.PauseMenu.Draw | js/classes/entities/ui_ground/pause_menu.js:45-58 | Drawing makes the listening decision of the active tab, and it always makes one. |
| PauseMenus.MenuListening | js/classes/entities/ui_ground/pause_menu.js:45-58 | On the menu's strip, tab 0 turns listening off and tab 1 turns it on. |
| PauseMenus.MenuClicksKeepDecision | js/classes/entities/ui_ground/pause_menu.js:79-105 | After any series of paused clicks, one of the two tabs is active, and drawing turns listening on exactly on the save tab. |
| Spawnpoints.Spawnpoint.constructor | js/classes/entities/background/spawnpoint.js:10-26 | The animator is looped and not reversed, with 6 frames of 0.5 s, a 3 s pass, 16-pixel frames and the sheet origin. The timer is 0. |
| Spawnpoints.Spawnpoint.Update | js/classes/entities/background/spawnpoint.js:40-48 | The timer gains the delta. The removal flag and the animator are unchanged. |
| Spawnpoints.Spawnpoint.Draw | js/classes/entities/background/spawnpoint.js:50-53 | The animator advances exactly by `Step` and is drawn at the spawn point, scaled by 2. |
| Spawnpoints.RunFrames | js/classes/entities/background/spawnpoint.js:40-48 | After one update per delta, the timer is its start plus the sum of the deltas. With non-negative deltas it is never below the start, and the removal flag is never set. |
| Clock.SumMonotone | js/classes/entities/background/spawnpoint.js:41 | With non-negative deltas, every prefix of a sequence of deltas sums to a value between 0 and the whole sum. `RunFrames` applies this to the spawn point's timer. |

## Left out

- Canvas drawing, asset lookup, sound effects and particle effects are left out because they are output only. They cover `drawImage`, `playSFX`, the particle effects added by the rune drop and the spawn point, the rune drop's value label, the tab strip's `draw` and the controls menu. The draws return the rectangles they would paint instead.
- `console.log` in the rune drop's update is left out because it is output only.
- The click listeners' registration on the page and in `HUD.componentListeners` is left out. The model takes the clicks as a sequence, and all listeners see each click in registration order.
- `Vector`, `BoundingBox`, `EnemyBase`, `checkBlockCollisions` and the globals `CHAD`, `GAME`, `INVENTORY`, `SAVE_MGR`, `PHYSICS` and `Camera` are not part of this model. Distance, unit vector, direction and box overlap are function values in `Geometry.Oracles`, and the terrain correction is `RuneDrops.Physics.terrain`. The delta, the running flag, the gravity constant, the camera size and the player's box, centre and position are parameters.
- Properties of the vector operations and of the box collision test, such as symmetry, are left out because the operations are parameters.
- `Math.random` is left out as a random source. Each update takes one bit instead, where a set bit means `Math.random() > 0.5`.
- Floating point is not modelled: `real` is exact, and `Math.floor` is `.Floor`.
- Animation.Animator.constructor: requires `frameCount > 0` and `frameDuration > 0`. The source accepts any values, and JavaScript then computes `Infinity` or `NaN` frames, which real numbers cannot represent.
- PauseMenus.PauseMenuTabs.ActiveTab: requires a non-empty strip. On an empty strip the source reads `.name` of `undefined` and throws a `TypeError`, which the model does not represent.
- FlyingEnemies.FlyingEnemyBase.constructor: requires a non-empty path. An empty path leaves the target unset, and the first update then indexes the path with `undefined`. `StartIndex` models the empty case itself.
- FlyingEnemies.FlyingEnemyBase.Update: does not cover `base.updateBoundingBox()`, which belongs to `EnemyBase`.
- `FlyingEnemyBase.chadDistance`, `flee`, and the installation of `getDirection` and `takeDamage` on the enemy object are left out. They use or install `EnemyBase` and `CHAD` members that are not part of this model, and `flee` does nothing.
- The start loop's distance comparison is left out as a computation. It compares against `this.target`, which is an index, so it is the parameter `closer`.
- RuneDrops.RuneDrop.Update: measures the magnet distance from the centre fixed at construction, as the source does (the centre is never recomputed). The player's `getCenter()` is taken as a value.
- `INVENTORY.collectRunes` is left out as a call. `Collect` and `Update` return the amount credited instead.
- The `SAVE_MGR.listen` call is left out. `PauseMenu.Draw` returns the listening decision: `Some(false)` for off, `Some(true)` for on, and `None` for no call.
- PauseMenus.ListenFor: the save tab calls `SAVE_MGR.listen()` with no argument, and the model takes that as "listen on". The save manager's `listen` is not part of this model, so its default argument is assumed rather than read.
- The spawn point's and the rune drop's `removeFromWorld` start as `undefined` in the source. Both are `false` in the model, since only whether the flag is falsy is ever observed.
- Spawnpoints.RunFrames stands for the engine's frame loop, which is not part of this model. It adds no behaviour beyond repeated `Update` calls.
