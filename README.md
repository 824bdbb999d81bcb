# Busink Jump: the Game scene's frame step in Dafny

This project models the gameplay core of Busink Jump, an endless vertical
climber built on Phaser. The core is the `Game` scene, written twice in the
repository: `src/scenes/game.ts` and a near-identical `src/scenes/game.js`.
One `update()` call does the following, in order:

1. **Platform recycler.** Each of the 5 platforms at or below `scrollY + 640`
   moves to `scrollY - r` with `r` in [80, 120] and to a new x in [40, 440].
   Then a carrot spawns on top of the platform's new position.
2. **Cloud recycler.** Each of the 3 clouds at or below `scrollY + 800` moves
   to `scrollY - r` with `r` in [20, 60]. Its x does not change.
3. **Player controller.** Ground contact forces `vy = -600` and the jump
   texture. A falling player (`vy > 0`) shows the stand texture. Left and right
   set `vx` to -200 or +200 only while airborne; otherwise `vx` is 0.
4. **Horizontal wrap.** A player who leaves the band `[-hw, 480 + hw]` is
   moved to the opposite edge of the band.
5. **Loss detector.** The run ends when the player is more than 200 below the
   bottom-most platform. The current score text is then stored as the final
   score.

Collecting a carrot deactivates it, adds one to the counter and rewrites the
text as `Carrots: N`. The scene starts with the counter at 0 and the text
`Carrot: 0`.

Layout:

- `score_text.dfy` (modules `Options`, `ScoreText`): decimal rendering of the
  counter, the two labels, and a parser proved to invert them.
- `pools.dfy` (`Pools`): positions, the carrot pool and spawning into it.
- `recycler.dfy` (`Recycler`): one platform pass and one cloud pass as
  functions, with lemmas about the carrots they spawn.
- `controller.dfy` (`Controller`): velocity and texture selection, and the
  wrap.
- `loss_detector.dfy` (`LossDetector`): the largest y; the two
  `findBottomMostPlatform` loops (first maximum for TypeScript, last maximum
  for JavaScript); the loss predicate.
- `frame.dfy` (`Frame`): the scene state as a value. It defines what one
  `update()` does (`Step`) and what one collection does (`Collect`), and holds
  the lemmas about both.
- `game_scene.dfy` (`GameScene`): class `Game`. It has fixed arrays of
  platforms and clouds that are updated in place, plus the carrot pool, the
  player, the counter, the text and the final-score slot. Each method is
  proved to follow the matching value-level definition, and `Valid()` holds
  the scene's invariant.

Inputs that the game gets from Phaser are parameters here:

- camera `scrollY`;
- the player's body after physics (`x`, `y`, `vy`, `touching.down`);
- the left and right key states;
- the `Phaser.Math.Between` draws, as integers under range preconditions;
- the player's `displayWidth * 0.5` and a platform's `displayHeight`.

Positions and velocities are `real`.

Facts about the code that the model follows:

- The scene reads only the keyboard cursors (src/scenes/game.ts:34, 139-141).
- Both wrap tests are strict (`x < -hw`, `x > W + hw`), so the band
  `[-hw, W + hw]` is closed at both ends (src/scenes/game.ts:161-165).
- `src/scenes/game.js` breaks ties in `findBottomMostPlatform` toward the last
  platform (src/scenes/game.js:261-266); `src/scenes/game.ts` keeps the first
  (src/scenes/game.ts:204).
- `carrots.get` allocates a new carrot when no member is free, so a spawn is
  never skipped (src/scenes/game.ts:170).
- `init()` and `create()` do not touch the registry, so its `final-score`
  entry keeps whatever an earlier run stored until this run ends
  (src/scenes/game.ts:18-20, 151).

## Model

| member | source | states |
|---|---|---|
| `ScoreText.DecimalRoundTrip` | src/scenes/game.ts:195 | the decimal text written for the counter parses back to the counter |
| `ScoreText.ScoreLabel` | src/scenes/game.ts:91 | the text is "Carrot: 0" while the counter is 0; afterwards it is "Carrots: " followed by digits that read back as the counter (game.ts:195) |
| `ScoreText.ScoreLabelRoundTrip` | src/scenes/game.ts:185-196 | the score text, whether the initial "Carrot: 0" or a rewritten "Carrots: N", determines the counter |
| `ScoreText.ScoreLabelInjective` | src/scenes/game.ts:151 | different counters give different texts, so the stored final score tells the counts apart |
| `Pools.FirstInactive` | src/scenes/game.ts:170 | the pool slot that `carrots.get` reuses is inactive, and every slot before it is live |
| `Pools.Spawn` | src/scenes/game.ts:168-183 | a spawn adds exactly one live carrot and keeps every live carrot; the pool grows only when all its members are live. Exactly one slot changes, the first inactive slot or a new one at the end, and it holds the live carrot at (x, y) |
| `Recycler.RecyclePlatform` | src/scenes/game.ts:105-107 | a platform at or below `scrollY + 640` moves to (x, `scrollY - r`) with the drawn r in [80,120] and x in [40,440]; any other platform is unchanged; afterwards it is above the threshold |
| `Recycler.PlatformPass` | src/scenes/game.ts:101-113 | keeps the pool size; a platform changes iff it was at or below `scrollY + 640`, and then lands in the recycle ranges; afterwards every platform is above the threshold (same in game.js:119-133) |
| `Recycler.SpawnPrefix` | src/scenes/game.ts:105-110 | after the loop has visited k platforms, every carrot that was live is still in its slot, and the pool has grown by at most k |
| `Recycler.SpawnPass` | src/scenes/game.ts:101-113 | after the whole platform loop, the live count has grown by exactly the number of recycled platforms, the pool by at most that number, and every carrot that was live is still in its slot |
| `Recycler.SpawnPrefixCounts` | src/scenes/game.ts:105-110 | the platform loop makes exactly one carrot live per recycled platform, and grows the pool by at most one carrot per recycle |
| `Recycler.SpawnPrefixSlots` | src/scenes/game.ts:105-110 | after the loop has visited k platforms, each recycled one among them has its own slot: not live before the loop, now holding a live carrot at (new x, new y − displayHeight), and different from every other recycled platform's slot (game.ts:168-172) |
| `Recycler.CloudPass` | src/scenes/game.ts:115-123 | keeps the pool size and every cloud's x; a cloud changes iff it was at or below `scrollY + 800`, and then lands at `scrollY - r` with r in [20,60]; afterwards every cloud is above the threshold (same in game.js:136-146) |
| `Controller.Controlled` | src/scenes/game.ts:125-145 | a grounded frame ends with `vy = -600` and the jump texture. The texture is stand iff the player is airborne and either falls (`vy > 0`) or already showed stand. `vx` is ±200 or 0: negative iff left is held while airborne, positive iff right is held without left while airborne (same in game.js:148-178) |
| `Controller.Wrap` | src/scenes/game.ts:157-166 | the result lies in `[-hw, W + hw]`; x inside the band is unchanged; x left of it goes to `W + hw`; x right of it goes to `-hw` (same in game.js:196-208) |
| `Controller.WrapIdempotent` | src/scenes/game.ts:161-165 | wrapping an already wrapped x changes nothing |
| `LossDetector.MaxY` | src/scenes/game.ts:198-210 | the bottom-most y is at least every platform's y and is some platform's y |
| `LossDetector.FindBottomMostPlatform` | src/scenes/game.ts:198-210 | returns an index with the largest y and no earlier index with that y (strict `>` keeps the first maximum) |
| `LossDetector.FindBottomMostPlatformLastMax` | src/scenes/game.js:252-270 | returns an index with the largest y and no later index with that y (skipping only on strict `<` keeps the last maximum) |
| `LossDetector.TieBreaksAgreeOnY` | src/scenes/game.js:261-266 | both tie-breaks select the largest y; the first-maximum index is at most the last-maximum index, and the two are equal iff the maximum is unique |
| `LossDetector.TieBreaksDiffer` | src/scenes/game.ts:204 | with two platforms tied at the bottom, the TypeScript scene keeps the earlier one and the JavaScript scene keeps the later one |
| `LossDetector.LossBoundary` | src/scenes/game.ts:150 | with platforms at 10, 90, 150, 230, 10, the bottom is 230; a player at 430 has not lost and a player at 431 has |
| `Frame.Step` | src/scenes/game.ts:100-155 | one frame keeps both pool sizes. Afterwards no platform or cloud is at or below its threshold, and the live carrots grow by the number of recycled platforms. The counter and text do not change, and the player's x is in the wrap band. The run ends iff it had ended or the player is more than 200 below every post-recycle platform; a new loss records the current text |
| `Frame.Advance` | src/scenes/game.ts:101-147 | the steps before the loss check keep the pool sizes, the counter, the text and the final-score slot |
| `Frame.CheckLoss` | src/scenes/game.ts:149-154 | when the player is more than 200 below every platform, the run ends and the current text becomes the final score; otherwise nothing changes |
| `Frame.StepConsistent` | src/scenes/game.ts:149-154 | a frame keeps the scene invariant: fixed pool sizes, the text shows the counter, and once the run has ended, the final score is a score text showing a count no larger than the current one |
| `Frame.StepSpawnsOnRecycled` | src/scenes/game.ts:105-110 | each platform recycled in a frame has its own carrot at the end of the frame, at its new x and its new y minus the platform height. That carrot's slot was not live before the frame, and no other recycled platform uses it |
| `Frame.Collect` | src/scenes/game.ts:185-196 | a collection deactivates exactly that carrot and leaves the other carrots as they were. The live count drops by one if the carrot was live. The counter goes up by exactly one and the new text is the score label of the new counter, which parses back to it. Nothing else changes (same in game.js:237-250) |
| `Frame.OverlapIdempotent` | src/scenes/game.ts:76-82 | with the overlap reported only for live carrots, a second overlap with a collected carrot changes nothing, and one overlap adds one point only for a live carrot |
| `Frame.CollectIgnoresActive` | src/scenes/game.ts:189-193 | the handler does not look at the active flag: two calls for the same carrot add two points |
| `Frame.CollectConsistent` | src/scenes/game.ts:193-195 | a collection keeps the scene invariant |
| `Frame.InitialWorld` | src/scenes/game.ts:37-98 | after create() the counter is 0, the text is "Carrot: 0" and no carrot is live. Platform i is at (its drawn x, 150·i) and cloud i at (its drawn x, 250·i). The player is at rest at (240, 320) with the stand texture, which is not a loss. The registry's final-score entry is the one passed in, unchanged |
| `Frame.Run` | src/scenes/game.ts:100-113 | any number of frames keep the platform and cloud pool sizes |
| `Frame.GroundedRunBounces` | src/scenes/game.ts:128-145 | frames with ground contact and no key held leave the score unchanged, and each one ends with `vy = -600`, the jump texture and `vx = 0` |
| `GameScene.Game.constructor` | src/scenes/game.ts:18-20 | init() and create() produce a valid scene equal to the initial state: the counter is reset to 0, and the registry entry passed in is kept (same in game.js:36-39) |
| `GameScene.Game.AddCarrotAbove` | src/scenes/game.ts:168-183 | the carrot pool becomes a spawn at (sprite x, sprite y − displayHeight) |
| `GameScene.Game.RecyclePlatformAt` | src/scenes/game.ts:105-111 | one visit moves the platform as the recycle function says and leaves every other platform alone; the carrot pool becomes a spawn on top of the moved platform when it was recycled, and is otherwise unchanged |
| `GameScene.Game.RecyclePlatforms` | src/scenes/game.ts:101-113 | the in-place loop over the platform array leaves the array equal to the platform pass, and the carrot pool equal to its spawns |
| `GameScene.Game.RecycleClouds` | src/scenes/game.ts:115-123 | the in-place loop over the cloud array leaves it equal to the cloud pass |
| `GameScene.Game.ControlPlayer` | src/scenes/game.ts:125-145 | the sequence of velocity and texture setters leaves the player as the controller function says |
| `GameScene.Game.HorizontalWrap` | src/scenes/game.ts:147 | only the player's x changes, to its wrapped value |
| `GameScene.Game.AdvanceFrame` | src/scenes/game.ts:100-147 | the scene's state becomes the frame's pre-loss state and stays valid |
| `GameScene.Game.DetectLoss` | src/scenes/game.ts:149-154 | given any bottom-most index, the loss check stores the current text and signals the end exactly when the player is more than 200 below the largest y |
| `GameScene.Game.Update` | src/scenes/game.ts:100-155 | a TypeScript frame (first-maximum tie-break) leaves the scene equal to `Step` of its old state and keeps it valid |
| `GameScene.Game.UpdateJs` | src/scenes/game.js:117-191 | a JavaScript frame (last-maximum tie-break) leaves the scene equal to the same `Step`, so the two scenes are indistinguishable frame by frame |
| `GameScene.Game.HandleCollectCarrot` | src/scenes/game.ts:185-196 | the callback leaves the scene equal to `Collect` of its old state and keeps it valid |

## Left out

- Asset loading, the background image, text style, depth, origin and scroll factors: rendering only.
- Audio: the jump and collect sounds and the background music's play and stop. No sound is recorded.
- The Arcade physics engine: gravity, integration, the colliders between platforms, the player and carrots, the `checkCollision` flags, and the overlap dispatch. The engine's result enters each frame as the player's `Body`. Which carrot overlaps is the argument of the collection. Carrots are not moved after they spawn (in the game they fall onto platforms under gravity).
- Static body refresh (`updateFromGameObject`), `body.setSize`, `physics.world.enable`, `disableBody`, `add.existing` and `setVisible`: engine and display bookkeeping. A carrot's `active` flag stands for all of them.
- `Pools.FirstInactive`: `Group.get` belongs to Phaser, which is not part of this model. The model reuses the first inactive carrot, or appends one when all are live. Only the properties of `Pools.Spawn` matter elsewhere.
- Camera follow and dead-zone: `scrollY` is an input of each frame.
- Randomness: each pool member has its own pre-drawn offset (and x, for platforms). A draw is used only when that member recycles. The draws are independent and uniform, so the order of consumption does not matter.
- Pointer and touch input: the code reads only the keyboard cursors.
- The scene switch: `ended` records that the game-over scene was started. The model does not stop further `Update` calls, which the scene manager does.
- `src/scenes/gameover.ts`, `src/scenes/gameover.js`, `src/main.ts` and `src/main.js`: the game-over display, and engine configuration apart from the width 480 used by the wrap.
- Floating point: positions and velocities are exact reals, with no rounding.
- `ScoreText.Decimal`: renders every counter in plain decimal. JavaScript switches to exponent notation from 10^21 upward, which no run reaches.
