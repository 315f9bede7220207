# Flappy-bird scene, modelled in Dafny

This project models the game simulation of a small browser "Flappy Bird" game, the
`MainScene` of `game/MainScene.ts`. A bird falls and jumps between rows of
scrolling pipes. Each row scores a point. Collecting a logo token either pauses
the game so the host page can unlock an answer, or, once all three answers are
unlocked, adds 10 points. The scene reports to its host with three events:
`SCORE_UPDATE(score)`, `UNLOCK_ANSWER` and `GAME_OVER`.

Modules (one file each):

- `Wrappers` defines `Option`. `Events` defines the emitted events as `GameEvent`.
- `Randomness` covers the scene's random draws. `Math.random()` becomes a parameter
  `r` with `0 <= r < 1`. `IsDraw` gives exactly the integers `Math.floor(r * span)`
  can produce, for every `span`, including the empty and negative spans of a
  small canvas. `Between` is `Phaser.Math.Between`.
- `Sprites` holds the arcade sprites of the `pipes` and `logos` groups and the
  settings `addOnePipe` and `spawnLogo` give them.
- `PipeRow` is the pure layout of one pipe row: segment count, hole draw, which
  indices get a pipe, caps, flips and depths. It carries the lemmas about a
  row's shape.
- `Culling` is the off-screen culling of `update`. The source calls
  `getChildren().forEach` over the group's live array while `destroy` splices
  children out of it. The model keeps that behaviour: the child right after a
  destroyed one is not examined in that frame.
- `Assets` is `getBaseUrl`, with the URL path passed in. `Tilt` picks the bird's
  tilt target from the sign of its velocity.
- `Scene` is the class `MainScene`. Its fields are the ones the source mutates.
  `Valid()` is its invariant: pipes and logos keep their settings, and the timers
  are paused only while the game is stopped. Emitted events are appended to the
  field `events`.
- `Scenarios` holds runs driven the way the engine and host drive the scene.

The engine's part is played by the caller. It calls `Create` on scene start,
`Update` each frame, `AddRowOfPipes` and `SpawnLogo` when the timers fire,
`HitPipe` on a pipe collision and `CollectLogo(k)` when the bird overlaps logo
`k`. `MainScene.EngineStep` stands in for the physics step: it sets the bird's
position and velocity and the sprites' horizontal positions. It models no code of
the scene.

Behaviour of the code that the model keeps as written:

- The logo timer's delay is drawn once per scene start (`create`), not once per spawn: every logo of one game comes at the same interval.
- `resumeGame` has no state guard: after a game over it also sets running, unpauses the timers and kicks the bird.
- `collectLogo` and `hitPipe` have no running guard.
- The pipe timer is not paused by `hitPipe`. Rows stop only because `addRowOfPipes` checks the running flag.
- In the frame where `update` ends the game at the canvas boundary, culling still runs.

Host wiring: `App.tsx` never passes `unlockedCount` to `GameCanvas`. The only call
to `setUnlockedCount` (components/GameCanvas.tsx:63-70) runs when that effect fires,
which is then only at mount, and only if the scene is found at that moment. So the
scene either receives `undefined`, or receives nothing and keeps its initial 0.
`setUnlockedCount` therefore takes an `Option<int>`, with `None` standing for
`undefined`; the constructor starts at `Some(0)`. Both `undefined >= 3` and `0 >= 3`
are false, so in either case every logo takes the unlock path
(`Scenarios.UndefinedCountExample`).

## Model

| member | source | states |
|---|---|---|
| `Assets.GetBaseUrl` | game/MainScene.ts:5-11 | the base is `/flappy-bird/` exactly when the path starts with `/flappy-bird`, else `/`; it begins and ends with `/`, and without its trailing slash it is a prefix of the path |
| `Tilt.TiltTarget` | game/MainScene.ts:93-107 | no tween when the velocity is 0; otherwise a target of magnitude 20 whose sign is the velocity's (nose-up while rising) |
| `Randomness.Scaled` | game/MainScene.ts:139 | `floor(r * span)` for `r` in [0,1) lies in `[0, span)` when the span is positive and in `[span, 0]` otherwise |
| `Randomness.DrawReachable` | game/MainScene.ts:139 | every integer admitted by `IsDraw` is produced by some `r` in [0,1), so the draw range is exact |
| `Randomness.Between` | game/MainScene.ts:186 | `Phaser.Math.Between(min, max)` lies in `[min, max]` when `min <= max` |
| `PipeRow.SegmentCount` | game/MainScene.ts:135 | the count is the ceiling of `h / 60`: `n * 60 >= h` and `(n - 1) * 60 < h` |
| `PipeRow.ChooseHole` | game/MainScene.ts:137-139 | with at least 5 segments the hole start lies in `[1, total - 4]`; with fewer, in `[total - 3, 1]` |
| `PipeRow.RoomForHole` | game/MainScene.ts:135-139 | there are at least 5 segments exactly when `h > 240` |
| `PipeRow.IndicesMembers` | game/MainScene.ts:141-142 | an index gets a pipe iff it lies in `[0, total)` and is not `hole`, `hole + 1` or `hole + 2` |
| `PipeRow.IndicesIncreasing` | game/MainScene.ts:141 | pipes are created in strictly increasing index order |
| `PipeRow.IndicesCount` | game/MainScene.ts:141-142 | with the hole inside the canvas, exactly `total - 3` pipes are created |
| `PipeRow.RowAt` | game/MainScene.ts:141-163 | the `j`-th pipe created is the segment sprite of the `j`-th placed index |
| `PipeRow.RowCaps` | game/MainScene.ts:149-159 | a row holds one cap for each of `hole - 1` and `hole + 3` that is in range |
| `PipeRow.RowShape` | game/MainScene.ts:141-179 | a full row has `total - 3` pipes outside the hole in increasing order, each at `x = width`, `y = i * 60 + 30`, scrolling at -200 without gravity; exactly two caps, at `hole - 1` and `hole + 3`; flipped iff below the hole; raised depth only on the bottom cap |
| `PipeRow.Example600` | game/MainScene.ts:135-163 | a 600-high canvas with hole 3 gives pipes at 0, 1, cap 2, cap 6, and 7 to 9, the last four flipped |
| `Sprites.MakePipe` | game/MainScene.ts:169-179 | a pipe sprite sits at the given place with the given texture and flip, scrolls at -200, is immovable with no gravity, and its depth becomes `y + 1000` iff it is a flipped cap, otherwise stays 0 |
| `Sprites.MakeLogo` | game/MainScene.ts:188-191 | a logo sprite sits at the given place, scrolls at -250, is immovable and has no gravity |
| `Culling.DestroyOffScreen` | game/MainScene.ts:113-118 | the `forEach`-with-`destroy` loop over the live child array leaves exactly `Cull(children)` |
| `Culling.CullIsSubsequence` | game/MainScene.ts:113-118 | culling only leaves children out: the survivors keep their order and all their fields |
| `Culling.CullKeepsVisible` | game/MainScene.ts:113-118 | every child with `x >= -50` survives, so only off-screen children are destroyed |
| `Culling.CullFixpoint` | game/MainScene.ts:113-118 | a pass never grows a group, and leaves it unchanged iff no child is off-screen |
| `Culling.CullMembers` | game/MainScene.ts:113-118 | every survivor was a child before the pass |
| `Scene.LogoDelay` | game/MainScene.ts:83 | the logo timer's delay lies in `[5000, 8000)` |
| `Scene.MainScene.constructor` | game/MainScene.ts:30-38 | a new scene has score 0, is not running, has unlocked count 0, no timers, no sprites and no events |
| `Scene.MainScene.Create` | game/MainScene.ts:56-87 | score 0, running, empty groups, the bird at 300 at rest, a looping unpaused 1500 ms pipe timer and a looping unpaused logo timer in [5000, 8000); unlocked count and events kept |
| `Scene.MainScene.Update` | game/MainScene.ts:90-119 | nothing changes when stopped; when running: tilt by velocity sign, exactly one `GameOver` and stop iff the bird is beyond `height - 20` or above 0, both groups culled, everything else kept |
| `Scene.MainScene.Jump` | game/MainScene.ts:121-126 | while running the bird's velocity becomes -350; otherwise nothing changes |
| `Scene.MainScene.AddRowOfPipes` | game/MainScene.ts:128-167 | while running: appends the row for the drawn hole, adds exactly 1 to the score, emits exactly one `ScoreUpdate` with the new score, keeps everything else; while stopped changes nothing |
| `Scene.MainScene.AddOnePipe` | game/MainScene.ts:169-180 | appends exactly one pipe sprite with the given settings and changes nothing else |
| `Scene.MainScene.SpawnLogo` | game/MainScene.ts:182-200 | while running appends one logo at `x = width`, `y` in [100, height - 100], scrolling at -250; while stopped nothing |
| `Scene.MainScene.CollectLogo` | game/MainScene.ts:202-211 | the logo always goes; with 3 or more answers unlocked the score gains 10, one `ScoreUpdate` is emitted, and running and timers are kept; otherwise the game stops, both timers are paused, the score is kept, and one `UnlockAnswer` is emitted |
| `Scene.MainScene.HitPipe` | game/MainScene.ts:213-218 | the game stops and exactly one `GameOver` is emitted; nothing else changes |
| `Scene.MainScene.PauseGame` | game/MainScene.ts:220-225 | the game stops and each existing timer is paused |
| `Scene.MainScene.ResumeGame` | game/MainScene.ts:227-233 | the game runs, both timers are unpaused, the bird's velocity becomes -200; score and unlocked count are kept |
| `Scene.MainScene.RestartGame` | game/MainScene.ts:235-237 | the same fresh state as `Create`: score 0, running, no sprites, fresh timers |
| `Scene.MainScene.SetUnlockedCount` | game/MainScene.ts:239-241 | the unlocked count becomes exactly what the host sent, `undefined` included |
| `Scenarios.GameOverOnce` | game/MainScene.ts:90-111 | after a pipe hit, any number of further frames leaves exactly one more `GameOver` in the log than before, and the score unchanged |

## Left out

- Rendering and assets are not modelled: `preload`, `createLogoTexture`, `createBackgroundTexture`, the background image and its sizing.
- The bird's red tint in `hitPipe` is not modelled, nor are tween durations and easing.
- The logo's vertical bounce tween (`y + 30`, yoyo) is not modelled. The bird's tilt keeps only the target angle of the latest tween (`birdAngle`).
- Physics is left to the engine: gravity 1000, world-bound collisions, velocity integration and collision geometry. Collisions arrive as calls to `HitPipe` and `CollectLogo`. Motion arrives through `EngineStep`.
- `physics.pause()` and `physics.resume()` are not modelled, because the arcade world's paused flag is engine state.
- Timers keep only their delay, loop and paused flags. Remaining time and resume-from-remaining live inside the engine clock. A timer firing is modelled as the caller invoking `AddRowOfPipes` or `SpawnLogo`; the model does not stop a paused timer from firing.
- Registering the keyboard and mouse or touch handlers that call `jump` is not modelled.
- `restartGame` calls `scene.restart()`, which the engine queues until its next step. The model runs `Create` at once.
- The canvas size is fixed at construction. The engine's resize mode can change it, and that is not modelled.
- The bird's x (fixed at 100) is not modelled. Positions and velocities are reals. Each `Math.random()` double becomes an exact real `r` in [0, 1), so the floating-point rounding of `r * span` in the draws and of the logo timer's delay `5000 + r * 3000` is not modelled. JavaScript numbers for the score and the unlocked count are unbounded integers, so NaN and fractional counts are not modelled.
- Before `create` the bird and the groups do not exist, and the source would throw in `hitPipe`, `resumeGame` and `addOnePipe`. These methods therefore require `Started()`. `Update`, `AddRowOfPipes` and `SpawnLogo` need no such requirement: they only touch those objects while running, and running implies started.
- The React side is not modelled: `App.tsx`, `components/GameCanvas.tsx`, `components/AnswerPanel.tsx`, `content.ts`. That includes `App.tsx`'s clamp of the unlocked count at 3.
