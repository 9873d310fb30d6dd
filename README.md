# Zutopia breakout: a Dafny model of the ball and the game step

Zutopia is a small breakout game: a ball bounces inside a 400 x 600 board, off a
paddle that follows the mouse and off a grid of animal pictures, which disappear
when the ball hits them. This project models the simulation core of the game:

- `Geometry` (geometry.dfy): the board constants and axis-aligned bounds (`Box`)
  with the closed-interval overlap test the game relies on.
- `Kinematics` (kinematics.dfy): the ball of `src/Ball.java` as a class whose
  methods update `x`, `y`, `vx`, `vy` in place. Each method is specified by a pure
  function on `BallState`. The lemmas cover reflection twice, idempotent sign
  forcing, speed-up keeping directions, and that no operation stops the ball.
- `Targets` (targets.dfy): the target-removal loop of a tick. `SweepFrom`
  follows the loop as written: the index walks the list, a hit target is removed
  in place and the index advances anyway. `Removed` and `Kept` describe the same
  pass by original position. Target `j` is removed exactly when it intersects the
  ball and target `j - 1` was not removed in the same pass. So the target just
  after a removed one is never examined.
- `Game` (game.dfy): `src/GameImpl.java`. It holds the tick as a function
  (`Step`) and as the in-place method `GameImpl.RunOneTimestep` proved equal to it,
  runs of ticks (`Play`), the round reset, the layout of the animal grid, and the
  animation-timer bookkeeping (`FrameTimer.Handle`).

What the code does, and the model with it:

- A tick only ever reports ACTIVE or LOST. It reports LOST exactly on the fifth
  bottom hit of a round; the target loop is then skipped.
- Every wall and paddle bounce is an unconditional sign flip. The sign-forcing
  methods and the speed-up of the ball are never called by the tick.
- The reset (`restartGame`) clears the scene but not the list of targets. Targets
  left over from the previous round stay in the list and are still collided with.
  `RestartRound` states this: the old targets are a prefix of the new list.
- The grid places `x + 1` animals per row (`xi++ == x` wraps after column `x`).
  With the reset's arguments this gives seven animals in rows of four. The fourth
  animal's label has its left edge at `w/2 + 399`, where `w` is its image's width,
  so it starts past the right edge of the 400-pixel board for any image wider
  than 2 pixels (`RestartGridLayout`).
- No tick ever returns `GameState.WON`, even when no targets remain.
- The target loop advances its index after removing a target, so the target that
  moves into the removed one's slot is not examined in that tick.
- A tick runs only once the timer has recorded a non-negative timestamp. While
  the timestamps are negative, no tick runs at all (`NegativeTimestampsNeverTick`).

Assumptions:

- `src/Ball.java` does not define `reverseXVelocity`, which `src/GameImpl.java:199`
  calls. It is modelled as `vx := -vx`, mirroring `reverseYVelocity`.
- `Bounds.intersects` is modelled as the closed overlap of two boxes, false when
  either box is empty (a maximum below its minimum).
- The ball's bounds are the square of side 16 centred on its centre.
- The paddle's bounds are an input of each tick.
- A target label's bounds are `[X, X + w] x [Y, Y + h]`: its layout position plus
  the size of its image.

## Model

| member | source | states |
|---|---|---|
| `Kinematics.Initial` | src/Ball.java:45-49 | a new ball is at (WIDTH/2, HEIGHT/2), both velocity components are positive, and its bounds lie on the board |
| `Kinematics.Ball.constructor` | src/Ball.java:45-49 | the constructed ball's state is `Initial()` |
| `Kinematics.BallBounds` | src/Ball.java:51-53 | the ball's bounds are a square of side 2 * BALL_RADIUS centred on its centre |
| `Kinematics.Advanced` | src/Ball.java:64-68 | moving changes neither velocity component, and moving for 0 ns changes nothing |
| `Kinematics.AdvancedAdds` | src/Ball.java:64-68 | moving for a then for b equals moving for a + b |
| `Kinematics.Ball.UpdatePosition` | src/Ball.java:64-68 | the new state is the old one advanced by deltaNanoTime: x += vx*dt, y += vy*dt, velocity unchanged |
| `Kinematics.YReversed` | src/Ball.java:77-79 | vy is negated and nothing else changes |
| `Kinematics.Ball.ReverseYVelocity` | src/Ball.java:77-79 | the new state is `YReversed` of the old one |
| `Kinematics.XReversed` | src/GameImpl.java:199 | vx is negated and nothing else changes (the assumed `reverseXVelocity`) |
| `Kinematics.Ball.ReverseXVelocity` | src/GameImpl.java:199 | the new state is `XReversed` of the old one |
| `Kinematics.ReversedTwice` | src/Ball.java:77-79 | reflecting twice restores the state |
| `Kinematics.XForcedNegative` | src/Ball.java:84-86 | afterwards vx <= 0 with the same magnitude, nothing else changes, and it is a no-op when vx <= 0 already |
| `Kinematics.Ball.MakeXVelocityNegative` | src/Ball.java:84-86 | the new state is `XForcedNegative` of the old one |
| `Kinematics.XForcedPositive` | src/Ball.java:91-93 | afterwards vx >= 0 with the same magnitude, nothing else changes, and it is a no-op when vx >= 0 already |
| `Kinematics.Ball.MakeXVelocityPositive` | src/Ball.java:91-93 | the new state is `XForcedPositive` of the old one |
| `Kinematics.YForcedNegative` | src/Ball.java:98-100 | afterwards vy <= 0 with the same magnitude, vx, x and y are untouched, and it is a no-op when vy <= 0 already |
| `Kinematics.Ball.MakeYVelocityNegative` | src/Ball.java:98-100 | the new state is `YForcedNegative` of the old one |
| `Kinematics.YForcedPositive` | src/Ball.java:105-107 | afterwards vy >= 0 with the same magnitude, vx, x and y are untouched, and it is a no-op when vy >= 0 already |
| `Kinematics.Ball.MakeYVelocityPositive` | src/Ball.java:105-107 | the new state is `YForcedPositive` of the old one |
| `Kinematics.ForcingIdempotent` | src/Ball.java:84-107 | each of the four sign-forcing operations applied twice equals applying it once |
| `Kinematics.Faster` | src/Ball.java:112-115 | both components are scaled by 11/10: signs are kept, magnitudes grow, and the position is untouched |
| `Kinematics.Ball.MakeFaster` | src/Ball.java:112-115 | the new state is `Faster` of the old one |
| `Kinematics.NoOperationStopsTheBall` | src/Ball.java:64-115 | for every ball operation and each velocity component separately, the component is zero afterwards exactly when it was zero before |
| `Game.Collided` | src/GameImpl.java:195-209 | the paddle flips vy once; a side wall flips vx exactly once even when both side tests hold; the top and bottom branches exclude each other and flip vy at most once; the position is kept |
| `Game.Step` | src/GameImpl.java:190-222 | a tick reports only ACTIVE or LOST. It reports LOST exactly when the bottom branch fires and the incremented counter reaches 5, and then the targets are unchanged. The counter rises by 1 exactly on a bottom hit. The target list never grows. vx is negated exactly when a side test holds |
| `Game.StepTargets` | src/GameImpl.java:210-217 | in an ACTIVE tick the targets left are exactly the unflagged ones in original order, and vy is flipped once more per removed target |
| `Game.Play` | src/GameImpl.java:166-175 | ticks continue while the state is ACTIVE and the first other state ends the run. A run only ever ends ACTIVE or LOST, the counter never falls, and the target list never grows |
| `Game.PlayLosesAtThreshold` | src/GameImpl.java:201-208 | over any run of ticks from a counter below 5, the counter grows by the number of bottom hits. The run ends LOST exactly when that total reaches 5, never WON, and the target list never grows |
| `Game.GameImpl.RunOneTimestep` | src/GameImpl.java:190-222 | the in-place tick leaves the game in the state `Step` gives and returns its reported state |
| `Game.GameImpl.RemoveHitTargets` | src/GameImpl.java:210-217 | the index loop leaves the list `SweepFrom` gives and flips vy once per removal |
| `Targets.SweepFrom` | src/GameImpl.java:210-217 | survivors plus removed targets account for exactly the original list, so the list never grows |
| `Targets.RemovedFrom` | src/GameImpl.java:210-217 | a target is removed exactly when it intersects the ball and its predecessor was not removed |
| `Targets.Removed` | src/GameImpl.java:210-217 | the first target is removed iff it intersects the ball; each later target j is removed iff it intersects and target j - 1 was not removed |
| `Targets.Kept` | src/GameImpl.java:210-217 | survivors and removed targets together account for the whole list |
| `Targets.KeptIsSubsequence` | src/GameImpl.java:210-217 | the survivors keep their original relative order |
| `Targets.SweepKeepsPrefix` | src/GameImpl.java:210-217 | the loop never touches the targets before its index |
| `Targets.SweepIsReference` | src/GameImpl.java:210-217 | the in-place index loop removes exactly the targets `Removed` flags, and as many of them |
| `Targets.AtMostEveryOther` | src/GameImpl.java:210-217 | removed targets are never adjacent, so a pass removes at most half (rounded up) of the list |
| `Game.Animals` | src/GameImpl.java:107-115 | n + 1 names (none for negative n), each one of duck, goat, horse |
| `Game.RandomlyGenerateAListOfAnimals` | src/GameImpl.java:107-115 | the loop builds exactly `Animals(n, choices)`, the j-th name picked by the j-th random index |
| `Game.GridCell` | src/GameImpl.java:100-103 | animal k goes to column k mod (x+1) and row k div (x+1): the column is at most x and row * (x+1) + column == k |
| `Game.GridCellUnique` | src/GameImpl.java:100-103 | any column at most x and row that give position k are the ones `GridCell` gives |
| `Game.CellBox` | src/GameImpl.java:96-97 | the label of animal k has its top-left corner at (w/2 + (WIDTH div x)·(k mod (x+1)), h/2 + 80·(k div (x+1))) and the size of its image |
| `Game.GridBoxes` | src/GameImpl.java:90-105 | one label box per animal |
| `Game.GameImpl.DisplayGridOfAnimals` | src/GameImpl.java:90-105 | the labels are appended to the target list at X = w/2 + (WIDTH div x)*column, Y = h/2 + 80*row |
| `Game.RestartGridLayout` | src/GameImpl.java:117-121 | the reset grid has 7 animals; the fourth has its left edge at w/2 + 399, past the board's right edge for any image wider than 2 px, and the fifth starts a second row 80 px lower |
| `Game.RestartRound` | src/GameImpl.java:117-123 | after a reset the counter is 0 and the ball is new. The previous targets stay as a prefix of the list, followed by 7 new ones |
| `Game.StartLabel` | src/GameImpl.java:131-139 | the label always ends with the start prompt, and has a prefix exactly after a lost or won round |
| `Game.GameImpl.RestartGame` | src/GameImpl.java:117-142 | the game's state becomes `RestartRound` of the old one with a fresh ball, and the start message matches the state |
| `Game.GameImpl.constructor` | src/GameImpl.java:60-64 | a new game is the reset of an empty round |
| `Game.GameImpl.Run` | src/GameImpl.java:161-164 | a new running timer that has not seen a timestamp yet |
| `Game.FrameTimer.constructor` | src/GameImpl.java:163-164 | lastNanoTime starts at -1 and the timer runs |
| `Game.TickDelta` | src/GameImpl.java:166-178 | a tick runs exactly when a previous timestamp exists, and gets the elapsed time since it |
| `Game.FrameTimer.Handle` | src/GameImpl.java:166-179 | the first call only records the timestamp. Later calls run `Step` with the elapsed time; a non-ACTIVE result stops the timer and resets the round for that state |
| `Game.DeltasFrom` | src/GameImpl.java:166-179 | when the recorded timestamp and all later ones are non-negative, each call hands on one elapsed time, and they add up to the time since that timestamp |
| `Game.DeltasTelescope` | src/GameImpl.java:166-179 | when all timestamps are non-negative, n calls hand on n - 1 elapsed times, which add up to the time between the first call and the last |
| `Game.NegativeTimestampsNeverTick` | src/GameImpl.java:164-178 | while the timestamps stay negative, no call hands on any elapsed time, so no tick runs |

## Left out

- The JavaFX scene graph is not modelled: pane children, labels, image views, the circle, styles, the start-label placement, `getName` and `getPane`. The model keeps only the geometry these feed.
- The mouse handlers are left out: the click that calls `run` and the paddle's `moveTo`. The `Paddle` class is not part of this model, so each tick takes the paddle's bounds as an input.
- Image loading from resources is left out. Image sizes come in as a function from animal name to size. A missing resource, which would throw, is not modelled.
- `java.util.Random` is replaced by the sequence of indices it returns. `ValidChoices` requires each index to lie in [0, 3), as `nextInt(3)` guarantees.
- The scheduling done by `AnimationTimer` is left out. `start` and `stop` are modelled only as the `running` flag.
- src/model.java (audio playback) is not part of this model.
- The commented-out `loadImages` is not modelled.
- IEEE-754 rounding of the `double` positions and velocities is not modelled. They are reals.
- Overflow of the `long` timestamps is not modelled. They are unbounded integers.
- The timer's timestamps have no guaranteed origin. The telescoping lemmas (`DeltasFrom`, `DeltasTelescope`) assume non-negative timestamps; with negative ones no tick runs, which `NegativeTimestampsNeverTick` states.
- The bottom-hit counter is a `double` in the code. It is modelled as a natural number, since it only ever holds 0 to 5, exactly.
- Image sizes are not constrained to be non-negative. A negative size gives an empty label box, which never intersects the ball.
- Game.GameImpl.DisplayGridOfAnimals: it requires `x > 0`. With `x = 0` the code throws on the division; its only caller passes 3.
- Game.FrameTimer.Handle: it requires valid random indices even on frames that do not reset the round. The random generator always supplies them.
