# Sports Rundash: a verified model of the game's state transitions

Sports Rundash is a one-screen browser runner. The player sprite falls under
gravity, lands on platforms, picks up coins and dodges falling obstacles; the
score grows by one point per frame and by 100 per coin, and the best score
is kept across runs. This project models the game's state logic in Dafny and
proves what the code promises about it. Drawing and browser plumbing are
not modelled.

Layout, one module per file:

- `entities.dfy` (`Entities`): the player, platform, coin and obstacle records, the
  game's fixed sizes and counts, and the canvas height rule.
- `physics.dfy` (`Physics`): one frame of player physics as functions. Gravity, the
  platform pass, the floor and the screen edges are each a function.
- `coins.dfy` (`Coins`): the coin box test, one pickup pass, and the counts that tie
  the coin counter to the coins' flags.
- `obstacles.dfy` (`Obstacles`): obstacle motion with the wrap to y = -50, the hit
  test, and the high-score rule.
- `controls.dfy` (`Controls`): the edge-triggered jump and the held-key movement poll.
- `setup.dfy` (`Setup`): the entities a (re)start creates from `Math.random()` draws.
- `session.dfy` (`Session`): the class `Game`. It owns the canvas size, the player,
  the three entity lists, `score`, `coins`, `highScore`, `gameRunning` and the held
  keys. It has one method per callback: page load, resize, `initGame`,
  `updatePlayer`, `updateCoins`, `updateObstacles`, `gameOver`, `gameLoop`, the
  start and reset buttons, key down, key up and the input poll. Each method's
  `ensures` ties its new state to the functions of the other modules. The class
  invariant `Valid()` holds between callbacks. It says:
  - the lists hold 10 platforms, 20 coins and 8 obstacles;
  - entity sizes never change;
  - `coins` equals the number of collected coins;
  - `score >= 100 * coins`.

Modelling choices:

- Positions are exact `real`s. The code only adds, scales and compares them.
- The player record is a datatype value held in the session's `player`
  field. An update reassigns the fields the source writes, one or several at
  once (`player := player.(y := …, velocityY := 0.0)`), matching the source's
  in-place field writes. Nothing else refers to the record.
- The entity lists are `seq` fields. `initGame` empties them and appends in
  loops, as the source does with `length = 0` and `push`. The passes over coins
  and obstacles replace element i inside a loop, as the `forEach` callbacks
  mutate the element objects.
- Canvas dimensions are whole pixels (`nat`). The width is the container's
  client width. Assigning a canvas height truncates to an integer, so the
  height is `min(floor(0.6 * width), 500)`.
- Each `Math.random()` result is a parameter in [0, 1), and the source's
  formulas are kept: x = draw × width, platform width = 150 + draw × 100,
  obstacle speed = 2 + draw × 3, and so on. The obstacle pass takes one
  respawn draw per obstacle and uses it only when that obstacle wraps.
- The held-keys object is a `map<string, bool>`. A key that was never
  pressed is not held.
- The high score is a `nat`. The stored value is a parameter of the
  constructor.
- Platforms are tested in list order, and the first one that matches wins.
  The test needs `velocityY > 0` and a snap sets `velocityY` to 0, so no later
  platform can match in the same frame (`Physics.SettleLandsOnFirstMatch`).
  Each platform is tested in turn, but only the first match can snap.
- The player's `y` is its bottom edge: the player is drawn from y - 60 to y,
  and the coin and obstacle tests use the same convention. A platform snap
  sets y to the platform's top minus the player's height, so the player's
  bottom ends 60 pixels above the platform, out of the 5 pixel reach of the
  platform test. The next frame therefore finds the player unsupported and
  falling again (`Physics.SnapDoesNotHold`). The floor clamp likewise stops
  the bottom edge at the floor line, canvasHeight - 60, which is 60 pixels
  above the canvas bottom; "above the floor" below means y is at most that
  line. Unlike a platform, the floor line holds a player at rest
  (`Physics.FloorHolds`). The model keeps the code's arithmetic.

## Model

| member | source | states |
|---|---|---|
| `Entities.CanvasHeight` | assets/js/game.js:16-19 | the canvas height is the largest whole number of pixels that is at most 0.6 × width and at most 500 |
| `Physics.Settle` | assets/js/game.js:220-232 | after the platform pass, a player that landed is at rest and not jumping; a player that did not land is unchanged |
| `Physics.SettleLandsOnFirstMatch` | assets/js/game.js:221-231 | the platform pass changes nothing when no platform matches; otherwise it snaps the player onto the FIRST matching platform in list order and on no other; a snap happens only while falling |
| `Physics.FloorClamp` | assets/js/game.js:234-240 | afterwards the player's bottom is at most canvasHeight - height; when the clamp fired the player is on the floor with velocity 0, not jumping, and reported as supported; otherwise nothing changes |
| `Physics.ClampToScreen` | assets/js/game.js:242-244 | on a canvas at least as wide as the player, x ends in [width/2, canvasWidth - width/2]; a player already inside is unchanged; only x changes |
| `Physics.PlayerStep` | assets/js/game.js:214-247 | after one player update the player is above the floor and, on a wide enough canvas, inside the screen; if supported it is at rest and not jumping, otherwise its velocity grew by gravity and the jumping flag is kept |
| `Physics.PlayerStepRestsOnFirstPlatform` | assets/js/game.js:221-240 | when platform j is the first match and its top is on the canvas, the frame ends with the player's bottom edge PlayerHeight above platform j's top and reports support |
| `Physics.PlayerStepInFreeFall` | assets/js/game.js:215-240 | when no platform matches and the fallen player is above the floor, y moves by the increased velocity and no support is reported |
| `Physics.SnapDoesNotHold` | assets/js/game.js:214-240 | after a frame that snaps the player onto platform j, the next frame (with no other platform matching and the platform on the canvas) finds the player unsupported, moved down by Gravity from the snap height |
| `Physics.FloorHolds` | assets/js/game.js:214-240 | a player at rest on the floor line, with no platform matching, stays there and is reported supported |
| `Physics.Fall` | assets/js/game.js:215-217 | gravity: the velocity grows by 0.5, then y moves by the new velocity |
| `Physics.OnTopOf` | assets/js/game.js:222-226 | the platform test: the boxes overlap horizontally, the bottom edge is lower than 5 pixels above the platform's top and higher than the platform's bottom, and the player is falling |
| `Physics.LandOn` | assets/js/game.js:227-229 | the snap: y becomes the platform's top minus the player's height, velocity 0, not jumping |
| `Coins.Touches` | assets/js/game.js:252-255 | the player's box and the coin's box overlap on both axes |
| `Coins.PicksUp` | assets/js/game.js:251-255 | a coin is picked up when it is not yet collected and touches the player |
| `Coins.CollectCoin` | assets/js/game.js:250-256 | after the pass a coin is collected iff it already was or the player's box overlaps it; a collected coin never reverts; only the flag changes |
| `Coins.CollectedCount` | assets/js/game.js:256-257 | the number of collected coins is at most the number of coins |
| `Coins.NewlyCollected` | assets/js/game.js:251-258 | the number of coins that went from uncollected to collected is at most the number of coins |
| `Coins.CollectedCountGrows` | assets/js/game.js:256-257 | when no flag reverts, the collected count afterwards is the count before plus the newly collected coins, so `coins` keeps equal to the number of collected coins |
| `Coins.NoneCollected` | assets/js/game.js:58-64 | a list of coins none of which is collected counts zero collected |
| `Coins.NothingNewIffNoFlip` | assets/js/game.js:251-258 | a pass collects nothing new exactly when no coin went from uncollected to collected |
| `Coins.SecondPassCollectsNothing` | assets/js/game.js:249-262 | a second pickup pass with the player where it stands changes no coin and adds nothing to `coins` or `score` |
| `Obstacles.MoveObstacle` | assets/js/game.js:268-274 | an obstacle moves to y + speed, or, if that is below the canvas, to y = -50 with x in [0, canvasWidth); size and speed are unchanged; it never ends below the canvas |
| `Obstacles.Hits` | assets/js/game.js:277-280 | an obstacle hits the player when their boxes overlap on both axes |
| `Obstacles.AnyHitExtend` | assets/js/game.js:277-282 | one more obstacle adds exactly its own hit to "some obstacle hits the player" |
| `Obstacles.KeptHighScore` | assets/js/game.js:290-294 | the high score after game over is the maximum of the stored high score and the score |
| `Obstacles.KeptHighScoreIdempotent` | assets/js/game.js:286-294 | a second game over in the same frame (a second overlapping obstacle) leaves the high score as the first one left it |
| `Obstacles.ObstacleFallsOrWraps` | assets/js/game.js:268-274 | an obstacle with positive speed moves strictly down in a frame, unless it falls past the canvas and wraps to y = -50 |
| `Controls.IsJumpKey` | assets/js/game.js:346 | the jump keys are space, w, W and the up arrow |
| `Controls.Jump` | assets/js/game.js:346-350 | a jump key on a player that is not jumping sets velocity -jumpPower and the jumping flag; in the air, or for any other key, nothing changes; position never changes |
| `Controls.RepeatedJumpIsIdempotent` | assets/js/game.js:342-351 | a run of key presses with no frame in between, starting with a jump key, leaves the player as the first press did: no double jump and no velocity stacking |
| `Controls.Displace` | assets/js/game.js:357-367 | one poll moves the player by speed left or right (both held cancel out) and down when a down key is held; velocity and jumping flag are untouched |
| `Controls.Held` | assets/js/game.js:340-366 | a key is held when its last event was a key-down; a key never pressed is not held |
| `Controls.LeftHeld` | assets/js/game.js:358 | left is held when a, A or the left arrow is held |
| `Controls.RightHeld` | assets/js/game.js:361 | right is held when d, D or the right arrow is held |
| `Controls.DownHeld` | assets/js/game.js:364 | down is held when s, S or the down arrow is held |
| `Controls.DisplaceDoesNotClamp` | assets/js/game.js:357-367 | for every player and every held-key map with left held and right not, the poll moves the player exactly PlayerSpeed left with no lower bound, so a player at the left edge ends past it; only the next player update clamps |
| `Setup.NewPlatform` | assets/js/game.js:47-54 | platform i has top y = canvasHeight - 50 - 100·i, height 20, width in [150, 250) and x in [0, canvasWidth) |
| `Setup.NewCoin` | assets/js/game.js:57-65 | a new coin is uncollected, 20 × 20, with x in [0, canvasWidth) and y in [0, canvasHeight / 2) |
| `Setup.NewObstacle` | assets/js/game.js:68-76 | a new obstacle is 30 × 30 with speed in [2, 5), x in [0, canvasWidth) and y in [0, canvasHeight / 1.5) |
| `Setup.StartPlayer` | assets/js/game.js:78-82 | the player starts centred horizontally, 100 pixels above the canvas bottom, with velocity 0 and not jumping |
| `Setup.StartPlayerOnScreen` | assets/js/game.js:78-82 | on a canvas at least as wide as the player, the start position is inside the screen and above the floor |
| `Setup.StartOn800WideCanvas` | assets/js/game.js:16-19 | on an 800 pixel wide container the canvas is 480 high and the player starts at (400, 380) at rest |
| `Setup.StartPlatforms` | assets/js/game.js:46-54 | a start creates exactly 10 platforms of height 20, platform i at y = canvasHeight - 50 - 100·i, each higher than the one before |
| `Setup.StartCoins` | assets/js/game.js:56-65 | a start creates exactly 20 coins, all 20 × 20 and uncollected |
| `Setup.StartObstacles` | assets/js/game.js:67-76 | a start creates exactly 8 obstacles, all 30 × 30 with speed in [2, 5) |
| `Session.Game.constructor` | assets/js/game.js:8-38 | page load: canvas sized from the container, flag clear, counters zero, stored high score kept, no key held, and the start entities in place; the invariant holds |
| `Session.Game.Resize` | assets/js/game.js:16-21 | the canvas takes the container width and the derived height; the invariant is kept |
| `Session.Game.InitGame` | assets/js/game.js:41-89 | the lists become exactly the start platforms, coins and obstacles; the player is at the start position at rest; score and coins are 0; high score, flag and keys are untouched |
| `Session.Game.UpdatePlayer` | assets/js/game.js:214-247 | the new player and the returned support flag are `PlayerStep` of the old player; in particular the player is above the floor and, on a canvas at least as wide as the player, inside the screen |
| `Session.Game.UpdateCoins` | assets/js/game.js:249-263 | every coin becomes `CollectCoin` of itself; no flag reverts; `coins` grows by the number newly collected and `score` by 100 times it; the invariant is kept |
| `Session.Game.UpdateObstacles` | assets/js/game.js:265-284 | every obstacle becomes `MoveObstacle` of itself; the flag is cleared iff some moved obstacle hits the player, and then the high score is the maximum of the old high score and the score |
| `Session.Game.GameOver` | assets/js/game.js:286-294 | the running flag is cleared and the high score becomes the maximum of itself and the score |
| `Session.Game.GameLoop` | assets/js/game.js:313-337 | with the flag clear nothing changes; otherwise player, coins and obstacles advance by one frame, the score gains the coin bonus plus 1 and never decreases, and a game over records the high score from the score before that 1 |
| `Session.Game.Start` | assets/js/game.js:373-379 | while running, nothing changes; otherwise the game is re-initialised and its first frame is run |
| `Session.Game.Reset` | assets/js/game.js:381-385 | the game is re-initialised and its first frame is run, whether or not a run was going |
| `Session.Game.KeyDown` | assets/js/game.js:342-351 | the key is recorded as held and the player becomes `Jump` of the old player for that key; the invariant is kept |
| `Session.Game.KeyUp` | assets/js/game.js:353-355 | the key is recorded as released; the invariant is kept |
| `Session.Game.HandleInput` | assets/js/game.js:357-370 | the player becomes `Displace` of the old player for the held keys; no clamping; the invariant is kept |

## Left out

- Drawing: the background, platforms, coins, obstacles, player and the game-over overlay text are Canvas calls with no effect on the game state.
- DOM text updates of score, coins and high score, and the element lookups: they only mirror the counters.
- `localStorage`: the stored high score is read once and passed to the constructor as a number. The write at game over is not modelled, and neither is JavaScript's string-to-number comparison of the stored value.
- `Math.random()`: its values are parameters in [0, 1).
- Scheduling: `requestAnimationFrame` and the 60 Hz input timer are not modelled. Each callback is one atomic method, so their interleaving is left open. So is the source's behaviour when reset is pressed during a run: a second frame chain then runs beside the first.
- IEEE-754 rounding of JavaScript numbers: exact reals stand in for them.
- The early return when the page has no canvas element.
