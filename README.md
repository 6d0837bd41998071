# Pong simulation core in Dafny

This project models the simulation core of a browser Pong game. Two parts are modelled:

- **`Ai`** (`ai.dfy`) models `js/ai.js`:
  - `PredictBallY` is the trajectory predictor. It is a `while` loop that steps a simulated ball until its leading edge reaches a vertical line, reflecting it off the top and bottom walls, for at most 2000 iterations.
  - `PaddleAI` is the reactive paddle controller. It has a reaction timer, an `active` flag, a random aiming error and a fixed paddle speed.
- **`Game`** (`game.dfy`) models `js/game.js`. The module-level state of the game becomes the class `Game.Pong`:
  - the MENU / PLAYING / GAME_OVER state machine;
  - the difficulty table;
  - the per-frame `update`: paddles, ball, walls, paddle hits, goals, the score check and the round reset;
  - the manual keyboard control.

Every imperative operation is a method. Each method is proved against a specification function on values:

- `Ai.Fly` / `Ai.PredictY` for the predictor;
- `Ai.React` and `Ai.MoveToward` for the controller;
- `Game.Frame` and its phases for a frame, over the value `Game.World` that `Pong.Snapshot()` reads off the object.

The properties the game relies on are lemmas about those functions. They cover:

- termination of the predictor;
- ball and paddle bounds;
- the reaction delay;
- wall and paddle reflection;
- one point per goal;
- the game-over decision;
- the serve after a goal;
- the constant magnitude of the horizontal ball speed over any number of frames.

Positions and speeds are `real`. Every `Math.random()` draw is a parameter in [0, 1). The held arrow keys are parameters of a frame.

## Model

| member | source | states |
|---|---|---|
| Ai.PredictBallY | js/ai.js:4-40 | The loop returns exactly `PredictY`, the y where the bounded simulation stops. A ball that has already reached the line gives `startY`. An in-bounds start gives an in-bounds result. No vertical speed gives `startY`. |
| Ai.Step | js/ai.js:27-36 | One step moves x by vx, keeps vx and the magnitude of vy, and leaves the ball between the walls. |
| Ai.StepReflects | js/ai.js:27-36 | Crossing the top wall clamps y to the radius and flips vy. Otherwise, crossing the bottom wall clamps y to height - radius and flips vy. Crossing neither keeps the new y and vy. |
| Ai.FlightStops | js/ai.js:22-25 | The simulation takes at most 2000 steps. If it stops earlier, the ball has reached the line. A ball already at the line does not move. |
| Ai.StalledFlightUsesAllFuel | js/ai.js:22-25 | A ball with no horizontal speed that has not reached the line uses every iteration, so only the cap ends the loop. |
| Ai.PredictionFacts | js/ai.js:18-39 | The three facts about the prediction that the predictor's contract exports: an already-reached start, bounds, and a level flight. |
| Ai.FlightStaysInside | js/ai.js:28-36 | A simulated ball that starts between the walls ends between them. |
| Ai.FlightIsUniform | js/ai.js:18-27 | The horizontal speed never changes, and the final x is the start plus steps × vx. |
| Ai.FlightTravels | js/ai.js:27 | The final x is the start plus the distance travelled in the steps taken, and vx is unchanged. |
| Ai.TravelIsProduct | js/ai.js:27 | The distance of k equal steps is k × v. |
| Ai.FlightKeepsVerticalSpeed | js/ai.js:30-36 | Reflections only flip the sign of vy. Its magnitude is preserved. |
| Ai.LevelFlight | js/ai.js:28-36 | With vy = 0 and an in-bounds start, the final y is the start y. |
| Ai.React | js/ai.js:55-65 | A ball going the other way resets the timer to 0 and the flag to false. A ball coming this way increments the timer by one. The flag always equals "timer > 0 and timer >= reactionFrames". |
| Ai.ApproachCounts | js/ai.js:56-59 | After n approaching frames the timer has grown by n. From idle, the controller is active iff n >= reactionFrames (and n > 0). |
| Ai.ReactionDelay | js/ai.js:56-59 | From idle, the controller is first active on exactly the reactionFrames-th consecutive approaching frame. |
| Ai.Aim | js/ai.js:69-73 | With a positive range the aim lies in [target - range/2, target + range/2). Otherwise it is the target. |
| Ai.Offset | js/ai.js:70-71 | The random error lies in [-range/2, range/2). |
| Ai.ClampToCanvas | js/ai.js:84-87 | The result is in [0, canvasHeight - paddleHeight], and a position already inside is unchanged. |
| Ai.MoveToward | js/ai.js:67-90 | The paddle after one move stays inside the canvas. |
| Ai.MoveTowardAim | js/ai.js:76-81 | The paddle moves by at most its speed toward the aim and never away from it. It does not move when its centre is on the aim. It takes the full step when the step stays inside. |
| Ai.PaddleAI.constructor | js/ai.js:47-53 | The tuning is as given, the state is idle, and the active flag agrees with the timer. |
| Ai.PaddleAI.UpdateState | js/ai.js:55-65 | The new state is `React` of the old one, and the active flag agrees with the timer (`Settled`). |
| Ai.PaddleAI.MovePaddleToTarget | js/ai.js:67-90 | Returns exactly `MoveToward` of the tuning, inside [0, canvasHeight - paddleHeight]. |
| Game.SettingsFor | js/game.js:15-110 | A known difficulty gives its table row. An unknown one falls back to "normal". Every row has positive speeds, error, reaction frames and target score. |
| Game.ManualMove | js/game.js:329-335 | "up" has priority and subtracts 6 only below the top. Otherwise "down" adds 6 only above the lowest position. The paddle stays within one step of the canvas. |
| Game.ManualMoveOvershoots | js/game.js:330-331 | There is no clamp: from y = 3, "up" gives y = -3. |
| Game.WallBounce | js/game.js:237-245 | The top wall wins over the bottom one: y is clamped to the wall and vy flipped. Without a hit the ball is unchanged. The ball ends between the walls. |
| Game.LeftPaddleBounce | js/game.js:248-258 | On a hit the ball is placed at PADDLE_WIDTH + R, vx is negated, and vy becomes 0.2 × (distance from the centre), below 10 in magnitude. Without a hit the ball is unchanged. |
| Game.RightPaddleBounce | js/game.js:261-271 | The mirror image at width - PADDLE_WIDTH - R. |
| Game.Verdict | js/game.js:287-299 | The game is over iff a score has reached the target. The left side wins only when strictly ahead; otherwise the right side wins. |
| Game.ServeBall | js/game.js:305-311 | After a goal the ball is at the centre, vx is negated, and vy is ±3. |
| Game.AwardPoint | js/game.js:273-284 | A goal never lowers a score, adds at most one point, and leaves the target and controllers alone. |
| Game.Rally | js/game.js:166-271 | Moving paddles and ball changes no score, state, winner, target or tuning. |
| Game.Frame | js/game.js:163-285 | Outside PLAYING nothing changes. Scores never decrease and grow by at most one point in total. The target and tuning are fixed. |
| Game.FrameKeepsSound | js/game.js:232-284 | Every frame keeps the invariant: the magnitude of vx equals the difficulty's ball speed, the magnitude of vy is at most 10, the controllers' flags agree with their timers, and the ball and paddles are inside a large enough canvas (the manual paddle within one step). |
| Game.FrameScoring | js/game.js:273-284 | A ball past the left edge scores exactly one point for the right side, one past the right edge exactly one for the left side, and otherwise nothing is scored and the ball keeps its rally position. |
| Game.FrameEndsGame | js/game.js:277-299 | From PLAYING a frame ends in PLAYING or GAME_OVER. GAME_OVER happens iff a goal was scored and a score reached the target. The recorded winner is Left iff the left side is strictly ahead. |
| Game.ScorerWins | js/game.js:274-299 | If neither side had reached the target, the side that scores the ending point wins with exactly the target score, and the other side is below it. |
| Game.FrameServesAfterGoal | js/game.js:274-314 | After any goal, including the last one, the ball is at the centre with its pre-reset vx negated and vy = ±3, and both paddles are centred. |
| Game.RunKeepsSound | js/game.js:163-285 | Over any number of frames the invariant holds, scores never decrease, at most one point is scored per frame, and the target is fixed. |
| Game.RunIsFrozenOutsidePlay | js/game.js:164 | Once the game is out of PLAYING, no number of frames changes anything. |
| Game.Kickoff | js/game.js:99-135 | Entering PLAYING centres paddles and ball, serves with vx = ±ballSpeed and vy = ±3, takes the target from the table, and builds two idle controllers; the right one has half the error range. The result satisfies the game invariant. |
| Game.LeftPaddleHitExample | js/game.js:248-258 | A ball 10 px below the paddle centre bounces back with vy = 2. |
| Game.TopWallExample | js/game.js:237-240 | A ball above the top wall is put at y = 8 with vy flipped. |
| Game.Pong.constructor | js/game.js:12-86 | A new game is in MENU with zero scores, target 7, no controllers and the given canvas size. |
| Game.Pong.SetGameState | js/game.js:91-139 | The state becomes the new one. Entering PLAYING yields exactly `Kickoff` of the difficulty's settings (unknown names fall back to "normal") and fresh controllers. The other states change nothing else. Scores are kept. |
| Game.Pong.StartGame | js/game.js:98-135 | The object becomes `Kickoff` of the settings. |
| Game.Pong.ServeFromCentre | js/game.js:305-314 | Ball at the centre with the given vx and vy = ±3, paddles centred. |
| Game.Pong.CreateControllers | js/game.js:125-135 | Two fresh idle controllers with the table's tuning; the right one has half the error range. |
| Game.Pong.ResetScores | js/game.js:142-145 | Both scores become 0, and the invariant is kept. |
| Game.Pong.Update | js/game.js:163-285 | Outside PLAYING nothing changes. In PLAYING the new state is exactly `Frame` of the old one, and the invariant is kept. |
| Game.Pong.StepLeftPaddle | js/game.js:166-201 | The left paddle and its controller become `MoveLeftPaddle` of the old state. |
| Game.Pong.StepRightPaddle | js/game.js:203-230 | The right paddle and its controller become `MoveRightPaddle` of the old state. |
| Game.Pong.StepBall | js/game.js:232-271 | The ball and the sound count become `MoveBall` of the old state. |
| Game.Pong.AdvanceBall | js/game.js:232-234 | The ball moves by its velocity. |
| Game.Pong.BounceOffWalls | js/game.js:236-245 | The state becomes `WallPhase`, with one sound per wall hit. |
| Game.Pong.BounceOffLeftPaddle | js/game.js:247-258 | The state becomes `LeftPaddlePhase`. |
| Game.Pong.BounceOffRightPaddle | js/game.js:260-271 | The state becomes `RightPaddlePhase`. |
| Game.Pong.CheckGoals | js/game.js:273-284 | The state becomes `AwardPoint` of the old state. |
| Game.Pong.CheckScore | js/game.js:287-299 | The state becomes `Judge`: GAME_OVER with the winner when a score has reached the target. |
| Game.Pong.ResetBallPositions | js/game.js:305-314 | The state becomes `ResetRound`: the serve from the centre with reversed vx, and centred paddles. |
| Game.Pong.HandleManualInput | js/game.js:329-335 | The left paddle becomes `ManualMove` of its old position. |

## Left out

- `js/main.js` is not part of this model. It holds the DOM lookups, button listeners and panel show/hide. It calls `initGame`, `resetScores`, `setGameState` and `startGameLoop`, which the model covers as `Game.Pong.constructor`, `Game.Pong.ResetScores`, `Game.Pong.SetGameState` and `Game.Run`.
- `draw` (js/game.js:346-398) is not modelled, since canvas rendering only reads state.
- `playHitSound` and the `Audio` object are not modelled. Each hit is counted in `hitSounds` instead.
- The DOM updates inside `checkScore` are not modelled. The game-over title is the field `winner`, and the panel is not modelled.
- `checkScore` calls `setGameState(GAME_OVER)`. For that state, `setGameState` only assigns the state, so `Game.Pong.CheckScore` assigns it directly.
- The `keydown`/`keyup` listeners are not modelled. The held keys are parameters of a frame.
- `startGameLoop` and `requestAnimationFrame` are host scheduling. A sequence of frames is the function `Game.Run`.
- `Math.random()` is not modelled: every draw is a parameter in [0, 1). A frame's draws are in `Game.Controls`.
- IEEE-754 arithmetic is not modelled: positions and speeds are mathematical reals, so rounding is not captured.
- `initGame` reads the canvas size from a DOM element. The canvas size is given to `Game.Pong.constructor` instead.
- Game.SettingsFor: does not model JavaScript's property lookup through the object prototype. For a key such as "toString", `DIFFICULTY_SETTINGS[difficulty]` is an inherited function rather than a missing entry. The model treats every key outside "easy", "normal" and "hard" as unknown.
- Game.Pong.SetGameState: `payload` is given as a difficulty name and a boolean `autoLeft`. A missing `autoLeft` (undefined, falsy in JavaScript) is the same as `false`.
- Game.Pong.Update: `update` is split into one method per phase (paddles, ball, goals). Each method is proved against its phase function, and the phases compose to `Game.Frame`.
- The manual paddle is not clamped, as in `handleManualInput`: it may end up to one step (6 px) past the top or bottom bound. `Game.ManualMoveOvershoots` shows this. The game invariant allows this slack for the manual paddle only.
