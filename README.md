# Pong game rules in Dafny

This project models the rules of a browser Pong game (`script.js`). The left
paddle is driven by a small AI and the right paddle by the arrow keys. Under
the canvas drawing, each animation frame runs these steps in a fixed order:

1. the AI sets the left paddle's velocity;
2. both paddles move, and the walls stop them;
3. the ball moves;
4. the ball bounces off the top and bottom walls;
5. a ball that leaves the field scores once, and the AI may get harder;
6. either paddle may return the ball, which speeds it up;
7. the game latches as over once a player has seven points.

Besides the frames, a delayed callback puts the ball back in play after a
score, and key presses set the paddles' velocities.

The model has four modules:

- `Geometry` (`geometry.dfy`): the strict axis-aligned overlap test `Collides`.
- `Rules` (`rules.dfy`): the whole game state as one value, `State`. There is
  one function per phase of a frame, plus `Tick` for a whole frame, `Respawn`,
  `KeyDown` and `KeyUp`. `Inv` is the invariant of every reachable state:
  1. paddles and ball are between the walls;
  2. the vertical ball speed is 5;
  3. scores are at most 7, and the game is over exactly when one score is 7;
  4. the AI's speed and refresh threshold follow from player two's score.
- `Lifecycle` (`lifecycle.dfy`): the environment's events (frames, the respawn
  timer, key presses and releases) in any order. `Run` applies a sequence of
  them, and its contract carries `Inv` and monotone scores and difficulty
  through any run. The module also proves lemmas about the end of the game
  and about rallies.
- `Pong` (`pong.dfy`): the objects the page mutates in place, as classes
  `Paddle`, `Ball` and `Game`. `Game`'s fields are the game's shared
  variables. Every state-changing method is proved to leave `Snapshot()` equal to what the
  matching function of `Rules` computes from the old snapshot. `Step` and the
  event methods also keep `Valid()`, which includes `Inv`.

Numbers are Dafny `real`s for positions and velocities, because a centred
paddle's y, `height/2 - 75/2`, can be fractional. The speed counters are
`int`s, and scores and the tier are `nat`s. The game only adds, negates and
compares small values, so no rounding is modelled. The canvas size comes from
the page, so it is a pair of constructor parameters. The height must be at
least 105 (two walls and one paddle), so that the paddle's lower limit is not
above its upper limit. The paddle height is 75 (five grid cells of 15); the
source comment that says 80 is wrong.

The model follows the code as written:

- The ball keeps moving while it is resetting. Only the respawn callback puts
  it back in the middle.
- After the ball leaves past the right edge, player one scores and the ball's
  velocity is set to +5, to the right.
- The W and S keys do set the left paddle's velocity. But the AI overwrites it
  in every frame before the paddle moves (`Rules.LeftPaddleVelocityOverridden`),
  so those keys have no effect.
- The rubber-band condition `playerTwoScore > 6` never holds on a frame that
  runs the AI, because the game is already over by then
  (`Rules.RubberBandNeverFires`).

## Model

| member | source | states |
|---|---|---|
| `Geometry.Collides` | script.js:63-68 | The AABB test: `a.x < b.x + b.width`, `a.x + a.width > b.x`, `a.y < b.y + b.height` and `a.y + a.height > b.y`, all strict and in the source's order. |
| `Geometry.CollidesSymmetric` | script.js:63-68 | The overlap test gives the same answer with its arguments swapped. |
| `Geometry.TouchingEdgesDoNotCollide` | script.js:63-68 | Rectangles that only share an edge (`a.x + a.width == b.x`, and the other three cases) do not collide, in either order. |
| `Geometry.CollidesIffCommonInteriorPoint` | script.js:63-68 | For rectangles of positive size, `Collides` holds exactly when the two interiors share a point. |
| `Rules.Initial` | script.js:3-59 | The starting state: scores 0, not over. On a valid canvas it satisfies the reachable-state invariant. |
| `Rules.RefreshTarget` | script.js:70-72 | The AI target becomes the ball's y, and nothing else changes. |
| `Rules.AiPaddleMove` | script.js:74-111 | While resetting, the left paddle stops and the target is kept. Otherwise the target is resampled exactly when it is at least the threshold away from the ball or player two has more than 6 points. The paddle then moves at `-c`, `+c` or not at all, where `c = min(aiPaddleSpeed, ballSpeed - 2)`, by the sign of its distance to the target and whether that distance exceeds `c`. Only the target and the left velocity change. |
| `Rules.AiNeverOvershoots` | script.js:93-110 | A moving AI paddle gets exactly `c` closer to the target without crossing it. A still one is within `c` of it. |
| `Rules.ClampPaddleY` | script.js:147-160 | The result lies between the walls on a valid canvas. A position already inside is kept, one above the top limit snaps to `grid`, one below the bottom limit snaps to `maxPaddleY`. |
| `Rules.MovePaddles` | script.js:143-160 | Each paddle's new y is its clamped `y + dy`, both lie in `[grid, maxPaddleY]`, and nothing else changes. |
| `Rules.MoveBall` | script.js:167-169 | The ball moves by exactly its velocity, even while resetting. Nothing else changes. |
| `Rules.BounceWalls` | script.js:171-179 | Afterwards `grid <= ball.y <= height - 2*grid`. A ball above the top wall is put at `grid`, and one below the bottom limit (`y + grid > height - grid`) at `height - 2*grid`; in both cases `dy` is negated. `dy` is always kept or negated, so `abs(dy)` is preserved. A ball already between the walls is untouched. Only the ball's y and dy change. |
| `Rules.Score` | script.js:181-211 | If the ball is out of `[0, width]` and not resetting, exactly one score rises by 1 (player one past the right edge, player two past the left). Then the ball is resetting, `dx` is +5 or -5, the tier is 0 and the left paddle is centred. On player two's point, the AI's speed rises by 1 exactly when the new score is odd, and the threshold becomes 10 once that score is above 5. Otherwise nothing changes, and `ballSpeed` never changes here. |
| `Rules.LeftHitDx` | script.js:225-229 | A ball moving left leaves the left paddle moving right, one unit faster. |
| `Rules.RightHitDx` | script.js:236-240 | A ball moving right leaves the right paddle moving left, one unit faster. |
| `Rules.PaddleHits` | script.js:221-251 | The left paddle is tested first, and at most one paddle hits. A hit on the left sets `dx' = -(dx - 1)`, which is `abs(dx) + 1` when `dx < 0`, and puts the ball flush at `leftPaddle.x + width`. A hit on the right sets `dx' = -(dx + 1)` and puts the ball at `rightPaddle.x - ball.width`. Either way the ball no longer overlaps that paddle. A hit raises the tier and `ballSpeed` by 1. No hit changes nothing. Only the ball's x and dx, the tier and `ballSpeed` change. |
| `Rules.CheckGameOver` | script.js:272-280 | `gameOver` becomes true exactly when it already was or either score is at least 7. Nothing else changes. |
| `Rules.WinnerHasSevenPoints` | script.js:274-278 | The winner choice is the predicate `Rules.PlayerOneWins` (`playerOneScore > playerTwoScore`). At the end of a reachable match, it holds exactly when player one has 7 points, and the other outcome exactly when player two has 7. |
| `Rules.Tick` | script.js:128-281 | A frame after game over changes nothing. From a reachable state, a frame leads to a reachable state, scores and difficulty only grow, and the threshold only falls. |
| `Rules.GameOverOnlyOnScoringFrame` | script.js:181-211 | The game ends only on a frame where the ball was in play and scored, and that frame raises the total score by exactly one. |
| `Rules.RubberBandNeverFires` | script.js:89 | In a reachable state where the game is not over, the AI resamples only on distance; the `playerTwoScore > 6` condition is never true. |
| `Rules.LeftPaddleVelocityOverridden` | script.js:94-110 | Whatever velocity the left paddle had before a frame (for example from the W or S key), the frame's outcome is the same. |
| `Rules.Respawn` | script.js:214-218 | The ball is in play again at the field's centre with its velocity kept, and nothing else changes. It keeps the invariant, and never changes the match state. |
| `Rules.KeyDown` | script.js:284-303 | Up arrow gives the right paddle -6, down arrow +6. W gives the left paddle -6, S +6. Other keys leave that paddle alone, and only paddle velocities change. |
| `Rules.KeyUp` | script.js:306-314 | Releasing an arrow stops the right paddle, and releasing W or S stops the left one. Other keys leave that paddle alone, and only paddle velocities change. |
| `Lifecycle.Apply` | script.js:128-314 | Any single event (frame, respawn timer, key press, key release) keeps the invariant and monotone scores and difficulty. A frame after game over changes nothing. |
| `Lifecycle.Run` | script.js:128-314 | Any sequence of events from a reachable state leads to a reachable state. Scores and difficulty only grow, and once the game is over the match state is fixed. |
| `Lifecycle.Reachable` | script.js:128-281 | In every state reachable from the start, no score exceeds 7, the game is over exactly when one score is 7, both paddles and the ball are between the walls, and `abs(ball.dy)` is 5. |
| `Lifecycle.GameOverIsFinal` | script.js:132-139 | After game over, any events keep `gameOver` true and leave scores, difficulty, target and tier unchanged. |
| `Lifecycle.FramesAfterGameOver` | script.js:132-139 | Any number of frames after game over leaves the state unchanged. |
| `Lifecycle.RallySpeedsUp` | script.js:221-251 | In a rally where each return comes from the paddle the ball is heading for, `n` returns raise `abs(dx)` by exactly `n` and reverse its direction `n` times. |
| `Lifecycle.SevenReturnsFromBaseSpeed` | script.js:221-251 | Seven returns starting from the base speed 5 leave the ball at horizontal speed 12. |
| `Pong.Paddle.constructor` | script.js:26-45 | A paddle at the given position, not moving. |
| `Pong.Ball.constructor` | script.js:46-59 | A ball at the given position and velocity, not resetting. |
| `Pong.Game.constructor` | script.js:1-59 | The page's start-up state on a canvas of the given size. It is `Rules.Initial`, and `Valid()` holds. |
| `Pong.Game.RefreshTarget` | script.js:70-72 | The new state is `Rules.RefreshTarget` of the old. |
| `Pong.Game.AiPaddleMove` | script.js:74-111 | The new state is `Rules.AiPaddleMove` of the old. |
| `Pong.Game.MovePaddles` | script.js:143-160 | The new state is `Rules.MovePaddles` of the old. |
| `Pong.Game.MoveBall` | script.js:167-169 | The new state is `Rules.MoveBall` of the old. |
| `Pong.Game.BounceWalls` | script.js:171-179 | The new state is `Rules.BounceWalls` of the old. |
| `Pong.Game.Score` | script.js:181-219 | The new state is `Rules.Score` of the old. The respawn this schedules is `Respawn`. |
| `Pong.Game.PaddleHits` | script.js:221-251 | The new state is `Rules.PaddleHits` of the old. |
| `Pong.Game.CheckGameOver` | script.js:272-280 | The new state is `Rules.CheckGameOver` of the old. |
| `Pong.Game.Step` | script.js:128-281 | One frame: the new state is `Rules.Tick` of the old, `Valid()` (and so the invariant) is kept, and scores and difficulty never go back. |
| `Pong.Game.Respawn` | script.js:214-218 | The new state is `Rules.Respawn` of the old, and `Valid()` is kept. |
| `Pong.Game.KeyDown` | script.js:284-303 | The new state is `Rules.KeyDown` of the old, and `Valid()` is kept. |
| `Pong.Game.KeyUp` | script.js:306-314 | The new state is `Rules.KeyUp` of the old, and `Valid()` is kept. |
| `Pong.Game.PlayerOneWins` | script.js:274-278 | Once the game is over, player one (the AI side, "YOU LOSE") wins exactly when player one has 7 points. Otherwise player two has 7 ("YOU WIN"). |

## Left out

- Drawing: clearing the canvas, paddles, ball, walls, the dotted centre line and the tier-based ball colour. It is output only; the tier affects colour, not play.
- The page: score text, the winner text element, showing and hiding the game-over screen (and its `gameOverDisplayed` flag), and the restart button's page reload. These are browser calls. The winner choice is kept as `PlayerOneWins`.
- Scheduling: `requestAnimationFrame` and the 400 ms timer. The host's timing cannot be modelled, so `Step`, `Respawn`, `KeyDown` and `KeyUp` are methods that the environment may call in any order, and `Lifecycle.Run` covers every such order.
- Debug logging of the AI's target.
- JavaScript floating point: values are exact `real`s, which agree with the program's small sums.
- `paddleSpeed` is a variable in the source that nothing reassigns, so it is the constant 6.
- The canvas size: it comes from the page's HTML, so it is a constructor parameter.
