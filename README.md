# Pong simulation core, modelled in Dafny

This project models the per-tick simulation of a small browser Pong game written in
Kotlin/JS. A ball bounces inside a rectangular playground, an arrow-key-driven racket
moves along the bottom, a hit on the racket scores a point and sends the ball upwards,
and the game ends when the ball goes past the racket. The game's status runs
`Stopped` → `Running` (on the first key press) → `GameOver` (on the end test), and
nothing leaves `GameOver`.

The page layout values the game reads on each tick (`offsetWidth`, `offsetHeight`,
`offsetLeft`, `offsetTop` of the playground, racket and ball elements) are plain integer
parameters, collected in the datatype `Geometry`.

Layout of the project:

- `simple.dfy`, module `Simple`, follows `src/main/kotlin/Simple.kt`:
  - the value types `Status`, `Key`, `BallState`, `GameState` and `Geometry`;
  - the pure helpers as functions: `NextPosition`, `MoveBallPosition`, `ResolveDirection`,
    `MoveRacket`, `RacketPositionY`, `IsRacketHit`, `ComputeScore`, and `BallPastRacket`
    (the end test that the source writes as a local lambda in `endGame`);
  - the classes `Ball` and `Pong`, whose fields are updated in place as in the source;
  - methods for the operations that assign fields or reassign locals:
    `MoveBallDirectionX/Y`, `Ball.ChangeBallPosition`, `Pong.ChangeDirectionY`,
    `Pong.EndGame`, `Pong.Loop`, and the key handlers `Pong.OnKeyDown` and `Pong.OnKeyUp`.
    `Pong.Loop`, `Pong.OnKeyDown` and `Pong.OnKeyUp` are proved against functions on
    snapshots (`Tick`, `Pressed`, `Released`); `Pong.Value()` gives the snapshot of the
    game object. `MoveBallDirectionX/Y` are proved equal to `ResolveDirection`.
    `Ball.ChangeBallPosition`, `Pong.ChangeDirectionY` and `Pong.EndGame` state the
    new value of every field they may change.
- `session.dfy`, module `Session`, states what holds after any sequence of key events
  and timer ticks (`Run`). `RunNeverGoesBack`, `RunAfterGameOver`, `RunWhileStopped`,
  `RunScoreBounds`, `RunKeepsUnitDirections` and `RunKeepsBallInPlayground` are proved
  by induction on the sequence; `ScoreFromStart`, `InitialBallStaysInPlayground` and
  `MissedBallStaysOver` follow from them.

Choices the source leaves open:

- Within one tick, the hit test reads the racket's `offsetLeft` right after `drawRacket`
  has written `style.left`. The model takes that value to be the one `moveRacket`
  returned. `Hit` and `Tick` pass `MoveRacket(...)` as the racket's left edge, and
  `Pong.Loop` returns that same value as the racket's new position.
- In `loop` the ball is moved first (line 47). The hit test then looks one step ahead
  of the moved ball (lines 51, 97-98), so it looks two steps ahead of where the tick
  started; `HitLooksTwoStepsAhead` states this. `DescendingBallHitsRacket` works an
  example through: the ball at (120, 185) is moved to (125, 190), and the hit test
  looks at (130, 195). Had the hit test looked ahead from the position before the
  move, it would have looked at (125, 190) and would also have hit, so this example's
  outcome does not depend on that reading.
- `endGame` tests the ball after the hit bounce (line 53 comes before line 56). So on a
  hit tick the end test looks upwards from the moved ball; `EndTestLookAhead` states
  where it looks in both cases.

## Model

| member | source | states |
|---|---|---|
| `Simple.HitLooksTwoStepsAhead` | src/main/kotlin/Simple.kt:43-51 | the look-ahead `nextPosition` taken from the moved ball in the resolved directions, as the hit test takes it, lies two steps of `moveBallPosition` from where the tick started |
| `Simple.EndTestLookAhead` | src/main/kotlin/Simple.kt:53-56 | on a running tick the end test looks two steps ahead of the tick's start when there is no hit, and one step above the moved ball after a hit; the game ends exactly when that point minus the racket height is below racketTop - ballHeight |
| `Simple.ResolveDirection` | src/main/kotlin/Simple.kt:136-152 | a step that would go below 0 gives +1, and this wins over the width test; a step that would go past the limit (and not below 0) gives -1; a step that stays in [0, limit] keeps the direction; a direction in {-1, 1} stays in {-1, 1} |
| `Simple.MoveBallDirectionX` | src/main/kotlin/Simple.kt:136-143 | the sequential overwrite of a local (the width test, then the zero test) returns exactly `ResolveDirection` over the playground width |
| `Simple.MoveBallDirectionY` | src/main/kotlin/Simple.kt:145-152 | the same rule over the playground height |
| `Simple.Moved` | src/main/kotlin/Simple.kt:43-47 | the moved ball keeps its speed, takes the resolved directions, and sits one step from its old position in those directions |
| `Simple.MoveRacket` | src/main/kotlin/Simple.kt:113-120 | the left arrow (37) gives left - 5 even when the right arrow is also held; otherwise the right arrow (39) gives left + 5; otherwise the left edge is unchanged; the result is not clamped |
| `Simple.MoveRacketIgnoresOtherKeys` | src/main/kotlin/Simple.kt:113-120 | key codes other than 37 and 39 do not affect the racket, and the racket moves by at most 5 pixels |
| `Simple.IsRacketHit` | src/main/kotlin/Simple.kt:96-107 | a hit holds exactly when the look-ahead x is in [racketLeft, racketLeft + racketWidth] and the look-ahead y is at least racketTop - ballHeight |
| `Simple.ComputeScore` | src/main/kotlin/Simple.kt:89-94 | the score never drops, grows by at most one, and grows exactly when there is a hit |
| `Simple.BallAfterTick` | src/main/kotlin/Simple.kt:51-53 | on a hit the ball leaves the tick moving upwards (direction -1); its speed, position and horizontal direction are those of the moved ball either way; without a hit it is exactly the moved ball |
| `Simple.Tick` | src/main/kotlin/Simple.kt:34-59 | a tick that is not running changes nothing; the status either stays or becomes GameOver; the score stays or grows by one; the held keys and the speed do not change |
| `Simple.RacketAfterTick` | src/main/kotlin/Simple.kt:49-50 | the racket moves by `MoveRacket` only while the game runs |
| `Simple.Pressed` | src/main/kotlin/Simple.kt:167-174 | a key press adds the key; it moves Stopped to Running and leaves other statuses alone; the ball and the score do not change |
| `Simple.Released` | src/main/kotlin/Simple.kt:175-178 | a key release removes exactly that key and changes nothing else |
| `Simple.TickScoresExactlyOnHit` | src/main/kotlin/Simple.kt:51-54 | across a tick the score grows by one exactly when the game runs and the hit test holds; a hit forces directionY to -1 whatever it was; on a hit the ball is the moved ball with only directionY set to -1; without a hit the ball is just the moved ball |
| `Simple.TickEndsGameExactlyWhenPast` | src/main/kotlin/Simple.kt:67-77 | a tick yields GameOver exactly when the game was already over, or when it was running and the end test holds of the moved and bounced ball; a tick never reaches or leaves Stopped |
| `Simple.TickKeepsUnitDirections` | src/main/kotlin/Simple.kt:43-53 | a tick keeps both directions in {-1, 1} |
| `Simple.TickKeepsBallInPlayground` | src/main/kotlin/Simple.kt:43-53 | a tick keeps the ball inside a playground at least two steps wide and high |
| `Simple.FirstTickMovesBall` | src/main/kotlin/Simple.kt:14-59 | from the initial ball (135, 100) moving up-left, the first running tick on a 300 by 200 playground gives (130, 95) with no hit, no score change, no game over and no racket move |
| `Simple.DescendingBallHitsRacket` | src/main/kotlin/Simple.kt:96-107 | a ball descending onto the racket scores a point and turns upwards, and the game goes on |
| `Simple.MissedBallEndsGame` | src/main/kotlin/Simple.kt:67-77 | a ball that comes down beside the racket ends the game with the score unchanged |
| `Simple.Ball.constructor` | src/main/kotlin/Simple.kt:14-20 | a new ball has speed 5, position (135, 100) and directions (-1, -1) |
| `Simple.Ball.ChangeBallPosition` | src/main/kotlin/Simple.kt:127-132 | sets both directions to the given values, adds the deltas to x and y, and keeps the speed; the method touches nothing else |
| `Simple.Pong.constructor` | src/main/kotlin/Simple.kt:22-28 | a new game is Stopped, holds a fresh default ball, has score 0 and no held keys |
| `Simple.Pong.ChangeDirectionY` | src/main/kotlin/Simple.kt:83-87 | on a hit directionY becomes -1; otherwise the ball is unchanged |
| `Simple.Pong.EndGame` | src/main/kotlin/Simple.kt:67-77 | sets GameOver when the ball's next y minus the racket height is greater than racketTop - ballHeight, and otherwise keeps the status; the method never sets any other status and changes nothing else |
| `Simple.Pong.Loop` | src/main/kotlin/Simple.kt:34-59 | the game object after the tick is `Tick` of the game before it, so the source's order of operations gives exactly that result; the returned racket position is `RacketAfterTick` |
| `Simple.Pong.OnKeyDown` | src/main/kotlin/Simple.kt:167-174 | the game object after the key-down handler is `Pressed` of the game before it |
| `Simple.Pong.OnKeyUp` | src/main/kotlin/Simple.kt:175-178 | the game object after the key-up handler is `Released` of the game before it |
| `Session.RunNeverGoesBack` | src/main/kotlin/Simple.kt:6-8 | over any events the status only moves forward along Stopped, Running, GameOver; once GameOver, always GameOver |
| `Session.RunAfterGameOver` | src/main/kotlin/Simple.kt:42-58 | after the game is over, later events leave the status, the ball and the score as they are |
| `Session.RunWhileStopped` | src/main/kotlin/Simple.kt:42-58 | as long as no key goes down, a stopped game keeps its status, ball and score, and its held keys can only shrink |
| `Session.RunScoreBounds` | src/main/kotlin/Simple.kt:52-54 | over any events the score never drops and grows by at most the number of ticks |
| `Session.ScoreFromStart` | src/main/kotlin/Simple.kt:25 | from a new game the score stays between 0 and the number of ticks |
| `Session.RunKeepsUnitDirections` | src/main/kotlin/Simple.kt:136-152 | over any events both directions stay in {-1, 1} and the speed does not change |
| `Session.RunKeepsBallInPlayground` | src/main/kotlin/Simple.kt:136-152 | on a playground of fixed size at least two steps wide and high, a ball that starts inside stays inside over any events |
| `Session.InitialBallStaysInPlayground` | src/main/kotlin/Simple.kt:14-20 | on a 300 by 200 playground, the initial ball stays inside for the whole session |
| `Session.MissedBallStaysOver` | src/main/kotlin/Simple.kt:74-76 | once a missed ball ends the game, no later events bring it back or change the score |

`NextPosition`, `MoveBallPosition`, `RacketPositionY` (line 105-107), `BallPastRacket`
(lines 68-73) and `Hit` have no contract of their own. They are one-line definitions, and
the rows above state what holds of them: `HitLooksTwoStepsAhead`, `IsRacketHit`,
`TickEndsGameExactlyWhenPast` and `TickScoresExactlyOnHit`. `Pong.IsRunning` and
`Pong.IsStopped` model the status tests of lines 29-30, which `loop` and the key-down
handler use. The test of line 31 is used only by `drawEndGame`, which is not modelled,
so it has no counterpart.

## Left out

- Kotlin's `Int` is 32 bits wide and wraps around; the model uses unbounded integers. The
  ball's coordinates are proved to stay inside the playground (`RunKeepsBallInPlayground`)
  when the playground keeps a fixed size across the ticks, is at least two steps wide and
  high, and the ball starts inside it.
  The score reaches `Int.MAX_VALUE` after 2^31 - 1 hits and would wrap on hit 2^31, and the racket's left edge would need
  about 4 × 10^8 ticks with an arrow key held. Neither wrap is modelled.
- Rendering: `drawBall`, `drawRacket`, `drawScore` and `drawEndGame` only write CSS
  and `innerHTML`.
- `load`'s element lookups, the `setInterval` scheduling, the registration of the event
  listeners and the hiding of the start message are browser glue. Only their effects on
  the held keys and the status are modelled (`Pressed`, `Released` and the `Session` events).
- `main` and its start-up message.
- The `loopInterval` field (16 ms). It sets the timer cadence only, and the tick
  semantics do not depend on it.
- Browser layout: the model does not compute the `offset*` values. Each tick receives
  them as a `Geometry`. The model also does not check that `offsetLeft`, read after
  `style.left` is written, really equals the written value (see the choice above).
- `build.gradle.kts` is build configuration.
