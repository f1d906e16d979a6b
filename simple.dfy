/**
  One tick of the Pong simulation, with the browser's layout values read as
  plain integers.

  The value types (`BallState`, `GameState`) describe what the game holds
  between two ticks; the classes `Ball` and `Pong` are the mutable objects of
  the game. `Pong.Loop` and the key handlers are proved to change the game
  exactly as the functions `Tick`, `Pressed` and `Released` say; the wall
  tests are proved equal to `ResolveDirection`; the smaller field updates
  state their new fields outright.
 */
module Simple {

  /** Life cycle of a game: it waits for a key, runs, and eventually ends. */
  datatype Status = Stopped | Running | GameOver

  /** The two key codes the game reacts to. */
  datatype Key = Left | Right {
    function Code(): int {
      match this
      case Left => 37
      case Right => 39
    }
  }

  /** Pixels the racket moves per tick while an arrow key is held. */
  const RacketStep: int := 5

  /** A snapshot of the ball: speed in pixels per tick, position, and the sign of its motion on each axis. */
  datatype BallState = BallState(speed: int, x: int, y: int, directionX: int, directionY: int)

  /** A snapshot of the game between two ticks. */
  datatype GameState = GameState(status: Status, ball: BallState, score: int, pressedKeys: set<int>)

  /**
    The layout values a tick reads from the page: the playground's size, the
    racket's box (as it is before the tick moves it) and the ball's height.
   */
  datatype Geometry = Geometry(
    playgroundWidth: int, playgroundHeight: int,
    racketLeft: int, racketTop: int, racketWidth: int, racketHeight: int,
    ballHeight: int)

  const InitialBall: BallState := BallState(5, 135, 100, -1, -1)

  const Initial: GameState := GameState(Stopped, InitialBall, 0, {})

  predicate UnitDirections(b: BallState) {
    (b.directionX == -1 || b.directionX == 1) && (b.directionY == -1 || b.directionY == 1)
  }

  // ---------------------------------------------------------------------------
  // Ball motion

  /** Where a coordinate lands after one step in the given direction. */
  function NextPosition(currentPosition: int, speed: int, direction: int): int {
    currentPosition + speed * direction
  }

  /** The displacement of one step in the given direction. */
  function MoveBallPosition(ball: BallState, direction: int): int {
    ball.speed * direction
  }

  /**
    The direction on one axis after the wall test: a step that would leave
    the playground past `limit` turns the ball back, a step that would go
    below 0 turns it forward (that rule wins when both apply), and any other
    step keeps the direction.
   */
  function ResolveDirection(position: int, speed: int, direction: int, limit: int): (d: int)
    ensures NextPosition(position, speed, direction) < 0 ==> d == 1
    ensures limit < NextPosition(position, speed, direction) && 0 <= NextPosition(position, speed, direction) ==> d == -1
    ensures 0 <= NextPosition(position, speed, direction) <= limit ==> d == direction
    ensures (direction == -1 || direction == 1) ==> (d == -1 || d == 1)
  {
    var next := NextPosition(position, speed, direction);
    if next < 0 then 1 else if limit < next then -1 else direction
  }

  /** The horizontal direction for the coming step; overwrites a local the way the source does. */
  method MoveBallDirectionX(width: int, ball: Ball) returns (directionX: int)
    ensures directionX == ResolveDirection(ball.x, ball.speed, ball.directionX, width)
  {
    directionX := ball.directionX;
    var posX := NextPosition(ball.x, ball.speed, ball.directionX);
    if posX > width {
      directionX := -1;
    }
    if posX < 0 {
      directionX := 1;
    }
  }

  /** The vertical direction for the coming step, by the same rule over the height. */
  method MoveBallDirectionY(height: int, ball: Ball) returns (directionY: int)
    ensures directionY == ResolveDirection(ball.y, ball.speed, ball.directionY, height)
  {
    directionY := ball.directionY;
    var posY := NextPosition(ball.y, ball.speed, ball.directionY);
    if posY > height {
      directionY := -1;
    }
    if posY < 0 {
      directionY := 1;
    }
  }

  /** The ball after the wall tests and one step in the resolved directions. */
  function Moved(b: BallState, width: int, height: int): (m: BallState)
    ensures m.speed == b.speed
    ensures m.directionX == ResolveDirection(b.x, b.speed, b.directionX, width)
    ensures m.directionY == ResolveDirection(b.y, b.speed, b.directionY, height)
    ensures m.x == NextPosition(b.x, b.speed, m.directionX) && m.y == NextPosition(b.y, b.speed, m.directionY)
  {
    var dx := ResolveDirection(b.x, b.speed, b.directionX, width);
    var dy := ResolveDirection(b.y, b.speed, b.directionY, height);
    b.(x := b.x + MoveBallPosition(b, dx), y := b.y + MoveBallPosition(b, dy),
       directionX := dx, directionY := dy)
  }

  /**
    The hit test looks one step ahead of the moved ball in the directions the
    wall tests chose, so it looks two steps ahead of where the tick started.
    (The end test does the same only on a tick without a hit; see
    `EndTestLookAhead`.)
   */
  lemma HitLooksTwoStepsAhead(b: BallState, width: int, height: int)
    ensures var m := Moved(b, width, height);
      NextPosition(m.x, m.speed, m.directionX) == b.x + 2 * (b.speed * m.directionX) &&
      NextPosition(m.y, m.speed, m.directionY) == b.y + 2 * (b.speed * m.directionY)
  {
  }

  // ---------------------------------------------------------------------------
  // Racket, hit, score and end of game

  /** The racket's new left edge: the left arrow wins over the right one; the result is not clamped. */
  function MoveRacket(pressedKeys: set<int>, racketLeft: int): (left: int)
    ensures Left.Code() in pressedKeys ==> left == racketLeft - RacketStep
    ensures Left.Code() !in pressedKeys && Right.Code() in pressedKeys ==> left == racketLeft + RacketStep
    ensures Left.Code() !in pressedKeys && Right.Code() !in pressedKeys ==> left == racketLeft
  {
    if Left.Code() in pressedKeys then racketLeft - RacketStep
    else if Right.Code() in pressedKeys then racketLeft + RacketStep
    else racketLeft
  }

  /** Key codes other than the two arrows do not move the racket. */
  lemma MoveRacketIgnoresOtherKeys(pressedKeys: set<int>, racketLeft: int)
    ensures MoveRacket(pressedKeys, racketLeft) == MoveRacket(pressedKeys * {Left.Code(), Right.Code()}, racketLeft)
    ensures racketLeft - RacketStep <= MoveRacket(pressedKeys, racketLeft) <= racketLeft + RacketStep
  {
  }

  /** The line the ball must reach to touch the racket: one ball height above its top. */
  function RacketPositionY(racketTop: int, ballHeight: int): int {
    racketTop - ballHeight
  }

  /**
    The ball hits the racket when its look-ahead point lies within the
    racket's horizontal span (ends included) and at or below the line one
    ball height above the racket's top.
   */
  function IsRacketHit(ball: BallState, racketLeft: int, racketTop: int, racketWidth: int, ballHeight: int): (hit: bool)
    ensures hit <==>
      racketLeft <= NextPosition(ball.x, ball.speed, ball.directionX) <= racketLeft + racketWidth &&
      NextPosition(ball.y, ball.speed, ball.directionY) >= racketTop - ballHeight
  {
    var posX := NextPosition(ball.x, ball.speed, ball.directionX);
    var posY := NextPosition(ball.y, ball.speed, ball.directionY);
    var racketBorderRight := racketLeft + racketWidth;
    posX >= racketLeft && posX <= racketBorderRight && posY >= RacketPositionY(racketTop, ballHeight)
  }

  /** The score after a hit test: one more on a hit, the same otherwise. */
  function ComputeScore(score: int, hit: bool): (r: int)
    ensures score <= r <= score + 1
    ensures r == score + 1 <==> hit
  {
    if hit then score + 1 else score
  }

  /**
    The end-of-game test: the ball's next vertical position, lifted by the
    racket's height, lies strictly below the racket's hit line.
   */
  predicate BallPastRacket(ball: BallState, racketTop: int, racketHeight: int, ballHeight: int) {
    NextPosition(ball.y, ball.speed, ball.directionY) - racketHeight > RacketPositionY(racketTop, ballHeight)
  }

  // ---------------------------------------------------------------------------
  // One tick and the key handlers, as functions on snapshots

  /** Whether the tick from `s` hits the racket: the test looks ahead from the moved ball and the moved racket. */
  predicate Hit(s: GameState, geo: Geometry) {
    IsRacketHit(Moved(s.ball, geo.playgroundWidth, geo.playgroundHeight),
                MoveRacket(s.pressedKeys, geo.racketLeft), geo.racketTop, geo.racketWidth, geo.ballHeight)
  }

  /** The ball at the end of a running tick: moved, then sent upwards on a hit. */
  function BallAfterTick(s: GameState, geo: Geometry): (b: BallState)
    ensures Hit(s, geo) ==> b.directionY == -1
    ensures var m := Moved(s.ball, geo.playgroundWidth, geo.playgroundHeight);
      b.speed == m.speed && b.x == m.x && b.y == m.y && b.directionX == m.directionX
    ensures !Hit(s, geo) ==> b == Moved(s.ball, geo.playgroundWidth, geo.playgroundHeight)
  {
    var moved := Moved(s.ball, geo.playgroundWidth, geo.playgroundHeight);
    if Hit(s, geo) then moved.(directionY := -1) else moved
  }

  /**
    One tick of the game loop. Nothing happens unless the game is running;
    a running tick moves the ball, tests the hit from the moved ball, counts
    the hit, bounces the ball upwards on a hit and then tests the end of the
    game from the bounced ball. The racket's left edge that the hit test uses
    is the one `MoveRacket` computes in the same tick.
   */
  function Tick(s: GameState, geo: Geometry): (r: GameState)
    ensures s.status != Running ==> r == s
    ensures r.status == s.status || r.status == GameOver
    ensures r.score == s.score || r.score == s.score + 1
    ensures r.pressedKeys == s.pressedKeys && r.ball.speed == s.ball.speed
  {
    if s.status != Running then s
    else
      var ball := BallAfterTick(s, geo);
      var over := BallPastRacket(ball, geo.racketTop, geo.racketHeight, geo.ballHeight);
      GameState(if over then GameOver else s.status, ball, ComputeScore(s.score, Hit(s, geo)), s.pressedKeys)
  }

  /** The racket's left edge at the end of a tick: it moves only while the game runs. */
  function RacketAfterTick(s: GameState, geo: Geometry): (left: int)
    ensures s.status != Running ==> left == geo.racketLeft
    ensures s.status == Running ==> left == MoveRacket(s.pressedKeys, geo.racketLeft)
  {
    if s.status == Running then MoveRacket(s.pressedKeys, geo.racketLeft) else geo.racketLeft
  }

  /** A key press: the key joins the held set and a stopped game starts. */
  function Pressed(s: GameState, code: int): (r: GameState)
    ensures r.pressedKeys == s.pressedKeys + {code}
    ensures s.status == Stopped ==> r.status == Running
    ensures s.status != Stopped ==> r.status == s.status
    ensures r.ball == s.ball && r.score == s.score
  {
    s.(pressedKeys := s.pressedKeys + {code}, status := if s.status == Stopped then Running else s.status)
  }

  /** A key release: the key leaves the held set and nothing else changes. */
  function Released(s: GameState, code: int): (r: GameState)
    ensures code !in r.pressedKeys && r.pressedKeys <= s.pressedKeys
    ensures forall k :: k in s.pressedKeys && k != code ==> k in r.pressedKeys
    ensures r.status == s.status && r.ball == s.ball && r.score == s.score
  {
    s.(pressedKeys := s.pressedKeys - {code})
  }

  // ---------------------------------------------------------------------------
  // What one tick guarantees

  /** The score grows by one exactly when a running tick hits the racket, and a hit always sends the ball upwards. */
  lemma TickScoresExactlyOnHit(s: GameState, geo: Geometry)
    ensures Tick(s, geo).score == s.score + 1 <==> s.status == Running && Hit(s, geo)
    ensures s.status == Running && Hit(s, geo) ==> Tick(s, geo).ball.directionY == -1
    ensures s.status == Running && Hit(s, geo) ==>
      Tick(s, geo).ball == Moved(s.ball, geo.playgroundWidth, geo.playgroundHeight).(directionY := -1)
    ensures s.status == Running && !Hit(s, geo) ==> Tick(s, geo).ball == Moved(s.ball, geo.playgroundWidth, geo.playgroundHeight)
  {
  }

  /** A running tick ends the game exactly when the end test holds of the ball after the bounce; nothing leaves GameOver. */
  lemma TickEndsGameExactlyWhenPast(s: GameState, geo: Geometry)
    ensures Tick(s, geo).status == GameOver <==>
      s.status == GameOver ||
      (s.status == Running && BallPastRacket(BallAfterTick(s, geo), geo.racketTop, geo.racketHeight, geo.ballHeight))
    ensures Tick(s, geo).status == Stopped <==> s.status == Stopped
  {
  }

  /**
    Where the end test looks on a running tick: without a hit, two steps ahead
    of where the tick started, like the hit test; after a hit, which has turned
    the ball upwards, one step above the moved ball.
   */
  lemma EndTestLookAhead(s: GameState, geo: Geometry)
    ensures var m := Moved(s.ball, geo.playgroundWidth, geo.playgroundHeight);
      var endY := if Hit(s, geo) then m.y - s.ball.speed else s.ball.y + 2 * (s.ball.speed * m.directionY);
      s.status == Running ==>
        (Tick(s, geo).status == GameOver <==> endY - geo.racketHeight > geo.racketTop - geo.ballHeight)
  {
  }

  /** A tick keeps both directions in {-1, 1}. */
  lemma TickKeepsUnitDirections(s: GameState, geo: Geometry)
    requires UnitDirections(s.ball)
    ensures UnitDirections(Tick(s, geo).ball)
  {
  }

  /** The ball lies within the playground, counted in pixels from its top-left corner. */
  predicate InPlayground(b: BallState, width: int, height: int) {
    0 <= b.x <= width && 0 <= b.y <= height
  }

  /**
    As long as the playground is at least two steps wide and high, a tick
    keeps a ball that moves diagonally inside it: the hit bounce only turns
    the vertical direction, which the next wall test resolves again.
   */
  lemma TickKeepsBallInPlayground(s: GameState, geo: Geometry)
    requires UnitDirections(s.ball) && 0 <= s.ball.speed
    requires 2 * s.ball.speed <= geo.playgroundWidth && 2 * s.ball.speed <= geo.playgroundHeight
    requires InPlayground(s.ball, geo.playgroundWidth, geo.playgroundHeight)
    ensures InPlayground(Tick(s, geo).ball, geo.playgroundWidth, geo.playgroundHeight)
  {
  }

  // ---------------------------------------------------------------------------
  // Worked ticks

  /** The first tick of a fresh game on a 300 by 200 playground: the ball moves diagonally up-left, nothing else happens. */
  lemma FirstTickMovesBall()
    ensures
      var geo := Geometry(300, 200, 100, 190, 70, 10, 10);
      var r := Tick(Initial.(status := Running), geo);
      r == GameState(Running, BallState(5, 130, 95, -1, -1), 0, {}) &&
      RacketAfterTick(Initial.(status := Running), geo) == 100
  {
  }

  /**
    A ball coming down at (120, 185) moves to (125, 190), looks ahead to
    (130, 195), which is inside the racket's span and below its hit line 180:
    the score goes up and the ball turns upwards; the game goes on.
   */
  lemma DescendingBallHitsRacket()
    ensures
      var s := GameState(Running, BallState(5, 120, 185, 1, 1), 0, {});
      var r := Tick(s, Geometry(300, 200, 100, 190, 70, 10, 10));
      r == GameState(Running, BallState(5, 125, 190, 1, -1), 1, {})
  {
  }

  /** A ball that comes down beside the racket ends the game. */
  lemma MissedBallEndsGame()
    ensures
      var s := GameState(Running, BallState(5, 20, 185, 1, 1), 3, {});
      var r := Tick(s, Geometry(300, 200, 100, 190, 70, 10, 10));
      r == GameState(GameOver, BallState(5, 25, 190, 1, 1), 3, {})
  {
  }

  // ---------------------------------------------------------------------------
  // The mutable objects

  class Ball {
    var speed: int
    var x: int
    var y: int
    var directionX: int
    var directionY: int

    constructor ()
      ensures Value() == InitialBall
    {
      speed, x, y, directionX, directionY := 5, 135, 100, -1, -1;
    }

    function Value(): BallState
      reads this
    {
      BallState(speed, x, y, directionX, directionY)
    }

    /** Sets both directions and displaces the ball by the given amounts; the speed stays. */
    method ChangeBallPosition(newDirectionX: int, positionX: int, newDirectionY: int, positionY: int)
      modifies this
      ensures directionX == newDirectionX && directionY == newDirectionY
      ensures x == old(x) + positionX && y == old(y) + positionY
      ensures speed == old(speed)
    {
      directionX := newDirectionX;
      directionY := newDirectionY;
      x := x + positionX;
      y := y + positionY;
    }
  }

  class Pong {
    var status: Status
    var ball: Ball
    var score: int
    var pressedKeys: set<int>

    constructor ()
      ensures Value() == Initial && fresh(ball)
    {
      status := Stopped;
      ball := new Ball();
      score := 0;
      pressedKeys := {};
    }

    function Value(): GameState
      reads this, ball
    {
      GameState(status, ball.Value(), score, pressedKeys)
    }

    predicate IsRunning()
      reads this
    {
      status == Running
    }

    predicate IsStopped()
      reads this
    {
      status == Stopped
    }

    /** On a hit the ball's vertical direction becomes -1, whatever it was; otherwise the ball is untouched. */
    method ChangeDirectionY(hit: bool)
      modifies ball
      ensures ball.Value() == if hit then old(ball.Value()).(directionY := -1) else old(ball.Value())
    {
      if hit {
        ball.directionY := -1;
      }
    }

    /** Ends the game when the end test holds of the ball as it is now; it never sets any other status. */
    method EndGame(racketTop: int, racketHeight: int, ballHeight: int)
      modifies this
      ensures status == if BallPastRacket(ball.Value(), racketTop, racketHeight, ballHeight) then GameOver else old(status)
      ensures ball == old(ball) && score == old(score) && pressedKeys == old(pressedKeys)
    {
      var bottomPos := racketHeight;
      var posY := NextPosition(ball.y, ball.speed, ball.directionY) - bottomPos;
      var racketPosY := RacketPositionY(racketTop, ballHeight);
      if posY > racketPosY {
        status := GameOver;
      }
    }

    /**
      One tick of the game loop in the source's order: wall tests, ball step,
      racket move, hit test, score, bounce, end test. It returns the racket's
      new left edge, which the hit test also uses.
     */
    method Loop(geo: Geometry) returns (racketLeft: int)
      modifies this, ball
      ensures ball == old(ball)
      ensures Value() == Tick(old(Value()), geo)
      ensures racketLeft == RacketAfterTick(old(Value()), geo)
    {
      racketLeft := geo.racketLeft;
      if IsRunning() {
        var newDirectionX := MoveBallDirectionX(geo.playgroundWidth, ball);
        var newDirectionY := MoveBallDirectionY(geo.playgroundHeight, ball);
        var newPosX := MoveBallPosition(ball.Value(), newDirectionX);
        var newPosY := MoveBallPosition(ball.Value(), newDirectionY);
        ball.ChangeBallPosition(newDirectionX, newPosX, newDirectionY, newPosY);
        racketLeft := MoveRacket(pressedKeys, geo.racketLeft);
        var hit := IsRacketHit(ball.Value(), racketLeft, geo.racketTop, geo.racketWidth, geo.ballHeight);
        var newScore := ComputeScore(score, hit);
        ChangeDirectionY(hit);
        score := newScore;
        EndGame(geo.racketTop, geo.racketHeight, geo.ballHeight);
      }
    }

    /** The key-down handler: records the key and starts a stopped game. */
    method OnKeyDown(code: int)
      modifies this
      ensures ball == old(ball)
      ensures Value() == Pressed(old(Value()), code)
    {
      pressedKeys := pressedKeys + {code};
      if IsStopped() {
        status := Running;
      }
    }

    /** The key-up handler: forgets the key. */
    method OnKeyUp(code: int)
      modifies this
      ensures ball == old(ball)
      ensures Value() == Released(old(Value()), code)
    {
      pressedKeys := pressedKeys - {code};
    }
  }
}
