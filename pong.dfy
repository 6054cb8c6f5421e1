/** The game as the page runs it: two paddle objects and a ball object whose
    fields are updated in place, and the game's shared variables as fields of
    one Game object. Each method does what the corresponding part of the game
    loop does, and is proved to leave the objects in the state the matching
    function of Rules computes. */
module Pong {
  import opened Geometry
  import Rules

  class Paddle {
    const x: real
    var y: real
    var dy: real

    constructor (x0: real, y0: real)
      ensures x == x0 && y == y0 && dy == 0.0
    {
      x, y, dy := x0, y0, 0.0;
    }

    function View(): Rules.Paddle
      reads this
    {
      Rules.Paddle(x, y, dy)
    }
  }

  class Ball {
    var x: real
    var y: real
    var dx: real
    var dy: real
    var resetting: bool

    constructor (x0: real, y0: real, dx0: real, dy0: real)
      ensures x == x0 && y == y0 && dx == dx0 && dy == dy0 && !resetting
    {
      x, y, dx, dy, resetting := x0, y0, dx0, dy0, false;
    }

    function View(): Rules.Ball
      reads this
    {
      Rules.Ball(x, y, dx, dy, resetting)
    }
  }

  class Game {
    const width: real
    const height: real
    const leftPaddle: Paddle
    const rightPaddle: Paddle
    const ball: Ball

    var playerOneScore: nat
    var playerTwoScore: nat
    var ballSpeed: int
    var ballTier: nat
    var aiRefreshThreshold: int
    var aiTarget: real
    var aiPaddleSpeed: int
    var gameOver: bool

    function Field(): Rules.Field {
      Rules.Field(width, height)
    }

    /** The game state as one value. */
    function Snapshot(): Rules.State
      reads this, leftPaddle, rightPaddle, ball
    {
      Rules.State(leftPaddle.View(), rightPaddle.View(), ball.View(),
                  playerOneScore, playerTwoScore, ballSpeed, aiPaddleSpeed,
                  aiRefreshThreshold, aiTarget, ballTier, gameOver)
    }

    ghost predicate Valid()
      reads this, leftPaddle, rightPaddle, ball
    {
      leftPaddle != rightPaddle &&
      Rules.ValidField(Field()) && Rules.Inv(Field(), Snapshot())
    }

    /** The page's start-up: a canvas of the given size, paddles centred on
        their sides, the ball in the middle heading up and to the right. */
    constructor (canvasWidth: nat, canvasHeight: nat)
      requires canvasHeight as real >= 2.0 * Rules.Grid + Rules.PaddleHeight
      ensures width == canvasWidth as real && height == canvasHeight as real
      ensures Valid() && Snapshot() == Rules.Initial(Field())
      ensures fresh(leftPaddle) && fresh(rightPaddle) && fresh(ball)
    {
      width := canvasWidth as real;
      height := canvasHeight as real;
      var centre := canvasHeight as real / 2.0 - Rules.PaddleHeight / 2.0;
      leftPaddle := new Paddle(2.0 * Rules.Grid, centre);
      rightPaddle := new Paddle(canvasWidth as real - 3.0 * Rules.Grid, centre);
      ball := new Ball(canvasWidth as real / 2.0, canvasHeight as real / 2.0,
                       Rules.BaseBallSpeed as real, -(Rules.BaseBallSpeed as real));
      playerOneScore, playerTwoScore := 0, 0;
      ballSpeed := Rules.BaseBallSpeed;
      ballTier := 0;
      aiRefreshThreshold := Rules.InitialAiRefreshThreshold;
      aiTarget := 0.0;
      aiPaddleSpeed := Rules.InitialAiPaddleSpeed;
      gameOver := false;
    }

    method RefreshTarget()
      modifies this
      ensures Snapshot() == Rules.RefreshTarget(old(Snapshot()))
    {
      aiTarget := ball.y;
    }

    method AiPaddleMove()
      requires leftPaddle != rightPaddle
      modifies this, leftPaddle
      ensures Snapshot() == Rules.AiPaddleMove(old(Snapshot()))
    {
      if ball.resetting {
        leftPaddle.dy := 0.0;
        return;
      }
      var targetDelta := aiTarget - ball.y;
      if Rules.Abs(targetDelta) >= aiRefreshThreshold as real || playerTwoScore > 6 {
        RefreshTarget();
      }
      var targetDistance := leftPaddle.y - aiTarget;
      var scalarDistance := Rules.Abs(targetDistance);
      leftPaddle.dy := 0.0;
      var cappedSpeed := Min(aiPaddleSpeed as real, (ballSpeed - 2) as real);
      if scalarDistance > cappedSpeed {
        if targetDistance > 0.0 {
          leftPaddle.dy := -cappedSpeed;
        } else if targetDistance < 0.0 {
          leftPaddle.dy := cappedSpeed;
        }
      }
    }

    method MovePaddles()
      requires leftPaddle != rightPaddle
      modifies leftPaddle, rightPaddle
      ensures Snapshot() == Rules.MovePaddles(Field(), old(Snapshot()))
    {
      var maxPaddleY := height - Rules.Grid - Rules.PaddleHeight;
      leftPaddle.y := leftPaddle.y + leftPaddle.dy;
      rightPaddle.y := rightPaddle.y + rightPaddle.dy;
      if leftPaddle.y < Rules.Grid {
        leftPaddle.y := Rules.Grid;
      } else if leftPaddle.y > maxPaddleY {
        leftPaddle.y := maxPaddleY;
      }
      if rightPaddle.y < Rules.Grid {
        rightPaddle.y := Rules.Grid;
      } else if rightPaddle.y > maxPaddleY {
        rightPaddle.y := maxPaddleY;
      }
    }

    method MoveBall()
      modifies ball
      ensures Snapshot() == Rules.MoveBall(old(Snapshot()))
    {
      ball.x := ball.x + ball.dx;
      ball.y := ball.y + ball.dy;
    }

    method BounceWalls()
      modifies ball
      ensures Snapshot() == Rules.BounceWalls(Field(), old(Snapshot()))
    {
      if ball.y < Rules.Grid {
        ball.y := Rules.Grid;
        ball.dy := -ball.dy;
      } else if ball.y + Rules.Grid > height - Rules.Grid {
        ball.y := height - 2.0 * Rules.Grid;
        ball.dy := -ball.dy;
      }
    }

    /** Scores an exit; the respawn it schedules is the separate method
        Respawn, which the environment calls later. */
    method Score()
      requires leftPaddle != rightPaddle
      modifies this, leftPaddle, ball
      ensures Snapshot() == Rules.Score(Field(), old(Snapshot()))
    {
      if (ball.x < 0.0 || ball.x > width) && !ball.resetting {
        ball.resetting := true;
        if ball.x > width {
          playerOneScore := playerOneScore + 1;
          ball.dx := Rules.BaseBallSpeed as real;
        } else if ball.x < 0.0 {
          playerTwoScore := playerTwoScore + 1;
          ball.dx := -(Rules.BaseBallSpeed as real);
          if playerTwoScore % 2 == 1 {
            aiPaddleSpeed := aiPaddleSpeed + 1;
          }
          if playerTwoScore > 5 {
            aiRefreshThreshold := Rules.LateAiRefreshThreshold;
          }
        }
        leftPaddle.y := height / 2.0 - Rules.PaddleHeight / 2.0;
        ballTier := 0;
      }
    }

    method PaddleHits()
      requires leftPaddle != rightPaddle
      modifies this, ball
      ensures Snapshot() == Rules.PaddleHits(old(Snapshot()))
    {
      var ballSpeedIncrease := 1.0;
      var paddleHit := false;
      var ballRect := Rect(ball.x, ball.y, Rules.Grid, Rules.Grid);
      if Collides(ballRect, Rect(leftPaddle.x, leftPaddle.y, Rules.Grid, Rules.PaddleHeight)) {
        ball.dx := ball.dx - ballSpeedIncrease;
        ball.dx := -ball.dx;
        ball.x := leftPaddle.x + Rules.Grid;
        paddleHit := true;
      } else if Collides(ballRect, Rect(rightPaddle.x, rightPaddle.y, Rules.Grid, Rules.PaddleHeight)) {
        ball.dx := ball.dx + ballSpeedIncrease;
        ball.dx := -ball.dx;
        ball.x := rightPaddle.x - Rules.Grid;
        paddleHit := true;
      }
      if paddleHit {
        ballTier := ballTier + 1;
        ballSpeed := ballSpeed + 1;
      }
    }

    method CheckGameOver()
      modifies this
      ensures Snapshot() == Rules.CheckGameOver(old(Snapshot()))
    {
      if playerOneScore >= Rules.WinningScore || playerTwoScore >= Rules.WinningScore {
        gameOver := true;
      }
    }

    /** One animation frame of the game loop, without the drawing. */
    method Step()
      requires Valid()
      modifies this, leftPaddle, rightPaddle, ball
      ensures Valid()
      ensures Snapshot() == Rules.Tick(Field(), old(Snapshot()))
      ensures Rules.Later(old(Snapshot()), Snapshot())
    {
      if gameOver {
        return;
      }
      AiPaddleMove();
      MovePaddles();
      MoveBall();
      BounceWalls();
      Score();
      PaddleHits();
      CheckGameOver();
    }

    /** The delayed callback scheduled by a score: the ball is back in play
        at the centre of the field. */
    method Respawn()
      requires Valid()
      modifies ball
      ensures Valid()
      ensures Snapshot() == Rules.Respawn(Field(), old(Snapshot()))
    {
      ball.resetting := false;
      ball.x := width / 2.0;
      ball.y := height / 2.0;
    }

    method KeyDown(code: int)
      requires Valid()
      modifies leftPaddle, rightPaddle
      ensures Valid()
      ensures Snapshot() == Rules.KeyDown(old(Snapshot()), code)
    {
      if code == Rules.ArrowUp {
        rightPaddle.dy := -Rules.PaddleSpeed;
      } else if code == Rules.ArrowDown {
        rightPaddle.dy := Rules.PaddleSpeed;
      }
      if code == Rules.KeyW {
        leftPaddle.dy := -Rules.PaddleSpeed;
      } else if code == Rules.KeyS {
        leftPaddle.dy := Rules.PaddleSpeed;
      }
    }

    method KeyUp(code: int)
      requires Valid()
      modifies leftPaddle, rightPaddle
      ensures Valid()
      ensures Snapshot() == Rules.KeyUp(old(Snapshot()), code)
    {
      if code == Rules.ArrowUp || code == Rules.ArrowDown {
        rightPaddle.dy := 0.0;
      }
      if code == Rules.KeyS || code == Rules.KeyW {
        leftPaddle.dy := 0.0;
      }
    }

    /** The winner text once the game is over: "YOU LOSE" when player one,
        the AI side, is ahead, otherwise "YOU WIN". */
    method PlayerOneWins() returns (aiWins: bool)
      requires Valid() && gameOver
      ensures aiWins <==> playerOneScore == Rules.WinningScore
      ensures !aiWins <==> playerTwoScore == Rules.WinningScore
    {
      aiWins := playerOneScore > playerTwoScore;
      Rules.WinnerHasSevenPoints(Field(), Snapshot());
    }
  }
}
