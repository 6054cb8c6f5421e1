/** The game over time: the host delivers animation frames, the delayed
    respawn and key events in any order, and the invariant of Rules holds in
    every state this can produce. */
module Lifecycle {
  import opened Rules

  /** What the environment may do between two states. */
  datatype Event =
    | Frame
    | RespawnTimer
    | KeyPressed(code: int)
    | KeyReleased(code: int)

  function Apply(f: Field, s: State, e: Event): (r: State)
    ensures ValidField(f) && Inv(f, s) ==> Inv(f, r) && Later(s, r)
    ensures e.Frame? && s.gameOver ==> r == s
  {
    match e
    case Frame => Tick(f, s)
    case RespawnTimer => Respawn(f, s)
    case KeyPressed(code) => KeyDown(s, code)
    case KeyReleased(code) => KeyUp(s, code)
  }

  /** The state after a sequence of events. */
  function Run(f: Field, s: State, es: seq<Event>): (r: State)
    ensures ValidField(f) && Inv(f, s) ==> Inv(f, r) && Later(s, r)
    decreases |es|
  {
    if es == [] then s else Run(f, Apply(f, s, es[0]), es[1..])
  }

  /** In every state reachable from the start no score is above seven, the
      game is over exactly when one score is seven, and both paddles and the
      ball are between the walls. */
  lemma Reachable(f: Field, es: seq<Event>)
    requires ValidField(f)
    ensures var r := Run(f, Initial(f), es);
            && r.playerOneScore <= WinningScore
            && r.playerTwoScore <= WinningScore
            && (r.gameOver <==> r.playerOneScore == WinningScore || r.playerTwoScore == WinningScore)
            && Grid <= r.left.y <= MaxPaddleY(f)
            && Grid <= r.right.y <= MaxPaddleY(f)
            && Grid <= r.ball.y <= f.height - 2.0 * Grid
            && Abs(r.ball.dy) == BaseBallSpeed as real
  {
    assert Inv(f, Initial(f));
  }

  /** Once the game is over, no sequence of events changes the scores, the
      difficulty, the tier or the latch; only the respawn timer and the keys
      still touch the ball and the paddles' velocities. */
  lemma GameOverIsFinal(f: Field, s: State, es: seq<Event>)
    requires ValidField(f) && Inv(f, s) && s.gameOver
    ensures Run(f, s, es).gameOver && SameMatch(s, Run(f, s, es))
  {
  }

  /** A sequence of frames alone after the game is over changes nothing. */
  lemma {:induction false} FramesAfterGameOver(f: Field, s: State, n: nat)
    requires s.gameOver
    ensures Run(f, s, seq(n, _ => Frame)) == s
  {
    if n > 0 {
      assert seq(n, _ => Frame)[1..] == seq(n - 1, _ => Frame);
      FramesAfterGameOver(f, s, n - 1);
    }
  }

  /** n returns in a row, each by the paddle the ball is heading for. */
  function Rally(dx: real, n: nat): real
    decreases n
  {
    if n == 0 then dx
    else Rally(if dx < 0.0 then LeftHitDx(dx) else RightHitDx(dx), n - 1)
  }

  /** Every return makes the ball one unit faster and reverses it. */
  lemma {:induction false} RallySpeedsUp(dx: real, n: nat)
    ensures Abs(Rally(dx, n)) == Abs(dx) + n as real
    ensures (Rally(dx, n) < 0.0) == ((dx < 0.0) == (n % 2 == 0))
    decreases n
  {
    if n > 0 {
      var next := if dx < 0.0 then LeftHitDx(dx) else RightHitDx(dx);
      RallySpeedsUp(next, n - 1);
    }
  }

  /** Seven returns of a ball launched at base speed leave it at speed 12. */
  lemma SevenReturnsFromBaseSpeed()
    ensures Abs(Rally(BaseBallSpeed as real, 7)) == 12.0
  {
    RallySpeedsUp(BaseBallSpeed as real, 7);
  }
}
