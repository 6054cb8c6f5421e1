/** The rules of one animation frame of the game, on values: the shared game
    state as one record, and one function per phase of the frame, in the order
    the game loop runs them. */
module Rules {
  import opened Geometry

  /** Thickness of the walls and size of the ball. */
  const Grid: real := 15.0
  /** Paddle height: five grid cells, that is 75 units. */
  const PaddleHeight: real := 5.0 * Grid
  const BaseBallSpeed: int := 5
  /** Speed the keyboard gives a paddle. */
  const PaddleSpeed: real := 6.0
  const InitialAiPaddleSpeed: int := 4
  const InitialAiRefreshThreshold: int := 20
  /** Refresh threshold once player two has more than five points. */
  const LateAiRefreshThreshold: int := 10
  const WinningScore: nat := 7

  /** Key codes the game listens to. */
  const ArrowUp: int := 38
  const ArrowDown: int := 40
  const KeyW: int := 87
  const KeyS: int := 83

  /** Size of the canvas, fixed by the page. */
  datatype Field = Field(width: real, height: real)

  /** The canvas is tall enough for both walls and a paddle between them. */
  predicate ValidField(f: Field) {
    f.width >= 0.0 && f.height >= 2.0 * Grid + PaddleHeight
  }

  function MaxPaddleY(f: Field): real {
    f.height - Grid - PaddleHeight
  }

  /** Top of a vertically centred paddle. */
  function CentrePaddleY(f: Field): real {
    f.height / 2.0 - PaddleHeight / 2.0
  }

  /** A paddle: Grid wide and PaddleHeight tall, moving vertically by dy. */
  datatype Paddle = Paddle(x: real, y: real, dy: real)

  /** The ball: Grid by Grid, with velocity (dx, dy) and the flag that guards
      against scoring twice for one exit. */
  datatype Ball = Ball(x: real, y: real, dx: real, dy: real, resetting: bool)

  /** Everything one frame reads and writes. */
  datatype State = State(
    left: Paddle,
    right: Paddle,
    ball: Ball,
    playerOneScore: nat,
    playerTwoScore: nat,
    ballSpeed: int,
    aiPaddleSpeed: int,
    aiRefreshThreshold: int,
    aiTarget: real,
    ballTier: nat,
    gameOver: bool)

  function PaddleRect(p: Paddle): Rect {
    Rect(p.x, p.y, Grid, PaddleHeight)
  }

  function BallRect(b: Ball): Rect {
    Rect(b.x, b.y, Grid, Grid)
  }

  function Abs(v: real): (a: real)
    ensures a >= 0.0 && (a == v || a == -v)
  {
    if v < 0.0 then -v else v
  }

  /** The state the page starts in. */
  function Initial(f: Field): (s: State)
    ensures ValidField(f) ==> Inv(f, s)
    ensures !s.gameOver && s.playerOneScore == 0 && s.playerTwoScore == 0
  {
    State(
      Paddle(2.0 * Grid, CentrePaddleY(f), 0.0),
      Paddle(f.width - 3.0 * Grid, CentrePaddleY(f), 0.0),
      Ball(f.width / 2.0, f.height / 2.0, BaseBallSpeed as real, -(BaseBallSpeed as real), false),
      0, 0,
      BaseBallSpeed, InitialAiPaddleSpeed, InitialAiRefreshThreshold,
      0.0, 0, false)
  }

  /** What holds of every state the game can reach (see Lifecycle.Run):
      paddles and ball inside the walls, a vertical speed of 5, scores of at
      most 7 with the game over exactly when one of them is 7, and the
      difficulty settings determined by player two's score. */
  ghost predicate Inv(f: Field, s: State) {
    && s.left.x == 2.0 * Grid
    && s.right.x == f.width - 3.0 * Grid
    && Grid <= s.left.y <= MaxPaddleY(f)
    && Grid <= s.right.y <= MaxPaddleY(f)
    && Grid <= s.ball.y <= f.height - 2.0 * Grid
    && Abs(s.ball.dy) == BaseBallSpeed as real
    && s.playerOneScore <= WinningScore
    && s.playerTwoScore <= WinningScore
    && !(s.playerOneScore == WinningScore && s.playerTwoScore == WinningScore)
    && (s.gameOver <==> s.playerOneScore == WinningScore || s.playerTwoScore == WinningScore)
    && s.ballSpeed >= BaseBallSpeed
    && s.aiPaddleSpeed == InitialAiPaddleSpeed + (s.playerTwoScore + 1) / 2
    && s.aiRefreshThreshold ==
         (if s.playerTwoScore > 5 then LateAiRefreshThreshold else InitialAiRefreshThreshold)
  }

  /** The parts of the match that survive the round: scores, difficulty,
      the AI's target, the tier and the game-over latch. */
  ghost predicate SameMatch(s: State, r: State) {
    && r.playerOneScore == s.playerOneScore
    && r.playerTwoScore == s.playerTwoScore
    && r.ballSpeed == s.ballSpeed
    && r.aiPaddleSpeed == s.aiPaddleSpeed
    && r.aiRefreshThreshold == s.aiRefreshThreshold
    && r.aiTarget == s.aiTarget
    && r.ballTier == s.ballTier
    && r.gameOver == s.gameOver
  }

  /** r may follow s: scores and difficulty never go back, and once the game
      is over the match no longer changes. */
  ghost predicate Later(s: State, r: State) {
    && r.playerOneScore >= s.playerOneScore
    && r.playerTwoScore >= s.playerTwoScore
    && r.ballSpeed >= s.ballSpeed
    && r.aiPaddleSpeed >= s.aiPaddleSpeed
    && r.aiRefreshThreshold <= s.aiRefreshThreshold
    && (s.gameOver ==> SameMatch(s, r))
  }

  // ---------------------------------------------------------------- AI

  /** The speed the AI paddle moves at, kept below the ball's speed. */
  function CappedSpeed(s: State): real {
    Min(s.aiPaddleSpeed as real, (s.ballSpeed - 2) as real)
  }

  /** The AI aims at the ball's current height. */
  function RefreshTarget(s: State): (r: State)
    ensures r.aiTarget == s.ball.y
    ensures r.(aiTarget := s.aiTarget) == s
  {
    s.(aiTarget := s.ball.y)
  }

  /** True when the AI resamples its target this frame. */
  predicate TargetStale(s: State) {
    Abs(s.aiTarget - s.ball.y) >= s.aiRefreshThreshold as real || s.playerTwoScore > 6
  }

  /** The AI controller: sets the left paddle's velocity from the remembered
      target, resampling the target first when it has drifted too far. */
  function AiPaddleMove(s: State): (r: State)
    // only the target and the left paddle's velocity change
    ensures r == s.(aiTarget := r.aiTarget, left := s.left.(dy := r.left.dy))
    ensures s.ball.resetting ==> r.left.dy == 0.0 && r.aiTarget == s.aiTarget
    ensures !s.ball.resetting && TargetStale(s) ==> r.aiTarget == s.ball.y
    ensures !s.ball.resetting && !TargetStale(s) ==> r.aiTarget == s.aiTarget
    ensures !s.ball.resetting ==>
              var c := CappedSpeed(s);
              var d := s.left.y - r.aiTarget;
              && (Abs(d) <= c ==> r.left.dy == 0.0)
              && (Abs(d) > c && d > 0.0 ==> r.left.dy == -c)
              && (Abs(d) > c && d < 0.0 ==> r.left.dy == c)
              && (d == 0.0 ==> r.left.dy == 0.0)
  {
    if s.ball.resetting then
      s.(left := s.left.(dy := 0.0))
    else
      var t := if TargetStale(s) then RefreshTarget(s) else s;
      var distance := t.left.y - t.aiTarget;
      var capped := CappedSpeed(t);
      var dy :=
        if Abs(distance) > capped then
          if distance > 0.0 then -capped
          else if distance < 0.0 then capped
          else 0.0
        else 0.0;
      t.(left := t.left.(dy := dy))
  }

  /** When the AI moves its paddle, one frame's move brings the paddle closer
      to the target by exactly the capped speed and never past it. */
  lemma AiNeverOvershoots(s: State)
    requires !s.ball.resetting && CappedSpeed(s) > 0.0
    ensures var r := AiPaddleMove(s);
            var before := s.left.y - r.aiTarget;
            var after := s.left.y + r.left.dy - r.aiTarget;
            && (r.left.dy != 0.0 ==>
                  Abs(after) == Abs(before) - CappedSpeed(s) &&
                  (after > 0.0 <==> before > 0.0))
            && (r.left.dy == 0.0 ==> Abs(before) <= CappedSpeed(s))
  {
  }

  // ---------------------------------------------------------------- physics

  /** The walls stop a paddle: below the top wall it snaps to Grid, past the
      bottom limit to MaxPaddleY. */
  function ClampPaddleY(f: Field, y: real): (r: real)
    ensures ValidField(f) ==> Grid <= r <= MaxPaddleY(f)
    ensures Grid <= y <= MaxPaddleY(f) ==> r == y
    ensures y < Grid ==> r == Grid
    ensures Grid <= y && MaxPaddleY(f) < y ==> r == MaxPaddleY(f)
  {
    if y < Grid then Grid
    else if y > MaxPaddleY(f) then MaxPaddleY(f)
    else y
  }

  /** Both paddles move by their velocity and are stopped by the walls. */
  function MovePaddles(f: Field, s: State): (r: State)
    ensures r == s.(left := s.left.(y := r.left.y), right := s.right.(y := r.right.y))
    ensures r.left.y == ClampPaddleY(f, s.left.y + s.left.dy)
    ensures r.right.y == ClampPaddleY(f, s.right.y + s.right.dy)
    ensures ValidField(f) ==>
              Grid <= r.left.y <= MaxPaddleY(f) && Grid <= r.right.y <= MaxPaddleY(f)
  {
    s.(left := s.left.(y := ClampPaddleY(f, s.left.y + s.left.dy)),
       right := s.right.(y := ClampPaddleY(f, s.right.y + s.right.dy)))
  }

  /** The ball moves by its velocity, also while it is resetting. */
  function MoveBall(s: State): (r: State)
    ensures r.ball.x - s.ball.x == s.ball.dx && r.ball.y - s.ball.y == s.ball.dy
    ensures r == s.(ball := s.ball.(x := r.ball.x, y := r.ball.y))
  {
    s.(ball := s.ball.(x := s.ball.x + s.ball.dx, y := s.ball.y + s.ball.dy))
  }

  /** A ball past the top or the bottom wall is put back against it and its
      vertical velocity is reversed. */
  function BounceWalls(f: Field, s: State): (r: State)
    ensures r == s.(ball := s.ball.(y := r.ball.y, dy := r.ball.dy))
    ensures f.height >= 3.0 * Grid ==> Grid <= r.ball.y <= f.height - 2.0 * Grid
    ensures r.ball.dy == s.ball.dy || r.ball.dy == -s.ball.dy
    ensures Abs(r.ball.dy) == Abs(s.ball.dy)
    ensures Grid <= s.ball.y <= f.height - 2.0 * Grid ==> r == s
    ensures s.ball.y < Grid ==> r.ball.y == Grid && r.ball.dy == -s.ball.dy
    ensures Grid <= s.ball.y && s.ball.y + Grid > f.height - Grid ==>
              r.ball.y == f.height - 2.0 * Grid && r.ball.dy == -s.ball.dy
  {
    var b := s.ball;
    if b.y < Grid then
      s.(ball := b.(y := Grid, dy := -b.dy))
    else if b.y + Grid > f.height - Grid then
      s.(ball := b.(y := f.height - 2.0 * Grid, dy := -b.dy))
    else
      s
  }

  // ---------------------------------------------------------------- scoring

  /** The ball has left the field and this exit has not been scored yet. */
  predicate Scores(f: Field, s: State) {
    (s.ball.x < 0.0 || s.ball.x > f.width) && !s.ball.resetting
  }

  /** Scoring: a ball that leaves the field while not resetting gives one
      point (player one past the right edge, player two past the left edge),
      re-aims the ball at base speed, recentres the left paddle, clears the
      tier and may raise the AI's difficulty. */
  function Score(f: Field, s: State): (r: State)
    ensures !Scores(f, s) ==> r == s
    ensures r == s.(playerOneScore := r.playerOneScore, playerTwoScore := r.playerTwoScore,
                    aiPaddleSpeed := r.aiPaddleSpeed, aiRefreshThreshold := r.aiRefreshThreshold,
                    ballTier := r.ballTier,
                    ball := s.ball.(dx := r.ball.dx, resetting := r.ball.resetting),
                    left := s.left.(y := r.left.y))
    ensures Scores(f, s) ==>
              && r.ball.resetting
              && r.ballTier == 0
              && r.left.y == CentrePaddleY(f)
              && r.playerOneScore + r.playerTwoScore == s.playerOneScore + s.playerTwoScore + 1
              && r.playerOneScore >= s.playerOneScore
              && r.playerTwoScore >= s.playerTwoScore
    ensures Scores(f, s) && s.ball.x > f.width ==>
              && r.playerOneScore == s.playerOneScore + 1
              && r.ball.dx == BaseBallSpeed as real
              && r.aiPaddleSpeed == s.aiPaddleSpeed
              && r.aiRefreshThreshold == s.aiRefreshThreshold
    ensures Scores(f, s) && s.ball.x <= f.width ==>
              && s.ball.x < 0.0
              && r.playerTwoScore == s.playerTwoScore + 1
              && r.ball.dx == -(BaseBallSpeed as real)
              && r.aiPaddleSpeed == s.aiPaddleSpeed + (if r.playerTwoScore % 2 == 1 then 1 else 0)
              && r.aiRefreshThreshold ==
                   (if r.playerTwoScore > 5 then LateAiRefreshThreshold else s.aiRefreshThreshold)
  {
    if Scores(f, s) then
      var t := s.(ball := s.ball.(resetting := true));
      var u :=
        if s.ball.x > f.width then
          t.(playerOneScore := t.playerOneScore + 1,
             ball := t.ball.(dx := BaseBallSpeed as real))
        else if s.ball.x < 0.0 then
          var p2 := t.playerTwoScore + 1;
          t.(playerTwoScore := p2,
             ball := t.ball.(dx := -(BaseBallSpeed as real)),
             aiPaddleSpeed := if p2 % 2 == 1 then t.aiPaddleSpeed + 1 else t.aiPaddleSpeed,
             aiRefreshThreshold := if p2 > 5 then LateAiRefreshThreshold else t.aiRefreshThreshold)
        else
          t;
      u.(left := u.left.(y := CentrePaddleY(f)), ballTier := 0)
    else
      s
  }

  // ---------------------------------------------------------------- paddle hits

  /** Horizontal velocity after the left paddle returns the ball: one unit
      faster, heading right. */
  function LeftHitDx(dx: real): (r: real)
    ensures dx < 0.0 ==> r > 0.0 && Abs(r) == Abs(dx) + 1.0
  {
    -(dx - 1.0)
  }

  /** Horizontal velocity after the right paddle returns the ball: one unit
      faster, heading left. */
  function RightHitDx(dx: real): (r: real)
    ensures dx > 0.0 ==> r < 0.0 && Abs(r) == Abs(dx) + 1.0
  {
    -(dx + 1.0)
  }

  predicate HitsLeft(s: State) {
    Collides(BallRect(s.ball), PaddleRect(s.left))
  }

  predicate HitsRight(s: State) {
    Collides(BallRect(s.ball), PaddleRect(s.right))
  }

  /** Paddle hits: the left paddle is tested first and at most one paddle
      returns the ball; a return speeds the ball up, puts it flush against
      the paddle's face, and raises the tier and the ball speed by one. */
  function PaddleHits(s: State): (r: State)
    ensures r == s.(ball := s.ball.(x := r.ball.x, dx := r.ball.dx),
                    ballTier := r.ballTier, ballSpeed := r.ballSpeed)
    ensures !HitsLeft(s) && !HitsRight(s) ==> r == s
    ensures HitsLeft(s) || HitsRight(s) ==>
              r.ballTier == s.ballTier + 1 && r.ballSpeed == s.ballSpeed + 1
    ensures HitsLeft(s) ==>
              r.ball.x == s.left.x + Grid && !Collides(BallRect(r.ball), PaddleRect(s.left))
    ensures HitsLeft(s) ==> r.ball.dx == LeftHitDx(s.ball.dx)
    ensures HitsLeft(s) && s.ball.dx < 0.0 ==> r.ball.dx == Abs(s.ball.dx) + 1.0
    ensures !HitsLeft(s) && HitsRight(s) ==>
              r.ball.x == s.right.x - Grid && !Collides(BallRect(r.ball), PaddleRect(s.right))
    ensures !HitsLeft(s) && HitsRight(s) ==> r.ball.dx == RightHitDx(s.ball.dx)
    ensures !HitsLeft(s) && HitsRight(s) && s.ball.dx > 0.0 ==> r.ball.dx == -(s.ball.dx + 1.0)
  {
    var b := s.ball;
    if HitsLeft(s) then
      s.(ball := b.(dx := LeftHitDx(b.dx), x := s.left.x + Grid),
         ballTier := s.ballTier + 1, ballSpeed := s.ballSpeed + 1)
    else if HitsRight(s) then
      s.(ball := b.(dx := RightHitDx(b.dx), x := s.right.x - Grid),
         ballTier := s.ballTier + 1, ballSpeed := s.ballSpeed + 1)
    else
      s
  }

  // ---------------------------------------------------------------- game over

  /** The match ends once either player has seven points; the flag never clears. */
  function CheckGameOver(s: State): (r: State)
    ensures r == s.(gameOver := r.gameOver)
    ensures r.gameOver <==>
              s.gameOver || s.playerOneScore >= WinningScore || s.playerTwoScore >= WinningScore
  {
    if s.playerOneScore >= WinningScore || s.playerTwoScore >= WinningScore then
      s.(gameOver := true)
    else
      s
  }

  /** The winner text: player one (the AI side) wins when ahead on points. */
  predicate PlayerOneWins(s: State) {
    s.playerOneScore > s.playerTwoScore
  }

  /** At the end of a reachable match the winner is the player on seven. */
  lemma WinnerHasSevenPoints(f: Field, s: State)
    requires Inv(f, s) && s.gameOver
    ensures PlayerOneWins(s) <==> s.playerOneScore == WinningScore
    ensures !PlayerOneWins(s) <==> s.playerTwoScore == WinningScore
  {
  }

  // ---------------------------------------------------------------- one frame

  /** One frame of the game loop, drawing left out. */
  function Tick(f: Field, s: State): (r: State)
    ensures s.gameOver ==> r == s
    ensures ValidField(f) && Inv(f, s) ==> Inv(f, r) && Later(s, r)
  {
    if s.gameOver then
      s
    else
      CheckGameOver(PaddleHits(Score(f, BounceWalls(f, MoveBall(MovePaddles(f, AiPaddleMove(s)))))))
  }

  /** The game ends only on a frame that scores, from a ball in play. */
  lemma GameOverOnlyOnScoringFrame(f: Field, s: State)
    requires ValidField(f) && Inv(f, s) && !s.gameOver && Tick(f, s).gameOver
    ensures !s.ball.resetting && Tick(f, s).ball.resetting
    ensures Tick(f, s).playerOneScore + Tick(f, s).playerTwoScore ==
            s.playerOneScore + s.playerTwoScore + 1
  {
  }

  /** The rubber band `playerTwoScore > 6` of the AI never holds on a frame
      that runs the AI: the game is over by then. */
  lemma RubberBandNeverFires(f: Field, s: State)
    requires Inv(f, s) && !s.gameOver
    ensures TargetStale(s) <==> Abs(s.aiTarget - s.ball.y) >= s.aiRefreshThreshold as real
  {
  }

  /** A velocity given to the left paddle between frames, by a key or
      otherwise, has no effect: the AI overwrites it before the paddle moves. */
  lemma LeftPaddleVelocityOverridden(f: Field, s: State, v: real)
    requires !s.gameOver
    ensures Tick(f, s.(left := s.left.(dy := v))) == Tick(f, s)
  {
    assert AiPaddleMove(s.(left := s.left.(dy := v))) == AiPaddleMove(s);
  }

  // ---------------------------------------------------------------- between frames

  /** The delayed respawn: the ball is back in play at the centre of the
      field, keeping the velocity scoring gave it. */
  function Respawn(f: Field, s: State): (r: State)
    ensures !r.ball.resetting
    ensures r.ball.x == f.width / 2.0 && r.ball.y == f.height / 2.0
    ensures r == s.(ball := r.ball) && r.ball.dx == s.ball.dx && r.ball.dy == s.ball.dy
    ensures ValidField(f) && Inv(f, s) ==> Inv(f, r) && Later(s, r)
  {
    s.(ball := s.ball.(resetting := false, x := f.width / 2.0, y := f.height / 2.0))
  }

  /** A key press sets a paddle's velocity: arrows steer the right paddle,
      W and S the left one. */
  function KeyDown(s: State, code: int): (r: State)
    ensures r == s.(left := s.left.(dy := r.left.dy), right := s.right.(dy := r.right.dy))
    ensures code == ArrowUp ==> r.right.dy == -PaddleSpeed
    ensures code == ArrowDown ==> r.right.dy == PaddleSpeed
    ensures code == KeyW ==> r.left.dy == -PaddleSpeed
    ensures code == KeyS ==> r.left.dy == PaddleSpeed
    ensures code != ArrowUp && code != ArrowDown ==> r.right == s.right
    ensures code != KeyW && code != KeyS ==> r.left == s.left
  {
    var right :=
      if code == ArrowUp then s.right.(dy := -PaddleSpeed)
      else if code == ArrowDown then s.right.(dy := PaddleSpeed)
      else s.right;
    var left :=
      if code == KeyW then s.left.(dy := -PaddleSpeed)
      else if code == KeyS then s.left.(dy := PaddleSpeed)
      else s.left;
    s.(left := left, right := right)
  }

  /** Releasing a key stops the paddle it steers. */
  function KeyUp(s: State, code: int): (r: State)
    ensures r == s.(left := s.left.(dy := r.left.dy), right := s.right.(dy := r.right.dy))
    ensures code == ArrowUp || code == ArrowDown ==> r.right.dy == 0.0
    ensures code == KeyW || code == KeyS ==> r.left.dy == 0.0
    ensures code != ArrowUp && code != ArrowDown ==> r.right == s.right
    ensures code != KeyW && code != KeyS ==> r.left == s.left
  {
    var right := if code == ArrowUp || code == ArrowDown then s.right.(dy := 0.0) else s.right;
    var left := if code == KeyS || code == KeyW then s.left.(dy := 0.0) else s.left;
    s.(left := left, right := right)
  }
}
