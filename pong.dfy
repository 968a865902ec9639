/**
 * The Pong page: a ball and two paddles in WebGL clip space ([-1, 1] on both
 * axes, y pointing up). Every position is the TOP-LEFT corner of its
 * rectangle. The page keeps its whole game state in module-level variables
 * that the frame loop and the key handlers update in place; here that state
 * is the class `Game`.
 *
 * Math.random draws, Date.now readings and Math.sin / Math.cos / Math.PI are
 * parameters of the operations that use them.
 */
module Pong {

  const PuckSpeed: real := 0.02
  const PlayerPaddleSpeed: real := 0.02
  const ComputerPaddleSpeed: real := 0.02
  /** A draw below this makes the computer paddle chase the ball. */
  const ChaseProbability: real := 0.85
  const InitialXOffset: real := 0.1

  const PaddleHeight: real := 0.4
  const PaddleWidth: real := 0.05
  const BallSide: real := 0.1

  /** The paddles' fixed x coordinates. */
  const PlayerX: real := -1.0 + InitialXOffset
  const ComputerX: real := 1.0 - InitialXOffset - PaddleWidth

  /** Where the ball is put back after a point. */
  const BallX0: real := -BallSide / 2.0
  const BallY0: real := -BallSide / 2.0

  /** Milliseconds between computer-paddle decisions when the scores are level. */
  const TimeToCheck: real := 500.0
  const ControlFactor: real := 50.0

  /** Length of the vertex position buffer: three quads of four 2-D corners. */
  const PositionsLength: nat := 3 * 8

  datatype Point = Point(x: real, y: real)
  datatype Velocity = Velocity(vx: real, vy: real)

  const Still: Velocity := Velocity(0.0, 0.0)
  const Serve: Point := Point(BallX0, BallY0)

  /** Keys the handlers tell apart; every other key is `OtherKey`. */
  datatype Key = ArrowUp | ArrowDown | Space | OtherKey

  // ---------------------------------------------------------------------
  // Paddle movement

  /** The two clamps applied, in order, to a paddle's y after it moves. */
  function ClampPaddleY(y: real, height: real): (r: real)
    ensures height <= 2.0 ==> -1.0 + height <= r <= 1.0
    ensures height <= 2.0 && -1.0 + height <= y <= 1.0 ==> r == y
    ensures height <= 2.0 && y > 1.0 ==> r == 1.0
    ensures y < -1.0 + height ==> r == -1.0 + height
    ensures height > 2.0 ==> r == -1.0 + height
  {
    var top := if y >= 1.0 then 1.0 else y;
    if top - height <= -1.0 then -1.0 + height else top
  }

  /** A paddle's y may range over [height - 1, 1]: its rectangle stays on screen. */
  predicate InPlayfield(y: real)
  {
    -1.0 + PaddleHeight <= y <= 1.0
  }

  /** The vertical velocity the computer paddle takes after a draw in [0, 1). */
  function ChaseVelocity(draw: real, ballY: real, paddleY: real): (vy: real)
    ensures vy == ComputerPaddleSpeed || vy == -ComputerPaddleSpeed
    ensures draw < ChaseProbability ==> (vy > 0.0 <==> ballY > paddleY)
    ensures draw >= ChaseProbability ==> (vy > 0.0 <==> ballY < paddleY)
  {
    if draw < ChaseProbability then
      if ballY > paddleY then ComputerPaddleSpeed else -ComputerPaddleSpeed
    else
      if ballY < paddleY then ComputerPaddleSpeed else -ComputerPaddleSpeed
  }

  // ---------------------------------------------------------------------
  // Collisions

  /** The ball's square and the paddle's rectangle overlap (edges touching included). */
  predicate Aligned(paddle: Point, width: real, height: real, ball: Point)
  {
    && paddle.x + width >= ball.x && ball.x + BallSide >= paddle.x
    && paddle.y - height <= ball.y && ball.y - BallSide <= paddle.y
  }

  /** Clamps the hit position into [0.2, 0.8]. */
  function ClampFraction(f: real): (r: real)
    ensures 0.2 <= r <= 0.8
    ensures 0.2 <= f <= 0.8 ==> r == f
    ensures f < 0.2 ==> r == 0.2
    ensures f > 0.8 ==> r == 0.8
  {
    var low := if f < 0.2 then 0.2 else f;
    if low > 0.8 then 0.8 else low
  }

  /**
   * Where along the paddle the ball struck: 0 with the ball's top level with
   * one ball-side above the paddle's top, 1 with it at the paddle's bottom.
   */
  function HitFraction(paddle: Point, height: real, ball: Point): real
    requires height + BallSide != 0.0
  {
    ((paddle.y + BallSide) - ball.y) / (height + BallSide)
  }

  /**
   * The ball's velocity after it strikes a paddle at fraction `f`: speed
   * PuckSpeed at angle pi*f from the vertical, horizontally away from the
   * paddle that was hit (rightwards from the player's, leftwards from the
   * computer's).
   */
  function Deflect(f: real, byPlayer: bool, sin: real -> real, cos: real -> real, pi: real): Velocity
  {
    if byPlayer then Velocity(PuckSpeed * sin(pi * f), PuckSpeed * cos(pi * f))
    else Velocity(-PuckSpeed * sin(pi * f), PuckSpeed * cos(pi * f))
  }

  /** The velocity a serve gives the ball for a draw in [0, 1). */
  function Launch(draw: real, sin: real -> real, cos: real -> real, pi: real): Velocity
  {
    Velocity(PuckSpeed * sin(pi * draw), PuckSpeed * cos(pi * draw))
  }

  /**
   * The velocity a paddle hit gives the ball: the hit fraction is clamped
   * into [0.2, 0.8] and the ball leaves at that angle.
   */
  method Bounce(paddle: Point, ball: Point, byPlayer: bool, sin: real -> real, cos: real -> real, pi: real)
    returns (v: Velocity)
    ensures v == Deflect(ClampFraction(HitFraction(paddle, PaddleHeight, ball)), byPlayer, sin, cos, pi)
  {
    var fraction := HitFraction(paddle, PaddleHeight, ball);
    if fraction < 0.2 {
      fraction := 0.2;
    }
    if fraction > 0.8 {
      fraction := 0.8;
    }
    v := Deflect(fraction, byPlayer, sin, cos, pi);
  }

  /**
   * With sine positive on (0, pi), a ball deflected by the player's paddle
   * moves right and one deflected by the computer's moves left; with
   * sin^2 + cos^2 = 1 the deflected ball keeps speed PuckSpeed.
   */
  lemma DeflectLeavesPaddle(f: real, sin: real -> real, cos: real -> real, pi: real)
    requires pi > 0.0
    requires forall t :: 0.0 < t < pi ==> sin(t) > 0.0
    requires forall t :: sin(t) * sin(t) + cos(t) * cos(t) == 1.0
    ensures Deflect(ClampFraction(f), true, sin, cos, pi).vx > 0.0
    ensures Deflect(ClampFraction(f), false, sin, cos, pi).vx < 0.0
    ensures var v := Deflect(ClampFraction(f), true, sin, cos, pi);
            v.vx * v.vx + v.vy * v.vy == PuckSpeed * PuckSpeed
    ensures var v := Deflect(ClampFraction(f), false, sin, cos, pi);
            v.vx * v.vx + v.vy * v.vy == PuckSpeed * PuckSpeed
  {
    var g := ClampFraction(f);
    var t := pi * g;
    assert 0.0 < t by {
      assert pi * 0.2 <= pi * g;
    }
    assert t < pi by {
      assert pi * g <= pi * 0.8;
    }
    var s, c := sin(t), cos(t);
    assert s > 0.0;
    SpeedOfTurn(s, c);
  }

  /** A velocity (p*s, p*c) with s^2 + c^2 = 1 has squared speed p^2. */
  lemma SpeedOfTurn(s: real, c: real)
    requires s * s + c * c == 1.0
    ensures (PuckSpeed * s) * (PuckSpeed * s) + (PuckSpeed * c) * (PuckSpeed * c)
            == PuckSpeed * PuckSpeed
    ensures (-PuckSpeed * s) * (-PuckSpeed * s) + (PuckSpeed * c) * (PuckSpeed * c)
            == PuckSpeed * PuckSpeed
  {
    assert (PuckSpeed * s) * (PuckSpeed * s) == PuckSpeed * PuckSpeed * (s * s);
    assert (PuckSpeed * c) * (PuckSpeed * c) == PuckSpeed * PuckSpeed * (c * c);
  }

  /** The ball leaves through the left edge, through the right edge, or not at all. */
  datatype Exit = LeftExit | RightExit | NoExit

  /** The ball's top or bottom edge has reached the top or bottom wall. */
  predicate TouchesWall(ball: Point)
  {
    ball.y - BallSide <= -1.0 || ball.y >= 1.0
  }

  /** Which goal, if any, the ball is in; the left goal is checked first. */
  function WallExit(ball: Point): Exit
  {
    if ball.x <= -1.0 then LeftExit
    else if ball.x + BallSide >= 1.0 then RightExit
    else NoExit
  }

  /** While a round is not under way the ball rests around the centre. */
  predicate Parked(ball: Point)
  {
    BallX0 <= ball.x <= 0.0 && BallY0 <= ball.y <= 0.0
  }

  /** A parked ball meets neither paddle, neither wall and neither goal. */
  lemma ParkedBallIsFree(ball: Point, playerY: real, computerY: real)
    requires Parked(ball)
    ensures !Aligned(Point(PlayerX, playerY), PaddleWidth, PaddleHeight, ball)
    ensures !Aligned(Point(ComputerX, computerY), PaddleWidth, PaddleHeight, ball)
    ensures !TouchesWall(ball)
    ensures WallExit(ball) == NoExit
  {
  }

  /**
   * The threshold the elapsed time must pass before the computer paddle
   * decides again: it shrinks as the player's lead grows, so a losing
   * computer reacts more often.
   */
  function Threshold(playerScore: nat, computerScore: nat): (r: real)
    ensures playerScore > computerScore <==> r < TimeToCheck
    ensures playerScore == computerScore <==> r == TimeToCheck
  {
    TimeToCheck - ControlFactor * ((playerScore - computerScore) as real)
  }

  // ---------------------------------------------------------------------
  // Vertex data

  /** The four corners of a rectangle: top left, top right, bottom left, bottom right. */
  function QuadCorners(x: real, y: real, dx: real, dy: real): seq<real>
  {
    [x, y, x + dx, y, x, y - dy, x + dx, y - dy]
  }

  /** Writes a rectangle's corners into `a[index..index + 8]`. */
  method MakeQuad(a: array<real>, index: nat, x: real, y: real, dx: real, dy: real)
    requires index + 8 <= a.Length
    modifies a
    ensures a[index..index + 8] == QuadCorners(x, y, dx, dy)
    ensures forall k :: 0 <= k < a.Length && !(index <= k < index + 8) ==> a[k] == old(a[k])
  {
    a[index + 0] := x;
    a[index + 1] := y;
    a[index + 2] := x + dx;
    a[index + 3] := y;
    a[index + 4] := x;
    a[index + 5] := y - dy;
    a[index + 6] := x + dx;
    a[index + 7] := y - dy;
  }

  /** The vertex buffer of a frame: the ball's corners, then the player's, then the computer's. */
  function SceneVertices(ball: Point, player: Point, computer: Point): (r: seq<real>)
    ensures |r| == PositionsLength
  {
    QuadCorners(ball.x, ball.y, BallSide, BallSide)
    + QuadCorners(player.x, player.y, PaddleWidth, PaddleHeight)
    + QuadCorners(computer.x, computer.y, PaddleWidth, PaddleHeight)
  }

  /** The element buffer: two triangles per quad, ball, player paddle, computer paddle. */
  const ElementIndices: seq<int> :=
    [0, 1, 2, 2, 1, 3,
     4, 5, 6, 6, 5, 7,
     8, 9, 10, 10, 9, 11]

  /** The corner a triangle's k-th index points to, within its own quad. */
  function QuadCorner(k: nat): nat
    requires k < 6
  {
    [0, 1, 2, 2, 1, 3][k]
  }

  /**
   * Each quad's six indices name only its own four corners, the two
   * triangles share the top-right / bottom-left diagonal, and together they
   * use all four corners.
   */
  lemma ElementIndicesCoverQuads(q: nat, k: nat)
    requires q < 3 && k < 6
    ensures |ElementIndices| == 3 * 6
    ensures ElementIndices[6 * q + k] == 4 * q + QuadCorner(k)
    ensures 4 * q <= ElementIndices[6 * q + k] < 4 * q + 4
    ensures ElementIndices[6 * q + k] < PositionsLength / 2
    ensures {QuadCorner(0), QuadCorner(1), QuadCorner(2), QuadCorner(5)} == {0, 1, 2, 3}
  {
    if q == 0 {
    } else if q == 1 {
    } else {
      assert q == 2;
    }
  }

  // ---------------------------------------------------------------------
  // The game

  class Game {
    var betweenRounds: bool
    var playerScore: nat
    var computerScore: nat

    var ballPos: Point
    var ballV: Velocity
    var playerPos: Point
    var playerV: Velocity
    var computerPos: Point
    var computerV: Velocity

    /** Corners of the ball, the player paddle and the computer paddle, in that order. */
    const positions: array<real>

    var timeElapsed: real
    var prevTime: real

    /**
     * The game's invariant: paddles keep their columns and stay on screen,
     * and between rounds the ball rests, still, near the centre.
     */
    predicate Valid()
      reads this
    {
      && positions.Length == PositionsLength
      && playerPos.x == PlayerX && playerV.vx == 0.0
      && computerPos.x == ComputerX && computerV.vx == 0.0
      && InPlayfield(playerPos.y) && InPlayfield(computerPos.y)
      && (betweenRounds ==> ballV == Still && Parked(ballPos))
    }

    /** The page's starting state at time `now`: level at 0-0, waiting for a serve. */
    constructor (now: real)
      ensures Valid() && fresh(positions)
      ensures betweenRounds && playerScore == 0 && computerScore == 0
      ensures ballPos == Point(0.0, 0.0) && ballV == Still
      ensures playerPos == Point(PlayerX, 0.0) && playerV == Still
      ensures computerPos == Point(ComputerX, 0.0) && computerV == Still
      ensures timeElapsed == 0.0 && prevTime == now
    {
      betweenRounds := true;
      playerScore := 0;
      computerScore := 0;
      ballPos := Point(0.0, 0.0);
      ballV := Still;
      playerPos := Point(PlayerX, 0.0);
      playerV := Still;
      computerPos := Point(ComputerX, 0.0);
      computerV := Still;
      positions := new real[PositionsLength];
      timeElapsed := 0.0;
      prevTime := now;
    }

    /**
     * Moves the ball and both paddles by `dt` times their velocities, then
     * clamps each paddle's y so that the paddle stays on screen.
     */
    method UpdatePositions(dt: real)
      requires Valid()
      modifies this
      ensures Valid()
      ensures ballPos == Point(old(ballPos.x) + dt * old(ballV.vx), old(ballPos.y) + dt * old(ballV.vy))
      ensures playerPos == Point(old(playerPos.x) + dt * old(playerV.vx),
                                 ClampPaddleY(old(playerPos.y) + dt * old(playerV.vy), PaddleHeight))
      ensures computerPos == Point(old(computerPos.x) + dt * old(computerV.vx),
                                   ClampPaddleY(old(computerPos.y) + dt * old(computerV.vy), PaddleHeight))
      ensures ballV == old(ballV) && playerV == old(playerV) && computerV == old(computerV)
      ensures betweenRounds == old(betweenRounds)
      ensures playerScore == old(playerScore) && computerScore == old(computerScore)
      ensures timeElapsed == old(timeElapsed) && prevTime == old(prevTime)
    {
      ballPos := Point(ballPos.x + dt * ballV.vx, ballPos.y + dt * ballV.vy);

      var py := playerPos.y + dt * playerV.vy;
      if py >= 1.0 {
        py := 1.0;
      }
      if py - PaddleHeight <= -1.0 {
        py := -1.0 + PaddleHeight;
      }
      playerPos := Point(playerPos.x + dt * playerV.vx, py);

      var cy := computerPos.y + dt * computerV.vy;
      if cy >= 1.0 {
        cy := 1.0;
      }
      if cy - PaddleHeight <= -1.0 {
        cy := -1.0 + PaddleHeight;
      }
      computerPos := Point(computerPos.x + dt * computerV.vx, cy);
    }

    /**
     * Bounces the ball off either paddle it overlaps. The player's paddle is
     * checked first and a hit there ends the call, so the computer's paddle is
     * not checked after a player hit.
     */
    method PaddleCollide(sin: real -> real, cos: real -> real, pi: real)
      requires Valid()
      modifies this
      ensures Valid()
      ensures old(Aligned(playerPos, PaddleWidth, PaddleHeight, ballPos)) ==>
                ballV == Deflect(ClampFraction(old(HitFraction(playerPos, PaddleHeight, ballPos))),
                                 true, sin, cos, pi)
      ensures !old(Aligned(playerPos, PaddleWidth, PaddleHeight, ballPos))
              && old(Aligned(computerPos, PaddleWidth, PaddleHeight, ballPos)) ==>
                ballV == Deflect(ClampFraction(old(HitFraction(computerPos, PaddleHeight, ballPos))),
                                 false, sin, cos, pi)
      ensures !old(Aligned(playerPos, PaddleWidth, PaddleHeight, ballPos))
              && !old(Aligned(computerPos, PaddleWidth, PaddleHeight, ballPos)) ==>
                ballV == old(ballV)
      ensures ballPos == old(ballPos) && betweenRounds == old(betweenRounds)
      ensures playerPos == old(playerPos) && playerV == old(playerV)
      ensures computerPos == old(computerPos) && computerV == old(computerV)
      ensures playerScore == old(playerScore) && computerScore == old(computerScore)
      ensures timeElapsed == old(timeElapsed) && prevTime == old(prevTime)
    {
      if Aligned(playerPos, PaddleWidth, PaddleHeight, ballPos) {
        assert !betweenRounds by {
          if betweenRounds {
            ParkedBallIsFree(ballPos, playerPos.y, computerPos.y);
          }
        }
        ballV := Bounce(playerPos, ballPos, true, sin, cos, pi);
        return;
      }

      if Aligned(computerPos, PaddleWidth, PaddleHeight, ballPos) {
        assert !betweenRounds by {
          if betweenRounds {
            ParkedBallIsFree(ballPos, playerPos.y, computerPos.y);
          }
        }
        ballV := Bounce(computerPos, ballPos, false, sin, cos, pi);
        return;
      }
    }

    /**
     * Reverses the ball's vertical motion at the top and bottom walls; a ball
     * in a goal scores a point for the other side and is put back, still, at
     * the serve point, between rounds.
     */
    method WallCollide()
      requires Valid()
      modifies this
      ensures Valid()
      ensures old(WallExit(ballPos)) == NoExit ==>
                && ballPos == old(ballPos) && betweenRounds == old(betweenRounds)
                && ballV == Velocity(old(ballV.vx),
                                     if old(TouchesWall(ballPos)) then -old(ballV.vy) else old(ballV.vy))
                && playerScore == old(playerScore) && computerScore == old(computerScore)
      ensures old(WallExit(ballPos)) == LeftExit ==>
                && computerScore == old(computerScore) + 1 && playerScore == old(playerScore)
                && ballPos == Serve && ballV == Still && betweenRounds
      ensures old(WallExit(ballPos)) == RightExit ==>
                && playerScore == old(playerScore) + 1 && computerScore == old(computerScore)
                && ballPos == Serve && ballV == Still && betweenRounds
      ensures playerPos == old(playerPos) && playerV == old(playerV)
      ensures computerPos == old(computerPos) && computerV == old(computerV)
      ensures timeElapsed == old(timeElapsed) && prevTime == old(prevTime)
    {
      if ballPos.y - BallSide <= -1.0 || ballPos.y >= 1.0 {
        ballV := ballV.(vy := -ballV.vy);
      }

      if ballPos.x <= -1.0 {
        computerScore := computerScore + 1;
        ballPos := Serve;
        ballV := Still;
        betweenRounds := true;
      }

      if ballPos.x + BallSide >= 1.0 {
        playerScore := playerScore + 1;
        ballPos := Serve;
        ballV := Still;
        betweenRounds := true;
      }
    }

    /** Points the computer paddle up or down according to a draw in [0, 1). */
    method UpdateComputerPaddleVelocity(draw: real)
      requires Valid()
      modifies this
      ensures Valid()
      ensures computerV == Velocity(old(computerV.vx), ChaseVelocity(draw, old(ballPos.y), old(computerPos.y)))
      ensures ballPos == old(ballPos) && ballV == old(ballV) && betweenRounds == old(betweenRounds)
      ensures playerPos == old(playerPos) && playerV == old(playerV) && computerPos == old(computerPos)
      ensures playerScore == old(playerScore) && computerScore == old(computerScore)
      ensures timeElapsed == old(timeElapsed) && prevTime == old(prevTime)
    {
      if draw < ChaseProbability {
        if ballPos.y > computerPos.y {
          computerV := computerV.(vy := ComputerPaddleSpeed);
        } else {
          computerV := computerV.(vy := -ComputerPaddleSpeed);
        }
      } else {
        if ballPos.y < computerPos.y {
          computerV := computerV.(vy := ComputerPaddleSpeed);
        } else {
          computerV := computerV.(vy := -ComputerPaddleSpeed);
        }
      }
    }

    /**
     * A key press: the arrows set the player paddle moving, the space bar
     * serves with the draw `draw` when a round is not under way, and any
     * other key stops the player paddle.
     */
    method KeyDown(key: Key, draw: real, sin: real -> real, cos: real -> real, pi: real)
      requires Valid()
      modifies this
      ensures Valid()
      ensures key == ArrowUp ==> playerV == old(playerV).(vy := PlayerPaddleSpeed)
      ensures key == ArrowDown ==> playerV == old(playerV).(vy := -PlayerPaddleSpeed)
      ensures key == OtherKey ==> playerV == old(playerV).(vy := 0.0)
      ensures key == Space ==> playerV == old(playerV)
      ensures key == Space && old(betweenRounds) ==>
                ballV == Launch(draw, sin, cos, pi) && !betweenRounds
      ensures !(key == Space && old(betweenRounds)) ==>
                ballV == old(ballV) && betweenRounds == old(betweenRounds)
      ensures ballPos == old(ballPos) && computerPos == old(computerPos) && computerV == old(computerV)
      ensures playerPos == old(playerPos)
      ensures playerScore == old(playerScore) && computerScore == old(computerScore)
      ensures timeElapsed == old(timeElapsed) && prevTime == old(prevTime)
    {
      match key {
        case ArrowUp =>
          playerV := playerV.(vy := PlayerPaddleSpeed);
        case ArrowDown =>
          playerV := playerV.(vy := -PlayerPaddleSpeed);
        case Space =>
          if betweenRounds {
            betweenRounds := false;
            ballV := Velocity(PuckSpeed * sin(pi * draw), PuckSpeed * cos(pi * draw));
          }
        case OtherKey =>
          playerV := playerV.(vy := 0.0);
      }
    }

    /** A key release: releasing either arrow stops the player paddle; other keys do nothing. */
    method KeyUp(key: Key)
      requires Valid()
      modifies this
      ensures Valid()
      ensures key == ArrowUp || key == ArrowDown ==> playerV == old(playerV).(vy := 0.0)
      ensures key == Space || key == OtherKey ==> playerV == old(playerV)
      ensures ballPos == old(ballPos) && ballV == old(ballV) && betweenRounds == old(betweenRounds)
      ensures playerPos == old(playerPos) && computerPos == old(computerPos) && computerV == old(computerV)
      ensures playerScore == old(playerScore) && computerScore == old(computerScore)
      ensures timeElapsed == old(timeElapsed) && prevTime == old(prevTime)
    {
      if key == ArrowUp || key == ArrowDown {
        playerV := playerV.(vy := 0.0);
      }
    }

    /** The three `make_quad` calls of a frame: ball, player paddle, computer paddle. */
    method LayOutQuads()
      requires Valid()
      modifies positions
      ensures positions[..] == SceneVertices(ballPos, playerPos, computerPos)
    {
      ghost var ball := QuadCorners(ballPos.x, ballPos.y, BallSide, BallSide);
      ghost var player := QuadCorners(playerPos.x, playerPos.y, PaddleWidth, PaddleHeight);
      ghost var computer := QuadCorners(computerPos.x, computerPos.y, PaddleWidth, PaddleHeight);
      MakeQuad(positions, 0 * 8, ballPos.x, ballPos.y, BallSide, BallSide);
      assert forall k :: 0 <= k < 8 ==> positions[k] == ball[k];
      MakeQuad(positions, 1 * 8, playerPos.x, playerPos.y, PaddleWidth, PaddleHeight);
      assert forall k :: 0 <= k < 8 ==> positions[8 + k] == player[k];
      MakeQuad(positions, 2 * 8, computerPos.x, computerPos.y, PaddleWidth, PaddleHeight);
      assert forall k :: 0 <= k < 8 ==> positions[16 + k] == computer[k];
      assert positions[..] == ball + player + computer;
    }

    /**
     * One animation frame at time `now`: lays out the three rectangles for
     * drawing, lets the computer paddle decide again (with the draw `draw`)
     * once enough time has passed, then advances the game one step.
     */
    method Render(now: real, draw: real, sin: real -> real, cos: real -> real, pi: real)
      requires Valid()
      modifies this, positions
      ensures Valid()
      ensures prevTime == now
      ensures positions[..] == SceneVertices(old(ballPos), old(playerPos), old(computerPos))
      ensures var elapsed := old(timeElapsed) + (now - old(prevTime));
              timeElapsed == if elapsed > Threshold(old(playerScore), old(computerScore)) then 0.0 else elapsed
      ensures var elapsed := old(timeElapsed) + (now - old(prevTime));
              elapsed > Threshold(old(playerScore), old(computerScore)) ==>
                computerV.vy == ChaseVelocity(draw, old(ballPos.y), old(computerPos.y))
      ensures var elapsed := old(timeElapsed) + (now - old(prevTime));
              elapsed <= Threshold(old(playerScore), old(computerScore)) ==>
                computerV == old(computerV)
      ensures playerV == old(playerV)
      ensures old(playerScore) <= playerScore && old(computerScore) <= computerScore
      ensures playerScore + computerScore <= old(playerScore) + old(computerScore) + 1
    {
      var dt := now - prevTime;
      prevTime := now;
      timeElapsed := timeElapsed + dt;

      LayOutQuads();

      var threshold := TimeToCheck - ControlFactor * ((playerScore - computerScore) as real);
      if timeElapsed > threshold {
        UpdateComputerPaddleVelocity(draw);
        timeElapsed := 0.0;
      }
      UpdatePositions(1.0);
      PaddleCollide(sin, cos, pi);
      WallCollide();
    }
  }

  /**
   * A round in progress is never frozen by a serve key, and a goal always
   * ends the round: after a left or right exit the next space press serves
   * again with the launch velocity.
   */
  method ServeAfterGoal(g: Game, draw: real, sin: real -> real, cos: real -> real, pi: real)
    requires g.Valid()
    requires WallExit(g.ballPos) != NoExit
    modifies g
    ensures g.Valid() && !g.betweenRounds && g.ballV == Launch(draw, sin, cos, pi)
    ensures g.ballPos == Serve
  {
    g.WallCollide();
    g.KeyDown(Space, draw, sin, cos, pi);
  }
}
