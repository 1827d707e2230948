/** The game as the JavaScript program runs it: sprites that the handlers update in
    place and a match object holding the module-level variables, whose methods are
    the per-tick handlers. Each method is proved to leave the state its
    specification function in MatchSpec or Physics describes. */
module Game {
  import opened Rules
  import opened Physics
  import opened MatchSpec

  /** The fields of a p5.play sprite that the game logic reads and writes. */
  class Sprite {
    var x: real
    var y: real
    var vx: real
    var vy: real
    var rotationSpeed: real
    var currentAnimationName: string

    /** A sprite at rest at (`x0`, `y0`) showing `animation`. */
    constructor (x0: real, y0: real, animation: string)
      ensures Value() == SpriteState(x0, y0, 0.0, 0.0, 0.0, animation)
    {
      x, y := x0, y0;
      vx, vy := 0.0, 0.0;
      rotationSpeed := 0.0;
      currentAnimationName := animation;
    }

    function Value(): SpriteState
      reads this
    {
      SpriteState(x, y, vx, vy, rotationSpeed, currentAnimationName)
    }

    /** `setAnimationIfChanged`: select `name`, reporting whether the engine is asked
        to switch animations (only when `name` is not already selected). */
    method SetAnimationIfChanged(name: string) returns (changed: bool)
      modifies this
      ensures changed <==> AnimationChanges(old(Value()), name)
      ensures Value() == SetAnimation(old(Value()), name)
    {
      changed := currentAnimationName != name;
      if changed {
        currentAnimationName := name;
      }
    }

    /** `updatePlayer`, for a paddle whose key is `held`. */
    method UpdatePlayer(animPrefix: string, held: bool)
      modifies this
      ensures Value() == Physics.UpdatePlayer(old(Value()), animPrefix, held)
      ensures PLAYER_MIN_Y <= y <= PLAYER_MAX_Y
    {
      if held {
        vy := JUMP_VELOCITY;
      } else {
        vy := vy + PLAYER_GRAVITY;
      }
      if y > GROUND_Y_POS - PLAYER_HALF_HEIGHT {
        y := GROUND_Y_POS - PLAYER_HALF_HEIGHT;
        vy := 0.0;
      } else if y < PLAYER_HALF_HEIGHT {
        y := PLAYER_HALF_HEIGHT;
        vy := 0.0;
      }
      var _ := SetAnimationIfChanged(animPrefix + AnimationSuffix(vy));
    }
  }

  /** The module-level state of the game: the phase (which handler the frame callback
      runs), the scores, the ready flags, the countdown counters and the three sprites. */
  class Match {
    var phase: Phase
    var leftScore: int
    var rightScore: int
    var leftReady: bool
    var rightReady: bool
    var countdownRemaining: int
    var ticksRemainingInCount: int
    const leftPlayer: Sprite
    const rightPlayer: Sprite
    const ball: Sprite

    /** The three sprites are distinct objects. It reads only the constant sprite
        references, so every method keeps it. */
    ghost predicate Valid()
      reads this
    {
      leftPlayer != rightPlayer && leftPlayer != ball && rightPlayer != ball
    }

    function Value(): State
      reads this, leftPlayer, rightPlayer, ball
    {
      State(phase, leftScore, rightScore, leftReady, rightReady,
            countdownRemaining, ticksRemainingInCount,
            leftPlayer.Value(), rightPlayer.Value(), ball.Value())
    }

    /** `preload` and `setup`: the paddles at their columns and mid-height showing their
        idle animations, the ball mid-court, then `waitForReady`. The countdown
        counters start at 0 (they are unset until the first countdown). */
    constructor ()
      ensures Valid() && fresh(leftPlayer) && fresh(rightPlayer) && fresh(ball)
      ensures Value() == MatchSpec.WaitForReady(Value())
      ensures leftPlayer.Value() == SpriteState(20.0, GAME_HEIGHT / 2.0, 0.0, 0.0, 0.0, LEFT_PREFIX + " idle")
      ensures rightPlayer.Value()
        == SpriteState(GAME_WIDTH - 20.0, GAME_HEIGHT / 2.0, 0.0, 0.0, 0.0, RIGHT_PREFIX + " idle")
      ensures ball.Value() == SpriteState(GAME_WIDTH / 2.0, GAME_HEIGHT / 2.0, 0.0, 0.0, 0.0, "ball")
      ensures Inv(Value())
    {
      leftPlayer := new Sprite(20.0, GAME_HEIGHT / 2.0, LEFT_PREFIX + " idle");
      rightPlayer := new Sprite(GAME_WIDTH - 20.0, GAME_HEIGHT / 2.0, RIGHT_PREFIX + " idle");
      ball := new Sprite(GAME_WIDTH / 2.0, GAME_HEIGHT / 2.0, "ball");
      phase := AwaitingReady;
      leftScore, rightScore := 0, 0;
      leftReady, rightReady := false, false;
      countdownRemaining, ticksRemainingInCount := 0, 0;
    }

    /** `waitForReady`: reset the match and wait for both players. */
    method WaitForReady()
      requires Valid()
      modifies this, leftPlayer, rightPlayer
      ensures Value() == MatchSpec.WaitForReady(old(Value()))
    {
      leftReady := false;
      rightReady := false;
      leftScore := 0;
      rightScore := 0;
      leftPlayer.vy := 0.0;
      rightPlayer.vy := 0.0;
      leftPlayer.y := GAME_HEIGHT / 2.0;
      rightPlayer.y := GAME_HEIGHT / 2.0;
      phase := AwaitingReady;
    }

    /** `startCountdown`. */
    method StartCountdown()
      modifies this
      ensures Value() == MatchSpec.StartCountdown(old(Value()))
    {
      countdownRemaining := COUNTDOWN_START;
      ticksRemainingInCount := TICKS_PER_COUNT;
      phase := Countdown;
    }

    /** `waitForReadyDrawFunction`. */
    method WaitForReadyTick(keys: Keys)
      modifies this
      ensures Value() == MatchSpec.WaitForReadyTick(old(Value()), keys)
    {
      if keys.a {
        leftReady := true;
      }
      if keys.l {
        rightReady := true;
      }
      if leftReady && rightReady {
        StartCountdown();
      }
    }

    /** `resetBall`: serve in `direction` with the random draw `r`. */
    method ResetBall(direction: int, r: real)
      modifies ball
      ensures ball.Value() == Physics.ResetBall(old(ball.Value()), direction, r)
    {
      if direction == 1 {
        ball.x := SERVE_INSET_POSITION;
      } else {
        ball.x := GAME_WIDTH - SERVE_INSET_POSITION;
      }
      ball.y := GROUND_Y_POS - 100.0;
      ball.vx := SERVE_SPEED_X * (direction as real);
      ball.vy := -1.0 + -2.0 * r;
      ball.rotationSpeed := 0.0;
    }

    /** `startGame`: serve toward the right when `coin` is heads, and start play. */
    method StartGame(coin: bool, r: real)
      requires Valid()
      modifies this, ball
      ensures Value() == MatchSpec.StartGame(old(Value()), coin, r)
    {
      if coin {
        ResetBall(1, r);
      } else {
        ResetBall(-1, r);
      }
      phase := Playing;
    }

    /** Both paddles' `updatePlayer` calls. */
    method UpdatePlayers(keys: Keys)
      requires Valid()
      modifies leftPlayer, rightPlayer
      ensures Value() == MatchSpec.UpdatePlayers(old(Value()), keys)
    {
      leftPlayer.UpdatePlayer(LEFT_PREFIX, keys.a);
      rightPlayer.UpdatePlayer(RIGHT_PREFIX, keys.l);
    }

    /** `countdownDrawFunction`. */
    method CountdownTick(input: Input)
      requires Valid()
      modifies this, leftPlayer, rightPlayer, ball
      ensures Value() == MatchSpec.CountdownTick(old(Value()), input)
    {
      ticksRemainingInCount := ticksRemainingInCount - 1;
      if ticksRemainingInCount <= 0 {
        ticksRemainingInCount := TICKS_PER_COUNT;
        countdownRemaining := countdownRemaining - 1;
        if countdownRemaining <= 0 {
          StartGame(input.coin, input.r);
        }
      }
      UpdatePlayers(input.keys);
    }

    /** The floor and ceiling bounces of `updateBall`, after gravity. */
    method BounceBall()
      modifies ball
      ensures ball.Value() == Bounce(old(ball.Value()))
    {
      ball.vy := ball.vy + BALL_GRAVITY;
      if ball.y > GROUND_Y_POS - BALL_HALF_SIZE {
        ball.y := GROUND_Y_POS - BALL_HALF_SIZE;
        ball.vy := ball.vy * -BALL_BOUNCINESS;
        var spinEffect := ball.rotationSpeed * SPIN_EFFECT;
        ball.vx := ball.vx + spinEffect;
        ball.rotationSpeed := ball.rotationSpeed - spinEffect;
      } else if ball.y < BALL_HALF_SIZE {
        ball.y := BALL_HALF_SIZE;
        ball.vy := ball.vy * -1.0;
      }
    }

    /** The paddle collisions of `updateBall`. */
    method HitPaddles()
      requires Valid()
      modifies ball
      ensures ball.Value() == PaddleHit(old(ball.Value()), leftPlayer.Value(), rightPlayer.Value())
    {
      if ball.x < leftPlayer.x + PLAYER_HALF_WIDTH && ball.x > leftPlayer.x
         && ball.y + BALL_HALF_SIZE > leftPlayer.y - PLAYER_HALF_HEIGHT
         && ball.y - BALL_HALF_SIZE < leftPlayer.y + PLAYER_HALF_HEIGHT
      {
        ball.x := leftPlayer.x + PLAYER_HALF_WIDTH;
        ball.vx := ball.vx * -(1.0 + BALL_ACCELERATION_FACTOR);
        ball.vy := leftPlayer.vy;
        ball.rotationSpeed := ball.rotationSpeed + -leftPlayer.vy;
      } else if ball.x > rightPlayer.x - PLAYER_HALF_WIDTH && ball.x < rightPlayer.x
         && ball.y + BALL_HALF_SIZE > rightPlayer.y - PLAYER_HALF_HEIGHT
         && ball.y - BALL_HALF_SIZE < rightPlayer.y + PLAYER_HALF_HEIGHT
      {
        ball.x := rightPlayer.x - PLAYER_HALF_WIDTH;
        ball.vx := ball.vx * -(1.0 + BALL_ACCELERATION_FACTOR);
        ball.vy := rightPlayer.vy;
        ball.rotationSpeed := ball.rotationSpeed + rightPlayer.vy;
      }
    }

    /** `updateBall`: bounces, paddle hits, then scoring and the new serve. */
    method UpdateBall(r: real)
      requires Valid()
      modifies this, ball
      ensures Value() == MatchSpec.UpdateBall(old(Value()), r)
    {
      BounceBall();
      HitPaddles();
      if ball.x < -BALL_HALF_SIZE {
        rightScore := rightScore + 1;
        ResetBall(1, r);
      } else if ball.x > GAME_WIDTH + BALL_HALF_SIZE {
        leftScore := leftScore + 1;
        ResetBall(-1, r);
      }
    }

    /** `endGame`: lift the ball above the court and show the end of the match. */
    method EndGame()
      requires Valid()
      modifies this, ball
      ensures Value() == MatchSpec.EndGame(old(Value()))
    {
      ball.y := -BALL_SIZE;
      phase := Finished;
    }

    /** `gameplayDrawFunction`. */
    method GameplayTick(input: Input)
      requires Valid()
      modifies this, leftPlayer, rightPlayer, ball
      ensures Value() == MatchSpec.GameplayTick(old(Value()), input)
    {
      UpdatePlayers(input.keys);
      UpdateBall(input.r);
      if (leftScore >= TARGET_SCORE && leftScore - rightScore >= MIN_VICTORY_DELTA)
         || (rightScore >= TARGET_SCORE && rightScore - leftScore >= MIN_VICTORY_DELTA)
      {
        EndGame();
      }
    }

    /** `endGameDrawFunction`. */
    method EndGameTick(keys: Keys)
      requires Valid()
      modifies this, leftPlayer, rightPlayer
      ensures Value() == MatchSpec.EndGameTick(old(Value()), keys)
    {
      UpdatePlayers(keys);
      if keys.r {
        WaitForReady();
      }
    }

    /** `draw`: run the handler of the current phase. The invariant of MatchSpec is
        kept, the phase stays or advances to the next in the cycle, and scores only
        go down through a restart. */
    method Tick(input: Input)
      requires Valid()
      modifies this, leftPlayer, rightPlayer, ball
      ensures Valid()
      ensures Value() == MatchSpec.Tick(old(Value()), input)
      ensures Inv(old(Value())) ==> Inv(Value())
    {
      match phase {
        case AwaitingReady => WaitForReadyTick(input.keys);
        case Countdown => CountdownTick(input);
        case Playing => GameplayTick(input);
        case Finished => EndGameTick(input.keys);
      }
      if Inv(old(Value())) {
        TickPreservesInv(old(Value()), input);
      }
    }

    /** The "MATCH POINT" test of `drawHUD`: it holds exactly when one more point for
        some side would give a won score, including on the frame the match ends. */
    method IsMatchPoint() returns (b: bool)
      ensures b == MatchPoint(leftScore, rightScore)
      ensures b <==> GameOver(leftScore + 1, rightScore) || GameOver(leftScore, rightScore + 1)
      ensures GameOver(leftScore, rightScore) ==> b
    {
      b := (leftScore + 1 >= TARGET_SCORE && leftScore + 1 - rightScore >= MIN_VICTORY_DELTA)
        || (rightScore + 1 >= TARGET_SCORE && rightScore + 1 - leftScore >= MIN_VICTORY_DELTA);
      MatchPointMeansOnePointFromVictory(leftScore, rightScore);
    }

    /** The winner test of `drawEndGameHUD`. In a finished match, left wins exactly
        when it satisfies the victory rule. The test also runs on the restart frame,
        at 0-0 (see `MatchSpec.RestartFrameNamesRightSide`); on any tie it is false. */
    method LeftWins() returns (leftWins: bool)
      ensures leftScore == rightScore ==> !leftWins
      ensures Inv(Value()) && phase == Finished ==>
        (leftWins <==> Winner(leftScore, rightScore) == Left)
      ensures Inv(Value()) && phase == Finished ==>
        (leftWins <==> HasWon(leftScore, rightScore))
      ensures Inv(Value()) && phase == Finished ==>
        (!leftWins <==> HasWon(rightScore, leftScore))
    {
      leftWins := leftScore > rightScore;
    }
  }
}
