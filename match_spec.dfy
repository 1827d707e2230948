/** The match state machine of Tennis Jump as functions on a value: one function per
    per-tick handler and per state change the handlers share, a dispatcher `Tick`,
    the invariant every tick keeps, and what holds over runs of many ticks. */
module MatchSpec {
  import opened Rules
  import opened Physics

  /** Which handler the frame callback runs. */
  datatype Phase = AwaitingReady | Countdown | Playing | Finished

  const LEFT_PREFIX: string := "left player"
  const RIGHT_PREFIX: string := "right player"

  /** The countdown shows 3, 2, 1, each for 30 ticks. */
  const COUNTDOWN_START: int := 3
  const TICKS_PER_COUNT: int := 30

  /** The keys held during a tick: 'a' (left jump and ready), 'l' (right jump and
      ready) and 'r' (restart). */
  datatype Keys = Keys(a: bool, l: bool, r: bool)

  /** Everything a tick reads from outside: the keys, the serve-direction draw
      (`random([1, 2]) === 1`) and the `Math.random()` draw used by a serve. */
  datatype Input = Input(keys: Keys, coin: bool, r: real)

  /** The module-level state of the game. */
  datatype State = State(
    phase: Phase,
    leftScore: int, rightScore: int,
    leftReady: bool, rightReady: bool,
    countdownRemaining: int, ticksRemainingInCount: int,
    leftPlayer: SpriteState, rightPlayer: SpriteState, ball: SpriteState)

  /** Countdown ticks left before gameplay starts. */
  function CountdownTicksLeft(s: State): int
  {
    (s.countdownRemaining - 1) * TICKS_PER_COUNT + s.ticksRemainingInCount
  }

  /** The countdown counters' range while the countdown runs. */
  predicate CountdownBounds(s: State)
  {
    1 <= s.countdownRemaining <= COUNTDOWN_START && 1 <= s.ticksRemainingInCount <= TICKS_PER_COUNT
  }

  /** `waitForReady`: a fresh match waiting for both players. */
  function WaitForReady(s: State): (t: State)
    ensures t.phase == AwaitingReady && !t.leftReady && !t.rightReady
    ensures t.leftScore == 0 && t.rightScore == 0
    ensures t.leftPlayer == s.leftPlayer.(y := GAME_HEIGHT / 2.0, vy := 0.0)
    ensures t.rightPlayer == s.rightPlayer.(y := GAME_HEIGHT / 2.0, vy := 0.0)
    ensures t.ball == s.ball
    ensures t.countdownRemaining == s.countdownRemaining
    ensures t.ticksRemainingInCount == s.ticksRemainingInCount
  {
    s.(leftReady := false, rightReady := false, leftScore := 0, rightScore := 0,
       leftPlayer := s.leftPlayer.(vy := 0.0, y := GAME_HEIGHT / 2.0),
       rightPlayer := s.rightPlayer.(vy := 0.0, y := GAME_HEIGHT / 2.0),
       phase := AwaitingReady)
  }

  /** `startCountdown`: ninety ticks to go, nothing else touched. */
  function StartCountdown(s: State): (t: State)
    ensures t.phase == Countdown && CountdownBounds(t)
    ensures CountdownTicksLeft(t) == COUNTDOWN_START * TICKS_PER_COUNT
    ensures t.(phase := s.phase, countdownRemaining := s.countdownRemaining,
               ticksRemainingInCount := s.ticksRemainingInCount) == s
  {
    s.(countdownRemaining := COUNTDOWN_START, ticksRemainingInCount := TICKS_PER_COUNT,
       phase := Countdown)
  }

  /** `waitForReadyDrawFunction`: a held key marks its side ready (a flag is never
      cleared here), and the tick both sides are ready starts the countdown. */
  function WaitForReadyTick(s: State, keys: Keys): (t: State)
    ensures t.leftReady == (s.leftReady || keys.a)
    ensures t.rightReady == (s.rightReady || keys.l)
    ensures t.leftReady && t.rightReady ==>
      t.phase == Countdown && t.countdownRemaining == COUNTDOWN_START
      && t.ticksRemainingInCount == TICKS_PER_COUNT
    ensures !(t.leftReady && t.rightReady) ==>
      t.phase == s.phase && t.countdownRemaining == s.countdownRemaining
      && t.ticksRemainingInCount == s.ticksRemainingInCount
    ensures t.leftScore == s.leftScore && t.rightScore == s.rightScore
    ensures t.leftPlayer == s.leftPlayer && t.rightPlayer == s.rightPlayer && t.ball == s.ball
  {
    var ready := s.(leftReady := s.leftReady || keys.a, rightReady := s.rightReady || keys.l);
    if ready.leftReady && ready.rightReady then StartCountdown(ready) else ready
  }

  /** `startGame`: serve toward the right when the draw is heads (direction 1),
      toward the left otherwise, and start play. */
  function StartGame(s: State, coin: bool, r: real): (t: State)
    ensures t.phase == Playing
    ensures t.ball == ResetBall(s.ball, if coin then 1 else -1, r)
    ensures t.ball.vx == if coin then SERVE_SPEED_X else -SERVE_SPEED_X
    ensures t.(phase := s.phase, ball := s.ball) == s
  {
    s.(ball := ResetBall(s.ball, if coin then 1 else -1, r), phase := Playing)
  }

  /** Both paddles after `updatePlayer`, each driven by its own key. */
  function UpdatePlayers(s: State, keys: Keys): (t: State)
    ensures t.leftPlayer == UpdatePlayer(s.leftPlayer, LEFT_PREFIX, keys.a)
    ensures t.rightPlayer == UpdatePlayer(s.rightPlayer, RIGHT_PREFIX, keys.l)
    ensures t.(leftPlayer := s.leftPlayer, rightPlayer := s.rightPlayer) == s
  {
    s.(leftPlayer := UpdatePlayer(s.leftPlayer, LEFT_PREFIX, keys.a),
       rightPlayer := UpdatePlayer(s.rightPlayer, RIGHT_PREFIX, keys.l))
  }

  /** `countdownDrawFunction`: one tick off the countdown, then both paddles move.
      The tick that uses up the last count serves and starts gameplay. */
  function CountdownTick(s: State, input: Input): (t: State)
    ensures t.leftPlayer == UpdatePlayer(s.leftPlayer, LEFT_PREFIX, input.keys.a)
    ensures t.rightPlayer == UpdatePlayer(s.rightPlayer, RIGHT_PREFIX, input.keys.l)
    ensures t.leftScore == s.leftScore && t.rightScore == s.rightScore
    ensures t.leftReady == s.leftReady && t.rightReady == s.rightReady
    ensures CountdownBounds(s) && CountdownTicksLeft(s) > 1 ==>
      t.phase == s.phase && t.ball == s.ball
      && CountdownBounds(t) && CountdownTicksLeft(t) == CountdownTicksLeft(s) - 1
    ensures CountdownBounds(s) && CountdownTicksLeft(s) == 1 ==>
      t.phase == Playing && t.ball == ResetBall(s.ball, if input.coin then 1 else -1, input.r)
  {
    var ticked := s.(ticksRemainingInCount := s.ticksRemainingInCount - 1);
    var counted :=
      if ticked.ticksRemainingInCount <= 0 then
        var nextCount := ticked.(ticksRemainingInCount := TICKS_PER_COUNT,
                                 countdownRemaining := ticked.countdownRemaining - 1);
        if nextCount.countdownRemaining <= 0 then StartGame(nextCount, input.coin, input.r)
        else nextCount
      else ticked;
    UpdatePlayers(counted, input.keys)
  }

  /** The ball after gravity, bounces and paddle hits, before the scoring test. */
  function Struck(s: State): SpriteState
  {
    PaddleHit(Bounce(s.ball), s.leftPlayer, s.rightPlayer)
  }

  /** `updateBall`: the ball moves under the bounce and hit rules; a ball out past
      the left edge is a point for the right side and a serve toward the right, a
      ball out past the right edge a point for the left side and a serve toward the
      left. At most one score changes, by one, and the ball ends between floor and
      ceiling. */
  function UpdateBall(s: State, r: real): (t: State)
    ensures BALL_MIN_Y <= t.ball.y <= BALL_MAX_Y
    ensures OutLeft(Struck(s)) ==>
      t.rightScore == s.rightScore + 1 && t.leftScore == s.leftScore
      && t.ball == ResetBall(Struck(s), 1, r)
    ensures OutRight(Struck(s)) ==>
      t.leftScore == s.leftScore + 1 && t.rightScore == s.rightScore
      && t.ball == ResetBall(Struck(s), -1, r)
    ensures !OutLeft(Struck(s)) && !OutRight(Struck(s)) ==>
      t.leftScore == s.leftScore && t.rightScore == s.rightScore && t.ball == Struck(s)
    ensures t.(leftScore := s.leftScore, rightScore := s.rightScore, ball := s.ball) == s
  {
    var b := Struck(s);
    if OutLeft(b) then s.(rightScore := s.rightScore + 1, ball := ResetBall(b, 1, r))
    else if OutRight(b) then s.(leftScore := s.leftScore + 1, ball := ResetBall(b, -1, r))
    else s.(ball := b)
  }

  /** `endGame`: the ball is put above the court and the end-of-game handler takes over. */
  function EndGame(s: State): (t: State)
    ensures t.phase == Finished && t.ball.y == -BALL_SIZE
    ensures t.(phase := s.phase, ball := s.ball) == s && t.ball.(y := s.ball.y) == s.ball
  {
    s.(ball := s.ball.(y := -BALL_SIZE), phase := Finished)
  }

  /** `gameplayDrawFunction`: paddles, then ball, then the victory test. The match
      ends in this tick exactly when the scores after the ball update satisfy it. */
  function GameplayTick(s: State, input: Input): (t: State)
    ensures t.leftPlayer == UpdatePlayer(s.leftPlayer, LEFT_PREFIX, input.keys.a)
    ensures t.rightPlayer == UpdatePlayer(s.rightPlayer, RIGHT_PREFIX, input.keys.l)
    ensures GameOver(t.leftScore, t.rightScore) ==> t.phase == Finished && t.ball.y == -BALL_SIZE
    ensures !GameOver(t.leftScore, t.rightScore) ==>
      t.phase == s.phase && BALL_MIN_Y <= t.ball.y <= BALL_MAX_Y
    ensures var played := UpdateBall(UpdatePlayers(s, input.keys), input.r);
      t.leftScore == played.leftScore && t.rightScore == played.rightScore
      && (!GameOver(t.leftScore, t.rightScore) ==> t.ball == played.ball)
      && (GameOver(t.leftScore, t.rightScore) ==> t.ball == played.ball.(y := -BALL_SIZE))
    ensures t.leftReady == s.leftReady && t.rightReady == s.rightReady
  {
    var played := UpdateBall(UpdatePlayers(s, input.keys), input.r);
    if GameOver(played.leftScore, played.rightScore) then EndGame(played) else played
  }

  /** `endGameDrawFunction`: the paddles still move; a held 'r' restarts the match. */
  function EndGameTick(s: State, keys: Keys): (t: State)
    ensures keys.r ==>
      t.phase == AwaitingReady && t.leftScore == 0 && t.rightScore == 0
      && !t.leftReady && !t.rightReady
      && t.leftPlayer == UpdatePlayer(s.leftPlayer, LEFT_PREFIX, keys.a).(y := GAME_HEIGHT / 2.0, vy := 0.0)
      && t.rightPlayer == UpdatePlayer(s.rightPlayer, RIGHT_PREFIX, keys.l).(y := GAME_HEIGHT / 2.0, vy := 0.0)
    ensures !keys.r ==>
      t.phase == s.phase && t.leftScore == s.leftScore && t.rightScore == s.rightScore
      && t.leftReady == s.leftReady && t.rightReady == s.rightReady
      && t.leftPlayer == UpdatePlayer(s.leftPlayer, LEFT_PREFIX, keys.a)
      && t.rightPlayer == UpdatePlayer(s.rightPlayer, RIGHT_PREFIX, keys.l)
    ensures t.ball == s.ball
  {
    var moved := UpdatePlayers(s, keys);
    if keys.r then WaitForReady(moved) else moved
  }

  /** On the frame of a restart the end-of-game screen is still drawn, after the
      restart has zeroed the scores: its "left wins" test (left has more points) is
      false there, so that frame names the right side over a 0-0 score. */
  lemma RestartFrameNamesRightSide(s: State, keys: Keys)
    requires keys.r
    ensures var t := EndGameTick(s, keys);
      t.leftScore == 0 && t.rightScore == 0 && !(t.leftScore > t.rightScore)
      && !GameOver(t.leftScore, t.rightScore)
  {
  }

  /** The phase that follows `p` when its handler hands over. */
  function NextPhase(p: Phase): Phase
  {
    match p
    case AwaitingReady => Countdown
    case Countdown => Playing
    case Playing => Finished
    case Finished => AwaitingReady
  }

  /** `draw`: run the current phase's handler. A tick either stays in its phase or
      moves to the next one in the cycle; the scores never go down except when a
      restart zeroes them, and at most one of them goes up, by one. */
  function Tick(s: State, input: Input): (t: State)
    ensures t.phase == s.phase || t.phase == NextPhase(s.phase)
    ensures s.phase == Finished && input.keys.r ==>
      t.phase == AwaitingReady && t.leftScore == 0 && t.rightScore == 0
      && !t.leftReady && !t.rightReady
    ensures !(s.phase == Finished && input.keys.r) ==>
      (t.leftScore == s.leftScore && t.rightScore == s.rightScore)
      || (t.leftScore == s.leftScore + 1 && t.rightScore == s.rightScore)
      || (t.leftScore == s.leftScore && t.rightScore == s.rightScore + 1)
  {
    match s.phase
    case AwaitingReady => WaitForReadyTick(s, input.keys)
    case Countdown => CountdownTick(s, input)
    case Playing => GameplayTick(s, input)
    case Finished => EndGameTick(s, input.keys)
  }

  /** What the counters, flags and phase satisfy between ticks. Scores are zero until
      play starts; a waiting match is never already fully ready (both flags set starts
      the countdown in the same tick) and both flags stay set from then until the
      restart; the countdown counters stay in range; a match in play is not yet won,
      and a finished one is won with a decisive score. */
  ghost predicate Inv(s: State)
  {
    s.leftScore >= 0 && s.rightScore >= 0
    && (s.phase == AwaitingReady ==>
          s.leftScore == 0 && s.rightScore == 0 && !(s.leftReady && s.rightReady))
    && (s.phase != AwaitingReady ==> s.leftReady && s.rightReady)
    && (s.phase == Countdown ==>
          s.leftScore == 0 && s.rightScore == 0 && CountdownBounds(s))
    && (s.phase == Playing ==> !GameOver(s.leftScore, s.rightScore))
    && (s.phase == Finished ==>
          GameOver(s.leftScore, s.rightScore) && DecisiveScore(s.leftScore, s.rightScore))
  }

  /** Every tick keeps the invariant. */
  lemma TickPreservesInv(s: State, input: Input)
    requires Inv(s)
    ensures Inv(Tick(s, input))
  {
    if s.phase == Playing {
      var t := Tick(s, input);
      if t.leftScore == s.leftScore + 1 {
        OnePointEndsDecisively(s.leftScore, s.rightScore, Left);
      } else if t.rightScore == s.rightScore + 1 {
        OnePointEndsDecisively(s.leftScore, s.rightScore, Right);
      }
    }
  }

  /** A match that has just ended was ended by the point scored in that tick: the
      scorer is the winner, and the ball, served again for that point and then
      lifted above the court, is moving upward (so the engine carries it further out
      of view while the end-of-game screen shows). */
  lemma GameEndsOnAPoint(s: State, input: Input)
    requires Inv(s) && s.phase == Playing && 0.0 <= input.r < 1.0
    ensures var t := Tick(s, input);
      t.phase == Finished ==>
        t.ball.y == -BALL_SIZE && t.ball.vy <= -1.0 && t.ball.spin == 0.0
        && (Winner(t.leftScore, t.rightScore) == Left <==> t.leftScore == s.leftScore + 1)
  {
    var t := Tick(s, input);
    var played := UpdateBall(UpdatePlayers(s, input.keys), input.r);
    if t.phase == Finished {
      if t.leftScore == s.leftScore + 1 {
        OnePointEndsDecisively(s.leftScore, s.rightScore, Left);
      } else {
        OnePointEndsDecisively(s.leftScore, s.rightScore, Right);
      }
    }
  }

  /** What the engine does between ticks, left abstract: it may move every sprite to
      any position (p5.play adds each sprite's velocity to its position). Velocities
      and everything the game logic owns are left alone. */
  datatype Motion = Motion(
    leftX: real, leftY: real, rightX: real, rightY: real, ballX: real, ballY: real)

  function Move(s: State, m: Motion): (t: State)
    ensures t.(leftPlayer := s.leftPlayer, rightPlayer := s.rightPlayer, ball := s.ball) == s
  {
    s.(leftPlayer := s.leftPlayer.(x := m.leftX, y := m.leftY),
       rightPlayer := s.rightPlayer.(x := m.rightX, y := m.rightY),
       ball := s.ball.(x := m.ballX, y := m.ballY))
  }

  /** One frame: the game's tick, then the engine's movement. */
  datatype Frame = Frame(input: Input, motion: Motion)

  /** The state after a sequence of frames (the frame callback, over and over). Over
      any run, scores that start non-negative stay non-negative, and together they
      rise by at most one point per frame (a restart only lowers them). */
  function Run(s: State, frames: seq<Frame>): (t: State)
    ensures s.leftScore >= 0 && s.rightScore >= 0 ==>
      0 <= t.leftScore <= s.leftScore + |frames| && 0 <= t.rightScore <= s.rightScore + |frames|
      && t.leftScore + t.rightScore <= s.leftScore + s.rightScore + |frames|
    decreases |frames|
  {
    if frames == [] then s
    else Run(Move(Tick(s, frames[0].input), frames[0].motion), frames[1..])
  }

  /** The invariant holds after any sequence of frames, whatever the keys, the random
      draws and the engine's movement. */
  lemma {:induction false} RunPreservesInv(s: State, frames: seq<Frame>)
    requires Inv(s)
    ensures Inv(Run(s, frames))
    decreases |frames|
  {
    if frames != [] {
      TickPreservesInv(s, frames[0].input);
      RunPreservesInv(Move(Tick(s, frames[0].input), frames[0].motion), frames[1..]);
    }
  }

  /** A running countdown with `n` ticks left is still running, with fewer ticks
      left, after fewer than `n` frames, and has started gameplay after exactly `n`,
      whatever the keys and the engine do meanwhile. */
  lemma {:induction false} CountdownRuns(s: State, frames: seq<Frame>)
    requires s.phase == Countdown && CountdownBounds(s)
    requires |frames| <= CountdownTicksLeft(s)
    ensures var t := Run(s, frames);
      (|frames| < CountdownTicksLeft(s) ==>
         t.phase == Countdown && CountdownBounds(t)
         && CountdownTicksLeft(t) == CountdownTicksLeft(s) - |frames|)
      && (|frames| == CountdownTicksLeft(s) ==> t.phase == Playing)
    decreases |frames|
  {
    if frames != [] {
      var next := Move(Tick(s, frames[0].input), frames[0].motion);
      if CountdownTicksLeft(s) == 1 {
        assert frames[1..] == [];
      } else {
        CountdownRuns(next, frames[1..]);
      }
    }
  }

  /** Gameplay begins exactly on the 90th tick after the countdown starts: the frames
      that follow the tick in which both players became ready. */
  lemma CountdownLastsNinetyTicks(s: State, frames: seq<Frame>)
    requires |frames| <= COUNTDOWN_START * TICKS_PER_COUNT
    ensures var t := Run(StartCountdown(s), frames);
      (|frames| < 90 ==> t.phase == Countdown) && (|frames| == 90 ==> t.phase == Playing)
  {
    CountdownRuns(StartCountdown(s), frames);
  }

  /** While the match waits for its players, a tick only sets ready flags, and only
      those whose key is held; once both are set the countdown has begun. */
  lemma ReadyFlagsOnlyRise(s: State, input: Input)
    requires s.phase == AwaitingReady
    ensures var t := Tick(s, input);
      (s.leftReady ==> t.leftReady) && (t.leftReady ==> s.leftReady || input.keys.a)
      && (s.rightReady ==> t.rightReady) && (t.rightReady ==> s.rightReady || input.keys.l)
      && (t.phase == Countdown <==> t.leftReady && t.rightReady)
      && (t.phase == Countdown ==> CountdownTicksLeft(t) == 90)
  {
  }
}
