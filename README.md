# Tennis Jump match model

Tennis Jump is a two-player p5.js arcade game. Each player jumps a paddle, the
ball bounces between them, and a point is scored when the ball leaves the court
past a side. This project models the game's per-frame match state machine in
Dafny and proves properties of it. All of it comes from `tennis-jump.js`:

- four phases: waiting for both players to be ready, a 3-second countdown,
  gameplay, and the end-of-game screen;
- the ready flags, the countdown counters, the score pair and the restart;
- the victory rule (reach 7, win by 2), the "MATCH POINT" test and the winner test;
- the per-tick paddle update (jump or gravity, clamp and snap, animation choice);
- the per-tick ball update (gravity, floor and ceiling bounce with spin
  transfer, paddle hits, scoring) and the serve.

The project has two layers:

- `rules.dfy` (module `Rules`), `physics.dfy` (`Physics`) and `match_spec.dfy`
  (`MatchSpec`) describe the game on values. There is one function per
  handler, a dispatcher `Tick`, an invariant `Inv` that every tick keeps, and
  `Run`, which composes frames. The lemmas prove properties of single ticks and
  of whole runs.
- `game.dfy` (`Game`) is the program's own shape. `Sprite` and `Match` are
  classes whose fields the handlers update in place, as the JavaScript does with
  its module-level variables and sprite fields. Each method is proved to leave
  exactly the state that its `MatchSpec` or `Physics` function describes.

Positions and velocities are exact `real`s. The proofs cover only the branch
structure, the assignments and identities that are exact over the reals. They
make no claim about IEEE-754 results.

Key presses are inputs to each tick: `Keys(a, l, r)`, where 'a' is the left
jump and ready key, 'l' the right one and 'r' restart. So are the two random
draws: `coin` for `random([1, 2]) === 1` and `r` for `Math.random()`.

The engine moves each sprite by its velocity between frames. That is not part of
the game's code, so it is an abstract step: `MatchSpec.Move` may put every
sprite anywhere and changes nothing else. Every property of runs holds whatever
positions the engine produces.

Three facts about the code that shape the model:

- The paddle update clamps the position it is given without first adding its
  velocity.
- Gravity (+0.1) is added before a floor bounce, so a ball falling at 10 leaves
  the floor at -9.09 (`Physics.ExampleFloorBounce`).
- A serve's vertical velocity is -1 - 2r, which lies in (-3, -1] for r in [0, 1).

## Model

| member | source | states |
|---|---|---|
| `Rules.HasWon` | tennis-jump.js:162-163 | One side's half of the victory test: at least 7 points and a lead of at least 2; a winning score is positive and strictly ahead |
| `Rules.GameOver` | tennis-jump.js:162-163 | The end-of-match test: either side has won; it never holds on a tie |
| `Rules.MatchPoint` | tennis-jump.js:342-343 | The "MATCH POINT" test; it holds on every won score, so the banner is also drawn on the frame the match ends |
| `Rules.Winner` | tennis-jump.js:355 | On a finished match the scores differ, and "left wins" (left has more points) holds exactly when left satisfies the victory rule; "right wins" holds exactly when right does |
| `Rules.MatchPointMeansOnePointFromVictory` | tennis-jump.js:341-345 | "MATCH POINT" shows exactly when one more point for one of the sides would give a won score, for any scores, including the final ones |
| `Rules.OnePointEndsDecisively` | tennis-jump.js:162-165 | When one point ends an unfinished match, the scorer is the winner and the final score is 7 to at most 5 or a lead of exactly 2 |
| `Rules.ExampleScores` | tennis-jump.js:162-165 | 7-5 ends with left winning, 7-6 does not end, 8-6 ends; 6-5 is match point, 5-5 is not |
| `Physics.AnimationSuffix` | tennis-jump.js:186-192 | The animation is "jump" iff vy < -1, "fall" iff vy > 1, and "idle" iff -1 <= vy <= 1 |
| `Physics.SetAnimation` | tennis-jump.js:195-200 | Selecting an animation sets the animation name to the one asked for and changes nothing else |
| `Physics.SetAnimationIdempotent` | tennis-jump.js:195-200 | A second selection of the same name asks the engine for no change and leaves the sprite as the first left it |
| `Physics.UpdatePlayer` | tennis-jump.js:172-193 | Afterwards the paddle y lies in [20, 330]. A paddle below the floor line is snapped to 330 and one above the ceiling to 20, both with vy = 0. Otherwise y is unchanged and vy is -6 if the key is held, old vy + 0.4 if not. The animation matches the new vy; x and the horizontal velocity are untouched |
| `Physics.HeldKeyAnchorsVelocity` | tennis-jump.js:173-177 | With the key held, vy is -6 (or 0 when snapped), never faster upward, and the paddle never shows its fall animation |
| `Physics.Bounce` | tennis-jump.js:202-216 | Afterwards ball y lies in [5, 345]. A floor bounce (y > 345) snaps y to 345, sets vy to -0.9 times the vy after gravity, keeps vx + spin, and keeps 0.8 of the spin. A ceiling bounce (y < 5) snaps y to 5, negates vy and leaves vx and spin. Otherwise only gravity applies. x is untouched |
| `Physics.ExampleFloorBounce` | tennis-jump.js:203-212 | A ball falling at 10 with spin 5 leaves the floor at vy = -9.09 with vx up by 1 and spin 4 |
| `Physics.FloorBounceDecaysSpin` | tennis-jump.js:209-212 | A floor bounce moves the spin toward zero without changing its sign |
| `Physics.PaddleHit` | tennis-jump.js:218-235 | A left hit puts x at left paddle x + 10, multiplies vx by -1.1, sets vy to the paddle's vy and lowers spin by the paddle's vy. A right hit, checked only without a left hit, puts x at right paddle x - 10, multiplies vx by -1.1, sets vy to the paddle's vy and raises spin by it. With no hit the ball is unchanged. y is never changed |
| `Physics.LeftHit` | tennis-jump.js:219-222 | The left-paddle hit test: the ball's x lies strictly between the paddle's x and x + 10, and the ball and paddle centres are less than 25 apart vertically |
| `Physics.RightHit` | tennis-jump.js:227-230 | The right-paddle hit test: the ball's x lies strictly between the paddle's x - 10 and x, and the centres are less than 25 apart vertically |
| `Physics.OutLeft` | tennis-jump.js:238 | The right side's scoring test: the whole ball box is left of x = 0, and the ball is then not also out on the right |
| `Physics.OutRight` | tennis-jump.js:241 | The left side's scoring test: the whole ball box is right of x = 400 |
| `Physics.HitsAreExclusive` | tennis-jump.js:218-244 | With the paddles at x = 20 and x = 380, the two hit zones never both hold. A ball just hit is outside both zones and inside the court, so it does not score in that tick |
| `Physics.ExampleLeftHit` | tennis-jump.js:219-226 | Ball vx = -4 hitting the left paddle while it jumps (vy = -6) leaves with vx = 4.4, vy = -6 and spin up by 6 |
| `Physics.ResetBall` | tennis-jump.js:266-276 | Direction 1 serves from x = 50 with vx = 3; direction -1 serves from x = 350 with vx = -3. Every serve sets y = 250, spin = 0 and vy = -1 - 2r, which is in (-3, -1] for r in [0, 1). The served ball is inside the court |
| `MatchSpec.WaitForReady` | tennis-jump.js:95-105 | Restart: phase waiting, both flags false, both scores 0, both paddles at y = 200 with vy = 0. The ball and the countdown counters are unchanged |
| `MatchSpec.StartCountdown` | tennis-jump.js:126-130 | Phase countdown with 3 counts of 30 ticks (90 ticks to go); nothing else changes |
| `MatchSpec.WaitForReadyTick` | tennis-jump.js:107-118 | Each flag becomes old flag OR its key. The tick in which both are set starts the countdown at 3 and 30; otherwise phase and counters stay. Scores and sprites are unchanged |
| `MatchSpec.StartGame` | tennis-jump.js:149-156 | Phase becomes gameplay, with a serve toward the right (vx = 3) on heads and toward the left (vx = -3) otherwise; nothing else changes |
| `MatchSpec.UpdatePlayers` | tennis-jump.js:159-160 | Each paddle is updated with its own key ('a' left, 'l' right); nothing else changes |
| `MatchSpec.CountdownTick` | tennis-jump.js:132-142 | Within bounds and with more than one tick left, the countdown stays in bounds with one tick fewer. On the last tick it serves and starts gameplay. Both paddles move every tick; scores and flags are unchanged |
| `MatchSpec.UpdateBall` | tennis-jump.js:202-245 | Ball past x < -5: right score +1 and a serve toward the right. Past x > 405: left score +1 and a serve toward the left. Otherwise scores stay. At most one score changes, by one, and ball y ends in [5, 345]; paddles, phase and flags are unchanged |
| `MatchSpec.EndGame` | tennis-jump.js:247-251 | Phase becomes finished and ball y becomes -10; nothing else changes |
| `MatchSpec.GameplayTick` | tennis-jump.js:158-165 | Paddles update, then the ball: the tick's scores are those `UpdateBall` gives after the paddle update, and so is its ball, lifted to y = -10 when the match ends. The match ends in this tick (phase finished, ball at y = -10) exactly when the new scores satisfy the victory rule; otherwise the phase stays and ball y is in [5, 345] |
| `MatchSpec.EndGameTick` | tennis-jump.js:253-259 | Paddles still move. With 'r' held: phase waiting, scores 0, both flags false, and both paddles, after their update, put at y = 200 with vy = 0. Without it: phase, scores and flags stay. The ball never changes |
| `MatchSpec.Tick` | tennis-jump.js:89-92 | A tick keeps its phase or moves to the next in the cycle waiting, countdown, gameplay, finished, waiting. A restart ('r' while finished) zeroes the scores and clears the flags. Otherwise scores never decrease and at most one rises, by exactly one |
| `MatchSpec.RestartFrameNamesRightSide` | tennis-jump.js:253-263 | On the restart frame the end-of-game screen is drawn after the restart: the scores are 0-0, no side has won, and the "left wins" test is false, so the right side is named |
| `MatchSpec.Run` | tennis-jump.js:89-92 | The frame callback applied over a sequence of frames, with the engine's movement after each tick. Scores that start non-negative stay non-negative, and together rise by at most one point per frame |
| `MatchSpec.TickPreservesInv` | tennis-jump.js:89-92 | Every tick keeps the invariant: scores >= 0 and 0-0 before play; flags never both set while waiting and both set afterwards; countdown counters in 1..3 and 1..30; a match in play not yet won; a finished match won with a decisive score |
| `MatchSpec.RunPreservesInv` | tennis-jump.js:89-92 | The invariant holds after any sequence of frames, whatever the keys, the random draws and the engine's movement |
| `MatchSpec.GameEndsOnAPoint` | tennis-jump.js:237-251 | When a gameplay tick ends the match, the side that scored in that tick is the winner. The ball, just re-served and put at y = -10, moves upward (vy <= -1) with no spin, so the engine carries it further out of view |
| `MatchSpec.CountdownRuns` | tennis-jump.js:132-140 | A countdown with n ticks left is still counting, with n - k ticks left, after k < n frames, and has started gameplay after exactly n frames, whatever the inputs |
| `MatchSpec.CountdownLastsNinetyTicks` | tennis-jump.js:126-140 | After `startCountdown`, the 90th following tick and no earlier one starts gameplay |
| `MatchSpec.ReadyFlagsOnlyRise` | tennis-jump.js:107-118 | While waiting, a flag is never cleared and is set only when its key is held. The phase becomes countdown (with 90 ticks to go) exactly when both flags are set |
| `Game.Sprite.constructor` | tennis-jump.js:59-69 | A new sprite is at rest at its given position with its given animation |
| `Game.Sprite.SetAnimationIfChanged` | tennis-jump.js:195-200 | Reports that the engine is asked to switch exactly when the name differs from the current one, and then selects the name |
| `Game.Sprite.UpdatePlayer` | tennis-jump.js:172-193 | Leaves the sprite as `Physics.UpdatePlayer` describes, so y is in [20, 330] |
| `Game.Match.constructor` | tennis-jump.js:58-87 | Sprites are created at (20, 200), (380, 200) and (200, 200) showing their idle animations, then the restart runs; the invariant holds |
| `Game.Match.WaitForReady` | tennis-jump.js:95-105 | In-place restart, as `MatchSpec.WaitForReady` |
| `Game.Match.StartCountdown` | tennis-jump.js:126-130 | In-place countdown start, as `MatchSpec.StartCountdown` |
| `Game.Match.WaitForReadyTick` | tennis-jump.js:107-118 | In-place ready tick, as `MatchSpec.WaitForReadyTick` |
| `Game.Match.ResetBall` | tennis-jump.js:266-276 | In-place serve, as `Physics.ResetBall` |
| `Game.Match.StartGame` | tennis-jump.js:149-156 | In-place start of play, as `MatchSpec.StartGame` |
| `Game.Match.UpdatePlayers` | tennis-jump.js:159-160 | Both paddles updated in place, as `MatchSpec.UpdatePlayers` |
| `Game.Match.CountdownTick` | tennis-jump.js:132-142 | In-place countdown tick, as `MatchSpec.CountdownTick` |
| `Game.Match.BounceBall` | tennis-jump.js:203-216 | In-place gravity and bounce, as `Physics.Bounce` |
| `Game.Match.HitPaddles` | tennis-jump.js:218-235 | In-place paddle collisions, as `Physics.PaddleHit` |
| `Game.Match.UpdateBall` | tennis-jump.js:202-245 | In-place ball update and scoring, as `MatchSpec.UpdateBall` |
| `Game.Match.EndGame` | tennis-jump.js:247-251 | In-place end of match, as `MatchSpec.EndGame` |
| `Game.Match.GameplayTick` | tennis-jump.js:158-165 | In-place gameplay tick with the victory test, as `MatchSpec.GameplayTick` |
| `Game.Match.EndGameTick` | tennis-jump.js:253-259 | In-place end-of-game tick, as `MatchSpec.EndGameTick` |
| `Game.Match.Tick` | tennis-jump.js:89-92 | Dispatch on the phase, as `MatchSpec.Tick`, keeping the invariant and the distinctness of the three sprites |
| `Game.Match.IsMatchPoint` | tennis-jump.js:342-343 | The HUD's "MATCH POINT" test. It holds exactly when one more point for some side would give a won score, and it holds on every won score (the frame the match ends) |
| `Game.Match.LeftWins` | tennis-jump.js:355 | The end-of-game HUD's test, with no precondition. It is false on any tie, including the 0-0 of the restart frame. In a finished match it holds exactly when left satisfies the victory rule and is false exactly when right does |

## Left out

- Drawing: the background, the HUD text (`drawWaitForReadyHUD`,
  `drawCountdownHUD`, `drawHUD`, `drawEndGameHUD`, `drawScores`,
  `drawTopCenterText`, `drawActionText`) and `allSprites.draw`. Only the
  match-point and winner tests of the HUD are modelled. The cosmetic
  `displayedCountdown`, `fontSize` and `oscillator` counters are left out; they
  never affect play.
- Asset loading, `addAnimation`, `frameRate`, `createCanvas` and the collider
  settings in `preload` and `setup`. These are calls into p5 and p5.play. Only
  the sprites' starting positions and first animations are kept.
- The engine's switch to a new animation (`changeAnimation`).
  `Game.Sprite.SetAnimationIfChanged` returns whether it would be called.
- The engine's integration of velocity into position between frames. It is an
  arbitrary repositioning of the sprites (`MatchSpec.Move`), so no property of
  runs depends on it.
- Keyboard polling (`kb.pressing`) and the random sources (`random([1, 2])`,
  `Math.random()`). They are the inputs `Keys`, `coin` and `r` of each tick.
- `updatePlayer`'s `direction` argument, which the function never reads.
- The countdown counters before the first countdown. They are unset in the
  program and start at 0 in the model; nothing reads them in that phase.
- IEEE-754 floating point. Every constant (0.4, 0.1, 0.9, 0.2, 1.1) is an exact
  real, so results such as vx * -(1 + 0.1) are exact and may differ from
  JavaScript in the last bits.
