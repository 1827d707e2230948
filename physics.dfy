/** The per-tick update rules for the two paddles and the ball, as functions on the
    part of a p5.play sprite the game logic reads and writes. Positions and
    velocities are exact reals: nothing here claims agreement with JavaScript's
    floating point. */
module Physics {

  const GAME_WIDTH: real := 400.0
  const GAME_HEIGHT: real := 400.0
  const GROUND_HEIGHT: real := 50.0
  const GROUND_Y_POS: real := GAME_HEIGHT - GROUND_HEIGHT

  const PLAYER_WIDTH: real := 20.0
  const PLAYER_HALF_WIDTH: real := PLAYER_WIDTH / 2.0
  const PLAYER_HEIGHT: real := 40.0
  const PLAYER_HALF_HEIGHT: real := PLAYER_HEIGHT / 2.0

  const BALL_SIZE: real := 10.0
  const BALL_HALF_SIZE: real := BALL_SIZE / 2.0
  const BALL_ACCELERATION_FACTOR: real := 0.1
  const SERVE_SPEED_X: real := 3.0
  const SERVE_INSET_POSITION: real := 50.0
  const BALL_BOUNCINESS: real := 0.9
  const SPIN_EFFECT: real := 0.2

  /** Vertical velocity a held jump key sets on a paddle. */
  const JUMP_VELOCITY: real := -6.0
  /** Added to a paddle's vertical velocity on every tick its key is not held. */
  const PLAYER_GRAVITY: real := 0.4
  /** Added to the ball's vertical velocity on every gameplay tick. */
  const BALL_GRAVITY: real := 0.1

  /** Lowest and highest paddle centre: the paddle box stays between ceiling and ground. */
  const PLAYER_MIN_Y: real := PLAYER_HALF_HEIGHT
  const PLAYER_MAX_Y: real := GROUND_Y_POS - PLAYER_HALF_HEIGHT
  /** Lowest and highest ball centre after a bounce. */
  const BALL_MIN_Y: real := BALL_HALF_SIZE
  const BALL_MAX_Y: real := GROUND_Y_POS - BALL_HALF_SIZE

  /** What the game reads and writes of a sprite: position, velocity, rotation speed
      (the ball's spin) and the name of the animation last selected for it. */
  datatype SpriteState = SpriteState(
    x: real, y: real, vx: real, vy: real, spin: real, animation: string)

  /** Suffix of the paddle animation chosen for a vertical velocity. */
  function AnimationSuffix(vy: real): (suffix: string)
    ensures suffix == " jump" <==> vy < -1.0
    ensures suffix == " fall" <==> vy > 1.0
    ensures suffix == " idle" <==> -1.0 <= vy <= 1.0
  {
    if vy < -1.0 then " jump"
    else if vy > 1.0 then " fall"
    else " idle"
  }

  /** The sprite after `setAnimationIfChanged(sprite, name)`: only the animation name
      changes, and it becomes `name`. */
  function SetAnimation(p: SpriteState, name: string): (q: SpriteState)
    ensures q.animation == name
    ensures q.(animation := p.animation) == p
  {
    p.(animation := name)
  }

  /** Whether `setAnimationIfChanged` asks the engine to switch animations. */
  predicate AnimationChanges(p: SpriteState, name: string)
  {
    p.animation != name
  }

  /** Selecting the same animation twice: the second call asks the engine for
      nothing and leaves the sprite as the first call left it. */
  lemma SetAnimationIdempotent(p: SpriteState, name: string)
    ensures !AnimationChanges(SetAnimation(p, name), name)
    ensures SetAnimation(SetAnimation(p, name), name) == SetAnimation(p, name)
  {
  }

  /** A paddle centre outside [PLAYER_MIN_Y, PLAYER_MAX_Y], which the update snaps back. */
  predicate OutOfReach(y: real)
  {
    y > PLAYER_MAX_Y || y < PLAYER_MIN_Y
  }

  /** `updatePlayer`: a held key sets the upward jump velocity, otherwise gravity
      accelerates the paddle downward; a paddle past the ground or the ceiling is
      snapped back onto it and stopped; then the animation follows the velocity. */
  function UpdatePlayer(p: SpriteState, animPrefix: string, held: bool): (q: SpriteState)
    ensures PLAYER_MIN_Y <= q.y <= PLAYER_MAX_Y
    ensures OutOfReach(p.y) ==> q.vy == 0.0
    ensures p.y > PLAYER_MAX_Y ==> q.y == PLAYER_MAX_Y
    ensures p.y < PLAYER_MIN_Y ==> q.y == PLAYER_MIN_Y
    ensures !OutOfReach(p.y) ==> q.y == p.y
    ensures !OutOfReach(p.y) ==> q.vy == if held then JUMP_VELOCITY else p.vy + PLAYER_GRAVITY
    ensures q.animation == animPrefix + AnimationSuffix(q.vy)
    ensures q.x == p.x && q.vx == p.vx && q.spin == p.spin
  {
    var vy := if held then JUMP_VELOCITY else p.vy + PLAYER_GRAVITY;
    var clamped :=
      if p.y > PLAYER_MAX_Y then p.(y := PLAYER_MAX_Y, vy := 0.0)
      else if p.y < PLAYER_MIN_Y then p.(y := PLAYER_MIN_Y, vy := 0.0)
      else p.(vy := vy);
    SetAnimation(clamped, animPrefix + AnimationSuffix(clamped.vy))
  }

  /** Holding the jump key anchors the paddle's speed: it never rises faster than the
      jump velocity, however long the key is held. */
  lemma HeldKeyAnchorsVelocity(p: SpriteState, animPrefix: string)
    ensures var q := UpdatePlayer(p, animPrefix, true);
            (q.vy == JUMP_VELOCITY || q.vy == 0.0) && q.animation != animPrefix + " fall"
  {
    var q := UpdatePlayer(p, animPrefix, true);
    assert q.animation[|animPrefix| + 1] != (animPrefix + " fall")[|animPrefix| + 1];
  }

  /** Gravity and bounces of `updateBall`: gravity first, then either a floor bounce
      (snap onto the ground, damped reversal, part of the spin turned into horizontal
      speed) or a ceiling bounce (snap, undamped reversal), never both. */
  function Bounce(b: SpriteState): (c: SpriteState)
    ensures BALL_MIN_Y <= c.y <= BALL_MAX_Y
    ensures c.x == b.x && c.animation == b.animation
    ensures b.y > BALL_MAX_Y ==>
      c.y == BALL_MAX_Y && c.vy == -BALL_BOUNCINESS * (b.vy + BALL_GRAVITY)
      && c.vx + c.spin == b.vx + b.spin
      && c.spin == (1.0 - SPIN_EFFECT) * b.spin
    ensures b.y < BALL_MIN_Y ==>
      c.y == BALL_MIN_Y && c.vy == -(b.vy + BALL_GRAVITY) && c.vx == b.vx && c.spin == b.spin
    ensures BALL_MIN_Y <= b.y <= BALL_MAX_Y ==>
      c.y == b.y && c.vy == b.vy + BALL_GRAVITY && c.vx == b.vx && c.spin == b.spin
  {
    var g := b.(vy := b.vy + BALL_GRAVITY);
    if g.y > BALL_MAX_Y then
      var spinEffect := g.spin * SPIN_EFFECT;
      g.(y := BALL_MAX_Y, vy := g.vy * -BALL_BOUNCINESS,
         vx := g.vx + spinEffect, spin := g.spin - spinEffect)
    else if g.y < BALL_MIN_Y then
      g.(y := BALL_MIN_Y, vy := g.vy * -1.0)
    else
      g
  }

  /** A floor bounce never speeds the spin up: it decays toward zero. */
  lemma FloorBounceDecaysSpin(b: SpriteState)
    requires b.y > BALL_MAX_Y
    ensures var c := Bounce(b);
            (b.spin >= 0.0 ==> 0.0 <= c.spin <= b.spin) && (b.spin <= 0.0 ==> b.spin <= c.spin <= 0.0)
  {
  }

  /** An example floor bounce: falling at 10 with spin 5. Gravity is added before
      the bounce, so the new vertical velocity is -0.9 * 10.1; one fifth of the spin
      moves into the horizontal velocity. */
  lemma ExampleFloorBounce(b: SpriteState)
    requires b.y > BALL_MAX_Y && b.vy == 10.0 && b.spin == 5.0
    ensures var c := Bounce(b);
            c.vy == -9.09 && c.vx == b.vx + 1.0 && c.spin == 4.0
  {
  }

  /** The ball overlaps the right half of the left paddle: it lies horizontally
      between the paddle's centre and its inner edge, and the two boxes overlap
      vertically (their centres are less than 25 apart). */
  predicate LeftHit(b: SpriteState, left: SpriteState): (hit: bool)
    ensures hit ==> left.x < b.x < left.x + PLAYER_HALF_WIDTH
    ensures hit ==> -25.0 < b.y - left.y < 25.0
  {
    b.x < left.x + PLAYER_HALF_WIDTH && b.x > left.x
    && b.y + BALL_HALF_SIZE > left.y - PLAYER_HALF_HEIGHT
    && b.y - BALL_HALF_SIZE < left.y + PLAYER_HALF_HEIGHT
  }

  /** The ball overlaps the left half of the right paddle, in the same sense. */
  predicate RightHit(b: SpriteState, right: SpriteState): (hit: bool)
    ensures hit ==> right.x - PLAYER_HALF_WIDTH < b.x < right.x
    ensures hit ==> -25.0 < b.y - right.y < 25.0
  {
    b.x > right.x - PLAYER_HALF_WIDTH && b.x < right.x
    && b.y + BALL_HALF_SIZE > right.y - PLAYER_HALF_HEIGHT
    && b.y - BALL_HALF_SIZE < right.y + PLAYER_HALF_HEIGHT
  }

  /** Paddle collisions of `updateBall`. The left paddle is checked first and a right
      hit is only considered when there was no left hit. A hit puts the ball on the
      paddle's inner edge, reverses its horizontal velocity and speeds it up by 10%,
      replaces (does not add to) its vertical velocity by the paddle's, and changes
      its spin by the paddle's velocity: down for the left paddle, up for the right. */
  function PaddleHit(b: SpriteState, left: SpriteState, right: SpriteState): (c: SpriteState)
    ensures c.y == b.y && c.animation == b.animation
    ensures LeftHit(b, left) ==>
      c.x == left.x + PLAYER_HALF_WIDTH && c.vx == -(1.0 + BALL_ACCELERATION_FACTOR) * b.vx
      && c.vy == left.vy && c.spin == b.spin - left.vy
    ensures !LeftHit(b, left) && RightHit(b, right) ==>
      c.x == right.x - PLAYER_HALF_WIDTH && c.vx == -(1.0 + BALL_ACCELERATION_FACTOR) * b.vx
      && c.vy == right.vy && c.spin == b.spin + right.vy
    ensures !LeftHit(b, left) && !RightHit(b, right) ==> c == b
  {
    if LeftHit(b, left) then
      b.(x := left.x + PLAYER_HALF_WIDTH, vx := b.vx * -(1.0 + BALL_ACCELERATION_FACTOR),
         vy := left.vy, spin := b.spin + -left.vy)
    else if RightHit(b, right) then
      b.(x := right.x - PLAYER_HALF_WIDTH, vx := b.vx * -(1.0 + BALL_ACCELERATION_FACTOR),
         vy := right.vy, spin := b.spin + right.vy)
    else
      b
  }

  /** With the paddles at their starting columns the two hit zones are disjoint, so at
      most one paddle can claim the ball; and a ball just hit sits on the paddle's
      edge, out of both zones and inside the court, so it neither scores nor is hit
      again in place. */
  lemma HitsAreExclusive(b: SpriteState, left: SpriteState, right: SpriteState)
    requires left.x == 20.0 && right.x == GAME_WIDTH - 20.0
    ensures !(LeftHit(b, left) && RightHit(b, right))
    ensures LeftHit(b, left) || RightHit(b, right) ==>
      var c := PaddleHit(b, left, right);
      !LeftHit(c, left) && !RightHit(c, right) && !OutLeft(c) && !OutRight(c)
  {
  }

  /** An example hit: a ball moving left at 4 meets the left paddle while it jumps. */
  lemma ExampleLeftHit(b: SpriteState, left: SpriteState, right: SpriteState)
    requires LeftHit(b, left) && b.vx == -4.0 && left.vy == JUMP_VELOCITY
    ensures var c := PaddleHit(b, left, right);
            c.vx == 4.4 && c.vy == -6.0 && c.spin == b.spin + 6.0
  {
  }

  /** The ball has left the court past the left edge (a point for the right side):
      its whole box is left of x = 0, and it is not also out past the right edge. */
  predicate OutLeft(b: SpriteState): (out: bool)
    ensures out ==> b.x + BALL_HALF_SIZE < 0.0 && !OutRight(b)
  {
    b.x < -BALL_HALF_SIZE
  }

  /** The ball has left the court past the right edge (a point for the left side):
      its whole box is right of x = GAME_WIDTH. */
  predicate OutRight(b: SpriteState): (out: bool)
    ensures out ==> b.x - BALL_HALF_SIZE > GAME_WIDTH
  {
    b.x > GAME_WIDTH + BALL_HALF_SIZE
  }

  /** `resetBall(direction)`: serve from 50 units inside the left edge toward the right
      (direction 1) or from 50 units inside the right edge toward the left (any other
      direction; the game passes -1), at height 250, at horizontal speed 3, with spin
      cleared and vertical velocity -1 - 2r for the random draw r, which for r in
      [0, 1) is upward and at most 3. */
  function ResetBall(b: SpriteState, direction: int, r: real): (c: SpriteState)
    ensures direction == 1 ==> c.x == SERVE_INSET_POSITION && c.vx == SERVE_SPEED_X
    ensures direction == -1 ==> c.x == GAME_WIDTH - SERVE_INSET_POSITION && c.vx == -SERVE_SPEED_X
    ensures c.y == GROUND_Y_POS - 100.0 && c.spin == 0.0 && c.vy == -1.0 - 2.0 * r
    ensures 0.0 <= r < 1.0 ==> -3.0 < c.vy <= -1.0
    ensures !OutLeft(c) && !OutRight(c)
    ensures c.animation == b.animation
  {
    var x := if direction == 1 then SERVE_INSET_POSITION else GAME_WIDTH - SERVE_INSET_POSITION;
    b.(x := x, y := GROUND_Y_POS - 100.0, vx := SERVE_SPEED_X * (direction as real),
       vy := -1.0 + -2.0 * r, spin := 0.0)
  }
}
