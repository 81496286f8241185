/** The earlier player of src/entities/Player_new.ts, which nothing imports:
    per frame input, physics inside the screen, the walking bob and the
    squash/stretch decay, then the floor check, with no platforms.

    As for the game scene's player, each phase is a function on the fields
    it reads and writes, and the class's methods are proved to follow them;
    the sounds and dust bursts are recorded as `PlayerEvent`s and the sine of
    the walking bob is the parameter `sin`. */
module PlayerNewEntity {
  import opened CoreTypes
  import P = PlayerEntity

  /** The player's state; (x, y) is the sprite position. `bob` is the
      drawing's vertical offset, `scaleX` and `scaleY` its scale. */
  datatype NewBody = NewBody(
    x: real, y: real, vx: real, vy: real,
    isOnGround: bool, wasOnGround: bool, isMoving: bool, facingRight: bool,
    animationTimer: real, landingScale: real, squashStretch: real,
    bob: real, scaleX: real, scaleY: real)

  datatype NewStep = NewStep(body: NewBody, events: seq<P.PlayerEvent>)

  predicate NewJuiceBounded(b: NewBody) {
    b.landingScale >= 1.0 && b.squashStretch <= 1.0
  }

  /** `handleInput`: left beats right with the full speed, friction 0.8
      otherwise; a jump only from the ground, with its sound and dust at the
      feet and the squash to 0.7. */
  function InputStep(b: NewBody, input: InputState): (s: NewStep)
    ensures s.body.x == b.x && s.body.y == b.y
    ensures input.left ==> s.body.vx == -P.Speed && !s.body.facingRight && s.body.isMoving
    ensures !input.left && input.right ==> s.body.vx == P.Speed && s.body.facingRight && s.body.isMoving
    ensures !input.left && !input.right ==>
      s.body.vx == b.vx * P.Friction && s.body.facingRight == b.facingRight && !s.body.isMoving
    ensures input.jump && b.isOnGround ==>
      && s.body.vy == -P.JumpPower && !s.body.isOnGround && s.body.squashStretch == 0.7
      && s.events == [P.JumpSound, P.JumpDust(b.x, b.y + P.HalfSize)]
    ensures !(input.jump && b.isOnGround) ==>
      s.body.vy == b.vy && s.body.isOnGround == b.isOnGround && s.body.squashStretch == b.squashStretch
      && s.events == []
    ensures s.body.wasOnGround == b.wasOnGround && s.body.landingScale == b.landingScale
  {
    var moved :=
      if input.left then b.(vx := -P.Speed, facingRight := false, isMoving := true)
      else if input.right then b.(vx := P.Speed, facingRight := true, isMoving := true)
      else b.(vx := b.vx * P.Friction, isMoving := false);
    if input.jump && b.isOnGround then
      NewStep(moved.(vy := -P.JumpPower, isOnGround := false, squashStretch := 0.7),
              [P.JumpSound, P.JumpDust(b.x, b.y + P.HalfSize)])
    else NewStep(moved, [])
  }

  /** `updatePhysics`: gravity only in the air, both axes integrated by
      velocity times dt, then the clamp to the screen's sides. */
  function PhysicsStep(b: NewBody, dt: real, gravity: real, width: real): (r: NewBody)
    ensures var vy := if b.isOnGround then b.vy else b.vy + gravity * dt;
      && r.vy == vy && r.y == b.y + vy * dt
      && r.isOnGround == b.isOnGround && r.wasOnGround == b.wasOnGround
      && (r.x, r.vx) == P.ClampX(b.x + b.vx * dt, b.vx, width)
  {
    var vy := if !b.isOnGround then b.vy + gravity * dt else b.vy;
    var x := b.x + b.vx * dt;
    var y := b.y + vy * dt;
    var (cx, cvx) := if x < P.HalfSize then (P.HalfSize, 0.0)
                     else if x > width - P.HalfSize then (width - P.HalfSize, 0.0)
                     else (x, b.vx);
    b.(x := cx, y := y, vx := cvx, vy := vy)
  }

  /** `updateAnimation`: the timer, the walking bob on the ground, the
      facing as the sign of the horizontal scale, the decays towards 1 and
      the vertical scale from them. */
  function AnimationStep(b: NewBody, dt: real, sin: real -> real): (r: NewBody)
    ensures r.animationTimer == b.animationTimer + dt
    ensures r.bob == (if b.isMoving && b.isOnGround then sin(r.animationTimer * 0.3) * 2.0 else 0.0)
    ensures r.scaleX == (if b.facingRight then 1.0 else -1.0)
    ensures r.scaleY == r.landingScale * r.squashStretch
    ensures r.x == b.x && r.y == b.y && r.vx == b.vx && r.vy == b.vy
    ensures r.isOnGround == b.isOnGround && r.wasOnGround == b.wasOnGround
  {
    var timer := b.animationTimer + dt;
    var landing := if b.landingScale > 1.0 then P.Max(1.0, b.landingScale - 0.05 * dt) else b.landingScale;
    var squash := if b.squashStretch < 1.0 then P.Min(1.0, b.squashStretch + 0.1 * dt) else b.squashStretch;
    b.(animationTimer := timer,
       bob := if b.isMoving && b.isOnGround then sin(timer * 0.3) * 2.0 else 0.0,
       scaleX := if b.facingRight then 1.0 else -1.0,
       landingScale := landing, squashStretch := squash, scaleY := landing * squash)
  }

  /** `checkCollisions`: reaching the floor while not rising snaps there,
      stopped and grounded, with the landing sound, the dust and the bounce
      when the last frame ended in the air; otherwise airborne. The flag of
      the last frame is then taken over. */
  function CollisionStep(b: NewBody, groundY: real): (s: NewStep)
    ensures s.body.wasOnGround == s.body.isOnGround
    ensures b.y >= groundY && b.vy >= 0.0 ==>
      && s.body.y == groundY && s.body.vy == 0.0 && s.body.isOnGround
      && s.body.landingScale == (if b.wasOnGround then b.landingScale else 1.3)
      && s.events == (if b.wasOnGround then [] else [P.LandSound, P.LandDust(b.x, b.y + P.HalfSize)])
    ensures !(b.y >= groundY && b.vy >= 0.0) ==>
      s.body == b.(isOnGround := false, wasOnGround := false) && s.events == []
    ensures s.body.x == b.x && s.body.vx == b.vx && s.body.squashStretch == b.squashStretch
  {
    if b.y >= groundY && b.vy >= 0.0 then
      var landed := if b.wasOnGround then b else b.(landingScale := 1.3);
      NewStep(landed.(y := groundY, vy := 0.0, isOnGround := true, wasOnGround := true),
              if b.wasOnGround then [] else [P.LandSound, P.LandDust(b.x, b.y + P.HalfSize)])
    else
      NewStep(b.(isOnGround := false, wasOnGround := false), [])
  }

  /** One `update`: input, physics, animation, then the floor check. */
  function Frame(b: NewBody, input: InputState, dt: real, config: GameConfig, sin: real -> real): NewStep {
    var afterInput := InputStep(b, input);
    var afterPhysics := PhysicsStep(afterInput.body, dt, config.gravity, config.width);
    var afterAnimation := AnimationStep(afterPhysics, dt, sin);
    var afterCollisions := CollisionStep(afterAnimation, P.GroundY(config.height));
    NewStep(afterCollisions.body, afterInput.events + afterCollisions.events)
  }

  /** After every frame the player is inside the screen (when it is at
      least one body wide), `wasOnGround` equals the grounded flag, and a
      grounded player stands on the floor. */
  lemma FrameEndState(b: NewBody, input: InputState, dt: real, config: GameConfig, sin: real -> real)
    ensures var r := Frame(b, input, dt, config, sin).body;
      && (config.width >= P.Size ==> P.HalfSize <= r.x <= config.width - P.HalfSize)
      && r.wasOnGround == r.isOnGround
      && (r.isOnGround ==> r.y == P.GroundY(config.height) && r.vy == 0.0)
  {
  }

  /** The landing bounce and its effects come exactly with a landing after a
      frame that ended in the air: the grounded flag of the last frame is
      what `wasOnGround` holds at the floor check. */
  lemma BounceOnlyOnTouchdown(b: NewBody, input: InputState, dt: real, config: GameConfig, sin: real -> real)
    requires b.wasOnGround == b.isOnGround && b.landingScale == 1.0
    ensures var s := Frame(b, input, dt, config, sin);
      && (s.body.landingScale == 1.3 <==> s.body.isOnGround && !b.isOnGround)
      && (P.LandSound in s.events <==> s.body.isOnGround && !b.isOnGround)
  {
    var afterInput := InputStep(b, input);
    var afterPhysics := PhysicsStep(afterInput.body, dt, config.gravity, config.width);
    var afterAnimation := AnimationStep(afterPhysics, dt, sin);
    assert afterAnimation.landingScale == 1.0;
    assert afterAnimation.wasOnGround == b.isOnGround;
    assert P.LandSound !in afterInput.events;
  }

  /** For dt ≥ 0 a frame keeps the landing bounce at or above 1 and the
      squash at or below 1. */
  lemma FrameKeepsJuiceBounded(b: NewBody, input: InputState, dt: real, config: GameConfig, sin: real -> real)
    requires dt >= 0.0 && NewJuiceBounded(b)
    ensures NewJuiceBounded(Frame(b, input, dt, config, sin).body)
  {
    var afterInput := InputStep(b, input);
    var afterPhysics := PhysicsStep(afterInput.body, dt, config.gravity, config.width);
    var afterAnimation := AnimationStep(afterPhysics, dt, sin);
    assert NewJuiceBounded(afterAnimation);
  }

  class PlayerNew {
    const config: GameConfig
    const groundY: real := P.GroundY(config.height)
    var body: NewBody
    /** The sounds and dust bursts triggered so far. */
    var events: seq<P.PlayerEvent>

    /** At the middle of the screen on the floor, not yet grounded, facing
        right. */
    constructor (config: GameConfig)
      ensures this.config == config && groundY == P.GroundY(config.height)
      ensures body == NewBody(config.width / 2.0, P.GroundY(config.height), 0.0, 0.0,
                              false, false, false, true, 0.0, 1.0, 1.0, 0.0, 1.0, 1.0)
      ensures NewJuiceBounded(body) && events == []
    {
      this.config := config;
      body := NewBody(config.width / 2.0, config.height - 60.0 - P.HalfSize, 0.0, 0.0,
                      false, false, false, true, 0.0, 1.0, 1.0, 0.0, 1.0, 1.0);
      events := [];
    }

    method HandleInput(input: InputState)
      modifies this`body, this`events
      ensures body == InputStep(old(body), input).body
      ensures events == old(events) + InputStep(old(body), input).events
    {
      body := body.(isMoving := false);
      if input.left {
        body := body.(vx := -P.Speed, facingRight := false, isMoving := true);
      } else if input.right {
        body := body.(vx := P.Speed, facingRight := true, isMoving := true);
      } else {
        body := body.(vx := body.vx * P.Friction);
      }
      if input.jump && body.isOnGround {
        body := body.(vy := -P.JumpPower, isOnGround := false);
        events := events + [P.JumpSound, P.JumpDust(body.x, body.y + P.HalfSize)];
        body := body.(squashStretch := 0.7);
      }
    }

    method UpdatePhysics(deltaTime: real)
      modifies this`body
      ensures body == PhysicsStep(old(body), deltaTime, config.gravity, config.width)
    {
      if !body.isOnGround {
        body := body.(vy := body.vy + config.gravity * deltaTime);
      }
      body := body.(x := body.x + body.vx * deltaTime);
      body := body.(y := body.y + body.vy * deltaTime);
      if body.x < P.HalfSize {
        body := body.(x := P.HalfSize, vx := 0.0);
      } else if body.x > config.width - P.HalfSize {
        body := body.(x := config.width - P.HalfSize, vx := 0.0);
      }
    }

    method UpdateAnimation(deltaTime: real, sin: real -> real)
      modifies this`body
      ensures body == AnimationStep(old(body), deltaTime, sin)
    {
      body := body.(animationTimer := body.animationTimer + deltaTime);
      if body.isMoving && body.isOnGround {
        body := body.(bob := sin(body.animationTimer * 0.3) * 2.0);
      } else {
        body := body.(bob := 0.0);
      }
      body := body.(scaleX := if body.facingRight then 1.0 else -1.0);
      if body.landingScale > 1.0 {
        body := body.(landingScale := P.Max(1.0, body.landingScale - 0.05 * deltaTime));
      }
      if body.squashStretch < 1.0 {
        body := body.(squashStretch := P.Min(1.0, body.squashStretch + 0.1 * deltaTime));
      }
      body := body.(scaleY := body.landingScale * body.squashStretch);
    }

    method CheckCollisions()
      modifies this`body, this`events
      ensures body == CollisionStep(old(body), groundY).body
      ensures events == old(events) + CollisionStep(old(body), groundY).events
    {
      var groundLevel := groundY;
      if body.y >= groundLevel && body.vy >= 0.0 {
        if !body.wasOnGround {
          events := events + [P.LandSound, P.LandDust(body.x, body.y + P.HalfSize)];
          body := body.(landingScale := 1.3);
        }
        body := body.(y := groundLevel, vy := 0.0, isOnGround := true);
      } else {
        body := body.(isOnGround := false);
      }
      body := body.(wasOnGround := body.isOnGround);
    }

    /** `update`: input, physics, animation, effects (the particle system's
        own update), then the floor check. */
    method Update(input: InputState, deltaTime: real, sin: real -> real)
      modifies this`body, this`events
      ensures body == Frame(old(body), input, deltaTime, config, sin).body
      ensures events == old(events) + Frame(old(body), input, deltaTime, config, sin).events
    {
      HandleInput(input);
      UpdatePhysics(deltaTime);
      UpdateAnimation(deltaTime, sin);
      CheckCollisions();
    }
  }
}
