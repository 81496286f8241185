/** The oldest player of src/entities/Player_old.ts, which nothing imports:
    accelerating input with a capped speed and snapping friction, physics
    inside the screen, a floor check that only ever grounds the player, and
    the idle float and tilt of the sprite.

    Each phase is a function on `OldBody`, and the class's methods are
    proved to follow them. The sine and the clock reading (`Date.now()`) of
    the float and the tilt are the parameters `sin` and `now`. */
module PlayerOldEntity {
  import opened CoreTypes
  import P = PlayerEntity

  const Acceleration: real := 0.8
  const OldFriction: real := 0.85
  /** Below this size the horizontal speed is snapped to 0. */
  const SnapSpeed: real := 0.1

  /** The player's state; (x, y) is the sprite position and the scale and
      rotation are the sprite's. */
  datatype OldBody = OldBody(x: real, y: real, vx: real, vy: real, isOnGround: bool,
                             scaleX: real, scaleY: real, rotation: real)

  /** The horizontal speed never exceeds the top speed in size. */
  predicate SpeedBounded(b: OldBody) {
    -P.Speed <= b.vx <= P.Speed
  }

  /** `handleInput`: left accelerates leftwards down to -8 and faces left,
      right accelerates rightwards up to 8 and faces right; neither applies
      friction 0.85 and snaps a speed below 0.1 to 0. A jump only from the
      ground, leaving it with speed -18 and the sprite squashed to 0.8. */
  function InputStep(b: OldBody, input: InputState): (r: OldBody)
    ensures input.left ==> r.vx == P.Max(b.vx - Acceleration, -P.Speed) && r.scaleX == -P.Abs(b.scaleX)
    ensures !input.left && input.right ==> r.vx == P.Min(b.vx + Acceleration, P.Speed) && r.scaleX == P.Abs(b.scaleX)
    ensures !input.left && !input.right ==>
      && r.scaleX == b.scaleX
      && (P.Abs(b.vx * OldFriction) < SnapSpeed ==> r.vx == 0.0)
      && (P.Abs(b.vx * OldFriction) >= SnapSpeed ==> r.vx == b.vx * OldFriction)
    ensures input.jump && b.isOnGround ==> r.vy == -P.JumpPower && !r.isOnGround && r.scaleY == 0.8
    ensures !(input.jump && b.isOnGround) ==> r.vy == b.vy && r.isOnGround == b.isOnGround && r.scaleY == b.scaleY
    ensures r.x == b.x && r.y == b.y && r.rotation == b.rotation
  {
    var steered :=
      if input.left then b.(vx := P.Max(b.vx - Acceleration, -P.Speed), scaleX := -P.Abs(b.scaleX))
      else if input.right then b.(vx := P.Min(b.vx + Acceleration, P.Speed), scaleX := P.Abs(b.scaleX))
      else
        var vx := b.vx * OldFriction;
        b.(vx := if P.Abs(vx) < SnapSpeed then 0.0 else vx);
    if input.jump && b.isOnGround then steered.(vy := -P.JumpPower, isOnGround := false, scaleY := 0.8)
    else steered
  }

  /** `applyPhysics`: gravity only in the air, both axes integrated by
      velocity times dt, then the clamp to the screen's sides. */
  function PhysicsStep(b: OldBody, dt: real, gravity: real, width: real): (r: OldBody)
    ensures var vy := if b.isOnGround then b.vy else b.vy + gravity * dt;
      && r.vy == vy && r.y == b.y + vy * dt && r.isOnGround == b.isOnGround
      && (r.x, r.vx) == P.ClampX(b.x + b.vx * dt, b.vx, width)
    ensures r.scaleX == b.scaleX && r.scaleY == b.scaleY && r.rotation == b.rotation
  {
    var vy := if !b.isOnGround then b.vy + gravity * dt else b.vy;
    var x := b.x + b.vx * dt;
    var y := b.y + vy * dt;
    var (cx, cvx) := if x < P.HalfSize then (P.HalfSize, 0.0)
                     else if x > width - P.HalfSize then (width - P.HalfSize, 0.0)
                     else (x, b.vx);
    b.(x := cx, y := y, vx := cvx, vy := vy)
  }

  /** `checkCollisions`: at or below the floor the player is put on it,
      stopped and grounded, whatever its vertical speed; above it nothing
      changes, so the grounded flag is never cleared here. */
  function CollisionStep(b: OldBody, groundY: real): (r: OldBody)
    ensures b.y >= groundY ==> r == b.(y := groundY, vy := 0.0, isOnGround := true)
    ensures b.y < groundY ==> r == b
    ensures b.isOnGround ==> r.isOnGround
  {
    if b.y >= groundY then b.(y := groundY, vy := 0.0, isOnGround := true) else b
  }

  /** `PIXI.utils.lerp`. */
  function Lerp(a: real, b: real, t: real): real {
    a + (b - a) * t
  }

  /** `updateAnimation`: the vertical scale 15% of the way back to 1, a float
      of half the sine on the ground when nearly still, and a tilt while
      moving that otherwise eases 10% back to upright. */
  function AnimationStep(b: OldBody, sin: real -> real, now: real): (r: OldBody)
    ensures 1.0 - r.scaleY == (1.0 - b.scaleY) * 0.85
    ensures b.isOnGround && P.Abs(b.vx) < SnapSpeed ==> r.y == b.y + sin(now * 0.005) * 0.5
    ensures !(b.isOnGround && P.Abs(b.vx) < SnapSpeed) ==> r.y == b.y
    ensures P.Abs(b.vx) > SnapSpeed ==> r.rotation == sin(now * 0.01) * 0.05
    ensures P.Abs(b.vx) <= SnapSpeed ==> r.rotation == b.rotation * 0.9
    ensures r.x == b.x && r.vx == b.vx && r.vy == b.vy && r.isOnGround == b.isOnGround && r.scaleX == b.scaleX
  {
    var scaled := b.(scaleY := Lerp(b.scaleY, 1.0, 0.15));
    var floated := if b.isOnGround && P.Abs(b.vx) < SnapSpeed then scaled.(y := b.y + sin(now * 0.005) * 0.5) else scaled;
    floated.(rotation := if P.Abs(b.vx) > SnapSpeed then sin(now * 0.01) * 0.05 else Lerp(b.rotation, 0.0, 0.1))
  }

  /** One `update`: input, physics, the floor check, then the animation. */
  function Frame(b: OldBody, input: InputState, dt: real, config: GameConfig, sin: real -> real, now: real): OldBody {
    var afterPhysics := PhysicsStep(InputStep(b, input), dt, config.gravity, config.width);
    AnimationStep(CollisionStep(afterPhysics, P.GroundY(config.height)), sin, now)
  }

  /** Input, physics, the floor check and the animation each keep the speed
      within the top speed. */
  lemma FrameKeepsSpeedBounded(b: OldBody, input: InputState, dt: real, config: GameConfig, sin: real -> real, now: real)
    requires SpeedBounded(b)
    ensures SpeedBounded(Frame(b, input, dt, config, sin, now))
  {
    var i := InputStep(b, input);
    assert SpeedBounded(i) by {
      if !input.left && !input.right {
        assert P.Abs(b.vx * OldFriction) <= P.Abs(b.vx);
      }
    }
  }

  /** A grounded player that does not jump is still grounded after the
      frame: only a jump leaves the ground. */
  lemma GroundedUntilJump(b: OldBody, input: InputState, dt: real, config: GameConfig, sin: real -> real, now: real)
    requires b.isOnGround && !input.jump
    ensures Frame(b, input, dt, config, sin, now).isOnGround
  {
  }

  /** A sequence of frames, one input each, with the same step and clock. */
  function Frames(b: OldBody, inputs: seq<InputState>, dt: real, config: GameConfig, sin: real -> real, now: real): OldBody
    decreases |inputs|
  {
    if inputs == [] then b
    else Frames(Frame(b, inputs[0], dt, config, sin, now), inputs[1..], dt, config, sin, now)
  }

  /** Over any run of frames the speed stays within the top speed, and a
      grounded player that never presses jump never leaves the ground. */
  lemma {:induction false} FramesKeepInvariants(b: OldBody, inputs: seq<InputState>, dt: real, config: GameConfig,
                                                 sin: real -> real, now: real)
    requires SpeedBounded(b)
    ensures SpeedBounded(Frames(b, inputs, dt, config, sin, now))
    ensures b.isOnGround && (forall i | 0 <= i < |inputs| :: !inputs[i].jump) ==>
      Frames(b, inputs, dt, config, sin, now).isOnGround
    decreases |inputs|
  {
    if inputs != [] {
      var next := Frame(b, inputs[0], dt, config, sin, now);
      FrameKeepsSpeedBounded(b, inputs[0], dt, config, sin, now);
      FramesKeepInvariants(next, inputs[1..], dt, config, sin, now);
      if b.isOnGround && (forall i | 0 <= i < |inputs| :: !inputs[i].jump) {
        GroundedUntilJump(b, inputs[0], dt, config, sin, now);
        assert forall i | 0 <= i < |inputs[1..]| :: !inputs[1..][i].jump by {
          forall i | 0 <= i < |inputs[1..]| ensures !inputs[1..][i].jump {
            assert inputs[1..][i] == inputs[i + 1];
          }
        }
      }
    }
  }

  class PlayerOld {
    const config: GameConfig
    const groundY: real := P.GroundY(config.height)
    var body: OldBody

    /** `setupInitialPosition`: at the middle of the screen, standing on the
        floor. */
    constructor (config: GameConfig)
      ensures this.config == config && groundY == P.GroundY(config.height)
      ensures body == OldBody(config.width / 2.0, groundY, 0.0, 0.0, true, 1.0, 1.0, 0.0)
      ensures body.isOnGround && body.y == groundY && SpeedBounded(body)
    {
      this.config := config;
      body := OldBody(config.width / 2.0, config.height - 60.0 - P.HalfSize, 0.0, 0.0, true, 1.0, 1.0, 0.0);
    }

    method HandleInput(input: InputState)
      modifies this`body
      ensures body == InputStep(old(body), input)
    {
      if input.left {
        body := body.(vx := P.Max(body.vx - Acceleration, -P.Speed), scaleX := P.Abs(body.scaleX) * -1.0);
      } else if input.right {
        body := body.(vx := P.Min(body.vx + Acceleration, P.Speed), scaleX := P.Abs(body.scaleX));
      } else {
        body := body.(vx := body.vx * OldFriction);
        if P.Abs(body.vx) < SnapSpeed {
          body := body.(vx := 0.0);
        }
      }
      if input.jump && body.isOnGround {
        body := body.(vy := -P.JumpPower, isOnGround := false);
        body := body.(scaleY := 0.8);
      }
    }

    method ApplyPhysics(deltaTime: real)
      modifies this`body
      ensures body == PhysicsStep(old(body), deltaTime, config.gravity, config.width)
    {
      if !body.isOnGround {
        body := body.(vy := body.vy + config.gravity * deltaTime);
      }
      body := body.(x := body.x + body.vx * deltaTime);
      body := body.(y := body.y + body.vy * deltaTime);
      var halfSize := P.HalfSize;
      if body.x < halfSize {
        body := body.(x := halfSize, vx := 0.0);
      } else if body.x > config.width - halfSize {
        body := body.(x := config.width - halfSize, vx := 0.0);
      }
    }

    method CheckCollisions()
      modifies this`body
      ensures body == CollisionStep(old(body), groundY)
    {
      if body.y >= groundY {
        body := body.(y := groundY, vy := 0.0, isOnGround := true);
      }
    }

    method UpdateAnimation(sin: real -> real, now: real)
      modifies this`body
      ensures body == AnimationStep(old(body), sin, now)
    {
      body := body.(scaleY := Lerp(body.scaleY, 1.0, 0.15));
      if body.isOnGround && P.Abs(body.vx) < SnapSpeed {
        body := body.(y := body.y + sin(now * 0.005) * 0.5);
      }
      if P.Abs(body.vx) > SnapSpeed {
        body := body.(rotation := sin(now * 0.01) * 0.05);
      } else {
        body := body.(rotation := Lerp(body.rotation, 0.0, 0.1));
      }
    }

    /** `update`: input, physics, the floor check, then the animation. */
    method Update(input: InputState, deltaTime: real, sin: real -> real, now: real)
      modifies this`body
      ensures body == Frame(old(body), input, deltaTime, config, sin, now)
    {
      HandleInput(input);
      ApplyPhysics(deltaTime);
      CheckCollisions();
      UpdateAnimation(sin, now);
    }
  }
}
