/** The player of the game scene (src/entities/Player.ts): per frame it reads
    the input, integrates velocity, resolves the current platform, a newly
    hit platform or the floor, clamps to the world's sides, and picks the
    animation pose and the squash/stretch scale.

    Each phase is a pure function on `Body`, the fields the phase reads and
    writes; the `Player` class holds those fields and its methods are proved
    to update them as the functions say. The platform query installed with
    `setPlatformCollisionCheck` is a function parameter. The sound and
    particle effects the source triggers are recorded as `PlayerEvent`s. */
module PlayerEntity {
  import opened Wrappers
  import opened CoreTypes
  import opened PlayerAnimation

  const Size: real := 32.0
  const HalfSize: real := 16.0
  const Speed: real := 8.0
  const JumpPower: real := 18.0
  const Friction: real := 0.8

  /** The jump and landing sounds (the scene manager always has a sound
      manager) and the dust bursts (when the player has a particle system). */
  datatype PlayerEvent = JumpSound | JumpDust(x: real, y: real) | LandSound | LandDust(x: real, y: real)

  /** The player's per-frame state; (x, y) is the sprite position, the centre
      of the 32×32 body. */
  datatype Body = Body(
    x: real, y: real,
    vx: real, vy: real,
    isOnGround: bool,
    currentPlatform: Option<Rect>,
    wasOnGround: bool,
    isMoving: bool,
    facingRight: bool,
    fallTimer: real,
    landingScale: real,
    squashStretch: real)

  datatype Step = Step(body: Body, events: seq<PlayerEvent>)

  /** What physics reads that the body does not hold. */
  datatype World = World(
    gravity: real,
    groundY: real,
    rightBoundary: real,
    platformCheck: Option<Rect -> Option<Rect>>)

  function Abs(v: real): real { if v < 0.0 then -v else v }

  /** The floor: the configured screen height less a 60-unit ground strip and
      half the body. The world height plays no part. */
  function GroundY(configHeight: real): (g: real)
    ensures g + HalfSize + 60.0 == configHeight
  {
    configHeight - 60.0 - HalfSize
  }

  /** The right edge used for clamping: the world width once set, or else the
      configured screen width. */
  function RightBoundary(worldWidth: real, configWidth: real): (r: real)
    ensures worldWidth > 0.0 ==> r == worldWidth
    ensures worldWidth <= 0.0 ==> r == configWidth
  {
    if worldWidth > 0.0 then worldWidth else configWidth
  }

  /** A platform the player stands on is never held while airborne. */
  predicate PlatformImpliesGround(b: Body) {
    b.currentPlatform.Some? ==> b.isOnGround
  }

  /** The squash/stretch factors stay on their side of 1. */
  predicate JuiceBounded(b: Body) {
    b.landingScale >= 1.0 && b.squashStretch <= 1.0
  }

  // ---------------------------------------------------------------------------
  // Input

  /** The horizontal half of `handleInput`. */
  function Steer(b: Body, input: InputState): Body {
    if input.left then b.(vx := -Speed, facingRight := false, isMoving := true)
    else if input.right then b.(vx := Speed, facingRight := true, isMoving := true)
    else b.(vx := b.vx * Friction, isMoving := false)
  }

  function InputStep(b: Body, input: InputState, hasParticles: bool): Step {
    var moved := Steer(b, input);
    if input.jump && b.isOnGround then
      Step(moved.(vy := -JumpPower, isOnGround := false, currentPlatform := None, squashStretch := 0.7),
           [JumpSound] + if hasParticles then [JumpDust(b.x, b.y + HalfSize)] else [])
    else
      Step(moved, [])
  }

  /** Left beats right; holding either sets the full speed and the facing;
      holding neither applies friction and keeps the facing. */
  lemma HorizontalInput(b: Body, input: InputState, hasParticles: bool)
    ensures var r := InputStep(b, input, hasParticles).body;
      && (input.left ==> r.vx == -Speed && !r.facingRight && r.isMoving)
      && (!input.left && input.right ==> r.vx == Speed && r.facingRight && r.isMoving)
      && (!input.left && !input.right ==> r.vx == Friction * b.vx && r.facingRight == b.facingRight && !r.isMoving)
      && r.x == b.x && r.y == b.y
  {
  }

  /** A jump happens exactly when jump is held on the ground: it sets the
      upward speed, leaves the ground and the platform, squashes the sprite
      and triggers the jump effects at the feet. Otherwise nothing vertical
      changes and no effect is triggered. */
  lemma JumpOnlyFromGround(b: Body, input: InputState, hasParticles: bool)
    ensures var s := InputStep(b, input, hasParticles);
      && (input.jump && b.isOnGround ==>
            && s.body.vy == -JumpPower && !s.body.isOnGround && s.body.currentPlatform.None?
            && s.body.squashStretch == 0.7
            && s.events == [JumpSound] + if hasParticles then [JumpDust(b.x, b.y + HalfSize)] else [])
      && (!(input.jump && b.isOnGround) ==>
            && s.body.vy == b.vy && s.body.isOnGround == b.isOnGround
            && s.body.currentPlatform == b.currentPlatform && s.body.squashStretch == b.squashStretch
            && s.events == [])
  {
  }

  function Pow(r: real, k: nat): real
    decreases k
  {
    if k == 0 then 1.0 else r * Pow(r, k - 1)
  }

  function IdleInputs(b: Body, k: nat, hasParticles: bool): Body
    decreases k
  {
    if k == 0 then b else InputStep(IdleInputs(b, k - 1, hasParticles), NoInput, hasParticles).body
  }

  /** With no key held for k frames the horizontal speed is scaled by 0.8^k:
      it shrinks towards 0 and never changes sign. */
  lemma {:induction false} FrictionDecay(b: Body, k: nat, hasParticles: bool)
    ensures IdleInputs(b, k, hasParticles).vx == b.vx * Pow(Friction, k)
    ensures 0.0 < Pow(Friction, k) <= 1.0
    ensures Abs(IdleInputs(b, k, hasParticles).vx) <= Abs(b.vx)
    ensures b.vx > 0.0 ==> IdleInputs(b, k, hasParticles).vx > 0.0
    ensures b.vx < 0.0 ==> IdleInputs(b, k, hasParticles).vx < 0.0
    decreases k
  {
    IdleScales(b, k, hasParticles);
    PowFrictionBounds(k);
    ScaleByFraction(b.vx, Pow(Friction, k));
  }

  /** Each idle frame multiplies the speed by the friction factor once more. */
  lemma {:induction false} IdleScales(b: Body, k: nat, hasParticles: bool)
    ensures IdleInputs(b, k, hasParticles).vx == b.vx * Pow(Friction, k)
    decreases k
  {
    if k > 0 {
      IdleScales(b, k - 1, hasParticles);
      var p := Pow(Friction, k - 1);
      assert IdleInputs(b, k, hasParticles).vx == (b.vx * p) * Friction;
    }
  }

  lemma {:induction false} PowFrictionBounds(k: nat)
    ensures 0.0 < Pow(Friction, k) <= 1.0
    decreases k
  {
    if k > 0 {
      PowFrictionBounds(k - 1);
    }
  }

  /** Scaling by a factor in (0, 1] keeps the sign and does not grow the size. */
  lemma ScaleByFraction(v: real, q: real)
    requires 0.0 < q <= 1.0
    ensures Abs(v * q) <= Abs(v)
    ensures v > 0.0 ==> v * q > 0.0
    ensures v < 0.0 ==> v * q < 0.0
  {
    if v > 0.0 {
      assert v * q <= v * 1.0;
    } else if v < 0.0 {
      assert v * q >= v * 1.0;
    }
  }

  // ---------------------------------------------------------------------------
  // Physics

  /** Gravity acts only in the air; on the ground a vertical speed below 0.5
      in size is snapped to 0. */
  function GravityStep(b: Body, gravity: real, dt: real): (vy: real)
    ensures !b.isOnGround ==> vy == b.vy + gravity * dt
    ensures b.isOnGround ==> vy == (if Abs(b.vy) < 0.5 then 0.0 else b.vy)
  {
    if !b.isOnGround then b.vy + gravity * dt
    else if Abs(b.vy) < 0.5 then 0.0
    else b.vy
  }

  /** Still standing on platform `p`: horizontally over it, feet within 3 of
      its top, and not moving up faster than 1. */
  predicate StaysOn(p: Rect, x: real, y: real, vy: real) {
    && x + HalfSize > p.x && x - HalfSize < p.x + p.width
    && Abs(y + HalfSize - p.y) <= 3.0
    && vy >= -1.0
  }

  /** Landing on top of platform `p`: falling or still, the feet no more than
      5 below its top before the move and at or below it after. */
  predicate LandsOn(p: Rect, y: real, newY: real, vy: real) {
    vy >= 0.0 && y + HalfSize <= p.y + 5.0 && newY + HalfSize >= p.y
  }

  /** The box the platform query is asked about: the body at its next height. */
  function FutureBounds(x: real, newY: real): Rect {
    Rect(x - HalfSize, newY - HalfSize, Size, Size)
  }

  /** The sides: the centre stays at least half a body from each edge, and
      the horizontal speed is zeroed when it had to be moved. */
  function ClampX(x: real, vx: real, right: real): (r: (real, real))
    ensures r.0 != x ==> r.1 == 0.0
    ensures r.1 != vx ==> r.0 != x
    ensures right >= Size ==> HalfSize <= r.0 <= right - HalfSize
    ensures HalfSize <= x <= right - HalfSize ==> r == (x, vx)
  {
    if x < HalfSize then (HalfSize, 0.0)
    else if x > right - HalfSize then (right - HalfSize, 0.0)
    else (x, vx)
  }

  /** The horizontal position after the move, the height the player would
      reach, and the vertical speed after gravity. */
  datatype Motion = Motion(x: real, newY: real, vy: real)

  function MotionOf(b: Body, dt: real, gravity: real): (m: Motion)
    ensures m.x == b.x + b.vx * dt && m.newY == b.y + m.vy * dt
  {
    var vy := GravityStep(b, gravity, dt);
    Motion(b.x + b.vx * dt, b.y + vy * dt, vy)
  }

  /** The platform query on the body at its next height; none is installed
      means no platform. */
  function PlatformQuery(w: World, x: real, newY: real): Option<Rect> {
    if w.platformCheck.Some? then w.platformCheck.value(FutureBounds(x, newY)) else None
  }

  /** The player keeps standing on its current platform. */
  predicate Stays(b: Body, m: Motion, w: World) {
    && w.platformCheck.Some? && b.currentPlatform.Some? && b.isOnGround
    && StaysOn(b.currentPlatform.value, m.x, b.y, m.vy)
  }

  /** The platform the player lands on this frame, if any. */
  function Landing(b: Body, m: Motion, w: World): (p: Option<Rect>)
    ensures p.Some? ==> p == PlatformQuery(w, m.x, m.newY) && LandsOn(p.value, b.y, m.newY, m.vy)
    ensures p.None? && w.platformCheck.Some? && !Stays(b, m, w) ==>
      var q := PlatformQuery(w, m.x, m.newY); q.None? || !LandsOn(q.value, b.y, m.newY, m.vy)
  {
    if w.platformCheck.Some? && !Stays(b, m, w) then
      var q := PlatformQuery(w, m.x, m.newY);
      if q.Some? && LandsOn(q.value, b.y, m.newY, m.vy) then q else None
    else None
  }

  /** The landing sound and, with a particle system, dust at the feet; only
      when the player was airborne the frame before. */
  function LandEffects(wasOnGround: bool, hasParticles: bool, x: real, feetY: real): (e: seq<PlayerEvent>)
    ensures e == [] <==> wasOnGround
  {
    if wasOnGround then [] else [LandSound] + if hasParticles then [LandDust(x, feetY)] else []
  }

  /** The platform still held when the player does not stay on it: one it
      stood on is let go. */
  function Released(b: Body, w: World): Option<Rect> {
    if w.platformCheck.Some? && b.currentPlatform.Some? && b.isOnGround then None else b.currentPlatform
  }

  /** The vertical resolution of `updatePhysics`: stay on the current
      platform, land on a new one, or move to the new height and stop at
      the floor. The body is at its new horizontal position. */
  function Resolve(b: Body, m: Motion, w: World, hasParticles: bool): Step {
    var moved := b.(x := m.x);
    if Stays(b, m, w) then
      var top := b.currentPlatform.value.y;
      Step(moved.(y := if Abs(b.y + HalfSize - top) > 1.0 then top - HalfSize else b.y,
                  vy := 0.0, isOnGround := true), [])
    else
      var left := Released(b, w);
      var landing := Landing(b, m, w);
      if landing.Some? then
        var top := landing.value.y;
        Step(moved.(y := top - HalfSize, vy := 0.0, isOnGround := true, currentPlatform := landing,
                    landingScale := if b.wasOnGround then b.landingScale else 1.3),
             LandEffects(b.wasOnGround, hasParticles, m.x, top))
      else if m.newY >= w.groundY && m.vy >= 0.0 then
        Step(moved.(y := w.groundY, vy := 0.0, isOnGround := true, currentPlatform := left,
                    landingScale := if b.wasOnGround then b.landingScale else 1.3),
             LandEffects(b.wasOnGround, hasParticles, m.x, m.newY + HalfSize))
      else
        Step(moved.(y := m.newY, vy := m.vy, isOnGround := false, currentPlatform := None), [])
  }

  /** `updatePhysics`: gravity and the horizontal move, the vertical
      resolution, `wasOnGround` taken over from the new grounded flag, and
      only then the side clamp. */
  function PhysicsStep(b: Body, dt: real, w: World, hasParticles: bool): Step {
    var r := Resolve(b, MotionOf(b, dt, w.gravity), w, hasParticles);
    var clamped := ClampX(r.body.x, r.body.vx, w.rightBoundary);
    Step(r.body.(x := clamped.0, vx := clamped.1, wasOnGround := r.body.isOnGround), r.events)
  }

  /** Still on the current platform: grounded, stopped, the platform kept, the
      height corrected only when it drifted by more than 1, no effects. */
  lemma StayingAttached(b: Body, m: Motion, w: World, hasParticles: bool)
    requires Stays(b, m, w)
    ensures var s := Resolve(b, m, w, hasParticles);
      var top := b.currentPlatform.value.y;
      && s.body.isOnGround && s.body.vy == 0.0 && s.body.currentPlatform == b.currentPlatform
      && (Abs(b.y + HalfSize - top) > 1.0 ==> s.body.y + HalfSize == top)
      && (Abs(b.y + HalfSize - top) <= 1.0 ==> s.body.y == b.y)
      && s.events == []
  {
  }

  /** Walking off the current platform drops it: afterwards the player holds
      a platform only if it landed on the one the query reports. */
  lemma LeavingPlatform(b: Body, m: Motion, w: World, hasParticles: bool)
    requires w.platformCheck.Some? && b.currentPlatform.Some? && b.isOnGround && !Stays(b, m, w)
    ensures var s := Resolve(b, m, w, hasParticles);
      s.body.currentPlatform.Some? ==> s.body.currentPlatform == PlatformQuery(w, m.x, m.newY)
  {
  }

  /** Landing on a platform the query reports (while falling or still, feet
      at most 5 below its top before the move and at or below it after): feet
      on its top, stopped, grounded, the platform remembered; the landing
      bounce and effects only when the player was airborne last frame. */
  lemma LandingOnPlatform(b: Body, m: Motion, w: World, hasParticles: bool)
    requires w.platformCheck.Some? && !Stays(b, m, w)
    requires PlatformQuery(w, m.x, m.newY).Some?
    requires LandsOn(PlatformQuery(w, m.x, m.newY).value, b.y, m.newY, m.vy)
    ensures var p := PlatformQuery(w, m.x, m.newY);
      var s := Resolve(b, m, w, hasParticles);
      && s.body.y + HalfSize == p.value.y && s.body.vy == 0.0
      && s.body.isOnGround && s.body.currentPlatform == p
      && s.body.landingScale == (if b.wasOnGround then b.landingScale else 1.3)
      && (s.events != [] <==> !b.wasOnGround)
  {
  }

  /** With no platform resolved the player moves to the new height; reaching
      the floor while not rising snaps it there, stopped and grounded, with the
      bounce if it was airborne; otherwise it is airborne and holds no
      platform. */
  lemma FloorOrAir(b: Body, m: Motion, w: World, hasParticles: bool)
    requires !Stays(b, m, w) && Landing(b, m, w).None?
    ensures var s := Resolve(b, m, w, hasParticles);
      && (m.newY >= w.groundY && m.vy >= 0.0 ==>
            && s.body.y == w.groundY && s.body.vy == 0.0 && s.body.isOnGround
            && s.body.landingScale == (if b.wasOnGround then b.landingScale else 1.3)
            && (s.events != [] <==> !b.wasOnGround))
      && (!(m.newY >= w.groundY && m.vy >= 0.0) ==>
            s.body.y == m.newY && s.body.vy == m.vy && !s.body.isOnGround && s.body.currentPlatform.None?
            && s.events == [])
  {
  }

  /** Whatever happened vertically, the player ends inside the sides (when
      the world is at least one body wide) with its speed zeroed if it had to
      be moved, and `wasOnGround` equals the new grounded flag. */
  lemma PhysicsEndsClamped(b: Body, dt: real, w: World, hasParticles: bool)
    ensures var s := PhysicsStep(b, dt, w, hasParticles);
      && (w.rightBoundary >= Size ==> HalfSize <= s.body.x <= w.rightBoundary - HalfSize)
      && (s.body.x != b.x + b.vx * dt ==> s.body.vx == 0.0)
      && (s.body.x == b.x + b.vx * dt ==> s.body.vx == b.vx)
      && s.body.wasOnGround == s.body.isOnGround
  {
    var m := MotionOf(b, dt, w.gravity);
    var r := Resolve(b, m, w, hasParticles);
    assert r.body.x == m.x && r.body.vx == b.vx;
  }

  /** A jump from the ground, followed by the same frame's physics, leaves
      the ground with speed -18 + gravity·dt, unless gravity cancels the jump
      within the frame. */
  lemma JumpLeavesGround(b: Body, input: InputState, dt: real, w: World, hasParticles: bool)
    requires input.jump && b.isOnGround
    requires w.gravity * dt < JumpPower
    ensures var afterInput := InputStep(b, input, hasParticles).body;
      var s := PhysicsStep(afterInput, dt, w, hasParticles);
      && s.body.vy == -JumpPower + w.gravity * dt
      && !s.body.isOnGround && s.body.currentPlatform.None?
      && s.events == []
  {
    var afterInput := InputStep(b, input, hasParticles).body;
    var m := MotionOf(afterInput, dt, w.gravity);
    assert m.vy < 0.0;
    assert !Stays(afterInput, m, w);
    assert Landing(afterInput, m, w).None?;
  }

  /** Physics keeps "a held platform means grounded", and the landing bounce
      it sets is above 1. */
  lemma PhysicsKeepsInvariants(b: Body, dt: real, w: World, hasParticles: bool)
    ensures PlatformImpliesGround(PhysicsStep(b, dt, w, hasParticles).body)
    ensures JuiceBounded(b) ==> JuiceBounded(PhysicsStep(b, dt, w, hasParticles).body)
  {
    var m := MotionOf(b, dt, w.gravity);
    var r := Resolve(b, m, w, hasParticles);
    assert PlatformImpliesGround(r.body);
    assert JuiceBounded(b) ==> JuiceBounded(r.body);
  }

  // ---------------------------------------------------------------------------
  // Animation state

  datatype Pose = Pose(body: Body, state: AnimState, scaleY: real)

  /** The pose `updateAnimation` hands to the animation system, with the new
      fall timer: it grows in the air, is 0 on the ground and restarts while
      rising; a landing (grounded now, airborne in the last frame) overrides
      the pose. */
  function PoseOf(b: Body, dt: real): (AnimState, real) {
    var fallTimer := if !b.isOnGround then b.fallTimer + dt else 0.0;
    var (state, timer) :=
      if !b.isOnGround then
        if b.vy < 0.0 then (Jump, 0.0)
        else if fallTimer > 100.0 then (Fall, fallTimer)
        else (if b.isMoving then Walk else Idle, fallTimer)
      else (if b.isMoving then Walk else Idle, fallTimer);
    (if b.isOnGround && !b.wasOnGround then Land else state, timer)
  }

  /** The decay of the landing bounce towards 1 by 0.05 per unit of time and
      the recovery of the squash towards 1 by 0.1. */
  function Decayed(b: Body, dt: real): Body {
    b.(landingScale := if b.landingScale > 1.0 then Max(1.0, b.landingScale - 0.05 * dt) else b.landingScale,
       squashStretch := if b.squashStretch < 1.0 then Min(1.0, b.squashStretch + 0.1 * dt) else b.squashStretch)
  }

  /** `updateAnimation` apart from the calls into the animation system: the
      fall timer, the pose, the vertical scale handed to `setScale`, and the
      decays. */
  function AnimationStep(b: Body, dt: real): Pose {
    var (state, timer) := PoseOf(b, dt);
    Pose(Decayed(b, dt).(fallTimer := timer), state, b.landingScale * b.squashStretch)
  }

  function Max(a: real, b: real): real { if a >= b then a else b }
  function Min(a: real, b: real): real { if a <= b then a else b }

  /** The pose rules: rising shows JUMP and restarts the fall timer; falling
      for more than 100 shows FALL; otherwise WALK or IDLE by movement. The
      fall timer grows in the air and is 0 on the ground. */
  lemma PoseRules(b: Body, dt: real)
    requires b.wasOnGround == b.isOnGround
    ensures var p := AnimationStep(b, dt);
      && (b.isOnGround ==> p.body.fallTimer == 0.0 && p.state == (if b.isMoving then Walk else Idle))
      && (!b.isOnGround && b.vy < 0.0 ==> p.state == Jump && p.body.fallTimer == 0.0)
      && (!b.isOnGround && b.vy >= 0.0 ==>
            && p.body.fallTimer == b.fallTimer + dt
            && (p.state == Fall <==> b.fallTimer + dt > 100.0)
            && (p.state != Fall ==> p.state == (if b.isMoving then Walk else Idle)))
  {
  }

  /** `wasOnGround` is overwritten with the grounded flag at the end of the
      physics phase, before the pose is chosen, so the LAND pose is never
      shown. */
  lemma LandPoseUnreachable(b: Body, dt: real, w: World, hasParticles: bool, dtAnim: real)
    ensures AnimationStep(PhysicsStep(b, dt, w, hasParticles).body, dtAnim).state != Land
  {
  }

  // ---------------------------------------------------------------------------
  // Whole frames

  /** One `update`: input, physics, then the animation state. */
  function Frame(b: Body, input: InputState, dt: real, w: World, hasParticles: bool): Step {
    var afterInput := InputStep(b, input, hasParticles);
    var afterPhysics := PhysicsStep(afterInput.body, dt, w, hasParticles);
    Step(AnimationStep(afterPhysics.body, dt).body, afterInput.events + afterPhysics.events)
  }

  /** What one `update` hands to the animation system: the pose and the
      vertical scale chosen after input and physics, with the body the frame
      ends in. The LAND pose is never among them. */
  function FramePose(b: Body, input: InputState, dt: real, w: World, hasParticles: bool): (p: Pose)
    ensures p.body == Frame(b, input, dt, w, hasParticles).body
    ensures p.state != Land
  {
    var afterPhysics := PhysicsStep(InputStep(b, input, hasParticles).body, dt, w, hasParticles);
    LandPoseUnreachable(InputStep(b, input, hasParticles).body, dt, w, hasParticles, dt);
    AnimationStep(afterPhysics.body, dt)
  }

  /** Input keeps "a held platform means grounded" (a jump drops the platform)
      and only ever lowers the squash to 0.7. */
  lemma InputKeepsInvariants(b: Body, input: InputState, hasParticles: bool)
    ensures PlatformImpliesGround(b) ==> PlatformImpliesGround(InputStep(b, input, hasParticles).body)
    ensures JuiceBounded(b) ==> JuiceBounded(InputStep(b, input, hasParticles).body)
  {
  }

  /** For dt ≥ 0 the decays of the animation phase stop at 1, from above for
      the landing bounce and from below for the squash. */
  lemma AnimationKeepsInvariants(b: Body, dt: real)
    requires dt >= 0.0
    ensures PlatformImpliesGround(b) ==> PlatformImpliesGround(AnimationStep(b, dt).body)
    ensures JuiceBounded(b) ==> JuiceBounded(AnimationStep(b, dt).body)
  {
  }

  /** Hence a whole frame keeps both invariants. */
  lemma FrameKeepsInvariants(b: Body, input: InputState, dt: real, w: World, hasParticles: bool)
    requires dt >= 0.0 && PlatformImpliesGround(b) && JuiceBounded(b)
    ensures PlatformImpliesGround(Frame(b, input, dt, w, hasParticles).body)
    ensures JuiceBounded(Frame(b, input, dt, w, hasParticles).body)
  {
    InputKeepsInvariants(b, input, hasParticles);
    var afterInput := InputStep(b, input, hasParticles).body;
    PhysicsKeepsInvariants(afterInput, dt, w, hasParticles);
    AnimationKeepsInvariants(PhysicsStep(afterInput, dt, w, hasParticles).body, dt);
  }

  // ---------------------------------------------------------------------------
  // The player object

  class Player {
    const config: GameConfig
    const groundY: real
    const anim: PlayerAnimationSystem
    const hasParticles: bool

    /** The sprite position, the velocity and the per-frame flags and timers. */
    var body: Body
    var animationTimer: real
    var worldWidth: real
    var worldHeight: real
    var platformCollisionCheck: Option<Rect -> Option<Rect>>
    /** The sounds and dust bursts triggered so far. */
    var events: seq<PlayerEvent>

    ghost predicate Valid()
      reads this, anim
    {
      && anim.Valid()
      && PlatformImpliesGround(body)
      && (body.currentPlatform.Some? ==> platformCollisionCheck.Some?)
    }

    function CurrentWorld(): World
      reads this
    {
      World(config.gravity, groundY, RightBoundary(worldWidth, config.width), platformCollisionCheck)
    }

    /** A new player stands at the middle of the screen on the floor, not yet
        grounded, facing right, with no platform query and no world size. */
    constructor (config: GameConfig, hasParticles: bool)
      ensures Valid() && fresh(anim) && !anim.Running()
      ensures this.config == config && this.hasParticles == hasParticles
      ensures groundY == GroundY(config.height)
      ensures body == Body(config.width / 2.0, groundY, 0.0, 0.0, false, None, false, false, true, 0.0, 1.0, 1.0)
      ensures JuiceBounded(body)
      ensures worldWidth == 0.0 && worldHeight == 0.0 && platformCollisionCheck.None? && events == []
      ensures animationTimer == 0.0
    {
      this.config := config;
      this.hasParticles := hasParticles;
      groundY := config.height - 60.0 - HalfSize;
      anim := new PlayerAnimationSystem();
      body := Body(config.width / 2.0, config.height - 60.0 - HalfSize, 0.0, 0.0, false, None,
                   false, false, true, 0.0, 1.0, 1.0);
      animationTimer := 0.0;
      worldWidth, worldHeight := 0.0, 0.0;
      platformCollisionCheck := None;
      events := [];
    }

    method HandleInput(input: InputState)
      requires Valid()
      modifies this`body, this`events
      ensures Valid()
      ensures body == InputStep(old(body), input, hasParticles).body
      ensures events == old(events) + InputStep(old(body), input, hasParticles).events
    {
      body := body.(isMoving := false);
      if input.left {
        body := body.(vx := -Speed, facingRight := false, isMoving := true);
      } else if input.right {
        body := body.(vx := Speed, facingRight := true, isMoving := true);
      } else {
        body := body.(vx := body.vx * Friction);
      }
      if input.jump && body.isOnGround {
        body := body.(vy := -JumpPower, isOnGround := false, currentPlatform := None);
        events := events + [JumpSound];
        if hasParticles {
          events := events + [JumpDust(body.x, body.y + HalfSize)];
        }
        body := body.(squashStretch := 0.7);
      }
    }

    /** `updatePhysics`: gravity and the move, the vertical resolution, then
        `wasOnGround` and the side clamp. */
    method UpdatePhysics(deltaTime: real)
      requires Valid()
      modifies this`body, this`events
      ensures Valid()
      ensures body == PhysicsStep(old(body), deltaTime, CurrentWorld(), hasParticles).body
      ensures events == old(events) + PhysicsStep(old(body), deltaTime, CurrentWorld(), hasParticles).events
    {
      ghost var b := body;
      ghost var m := MotionOf(b, deltaTime, config.gravity);
      var newY := ApplyMotion(deltaTime);
      ResolveVertical(b, m, newY);
      body := body.(wasOnGround := body.isOnGround);
      ClampToSides();
      PhysicsKeepsInvariants(b, deltaTime, CurrentWorld(), hasParticles);
    }

    /** Gravity in the air (or the snap of a small vertical speed on the
        ground) and the horizontal move; returns the height the body would
        reach. */
    method ApplyMotion(deltaTime: real) returns (newY: real)
      modifies this`body
      ensures var m := MotionOf(old(body), deltaTime, config.gravity);
        body == old(body).(x := m.x, vy := m.vy) && newY == m.newY
    {
      if !body.isOnGround {
        body := body.(vy := body.vy + config.gravity * deltaTime);
      } else if Abs(body.vy) < 0.5 {
        body := body.(vy := 0.0);
      }
      body := body.(x := body.x + body.vx * deltaTime);
      newY := body.y + body.vy * deltaTime;
    }

    /** The platform checks (only with a query installed) and otherwise the
        move to the new height with the floor check. */
    method ResolveVertical(ghost b: Body, ghost m: Motion, newY: real)
      requires body == b.(x := m.x, vy := m.vy) && newY == m.newY
      modifies this`body, this`events
      ensures body == Resolve(b, m, CurrentWorld(), hasParticles).body
      ensures events == old(events) + Resolve(b, m, CurrentWorld(), hasParticles).events
    {
      var hitPlatform := false;
      if platformCollisionCheck.Some? {
        hitPlatform := StayOnPlatform(b, m);
        if !hitPlatform {
          hitPlatform := LandOnPlatform(b, m, newY);
        }
      }
      if !hitPlatform {
        FallOrFloor(b, m, newY);
      }
    }

    /** Stays on the current platform (snapping the feet to its top when
        they drifted by more than 1) or lets it go. */
    method StayOnPlatform(ghost b: Body, ghost m: Motion) returns (hitPlatform: bool)
      requires platformCollisionCheck.Some?
      requires body == b.(x := m.x, vy := m.vy)
      modifies this`body
      ensures hitPlatform == Stays(b, m, CurrentWorld())
      ensures hitPlatform ==> body == Resolve(b, m, CurrentWorld(), hasParticles).body
      ensures !hitPlatform ==> body == b.(x := m.x, vy := m.vy, currentPlatform := Released(b, CurrentWorld()))
    {
      hitPlatform := false;
      if body.currentPlatform.Some? && body.isOnGround {
        var platformTop := body.currentPlatform.value.y;
        var playerBottom := body.y + HalfSize;
        if StaysOn(body.currentPlatform.value, body.x, body.y, body.vy) {
          if Abs(playerBottom - platformTop) > 1.0 {
            body := body.(y := platformTop - HalfSize);
          }
          body := body.(vy := 0.0, isOnGround := true);
          hitPlatform := true;
        } else {
          body := body.(currentPlatform := None);
        }
      }
    }

    /** Lands on the platform the query reports for the box at the new
        height, when falling or still and coming from above it. */
    method LandOnPlatform(ghost b: Body, ghost m: Motion, newY: real) returns (hitPlatform: bool)
      requires platformCollisionCheck.Some? && !Stays(b, m, CurrentWorld())
      requires body == b.(x := m.x, vy := m.vy, currentPlatform := Released(b, CurrentWorld()))
      requires newY == m.newY
      modifies this`body, this`events
      ensures hitPlatform == Landing(b, m, CurrentWorld()).Some?
      ensures hitPlatform ==> body == Resolve(b, m, CurrentWorld(), hasParticles).body
      ensures hitPlatform ==> events == old(events) + Resolve(b, m, CurrentWorld(), hasParticles).events
      ensures !hitPlatform ==> body == old(body) && events == old(events)
    {
      hitPlatform := false;
      var platform := platformCollisionCheck.value(FutureBounds(body.x, newY));
      if platform.Some? && body.vy >= 0.0 {
        var platformTop := platform.value.y;
        if body.y + HalfSize <= platformTop + 5.0 && newY + HalfSize >= platformTop {
          body := body.(y := platformTop - HalfSize, vy := 0.0, isOnGround := true, currentPlatform := platform);
          hitPlatform := true;
          if !body.wasOnGround {
            events := events + [LandSound];
            if hasParticles {
              events := events + [LandDust(body.x, body.y + HalfSize)];
            }
            body := body.(landingScale := 1.3);
          }
        }
      }
    }

    /** Moves to the new height; stops on the floor when reaching it while not
        rising, and is otherwise airborne. */
    method FallOrFloor(ghost b: Body, ghost m: Motion, newY: real)
      requires !Stays(b, m, CurrentWorld()) && Landing(b, m, CurrentWorld()).None?
      requires body == b.(x := m.x, vy := m.vy, currentPlatform := Released(b, CurrentWorld()))
      requires newY == m.newY
      modifies this`body, this`events
      ensures body == Resolve(b, m, CurrentWorld(), hasParticles).body
      ensures events == old(events) + Resolve(b, m, CurrentWorld(), hasParticles).events
    {
      body := body.(y := newY);
      if body.y >= groundY && body.vy >= 0.0 {
        if !body.wasOnGround {
          events := events + [LandSound];
          if hasParticles {
            events := events + [LandDust(body.x, body.y + HalfSize)];
          }
          body := body.(landingScale := 1.3);
        }
        body := body.(y := groundY, vy := 0.0, isOnGround := true);
      } else {
        body := body.(isOnGround := false, currentPlatform := None);
      }
    }

    /** `updateAnimation`: advances the animation system, chooses the pose,
        hands over pose, facing and scale, then decays the bounce and the
        squash. */
    method UpdateAnimation(deltaTime: real)
      requires Valid()
      modifies this`body, this`animationTimer, anim
      ensures Valid()
      ensures body == AnimationStep(old(body), deltaTime).body
      ensures anim.Current() == SwitchTo(Tick(old(anim.Current()), deltaTime), AnimationStep(old(body), deltaTime).state, false)
      ensures anim.currentState == AnimationStep(old(body), deltaTime).state
      ensures anim.scaleX == FacingScale(body.facingRight)
      ensures anim.scaleY == AnimationStep(old(body), deltaTime).scaleY
      ensures anim.tint == old(anim.tint)
      ensures animationTimer == old(animationTimer) + deltaTime
    {
      ghost var b, q := body, anim.Current();
      animationTimer := animationTimer + deltaTime;
      anim.Update(deltaTime);
      var animationState := ChoosePose(deltaTime);
      anim.SetState(animationState, false);
      ghost var switched := anim.Current();
      assert switched == SwitchTo(Tick(q, deltaTime), AnimationStep(b, deltaTime).state, false);
      anim.SetFacing(body.facingRight);
      anim.SetScale(1.0, body.landingScale * body.squashStretch);
      assert anim.Current() == switched;
      DecayScales(deltaTime);
    }

    /** The fall timer and the pose. */
    method ChoosePose(deltaTime: real) returns (animationState: AnimState)
      modifies this`body
      ensures (animationState, body.fallTimer) == PoseOf(old(body), deltaTime)
      ensures body == old(body).(fallTimer := body.fallTimer)
    {
      if !body.isOnGround {
        body := body.(fallTimer := body.fallTimer + deltaTime);
      } else {
        body := body.(fallTimer := 0.0);
      }
      animationState := Idle;
      if !body.isOnGround {
        if body.vy < 0.0 {
          animationState := Jump;
          body := body.(fallTimer := 0.0);
        } else if body.fallTimer > 100.0 {
          animationState := Fall;
        } else {
          animationState := if body.isMoving then Walk else Idle;
        }
      } else if body.isMoving {
        animationState := Walk;
      }
      if body.isOnGround && !body.wasOnGround {
        animationState := Land;
      }
    }

    /** The landing bounce and squash/stretch decays. */
    method DecayScales(deltaTime: real)
      modifies this`body
      ensures body == Decayed(old(body), deltaTime)
    {
      if body.landingScale > 1.0 {
        body := body.(landingScale := Max(1.0, body.landingScale - 0.05 * deltaTime));
      }
      if body.squashStretch < 1.0 {
        body := body.(squashStretch := Min(1.0, body.squashStretch + 0.1 * deltaTime));
      }
    }

    /** The side clamp at the end of `updatePhysics`. */
    method ClampToSides()
      modifies this`body
      ensures var c := ClampX(old(body).x, old(body).vx, CurrentWorld().rightBoundary);
        body == old(body).(x := c.0, vx := c.1)
    {
      var rightBoundary := if worldWidth > 0.0 then worldWidth else config.width;
      if body.x < HalfSize {
        body := body.(x := HalfSize, vx := 0.0);
      } else if body.x > rightBoundary - HalfSize {
        body := body.(x := rightBoundary - HalfSize, vx := 0.0);
      }
    }

    /** `update`: input, physics and animation in that order. */
    method Update(input: InputState, deltaTime: real)
      requires Valid()
      modifies this`body, this`events, this`animationTimer, anim
      ensures Valid()
      ensures body == Frame(old(body), input, deltaTime, old(CurrentWorld()), hasParticles).body
      ensures events == old(events) + Frame(old(body), input, deltaTime, old(CurrentWorld()), hasParticles).events
      ensures worldWidth == old(worldWidth) && worldHeight == old(worldHeight)
      ensures platformCollisionCheck == old(platformCollisionCheck) && CurrentWorld() == old(CurrentWorld())
      ensures animationTimer == old(animationTimer) + deltaTime
      ensures var p := FramePose(old(body), input, deltaTime, old(CurrentWorld()), hasParticles);
        && anim.Current() == SwitchTo(Tick(old(anim.Current()), deltaTime), p.state, false)
        && anim.currentState == p.state && anim.currentState != Land
        && anim.scaleX == FacingScale(body.facingRight) && anim.scaleY == p.scaleY
        && anim.tint == old(anim.tint)
    {
      ghost var b, e, w := body, events, CurrentWorld();
      HandleInput(input);
      ghost var afterInput := InputStep(b, input, hasParticles);
      UpdatePhysics(deltaTime);
      ghost var afterPhysics := PhysicsStep(afterInput.body, deltaTime, w, hasParticles);
      LandPoseUnreachable(afterInput.body, deltaTime, w, hasParticles, deltaTime);
      assert events == (e + afterInput.events) + afterPhysics.events;
      UpdateAnimation(deltaTime);
      assert (e + afterInput.events) + afterPhysics.events == e + (afterInput.events + afterPhysics.events);
    }

    method SetPlatformCollisionCheck(check: Rect -> Option<Rect>)
      requires Valid()
      modifies this
      ensures Valid()
      ensures platformCollisionCheck == Some(check)
      ensures body == old(body) && events == old(events) && animationTimer == old(animationTimer)
      ensures worldWidth == old(worldWidth) && worldHeight == old(worldHeight)
    {
      platformCollisionCheck := Some(check);
    }

    /** Records the world size; only the width is ever used (for the side
        clamp), the floor stays where the screen height put it. */
    method SetWorldBoundaries(width: real, height: real)
      requires Valid()
      modifies this
      ensures Valid()
      ensures worldWidth == width && worldHeight == height
      ensures CurrentWorld().groundY == old(CurrentWorld()).groundY
      ensures width > 0.0 ==> CurrentWorld().rightBoundary == width
      ensures body == old(body) && events == old(events) && animationTimer == old(animationTimer)
      ensures platformCollisionCheck == old(platformCollisionCheck)
    {
      worldWidth := width;
      worldHeight := height;
    }

    /** The 32×32 box centred on the sprite position. */
    function GetBounds(): (r: Rect)
      reads this
      ensures r.width == Size && r.height == Size
      ensures r.x + r.width / 2.0 == body.x && r.y + r.height / 2.0 == body.y
    {
      Rect(body.x - HalfSize, body.y - HalfSize, Size, Size)
    }
  }
}
