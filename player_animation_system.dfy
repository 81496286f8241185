/** The player's sprite animation (src/entities/PlayerAnimationSystem.ts): a
    table of frame sequences per pose, and a sequencer holding the current
    pose, frame index and frame timer. Texture loading is asynchronous in the
    source; here its completion is the `FinishLoading` call, given the names
    of the textures whose files loaded. */
module PlayerAnimation {

  datatype AnimState = Idle | Walk | Jump | Fall | Land

  /** The sprite's texture: the empty texture of a fresh sprite, PIXI's white
      texture, or one of the named player textures. */
  datatype Texture = EmptyTexture | WhiteTexture | Loaded(name: string)

  datatype AnimationFrame = AnimationFrame(texture: Texture, duration: real)

  /** A texture whose file failed to load is replaced by the white texture. */
  function TextureFor(name: string, loaded: set<string>): (t: Texture)
    ensures t == WhiteTexture || t == Loaded(name)
    ensures t == Loaded(name) <==> name in loaded
  {
    if name in loaded then Loaded(name) else WhiteTexture
  }

  /** The frame sequences defined once the textures are loaded. */
  function FrameTable(loaded: set<string>): (t: map<AnimState, seq<AnimationFrame>>)
    ensures t.Keys == {Idle, Walk, Jump, Fall, Land} && forall s | s in t :: t[s] != []
  {
    var idle := TextureFor("idle", loaded);
    map[
      Idle := [AnimationFrame(idle, 1000.0)],
      Walk := [AnimationFrame(TextureFor("walk1", loaded), 200.0), AnimationFrame(idle, 100.0),
               AnimationFrame(TextureFor("walk2", loaded), 200.0), AnimationFrame(idle, 100.0)],
      Jump := [AnimationFrame(TextureFor("jump", loaded), 500.0)],
      Fall := [AnimationFrame(TextureFor("fall", loaded), 500.0)],
      Land := [AnimationFrame(TextureFor("land", loaded), 150.0)]
    ]
  }

  function Durations(frames: seq<AnimationFrame>): (d: seq<real>)
    ensures |d| == |frames| && forall i | 0 <= i < |frames| :: d[i] == frames[i].duration
  {
    seq(|frames|, i requires 0 <= i < |frames| => frames[i].duration)
  }

  /** Every pose has an animation; WALK cycles through four frames lasting
      200, 100, 200 and 100, alternating the walk textures with the idle one;
      the other poses have a single frame; every duration is positive. */
  lemma FrameTableShape(loaded: set<string>)
    ensures forall s: AnimState :: s in FrameTable(loaded) && FrameTable(loaded)[s] != []
    ensures Durations(FrameTable(loaded)[Walk]) == [200.0, 100.0, 200.0, 100.0]
    ensures FrameTable(loaded)[Walk][1].texture == FrameTable(loaded)[Walk][3].texture == TextureFor("idle", loaded)
    ensures Durations(FrameTable(loaded)[Idle]) == [1000.0]
    ensures Durations(FrameTable(loaded)[Jump]) == [500.0]
    ensures Durations(FrameTable(loaded)[Fall]) == [500.0]
    ensures Durations(FrameTable(loaded)[Land]) == [150.0]
    ensures forall s: AnimState, i | s in FrameTable(loaded) && 0 <= i < |FrameTable(loaded)[s]| ::
      FrameTable(loaded)[s][i].duration > 0.0
  {
    var t := FrameTable(loaded);
    forall s: AnimState
      ensures s in t && t[s] != []
    {
      match s
      case Idle =>
      case Walk =>
      case Jump =>
      case Fall =>
      case Land =>
    }
  }

  // ---------------------------------------------------------------------------
  // The frame clock

  datatype FrameClock = FrameClock(frame: nat, timer: real)

  /** One `update` of a running animation: the timer grows by `dt`; once it
      reaches the current frame's duration it restarts and the next frame,
      wrapping around, becomes current. */
  function Advance(frames: seq<AnimationFrame>, c: FrameClock, dt: real): (r: FrameClock)
    requires c.frame < |frames|
    ensures r.frame < |frames|
    ensures c.timer + dt >= frames[c.frame].duration ==>
      r.frame == (c.frame + 1) % |frames| && r.timer == 0.0
    ensures c.timer + dt < frames[c.frame].duration ==>
      r.frame == c.frame && r.timer == c.timer + dt
  {
    var timer := c.timer + dt;
    if timer >= frames[c.frame].duration then FrameClock((c.frame + 1) % |frames|, 0.0)
    else FrameClock(c.frame, timer)
  }

  function Sum(dts: seq<real>): real
    decreases |dts|
  {
    if dts == [] then 0.0 else Sum(dts[..|dts| - 1]) + dts[|dts| - 1]
  }

  /** Consecutive updates, one per entry of `dts`. */
  function AdvanceAll(frames: seq<AnimationFrame>, c: FrameClock, dts: seq<real>): (r: FrameClock)
    requires c.frame < |frames|
    ensures r.frame < |frames|
    decreases |dts|
  {
    if dts == [] then c else Advance(frames, AdvanceAll(frames, c, dts[..|dts| - 1]), dts[|dts| - 1])
  }

  /** As long as the accumulated time stays below the frame's duration the
      frame does not change and the timer is the sum of the deltas. */
  lemma {:induction false} TimerAccumulates(frames: seq<AnimationFrame>, c: FrameClock, dts: seq<real>)
    requires c.frame < |frames|
    requires forall i | 0 <= i < |dts| :: dts[i] >= 0.0
    requires c.timer + Sum(dts) < frames[c.frame].duration
    ensures AdvanceAll(frames, c, dts) == FrameClock(c.frame, c.timer + Sum(dts))
    decreases |dts|
  {
    if dts != [] {
      var init := dts[..|dts| - 1];
      assert forall i | 0 <= i < |init| :: init[i] == dts[i];
      TimerAccumulates(frames, c, init);
    }
  }

  /** When every update lasts at least as long as any frame, each update shows
      the next frame, so after `n` updates the frame is `n` places further
      round the cycle and the timer has just restarted. */
  lemma {:induction false} AdvancesEveryUpdate(frames: seq<AnimationFrame>, c: FrameClock, dts: seq<real>)
    requires c.frame < |frames| && c.timer >= 0.0
    requires forall i, j | 0 <= i < |frames| && 0 <= j < |dts| :: frames[i].duration <= dts[j]
    ensures AdvanceAll(frames, c, dts).frame == (c.frame + |dts|) % |frames|
    ensures dts != [] ==> AdvanceAll(frames, c, dts).timer == 0.0
    decreases |dts|
  {
    if dts == [] {
      ModUnique(c.frame, |frames|, 0, c.frame);
    } else {
      var last := dts[|dts| - 1];
      var init := dts[..|dts| - 1];
      forall i, j | 0 <= i < |frames| && 0 <= j < |init|
        ensures frames[i].duration <= init[j]
      {
        assert init[j] == dts[j];
      }
      AdvancesEveryUpdate(frames, c, init);
      var prev := AdvanceAll(frames, c, init);
      assert prev.timer >= 0.0;
      assert frames[prev.frame].duration <= last;
      LongUpdateAdvances(frames, prev, last);
      ModSucc(c.frame + |init|, |frames|);
    }
  }

  /** An update at least as long as the current frame moves to the next one. */
  lemma LongUpdateAdvances(frames: seq<AnimationFrame>, c: FrameClock, dt: real)
    requires c.frame < |frames| && c.timer >= 0.0 && frames[c.frame].duration <= dt
    ensures Advance(frames, c, dt) == FrameClock((c.frame + 1) % |frames|, 0.0)
  {
  }

  lemma {:induction false} MulAtLeast(k: nat, m: nat)
    requires k >= 1
    ensures k * m >= m
    decreases k
  {
    if k > 1 {
      MulAtLeast(k - 1, m);
      assert k * m == (k - 1) * m + m;
    }
  }

  lemma ModUnique(x: int, m: int, q: int, r: int)
    requires m > 0 && x == q * m + r && 0 <= r < m
    ensures x % m == r
  {
    var q' := x / m;
    var r' := x % m;
    assert x == q' * m + r';
    assert (q - q') * m == r' - r;
    if q > q' {
      MulAtLeast(q - q', m);
    } else if q < q' {
      MulAtLeast(q' - q, m);
    }
  }

  lemma ModSucc(a: nat, m: nat)
    requires m > 0
    ensures ((a % m) + 1) % m == (a + 1) % m
  {
    var q, r := a / m, a % m;
    assert a == q * m + r;
    if r + 1 == m {
      ModUnique(a + 1, m, q + 1, 0);
      ModUnique(r + 1, m, 1, 0);
    } else {
      ModUnique(a + 1, m, q, r + 1);
      ModUnique(r + 1, m, 0, r + 1);
    }
  }

  /** Walking with updates that each last exactly the current frame shows the
      frames 1, 2, 3 and then 0 again. */
  lemma WalkCycle(loaded: set<string>)
    ensures var walk := FrameTable(loaded)[Walk];
      && Advance(walk, FrameClock(0, 0.0), 200.0) == FrameClock(1, 0.0)
      && Advance(walk, FrameClock(1, 0.0), 100.0) == FrameClock(2, 0.0)
      && Advance(walk, FrameClock(2, 0.0), 200.0) == FrameClock(3, 0.0)
      && Advance(walk, FrameClock(3, 0.0), 100.0) == FrameClock(0, 0.0)
  {
  }

  /** `setFacing`: scale.x becomes 1 facing right and -1 facing left. */
  function FacingScale(facingRight: bool): (s: real)
    ensures s == 1.0 || s == -1.0
    ensures s > 0.0 <==> facingRight
  {
    if facingRight then 1.0 else -1.0
  }

  /** `setScale`: the new horizontal scale has the size asked for and keeps the
      sign (the facing) of the current one; zero counts as facing right. */
  function ScaledX(current: real, scaleX: real): (s: real)
    ensures s == scaleX || s == -scaleX
    ensures scaleX > 0.0 ==> (s > 0.0 <==> current >= 0.0)
  {
    var facing := if current >= 0.0 then 1.0 else -1.0;
    scaleX * facing
  }

  /** Setting the facing and then a scale leaves the facing in place. */
  lemma ScaleKeepsFacing(facingRight: bool, scaleX: real)
    requires scaleX > 0.0
    ensures ScaledX(FacingScale(facingRight), scaleX) > 0.0 <==> facingRight
  {
  }

  /** The scale PIXI's `width`/`height` setters give: the new size over the
      texture's size, with the sign of the old scale (0 counts as positive). */
  function SizedScale(scale: real, size: real, textureSize: real): (s: real)
    requires textureSize > 0.0
    ensures s * textureSize == if scale < 0.0 then -size else size
  {
    (if scale < 0.0 then -1.0 else 1.0) * size / textureSize
  }

  // ---------------------------------------------------------------------------
  // The sequencer

  /** What `update` and `setState` read and write: the frame table, the pose,
      its frame clock, whether the textures are ready, and the texture the
      sprite shows. */
  datatype Sequencer = Sequencer(
    animations: map<AnimState, seq<AnimationFrame>>,
    state: AnimState,
    clock: FrameClock,
    isReady: bool,
    texture: Texture)

  /** The frame index is 0 or in range for the pose. */
  predicate InRange(q: Sequencer) {
    q.clock.frame == 0 || (q.state in q.animations && q.clock.frame < |q.animations[q.state]|)
  }

  /** `update` acts only once the textures are ready and the pose has frames. */
  predicate Runs(q: Sequencer) {
    q.isReady && q.state in q.animations && q.animations[q.state] != []
  }

  /** While running, the sprite shows the texture of the current frame. */
  predicate ShowsFrame(q: Sequencer) {
    InRange(q) && (Runs(q) ==> q.texture == q.animations[q.state][q.clock.frame].texture)
  }

  /** `update`: nothing unless running; otherwise the clock advances and,
      when the frame's time is up, the sprite shows the frame now current. */
  function Tick(q: Sequencer, dt: real): (r: Sequencer)
    requires InRange(q)
    ensures InRange(r)
    ensures r.animations == q.animations && r.state == q.state && r.isReady == q.isReady
    ensures !Runs(q) ==> r == q
    ensures Runs(q) ==> r.clock == Advance(q.animations[q.state], q.clock, dt)
    ensures Runs(q) && q.clock.timer + dt >= q.animations[q.state][q.clock.frame].duration ==>
      r.texture == q.animations[q.state][r.clock.frame].texture
    ensures Runs(q) && q.clock.timer + dt < q.animations[q.state][q.clock.frame].duration ==>
      r.texture == q.texture
  {
    if !Runs(q) then q
    else
      var frames := q.animations[q.state];
      var c := Advance(frames, q.clock, dt);
      if q.clock.timer + dt >= frames[q.clock.frame].duration then q.(clock := c, texture := frames[c.frame].texture)
      else q.(clock := c)
  }

  /** `setState`: another pose, or a reset, restarts at frame 0 and shows the
      pose's first texture when it has frames; otherwise nothing changes. */
  function SwitchTo(q: Sequencer, state: AnimState, reset: bool): (r: Sequencer)
    requires InRange(q)
    ensures InRange(r)
    ensures r.animations == q.animations && r.isReady == q.isReady && r.state == state
    ensures q.state == state && !reset ==> r == q
    ensures q.state != state || reset ==>
      && r.clock == FrameClock(0, 0.0)
      && r.texture == if state in q.animations && q.animations[state] != [] then q.animations[state][0].texture else q.texture
  {
    if q.state != state || reset then
      var q' := q.(state := state, clock := FrameClock(0, 0.0));
      if state in q.animations && |q.animations[state]| > 0 then q'.(texture := q.animations[state][0].texture) else q'
    else q
  }

  /** `update` keeps the sprite on the current frame's texture. */
  lemma TickShowsFrame(q: Sequencer, dt: real)
    requires ShowsFrame(q)
    ensures ShowsFrame(Tick(q, dt))
  {
  }

  /** So does `setState`, once the textures are ready. */
  lemma SwitchShowsFrame(q: Sequencer, state: AnimState, reset: bool)
    requires ShowsFrame(q)
    ensures ShowsFrame(SwitchTo(q, state, reset))
  {
  }

  /** Ready on a full frame table, every later `update` and `setState` keeps
      a pose with frames running and showing its current frame. */
  lemma {:induction false} LoadedStaysShown(q: Sequencer, dt: real, state: AnimState, reset: bool)
    requires ShowsFrame(q) && q.isReady && q.animations.Keys == {Idle, Walk, Jump, Fall, Land}
    requires forall s | s in q.animations :: q.animations[s] != []
    ensures Runs(SwitchTo(Tick(q, dt), state, reset))
    ensures ShowsFrame(SwitchTo(Tick(q, dt), state, reset))
  {
    TickShowsFrame(q, dt);
    SwitchShowsFrame(Tick(q, dt), state, reset);
    assert state in q.animations;
  }

  const PixiWhite := 0xFFFFFF
  const FallbackTint := 0x4ECDC4

  class PlayerAnimationSystem {
    var animations: map<AnimState, seq<AnimationFrame>>
    var currentState: AnimState
    var currentFrame: nat
    var animationTimer: real
    var isReady: bool
    /** The sprite's texture, scale and tint. */
    var texture: Texture
    var scaleX: real
    var scaleY: real
    var tint: int

    /** The current frame is in range whenever the current pose has frames;
        before any pose has frames it is 0. */
    ghost predicate Valid()
      reads this
    {
      InRange(Current())
    }

    /** Whether `update` runs: the textures are ready and the pose has frames. */
    predicate Running()
      reads this
    {
      Runs(Current())
    }

    /** The sequencer's fields as a value. */
    function Current(): Sequencer
      reads this
    {
      Sequencer(animations, currentState, FrameClock(currentFrame, animationTimer), isReady, texture)
    }

    constructor ()
      ensures Valid() && !Running()
      ensures animations == map[] && currentState == Idle && currentFrame == 0 && animationTimer == 0.0
      ensures !isReady && texture == EmptyTexture && scaleX == 1.0 && scaleY == 1.0 && tint == PixiWhite
    {
      animations := map[];
      currentState := Idle;
      currentFrame := 0;
      animationTimer := 0.0;
      isReady := false;
      texture := EmptyTexture;
      scaleX := 1.0;
      scaleY := 1.0;
      tint := PixiWhite;
    }

    /** The end of `setupAnimations`: the frame table is defined, the sprite
        shows the idle texture and the sequencer is ready. It runs once, on
        the table the constructor left empty. */
    method FinishLoading(loaded: set<string>)
      requires Valid() && animations == map[]
      modifies this
      ensures Valid() && Running()
      ensures animations == FrameTable(loaded) && texture == TextureFor("idle", loaded) && isReady
      ensures currentState == old(currentState) && currentFrame == old(currentFrame)
      ensures animationTimer == old(animationTimer)
      ensures scaleX == old(scaleX) && scaleY == old(scaleY) && tint == old(tint)
    {
      FrameTableShape(loaded);
      var table := FrameTable(loaded);
      assert currentState in table && table[currentState] != [] by {
        match currentState
        case Idle =>
        case Walk =>
        case Jump =>
        case Fall =>
        case Land =>
      }
      animations := table;
      texture := TextureFor("idle", loaded);
      isReady := true;
    }

    /** `createFallbackSprite`: a tinted white sprite sized 32×44, marked
        ready. Setting a sprite's width or height rescales it by the
        texture's size and keeps the sign of the scale (0 counts as
        positive); the white texture's size is given as `whiteWidth` by
        `whiteHeight`. */
    method LoadFallback(whiteWidth: real, whiteHeight: real)
      requires Valid()
      requires whiteWidth > 0.0 && whiteHeight > 0.0
      modifies this
      ensures Valid()
      ensures texture == WhiteTexture && tint == FallbackTint && isReady
      ensures animations == old(animations) && currentState == old(currentState)
      ensures currentFrame == old(currentFrame) && animationTimer == old(animationTimer)
      ensures scaleX * whiteWidth == if old(scaleX) < 0.0 then -32.0 else 32.0
      ensures scaleY * whiteHeight == if old(scaleY) < 0.0 then -44.0 else 44.0
    {
      texture := WhiteTexture;
      scaleX := SizedScale(scaleX, 32.0, whiteWidth);
      scaleY := SizedScale(scaleY, 44.0, whiteHeight);
      tint := FallbackTint;
      isReady := true;
    }

    method Update(deltaTime: real)
      requires Valid()
      modifies this
      ensures Valid()
      ensures animations == old(animations) && currentState == old(currentState) && isReady == old(isReady)
      ensures scaleX == old(scaleX) && scaleY == old(scaleY) && tint == old(tint)
      ensures !old(Running()) ==>
        currentFrame == old(currentFrame) && animationTimer == old(animationTimer) && texture == old(texture)
      ensures Current() == Tick(old(Current()), deltaTime)
      ensures old(Running()) ==>
        var frames := animations[currentState];
        var advanced := old(animationTimer) + deltaTime >= frames[old(currentFrame)].duration;
        && FrameClock(currentFrame, animationTimer) ==
           Advance(frames, FrameClock(old(currentFrame), old(animationTimer)), deltaTime)
        && texture == if advanced then frames[currentFrame].texture else old(texture)
    {
      if !isReady {
        return;
      }
      if currentState !in animations || |animations[currentState]| == 0 {
        return;
      }
      var currentAnimation := animations[currentState];
      animationTimer := animationTimer + deltaTime;
      var currentFrameData := currentAnimation[currentFrame];
      if animationTimer >= currentFrameData.duration {
        animationTimer := 0.0;
        currentFrame := (currentFrame + 1) % |currentAnimation|;
        texture := currentAnimation[currentFrame].texture;
      }
    }

    /** Switching to another pose, or asking for a reset, restarts it at frame
        0 and shows its first frame; otherwise nothing changes. */
    method SetState(state: AnimState, reset: bool)
      requires Valid()
      modifies this
      ensures Valid()
      ensures Current() == SwitchTo(old(Current()), state, reset)
      ensures animations == old(animations) && isReady == old(isReady)
      ensures scaleX == old(scaleX) && scaleY == old(scaleY) && tint == old(tint)
      ensures old(currentState) == state && !reset ==>
        currentState == old(currentState) && currentFrame == old(currentFrame)
        && animationTimer == old(animationTimer) && texture == old(texture)
      ensures old(currentState) != state || reset ==>
        && currentState == state && currentFrame == 0 && animationTimer == 0.0
        && texture == if state in animations && animations[state] != [] then animations[state][0].texture else old(texture)
    {
      if currentState != state || reset {
        currentState := state;
        currentFrame := 0;
        animationTimer := 0.0;
        if state in animations && |animations[state]| > 0 {
          texture := animations[state][0].texture;
        }
      }
    }

    method SetFacing(facingRight: bool)
      modifies this
      ensures scaleX == FacingScale(facingRight)
      ensures scaleY == old(scaleY) && texture == old(texture) && tint == old(tint)
      ensures animations == old(animations) && currentState == old(currentState) && isReady == old(isReady)
      ensures currentFrame == old(currentFrame) && animationTimer == old(animationTimer)
    {
      scaleX := if facingRight then 1.0 else -1.0;
    }

    method SetScale(sx: real, sy: real)
      modifies this
      ensures scaleX == ScaledX(old(scaleX), sx) && scaleY == sy
      ensures texture == old(texture) && tint == old(tint)
      ensures animations == old(animations) && currentState == old(currentState) && isReady == old(isReady)
      ensures currentFrame == old(currentFrame) && animationTimer == old(animationTimer)
    {
      var facing := if scaleX >= 0.0 then 1.0 else -1.0;
      scaleX, scaleY := sx * facing, sy;
    }
  }
}
