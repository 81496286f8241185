# A verified model of a PIXI.js platformer's game logic

This project models the game logic of a small browser platformer written in
TypeScript on PIXI.js, and proves properties of it in Dafny. It covers:

- the game shell: configuration, key map, input record, frame time step and
  the scene manager;
- the game scene: the player, the follow camera, the collectibles and the
  score;
- the player's physics and animation state machine, and the sprite animation
  sequencer;
- the two superseded player classes that are still in the source tree
  (`Player_new`, `Player_old`);
- the dust particle system and the level-exit orb;
- the level manager: an index over three levels, fallback level, saved
  progress;
- the SVG level loader: document to level description, and validation.

Modelling choices:

- Numbers are `real`. JavaScript's `parseFloat`/`Number` become a decimal
  scanner in `text.dfy`: sign, digits, fraction, no exponent.
- What the program reads from outside becomes a parameter:
  - `Math.sin` is a function `sin`;
  - the random particle velocities are a function `velocity` of the
    particle's index;
  - `Date.now()`/`performance.now()` readings are a parameter `now`;
  - the installed platform query is a function value;
  - the fetched-and-parsed level file is the result of a `loader` function;
  - what `localStorage` holds is a `Stored` value.
- The sounds and dust bursts the player triggers are recorded in order, as
  `PlayerEvent` values in an `events` field.
- Each particle is a value in a `seq` field. The particle system's methods
  update that field.
- An SVG document is its list of elements in document order. A
  `[class*="word"]` selector is a substring test on the `class` attribute.
- The abstract `Scene` is a stand-in class that records the `init`, `update`
  and `destroy` calls it receives. This lets the scene manager's effect on
  a scene be stated.
- Objects whose fields the source updates are classes:
  - `Camera`, `Collectible`, `Orb`, `Player`, `PlayerNew`, `PlayerOld`;
  - `PlayerAnimationSystem`, `ParticleSystem`;
  - `LevelManager`, `SceneManager`, `Game`, `GameScene`.

  Each method states its new state outright, or as the value a pure
  function computes from the old state. The properties are lemmas
  about those functions.

## Model

| member | source | states |
|---|---|---|
| GameShell.KeysOfActions | src/core/Game.ts:63-74 | exactly these codes map to left (ArrowLeft, KeyA), right (ArrowRight, KeyD), jump (Space, ArrowUp, KeyW), restart (KeyR), next (KeyN), debug (KeyQ); every other code maps to nothing |
| GameShell.ActionOf | src/core/Game.ts:63-74 | the key map as a lookup: the action of a mapped code, none for any other (its table is stated by `KeysOfActions`) |
| GameShell.SetAction | src/core/Game.ts:79 | assigning `input[action]` sets that field and leaves all other fields as they were |
| GameShell.KeyEvent | src/core/Game.ts:76-90 | a mapped code sets its action to whether the key went down; an unmapped code leaves the input unchanged |
| GameShell.ReleaseClears | src/core/Game.ts:84-90 | releasing any key of an action clears it, even while another key of that action is held |
| GameShell.PressReleaseRestores | src/core/Game.ts:76-90 | pressing then releasing a key whose action was not held restores the input |
| GameShell.DeltaTime | src/core/Game.ts:134 | step is 1 on the first frame; otherwise step × 16.67 equals the elapsed milliseconds |
| GameShell.DeltaTimeUnits | src/core/Game.ts:134 | readings 16.67 ms apart give a step of exactly 1; a later reading gives a positive step |
| GameShell.Game.constructor | src/core/Game.ts:15-31 | 1024×768 configuration with gravity 0.8, nothing held, no clock reading, no scene manager |
| GameShell.Game.KeyDown | src/core/Game.ts:76-82 | the input becomes `KeyEvent(old input, code, true)` |
| GameShell.Game.KeyUp | src/core/Game.ts:84-90 | the input becomes `KeyEvent(old input, code, false)` |
| GameShell.Game.Start | src/core/Game.ts:110-130 | a fresh scene manager; the scene is current and was initialised once; the state ends as playing |
| GameShell.Game.GameLoop | src/core/Game.ts:132-138 | the reading is kept; the current scene receives `DeltaTime(last, now)` exactly when the game is playing, otherwise its log is unchanged |
| GameShell.Game.Pause | src/core/Game.ts:140-142 | the state becomes paused |
| GameShell.Game.Resume | src/core/Game.ts:144-146 | the state becomes playing |
| SceneManagement.Scene.constructor | src/scenes/Scene.ts:3-9 | a new scene has received no calls |
| SceneManagement.Scene.Init | src/scenes/Scene.ts:11 | records one `init` call |
| SceneManagement.Scene.Update | src/scenes/Scene.ts:12 | records one `update` call with its delta |
| SceneManagement.Scene.Destroy | src/scenes/Scene.ts:13 | records one `destroy` call |
| SceneManagement.RemoveChild | src/core/SceneManager.ts:22 | removes one occurrence of the child (length one less, multiset minus it); a list without it is unchanged |
| SceneManagement.RemoveThenAdd | src/core/SceneManager.ts:22-28 | removing a child and adding it back keeps the same children |
| SceneManagement.OnlyPlayingForwards | src/core/SceneManager.ts:33 | updates are forwarded exactly when there is a scene and the state is playing |
| SceneManagement.SceneManager.constructor | src/core/SceneManager.ts:7-17 | no current scene, an empty stage, state loading |
| SceneManagement.SceneManager.ChangeScene | src/core/SceneManager.ts:19-30 | a previous scene is destroyed once; the new scene becomes current, is the stage's only child and is initialised once |
| SceneManagement.SceneManager.Update | src/core/SceneManager.ts:32-36 | the delta reaches the current scene only while playing |
| SceneManagement.SceneManager.Pause | src/core/SceneManager.ts:43-45 | state becomes paused |
| SceneManagement.SceneManager.Resume | src/core/SceneManager.ts:47-49 | state becomes playing, whatever it was |
| SceneManagement.SceneManager.GetCurrentScene | src/core/SceneManager.ts:51-53 | null exactly when the stage is empty; otherwise the scene is the stage's only child |
| CameraModel.Smooth | src/core/Camera.ts:29-30 | the gap to the target shrinks to 0.9 of itself, and the position stays between its old value and the target |
| CameraModel.ClampAxis | src/core/Camera.ts:33-34 | at least half the view; at most the world less half the view when the world is not smaller than the view; unchanged when already inside |
| CameraModel.Offset | src/core/Camera.ts:37-38 | the offset takes the position to the centre of the view |
| CameraModel.Follow | src/core/Camera.ts:27-39 | after at least one update the position is within the clamp bounds |
| CameraModel.GapShrinks | src/core/Camera.ts:27-39 | with position and target inside the bounds, k updates leave a gap of 0.9^k times the original, and the position stays inside |
| CameraModel.Camera.constructor | src/core/Camera.ts:14-20 | world and view sizes as given; position and target at the origin |
| CameraModel.Camera.SetTarget | src/core/Camera.ts:22-25 | target becomes (x, y) |
| CameraModel.Camera.Update | src/core/Camera.ts:27-39 | new position is the smoothed, clamped old position; it is within the world bounds; the container offset puts it at the centre of the view |
| CameraModel.Camera.WorldToScreen | src/core/Camera.ts:66-71 | a world point shifted by the container offset |
| CameraModel.Camera.ScreenToWorld | src/core/Camera.ts:73-78 | a screen point shifted back by the container offset |
| CameraModel.Camera.ScreenWorldInverse | src/core/Camera.ts:66-78 | the two conversions are inverse to each other |
| CameraModel.Camera.CentreOnScreen | src/core/Camera.ts:37-38 | the camera position maps to the centre of the view |
| Collectibles.Updated | src/entities/Collectible.ts:89-104 | a collected pickup is frozen; otherwise the timer advances and the sprite bobs 3 around its base height |
| Collectibles.Collectible.constructor | src/entities/Collectible.ts:10-15 | placed at (x, y) with that base height; coin unless a kind is given; uncollected and visible |
| Collectibles.Collectible.Update | src/entities/Collectible.ts:89-104 | nothing once collected; otherwise timer + dt, bobbing height, rotation + 0.02·dt, pulse scale |
| Collectibles.Collectible.Collect | src/entities/Collectible.ts:106-109 | collected and hidden; nothing else changes |
| Collectibles.Collectible.GetBounds | src/entities/Collectible.ts:111-118 | the 24×24 box centred on the sprite |
| Orbs.SquareMonotone | src/entities/Orb.ts:104-106 | for non-negative numbers, comparing squares is comparing the numbers |
| Orbs.WithinDistanceIsDistanceTest | src/entities/Orb.ts:102-106 | the squared test agrees with `sqrt(dx²+dy²) <= threshold` |
| Orbs.Orb.constructor | src/entities/Orb.ts:12-17 | at (x, y), leading to level 2 unless given; uncollected, pulse 1, glow 0.5 |
| Orbs.Orb.Update | src/entities/Orb.ts:43-63 | nothing once collected; otherwise the timer, pulse, glow and alpha, and the float of the height |
| Orbs.Orb.Collect | src/entities/Orb.ts:65-69 | the orb is collected |
| Orbs.Orb.CanInteract | src/entities/Orb.ts:98-107 | true exactly when uncollected and within the threshold of the centre |
| Orbs.Orb.DefaultReach | src/entities/Orb.ts:98 | with the default threshold, exactly when uncollected and at distance at most 30 |
| Particles.Merge | src/effects/ParticleSystem.ts:12-22 | each supplied field overrides the default; each missing field takes it |
| Particles.MergeEmpty | src/effects/ParticleSystem.ts:11-22 | an empty configuration gives 5 white particles, speed 2, life 60, spread π/4, direction −π/2, size 2 |
| Particles.NewParticle | src/effects/ParticleSystem.ts:87-105 | at (x, y) with the given velocity; life and initial life from the burst; its colour and size |
| Particles.Passes | src/effects/ParticleSystem.ts:24 | the loop runs `count` times, none for a negative count |
| Particles.Step | src/effects/ParticleSystem.ts:107-122 | moves by the velocity, gravity adds 0.1, life drops by 1, alpha is life over initial life, scale 0.5 + alpha/2 |
| Particles.NoLifeDiesAtOnce | src/effects/ParticleSystem.ts:115-126 | a particle with no initial life is dead after one update |
| Particles.FadeBounds | src/effects/ParticleSystem.ts:116-121 | while alive, alpha is in (0, 1] and scale in (0.5, 1] |
| Particles.StepTimes | src/effects/ParticleSystem.ts:107-122 | k updates lower life by k and add 0.1·k to the vertical speed |
| Particles.LifetimeIsLife | src/effects/ParticleSystem.ts:115-126 | a particle of whole life L lives exactly L updates |
| Particles.Aged | src/effects/ParticleSystem.ts:32-34 | every particle updated once, same length |
| Particles.AgedAt | src/effects/ParticleSystem.ts:32-34 | entry i of the aged list is particle i updated |
| Particles.Survivors | src/effects/ParticleSystem.ts:36-40 | no longer than the list |
| Particles.SurvivorsAreTheLiving | src/effects/ParticleSystem.ts:36-40 | no survivor is dead, and every live particle survives |
| Particles.SurvivorsOfConcat | src/effects/ParticleSystem.ts:32-41 | removal keeps the order: the survivors of a + b are those of a, then those of b |
| Particles.SurvivorsCount | src/effects/ParticleSystem.ts:36-40 | exactly the dead are removed; a list without dead is unchanged |
| Particles.SurvivorsAreFromTheList | src/effects/ParticleSystem.ts:36-40 | survivors come from the list |
| Particles.UpdatedList | src/effects/ParticleSystem.ts:31-42 | one update of the list never lengthens it |
| Particles.UpdateRemovesTheDead | src/effects/ParticleSystem.ts:31-42 | after an update no dead particle remains; every remaining particle is an updated one; every particle alive after its update remains |
| Particles.UpdatedListCons | src/effects/ParticleSystem.ts:31-42 | the updated suffix from i is particle i's fate followed by the updated suffix from i + 1 |
| Particles.ParticleSystem.constructor | src/effects/ParticleSystem.ts:4-9 | no particles |
| Particles.ParticleSystem.Emit | src/effects/ParticleSystem.ts:11-29 | appends `Passes(count)` new particles built from the merged configuration, after the old ones |
| Particles.ParticleSystem.Update | src/effects/ParticleSystem.ts:31-42 | the backward loop leaves exactly `UpdatedList(old particles)` |
| Particles.ParticleSystem.EmitJumpDust | src/effects/ParticleSystem.ts:44-54 | appends 8 new particles after the old ones, each at (x, y) with its given velocity, life and initial life 30, gold 0xD4AF37, size 3, full alpha and scale |
| Particles.ParticleSystem.EmitLandDust | src/effects/ParticleSystem.ts:56-66 | appends 12 new particles after the old ones, each at (x, y) with its given velocity, life and initial life 40, brown 0x8B7355, size 2, full alpha and scale |
| PlayerAnimation.TextureFor | src/entities/PlayerAnimationSystem.ts:80-90 | the named texture when its file loaded, the white texture otherwise |
| PlayerAnimation.Durations | src/entities/PlayerAnimationSystem.ts:46-67 | the frames' durations, in order |
| PlayerAnimation.FrameTable | src/entities/PlayerAnimationSystem.ts:46-67 | every one of the five poses has a non-empty frame sequence |
| PlayerAnimation.MulAtLeast | src/entities/PlayerAnimationSystem.ts:113 | a positive multiple of m is at least m (for the wrap-around of the frame index) |
| PlayerAnimation.ModUnique | src/entities/PlayerAnimationSystem.ts:113 | the remainder is the unique r in [0, m) with x = q·m + r |
| PlayerAnimation.ModSucc | src/entities/PlayerAnimationSystem.ts:113 | stepping the wrapped index by one and wrapping again equals wrapping the stepped count |
| PlayerAnimation.FrameTableShape | src/entities/PlayerAnimationSystem.ts:46-67 | every pose has frames; walk lasts 200, 100, 200, 100 with idle between; idle 1000, jump 500, fall 500, land 150; all positive |
| PlayerAnimation.Advance | src/entities/PlayerAnimationSystem.ts:109-116 | once timer + dt reaches the current frame's duration the next frame (wrapping) starts with timer 0; below it the frame holds and the timer grows by dt |
| PlayerAnimation.AdvanceAll | src/entities/PlayerAnimationSystem.ts:101-117 | repeated updates keep the frame in range |
| PlayerAnimation.TimerAccumulates | src/entities/PlayerAnimationSystem.ts:109-116 | below the frame's duration the frame holds and the timer is the sum of the deltas |
| PlayerAnimation.AdvancesEveryUpdate | src/entities/PlayerAnimationSystem.ts:109-116 | updates at least as long as every frame move one frame each: n updates move n places round the cycle |
| PlayerAnimation.WalkCycle | src/entities/PlayerAnimationSystem.ts:50-55 | walking with exact frame-length updates shows frames 1, 2, 3, then 0 |
| PlayerAnimation.FacingScale | src/entities/PlayerAnimationSystem.ts:132-134 | ±1, positive exactly when facing right |
| PlayerAnimation.ScaledX | src/entities/PlayerAnimationSystem.ts:136-139 | the requested size with the current sign kept; zero counts as facing right |
| PlayerAnimation.ScaleKeepsFacing | src/entities/PlayerAnimationSystem.ts:132-139 | setting the facing then a scale keeps the facing |
| PlayerAnimation.PlayerAnimationSystem.constructor | src/entities/PlayerAnimationSystem.ts:17-29 | no animations, idle, frame 0, not ready, empty texture |
| PlayerAnimation.PlayerAnimationSystem.FinishLoading | src/entities/PlayerAnimationSystem.ts:31-72 | the frame table is defined, the idle texture is shown, ready; the sequencer fields are untouched |
| PlayerAnimation.PlayerAnimationSystem.LoadFallback | src/entities/PlayerAnimationSystem.ts:92-99 | white texture tinted 0x4ECDC4, ready; sized 32×44 through the size setters, keeping the scale's sign; the table and sequencer are untouched |
| PlayerAnimation.SizedScale | src/entities/PlayerAnimationSystem.ts:96-97 | the scale a size setter leaves: scale times the texture's size is the new size, with the old scale's sign |
| PlayerAnimation.Tick | src/entities/PlayerAnimationSystem.ts:101-117 | nothing unless ready with frames; otherwise the clock moves as `Advance` says and, when the frame's time is up, the sprite shows the frame now current; table, pose and ready flag kept |
| PlayerAnimation.SwitchTo | src/entities/PlayerAnimationSystem.ts:119-130 | another pose or a reset restarts at frame 0 with that pose's first texture when it has frames; otherwise nothing changes |
| PlayerAnimation.TickShowsFrame | src/entities/PlayerAnimationSystem.ts:101-117 | an update keeps the sprite on the current frame's texture |
| PlayerAnimation.SwitchShowsFrame | src/entities/PlayerAnimationSystem.ts:119-130 | a pose change keeps the sprite on the current frame's texture |
| PlayerAnimation.LoadedStaysShown | src/entities/PlayerAnimationSystem.ts:101-130 | on a ready, full frame table an update then a pose change leave the animation running and showing its current frame |
| PlayerAnimation.PlayerAnimationSystem.Update | src/entities/PlayerAnimationSystem.ts:101-117 | the sequencer becomes `Tick` of the old one: nothing unless ready with frames; otherwise the clock moves as `Advance` says, and the texture follows a frame change; scales and tint kept |
| PlayerAnimation.PlayerAnimationSystem.SetState | src/entities/PlayerAnimationSystem.ts:119-130 | the sequencer becomes `SwitchTo` of the old one: a new pose or a reset restarts at frame 0 with that pose's first texture; otherwise nothing changes |
| PlayerAnimation.PlayerAnimationSystem.SetFacing | src/entities/PlayerAnimationSystem.ts:132-134 | horizontal scale ±1 by facing; nothing else changes |
| PlayerAnimation.PlayerAnimationSystem.SetScale | src/entities/PlayerAnimationSystem.ts:136-139 | the new scale, with the horizontal sign kept |
| PlayerEntity.GroundY | src/entities/Player.ts:39 | the floor lies a 60-unit strip plus half the body above the screen's bottom |
| PlayerEntity.RightBoundary | src/entities/Player.ts:234 | the world width once set, the screen width otherwise |
| PlayerEntity.InputStep | src/entities/Player.ts:84-117 | `handleInput` on values: steering, then a jump from the ground (stated by `HorizontalInput`, `JumpOnlyFromGround` and `InputKeepsInvariants`) |
| PlayerEntity.Resolve | src/entities/Player.ts:137-228 | the vertical part of `updatePhysics`: stay on the platform, land on a new one, or fall to the floor (stated by `StayingAttached`, `LeavingPlatform`, `LandingOnPlatform` and `FloorOrAir`) |
| PlayerEntity.PhysicsStep | src/entities/Player.ts:119-244 | `updatePhysics` on values: motion, `Resolve`, `wasOnGround`, then the side clamp (stated by `PhysicsEndsClamped`, `JumpLeavesGround` and `PhysicsKeepsInvariants`) |
| PlayerEntity.PoseOf | src/entities/Player.ts:253-282 | the pose and fall timer `updateAnimation` chooses (stated by `PoseRules` and `LandPoseUnreachable`) |
| PlayerEntity.Decayed | src/entities/Player.ts:293-300 | the bounce and squash decays towards 1 (stated by `AnimationKeepsInvariants`) |
| PlayerEntity.AnimationStep | src/entities/Player.ts:246-301 | `updateAnimation` on values: `PoseOf`, the vertical scale, `Decayed` (stated by `PoseRules` and `AnimationKeepsInvariants`) |
| PlayerEntity.Frame | src/entities/Player.ts:77-82 | one `update`: input, physics, animation, with their events in order (stated by `FrameKeepsInvariants` and `LandPoseUnreachable`) |
| PlayerEntity.HorizontalInput | src/entities/Player.ts:89-101 | left beats right; either sets full speed and facing; neither applies friction 0.8 and keeps the facing |
| PlayerEntity.JumpOnlyFromGround | src/entities/Player.ts:104-116 | a jump happens exactly when jump is held on the ground: speed −18, airborne, platform dropped, squash 0.7, jump sound and dust at the feet; otherwise nothing vertical changes and no event is recorded |
| PlayerEntity.FrictionDecay | src/entities/Player.ts:98-100 | k idle frames scale the speed by 0.8^k: it shrinks and never changes sign |
| PlayerEntity.GravityStep | src/entities/Player.ts:121-129 | gravity only in the air; on the ground a speed below 0.5 is snapped to 0 |
| PlayerEntity.ClampX | src/entities/Player.ts:233-243 | the centre stays half a body inside each side; speed is zeroed exactly when the player was moved |
| PlayerEntity.MotionOf | src/entities/Player.ts:121-135 | the horizontal move and the height after gravity |
| PlayerEntity.Landing | src/entities/Player.ts:171-201 | a landing platform is the one the query reports for the box at the new height, met while falling from above |
| PlayerEntity.LandEffects | src/entities/Player.ts:192-219 | landing sound and dust exactly when the player was airborne last frame |
| PlayerEntity.StayingAttached | src/entities/Player.ts:141-162 | staying on the platform: grounded, stopped, same platform, height corrected only past 1, no events |
| PlayerEntity.LeavingPlatform | src/entities/Player.ts:163-166 | walking off drops the platform unless landing on the one the query reports |
| PlayerEntity.LandingOnPlatform | src/entities/Player.ts:178-201 | feet on the platform top, stopped, grounded, platform kept; bounce 1.3 and effects only after being airborne |
| PlayerEntity.FloorOrAir | src/entities/Player.ts:205-227 | reaching the floor while not rising snaps the player there; otherwise it is airborne with no platform |
| PlayerEntity.PhysicsEndsClamped | src/entities/Player.ts:230-243 | the player ends inside the sides, speed zeroed if moved, and `wasOnGround` equals the new grounded flag |
| PlayerEntity.JumpLeavesGround | src/entities/Player.ts:104-135 | a jump followed by physics leaves the ground with speed −18 + gravity·dt |
| PlayerEntity.PhysicsKeepsInvariants | src/entities/Player.ts:119-244 | physics keeps "a held platform means grounded" and the bounce ≥ 1, squash ≤ 1 bounds |
| PlayerEntity.PoseRules | src/entities/Player.ts:253-282 | rising shows jump and resets the fall timer; falling over 100 shows fall; otherwise walk or idle by movement |
| PlayerEntity.LandPoseUnreachable | src/entities/Player.ts:230-282 | `wasOnGround` is overwritten before the pose is chosen, so the land pose is never selected after physics |
| PlayerEntity.InputKeepsInvariants | src/entities/Player.ts:84-117 | input keeps both invariants |
| PlayerEntity.AnimationKeepsInvariants | src/entities/Player.ts:293-300 | for dt ≥ 0 the decays stop at 1 and keep both invariants |
| PlayerEntity.FrameKeepsInvariants | src/entities/Player.ts:77-82 | a whole frame keeps both invariants |
| PlayerEntity.Player.constructor | src/entities/Player.ts:37-75 | at the middle of the screen on the floor, not grounded, facing right, no platform query, scales 1 |
| PlayerEntity.Player.HandleInput | src/entities/Player.ts:84-117 | body and events as `InputStep` says |
| PlayerEntity.Player.UpdatePhysics | src/entities/Player.ts:119-244 | body and events as `PhysicsStep` says for the current world |
| PlayerEntity.Player.ApplyMotion | src/entities/Player.ts:121-135 | gravity, the horizontal move, and the height reached |
| PlayerEntity.Player.ResolveVertical | src/entities/Player.ts:137-228 | body and events as `Resolve` says |
| PlayerEntity.Player.StayOnPlatform | src/entities/Player.ts:141-167 | stays exactly when `Stays` holds; otherwise the platform is released |
| PlayerEntity.Player.LandOnPlatform | src/entities/Player.ts:170-202 | lands exactly when `Landing` finds a platform; otherwise nothing changes |
| PlayerEntity.Player.FallOrFloor | src/entities/Player.ts:205-227 | body and events as `Resolve` says, when no platform applies |
| PlayerEntity.Player.UpdateAnimation | src/entities/Player.ts:246-301 | body as `AnimationStep` says; the sequencer is `Tick` then `SwitchTo` the chosen pose (frame, timer, texture; table and ready flag kept); facing and vertical scale handed over; tint kept; the animation timer grows by dt |
| PlayerEntity.Player.ChoosePose | src/entities/Player.ts:253-282 | pose and fall timer as `PoseOf` says |
| PlayerEntity.Player.DecayScales | src/entities/Player.ts:293-300 | bounce and squash decay as `Decayed` says |
| PlayerEntity.Player.ClampToSides | src/entities/Player.ts:233-243 | position and speed as `ClampX` says |
| PlayerEntity.FramePose | src/entities/Player.ts:77-82 | the pose and scale one `update` hands over, with the body `Frame` ends in; never the land pose |
| PlayerEntity.Player.Update | src/entities/Player.ts:77-82 | body and events as `Frame` says; world size and platform query kept; the animation timer grows by dt; the sequencer is `Tick` then `SwitchTo` the pose of `FramePose` (never land), with its facing and vertical scale |
| PlayerEntity.Player.SetPlatformCollisionCheck | src/entities/Player.ts:311-313 | the query is installed; nothing else changes |
| PlayerEntity.Player.SetWorldBoundaries | src/entities/Player.ts:315-318 | the size is recorded; the floor is unaffected; a positive width becomes the right boundary |
| PlayerEntity.Player.GetBounds | src/entities/Player.ts:329-336 | the 32×32 box centred on the sprite |
| PlayerNewEntity.InputStep | src/entities/Player_new.ts:62-91 | left beats right at full speed, friction 0.8 otherwise; a jump only from the ground, with sound, dust and squash 0.7 |
| PlayerNewEntity.PhysicsStep | src/entities/Player_new.ts:93-113 | gravity in the air, the move, and the clamp to the screen's sides |
| PlayerNewEntity.AnimationStep | src/entities/Player_new.ts:115-142 | timer + dt, a bob of 2 while walking on the ground, facing scale, vertical scale = bounce × squash |
| PlayerNewEntity.CollisionStep | src/entities/Player_new.ts:148-168 | reaching the floor while not rising grounds the player there, with bounce and effects after being airborne; otherwise it is airborne; `wasOnGround` equals the grounded flag |
| PlayerNewEntity.FrameEndState | src/entities/Player_new.ts:54-60 | after a frame the player is inside the screen, `wasOnGround` matches, and a grounded player is on the floor |
| PlayerNewEntity.BounceOnlyOnTouchdown | src/entities/Player_new.ts:155-167 | bounce and landing sound exactly when touching down after an airborne frame |
| PlayerNewEntity.FrameKeepsJuiceBounded | src/entities/Player_new.ts:131-138 | for dt ≥ 0 a frame keeps bounce ≥ 1 and squash ≤ 1 |
| PlayerNewEntity.PlayerNew.constructor | src/entities/Player_new.ts:30-52 | in the middle of the screen on the floor, with no recorded events |
| PlayerNewEntity.PlayerNew.HandleInput | src/entities/Player_new.ts:62-91 | body and events as `InputStep` says |
| PlayerNewEntity.PlayerNew.UpdatePhysics | src/entities/Player_new.ts:93-113 | body as `PhysicsStep` says |
| PlayerNewEntity.PlayerNew.UpdateAnimation | src/entities/Player_new.ts:115-142 | body as `AnimationStep` says |
| PlayerNewEntity.PlayerNew.CheckCollisions | src/entities/Player_new.ts:148-168 | body and events as `CollisionStep` says |
| PlayerNewEntity.PlayerNew.Update | src/entities/Player_new.ts:54-60 | body and events as `Frame` says |
| PlayerOldEntity.InputStep | src/entities/Player_old.ts:85-111 | acceleration 0.8 capped at ±8 with facing; friction 0.85 with snap below 0.1; a jump only from the ground with speed −18 and squash 0.8 |
| PlayerOldEntity.PhysicsStep | src/entities/Player_old.ts:113-133 | gravity in the air, the move, and the clamp to the screen |
| PlayerOldEntity.CollisionStep | src/entities/Player_old.ts:135-142 | at or below the floor the player is placed on it, stopped and grounded; otherwise unchanged; it never ungrounds |
| PlayerOldEntity.AnimationStep | src/entities/Player_old.ts:144-160 | the squash recovers by 0.15 of its gap; an idle grounded player floats; tilt while moving, decaying otherwise |
| PlayerOldEntity.FrameKeepsSpeedBounded | src/entities/Player_old.ts:78-111 | a frame keeps the speed within ±8 |
| PlayerOldEntity.GroundedUntilJump | src/entities/Player_old.ts:104-142 | a grounded player that does not jump stays grounded |
| PlayerOldEntity.FramesKeepInvariants | src/entities/Player_old.ts:78-83 | over any run of frames the speed stays bounded, and without jumps a grounded player stays grounded |
| PlayerOldEntity.PlayerOld.constructor | src/entities/Player_old.ts:29-76 | grounded on the floor in the middle of the screen, scale 1 |
| PlayerOldEntity.PlayerOld.HandleInput | src/entities/Player_old.ts:85-111 | body as `InputStep` says |
| PlayerOldEntity.PlayerOld.ApplyPhysics | src/entities/Player_old.ts:113-133 | body as `PhysicsStep` says |
| PlayerOldEntity.PlayerOld.CheckCollisions | src/entities/Player_old.ts:135-142 | body as `CollisionStep` says |
| PlayerOldEntity.PlayerOld.UpdateAnimation | src/entities/Player_old.ts:144-160 | body as `AnimationStep` says |
| PlayerOldEntity.PlayerOld.Update | src/entities/Player_old.ts:78-83 | body as `Frame` says |
| GameSceneModel.CollisionSymmetric | src/scenes/GameScene.ts:220-225 | the box test is symmetric |
| GameSceneModel.TouchingEdgesDoNotCollide | src/scenes/GameScene.ts:220-225 | boxes that only share an edge do not collide |
| GameSceneModel.CheckCollision | src/scenes/GameScene.ts:220-225 | the strict overlap test of two boxes (stated by `CollisionSymmetric`, `TouchingEdgesDoNotCollide` and `CollisionIffCommonPoint`) |
| GameSceneModel.CollisionIffCommonPoint | src/scenes/GameScene.ts:220-225 | a common interior point implies collision; for boxes of positive size the converse holds |
| GameSceneModel.PickupStep | src/scenes/GameScene.ts:189-200 | a collected pickup is left alone; a pickup collected now is hidden; an uncollected one has only taken its own update |
| GameSceneModel.CollectibleScore | src/scenes/GameScene.ts:227-237 | 25 exactly for the gem tint, 50 exactly for the star tint, 10 otherwise |
| GameSceneModel.EveryPickupScoresTen | src/scenes/GameScene.ts:227-237 | collectibles keep the default tint, so every pickup scores 10 |
| GameSceneModel.HeldControls | src/scenes/GameScene.ts:239-246 | lists LEFT, RIGHT and JUMP exactly when held, in that order |
| GameSceneModel.GetActiveControls | src/scenes/GameScene.ts:239-248 | the held controls joined by ", ", or "NONE" exactly when none is held |
| GameSceneModel.NoneOnlyWhenIdle | src/scenes/GameScene.ts:247 | no combination of held controls reads "NONE" |
| GameSceneModel.Gain | src/scenes/GameScene.ts:193-195 | a pickup adds its score exactly when it became collected in this frame |
| GameSceneModel.TotalGain | src/scenes/GameScene.ts:189-200 | a frame's points are never negative |
| GameSceneModel.PickupRules | src/scenes/GameScene.ts:189-200 | picked up exactly when uncollected and its updated box overlaps the player's; a collected one is frozen and hidden |
| GameSceneModel.StaysCollected | src/scenes/GameScene.ts:189-200 | a pickup collected in one frame stays collected in all later frames |
| GameSceneModel.ScoresOnce | src/scenes/GameScene.ts:189-200 | a pickup scores at most once |
| GameSceneModel.TenPerPickup | src/scenes/GameScene.ts:227-237 | a frame's points are 10 per pickup |
| GameSceneModel.States | src/scenes/GameScene.ts:17 | the collectibles' states, in order |
| GameSceneModel.TotalGainPrefix | src/scenes/GameScene.ts:189-200 | the points of the first n collectibles depend only on their states |
| GameSceneModel.GameScene.constructor | src/scenes/GameScene.ts:24-139 | player in the middle on the floor; camera over a world twice the screen width; the six pickups placed as listed, uncollected; score 0 shown as "Score: 0" |
| GameSceneModel.GameScene.CollectAt | src/scenes/GameScene.ts:190-199 | one collectible takes its step; the score grows by its gain; the text shows the score |
| GameSceneModel.GameScene.NextPass | src/scenes/GameScene.ts:189-200 | one more pass of the collectible loop keeps the loop's invariant |
| GameSceneModel.GameScene.UpdateCollectibles | src/scenes/GameScene.ts:189-200 | every collectible takes its step against the player's box; the score grows by the frame's total gain; the text keeps up |
| GameSceneModel.GameScene.FollowPlayer | src/scenes/GameScene.ts:182-186 | player body as `Frame` says, in the same world; camera target 100 above the player; the camera position smoothed towards it and clamped, and the container offset centring it |
| GameSceneModel.GameScene.Update | src/scenes/GameScene.ts:181-200 | the player's frame, its world kept, the camera aimed 100 above the player, smoothed, clamped and offset; then each collectible takes its step against the player's new box and the score grows by exactly the frame's total gain |
| LevelNavigation.FallbackLevelShape | src/levels/LevelManager.ts:78-104 | 1600×800, start (100, 500), five platforms with the full-width ground strip first, five collectibles, no enemies or orbs |
| LevelNavigation.RestoredIndex | src/levels/LevelManager.ts:120-131 | no readable entry leaves the index; otherwise the saved index (0 if missing) clamped into range |
| LevelNavigation.SaveLoadRoundTrip | src/levels/LevelManager.ts:109-131 | a saved index in range is restored exactly |
| LevelNavigation.LevelManager.constructor | src/levels/LevelManager.ts:5-22 | three levels, index 0, nothing loaded |
| LevelNavigation.LevelManager.LoadLevel | src/levels/LevelManager.ts:25-37 | a loaded level becomes current; a failure gives the fallback level and leaves the current level |
| LevelNavigation.LevelManager.LoadLevelByIndex | src/levels/LevelManager.ts:39-46 | an error exactly for an index out of range, with nothing changed; otherwise the index is set and that level loaded |
| LevelNavigation.LevelManager.LoadNextLevel | src/levels/LevelManager.ts:48-55 | null exactly at the last level, with nothing changed; otherwise one level on, and that level (or the fallback, leaving the current level as it was) is loaded and returned |
| LevelNavigation.LevelManager.LoadPreviousLevel | src/levels/LevelManager.ts:57-64 | null exactly at the first level, with nothing changed; otherwise one level back, and that level (or the fallback, leaving the current level as it was) is loaded and returned |
| LevelNavigation.LevelManager.GetTotalLevels | src/levels/LevelManager.ts:74-76 | three, and the index is below it |
| LevelNavigation.LevelManager.SaveProgress | src/levels/LevelManager.ts:109-118 | the current index and one more unlocked |
| LevelNavigation.LevelManager.LoadProgress | src/levels/LevelManager.ts:120-131 | index becomes `RestoredIndex` of what was stored |
| Text.IndexOf | src/levels/SVGLevelLoader.ts:100-106 | the first occurrence, or −1 when there is none |
| Text.ContainsIff | src/levels/SVGLevelLoader.ts:100-106 | `includes` holds exactly when the text occurs somewhere |
| Text.ReplaceFirst | src/levels/SVGLevelLoader.ts:263 | without the pattern the text is unchanged; otherwise only the first occurrence is replaced: the text before it is kept, the replacement follows, then the text after the occurrence; no new characters appear |
| Text.Split | src/levels/SVGLevelLoader.ts:63 | at least one piece; no piece holds the separator; joining the pieces gives the text back |
| Text.NatToString | src/scenes/GameScene.ts:196 | decimal digits that spell the number, with no leading zero |
| Text.ReadNatString | src/levels/SVGLevelLoader.ts:92-95 | `parseFloat`/`Number` read a number's decimal text back as that number |
| Text.ReadDigits | src/levels/SVGLevelLoader.ts:92-95 | a text of digits alone reads as the number those digits denote |
| Text.ParseFloat | src/levels/SVGLevelLoader.ts:92-95 | `Number.parseFloat`: the longest decimal numeral after leading white space (stated by `ReadDigits` and `ReadNatString`) |
| Text.ToNumber | src/levels/SVGLevelLoader.ts:63 | `Number`: the trimmed text must be one numeral, the empty text is 0 (stated by `ReadNatString`) |
| SVGLevelLoader.AbsentAttributeDefaults | src/levels/SVGLevelLoader.ts:68-95 | an absent or empty attribute reads as its fallback 0, 2, 100, 768 or 1024 |
| SVGLevelLoader.PresentAttributeReads | src/levels/SVGLevelLoader.ts:92-95 | an attribute spelling a number reads as that number |
| SVGLevelLoader.SelectAll | src/levels/SVGLevelLoader.ts:76 | exactly the elements whose class contains the word |
| SVGLevelLoader.SelectAllAppend | src/levels/SVGLevelLoader.ts:76 | selection keeps document order |
| SVGLevelLoader.Select | src/levels/SVGLevelLoader.ts:186-196 | the first selected element, or none |
| SVGLevelLoader.FindSvgRoot | src/levels/SVGLevelLoader.ts:22-26 | none exactly when no element is an `svg`; otherwise an `svg` element of the document |
| SVGLevelLoader.FilterMapAppend | src/levels/SVGLevelLoader.ts:77-83 | the converted list of a concatenation is the concatenation of the converted lists |
| SVGLevelLoader.FilterMapTotal | src/levels/SVGLevelLoader.ts:117-123 | when no conversion fails, one entry per element, in order |
| SVGLevelLoader.FirstMatchIsFirst | src/levels/SVGLevelLoader.ts:98-106 | the kind is that of the first listed word that occurs, or the fallback |
| SVGLevelLoader.PlatformKindOf | src/levels/SVGLevelLoader.ts:98-106 | moving, else breakable, else ice, else normal, by first occurrence in that order |
| SVGLevelLoader.CollectibleKindOf | src/levels/SVGLevelLoader.ts:134-139 | gem, else star, else coin |
| SVGLevelLoader.EnemyKindOf | src/levels/SVGLevelLoader.ts:168-173 | spike, else flying, else goomba |
| SVGLevelLoader.MovingOutranksIce | src/levels/SVGLevelLoader.ts:100-105 | a class naming both moving and ice is moving |
| SVGLevelLoader.ConvertElementToPlatform | src/levels/SVGLevelLoader.ts:88-112 | a platform exactly for a rect |
| SVGLevelLoader.GetElementPosition | src/levels/SVGLevelLoader.ts:237-259 | a circle's centre, a rect's box centre, or the raw x, y; never null |
| SVGLevelLoader.ConvertElementToCollectible | src/levels/SVGLevelLoader.ts:128-146 | always a collectible, at the element's position |
| SVGLevelLoader.ConvertElementToEnemy | src/levels/SVGLevelLoader.ts:162-184 | always an enemy, at the element's position |
| SVGLevelLoader.ConvertElementToOrb | src/levels/SVGLevelLoader.ts:221-235 | always an orb, at the element's position |
| SVGLevelLoader.DataAttributeDefaults | src/levels/SVGLevelLoader.ts:162-235 | with no `data-patrol` attribute the patrol is 100; with no `data-target-level` attribute the target is level 2 |
| SVGLevelLoader.PlatformsOfSingle | src/levels/SVGLevelLoader.ts:74-112 | one element is a platform exactly when it is a rect with a platform class; absent geometry reads 0 |
| SVGLevelLoader.PlatformsInDocumentOrder | src/levels/SVGLevelLoader.ts:74-86 | the platforms of a + b are those of a followed by those of b |
| SVGLevelLoader.PointEntitiesOnePerElement | src/levels/SVGLevelLoader.ts:114-219 | each collectible, enemy or orb element gives exactly one entry, in order |
| SVGLevelLoader.PlatformsOf | src/levels/SVGLevelLoader.ts:74-86 | the converted platform elements in document order (stated by `PlatformsOfSingle` and `PlatformsInDocumentOrder`) |
| SVGLevelLoader.CollectiblesOf | src/levels/SVGLevelLoader.ts:114-126 | the converted collectible elements in document order (stated by `PointEntitiesOnePerElement`) |
| SVGLevelLoader.EnemiesOf | src/levels/SVGLevelLoader.ts:148-160 | the converted enemy elements in document order (stated by `PointEntitiesOnePerElement`) |
| SVGLevelLoader.OrbsOf | src/levels/SVGLevelLoader.ts:207-219 | the converted orb elements in document order (stated by `PointEntitiesOnePerElement`) |
| SVGLevelLoader.EnemyAndOrbAtOnce | src/levels/SVGLevelLoader.ts:148-219 | the categories overlap: an element with both classes is listed as an enemy and as an orb |
| SVGLevelLoader.ExtractPlatforms | src/levels/SVGLevelLoader.ts:74-86 | the loop builds exactly `PlatformsOf(doc)` |
| SVGLevelLoader.ExtractCollectibles | src/levels/SVGLevelLoader.ts:114-126 | the loop builds exactly `CollectiblesOf(doc)` |
| SVGLevelLoader.ExtractEnemies | src/levels/SVGLevelLoader.ts:148-160 | the loop builds exactly `EnemiesOf(doc)` |
| SVGLevelLoader.ExtractOrbs | src/levels/SVGLevelLoader.ts:207-219 | the loop builds exactly `OrbsOf(doc)` |
| SVGLevelLoader.ExtractPlayerStart | src/levels/SVGLevelLoader.ts:186-192 | none exactly when no player-start element exists; otherwise the first one's position |
| SVGLevelLoader.ExtractBackground | src/levels/SVGLevelLoader.ts:194-205 | none exactly without a background element; colour from a non-empty fill; stars true exactly for "true" in any case |
| Text.SplitJoin | src/levels/SVGLevelLoader.ts:63 | splitting undoes joining when no part contains the separator |
| SVGLevelLoader.DimensionsFromViewBox | src/levels/SVGLevelLoader.ts:61-65 | a viewBox made of minX, minY, w and h separated by single spaces gives w by h |
| SVGLevelLoader.DefaultDimensions | src/levels/SVGLevelLoader.ts:68-71 | with no viewBox, width or height the size is 1024 by 768 |
| SVGLevelLoader.ExtractLevelDimensions | src/levels/SVGLevelLoader.ts:59-72 | the third and fourth viewBox items, else the width and height attributes (stated by `DimensionsFromViewBox` and `DefaultDimensions`) |
| SVGLevelLoader.SplitLast | src/levels/SVGLevelLoader.ts:262 | the last piece is what follows the last separator |
| SVGLevelLoader.LevelNameOfFile | src/levels/SVGLevelLoader.ts:261-264 | "dir/level1.svg" is named "level1" |
| SVGLevelLoader.LevelNameOfDirectory | src/levels/SVGLevelLoader.ts:262 | a path ending in "/" is named "unknown" |
| SVGLevelLoader.ExtractLevelName | src/levels/SVGLevelLoader.ts:261-264 | a level name never contains '/' |
| SVGLevelLoader.LoadLevel | src/levels/SVGLevelLoader.ts:14-57 | fails exactly without an svg root, with the wrapped message; otherwise the level assembled from the extractors, start (100, 500) by default |
| SVGLevelLoader.MessagesDistinct | src/levels/SVGLevelLoader.ts:318-331 | the three content messages differ |
| SVGLevelLoader.ContentErrors | src/levels/SVGLevelLoader.ts:318-331 | each message appears exactly when its check fails; one message per failed check |
| SVGLevelLoader.ValidateLevel | src/levels/SVGLevelLoader.ts:302-345 | valid exactly when there are no errors; no root gives only the root error; otherwise the content checks' messages in order |

## Left out

- Fetching level files and `DOMParser`: the loader starts from the parsed
  document. A parse that fails without raising is a document with no `svg`
  element.
- `SVGLevelLoader.getLevelMetadata`, `createSampleLevel` and
  `createBlankLevel`: they fetch or produce SVG text and hold no game rules.
- Text.ParseFloat, Text.ToNumber: JavaScript's `parseFloat`/`Number` are
  read without exponents, `Infinity` or hex. Text that is not a number
  (NaN) reads as 0. Case folding is ASCII only.
- `localStorage` and `JSON`: the stored entry is the `Stored` value. Only
  `currentLevel` is read back, and it is read as an integer.
- Rendering: PIXI applications, containers, graphics, text styles,
  `SpriteGenerator` and `main.ts`. Sprites are reduced to the fields the
  logic reads or sets.
- `SoundManager`: sounds are recorded as events.
- `Math.random` and `Math.sin`/`Math.cos` are function parameters.
  `Math.sqrt` in `Orb.canInteract` becomes a comparison of squares.
- Wall-clock readings are parameters.
- Asynchrony: `changeScene`, `start` and texture loading run to completion
  in order. `FinishLoading` and `LoadFallback` stand for the two endings of
  `setupAnimations`.
- `Camera.shake`, which animates over later frames with random offsets.
- `Orb`: the fade-out animation of `collect`, `getBounds`, `getPosition`
  and `destroy`.
- `Collectible.getPosition` and `destroy`.
- `GameScene`: the star twinkle, the parallax, the debug text, the collect
  sound, the camera shake, `resize` and `destroy`. Also the platform
  drawing, which installs no platform query.
- `Player`: `updateEffects`, `toggleDebug`, `getPosition` and `destroy`.
  Whether a particle system exists is the flag `hasParticles`. The game
  scene builds its player before it is the current scene, so that flag is
  false there.
- `Player_new`: it holds no particle system (its dust bursts are events),
  and the constructor's non-null assertion on the current scene is not
  modelled. Also `getPosition`, `getBounds` and `destroy`.
- `Player_old`: `destroy`.
- `SceneManager.resize` and its sound manager.
- `Game`: `initPixiApp`, resize handling and the context-menu handler.
- `ParticleSystem`: particles are values in a list, so the model does not
  capture in-place mutation of particle objects or aliasing between them.
  `Particle.destroy` is not modelled.
- Particles.Step: when the initial life is 0, `life--` runs first, so
  TypeScript computes alpha as -1 / 0 = -Infinity, and the scale as
  -Infinity too. The model uses alpha 0 (scale 0.5) instead; such a
  particle dies in that same update.
- Default parameters of the TypeScript methods are `Option` arguments,
  falling back to the same defaults.
- GameSceneModel.GameScene.constructor: the score text is the `ScoreText()`
  of a `shownScore` field, not a PIXI text object.
- Orbs.Orb.Collect: states only that the orb becomes collected. The fade-out
  it starts is not modelled.
- SVGLevelLoader.ValidateLevel: a viewBox whose third or fourth space-separated item is
  missing or not a number ("0,0,800,600", say) gives NaN in TypeScript, and
  `width <= 0` is then false, so no dimension error is raised. The model
  reads such an item as 0 and so reports "Invalid level dimensions".
- GameShell.Game.GameLoop: it requires a scene manager, as do `Pause` and
  `Resume`; called before `start`, the TypeScript methods throw a
  `TypeError`, which the model does not represent.
- Particle counts and level indices are integers; TypeScript would also
  accept fractional numbers there.
- White space trimmed by `parseFloat`/`Number` is space, tab, line feed and
  carriage return only; other Unicode white space is not recognised.
- PlayerAnimation.PlayerAnimationSystem.LoadFallback: the white texture's size is a parameter, since it is fixed
  by PIXI rather than by this repository. It models `createFallbackSprite`
  (src/entities/PlayerAnimationSystem.ts:92-99), which runs only when the
  texture loading rejects; `loadTexture` (lines 80-90) catches every load
  error and substitutes the white texture, so in the source this ending is
  practically unreachable.
