/** The rules of the game scene (src/scenes/GameScene.ts): strict box
    overlap, the score a pickup is worth, collecting each pickup once while
    the score counts up, the score text, and the list of held controls shown
    in the debug text. */
module GameSceneModel {
  import opened Wrappers
  import opened CoreTypes
  import opened LevelTypes
  import Text
  import opened Collectibles
  import opened PlayerEntity
  import CameraModel

  // ---------------------------------------------------------------------------
  // Collision

  /** Strict overlap of two boxes: touching edges do not count. */
  predicate CheckCollision(a: Rect, b: Rect) {
    && a.x < b.x + b.width
    && a.x + a.width > b.x
    && a.y < b.y + b.height
    && a.y + a.height > b.y
  }

  predicate StrictlyInside(r: Rect, px: real, py: real) {
    r.x < px < r.x + r.width && r.y < py < r.y + r.height
  }

  lemma CollisionSymmetric(a: Rect, b: Rect)
    ensures CheckCollision(a, b) <==> CheckCollision(b, a)
  {
  }

  /** Boxes that only share an edge do not collide. */
  lemma TouchingEdgesDoNotCollide(a: Rect, b: Rect)
    requires a.x + a.width == b.x || b.x + b.width == a.x || a.y + a.height == b.y || b.y + b.height == a.y
    ensures !CheckCollision(a, b)
  {
  }

  /** A point strictly inside both boxes makes them collide, and two boxes of
      positive size that collide have such a point (the centre of their
      common part). */
  lemma CollisionIffCommonPoint(a: Rect, b: Rect)
    ensures (exists px, py :: StrictlyInside(a, px, py) && StrictlyInside(b, px, py)) ==> CheckCollision(a, b)
    ensures a.width > 0.0 && a.height > 0.0 && b.width > 0.0 && b.height > 0.0 && CheckCollision(a, b) ==>
      exists px, py :: StrictlyInside(a, px, py) && StrictlyInside(b, px, py)
  {
    if a.width > 0.0 && a.height > 0.0 && b.width > 0.0 && b.height > 0.0 && CheckCollision(a, b) {
      var left := CameraModel.Max(a.x, b.x);
      var right := CameraModel.Min(a.x + a.width, b.x + b.width);
      var top := CameraModel.Max(a.y, b.y);
      var bottom := CameraModel.Min(a.y + a.height, b.y + b.height);
      var px := (left + right) / 2.0;
      var py := (top + bottom) / 2.0;
      assert StrictlyInside(a, px, py) && StrictlyInside(b, px, py);
    }
  }

  // ---------------------------------------------------------------------------
  // Scores

  const CoinTint: int := 0xFFD700
  const GemTint: int := 0x9C27B0
  const StarTint: int := 0xFFEB3B

  /** `getCollectibleScore`: by the sprite's tint, 10 for any unknown tint. */
  function CollectibleScore(tint: int): (s: int)
    ensures s == 10 || s == 25 || s == 50
    ensures s == 25 <==> tint == GemTint
    ensures s == 50 <==> tint == StarTint
    ensures tint != GemTint && tint != StarTint ==> s == 10
  {
    if tint == CoinTint then 10
    else if tint == GemTint then 25
    else if tint == StarTint then 50
    else 10
  }

  /** Collectibles keep PIXI's default tint, so every pickup, whatever its
      kind, is worth 10. */
  lemma EveryPickupScoresTen(c: Collectible)
    ensures CollectibleScore(c.tint) == 10
  {
  }

  // ---------------------------------------------------------------------------
  // The controls text

  /** The position of a control in the text: LEFT, then RIGHT, then JUMP. */
  function Rank(name: string): int {
    if name == "LEFT" then 0 else if name == "RIGHT" then 1 else 2
  }

  /** The names of the held controls, in the order LEFT, RIGHT, JUMP. */
  function HeldControls(input: InputState): (names: seq<string>)
    ensures "LEFT" in names <==> input.left
    ensures "RIGHT" in names <==> input.right
    ensures "JUMP" in names <==> input.jump
    ensures forall i, j | 0 <= i < j < |names| :: Rank(names[i]) < Rank(names[j])
  {
    (if input.left then ["LEFT"] else []) + (if input.right then ["RIGHT"] else []) + (if input.jump then ["JUMP"] else [])
  }

  /** `getActiveControls`: the held controls joined by ", ", or "NONE". */
  method GetActiveControls(input: InputState) returns (s: string)
    ensures s == if HeldControls(input) != [] then Text.Join(HeldControls(input), ", ") else "NONE"
    ensures s == "NONE" <==> !input.left && !input.right && !input.jump
  {
    var active: seq<string> := [];
    if input.left {
      active := active + ["LEFT"];
    }
    if input.right {
      active := active + ["RIGHT"];
    }
    if input.jump {
      active := active + ["JUMP"];
    }
    assert active == HeldControls(input);
    s := if |active| > 0 then Text.Join(active, ", ") else "NONE";
    NoneOnlyWhenIdle(input);
  }

  /** No combination of held controls reads "NONE". */
  lemma NoneOnlyWhenIdle(input: InputState)
    ensures HeldControls(input) != [] ==> Text.Join(HeldControls(input), ", ") != "NONE"
  {
  }

  // ---------------------------------------------------------------------------
  // The scene

  /** The pickups placed by `setupCollectibles`. */
  const PickupData: seq<CollectibleData> := [
    CollectibleData(300.0, 400.0, Coin), CollectibleData(500.0, 300.0, Gem),
    CollectibleData(150.0, 250.0, Coin), CollectibleData(700.0, 200.0, Star),
    CollectibleData(600.0, 450.0, Coin), CollectibleData(350.0, 150.0, Gem)]

  /** One collectible's part of the scene's frame, on values: its update,
      then, when still uncollected and touching the player's box, its
      collection. */
  function PickupStep(s: PickupState, playerBounds: Rect, deltaTime: real, sin: real -> real): (r: PickupState)
    ensures s.isCollected ==> r == s
    ensures r.isCollected ==> !r.visible || s.isCollected
    ensures !r.isCollected ==> r == Updated(s, deltaTime, sin)
  {
    var u := Updated(s, deltaTime, sin);
    if !u.isCollected && CheckCollision(playerBounds, Box(u)) then u.(isCollected := true, visible := false) else u
  }

  /** The points a collectible adds in a frame that takes it from `before`
      to `after`: its score when it became collected, nothing otherwise. */
  function Gain(before: PickupState, after: PickupState): (g: int)
    ensures g == 0 || g == CollectibleScore(before.tint)
    ensures g != 0 <==> !before.isCollected && after.isCollected
  {
    if !before.isCollected && after.isCollected then CollectibleScore(before.tint) else 0
  }

  /** The points the first `n` collectibles add. */
  function TotalGain(befores: seq<PickupState>, afters: seq<PickupState>, n: nat): (g: int)
    requires n <= |befores| && n <= |afters|
    ensures g >= 0
  {
    if n == 0 then 0 else TotalGain(befores, afters, n - 1) + Gain(befores[n - 1], afters[n - 1])
  }

  /** How many of the first `n` collectibles became collected. */
  function Count(befores: seq<PickupState>, afters: seq<PickupState>, n: nat): nat
    requires n <= |befores| && n <= |afters|
  {
    if n == 0 then 0 else Count(befores, afters, n - 1) + (if Gain(befores[n - 1], afters[n - 1]) != 0 then 1 else 0)
  }

  /** A collectible is picked up in a frame exactly when it was uncollected
      and its updated box overlaps the player's; once collected it stays
      collected and frozen. */
  lemma PickupRules(s: PickupState, playerBounds: Rect, deltaTime: real, sin: real -> real)
    ensures var t := PickupStep(s, playerBounds, deltaTime, sin);
      && (s.isCollected ==> t == s)
      && (t.isCollected <==> s.isCollected || CheckCollision(playerBounds, Box(Updated(s, deltaTime, sin))))
      && (t.isCollected && !s.isCollected ==> !t.visible)
      && (!t.isCollected ==> t.visible == s.visible)
      && t.x == s.x && t.baseY == s.baseY
  {
  }

  /** The state after one frame per given player box. */
  function Steps(s: PickupState, bounds: seq<Rect>, deltaTime: real, sin: real -> real): PickupState {
    if bounds == [] then s
    else PickupStep(Steps(s, bounds[..|bounds| - 1], deltaTime, sin), bounds[|bounds| - 1], deltaTime, sin)
  }

  /** A collectible picked up in the first of several frames is collected
      after each of them. */
  lemma {:induction false} StaysCollected(s: PickupState, bounds: seq<Rect>, deltaTime: real, sin: real -> real)
    requires |bounds| >= 1 && Gain(s, PickupStep(s, bounds[0], deltaTime, sin)) != 0
    ensures Steps(s, bounds, deltaTime, sin).isCollected
    decreases |bounds|
  {
    if |bounds| == 1 {
      assert bounds[..0] == [];
    } else {
      var init := bounds[..|bounds| - 1];
      assert init[0] == bounds[0];
      StaysCollected(s, init, deltaTime, sin);
    }
  }

  /** A collectible scores at most once: after a frame that picked it up,
      no later frame gains anything from it. */
  lemma ScoresOnce(s: PickupState, bounds: seq<Rect>, deltaTime: real, sin: real -> real)
    requires |bounds| >= 1 && Gain(s, PickupStep(s, bounds[0], deltaTime, sin)) != 0
    ensures forall k | 1 <= k < |bounds| ::
      var t := Steps(s, bounds[..k], deltaTime, sin);
      Gain(t, PickupStep(t, bounds[k], deltaTime, sin)) == 0
  {
    forall k | 1 <= k < |bounds|
      ensures Steps(s, bounds[..k], deltaTime, sin).isCollected
    {
      StaysCollected(s, bounds[..k], deltaTime, sin);
    }
  }

  /** Since every collectible keeps the default tint, the points of a frame
      are 10 per pickup. */
  lemma {:induction false} TenPerPickup(befores: seq<PickupState>, afters: seq<PickupState>, n: nat)
    requires n <= |befores| && n <= |afters|
    requires forall j | 0 <= j < |befores| :: befores[j].tint == DefaultTint
    ensures TotalGain(befores, afters, n) == 10 * Count(befores, afters, n)
  {
    if n > 0 {
      TenPerPickup(befores, afters, n - 1);
    }
  }

  function States(cs: seq<Collectible>): (ss: seq<PickupState>)
    reads set c | c in cs
    ensures |ss| == |cs| && forall j | 0 <= j < |cs| :: ss[j] == cs[j].State()
  {
    if cs == [] then [] else [cs[0].State()] + States(cs[1..])
  }

  /** The points of the first `n` collectibles depend only on their first
      `n` states. */
  lemma {:induction false} TotalGainPrefix(befores: seq<PickupState>, a1: seq<PickupState>, a2: seq<PickupState>, n: nat)
    requires n <= |befores| && n <= |a1| && n <= |a2|
    requires forall j | 0 <= j < n :: a1[j] == a2[j]
    ensures TotalGain(befores, a1, n) == TotalGain(befores, a2, n)
  {
    if n > 0 {
      TotalGainPrefix(befores, a1, a2, n - 1);
    }
  }

  class GameScene {
    const config: GameConfig
    const player: Player
    const camera: CameraModel.Camera
    const collectibles: seq<Collectible>
    var score: int
    /** The number the score text shows: the text reads `ScoreText()`. */
    var shownScore: int

    function ScoreText(): string
      reads this
    {
      "Score: " + Text.IntToString(shownScore)
    }

    ghost predicate Valid()
      reads this, player, player.anim
    {
      player.Valid() && PickupsValid()
    }

    /** Each collectible appears once in the list, the score is never
        negative, and the score text shows the score. */
    ghost predicate PickupsValid()
      reads this
    {
      && (forall i, j | 0 <= i < j < |collectibles| :: collectibles[i] != collectibles[j])
      && score >= 0
      && shownScore == score
    }

    /** The player in the middle of the screen, a camera over a world twice
        as wide as the screen, the six pickups, and the score at 0. The
        scene is not yet current when the player is made, so the player has
        no particle system. */
    constructor (config: GameConfig)
      ensures Valid() && this.config == config && fresh(player) && fresh(player.anim) && fresh(camera)
      ensures player.body == Body(config.width / 2.0, GroundY(config.height), 0.0, 0.0,
                                  false, None, false, false, true, 0.0, 1.0, 1.0)
      ensures !player.hasParticles && player.platformCollisionCheck.None?
      ensures camera.worldWidth == 2.0 * config.width && camera.worldHeight == config.height
      ensures camera.viewWidth == config.width && camera.viewHeight == config.height
      ensures |collectibles| == |PickupData|
      ensures forall i | 0 <= i < |collectibles| ::
        && fresh(collectibles[i]) && !collectibles[i].isCollected
        && collectibles[i].x == PickupData[i].x && collectibles[i].y == PickupData[i].y
        && collectibles[i].kind == PickupData[i].kind
      ensures score == 0 && ScoreText() == "Score: 0"
    {
      var made: seq<Collectible> := [];
      for i := 0 to |PickupData|
        invariant |made| == i
        invariant forall k | 0 <= k < i ::
          && fresh(made[k]) && !made[k].isCollected
          && made[k].x == PickupData[k].x && made[k].y == PickupData[k].y && made[k].kind == PickupData[k].kind
        invariant forall k, l | 0 <= k < l < i :: made[k] != made[l]
      {
        var c := new Collectible(PickupData[i].x, PickupData[i].y, Some(PickupData[i].kind));
        made := made + [c];
      }
      this.config := config;
      player := new Player(config, false);
      camera := new CameraModel.Camera(0.0, 0.0, config.width * 2.0, config.height, config.width, config.height);
      collectibles := made;
      score := 0;
      shownScore := 0;
    }

    /** One pass of the loop body: the `i`-th collectible's update, then,
        when it is uncollected and touches the player's box, its collection,
        its points and the new score text. */
    method CollectAt(i: nat, playerBounds: Rect, deltaTime: real, sin: real -> real)
      requires PickupsValid() && i < |collectibles|
      modifies collectibles[i], this`score, this`shownScore
      ensures PickupsValid()
      ensures collectibles[i].State() == PickupStep(old(collectibles[i].State()), playerBounds, deltaTime, sin)
      ensures score == old(score) + Gain(old(collectibles[i].State()), collectibles[i].State())
    {
      var collectible := collectibles[i];
      collectible.Update(deltaTime, sin);
      if !collectible.isCollected && CheckCollision(playerBounds, collectible.GetBounds()) {
        collectible.Collect();
        score := score + CollectibleScore(collectible.tint);
        shownScore := score;
      }
    }

    /** The loop's state after its first `i` passes: those collectibles have
        taken their step and added their points, the others are as they
        were. */
    ghost predicate Passes(i: nat, before: seq<PickupState>, now: seq<PickupState>, score0: int,
                           playerBounds: Rect, deltaTime: real, sin: real -> real)
      reads this, set c | c in collectibles
    {
      && PickupsValid()
      && i <= |collectibles| == |before| == |now|
      && (forall j | 0 <= j < |collectibles| :: collectibles[j].State() == now[j])
      && (forall j | 0 <= j < i :: now[j] == PickupStep(before[j], playerBounds, deltaTime, sin))
      && (forall j | i <= j < |collectibles| :: now[j] == before[j])
      && score == score0 + TotalGain(before, now, i)
    }

    /** `CollectAt` as one more pass of the loop. */
    method NextPass(i: nat, playerBounds: Rect, deltaTime: real, sin: real -> real,
                    ghost before: seq<PickupState>, ghost now: seq<PickupState>, ghost score0: int)
      returns (ghost next: seq<PickupState>)
      requires i < |collectibles| && Passes(i, before, now, score0, playerBounds, deltaTime, sin)
      modifies collectibles[i], this`score, this`shownScore
      ensures Passes(i + 1, before, next, score0, playerBounds, deltaTime, sin)
    {
      CollectAt(i, playerBounds, deltaTime, sin);
      next := now[i := collectibles[i].State()];
      TotalGainPrefix(before, now, next, i);
    }

    /** The collectible loop of `update`: every collectible takes its step
        against the player's box, and the score grows by the points of those
        picked up now; the score text keeps showing the score. */
    method UpdateCollectibles(deltaTime: real, sin: real -> real)
      requires PickupsValid()
      modifies set c | c in collectibles, this`score, this`shownScore
      ensures PickupsValid()
      ensures forall j | 0 <= j < |collectibles| ::
        collectibles[j].State() == PickupStep(old(collectibles[j].State()), player.GetBounds(), deltaTime, sin)
      ensures score == old(score) + TotalGain(old(States(collectibles)), States(collectibles), |collectibles|)
    {
      var playerBounds := player.GetBounds();
      ghost var before := States(collectibles);
      ghost var now := before;
      for i := 0 to |collectibles|
        invariant Passes(i, before, now, old(score), playerBounds, deltaTime, sin)
      {
        now := NextPass(i, playerBounds, deltaTime, sin, before, now, old(score));
      }
      TotalGainPrefix(before, now, States(collectibles), |collectibles|);
    }

    /** The player's frame, then the camera aimed 100 above the player and
        updated. */
    method FollowPlayer(input: InputState, deltaTime: real)
      requires player.Valid()
      modifies player, player.anim, camera
      ensures player.Valid()
      ensures player.body == Frame(old(player.body), input, deltaTime, old(player.CurrentWorld()), player.hasParticles).body
      ensures player.CurrentWorld() == old(player.CurrentWorld())
      ensures camera.target == Vector2(player.body.x, player.body.y - 100.0)
      ensures camera.position == Vector2(
        CameraModel.ClampAxis(CameraModel.Smooth(old(camera.position).x, camera.target.x), camera.worldWidth, camera.viewWidth),
        CameraModel.ClampAxis(CameraModel.Smooth(old(camera.position).y, camera.target.y), camera.worldHeight, camera.viewHeight))
      ensures camera.containerX == CameraModel.Offset(camera.position.x, camera.viewWidth)
      ensures camera.containerY == CameraModel.Offset(camera.position.y, camera.viewHeight)
    {
      player.Update(input, deltaTime);
      camera.SetTarget(player.body.x, player.body.y - 100.0);
      camera.Update(deltaTime);
    }

    /** `update` without the star twinkle, the parallax and the debug text:
        the player's frame, the camera aimed 100 above the player and
        updated, then the collectibles against the player's box. */
    method Update(input: InputState, deltaTime: real, sin: real -> real)
      requires Valid()
      modifies player, player.anim, camera, set c | c in collectibles, this`score, this`shownScore
      ensures Valid()
      ensures player.body == Frame(old(player.body), input, deltaTime, old(player.CurrentWorld()), player.hasParticles).body
      ensures player.CurrentWorld() == old(player.CurrentWorld())
      ensures camera.target == Vector2(player.body.x, player.body.y - 100.0)
      ensures camera.position == Vector2(
        CameraModel.ClampAxis(CameraModel.Smooth(old(camera.position).x, camera.target.x), camera.worldWidth, camera.viewWidth),
        CameraModel.ClampAxis(CameraModel.Smooth(old(camera.position).y, camera.target.y), camera.worldHeight, camera.viewHeight))
      ensures camera.containerX == CameraModel.Offset(camera.position.x, camera.viewWidth)
      ensures camera.containerY == CameraModel.Offset(camera.position.y, camera.viewHeight)
      ensures forall j | 0 <= j < |collectibles| ::
        collectibles[j].State() == PickupStep(old(collectibles[j].State()), player.GetBounds(), deltaTime, sin)
      ensures score == old(score) + TotalGain(old(States(collectibles)), States(collectibles), |collectibles|)
    {
      ghost var before := States(collectibles);
      FollowPlayer(input, deltaTime);
      assert forall j | 0 <= j < |collectibles| :: collectibles[j].State() == old(collectibles[j].State());
      assert States(collectibles) == before;
      ghost var body, world := player.body, player.CurrentWorld();
      UpdateCollectibles(deltaTime, sin);
      assert player.body == body && player.CurrentWorld() == world;
    }
  }
}
