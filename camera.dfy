/** The follow camera of src/core/Camera.ts: each update moves the position a
    tenth of the way to the target, keeps it inside the world, and offsets
    the world container so that the position is at the centre of the view. */
module CameraModel {
  import opened CoreTypes

  const Smoothing: real := 0.1

  function Max(a: real, b: real): real { if a >= b then a else b }
  function Min(a: real, b: real): real { if a <= b then a else b }

  /** One smoothing step of one coordinate. */
  function Smooth(position: real, target: real): (r: real)
    ensures target - r == 0.9 * (target - position)
    ensures position <= target ==> position <= r <= target
    ensures target <= position ==> target <= r <= position
  {
    position + (target - position) * Smoothing
  }

  /** Clamps one coordinate so that the view stays inside the world: never
      below half the view, and not beyond the far edge less half the view
      when the world is at least as large as the view. */
  function ClampAxis(v: real, world: real, view: real): (r: real)
    ensures r >= view / 2.0
    ensures world >= view ==> r <= world - view / 2.0
    ensures view / 2.0 <= v <= world - view / 2.0 ==> r == v
    ensures world < view ==> r == view / 2.0
  {
    Max(view / 2.0, Min(world - view / 2.0, v))
  }

  /** The container offset that puts `position` at the centre of the view. */
  function Offset(position: real, view: real): (r: real)
    ensures position + r == view / 2.0
  {
    -position + view / 2.0
  }

  /** Far from the edges the camera closes a tenth of the gap per update. */
  lemma GapShrinks(position: real, target: real, world: real, view: real, k: nat)
    requires view / 2.0 <= position <= world - view / 2.0
    requires view / 2.0 <= target <= world - view / 2.0
    ensures var p := Follow(position, target, world, view, k);
      view / 2.0 <= p <= world - view / 2.0
      && target - p == Power(0.9, k) * (target - position)
  {
    FollowInside(position, target, world, view, k);
    ShrunkIsPower(target - position, k);
  }

  /** `g` shrunk k times by the factor 0.9. */
  function Shrunk(g: real, k: nat): real
    decreases k
  {
    if k == 0 then g else 0.9 * Shrunk(g, k - 1)
  }

  lemma {:induction false} FollowInside(position: real, target: real, world: real, view: real, k: nat)
    requires view / 2.0 <= position <= world - view / 2.0
    requires view / 2.0 <= target <= world - view / 2.0
    ensures var p := Follow(position, target, world, view, k);
      view / 2.0 <= p <= world - view / 2.0 && target - p == Shrunk(target - position, k)
    decreases k
  {
    if k > 0 {
      FollowInside(position, target, world, view, k - 1);
      var p := Follow(position, target, world, view, k - 1);
      assert ClampAxis(Smooth(p, target), world, view) == Smooth(p, target);
    }
  }

  lemma {:induction false} ShrunkIsPower(g: real, k: nat)
    ensures Shrunk(g, k) == Power(0.9, k) * g
    decreases k
  {
    if k > 0 {
      ShrunkIsPower(g, k - 1);
      assert 0.9 * (Power(0.9, k - 1) * g) == (0.9 * Power(0.9, k - 1)) * g;
    }
  }

  function Power(r: real, k: nat): real
    decreases k
  {
    if k == 0 then 1.0 else r * Power(r, k - 1)
  }

  /** `k` updates of one coordinate towards a fixed target. */
  function Follow(position: real, target: real, world: real, view: real, k: nat): (r: real)
    ensures k > 0 ==> r >= view / 2.0 && (world >= view ==> r <= world - view / 2.0)
    decreases k
  {
    if k == 0 then position else ClampAxis(Smooth(Follow(position, target, world, view, k - 1), target), world, view)
  }

  class Camera {
    var position: Vector2
    var target: Vector2
    const worldWidth: real
    const worldHeight: real
    const viewWidth: real
    const viewHeight: real
    /** The world container's position. */
    var containerX: real
    var containerY: real

    constructor (containerX: real, containerY: real, worldWidth: real, worldHeight: real, viewWidth: real, viewHeight: real)
      ensures position == Vector2(0.0, 0.0) && target == Vector2(0.0, 0.0)
      ensures this.worldWidth == worldWidth && this.worldHeight == worldHeight
      ensures this.viewWidth == viewWidth && this.viewHeight == viewHeight
      ensures this.containerX == containerX && this.containerY == containerY
    {
      position := Vector2(0.0, 0.0);
      target := Vector2(0.0, 0.0);
      this.worldWidth := worldWidth;
      this.worldHeight := worldHeight;
      this.viewWidth := viewWidth;
      this.viewHeight := viewHeight;
      this.containerX := containerX;
      this.containerY := containerY;
    }

    method SetTarget(x: real, y: real)
      modifies this`target
      ensures target == Vector2(x, y)
    {
      target := target.(x := x);
      target := target.(y := y);
    }

    /** `update`: smoothing, then the clamp, then the container offset. */
    method Update(deltaTime: real)
      modifies this`position, this`containerX, this`containerY
      ensures position.x == ClampAxis(Smooth(old(position).x, target.x), worldWidth, viewWidth)
      ensures position.y == ClampAxis(Smooth(old(position).y, target.y), worldHeight, viewHeight)
      ensures position.x >= viewWidth / 2.0 && position.y >= viewHeight / 2.0
      ensures worldWidth >= viewWidth ==> position.x <= worldWidth - viewWidth / 2.0
      ensures worldHeight >= viewHeight ==> position.y <= worldHeight - viewHeight / 2.0
      ensures containerX == Offset(position.x, viewWidth) && containerY == Offset(position.y, viewHeight)
      ensures WorldToScreen(position) == Vector2(viewWidth / 2.0, viewHeight / 2.0)
    {
      position := position.(x := position.x + (target.x - position.x) * Smoothing);
      position := position.(y := position.y + (target.y - position.y) * Smoothing);
      position := position.(x := Max(viewWidth / 2.0, Min(worldWidth - viewWidth / 2.0, position.x)));
      position := position.(y := Max(viewHeight / 2.0, Min(worldHeight - viewHeight / 2.0, position.y)));
      containerX := -position.x + viewWidth / 2.0;
      containerY := -position.y + viewHeight / 2.0;
      CentreOnScreen();
    }

    function WorldToScreen(p: Vector2): (s: Vector2)
      reads this
      ensures s.x == p.x + Offset(position.x, viewWidth) && s.y == p.y + Offset(position.y, viewHeight)
    {
      Vector2(p.x - position.x + viewWidth / 2.0, p.y - position.y + viewHeight / 2.0)
    }

    function ScreenToWorld(s: Vector2): (p: Vector2)
      reads this
      ensures p.x == s.x - Offset(position.x, viewWidth) && p.y == s.y - Offset(position.y, viewHeight)
    {
      Vector2(s.x + position.x - viewWidth / 2.0, s.y + position.y - viewHeight / 2.0)
    }

    /** The two maps are inverse to each other. */
    lemma ScreenWorldInverse(p: Vector2)
      ensures ScreenToWorld(WorldToScreen(p)) == p
      ensures WorldToScreen(ScreenToWorld(p)) == p
    {
    }

    /** The camera position is shown at the centre of the view. */
    lemma CentreOnScreen()
      ensures WorldToScreen(position) == Vector2(viewWidth / 2.0, viewHeight / 2.0)
    {
    }
  }
}
