/** A pickup of the game scene (src/entities/Collectible.ts): it bobs, spins
    and pulses until collected, then is hidden and frozen. The sine used for
    bobbing and pulsing is the parameter `sin`. */
module Collectibles {
  import opened CoreTypes
  import opened Wrappers
  import opened LevelTypes

  /** PIXI's default tint; the collectible never assigns another. */
  const DefaultTint: int := 0xFFFFFF

  const HalfSide: real := 12.0

  /** The values of one collectible: its sprite, its base height, whether it
      was collected, and its timer. */
  datatype PickupState = PickupState(x: real, y: real, baseY: real, rotation: real, scale: real,
                                     visible: bool, tint: int, isCollected: bool, animationTimer: real)

  /** The collectible's `update` on values: nothing once collected. */
  function Updated(s: PickupState, deltaTime: real, sin: real -> real): (u: PickupState)
    ensures s.isCollected ==> u == s
    ensures u.x == s.x && u.baseY == s.baseY && u.visible == s.visible && u.tint == s.tint && u.isCollected == s.isCollected
    ensures !s.isCollected ==> u.animationTimer == s.animationTimer + deltaTime
    ensures !s.isCollected ==> u.y - u.baseY == sin(u.animationTimer * 0.1) * 3.0
  {
    if s.isCollected then s
    else
      var t := s.animationTimer + deltaTime;
      s.(animationTimer := t, y := s.baseY + sin(t * 0.1) * 3.0,
         rotation := s.rotation + 0.02 * deltaTime, scale := 1.0 + sin(t * 0.15) * 0.1)
  }

  /** The 24×24 box centred on the sprite. */
  function Box(s: PickupState): Rect {
    Rect(s.x - HalfSide, s.y - HalfSide, 2.0 * HalfSide, 2.0 * HalfSide)
  }

  class Collectible {
    const kind: CollectibleKind
    const baseY: real
    /** The sprite: position, rotation, uniform scale, visibility and tint. */
    var x: real
    var y: real
    var rotation: real
    var scale: real
    var visible: bool
    const tint: int := DefaultTint
    var isCollected: bool
    var animationTimer: real

    function State(): PickupState
      reads this
    {
      PickupState(x, y, baseY, rotation, scale, visible, tint, isCollected, animationTimer)
    }

    /** Placed at (x, y), which is also the centre of the bobbing; the kind is
        a coin unless given. */
    constructor (x: real, y: real, kind: Option<CollectibleKind>)
      ensures this.x == x && this.y == y && baseY == y
      ensures this.kind == kind.GetOr(Coin)
      ensures !isCollected && visible && animationTimer == 0.0
      ensures rotation == 0.0 && scale == 1.0 && tint == DefaultTint
    {
      this.kind := kind.GetOr(Coin);
      baseY := y;
      this.x := x;
      this.y := y;
      rotation := 0.0;
      scale := 1.0;
      visible := true;
      isCollected := false;
      animationTimer := 0.0;
    }

    /** `update`: nothing once collected; otherwise the timer advances, the
        sprite bobs 3 around its base height, turns by 0.02 per unit of time
        and pulses by a tenth. */
    method Update(deltaTime: real, sin: real -> real)
      modifies this`animationTimer, this`y, this`rotation, this`scale
      ensures old(isCollected) ==>
        animationTimer == old(animationTimer) && y == old(y) && rotation == old(rotation) && scale == old(scale)
      ensures !old(isCollected) ==>
        && animationTimer == old(animationTimer) + deltaTime
        && y == baseY + sin(animationTimer * 0.1) * 3.0
        && rotation == old(rotation) + 0.02 * deltaTime
        && scale == 1.0 + sin(animationTimer * 0.15) * 0.1
      ensures x == old(x)
      ensures State() == Updated(old(State()), deltaTime, sin)
    {
      if isCollected {
        return;
      }
      animationTimer := animationTimer + deltaTime;
      y := baseY + sin(animationTimer * 0.1) * 3.0;
      rotation := rotation + 0.02 * deltaTime;
      scale := 1.0 + sin(animationTimer * 0.15) * 0.1;
    }

    /** `collect`: collected and hidden; a second call changes nothing more. */
    method Collect()
      modifies this`isCollected, this`visible
      ensures isCollected && !visible
      ensures old(isCollected) && !old(visible) ==> isCollected == old(isCollected) && visible == old(visible)
      ensures State() == old(State()).(isCollected := true, visible := false)
    {
      isCollected := true;
      visible := false;
    }

    /** The 24×24 box centred on the sprite. */
    function GetBounds(): (r: Rect)
      reads this
      ensures r.width == 2.0 * HalfSide && r.height == 2.0 * HalfSide
      ensures r.x + r.width / 2.0 == x && r.y + r.height / 2.0 == y
      ensures r == Box(State())
    {
      Rect(x - HalfSide, y - HalfSide, 2.0 * HalfSide, 2.0 * HalfSide)
    }
  }
}
