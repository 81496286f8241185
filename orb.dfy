/** The level-exit orb (src/entities/Orb.ts): it pulses and floats until
    collected, and the player can use it from within a distance. The sine of
    its animation is the parameter `sin`; the square root of the distance
    test is replaced by the equivalent comparison of squares. */
module Orbs {
  import opened CoreTypes
  import opened Wrappers

  const DefaultTargetLevel: real := 2.0
  const DefaultThreshold: real := 30.0

  /** For non-negative numbers, comparing squares compares the numbers. */
  lemma SquareMonotone(s: real, t: real)
    requires s >= 0.0 && t >= 0.0
    ensures s <= t <==> s * s <= t * t
  {
    if s <= t {
      assert s * s <= s * t <= t * t;
    } else {
      calc {
        t * t;
      <= t * s;
      < { assert (s - t) * s > 0.0; }
        s * s;
      }
    }
  }

  /** The distance test without a square root: within `threshold` of the
      centre. A negative threshold admits nothing. */
  predicate WithinDistance(dx: real, dy: real, threshold: real) {
    threshold >= 0.0 && dx * dx + dy * dy <= threshold * threshold
  }

  /** It agrees with comparing the Euclidean distance `d` (the non-negative
      root of dx² + dy²) against the threshold. */
  lemma WithinDistanceIsDistanceTest(dx: real, dy: real, threshold: real, d: real)
    requires d >= 0.0 && d * d == dx * dx + dy * dy
    ensures WithinDistance(dx, dy, threshold) <==> d <= threshold
  {
    if threshold >= 0.0 {
      SquareMonotone(d, threshold);
    }
  }

  class Orb {
    const targetLevel: real
    var x: real
    var y: real
    var isCollected: bool
    var animationTimer: real
    var pulseScale: real
    var glowIntensity: real
    /** The sprite's uniform scale and alpha. */
    var scale: real
    var alpha: real

    /** An orb at (x, y) leading to level 2 unless another level is given. */
    constructor (x: real, y: real, targetLevel: Option<real>)
      ensures this.x == x && this.y == y && this.targetLevel == targetLevel.GetOr(DefaultTargetLevel)
      ensures !isCollected && animationTimer == 0.0 && pulseScale == 1.0 && glowIntensity == 0.5
      ensures scale == 1.0 && alpha == 1.0
    {
      this.targetLevel := targetLevel.GetOr(DefaultTargetLevel);
      this.x := x;
      this.y := y;
      isCollected := false;
      animationTimer := 0.0;
      pulseScale := 1.0;
      glowIntensity := 0.5;
      scale := 1.0;
      alpha := 1.0;
    }

    /** `update`: nothing once collected; otherwise the pulse, the glow and a
        small float of the height. */
    method Update(deltaTime: real, sin: real -> real)
      modifies this`animationTimer, this`pulseScale, this`glowIntensity, this`scale, this`alpha, this`y
      ensures old(isCollected) ==>
        && animationTimer == old(animationTimer) && pulseScale == old(pulseScale)
        && glowIntensity == old(glowIntensity) && scale == old(scale) && alpha == old(alpha) && y == old(y)
      ensures !old(isCollected) ==>
        && animationTimer == old(animationTimer) + deltaTime * 0.003
        && pulseScale == 1.0 + sin(animationTimer) * 0.15 && scale == pulseScale
        && glowIntensity == 0.5 + sin(animationTimer * 1.5) * 0.3
        && alpha == 0.8 + glowIntensity * 0.2
        && y == old(y) + sin(animationTimer * 0.8) * 3.0 * deltaTime * 0.016
    {
      if isCollected {
        return;
      }
      animationTimer := animationTimer + deltaTime * 0.003;
      pulseScale := 1.0 + sin(animationTimer) * 0.15;
      glowIntensity := 0.5 + sin(animationTimer * 1.5) * 0.3;
      scale := pulseScale;
      alpha := 0.8 + glowIntensity * 0.2;
      var floatOffset := sin(animationTimer * 0.8) * 3.0;
      y := y + floatOffset * deltaTime * 0.016;
    }

    /** `collect`: a collected orb ignores the call; otherwise it becomes
        collected. */
    method Collect()
      modifies this`isCollected
      ensures isCollected
    {
      if isCollected {
        return;
      }
      isCollected := true;
    }

    /** `canInteract`: never once collected; otherwise whether the player is
        within `threshold` of the orb's centre. */
    function CanInteract(player: Vector2, threshold: real): (r: bool)
      reads this
      ensures r ==> !isCollected
      ensures r <==> !isCollected && WithinDistance(x - player.x, y - player.y, threshold)
    {
      if isCollected then false
      else
        var dx := x - player.x;
        var dy := y - player.y;
        threshold >= 0.0 && dx * dx + dy * dy <= threshold * threshold
    }

    /** With the default threshold, the player interacts exactly when its
        distance `d` to the uncollected orb is at most 30. */
    lemma DefaultReach(player: Vector2, d: real)
      requires d >= 0.0
      requires d * d == (x - player.x) * (x - player.x) + (y - player.y) * (y - player.y)
      ensures CanInteract(player, DefaultThreshold) <==> !isCollected && d <= 30.0
    {
      WithinDistanceIsDistanceTest(x - player.x, y - player.y, DefaultThreshold, d);
    }
  }
}
