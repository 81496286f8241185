/** The dust particles of src/effects/ParticleSystem.ts: `emit` appends a
    burst of particles made from the defaults overridden by a partial
    configuration, and each `update` ages every particle by one tick and
    removes, walking the list backwards, those whose life ran out.

    The random angle and speed of a new particle are the parameter
    `velocity`: `velocity(i)` is the velocity drawn for the `i`-th particle
    of a burst. A particle is a value in the list; its sprite is the
    position, alpha and scale it carries. */
module Particles {
  import opened Wrappers

  /** JavaScript's `Math.PI` to the digits of its double value. */
  const Pi: real := 3.141592653589793

  /** A configuration with every field given. */
  datatype Settings = Settings(count: int, color: int, speed: real, life: real,
                               spread: real, direction: real, size: real)

  /** The partial configuration `emit` accepts: a missing field takes the
      default. */
  datatype ParticleConfig = ParticleConfig(count: Option<int>, color: Option<int>, speed: Option<real>,
                                           life: Option<real>, spread: Option<real>,
                                           direction: Option<real>, size: Option<real>)

  const NoConfig := ParticleConfig(None, None, None, None, None, None, None)

  const Defaults := Settings(5, 0xFFFFFF, 2.0, 60.0, Pi / 4.0, -Pi / 2.0, 2.0)

  /** `{ ...defaults, ...config }`: every supplied field overrides its
      default, every missing one keeps it. */
  function Merge(config: ParticleConfig): (s: Settings)
    ensures s.count == config.count.GetOr(Defaults.count)
    ensures s.color == config.color.GetOr(Defaults.color)
    ensures s.speed == config.speed.GetOr(Defaults.speed)
    ensures s.life == config.life.GetOr(Defaults.life)
    ensures s.spread == config.spread.GetOr(Defaults.spread)
    ensures s.direction == config.direction.GetOr(Defaults.direction)
    ensures s.size == config.size.GetOr(Defaults.size)
  {
    Settings(
      if config.count.Some? then config.count.value else 5,
      if config.color.Some? then config.color.value else 0xFFFFFF,
      if config.speed.Some? then config.speed.value else 2.0,
      if config.life.Some? then config.life.value else 60.0,
      if config.spread.Some? then config.spread.value else Pi / 4.0,
      if config.direction.Some? then config.direction.value else -Pi / 2.0,
      if config.size.Some? then config.size.value else 2.0)
  }

  /** An empty configuration is the defaults. */
  lemma MergeEmpty()
    ensures Merge(NoConfig) == Defaults
  {
  }

  const JumpDustConfig := ParticleConfig(Some(8), Some(0xD4AF37), Some(3.0), Some(30.0),
                                         Some(Pi / 3.0), Some(Pi / 2.0), Some(3.0))
  const LandDustConfig := ParticleConfig(Some(12), Some(0x8B7355), Some(4.0), Some(40.0),
                                         Some(Pi / 2.0), Some(Pi / 2.0), Some(2.0))

  /** A particle: sprite position and velocity, remaining and initial life,
      and the sprite's colour, radius, alpha and scale. */
  datatype Particle = Particle(x: real, y: real, vx: real, vy: real, life: real, maxLife: real,
                               color: int, size: real, alpha: real, scale: real)

  /** A new particle at (x, y) with the burst's life, colour and size. */
  function NewParticle(x: real, y: real, s: Settings, v: (real, real)): (p: Particle)
    ensures p.x == x && p.y == y && p.vx == v.0 && p.vy == v.1
    ensures p.life == s.life && p.maxLife == s.life && p.color == s.color && p.size == s.size
    ensures p.alpha == 1.0 && p.scale == 1.0
  {
    Particle(x, y, v.0, v.1, s.life, s.life, s.color, s.size, 1.0, 1.0)
  }

  /** The number of loop passes of `for (i = 0; i < count; i++)`. */
  function Passes(count: int): (n: nat)
    ensures count >= 0 ==> n == count
    ensures count < 0 ==> n == 0
  {
    if count < 0 then 0 else count
  }

  /** `Particle.update`: the sprite moves by the velocity, gravity adds 0.1
      to vy, life drops by one and the alpha is the share of life left,
      with the scale between a half and one. A particle with no initial
      life has no share; it has then run out and is removed in the same
      update, so the stand-in alpha 0 is never shown. */
  function Step(p: Particle): (q: Particle)
    ensures q.x == p.x + p.vx && q.y == p.y + p.vy
    ensures q.vx == p.vx && q.vy == p.vy + 0.1
    ensures q.life == p.life - 1.0 && q.maxLife == p.maxLife
    ensures q.color == p.color && q.size == p.size
    ensures p.maxLife != 0.0 ==> q.alpha * p.maxLife == q.life
    ensures q.scale == 0.5 + q.alpha * 0.5
  {
    var life := p.life - 1.0;
    var alpha := if p.maxLife == 0.0 then 0.0 else life / p.maxLife;
    p.(x := p.x + p.vx, y := p.y + p.vy, vy := p.vy + 0.1, life := life, alpha := alpha, scale := 0.5 + alpha * 0.5)
  }

  /** `isDead`. */
  predicate Dead(p: Particle) {
    p.life <= 0.0
  }

  /** A particle without initial life dies in its first update. */
  lemma NoLifeDiesAtOnce(p: Particle)
    requires p.maxLife == 0.0 && p.life == p.maxLife
    ensures Dead(Step(p))
  {
  }

  /** While life remains, the alpha stays in (0, 1] and the scale in (0.5, 1]. */
  lemma FadeBounds(p: Particle)
    requires 0.0 < p.life <= p.maxLife
    ensures !Dead(Step(p)) ==> 0.0 < Step(p).alpha <= 1.0 && 0.5 < Step(p).scale <= 1.0
  {
    var q := Step(p);
    if !Dead(q) {
      assert q.alpha == q.life / p.maxLife;
    }
  }

  /** `k` updates of one particle. */
  function StepTimes(p: Particle, k: nat): (q: Particle)
    ensures q.life == p.life - k as real && q.maxLife == p.maxLife
    ensures q.vx == p.vx && q.vy == p.vy + 0.1 * k as real
    decreases k
  {
    if k == 0 then p else Step(StepTimes(p, k - 1))
  }

  /** A particle made with whole life `L` is alive after each of its first
      L - 1 updates and dead after the L-th: the L-th update removes it. */
  lemma {:induction false} LifetimeIsLife(p: Particle, lifetime: nat, k: nat)
    requires p.life == lifetime as real && lifetime >= 1
    ensures k < lifetime ==> !Dead(StepTimes(p, k))
    ensures k == lifetime ==> Dead(StepTimes(p, k)) && !Dead(StepTimes(p, k - 1))
  {
  }

  /** Every particle updated once, in order. */
  function Aged(s: seq<Particle>): (r: seq<Particle>)
    ensures |r| == |s|
    decreases |s|
  {
    if s == [] then [] else [Step(s[0])] + Aged(s[1..])
  }

  /** The particles that are not dead, in their order. */
  function Survivors(s: seq<Particle>): (r: seq<Particle>)
    ensures |r| <= |s|
    decreases |s|
  {
    if s == [] then []
    else if Dead(s[0]) then Survivors(s[1..])
    else [s[0]] + Survivors(s[1..])
  }

  lemma {:induction false} AgedAt(s: seq<Particle>, i: nat)
    requires i < |s|
    ensures Aged(s)[i] == Step(s[i])
    decreases |s|
  {
    if i > 0 {
      AgedAt(s[1..], i - 1);
    }
  }

  /** No survivor is dead, and every particle that is not dead survives. */
  lemma {:induction false} SurvivorsAreTheLiving(s: seq<Particle>)
    ensures forall p | p in Survivors(s) :: !Dead(p)
    ensures forall p | p in s && !Dead(p) :: p in Survivors(s)
    decreases |s|
  {
    if s != [] {
      SurvivorsAreTheLiving(s[1..]);
      assert forall p | p in s :: p == s[0] || p in s[1..];
    }
  }

  /** Removal keeps the order: the survivors of a concatenation are the
      survivors of each part, one after the other. */
  lemma {:induction false} SurvivorsOfConcat(a: seq<Particle>, b: seq<Particle>)
    ensures Survivors(a + b) == Survivors(a) + Survivors(b)
    decreases |a|
  {
    if a != [] {
      assert (a + b)[0] == a[0] && (a + b)[1..] == a[1..] + b;
      SurvivorsOfConcat(a[1..], b);
    } else {
      assert a + b == b;
    }
  }

  /** Exactly the dead particles are removed: the survivors are the list
      itself when none is dead, and one fewer for every dead one. */
  lemma {:induction false} SurvivorsCount(s: seq<Particle>)
    ensures |Survivors(s)| == |s| - |DeadOnes(s)|
    ensures (forall i | 0 <= i < |s| :: !Dead(s[i])) ==> Survivors(s) == s
    decreases |s|
  {
    if s != [] {
      SurvivorsCount(s[1..]);
      if forall i | 0 <= i < |s| :: !Dead(s[i]) {
        assert forall i | 0 <= i < |s[1..]| :: !Dead(s[1..][i]) by {
          forall i | 0 <= i < |s[1..]| ensures !Dead(s[1..][i]) {
            assert s[1..][i] == s[i + 1];
          }
        }
      }
    }
  }

  /** The dead particles, in their order. */
  function DeadOnes(s: seq<Particle>): seq<Particle>
    decreases |s|
  {
    if s == [] then []
    else if Dead(s[0]) then [s[0]] + DeadOnes(s[1..])
    else DeadOnes(s[1..])
  }

  /** One `update` of the whole list, as a value. */
  function UpdatedList(s: seq<Particle>): (r: seq<Particle>)
    ensures |r| <= |s|
  {
    Survivors(Aged(s))
  }

  /** After an update no dead particle remains, and every remaining particle
      is an old one with one life less and 0.1 more vertical speed. */
  lemma UpdateRemovesTheDead(s: seq<Particle>)
    ensures forall p | p in UpdatedList(s) :: !Dead(p)
    ensures forall p | p in UpdatedList(s) :: exists i | 0 <= i < |s| :: p == Step(s[i])
    ensures forall i | 0 <= i < |s| && !Dead(Step(s[i])) :: Step(s[i]) in UpdatedList(s)
  {
    SurvivorsAreTheLiving(Aged(s));
    SurvivorsAreFromTheList(Aged(s));
    forall i | 0 <= i < |s| {
      AgedAt(s, i);
    }
    forall p | p in UpdatedList(s) ensures exists i | 0 <= i < |s| :: p == Step(s[i]) {
      var i :| 0 <= i < |Aged(s)| && Aged(s)[i] == p;
      AgedAt(s, i);
    }
  }

  lemma {:induction false} SurvivorsAreFromTheList(s: seq<Particle>)
    ensures forall p | p in Survivors(s) :: p in s
    decreases |s|
  {
    if s != [] {
      SurvivorsAreFromTheList(s[1..]);
    }
  }

  /** The list one update produces from a suffix: the first particle's fate,
      then the rest's. */
  lemma UpdatedListCons(s: seq<Particle>, i: nat)
    requires i < |s|
    ensures UpdatedList(s[i..]) == (if Dead(Step(s[i])) then [] else [Step(s[i])]) + UpdatedList(s[i + 1..])
  {
    assert s[i..][1..] == s[i + 1..];
  }

  class ParticleSystem {
    /** The live particles, which are also the container's children. */
    var particles: seq<Particle>

    constructor ()
      ensures particles == []
    {
      particles := [];
    }

    /** `emit`: the configuration merged over the defaults, then `count`
        new particles at (x, y) appended in order. */
    method Emit(x: real, y: real, config: ParticleConfig, velocity: nat -> (real, real))
      modifies this`particles
      ensures |particles| == |old(particles)| + Passes(Merge(config).count)
      ensures particles[..|old(particles)|] == old(particles)
      ensures forall i | 0 <= i < Passes(Merge(config).count) ::
        particles[|old(particles)| + i] == NewParticle(x, y, Merge(config), velocity(i))
    {
      var cfg := Merge(config);
      var i := 0;
      while i < cfg.count
        invariant 0 <= i && (cfg.count >= 0 ==> i <= cfg.count) && (cfg.count < 0 ==> i == 0)
        invariant |particles| == |old(particles)| + i
        invariant particles[..|old(particles)|] == old(particles)
        invariant forall k | 0 <= k < i :: particles[|old(particles)| + k] == NewParticle(x, y, cfg, velocity(k))
        decreases cfg.count - i
      {
        particles := particles + [NewParticle(x, y, cfg, velocity(i))];
        i := i + 1;
      }
    }

    /** `update`: from the last particle to the first, each is updated and,
        when dead, spliced out. */
    method Update()
      modifies this`particles
      ensures particles == UpdatedList(old(particles))
    {
      ghost var s := particles;
      var i := |particles|;
      while i > 0
        invariant 0 <= i <= |s|
        invariant particles == s[..i] + UpdatedList(s[i..])
        decreases i
      {
        i := i - 1;
        UpdatedListCons(s, i);
        assert particles[i] == s[i];
        var particle := Step(particles[i]);
        if Dead(particle) {
          particles := particles[..i] + particles[i + 1..];
          assert s[..i + 1][..i] == s[..i];
        } else {
          particles := particles[i := particle];
        }
      }
      assert s[0..] == s;
    }

    /** `emitJumpDust`: eight gold particles living 30 ticks. */
    method EmitJumpDust(x: real, y: real, velocity: nat -> (real, real))
      modifies this`particles
      ensures |particles| == |old(particles)| + 8
      ensures particles[..|old(particles)|] == old(particles)
      ensures forall i | |old(particles)| <= i < |particles| ::
        particles[i] == NewParticle(x, y, Merge(JumpDustConfig), velocity(i - |old(particles)|))
      ensures forall i | |old(particles)| <= i < |particles| ::
        && particles[i].x == x && particles[i].y == y
        && particles[i].life == 30.0 && particles[i].maxLife == 30.0
        && particles[i].color == 0xD4AF37 && particles[i].size == 3.0
        && (particles[i].vx, particles[i].vy) == velocity(i - |old(particles)|)
        && particles[i].alpha == 1.0 && particles[i].scale == 1.0
    {
      ghost var n := |particles|;
      Emit(x, y, JumpDustConfig, velocity);
      forall i | n <= i < |particles| ensures particles[i] == NewParticle(x, y, Merge(JumpDustConfig), velocity(i - n)) {
        assert particles[n + (i - n)] == NewParticle(x, y, Merge(JumpDustConfig), velocity(i - n));
      }
    }

    /** `emitLandDust`: twelve brown particles living 40 ticks. */
    method EmitLandDust(x: real, y: real, velocity: nat -> (real, real))
      modifies this`particles
      ensures |particles| == |old(particles)| + 12
      ensures particles[..|old(particles)|] == old(particles)
      ensures forall i | |old(particles)| <= i < |particles| ::
        particles[i] == NewParticle(x, y, Merge(LandDustConfig), velocity(i - |old(particles)|))
      ensures forall i | |old(particles)| <= i < |particles| ::
        && particles[i].x == x && particles[i].y == y
        && particles[i].life == 40.0 && particles[i].maxLife == 40.0
        && particles[i].color == 0x8B7355 && particles[i].size == 2.0
        && (particles[i].vx, particles[i].vy) == velocity(i - |old(particles)|)
        && particles[i].alpha == 1.0 && particles[i].scale == 1.0
    {
      ghost var n := |particles|;
      Emit(x, y, LandDustConfig, velocity);
      forall i | n <= i < |particles| ensures particles[i] == NewParticle(x, y, Merge(LandDustConfig), velocity(i - n)) {
        assert particles[n + (i - n)] == NewParticle(x, y, Merge(LandDustConfig), velocity(i - n));
      }
    }
  }
}
