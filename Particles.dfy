/** The particle set of the voice-session background (`NeuralBackground` in
    App.tsx). The effect that sets the canvas up depends on the session's
    activity and on the microphone volume, which changes on every audio
    callback; so on activation, on every volume change and on every window
    resize the canvas takes the viewport's size and `initParticles` rebuilds
    the particle list from scratch: it computes
    `count = Math.min(100, width * height / 15000)`, which may be fractional,
    and pushes a particle while `i < count`. */
module Particles {

  /** Position, velocity and radius of one particle. */
  datatype Particle = Particle(x: real, y: real, vx: real, vy: real, size: real)

  const MaxParticles: nat := 100
  const AreaPerParticle: nat := 15000

  /** The loop bound `Math.min(100, width * height / 15000)`, as an exact
      quotient. */
  function CountBound(width: nat, height: nat): (bound: real)
    ensures 0.0 <= bound <= MaxParticles as real
  {
    var q := ((width * height) as real) / (AreaPerParticle as real);
    if (MaxParticles as real) <= q then MaxParticles as real else q
  }

  /** The number of particles `initParticles` creates: the loop runs for
      every integer `i` below the bound, so this is the bound rounded up,
      `min(100, ceil(width * height / 15000))`. */
  function ParticleCount(width: nat, height: nat): (n: nat)
  {
    var area := width * height;
    if area >= MaxParticles * AreaPerParticle then MaxParticles
    else (area + AreaPerParticle - 1) / AreaPerParticle
  }

  /** The loop test `i < count` holds exactly for the indices below
      ParticleCount, so the loop pushes ParticleCount particles. */
  lemma LoopTestIsBelowCount(width: nat, height: nat, i: nat)
    ensures (i as real) < CountBound(width, height) <==> i < ParticleCount(width, height)
  {
    var area := width * height;
    if area < MaxParticles * AreaPerParticle {
      var q := (area as real) / (AreaPerParticle as real);
      assert (i as real) < q <==> i * AreaPerParticle < area;
    }
  }

  /** At most 100 particles; none exactly when the canvas has no area; and
      any positive area yields at least one. */
  lemma {:induction false} ParticleCountBounds(width: nat, height: nat)
    ensures ParticleCount(width, height) <= MaxParticles
    ensures ParticleCount(width, height) == 0 <==> width == 0 || height == 0
    ensures width * height >= MaxParticles * AreaPerParticle ==> ParticleCount(width, height) == MaxParticles
  {
    var area := width * height;
    if width != 0 && height != 0 {
      assert area >= 1 by {
        assert width * height >= 1 * height;
      }
    }
  }

  /** A 1000 x 1000 canvas: 1,000,000 / 15,000 is 66.67, so 67 particles. */
  lemma ThousandSquareCanvas()
    ensures CountBound(1000, 1000) == 1000000.0 / 15000.0
    ensures ParticleCount(1000, 1000) == 67
  {
  }

  /** Every `Math.random()` result lies in [0, 1). */
  ghost predicate UnitDraws(draws: nat -> real) {
    forall k :: 0.0 <= draws(k) < 1.0
  }

  /** Particle `i`, built from the five `Math.random()` draws of its push:
      position in the canvas, each velocity component in [-1, 1), radius in
      [1, 3). */
  function Spawn(width: nat, height: nat, draws: nat -> real, i: nat): (p: Particle)
    requires UnitDraws(draws)
    ensures 0.0 <= p.x <= width as real && 0.0 <= p.y <= height as real
    ensures width > 0 ==> p.x < width as real
    ensures height > 0 ==> p.y < height as real
    ensures -1.0 <= p.vx < 1.0 && -1.0 <= p.vy < 1.0
    ensures 1.0 <= p.size < 3.0
  {
    var rx, ry, rvx, rvy, rs := draws(5 * i), draws(5 * i + 1), draws(5 * i + 2), draws(5 * i + 3), draws(5 * i + 4);
    Particle(Scale(rx, width), Scale(ry, height), (rvx - 0.5) * 2.0, (rvy - 0.5) * 2.0, rs * 2.0 + 1.0)
  }

  /** `Math.random() * extent`: a coordinate in [0, extent). */
  function Scale(r: real, extent: nat): (c: real)
    requires 0.0 <= r < 1.0
    ensures 0.0 <= c <= extent as real
    ensures extent > 0 ==> c < extent as real
  {
    var e := extent as real;
    assert r * e >= 0.0 by { MulNonNegative(r, e); }
    assert e - r * e == (1.0 - r) * e;
    assert (1.0 - r) * e >= 0.0 by { MulNonNegative(1.0 - r, e); }
    assert e > 0.0 ==> (1.0 - r) * e > 0.0 by {
      if e > 0.0 { MulPositive(1.0 - r, e); }
    }
    r * e
  }

  lemma MulNonNegative(a: real, b: real)
    requires a >= 0.0 && b >= 0.0
    ensures a * b >= 0.0
  {
  }

  lemma MulPositive(a: real, b: real)
    requires a > 0.0 && b > 0.0
    ensures a * b > 0.0
  {
  }

  /** The canvas and the particle list the animation owns. */
  class ParticleField {
    var width: nat
    var height: nat
    var particles: seq<Particle>

    /** Activation: the first `resize()`. */
    constructor (innerWidth: nat, innerHeight: nat, draws: nat -> real)
      requires UnitDraws(draws)
      ensures width == innerWidth && height == innerHeight
      ensures |particles| == ParticleCount(width, height)
      ensures forall i :: 0 <= i < |particles| ==> particles[i] == Spawn(width, height, draws, i)
    {
      width, height := innerWidth, innerHeight;
      new;
      InitParticles(draws);
    }

    /** `initParticles()`: discard the old particles and push one per loop
        pass while `i < Math.min(100, width * height / 15000)`. */
    method InitParticles(draws: nat -> real)
      requires UnitDraws(draws)
      modifies this`particles
      ensures |particles| == ParticleCount(width, height)
      ensures forall i :: 0 <= i < |particles| ==> particles[i] == Spawn(width, height, draws, i)
    {
      particles := [];
      var count := CountBound(width, height);
      var i: nat := 0;
      while (i as real) < count
        invariant i <= ParticleCount(width, height)
        invariant |particles| == i
        invariant forall j :: 0 <= j < i ==> particles[j] == Spawn(width, height, draws, j)
        decreases ParticleCount(width, height) - i
      {
        LoopTestIsBelowCount(width, height, i);
        particles := particles + [Spawn(width, height, draws, i)];
        i := i + 1;
      }
      LoopTestIsBelowCount(width, height, i);
    }

    /** `resize()`: the canvas takes the viewport size and the particle set is
        regenerated; nothing of the old particles survives. */
    method Resize(innerWidth: nat, innerHeight: nat, draws: nat -> real)
      requires UnitDraws(draws)
      modifies this
      ensures width == innerWidth && height == innerHeight
      ensures |particles| == ParticleCount(innerWidth, innerHeight) <= MaxParticles
      ensures forall i :: 0 <= i < |particles| ==> particles[i] == Spawn(innerWidth, innerHeight, draws, i)
    {
      width, height := innerWidth, innerHeight;
      InitParticles(draws);
      ParticleCountBounds(innerWidth, innerHeight);
    }
  }
}
