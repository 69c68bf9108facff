/** The decorative particle field (src/components/ui/ParticleBackground.tsx):
    one particle per 20000 square pixels of viewport, each with attributes
    that are affine images of independent uniform draws in [0, 1), and the
    whole field regenerated on every resize. */
module Particles {

  /** Viewport area, in square pixels, that buys one particle. */
  const AreaPerParticle: nat := 20000

  /** A value returned by the random source: a real in [0, 1). */
  type Unit = r: real | 0.0 <= r < 1.0 witness 0.0

  /** The six draws consumed for one particle, in the order the source
      consumes them. */
  datatype Draw = Draw(x: Unit, y: Unit, size: Unit, speed: Unit, opacity: Unit, delay: Unit)

  datatype Particle = Particle(id: nat, x: real, y: real, size: real, speed: real, opacity: real, delay: real)

  /** The ranges every generated attribute stays in for a `width` by
      `height` viewport; a position range is empty, so only its lower bound
      is kept, when that side of the viewport is zero. */
  predicate InBounds(p: Particle, width: nat, height: nat)
  {
    && 0.0 <= p.x && (width > 0 ==> p.x < width as real)
    && 0.0 <= p.y && (height > 0 ==> p.y < height as real)
    && 1.0 <= p.size < 3.0
    && 0.5 <= p.speed < 1.5
    && 0.1 <= p.opacity < 0.6
    && 0.0 <= p.delay < 5.0
  }

  /** The number of particles for a viewport: the floor of its area over
      20000 (both factors are non-negative, so integer division floors). */
  function ParticleCount(width: nat, height: nat): (n: nat)
    ensures n * AreaPerParticle <= width * height < (n + 1) * AreaPerParticle
  {
    (width * height) / AreaPerParticle
  }

  /** Scaling a draw by a side length lands in [0, side). */
  lemma ScaleBelow(u: Unit, side: nat)
    ensures 0.0 <= u * side as real
    ensures side > 0 ==> u * side as real < side as real
  {
    if side > 0 {
      assert u * side as real < 1.0 * side as real;
    }
  }

  /** Particle `i` built from its draws. */
  function MakeParticle(i: nat, width: nat, height: nat, d: Draw): (p: Particle)
    ensures p.id == i
    ensures InBounds(p, width, height)
  {
    ScaleBelow(d.x, width);
    ScaleBelow(d.y, height);
    Particle(
      i,
      d.x * width as real,
      d.y * height as real,
      d.size * 2.0 + 1.0,
      d.speed * 1.0 + 0.5,
      d.opacity * 0.5 + 0.1,
      d.delay * 5.0)
  }

  /** The field for a viewport and a supply of draws: particle `i` is made
      from draw `i`. */
  function Field(width: nat, height: nat, draws: seq<Draw>): (ps: seq<Particle>)
    requires |draws| >= ParticleCount(width, height)
    ensures |ps| == ParticleCount(width, height)
    ensures forall i :: 0 <= i < |ps| ==> ps[i].id == i && InBounds(ps[i], width, height)
  {
    seq(ParticleCount(width, height), i requires 0 <= i < ParticleCount(width, height) <= |draws| =>
      MakeParticle(i, width, height, draws[i]))
  }

  /** The generation loop as written: push particle `i` for `i` from 0 up to
      the count. */
  method GenerateParticles(width: nat, height: nat, draws: seq<Draw>) returns (ps: seq<Particle>)
    requires |draws| >= ParticleCount(width, height)
    ensures ps == Field(width, height, draws)
  {
    var n := ParticleCount(width, height);
    ps := [];
    var i := 0;
    while i < n
      invariant 0 <= i <= n
      invariant |ps| == i
      invariant forall k :: 0 <= k < i ==> ps[k] == MakeParticle(k, width, height, draws[k])
    {
      ps := ps + [MakeParticle(i, width, height, draws[i])];
      i := i + 1;
    }
  }

  /** A resize discards the current field and generates a new one for the
      new viewport. */
  method HandleResize(current: seq<Particle>, width: nat, height: nat, draws: seq<Draw>) returns (ps: seq<Particle>)
    requires |draws| >= ParticleCount(width, height)
    ensures ps == Field(width, height, draws)
    ensures |ps| == ParticleCount(width, height)
  {
    ps := GenerateParticles(width, height, draws);
  }

  /** Seconds one animation cycle of a particle takes. */
  function AnimationDuration(p: Particle): (seconds: real)
    requires p.speed > 0.0
    ensures seconds > 0.0
    ensures seconds * p.speed == 8.0
  {
    8.0 / p.speed
  }

  /** Every generated particle's cycle lasts more than 16/3 and at most 16
      seconds. */
  lemma DurationBounds(p: Particle, width: nat, height: nat)
    requires InBounds(p, width, height)
    ensures 16.0 / 3.0 < AnimationDuration(p) <= 16.0
  {
  }

  /** The duration is inversely related to speed: a faster particle has the
      shorter cycle. */
  lemma FasterIsShorter(p: Particle, q: Particle)
    requires 0.0 < p.speed < q.speed
    ensures AnimationDuration(q) < AnimationDuration(p)
  {
    var tp, tq := AnimationDuration(p), AnimationDuration(q);
    assert tq * q.speed == tp * p.speed;
    assert tp * p.speed < tp * q.speed;
  }

  /** A 2000 by 1000 viewport gets 100 particles. */
  lemma CountExample()
    ensures ParticleCount(2000, 1000) == 100
  {
  }

  /** A viewport smaller than 20000 square pixels, zero area included, gets
      no particles at all. */
  lemma SmallViewportIsEmpty(width: nat, height: nat, draws: seq<Draw>)
    requires width * height < AreaPerParticle
    ensures Field(width, height, draws) == []
  {
  }

  /** Regenerating for the same viewport gives a field of the same size
      whatever the draws and whatever the previous field was. */
  lemma RegenerationLength(width: nat, height: nat, draws1: seq<Draw>, draws2: seq<Draw>)
    requires |draws1| >= ParticleCount(width, height)
    requires |draws2| >= ParticleCount(width, height)
    ensures |Field(width, height, draws1)| == |Field(width, height, draws2)|
  {
  }

  /** A larger viewport never gets fewer particles. */
  lemma CountMonotone(w1: nat, h1: nat, w2: nat, h2: nat)
    requires w1 <= w2 && h1 <= h2
    ensures ParticleCount(w1, h1) <= ParticleCount(w2, h2)
  {
    assert w1 * h1 <= w2 * h1 <= w2 * h2;
  }
}
