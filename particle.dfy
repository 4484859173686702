/** A spark thrown out when a brick breaks: it flies under gravity, shrinks
    and dies after a fixed lifetime or once it has shrunk to size 1. */
module Particles {
  import opened Geometry
  import opened Palette

  const Gravity: real := 0.3
  const Lifetime: int := 30
  const Shrink: real := 0.1

  datatype ParticleState = ParticleState(
    x: real, y: real, color: Rgb, size: real, vx: real, vy: real, age: int)

  /** `Particle(x, y, color)`. The three random draws are parameters: the
      size from `randint(3, 6)`, the velocities from `uniform(-3, 3)` and
      `uniform(-5, -2)`. */
  function NewParticle(x: real, y: real, color: Rgb, size: int, vx: real, vy: real): (p: ParticleState)
    requires 3 <= size <= 6 && -3.0 <= vx <= 3.0 && -5.0 <= vy <= -2.0
    ensures p.age == 0 && 3.0 <= p.size <= 6.0 && -3.0 <= p.vx <= 3.0 && -5.0 <= p.vy <= -2.0
    ensures p.x == x && p.y == y && p.color == color && p.size == size as real
  {
    ParticleState(x, y, color, size as real, vx, vy, 0)
  }

  /** One `update()`. */
  function Moved(p: ParticleState): (p': ParticleState)
    ensures p'.x == p.x + p.vx && p'.y == p.y + p.vy
    ensures p'.vx == p.vx && p'.vy == p.vy + Gravity && p'.age == p.age + 1
    ensures p'.size == MaxR(1.0, p.size - Shrink) && p'.color == p.color
  {
    p.(x := p.x + p.vx, y := p.y + p.vy, vy := p.vy + Gravity,
       age := p.age + 1, size := MaxR(1.0, p.size - Shrink))
  }

  /** `is_dead`. */
  predicate Dead(p: ParticleState)
  {
    p.age >= Lifetime || p.size <= 1.0
  }

  function MovedTimes(p: ParticleState, n: nat): ParticleState
    decreases n
  {
    if n == 0 then p else Moved(MovedTimes(p, n - 1))
  }

  /** After `n` updates: uniform motion across, constant acceleration down,
      the age advanced by `n` and the size shrunk by `0.1 n` down to 1. */
  lemma {:induction false} MovedTimesState(p: ParticleState, n: nat)
    requires p.size >= 1.0
    ensures MovedTimes(p, n).age == p.age + n
    ensures MovedTimes(p, n).vx == p.vx && MovedTimes(p, n).x == p.x + n as real * p.vx
    ensures MovedTimes(p, n).vy == p.vy + n as real * Gravity
    ensures MovedTimes(p, n).y == p.y + n as real * p.vy + Gravity * (n * (n - 1) / 2) as real
    ensures MovedTimes(p, n).size == MaxR(1.0, p.size - Shrink * n as real)
    decreases n
  {
    MovedAcross(p, n);
    MovedFalls(p, n);
    MovedDown(p, n);
    MovedShrinks(p, n);
  }

  lemma {:induction false} MovedAcross(p: ParticleState, n: nat)
    ensures MovedTimes(p, n).age == p.age + n
    ensures MovedTimes(p, n).vx == p.vx && MovedTimes(p, n).x == p.x + n as real * p.vx
    decreases n
  {
    if n > 0 {
      var k := n - 1;
      MovedAcross(p, k);
      assert n as real * p.vx == k as real * p.vx + p.vx;
    }
  }

  lemma {:induction false} MovedFalls(p: ParticleState, n: nat)
    ensures MovedTimes(p, n).vy == p.vy + n as real * Gravity
    decreases n
  {
    if n > 0 {
      MovedFalls(p, n - 1);
    }
  }

  lemma {:induction false} MovedDown(p: ParticleState, n: nat)
    ensures MovedTimes(p, n).y == p.y + n as real * p.vy + Gravity * (n * (n - 1) / 2) as real
    decreases n
  {
    if n > 0 {
      var k := n - 1;
      MovedDown(p, k);
      MovedFalls(p, k);
      var q := MovedTimes(p, k);
      assert MovedTimes(p, n).y == q.y + q.vy;
      TriangleStep(n);
      assert n as real * p.vy == k as real * p.vy + p.vy;
    }
  }

  /** Consecutive triangular numbers. */
  lemma TriangleStep(n: nat)
    requires n > 0
    ensures n * (n - 1) / 2 == (n - 1) * (n - 2) / 2 + (n - 1)
  {
    assert n * (n - 1) == (n - 1) * (n - 2) + 2 * (n - 1);
  }

  lemma {:induction false} MovedShrinks(p: ParticleState, n: nat)
    requires p.size >= 1.0
    ensures MovedTimes(p, n).size == MaxR(1.0, p.size - Shrink * n as real)
    decreases n
  {
    if n > 0 {
      MovedShrinks(p, n - 1);
    }
  }

  /** Size never grows and never goes below 1. */
  lemma SizeBounds(p: ParticleState, n: nat)
    requires p.size >= 1.0
    ensures 1.0 <= MovedTimes(p, n).size <= p.size
  {
    MovedTimesState(p, n);
  }

  /** A particle is dead exactly when its age reached the lifetime or its
      size shrank to 1; a new one is dead after at most 30 updates. */
  lemma DeadAfter(p: ParticleState, n: nat)
    requires p.size >= 1.0
    ensures Dead(MovedTimes(p, n)) <==> p.age + n >= Lifetime || p.size - Shrink * n as real <= 1.0
    ensures p.age == 0 && n >= 30 ==> Dead(MovedTimes(p, n))
  {
    MovedTimesState(p, n);
  }

  /** The `Particle` object. */
  class Particle {
    var x: real
    var y: real
    var color: Rgb
    var size: real
    var vx: real
    var vy: real
    var age: int

    function State(): ParticleState
      reads this
    {
      ParticleState(x, y, color, size, vx, vy, age)
    }

    constructor (x: real, y: real, color: Rgb, size: int, vx: real, vy: real)
      requires 3 <= size <= 6 && -3.0 <= vx <= 3.0 && -5.0 <= vy <= -2.0
      ensures State() == NewParticle(x, y, color, size, vx, vy)
    {
      this.x, this.y, this.color := x, y, color;
      this.size, this.vx, this.vy, age := size as real, vx, vy, 0;
    }

    method Update()
      modifies this
      ensures State() == Moved(old(State()))
    {
      x := x + vx;
      y := y + vy;
      vy := vy + Gravity;
      age := age + 1;
      size := MaxR(1.0, size - Shrink);
    }

    predicate IsDead()
      reads this
    {
      Dead(State())
    }
  }
}
