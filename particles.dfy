/**
 * The particle effect of src/utils/particles.ts, one particle of which is
 * added on each note-on:
 * creation from random draws, one physics step, the liveness test, the
 * opacity, and the per-tick update that drops dead particles and caps the
 * list. Everything here is pure; the ids, clock and `Math.random` draws are
 * parameters.
 */
module Particles {
  import opened Types
  import opened JsArray

  const MaxParticles: nat := 100
  const BaseLife: int := 60
  const Gravity: real := 0.15
  const BaseSize: real := 20.0
  const SizeGrowth: real := 1.2
  const VelocityRangeX: real := 6.0
  const VelocityRangeY: real := 5.0
  const InitialVelocityY: real := -4.0
  /** The factor `updateParticle` multiplies the x velocity by. */
  const AirResistance: real := 0.98

  datatype Velocity = Velocity(x: real, y: real)

  datatype Particle = Particle(id: string, x: real, y: real, color: string, note: string,
                               life: int, maxLife: int, velocity: Velocity, size: real)

  /** What creating one particle consumes from the environment: the id built
      from the clock and a random string, and the two `Math.random()` draws for
      its x and y velocity. */
  datatype Draw = Draw(id: string, rx: real, ry: real)

  /** `createParticle`. */
  function CreateParticle(position: Position, color: string, note: string, draw: Draw): (p: Particle)
    ensures p.id == draw.id && p.x == position.x && p.y == position.y
    ensures p.color == color && p.note == note
    ensures p.life == BaseLife && p.maxLife == BaseLife && p.size == BaseSize
    ensures 0.0 <= draw.rx < 1.0 ==> -3.0 <= p.velocity.x < 3.0
    ensures 0.0 <= draw.ry < 1.0 ==> -9.0 < p.velocity.y <= -4.0
  {
    Particle(draw.id, position.x, position.y, color, note, BaseLife, BaseLife,
             Velocity((draw.rx - 0.5) * VelocityRangeX, InitialVelocityY - draw.ry * VelocityRangeY),
             BaseSize)
  }

  /** `updateParticle`: one frame of motion, drag, gravity, growth and ageing. */
  function UpdateParticle(p: Particle): (q: Particle)
    ensures q.id == p.id && q.color == p.color && q.note == p.note && q.maxLife == p.maxLife
    ensures q.life == p.life - 1
  {
    p.(x := p.x + p.velocity.x,
       y := p.y + p.velocity.y,
       life := p.life - 1,
       velocity := Velocity(p.velocity.x * AirResistance, p.velocity.y + Gravity),
       size := p.size + SizeGrowth)
  }

  /** `isParticleAlive`. */
  predicate IsParticleAlive(p: Particle) {
    p.life > 0
  }

  /** `getParticleOpacity`: the remaining fraction of the particle's life. */
  function GetParticleOpacity(p: Particle): (opacity: real)
    requires p.maxLife != 0
    ensures 0 < p.life <= p.maxLife ==> 0.0 < opacity <= 1.0
    ensures p.life == p.maxLife ==> opacity == 1.0
  {
    (p.life as real) / (p.maxLife as real)
  }

  /** `k` successive updates. */
  function UpdateTimes(p: Particle, k: nat): Particle {
    if k == 0 then p else UpdateParticle(UpdateTimes(p, k - 1))
  }

  /** After k updates a particle is k frames older, has fallen under k
      frames of gravity and grown k times, and keeps its identity. */
  lemma {:induction false} UpdateTimesEffect(p: Particle, k: nat)
    ensures UpdateTimes(p, k).life == p.life - k
    ensures UpdateTimes(p, k).velocity.y == p.velocity.y + Gravity * (k as real)
    ensures UpdateTimes(p, k).size == p.size + SizeGrowth * (k as real)
    ensures UpdateTimes(p, k).(x := 0.0, y := 0.0, life := 0, velocity := Velocity(0.0, 0.0), size := 0.0)
         == p.(x := 0.0, y := 0.0, life := 0, velocity := Velocity(0.0, 0.0), size := 0.0)
  {
    if k > 0 {
      UpdateTimesEffect(p, k - 1);
    }
  }

  /** `b` to the power `k`. */
  function Pow(b: real, k: nat): real {
    if k == 0 then 1.0 else b * Pow(b, k - 1)
  }

  /** After k updates the x velocity has decayed to vx·0.98^k. */
  lemma {:induction false} UpdateTimesDrag(p: Particle, k: nat)
    ensures UpdateTimes(p, k).velocity.x == p.velocity.x * Pow(AirResistance, k)
  {
    if k > 0 {
      UpdateTimesDrag(p, k - 1);
      assert UpdateTimes(p, k).velocity.x == UpdateTimes(p, k - 1).velocity.x * AirResistance;
    }
  }

  /** After k updates the particle has moved by the sum of its k
      velocities: x by the geometric sum vx·(1 − 0.98^k)/(1 − 0.98). */
  lemma {:induction false} UpdateTimesDriftX(p: Particle, k: nat)
    ensures UpdateTimes(p, k).x == p.x + p.velocity.x * (1.0 - Pow(AirResistance, k)) / (1.0 - AirResistance)
  {
    if k > 0 {
      UpdateTimesDriftX(p, k - 1);
      UpdateTimesDrag(p, k - 1);
      var q := UpdateTimes(p, k - 1);
      assert UpdateTimes(p, k).x == q.x + q.velocity.x;
      GeometricStep(p.velocity.x, Pow(AirResistance, k - 1));
    }
  }

  /** After k updates y has advanced by k·vy plus gravity over the
      k(k−1)/2 frames it has acted. */
  lemma {:induction false} UpdateTimesFall(p: Particle, k: nat)
    ensures UpdateTimes(p, k).y == p.y + (k as real) * p.velocity.y + Gravity * ((k as real) * (k as real - 1.0) / 2.0)
  {
    if k > 0 {
      UpdateTimesFall(p, k - 1);
      UpdateTimesEffect(p, k - 1);
      var q := UpdateTimes(p, k - 1);
      assert UpdateTimes(p, k).y == q.y + q.velocity.y;
      TriangleStep((k - 1) as real);
    }
  }

  /** One more term of the geometric sum of the x velocities. */
  lemma GeometricStep(vx: real, w: real)
    ensures vx * (1.0 - w) / (1.0 - AirResistance) + vx * w
         == vx * (1.0 - AirResistance * w) / (1.0 - AirResistance)
  {
    assert vx * (1.0 - w) / 0.02 == 50.0 * vx - 50.0 * (vx * w);
    assert vx * (1.0 - 0.98 * w) / 0.02 == 50.0 * vx - 49.0 * (vx * w);
  }

  /** One more term of the triangular number n(n−1)/2. */
  lemma TriangleStep(n: real)
    ensures n * (n - 1.0) / 2.0 + n == (n + 1.0) * n / 2.0
  {
  }

  /** A particle is still alive after k updates iff it had more than k
      frames of life left. */
  lemma AliveAfterUpdates(p: Particle, k: nat)
    ensures IsParticleAlive(UpdateTimes(p, k)) <==> k < p.life
  {
    UpdateTimesEffect(p, k);
  }

  /** A fresh particle is alive after exactly its first 59 updates, and its
      opacity stays in (0, 1] while it lives. */
  lemma FreshParticleLifetime(position: Position, color: string, note: string, draw: Draw, k: nat)
    ensures UpdateTimes(CreateParticle(position, color, note, draw), k).maxLife == BaseLife
    ensures IsParticleAlive(UpdateTimes(CreateParticle(position, color, note, draw), k)) <==> k < BaseLife
    ensures k < BaseLife ==>
              0.0 < GetParticleOpacity(UpdateTimes(CreateParticle(position, color, note, draw), k)) <= 1.0
  {
    UpdateTimesEffect(CreateParticle(position, color, note, draw), k);
  }

  /** `particles.map(updateParticle).filter(isParticleAlive)`. */
  function Survivors(particles: seq<Particle>): (r: seq<Particle>)
    ensures |r| <= |particles|
    ensures forall i :: 0 <= i < |r| ==> IsParticleAlive(r[i])
  {
    if particles == [] then []
    else
      var q := UpdateParticle(particles[0]);
      (if IsParticleAlive(q) then [q] else []) + Survivors(particles[1..])
  }

  /** The survivors of a concatenation are the survivors of each part, in
      order: filtering never reorders. */
  lemma {:induction false} SurvivorsAppend(a: seq<Particle>, b: seq<Particle>)
    ensures Survivors(a + b) == Survivors(a) + Survivors(b)
  {
    if a != [] {
      assert (a + b)[1..] == a[1..] + b;
      SurvivorsAppend(a[1..], b);
    } else {
      assert a + b == b;
    }
  }

  /** Exactly the updated particles that are still alive survive. */
  lemma {:induction false} SurvivorsMembership(particles: seq<Particle>, q: Particle)
    ensures q in Survivors(particles)
        <==> exists i :: 0 <= i < |particles| && UpdateParticle(particles[i]) == q && IsParticleAlive(q)
  {
    if particles != [] {
      SurvivorsMembership(particles[1..], q);
      if q in Survivors(particles[1..]) {
        var i :| 0 <= i < |particles[1..]| && UpdateParticle(particles[1..][i]) == q && IsParticleAlive(q);
        assert UpdateParticle(particles[i + 1]) == q;
      }
      if exists i :: 0 <= i < |particles| && UpdateParticle(particles[i]) == q && IsParticleAlive(q) {
        var i :| 0 <= i < |particles| && UpdateParticle(particles[i]) == q && IsParticleAlive(q);
        if i > 0 {
          assert UpdateParticle(particles[1..][i - 1]) == q;
        }
      }
    }
  }

  /** `updateParticles` as its documentation describes it: the last
      `maxParticles` survivors in their original order, none for a cap of 0.
      For every positive cap (the application always passes 100) this is what
      the code computes; see `UpdateParticlesAsWritten`. */
  function UpdateParticles(particles: seq<Particle>, maxParticles: nat): (r: seq<Particle>)
    ensures |r| <= maxParticles && |r| <= |particles|
    ensures forall i :: 0 <= i < |r| ==> r[i].life > 0
    ensures var s := Survivors(particles);
            |r| == (if |s| <= maxParticles then |s| else maxParticles) && r == s[|s| - |r|..]
  {
    KeepLast(Survivors(particles), maxParticles)
  }

  /** `updateParticles` exactly as written: `slice(-maxParticles)`. */
  function UpdateParticlesAsWritten(particles: seq<Particle>, maxParticles: int): (r: seq<Particle>)
    ensures forall i :: 0 <= i < |r| ==> r[i].life > 0
  {
    SliceFrom(Survivors(particles), -maxParticles)
  }

  /** For every positive cap the code as written and the capped model agree. */
  lemma UpdateParticlesAsWrittenAgrees(particles: seq<Particle>, maxParticles: nat)
    requires maxParticles >= 1
    ensures UpdateParticlesAsWritten(particles, maxParticles) == UpdateParticles(particles, maxParticles)
  {
    SliceNegativeIsKeepLast(Survivors(particles), maxParticles);
  }

  /** With a cap of 0 the code as written keeps every survivor, because
      `slice(-0)` is `slice(0)`: one live particle comes back although at most
      zero were asked for. */
  lemma UpdateParticlesZeroCapKeepsAll(p: Particle)
    requires p.life >= 2
    ensures |UpdateParticlesAsWritten([p], 0)| == 1
    ensures |UpdateParticles([p], 0)| == 0
  {
    assert [p][1..] == [];
    assert Survivors([p]) == [UpdateParticle(p)];
  }

  /** `createParticleBurst`: `count` particles at one position (none for a
      negative count), particle `i` built from draw `i`. The application
      never calls it: a note-on adds one particle. */
  function CreateParticleBurst(position: Position, color: string, note: string, count: int,
                               draws: int -> Draw): (r: seq<Particle>)
    ensures |r| == if count < 0 then 0 else count
    ensures forall i :: 0 <= i < |r| ==>
              r[i].x == position.x && r[i].y == position.y && r[i].color == color && r[i].note == note
              && r[i].life == BaseLife
  {
    var r := seq(if count < 0 then 0 else count, i => CreateParticle(position, color, note, draws(i)));
    assert forall i :: 0 <= i < |r| ==> r[i] == CreateParticle(position, color, note, draws(i));
    r
  }
}
