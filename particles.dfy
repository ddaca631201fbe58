/** A point mass falling under uniform gravity, advanced by RK4
    (src/particles.rs), and the commit step and step loop of the simulation
    driver (src/bin/main.rs). */
module Particles {
  import opened Vector
  import opened VectorMul
  import opened RungeKutta

  /** The particle's velocity law: the position changes at the rate of the
      current velocity, whatever the time and the position. */
  function ToVelocity(time: real, position: Vector3, velocity: Vector3): (r: Vector3)
    ensures r == velocity
  {
    velocity
  }

  /** The particle's acceleration law: a constant pull of `gravity` along the
      z axis, whatever the time, the position and the velocity. The source
      reads `gravity` from the particle; here it is passed in. */
  function ToAccel(gravity: real, time: real, position: Vector3, velocity: Vector3): (r: Vector3)
    ensures r.x == 0.0 && r.y == 0.0 && r.z == gravity
  {
    New(0.0, 0.0, gravity)
  }

  /** What one RK4 step produces: the increments to be added to the position
      and the velocity. */
  datatype Increment = Increment(deltaPosition: Vector3, deltaVelocity: Vector3)

  /** One RK4 step of the coupled pair d(position)/dt = ToVelocity,
      d(velocity)/dt = ToAccel, from time `t`. Each stage samples both laws
      at the previous stage's estimate; every estimate restarts from the
      unchanged `position` and `velocity`.
      RK4 is exact for motion under constant acceleration: the velocity gains
      gravity*dt along z, and the position gains dt*velocity plus
      gravity*dt^2/2 along z. */
  function Advance(dt: real, gravity: real, t: real, position: Vector3, velocity: Vector3): (r: Increment)
    ensures r == Increment(Add(MulScalar(velocity, dt), New(0.0, 0.0, gravity * dt * dt / 2.0)),
                           New(0.0, 0.0, gravity * dt))
  {
    var v1 := ToVelocity(t, position, velocity);
    var a1 := ToAccel(gravity, t, position, velocity);
    var v1a := Step1st(dt, position, v1);
    var a1a := Step1st(dt, velocity, a1);

    var v2 := ToVelocity(t + dt / 2.0, v1a, a1a);
    var a2 := ToAccel(gravity, t + dt / 2.0, v1a, a1a);
    var v2a := Step2nd(dt, position, v2);
    var a2a := Step2nd(dt, velocity, a2);

    var v3 := ToVelocity(t + dt / 2.0, v2a, a2a);
    var a3 := ToAccel(gravity, t + dt / 2.0, v2a, a2a);
    var v3a := Step3rd(dt, position, v3);
    var a3a := Step3rd(dt, velocity, a3);

    var v4 := ToVelocity(t + dt, v3a, a3a);
    var a4 := ToAccel(gravity, t + dt, v3a, a3a);

    // The velocity slopes are the velocity at the start, middle and end of
    // the step; the acceleration slopes are all equal.
    Step2ndIsStep1st(dt, velocity, a1);
    Step4thOfLinearSlopes(dt, velocity, a1, a1a, a3a);
    Step4thOfEqualSlopes(dt, a1);
    assert MulScalar(a1, dt * dt / 2.0) == New(0.0, 0.0, gravity * dt * dt / 2.0);
    Increment(Step4th(dt, v1, v2, v3, v4), Step4th(dt, a1, a2, a3, a4))
  }

  /** The step depends on neither the time nor the position, so advancing
      twice from the same velocity, without committing in between, yields the
      same increments. */
  lemma AdvanceIgnoresTimeAndPosition(dt: real, gravity: real, t1: real, t2: real,
                                      p1: Vector3, p2: Vector3, velocity: Vector3)
    ensures Advance(dt, gravity, t1, p1, velocity) == Advance(dt, gravity, t2, p2, velocity)
  {
  }

  /** The particle's physical state. */
  datatype State = State(position: Vector3, velocity: Vector3)

  /** The driver's commit: only the z components of the increments are added;
      x and y of the position and the velocity are left as they were. */
  function Committed(s: State, inc: Increment): (r: State)
    ensures r.position.x == s.position.x && r.position.y == s.position.y
    ensures r.velocity.x == s.velocity.x && r.velocity.y == s.velocity.y
    ensures r.position.z - s.position.z == inc.deltaPosition.z
    ensures r.velocity.z - s.velocity.z == inc.deltaVelocity.z
  {
    State(New(s.position.x, s.position.y, s.position.z + inc.deltaPosition.z),
          New(s.velocity.x, s.velocity.y, s.velocity.z + inc.deltaVelocity.z))
  }

  /** The state after the first `steps` iterations of the driver's loop, from
      `s`: iteration i advances at time i*dt and commits. The x and y
      components of the position and the velocity never change. */
  function Run(steps: nat, dt: real, gravity: real, s: State): (r: State)
    ensures r.position.x == s.position.x && r.position.y == s.position.y
    ensures r.velocity.x == s.velocity.x && r.velocity.y == s.velocity.y
  {
    if steps == 0 then s
    else
      var prev := Run(steps - 1, dt, gravity, s);
      Committed(prev, Advance(dt, gravity, (steps - 1) as real * dt, prev.position, prev.velocity))
  }

  /** Run's last iteration, spelled out. */
  lemma RunUnfold(n: nat, dt: real, gravity: real, s: State)
    ensures var prev := Run(n, dt, gravity, s);
            Run(n + 1, dt, gravity, s)
            == Committed(prev, Advance(dt, gravity, n as real * dt, prev.position, prev.velocity))
  {
  }

  /** The increments held after `steps` driver iterations from `s`: the step
      the last iteration took from the state before it, or `initial` when
      there was no iteration. */
  function Pending(steps: nat, dt: real, gravity: real, s: State, initial: Increment): Increment
  {
    if steps == 0 then initial
    else
      var prev := Run(steps - 1, dt, gravity, s);
      Advance(dt, gravity, (steps - 1) as real * dt, prev.position, prev.velocity)
  }

  /** The state after `steps` driver iterations in closed form: uniformly
      accelerated motion along z over the time steps*dt, x and y untouched. */
  function Uniform(steps: nat, dt: real, gravity: real, s: State): State
  {
    var elapsed := steps as real * dt;
    State(New(s.position.x, s.position.y,
              s.position.z + elapsed * s.velocity.z + gravity * elapsed * elapsed / 2.0),
          New(s.velocity.x, s.velocity.y, s.velocity.z + gravity * elapsed))
  }

  /** Over any number of steps, the driver's trajectory is exactly the
      uniformly accelerated one. */
  lemma {:induction false} RunIsUniform(steps: nat, dt: real, gravity: real, s: State)
    ensures Run(steps, dt, gravity, s) == Uniform(steps, dt, gravity, s)
  {
    if steps > 0 {
      var n := steps - 1;
      var prev := Uniform(n, dt, gravity, s);
      var t := n as real * dt;
      calc {
        Run(n + 1, dt, gravity, s);
        { RunUnfold(n, dt, gravity, s); }
        Committed(Run(n, dt, gravity, s),
                  Advance(dt, gravity, t, Run(n, dt, gravity, s).position, Run(n, dt, gravity, s).velocity));
        { RunIsUniform(n, dt, gravity, s); }
        Committed(prev, Advance(dt, gravity, t, prev.position, prev.velocity));
        // Advance's closed form
        Committed(prev, Increment(Add(MulScalar(prev.velocity, dt), New(0.0, 0.0, gravity * dt * dt / 2.0)),
                                  New(0.0, 0.0, gravity * dt)));
        { UniformAdvancesUniformly(n, dt, gravity, s); }
        Uniform(n + 1, dt, gravity, s);
      }
    }
  }

  /** Committing one exact step to the closed form after n steps gives the
      closed form after n + 1 steps. */
  lemma UniformAdvancesUniformly(n: nat, dt: real, gravity: real, s: State)
    ensures var prev := Uniform(n, dt, gravity, s);
            Committed(prev, Increment(Add(MulScalar(prev.velocity, dt), New(0.0, 0.0, gravity * dt * dt / 2.0)),
                                      New(0.0, 0.0, gravity * dt)))
            == Uniform(n + 1, dt, gravity, s)
  {
    var prev := Uniform(n, dt, gravity, s);
    var inc := Increment(Add(MulScalar(prev.velocity, dt), New(0.0, 0.0, gravity * dt * dt / 2.0)),
                         New(0.0, 0.0, gravity * dt));
    assert inc.deltaPosition.z == prev.velocity.z * dt + gravity * dt * dt / 2.0;
    UniformStep(n, dt, gravity, s.position.z, s.velocity.z);
  }

  /** The arithmetic of one step of the closed form, along z. */
  lemma UniformStep(n: nat, dt: real, g: real, p: real, v: real)
    ensures var e := n as real * dt;
            var e1 := (n + 1) as real * dt;
            && (p + e * v + g * e * e / 2.0) + ((v + g * e) * dt + g * dt * dt / 2.0)
               == p + e1 * v + g * e1 * e1 / 2.0
            && (v + g * e) + g * dt == v + g * e1
  {
    var e := n as real * dt;
    assert (n + 1) as real * dt == e + dt;
  }

  /** After at least one driver iteration, the held increments are the exact
      constant-acceleration step from the state one iteration earlier: the
      velocity increment is gravity*dt along z, and the position increment is
      that state's velocity times dt plus gravity*dt^2/2 along z. */
  lemma PendingIsExact(steps: nat, dt: real, gravity: real, s: State, initial: Increment)
    requires steps > 0
    ensures var prev := Run(steps - 1, dt, gravity, s);
            Pending(steps, dt, gravity, s, initial)
            == Increment(Add(MulScalar(prev.velocity, dt), New(0.0, 0.0, gravity * dt * dt / 2.0)),
                         New(0.0, 0.0, gravity * dt))
  {
  }

  /** The worked scenario: from rest with dt = 0.001 and gravity = -9.8, ten
      steps give velocity -0.098 and position -0.00049 along z. */
  lemma TenStepsFromRest()
    ensures Run(10, 0.001, -9.8, State(Zeros(), Zeros())).velocity.z == -0.098
    ensures Run(10, 0.001, -9.8, State(Zeros(), Zeros())).position.z == -0.00049
  {
    RunIsUniform(10, 0.001, -9.8, State(Zeros(), Zeros()));
  }

  /** A simulated point mass. `deltaTime`, `weight` and `gravity` are fixed at
      construction; `weight` takes no part in the force law. */
  class Particle {
    var deltaTime: real
    var weight: real
    var gravity: real

    var position: Vector3
    var velocity: Vector3

    var deltaPosition: Vector3
    var deltaVelocity: Vector3

    /** A particle at rest at the origin with no pending increments. */
    constructor (deltaTime: real, weight: real, gravity: real)
      ensures this.deltaTime == deltaTime && this.weight == weight && this.gravity == gravity
      ensures position == Zeros() && velocity == Zeros()
      ensures deltaPosition == Zeros() && deltaVelocity == Zeros()
    {
      this.deltaTime := deltaTime;
      this.weight := weight;
      this.gravity := gravity;
      position := Zeros();
      velocity := Zeros();
      deltaPosition := Zeros();
      deltaVelocity := Zeros();
    }

    /** Computes one RK4 step from the current state at time `time` and stores
        it in the two increment fields, nothing else changing. */
    method TimeEvolution(time: real)
      modifies this`deltaPosition, this`deltaVelocity
      ensures Increment(deltaPosition, deltaVelocity) == Advance(deltaTime, gravity, time, position, velocity)
    {
      TimeEvolutionCore(time);
    }

    /** The stage chain of one RK4 step. Every stage restarts from the
        unchanged `position` and `velocity`; only the increments are written. */
    method TimeEvolutionCore(t: real)
      modifies this`deltaPosition, this`deltaVelocity
      ensures Increment(deltaPosition, deltaVelocity) == Advance(deltaTime, gravity, t, position, velocity)
    {
      var dt := deltaTime;

      var v1 := ToVelocity(t, position, velocity);
      var a1 := ToAccel(gravity, t, position, velocity);
      var v1a := Step1st(dt, position, v1);
      var a1a := Step1st(dt, velocity, a1);

      var v2 := ToVelocity(t + dt / 2.0, v1a, a1a);
      var a2 := ToAccel(gravity, t + dt / 2.0, v1a, a1a);
      var v2a := Step2nd(dt, position, v2);
      var a2a := Step2nd(dt, velocity, a2);

      var v3 := ToVelocity(t + dt / 2.0, v2a, a2a);
      var a3 := ToAccel(gravity, t + dt / 2.0, v2a, a2a);
      var v3a := Step3rd(dt, position, v3);
      var a3a := Step3rd(dt, velocity, a3);

      var v4 := ToVelocity(t + dt, v3a, a3a);
      var a4 := ToAccel(gravity, t + dt, v3a, a3a);
      deltaPosition := Step4th(dt, v1, v2, v3, v4);
      deltaVelocity := Step4th(dt, a1, a2, a3, a4);
    }

    /** The driver's commit: adds the z components of the increments to the
        position and the velocity. */
    method Commit()
      modifies this`position, this`velocity
      ensures State(position, velocity)
           == Committed(old(State(position, velocity)), Increment(deltaPosition, deltaVelocity))
    {
      position := New(position.x, position.y, position.z + deltaPosition.z);
      velocity := New(velocity.x, velocity.y, velocity.z + deltaVelocity.z);
    }

    /** One iteration of the driver's loop without its output: advance at
        time n*deltaTime, then commit. From the state after `n` iterations it
        reaches the state after n + 1, and the increment fields hold the step
        just taken. */
    method Iterate(n: nat, ghost start: State, ghost initial: Increment)
      requires State(position, velocity) == Run(n, deltaTime, gravity, start)
      modifies this`position, this`velocity, this`deltaPosition, this`deltaVelocity
      ensures State(position, velocity) == Run(n + 1, deltaTime, gravity, start)
      ensures Increment(deltaPosition, deltaVelocity) == Pending(n + 1, deltaTime, gravity, start, initial)
    {
      TimeEvolution(n as real * deltaTime);
      Commit();
      RunUnfold(n, deltaTime, gravity, start);
    }

    /** The driver's loop without its output: `steps` iterations, each
        advancing at time i*deltaTime and committing. The state follows Run
        and its closed form Uniform; the increment fields are left as Pending
        says, untouched when there was no iteration. */
    method Simulate(steps: nat)
      modifies this`position, this`velocity, this`deltaPosition, this`deltaVelocity
      ensures State(position, velocity) == Run(steps, deltaTime, gravity, old(State(position, velocity)))
      ensures State(position, velocity) == Uniform(steps, deltaTime, gravity, old(State(position, velocity)))
      ensures Increment(deltaPosition, deltaVelocity)
           == Pending(steps, deltaTime, gravity, old(State(position, velocity)), old(Increment(deltaPosition, deltaVelocity)))
    {
      ghost var start := State(position, velocity);
      ghost var initial := Increment(deltaPosition, deltaVelocity);
      var i := 0;
      while i < steps
        invariant 0 <= i <= steps
        invariant State(position, velocity) == Run(i, deltaTime, gravity, start)
        invariant Increment(deltaPosition, deltaVelocity) == Pending(i, deltaTime, gravity, start, initial)
      {
        Iterate(i, start, initial);
        i := i + 1;
      }
      RunIsUniform(steps, deltaTime, gravity, start);
    }
  }
}
