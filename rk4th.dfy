/** The classical fourth-order Runge-Kutta scheme (src/rk4th.rs): the four
    stage formulas that any state with a velocity law and an acceleration law
    chains into one step. */
module RungeKutta {
  import opened Vector
  import opened VectorMul

  /** First stage: `x` moved half a step along the slope `dx`. */
  function Step1st(dt: real, x: Vector3, dx: Vector3): (r: Vector3)
    ensures Sub(r, x) == MulScalar(dx, dt / 2.0)
  {
    Add(x, Div(MulScalar(dx, dt), 2.0))
  }

  /** Second stage: again half a step along the slope. */
  function Step2nd(dt: real, x: Vector3, dx: Vector3): (r: Vector3)
    ensures Sub(r, x) == MulScalar(dx, dt / 2.0)
  {
    Add(x, Div(MulScalar(dx, dt), 2.0))
  }

  /** Third stage: `x` moved a whole step along the slope `dx`. */
  function Step3rd(dt: real, x: Vector3, dx: Vector3): (r: Vector3)
    ensures Sub(r, x) == MulScalar(dx, dt)
  {
    Add(x, MulScalar(dx, dt))
  }

  /** Final combination: the four slopes weighted dt/6, dt/3, dt/3, dt/6. */
  function Step4th(dt: real, x1: Vector3, x2: Vector3, x3: Vector3, x4: Vector3): (r: Vector3)
    ensures r == Add(Add(Add(MulScalar(x1, dt / 6.0), MulScalar(x2, dt / 3.0)),
                         MulScalar(x3, dt / 3.0)),
                     MulScalar(x4, dt / 6.0))
  {
    ScalarMul(dt / 6.0, Add(Add(Add(x1, ScalarMul(2.0, x2)), ScalarMul(2.0, x3)), x4))
  }

  /** The second stage is the same function as the first. */
  lemma Step2ndIsStep1st(dt: real, x: Vector3, dx: Vector3)
    ensures Step2nd(dt, x, dx) == Step1st(dt, x, dx)
  {
  }

  /** A whole step is two half steps' worth: the third stage is the first
      stage taken with twice the step size. */
  lemma Step3rdIsStep1stDoubled(dt: real, x: Vector3, dx: Vector3)
    ensures Step3rd(dt, x, dx) == Step1st(2.0 * dt, x, dx)
  {
  }

  /** The weights 1/6, 1/3, 1/3, 1/6 sum to one: four equal slopes combine to
      a plain step of that slope. */
  lemma Step4thOfEqualSlopes(dt: real, k: Vector3)
    ensures Step4th(dt, k, k, k, k) == MulScalar(k, dt)
  {
  }

  /** Slopes growing linearly over the step, v at its start, v + a*dt/2 at
      its middle and v + a*dt at its end, combine exactly to the area under
      them: v*dt + a*dt^2/2. */
  lemma Step4thOfLinearSlopes(dt: real, v: Vector3, a: Vector3, mid: Vector3, end: Vector3)
    requires Sub(mid, v) == MulScalar(a, dt / 2.0)
    requires Sub(end, v) == MulScalar(a, dt)
    ensures Step4th(dt, v, mid, mid, end) == Add(MulScalar(v, dt), MulScalar(a, dt * dt / 2.0))
  {
    assert Sub(mid, v).x == MulScalar(a, dt / 2.0).x && Sub(end, v).x == MulScalar(a, dt).x;
    assert Sub(mid, v).y == MulScalar(a, dt / 2.0).y && Sub(end, v).y == MulScalar(a, dt).y;
    assert Sub(mid, v).z == MulScalar(a, dt / 2.0).z && Sub(end, v).z == MulScalar(a, dt).z;
    WeightedLinearSlopes(dt, v.x, a.x, mid.x, end.x);
    WeightedLinearSlopes(dt, v.y, a.y, mid.y, end.y);
    WeightedLinearSlopes(dt, v.z, a.z, mid.z, end.z);
  }

  /** One component of Step4thOfLinearSlopes. */
  lemma WeightedLinearSlopes(dt: real, v: real, a: real, mid: real, end: real)
    requires mid - v == a * (dt / 2.0)
    requires end - v == a * dt
    ensures v * (dt / 6.0) + mid * (dt / 3.0) + mid * (dt / 3.0) + end * (dt / 6.0)
         == v * dt + a * (dt * dt / 2.0)
  {
    assert mid == v + a * (dt / 2.0);
    assert end == v + a * dt;
  }

  /** The unit tests' concrete values for each stage. */
  lemma Examples()
    ensures Step1st(4.0, New(1.0, 2.0, 3.0), New(10.0, 20.0, 30.0)) == New(21.0, 42.0, 63.0)
    ensures Step2nd(4.0, New(1.0, 2.0, 3.0), New(10.0, 20.0, 30.0)) == New(21.0, 42.0, 63.0)
    ensures Step3rd(2.0, New(1.0, 2.0, 3.0), New(10.0, 20.0, 30.0)) == New(21.0, 42.0, 63.0)
    ensures Step4th(6.0, New(1.0, 2.0, 3.0), New(10.0, 20.0, 30.0),
                    New(100.0, 200.0, 300.0), New(1000.0, 2000.0, 3000.0))
         == New(1221.0, 2442.0, 3663.0)
  {
  }
}
