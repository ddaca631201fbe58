# pendulum-learn: a point mass under gravity, advanced by RK4

This project models the core of `pendulum-learn`, a small Rust simulation of a
point mass falling under uniform gravity, in Dafny. The core has four parts:

- `Vector3` and its helpers (`src/vector/mod.rs`);
- the vector multiplication operators (`src/vector/mul.rs`);
- the four stage formulas of the classical fourth-order Runge-Kutta scheme
  (`src/rk4th.rs`);
- the `Particle` whose RK4 step computes position and velocity increments
  (`src/particles.rs`).

The simulation driver's commit of those increments and its step loop
(`src/bin/main.rs`) are modelled too. Its output is not.

The source's `f64` is modelled as Dafny's exact `real`. Every property below is
therefore a statement about the arithmetic the program means, not about IEEE-754
rounding.

Files:

- `vector.dfy`, module `Vector`: the immutable `Vector3` datatype, `New`, `Zeros`, the two dot
  products, the squared length, the squared distance and the distance. It also
  holds the componentwise `Add`, `Sub` and `Div` the RK4 formulas use.
- `vector_mul.dfy`, module `VectorMul`: vector times vector (componentwise), vector
  times scalar, and scalar times vector.
- `rk4th.dfy`, module `RungeKutta`: `Step1st` … `Step4th`, with lemmas relating
  them. The main lemma shows that the final weighted combination integrates
  constant and linearly growing slopes exactly.
- `particles.dfy`, module `Particles`: the particle's velocity and acceleration laws,
  and `Advance`, the pure stage chain of one RK4 step. The `Particle` class has
  the source's fields. Its `TimeEvolutionCore` writes only the two increment
  fields and is proved equal to `Advance`. `Commit`, `Iterate` and `Simulate`
  model the driver, whose commit adds only the z components of the increments
  (src/bin/main.rs:19-20). `Run` and `Uniform` state the driver's trajectory
  step by step and in closed form, and `RunIsUniform` proves the two agree for
  any number of steps. `Pending` states what the increment fields hold after
  the loop.

The central results:

- one RK4 step under constant gravity is exact (`Advance`): the
  velocity gains `gravity*dt` along z, and the position gains
  `velocity*dt + gravity*dt²/2` along z;
- consequently the driver's state after any number of steps is the uniformly
  accelerated motion `z + v*t + g*t²/2`, `v + g*t` (`RunIsUniform`,
  `Particle.Simulate`).

## Model

| member | source | states |
|---|---|---|
| Vector.New | src/vector/mod.rs:14-16 | the new vector holds exactly the given x, y and z |
| Vector.Zeros | src/vector/mod.rs:18-20 | all three components of the zero vector are 0 |
| Vector.Vector3.Dot | src/vector/mod.rs:22-24 | a vector dotted with itself is never negative |
| Vector.Dot | src/vector/mod.rs:31-33 | the free `dot(v1, v2)` equals the method `v1.dot(v2)` and also `v2.dot(v1)`, so the two dot products agree whichever operand is the receiver |
| Vector.DotSymmetric | src/vector/mod.rs:31-33 | the dot product does not depend on the order of its operands |
| Vector.Vector3.LengthSq | src/vector/mod.rs:26-28 | the squared length is the vector dotted with itself, and it is never negative |
| Vector.LengthSqComponents | src/vector/mod.rs:84-89 | the squared length is the sum of the squared components, as the unit test checks |
| Vector.DistanceSq | src/vector/mod.rs:35-39 | the squared distance is the squared length of the difference `v1 - v2`, and it is never negative |
| Vector.DistanceSqSymmetric | src/vector/mod.rs:35-39 | the squared distance is symmetric, and a point's squared distance to itself is 0 |
| Vector.DistanceSqIsSumOfSquares | src/vector/mod.rs:91-102 | the squared distance equals the unit test's left fold of squares over the three componentwise differences |
| Vector.Distance | src/vector/mod.rs:41-43 | for any square root function, the distance is the root of the squared distance taken in either order, so it is symmetric |
| Vector.DistanceToSelf | src/vector/mod.rs:41-43 | for any square root function, a point's distance to itself is the root of 0 |
| Vector.Examples | src/vector/mod.rs:67-102 | the unit tests' values for (1,2,3) and (10,20,30): both dot products give 140, the squared length of (1,2,3) is 14, and the squared distance is 1134 |
| VectorMul.Mul | src/vector/mul.rs:5-51 | vector times vector is the componentwise product in all four owned/borrowed forms, not the dot product |
| VectorMul.MulCommutative | src/vector/mul.rs:5-51 | the componentwise product is commutative |
| VectorMul.MulScalar | src/vector/mul.rs:53-75 | vector times scalar scales each component by the scalar |
| VectorMul.ScalarMul | src/vector/mul.rs:77-99 | scalar times vector is the same vector as vector times scalar |
| VectorMul.Examples | src/vector/mul.rs:105-195 | the unit tests' values: (1,2,3)*(10,20,30) = (10,40,90), and (1,2,3) scaled by 10 from either side is (10,20,30) |
| RungeKutta.Step1st | src/rk4th.rs:8-10 | the first stage moves `x` by exactly `dx*dt/2` |
| RungeKutta.Step2nd | src/rk4th.rs:12-14 | the second stage moves `x` by exactly `dx*dt/2` |
| RungeKutta.Step2ndIsStep1st | src/rk4th.rs:8-14 | the second stage is the same function as the first |
| RungeKutta.Step3rd | src/rk4th.rs:16-18 | the third stage moves `x` by exactly `dx*dt` |
| RungeKutta.Step3rdIsStep1stDoubled | src/rk4th.rs:8-18 | the third stage is the first stage taken with twice the step size |
| RungeKutta.Step4th | src/rk4th.rs:20-28 | the combination weights the four slopes by dt/6, dt/3, dt/3 and dt/6 |
| RungeKutta.Step4thOfEqualSlopes | src/rk4th.rs:20-28 | the weights sum to one: four equal slopes k combine to `k*dt` |
| RungeKutta.Step4thOfLinearSlopes | src/rk4th.rs:20-28 | slopes that grow linearly over the step (v, v+a*dt/2 twice, v+a*dt) combine exactly to `v*dt + a*dt²/2` |
| RungeKutta.Examples | src/rk4th.rs:54-93 | the unit tests' values: each of the first three stages gives (21,42,63), and the combination gives (1221,2442,3663) |
| Particles.ToVelocity | src/particles.rs:65-67 | the rate of change of the position is the given velocity, whatever the time and the position |
| Particles.ToAccel | src/particles.rs:69-71 | the acceleration is (0, 0, gravity), whatever the time, the position and the velocity |
| Particles.Advance | src/particles.rs:37-63 | the stage chain of one RK4 step gives the exact constant-acceleration increments: `velocity*dt + (0,0,g*dt²/2)` for the position and `(0,0,g*dt)` for the velocity |
| Particles.AdvanceIgnoresTimeAndPosition | src/particles.rs:37-71 | the step's increments depend on neither the time nor the position, so two steps from the same velocity without a commit in between are identical |
| Particles.Committed | src/bin/main.rs:19-20 | the driver's commit adds only the z components of the increments; x and y of the position and the velocity are unchanged |
| Particles.Run | src/bin/main.rs:15-21 | however many iterations the driver runs, the x and y components of the position and the velocity never change |
| Particles.RunIsUniform | src/bin/main.rs:15-21 | after any number of driver iterations, the state is the uniformly accelerated one over the elapsed time `steps*dt` |
| Particles.PendingIsExact | src/bin/main.rs:15-21 | after at least one iteration, the increments the driver leaves in the particle are the exact step from the state one iteration earlier: `(0,0,g*dt)` for the velocity and that state's velocity times dt plus `(0,0,g*dt²/2)` for the position |
| Particles.TenStepsFromRest | src/bin/main.rs:8-21 | from rest with dt = 0.001 and gravity = -9.8, ten iterations give velocity -0.098 and position -0.00049 along z |
| Particles.Particle.constructor | src/particles.rs:19-29 | the new particle stores dt, weight and gravity, and its position, velocity and both increments are zero |
| Particles.Particle.TimeEvolution | src/particles.rs:31-33 | it has exactly the effect of `TimeEvolutionCore` |
| Particles.Particle.TimeEvolutionCore | src/particles.rs:37-63 | only the two increment fields change. They become the RK4 step `Advance` of the unchanged position and velocity, which by `Advance`'s contract is the exact constant-acceleration increment |
| Particles.Particle.Commit | src/bin/main.rs:19-20 | the position and the velocity become `Committed` of their old values and the current increments |
| Particles.Particle.Iterate | src/bin/main.rs:16-20 | one iteration (advance at time n*dt, then commit) takes the state after n iterations to the state after n + 1, and leaves that iteration's step in the increment fields |
| Particles.Particle.Simulate | src/bin/main.rs:15-21 | after `steps` iterations the state equals `Run` of the old state, which is the closed-form uniformly accelerated state. The increment fields hold `Pending`: the last iteration's step, or their old values when `steps` is 0 |

## Left out

- Floating point: `f64` is modelled as exact `real`. The model does not capture
  rounding, NaN, infinities or overflow. For example, the ten-step values
  -0.098 and -0.00049 are exact here, while the program's values carry rounding
  error.
- Vector.Distance: the platform's `f64::sqrt` is not part of this model. The
  square root is a parameter, so the distance's properties hold for any root
  function, and nothing is stated about the root itself.
- Vector.DistanceSq: does not state that the squared distance is zero only for
  equal points. It states non-negativity, and symmetry and zero at equal points
  are proved beside it.
- Vector.Vector3.LengthSq: does not state that the squared length is zero only
  for the zero vector. It states non-negativity and the dot-product identity.
- `src/vector/add.rs`, `src/vector/sub.rs` and `src/vector/div.rs` are not part
  of this model. `Add`, `Sub` and `Div` stand in for them as componentwise
  operations. Division by zero, which would give infinities or NaN in `f64`, is
  excluded by `Div`'s precondition; the core only ever divides by 2.
- The owned and borrowed variants of each `*` operator are one function each,
  because over immutable values they cannot differ.
- The `RungeKutta4th` trait is not generic here. Its three required methods
  are modelled only for its one implementor, `Particle`, with the stage chain
  written out there. The stage formulas are module-level functions. The
  test-only mock implementor in `src/rk4th.rs`, whose signatures do not match
  the trait, is left out.
- Particles.ToAccel: the source reads `gravity` from the particle. The model
  passes it in as a parameter, because a module-level function has no receiver.
- `weight` is stored but takes no part in the force law, in the source and
  here.
- The driver's output (`println!` of the header and of each row) is left out.
  The driver's fixed loop bound of 10 000 iterations is the `steps` parameter
  of `Particle.Simulate`.
