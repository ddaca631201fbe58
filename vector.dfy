/** Three-component vectors of reals: the value type of src/vector/mod.rs.
    The source's f64 components are modelled as exact reals, so every
    statement below is exact algebra rather than floating-point arithmetic. */
module Vector {

  /** An immutable triple (x, y, z). */
  datatype Vector3 = Vector3(x: real, y: real, z: real) {

    /** The dot product written as a method on the receiver (`v1.dot(v2)`):
        a vector dotted with itself is never negative. */
    function Dot(v: Vector3): (r: real)
      ensures v == this ==> r >= 0.0
    {
      SquareNonNegative(x);
      SquareNonNegative(y);
      SquareNonNegative(z);
      x * v.x + y * v.y + z * v.z
    }

    /** Squared Euclidean length: the receiver dotted with itself, never
        negative. */
    function LengthSq(): (r: real)
      ensures r == this.Dot(this)
      ensures r >= 0.0
    {
      x * x + y * y + z * z
    }
  }

  /** `Vector3::new`: a vector holding exactly the given components. */
  function New(x: real, y: real, z: real): (r: Vector3)
    ensures r.x == x && r.y == y && r.z == z
  {
    Vector3(x, y, z)
  }

  /** `Vector3::zeros`: the vector whose three components are all zero. */
  function Zeros(): (r: Vector3)
    ensures r.x == 0.0 && r.y == 0.0 && r.z == 0.0
  {
    New(0.0, 0.0, 0.0)
  }

  /** The free-standing dot product `dot(v1, v2)`: the same value as the
      method, whichever operand is the receiver. */
  function Dot(v1: Vector3, v2: Vector3): (r: real)
    ensures r == v1.Dot(v2) && r == v2.Dot(v1)
  {
    v1.x * v2.x + v1.y * v2.y + v1.z * v2.z
  }

  /** Squared distance between two points: the squared length of their
      difference, never negative. */
  function DistanceSq(v1: Vector3, v2: Vector3): (r: real)
    ensures r == Sub(v1, v2).LengthSq()
    ensures r >= 0.0
  {
    (v1.x - v2.x) * (v1.x - v2.x)
    + (v1.y - v2.y) * (v1.y - v2.y)
    + (v1.z - v2.z) * (v1.z - v2.z)
  }

  /** Distance between two points. The square root is the platform's, which is
      not part of this model, so it is a parameter. For any root, the distance
      is symmetric. */
  function Distance(v1: Vector3, v2: Vector3, sqrt: real -> real): (r: real)
    ensures r == sqrt(DistanceSq(v2, v1))
  {
    DistanceSqSymmetric(v1, v2);
    sqrt(DistanceSq(v1, v2))
  }

  // Componentwise addition, subtraction and division by a scalar. The source
  // implements these in src/vector/add.rs, sub.rs and div.rs, which are not
  // part of this model; they are defined here so that the RK4 stages can be.

  function Add(a: Vector3, b: Vector3): (r: Vector3)
    ensures r.x == a.x + b.x && r.y == a.y + b.y && r.z == a.z + b.z
  {
    Vector3(a.x + b.x, a.y + b.y, a.z + b.z)
  }

  function Sub(a: Vector3, b: Vector3): (r: Vector3)
    ensures Add(r, b) == a
  {
    Vector3(a.x - b.x, a.y - b.y, a.z - b.z)
  }

  function Div(v: Vector3, s: real): (r: Vector3)
    requires s != 0.0
    ensures r.x * s == v.x && r.y * s == v.y && r.z * s == v.z
  {
    Vector3(v.x / s, v.y / s, v.z / s)
  }

  /** A square is never negative. */
  lemma SquareNonNegative(a: real)
    ensures a * a >= 0.0
  {
    if a < 0.0 {
      assert a * a == (-a) * (-a);
    }
  }

  /** Swapping the operands of a difference does not change its square. */
  lemma SquaredDifferenceSymmetric(p: real, q: real)
    ensures (p - q) * (p - q) == (q - p) * (q - p)
  {
    assert q - p == -(p - q);
  }

  /** The dot product is symmetric. */
  lemma DotSymmetric(a: Vector3, b: Vector3)
    ensures Dot(a, b) == Dot(b, a)
  {
  }

  /** The unit test's assertion at src/vector/mod.rs:84-89, generalised to every
      vector: the squared length is the sum of the squared components. */
  lemma LengthSqComponents(v: Vector3)
    ensures v.LengthSq() == v.x * v.x + v.y * v.y + v.z * v.z
  {
  }

  /** The squared distance is symmetric, and a point is at distance zero
      from itself. */
  lemma DistanceSqSymmetric(a: Vector3, b: Vector3)
    ensures DistanceSq(a, b) == DistanceSq(b, a)
    ensures DistanceSq(a, a) == 0.0
  {
    SquaredDifferenceSymmetric(a.x, b.x);
    SquaredDifferenceSymmetric(a.y, b.y);
    SquaredDifferenceSymmetric(a.z, b.z);
    assert a.x - a.x == 0.0 && a.y - a.y == 0.0 && a.z - a.z == 0.0;
  }

  /** For any square root, a point's distance to itself is the root of zero. */
  lemma DistanceToSelf(v: Vector3, sqrt: real -> real)
    ensures Distance(v, v, sqrt) == sqrt(0.0)
  {
    DistanceSqSymmetric(v, v);
  }

  /** The left fold of squares that the unit test compares the squared
      distance against: `[d0, d1, ...].map(|d| d * d).fold(0, +)`. */
  function SumOfSquares(s: seq<real>): real
  {
    if |s| == 0 then 0.0 else SumOfSquares(s[..|s| - 1]) + s[|s| - 1] * s[|s| - 1]
  }

  /** The squared distance equals that fold over the componentwise differences. */
  lemma DistanceSqIsSumOfSquares(a: Vector3, b: Vector3)
    ensures DistanceSq(a, b) == SumOfSquares([a.x - b.x, a.y - b.y, a.z - b.z])
  {
    var d := [a.x - b.x, a.y - b.y, a.z - b.z];
    assert d[..2][..1][..0] == [];
    assert SumOfSquares(d[..2][..1]) == (a.x - b.x) * (a.x - b.x);
    assert SumOfSquares(d[..2]) == (a.x - b.x) * (a.x - b.x) + (a.y - b.y) * (a.y - b.y);
  }

  /** The unit tests' concrete values: (1,2,3) and (10,20,30). */
  lemma Examples()
    ensures New(1.0, 2.0, 3.0).Dot(New(10.0, 20.0, 30.0)) == 140.0
    ensures Dot(New(1.0, 2.0, 3.0), New(10.0, 20.0, 30.0)) == 140.0
    ensures New(1.0, 2.0, 3.0).LengthSq() == 14.0
    ensures DistanceSq(New(1.0, 2.0, 3.0), New(10.0, 20.0, 30.0)) == 1134.0
  {
  }
}
