/** The `*` operators on vectors (src/vector/mul.rs). Rust gives each of them
    an owned and a borrowed variant; over values they are one function each. */
module VectorMul {
  import opened Vector

  /** Vector times vector: the componentwise (Hadamard) product, not the dot
      product. */
  function Mul(a: Vector3, b: Vector3): (r: Vector3)
    ensures r.x == a.x * b.x && r.y == a.y * b.y && r.z == a.z * b.z
  {
    Vector3(a.x * b.x, a.y * b.y, a.z * b.z)
  }

  /** Vector times scalar: every component scaled by the same factor. */
  function MulScalar(v: Vector3, s: real): (r: Vector3)
    ensures r.x == v.x * s && r.y == v.y * s && r.z == v.z * s
  {
    Vector3(v.x * s, v.y * s, v.z * s)
  }

  /** Scalar times vector: the same vector as scaling from the right. */
  function ScalarMul(s: real, v: Vector3): (r: Vector3)
    ensures r == MulScalar(v, s)
  {
    Vector3(s * v.x, s * v.y, s * v.z)
  }

  /** The componentwise product is commutative. */
  lemma MulCommutative(a: Vector3, b: Vector3)
    ensures Mul(a, b) == Mul(b, a)
  {
  }

  /** The unit tests' concrete values: (1,2,3) times (10,20,30), and (1,2,3)
      scaled by 10 from either side. */
  lemma Examples()
    ensures Mul(New(1.0, 2.0, 3.0), New(10.0, 20.0, 30.0)) == New(10.0, 40.0, 90.0)
    ensures MulScalar(New(1.0, 2.0, 3.0), 10.0) == New(10.0, 20.0, 30.0)
    ensures ScalarMul(10.0, New(1.0, 2.0, 3.0)) == New(10.0, 20.0, 30.0)
  {
  }
}
