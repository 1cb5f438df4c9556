/** Velocities and displacements in the plane (src/vector.rs).
    The source's f64 components are modelled as reals. */
module Vectors {

  /** A displacement or a velocity; it has no position of its own. */
  datatype Vector = Vector(x: real, y: real)

  /** `Vector::zero()`. */
  function Zero(): (z: Vector)
    ensures z.x == 0.0 && z.y == 0.0
  {
    Vector(0.0, 0.0)
  }

  /** `Vector * f64`: both components multiplied by the scalar.  The operator
      is used by the drag force but is not defined in the files modelled;
      this is the reading chosen for it. */
  function Scale(v: Vector, s: real): (r: Vector)
    ensures s == 1.0 ==> r == v
    ensures s == 0.0 ==> r == Zero()
  {
    Vector(v.x * s, v.y * s)
  }

  /** Scaling twice is scaling once by the product. */
  lemma ScaleTwice(v: Vector, a: real, b: real)
    ensures Scale(Scale(v, a), b) == Scale(v, a * b)
  {
    assert v.x * a * b == v.x * (a * b);
    assert v.y * a * b == v.y * (a * b);
  }

  /** Absolute value, used to state that a velocity component does not grow. */
  function Abs(r: real): real {
    if r < 0.0 then -r else r
  }
}
