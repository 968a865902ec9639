/**
 * The 3-vector helpers of the WebGL helper library: componentwise sum and
 * difference, the cross product and the dot product, on arrays of three
 * numbers.
 */
module Vectors {

  type Vec3 = v: seq<real> | |v| == 3 witness [0.0, 0.0, 0.0]

  function Add(v: Vec3, u: Vec3): Vec3
  {
    [v[0] + u[0], v[1] + u[1], v[2] + u[2]]
  }

  function Sub(v: Vec3, u: Vec3): Vec3
  {
    [v[0] - u[0], v[1] - u[1], v[2] - u[2]]
  }

  function Cross(u: Vec3, v: Vec3): Vec3
  {
    [u[1] * v[2] - u[2] * v[1],
     u[2] * v[0] - u[0] * v[2],
     u[0] * v[1] - u[1] * v[0]]
  }

  function Dot(u: Vec3, v: Vec3): real
  {
    u[0] * v[0] + u[1] * v[1] + u[2] * v[2]
  }

  /** Subtracting and then adding the same vector gives the original back, and vice versa. */
  lemma SubThenAdd(v: Vec3, u: Vec3)
    ensures Add(Sub(v, u), u) == v
    ensures Sub(Add(v, u), u) == v
  {
    assert Add(Sub(v, u), u)[0] == v[0];
    assert Sub(Add(v, u), u)[0] == v[0];
  }

  /** The cross product is orthogonal to both of its operands. */
  lemma CrossIsOrthogonal(u: Vec3, v: Vec3)
    ensures Dot(u, Cross(u, v)) == 0.0
    ensures Dot(v, Cross(u, v)) == 0.0
  {
    var c := Cross(u, v);
    assert u[0] * c[0] == u[0] * u[1] * v[2] - u[0] * u[2] * v[1];
    assert u[1] * c[1] == u[1] * u[2] * v[0] - u[1] * u[0] * v[2];
    assert u[2] * c[2] == u[2] * u[0] * v[1] - u[2] * u[1] * v[0];
    assert v[0] * c[0] == v[0] * u[1] * v[2] - v[0] * u[2] * v[1];
    assert v[1] * c[1] == v[1] * u[2] * v[0] - v[1] * u[0] * v[2];
    assert v[2] * c[2] == v[2] * u[0] * v[1] - v[2] * u[1] * v[0];
  }

  /** Swapping the operands negates the cross product. */
  lemma CrossAntiCommutes(u: Vec3, v: Vec3)
    ensures Cross(v, u) == Sub([0.0, 0.0, 0.0], Cross(u, v))
  {
  }

  /** The dot product is symmetric. */
  lemma DotCommutes(u: Vec3, v: Vec3)
    ensures Dot(u, v) == Dot(v, u)
  {
  }
}
