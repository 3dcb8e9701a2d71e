/** Three-component real vectors: points, normals and gradients of both services. */
module Vec {

  datatype Vec3 = Vec3(x: real, y: real, z: real)

  const Zero: Vec3 := Vec3(0.0, 0.0, 0.0)

  function Add(a: Vec3, b: Vec3): Vec3 { Vec3(a.x + b.x, a.y + b.y, a.z + b.z) }

  function Sub(a: Vec3, b: Vec3): Vec3 { Vec3(a.x - b.x, a.y - b.y, a.z - b.z) }

  /** Multiplication by a scalar, `v * s` in numpy broadcasting. */
  function Scale(v: Vec3, s: real): Vec3 { Vec3(v.x * s, v.y * s, v.z * s) }

  /** Division by a scalar, `v / s` in numpy broadcasting. */
  function Div(v: Vec3, s: real): Vec3
    requires s != 0.0
  {
    Vec3(v.x / s, v.y / s, v.z / s)
  }

  function Sq(r: real): (q: real)
    ensures q >= 0.0
  {
    r * r
  }

  /** Squared Euclidean distance: `torch.sum((a - b) ** 2, -1)`. */
  function SqDist(a: Vec3, b: Vec3): (d: real)
    ensures d >= 0.0
    ensures a == b ==> d == 0.0
  {
    Sq(a.x - b.x) + Sq(a.y - b.y) + Sq(a.z - b.z)
  }

  function Max3(a: real, b: real, c: real): (m: real)
    ensures m >= a && m >= b && m >= c
    ensures m == a || m == b || m == c
  {
    if a >= b && a >= c then a else if b >= c then b else c
  }
}
