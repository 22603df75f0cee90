/** Engine values shared by every component: three-component vectors over the
    reals, the transform handle objects point at, and the two clamping helpers
    of the engine's math library that the game code calls. Float fields are
    modelled as `real`; square roots, trigonometry and rotations are not
    modelled here and enter the components as oracle parameters. */
module Scene {

  datatype Option<T> = None | Some(value: T)

  datatype Vec3 = Vec3(x: real, y: real, z: real)

  const Zero := Vec3(0.0, 0.0, 0.0)

  function Add(a: Vec3, b: Vec3): Vec3 {
    Vec3(a.x + b.x, a.y + b.y, a.z + b.z)
  }

  function Sub(a: Vec3, b: Vec3): Vec3 {
    Vec3(a.x - b.x, a.y - b.y, a.z - b.z)
  }

  function Scale(a: Vec3, k: real): Vec3 {
    Vec3(a.x * k, a.y * k, a.z * k)
  }

  /** `Vector3 / float`, componentwise. */
  function Div(a: Vec3, d: real): Vec3
    requires d != 0.0
  {
    Vec3(a.x / d, a.y / d, a.z / d)
  }

  /** `Vector3.Cross(Vector3.up, d)`: the horizontal vector perpendicular to `d`. */
  function CrossUp(d: Vec3): (r: Vec3)
    ensures r.y == 0.0
    ensures r.x * d.x + r.z * d.z == 0.0
  {
    Vec3(d.z, 0.0, -d.x)
  }

  /** The squared horizontal (x, z) distance between two points. */
  function HorizontalDistSq(a: Vec3, b: Vec3): real {
    (a.x - b.x) * (a.x - b.x) + (a.z - b.z) * (a.z - b.z)
  }

  /** `Mathf.Clamp01`. */
  function Clamp01(v: real): (r: real)
    ensures 0.0 <= r <= 1.0
    ensures 0.0 <= v <= 1.0 ==> r == v
    ensures v < 0.0 ==> r == 0.0
    ensures v > 1.0 ==> r == 1.0
  {
    if v < 0.0 then 0.0 else if v > 1.0 then 1.0 else v
  }

  /** `Mathf.Lerp`: the interpolation parameter is clamped into [0, 1]. */
  function Lerp(a: real, b: real, t: real): real {
    a + (b - a) * Clamp01(t)
  }

  /** `Vector3.Lerp`: componentwise, with the parameter clamped into [0, 1]. */
  function LerpVec(a: Vec3, b: Vec3, t: real): Vec3 {
    Vec3(Lerp(a.x, b.x, t), Lerp(a.y, b.y, t), Lerp(a.z, b.z, t))
  }

  /** A scene transform that other objects hold a reference to (a target,
      a parent container). Only its position matters here. */
  class Transform {
    var position: Vec3

    constructor (p: Vec3)
      ensures position == p
    {
      position := p;
    }
  }
}
