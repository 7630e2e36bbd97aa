/** Value types shared by the camera model: optional values, 2D and 3D vectors,
    and the single-precision circle constants the controller uses. All scalars
    are modelled as `real`; single-precision rounding is not modelled. */
module Common {

  datatype Option<T> = None | Some(value: T) {
    /** The value, or `default` when absent (Rust's `unwrap_or`). */
    function GetOr(default: T): T {
      match this
      case Some(v) => v
      case None => default
    }
  }

  datatype Vec2 = Vec2(x: real, y: real)

  datatype Vec3 = Vec3(x: real, y: real, z: real)

  const Zero2: Vec2 := Vec2(0.0, 0.0)
  const Zero3: Vec3 := Vec3(0.0, 0.0, 0.0)

  function Add2(a: Vec2, b: Vec2): Vec2 { Vec2(a.x + b.x, a.y + b.y) }
  function Scale2(a: Vec2, k: real): Vec2 { Vec2(a.x * k, a.y * k) }

  function Add3(a: Vec3, b: Vec3): Vec3 { Vec3(a.x + b.x, a.y + b.y, a.z + b.z) }
  function Sub3(a: Vec3, b: Vec3): Vec3 { Vec3(a.x - b.x, a.y - b.y, a.z - b.z) }
  function Scale3(a: Vec3, k: real): Vec3 { Vec3(a.x * k, a.y * k, a.z * k) }
  function Neg3(a: Vec3): Vec3 { Vec3(-a.x, -a.y, -a.z) }

  lemma Scale2OverAdd(a: Vec2, b: Vec2, k: real)
    ensures Scale2(Add2(a, b), k) == Add2(Scale2(a, k), Scale2(b, k))
  {
  }

  lemma AddToZero(v: Vec2)
    ensures Add2(Zero2, v) == v
  {}

  lemma Add2Associates(a: Vec2, b: Vec2, c: Vec2)
    ensures Add2(Add2(a, b), c) == Add2(a, Add2(b, c))
  {
  }

  function Abs(x: real): real { if x < 0.0 then -x else x }

  /** `f32::signum`: positive zero has sign 1. */
  function Signum(x: real): real { if x < 0.0 then -1.0 else 1.0 }

  /** `std::f32::consts::PI` and `TAU`, written out exactly as the single-precision values. */
  const PI: real := 3.1415927410125732421875
  const TAU: real := 6.283185482025146484375
}
