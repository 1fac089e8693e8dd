/**
 * The engine values and objects the game scripts read and write: vectors,
 * rotations, axis-aligned bounds, transforms and game objects.  Positions are
 * exact reals; the engine's single-precision floats are not modelled.
 */
module Scene {

  datatype Option<T> = None | Some(value: T)

  datatype Vec3 = Vec3(x: real, y: real, z: real)

  /** A rotation as the engine's quaternion (x, y, z, w). */
  datatype Quat = Quat(x: real, y: real, z: real, w: real)

  function Add(p: Vec3, q: Vec3): Vec3 {
    Vec3(p.x + q.x, p.y + q.y, p.z + q.z)
  }

  function Sub(p: Vec3, q: Vec3): Vec3 {
    Vec3(p.x - q.x, p.y - q.y, p.z - q.z)
  }

  function Scale(p: Vec3, k: real): Vec3 {
    Vec3(p.x * k, p.y * k, p.z * k)
  }

  function SqrDistance(p: Vec3, q: Vec3): (d: real)
    ensures d >= 0.0
  {
    var v := Sub(p, q);
    assert v.x * v.x >= 0.0 && v.y * v.y >= 0.0 && v.z * v.z >= 0.0;
    v.x * v.x + v.y * v.y + v.z * v.z
  }

  /**
   * `Distance(p, q) < r`, decided without a square root: for a non-negative
   * distance d, d < r holds exactly when r > 0 and d * d < r * r.
   */
  predicate CloserThan(p: Vec3, q: Vec3, r: real) {
    r > 0.0 && SqrDistance(p, q) < r * r
  }

  /** `Distance(p, q) <= r`, decided the same way. */
  predicate WithinRange(p: Vec3, q: Vec3, r: real) {
    r >= 0.0 && SqrDistance(p, q) <= r * r
  }

  /** The engine's `rotation * Vector3.forward` for a unit quaternion. */
  function Forward(q: Quat): Vec3 {
    Vec3(2.0 * (q.x * q.z + q.w * q.y),
         2.0 * (q.y * q.z - q.w * q.x),
         1.0 - 2.0 * (q.x * q.x + q.y * q.y))
  }

  /** The engine's `rotation * Vector3.up` for a unit quaternion. */
  function Up(q: Quat): Vec3 {
    Vec3(2.0 * (q.x * q.y - q.w * q.z),
         1.0 - 2.0 * (q.x * q.x + q.z * q.z),
         2.0 * (q.y * q.z + q.w * q.x))
  }

  const Identity := Quat(0.0, 0.0, 0.0, 1.0)

  /** World-space axis-aligned bounds, as the engine reports a collider's `bounds`. */
  datatype Bounds = Bounds(min: Vec3, max: Vec3) {
    ghost predicate Valid() {
      min.x <= max.x && min.y <= max.y && min.z <= max.z
    }
  }

  /** A point of the plane whose x and z lie inside the bounds. */
  ghost predicate InsideXZ(b: Bounds, p: Vec3) {
    b.min.x <= p.x <= b.max.x && b.min.z <= p.z <= b.max.z
  }

  lemma MulNonNegative(a: real, b: real)
    requires a >= 0.0 && b >= 0.0
    ensures a * b >= 0.0
  {
  }

  /** `Random.Range(lo, hi)` for floats, given the engine's draw `u` in [0, 1]. */
  function Lerp(lo: real, hi: real, u: real): (r: real)
    requires lo <= hi && 0.0 <= u <= 1.0
    ensures lo <= r <= hi
  {
    MulNonNegative(1.0 - u, hi - lo);
    MulNonNegative(u, hi - lo);
    lo + u * (hi - lo)
  }

  /** A scene transform: world position and rotation. */
  class Transform {
    var position: Vec3
    var rotation: Quat

    constructor (position: Vec3, rotation: Quat)
      ensures this.position == position && this.rotation == rotation
    {
      this.position := position;
      this.rotation := rotation;
    }
  }

  /** A game object: its name, its active flag and its transform. */
  class GameObject {
    const name: string
    var activeSelf: bool
    const transform: Transform

    constructor (name: string, activeSelf: bool, transform: Transform)
      ensures this.name == name && this.activeSelf == activeSelf && this.transform == transform
    {
      this.name := name;
      this.activeSelf := activeSelf;
      this.transform := transform;
    }
  }
}
