/** Optional values: the model's stand-in for JavaScript's `undefined`/`null`. */
module Options {

  datatype Option<+T> = None | Some(value: T)
}

/** Vectors, quaternions and rigid transforms, the shared currency between
    the physics world and the render scene. Coordinates are reals: the model
    does not reproduce IEEE rounding. */
module Geometry {

  datatype Vec3 = Vec3(x: real, y: real, z: real)

  datatype Quat = Quat(x: real, y: real, z: real, w: real)

  /** A pose: position plus orientation. */
  datatype Transform = Transform(origin: Vec3, rotation: Quat)

  const ZERO: Vec3 := Vec3(0.0, 0.0, 0.0)

  /** `new THREE.Quaternion(0, 0, 0, 1)`: no rotation. */
  const IDENTITY: Quat := Quat(0.0, 0.0, 0.0, 1.0)

  function Add(a: Vec3, b: Vec3): Vec3
  {
    Vec3(a.x + b.x, a.y + b.y, a.z + b.z)
  }

  function Scale(a: Vec3, k: real): Vec3
  {
    Vec3(a.x * k, a.y * k, a.z * k)
  }

  function Dot(a: Vec3, b: Vec3): real
  {
    a.x * b.x + a.y * b.y + a.z * b.z
  }

  /** Scaling a vector scales its squared length by the square of the factor. */
  lemma ScaledLength(a: Vec3, k: real)
    ensures Dot(Scale(a, k), Scale(a, k)) == k * k * Dot(a, a)
  {
    calc {
      Dot(Scale(a, k), Scale(a, k));
      (a.x * k) * (a.x * k) + (a.y * k) * (a.y * k) + (a.z * k) * (a.z * k);
      k * k * (a.x * a.x) + k * k * (a.y * a.y) + k * k * (a.z * a.z);
      k * k * Dot(a, a);
    }
  }
}
