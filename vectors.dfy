/** Vectors and frames standing in for Unity's Vector3 and the surface-to-world
    rotation. Components are exact reals; the floating point of the host is not
    modelled. */
module Vectors {

  datatype Option<T> = None | Some(value: T)

  /** A 3-vector. In map space x points east/west and z north/south; y is up. */
  datatype Vec3 = Vec3(x: real, y: real, z: real)

  const Zero: Vec3 := Vec3(0.0, 0.0, 0.0)

  function Add(a: Vec3, b: Vec3): Vec3 {
    Vec3(a.x + b.x, a.y + b.y, a.z + b.z)
  }

  function Neg(a: Vec3): Vec3 {
    Vec3(-a.x, -a.y, -a.z)
  }

  function Scale(k: real, a: Vec3): Vec3 {
    Vec3(k * a.x, k * a.y, k * a.z)
  }

  /** The orientation of the planet surface under the vessel, in world space.
      The host keeps it as a quaternion; here it is the linear map given by the
      images of the three unit axes, which is all the wind computation uses. */
  datatype Frame = Frame(ex: Vec3, ey: Vec3, ez: Vec3)

  /** Applies the surface-to-world orientation to a map-space vector. */
  function Rotate(f: Frame, v: Vec3): (r: Vec3)
    ensures v == Zero ==> r == Zero
  {
    Add(Add(Scale(v.x, f.ex), Scale(v.y, f.ey)), Scale(v.z, f.ez))
  }

  /** Rotating the opposite vector gives the opposite world vector. */
  lemma RotateNeg(f: Frame, v: Vec3)
    ensures Rotate(f, Neg(v)) == Neg(Rotate(f, v))
  {
  }

  /** Rotation distributes over vector sums. */
  lemma RotateAdd(f: Frame, a: Vec3, b: Vec3)
    ensures Rotate(f, Add(a, b)) == Add(Rotate(f, a), Rotate(f, b))
  {
  }
}
