/** A ray: an origin and a direction that the constructor normalises. */
module Rays {
  import opened MathLib
  import opened Vec3

  datatype Ray = Ray(origin: Vector3, direction: Vector3)

  /** `Ray(origin, direction)`: the origin is kept as given and the direction
      is replaced by `direction.normalized()`. */
  function MakeRay(m: Libm, origin: Vector3, direction: Vector3): (r: Ray)
    ensures r.origin == origin
    ensures r.direction == Scale(direction, Quot(1.0, Length(m, direction)))
  {
    Ray(origin, Normalized(m, direction))
  }

  /** `point_at(t)`: the point reached after travelling `t` along the
      direction, so that subtracting the origin leaves `direction * t`. */
  function PointAt(ray: Ray, t: real): (p: Vector3)
    ensures Sub(p, ray.origin) == Scale(ray.direction, t)
    ensures t == 0.0 ==> p == ray.origin
  {
    Add(ray.origin, Scale(ray.direction, t))
  }

  /** A ray built from a non-zero direction has a unit direction, and one
      built from the zero vector keeps the zero vector (the model's reading of
      the IEEE division by a zero length). */
  lemma MakeRayDirectionIsUnit(m: Libm, origin: Vector3, direction: Vector3)
    requires SqrtLaw(m)
    ensures direction != Zero ==> Norm(MakeRay(m, origin, direction).direction) == 1.0
    ensures direction == Zero ==> MakeRay(m, origin, direction).direction == Zero
  {
    if direction != Zero {
      NormalizedIsUnit(m, direction);
    }
  }
}
