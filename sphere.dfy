/** Spheres and their ray intersection by the quadratic formula. */
module Spheres {
  import opened MathLib
  import opened Vec3
  import opened Rays
  import Materials
  import Mat4

  /** A sphere. Its `Transform` member is held as the matrix it carries,
      since the object is copied by value. */
  datatype Sphere = Sphere(center: Vector3, radius: real, material: Materials.Material,
                           transform: Mat4.Matrix)

  /** `Sphere(center, radius, material)`: the transform is default
      constructed, that is the identity. */
  function MakeSphere(center: Vector3, radius: real, material: Materials.Material): (s: Sphere)
    ensures s.transform == Mat4.Identity
  {
    Sphere(center, radius, material, Mat4.Identity)
  }

  /** `Sphere()`: the unit sphere at the origin with the default material. */
  function DefaultSphere(): (s: Sphere)
    ensures s == MakeSphere(Zero, 1.0, Materials.NewMaterial())
    ensures s.center == Vector3(0.0, 0.0, 0.0) && s.radius == 1.0
  {
    Sphere(Vector3(0.0, 0.0, 0.0), 1.0, Materials.NewMaterial(), Mat4.Identity)
  }

  /** The coefficients of `a t^2 + b t + c = 0`, whose roots are the
      distances along the ray at which it meets the sphere. */
  datatype Quadratic = Quadratic(a: real, b: real, c: real)

  function Coefficients(s: Sphere, ray: Ray): Quadratic {
    var oc := Sub(ray.origin, s.center);
    Quadratic(Dot(ray.direction, ray.direction), 2.0 * Dot(oc, ray.direction),
              Dot(oc, oc) - s.radius * s.radius)
  }

  function Eval(q: Quadratic, t: real): real {
    q.a * t * t + q.b * t + q.c
  }

  function Discriminant(q: Quadratic): real {
    q.b * q.b - 4.0 * q.a * q.c
  }

  /** The two candidate roots `(-b -+ sqrt(discriminant)) / 2a`. */
  function NearRoot(m: Libm, q: Quadratic): real {
    Quot(-q.b - m.sqrt(Discriminant(q)), 2.0 * q.a)
  }

  function FarRoot(m: Libm, q: Quadratic): real {
    Quot(-q.b + m.sqrt(Discriminant(q)), 2.0 * q.a)
  }

  /** What `intersect` reports: no hit for a negative discriminant; otherwise
      the near root if it is positive, else the far root if it is positive,
      else no hit. */
  function Hit(m: Libm, s: Sphere, ray: Ray): (h: Option<real>)
    ensures h.Some? ==> h.value > 0.0
    ensures Discriminant(Coefficients(s, ray)) < 0.0 ==> h == None
  {
    var q := Coefficients(s, ray);
    if Discriminant(q) < 0.0 then None
    else if NearRoot(m, q) > 0.0 then Some(NearRoot(m, q))
    else if FarRoot(m, q) > 0.0 then Some(FarRoot(m, q))
    else None
  }

  /** `intersect(ray, t)`: on a hit `t` receives the chosen root; on a miss
      `t` is not written. */
  method Intersect(m: Libm, s: Sphere, ray: Ray, tIn: real) returns (hit: bool, t: real)
    ensures hit <==> Hit(m, s, ray).Some?
    ensures hit ==> t == Hit(m, s, ray).value
    ensures !hit ==> t == tIn
  {
    t := tIn;
    var oc := Sub(ray.origin, s.center);
    var a := Dot(ray.direction, ray.direction);
    var b := 2.0 * Dot(oc, ray.direction);
    var c := Dot(oc, oc) - s.radius * s.radius;
    var discriminant := b * b - 4.0 * a * c;
    ghost var q := Coefficients(s, ray);
    assert q == Quadratic(a, b, c) && discriminant == Discriminant(q);
    if discriminant < 0.0 {
      return false, t;
    }
    var temp := Quot(-b - m.sqrt(discriminant), 2.0 * a);
    assert temp == NearRoot(m, q);
    if temp > 0.0 {
      return true, temp;
    }
    temp := Quot(-b + m.sqrt(discriminant), 2.0 * a);
    if temp > 0.0 {
      return true, temp;
    }
    return false, t;
  }

  /** With `sq` a root of the discriminant, the quadratic factors through
      its two roots. */
  lemma Factor(q: Quadratic, sq: real, r: real)
    requires q.a != 0.0 && sq * sq == Discriminant(q)
    ensures Eval(q, r) == q.a * ((r - (-q.b - sq) / (2.0 * q.a)) * (r - (-q.b + sq) / (2.0 * q.a)))
  {
    var a, b, c := q.a, q.b, q.c;
    var n, f := (-b - sq) / (2.0 * a), (-b + sq) / (2.0 * a);
    assert n * (2.0 * a) == -b - sq;
    assert f * (2.0 * a) == -b + sq;
    assert a * (n + f) == -b;
    assert (n * (2.0 * a)) * (f * (2.0 * a)) == b * b - sq * sq;
    assert 4.0 * a * a * (n * f) == 4.0 * a * c;
    assert a * (n * f) == c;
    calc {
      a * ((r - n) * (r - f));
      a * r * r - a * (n + f) * r + a * (n * f);
      Eval(q, r);
    }
  }

  /** The two roots are the only solutions. */
  lemma OnlyRoots(q: Quadratic, sq: real, r: real)
    requires q.a != 0.0 && sq * sq == Discriminant(q) && Eval(q, r) == 0.0
    ensures r == (-q.b - sq) / (2.0 * q.a) || r == (-q.b + sq) / (2.0 * q.a)
  {
    var n, f := (-q.b - sq) / (2.0 * q.a), (-q.b + sq) / (2.0 * q.a);
    Factor(q, sq, r);
    TimesNonZero(r - n, r - f);
    TimesNonZero(q.a, Times(r - n, r - f));
  }

  /** A negative discriminant with `a > 0` leaves the quadratic positive
      everywhere. */
  lemma NoRealRoot(q: Quadratic, r: real)
    requires q.a > 0.0 && Discriminant(q) < 0.0
    ensures Eval(q, r) > 0.0
  {
    var s := 2.0 * q.a * r + q.b;
    assert 4.0 * q.a * Eval(q, r) == Times(s, s) - Discriminant(q);
    TimesSign(s, s);
    TimesSign(q.a, Eval(q, r));
    if Eval(q, r) <= 0.0 {
      TimesSign(q.a, -Eval(q, r));
    }
  }

  /** For `a > 0` the near root is the smaller one. */
  lemma RootsOrdered(a: real, b: real, sq: real)
    requires a > 0.0 && sq >= 0.0
    ensures (-b - sq) / (2.0 * a) <= (-b + sq) / (2.0 * a)
  {
    var n, f := (-b - sq) / (2.0 * a), (-b + sq) / (2.0 * a);
    assert (f - n) * (2.0 * a) == 2.0 * sq;
    if f < n {
      TimesSign(n - f, 2.0 * a);
    }
  }

  /** For a ray with a non-zero direction, `intersect` finds the smallest
      positive distance at which the ray meets the sphere, and reports a miss
      exactly when there is none. */
  lemma HitIsNearestPositiveRoot(m: Libm, s: Sphere, ray: Ray)
    requires SqrtLaw(m) && ray.direction != Zero
    ensures Hit(m, s, ray).Some? ==>
      var t := Hit(m, s, ray).value;
      t > 0.0 && Eval(Coefficients(s, ray), t) == 0.0
      && forall r :: r > 0.0 && Eval(Coefficients(s, ray), r) == 0.0 ==> t <= r
    ensures Hit(m, s, ray).None? ==>
      forall r :: r > 0.0 ==> Eval(Coefficients(s, ray), r) != 0.0
  {
    var q := Coefficients(s, ray);
    NormZeroIff(ray.direction);
    assert q.a == Norm(ray.direction) > 0.0;
    if Discriminant(q) < 0.0 {
      forall r | r > 0.0
        ensures Eval(q, r) != 0.0
      {
        NoRealRoot(q, r);
      }
    } else {
      var sq := m.sqrt(Discriminant(q));
      assert SqrtAt(m, Discriminant(q));
      assert sq >= 0.0 && sq * sq == Discriminant(q);
      var n, f := (-q.b - sq) / (2.0 * q.a), (-q.b + sq) / (2.0 * q.a);
      assert NearRoot(m, q) == n && FarRoot(m, q) == f;
      RootsOrdered(q.a, q.b, sq);
      Factor(q, sq, n);
      Factor(q, sq, f);
      forall r | r > 0.0 && Eval(q, r) == 0.0
        ensures r == n || r == f
      {
        OnlyRoots(q, sq, r);
      }
    }
  }

  /** `normal(point)`: the direction from the centre to the point,
      normalised; of unit length for any point other than the centre. */
  function Normal(m: Libm, s: Sphere, point: Vector3): Vector3 {
    Normalized(m, Sub(point, s.center))
  }

  lemma NormalIsUnit(m: Libm, s: Sphere, point: Vector3)
    requires SqrtLaw(m) && point != s.center
    ensures Norm(Normal(m, s, point)) == 1.0
  {
    assert Add(Sub(point, s.center), s.center) == point;
    NormalizedIsUnit(m, Sub(point, s.center));
  }
}
