/** The camera of `build/classes/Camera.h`: the earlier camera plus a thin
    lens. With `dof` set, the ray starts from a point of a lens of radius
    `aperture` and aims at the point the pinhole ray reaches at
    `focusDistance`.

    The two uniform draws `r1` and `r2` in `[0, 1)` that the source takes
    from `drand48()` are parameters. */
module CameraBuild {
  import opened MathLib
  import opened Vec3
  import Mat4
  import opened Rays
  import CC = CameraClasses

  datatype Camera = Camera(position: Vector3, lookAt: Vector3, up: Vector3, fov: real,
                           aperture: real, focusDistance: real,
                           imgWidth: int, imgHeight: int, maxBounce: int,
                           transform: Mat4.Matrix, isTransform: bool, dof: bool)

  /** `Camera()`: the defaults of the earlier camera, aperture 0, focus
      distance 1 and no depth of field. */
  const Default := Camera(Vector3(0.0, 0.0, 0.0), Vector3(0.0, 0.0, 1.0), Vector3(0.0, 1.0, 0.0),
                          60.0, 0.0, 1.0, 640, 480, 5, Mat4.Identity, false, false)

  /** The constructor with parameters stores them; the transform is the
      identity. */
  function MakeCamera(position: Vector3, lookAt: Vector3, up: Vector3, fov: real,
                      aperture: real, focusDistance: real, imgWidth: int, imgHeight: int,
                      maxBounce: int, isTransform: bool, dof: bool): Camera
  {
    Camera(position, lookAt, up, fov, aperture, focusDistance, imgWidth, imgHeight, maxBounce,
           Mat4.Identity, isTransform, dof)
  }

  /** The lens sample `(a sqrt(r1) cos(2 pi r2), a sqrt(r1) sin(2 pi r2), 0)`
      with `a = aperture / 1`. */
  function LensPosition(m: Libm, aperture: real, r1: real, r2: real): (p: Vector3)
    ensures p.z == 0.0
    ensures aperture == 0.0 ==> p == Zero
  {
    var lensRadius := aperture / 1.0;
    Vector3(lensRadius * m.sqrt(r1) * m.cos(2.0 * Pi * r2), lensRadius * m.sqrt(r1) * m.sin(2.0 * Pi * r2), 0.0)
  }

  /** `sin^2 + cos^2 = 1` at one angle. */
  predicate PythagoreanAt(m: Libm, angle: real) {
    m.sin(angle) * m.sin(angle) + m.cos(angle) * m.cos(angle) == 1.0
  }

  /** The lens sample lies on the circle of radius `aperture * sqrt(r1)`: a
      uniform `r1` spreads samples evenly over the disc of radius
      `aperture`. */
  lemma LensOnCircle(m: Libm, aperture: real, r1: real, r2: real)
    requires SqrtAt(m, r1) && PythagoreanAt(m, 2.0 * Pi * r2)
    ensures var p := LensPosition(m, aperture, r1, r2);
      p.x * p.x + p.y * p.y == aperture * aperture * r1
  {
    var a, s := aperture, m.sqrt(r1);
    var c, n := m.cos(2.0 * Pi * r2), m.sin(2.0 * Pi * r2);
    var p := LensPosition(m, aperture, r1, r2);
    assert p.x == a * s * c && p.y == a * s * n;
    calc {
      p.x * p.x + p.y * p.y;
      (a * s * c) * (a * s * c) + (a * s * n) * (a * s * n);
      (a * a) * (s * s) * (c * c + n * n);
      { assert c * c + n * n == 1.0 && s * s == r1; }
      a * a * r1;
    }
  }

  /** The thin-lens ray: it starts `lens * focusDistance` away from the
      pinhole origin and heads for the pinhole ray's point at
      `focusDistance`, `target - offset` normalised. */
  function ThinLensRay(m: Libm, origin: Vector3, direction: Vector3, lens: Vector3, focusDistance: real): (r: Ray)
    ensures r.origin == Add(origin, Scale(lens, focusDistance))
  {
    var offset := Scale(lens, focusDistance);
    var target := Scale(direction, focusDistance);
    MakeRay(m, Add(origin, offset), Normalized(m, Sub(target, offset)))
  }

  /** Every thin-lens ray passes through the focal point: the point the
      pinhole ray `origin + direction * s` reaches at `s = focusDistance`.
      It lies on the lens ray at the non-negative distance
      `|target - offset|`, whatever lens sample was drawn. */
  lemma FocalPointOnRay(m: Libm, origin: Vector3, direction: Vector3, lens: Vector3, focusDistance: real)
    requires SqrtLaw(m)
    ensures exists s :: s >= 0.0 && PointAt(ThinLensRay(m, origin, direction, lens, focusDistance), s)
                                  == Add(origin, Scale(direction, focusDistance))
  {
    var r := ThinLensRay(m, origin, direction, lens, focusDistance);
    var offset := Scale(lens, focusDistance);
    var target := Scale(direction, focusDistance);
    var w := Sub(target, offset);
    NormalizedIdempotent(m, w);
    assert r.direction == Normalized(m, w);
    if w == Zero {
      assert target == offset;
      assert PointAt(r, 0.0) == Add(origin, target);
    } else {
      var l := Length(m, w);
      LengthSquaredIsNorm(m, w);
      NormZeroIff(w);
      assert l > 0.0;
      var q := Quot(1.0, l);
      assert q * l == 1.0;
      assert (w.x * q) * l == w.x * (q * l);
      assert (w.y * q) * l == w.y * (q * l);
      assert (w.z * q) * l == w.z * (q * l);
      assert Scale(r.direction, l) == w;
      assert PointAt(r, l) == Add(origin, target);
    }
  }

  /** `generateRay(u, v)` with the draws `r1`, `r2` the lens branch uses.
      The lens branches take `tan(fov / 2)`, the others `tan(fov / 1)`; all
      four offset the screen point from `(0.5, 0.5)`. In the lens branch
      with a transform, the world direction is scaled by the focus distance
      before it is normalised. */
  function GenerateRay(m: Libm, cam: Camera, u: real, v: real, r1: real, r2: real): (r: Ray)
    ensures !cam.dof && cam.isTransform ==> r.origin == CC.WorldOrigin(cam.transform)
    ensures !cam.dof && !cam.isTransform ==> r.origin == cam.position
    ensures cam.dof ==> r.origin == Add(if cam.isTransform then CC.WorldOrigin(cam.transform) else cam.position,
                                       Scale(LensPosition(m, cam.aperture, r1, r2), cam.focusDistance))
  {
    var divisor := if cam.dof then 2.0 else 1.0;
    var halfWidth := CC.HalfWidth(m, cam.fov, divisor);
    var halfHeight := CC.HalfHeight(halfWidth, cam.imgWidth, cam.imgHeight);
    if cam.dof then
      var lens := LensPosition(m, cam.aperture, r1, r2);
      if cam.isTransform then
        var cameraDirection := CC.CameraSpaceDirection(m, halfWidth, halfHeight, u, v);
        ThinLensRay(m, CC.WorldOrigin(cam.transform), CC.WorldDirection(cam.transform, cameraDirection),
                    lens, cam.focusDistance)
      else
        var f := CC.ViewFrame(m, cam.position, cam.lookAt, cam.up);
        ThinLensRay(m, cam.position, CC.ScreenDirection(m, f, halfWidth, halfHeight, u, v, 0.5),
                    lens, cam.focusDistance)
    else if cam.isTransform then
      CC.TransformedRay(m, cam.transform, CC.CameraSpaceDirection(m, halfWidth, halfHeight, u, v))
    else
      var f := CC.ViewFrame(m, cam.position, cam.lookAt, cam.up);
      MakeRay(m, cam.position, CC.ScreenDirection(m, f, halfWidth, halfHeight, u, v, 0.5))
  }

  /** A closed aperture makes the lens a point: the ray starts where the
      ray without depth of field starts, whatever the draws. */
  lemma ClosedApertureOrigin(m: Libm, cam: Camera, u: real, v: real, r1: real, r2: real)
    requires cam.aperture == 0.0
    ensures GenerateRay(m, cam, u, v, r1, r2).origin == GenerateRay(m, cam.(dof := false), u, v, r1, r2).origin
  {
    var lens := LensPosition(m, cam.aperture, r1, r2);
    assert Scale(lens, cam.focusDistance) == Zero;
    var base := if cam.isTransform then CC.WorldOrigin(cam.transform) else cam.position;
    assert Add(base, Zero) == base;
  }

  /** The pinhole ray through the screen centre `(0.5, 0.5)` runs along the
      viewing direction (in the earlier camera it was `(0.4, 0.4)`). */
  lemma PinholeCentre(m: Libm, cam: Camera, r1: real, r2: real)
    requires !cam.dof && !cam.isTransform
    ensures GenerateRay(m, cam, 0.5, 0.5, r1, r2)
         == MakeRay(m, cam.position, Normalized(m, CC.Forward(m, cam.position, cam.lookAt)))
  {
    var halfWidth := CC.HalfWidth(m, cam.fov, 1.0);
    CC.ScreenCentre(m, CC.ViewFrame(m, cam.position, cam.lookAt, cam.up), halfWidth,
                    CC.HalfHeight(halfWidth, cam.imgWidth, cam.imgHeight), 0.5);
  }

  /** With a closed aperture and a positive focus distance, the lens branch
      is the branch without depth of field at half the field of view: the
      lens shrinks to a point, `target - offset` is the screen direction
      scaled by the focus distance, and only the `tan(fov / 2)` of the lens
      branch against the `tan(fov / 1)` of the others remains. */
  lemma ClosedLensHalvesFov(m: Libm, cam: Camera, u: real, v: real, r1: real, r2: real)
    requires SqrtLaw(m)
    requires cam.dof && cam.aperture == 0.0 && cam.focusDistance > 0.0
    ensures GenerateRay(m, cam, u, v, r1, r2) == GenerateRay(m, cam.(dof := false, fov := cam.fov / 2.0), u, v, r1, r2)
  {
    var closed := cam.(dof := false, fov := cam.fov / 2.0);
    assert closed.fov / 1.0 == cam.fov / 2.0;
    var halfWidth := CC.HalfWidth(m, cam.fov, 2.0);
    assert CC.HalfWidth(m, closed.fov, 1.0) == halfWidth;
    var halfHeight := CC.HalfHeight(halfWidth, cam.imgWidth, cam.imgHeight);
    var lens := LensPosition(m, cam.aperture, r1, r2);
    var fd := cam.focusDistance;
    assert lens == Zero;
    ScaleZero(fd);
    var base, d;
    if cam.isTransform {
      base, d := CC.WorldOrigin(cam.transform),
                 CC.WorldDirection(cam.transform, CC.CameraSpaceDirection(m, halfWidth, halfHeight, u, v));
      assert GenerateRay(m, closed, u, v, r1, r2) == MakeRay(m, base, Normalized(m, d));
      NormalizedIdempotent(m, d);
    } else {
      base, d := cam.position,
                 CC.ScreenDirection(m, CC.ViewFrame(m, cam.position, cam.lookAt, cam.up), halfWidth, halfHeight, u, v, 0.5);
      assert GenerateRay(m, closed, u, v, r1, r2) == MakeRay(m, base, d);
    }
    assert GenerateRay(m, cam, u, v, r1, r2) == ThinLensRay(m, base, d, lens, fd);
    assert Add(base, Zero) == base;
    assert Sub(Scale(d, fd), Zero) == Scale(d, fd);
    NormalizedScaled(m, d, fd);
    NormalizedIdempotent(m, Scale(d, fd));
  }
}
