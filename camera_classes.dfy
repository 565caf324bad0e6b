/** The camera of `classes/Camera.h`: a pinhole camera looking from
    `position` towards `lookAt`, or, when `isTransform` is set, a camera
    whose rays are given by its `transform` matrix alone.

    The pieces shared with the later camera of `build/classes/Camera.h`
    (the viewing frame, the half extents of the screen, the camera-space
    direction and the homogeneous transforms) are defined here once. */
module CameraClasses {
  import opened MathLib
  import opened Vec3
  import Vec4
  import Mat4
  import opened Rays

  /** The orthonormal frame of a camera: the viewing direction, the right
      vector `forward x up` and the corrected up vector `right x forward`,
      each normalised. */
  datatype Frame = Frame(forward: Vector3, right: Vector3, up: Vector3)

  function ViewFrame(m: Libm, position: Vector3, lookAt: Vector3, up: Vector3): Frame {
    var forward := Forward(m, position, lookAt);
    var right := Normalized(m, Cross(forward, up));
    Frame(forward, right, Normalized(m, Cross(right, forward)))
  }

  /** The three vectors of the frame are pairwise orthogonal, whatever `up`
      is: `right` is built across `forward`, and the new up across both. */
  lemma FrameOrthogonal(m: Libm, position: Vector3, lookAt: Vector3, up: Vector3)
    ensures var f := ViewFrame(m, position, lookAt, up);
      Dot(f.right, f.forward) == 0.0 && Dot(f.up, f.forward) == 0.0 && Dot(f.up, f.right) == 0.0
  {
    var forward := Forward(m, position, lookAt);
    var c1 := Cross(forward, up);
    var right := Normalized(m, c1);
    var c2 := Cross(right, forward);
    CrossOrthogonal(forward, up);
    CrossOrthogonal(right, forward);
    DotOfScaled(c1, Quot(1.0, Length(m, c1)), forward);
    DotOfScaled(c2, Quot(1.0, Length(m, c2)), forward);
    DotOfScaled(c2, Quot(1.0, Length(m, c2)), right);
  }

  /** A vector orthogonal to `b` stays orthogonal to it once scaled. */
  lemma DotOfScaled(a: Vector3, k: real, b: Vector3)
    requires Dot(a, b) == 0.0 || Dot(b, a) == 0.0
    ensures Dot(Scale(a, k), b) == 0.0
  {
    assert Dot(Scale(a, k), b) == k * Dot(a, b);
  }

  /** The viewing direction: from `position` towards `lookAt`, normalised. */
  function Forward(m: Libm, position: Vector3, lookAt: Vector3): Vector3 {
    Normalized(m, Sub(lookAt, position))
  }

  /** `tan(fov / divisor)`: the source divides by 1 in some branches and by
      2 in others. */
  function HalfWidth(m: Libm, fov: real, divisor: real): real
    requires divisor != 0.0
  {
    m.tan(fov / divisor)
  }

  /** `halfWidth * (imgHeight / imgWidth)`: the screen keeps the image's
      aspect ratio. */
  function HalfHeight(halfWidth: real, imgWidth: int, imgHeight: int): (hh: real)
    ensures imgWidth != 0 ==> hh * imgWidth as real == halfWidth * imgHeight as real
  {
    halfWidth * Quot(imgHeight as real, imgWidth as real)
  }

  /** The pinhole direction through screen point `(u, v)`: the forward
      vector moved along `right` and `up` by offsets measured from the
      screen point `(centre, centre)`, then normalised. */
  function ScreenDirection(m: Libm, f: Frame, halfWidth: real, halfHeight: real,
                           u: real, v: real, centre: real): Vector3
  {
    Normalized(m, Add(Add(f.forward, Scale(f.right, 2.0 * halfWidth * (u - centre))),
                      Scale(f.up, 2.0 * halfHeight * (v - centre))))
  }

  /** At the screen point `(centre, centre)` both offsets vanish and the
      ray goes straight along the viewing direction. */
  lemma ScreenCentre(m: Libm, f: Frame, halfWidth: real, halfHeight: real, centre: real)
    ensures ScreenDirection(m, f, halfWidth, halfHeight, centre, centre, centre) == Normalized(m, f.forward)
  {
    assert 2.0 * halfWidth * (centre - centre) == 0.0;
    assert 2.0 * halfHeight * (centre - centre) == 0.0;
  }

  /** The camera-space direction through `(u, v)`, on the plane `z = -1`
      around the screen centre `(0.5, 0.5)`. */
  function CameraSpaceDirection(m: Libm, halfWidth: real, halfHeight: real, u: real, v: real): Vector3 {
    Normalized(m, Vector3(2.0 * halfWidth * (u - 0.5), 2.0 * halfHeight * (v - 0.5), -1.0))
  }

  /** The camera-space origin `(0, 0, 0)` taken as a point (`w = 1`): the
      result is the translation column of the matrix. */
  function WorldOrigin(t: Mat4.Matrix): (o: Vector3)
    ensures o == Vector3(t[0][3], t[1][3], t[2][3])
  {
    Vec4.Xyz(Mat4.Apply(t, Vec4.Extend(Vector3(0.0, 0.0, 0.0), 1.0)))
  }

  /** A camera-space direction taken as a direction (`w = 0`): only the
      upper-left 3x3 block acts on it. */
  function WorldDirection(t: Mat4.Matrix, d: Vector3): (r: Vector3)
    ensures r == Mat4.ApplyLinear(t, d)
  {
    Vec4.Xyz(Mat4.Apply(t, Vec4.Extend(d, 0.0)))
  }

  /** Two matrices with the same upper-left 3x3 block send every direction
      to the same place: the translation column never moves a direction. */
  lemma DirectionIgnoresTranslation(t: Mat4.Matrix, t': Mat4.Matrix, d: Vector3)
    requires forall i, j :: 0 <= i < 3 && 0 <= j < 3 ==> t[i][j] == t'[i][j]
    ensures WorldDirection(t, d) == WorldDirection(t', d)
  {
    assert t[0][0] == t'[0][0] && t[0][1] == t'[0][1] && t[0][2] == t'[0][2];
    assert t[1][0] == t'[1][0] && t[1][1] == t'[1][1] && t[1][2] == t'[1][2];
    assert t[2][0] == t'[2][0] && t[2][1] == t'[2][1] && t[2][2] == t'[2][2];
  }

  /** The ray of the transform branch: the camera-space origin and
      direction carried to world space by `t`. */
  function TransformedRay(m: Libm, t: Mat4.Matrix, cameraDirection: Vector3): (r: Ray)
    ensures r.origin == WorldOrigin(t)
  {
    MakeRay(m, WorldOrigin(t), Normalized(m, WorldDirection(t, cameraDirection)))
  }

  /** The camera's fields. The source's `transform` member is always
      default-constructed (the identity); callers may assign it. */
  datatype Camera = Camera(position: Vector3, lookAt: Vector3, up: Vector3, fov: real,
                           imgWidth: int, imgHeight: int, maxBounce: int,
                           transform: Mat4.Matrix, isTransform: bool)

  /** `Camera()`: at the origin, looking along `+z` with `+y` up, a field of
      view of 60, a 640x480 image, 5 bounces and no transform. */
  const Default := Camera(Vector3(0.0, 0.0, 0.0), Vector3(0.0, 0.0, 1.0), Vector3(0.0, 1.0, 0.0),
                          60.0, 640, 480, 5, Mat4.Identity, false)

  /** `Camera(position, lookAt, up, fov, imgWidth, imgHeight, maxBounce,
      isTransform)`: the arguments are stored, the transform is the identity. */
  function MakeCamera(position: Vector3, lookAt: Vector3, up: Vector3, fov: real,
                      imgWidth: int, imgHeight: int, maxBounce: int, isTransform: bool): Camera
  {
    Camera(position, lookAt, up, fov, imgWidth, imgHeight, maxBounce, Mat4.Identity, isTransform)
  }

  /** The default camera looks straight along `+z`. */
  lemma DefaultLooksAlongZ(m: Libm)
    requires SqrtLaw(m)
    ensures Forward(m, Default.position, Default.lookAt) == Vector3(0.0, 0.0, 1.0)
  {
    assert Default.lookAt == Vector3(0.0, 0.0, 1.0) && Default.position == Zero;
    LookingAlongZ(m);
  }

  lemma LookingAlongZ(m: Libm)
    requires SqrtLaw(m)
    ensures Forward(m, Zero, Vector3(0.0, 0.0, 1.0)) == Vector3(0.0, 0.0, 1.0)
  {
    var z := Vector3(0.0, 0.0, 1.0);
    assert SqrtAt(m, 1.0);
    calc {
      Forward(m, Zero, z);
      Normalized(m, Sub(z, Zero));
      { SubZero(z); }
      Normalized(m, z);
      { UnitZ(); UnitIsNormalized(m, z); }
      z;
    }
  }

  lemma UnitZ()
    ensures Norm(Vector3(0.0, 0.0, 1.0)) == 1.0
  {
  }

  lemma SubZero(v: Vector3)
    ensures Sub(v, Zero) == v
  {
  }

  /** `sqrt(1) == 1`, so a vector of squared length 1 is its own
      normalisation. */
  lemma UnitIsNormalized(m: Libm, v: Vector3)
    requires SqrtAt(m, 1.0) && Norm(v) == 1.0
    ensures Normalized(m, v) == v
  {
    SquareRootUnique(Length(m, v), 1.0);
  }

  /** `generateRay(u, v)`. With a transform, the ray leaves the matrix's
      translation column in the transformed camera-space direction (screen
      offsets from 0.5); without one, it leaves `position` through the
      pinhole screen, with offsets from 0.4. Both use `tan(fov / 1)`. */
  function GenerateRay(m: Libm, cam: Camera, u: real, v: real): (r: Ray)
    ensures cam.isTransform ==> r.origin == Vector3(cam.transform[0][3], cam.transform[1][3], cam.transform[2][3])
    ensures !cam.isTransform ==> r.origin == cam.position
  {
    var halfWidth := HalfWidth(m, cam.fov, 1.0);
    var halfHeight := HalfHeight(halfWidth, cam.imgWidth, cam.imgHeight);
    if cam.isTransform then
      TransformedRay(m, cam.transform, CameraSpaceDirection(m, halfWidth, halfHeight, u, v))
    else
      var f := ViewFrame(m, cam.position, cam.lookAt, cam.up);
      MakeRay(m, cam.position, ScreenDirection(m, f, halfWidth, halfHeight, u, v, 0.4))
  }

  /** The pinhole ray through `(0.4, 0.4)` runs along the viewing direction:
      that screen point, not `(0.5, 0.5)`, is the centre of this version. */
  lemma PinholeCentre(m: Libm, cam: Camera)
    requires !cam.isTransform
    ensures GenerateRay(m, cam, 0.4, 0.4)
         == MakeRay(m, cam.position, Normalized(m, Forward(m, cam.position, cam.lookAt)))
  {
    var halfWidth := HalfWidth(m, cam.fov, 1.0);
    ScreenCentre(m, ViewFrame(m, cam.position, cam.lookAt, cam.up), halfWidth,
                 HalfHeight(halfWidth, cam.imgWidth, cam.imgHeight), 0.4);
  }

  /** With a transform, the ray depends on neither `position`, `lookAt` nor
      `up`: the translation and rotation the source builds from them are
      never used. */
  lemma TransformIgnoresPose(m: Libm, cam: Camera, position: Vector3, lookAt: Vector3, up: Vector3, u: real, v: real)
    requires cam.isTransform
    ensures GenerateRay(m, cam.(position := position, lookAt := lookAt, up := up), u, v) == GenerateRay(m, cam, u, v)
  {
  }
}
