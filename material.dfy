/** Surface materials: Phong coefficients, reflectance, transmittance, an
    index of refraction and an optional texture, plus the spherical texture
    mapping with its `t^2 (3.4 - 2.4 t)` remap. */
module Materials {
  import opened MathLib
  import opened Vec3
  import Vec2
  import TC = TextureClasses
  import TB = TextureBuild

  /** A material. The texture pointer of the source is an optional texture
      value: after construction the texture object is never changed, so
      copies of a material that share the pointer see the same value. */
  datatype Material = Material(
    color: Vector3,
    ka: real,
    kd: real,
    ks: real,
    exponent: real,
    reflectance: real,
    transmittance: real,
    refractionIndex: real,
    texture: Option<TB.TextureState>)

  /** `interpolate(t) = t^2 (3.4 - 2.4 t)`: fixes 0 and 1 and sends 0.5 to 0.55. */
  function Interpolate(t: real): (r: real)
    ensures t == 0.0 ==> r == 0.0
    ensures t == 1.0 ==> r == 1.0
    ensures t == 0.5 ==> r == 0.55
  {
    t * t * (3.4 - 2.4 * t)
  }

  /** On `[0, 1]` the remap is never negative, but unlike a smoothstep it is
      not bounded by 1: it overshoots just below 1 (at 0.9 it gives about
      1.0044). */
  lemma InterpolateOnUnitInterval(t: real)
    ensures 0.0 <= t <= 1.0 ==> Interpolate(t) >= 0.0
    ensures Interpolate(0.9) > 1.0
  {
    SquareSign(t);
    assert Interpolate(t) == Times(Times(t, t), 3.4 - 2.4 * t);
    TimesSign(Times(t, t), 3.4 - 2.4 * t);
  }

  /** The first constructor; every argument has the source's default, so
      `NewMaterial()` is the default material. */
  function NewMaterial(color: Vector3 := Vector3(1.0, 1.0, 1.0), ka: real := 0.3, kd: real := 0.9,
                       ks: real := 1.0, exponent: real := 200.0, reflectance: real := 0.8,
                       transmittance: real := 0.0, refractionIndex: real := 2.3,
                       texture: Option<TB.TextureState> := None): Material
  {
    Material(color, ka, kd, ks, exponent, reflectance, transmittance, refractionIndex, texture)
  }

  /** The default material: white, ka 0.3, kd 0.9, ks 1, exponent 200,
      reflectance 0.8, no transmittance, index 2.3 and no texture. */
  lemma DefaultMaterial()
    ensures NewMaterial() == Material(Vector3(1.0, 1.0, 1.0), 0.3, 0.9, 1.0, 200.0, 0.8, 0.0, 2.3, None)
  {
  }

  /** The textured constructor `Material(textureName, ...)`: the colour is
      white, and a texture is created, from the file the name refers to,
      exactly when the name is not empty. `decoded` is what the image
      decoder returns for that file; a texture whose file did not decode is
      still attached, but is not valid. */
  function TexturedMaterial(textureName: string, decoded: Option<TC.Image>,
                            ka: real := 0.3, kd: real := 0.9, ks: real := 1.0,
                            exponent: real := 200.0, reflectance: real := 0.8,
                            transmittance: real := 0.0, refractionIndex: real := 2.3): (mat: Material)
    requires decoded.Some? ==> TC.Decoded(decoded.value)
    ensures mat.color == Vector3(1.0, 1.0, 1.0)
    ensures mat.texture.Some? <==> |textureName| > 0
    ensures mat.texture.Some? ==> mat.texture.value == TB.Loaded(textureName, decoded)
    ensures mat.texture.Some? ==> (TB.IsValid(mat.texture.value) <==> decoded.Some?)
    ensures mat == NewMaterial(Vector3(1.0, 1.0, 1.0), ka, kd, ks, exponent, reflectance,
                               transmittance, refractionIndex, mat.texture)
  {
    var texture := if |textureName| > 0 then Some(TB.Loaded(textureName, decoded)) else None;
    Material(Vector3(1.0, 1.0, 1.0), ka, kd, ks, exponent, reflectance, transmittance, refractionIndex, texture)
  }

  /** The spherical coordinates of a point before the remap:
      `((atan2(z, x) + pi) / (2 pi), (asin(y) + pi/2) / pi)` of the
      normalised point. With `atan2` in `[-pi, pi]` and `asin` in
      `[-pi/2, pi/2]` both lie in `[0, 1]`. */
  function SphericalCoordinates(m: Libm, point: Vector3): (uv: Vec2.Vector2)
    ensures InverseTrigRanges(m) ==> 0.0 <= uv.x <= 1.0 && 0.0 <= uv.y <= 1.0
  {
    var normalizedPoint := Normalized(m, point);
    var azimuth := m.atan2(normalizedPoint.z, normalizedPoint.x);
    var polar := m.asin(normalizedPoint.y);
    Vec2.Vector2((azimuth + Pi) / (2.0 * Pi), (polar + HalfPi) / Pi)
  }

  /** `textureCoordinates(point)`: the spherical coordinates, each passed
      through `interpolate`. Both are non-negative. */
  function TextureCoordinates(m: Libm, point: Vector3): (uv: Vec2.Vector2)
    ensures InverseTrigRanges(m) ==> uv.x >= 0.0 && uv.y >= 0.0
  {
    var sc := SphericalCoordinates(m, point);
    InterpolateOnUnitInterval(sc.x);
    InterpolateOnUnitInterval(sc.y);
    Vec2.Vector2(Interpolate(sc.x), Interpolate(sc.y))
  }
}
