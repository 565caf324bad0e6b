/** Spotlights: a cone of light with a distance attenuation and an angular
    falloff. */
module Spotlights {
  import opened MathLib
  import opened Vec3

  /** The free `clamp(val, min, max)`: the value comes first. For
      `min <= max` the result lies in `[min, max]`, and a value already in
      range is returned unchanged. */
  function ClampValue(val: real, min: real, max: real): (r: real)
    ensures min <= max ==> min <= r <= max
    ensures min <= val <= max ==> r == val
    ensures min <= max && val < min ==> r == min
    ensures min <= max && val > max ==> r == max
  {
    Max(min, Min(max, val))
  }

  /** The two clamps of the renderer compute the same value; only the
      position of the clamped value among the arguments differs. */
  lemma ClampArgumentOrder(val: real, min: real, max: real)
    ensures ClampValue(val, min, max) == Vec3.Clamp(min, max, val)
  {
  }

  /** A spotlight; `angle` is the full opening angle of the cone. */
  datatype Spotlight = Spotlight(position: Vector3, direction: Vector3, angle: real,
                                 color: Vector3, intensity: real, falloffExponent: real)

  /** The cosine between the spotlight's axis and the direction from the
      light to `point`. */
  function CosAngle(m: Libm, s: Spotlight, point: Vector3): real {
    Dot(Normalized(m, Sub(point, s.position)), s.direction)
  }

  /** The point is lit when the cosine exceeds `cos(angle / 2)`. */
  predicate InCone(m: Libm, s: Spotlight, point: Vector3) {
    CosAngle(m, s, point) > m.cos(s.angle / 2.0)
  }

  /** The base of the falloff power, `clamp(1 - cosAngle / angle, 0, 1)`,
      always in `[0, 1]`. */
  function FalloffBase(cosAngle: real, angle: real): (b: real)
    ensures 0.0 <= b <= 1.0
  {
    ClampValue(1.0 - Quot(cosAngle, angle), 0.0, 1.0)
  }

  /** `getLighting(point)`: zero outside the cone; inside it, the colour
      times the intensity, the inverse square of the distance and the
      falloff `pow(base, falloffExponent)`. */
  function GetLighting(m: Libm, s: Spotlight, point: Vector3): (r: Vector3)
    ensures !InCone(m, s, point) ==> r == Zero
  {
    var lightDirection := Normalized(m, Sub(point, s.position));
    var cosAngle := Dot(lightDirection, s.direction);
    if cosAngle > m.cos(s.angle / 2.0) then
      var distance := Length(m, Sub(point, s.position));
      var attenuation := Quot(1.0, distance * distance);
      var falloff := m.pow(FalloffBase(cosAngle, s.angle), s.falloffExponent);
      Scale(Scale(Scale(s.color, s.intensity), attenuation), falloff)
    else
      Zero
  }

  /** `pow` of a non-negative base is non-negative. */
  ghost predicate PowNonNegative(m: Libm) {
    forall b, e :: b >= 0.0 ==> m.pow(b, e) >= 0.0
  }

  /** A non-negative product of non-negative factors. */
  lemma TimesNonNegative(a: real, b: real)
    requires a >= 0.0 && b >= 0.0
    ensures Times(a, b) >= 0.0
  {
    TimesSign(a, b);
  }

  /** Inside the cone the light is the colour scaled by one non-negative
      factor, `intensity / d^2 * falloff`, when the intensity is not
      negative: a spotlight never subtracts light, and it tints by its own
      colour only. */
  lemma LightingIsScaledColor(m: Libm, s: Spotlight, point: Vector3)
    requires SqrtLaw(m) && PowNonNegative(m) && s.intensity >= 0.0
    requires InCone(m, s, point)
    ensures exists k :: k >= 0.0 && GetLighting(m, s, point) == Scale(s.color, k)
  {
    var distance := Length(m, Sub(point, s.position));
    var attenuation := Quot(1.0, Times(distance, distance));
    var falloff := m.pow(FalloffBase(CosAngle(m, s, point), s.angle), s.falloffExponent);
    LightingInCone(m, s, point);
    InverseSquareNonNegative(distance);
    assert falloff >= 0.0;
    TimesNonNegative(s.intensity, attenuation);
    var k0 := Times(s.intensity, attenuation);
    TimesNonNegative(k0, falloff);
    var k := Times(k0, falloff);
    ScaleTwice(s.color, s.intensity, attenuation);
    ScaleTwice(s.color, k0, falloff);
    assert k >= 0.0 && GetLighting(m, s, point) == Scale(s.color, k);
  }

  /** Inside the cone, `getLighting` is the colour scaled three times. */
  lemma LightingInCone(m: Libm, s: Spotlight, point: Vector3)
    requires InCone(m, s, point)
    ensures GetLighting(m, s, point)
         == Scale(Scale(Scale(s.color, s.intensity),
                        Quot(1.0, Times(Length(m, Sub(point, s.position)), Length(m, Sub(point, s.position))))),
                  m.pow(FalloffBase(CosAngle(m, s, point), s.angle), s.falloffExponent))
  {
  }

  /** `1 / d^2` is never negative (and is 0 for `d = 0`). */
  lemma InverseSquareNonNegative(d: real)
    ensures Quot(1.0, Times(d, d)) >= 0.0
  {
    SquareSign(d);
  }

  /** Scaling twice is scaling once by the product. */
  lemma ScaleTwice(c: Vector3, a: real, b: real)
    ensures Scale(Scale(c, a), b) == Scale(c, Times(a, b))
  {
    assert (c.x * a) * b == c.x * (a * b);
    assert (c.y * a) * b == c.y * (a * b);
    assert (c.z * a) * b == c.z * (a * b);
  }
}
