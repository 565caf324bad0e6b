/** Three-component vectors: points, directions and RGB colours alike. */
module Vec3 {
  import opened MathLib

  datatype Vector3 = Vector3(x: real, y: real, z: real)

  /** `Vector3()`, the default-constructed vector. */
  const Zero := Vector3(0.0, 0.0, 0.0)

  function Add(a: Vector3, b: Vector3): Vector3 {
    Vector3(a.x + b.x, a.y + b.y, a.z + b.z)
  }

  /** `a - b`: the vector that `b` must be added to in order to give `a`. */
  function Sub(a: Vector3, b: Vector3): (r: Vector3)
    ensures Add(r, b) == a
  {
    Vector3(a.x - b.x, a.y - b.y, a.z - b.z)
  }

  /** `v * f` and `f * v` (the two are the same product over the reals). */
  function Scale(v: Vector3, f: real): Vector3 {
    Vector3(v.x * f, v.y * f, v.z * f)
  }

  /** The friend `f * v`, which multiplies with the scalar on the left. */
  function ScaleLeft(f: real, v: Vector3): (r: Vector3)
    ensures r == Scale(v, f)
  {
    Vector3(f * v.x, f * v.y, f * v.z)
  }

  /** Componentwise product `a * b`, used for colour modulation. */
  function Mul(a: Vector3, b: Vector3): Vector3 {
    Vector3(a.x * b.x, a.y * b.y, a.z * b.z)
  }

  /** Unary minus: the additive inverse. */
  function Neg(v: Vector3): (r: Vector3)
    ensures Add(v, r) == Zero
  {
    Vector3(-v.x, -v.y, -v.z)
  }

  /** `v / f`; for a non-zero `f`, scaling the result by `f` gives `v` back. */
  function Div(v: Vector3, f: real): (r: Vector3)
    ensures f != 0.0 ==> Scale(r, f) == v
    ensures f == 0.0 ==> r == Zero
  {
    Vector3(Quot(v.x, f), Quot(v.y, f), Quot(v.z, f))
  }

  function Dot(a: Vector3, b: Vector3): real {
    a.x * b.x + a.y * b.y + a.z * b.z
  }

  function Cross(a: Vector3, b: Vector3): Vector3 {
    Vector3(a.y * b.z - a.z * b.y, a.z * b.x - a.x * b.z, a.x * b.y - a.y * b.x)
  }

  /** The cross product is orthogonal to both of its operands. */
  lemma CrossOrthogonal(a: Vector3, b: Vector3)
    ensures Dot(a, Cross(a, b)) == 0.0 && Dot(b, Cross(a, b)) == 0.0
  {
  }

  /** `norm()`, the squared length. */
  function Norm(v: Vector3): real {
    v.x * v.x + v.y * v.y + v.z * v.z
  }

  /** The squared length is never negative, and is zero only for the zero vector. */
  lemma NormZeroIff(v: Vector3)
    ensures Norm(v) >= 0.0
    ensures Norm(v) == 0.0 <==> v == Zero
  {
    SquareSign(v.x);
    SquareSign(v.y);
    SquareSign(v.z);
    assert Norm(v) == Times(v.x, v.x) + Times(v.y, v.y) + Times(v.z, v.z);
  }

  function Length(m: Libm, v: Vector3): real {
    m.sqrt(Norm(v))
  }

  /** `normalized()`: `v * (1 / length())`. */
  function Normalized(m: Libm, v: Vector3): Vector3 {
    Scale(v, Quot(1.0, Length(m, v)))
  }

  /** Mirror `incident` about `normal` (the friend `reflect` and the member
      `reflect` have the same body). Across a unit normal the normal
      component changes sign. */
  function Reflect(incident: Vector3, normal: Vector3): (r: Vector3)
    ensures Norm(normal) == 1.0 ==> Dot(r, normal) == -Dot(incident, normal)
  {
    Sub(incident, Scale(normal, 2.0 * Dot(incident, normal)))
  }

  /** The member `v.reflect(normal)`: the same vector as the friend. */
  function ReflectMember(v: Vector3, normal: Vector3): (r: Vector3)
    ensures r == Reflect(v, normal)
  {
    Sub(v, Scale(normal, 2.0 * Dot(v, normal)))
  }

  /** `Vector3::clamp(min, max, value)`: the bounds come first. */
  function Clamp(min: real, max: real, value: real): (r: real)
    ensures min <= max ==> min <= r <= max
    ensures min <= value <= max ==> r == value
  {
    Max(min, Min(max, value))
  }

  /** The friend `normal(point)`: the direction of `point` seen from the origin. */
  function NormalFromOrigin(m: Libm, point: Vector3): (r: Vector3)
    ensures r == Normalized(m, point)
  {
    Normalized(m, Sub(point, Vector3(0.0, 0.0, 0.0)))
  }

  /** What `refract` derives before applying Snell's law: the incidence
      cosine made non-negative, the ratio `etai / etat`, and the normal turned
      to face the incident ray. */
  datatype RefractSetup = RefractSetup(cosi: real, eta: real, n: Vector3)

  /** Media swap: a ray arriving against the normal enters the medium
      (`eta = 1 / ior`, normal as given); any other ray leaves it
      (`eta = ior`, normal negated). */
  function Setup(incident: Vector3, normal: Vector3, ior: real): (s: RefractSetup)
    ensures Clamp(-1.0, 1.0, Dot(incident, normal)) < 0.0 ==>
      s == RefractSetup(-Clamp(-1.0, 1.0, Dot(incident, normal)), Quot(1.0, ior), normal)
    ensures Clamp(-1.0, 1.0, Dot(incident, normal)) >= 0.0 ==>
      s == RefractSetup(Clamp(-1.0, 1.0, Dot(incident, normal)), ior, Neg(normal))
    ensures 0.0 <= s.cosi <= 1.0
    ensures Dot(incident, s.n) == -s.cosi || Dot(incident, normal) < -1.0 || Dot(incident, normal) > 1.0
  {
    var cosi := Clamp(-1.0, 1.0, Dot(incident, normal));
    var etai, etat := 1.0, ior;
    if cosi < 0.0 then
      RefractSetup(-cosi, Quot(etai, etat), normal)
    else
      RefractSetup(cosi, Quot(etat, etai), Neg(normal))
  }

  /** The discriminant `k = 1 - eta^2 (1 - cosi^2)` of Snell's law. */
  function RefractK(s: RefractSetup): real {
    1.0 - s.eta * s.eta * (1.0 - s.cosi * s.cosi)
  }

  /** `refract(incident, normal, ior)`: Snell's law applied to the setup. */
  function Refract(m: Libm, incident: Vector3, normal: Vector3, ior: real): Vector3 {
    Snell(m, incident, Setup(incident, normal, ior))
  }

  /** The second half of `refract`: the zero vector signals total internal
      reflection (`k < 0`); otherwise Snell's law along the oriented normal. */
  function Snell(m: Libm, incident: Vector3, s: RefractSetup): Vector3 {
    var k := RefractK(s);
    if k < 0.0 then Vector3(0.0, 0.0, 0.0)
    else Add(Scale(incident, s.eta), Scale(s.n, s.eta * s.cosi - m.sqrt(k)))
  }

  lemma LengthSquaredIsNorm(m: Libm, v: Vector3)
    requires SqrtLaw(m)
    ensures Length(m, v) >= 0.0 && Length(m, v) * Length(m, v) == Norm(v)
  {
    NormZeroIff(v);
    assert SqrtAt(m, Norm(v));
  }

  /** A non-zero vector normalises to unit length. */
  lemma NormalizedIsUnit(m: Libm, v: Vector3)
    requires SqrtLaw(m) && v != Zero
    ensures Norm(Normalized(m, v)) == 1.0
  {
    var l := Length(m, v);
    LengthSquaredIsNorm(m, v);
    NormZeroIff(v);
    assert l != 0.0;
    var f := 1.0 / l;
    assert Normalized(m, v) == Scale(v, f);
    calc {
      Norm(Scale(v, f));
      (v.x * f) * (v.x * f) + (v.y * f) * (v.y * f) + (v.z * f) * (v.z * f);
      Norm(v) * (f * f);
      (l * l) * (f * f);
      (l * f) * (l * f);
      1.0;
    }
  }

  /** Scaling the zero vector leaves it zero. */
  lemma ScaleZero(k: real)
    ensures Scale(Zero, k) == Zero
  {
  }

  /** The length of `v * k` for `k > 0` is `k` times the length of `v`. */
  lemma LengthScaled(m: Libm, v: Vector3, k: real)
    requires SqrtLaw(m) && k > 0.0
    ensures Length(m, Scale(v, k)) == k * Length(m, v)
  {
    var l := Length(m, v);
    LengthSquaredIsNorm(m, v);
    LengthSquaredIsNorm(m, Scale(v, k));
    assert Norm(Scale(v, k)) == Norm(v) * (k * k);
    assert (k * l) * (k * l) == (l * l) * (k * k);
    SquareRootUnique(Length(m, Scale(v, k)), k * l);
  }

  /** One component of a rescaled normalisation: `(x k) / (k l) == x / l`. */
  lemma RescaledComponent(x: real, k: real, l: real)
    requires k > 0.0 && l != 0.0
    ensures (x * k) * Quot(1.0, k * l) == x * Quot(1.0, l)
  {
    assert Quot(1.0, k * l) == 1.0 / (k * l);
    assert 1.0 / (k * l) == (1.0 / l) / k;
  }

  /** Normalising ignores a positive scale factor: `v * k` and `v` have the
      same direction. */
  lemma NormalizedScaled(m: Libm, v: Vector3, k: real)
    requires SqrtLaw(m) && k > 0.0
    ensures Normalized(m, Scale(v, k)) == Normalized(m, v)
  {
    if v == Zero {
      ScaleZero(k);
    } else {
      var l := Length(m, v);
      LengthSquaredIsNorm(m, v);
      NormZeroIff(v);
      assert l != 0.0;
      LengthScaled(m, v, k);
      RescaledComponent(v.x, k, l);
      RescaledComponent(v.y, k, l);
      RescaledComponent(v.z, k, l);
    }
  }

  /** `normalized()` is idempotent: a unit vector has length 1, and the zero
      vector stays zero. */
  lemma NormalizedIdempotent(m: Libm, v: Vector3)
    requires SqrtLaw(m)
    ensures Normalized(m, Normalized(m, v)) == Normalized(m, v)
  {
    var u := Normalized(m, v);
    if v == Zero {
      assert u == Scale(Zero, Quot(1.0, Length(m, Zero)));
      ScaleZero(Quot(1.0, Length(m, Zero)));
      assert Scale(Zero, Quot(1.0, Length(m, Zero))) == Zero;
    } else {
      NormalizedIsUnit(m, v);
      LengthSquaredIsNorm(m, u);
      SquareRootUnique(Length(m, u), 1.0);
      assert Quot(1.0, Length(m, u)) == 1.0;
    }
  }

  /** Reflecting twice across the same unit normal gives the incident vector back. */
  lemma ReflectTwice(d: Vector3, n: Vector3)
    requires Norm(n) == 1.0
    ensures Reflect(Reflect(d, n), n) == d
  {
    var r := Reflect(d, n);
    assert Dot(r, n) == -Dot(d, n);
  }

  /** With no change of index, a ray whose incidence cosine is in range passes
      straight through. */
  lemma RefractUnitIndex(m: Libm, incident: Vector3, normal: Vector3)
    requires SqrtLaw(m)
    requires -1.0 <= Dot(incident, normal) <= 1.0
    ensures Refract(m, incident, normal, 1.0) == incident
  {
    var s := Setup(incident, normal, 1.0);
    assert s.eta == 1.0;
    var c := s.cosi;
    assert RefractK(s) == c * c;
    SquareSign(c);
    assert SqrtAt(m, c * c);
    SquareRootUnique(m.sqrt(c * c), c);
  }

  lemma DotOfCombination(a: Vector3, p: real, b: Vector3, q: real, n: Vector3)
    ensures Dot(Add(Scale(a, p), Scale(b, q)), n) == p * Dot(a, n) + q * Dot(b, n)
  {
  }

  /** Flipping the normal of a ray that arrives against it is the same as
      inverting the refractive index. */
  lemma RefractFlipNormal(m: Libm, incident: Vector3, normal: Vector3, ior: real)
    requires Dot(incident, normal) < 0.0 && ior != 0.0
    ensures Refract(m, incident, Neg(normal), ior) == Refract(m, incident, normal, Quot(1.0, ior))
  {
    SetupFlipNormal(incident, normal, ior);
  }

  /** The setup behind `RefractFlipNormal`: the same cosine, ratio and
      oriented normal either way. */
  lemma SetupFlipNormal(incident: Vector3, normal: Vector3, ior: real)
    requires Dot(incident, normal) < 0.0 && ior != 0.0
    ensures Setup(incident, Neg(normal), ior) == Setup(incident, normal, Quot(1.0, ior))
  {
    var c := Dot(incident, normal);
    DotNeg(incident, normal);
    assert Clamp(-1.0, 1.0, -c) == -Clamp(-1.0, 1.0, c);
    ReciprocalTwice(ior);
    assert Neg(Neg(normal)) == normal;
  }

  lemma DotNeg(a: Vector3, b: Vector3)
    ensures Dot(a, Neg(b)) == -Dot(a, b)
  {
  }

  /** Inverting a non-zero index twice gives it back. */
  lemma ReciprocalTwice(x: real)
    requires x != 0.0
    ensures Quot(1.0, Quot(1.0, x)) == x
  {
  }

  /** For unit vectors whose cosine is in range, the zero vector is returned
      exactly when the angle is beyond the critical angle (`k < 0`). */
  lemma RefractZeroIffTotalReflection(m: Libm, incident: Vector3, normal: Vector3, ior: real)
    requires SqrtLaw(m)
    requires Norm(incident) == 1.0 && Norm(normal) == 1.0
    requires -1.0 <= Dot(incident, normal) <= 1.0
    ensures Refract(m, incident, normal, ior) == Zero <==> RefractK(Setup(incident, normal, ior)) < 0.0
  {
    var s := Setup(incident, normal, ior);
    var k := RefractK(s);
    if k >= 0.0 {
      assert SqrtAt(m, k);
      if m.sqrt(k) == 0.0 {
        RefractAtCriticalAngle(m, incident, normal, ior);
      } else {
        RefractBeyondCriticalAngle(m, incident, normal, ior);
      }
    }
  }

  /** With a positive root the refracted vector has a non-zero component
      along the oriented normal. */
  lemma RefractBeyondCriticalAngle(m: Libm, incident: Vector3, normal: Vector3, ior: real)
    requires SqrtLaw(m)
    requires Norm(normal) == 1.0
    requires -1.0 <= Dot(incident, normal) <= 1.0
    requires RefractK(Setup(incident, normal, ior)) >= 0.0
    requires m.sqrt(RefractK(Setup(incident, normal, ior))) != 0.0
    ensures Refract(m, incident, normal, ior) != Zero
  {
    var s := Setup(incident, normal, ior);
    RefractAlongNormal(m, incident, normal, ior);
    assert Dot(Zero, s.n) == 0.0;
  }

  /** With a zero root (`k == 0`) the refracted vector of two unit vectors
      is still non-zero. */
  lemma RefractAtCriticalAngle(m: Libm, incident: Vector3, normal: Vector3, ior: real)
    requires SqrtLaw(m)
    requires Norm(incident) == 1.0 && Norm(normal) == 1.0
    requires RefractK(Setup(incident, normal, ior)) >= 0.0
    requires m.sqrt(RefractK(Setup(incident, normal, ior))) == 0.0
    ensures Refract(m, incident, normal, ior) != Zero
  {
    SetupNormalIsUnit(incident, normal, ior);
    SnellAtCriticalAngle(m, incident, Setup(incident, normal, ior));
  }

  /** Snell's law with a zero root along a unit normal, for a unit
      incident vector, gives a non-zero vector. */
  lemma SnellAtCriticalAngle(m: Libm, incident: Vector3, s: RefractSetup)
    requires SqrtLaw(m)
    requires Norm(incident) == 1.0 && Norm(s.n) == 1.0
    requires RefractK(s) >= 0.0 && m.sqrt(RefractK(s)) == 0.0
    ensures Snell(m, incident, s) != Zero
  {
    ZeroRootOfZero(m, RefractK(s));
    SnellAtZeroRoot(m, incident, s);
    CriticalAngleNotZero(incident, s);
  }

  /** Only zero has a zero square root. */
  lemma ZeroRootOfZero(m: Libm, k: real)
    requires SqrtLaw(m)
    requires k >= 0.0 && m.sqrt(k) == 0.0
    ensures k == 0.0
  {
    assert SqrtAt(m, k);
    TimesSign(m.sqrt(k), m.sqrt(k));
    assert Times(m.sqrt(k), m.sqrt(k)) == k;
  }

  /** With a zero root, Snell's law adds `eta (I + cosi n)` only. */
  lemma SnellAtZeroRoot(m: Libm, incident: Vector3, s: RefractSetup)
    requires RefractK(s) >= 0.0 && m.sqrt(RefractK(s)) == 0.0
    ensures Snell(m, incident, s) == Add(Scale(incident, s.eta), Scale(s.n, s.eta * s.cosi - 0.0))
  {
  }

  /** The oriented normal is the normal or its negation, so of unit length
      when the normal is. */
  lemma SetupNormalIsUnit(incident: Vector3, normal: Vector3, ior: real)
    requires Norm(normal) == 1.0
    ensures Norm(Setup(incident, normal, ior).n) == 1.0
  {
    NormOfScale(normal, -1.0);
    assert Neg(normal) == Scale(normal, -1.0);
  }

  /** Without total internal reflection, the refracted vector's component
      along the oriented normal is `-sqrt(k)`. */
  lemma RefractAlongNormal(m: Libm, incident: Vector3, normal: Vector3, ior: real)
    requires SqrtLaw(m)
    requires Norm(normal) == 1.0
    requires -1.0 <= Dot(incident, normal) <= 1.0
    requires RefractK(Setup(incident, normal, ior)) >= 0.0
    ensures var s := Setup(incident, normal, ior);
      Dot(Refract(m, incident, normal, ior), s.n) == -m.sqrt(RefractK(s))
  {
    var s := Setup(incident, normal, ior);
    var q, c, n, eta := m.sqrt(RefractK(s)), s.cosi, s.n, s.eta;
    assert Norm(n) == 1.0 && Dot(incident, n) == -c;
    DotOfCombination(incident, eta, n, eta * c - q, n);
  }

  /** At the critical angle (`k == 0`) the refracted vector of two unit
      vectors is still non-zero. */
  lemma CriticalAngleNotZero(incident: Vector3, s: RefractSetup)
    requires Norm(incident) == 1.0 && Norm(s.n) == 1.0
    requires RefractK(s) == 0.0
    ensures Add(Scale(incident, s.eta), Scale(s.n, s.eta * s.cosi - 0.0)) != Zero
  {
    var n, eta, c := s.n, s.eta, s.cosi;
    CriticalCosine(s);
    FactorScale(incident, n, eta, c);
    if Add(incident, Scale(n, c)) == Zero {
      assert false;
    } else {
      ScaleNonZero(Add(incident, Scale(n, c)), eta);
    }
  }

  /** At the critical angle (`k == 0`) the ratio is non-zero and the
      incidence cosine is not of unit size. */
  lemma CriticalCosine(s: RefractSetup)
    requires RefractK(s) == 0.0
    ensures s.eta != 0.0 && s.cosi * s.cosi != 1.0
  {
  }

  lemma ScaleNonZero(v: Vector3, f: real)
    requires v != Zero && f != 0.0
    ensures Scale(v, f) != Zero
  {
    if v.x != 0.0 {
      TimesSign(v.x, f);
    }
  }

  lemma NormOfScale(v: Vector3, f: real)
    ensures Norm(Scale(v, f)) == f * f * Norm(v)
  {
  }

  lemma FactorScale(a: Vector3, b: Vector3, f: real, c: real)
    ensures Add(Scale(a, f), Scale(b, f * c - 0.0)) == Scale(Add(a, Scale(b, c)), f)
  {
  }
}
