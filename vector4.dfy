/** Homogeneous four-component vectors (`double` in the renderer). */
module Vec4 {
  import opened MathLib
  import Vec3

  datatype Vector4 = Vector4(x: real, y: real, z: real, w: real)

  /** The default-constructed vector: all four components zero. */
  const Zero := Vector4(0.0, 0.0, 0.0, 0.0)

  function Add(a: Vector4, b: Vector4): Vector4 {
    Vector4(a.x + b.x, a.y + b.y, a.z + b.z, a.w + b.w)
  }

  /** `a - b`: adding `b` back gives `a`, in all four components. */
  function Sub(a: Vector4, b: Vector4): (r: Vector4)
    ensures Add(r, b) == a
  {
    Vector4(a.x - b.x, a.y - b.y, a.z - b.z, a.w - b.w)
  }

  /** `v * s` (both the `double` and the `const double &` overloads). */
  function Scale(v: Vector4, s: real): Vector4 {
    Vector4(v.x * s, v.y * s, v.z * s, v.w * s)
  }

  /** The friend `s * v`. */
  function ScaleLeft(s: real, v: Vector4): (r: Vector4)
    ensures r == Scale(v, s)
  {
    Vector4(s * v.x, s * v.y, s * v.z, s * v.w)
  }

  /** `v / s`; for a non-zero `s`, scaling back by `s` gives `v`. */
  function Div(v: Vector4, s: real): (r: Vector4)
    ensures s != 0.0 ==> Scale(r, s) == v
    ensures s == 0.0 ==> r == Zero
  {
    Vector4(Quot(v.x, s), Quot(v.y, s), Quot(v.z, s), Quot(v.w, s))
  }

  /** The friend `s / v`, componentwise. */
  function DivLeft(s: real, v: Vector4): (r: Vector4)
    ensures v.x != 0.0 ==> r.x * v.x == s
    ensures v.y != 0.0 ==> r.y * v.y == s
    ensures v.z != 0.0 ==> r.z * v.z == s
    ensures v.w != 0.0 ==> r.w * v.w == s
  {
    Vector4(Quot(s, v.x), Quot(s, v.y), Quot(s, v.z), Quot(s, v.w))
  }

  /** Unary minus negates all four components, `w` included. */
  function Neg(v: Vector4): (r: Vector4)
    ensures Add(v, r) == Zero
  {
    Vector4(-v.x, -v.y, -v.z, -v.w)
  }

  /** The friends `v + s` and `s + v`: the scalar is added to every component. */
  function AddScalar(v: Vector4, s: real): (r: Vector4)
    ensures r == Add(v, Vector4(s, s, s, s))
  {
    Vector4(v.x + s, v.y + s, v.z + s, v.w + s)
  }

  /** The friend `v - s`. */
  function SubScalar(v: Vector4, s: real): (r: Vector4)
    ensures AddScalar(r, s) == v
  {
    Vector4(v.x - s, v.y - s, v.z - s, v.w - s)
  }

  /** The friend `s - v`. */
  function ScalarSub(s: real, v: Vector4): (r: Vector4)
    ensures Add(r, v) == Vector4(s, s, s, s)
  {
    Vector4(s - v.x, s - v.y, s - v.z, s - v.w)
  }

  /** Componentwise product. */
  function Mul(a: Vector4, b: Vector4): Vector4 {
    Vector4(a.x * b.x, a.y * b.y, a.z * b.z, a.w * b.w)
  }

  function Dot(a: Vector4, b: Vector4): real {
    a.x * b.x + a.y * b.y + a.z * b.z + a.w * b.w
  }

  function Length(m: Libm, v: Vector4): real {
    m.sqrt(v.x * v.x + v.y * v.y + v.z * v.z + v.w * v.w)
  }

  /** `normalize()`: the zero vector stays zero, and otherwise scaling the
      result back by `length()` gives `v` (`NormalizeIsUnit` proves the
      result has length 1). */
  function Normalize(m: Libm, v: Vector4): (r: Vector4)
    ensures v == Zero ==> r == Zero
    ensures Length(m, v) != 0.0 ==> Scale(r, Length(m, v)) == v
  {
    var l := Length(m, v);
    Vector4(Quot(v.x, l), Quot(v.y, l), Quot(v.z, l), Quot(v.w, l))
  }

  /** `Vector4(Vector3 v, double w)`: taking `xyz()` back gives `v`. */
  function Extend(v: Vec3.Vector3, w: real): (r: Vector4)
    ensures Xyz(r) == v && r.w == w
  {
    Vector4(v.x, v.y, v.z, w)
  }

  /** `xyz()` drops `w`. */
  function Xyz(v: Vector4): Vec3.Vector3 {
    Vec3.Vector3(v.x, v.y, v.z)
  }

  /** `dot` is symmetric. */
  lemma DotSymmetric(a: Vector4, b: Vector4)
    ensures Dot(a, b) == Dot(b, a)
  {
  }

  /** `dot(v, v)` is never negative and is the square of `length()`. */
  lemma DotSelfIsLengthSquared(m: Libm, v: Vector4)
    requires SqrtLaw(m)
    ensures Dot(v, v) >= 0.0
    ensures Length(m, v) * Length(m, v) == Dot(v, v)
  {
    DotSelfNonNegative(v);
    assert SqrtAt(m, Dot(v, v));
  }

  lemma DotSelfNonNegative(v: Vector4)
    ensures Dot(v, v) >= 0.0
  {
    SquareSign(v.x);
    SquareSign(v.y);
    SquareSign(v.z);
    SquareSign(v.w);
    assert Dot(v, v) == Times(v.x, v.x) + Times(v.y, v.y) + Times(v.z, v.z) + Times(v.w, v.w);
  }

  /** A non-zero vector normalises to unit length. */
  lemma NormalizeIsUnit(m: Libm, v: Vector4)
    requires SqrtLaw(m) && v != Zero
    ensures Dot(Normalize(m, v), Normalize(m, v)) == 1.0
  {
    var l := Length(m, v);
    DotSelfIsLengthSquared(m, v);
    DotSelfPositive(v);
    assert l != 0.0;
    var f := 1.0 / l;
    assert Normalize(m, v) == Scale(v, f);
    DotScaled(v, f);
    calc {
      Dot(v, v) * (f * f);
      (l * l) * (f * f);
      (l * f) * (l * f);
      1.0;
    }
  }

  lemma DotSelfPositive(v: Vector4)
    requires v != Zero
    ensures Dot(v, v) > 0.0
  {
    SquareSign(v.x);
    SquareSign(v.y);
    SquareSign(v.z);
    SquareSign(v.w);
    assert Dot(v, v) == Times(v.x, v.x) + Times(v.y, v.y) + Times(v.z, v.z) + Times(v.w, v.w);
  }

  lemma DotScaled(v: Vector4, f: real)
    ensures Dot(Scale(v, f), Scale(v, f)) == Dot(v, v) * (f * f)
  {
  }

  /** A `Vector4` object, whose compound assignments update `x`, `y`, `z`
      and `w` in place. */
  class MutableVector4 {
    var x: real
    var y: real
    var z: real
    var w: real

    function Value(): Vector4
      reads this
    {
      Vector4(x, y, z, w)
    }

    /** `Vector4()`: all zeros. */
    constructor ()
      ensures Value() == Zero
    {
      x, y, z, w := 0.0, 0.0, 0.0, 0.0;
    }

    constructor Of(x: real, y: real, z: real, w: real)
      ensures Value() == Vector4(x, y, z, w)
    {
      this.x, this.y, this.z, this.w := x, y, z, w;
    }

    /** `+=` leaves the object holding what `+` returns. */
    method AddAssign(v: Vector4)
      modifies this
      ensures Value() == Add(old(Value()), v)
    {
      x := x + v.x;
      y := y + v.y;
      z := z + v.z;
      w := w + v.w;
    }

    method SubAssign(v: Vector4)
      modifies this
      ensures Value() == Sub(old(Value()), v)
    {
      x := x - v.x;
      y := y - v.y;
      z := z - v.z;
      w := w - v.w;
    }

    method ScaleAssign(s: real)
      modifies this
      ensures Value() == Scale(old(Value()), s)
    {
      x := x * s;
      y := y * s;
      z := z * s;
      w := w * s;
    }

    method DivAssign(s: real)
      modifies this
      ensures Value() == Div(old(Value()), s)
    {
      x := Quot(x, s);
      y := Quot(y, s);
      z := Quot(z, s);
      w := Quot(w, s);
    }
  }
}
