/** Two-component vectors, used for texture coordinates. */
module Vec2 {
  import opened MathLib

  datatype Vector2 = Vector2(x: real, y: real)

  /** `Vector2()` is `(0, 0)`. */
  const Zero := Vector2(0.0, 0.0)

  function Add(a: Vector2, b: Vector2): Vector2 {
    Vector2(a.x + b.x, a.y + b.y)
  }

  /** `a - b`: adding `b` back gives `a`. */
  function Sub(a: Vector2, b: Vector2): (r: Vector2)
    ensures Add(r, b) == a
  {
    Vector2(a.x - b.x, a.y - b.y)
  }

  function Scale(v: Vector2, f: real): Vector2 {
    Vector2(v.x * f, v.y * f)
  }

  /** `v / f` is `v * (1 / f)` for a non-zero `f`. */
  function Div(v: Vector2, f: real): (r: Vector2)
    ensures f != 0.0 ==> r == Scale(v, 1.0 / f)
    ensures f == 0.0 ==> r == Zero
  {
    Vector2(Quot(v.x, f), Quot(v.y, f))
  }

  function Dot(a: Vector2, b: Vector2): real {
    a.x * b.x + a.y * b.y
  }

  function Length(m: Libm, v: Vector2): real {
    m.sqrt(v.x * v.x + v.y * v.y)
  }

  /** `normalize()`: the zero vector stays zero, and otherwise scaling the
      result back by `length()` gives `v` (`NormalizeIsUnit` proves the
      result has length 1). */
  function Normalize(m: Libm, v: Vector2): (r: Vector2)
    ensures v == Zero ==> r == Zero
    ensures Length(m, v) != 0.0 ==> Scale(r, Length(m, v)) == v
  {
    var invLength := Quot(1.0, Length(m, v));
    Vector2(v.x * invLength, v.y * invLength)
  }

  lemma DotSymmetric(a: Vector2, b: Vector2)
    ensures Dot(a, b) == Dot(b, a)
  {
  }

  /** `dot(v, v)` is never negative and is the square of `length()`. */
  lemma DotSelfIsLengthSquared(m: Libm, v: Vector2)
    requires SqrtLaw(m)
    ensures Dot(v, v) >= 0.0
    ensures Length(m, v) * Length(m, v) == Dot(v, v)
  {
    DotSelfNonNegative(v);
    assert SqrtAt(m, Dot(v, v));
  }

  lemma DotSelfNonNegative(v: Vector2)
    ensures Dot(v, v) >= 0.0
  {
    SquareSign(v.x);
    SquareSign(v.y);
    assert Dot(v, v) == Times(v.x, v.x) + Times(v.y, v.y);
  }

  /** A non-zero vector normalises to unit length. */
  lemma NormalizeIsUnit(m: Libm, v: Vector2)
    requires SqrtLaw(m) && v != Zero
    ensures Dot(Normalize(m, v), Normalize(m, v)) == 1.0
  {
    var l := Length(m, v);
    DotSelfIsLengthSquared(m, v);
    SquareSign(v.x);
    SquareSign(v.y);
    assert Dot(v, v) == Times(v.x, v.x) + Times(v.y, v.y);
    assert l != 0.0;
    var f := 1.0 / l;
    assert Normalize(m, v) == Scale(v, f);
    calc {
      Dot(Scale(v, f), Scale(v, f));
      (v.x * f) * (v.x * f) + (v.y * f) * (v.y * f);
      Dot(v, v) * (f * f);
      (l * l) * (f * f);
      (l * f) * (l * f);
      1.0;
    }
  }
}
