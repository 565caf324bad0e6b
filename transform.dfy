/** `Transform`: a matrix accumulated by right-multiplying each new
    operation, and its point and direction maps. */
module Xform {
  import opened MathLib
  import Vec3
  import Vec4
  import opened Mat4

  /** `transformPoint`: the point with `w = 1`, multiplied, `xyz` taken. */
  function MapPoint(a: Matrix, p: Vec3.Vector3): Vec3.Vector3 {
    Vec4.Xyz(Apply(a, Vec4.Extend(p, 1.0)))
  }

  /** `transformDirection`: the direction with `w = 0`, multiplied, `xyz`
      taken and normalised; that is, the normalised upper-left 3x3 block
      applied to the direction. */
  function MapDirection(m: Libm, a: Matrix, d: Vec3.Vector3): (r: Vec3.Vector3)
    ensures r == Vec3.Normalized(m, ApplyLinear(a, d))
  {
    Vec3.Normalized(m, Vec4.Xyz(Apply(a, Vec4.Extend(d, 0.0))))
  }

  /** Multiplying by a product is multiplying by each factor in turn. */
  lemma ApplyMatMul(a: Matrix, b: Matrix, v: Vec4.Vector4)
    ensures Apply(MatMul(a, b), v) == Apply(a, Apply(b, v))
  {
    ApplyByRows(MatMul(a, b), v);
    ApplyByRows(a, Apply(b, v));
    RowOfProduct(a, b, v, 0);
    RowOfProduct(a, b, v, 1);
    RowOfProduct(a, b, v, 2);
    RowOfProduct(a, b, v, 3);
  }

  /** `Apply` is the four rows, each times `v`. */
  lemma ApplyByRows(a: Matrix, v: Vec4.Vector4)
    ensures Apply(a, v) == Vec4.Vector4(RowTimes(a, 0, v), RowTimes(a, 1, v), RowTimes(a, 2, v), RowTimes(a, 3, v))
  {
  }

  /** Row `i` of `a` times `v`: component `i` of `Apply(a, v)`. */
  function RowTimes(a: Matrix, i: nat, v: Vec4.Vector4): real
    requires i < 4
  {
    a[i][0] * v.x + a[i][1] * v.y + a[i][2] * v.z + a[i][3] * v.w
  }

  lemma RowOfProduct(a: Matrix, b: Matrix, v: Vec4.Vector4, i: nat)
    requires i < 4
    ensures RowTimes(MatMul(a, b), i, v) == RowTimes(a, i, Apply(b, v))
  {
    ProductRow(a, b, v, i);
    RowOfApplied(a, b, v, i);
  }

  /** Row `i` of `a * b` times `v`, as the sixteen products
      `a[i][l] * b[l][k] * v[k]` grouped by `k`. */
  lemma ProductRow(a: Matrix, b: Matrix, v: Vec4.Vector4, i: nat)
    requires i < 4
    ensures RowTimes(MatMul(a, b), i, v)
      == a[i][0] * b[0][0] * v.x + a[i][1] * b[1][0] * v.x + a[i][2] * b[2][0] * v.x + a[i][3] * b[3][0] * v.x
        + a[i][0] * b[0][1] * v.y + a[i][1] * b[1][1] * v.y + a[i][2] * b[2][1] * v.y + a[i][3] * b[3][1] * v.y
        + a[i][0] * b[0][2] * v.z + a[i][1] * b[1][2] * v.z + a[i][2] * b[2][2] * v.z + a[i][3] * b[3][2] * v.z
        + a[i][0] * b[0][3] * v.w + a[i][1] * b[1][3] * v.w + a[i][2] * b[2][3] * v.w + a[i][3] * b[3][3] * v.w
  {
    ProductEntry(a, b, i, 0);
    ProductEntry(a, b, i, 1);
    ProductEntry(a, b, i, 2);
    ProductEntry(a, b, i, 3);
    ColumnsFirst(a[i][0], a[i][1], a[i][2], a[i][3], b[0][0], b[0][1], b[0][2], b[0][3], b[1][0], b[1][1], b[1][2], b[1][3], b[2][0], b[2][1], b[2][2], b[2][3], b[3][0], b[3][1], b[3][2], b[3][3], v.x, v.y, v.z, v.w, MatMul(a, b)[i][0], MatMul(a, b)[i][1], MatMul(a, b)[i][2], MatMul(a, b)[i][3]);
  }

  /** Row `i` of `a` times `b * v`, as the same sixteen products grouped
      by `l`. */
  lemma RowOfApplied(a: Matrix, b: Matrix, v: Vec4.Vector4, i: nat)
    requires i < 4
    ensures RowTimes(a, i, Apply(b, v))
      == a[i][0] * b[0][0] * v.x + a[i][0] * b[0][1] * v.y + a[i][0] * b[0][2] * v.z + a[i][0] * b[0][3] * v.w
        + a[i][1] * b[1][0] * v.x + a[i][1] * b[1][1] * v.y + a[i][1] * b[1][2] * v.z + a[i][1] * b[1][3] * v.w
        + a[i][2] * b[2][0] * v.x + a[i][2] * b[2][1] * v.y + a[i][2] * b[2][2] * v.z + a[i][2] * b[2][3] * v.w
        + a[i][3] * b[3][0] * v.x + a[i][3] * b[3][1] * v.y + a[i][3] * b[3][2] * v.z + a[i][3] * b[3][3] * v.w
  {
    var bv := Apply(b, v);
    RowsFirst(a[i][0], a[i][1], a[i][2], a[i][3], b[0][0], b[0][1], b[0][2], b[0][3], b[1][0], b[1][1], b[1][2], b[1][3], b[2][0], b[2][1], b[2][2], b[2][3], b[3][0], b[3][1], b[3][2], b[3][3], v.x, v.y, v.z, v.w, bv.x, bv.y, bv.z, bv.w);
  }

  /** The identity maps every point to itself. */
  lemma IdentityMapsPoints(p: Vec3.Vector3)
    ensures MapPoint(Identity, p) == p
  {
  }

  /** After a translation appended to `a`, points move by the offset before
      `a` acts; with `a` the identity, `transformPoint(p) == p + (x, y, z)`. */
  lemma TranslatedPoint(a: Matrix, x: real, y: real, z: real, p: Vec3.Vector3)
    ensures MapPoint(MatMul(a, Translation(x, y, z)), p) == MapPoint(a, Vec3.Add(p, Vec3.Vector3(x, y, z)))
    ensures MapPoint(MatMul(Identity, Translation(x, y, z)), p) == Vec3.Add(p, Vec3.Vector3(x, y, z))
  {
    ApplyMatMul(a, Translation(x, y, z), Vec4.Extend(p, 1.0));
    TranslationOnPointsAndDirections(x, y, z, p);
    IdentityIsUnit(Translation(x, y, z));
    ApplyMatMul(Identity, Translation(x, y, z), Vec4.Extend(p, 1.0));
  }

  /** After a scaling appended to `a`, points are scaled componentwise before
      `a` acts; with `a` the identity, `transformPoint(p)` is `p` scaled by
      `(x, y, z)`. */
  lemma ScaledPoint(a: Matrix, x: real, y: real, z: real, p: Vec3.Vector3)
    ensures MapPoint(MatMul(a, Scaling(x, y, z)), p) == MapPoint(a, Vec3.Vector3(x * p.x, y * p.y, z * p.z))
    ensures MapPoint(MatMul(Identity, Scaling(x, y, z)), p) == Vec3.Vector3(x * p.x, y * p.y, z * p.z)
  {
    ApplyMatMul(a, Scaling(x, y, z), Vec4.Extend(p, 1.0));
    IdentityIsUnit(Scaling(x, y, z));
  }

  /** Translations never affect directions. */
  lemma TranslationIgnoredByDirections(m: Libm, a: Matrix, x: real, y: real, z: real, d: Vec3.Vector3)
    ensures MapDirection(m, MatMul(a, Translation(x, y, z)), d) == MapDirection(m, a, d)
  {
    ApplyMatMul(a, Translation(x, y, z), Vec4.Extend(d, 0.0));
    TranslationOnPointsAndDirections(x, y, z, d);
  }

  /** Two `translate` calls in a row amount to one by the summed offset. */
  lemma TranslateTwice(a: Matrix, x1: real, y1: real, z1: real, x2: real, y2: real, z2: real)
    ensures MatMul(MatMul(a, Translation(x1, y1, z1)), Translation(x2, y2, z2))
         == MatMul(a, Translation(x1 + x2, y1 + y2, z1 + z2))
  {
    MatMulAssociative(a, Translation(x1, y1, z1), Translation(x2, y2, z2));
    TranslationsCompose(x1, y1, z1, x2, y2, z2);
  }

  /** A `Transform` object owning its `transformMatrix`. */
  class Transform {
    var transformMatrix: Matrix4

    predicate Valid()
      reads this, transformMatrix
    {
      transformMatrix.Valid()
    }

    function Value(): Matrix
      reads this, transformMatrix, transformMatrix.mat
      requires Valid()
    {
      transformMatrix.Value()
    }

    /** `transformPoint(point)`. */
    function TransformPoint(point: Vec3.Vector3): Vec3.Vector3
      reads this, transformMatrix, transformMatrix.mat
      requires Valid()
    {
      MapPoint(Value(), point)
    }

    /** `transformDirection(direction)`. */
    function TransformDirection(m: Libm, direction: Vec3.Vector3): Vec3.Vector3
      reads this, transformMatrix, transformMatrix.mat
      requires Valid()
    {
      MapDirection(m, Value(), direction)
    }

    /** `Transform()`: the identity, so every point maps to itself. */
    constructor ()
      ensures Valid() && fresh(transformMatrix) && fresh(transformMatrix.mat)
      ensures Value() == Identity
      ensures forall p :: TransformPoint(p) == p
    {
      transformMatrix := new Matrix4();
      new;
      forall p
        ensures TransformPoint(p) == p
      {
        IdentityMapsPoints(p);
      }
    }

    /** `translate(x, y, z)`: right-multiplies by `Matrix4::translate`. */
    method Translate(x: real, y: real, z: real)
      requires Valid()
      modifies this
      ensures Valid() && fresh(transformMatrix.mat)
      ensures Value() == MatMul(old(Value()), Translation(x, y, z))
    {
      var t := Matrix4.Translate(x, y, z);
      transformMatrix := transformMatrix.Mul(t);
    }

    /** `rotateX(angle)`: the axis passed to `Matrix4::rotate` is `(1, 0, 0)`. */
    method RotateX(m: Libm, angle: real)
      requires Valid()
      modifies this
      ensures Valid() && fresh(transformMatrix.mat)
      ensures Value() == MatMul(old(Value()), Rotation(m, angle, 1.0, 0.0, 0.0))
      ensures Value() == MatMul(old(Value()), AxisRotation(m, angle, 1.0, 0.0, 0.0))
    {
      RotationOnCoordinateAxes(m, angle);
      var r := Matrix4.Rotate(m, angle, 1.0, 0.0, 0.0);
      transformMatrix := transformMatrix.Mul(r);
    }

    /** `rotateY(angle)`: the axis is `(0, 1, 0)`. */
    method RotateY(m: Libm, angle: real)
      requires Valid()
      modifies this
      ensures Valid() && fresh(transformMatrix.mat)
      ensures Value() == MatMul(old(Value()), Rotation(m, angle, 0.0, 1.0, 0.0))
      ensures Value() == MatMul(old(Value()), AxisRotation(m, angle, 0.0, 1.0, 0.0))
    {
      RotationOnCoordinateAxes(m, angle);
      var r := Matrix4.Rotate(m, angle, 0.0, 1.0, 0.0);
      transformMatrix := transformMatrix.Mul(r);
    }

    /** `rotateZ(angle)`: the axis is `(0, 0, 1)`. */
    method RotateZ(m: Libm, angle: real)
      requires Valid()
      modifies this
      ensures Valid() && fresh(transformMatrix.mat)
      ensures Value() == MatMul(old(Value()), Rotation(m, angle, 0.0, 0.0, 1.0))
      ensures Value() == MatMul(old(Value()), AxisRotation(m, angle, 0.0, 0.0, 1.0))
    {
      RotationOnCoordinateAxes(m, angle);
      var r := Matrix4.Rotate(m, angle, 0.0, 0.0, 1.0);
      transformMatrix := transformMatrix.Mul(r);
    }

    /** `scale(x, y, z)`: right-multiplies by `Matrix4::scale`. */
    method Scale(x: real, y: real, z: real)
      requires Valid()
      modifies this
      ensures Valid() && fresh(transformMatrix.mat)
      ensures Value() == MatMul(old(Value()), Scaling(x, y, z))
    {
      var s := Matrix4.Scale(x, y, z);
      transformMatrix := transformMatrix.Mul(s);
    }
  }
}
