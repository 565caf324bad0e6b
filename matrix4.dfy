/** 4x4 matrices: row-major values, and the `Matrix4` object whose methods
    write its `mat` array in place. */
module Mat4 {
  import opened MathLib
  import Vec3
  import Vec4

  predicate IsMatrix(m: seq<seq<real>>) {
    |m| == 4 && forall i :: 0 <= i < 4 ==> |m[i]| == 4
  }

  /** A matrix value, `m[i][j]` being row `i`, column `j`. */
  type Matrix = m: seq<seq<real>> | IsMatrix(m) witness Identity

  /** 1 on the diagonal, 0 elsewhere. */
  const Identity: seq<seq<real>> :=
    [[1.0, 0.0, 0.0, 0.0], [0.0, 1.0, 0.0, 0.0], [0.0, 0.0, 1.0, 0.0], [0.0, 0.0, 0.0, 1.0]]

  /** `Matrix4::translate`: the identity with `(x, y, z)` in column 3. */
  function Translation(x: real, y: real, z: real): Matrix {
    [[1.0, 0.0, 0.0, x], [0.0, 1.0, 0.0, y], [0.0, 0.0, 1.0, z], [0.0, 0.0, 0.0, 1.0]]
  }

  /** `Matrix4::scale`: the identity with `(x, y, z)` on the diagonal. */
  function Scaling(x: real, y: real, z: real): Matrix {
    [[x, 0.0, 0.0, 0.0], [0.0, y, 0.0, 0.0], [0.0, 0.0, z, 0.0], [0.0, 0.0, 0.0, 1.0]]
  }

  /** `Matrix4::rotate(angle, x, y, z)` with `s = sin angle`, `c = cos angle`
      and `oc = 1 - c`, entry by entry as the renderer writes them (the
      diagonal uses `x * oc`, not `x * x * oc`). */
  function Rotation(m: Libm, angle: real, x: real, y: real, z: real): Matrix {
    var s, c := m.sin(angle), m.cos(angle);
    var oc := 1.0 - c;
    [[x * oc + c, y * x * oc + z * s, x * z * oc - y * s, 0.0],
     [x * y * oc - z * s, y * oc + c, y * z * oc + x * s, 0.0],
     [x * z * oc + y * s, y * z * oc - x * s, z * oc + c, 0.0],
     [0.0, 0.0, 0.0, 1.0]]
  }

  /** The rotation about the axis `(x, y, z)` with the diagonal of Rodrigues'
      formula, `x * x * oc + c`; the off-diagonal entries are those of
      `Rotation`. */
  function AxisRotation(m: Libm, angle: real, x: real, y: real, z: real): Matrix {
    AxisRotationOf(m.sin(angle), 1.0 - m.cos(angle), m.cos(angle), x, y, z)
  }

  /** `AxisRotation` for the sine `s`, the cosine `c` and `oc = 1 - c`. */
  function AxisRotationOf(s: real, oc: real, c: real, x: real, y: real, z: real): Matrix {
    [[x * x * oc + c, y * x * oc + z * s, x * z * oc - y * s, 0.0],
     [x * y * oc - z * s, y * y * oc + c, y * z * oc + x * s, 0.0],
     [x * z * oc + y * s, y * z * oc - x * s, z * z * oc + c, 0.0],
     [0.0, 0.0, 0.0, 1.0]]
  }

  /** What `makeRotationFromBasis` writes: `right`, `up` and `-forward` as
      columns 0 to 2, and `(0, 0, 0, 1)` as column 3 and as row 3. */
  function Basis(right: Vec3.Vector3, up: Vec3.Vector3, forward: Vec3.Vector3): Matrix {
    [[right.x, up.x, -forward.x, 0.0],
     [right.y, up.y, -forward.y, 0.0],
     [right.z, up.z, -forward.z, 0.0],
     [0.0, 0.0, 0.0, 1.0]]
  }

  /** Row `i` of `a` times column `j` of `b`. */
  function Entry(a: Matrix, b: Matrix, i: nat, j: nat): real
    requires i < 4 && j < 4
  {
    a[i][0] * b[0][j] + a[i][1] * b[1][j] + a[i][2] * b[2][j] + a[i][3] * b[3][j]
  }

  /** The first `k` terms of `Entry(a, b, i, j)`, as `operator*` accumulates them. */
  function PartialEntry(a: Matrix, b: Matrix, i: nat, j: nat, k: nat): real
    requires i < 4 && j < 4 && k <= 4
  {
    if k == 0 then 0.0 else PartialEntry(a, b, i, j, k - 1) + a[i][k - 1] * b[k - 1][j]
  }

  /** All four terms accumulated give the full entry. */
  lemma PartialEntryComplete(a: Matrix, b: Matrix, i: nat, j: nat)
    requires i < 4 && j < 4
    ensures PartialEntry(a, b, i, j, 4) == Entry(a, b, i, j)
  {
    assert PartialEntry(a, b, i, j, 1) == a[i][0] * b[0][j];
    assert PartialEntry(a, b, i, j, 2) == PartialEntry(a, b, i, j, 1) + a[i][1] * b[1][j];
    assert PartialEntry(a, b, i, j, 3) == PartialEntry(a, b, i, j, 2) + a[i][2] * b[2][j];
  }

  /** The matrix product. */
  function MatMul(a: Matrix, b: Matrix): Matrix {
    seq(4, i requires 0 <= i < 4 => seq(4, j requires 0 <= j < 4 => Entry(a, b, i, j)))
  }

  /** `Matrix4 * Vector4`. */
  function Apply(a: Matrix, v: Vec4.Vector4): Vec4.Vector4 {
    Vec4.Vector4(
      a[0][0] * v.x + a[0][1] * v.y + a[0][2] * v.z + a[0][3] * v.w,
      a[1][0] * v.x + a[1][1] * v.y + a[1][2] * v.z + a[1][3] * v.w,
      a[2][0] * v.x + a[2][1] * v.y + a[2][2] * v.z + a[2][3] * v.w,
      a[3][0] * v.x + a[3][1] * v.y + a[3][2] * v.z + a[3][3] * v.w)
  }

  /** `Matrix4 * Vector3` as written: `y` and `z` are computed, but `x` is
      never assigned and keeps the 0 of `Vector3()`. */
  function ApplyLinearAsWritten(a: Matrix, v: Vec3.Vector3): (r: Vec3.Vector3)
    ensures r.x == 0.0
    ensures r.y == Apply(a, Vec4.Extend(v, 0.0)).y && r.z == Apply(a, Vec4.Extend(v, 0.0)).z
  {
    Vec3.Vector3(
      0.0,
      a[1][0] * v.x + a[1][1] * v.y + a[1][2] * v.z,
      a[2][0] * v.x + a[2][1] * v.y + a[2][2] * v.z)
  }

  /** `Matrix4 * Vector3` with all three rows: the upper-left 3x3 block
      applied to `v`, that is the `xyz` of the product with `w = 0`. */
  function ApplyLinear(a: Matrix, v: Vec3.Vector3): (r: Vec3.Vector3)
    ensures r == Vec4.Xyz(Apply(a, Vec4.Extend(v, 0.0)))
  {
    Vec3.Vector3(
      a[0][0] * v.x + a[0][1] * v.y + a[0][2] * v.z,
      a[1][0] * v.x + a[1][1] * v.y + a[1][2] * v.z,
      a[2][0] * v.x + a[2][1] * v.y + a[2][2] * v.z)
  }

  /** Two matrices with the same sixteen entries are equal. */
  lemma EqualEntries(a: Matrix, b: Matrix)
    requires forall i, j :: 0 <= i < 4 && 0 <= j < 4 ==> a[i][j] == b[i][j]
    ensures a == b
  {
    forall i | 0 <= i < 4
      ensures a[i] == b[i]
    {
      assert forall j :: 0 <= j < 4 ==> a[i][j] == b[i][j];
    }
  }

  /** The identity entries are 1 exactly on the diagonal. */
  lemma IdentityEntries(i: nat, j: nat)
    requires i < 4 && j < 4
    ensures Identity[i][j] == (if i == j then 1.0 else 0.0)
  {
  }

  /** The identity is a left and a right unit of the product. */
  lemma IdentityIsUnit(a: Matrix)
    ensures MatMul(Identity, a) == a
    ensures MatMul(a, Identity) == a
  {
    forall i, j | 0 <= i < 4 && 0 <= j < 4
      ensures MatMul(Identity, a)[i][j] == a[i][j]
      ensures MatMul(a, Identity)[i][j] == a[i][j]
    {
      IdentityEntries(i, 0);
      IdentityEntries(i, 1);
      IdentityEntries(i, 2);
      IdentityEntries(i, 3);
      IdentityEntries(0, j);
      IdentityEntries(1, j);
      IdentityEntries(2, j);
      IdentityEntries(3, j);
    }
    EqualEntries(MatMul(Identity, a), a);
    EqualEntries(MatMul(a, Identity), a);
  }

  /** The product is associative. */
  lemma MatMulAssociative(a: Matrix, b: Matrix, c: Matrix)
    ensures MatMul(MatMul(a, b), c) == MatMul(a, MatMul(b, c))
  {
    var l, r := MatMul(MatMul(a, b), c), MatMul(a, MatMul(b, c));
    forall i, j | 0 <= i < 4 && 0 <= j < 4
      ensures l[i][j] == r[i][j]
    {
      EntryAssociative(a, b, c, i, j);
    }
    EqualEntries(l, r);
  }

  lemma EntryAssociative(a: Matrix, b: Matrix, c: Matrix, i: nat, j: nat)
    requires i < 4 && j < 4
    ensures Entry(MatMul(a, b), c, i, j) == Entry(a, MatMul(b, c), i, j)
  {
    LeftEntry(a, b, c, i, j);
    RightEntry(a, b, c, i, j);
  }

  /** Entry `(i, j)` of `(a * b) * c` as the sixteen products
      `a[i][l] * b[l][k] * c[k][j]`, grouped by `k`. */
  lemma LeftEntry(a: Matrix, b: Matrix, c: Matrix, i: nat, j: nat)
    requires i < 4 && j < 4
    ensures Entry(MatMul(a, b), c, i, j)
      == a[i][0] * b[0][0] * c[0][j] + a[i][1] * b[1][0] * c[0][j] + a[i][2] * b[2][0] * c[0][j] + a[i][3] * b[3][0] * c[0][j]
        + a[i][0] * b[0][1] * c[1][j] + a[i][1] * b[1][1] * c[1][j] + a[i][2] * b[2][1] * c[1][j] + a[i][3] * b[3][1] * c[1][j]
        + a[i][0] * b[0][2] * c[2][j] + a[i][1] * b[1][2] * c[2][j] + a[i][2] * b[2][2] * c[2][j] + a[i][3] * b[3][2] * c[2][j]
        + a[i][0] * b[0][3] * c[3][j] + a[i][1] * b[1][3] * c[3][j] + a[i][2] * b[2][3] * c[3][j] + a[i][3] * b[3][3] * c[3][j]
  {
    EntryOf(MatMul(a, b), c, i, j);
    ProductEntry(a, b, i, 0);
    ProductEntry(a, b, i, 1);
    ProductEntry(a, b, i, 2);
    ProductEntry(a, b, i, 3);
    ColumnsFirst(a[i][0], a[i][1], a[i][2], a[i][3], b[0][0], b[0][1], b[0][2], b[0][3], b[1][0], b[1][1], b[1][2], b[1][3], b[2][0], b[2][1], b[2][2], b[2][3], b[3][0], b[3][1], b[3][2], b[3][3], c[0][j], c[1][j], c[2][j], c[3][j], MatMul(a, b)[i][0], MatMul(a, b)[i][1], MatMul(a, b)[i][2], MatMul(a, b)[i][3]);
  }

  /** Entry `(i, j)` of `a * (b * c)` as the same sixteen products, grouped
      by `l`. */
  lemma RightEntry(a: Matrix, b: Matrix, c: Matrix, i: nat, j: nat)
    requires i < 4 && j < 4
    ensures Entry(a, MatMul(b, c), i, j)
      == a[i][0] * b[0][0] * c[0][j] + a[i][0] * b[0][1] * c[1][j] + a[i][0] * b[0][2] * c[2][j] + a[i][0] * b[0][3] * c[3][j]
        + a[i][1] * b[1][0] * c[0][j] + a[i][1] * b[1][1] * c[1][j] + a[i][1] * b[1][2] * c[2][j] + a[i][1] * b[1][3] * c[3][j]
        + a[i][2] * b[2][0] * c[0][j] + a[i][2] * b[2][1] * c[1][j] + a[i][2] * b[2][2] * c[2][j] + a[i][2] * b[2][3] * c[3][j]
        + a[i][3] * b[3][0] * c[0][j] + a[i][3] * b[3][1] * c[1][j] + a[i][3] * b[3][2] * c[2][j] + a[i][3] * b[3][3] * c[3][j]
  {
    EntryOf(a, MatMul(b, c), i, j);
    ProductEntry(b, c, 0, j);
    ProductEntry(b, c, 1, j);
    ProductEntry(b, c, 2, j);
    ProductEntry(b, c, 3, j);
    RowsFirst(a[i][0], a[i][1], a[i][2], a[i][3], b[0][0], b[0][1], b[0][2], b[0][3], b[1][0], b[1][1], b[1][2], b[1][3], b[2][0], b[2][1], b[2][2], b[2][3], b[3][0], b[3][1], b[3][2], b[3][3], c[0][j], c[1][j], c[2][j], c[3][j], MatMul(b, c)[0][j], MatMul(b, c)[1][j], MatMul(b, c)[2][j], MatMul(b, c)[3][j]);
  }

  /** `Entry` spelled out, as a fact a caller can use without unfolding it. */
  lemma EntryOf(x: Matrix, y: Matrix, i: nat, j: nat)
    requires i < 4 && j < 4
    ensures Entry(x, y, i, j) == x[i][0] * y[0][j] + x[i][1] * y[1][j] + x[i][2] * y[2][j] + x[i][3] * y[3][j]
  {
  }

  /** Entry `(i, j)` of the product, spelled out. */
  lemma ProductEntry(x: Matrix, y: Matrix, i: nat, j: nat)
    requires i < 4 && j < 4
    ensures MatMul(x, y)[i][j] == x[i][0] * y[0][j] + x[i][1] * y[1][j] + x[i][2] * y[2][j] + x[i][3] * y[3][j]
  {
  }

  /** Row `x` times the columns `p` of `y`, then times column `z`: the
      sixteen products grouped by column. */
  lemma ColumnsFirst(x0: real, x1: real, x2: real, x3: real, y00: real, y01: real, y02: real, y03: real, y10: real, y11: real, y12: real, y13: real, y20: real, y21: real, y22: real, y23: real, y30: real, y31: real, y32: real, y33: real, z0: real, z1: real, z2: real, z3: real,
                     p0: real, p1: real, p2: real, p3: real)
    requires p0 == x0 * y00 + x1 * y10 + x2 * y20 + x3 * y30
    requires p1 == x0 * y01 + x1 * y11 + x2 * y21 + x3 * y31
    requires p2 == x0 * y02 + x1 * y12 + x2 * y22 + x3 * y32
    requires p3 == x0 * y03 + x1 * y13 + x2 * y23 + x3 * y33
    ensures p0 * z0 + p1 * z1 + p2 * z2 + p3 * z3
      == x0 * y00 * z0 + x1 * y10 * z0 + x2 * y20 * z0 + x3 * y30 * z0
        + x0 * y01 * z1 + x1 * y11 * z1 + x2 * y21 * z1 + x3 * y31 * z1
        + x0 * y02 * z2 + x1 * y12 * z2 + x2 * y22 * z2 + x3 * y32 * z2
        + x0 * y03 * z3 + x1 * y13 * z3 + x2 * y23 * z3 + x3 * y33 * z3
  {
    SumTimes(p0, x0, x1, x2, x3, y00, y10, y20, y30, z0);
    SumTimes(p1, x0, x1, x2, x3, y01, y11, y21, y31, z1);
    SumTimes(p2, x0, x1, x2, x3, y02, y12, y22, y32, z2);
    SumTimes(p3, x0, x1, x2, x3, y03, y13, y23, y33, z3);
  }

  /** Row `x` times the rows `q` of `y` times column `z`: the sixteen
      products grouped by row. */
  lemma RowsFirst(x0: real, x1: real, x2: real, x3: real, y00: real, y01: real, y02: real, y03: real, y10: real, y11: real, y12: real, y13: real, y20: real, y21: real, y22: real, y23: real, y30: real, y31: real, y32: real, y33: real, z0: real, z1: real, z2: real, z3: real,
                  q0: real, q1: real, q2: real, q3: real)
    requires q0 == y00 * z0 + y01 * z1 + y02 * z2 + y03 * z3
    requires q1 == y10 * z0 + y11 * z1 + y12 * z2 + y13 * z3
    requires q2 == y20 * z0 + y21 * z1 + y22 * z2 + y23 * z3
    requires q3 == y30 * z0 + y31 * z1 + y32 * z2 + y33 * z3
    ensures x0 * q0 + x1 * q1 + x2 * q2 + x3 * q3
      == x0 * y00 * z0 + x0 * y01 * z1 + x0 * y02 * z2 + x0 * y03 * z3
        + x1 * y10 * z0 + x1 * y11 * z1 + x1 * y12 * z2 + x1 * y13 * z3
        + x2 * y20 * z0 + x2 * y21 * z1 + x2 * y22 * z2 + x2 * y23 * z3
        + x3 * y30 * z0 + x3 * y31 * z1 + x3 * y32 * z2 + x3 * y33 * z3
  {
    TimesSum(q0, x0, y00, y01, y02, y03, z0, z1, z2, z3);
    TimesSum(q1, x1, y10, y11, y12, y13, z0, z1, z2, z3);
    TimesSum(q2, x2, y20, y21, y22, y23, z0, z1, z2, z3);
    TimesSum(q3, x3, y30, y31, y32, y33, z0, z1, z2, z3);
  }

  /** A sum of four products, times `c`, distributed. */
  lemma SumTimes(s: real, x0: real, x1: real, x2: real, x3: real, y0: real, y1: real, y2: real, y3: real, c: real)
    requires s == x0 * y0 + x1 * y1 + x2 * y2 + x3 * y3
    ensures s * c == x0 * y0 * c + x1 * y1 * c + x2 * y2 * c + x3 * y3 * c
  {
  }

  /** `x` times a sum of four products, distributed. */
  lemma TimesSum(s: real, x: real, y0: real, y1: real, y2: real, y3: real, c0: real, c1: real, c2: real, c3: real)
    requires s == y0 * c0 + y1 * c1 + y2 * c2 + y3 * c3
    ensures x * s == x * y0 * c0 + x * y1 * c1 + x * y2 * c2 + x * y3 * c3
  {
  }

  /** Two translations compose by adding their offsets. */
  lemma TranslationsCompose(x1: real, y1: real, z1: real, x2: real, y2: real, z2: real)
    ensures MatMul(Translation(x1, y1, z1), Translation(x2, y2, z2)) == Translation(x1 + x2, y1 + y2, z1 + z2)
  {
    var p, t := MatMul(Translation(x1, y1, z1), Translation(x2, y2, z2)), Translation(x1 + x2, y1 + y2, z1 + z2);
    forall i, j | 0 <= i < 4 && 0 <= j < 4
      ensures p[i][j] == t[i][j]
    {
    }
    EqualEntries(p, t);
  }

  /** A translation moves a point (`w = 1`) by its offset and leaves a
      direction (`w = 0`) as it is. */
  lemma TranslationOnPointsAndDirections(x: real, y: real, z: real, p: Vec3.Vector3)
    ensures Apply(Translation(x, y, z), Vec4.Extend(p, 1.0)) == Vec4.Extend(Vec3.Add(p, Vec3.Vector3(x, y, z)), 1.0)
    ensures Apply(Translation(x, y, z), Vec4.Extend(p, 0.0)) == Vec4.Extend(p, 0.0)
  {
  }

  /** A rotation by angle 0 is the identity whatever the axis, given
      `sin 0 = 0` and `cos 0 = 1`. */
  lemma RotationByZero(m: Libm, x: real, y: real, z: real)
    requires TrigAtZero(m)
    ensures Rotation(m, 0.0, x, y, z) == Identity
  {
    var r := Rotation(m, 0.0, x, y, z);
    assert 1.0 - m.cos(0.0) == 0.0;
    forall i, j | 0 <= i < 4 && 0 <= j < 4
      ensures r[i][j] == Identity[i][j]
    {
    }
    EqualEntries(r, Identity);
  }

  /** The columns written by `makeRotationFromBasis`. */
  lemma BasisColumns(right: Vec3.Vector3, up: Vec3.Vector3, forward: Vec3.Vector3)
    ensures Apply(Basis(right, up, forward), Vec4.Vector4(1.0, 0.0, 0.0, 0.0)) == Vec4.Extend(right, 0.0)
    ensures Apply(Basis(right, up, forward), Vec4.Vector4(0.0, 1.0, 0.0, 0.0)) == Vec4.Extend(up, 0.0)
    ensures Apply(Basis(right, up, forward), Vec4.Vector4(0.0, 0.0, 1.0, 0.0)) == Vec4.Extend(Vec3.Neg(forward), 0.0)
    ensures Apply(Basis(right, up, forward), Vec4.Vector4(0.0, 0.0, 0.0, 1.0)) == Vec4.Vector4(0.0, 0.0, 0.0, 1.0)
  {
  }

  /** `Matrix4 * Vector3` as written loses the `x` component: the identity
      sends `(1, 0, 0)` to the zero vector. */
  lemma ApplyLinearAsWrittenDropsX()
    ensures ApplyLinearAsWritten(Identity, Vec3.Vector3(1.0, 0.0, 0.0)) == Vec3.Zero
    ensures ApplyLinear(Identity, Vec3.Vector3(1.0, 0.0, 0.0)) == Vec3.Vector3(1.0, 0.0, 0.0)
  {
  }

  /** The corrected product maps every vector through the identity unchanged. */
  lemma ApplyLinearIdentity(v: Vec3.Vector3)
    ensures ApplyLinear(Identity, v) == v
  {
  }

  /** On the coordinate axes, the only ones `rotateX`, `rotateY` and
      `rotateZ` pass, the diagonal as written agrees with Rodrigues' formula. */
  lemma RotationOnCoordinateAxes(m: Libm, angle: real)
    ensures Rotation(m, angle, 1.0, 0.0, 0.0) == AxisRotation(m, angle, 1.0, 0.0, 0.0)
    ensures Rotation(m, angle, 0.0, 1.0, 0.0) == AxisRotation(m, angle, 0.0, 1.0, 0.0)
    ensures Rotation(m, angle, 0.0, 0.0, 1.0) == AxisRotation(m, angle, 0.0, 0.0, 1.0)
  {
  }

  /** The diagonal as written moves the axis of a quarter turn about the
      unit axis `(0.6, 0.8, 0)`: the first component becomes `0.744`. */
  lemma RotationAsWrittenMovesAxis(m: Libm, angle: real)
    requires m.cos(angle) == 0.0 && m.sin(angle) == 1.0
    ensures Apply(Rotation(m, angle, 0.6, 0.8, 0.0), Vec4.Vector4(0.6, 0.8, 0.0, 0.0)).x == 0.744
  {
  }

  /** A rotation about a unit axis leaves the axis where it is. */
  lemma AxisRotationFixesAxis(m: Libm, angle: real, x: real, y: real, z: real)
    requires x * x + y * y + z * z == 1.0
    ensures Apply(AxisRotation(m, angle, x, y, z), Vec4.Vector4(x, y, z, 0.0)) == Vec4.Vector4(x, y, z, 0.0)
  {
    var s, c := m.sin(angle), m.cos(angle);
    AxisFixedX(s, 1.0 - c, c, x, y, z);
    AxisFixedY(s, 1.0 - c, c, x, y, z);
    AxisFixedZ(s, 1.0 - c, c, x, y, z);
  }

  /** `a * (1 - c) + c * a == a`. */
  lemma CosineSplit(a: real, oc: real, c: real)
    requires oc == 1.0 - c
    ensures a * oc * 1.0 + c * a == a
  {
  }

  lemma AxisFixedX(s: real, oc: real, c: real, x: real, y: real, z: real)
    requires x * x + y * y + z * z == 1.0 && oc == 1.0 - c
    ensures Apply(AxisRotationOf(s, oc, c, x, y, z), Vec4.Vector4(x, y, z, 0.0)).x == x
  {
    var r := AxisRotationOf(s, oc, c, x, y, z);
    AxisRowX(x, y, z, s, oc, c, 1.0, r[0][0], r[0][1], r[0][2]);
    CosineSplit(x, oc, c);
  }

  lemma AxisFixedY(s: real, oc: real, c: real, x: real, y: real, z: real)
    requires x * x + y * y + z * z == 1.0 && oc == 1.0 - c
    ensures Apply(AxisRotationOf(s, oc, c, x, y, z), Vec4.Vector4(x, y, z, 0.0)).y == y
  {
    var r := AxisRotationOf(s, oc, c, x, y, z);
    AxisRowY(x, y, z, s, oc, c, 1.0, r[1][0], r[1][1], r[1][2]);
    CosineSplit(y, oc, c);
  }

  lemma AxisFixedZ(s: real, oc: real, c: real, x: real, y: real, z: real)
    requires x * x + y * y + z * z == 1.0 && oc == 1.0 - c
    ensures Apply(AxisRotationOf(s, oc, c, x, y, z), Vec4.Vector4(x, y, z, 0.0)).z == z
  {
    var r := AxisRotationOf(s, oc, c, x, y, z);
    AxisRowZ(x, y, z, s, oc, c, 1.0, r[2][0], r[2][1], r[2][2]);
    CosineSplit(z, oc, c);
  }

  /** Rows 0 to 2 of `AxisRotationFixesAxis`: in each, the `oc` terms sum
      to the axis component times `oc` times the squared length `n` of the
      axis, and the `s` terms cancel. */
  lemma AxisRowX(x: real, y: real, z: real, s: real, oc: real, c: real, n: real, e0: real, e1: real, e2: real)
    requires n == x * x + y * y + z * z
    requires e0 == x * x * oc + c && e1 == y * x * oc + z * s && e2 == x * z * oc - y * s
    ensures e0 * x + e1 * y + e2 * z + 0.0 * 0.0 == x * oc * n + c * x
  {
  }

  lemma AxisRowY(x: real, y: real, z: real, s: real, oc: real, c: real, n: real, e0: real, e1: real, e2: real)
    requires n == x * x + y * y + z * z
    requires e0 == x * y * oc - z * s && e1 == y * y * oc + c && e2 == y * z * oc + x * s
    ensures e0 * x + e1 * y + e2 * z + 0.0 * 0.0 == y * oc * n + c * y
  {
  }

  lemma AxisRowZ(x: real, y: real, z: real, s: real, oc: real, c: real, n: real, e0: real, e1: real, e2: real)
    requires n == x * x + y * y + z * z
    requires e0 == x * z * oc + y * s && e1 == y * z * oc - x * s && e2 == z * z * oc + c
    ensures e0 * x + e1 * y + e2 * z + 0.0 * 0.0 == z * oc * n + c * z
  {
  }

  /** A `Matrix4` object: a 4x4 array written in place. */
  class Matrix4 {
    const mat: array2<real>

    predicate Valid()
      reads this
    {
      mat.Length0 == 4 && mat.Length1 == 4
    }

    /** The entries as a value. */
    function Value(): Matrix
      reads this, mat
      requires Valid()
    {
      seq(4, i requires 0 <= i < 4 reads mat => seq(4, j requires 0 <= j < 4 reads mat => mat[i, j]))
    }

    /** `Matrix4()` starts as the identity. */
    constructor ()
      ensures Valid() && fresh(mat)
      ensures Holds(Identity) && Value() == Identity
    {
      mat := new real[4, 4];
      new;
      SetIdentity();
    }

    /** `identity()`: every entry is 1 if on the diagonal and 0 otherwise. */
    method SetIdentity()
      requires Valid()
      modifies mat
      ensures forall i, j :: 0 <= i < 4 && 0 <= j < 4 ==> mat[i, j] == (if i == j then 1.0 else 0.0)
      ensures Holds(Identity) && Value() == Identity
    {
      for i := 0 to 4
        invariant forall i', j :: 0 <= i' < i && 0 <= j < 4 ==> mat[i', j] == (if i' == j then 1.0 else 0.0)
      {
        for j := 0 to 4
          invariant forall i', j' :: 0 <= i' < i && 0 <= j' < 4 ==> mat[i', j'] == (if i' == j' then 1.0 else 0.0)
          invariant forall j' :: 0 <= j' < j ==> mat[i, j'] == (if i == j' then 1.0 else 0.0)
        {
          mat[i, j] := if i == j then 1.0 else 0.0;
        }
      }
      HoldsValue(Identity);
    }

    /** `Matrix4::translate(x, y, z)`. */
    static method Translate(x: real, y: real, z: real) returns (result: Matrix4)
      ensures result.Valid() && fresh(result.mat)
      ensures result.Value() == Translation(x, y, z)
    {
      result := new Matrix4();
      result.SetColumnBlock(3, x, y, z);
      result.HoldsValue(Translation(x, y, z));
    }

    /** `Matrix4::scale(x, y, z)`. */
    static method Scale(x: real, y: real, z: real) returns (result: Matrix4)
      ensures result.Valid() && fresh(result.mat)
      ensures result.Value() == Scaling(x, y, z)
    {
      result := new Matrix4();
      result.mat[0, 0] := x;
      result.mat[1, 1] := y;
      result.mat[2, 2] := z;
      result.HoldsValue(Scaling(x, y, z));
    }

    /** `Matrix4::rotate(angle, x, y, z)`: the nine entries of the upper-left
        3x3 block, as `Rotation` computes them, overwrite the identity. */
    static method Rotate(m: Libm, angle: real, x: real, y: real, z: real) returns (result: Matrix4)
      ensures result.Valid() && fresh(result.mat)
      ensures result.Value() == Rotation(m, angle, x, y, z)
    {
      var r := Rotation(m, angle, x, y, z);
      result := new Matrix4();
      result.SetRowBlock(0, r[0][0], r[0][1], r[0][2]);
      result.SetRowBlock(1, r[1][0], r[1][1], r[1][2]);
      result.SetRowBlock(2, r[2][0], r[2][1], r[2][2]);
      result.HoldsValue(r);
    }

    /** `operator*`: each entry starts at 0 and accumulates its four products. */
    method Mul(rhs: Matrix4) returns (result: Matrix4)
      requires Valid() && rhs.Valid()
      ensures result.Valid() && fresh(result.mat)
      ensures result.Value() == MatMul(Value(), rhs.Value())
    {
      ghost var a, b := Value(), rhs.Value();
      result := new Matrix4();
      for i := 0 to 4
        invariant result.Valid() && fresh(result.mat)
        invariant forall i', j' :: 0 <= i' < i && 0 <= j' < 4 ==> result.mat[i', j'] == Entry(a, b, i', j')
      {
        FillRow(rhs, result, i, a, b);
      }
      assert Value() == a && rhs.Value() == b;
      result.HoldsProduct(a, b);
    }

    /** The middle loop of `operator*`: row `i` of `result` receives the
        products of row `i` with every column of `rhs`; other rows keep
        their entries. */
    method FillRow(rhs: Matrix4, result: Matrix4, i: nat, ghost a: Matrix, ghost b: Matrix)
      requires Valid() && rhs.Valid() && result.Valid() && i < 4
      requires result.mat != mat && result.mat != rhs.mat
      requires a == Value() && b == rhs.Value()
      modifies result.mat
      ensures forall j :: 0 <= j < 4 ==> result.mat[i, j] == Entry(a, b, i, j)
      ensures forall i', j :: 0 <= i' < 4 && 0 <= j < 4 && i' != i ==> result.mat[i', j] == old(result.mat[i', j])
    {
      for j := 0 to 4
        invariant forall j' :: 0 <= j' < j ==> result.mat[i, j'] == Entry(a, b, i, j')
        invariant forall i', j' :: 0 <= i' < 4 && 0 <= j' < 4 && i' != i ==> result.mat[i', j'] == old(result.mat[i', j'])
      {
        AccumulateEntry(rhs, result, i, j, a, b);
      }
    }

    /** The body of the innermost loop of `operator*`: entry `(i, j)` of
        `result` is reset to 0 and then accumulates row `i` of this matrix
        times column `j` of `rhs`; no other entry changes. */
    method AccumulateEntry(rhs: Matrix4, result: Matrix4, i: nat, j: nat, ghost a: Matrix, ghost b: Matrix)
      requires Valid() && rhs.Valid() && result.Valid() && i < 4 && j < 4
      requires result.mat != mat && result.mat != rhs.mat
      requires a == Value() && b == rhs.Value()
      modifies result.mat
      ensures result.mat[i, j] == Entry(a, b, i, j)
      ensures forall i', j' :: 0 <= i' < 4 && 0 <= j' < 4 && (i' != i || j' != j) ==>
        result.mat[i', j'] == old(result.mat[i', j'])
    {
      result.mat[i, j] := 0.0;
      for k := 0 to 4
        invariant result.mat[i, j] == PartialEntry(a, b, i, j, k)
        invariant forall i', j' :: 0 <= i' < 4 && 0 <= j' < 4 && (i' != i || j' != j) ==>
          result.mat[i', j'] == old(result.mat[i', j'])
      {
        result.mat[i, j] := result.mat[i, j] + mat[i, k] * rhs.mat[k, j];
      }
      PartialEntryComplete(a, b, i, j);
    }

    /** `makeTranslation`: resets to the identity first, so the result does
        not depend on what the matrix held before. */
    method MakeTranslation(x: real, y: real, z: real)
      requires Valid()
      modifies mat
      ensures Value() == Translation(x, y, z)
    {
      SetIdentity();
      SetColumnBlock(3, x, y, z);
      HoldsValue(Translation(x, y, z));
    }

    /** `makeRotationFromBasis`: all sixteen entries are written. */
    method MakeRotationFromBasis(right: Vec3.Vector3, up: Vec3.Vector3, forward: Vec3.Vector3)
      requires Valid()
      modifies mat
      ensures Value() == Basis(right, up, forward)
    {
      SetColumn(0, right.x, right.y, right.z, 0.0);
      SetColumn(1, up.x, up.y, up.z, 0.0);
      SetColumn(2, -forward.x, -forward.y, -forward.z, 0.0);
      SetColumn(3, 0.0, 0.0, 0.0, 1.0);
      HoldsValue(Basis(right, up, forward));
    }

    /** Writes entries `0` to `2` of row `i`, as `rotate` does row by row;
        every other entry keeps its value. */
    method SetRowBlock(i: nat, e0: real, e1: real, e2: real)
      requires Valid() && i < 3
      modifies mat
      ensures mat[i, 0] == e0 && mat[i, 1] == e1 && mat[i, 2] == e2
      ensures forall i', j :: 0 <= i' < 4 && 0 <= j < 4 && (i' != i || j == 3) ==> mat[i', j] == old(mat[i', j])
    {
      mat[i, 0] := e0;
      mat[i, 1] := e1;
      mat[i, 2] := e2;
    }

    /** Writes rows `0` to `2` of column `j`, as `translate` and
        `makeTranslation` do for column 3; every other entry keeps its value. */
    method SetColumnBlock(j: nat, e0: real, e1: real, e2: real)
      requires Valid() && j < 4
      modifies mat
      ensures mat[0, j] == e0 && mat[1, j] == e1 && mat[2, j] == e2
      ensures forall i, j' :: 0 <= i < 4 && 0 <= j' < 4 && (i == 3 || j' != j) ==> mat[i, j'] == old(mat[i, j'])
    {
      mat[0, j] := e0;
      mat[1, j] := e1;
      mat[2, j] := e2;
    }

    /** Writes column `j` top to bottom, as `makeRotationFromBasis` does
        column by column; every other column keeps its entries. */
    method SetColumn(j: nat, e0: real, e1: real, e2: real, e3: real)
      requires Valid() && j < 4
      modifies mat
      ensures mat[0, j] == e0 && mat[1, j] == e1 && mat[2, j] == e2 && mat[3, j] == e3
      ensures forall i, j' :: 0 <= i < 4 && 0 <= j' < 4 && j' != j ==> mat[i, j'] == old(mat[i, j'])
    {
      mat[0, j] := e0;
      mat[1, j] := e1;
      mat[2, j] := e2;
      mat[3, j] := e3;
    }

    /** The array holds the sixteen entries of `m`. */
    predicate Holds(m: Matrix)
      reads this, mat
      requires Valid()
    {
      && mat[0, 0] == m[0][0] && mat[0, 1] == m[0][1] && mat[0, 2] == m[0][2] && mat[0, 3] == m[0][3]
      && mat[1, 0] == m[1][0] && mat[1, 1] == m[1][1] && mat[1, 2] == m[1][2] && mat[1, 3] == m[1][3]
      && mat[2, 0] == m[2][0] && mat[2, 1] == m[2][1] && mat[2, 2] == m[2][2] && mat[2, 3] == m[2][3]
      && mat[3, 0] == m[3][0] && mat[3, 1] == m[3][1] && mat[3, 2] == m[3][2] && mat[3, 3] == m[3][3]
    }

    lemma HoldsProduct(a: Matrix, b: Matrix)
      requires Valid()
      requires forall i, j :: 0 <= i < 4 && 0 <= j < 4 ==> mat[i, j] == Entry(a, b, i, j)
      ensures Value() == MatMul(a, b)
    {
      EqualEntries(Value(), MatMul(a, b));
    }

    lemma HoldsValue(m: Matrix)
      requires Valid() && Holds(m)
      ensures Value() == m
    {
      EqualEntries(Value(), m);
    }
  }
}
