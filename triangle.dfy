/** Triangles with per-vertex normals and texture coordinates, and the
    Möller–Trumbore ray intersection. */
module Triangles {
  import opened MathLib
  import opened Vec3
  import Vec2
  import opened Rays
  import Materials
  import TB = TextureBuild

  datatype Triangle = Triangle(
    v0: Vector3, v1: Vector3, v2: Vector3,
    t0: Vec2.Vector2, t1: Vec2.Vector2, t2: Vec2.Vector2,
    n0: Vector3, n1: Vector3, n2: Vector3,
    material: Materials.Material,
    texture: Option<TB.TextureState>)

  /** The untextured constructor: texture coordinates default to `(0, 0)`
      and there is no texture. */
  function MakeTriangle(v0: Vector3, v1: Vector3, v2: Vector3,
                        n0: Vector3, n1: Vector3, n2: Vector3,
                        material: Materials.Material): (tri: Triangle)
    ensures tri.texture == None
    ensures tri.t0 == Vec2.Zero && tri.t1 == Vec2.Zero && tri.t2 == Vec2.Zero
  {
    Triangle(v0, v1, v2, Vec2.Zero, Vec2.Zero, Vec2.Zero, n0, n1, n2, material, None)
  }

  /** The textured constructor stores every argument. */
  function MakeTexturedTriangle(v0: Vector3, v1: Vector3, v2: Vector3,
                                t0: Vec2.Vector2, t1: Vec2.Vector2, t2: Vec2.Vector2,
                                n0: Vector3, n1: Vector3, n2: Vector3,
                                material: Materials.Material,
                                texture: Option<TB.TextureState>): Triangle
  {
    Triangle(v0, v1, v2, t0, t1, t2, n0, n1, n2, material, texture)
  }

  /** The barycentric combination `(1 - u - v) a + u b + v c`: the first
      corner at `(0, 0)`, the second at `(1, 0)`, the third at `(0, 1)`. */
  function Blend(a: Vector3, b: Vector3, c: Vector3, u: real, v: real): Vector3 {
    Add(Add(ScaleLeft(1.0 - u - v, a), ScaleLeft(u, b)), ScaleLeft(v, c))
  }

  lemma BlendCorners(a: Vector3, b: Vector3, c: Vector3)
    ensures Blend(a, b, c, 0.0, 0.0) == a
    ensures Blend(a, b, c, 1.0, 0.0) == b
    ensures Blend(a, b, c, 0.0, 1.0) == c
  {
    assert Blend(a, b, c, 0.0, 1.0) == Add(Add(ScaleLeft(0.0, a), ScaleLeft(0.0, b)), ScaleLeft(1.0, c));
    assert ScaleLeft(0.0, a) == Zero && ScaleLeft(0.0, b) == Zero;
    assert ScaleLeft(1.0, c) == c;
  }

  /** The solution of the Möller–Trumbore system: barycentric `u`, `v` and
      the distance `t`. */
  datatype Solution = Solution(u: real, v: real, t: real)

  /** `1 / det`, taken once the determinant is known to be non-zero. */
  function Inv(det: real): real
    requires det != 0.0
  {
    1.0 / det
  }

  lemma InverseTimes(det: real)
    requires det != 0.0
    ensures Inv(det) * det == 1.0
  {
  }

  /** Solving the system: nothing when the determinant `edge1 . pVec`
      vanishes (the ray is parallel to the plane, or the direction is
      zero); otherwise each unknown is a triple product times `1 / det`. */
  function Solve(tri: Triangle, ray: Ray): Option<Solution> {
    var edge1, edge2 := Sub(tri.v1, tri.v0), Sub(tri.v2, tri.v0);
    var pVec := Cross(ray.direction, edge2);
    var det := Dot(edge1, pVec);
    if det == 0.0 then None
    else
      var invDet := Inv(det);
      var tVec := Sub(ray.origin, tri.v0);
      var qVec := Cross(tVec, edge1);
      Some(Solution(Times(Dot(tVec, pVec), invDet), Times(Dot(ray.direction, qVec), invDet), Times(Dot(edge2, qVec), invDet)))
  }

  /** `Solve` in terms of its intermediate vectors, one unknown at a time. */
  lemma SolveParts(tri: Triangle, ray: Ray, edge1: Vector3, edge2: Vector3, pVec: Vector3, det: real,
                   tVec: Vector3, qVec: Vector3)
    requires edge1 == Sub(tri.v1, tri.v0) && edge2 == Sub(tri.v2, tri.v0)
    requires pVec == Cross(ray.direction, edge2) && det == Dot(edge1, pVec)
    requires tVec == Sub(ray.origin, tri.v0) && qVec == Cross(tVec, edge1)
    ensures det == 0.0 <==> Solve(tri, ray).None?
    ensures det != 0.0 ==> Solve(tri, ray).value.u == Times(Dot(tVec, pVec), Inv(det))
    ensures det != 0.0 ==> Solve(tri, ray).value.v == Times(Dot(ray.direction, qVec), Inv(det))
    ensures det != 0.0 ==> Solve(tri, ray).value.t == Times(Dot(edge2, qVec), Inv(det))
  {
  }

  /** The barycentric window: `0 <= u <= 1`, `v >= 0`, `u + v <= 1`. */
  predicate InTriangle(s: Solution) {
    0.0 <= s.u <= 1.0 && s.v >= 0.0 && s.u + s.v <= 1.0
  }

  /** `intersect(ray, tMin, tMax, t, u, v)`. The out-parameters are written
      as the checks pass: `u` once the determinant is non-zero, `v` once `u`
      is in range, `t` only once both barycentric checks have passed. The
      result is true exactly when the solution lies in the triangle and
      `tMin <= t <= tMax`. */
  method Intersect(tri: Triangle, ray: Ray, tMin: real, tMax: real, tIn: real, uIn: real, vIn: real)
    returns (hit: bool, t: real, u: real, v: real)
    ensures hit <==> Solve(tri, ray).Some? && InTriangle(Solve(tri, ray).value)
                     && tMin <= Solve(tri, ray).value.t <= tMax
    ensures hit ==> Solution(u, v, t) == Solve(tri, ray).value
    ensures Solve(tri, ray).None? ==> t == tIn && u == uIn && v == vIn
    ensures Solve(tri, ray).Some? ==> u == Solve(tri, ray).value.u
    ensures Solve(tri, ray).Some? && 0.0 <= Solve(tri, ray).value.u <= 1.0 ==> v == Solve(tri, ray).value.v
    ensures Solve(tri, ray).Some? && !(0.0 <= Solve(tri, ray).value.u <= 1.0) ==> v == vIn
    ensures !(Solve(tri, ray).Some? && InTriangle(Solve(tri, ray).value)) ==> t == tIn
  {
    t, u, v := tIn, uIn, vIn;
    var edge1 := Sub(tri.v1, tri.v0);
    var edge2 := Sub(tri.v2, tri.v0);
    var pVec := Cross(ray.direction, edge2);
    var det := Dot(edge1, pVec);
    SolveParts(tri, ray, edge1, edge2, pVec, det, Sub(ray.origin, tri.v0), Cross(Sub(ray.origin, tri.v0), edge1));
    ghost var solution := Solve(tri, ray);
    if det == 0.0 {
      assert solution.None?;
      return false, t, u, v;
    }
    var invDet := Inv(det);
    var tVec := Sub(ray.origin, tri.v0);
    u := Times(Dot(tVec, pVec), invDet);
    assert u == solution.value.u;
    if u < 0.0 || u > 1.0 {
      assert !InTriangle(solution.value);
      return false, t, u, v;
    }
    var qVec := Cross(tVec, edge1);
    v := Times(Dot(ray.direction, qVec), invDet);
    assert v == solution.value.v;
    if v < 0.0 || u + v > 1.0 {
      assert !InTriangle(solution.value);
      return false, t, u, v;
    }
    assert InTriangle(solution.value);
    t := Times(Dot(edge2, qVec), invDet);
    assert t == solution.value.t;
    assert Solution(u, v, t) == solution.value;
    if t < tMin || t > tMax {
      return false, t, u, v;
    }
    return true, t, u, v;
  }

  /** Cramer's rule for the system behind Möller–Trumbore, one component at
      a time: `det * T == (T.P) e1 + (D.Q) e2 - (e2.Q) D`. */
  lemma CramerX(ray: Ray, a: Vector3, b: Vector3, c: Vector3, det: real, tp: real, dq: real, e2q: real)
    requires det == Dot(Sub(b, a), Cross(ray.direction, Sub(c, a)))
    requires tp == Dot(Sub(ray.origin, a), Cross(ray.direction, Sub(c, a)))
    requires dq == Dot(ray.direction, Cross(Sub(ray.origin, a), Sub(b, a)))
    requires e2q == Dot(Sub(c, a), Cross(Sub(ray.origin, a), Sub(b, a)))
    ensures det * Sub(ray.origin, a).x == tp * Sub(b, a).x + dq * Sub(c, a).x - e2q * ray.direction.x
  {
    CrossRuleX(ray.direction, Sub(b, a), Sub(c, a), Sub(ray.origin, a));
  }

  /** The identity behind `CramerX`, for any four vectors. */
  lemma CrossRuleX(d: Vector3, e1: Vector3, e2: Vector3, tv: Vector3)
    ensures Dot(e1, Cross(d, e2)) * tv.x
         == Dot(tv, Cross(d, e2)) * e1.x + Dot(d, Cross(tv, e1)) * e2.x - Dot(e2, Cross(tv, e1)) * d.x
  {
  }

  lemma CramerY(ray: Ray, a: Vector3, b: Vector3, c: Vector3, det: real, tp: real, dq: real, e2q: real)
    requires det == Dot(Sub(b, a), Cross(ray.direction, Sub(c, a)))
    requires tp == Dot(Sub(ray.origin, a), Cross(ray.direction, Sub(c, a)))
    requires dq == Dot(ray.direction, Cross(Sub(ray.origin, a), Sub(b, a)))
    requires e2q == Dot(Sub(c, a), Cross(Sub(ray.origin, a), Sub(b, a)))
    ensures det * Sub(ray.origin, a).y == tp * Sub(b, a).y + dq * Sub(c, a).y - e2q * ray.direction.y
  {
    CrossRuleY(ray.direction, Sub(b, a), Sub(c, a), Sub(ray.origin, a));
  }

  /** The identity behind `CramerY`, for any four vectors. */
  lemma CrossRuleY(d: Vector3, e1: Vector3, e2: Vector3, tv: Vector3)
    ensures Dot(e1, Cross(d, e2)) * tv.y
         == Dot(tv, Cross(d, e2)) * e1.y + Dot(d, Cross(tv, e1)) * e2.y - Dot(e2, Cross(tv, e1)) * d.y
  {
  }

  lemma CramerZ(ray: Ray, a: Vector3, b: Vector3, c: Vector3, det: real, tp: real, dq: real, e2q: real)
    requires det == Dot(Sub(b, a), Cross(ray.direction, Sub(c, a)))
    requires tp == Dot(Sub(ray.origin, a), Cross(ray.direction, Sub(c, a)))
    requires dq == Dot(ray.direction, Cross(Sub(ray.origin, a), Sub(b, a)))
    requires e2q == Dot(Sub(c, a), Cross(Sub(ray.origin, a), Sub(b, a)))
    ensures det * Sub(ray.origin, a).z == tp * Sub(b, a).z + dq * Sub(c, a).z - e2q * ray.direction.z
  {
    CrossRuleZ(ray.direction, Sub(b, a), Sub(c, a), Sub(ray.origin, a));
  }

  /** The identity behind `CramerZ`, for any four vectors. */
  lemma CrossRuleZ(d: Vector3, e1: Vector3, e2: Vector3, tv: Vector3)
    ensures Dot(e1, Cross(d, e2)) * tv.z
         == Dot(tv, Cross(d, e2)) * e1.z + Dot(d, Cross(tv, e1)) * e2.z - Dot(e2, Cross(tv, e1)) * d.z
  {
  }

  /** The solution is exact: travelling `t` along the ray reaches the point
      with barycentric coordinates `(u, v)` on the triangle's plane. With
      the window checks of `intersect`, that point lies inside the
      triangle. */
  lemma SolutionIsOnTriangle(tri: Triangle, ray: Ray)
    requires Solve(tri, ray).Some?
    ensures var s := Solve(tri, ray).value;
      PointAt(ray, s.t) == Blend(tri.v0, tri.v1, tri.v2, s.u, s.v)
  {
    var d, e1, e2 := ray.direction, Sub(tri.v1, tri.v0), Sub(tri.v2, tri.v0);
    var tv := Sub(ray.origin, tri.v0);
    SolveParts(tri, ray, e1, e2, Cross(d, e2), Dot(e1, Cross(d, e2)), tv, Cross(tv, e1));
    CramerSolution(ray, tri.v0, tri.v1, tri.v2, Dot(e1, Cross(d, e2)),
                   Dot(tv, Cross(d, e2)), Dot(d, Cross(tv, e1)), Dot(e2, Cross(tv, e1)));
  }

  /** The three triple products of `Solve`, for corners `a`, `b`, `c`,
      satisfy Cramer's rule, so the point they give lies on the blend. */
  lemma CramerSolution(ray: Ray, a: Vector3, b: Vector3, c: Vector3, det: real, tp: real, dq: real, e2q: real)
    requires det == Dot(Sub(b, a), Cross(ray.direction, Sub(c, a))) && det != 0.0
    requires tp == Dot(Sub(ray.origin, a), Cross(ray.direction, Sub(c, a)))
    requires dq == Dot(ray.direction, Cross(Sub(ray.origin, a), Sub(b, a)))
    requires e2q == Dot(Sub(c, a), Cross(Sub(ray.origin, a), Sub(b, a)))
    ensures PointAt(ray, Times(e2q, Inv(det))) == Blend(a, b, c, Times(tp, Inv(det)), Times(dq, Inv(det)))
  {
    CramerX(ray, a, b, c, det, tp, dq, e2q);
    CramerY(ray, a, b, c, det, tp, dq, e2q);
    CramerZ(ray, a, b, c, det, tp, dq, e2q);
    CramerOnTriangle(ray, a, b, c, det, tp, dq, e2q);
  }

  /** Cramer's rule, assembled: with a non-zero determinant, the point at
      `t` is the blend of the corners with weights `(u, v)`. */
  lemma CramerOnTriangle(ray: Ray, a: Vector3, b: Vector3, c: Vector3, det: real, tp: real, dq: real, e2q: real)
    requires det != 0.0
    requires det * Sub(ray.origin, a).x == tp * Sub(b, a).x + dq * Sub(c, a).x - e2q * ray.direction.x
    requires det * Sub(ray.origin, a).y == tp * Sub(b, a).y + dq * Sub(c, a).y - e2q * ray.direction.y
    requires det * Sub(ray.origin, a).z == tp * Sub(b, a).z + dq * Sub(c, a).z - e2q * ray.direction.z
    ensures PointAt(ray, Times(e2q, Inv(det))) == Blend(a, b, c, Times(tp, Inv(det)), Times(dq, Inv(det)))
  {
    var e1, e2, tv := Sub(b, a), Sub(c, a), Sub(ray.origin, a);
    ComponentOnTriangle(det, tp, dq, e2q, ray.origin.x, ray.direction.x, a.x, b.x, c.x, tv.x, e1.x, e2.x);
    ComponentOnTriangle(det, tp, dq, e2q, ray.origin.y, ray.direction.y, a.y, b.y, c.y, tv.y, e1.y, e2.y);
    ComponentOnTriangle(det, tp, dq, e2q, ray.origin.z, ray.direction.z, a.z, b.z, c.z, tv.z, e1.z, e2.z);
    OnTriangleFromComponents(ray, a, b, c, Times(tp, Inv(det)), Times(dq, Inv(det)), Times(e2q, Inv(det)));
  }

  /** Cramer's identity for one component, divided by the determinant: the
      ray point `o + d t` equals the barycentric blend of the corners. */
  lemma ComponentOnTriangle(det: real, tp: real, dq: real, e2q: real, o: real, d: real,
                             a: real, b: real, c: real, tv: real, e1: real, e2: real)
    requires det != 0.0
    requires tv == o - a && e1 == b - a && e2 == c - a
    requires det * tv == tp * e1 + dq * e2 - e2q * d
    ensures o + d * Times(e2q, Inv(det))
         == (1.0 - Times(tp, Inv(det)) - Times(dq, Inv(det))) * a + Times(tp, Inv(det)) * b + Times(dq, Inv(det)) * c
  {
    var inv := Inv(det);
    InverseTimes(det);
    assert det * (o - a) == tp * (b - a) + dq * (c - a) - e2q * d;
    calc {
      o + d * (e2q * inv);
      a + (det * (o - a)) * inv + d * (e2q * inv);
      a + (tp * (b - a) + dq * (c - a) - e2q * d) * inv + d * (e2q * inv);
      (1.0 - tp * inv - dq * inv) * a + (tp * inv) * b + (dq * inv) * c;
    }
  }

  /** Reassembling the three component equations into the vector one. */
  lemma OnTriangleFromComponents(ray: Ray, a: Vector3, b: Vector3, c: Vector3, u: real, v: real, t: real)
    requires ray.origin.x + ray.direction.x * t == (1.0 - u - v) * a.x + u * b.x + v * c.x
    requires ray.origin.y + ray.direction.y * t == (1.0 - u - v) * a.y + u * b.y + v * c.y
    requires ray.origin.z + ray.direction.z * t == (1.0 - u - v) * a.z + u * b.z + v * c.z
    ensures PointAt(ray, t) == Blend(a, b, c, u, v)
  {
    var p, q := PointAt(ray, t), Blend(a, b, c, u, v);
    PointAtComponents(ray, t);
    BlendComponents(a, b, c, u, v);
    assert p == Vector3(q.x, q.y, q.z);
  }

  lemma PointAtComponents(ray: Ray, t: real)
    ensures PointAt(ray, t).x == ray.origin.x + ray.direction.x * t
    ensures PointAt(ray, t).y == ray.origin.y + ray.direction.y * t
    ensures PointAt(ray, t).z == ray.origin.z + ray.direction.z * t
  {
  }

  lemma BlendComponents(a: Vector3, b: Vector3, c: Vector3, u: real, v: real)
    ensures Blend(a, b, c, u, v).x == (1.0 - u - v) * a.x + u * b.x + v * c.x
    ensures Blend(a, b, c, u, v).y == (1.0 - u - v) * a.y + u * b.y + v * c.y
    ensures Blend(a, b, c, u, v).z == (1.0 - u - v) * a.z + u * b.z + v * c.z
  {
    var p, q, r := ScaleLeft(1.0 - u - v, a), ScaleLeft(u, b), ScaleLeft(v, c);
    assert p == Vector3((1.0 - u - v) * a.x, (1.0 - u - v) * a.y, (1.0 - u - v) * a.z);
    assert q == Vector3(u * b.x, u * b.y, u * b.z);
    assert r == Vector3(v * c.x, v * c.y, v * c.z);
    assert Blend(a, b, c, u, v) == Add(Add(p, q), r);
  }

  /** `calculateNormal(u, v)`: the vertex normals blended with the
      barycentric weights, so the corners give back `n0`, `n1` and `n2`. */
  function CalculateNormal(tri: Triangle, u: real, v: real): (n: Vector3)
    ensures u == 0.0 && v == 0.0 ==> n == tri.n0
    ensures u == 1.0 && v == 0.0 ==> n == tri.n1
    ensures u == 0.0 && v == 1.0 ==> n == tri.n2
  {
    BlendCorners(tri.n0, tri.n1, tri.n2);
    Blend(tri.n0, tri.n1, tri.n2, u, v)
  }

  /** `textureCoordinates(a, b)`: the vertex texture coordinates blended
      with the barycentric weights, each then passed through `interpolate`.
      At the corners they are the remapped vertex coordinates. */
  function TextureCoordinates(tri: Triangle, a: real, b: real): (uv: Vec2.Vector2)
    ensures a == 0.0 && b == 0.0 ==>
      uv == Vec2.Vector2(Materials.Interpolate(tri.t0.x), Materials.Interpolate(tri.t0.y))
    ensures a == 1.0 && b == 0.0 ==>
      uv == Vec2.Vector2(Materials.Interpolate(tri.t1.x), Materials.Interpolate(tri.t1.y))
    ensures a == 0.0 && b == 1.0 ==>
      uv == Vec2.Vector2(Materials.Interpolate(tri.t2.x), Materials.Interpolate(tri.t2.y))
  {
    var u := (1.0 - a - b) * tri.t0.x + a * tri.t1.x + b * tri.t2.x;
    var v := (1.0 - a - b) * tri.t0.y + a * tri.t1.y + b * tri.t2.y;
    Vec2.Vector2(Materials.Interpolate(u), Materials.Interpolate(v))
  }
}
