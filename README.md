# A verified model of a Whitted ray tracer

This project models, in Dafny, the core of a small C++ Whitted-style ray tracer and proves properties of that model.

The renderer works as follows:
- It casts one primary ray per pixel from a camera. The camera can be a pinhole, carry an explicit transform, or use a thin lens.
- It finds the nearest sphere or mesh triangle on each ray.
- It shades the hit. Shading adds an ambient term and a Phong term for each light with a hard shadow test. It then blends in reflected and refracted rays traced recursively, adds spotlights, and modulates the colour by a supersampled texture.
- It writes the image as a plain `P3` PPM file, bottom row first.

The model covers these parts:
- the value algebra: `Vector2`, `Vector3`, `Vector4`, `Color`, `Ray`, `Matrix4` and `Transform`;
- the two primitives, `Sphere` and `Triangle`, and the `Spotlight` cone;
- the OBJ-style `Model` assembly;
- the nearest-hit `Scene::intersect`;
- both snapshots of `Texture` and of `Camera`, one under `classes/` and the other under `build/classes/`;
- the recursive shader `ray_trace`;
- the pixel driver `render`.

Arithmetic is over `real`. The square root and the trigonometric functions (`sqrt`, `sin`, `cos`, `tan`, `asin`, `acos`, `atan2`, `pow`) are fields of a `MathLib.Libm` value passed to every operation that needs them. A lemma that relies on one of their properties states it as a precondition, for example `SqrtLaw`, `TrigAtZero` or `InverseTrigRanges`.

Two kinds of code are modelled imperatively:
- Code that changes state in place is a class with `modifies` clauses. This covers `Matrix4`, `Transform`, the compound operators of `Vector4` and `Color`, `Texture`, `Model` and `Scene`.
- Loops are methods with loop invariants. This covers the matrix product, texture loading, `sampleSuper`, the scene scan, the light loops of `ray_trace` and both loops of `render`.

Each such method is proved against a function that specifies it. Expression code is modelled as functions, and lemmas state its properties.

`ray_trace` never reads a light's type, so an `AMBIENT` light is shaded exactly like a `POINT` light at the same position: it goes through the same shadow ray and the same Phong terms (`RayTrace.AmbientLikePoint`).

## Model

| member | source | states |
|---|---|---|
| MathLib.Quot | classes/Vector3.h:31 | for a non-zero divisor the quotient times the divisor gives the dividend back; a zero divisor gives 0 (the model's reading of IEEE infinities) |
| MathLib.Max | classes/Vector3.h:89 | `std::max` is an upper bound of both arguments and equals one of them |
| MathLib.Min | classes/Vector3.h:89 | `std::min` is a lower bound of both arguments and equals one of them |
| MathLib.Trunc | classes/render.h:37-39 | `int(x)` truncates toward zero: for `x >= 0` it is the floor, for `x < 0` the ceiling |
| MathLib.SquareRootUnique | classes/Vector3.h:82 | two non-negative reals with the same square are equal, so `sqrt` of `c * c` is `c` for `c >= 0` |
| Vec3.Add | classes/Vector3.h:15 | definition, no contract; `Vec3.Sub` states that subtracting `b` is undone by adding it back |
| Vec3.Scale | classes/Vector3.h:17 | definition, no contract; `Vec3.ScaleLeft` states that the friend `f * v` equals it |
| Vec3.Mul | classes/Vector3.h:28 | definition, no contract; the componentwise product; `RayTrace.UniformTextureTints` states the texture modulation built on it |
| Vec3.Sub | classes/Vector3.h:16 | `a - b` is the vector that, added to `b`, gives `a` |
| Vec3.ScaleLeft | classes/Vector3.h:41 | the friend `f * v` is the member `v * f` |
| Vec3.Neg | classes/Vector3.h:38 | unary minus gives the additive inverse |
| Vec3.Div | classes/Vector3.h:50 | for non-zero `f`, `(v / f) * f == v`; dividing by 0 gives the zero vector |
| Vec3.Dot | classes/Vector3.h:19 | definition, no contract; `Vec3.CrossOrthogonal` and `Vec3.NormZeroIff` state its properties |
| Vec3.Cross | classes/Vector3.h:20-26 | definition, no contract; `Vec3.CrossOrthogonal` states that `a x b` is orthogonal to both arguments |
| Vec3.Norm | classes/Vector3.h:33 | definition, no contract; `Vec3.NormZeroIff` states it is non-negative and zero exactly at the zero vector |
| Vec3.Length | classes/Vector3.h:30 | definition, no contract; `Vec3.LengthSquaredIsNorm` states that `length()^2 == norm()` |
| Vec3.Normalized | classes/Vector3.h:31 | definition, no contract; `Vec3.NormalizedIsUnit` states that a non-zero vector normalises to length 1 |
| Vec3.CrossOrthogonal | classes/Vector3.h:19-26 | `a . (a x b) == 0` and `b . (a x b) == 0` |
| Vec3.NormZeroIff | classes/Vector3.h:33 | `norm()` is non-negative and is 0 exactly for the zero vector |
| Vec3.LengthSquaredIsNorm | classes/Vector3.h:30-33 | `length()` is non-negative and `length()^2 == norm()` |
| Vec3.NormalizedIsUnit | classes/Vector3.h:31 | a non-zero vector's `normalized()` has squared length 1 |
| Vec3.LengthScaled | classes/Vector3.h:30 | for `k > 0`, `(v * k).length() == k * v.length()` |
| Vec3.NormalizedScaled | classes/Vector3.h:31 | for `k > 0`, `(v * k).normalized() == v.normalized()` |
| Vec3.NormalizedIdempotent | classes/Vector3.h:31 | normalising twice is normalising once |
| Vec3.Reflect | classes/Vector3.h:44-47 | across a unit normal, reflection negates the normal component: `reflect(d, n) . n == -(d . n)` |
| Vec3.ReflectMember | classes/Vector3.h:52-55 | the member `reflect` gives the same vector as the friend `reflect` |
| Vec3.ReflectTwice | classes/Vector3.h:44-47 | reflecting twice across the same unit normal gives the incident vector back |
| Vec3.Clamp | classes/Vector3.h:87-90 | `clamp(min, max, value)` takes the bounds first; for `min <= max` it lands in `[min, max]` and leaves a value already there unchanged |
| Vec3.NormalFromOrigin | classes/Vector3.h:93-96 | the friend `normal(point)` is `point` normalised |
| Vec3.Refract | classes/Vector3.h:57-84 | definition, no contract; `Vec3.RefractZeroIffTotalReflection`, `Vec3.RefractUnitIndex` and `Vec3.RefractFlipNormal` state what `refract` returns |
| Vec3.RefractK | classes/Vector3.h:74 | definition, no contract; `k = 1 - eta^2 (1 - cosi^2)`; `Vec3.RefractZeroIffTotalReflection` states that `refract` is zero exactly when `k < 0` |
| Vec3.Snell | classes/Vector3.h:74-83 | definition, no contract; the zero vector when `k < 0`, else Snell's formula; `Vec3.RefractAlongNormal` and `Vec3.SnellAtZeroRoot` state its value |
| Vec3.Setup | classes/Vector3.h:59-73 | the media swap: a clamped cosine below 0 gives `eta = 1 / ior` and the normal as is; otherwise `eta = ior` and the negated normal; the cosine ends in `[0, 1]` and, for an in-range cosine, `incident . n == -cosi` |
| Vec3.SetupFlipNormal | classes/Vector3.h:59-73 | for a ray against the normal, flipping the normal gives the same setup as inverting the index |
| Vec3.RefractFlipNormal | classes/Vector3.h:57-84 | for a ray against the normal, `refract(I, -N, ior) == refract(I, N, 1 / ior)` |
| Vec3.RefractUnitIndex | classes/Vector3.h:57-84 | with `ior = 1` and `|I . N| <= 1`, `refract` returns the incident vector unchanged |
| Vec3.RefractZeroIffTotalReflection | classes/Vector3.h:74-83 | for unit vectors with an in-range cosine, `refract` returns the zero vector exactly when `k < 0` |
| Vec3.RefractBeyondCriticalAngle | classes/Vector3.h:80-83 | with `k >= 0` and a non-zero root, the result is not the zero vector |
| Vec3.RefractAtCriticalAngle | classes/Vector3.h:80-83 | with `k >= 0` and a zero root, the result for unit vectors is not the zero vector |
| Vec3.SnellAtCriticalAngle | classes/Vector3.h:74-83 | Snell's law with a zero root, a unit incident vector and a unit oriented normal gives a non-zero vector |
| Vec3.SnellAtZeroRoot | classes/Vector3.h:82 | with a zero root, the refracted vector is `eta I + (eta cosi) n` |
| Vec3.SetupNormalIsUnit | classes/Vector3.h:61-71 | the oriented normal is the normal or its negation, so it is a unit vector when the normal is |
| Vec3.RefractAlongNormal | classes/Vector3.h:74-83 | without total internal reflection, the refracted vector's component along the oriented normal is `-sqrt(k)` |
| Vec3.CriticalAngleNotZero | classes/Vector3.h:74-83 | at `k == 0`, `eta I + (eta cosi) n` is non-zero for unit `I` and `n` |
| Vec3.CriticalCosine | classes/Vector3.h:74 | `k == 0` forces `eta != 0` and `cosi^2 != 1` |
| Vec2.Add | build/classes/Vector2.h:15-17 | definition, no contract; `Vec2.Sub` states that subtracting `b` is undone by adding it back |
| Vec2.Sub | build/classes/Vector2.h:15-21 | `(a - b) + b == a` |
| Vec2.Scale | build/classes/Vector2.h:23-25 | definition, no contract; `Vec2.Div` states that `v / f == v * (1 / f)` for `f != 0` |
| Vec2.Div | build/classes/Vector2.h:23-29 | for `f != 0`, `v / f == v * (1 / f)`; dividing by 0 gives `(0, 0)` |
| Vec2.Normalize | build/classes/Vector2.h:39-42 | `normalize()` keeps the zero vector at zero, and scaling its result back by a non-zero `length()` gives the input |
| Vec2.NormalizeIsUnit | build/classes/Vector2.h:35-42 | given `sqrt` squares back, `normalize()` of a non-zero vector has `dot(r, r) == 1` |
| Vec2.Dot | build/classes/Vector2.h:31-33 | definition, no contract; `Vec2.DotSymmetric` and `Vec2.DotSelfNonNegative` state its properties |
| Vec2.Length | build/classes/Vector2.h:35-37 | definition, no contract; `Vec2.DotSelfIsLengthSquared` states that `dot(v, v) == length()^2` |
| Vec2.DotSymmetric | build/classes/Vector2.h:31-33 | `dot` is symmetric |
| Vec2.DotSelfIsLengthSquared | build/classes/Vector2.h:31-37 | `dot(v, v)` is non-negative and equals `length()^2` |
| Vec2.DotSelfNonNegative | build/classes/Vector2.h:31-33 | `dot(v, v) >= 0` |
| Vec4.Add | build/classes/Vector4.h:34-37 | definition, no contract; `Vec4.Sub` states that subtracting `b` is undone by adding it back |
| Vec4.Sub | build/classes/Vector4.h:34-42 | `(a - b) + b == a` in all four components, `w` included |
| Vec4.Scale | build/classes/Vector4.h:44-47 | definition, no contract; `Vec4.ScaleLeft` states that the friend `s * v` equals it, and `Vec4.Div` that dividing by `s` is undone by it |
| Vec4.ScaleLeft | build/classes/Vector4.h:117-120 | the friend `s * v` equals `v * s` |
| Vec4.Div | build/classes/Vector4.h:49-52 | for `s != 0`, `(v / s) * s == v`; dividing by 0 gives the zero vector |
| Vec4.DivLeft | build/classes/Vector4.h:122-125 | the friend `s / v` gives `r.x * v.x == s`, `r.y * v.y == s`, `r.z * v.z == s` and `r.w * v.w == s` wherever that component is non-zero |
| Vec4.Neg | build/classes/Vector4.h:54-57 | unary minus negates all four components: `v + (-v) == 0` |
| Vec4.AddScalar | build/classes/Vector4.h:127-140 | `v + s` and `s + v` add `s` to every component |
| Vec4.SubScalar | build/classes/Vector4.h:132-135 | `(v - s) + s == v` |
| Vec4.ScalarSub | build/classes/Vector4.h:142-145 | `(s - v) + v == (s, s, s, s)` |
| Vec4.Mul | build/classes/Vector4.h:157-161 | definition, no contract; the componentwise product `v * rhs` |
| Vec4.Dot | build/classes/Vector4.h:95-98 | definition, no contract; `Vec4.DotSymmetric` and `Vec4.DotSelfNonNegative` state its properties |
| Vec4.Length | build/classes/Vector4.h:100-103 | definition, no contract; `Vec4.DotSelfIsLengthSquared` states that `dot(v, v) == length()^2` |
| Vec4.Normalize | build/classes/Vector4.h:105-109 | `normalize()` keeps the zero vector at zero, and scaling its result back by a non-zero `length()` gives the input in all four components |
| Vec4.NormalizeIsUnit | build/classes/Vector4.h:100-109 | given `sqrt` squares back, `normalize()` of a non-zero vector has `dot(r, r) == 1` |
| Vec4.Xyz | build/classes/Vector4.h:178-181 | definition, no contract; `Vec4.Extend` states that `Vector4(v, w).xyz() == v` |
| Vec4.Extend | build/classes/Vector4.h:169-181 | `Vector4(v, w).xyz() == v`, and the fourth component is `w` |
| Vec4.DotSymmetric | build/classes/Vector4.h:95-98 | `dot` is symmetric |
| Vec4.DotSelfIsLengthSquared | build/classes/Vector4.h:95-103 | `dot(v, v)` is non-negative and equals `length()^2` |
| Vec4.DotSelfNonNegative | build/classes/Vector4.h:95-98 | `dot(v, v) >= 0` |
| Vec4.MutableVector4.constructor | build/classes/Vector4.h:18-24 | the default `Vector4` is all zeros |
| Vec4.MutableVector4.Of | build/classes/Vector4.h:26-32 | the four-argument constructor stores its arguments |
| Vec4.MutableVector4.AddAssign | build/classes/Vector4.h:59-66 | after `+=` the object holds what `+` returns |
| Vec4.MutableVector4.SubAssign | build/classes/Vector4.h:68-75 | after `-=` the object holds what `-` returns |
| Vec4.MutableVector4.ScaleAssign | build/classes/Vector4.h:77-84 | after `*=` the object holds what `*` returns |
| Vec4.MutableVector4.DivAssign | build/classes/Vector4.h:86-93 | after `/=` the object holds what `/` returns |
| Rays.MakeRay | build/classes/Ray.h:12-13 | the constructor keeps `origin` and stores `direction * (1 / length())` |
| Rays.MakeRayDirectionIsUnit | build/classes/Ray.h:13 | a non-zero input direction is stored with length 1; a zero one stays zero |
| Rays.PointAt | build/classes/Ray.h:15 | `point_at(t) - origin == direction * t`, so `point_at(0) == origin` |
| Colors.Add | classes/Color.h:14 | definition, no contract; `Colors.Sub` states that subtracting `c` is undone by adding it back |
| Colors.Scale | classes/Color.h:16 | definition, no contract; `Colors.MutableColor.ScaleAssign` states that `*= f` leaves this product |
| Colors.Mul | classes/Color.h:17 | definition, no contract; `Colors.MutableColor.MulAssign` states that `*= c` leaves this channelwise product |
| Colors.Sub | classes/Color.h:15 | `(a - c) + c == a` |
| Colors.ClampChannel | classes/Color.h:25-27 | a channel ends in `[0, 1]`: below 0 becomes 0, above 1 becomes 1, anything in range is kept |
| Colors.Clamped | classes/Color.h:24-29 | every channel of the clamped colour is in `[0, 1]`; a colour already in range is unchanged |
| Colors.ClampIdempotent | classes/Color.h:24-29 | clamping twice is clamping once |
| Colors.MutableColor.constructor | classes/Color.h:12 | the default `Color` is black |
| Colors.MutableColor.Of | classes/Color.h:12 | the three-argument constructor stores its arguments |
| Colors.MutableColor.AddAssign | classes/Color.h:19 | after `+=` the object holds what `+` returns |
| Colors.MutableColor.SubAssign | classes/Color.h:20 | after `-=` the object holds what `-` returns |
| Colors.MutableColor.ScaleAssign | classes/Color.h:21 | after `*= f` the object holds what `* f` returns |
| Colors.MutableColor.MulAssign | classes/Color.h:22 | after `*= c` the object holds what `* c` returns |
| Colors.MutableColor.Clamp | classes/Color.h:24-29 | `clamp()` leaves every channel in `[0, 1]` and leaves an in-range colour unchanged |
| Mat4.PartialEntryComplete | classes/Matrix4.h:71-73 | the four accumulated products of the innermost loop give the full row-times-column entry |
| Mat4.ApplyLinearAsWritten | classes/Matrix4.h:137-143 | `Matrix4 * Vector3` as written: `x` is always 0, while `y` and `z` are those of the product with `w = 0` |
| Mat4.ApplyLinear | classes/Matrix4.h:137-143 | the corrected `Matrix4 * Vector3` is the `xyz` of the product with the direction extended by `w = 0` |
| Mat4.Translation | classes/Matrix4.h:28-35 | definition, no contract; `Mat4.TranslationOnPointsAndDirections` and `Mat4.TranslationsCompose` state what it does |
| Mat4.Scaling | classes/Matrix4.h:37-44 | definition, no contract; `Xform.ScaledPoint` states that it scales points componentwise |
| Mat4.Rotation | classes/Matrix4.h:46-63 | definition, no contract; the nine entries as written; `Mat4.RotationByZero`, `Mat4.RotationOnCoordinateAxes` and `Mat4.RotationAsWrittenMovesAxis` state its properties |
| Mat4.AxisRotation | classes/Matrix4.h:46-63 | definition, no contract; the corrected rotation; `Mat4.AxisRotationFixesAxis` states that it fixes its unit axis |
| Mat4.Basis | classes/Matrix4.h:87-108 | definition, no contract; `Mat4.BasisColumns` states where it sends the unit vectors |
| Mat4.MatMul | classes/Matrix4.h:65-76 | definition, no contract; `Mat4.IdentityIsUnit` and `Mat4.MatMulAssociative` state its algebra, and `Mat4.Matrix4.Mul` that the triple loop computes it |
| Mat4.Apply | classes/Matrix4.h:126-134 | definition, no contract; `Xform.ApplyMatMul` states that applying a product applies each factor in turn |
| Mat4.IdentityEntries | classes/Matrix4.h:21-26 | identity entries are 1 exactly on the diagonal and 0 elsewhere |
| Mat4.IdentityIsUnit | classes/Matrix4.h:65-76 | the identity is a left and a right unit of `operator*` |
| Mat4.MatMulAssociative | classes/Matrix4.h:65-76 | `operator*` is associative |
| Mat4.EntryAssociative | classes/Matrix4.h:65-76 | entry `(i, j)` of `(a * b) * c` equals entry `(i, j)` of `a * (b * c)` |
| Mat4.TranslationsCompose | classes/Matrix4.h:28-35 | `translate(a) * translate(b) == translate(a + b)` |
| Mat4.TranslationOnPointsAndDirections | classes/Matrix4.h:28-35 | a translation adds its offset to a point (`w = 1`) and leaves a direction (`w = 0`) unchanged |
| Mat4.RotationByZero | classes/Matrix4.h:46-63 | given `sin 0 = 0` and `cos 0 = 1`, `rotate(0, x, y, z)` is the identity for every axis |
| Mat4.BasisColumns | classes/Matrix4.h:87-108 | the basis matrix sends the unit vectors to `right`, `up`, `-forward` and `(0, 0, 0, 1)` |
| Mat4.ApplyLinearAsWrittenDropsX | classes/Matrix4.h:137-143 | as written, the identity sends `(1, 0, 0)` to the zero vector; the corrected product gives `(1, 0, 0)` |
| Mat4.ApplyLinearIdentity | classes/Matrix4.h:137-143 | the corrected product maps every vector through the identity unchanged |
| Mat4.RotationOnCoordinateAxes | classes/Matrix4.h:53-61 | on the axes `(1, 0, 0)`, `(0, 1, 0)` and `(0, 0, 1)` the diagonal as written agrees with Rodrigues' formula |
| Mat4.RotationAsWrittenMovesAxis | classes/Matrix4.h:53-61 | as written, a quarter turn about the unit axis `(0.6, 0.8, 0)` sends its first component to `0.744` rather than `0.6` |
| Mat4.AxisRotationFixesAxis | classes/Matrix4.h:46-63 | the rotation with the corrected diagonal leaves every unit axis where it is |
| Mat4.AxisFixedX | classes/Matrix4.h:53-55 | row 0 of the corrected rotation maps a unit axis to its `x` |
| Mat4.AxisFixedY | classes/Matrix4.h:56-58 | row 1 of the corrected rotation maps a unit axis to its `y` |
| Mat4.AxisFixedZ | classes/Matrix4.h:59-61 | row 2 of the corrected rotation maps a unit axis to its `z` |
| Mat4.Matrix4.constructor | classes/Matrix4.h:15-18 | `Matrix4()` holds the identity in a fresh array |
| Mat4.Matrix4.SetIdentity | classes/Matrix4.h:21-26 | after `identity()`, `mat[i][j]` is 1 if `i == j` and 0 otherwise |
| Mat4.Matrix4.Translate | classes/Matrix4.h:28-35 | `translate(x, y, z)` is the identity with `(x, y, z)` in column 3 |
| Mat4.Matrix4.Scale | classes/Matrix4.h:37-44 | `scale(x, y, z)` is the identity with `(x, y, z)` on the first three diagonal entries |
| Mat4.Matrix4.Rotate | classes/Matrix4.h:46-63 | `rotate` overwrites the upper-left 3x3 block of the identity with the nine entries the renderer writes |
| Mat4.Matrix4.Mul | classes/Matrix4.h:65-76 | `operator*` returns a fresh matrix holding the matrix product |
| Mat4.Matrix4.FillRow | classes/Matrix4.h:69-74 | the middle loop fills row `i` with the products of row `i` and each column, and leaves the other rows unchanged |
| Mat4.Matrix4.AccumulateEntry | classes/Matrix4.h:71-73 | the innermost loop resets entry `(i, j)` to 0 and accumulates its four products; no other entry changes |
| Mat4.Matrix4.MakeTranslation | classes/Matrix4.h:78-85 | `makeTranslation` gives the translation matrix whatever the matrix held before |
| Mat4.Matrix4.MakeRotationFromBasis | classes/Matrix4.h:87-108 | all sixteen entries are written: `right`, `up` and `-forward` as columns 0 to 2, and `(0, 0, 0, 1)` as column 3 and as row 3 |
| Mat4.Matrix4.SetRowBlock | classes/Matrix4.h:53-61 | writes entries 0 to 2 of one row; every other entry keeps its value |
| Mat4.Matrix4.SetColumnBlock | classes/Matrix4.h:31-33 | writes rows 0 to 2 of one column; every other entry keeps its value |
| Mat4.Matrix4.SetColumn | classes/Matrix4.h:89-107 | writes one whole column; the other columns keep their entries |
| Mat4.Matrix4.HoldsProduct | classes/Matrix4.h:65-76 | an array whose entries are the row-times-column sums holds the matrix product |
| Mat4.Matrix4.HoldsValue | classes/Matrix4.h:13 | an array holding the sixteen entries of a matrix has that matrix as its value |
| Xform.MapPoint | classes/Transform.h:40-44 | definition, no contract; `Xform.IdentityMapsPoints`, `Xform.TranslatedPoint` and `Xform.ScaledPoint` state what it does |
| Xform.MapDirection | classes/Transform.h:46-50 | `transformDirection` is the normalised upper-left 3x3 block applied to the direction (`w = 0`) |
| Xform.ApplyMatMul | classes/Matrix4.h:65-76 | multiplying a vector by a product is multiplying by each factor in turn |
| Xform.IdentityMapsPoints | classes/Transform.h:13 | the identity maps every point to itself |
| Xform.TranslatedPoint | classes/Transform.h:15-18 | after `translate(x, y, z)`, points move by `(x, y, z)` before the earlier matrix acts; from a fresh transform, `transformPoint(p) == p + (x, y, z)` |
| Xform.ScaledPoint | classes/Transform.h:35-44 | after `scale(x, y, z)`, points are scaled componentwise by `(x, y, z)` before the earlier matrix acts; from a fresh transform, `transformPoint(p) == (x p.x, y p.y, z p.z)` |
| Xform.TranslationIgnoredByDirections | classes/Transform.h:46-50 | a `translate` never changes `transformDirection` |
| Xform.TranslateTwice | classes/Transform.h:15-18 | two `translate` calls in a row amount to one by the summed offset |
| Xform.Transform.TransformPoint | classes/Transform.h:40-44 | definition, no contract; `Xform.Transform.constructor` states that a fresh transform maps every point to itself |
| Xform.Transform.TransformDirection | classes/Transform.h:46-50 | definition, no contract; `Xform.MapDirection` states it is the normalised 3x3 block, and `Xform.TranslationIgnoredByDirections` that translations never change it |
| Xform.Transform.constructor | classes/Transform.h:13 | a fresh `Transform` holds the identity and maps every point to itself |
| Xform.Transform.Translate | classes/Transform.h:15-18 | `translate` right-multiplies the matrix by `Matrix4::translate(x, y, z)` |
| Xform.Transform.RotateX | classes/Transform.h:20-23 | `rotateX` right-multiplies by `Matrix4::rotate(angle, 1, 0, 0)`, which on this coordinate axis is the corrected rotation |
| Xform.Transform.RotateY | classes/Transform.h:25-28 | `rotateY` right-multiplies by `Matrix4::rotate(angle, 0, 1, 0)`, which on this coordinate axis is the corrected rotation |
| Xform.Transform.RotateZ | classes/Transform.h:30-33 | `rotateZ` right-multiplies by `Matrix4::rotate(angle, 0, 0, 1)`, which on this coordinate axis is the corrected rotation |
| Xform.Transform.Scale | classes/Transform.h:35-38 | `scale` right-multiplies by `Matrix4::scale(x, y, z)` |
| TextureClasses.IsValid | classes/Texture.h:82-86 | definition, no contract; `TextureClasses.LoadedIsValidIff` states it holds after construction exactly when the file decoded |
| TextureClasses.RowMajorInBounds | classes/Texture.h:43 | `y * width + x` addresses a cell of the `width * height` buffer for every pixel inside the image |
| TextureClasses.ChannelsInBounds | classes/Texture.h:44-48 | the three channel bytes of every pixel lie inside the decoded buffer |
| TextureClasses.Texel | classes/Texture.h:46-50 | a converted texel has every channel in `[0, 1]` |
| TextureClasses.Texels | classes/Texture.h:38-52 | the converted buffer has `width * height` texels, texel `k` taken from pixel `k` |
| TextureClasses.ConvertedPixel | classes/Texture.h:43-50 | `pixelIndex = index * numChannels` stays inside the buffer, and its bytes divided by 255 give texel `index` |
| TextureClasses.FillTexels | classes/Texture.h:38-52 | the nested loop of `load` fills a fresh array with exactly the row-major texels of the image |
| TextureClasses.FillRow | classes/Texture.h:41-51 | one pass of the inner loop converts row `y` and keeps the rows already converted |
| TextureClasses.Loaded | classes/Texture.h:18-55 | after construction: a failed decode leaves dimensions `(0, 0)` and no buffer; a successful one sets the dimensions to the image size, and the state is always well formed |
| TextureClasses.LoadedIsValidIff | classes/Texture.h:82-86 | `isValid()` holds after construction if and only if the file decoded |
| TextureClasses.GetColor | classes/Texture.h:100-111 | black outside `[0, width) x [0, height)`; inside, the texel at index `y * width + x`, which is in bounds |
| TextureClasses.GetColorOfLoaded | classes/Texture.h:100-111 | every pixel of a decoded image reads back through `getColor` as the texel converted from its own bytes |
| TextureClasses.Lerp | classes/Texture.h:113-116 | `lerp(a, b, t)` is `a` at `t = 0` and `b` at `t = 1` |
| TextureClasses.Neighbour | classes/Texture.h:65-66 | the neighbour index is the next index, held back at `int(dimension) - 1`, and never exceeds either |
| TextureClasses.Bilinear | classes/Texture.h:76-79 | with both weights 0 the interpolation returns the first corner |
| TextureClasses.Sample | classes/Texture.h:57-80 | definition, no contract; `TextureClasses.SampleAt` states that at whole-number texel positions it returns `getColor`'s texel |
| TextureClasses.SampleAt | classes/Texture.h:57-80 | at a whole-number grid position, `sample` returns the texel `getColor` finds there |
| TextureClasses.Texture.constructor | classes/Texture.h:18-22 | `Texture(filename)` ends in the loaded state, and is valid if and only if the file decoded |
| TextureClasses.Texture.Load | classes/Texture.h:24-55 | a failed decode changes nothing; a successful one sets the dimensions and a fresh buffer of converted texels |
| TextureBuild.Loaded | build/classes/Texture.h:26-72 | after construction the shared fields are those of the earlier texture, the state is well formed, `isValid()` holds if and only if the file decoded, and a successful decode copies the image size into `width` and `height` |
| TextureBuild.IsValid | build/classes/Texture.h:100-103 | definition, no contract; `TextureBuild.Loaded` states it holds after construction exactly when the file decoded |
| TextureBuild.JitterSum | build/classes/Texture.h:119-128 | definition, no contract; `TextureBuild.JitterSumStep` states each loop pass adds the next jittered sample |
| TextureBuild.SuperSample | build/classes/Texture.h:117-130 | definition, no contract; `TextureBuild.SuperSampleOfUniform` states it averages, and `TextureBuild.Texture.SampleSuper` that the loop computes it |
| TextureBuild.Jittered | build/classes/Texture.h:125-126 | draw `(jx, jy)` moves the coordinates by exactly `jx / width` and `jy / height` |
| TextureBuild.SumOfEqualSamples | build/classes/Texture.h:123-128 | when every jittered sample is the same colour `c`, the sum of `n` samples is `c * n` |
| TextureBuild.JitterSumStep | build/classes/Texture.h:127 | each pass of the loop adds the sample at the next jittered position to the sum |
| TextureBuild.SuperSampleOfUniform | build/classes/Texture.h:117-130 | `sampleSuper` returns `c` whenever all `sampleCount > 0` jittered samples are `c` |
| TextureBuild.PrefixOfEqualSamples | build/classes/Texture.h:123-128 | the samples of the first `sampleCount` draws, all equal to `c`, sum to `c * sampleCount` |
| TextureBuild.ScaleThenDivide | build/classes/Texture.h:129 | dividing by a non-zero count undoes scaling by it |
| TextureBuild.Texture.constructor | build/classes/Texture.h:26-30 | `Texture(filename)` ends in the loaded state (the integer fields only after a successful decode) and is valid if and only if the file decoded |
| TextureBuild.Texture.Load | build/classes/Texture.h:39-72 | a failed decode changes nothing, `width` and `height` included; a successful one sets the dimensions, a fresh buffer and the integer size |
| TextureBuild.Texture.SampleSuper | build/classes/Texture.h:117-130 | the loop returns the sum of the `sampleCount` jittered samples divided by `sampleCount` |
| Materials.Interpolate | classes/Material.h:8-11 | `interpolate` fixes 0 and 1 and sends 0.5 to 0.55 |
| Materials.InterpolateOnUnitInterval | classes/Material.h:8-11 | on `[0, 1]` the remap is never negative, yet it is not bounded by 1: `interpolate(0.9) > 1` |
| Materials.NewMaterial | classes/Material.h:25-31 | definition, no contract; `Materials.DefaultMaterial` states the default field values |
| Materials.DefaultMaterial | classes/Material.h:25-31 | the default material is white with ka 0.3, kd 0.9, ks 1, exponent 200, reflectance 0.8, transmittance 0, index 2.3 and no texture |
| Materials.TexturedMaterial | classes/Material.h:33-45 | the textured constructor makes the colour white, attaches a texture if and only if the name is not empty, loads it from that file, and the texture is valid if and only if the file decoded; the other fields are the arguments |
| Materials.SphericalCoordinates | classes/Material.h:50-60 | with `atan2` in `[-pi, pi]` and `asin` in `[-pi/2, pi/2]`, both spherical coordinates lie in `[0, 1]` |
| Materials.TextureCoordinates | classes/Material.h:47-67 | the remapped texture coordinates are never negative |
| Spheres.MakeSphere | classes/Sphere.h:19-20 | a sphere built from centre, radius and material starts with the identity transform |
| Spheres.DefaultSphere | classes/Sphere.h:52-57 | `Sphere()` is the unit sphere at the origin with the default material |
| Spheres.Coefficients | classes/Sphere.h:24-27 | definition, no contract; `a = d.d`, `b = 2 oc.d`, `c = oc.oc - r^2`; `Spheres.HitIsNearestPositiveRoot` states what its roots mean |
| Spheres.Eval | classes/Sphere.h:24-28 | definition, no contract; the quadratic's value at `t`; `Spheres.OnlyRoots` states its zeros are the two roots |
| Spheres.Discriminant | classes/Sphere.h:28 | definition, no contract; `Spheres.NoRealRoot` states that a negative discriminant means no zero |
| Spheres.NearRoot | classes/Sphere.h:36 | definition, no contract; `Spheres.RootsOrdered` states that it is the smaller root, and `Spheres.Factor` that it is a root |
| Spheres.FarRoot | classes/Sphere.h:42 | definition, no contract; `Spheres.Factor` and `Spheres.OnlyRoots` state that it is the other root |
| Spheres.Hit | classes/Sphere.h:22-50 | a reported distance is always positive, and a negative discriminant is always a miss |
| Spheres.Intersect | classes/Sphere.h:22-50 | `intersect` returns true exactly when there is a hit, writes the chosen root to `t` on a hit, and leaves `t` as it was on a miss |
| Spheres.Factor | classes/Sphere.h:28-42 | the quadratic factors as `a (t - near) (t - far)` through the two roots of the formula |
| Spheres.OnlyRoots | classes/Sphere.h:36-42 | the near and far roots are the only solutions of the quadratic |
| Spheres.NoRealRoot | classes/Sphere.h:28-33 | with `a > 0` and a negative discriminant the quadratic has no zero, so the early miss is right |
| Spheres.RootsOrdered | classes/Sphere.h:36-42 | for `a > 0` the root tried first is the smaller one |
| Spheres.HitIsNearestPositiveRoot | classes/Sphere.h:22-50 | for a non-zero direction, a hit is the smallest positive distance at which the ray meets the sphere, and a miss means there is no positive distance at which it does |
| Spheres.Normal | classes/Sphere.h:59-62 | definition, no contract; `Spheres.NormalIsUnit` states it has length 1 away from the centre |
| Spheres.NormalIsUnit | classes/Sphere.h:59-62 | `normal(point)` has length 1 for every point other than the centre |
| Triangles.MakeTriangle | classes/Triangle.h:19-22 | the untextured constructor leaves no texture and the texture coordinates at `(0, 0)` |
| Triangles.MakeTexturedTriangle | classes/Triangle.h:24-28 | definition, no contract; the textured constructor stores its arguments; `Models.FaceTriangle` states when it is used |
| Triangles.Blend | classes/Triangle.h:64 | definition, no contract; `Triangles.BlendCorners` states it gives the three corners |
| Triangles.BlendCorners | classes/Triangle.h:62-65 | the barycentric blend gives the first corner at `(0, 0)`, the second at `(1, 0)` and the third at `(0, 1)` |
| Triangles.Solve | classes/Triangle.h:32-53 | definition, no contract; `Triangles.SolveParts` states it fails exactly when `det == 0`, and `Triangles.SolutionIsOnTriangle` that its `(u, v, t)` puts the ray point at the barycentric blend |
| Triangles.SolveParts | classes/Triangle.h:32-53 | the system is unsolvable exactly when `det` is 0, and `u`, `v`, `t` are the triple products `tVec . pVec`, `d . qVec`, `edge2 . qVec` times `1 / det` |
| Triangles.Intersect | classes/Triangle.h:30-59 | `intersect` returns true exactly when the solution lies in the barycentric window and `tMin <= t <= tMax`; on a hit `(u, v, t)` is the solution; each out-parameter is written only once its check is reached |
| Triangles.CramerX | classes/Triangle.h:32-53 | the `x` component of Cramer's rule: `det * tVec.x == (tVec . pVec) e1.x + (d . qVec) e2.x - (e2 . qVec) d.x` |
| Triangles.CramerY | classes/Triangle.h:32-53 | the same for `y` |
| Triangles.CramerZ | classes/Triangle.h:32-53 | the same for `z` |
| Triangles.SolutionIsOnTriangle | classes/Triangle.h:30-59 | whenever `det` is not 0, travelling `t` along the ray reaches the point with barycentric coordinates `(u, v)` on the triangle's plane |
| Triangles.CramerSolution | classes/Triangle.h:41-53 | the three triple products times `1 / det` put the ray point at the barycentric blend of the corners |
| Triangles.CalculateNormal | classes/Triangle.h:62-65 | `calculateNormal` returns `n0`, `n1` and `n2` at the three corners |
| Triangles.TextureCoordinates | classes/Triangle.h:67-77 | at the three corners `textureCoordinates` gives the remapped coordinates of that vertex |
| Models.Accepts | classes/Model.h:82-94 | definition, no contract; the face precondition: every looked-up index lies in `1..|pool|`; `Models.Model.constructor` requires it of every face line |
| Models.Classify | classes/Model.h:38-64 | a line is a vertex line exactly when it starts with `"v "` and a face line exactly when it starts with `"f "` |
| Models.PrefixesExclusive | classes/Model.h:38-64 | a line is a texture-coordinate line exactly when it starts with `"vt "` and a normal line exactly when it starts with `"vn "`, so the order of the tests does not matter |
| Models.FaceTriangle | classes/Model.h:82-94 | a face builds its triangle from the 1-based vertex and normal indices, with the material and its texture; the texture coordinates are looked up only when the material has a texture, and are `(0, 0)` otherwise |
| Models.Step | classes/Model.h:38-95 | definition, no contract; `Models.StepAppendsOne` states that each line appends to its own pool only |
| Models.Assemble | classes/Model.h:36-96 | definition, no contract; `Models.CountsMatchLines` and `Models.AssembleGrows` state its properties, and `Models.Model.constructor` that the loop computes it |
| Models.StepAppendsOne | classes/Model.h:36-96 | each line appends one element to the pool of its kind and leaves the other pools as they were; other lines change nothing |
| Models.CountsMatchLines | classes/Model.h:36-96 | the mesh has one triangle per face line and one vertex per vertex line |
| Models.AssembleGrows | classes/Model.h:36-96 | reading more lines never changes what earlier lines built: each pool after a prefix is a prefix of the final pool |
| Models.Model.constructor | classes/Model.h:26-97 | after the constructor the pools are the mesh assembled from the lines, and the transform is the identity |
| Models.Model.ReadLine | classes/Model.h:38-95 | one pass of the loop updates the pools as one step of the assembly and leaves the transform alone |
| Models.Model.GetTransform | classes/Model.h:99-102 | `getTransform` returns the stored transform |
| Models.Model.SetTransform | classes/Model.h:104-107 | `setTransform` replaces the transform and leaves the pools unchanged |
| Models.SetThenGet | classes/Model.h:99-107 | `getTransform` after `setTransform(t)` gives back `t`, with the pools untouched |
| Spotlights.ClampValue | classes/Spotlight.h:8-11 | `clamp(val, min, max)` lies in `[min, max]` when `min <= max`, returns a value already in range unchanged, and returns the nearer bound otherwise |
| Spotlights.ClampArgumentOrder | classes/Spotlight.h:8-11 | the free `clamp(val, min, max)` and `Vector3::clamp(min, max, val)` compute the same value |
| Spotlights.CosAngle | classes/Spotlight.h:37-40 | definition, no contract; the cosine between the axis and the direction to the point |
| Spotlights.InCone | classes/Spotlight.h:43 | definition, no contract; `Spotlights.GetLighting` states that outside it the light is black |
| Spotlights.FalloffBase | classes/Spotlight.h:52 | the base of the falloff power always lies in `[0, 1]` |
| Spotlights.GetLighting | classes/Spotlight.h:35-61 | outside the cone `getLighting` is black |
| Spotlights.LightingIsScaledColor | classes/Spotlight.h:35-61 | inside the cone, with a non-negative intensity, `getLighting` is the spotlight's colour times a non-negative factor: it never subtracts light and tints only by its own colour |
| Spotlights.LightingInCone | classes/Spotlight.h:43-55 | inside the cone the light is the colour times the intensity, `1 / d^2` and the falloff power |
| Spotlights.InverseSquareNonNegative | classes/Spotlight.h:49 | the attenuation `1 / d^2` is never negative |
| Spotlights.ScaleTwice | classes/Spotlight.h:54 | scaling the colour twice is scaling once by the product |
| CameraClasses.MakeCamera | classes/Camera.h:36-46 | definition, no contract; the constructor stores its arguments, with the identity transform |
| CameraClasses.Forward | classes/Camera.h:81 | definition, no contract; `CameraClasses.DefaultLooksAlongZ` states the default camera's is `+z` |
| CameraClasses.ViewFrame | classes/Camera.h:81-87 | definition, no contract; `CameraClasses.FrameOrthogonal` states the three vectors are pairwise orthogonal |
| CameraClasses.HalfWidth | classes/Camera.h:65 | definition, no contract; `tan(fov / divisor)`; `CameraBuild.ClosedLensHalvesFov` states that the lens branches use half the field of view of the others (`tan(fov / 2)` against `tan(fov / 1)`) |
| CameraClasses.ScreenDirection | classes/Camera.h:95 | definition, no contract; `CameraClasses.ScreenCentre` and `CameraClasses.PinholeCentre` state where it points at the screen centre |
| CameraClasses.CameraSpaceDirection | classes/Camera.h:68 | definition, no contract; the camera-space direction on the plane `z = -1` |
| CameraClasses.FrameOrthogonal | classes/Camera.h:81-87 | the viewing direction, `right = forward x up` and the new up vector `right x forward`, each normalised, are pairwise orthogonal |
| CameraClasses.HalfHeight | classes/Camera.h:92 | the half height keeps the image's aspect ratio: `halfHeight * imgWidth == halfWidth * imgHeight` |
| CameraClasses.ScreenCentre | classes/Camera.h:95 | at the screen centre both offsets vanish and the ray runs along the viewing direction |
| CameraClasses.TransformedRay | classes/Camera.h:71-75 | the ray starts at `WorldOrigin(t)`, the translation column; `CameraClasses.WorldDirection` states how the direction moves |
| CameraClasses.WorldOrigin | classes/Camera.h:71 | the camera-space origin taken as a point lands on the translation column of `transform` |
| CameraClasses.WorldDirection | classes/Camera.h:72 | a camera-space direction taken with `w = 0` is moved by the upper-left 3x3 block only |
| CameraClasses.DirectionIgnoresTranslation | classes/Camera.h:72 | two transforms with the same upper-left 3x3 block send every direction to the same place |
| CameraClasses.DefaultLooksAlongZ | classes/Camera.h:23-34 | the default camera looks straight along `+z` |
| CameraClasses.GenerateRay | classes/Camera.h:48-100 | with `isTransform` the ray leaves the translation column of `transform`; without it the ray leaves `position` |
| CameraClasses.PinholeCentre | classes/Camera.h:77-99 | without a transform, the ray through `(0.4, 0.4)`, not `(0.5, 0.5)`, runs along the viewing direction |
| CameraClasses.TransformIgnoresPose | classes/Camera.h:50-76 | with `isTransform`, the ray depends on neither `position`, `lookAt` nor `up`: the translation and rotation matrices built from them are never used |
| CameraBuild.MakeCamera | build/classes/Camera.h:44-57 | definition, no contract; the constructor stores its arguments, with the identity transform |
| CameraBuild.ThinLensRay | build/classes/Camera.h:99-101 | the ray starts at the base origin plus `lens * focusDistance`; `CameraBuild.FocalPointOnRay` states that it passes through the focal point, and `CameraBuild.ClosedApertureOrigin` that a closed aperture keeps the base origin |
| CameraBuild.FocalPointOnRay | build/classes/Camera.h:99-101 | every lens ray, whatever the lens sample, passes at a non-negative distance through `origin + direction * focusDistance`, the point the pinhole ray reaches at the focus distance |
| CameraBuild.LensPosition | build/classes/Camera.h:67-71 | the lens sample lies in the plane `z = 0`, and is the origin when the aperture is 0 |
| CameraBuild.LensOnCircle | build/classes/Camera.h:67-71 | with `sin^2 + cos^2 = 1`, the lens sample lies on the circle of radius `aperture * sqrt(r1)` |
| CameraBuild.GenerateRay | build/classes/Camera.h:60-180 | without depth of field the ray leaves the transform's translation column or `position`; with it, the ray leaves that point moved by `lensPosition * focusDistance`; `CameraBuild.FocalPointOnRay` and `CameraBuild.ClosedLensHalvesFov` state its direction |
| CameraBuild.ClosedApertureOrigin | build/classes/Camera.h:65-126 | with aperture 0 the lens ray starts where the ray without depth of field starts, whatever the draws |
| CameraBuild.ClosedLensHalvesFov | build/classes/Camera.h:88-126 | with aperture 0 and a positive focus distance, the lens ray equals the ray without depth of field at half the field of view, in both the transform and the pinhole branch: the lens branches use `tan(fov / 2)`, the others `tan(fov / 1)` |
| CameraBuild.PinholeCentre | build/classes/Camera.h:157-179 | without lens or transform, the ray through the screen centre `(0.5, 0.5)` runs along the viewing direction |
| Scenes.SphereCandidate | classes/Scene.h:40-52 | a sphere offers a record exactly when its `intersect` hits, at a positive distance, at the point that distance along the ray and with the sphere's material |
| Scenes.TriangleCandidate | classes/Scene.h:56-68 | a triangle offers a record only at a distance in `[0.001, FLT_MAX]`, at the point that distance along the ray and with the triangle's material |
| Scenes.TriangleCandidates | classes/Scene.h:56-68 | one candidate per triangle, in the order of the vector |
| Scenes.SphereCandidates | classes/Scene.h:40 | one candidate per sphere, in the order of the vector |
| Scenes.Candidates | classes/Scene.h:40-70 | definition, no contract; spheres first, then each model's triangles; `Scenes.Scene.Intersect` states that the loops visit them in this order |
| Scenes.Scan | classes/Scene.h:38-72 | definition, no contract; `Scenes.ScanPicksWinner`, `Scenes.ScanNoFarther` and `Scenes.ScanWithoutQualifier` state what the scan leaves |
| Scenes.Nearest | classes/Scene.h:38-72 | definition, no contract; the scan from `t = FLT_MAX`; `Scenes.NearestMaterialOk` states its material is well formed |
| Scenes.Hits | classes/Scene.h:71 | definition, no contract; `intersect` answers true exactly when the final `t` is below `FLT_MAX`, as `Scenes.Scene.Intersect` states |
| Scenes.Pick | classes/Scene.h:45-51 | a candidate replaces the best record exactly when it is strictly nearer; the distance never goes up |
| Scenes.Winner | classes/Scene.h:38-72 | the winning index is -1 or the index of a candidate that hit |
| Scenes.ScanPicksWinner | classes/Scene.h:38-72 | `intersect` returns the incoming record when nothing beats it, otherwise the candidate that is strictly nearer than the incoming record and every earlier candidate and no farther than any later one: the nearest hit, the first in visiting order on ties |
| Scenes.ScanNoFarther | classes/Scene.h:38-72 | `intersect` never increases `t` |
| Scenes.ScanWithoutQualifier | classes/Scene.h:38-72 | when no candidate is nearer than the incoming `t`, all four out-parameters are left unchanged |
| Scenes.ScanAppend | classes/Scene.h:54-70 | the triangle loops continue from where the sphere loop left off |
| Scenes.ModelCandidatesOk | classes/Scene.h:54-70 | triangles whose materials hold well-formed textures offer only such materials |
| Scenes.ScanKeepsMaterialsOk | classes/Scene.h:38-72 | the material `intersect` leaves is the incoming one or a candidate's |
| Scenes.NearestMaterialOk | classes/Scene.h:38-72 | the material of the nearest hit, from the default record, always has a texture `load` could produce, or none |
| Scenes.Scene.constructor | classes/Scene.h:10-16 | a new scene is empty and holds the default camera |
| Scenes.Scene.AddSphere | classes/Scene.h:18-21 | `add(sphere)` appends the sphere and changes nothing else |
| Scenes.Scene.AddLight | classes/Scene.h:23-26 | `add(light)` appends the light and changes nothing else |
| Scenes.Scene.AddModel | classes/Scene.h:28-31 | `add(model)` appends a copy of the model's pools and changes nothing else |
| Scenes.Scene.SetCamera | classes/Scene.h:33-36 | `setCamera` replaces the camera and leaves the contents alone |
| Scenes.Scene.Intersect | classes/Scene.h:38-72 | the loops leave the record the scan over every sphere, then every model's triangles, computes, and the result is true exactly when the final `t` is below `FLT_MAX` |
| Scenes.Scene.TestSphere | classes/Scene.h:42-51 | one pass of the sphere loop is one step of the scan |
| Scenes.Scene.TestTriangle | classes/Scene.h:58-67 | one pass of the triangle loop is one step of the scan |
| Scenes.Scene.ScanModels | classes/Scene.h:54-70 | the loop over the models scans the triangles of every model in turn |
| Scenes.Scene.ScanModel | classes/Scene.h:56-69 | the loop over one model scans its triangles in order |
| RayTrace.Leaving | classes/RayTrace.h:44-48 | the secondary ray starts `0.001 * dir` from the point |
| RayTrace.Shadowed | classes/RayTrace.h:39-59 | definition, no contract; `RayTrace.LightTerm` states that a shadowed light adds nothing |
| RayTrace.Phong | classes/RayTrace.h:61-72 | definition, no contract; `RayTrace.SpecularQuadraticInIntensity` states the specular part |
| RayTrace.DiffuseFactor | classes/RayTrace.h:62-63 | definition, no contract; `max(0, N.L)` with the bumped normal |
| RayTrace.SpecFactor | classes/RayTrace.h:64-71 | definition, no contract; `max(0, R.V)^exponent` |
| RayTrace.DistanceAttenuation | classes/RayTrace.h:75-76 | definition, no contract; `RayTrace.Attenuation` states its range |
| RayTrace.Lit | classes/RayTrace.h:37-80 | definition, no contract; `RayTrace.LitStep` and `RayTrace.AllShadowedAddsNothing` state its properties, and `RayTrace.LightLoop` that the loop computes it |
| RayTrace.Attenuation | classes/RayTrace.h:75-76 | `1 / (1 + ka * distance)` lies in `(0, 1]` when `ka * distance` is not negative, and is 1 exactly when it is 0 |
| RayTrace.LightTerm | classes/RayTrace.h:37-80 | a light whose shadow ray hits anything, at any distance, adds nothing |
| RayTrace.LitStep | classes/RayTrace.h:37-80 | each pass of the light loop adds that light's term |
| RayTrace.SpotLitStep | classes/RayTrace.h:106-150 | each pass of the spotlight loop adds that spotlight's term |
| RayTrace.Blends | classes/RayTrace.h:91-104 | with reflectance and transmittance 0 the three blends leave the local colour unchanged |
| RayTrace.SpotAngle | classes/RayTrace.h:108-111 | definition, no contract; `acos` of the cosine to the normalised axis; `RayTrace.SpotTerm` states the cone test on it |
| RayTrace.Falloff | classes/RayTrace.h:119 | definition, no contract; its clamped base lies in `[0, 1]`, as `Spotlights.FalloffBase` states |
| RayTrace.SpotLit | classes/RayTrace.h:106-150 | definition, no contract; `RayTrace.SpotLitStep` states its properties, and `RayTrace.SpotLoop` that the loop computes it |
| RayTrace.SpotTerm | classes/RayTrace.h:106-150 | a spotlight adds nothing when the angle to it exceeds its cone angle, or when its shadow ray hits anything |
| RayTrace.Textured | classes/RayTrace.h:152-163 | without a valid texture the colour is left as it is |
| RayTrace.UniformTextureTints | classes/RayTrace.h:152-163 | where a valid texture reads the same colour at all four jittered positions, the colour is multiplied channel by channel by exactly that colour |
| RayTrace.Reflected | classes/RayTrace.h:83-85 | definition, no contract; the mirror ray, cast by `RayTrace.ShadeHit` at `depth + 1` |
| RayTrace.Refracted | classes/RayTrace.h:93-95 | definition, no contract; the transmitted ray, cast by `RayTrace.ShadeHit` at `depth + 1` |
| RayTrace.Surface | classes/RayTrace.h:31-165 | definition, no contract; `RayTrace.MirrorBlend` and `RayTrace.SpotlightsSurviveBlends` state its properties |
| RayTrace.Shade | classes/RayTrace.h:18-171 | `ray_trace` is black once `depth` exceeds `maxBounce`, and black for a ray that hits nothing |
| RayTrace.ShadeHit | classes/RayTrace.h:24-170 | below the depth limit, a ray that hits nothing is black |
| RayTrace.AllShadowedAddsNothing | classes/RayTrace.h:37-80 | when every light is blocked, the light loop adds nothing to the ambient colour |
| RayTrace.AmbientLikePoint | classes/RayTrace.h:37-80 | an `AMBIENT` light contributes exactly what a `POINT` light at the same place with the same intensity contributes: the type is never consulted |
| RayTrace.SpecularQuadraticInIntensity | classes/RayTrace.h:72-79 | with `kd = 0`, an unshadowed light adds `ks * I * spec`, multiplied by `I` a second time, then attenuated |
| RayTrace.MirrorBlend | classes/RayTrace.h:91-104 | a perfect mirror (reflectance 1, transmittance 0) returns the reflected colour |
| RayTrace.BlendsCompound | classes/RayTrace.h:91-104 | the blends compound: with reflectance 1/2 and no transmittance the reflected colour weighs 3/4 and the local colour 1/4 |
| RayTrace.SpotlightsSurviveBlends | classes/RayTrace.h:91-150 | on an untextured perfect mirror the point lights vanish from the result while the spotlights are still added |
| RayTrace.Trace | classes/RayTrace.h:18-171 | the step-by-step shader returns exactly the colour `Shade` defines |
| RayTrace.ApplyTexture | classes/RayTrace.h:152-163 | the texture step computes the texture stage |
| RayTrace.LightLoop | classes/RayTrace.h:37-80 | the light loop returns the colour with every light's term added in order |
| RayTrace.SpotLoop | classes/RayTrace.h:106-150 | the spotlight loop returns the colour with every spotlight's term added in order |
| Render.PixelCoordinate | classes/render.h:25-26 | `i / width` lies in `[0, 1)` for every pixel index |
| Render.PixelRay | classes/render.h:25-27 | definition, no contract; `Render.PixelCoordinate` states both screen coordinates lie in `[0, 1)` |
| Render.Pixel | classes/render.h:25-28 | definition, no contract; `Render.Traced` and `Render.FillImage` state that every pixel is written with it |
| Render.Traced | classes/render.h:23-30 | the traced grid has `width` columns of `height` colours, and entry `(i, j)` is `ray_trace` of the primary ray through `(i / width, j / height)` at depth 0 |
| Render.TracedAppend | classes/render.h:23-30 | one more traced column keeps the grid traced |
| Render.Quantize | classes/render.h:37-39 | `int(255.99 * c)` lies in `[0, 255]` for a channel in `[0, 1]`, and is at least 255 above 1: it is not clamped |
| Render.ToTriple | classes/render.h:37-39 | definition, no contract; `Render.Quantize` states each channel's range |
| Render.Row | classes/render.h:36-41 | row `j` holds `width` triples, the `i`-th being pixel `(i, j)` quantised |
| Render.Emitted | classes/render.h:35-42 | definition, no contract; `Render.EmittedLayout` states its length and layout |
| Render.EmittedLayout | classes/render.h:35-42 | after `k` rows, the output holds `k * width` triples, and triple `r * width + i` is pixel `(i, height - 1 - r)` |
| Render.RowMajorBound | classes/render.h:35-42 | `r * width + i` addresses a triple of the first `k` rows |
| Render.FillImage | classes/render.h:21-30 | the first loop fills a fresh `width x height` image with the traced colours |
| Render.FillRow | classes/render.h:24-29 | one pass of the outer loop fills row `j` and leaves the other rows alone |
| Render.TracePixel | classes/render.h:25-28 | the loop body stores `ray_trace` of the primary ray through `(i / width, j / height)` |
| Render.Write | classes/render.h:34-42 | the header is `P3`, the width, the height and 255; there is one triple per pixel, and triple `r * width + i` is the quantised pixel `(i, height - 1 - r)` |
| Render.WriteLayout | classes/render.h:35-42 | the rows emitted from `height - 1` down to 0 put pixel `(i, height - 1 - r)` at position `r * width + i` |
| Render.RenderLayout | classes/render.h:18-44 | the two loops composed put the triple of traced pixel `(i, height - 1 - r)` at position `r * width + i` |
| Render.Render | classes/render.h:18-44 | `render` emits the `P3` header and, at position `r * width + i`, the quantised colour `ray_trace` gives pixel `(i, height - 1 - r)` |

## Left out

- Image decoding (`stbi_load`, `stbi_image_free`): `load` is a function of the decoder's result, an optional `width * height * channels` byte buffer. A decoded image is assumed to have at least three channels, since the conversion loop reads channels 0 to 2.
- File I/O:
  - Reading the OBJ file is left out. `Model` consumes a sequence of already tokenised line records, and the `exit(1)` on a file that cannot be opened is not modelled.
  - Writing the PPM file is left out. `render` produces the header and the sequence of emitted triples.
  - Console messages are not modelled.
- The scene loader in `build/main.cpp` and `T5.cpp`, with its XML parsing, interactive prompts and `exit` calls, is not part of this model. It also pushes a textured model twice (`build/main.cpp:331` and `build/main.cpp:342`); that is outside the modelled core.
- Randomness:
  - The thin-lens draws `drand48()` are the parameters `r1` and `r2` of `CameraBuild.GenerateRay`.
  - The jitter draws of `sampleSuper` come from `RayTrace.Env.jitter`.
- Missing declarations: `classes/RayTrace.h` uses four things that the headers under `classes/` do not declare: `scene.computeLighting`, `Material::bumpNormal`, the `scene.spotlights` field and `Texture::sampleSuper`.
  - `computeLighting` and `bumpNormal` are uninterpreted function fields of `RayTrace.Env`.
  - The spotlights are a sequence in `Scenes.World`.
  - `sampleSuper` exists only in `build/classes/Texture.h`. So `Materials.Material.texture` holds a state of that later texture (`TextureBuild.TextureState`), even though `classes/Material.h` includes `classes/Texture.h`. The later texture's `getColor`, `lerp` and `sample` are those of `classes/Texture.h` (`TextureBuild.Base`).
- Floating point:
  - IEEE rounding and the mixing of `float` and `double` are not modelled; arithmetic is on `real`.
  - Division by zero gives 0 (`MathLib.Quot`) instead of an infinity or NaN.
  - `numeric_limits<float>::max()` is the symbolic `MathLib.FloatMax`.
  - The `float` to `int` conversion is `MathLib.Trunc`.
- Transcendental functions carry only the laws a lemma needs, such as `sin 0 = 0`, `cos 0 = 1`, `sqrt` squaring back, `sin^2 + cos^2 = 1` and the ranges of `atan2` and `asin`. Their numerical accuracy is not modelled.
- Ownership: `new`/`delete[]`, the `Texture` destructor and `Material` copies sharing a `Texture*` are not modelled. A material's texture is an optional value, a snapshot of the texture's state.
- `Matrix4::makePerspective` (`classes/Matrix4.h:110-124`) is not modelled; the renderer never calls it.
- `Texture::getWidth`, `Texture::getHeight` and the `Sphere` getters and setters are field reads and writes of the datatypes.
- Plain data gets no lemmas. The `Light` record, the `Spotlight` constructor, the default `Vector2` and the camera defaults are datatype values and constants (`CameraClasses.Default`, `CameraBuild.Default`), whose fields are the source's constants by construction.
- The default `Spotlight()` leaves its fields uninitialised in the source; the model has no such value.
- `Scene::intersect` declares `t_sphere` without initialising it and reads it only after a hit has written it. The model passes 0.0, which no branch reads.
- TextureBuild.Texture.constructor: after a failed decode the integer `width` and `height` fields keep whatever the object held, so nothing is stated about them in that case.
- Concurrency: none exists; the renderer runs sequentially.

## Findings

| source | as written | input that shows it | evidently intended | confidence | as-written member | corrected member |
|---|---|---|---|---|---|---|
| classes/Matrix4.h:137-143 | `Matrix4 * Vector3` computes only `result.y` and `result.z`, so `x` stays at the default 0 | the identity times `(1, 0, 0)` gives `(0, 0, 0)` | `x` is row 0 times the vector, like `y` and `z` | high, not executed | Mat4.ApplyLinearAsWritten, Mat4.ApplyLinearAsWrittenDropsX | Mat4.ApplyLinear, Mat4.ApplyLinearIdentity |
| classes/Matrix4.h:53-61 | the diagonal of `rotate` is `x * oc + c`, `y * oc + c` and `z * oc + c` | a quarter turn about the unit axis `(0.6, 0.8, 0)` sends the axis' first component to 0.744 instead of 0.6 | Rodrigues' formula `x * x * oc + c` (and likewise for `y` and `z`), which leaves the axis fixed; the two agree on the coordinate axes that `rotateX`, `rotateY` and `rotateZ` pass, so `Transform` is stated against the corrected rotation (`Mat4.RotationOnCoordinateAxes`) | high, not executed | Mat4.RotationAsWrittenMovesAxis | Mat4.AxisRotationFixesAxis, Xform.Transform.RotateX |
