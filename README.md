# Tuple algebra of anazli/math, in Dafny

This project models the fixed-size tuple types of a small C++ linear-algebra
library: `Vec2`, `Vec3`, `Vec4`, `Point3` and `Normal3`. The library defines
them as templates over a numeric scalar. The model instantiates them at `int`,
where every operation is exact. It covers:

- construction, defaults and the explicit conversions between the types;
- the homogeneous `w` tag of `Vec4`: 0 for a vector or normal, 1 for a point;
- checked indexing, and the assertion-guarded indexing of `Normal3`;
- the defaulted `operator<=>`;
- unary `+` and `-`, and `is_zero`;
- the free `+ - * /` operators in both operand orders;
- `dot`, and `cross` and `reflect` on `Vec3`;
- the affine point/vector algebra of `Point3`.

Layout:

- `tuples.dfy` (module `Tuples`) holds the five value types.
- One module per header holds that header's operations and lemmas:
  `Vector2`, `Vector3`, `Points`, `Normals`, `Vector4`.
- Each of those modules also has a class (`Vec2Var`, `Vec3Var`, `Point3Var`,
  `Normal3Var`, `Vec4Var`). Its fields are the C++ members. Its methods are
  the members that assign in place: the setters, `set`, `zero()`,
  `operator=` and assignment through `operator[]`.
- `scalars.dfy` (module `Scalars`) holds C++ truncating integer division and
  the three-way comparison.
- `failures.dfy` (module `Failures`) holds the thrown exceptions as values:
  `std::out_of_range` becomes `OutOfRange`, and the divide-by-zero
  `std::runtime_error` becomes `DivideByZero`.

The headers forward-declare each other, so the value types share one module.
Dafny modules cannot import each other in a cycle.

`Normal3`'s `n + v` with a `Vec3` operand (src/normal3.h:109-112) builds a
`Vec3` where a `Normal3` is declared. The explicit conversion constructor
rejects this, so the function cannot be instantiated as written.
`Normals.AddVec3` models the evident componentwise sum, typed `Normal3`.

## Model

| member | source | states |
|---|---|---|
| `Scalars.TruncDiv` | src/vec2.h:146 | the C++ integer quotient: its remainder is smaller than the divisor in magnitude and is zero or has the dividend's sign |
| `Scalars.TruncQuotientUnique` | src/vec2.h:146 | that remainder condition determines the quotient, so it defines C++ `/` |
| `Scalars.UncheckedDiv` | src/vec2.h:138 | a component quotient whose divisor is not guarded: truncating whenever the divisor is non-zero |
| `Scalars.TruncQuotientExists` | src/vec2.h:146 | every non-zero divisor has a quotient meeting the truncation condition |
| `Scalars.Cmp` | src/vec2.h:40 | the scalar three-way comparison: `Less` iff `a < b`, `Equal` iff `a == b` |
| `Vector2.At` | src/vec2.h:30-33 | `v[i]` succeeds iff `0 <= i <= 1` and then yields the i-th component in declaration order; otherwise `OutOfRange` |
| `Vector2.Compare` | src/vec2.h:40 | `<=>` is `Equal` iff the vectors are equal, `Less` iff `(x, y)` is lexicographically smaller, `Greater` iff larger |
| `Vector2.CompareOrder` | src/vec2.h:40 | `<=>` is antisymmetric and its `<` is transitive |
| `Vector2.Componentwise` | src/vec2.h:88-126 | `+ - *` with a vector or a scalar act independently on each indexed component |
| `Vector2.ScalarFirstForms` | src/vec2.h:98-131 | `num + v` is `(num + x, num + y)` and `num * v` is `(num * x, num * y)`, as `v + num` and `v * num`; `num - v` is `v - num`, `(x - num, y - num)` |
| `Vector2.ScalarSubCorrected` | src/vec2.h:113-116 | the intended `num - v`: adding `v` back gives `(num, num)` |
| `Vector2.ScalarSubReversed` | src/vec2.h:113-116 | the source's `num - v` equals the intended one iff `v == (num, num)`; `1 - (0, 0)` gives `(-1, -1)` |
| `Vector2.Div` | src/vec2.h:133-139 | `v1 / v2` throws `DivideByZero` iff `v2` is the zero vector; non-zero divisor components give truncating quotients |
| `Vector2.DivCorrected` | src/vec2.h:133-139 | the intended `v1 / v2`: throws iff some divisor component is zero, else every component is the truncating quotient |
| `Vector2.DivGuardGap` | src/vec2.h:135 | a non-zero divisor with a zero component passes the source's guard and is rejected by the corrected one |
| `Vector2.DivScalar` | src/vec2.h:141-147 | `v / num` throws `DivideByZero` iff `num == 0`, else divides each component, truncating |
| `Vector2.Dot` | src/vec2.h:153-157 | `dot` is `a.x*b.x + a.y*b.y` |
| `Vector2.DotLaws` | src/vec2.h:153-157 | `dot` is symmetric, additive and homogeneous in its first operand |
| `Vector2.ProductLaws` | src/vec2.h:118-121 | `v1 * v2` commutes, has the unit vector as identity and zero as absorber, and `dot` is the sum of its components |
| `Vector2.DotExamples` | test/vec2_test.cpp:116-121 | `dot((3,3),(3,3)) == 18` and `dot((-1,5),(-3,3)) == 18` |
| `Vector2.AdditiveLaws` | src/vec2.h:88-111 | `v + 0 == v`, `v - v` is zero, `(a + b) - b == a`, `+` commutes, `v + (-v) == 0` |
| `Vector2.UnaryLaws` | src/vec2.h:42-43 | `+v == v`, `-(-v) == v`, `-v == v * -1` |
| `Vector2.IsZeroIsDefault` | src/vec2.h:14-59 | `is_zero()` iff both components are 0 iff the vector is the default `Vec2()`; the unit vector is not zero |
| `Vector2.Vec2Var.constructor` | src/vec2.h:57-59 | a default-constructed vector is `(0, 0)` |
| `Vector2.Vec2Var.Make` | src/vec2.h:15 | `Vec2(p1, p2)` holds `(p1, p2)` |
| `Vector2.Vec2Var.SetX` | src/vec2.h:22 | `x(num)` changes `x` only |
| `Vector2.Vec2Var.SetY` | src/vec2.h:23 | `y(num)` changes `y` only |
| `Vector2.Vec2Var.SetAll` | src/vec2.h:24 | `set(n)` makes both components `n` |
| `Vector2.Vec2Var.Set` | src/vec2.h:25-28 | `set(a, b)` makes `x = a`, `y = b` |
| `Vector2.Vec2Var.AssignAt` | src/vec2.h:35-38 | `v[i] = num` fails with `OutOfRange` and changes nothing iff `i` is outside 0..1; otherwise only component `i` changes, to `num` |
| `Vector3.At` | src/vec3.h:43-48 | `v[i]` succeeds iff `0 <= i <= 2` and then yields x, y or z; otherwise `OutOfRange` |
| `Vector3.Compare` | src/vec3.h:64 | `<=>` is `Equal` iff equal, `Less` iff `(x, y, z)` is lexicographically smaller |
| `Vector3.CompareOrder` | src/vec3.h:64 | `<=>` is antisymmetric and its `<` is transitive |
| `Vector3.Componentwise` | src/vec3.h:124-166 | `+ - *` with a vector or a scalar act independently on each indexed component |
| `Vector3.ScalarFirstForms` | src/vec3.h:134-166 | `num + v` adds `num` to and `num * v` multiplies by `num` every component, as `v + num` and `v * num`; `num - v` is `v - num`, each component less `num` |
| `Vector3.ScalarSubCorrected` | src/vec3.h:149-151 | the intended `num - v`: adding `v` back gives `(num, num, num)` |
| `Vector3.ScalarSubReversed` | src/vec3.h:149-151 | the source's `num - v` equals the intended one iff `v == (num, num, num)` |
| `Vector3.Div` | src/vec3.h:169-175 | `v1 / v2` throws `DivideByZero` iff `v2` is the zero vector; non-zero divisor components give truncating quotients |
| `Vector3.DivCorrected` | src/vec3.h:169-175 | the intended `v1 / v2`: throws iff some divisor component is zero, else componentwise truncating quotients |
| `Vector3.DivGuardGap` | src/vec3.h:170 | a non-zero divisor with a zero component passes the source's guard and is rejected by the corrected one |
| `Vector3.DivScalar` | src/vec3.h:177-183 | `v / num` throws `DivideByZero` iff `num == 0`, else divides each component, truncating |
| `Vector3.Dot` | src/vec3.h:189-192 | `dot` is the sum of the three componentwise products |
| `Vector3.DotLaws` | src/vec3.h:189-192 | `dot` is symmetric, additive, subtractive and homogeneous in its first operand |
| `Vector3.ProductLaws` | src/vec3.h:153-156 | `v1 * v2` commutes, has the unit vector as identity and zero as absorber, and `dot` is the sum of its components |
| `Vector3.Cross` | src/vec3.h:195-200 | `cross(a, b)` is orthogonal to both `a` and `b`: both dot products are exactly 0 |
| `Vector3.CrossLaws` | src/vec3.h:195-200 | `cross(a, b) == -cross(b, a)` and `cross(a, a)` is zero |
| `Vector3.ReflectIsSubScaled` | src/vec3.h:212-214 | `reflect(v, n)` is `v - n * (2 * dot(v, n))` |
| `Vector3.ReflectFlipsNormalPart` | src/vec3.h:212-214 | for `dot(n, n) == 1`, `dot(reflect(v, n), n) == -dot(v, n)` |
| `Vector3.ReflectInvolution` | src/vec3.h:212-214 | for `dot(n, n) == 1`, reflecting twice returns `v` |
| `Vector3.ReflectKeepsLength` | src/vec3.h:212-214 | for `dot(n, n) == 1`, reflection keeps `dot(v, v)` |
| `Vector3.Examples` | test/vec3_test.cpp:94-146 | the test suite's dot products 54 and 72, and `reflect((1,-1,0),(0,1,0)) == (1,1,0)` |
| `Vector3.AdditiveLaws` | src/vec3.h:124-146 | `v + 0 == v`, `v - v` is zero, `(a + b) - b == a`, `+` commutes, `v + (-v) == 0` |
| `Vector3.UnaryLaws` | src/vec3.h:66-67 | `+v == v`, `-(-v) == v`, `-v == v * -1` |
| `Vector3.DefaultAndUnit` | src/vec3.h:27-94 | `is_zero()` iff all components are 0 iff the vector is the default; `create_unit_vec()` is `(1, 1, 1)` |
| `Vector3.ConversionsCopy` | src/vec3.h:23-25 | `Vec3(Vec4)`, `Vec3(Point3)`, `Vec3(Normal3)` copy x, y, z; `Vec3(Vec4)` ignores `w` |
| `Vector3.Vec3Var.constructor` | src/vec3.h:92-94 | a default-constructed vector is `(0, 0, 0)` |
| `Vector3.Vec3Var.Make` | src/vec3.h:22 | `Vec3(p1, p2, p3)` holds `(p1, p2, p3)` |
| `Vector3.Vec3Var.SetX` | src/vec3.h:33 | `x(x)` changes `x` only |
| `Vector3.Vec3Var.SetY` | src/vec3.h:34 | `y(y)` changes `y` only |
| `Vector3.Vec3Var.SetZ` | src/vec3.h:35 | `z(z)` changes `z` only |
| `Vector3.Vec3Var.SetAll` | src/vec3.h:36 | `set(n)` makes every component `n` |
| `Vector3.Vec3Var.Set` | src/vec3.h:37-41 | `set(x, y, z)` sets the three components |
| `Vector3.Vec3Var.Zero` | src/vec3.h:85-89 | after `zero()`, `is_zero()` holds |
| `Vector3.Vec3Var.AssignVec4` | src/vec3.h:57-62 | `operator=(Vec4)` copies x, y, z and discards `w` |
| `Vector3.Vec3Var.AssignAt` | src/vec3.h:50-55 | `v[i] = num` fails with `OutOfRange` and changes nothing iff `i` is outside 0..2; otherwise only component `i` changes |
| `Points.At` | src/point3.h:34-39 | `p[i]` succeeds iff `0 <= i <= 2` and then yields x, y or z; otherwise `OutOfRange` |
| `Points.Compare` | src/point3.h:55 | `<=>` is `Equal` iff equal, `Less` iff `(x, y, z)` is lexicographically smaller |
| `Points.CompareOrder` | src/point3.h:55 | `<=>` is antisymmetric and its `<` is transitive |
| `Points.Cancellation` | src/point3.h:57-71 | `(p + v) - v == p`, `(p - v) + v == p`, `q + (p - q) == p`, `p - (p - q) == q` |
| `Points.DisplacementLaws` | src/point3.h:69-71 | `(p - q) + (q - s) == p - s`, `q - p == -(p - q)`, `p - p` is the zero vector |
| `Points.DisplacementsRealised` | src/point3.h:57-71 | from any base point `q`, every vector `v` is the displacement `p - q` of some point, namely `q + v` (`(q + v) - q == v`), and of only one |
| `Points.VectorValuedForms` | src/point3.h:61-113 | `p - q`, `p + q`, `v + p`, `v - p` are Vec3 values equal to vector arithmetic on the position vectors; `p + q` commutes |
| `Points.TranslationForms` | src/point3.h:57-67 | `p + v` and `p - v` are points whose position vectors are the vector sum and difference |
| `Points.ScalarForms` | src/point3.h:115-128 | `p * num == num * p` scales every component; `p + num` adds `num` to every component |
| `Points.OriginIsZero` | src/point3.h:73-78 | `is_zero()` iff all components are 0 iff the point is the default-constructed origin |
| `Points.ConversionsCopy` | src/point3.h:21-23 | `Point3(Vec4)`, `Point3(Vec3)`, `Point3(Normal3)` copy x, y, z; `Point3(Vec4)` ignores `w`; Point3 to Vec3 and back is the identity |
| `Points.Examples` | test/point3_test.cpp:23-49 | `(0,2,4) - (1,0,4) == Vec3(-1,2,0)`, `(3,4,5) - Vec3(3,4,5)` is the origin, `(0,-1,-8) + Vec3(-4,5,9) == (-4,4,1)` |
| `Points.Point3Var.constructor` | src/point3.h:76-78 | a default-constructed point is the origin |
| `Points.Point3Var.Make` | src/point3.h:20 | `Point3(x, y, z)` holds `(x, y, z)` |
| `Points.Point3Var.SetX` | src/point3.h:29 | `x(x)` changes `x` only |
| `Points.Point3Var.SetY` | src/point3.h:30 | `y(y)` changes `y` only |
| `Points.Point3Var.SetZ` | src/point3.h:31 | `z(z)` changes `z` only |
| `Points.Point3Var.SetAll` | src/point3.h:32 | `set(n)` makes every component `n` |
| `Points.Point3Var.AssignVec4` | src/point3.h:48-53 | `operator=(Vec4)` copies x, y, z and discards `w` |
| `Points.Point3Var.AssignAt` | src/point3.h:41-46 | `p[i] = num` fails with `OutOfRange` and changes nothing iff `i` is outside 0..2; otherwise only component `i` changes |
| `Normals.At` | src/normal3.h:42-47 | for an index the source's `assert` admits (0..2), `n[i]` is the i-th component |
| `Normals.Compare` | src/normal3.h:63 | `<=>` is `Equal` iff equal, `Less` iff `(x, y, z)` is lexicographically smaller |
| `Normals.CompareOrder` | src/normal3.h:63 | `<=>` is antisymmetric and its `<` is transitive |
| `Normals.Componentwise` | src/normal3.h:104-162 | `+ - *` with a normal or a scalar, and `+` and `*` with a Vec3, act independently on each indexed component |
| `Normals.SwappedForms` | src/normal3.h:114-167 | `num + n == n + num`, `num * n == n * num`, `v * n == n * v`, `v + n == n + v`, each given component by component; `num - n` is `n - num`, each component less `num` |
| `Normals.ScalarSubCorrected` | src/normal3.h:139-142 | the intended `num - n`: adding `n` back gives `(num, num, num)` |
| `Normals.ScalarSubReversed` | src/normal3.h:139-142 | the source's `num - n` equals the intended one iff `n == (num, num, num)`; `2 - Normal3()` gives `(-1, -1, -1)` |
| `Normals.MixedProducts` | src/normal3.h:149-157 | `n * v` with a Vec3 is the Normal3 product with the converted vector |
| `Normals.Dot` | src/normal3.h:169-173 | `dot(n1, n2)` is the sum of the three componentwise products |
| `Normals.DotVec3` | src/normal3.h:175-179 | `dot(n, v)` is the sum of the three componentwise products |
| `Normals.DotsAgree` | src/normal3.h:169-184 | `dot(v, n) == dot(n, v) == dot(n, Normal3(v)) == dot(Vec3(n), v)`, and `dot(n1, n2)` is symmetric |
| `Normals.UnaryLaws` | src/normal3.h:65-66 | `+n == n`, `-(-n) == n`, `n + (-n)` is all zeros |
| `Normals.DefaultIsOnes` | src/normal3.h:73-75 | the default normal is `(1, 1, 1)`, unlike the all-zero default `Vec3` |
| `Normals.ConversionsCopy` | src/normal3.h:24-26 | `Normal3(Vec4)`, `Normal3(Point3)`, `Normal3(Vec3)` copy x, y, z; `w` is ignored; Normal3 to Vec3 and back is the identity |
| `Normals.Normal3Var.constructor` | src/normal3.h:73-75 | a default-constructed normal is `(1, 1, 1)` |
| `Normals.Normal3Var.Make` | src/normal3.h:23 | `Normal3(p1, p2, p3)` holds `(p1, p2, p3)` |
| `Normals.Normal3Var.SetX` | src/normal3.h:32 | `x(x)` changes `x` only |
| `Normals.Normal3Var.SetY` | src/normal3.h:33 | `y(y)` changes `y` only |
| `Normals.Normal3Var.SetZ` | src/normal3.h:34 | `z(z)` changes `z` only |
| `Normals.Normal3Var.SetAll` | src/normal3.h:35 | `set(n)` makes every component `n` |
| `Normals.Normal3Var.Set` | src/normal3.h:36-40 | `set(x, y, z)` sets the three components |
| `Normals.Normal3Var.AssignVec4` | src/normal3.h:56-61 | `operator=(Vec4)` copies x, y, z and discards `w` |
| `Normals.Normal3Var.AssignAt` | src/normal3.h:49-54 | for an index in 0..2 (the source asserts it), `n[i] = num` changes only component `i` |
| `Vector4.At` | src/vec4.h:48-54 | `v[i]` succeeds iff `0 <= i <= 3` and then yields x, y, z or w; otherwise `OutOfRange` |
| `Vector4.Compare` | src/vec4.h:80 | `<=>` is `Equal` iff equal, `Less` iff `(x, y, z, w)` is lexicographically smaller |
| `Vector4.CompareOrder` | src/vec4.h:80 | `<=>` is antisymmetric and its `<` is transitive |
| `Vector4.HomogeneousTag` | src/vec4.h:22-27 | `Vec4(Vec3)` and `Vec4(Normal3)` have `w = 0`, `Vec4(Point3)` has `w = 1`, x, y, z are copied, and no point converts to the same Vec4 as a vector or normal |
| `Vector4.TagClassifies` | src/vec4.h:22-27 | a Vec4 is the form of some point iff `w == 1`, and of some Vec3 or Normal3 iff `w == 0` |
| `Vector4.RoundTrips` | src/vec4.h:22-27 | `Vec3(Vec4(v)) == v`, `Point3(Vec4(p)) == p`, `Normal3(Vec4(n)) == n`; converting a Vec4 down and back resets `w` to the tag |
| `Vector4.AffineTags` | src/vec4.h:138-158 | on homogeneous forms, point ± vector is the point form of `p ± v` and point − point is the vector form of `p - q` |
| `Vector4.TagNotPreserved` | src/vec4.h:138-142 | the sum of two point forms has `w = 2`, unlike the vector form of Point3's `p + q`; negating a point form gives `w = -1` |
| `Vector4.Componentwise` | src/vec4.h:138-184 | `+ - *` with a vector or a scalar, and unary `-`, act independently on all four components, `w` included |
| `Vector4.ScalarFirstForms` | src/vec4.h:149-184 | `num + v` adds `num` to and `num * v` multiplies by `num` all four components, as `v + num` and `v * num`; `num - v` is `v - num`, each component less `num` |
| `Vector4.ScalarSubCorrected` | src/vec4.h:165-168 | the intended `num - v`: adding `v` back gives `(num, num, num, num)` |
| `Vector4.ScalarSubReversed` | src/vec4.h:165-168 | the source's `num - v` equals the intended one iff `v == (num, num, num, num)` |
| `Vector4.Div` | src/vec4.h:186-193 | `v1 / v2` throws `DivideByZero` iff `v2` is the zero vector; non-zero divisor components give truncating quotients |
| `Vector4.DivCorrected` | src/vec4.h:186-193 | the intended `v1 / v2`: throws iff some divisor component is zero, else componentwise truncating quotients |
| `Vector4.DivGuardGap` | src/vec4.h:188 | a non-zero divisor with a zero component passes the source's guard, e.g. the form of any non-zero Vec3 (its `w` is 0) |
| `Vector4.DivScalar` | src/vec4.h:195-201 | `v / num` throws `DivideByZero` iff `num == 0`, else divides each component, truncating |
| `Vector4.Dot` | src/vec4.h:203-207 | `dot` is the sum of the four componentwise products |
| `Vector4.DotLaws` | src/vec4.h:203-207 | `dot` is symmetric, and on two vector forms it equals `dot` on Vec3 |
| `Vector4.ProductLaws` | src/vec4.h:170-174 | `v1 * v2` commutes, has the unit vector as identity and zero as absorber, and `dot` is the sum of its components |
| `Vector4.DotExamples` | test/vec4_test.cpp:112-117 | `dot((3,3,4,1),(3,3,9,-10)) == 44` and `dot((-1,5,9,-3),(-3,3,6,0)) == 72` |
| `Vector4.AdditiveLaws` | src/vec4.h:138-158 | `v + 0 == v`, `v - v` is zero, `(a + b) - b == a`, `+` commutes, `v + (-v) == 0` |
| `Vector4.UnaryLaws` | src/vec4.h:82-83 | `+v == v`, `-(-v) == v` |
| `Vector4.DefaultAndUnit` | src/vec4.h:29-113 | `is_zero()` iff the vector is the default; `create_unit_vec()` is not zero and has `w = 1` |
| `Vector4.Vec4Var.constructor` | src/vec4.h:110-113 | a default-constructed vector is `(0, 0, 0, 0)` |
| `Vector4.Vec4Var.Make` | src/vec4.h:21 | `Vec4(p1, p2, p3, p4)` holds `(p1, p2, p3, p4)` |
| `Vector4.Vec4Var.SetX` | src/vec4.h:36 | `x(x)` changes `x` only |
| `Vector4.Vec4Var.SetY` | src/vec4.h:37 | `y(y)` changes `y` only |
| `Vector4.Vec4Var.SetZ` | src/vec4.h:38 | `z(z)` changes `z` only |
| `Vector4.Vec4Var.SetW` | src/vec4.h:39 | `w(w)` changes `w` only |
| `Vector4.Vec4Var.SetAll` | src/vec4.h:40 | `set(n)` makes all four components `n` |
| `Vector4.Vec4Var.Set` | src/vec4.h:41-46 | `set(x, y, z, w)` sets the four components |
| `Vector4.Vec4Var.Zero` | src/vec4.h:102-107 | after `zero()`, `is_zero()` holds |
| `Vector4.Vec4Var.AssignVec3` | src/vec4.h:64-70 | `operator=(Vec3)` copies x, y, z and sets `w = 0` |
| `Vector4.Vec4Var.AssignPoint3` | src/vec4.h:72-78 | `operator=(Point3)` copies x, y, z and sets `w = 1` |
| `Vector4.Vec4Var.AssignAt` | src/vec4.h:56-62 | `v[i] = num` fails with `OutOfRange` and changes nothing iff `i` is outside 0..3; otherwise only component `i` changes |

## Left out

- `length`, `normalize` and `normalized`, in every header. They use `sqrt`, a
  `double` epsilon threshold, casts back to the scalar type and, for `Vec4`,
  a `1e-30` padding. This is floating-point numerics, which an `int` model
  cannot express.
- Fixed-width overflow. Signed `int` overflow in any tuple type's `+`, `-`,
  `*`, `dot`, `cross` or `reflect` is undefined behaviour in C++, and so is
  `INT_MIN / -1`. Dafny's `int` is unbounded, so the model computes the
  mathematical value.
- Floating-point instantiations (`Vec3f`, `Vec3d`, ...). The model fixes the
  scalar at `int`.
- The `numeric` concept (src/types.h). It is a compile-time restriction on
  the scalar type.
- Stream I/O: every `operator<<` and `operator>>`.
- `Ray` (src/ray.h). It is a thin wrapper around float `Point3`/`Vec3`.
- The matrix types. Their headers are not part of this model; only their
  tests are visible.
- The getters `x()`, `y()`, ... are the fields of the values and objects.
- Reading through the non-const `operator[]` returns the same component as
  the const form, so both reads are modelled by `At`.
- `Normals.At`: the source's `assert` checks the index only when `NDEBUG` is
  not defined. With `NDEBUG` defined the `assert` is compiled out, and an
  index outside 0..2 reads `z`. The model makes the index range a
  precondition.
- `Normals.Normal3Var.AssignAt`: it takes the same precondition. With `NDEBUG`
  defined, the reference form writes `z` for an index outside 0..2.
- `Vector2.Div`: for a divisor that passes the guard but has a zero
  component, C++ integer division is undefined. The model puts a placeholder
  0 in that component (`Scalars.UncheckedDiv`), and the contract says nothing
  about it.
- `Vector3.Div`: the same placeholder applies to a zero divisor component.
- `Vector4.Div`: the same placeholder applies to a zero divisor component.
- Test helpers that the headers do not define (`setX`, `setW`,
  `getUnitVectorOf`).

## Findings

| source | as written | input that shows it | evidently intended | confidence | as-written member | corrected member |
|---|---|---|---|---|---|---|
| src/vec2.h:113-116 | `num - v` returns `v - num` | `1 - Vec2(0, 0)` gives `(-1, -1)` | `(num - x, num - y)` | medium, not executed | `Vector2.ScalarSubReversed` | `Vector2.ScalarSubCorrected` |
| src/vec3.h:149-151 | `num - v` returns `v - num` | `1 - Vec3(0, 0, 0)` gives `(-1, -1, -1)` | each component subtracted from `num` | medium, not executed | `Vector3.ScalarSubReversed` | `Vector3.ScalarSubCorrected` |
| src/vec4.h:165-168 | `num - v` returns `v - num` | `1 - Vec4(0, 0, 0, 0)` gives `(-1, -1, -1, -1)` | each component subtracted from `num` | medium, not executed | `Vector4.ScalarSubReversed` | `Vector4.ScalarSubCorrected` |
| src/normal3.h:139-142 | `num - n` returns `n - num` | `2 - Normal3()` gives `(-1, -1, -1)` | each component subtracted from `num` | medium, not executed | `Normals.ScalarSubReversed` | `Normals.ScalarSubCorrected` |
| src/vec2.h:133-139 | `v1 / v2` rejects only the all-zero divisor | `Vec2(1, 1) / Vec2(1, 0)` passes the guard and divides an `int` by zero | reject any zero divisor component | medium, not executed | `Vector2.DivGuardGap` | `Vector2.DivCorrected` |
| src/vec3.h:169-175 | `v1 / v2` rejects only the all-zero divisor | `Vec3(1, 1, 1) / Vec3(1, 0, 1)` passes the guard | reject any zero divisor component | medium, not executed | `Vector3.DivGuardGap` | `Vector3.DivCorrected` |
| src/vec4.h:186-193 | `v1 / v2` rejects only the all-zero divisor | `v / Vec4(Vec3(1, 1, 1))` passes the guard with `w = 0` | reject any zero divisor component | medium, not executed | `Vector4.DivGuardGap` | `Vector4.DivCorrected` |

The as-written operators are `ScalarSub` and `Div` in each module. The
lemma in the as-written column relates each one to its corrected
counterpart.
