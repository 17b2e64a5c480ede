# LibMaths in Dafny

A model of the exact-arithmetic layer of LibMaths, a small C++ linear-algebra library.
It covers the vector types (FVec2, FVec3, DVec3, FVec4 and the older `vec2`), the 3x3 and
4x4 matrices (FMat3, FMat4 and the template `Mat4<T>`), the three quaternion classes (FQuat,
the template `Quaternion<T>` and the older `Quaternion<T>` under LibMaths/), and the
helpers of Utilities.h. The model states and proves the properties these types promise:

- the ring identities;
- the zero guards and the exceptions;
- the index rules;
- the in-place updates of the compound operators;
- the matrix and quaternion conversions.

`float` and `double` are modelled as unbounded `real`s, so every identity below holds exactly.
It is not subject to rounding.

Modules and files:

| file | module | models |
|---|---|---|
| utilities.dfy | Utilities | `clamp`, the degree/radian conversions, the exception kinds, and the square-root convention |
| fvec2.dfy | FVec2 | FVec2, with class `Vec2Var` for its compound operators |
| fvec3.dfy | FVec3 | FVec3, with class `Vec3Var`. DVec3 shares these bodies |
| dvec3.dfy | DVec3 | what DVec3 does differently: `Project`, the mutating `operator/`, the free `*=` `/=` `==` `!=` |
| fvec4.dfy | FVec4 | FVec4, with `Homogenize` in class `Vec4Var` |
| legacy_vec2.dfy | LegacyVec2 | the older `vec2`, as class `Vec2` |
| fmat3.dfy | FMat3 | FMat3 values, loop-built operations as methods, and class `Mat3Var` |
| fmat4.dfy | FMat4 | FMat4 values, the two products, loops as methods, and class `Mat4Var` |
| mat4_template.dfy | Mat4Template | `Mat4<T>` as class `Mat4` over an `array` of four rows |
| quat_algebra.dfy | QuatAlgebra | the quaternion algebra the three copies share |
| quat_matrix.dfy | QuatMatrix | `toMatrix3` and the four-branch `fromMatrix3` |
| fquat.dfy | FQuat | FQuat and the template `Quaternion<T>`. Their member bodies are the same; class `QuatVar` |
| legacy_quaternion.dfy | LegacyQuaternion | the older `Quaternion<T>`, as class `QuatVar` |

Square roots are never computed. A member that takes one receives it as a parameter `root`
(or `length`) with `requires IsSqrt(radicand, root)`. That means `root >= 0` and `root * root == radicand`,
which is what `sqrt`/`sqrtf` return over the reals.

Sources marked below
as `(also …)` have the same body as the cited one.

## Model

| member | source | states |
|---|---|---|
| Utilities.Clamp | Utilities.h:44-48 | the three-way rule: a value below `min` gives `min`, even when the bounds are inverted; otherwise a value above `max` gives `max`; otherwise the value itself. With `min <= max` the result lies in `[min, max]`, and a value already inside is returned unchanged |
| Utilities.ClampIdempotent | Utilities.h:44-48 | with ordered bounds, clamping twice is clamping once |
| Utilities.ClampInvertedNotIdempotent | Utilities.h:44-48 | with inverted bounds clamp is not idempotent: 0 clamped to [1, -1] gives 1, and clamping again gives -1 |
| Utilities.DegreesRadiansRoundTrip | Utilities.h:34-42 | `radiansToDegrees` and `degreesToRadians` are inverse to each other, in both orders |
| Utilities.HalfCircleIsPi | Utilities.h:34-42 | 180 degrees is PI radians, and back |
| FVec2.Add | Vec2/FVec2.cpp:141-148 | componentwise sum. AddSubstractInverse proves Substract undoes it |
| FVec2.Substract | Vec2/FVec2.cpp:150-157 | componentwise difference. AddSubstractInverse proves it undoes Add |
| FVec2.AddSubstractInverse | Vec2/FVec2.cpp:141-157 | `Substract(Add(a, b), b) == a`, `Add(Substract(a, b), b) == a`, and `a + (-a)` is Zero (unary minus at 24-27) |
| FVec2.Divide | Vec2/FVec2.cpp:168-179 | throws `logic_error` exactly when the scalar is 0. Otherwise multiplying the quotient back gives the vector (also the free `s / v` at 247-250) |
| FVec2.Multiply | Vec2/FVec2.cpp:159-166 | scales both components. Length2Multiply proves it scales the squared length by s*s |
| FVec2.Dot | Vec2/FVec2.cpp:186-189 | the sum of the componentwise products. Length2 proves Dot(v, v) non-negative and zero only at Zero |
| FVec2.Length2 | Vec2/FVec2.cpp:181-189 | the radicand of `Length` is `Dot(v, v)`. It is non-negative, and 0 exactly for the zero vector |
| FVec2.Length2Multiply | Vec2/FVec2.cpp:159-166 | scaling by s scales the squared length by s*s |
| FVec2.Normalize | Vec2/FVec2.cpp:191-209 | Zero for the zero vector. Otherwise the result has length 1 and scales back to the input by the length |
| FVec2.Lerp | Vec2/FVec2.cpp:211-214 | start at alpha 0 and end at alpha 1 |
| FVec2.SlerpFallback | Vec2/FVec2.cpp:252-264 | the dot product is replaced by its absolute value. The `Lerp` fallback is taken exactly when that exceeds 0.9995, and it is then `Lerp(start, end, alpha)` |
| FVec2.SlerpOppositeFallback | Vec2/FVec2.cpp:252-264 | because of the absolute value, opposite unit vectors take the fallback and pass through Zero at alpha 0.5 |
| FVec2.Reflect | Vec2/FVec2.cpp:289-292 | `target - normal * 2 * Dot(target, normal)`. ReflectUnitNormal and ReflectInvolution state its laws |
| FVec2.ReflectUnitNormal | Vec2/FVec2.cpp:289-292 | for a unit normal, `Reflect` negates the component along the normal and keeps the squared length |
| FVec2.ReflectInvolution | Vec2/FVec2.cpp:289-292 | for a unit normal, reflecting twice gives the original vector |
| FVec2.Project | Vec2/FVec2.cpp:294-297 | the result is the normal scaled by `Dot(target, normal)`, with no division by the normal's squared length. Its dot product with the normal is `Dot(target, normal) * Dot(normal, normal)`, and for a unit normal the residual is orthogonal to the normal |
| FVec2.ProjectIdempotent | Vec2/FVec2.cpp:294-297 | for a unit normal, projecting twice is projecting once. For the normal (2, 0), (1, 0) projects to (4, 0) |
| FVec2.Clamp | Vec2/FVec2.cpp:275-282 | with ordered bounds the result lies between them. A vector already between them is unchanged |
| FVec2.Index | Vec2/FVec2.cpp:93-139 | 0 and 1 read x and y. Any other index throws `out_of_range`, for `operator[]` and `operator()` alike |
| FVec2.IsZero | Vec2/FVec2.cpp:284-287 | holds exactly when the squared length is 0 |
| FVec2.Vec2Var.constructor | Vec2/FVec2.cpp:14-17 | the object holds (x, y) |
| FVec2.Vec2Var.Assign | Vec2/FVec2.cpp:29-35 | the new value is the other vector |
| FVec2.Vec2Var.AddAssign | Vec2/FVec2.cpp:42-46 | the new value is `old + other` |
| FVec2.Vec2Var.SubstractAssign | Vec2/FVec2.cpp:53-57 | the new value is `old - other` |
| FVec2.Vec2Var.MultiplyAssign | Vec2/FVec2.cpp:64-68 | the new value is `old * s` |
| FVec2.Vec2Var.DivideAssign | Vec2/FVec2.cpp:75-79 | returns what `Divide` returns. On a throw the object is unchanged, otherwise it holds the quotient |
| FVec2.Vec2Var.SetAt | Vec2/FVec2.cpp:105-139 | 0 and 1 write that component and keep the other one. Any other index throws `out_of_range` and writes nothing |
| FVec3.Add | Vec3/FVec3.cpp:142-150 | componentwise sum. AddSubstractInverse proves Substract undoes it |
| FVec3.Substract | Vec3/FVec3.cpp:152-160 | componentwise difference. AddSubstractInverse proves it undoes Add |
| FVec3.AddSubstractInverse | Vec3/FVec3.cpp:142-160 | Substract and Add cancel in both orders. `a + (-a)` is Zero, and `a - b == a + (-b)` (unary minus at 27-30) |
| FVec3.Divide | Vec3/FVec3.cpp:172-184 | throws `logic_error` exactly for a zero scalar. Otherwise multiplying back restores the vector (also Vec3/DVec3.cpp:211-223) |
| FVec3.ScalarDivide | Vec3/FVec3.cpp:331-339 | for s != 0, the free `s / v` gives the value `Divide` returns, and multiplying it back by s restores v (also Vec3/DVec3.cpp:379-387) |
| FVec3.HadamardCommutes | Vec3/FVec3.cpp:341-349 | the free componentwise `v * w` commutes and has One as its unit (also Vec3/DVec3.cpp:389-397) |
| FVec3.Multiply | Vec3/FVec3.cpp:162-170 | scales all three components. Length2Multiply proves it scales the squared length by s*s |
| FVec3.Dot | Vec3/FVec3.cpp:191-194 | the sum of the componentwise products. Length2 and Cross state its laws |
| FVec3.Length2 | Vec3/FVec3.cpp:186-194 | `Dot(v, v)`, non-negative, and 0 exactly for Zero (also Vec3/DVec3.cpp:276-279) |
| FVec3.Length2Multiply | Vec3/FVec3.cpp:162-170 | scaling by s scales the squared length by s*s |
| FVec3.Cross | Vec3/FVec3.cpp:206-214 | the cross product is orthogonal to both arguments (also Vec3/DVec3.cpp:245-253) |
| FVec3.CrossAntiSymmetric | Vec3/FVec3.cpp:206-214 | `Cross(a, b) == -Cross(b, a)` and `Cross(a, a)` is Zero |
| FVec3.Normalize | Vec3/FVec3.cpp:216-235 | Zero for the zero vector. Otherwise length 1, and it scales back to the input by its length (also Vec3/DVec3.cpp:255-274) |
| FVec3.Lerp | Vec3/FVec3.cpp:237-240 | start at alpha 0, end at alpha 1 (also Vec3/DVec3.cpp:281-284) |
| FVec3.Project | Vec3/FVec3.cpp:257-267 | the result is the normal scaled by `Dot(target, normal)`, with no division by the normal's squared length. For a unit normal the residual `target - Project` is orthogonal to the normal |
| FVec3.ProjectIdempotent | Vec3/FVec3.cpp:257-267 | for a unit normal, projecting twice is projecting once |
| FVec3.Reflect | Vec3/FVec3.cpp:269-272 | `target - normal * 2 * Dot(target, normal)`. ReflectUnitNormal and ReflectInvolution state its laws |
| FVec3.ReflectUnitNormal | Vec3/FVec3.cpp:269-272 | for a unit normal, the normal component is negated and the squared length kept |
| FVec3.ReflectInvolution | Vec3/FVec3.cpp:269-272 | for a unit normal, reflecting twice gives the original vector (also Vec3/DVec3.cpp:310-313) |
| FVec3.Refract | Vec3/FVec3.cpp:274-283 | Zero when k = 1 - eta^2 (1 - dot^2) is negative. Otherwise, for a unit normal, the refracted ray's component along the normal is -sqrt(k), and its part across the normal is eta times the incoming ray's part across the normal (also Vec3/DVec3.cpp:315-324) |
| FVec3.RefractAcross | Vec3/FVec3.cpp:274-283 | in the non-negative branch, against a unit normal, the normal component of `target * eta - normal * (eta * dot + root)` is -root, and the rest is eta times the incoming ray's part across the normal |
| FVec3.RefractSameMedium | Vec3/FVec3.cpp:274-283 | with eta = 1, a ray meeting the surface against its normal passes through unchanged |
| FVec3.Clamp | Vec3/FVec3.cpp:285-293 | with ordered bounds the result lies between them. A vector already between them is unchanged (also Vec3/DVec3.cpp:326-334) |
| FVec3.Index | Vec3/FVec3.cpp:98-140 | 0..2 read x, y, z. Any other index throws `out_of_range` (also Vec3/DVec3.cpp:137-179) |
| FVec3.IsZero | Vec3/FVec3.cpp:302-305 | holds exactly when the squared length is 0 |
| FVec3.Vec3Var.constructor | Vec3/FVec3.cpp:19-21 | the object holds (x, y, z) |
| FVec3.Vec3Var.Default | Vec3/FVec3.cpp:19-21 | with the default arguments, every coordinate is 0 |
| FVec3.Vec3Var.Assign | Vec3/FVec3.cpp:32-39 | the new value is the other vector |
| FVec3.Vec3Var.AddAssign | Vec3/FVec3.cpp:46-50 | the new value is `old + other` |
| FVec3.Vec3Var.SubstractAssign | Vec3/FVec3.cpp:57-61 | the new value is `old - other` |
| FVec3.Vec3Var.MultiplyAssign | Vec3/FVec3.cpp:68-72 | the new value is `old * s` |
| FVec3.Vec3Var.DivideAssign | Vec3/FVec3.cpp:79-83 | on a zero scalar it throws and the object is unchanged. Otherwise the object holds the quotient |
| FVec3.Vec3Var.SetAt | Vec3/FVec3.cpp:109-140 | 0..2 write that component and keep the others, and the write reads back. Any other index throws and writes nothing |
| DVec3.Splat | Vec3/DVec3.cpp:39-44 | `DVec3(init)` is One scaled by init |
| DVec3.FromVec4 | Vec3/DVec3.cpp:31-33 | `DVec3(FVec4)` keeps x, y, z: widening the result again with the same w gives the FVec4 back |
| DVec3.FromVec4RoundTrip | Vec3/DVec3.cpp:31-33 | converting a 3-vector to an FVec4 and back gives it back, for every w |
| DVec3.Project | Vec3/DVec3.cpp:296-308 | Zero for a normal of squared length 0. Otherwise a multiple of the normal whose residual is orthogonal to the normal, for any normal |
| DVec3.ProjectIdempotent | Vec3/DVec3.cpp:296-308 | projecting a projection again changes nothing, for every normal |
| DVec3.ProjectAgreesForUnitNormal | Vec3/DVec3.cpp:296-308 | for a unit normal DVec3's `Project` equals FVec3's (Vec3/FVec3.cpp:257-267); for target (1, 0, 0) and normal (2, 0, 0) FVec3's gives (4, 0, 0) and DVec3's gives (1, 0, 0) |
| DVec3.DivideComponents | Vec3/DVec3.cpp:92-100 | the const `operator/(DVec3)` is the componentwise quotient. Multiplying back componentwise restores the dividend |
| DVec3.DivideInPlace | Vec3/DVec3.cpp:82-90 | the non-const `operator/(DVec3)` overwrites the receiver with the quotient and returns that value |
| DVec3.DivideAssign | Vec3/DVec3.cpp:399-406 | the free `/=` divides the left operand componentwise in place and returns it |
| DVec3.MultiplyAssign | Vec3/DVec3.cpp:408-415 | the free `*=` multiplies the left operand componentwise in place and returns it |
| DVec3.DivideThenMultiply | Vec3/DVec3.cpp:399-415 | `/=` followed by `*=` with the same non-zero vector restores the left operand |
| DVec3.ConstAndMutatingDivideAgree | Vec3/DVec3.cpp:82-100 | the mutating overload leaves its receiver holding what the const overload returns |
| DVec3.Equal | Vec3/DVec3.cpp:417-420 | the free `==` holds exactly when the vectors are equal |
| DVec3.NotEqual | Vec3/DVec3.cpp:422-425 | the free `!=` is the exact complement of `==` |
| FVec4.FromVec3 | Vec4/FVec4.cpp:24-26 | x, y, z are copied and w is set |
| FVec4.FromVec3Default | Vec4/FVec4.hpp:36 | the default fourth argument gives w = 0 |
| FVec4.Add | Vec4/FVec4.cpp:149-158 | componentwise sum. AddSubstractInverse proves Substract undoes it |
| FVec4.Substract | Vec4/FVec4.cpp:160-169 | componentwise difference. AddSubstractInverse proves it undoes Add |
| FVec4.AddSubstractInverse | Vec4/FVec4.cpp:149-169 | Add and Substract cancel in both orders, and `v + (-v)` is Zero (unary minus at 28-31) |
| FVec4.Divide | Vec4/FVec4.cpp:182-195 | throws `logic_error` exactly for a zero scalar. Otherwise multiplying back restores the vector (also the free `s / v` at 306-309) |
| FVec4.Multiply | Vec4/FVec4.cpp:171-180 | scales all four components. Length2Multiply proves it scales the squared length by s*s |
| FVec4.Dot | Vec4/FVec4.cpp:202-205 | the sum of the componentwise products. Length2 proves Dot(v, v) non-negative and zero only at Zero |
| FVec4.Length2 | Vec4/FVec4.cpp:197-205 | `Dot(v, v)`, non-negative, and 0 exactly for Zero |
| FVec4.Length2Multiply | Vec4/FVec4.cpp:171-180 | scaling by s scales the squared length by s*s |
| FVec4.Normalize | Vec4/FVec4.cpp:207-227 | Zero for the zero vector. Otherwise length 1, and it scales back by its length |
| FVec4.Lerp | Vec4/FVec4.cpp:229-232 | start at alpha 0, end at alpha 1 |
| FVec4.SlerpFallback | Vec4/FVec4.cpp:234-248 | the `Lerp` fallback is taken exactly when the plain dot product exceeds 0.9995 |
| FVec4.SlerpOppositeNoFallback | Vec4/FVec4.cpp:234-248 | with no absolute value, opposite unit vectors never take the fallback |
| FVec4.Clamp | Vec4/FVec4.cpp:250-259 | with ordered bounds the result lies between them. A vector already between them is unchanged |
| FVec4.Index | Vec4/FVec4.cpp:101-147 | 0..3 read x, y, z, w. Any other index throws `out_of_range` |
| FVec4.IsZero | Vec4/FVec4.cpp:277-280 | holds exactly when the squared length is 0 |
| FVec4.Homogenized | Vec4/FVec4.cpp:261-275 | for w != 0 the result is homogenized and scales back to the input by w. For w = 0 the vector is unchanged |
| FVec4.HomogenizedIdempotent | Vec4/FVec4.cpp:261-275 | homogenizing twice is homogenizing once, and a homogenized vector is a fixed point |
| FVec4.Vec4Var.constructor | Vec4/FVec4.cpp:16-18 | the object holds (x, y, z, w) |
| FVec4.Vec4Var.Assign | Vec4/FVec4.cpp:33-41 | the new value is the other vector |
| FVec4.Vec4Var.AddAssign | Vec4/FVec4.cpp:48-52 | the new value is `old + other` |
| FVec4.Vec4Var.SubstractAssign | Vec4/FVec4.cpp:59-63 | the new value is `old - other` |
| FVec4.Vec4Var.MultiplyAssign | Vec4/FVec4.cpp:70-74 | the new value is `old * s` |
| FVec4.Vec4Var.DivideAssign | Vec4/FVec4.cpp:81-85 | on a zero scalar it throws and the object is unchanged. Otherwise the object holds the quotient |
| FVec4.Vec4Var.Homogenize | Vec4/FVec4.cpp:261-275 | in place: the new value is `Homogenized(old)`. `IsHomogenized` afterwards holds exactly when the old w was non-zero or already 1 |
| FVec4.Vec4Var.SetAt | Vec4/FVec4.cpp:113-147 | 0..3 write that component, which reads back, and keep the other three. Any other index throws and writes nothing |
| FVec4.HomogenizeTwice | Vec4/FVec4.cpp:261-275 | calling `Homogenize` twice on one object leaves what one call leaves |
| LegacyVec2.Find | LibMaths/LibMaths/Vec2/Vec2.cpp:104-105 | None exactly when the character is absent. Otherwise the position of its first occurrence |
| LegacyVec2.Parsed | LibMaths/LibMaths/Vec2/Vec2.cpp:99-116 | a token with no ',' gives (0, 0). Otherwise the result is stof of the text before the first ',' and stof of the text after it |
| LegacyVec2.ParsedExample | LibMathsTests/Vec2Tests.cpp:134-136 | "3.5,2.7" reads as (3.5, 2.7) |
| LegacyVec2.ParsedFirstComma | LibMaths/LibMaths/Vec2/Vec2.cpp:104-114 | "1,2,3" splits at the first comma, into "1" and "2,3" |
| LegacyVec2.Equal | LibMaths/LibMaths/Vec2/Vec2.cpp:208-216 | returns 1 exactly when both components are equal, and 0 otherwise |
| LegacyVec2.NotEqual | LibMaths/LibMaths/Vec2/Vec2.cpp:217-225 | returns `1 - (a == b)` |
| LegacyVec2.Less | LibMaths/LibMaths/Vec2/Vec2.cpp:226-234 | `<`: 1 when both components are smaller, else 0. ComparisonsPartial relates the four comparisons |
| LegacyVec2.LessEqual | LibMaths/LibMaths/Vec2/Vec2.cpp:235-243 | `<=`: 1 when both components are not greater, else 0. ComparisonsPartial relates it to `<` |
| LegacyVec2.Greater | LibMaths/LibMaths/Vec2/Vec2.cpp:244-252 | `>`: 1 when both components are greater. ComparisonsPartial proves it is `<` with the operands swapped |
| LegacyVec2.GreaterEqual | LibMaths/LibMaths/Vec2/Vec2.cpp:253-261 | `>=`: 1 when both components are not smaller. ComparisonsPartial proves it never holds with `<` |
| LegacyVec2.ComparisonsPartial | LibMaths/LibMaths/Vec2/Vec2.cpp:226-261 | `<` and `>=` never hold together. `<` implies `<=`. `>` and `>=` are `<` and `<=` with the operands swapped. (0, 1) and (1, 0) are related by none of the four |
| LegacyVec2.DotProduct | LibMaths/LibMaths/Vec2/Vec2.cpp:148-151 | `dot_product`. ProductExamples gives the test's value -85 |
| LegacyVec2.CrossProduct | LibMaths/LibMaths/Vec2/Vec2.cpp:153-156 | `cross_product` as written. ProductExamples and CrossProductSymmetric state its values |
| LegacyVec2.ProductExamples | LibMathsTests/Vec2Tests.cpp:160-167 | for (12, 97) and (1, -1) the dot product is -85 and `cross_product` is -109. `cross_product` of (1, 0) and (0, 1) is 0 |
| LegacyVec2.CrossProductSymmetric | LibMaths/LibMaths/Vec2/Vec2.cpp:153-156 | `cross_product` as written, `-((x * m.x) - (y * m.y))`, is symmetric, and a vector with itself gives y*y - x*x |
| LegacyVec2.Vec2.constructor | LibMaths/LibMaths/Vec2/Vec2.cpp:14-17 | `vec2()` is (0, 0) |
| LegacyVec2.Vec2.Of | LibMaths/LibMaths/Vec2/Vec2.cpp:19-23 | `vec2(a, b)` is (a, b) |
| LegacyVec2.Vec2.Splat | LibMaths/LibMaths/Vec2/Vec2.cpp:25-28 | `vec2(a)` is (a, a) |
| LegacyVec2.Vec2.At | LibMaths/LibMaths/Vec2/Vec2.cpp:118-128 | 0 or 'x' reads x, and 1 or 'y' reads y |
| LegacyVec2.Vec2.SetAt | LibMaths/LibMaths/Vec2/Vec2.cpp:118-128 | a write through the returned reference reads back and leaves the other component alone |
| LegacyVec2.Vec2.Plus | LibMaths/LibMaths/Vec2/Vec2.cpp:67-74 | a new vector from which subtracting the operand gives the receiver |
| LegacyVec2.Vec2.Minus | LibMaths/LibMaths/Vec2/Vec2.cpp:76-83 | a new vector to which adding the operand gives the receiver |
| LegacyVec2.Vec2.PlusAssign | LibMaths/LibMaths/Vec2/Vec2.cpp:85-90 | the new value is `old + c2` |
| LegacyVec2.Vec2.MinusAssign | LibMaths/LibMaths/Vec2/Vec2.cpp:91-96 | the new value is `old - c2` |
| LegacyVec2.Vec2.Add | LibMaths/LibMaths/Vec2/Vec2.cpp:158-164 | adds into the receiver and returns the receiver itself |
| LegacyVec2.Vec2.AddConst | LibMaths/LibMaths/Vec2/Vec2.cpp:173-180 | the const `add` returns the same sum as `operator+` |
| LegacyVec2.Vec2.Scale | LibMaths/LibMaths/Vec2/Vec2.cpp:166-171 | scales in place and returns the receiver itself |
| LegacyVec2.Vec2.Normalized | LibMaths/LibMaths/Vec2/Vec2.cpp:188-192 | for a non-zero length, a vector of length 1 that scales back to the receiver |
| LegacyVec2.Vec2.Normalize | LibMaths/LibMaths/Vec2/Vec2.cpp:194-199 | stores `normalized()` into the receiver, which then has length 1 |
| LegacyVec2.Vec2.Read | LibMaths/LibMaths/Vec2/Vec2.cpp:99-116 | `operator>>` stores `Parsed(token)` |
| LegacyVec2.AddChain | LibMathsTests/Vec2Tests.cpp:186-201 | `v1.add(v2)` through the const add is (3.2, 7.5) and leaves v1 alone. `v2.add(v1).add(v3)` leaves (6.4, 15) in v2 |
| LegacyVec2.ScaleExample | LibMathsTests/Vec2Tests.cpp:203-206 | (0.5, 6.3).scale(2) makes the receiver (1, 12.6) |
| LegacyVec2.ReadExample | LibMathsTests/Vec2Tests.cpp:133-137 | reading "3.5,2.7" stores (3.5, 2.7) |
| FMat3.FromEntries | Mat3/FMat3.cpp:15-30 | the nine entries in row order, as the three rows |
| FMat3.FromRows | Mat3/FMat3.cpp:32-37 | the three given rows |
| FMat3.Diagonal | Mat3/FMat3.cpp:8-13 | `FMat3(init)`: init on the diagonal and 0 elsewhere |
| FMat3.Identity | Mat3/FMat3.cpp:172-175 | `Identity()` is `FMat3(1)` |
| FMat3.Transpose | Mat3/FMat3.cpp:177-180 | entry [i][j] is m[j][i] |
| FMat3.TransposeInvolution | Mat3/FMat3.cpp:177-180 | transposing twice gives m back, and the identity is its own transpose |
| FMat3.Determinant | Mat3/FMat3.cpp:182-188 | the cofactor expansion along column 0. DeterminantTranspose and AdjugateProduct state its laws |
| FMat3.DeterminantTranspose | Mat3/FMat3.cpp:182-188 | the determinant of the transpose is the determinant, and that of the identity is 1 |
| FMat3.Product | Mat3/FMat3.cpp:297-308 | the row-major product that `Multiply` computes. ProductIdentity, ProductScaled and AdjugateProduct state its laws, and the Multiply method is proved equal to it |
| FMat3.ProductIdentity | Mat3/FMat3.cpp:297-308 | the identity is neutral on both sides of the product |
| FMat3.Adjugate | Mat3/FMat3.cpp:196-206 | the nine signed cofactors. AdjugateEntries places them, and AdjugateProduct proves m·adj(m) = adj(m)·m = det·I |
| FMat3.AdjugateEntries | Mat3/FMat3.cpp:190-209 | the nine signed cofactors that `Inverse` multiplies by 1 / det |
| FMat3.AdjugateProduct | Mat3/FMat3.cpp:190-209 | m times its adjugate, on either side, is det(m) on the diagonal |
| FMat3.Inverse | Mat3/FMat3.cpp:190-209 | `Inverse`, the adjugate times 1 / det. InverseProduct proves it a two-sided inverse for det != 0 |
| FMat3.InverseProduct | Mat3/FMat3.cpp:190-209 | for a non-zero determinant, `Inverse(m)` is a two-sided inverse for the product |
| FMat3.ProductScaled | Mat3/FMat3.cpp:297-308 | a scalar factor moves out of either side of a product |
| FMat3.ScaledRows | Mat3/FMat3.cpp:323-334 | `Multiply(m, s)` scales each row by s |
| FMat3.DiagonalScales | Mat3/FMat3.cpp:8-13 | `FMat3(init)` is the identity scaled by init, and multiplying by it on either side scales every entry |
| FMat3.Sum | Mat3/FMat3.cpp:336-347 | the entrywise sum that `Add` computes. SumDifferenceInverse proves Difference undoes it |
| FMat3.Difference | Mat3/FMat3.cpp:349-360 | the entrywise difference that `Subtract` computes. SumDifferenceInverse proves it undoes Sum |
| FMat3.SumDifferenceInverse | Mat3/FMat3.cpp:336-360 | `Subtract(Add(a, b), b) == a` and `Add(Subtract(a, b), b) == a` |
| FMat3.QuotientScaled | Mat3/FMat3.cpp:362-373 | for s != 0, dividing by s and multiplying back restores the matrix |
| FMat3.EntryQuotientRestores | Mat3/FMat3.cpp:375-386 | the entrywise quotient times the divisor, entry by entry, is the dividend |
| FMat3.VectorProductIsProduct | Mat3/FMat3.cpp:310-321 | `Multiply(mat, vec)` puts row i · v in every column of row i. It is the full product with the matrix whose columns are v |
| FMat3.Multiply | Mat3/FMat3.cpp:297-308 | the nested loops compute the row-by-column product |
| FMat3.MultiplyVector | Mat3/FMat3.cpp:310-321 | the loops compute `VectorProduct(m, v)` (also the free `m * v` at 430-433) |
| FMat3.VectorTimesMatrix | Mat3/FMat3.cpp:435-438 | the free `v * m` gives the same matrix as `m * v`, the product with the column matrix of v |
| FMat3.MultiplyScalar | Mat3/FMat3.cpp:323-334 | the loops compute every entry times s (also `m * s` and `s * m` at 97-100 and 420-423) |
| FMat3.Add | Mat3/FMat3.cpp:336-347 | the entrywise sum (also `operator+` at 82-85) |
| FMat3.Subtract | Mat3/FMat3.cpp:349-360 | the entrywise difference (also `operator-` at 87-90) |
| FMat3.Divide | Mat3/FMat3.cpp:362-373 | for s != 0, every entry divided by s (also `m / s` and `s / m` at 102-105 and 425-428) |
| FMat3.DivideEntries | Mat3/FMat3.cpp:375-386 | the entrywise quotient by a matrix with no zero entry |
| FMat3.Negate | Mat3/FMat3.cpp:157-160 | m plus its negation is the zero matrix |
| FMat3.Scale | Mat3/FMat3.cpp:269-276 | `Scale(FVec3)`, the diagonal matrix of v. ScaleVariants proves it scales row i by v[i] |
| FMat3.ScaleUniform | Mat3/FMat3.cpp:278-285 | `Scale(float)`. ScaleVariants proves it is `FMat3(f)` |
| FMat3.ScaleXYZ | Mat3/FMat3.cpp:287-294 | `Scale(x, y, z)`. ScaleVariants proves it is `Scale(FVec3(x, y, z))` |
| FMat3.ScaleVariants | Mat3/FMat3.cpp:269-294 | `Scale(x, y, z)` is `Scale(FVec3(x, y, z))` and `Scale(f)` is `FMat3(f)`. Multiplying by `Scale(v)` on the left scales row i by v[i] |
| FMat3.Equal | Mat3/FMat3.cpp:162-165 | `==` holds exactly when the matrices are equal |
| FMat3.NotEqual | Mat3/FMat3.cpp:167-170 | `!=` is the negation of `==` |
| FMat3.Mat3Var.constructor | Mat3/FMat3.hpp:17 | the defaulted constructor leaves every entry 0 |
| FMat3.Mat3Var.Of | Mat3/FMat3.cpp:8-60 | the value constructors and the copy constructor hold the value they are given |
| FMat3.Mat3Var.Assign | Mat3/FMat3.cpp:62-69 | the new value is the other matrix |
| FMat3.Mat3Var.SetRow | Mat3/FMat3.cpp:71-74 | a write through `operator[]` replaces row i and keeps the other rows |
| FMat3.Mat3Var.AddAssign | Mat3/FMat3.cpp:107-114 | the new value is `old + other` |
| FMat3.Mat3Var.SubtractAssign | Mat3/FMat3.cpp:116-123 | the new value is `old - other` |
| FMat3.Mat3Var.MultiplyAssign | Mat3/FMat3.cpp:125-137 | the new value is the product of the old values, because the product is accumulated into a temporary |
| FMat3.Mat3Var.MultiplyScalarAssign | Mat3/FMat3.cpp:139-146 | the new value is `old * s` |
| FMat3.Mat3Var.DivideAssign | Mat3/FMat3.cpp:148-155 | throws `logic_error` exactly for s = 0, and then nothing is written. Otherwise it stores and returns `old / s` |
| FMat3.SquareInPlace | Mat3/FMat3.cpp:125-137 | `m *= m` on one object leaves the square of the old value |
| FMat4.FromEntries | Mat4/FMat4.cpp:27-51 | the sixteen entries in row order, as the four rows |
| FMat4.FromRows | Mat4/FMat4.cpp:53-59 | the four given rows |
| FMat4.Row | Mat4/FMat4.cpp:299-307 | `operator[](int)`: row i, entry by entry |
| FMat4.Entry | Mat4/FMat4.cpp:309-317 | `operator()(row, col)` is component col of row `row` |
| FMat4.Diagonal | Mat4/FMat4.cpp:9-25 | `FMat4(init)`: init on the diagonal and 0 in the other twelve entries |
| FMat4.Fill | Mat4/FMat4.cpp:9-25 | the double loop writes init on the diagonal and 0 elsewhere |
| FMat4.Identity | Mat4/FMat4.cpp:345-353 | the 1s written onto a zero matrix give `FMat4(1.0f)` |
| FMat4.Multiply | Mat4/FMat4.cpp:527-541 | the loop computes the row-major product |
| FMat4.Product | Mat4/FMat4.cpp:527-541 | the row-major product that `Multiply` computes. ProductIdentity, ApplyProduct and TransposeProduct state its laws |
| FMat4.ProductIdentity | Mat4/FMat4.cpp:527-541 | multiplying by the identity on either side leaves the matrix unchanged |
| FMat4.Compose | Mat4/FMat4.cpp:92-110 | the member `a * b`. ComposeSwapsOperands proves it is `Multiply(b, a)`, and ComposeApply that (a * b) * v = b * (a * v) |
| FMat4.ComposeSwapsOperands | Mat4/FMat4.cpp:92-110 | the member `a * b` is `Multiply(b, a)`: the operands are swapped |
| FMat4.ComposeEntries | Mat4/FMat4.cpp:92-110 | entry [i][j] of `a * b` is column j of a weighted by row i of b |
| FMat4.Apply | Mat4/FMat4.cpp:118-130 | component i of `m * v` is row i of m dotted with v |
| FMat4.MultiplyVector | Mat4/FMat4.cpp:118-130 | the loop computes `m * v`, each component being a row of m dotted with v |
| FMat4.ApplyProduct | Mat4/FMat4.cpp:118-130 | applying `Multiply(b, a)` to v applies a first and then b |
| FMat4.ComposeApply | Mat4/FMat4.cpp:92-130 | `(a * b) * v == b * (a * v)` |
| FMat4.Transpose | Mat4/FMat4.cpp:456-467 | entry [i][j] of the transpose is m[j][i] |
| FMat4.TransposeOf | Mat4/FMat4.cpp:456-467 | the loop computes the transpose |
| FMat4.TransposeInvolution | Mat4/FMat4.cpp:456-467 | transposing twice gives the matrix back, and the identity is its own transpose |
| FMat4.TransposeProduct | Mat4/FMat4.cpp:456-467 | the transpose of a product is the product of the transposes in the other order |
| FMat4.Translation | Mat4/FMat4.cpp:355-362 | the identity with t in entries [3][0..2] |
| FMat4.Orthographic | Mat4/FMat4.cpp:436-454 | the identity except [0][0], [1][1], [2][2] and [3][0..2]: the other off-diagonal entries of the top-left are 0, and column 3 and the rest of row 3 come from the identity |
| FMat4.OrthographicMapsBox | Mat4/FMat4.cpp:436-454 | read with row vectors, the box corner (left, bottom, -near, 1) maps to (-1, -1, -1, 1) and (right, top, -far, 1) to (1, 1, 1, 1) |
| FMat4.Translate | Mat4/FMat4.cpp:469-477 | `Translate(m, t)`. TranslateEntries proves it changes only [3][0..2], and TranslateTwice that translations add |
| FMat4.TranslateEntries | Mat4/FMat4.cpp:469-477 | `Translate` adds t to [3][0..2] and keeps the other thirteen entries. `Translate(Identity(), t)` is `Translation(t)` |
| FMat4.TranslateTwice | Mat4/FMat4.cpp:469-477 | translating by s and then by t is translating by s + t |
| FMat4.Scaling | Mat4/FMat4.cpp:379-386 | `Scale(s)`: the identity with s.x, s.y, s.z on the first three diagonal entries |
| FMat4.Scale | Mat4/FMat4.cpp:518-525 | `Scale(m, s)`. ScaleEntries proves it changes only [0][0], [1][1] and [2][2] |
| FMat4.ScaleEntries | Mat4/FMat4.cpp:518-525 | `Scale(m, s)` multiplies only [0][0], [1][1] and [2][2]. `Scale(Identity(), s)` is `Scale(s)` |
| FMat4.ToMat4 | Mat4/FMat4.cpp:646-660 | `ToMat4`. ToMat4Entries proves the 3x3 sits top-left with an identity border, and TopLeft gives it back |
| FMat4.ToMat4Entries | Mat4/FMat4.cpp:646-660 | `ToMat4` copies the 3x3 into the top-left. Row 3 and column 3 come from the identity, and the top-left gives the 3x3 back |
| FMat4.TopLeft | Mat3/FMat3.cpp:39-52 | `FMat3(FMat4)` keeps the top-left 3x3 |
| FMat4.FromPose | Mat4/FMat4.cpp:61-67 | `FMat4(position, rotation)`. FromPoseEntries proves its entries |
| FMat4.FromPoseEntries | Mat4/FMat4.cpp:61-67 | `FMat4(position, rotation)` has the quaternion's rotation matrix in the top-left and (position, 1) as row 3, with zeros above the 1 |
| FMat4.KeyColumn | Mat4/FMat4.cpp:319-343 | 'x', 'y', 'z', 'w' select columns 0..3. Any other letter selects column 0 |
| FMat4.KeyRow | Mat4/FMat4.cpp:319-343 | the row `key[1] - '0'` of a key whose digit is 0..3 is a valid row |
| FMat4.KeyEntry | Mat4/FMat4.cpp:319-343 | both `operator[](const char*)` overloads read the entry in row `key[1] - '0'` and the letter's column |
| FMat4.TranslationKeys | Mat4/FMat4.cpp:319-362 | `Translation(t)` read through "x3", "y3", "z3" gives t. "w3" gives 1, and an unknown letter reads column x |
| FMat4.QuotientScaled | Mat4/FMat4.cpp:260-271 | for s != 0, dividing and multiplying back restores the matrix |
| FMat4.SumDifferenceInverse | Mat4/FMat4.cpp:162-192 | adding and then subtracting the same matrix cancel, in both orders |
| FMat4.NegateInverse | Mat4/FMat4.cpp:200-211 | m plus its negation is zero, and negating twice gives m |
| FMat4.MultiplyScalar | Mat4/FMat4.cpp:147-158 | the loop multiplies every entry by s |
| FMat4.DivideScalar | Mat4/FMat4.cpp:260-271 | the loop divides every entry by a non-zero s |
| FMat4.Add | Mat4/FMat4.cpp:162-173 | the loop computes the entrywise sum |
| FMat4.Subtract | Mat4/FMat4.cpp:181-192 | the loop computes the entrywise difference |
| FMat4.Negated | Mat4/FMat4.cpp:200-211 | the loop negates every entry |
| FMat4.ScalarTimes | Mat4/FMat4.cpp:750-770 | the free `s * m` is the member `m * s` |
| FMat4.ScalarOver | Mat4/FMat4.cpp:772-792 | the free `s / m` divides m by s: it is the member `m / s` |
| FMat4.Equals | Mat4/FMat4.cpp:279-292 | the early-exit loop returns true exactly when the matrices are equal |
| FMat4.NotEquals | Mat4/FMat4.cpp:294-297 | `!=` is the negation of `==` |
| FMat4.Mat4Var.constructor | Mat4/FMat4.hpp:25 | the defaulted constructor leaves every entry 0 |
| FMat4.Mat4Var.Of | Mat4/FMat4.cpp:9-78 | the value constructors and the copy constructor hold the value they are given |
| FMat4.Mat4Var.Assign | Mat4/FMat4.cpp:80-90 | the new value is the other matrix |
| FMat4.Mat4Var.SetRow | Mat4/FMat4.cpp:299-302 | a write through `operator[](int)` replaces row i and keeps the others |
| FMat4.Mat4Var.SetByKey | Mat4/FMat4.cpp:319-330 | a write through `operator[](const char*)` changes exactly the selected entry, and it reads back |
| FMat4.Mat4Var.AddAssign | Mat4/FMat4.cpp:175-179 | the new value is `old + other` |
| FMat4.Mat4Var.SubtractAssign | Mat4/FMat4.cpp:194-198 | the new value is `old - other` |
| FMat4.Mat4Var.MultiplyAssign | Mat4/FMat4.cpp:112-116 | the new value is the member product of the old values, that is `Multiply(other, old)` |
| FMat4.Mat4Var.DivideAssign | Mat4/FMat4.cpp:273-277 | the new value is `old / s` |
| FMat4.SquareInPlace | Mat4/FMat4.cpp:112-116 | `m *= m` on one object leaves the square of the old value |
| Mat4Template.InitAsWritten | Mat4/Mat4.h:25-31 | `Mat4(init)` as written, row 2 assigned twice. InitAsWrittenLosesDiagonal proves it is never the intended matrix |
| Mat4Template.InitIntended | Mat4/Mat4.h:25-31 | `Mat4(init)` with the second assignment on row 3. InitIntendedIsScaling proves it is `scale(init, init, init)` |
| Mat4Template.InitAsWrittenLosesDiagonal | Mat4/Mat4.h:25-31 | as written, [2][2] ends 0 and [2][3] ends 1. The result is never the intended matrix, and `Mat4(1)` is not the identity |
| Mat4Template.InitIntendedIsScaling | Mat4/Mat4.h:25-31 | the intended `Mat4(init)` is `scale(init, init, init)`, and `Mat4(1)` is the identity |
| Mat4Template.KeyRow | Mat4/Mat4.h:93-119 | the row a key selects is in 0..3. A letter other than x, y, z, w selects row 0 |
| Mat4Template.KeyColumn | Mat4/Mat4.h:93-119 | the column a key selects is in 0..3 |
| Mat4Template.ConstKeyOffsetAsWritten | Mat4/Mat4.h:93-105 | see Findings: the const overload reads "x3" one row too high, and cannot serve "x0" |
| Mat4Template.KeyReadAfterWrite | Mat4/Mat4.h:93-119 | with the offset '0', a key write followed by a read of the same key gives the written value. `translation(t)` reads back t through "x3", "y3", "z3" |
| Mat4Template.ColumnApply | Mat4/Mat4.h:141-154 | `operator*(Vec4)`. ColumnApplyIsTransposed and ColumnApplyCompose state its laws |
| Mat4Template.ColumnApplyIsTransposed | Mat4/Mat4.h:141-154 | `operator*(Vec4)` is FMat4's row-style product with the transpose |
| Mat4Template.ColumnApplyCompose | Mat4/Mat4.h:121-154 | `(a * b) * v == a * (b * v)` |
| Mat4Template.InverseFlip | Mat4/Mat4.h:273-286 | the value `getInverse` leaves. InverseFlipInvolution proves which entries it negates and that it is an involution |
| Mat4Template.InverseFlipInvolution | Mat4/Mat4.h:273-286 | `getInverse` negates exactly [2][0], [0][2], [2][1], [1][2] and row 3, and keeps the other eight entries. Applying it twice restores the matrix |
| Mat4Template.Mat4.constructor | Mat4/Mat4.h:17-23 | `Mat4()` is the identity (also the static `identity` at 337) |
| Mat4Template.Mat4.InitWritten | Mat4/Mat4.h:25-31 | the object holds `InitAsWritten(init, rowDefault)` |
| Mat4Template.Mat4.Init | Mat4/Mat4.h:25-31 | the corrected constructor holds `InitIntended(init)` |
| Mat4Template.Mat4.FromRows | Mat4/Mat4.h:33-39 | the four given rows |
| Mat4Template.Mat4.Copy | Mat4/Mat4.h:41-45 | a copy of the other matrix's value, in fresh storage |
| Mat4Template.Mat4.Get | Mat4/Mat4.h:53-56 | `get(i, j)` is entry [i][j] |
| Mat4Template.Mat4.Assign | Mat4/Mat4.h:57-66 | the new value is the other matrix's value, self-assignment included |
| Mat4Template.Mat4.RowAt | Mat4/Mat4.h:79-91 | row idx, or row 0 when idx is outside 0..3 |
| Mat4Template.Mat4.SetRowAt | Mat4/Mat4.h:86-91 | a write replaces row idx, or row 0 for an index outside 0..3, and nothing else |
| Mat4Template.Mat4.KeyValue | Mat4/Mat4.h:107-119 | the non-const key read is the entry the key selects with the offset '0' |
| Mat4Template.Mat4.ConstKeyValueAsWritten | Mat4/Mat4.h:93-105 | the const key read as written uses the offset '1' |
| Mat4Template.Mat4.SetByKey | Mat4/Mat4.h:107-119 | a key write changes exactly the selected entry, and it reads back |
| Mat4Template.Mat4.Multiply | Mat4/Mat4.h:121-139 | the loops compute FMat4's member product, which is the row-major product `other * this` |
| Mat4Template.Mat4.TimesVector | Mat4/Mat4.h:141-154 | the loops compute the column-style product, the transpose applied to v |
| Mat4Template.Mat4.GetInverse | Mat4/Mat4.h:273-286 | in place, the new value is `InverseFlip(old)`, and a copy of it is returned |
| Mat4Template.Mat4.Transpose | Mat4/Mat4.h:323-334 | the in-place swap loops leave the transpose of the old value and return a copy of it |
| Mat4Template.Mat4.Equals | Mat4/Mat4.h:288-298 | true exactly when the two values are equal, for the same object or two |
| Mat4Template.Mat4.NotEquals | Mat4/Mat4.h:300-303 | the negation of `==` |
| Mat4Template.TransposeBySwaps | Mat4/Mat4.h:323-334 | the six swaps of the loop, in loop order, transpose the matrix |
| Mat4Template.Translation | Mat4/Mat4.h:188-195 | `translation(t)` is FMat4's `Translation(t)` |
| Mat4Template.Scale | Mat4/Mat4.h:197-204 | `scale(s)` is FMat4's `Scale(s)` |
| Mat4Template.TransposeTwice | Mat4/Mat4.h:323-334 | `transpose()` twice on one object restores it |
| Mat4Template.InverseTwice | Mat4/Mat4.h:273-286 | `getInverse()` twice on one object restores it |
| QuatAlgebra.Pure | Quaternion/FQuat.cpp:255-260 | the quaternion (v, 0) that `rotate(v)` builds: its vector part is v and its w is 0 |
| QuatAlgebra.Add | Quaternion/FQuat.cpp:190-193 | componentwise `+`. AddSubInverse proves Add and Sub cancel and Add commutes |
| QuatAlgebra.Sub | Quaternion/FQuat.cpp:195-198 | componentwise `-`. AddSubInverse proves it undoes Add |
| QuatAlgebra.AddSubInverse | Quaternion/FQuat.cpp:132-150 | `+` and `-` cancel in both orders, and `+` commutes (also LibMaths/Quaternion/Quaternion.h:128-135) |
| QuatAlgebra.Scale | Quaternion/FQuat.cpp:205-208 | `q * s` scales all four components. HamiltonScale, Length2Scale and DivScalarIsScale state its laws |
| QuatAlgebra.Negate | Quaternion/FQuat.cpp:185-188 | unary minus is the additive inverse, and it is scaling by -1 |
| QuatAlgebra.DivScalar | Quaternion/FQuat.cpp:175-183 | for s != 0, multiplying the quotient back by s restores q (also `operator/` at 224-228) |
| QuatAlgebra.DivScalarIsScale | Quaternion/FQuat.cpp:175-183 | dividing by s is scaling by 1 / s |
| QuatAlgebra.Hamilton | Quaternion/FQuat.cpp:113-120 | `cross` and `*`, the Hamilton product. HamiltonIdentity, HamiltonAssociative and HamiltonScale state its laws (also Quaternion/Quaternion.h:183-194) |
| QuatAlgebra.HamiltonIdentity | Quaternion/FQuat.cpp:152-163 | `identity` is the unit of the product on both sides |
| QuatAlgebra.HamiltonAssociative | Quaternion/FQuat.cpp:152-163 | the product is associative |
| QuatAlgebra.HamiltonScale | Quaternion/FQuat.cpp:152-173 | a scalar factor moves out of either operand of the product |
| QuatAlgebra.Dot | Quaternion/FQuat.cpp:108-111 | `dot`, the sum of the four componentwise products. Length2 is `dot(q, q)` and is proved non-negative and zero only at the zero quaternion |
| QuatAlgebra.IsUnit | Quaternion/FQuat.cpp:240-243 | `isUnit` holds exactly when `dot(*this) == 1`, that is x² + y² + z² + w² = 1 (also Quaternion/Quaternion.h:277-280). UnitInverse and NormalizeGuarded use it |
| QuatAlgebra.Length2 | Quaternion/FQuat.cpp:76-79 | `length2()` is `dot(*this)`. It is non-negative, and 0 exactly for the zero quaternion (also `LengthSquared` at LibMaths/Quaternion/Quaternion.h:216-219) |
| QuatAlgebra.Length2Scale | Quaternion/FQuat.cpp:165-173 | scaling by s scales `length2` by s*s |
| QuatAlgebra.Conjugate | Quaternion/FQuat.cpp:98-101 | negates x, y, z and keeps w. ConjugateInvolution, ConjugateReverses and ConjugateProduct state its laws |
| QuatAlgebra.ConjugateInvolution | Quaternion/FQuat.cpp:98-101 | conjugating twice gives q, and conjugation keeps `length2` |
| QuatAlgebra.ConjugateReverses | Quaternion/FQuat.cpp:98-101 | the conjugate of a product is the product of the conjugates in reverse order |
| QuatAlgebra.ConjugateProduct | Quaternion/FQuat.cpp:98-101 | `q * q.conjugate()` and `q.conjugate() * q` are (0, 0, 0, length2(q)) |
| QuatAlgebra.Inverse | Quaternion/FQuat.cpp:103-106 | for length2 != 0, `conjugate() / length2()` is a two-sided inverse: the products either way are `identity` (also LibMaths/Quaternion/Quaternion.h:224-227) |
| QuatAlgebra.UnitInverse | Quaternion/FQuat.cpp:103-106 | the inverse of a unit quaternion is its conjugate |
| QuatAlgebra.NormalizeGuarded | Quaternion/FQuat.cpp:86-96 | `(0, 0, 0, 1)` exactly for a zero quaternion. Otherwise every component is scaled by the same positive factor 1/length and the result is a unit quaternion (also Quaternion/Quaternion.h:112-119) |
| QuatAlgebra.Equal | Quaternion/FQuat.cpp:230-233 | `==` holds exactly when the quaternions are equal |
| QuatAlgebra.NotEqual | Quaternion/FQuat.cpp:235-238 | `!=` is the complement of `==` |
| QuatAlgebra.RotateVector | Quaternion/FQuat.cpp:210-217 | the closed form `operator*(FVec3)`, v + 2w(u×v) + 2u×(u×v). SandwichClosedForm and Rotate prove it equals the sandwich q (v, 0) q⁻¹ for a unit q |
| QuatAlgebra.SandwichClosedForm | Quaternion/FQuat.cpp:210-217 | for every q, q (v, 0) conj(q) is a pure quaternion. Its vector part is the closed form `q * v` plus (length2(q) - 1) v |
| QuatAlgebra.Rotate | Quaternion/FQuat.cpp:255-260 | for a unit q, the vector part of `rotate(v)` is the closed form `q * v`, and its w is 0 (also Quaternion/Quaternion.h:304-309 and the older `Rotate(v)` at LibMaths/Quaternion/Quaternion.h:232-237) |
| QuatAlgebra.RotateQuat | Quaternion/FQuat.cpp:262-265 | `rotate(p)` keeps p's scalar part. On a pure quaternion it is `rotate(v)` |
| QuatAlgebra.RotateQuatScalar | Quaternion/FQuat.cpp:262-265 | the scalar part survives the sandwich by q and q's inverse |
| QuatAlgebra.SandwichScalar | Quaternion/FQuat.cpp:262-265 | the scalar part of q p conj(q) is p.w times length2(q) |
| QuatMatrix.ToMatrix3 | Quaternion/FQuat.cpp:276-305 | `toMatrix3`: the nine entries of the source's formula. Its properties are in ToMatrix3Identity, ToMatrix3RotatesVectors, ToMatrix3Orthogonal and ToMatrix3Negate |
| QuatMatrix.ToMatrix3Identity | Quaternion/FQuat.cpp:276-305 | the matrix of `identity` is the 3x3 identity |
| QuatMatrix.ToMatrix3RotatesVectors | Quaternion/FQuat.cpp:276-305 | for every q, row i of `toMatrix3(q)` dotted with v is component i of the closed form `q * v` |
| QuatMatrix.ToMatrix3Orthogonal | Quaternion/FQuat.cpp:276-305 | for a unit q, `toMatrix3(q)` times its transpose is the identity |
| QuatMatrix.ToMatrix3Negate | Quaternion/FQuat.cpp:276-305 | q and -q have the same matrix |
| QuatMatrix.PivotOf | Quaternion/FQuat.cpp:307-346 | the branch taken. First trace > 0. Else m00 strictly the largest. Else m11 > m22. Else the last branch |
| QuatMatrix.Radicand | Quaternion/FQuat.cpp:307-346 | the argument of `sqrtf` in the branch taken is at least 1, so none of the divisions by s divides by zero |
| QuatMatrix.FromMatrix3 | Quaternion/FQuat.cpp:307-346 | the pivot component is s/4 = root/2, at least 1/2, so in the trace branch w > 0 |
| QuatMatrix.FromToMatrix3 | Quaternion/FQuat.cpp:276-346 | for a unit q, `fromMatrix3(toMatrix3(q))` is q when q's pivot component is positive, and -q otherwise |
| QuatMatrix.ToFromMatrix3 | Quaternion/FQuat.cpp:276-346 | for a unit q, the matrix survives the round trip through `fromMatrix3` |
| FQuat.Index | Quaternion/FQuat.cpp:28-64 | 0..3 and 'x'..'w' read x, y, z, w. Any other index throws `runtime_error` (also Quaternion/Quaternion.h:54-90) |
| FQuat.TimesVec4 | Quaternion/Quaternion.h:254-257 | x, y, z are rotated by the closed form, and w is kept (also Quaternion/FQuat.cpp:219-222) |
| FQuat.TimesVec4IsRotation | Quaternion/FQuat.cpp:219-222 | for a unit q, those x, y, z are the vector part of `rotate`, and w passes through |
| FQuat.VecTimes | Quaternion/FQuat.cpp:348-356 | the free `v * q` applies the closed form with `q.inverse()`. For a unit q that is the closed form of the conjugate (also Quaternion/Quaternion.h:406-415) |
| FQuat.ScalarTimes | Quaternion/FQuat.cpp:358-361 | the free `s * q` is the product with (0, 0, 0, s) on either side |
| FQuat.QuatVar.constructor | Quaternion/Quaternion.h:26 | the default object is (0, 0, 0, 0), which differs from `identity` (also Quaternion/FQuat.cpp:7) |
| FQuat.QuatVar.Of | Quaternion/FQuat.cpp:9 | the object holds (x, y, z, w) |
| FQuat.QuatVar.Copy | Quaternion/FQuat.cpp:11 | the object holds the other's value |
| FQuat.QuatVar.FromMatrix | Quaternion/FQuat.cpp:24 | the constructor from a 3x3 matrix holds `fromMatrix3(m)` (also Quaternion/Quaternion.h:42) |
| FQuat.QuatVar.Assign | Quaternion/FQuat.cpp:122-130 | the new value is the other's value, and it is returned |
| FQuat.QuatVar.SetAt | Quaternion/FQuat.cpp:28-45 | a valid index writes that component and keeps the others, and the write reads back. Any other index throws `runtime_error` and writes nothing (also Quaternion/Quaternion.h:54-71) |
| FQuat.QuatVar.AddAssign | Quaternion/FQuat.cpp:132-140 | the new value is `old + q`, even when q is this object |
| FQuat.QuatVar.SubAssign | Quaternion/FQuat.cpp:142-150 | the new value is `old - q`, even when q is this object |
| FQuat.QuatVar.MulAssign | Quaternion/FQuat.cpp:152-163 | the new value is the Hamilton product of the old values, even when other is this object (also Quaternion/Quaternion.h:183-194) |
| FQuat.QuatVar.ScaleAssign | Quaternion/FQuat.cpp:165-173 | the new value is `old * s` |
| FQuat.QuatVar.DivAssign | Quaternion/FQuat.cpp:175-183 | for s != 0 the new value is `old / s` |
| FQuat.QuatVar.Plus | Quaternion/FQuat.cpp:190-193 | a copy with q added. The receiver is unchanged |
| FQuat.QuatVar.Minus | Quaternion/FQuat.cpp:195-198 | a copy with q subtracted |
| FQuat.QuatVar.Times | Quaternion/FQuat.cpp:200-203 | `*this * p` is the Hamilton product, the same value as `cross(p)` at 113-120 |
| FQuat.QuatVar.TimesScalar | Quaternion/FQuat.cpp:205-208 | a copy scaled by s |
| FQuat.QuatVar.FromMatrix3 | Quaternion/Quaternion.h:358-397 | `fromMatrix3` overwrites all four fields with `FromMatrix3(m)` and returns a copy equal to the new object (also Quaternion/FQuat.cpp:307-346) |
| FQuat.SquareInPlace | Quaternion/FQuat.cpp:152-163 | `q *= q` leaves `q * q` of the old value |
| LegacyQuaternion.Index | LibMaths/Quaternion/Quaternion.h:24-56 | 1..3 read y, z, w. Any other index, out of range or not, reads x |
| LegacyQuaternion.Normalize | LibMaths/Quaternion/Quaternion.h:228-231 | for a non-zero length, `*this / Length()` is q scaled by 1 / length, and it is a unit quaternion |
| LegacyQuaternion.NormalizeAgreesWithGuarded | LibMaths/Quaternion/Quaternion.h:228-231 | the length is non-zero exactly for a non-zero quaternion, and there the unguarded Normalize agrees with the guarded `normalize` of FQuat |
| LegacyQuaternion.HalfAngle | LibMaths/Quaternion/Quaternion.h:244-250 | for a unit axis and a true sine/cosine pair, `Rotate(axis, angle)` is a unit quaternion |
| LegacyQuaternion.Sandwich | LibMaths/Quaternion/Quaternion.h:253-263 | the vector part of g (p, 0) conj(g) is the closed form plus (length2(g) - 1) p. For a unit g it is the closed form |
| LegacyQuaternion.RotatePoint | LibMaths/Quaternion/Quaternion.h:253-263 | v is normalized in place. The result is the vector part of g (p, 0) conj(g), and for a non-zero v and a true sine/cosine pair it is the closed-form rotation of p by g |
| LegacyQuaternion.RotateHalfTurnExample | LibMathsTests/QuaternionTest.cpp:40-45 | half a turn about (0, 0, 1) gives g = (0, 0, 1, 0), and it takes (2, 0, 0) to (-2, 0, 0) |
| LegacyQuaternion.ArithmeticExamples | LibMathsTests/QuaternionTest.cpp:20-66 | (1,2,3,4) + (5,6,7,8) = (6,8,10,12) and the difference is (-4,-4,-4,-4). The conjugate of (1,2,3,4) is (-1,-2,-3,4) |
| LegacyQuaternion.ToMatrix4 | LibMaths/Quaternion/Quaternion.h:266-303 | row 3 is (0, 0, 0, 1), and column 3 above it is 0 |
| LegacyQuaternion.ToMatrix4Embeds | LibMaths/Quaternion/Quaternion.h:266-334 | the top-left of `toMatrix4` is `toMatrix3`, and `toMatrix4` is `toMatrix3` widened by `ToMat4` |
| LegacyQuaternion.QuatVar.constructor | LibMaths/Quaternion/Quaternion.h:98-102 | the default object is the identity (0, 0, 0, 1) |
| LegacyQuaternion.QuatVar.Of | LibMaths/Quaternion/Quaternion.h:103-109 | the object holds (x, y, z, w) |
| LegacyQuaternion.QuatVar.Copy | LibMaths/Quaternion/Quaternion.h:110-116 | the object holds the other's value |
| LegacyQuaternion.QuatVar.FromMat4 | LibMaths/Quaternion/Quaternion.h:117-120 | the constructor from a 4x4 matrix holds `fromMatrix3` of its top-left |
| LegacyQuaternion.QuatVar.SetAt | LibMaths/Quaternion/Quaternion.h:24-39 | the write reads back. 1..3 write y, z, w, and any other index writes x |
| LegacyQuaternion.QuatVar.Assign | LibMaths/Quaternion/Quaternion.h:156-163 | the new value is the other's value |
| LegacyQuaternion.QuatVar.AddAssign | LibMaths/Quaternion/Quaternion.h:164-171 | the new value is `old + q` |
| LegacyQuaternion.QuatVar.SubAssign | LibMaths/Quaternion/Quaternion.h:173-180 | the new value is `old - q` |
| LegacyQuaternion.QuatVar.MulAssign | LibMaths/Quaternion/Quaternion.h:181-185 | `*this = *this * q`: the new value is the Hamilton product of the old values |
| LegacyQuaternion.QuatVar.ScaleAssign | LibMaths/Quaternion/Quaternion.h:186-193 | the new value is `old * s` |
| LegacyQuaternion.QuatVar.DivAssign | LibMaths/Quaternion/Quaternion.h:194-201 | for s != 0 the new value is `old / s` |
| LegacyQuaternion.QuatVar.FromMatrix3 | LibMaths/Quaternion/Quaternion.h:378-417 | all four fields are overwritten with `FromMatrix3(m)`, and a copy is returned |
| LegacyQuaternion.QuatVar.FromMatrix4 | LibMaths/Quaternion/Quaternion.h:337-376 | the same body reads only the top-left 3x3, so the result is `fromMatrix3` of that corner |
| LegacyQuaternion.SquareInPlace | LibMaths/Quaternion/Quaternion.h:181-185 | `q *= q` leaves the square of the old value |

## Left out

- Trigonometry, `acos`, and anything built on them:
  - FVec2/FVec3/DVec3 `AngleBetween`;
  - the `acos`/`sin` tail of both `Slerp`s;
  - FMat3 `Rotation`/`Rotate`;
  - FMat4 `Rotation`, `Rotate`, `XRotation`, `YRotation`, `ZRotation`, `XYZRotation`, `Transform`, `LookAt`, `Perspective`;
  - `Mat4<T>`'s `xRotation`, `yRotation`, `zRotation`, `perspectiveProjection`, `lookAt`, `createTransformMatrix`;
  - the quaternion `getAngle` and the axis/angle constructors and `rotate(axis, angle)`.

  No exact real-number model exists for them.
- LegacyQuaternion.HalfAngle and LegacyQuaternion.RotatePoint: these take the sine and cosine of the half angle as parameters. They do not compute `sin(degreesToRadians(angle / 2))`.
- `sqrt`: every `Length` is left out. Members that need a square root take it as a parameter constrained by `IsSqrt`.
- Floating point: rounding, NaN, infinities and the epsilon comparisons are not modelled. This covers the `IsUnit` of FVec2, FVec3, DVec3 and FVec4, and FMat4 `IsOrthogonal`. PI is a real constant, not the float value of `4 * atan(1)`.
- Division by zero. Several source operators do not check the divisor, and IEEE arithmetic would give infinities or NaN there. Over the reals the model requires a non-zero divisor instead, for these members:
  - QuatAlgebra.DivScalar, FQuat.QuatVar.DivAssign, LegacyQuaternion.QuatVar.DivAssign: the quaternion `operator/` and `operator/=`;
  - QuatAlgebra.Inverse, QuatAlgebra.Rotate, QuatAlgebra.RotateQuat, FQuat.VecTimes: these divide by `length2`;
  - FMat3.Divide, FMat3.Quotient, FMat3.EntryQuotient, FMat3.DivideEntries, FMat4.Quotient, FMat4.DivideScalar, FMat4.ScalarOver, FMat4.Mat4Var.DivideAssign: the matrix `Divide`, `operator/`, the free `s / m` and FMat4's `operator/=`;
  - FMat3.Inverse: `Inverse` divides by the determinant without a check, so the model requires a non-zero determinant;
  - FMat4.Orthographic: `Orthographic` divides by `right - left`, `top - bottom` and `far - near` without a check, so the model requires each to be non-zero;
  - DVec3.DivideComponents, DVec3.DivideInPlace, DVec3.DivideAssign, DVec3.DivideThenMultiply, DVec3.ConstAndMutatingDivideAgree: DVec3's componentwise division;
  - LegacyQuaternion.Normalize, LegacyVec2.Vec2.Normalized, LegacyVec2.Vec2.Normalize: these divide by the length.
- Undefined behaviour:
  - FMat4 `operator*(FVec3)` returns a reference to a local.
  - FMat4 `InverseOrtho`.
  - The quaternion `getVec3Part`/`getVec4Part`, and the older class's `getVectorPart`, return references to temporaries. LegacyQuaternion.RotatePoint returns the value the older `Rotate(v, angle, p)` evidently means to return through `getVectorPart`.
  - The template's free `s * q` assigns through a const reference.
  - The legacy `vec2::operator[](const char[2])` compares string addresses, not characters.
  - The const `vec2::scale` returns a reference to a local.
- FMat4.KeyEntry, FMat4.KeyRow and FMat4.Mat4Var.SetByKey require a row digit 0..3. The source indexes the row array with `key[1] - '0'` unchecked, so other digits read or write outside the matrix.
- Mat4Template.KeyRow, Mat4Template.Mat4.KeyValue and Mat4Template.Mat4.SetByKey require the same digit range for an axis letter, for the same reason.
- Mat4Template.Mat4.ConstKeyValueAsWritten requires a row digit 1..4 for an axis letter. The const overload indexes with `key[1] - '1'` unchecked, so other digits read outside the matrix.
- FVec3.ScalarDivide: the free `s / v` does not check s. The model requires s != 0, because a zero s gives infinities in IEEE arithmetic.
- LegacyVec2.Vec2.At: this function runs off its end for an index other than 0, 1, 'x', 'y', so such an index is excluded by its precondition.
- FMat4 `Inverse` (the 4x4 cofactor inverse) is not part of this model.
- The stream operators (`<<`, `>>`) are left out, except the legacy `vec2` token parse. `ToArray` is left out (a raw heap buffer), as are the string concatenations of `vec2` and `randomFloat`/`randomInt`.
- LegacyVec2.Vec2.Read: the model takes the token and `std::stof` as parameters and does not model the stream.
- FMat4 `operator*=(float)` is declared but has no body in Mat4/FMat4.cpp.
- The vector operators `==`/`!=` of FVec2, FVec3 and FVec4 compare the components exactly. Dafny's own equality on the datatypes stands for them.
- Mat4Template.Mat4.InitWritten: the last row is whatever the default `Vec4<T>` constructor leaves. It is a parameter `rowDefault`, because Vec4.h is not part of this model.
- Vec3.h, Vec4.h and Mat3.h of the template family are not part of this model. FVec3, FVec4 and FMat3 stand in for `Vec3<T>`, `Vec4<T>` and `Mat3<T>`, and the older quaternion's `v.normalize()` is taken to be FVec3's `Normalize`.
- Mat4Template.Mat4.Assign: it requires two distinct objects to own distinct row storage, which C++ guarantees for member arrays.
- Ownership of the matrix storage, aliasing between objects other than self-assignment, and move constructors are not modelled.

## Findings

| source | as written | input that shows it | evidently intended | confidence | as-written member | corrected member |
|---|---|---|---|---|---|---|
| Mat4/Mat4.h:25-31 | `Mat4(init)` assigns `matrix[2]` twice. Row 2 ends as (0, 0, 0, 1) and row 3 is never set | `Mat4(1)`: [2][2] is 0 and [2][3] is 1, so the result is not the identity | the second assignment writes `matrix[3]`, giving init on the first three diagonal entries | high (not executed) | Mat4Template.InitAsWrittenLosesDiagonal | Mat4Template.InitIntendedIsScaling |
| Mat4/Mat4.h:93-105 | the const `operator[](const char*)` subtracts '1' from the row digit, and the non-const one subtracts '0' | `translation(t)` read through "x3": the non-const overload gives t.x, but the const one reads [2][0], which is 0. Through "x0" the const one underflows | both overloads subtract '0', so a key reads back what it writes | high (not executed) | Mat4Template.ConstKeyOffsetAsWritten | Mat4Template.KeyReadAfterWrite |
