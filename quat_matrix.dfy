/** The conversions between quaternions and 3x3 rotation matrices: toMatrix3 and
    fromMatrix3, whose bodies are the same in FQuat (Quaternion/FQuat.cpp), the template
    Quaternion<T> (Quaternion/Quaternion.h) and the older Quaternion<T>
    (LibMaths/Quaternion/Quaternion.h). */
module QuatMatrix {
  import opened Utilities
  import opened QuatAlgebra
  import FVec3
  import FMat3

  type Mat3 = FMat3.Mat3

  /** toMatrix3(): with xx = x * x, xy = x * y and so on, the rotation matrix
      [1 - 2yy - 2zz, 2xy - 2wz, 2xz + 2wy; 2xy + 2wz, 1 - 2xx - 2zz, 2yz - 2wx;
       2xz - 2wy, 2yz + 2wx, 1 - 2xx - 2yy]. */
  function ToMatrix3(q: Quat): Mat3
  {
    FMat3.FromEntries(
      1.0 - 2.0 * (q.y * q.y) - 2.0 * (q.z * q.z), 2.0 * (q.x * q.y) - 2.0 * (q.w * q.z), 2.0 * (q.x * q.z) + 2.0 * (q.w * q.y),
      2.0 * (q.x * q.y) + 2.0 * (q.w * q.z), 1.0 - 2.0 * (q.x * q.x) - 2.0 * (q.z * q.z), 2.0 * (q.y * q.z) - 2.0 * (q.w * q.x),
      2.0 * (q.x * q.z) - 2.0 * (q.w * q.y), 2.0 * (q.y * q.z) + 2.0 * (q.w * q.x), 1.0 - 2.0 * (q.x * q.x) - 2.0 * (q.y * q.y))
  }

  /** The matrix of identity is the 3x3 identity. */
  lemma ToMatrix3Identity()
    ensures ToMatrix3(Identity) == FMat3.Identity()
  {
  }

  /** The matrix of q is the linear map of the closed-form rotation operator*(FVec3): row i
      times v is component i of q * v, for every q. */
  lemma {:induction false} ToMatrix3RotatesVectors(q: Quat, v: Vec3)
    ensures FVec3.Vec3(FVec3.Dot(FMat3.Row(ToMatrix3(q), 0), v),
                       FVec3.Dot(FMat3.Row(ToMatrix3(q), 1), v),
                       FVec3.Dot(FMat3.Row(ToMatrix3(q), 2), v)) == RotateVector(q, v)
  {
    RowTimesVectorX(q, v);
    RowTimesVectorY(q, v);
    RowTimesVectorZ(q, v);
  }

  /** For a unit quaternion the matrix is orthogonal: it times its transpose is the identity.
      In general entry [i][j] of that product is the identity's entry plus
      4 (length2(q) - 1) times a quadratic term. */
  lemma {:induction false} ToMatrix3Orthogonal(q: Quat)
    requires IsUnit(q)
    ensures FMat3.Product(ToMatrix3(q), FMat3.Transpose(ToMatrix3(q))) == FMat3.Identity()
  {
    ProductTransposeEntry00(q);
    ProductTransposeEntry01(q);
    ProductTransposeEntry02(q);
    ProductTransposeEntry10(q);
    ProductTransposeEntry11(q);
    ProductTransposeEntry12(q);
    ProductTransposeEntry20(q);
    ProductTransposeEntry21(q);
    ProductTransposeEntry22(q);
    FMat3.SameEntriesEqual(FMat3.Product(ToMatrix3(q), FMat3.Transpose(ToMatrix3(q))), FMat3.Identity());
  }

  /** Entry [i][j] of m times its transpose is row i of m dotted with row j. */
  lemma ProductTransposeRows(m: Mat3, i: nat, j: nat)
    requires i < 3 && j < 3
    ensures FMat3.Product(m, FMat3.Transpose(m))[i][j] == FMat3.Dot3(m[i][0], m[i][1], m[i][2], m[j][0], m[j][1], m[j][2])
  {
    var t := FMat3.Transpose(m);
    assert t[0][j] == m[j][0] && t[1][j] == m[j][1] && t[2][j] == m[j][2];
  }

  /** The branches of fromMatrix3, in the order the source tests them: the trace is
      positive, or m[0][0], m[1][1] or m[2][2] leads. */
  datatype Pivot = TracePivot | XPivot | YPivot | ZPivot

  function Trace(m: Mat3): real
  {
    m[0][0] + m[1][1] + m[2][2]
  }

  /** The branch fromMatrix3 takes. Outside the trace branch the chosen diagonal entry is
      the largest one, so the square root is always taken of at least 1. */
  function PivotOf(m: Mat3): (p: Pivot)
    ensures p == TracePivot <==> Trace(m) > 0.0
    ensures p == XPivot ==> m[0][0] > m[1][1] && m[0][0] > m[2][2]
    ensures p == YPivot ==> m[1][1] > m[2][2] && m[1][1] >= m[0][0]
    ensures p == ZPivot ==> m[2][2] >= m[0][0] && m[2][2] >= m[1][1]
  {
    if Trace(m) > 0.0 then TracePivot
    else if m[0][0] > m[1][1] && m[0][0] > m[2][2] then XPivot
    else if m[1][1] > m[2][2] then YPivot
    else ZPivot
  }

  /** The argument of sqrtf in the branch taken. It is never below 1, so s = 2 sqrtf(...)
      is at least 2 and none of the divisions by s divides by zero, whatever the matrix. */
  function Radicand(m: Mat3): (r: real)
    ensures r >= 1.0
  {
    match PivotOf(m)
    case TracePivot => Trace(m) + 1.0
    case XPivot => 1.0 + m[0][0] - m[1][1] - m[2][2]
    case YPivot => 1.0 + m[1][1] - m[0][0] - m[2][2]
    case ZPivot => 1.0 + m[2][2] - m[0][0] - m[1][1]
  }

  /** The component of q a branch computes as 0.25 s. */
  function PivotComponent(q: Quat, p: Pivot): real
  {
    match p
    case TracePivot => q.w
    case XPivot => q.x
    case YPivot => q.y
    case ZPivot => q.z
  }

  /** fromMatrix3(m): with s = 2 sqrtf(Radicand(m)), given here as `root`, the pivot
      component is 0.25 s and the others are sums or differences of two off-diagonal
      entries divided by s. The pivot component is root / 2, at least 1/2. */
  function FromMatrix3(m: Mat3, root: real): (q: Quat)
    requires IsSqrt(Radicand(m), root)
    ensures PivotComponent(q, PivotOf(m)) == root / 2.0 >= 0.5
  {
    RootAtLeastOne(Radicand(m), root);
    var s := root * 2.0;
    match PivotOf(m)
    case TracePivot =>
      Quat((m[2][1] - m[1][2]) / s, (m[0][2] - m[2][0]) / s, (m[1][0] - m[0][1]) / s, 0.25 * s)
    case XPivot =>
      Quat(0.25 * s, (m[0][1] + m[1][0]) / s, (m[0][2] + m[2][0]) / s, (m[2][1] - m[1][2]) / s)
    case YPivot =>
      Quat((m[0][1] + m[1][0]) / s, 0.25 * s, (m[1][2] + m[2][1]) / s, (m[0][2] - m[2][0]) / s)
    case ZPivot =>
      Quat((m[0][2] + m[2][0]) / s, (m[1][2] + m[2][1]) / s, 0.25 * s, (m[1][0] - m[0][1]) / s)
  }

  /** The square root of a number of at least 1 is at least 1. */
  lemma RootAtLeastOne(x: real, root: real)
    requires IsSqrt(x, root) && x >= 1.0
    ensures root >= 1.0
  {
    if root < 1.0 {
      SquareStrictlyMonotone(root, 1.0);
    }
  }

  /** ToMatrix3 cannot tell q from -q: every entry is quadratic in q. */
  lemma {:induction false} ToMatrix3Negate(q: Quat)
    ensures ToMatrix3(Negate(q)) == ToMatrix3(q)
  {
    NegateEntries(q);
    FMat3.SameEntriesEqual(ToMatrix3(Negate(q)), ToMatrix3(q));
  }

  /** fromMatrix3 undoes toMatrix3 on unit quaternions up to sign: it returns q when q's
      component in the branch taken is positive, and -q otherwise. */
  lemma {:induction false} FromToMatrix3(q: Quat, root: real)
    requires IsUnit(q)
    requires IsSqrt(Radicand(ToMatrix3(q)), root)
    ensures FromMatrix3(ToMatrix3(q), root)
            == if PivotComponent(q, PivotOf(ToMatrix3(q))) > 0.0 then q else Negate(q)
  {
    MatrixEntry00(q);
    MatrixEntry01(q);
    MatrixEntry02(q);
    MatrixEntry10(q);
    MatrixEntry11(q);
    MatrixEntry12(q);
    MatrixEntry20(q);
    MatrixEntry21(q);
    MatrixEntry22(q);
    FromEntriesRoundTrip(ToMatrix3(q), q, root);
  }

  /** Hence the matrix of a unit quaternion survives the round trip through fromMatrix3. */
  lemma {:induction false} ToFromMatrix3(q: Quat, root: real)
    requires IsUnit(q)
    requires IsSqrt(Radicand(ToMatrix3(q)), root)
    ensures ToMatrix3(FromMatrix3(ToMatrix3(q), root)) == ToMatrix3(q)
  {
    FromToMatrix3(q, root);
    ToMatrix3Negate(q);
  }

  /** A square root of at least 1 of 4 c^2 is 2 |c|, with c non-zero. */
  lemma RootOfFourSquares(r: real, c: real, root: real)
    requires r == 4.0 * (c * c) && r >= 1.0
    requires IsSqrt(r, root)
    ensures c != 0.0 && root == 2.0 * (if c >= 0.0 then c else -c)
  {
    SqrtOfFourSquares(c, root);
    RootAtLeastOne(r, root);
  }

  /** The square root of 4 c^2 is 2 |c|. */
  lemma SqrtOfFourSquares(c: real, root: real)
    requires IsSqrt(4.0 * (c * c), root)
    ensures root == 2.0 * (if c >= 0.0 then c else -c)
  {
    var a := if c >= 0.0 then c else -c;
    assert (2.0 * a) * (2.0 * a) == 4.0 * (c * c);
    SqrtUnique(4.0 * (c * c), root, 2.0 * a);
  }

  /** A numerator 4 c v over s = 4 |c| is v, with the sign of c. */
  lemma QuotientBySign(n: real, c: real, v: real, root: real)
    requires c != 0.0
    requires root == 2.0 * (if c >= 0.0 then c else -c)
    requires n == 4.0 * (c * v)
    ensures n / (root * 2.0) == if c > 0.0 then v else -v
  {
    var k := root * 2.0;
    if c > 0.0 {
      assert k == 4.0 * c;
      assert n == k * v;
    } else {
      assert k == -4.0 * c;
      assert n == k * -v;
    }
  }

  // Row by row: ToMatrix3RotatesVectors. RowTimesVector<C> states that row C of ToMatrix3(q)
  // dotted with v is component C of the closed form; RowDotVector<C> substitutes the entries and
  // RowTimesVectorPoly<C> is the polynomial identity behind it.

  lemma RowTimesVectorX(q: Quat, v: Vec3)
    ensures FVec3.Dot(FMat3.Row(ToMatrix3(q), 0), v) == RotateVector(q, v).x
  {
    MatrixEntry00(q);
    MatrixEntry01(q);
    MatrixEntry02(q);
    RowDotVectorX(ToMatrix3(q)[0][0], ToMatrix3(q)[0][1], ToMatrix3(q)[0][2], q, v);
  }

  lemma RowDotVectorX(a0: real, a1: real, a2: real, q: Quat, v: Vec3)
    requires a0 == 1.0 - 2.0 * (q.y * q.y) - 2.0 * (q.z * q.z)
    requires a1 == 2.0 * (q.x * q.y) - 2.0 * (q.w * q.z)
    requires a2 == 2.0 * (q.x * q.z) + 2.0 * (q.w * q.y)
    ensures FVec3.Dot(FVec3.Vec3(a0, a1, a2), v) == RotateVector(q, v).x
  {
    RotateVectorExpandedX(q, v);
    RowTimesVectorPolyX(q, v);
  }

  lemma RowTimesVectorPolyX(q: Quat, v: Vec3)
    ensures (1.0 - 2.0 * (q.y * q.y) - 2.0 * (q.z * q.z)) * v.x + (2.0 * (q.x * q.y) - 2.0 * (q.w * q.z)) * v.y + (2.0 * (q.x * q.z) + 2.0 * (q.w * q.y)) * v.z == v.x + ((((q.y * v.z - q.z * v.y) * q.w) + (q.y * (q.x * v.y - q.y * v.x) - q.z * (q.z * v.x - q.x * v.z))) * 2.0)
  {
  }

  lemma RowTimesVectorY(q: Quat, v: Vec3)
    ensures FVec3.Dot(FMat3.Row(ToMatrix3(q), 1), v) == RotateVector(q, v).y
  {
    MatrixEntry10(q);
    MatrixEntry11(q);
    MatrixEntry12(q);
    RowDotVectorY(ToMatrix3(q)[1][0], ToMatrix3(q)[1][1], ToMatrix3(q)[1][2], q, v);
  }

  lemma RowDotVectorY(a0: real, a1: real, a2: real, q: Quat, v: Vec3)
    requires a0 == 2.0 * (q.x * q.y) + 2.0 * (q.w * q.z)
    requires a1 == 1.0 - 2.0 * (q.x * q.x) - 2.0 * (q.z * q.z)
    requires a2 == 2.0 * (q.y * q.z) - 2.0 * (q.w * q.x)
    ensures FVec3.Dot(FVec3.Vec3(a0, a1, a2), v) == RotateVector(q, v).y
  {
    RotateVectorExpandedY(q, v);
    RowTimesVectorPolyY(q, v);
  }

  lemma RowTimesVectorPolyY(q: Quat, v: Vec3)
    ensures (2.0 * (q.x * q.y) + 2.0 * (q.w * q.z)) * v.x + (1.0 - 2.0 * (q.x * q.x) - 2.0 * (q.z * q.z)) * v.y + (2.0 * (q.y * q.z) - 2.0 * (q.w * q.x)) * v.z == v.y + ((((q.z * v.x - q.x * v.z) * q.w) + (q.z * (q.y * v.z - q.z * v.y) - q.x * (q.x * v.y - q.y * v.x))) * 2.0)
  {
  }

  lemma RowTimesVectorZ(q: Quat, v: Vec3)
    ensures FVec3.Dot(FMat3.Row(ToMatrix3(q), 2), v) == RotateVector(q, v).z
  {
    MatrixEntry20(q);
    MatrixEntry21(q);
    MatrixEntry22(q);
    RowDotVectorZ(ToMatrix3(q)[2][0], ToMatrix3(q)[2][1], ToMatrix3(q)[2][2], q, v);
  }

  lemma RowDotVectorZ(a0: real, a1: real, a2: real, q: Quat, v: Vec3)
    requires a0 == 2.0 * (q.x * q.z) - 2.0 * (q.w * q.y)
    requires a1 == 2.0 * (q.y * q.z) + 2.0 * (q.w * q.x)
    requires a2 == 1.0 - 2.0 * (q.x * q.x) - 2.0 * (q.y * q.y)
    ensures FVec3.Dot(FVec3.Vec3(a0, a1, a2), v) == RotateVector(q, v).z
  {
    RotateVectorExpandedZ(q, v);
    RowTimesVectorPolyZ(q, v);
  }

  lemma RowTimesVectorPolyZ(q: Quat, v: Vec3)
    ensures (2.0 * (q.x * q.z) - 2.0 * (q.w * q.y)) * v.x + (2.0 * (q.y * q.z) + 2.0 * (q.w * q.x)) * v.y + (1.0 - 2.0 * (q.x * q.x) - 2.0 * (q.y * q.y)) * v.z == v.z + ((((q.x * v.y - q.y * v.x) * q.w) + (q.x * (q.z * v.x - q.x * v.z) - q.y * (q.y * v.z - q.z * v.y))) * 2.0)
  {
  }

  // Each entry of ToMatrix3(q) as a polynomial in q's coordinates (MatrixEntry<ij>).

  lemma MatrixEntry00(q: Quat)
    ensures ToMatrix3(q)[0][0] == 1.0 - 2.0 * (q.y * q.y) - 2.0 * (q.z * q.z)
  {
  }

  lemma MatrixEntry01(q: Quat)
    ensures ToMatrix3(q)[0][1] == 2.0 * (q.x * q.y) - 2.0 * (q.w * q.z)
  {
  }

  lemma MatrixEntry02(q: Quat)
    ensures ToMatrix3(q)[0][2] == 2.0 * (q.x * q.z) + 2.0 * (q.w * q.y)
  {
  }

  lemma MatrixEntry10(q: Quat)
    ensures ToMatrix3(q)[1][0] == 2.0 * (q.x * q.y) + 2.0 * (q.w * q.z)
  {
  }

  lemma MatrixEntry11(q: Quat)
    ensures ToMatrix3(q)[1][1] == 1.0 - 2.0 * (q.x * q.x) - 2.0 * (q.z * q.z)
  {
  }

  lemma MatrixEntry12(q: Quat)
    ensures ToMatrix3(q)[1][2] == 2.0 * (q.y * q.z) - 2.0 * (q.w * q.x)
  {
  }

  lemma MatrixEntry20(q: Quat)
    ensures ToMatrix3(q)[2][0] == 2.0 * (q.x * q.z) - 2.0 * (q.w * q.y)
  {
  }

  lemma MatrixEntry21(q: Quat)
    ensures ToMatrix3(q)[2][1] == 2.0 * (q.y * q.z) + 2.0 * (q.w * q.x)
  {
  }

  lemma MatrixEntry22(q: Quat)
    ensures ToMatrix3(q)[2][2] == 1.0 - 2.0 * (q.x * q.x) - 2.0 * (q.y * q.y)
  {
  }

  // Entry by entry: ToMatrix3Orthogonal. For each entry ij of M Mᵀ, ProductTransposeEntry<ij>
  // states that it is 1 on the diagonal and 0 off it for a unit q. UnitProductTranspose<ij> does
  // the work on an arbitrary matrix whose rows i and j have the entries of ToMatrix3(q);
  // RowsDot<ij> (in two steps, RowsDotFirst<ij> and RowsDotSecond<ij>) turns the dot product of
  // those rows into a polynomial; ProductTransposePoly<ij> rewrites it as its value at a unit q
  // plus a multiple of (length2 - 1); ProductTransposeUnitPoly<ij> drops that multiple.

  lemma ProductTransposeEntry00(q: Quat)
    requires IsUnit(q)
    ensures FMat3.Product(ToMatrix3(q), FMat3.Transpose(ToMatrix3(q)))[0][0] == 1.0
  {
    MatrixEntry00(q);
    MatrixEntry01(q);
    MatrixEntry02(q);
    UnitProductTranspose00(ToMatrix3(q), q);
  }

  lemma UnitProductTranspose00(m: Mat3, q: Quat)
    requires m[0][0] == 1.0 - 2.0 * (q.y * q.y) - 2.0 * (q.z * q.z)
    requires m[0][1] == 2.0 * (q.x * q.y) - 2.0 * (q.w * q.z)
    requires m[0][2] == 2.0 * (q.x * q.z) + 2.0 * (q.w * q.y)
    requires IsUnit(q)
    ensures FMat3.Product(m, FMat3.Transpose(m))[0][0] == 1.0
  {
    ProductTransposeRows(m, 0, 0);
    UnitRowsDot00(m[0][0], m[0][1], m[0][2], m[0][0], m[0][1], m[0][2], q);
  }

  lemma UnitRowsDot00(a0: real, a1: real, a2: real, b0: real, b1: real, b2: real, q: Quat)
    requires a0 == 1.0 - 2.0 * (q.y * q.y) - 2.0 * (q.z * q.z)
    requires a1 == 2.0 * (q.x * q.y) - 2.0 * (q.w * q.z)
    requires a2 == 2.0 * (q.x * q.z) + 2.0 * (q.w * q.y)
    requires b0 == 1.0 - 2.0 * (q.y * q.y) - 2.0 * (q.z * q.z)
    requires b1 == 2.0 * (q.x * q.y) - 2.0 * (q.w * q.z)
    requires b2 == 2.0 * (q.x * q.z) + 2.0 * (q.w * q.y)
    requires IsUnit(q)
    ensures FMat3.Dot3(a0, a1, a2, b0, b1, b2) == 1.0
  {
    RowsDot00(a0, a1, a2, b0, b1, b2, q);
    ProductTransposeUnitPoly00(q);
  }

  lemma ProductTransposeUnitPoly00(q: Quat)
    requires IsUnit(q)
    ensures (1.0 - 2.0 * (q.y * q.y) - 2.0 * (q.z * q.z)) * (1.0 - 2.0 * (q.y * q.y) - 2.0 * (q.z * q.z)) + (2.0 * (q.x * q.y) - 2.0 * (q.w * q.z)) * (2.0 * (q.x * q.y) - 2.0 * (q.w * q.z)) + (2.0 * (q.x * q.z) + 2.0 * (q.w * q.y)) * (2.0 * (q.x * q.z) + 2.0 * (q.w * q.y)) == 1.0
  {
    ProductTransposePoly00(q);
  }

  lemma RowsDot00(a0: real, a1: real, a2: real, b0: real, b1: real, b2: real, q: Quat)
    requires a0 == 1.0 - 2.0 * (q.y * q.y) - 2.0 * (q.z * q.z)
    requires a1 == 2.0 * (q.x * q.y) - 2.0 * (q.w * q.z)
    requires a2 == 2.0 * (q.x * q.z) + 2.0 * (q.w * q.y)
    requires b0 == 1.0 - 2.0 * (q.y * q.y) - 2.0 * (q.z * q.z)
    requires b1 == 2.0 * (q.x * q.y) - 2.0 * (q.w * q.z)
    requires b2 == 2.0 * (q.x * q.z) + 2.0 * (q.w * q.y)
    ensures FMat3.Dot3(a0, a1, a2, b0, b1, b2) == (1.0 - 2.0 * (q.y * q.y) - 2.0 * (q.z * q.z)) * (1.0 - 2.0 * (q.y * q.y) - 2.0 * (q.z * q.z)) + (2.0 * (q.x * q.y) - 2.0 * (q.w * q.z)) * (2.0 * (q.x * q.y) - 2.0 * (q.w * q.z)) + (2.0 * (q.x * q.z) + 2.0 * (q.w * q.y)) * (2.0 * (q.x * q.z) + 2.0 * (q.w * q.y))
  {
    RowsDotFirst00(a0, a1, a2, b0, b1, b2, q);
    RowsDotSecond00(b0, b1, b2, q);
  }

  lemma RowsDotFirst00(a0: real, a1: real, a2: real, b0: real, b1: real, b2: real, q: Quat)
    requires a0 == 1.0 - 2.0 * (q.y * q.y) - 2.0 * (q.z * q.z)
    requires a1 == 2.0 * (q.x * q.y) - 2.0 * (q.w * q.z)
    requires a2 == 2.0 * (q.x * q.z) + 2.0 * (q.w * q.y)
    ensures FMat3.Dot3(a0, a1, a2, b0, b1, b2) == (1.0 - 2.0 * (q.y * q.y) - 2.0 * (q.z * q.z)) * b0 + (2.0 * (q.x * q.y) - 2.0 * (q.w * q.z)) * b1 + (2.0 * (q.x * q.z) + 2.0 * (q.w * q.y)) * b2
  {
  }

  lemma RowsDotSecond00(b0: real, b1: real, b2: real, q: Quat)
    requires b0 == 1.0 - 2.0 * (q.y * q.y) - 2.0 * (q.z * q.z)
    requires b1 == 2.0 * (q.x * q.y) - 2.0 * (q.w * q.z)
    requires b2 == 2.0 * (q.x * q.z) + 2.0 * (q.w * q.y)
    ensures (1.0 - 2.0 * (q.y * q.y) - 2.0 * (q.z * q.z)) * b0 + (2.0 * (q.x * q.y) - 2.0 * (q.w * q.z)) * b1 + (2.0 * (q.x * q.z) + 2.0 * (q.w * q.y)) * b2 == (1.0 - 2.0 * (q.y * q.y) - 2.0 * (q.z * q.z)) * (1.0 - 2.0 * (q.y * q.y) - 2.0 * (q.z * q.z)) + (2.0 * (q.x * q.y) - 2.0 * (q.w * q.z)) * (2.0 * (q.x * q.y) - 2.0 * (q.w * q.z)) + (2.0 * (q.x * q.z) + 2.0 * (q.w * q.y)) * (2.0 * (q.x * q.z) + 2.0 * (q.w * q.y))
  {
  }

  lemma ProductTransposePoly00(q: Quat)
    ensures (1.0 - 2.0 * (q.y * q.y) - 2.0 * (q.z * q.z)) * (1.0 - 2.0 * (q.y * q.y) - 2.0 * (q.z * q.z)) + (2.0 * (q.x * q.y) - 2.0 * (q.w * q.z)) * (2.0 * (q.x * q.y) - 2.0 * (q.w * q.z)) + (2.0 * (q.x * q.z) + 2.0 * (q.w * q.y)) * (2.0 * (q.x * q.z) + 2.0 * (q.w * q.y))
            == 1.0 + 4.0 * ((q.x * q.x + q.y * q.y + q.z * q.z + q.w * q.w) - 1.0) * (q.y * q.y + q.z * q.z)
  {
  }

  lemma ProductTransposeEntry01(q: Quat)
    requires IsUnit(q)
    ensures FMat3.Product(ToMatrix3(q), FMat3.Transpose(ToMatrix3(q)))[0][1] == 0.0
  {
    MatrixEntry00(q);
    MatrixEntry01(q);
    MatrixEntry02(q);
    MatrixEntry10(q);
    MatrixEntry11(q);
    MatrixEntry12(q);
    UnitProductTranspose01(ToMatrix3(q), q);
  }

  lemma UnitProductTranspose01(m: Mat3, q: Quat)
    requires m[0][0] == 1.0 - 2.0 * (q.y * q.y) - 2.0 * (q.z * q.z)
    requires m[0][1] == 2.0 * (q.x * q.y) - 2.0 * (q.w * q.z)
    requires m[0][2] == 2.0 * (q.x * q.z) + 2.0 * (q.w * q.y)
    requires m[1][0] == 2.0 * (q.x * q.y) + 2.0 * (q.w * q.z)
    requires m[1][1] == 1.0 - 2.0 * (q.x * q.x) - 2.0 * (q.z * q.z)
    requires m[1][2] == 2.0 * (q.y * q.z) - 2.0 * (q.w * q.x)
    requires IsUnit(q)
    ensures FMat3.Product(m, FMat3.Transpose(m))[0][1] == 0.0
  {
    ProductTransposeRows(m, 0, 1);
    UnitRowsDot01(m[0][0], m[0][1], m[0][2], m[1][0], m[1][1], m[1][2], q);
  }

  lemma UnitRowsDot01(a0: real, a1: real, a2: real, b0: real, b1: real, b2: real, q: Quat)
    requires a0 == 1.0 - 2.0 * (q.y * q.y) - 2.0 * (q.z * q.z)
    requires a1 == 2.0 * (q.x * q.y) - 2.0 * (q.w * q.z)
    requires a2 == 2.0 * (q.x * q.z) + 2.0 * (q.w * q.y)
    requires b0 == 2.0 * (q.x * q.y) + 2.0 * (q.w * q.z)
    requires b1 == 1.0 - 2.0 * (q.x * q.x) - 2.0 * (q.z * q.z)
    requires b2 == 2.0 * (q.y * q.z) - 2.0 * (q.w * q.x)
    requires IsUnit(q)
    ensures FMat3.Dot3(a0, a1, a2, b0, b1, b2) == 0.0
  {
    RowsDot01(a0, a1, a2, b0, b1, b2, q);
    ProductTransposeUnitPoly01(q);
  }

  lemma ProductTransposeUnitPoly01(q: Quat)
    requires IsUnit(q)
    ensures (1.0 - 2.0 * (q.y * q.y) - 2.0 * (q.z * q.z)) * (2.0 * (q.x * q.y) + 2.0 * (q.w * q.z)) + (2.0 * (q.x * q.y) - 2.0 * (q.w * q.z)) * (1.0 - 2.0 * (q.x * q.x) - 2.0 * (q.z * q.z)) + (2.0 * (q.x * q.z) + 2.0 * (q.w * q.y)) * (2.0 * (q.y * q.z) - 2.0 * (q.w * q.x)) == 0.0
  {
    ProductTransposePoly01(q);
  }

  lemma RowsDot01(a0: real, a1: real, a2: real, b0: real, b1: real, b2: real, q: Quat)
    requires a0 == 1.0 - 2.0 * (q.y * q.y) - 2.0 * (q.z * q.z)
    requires a1 == 2.0 * (q.x * q.y) - 2.0 * (q.w * q.z)
    requires a2 == 2.0 * (q.x * q.z) + 2.0 * (q.w * q.y)
    requires b0 == 2.0 * (q.x * q.y) + 2.0 * (q.w * q.z)
    requires b1 == 1.0 - 2.0 * (q.x * q.x) - 2.0 * (q.z * q.z)
    requires b2 == 2.0 * (q.y * q.z) - 2.0 * (q.w * q.x)
    ensures FMat3.Dot3(a0, a1, a2, b0, b1, b2) == (1.0 - 2.0 * (q.y * q.y) - 2.0 * (q.z * q.z)) * (2.0 * (q.x * q.y) + 2.0 * (q.w * q.z)) + (2.0 * (q.x * q.y) - 2.0 * (q.w * q.z)) * (1.0 - 2.0 * (q.x * q.x) - 2.0 * (q.z * q.z)) + (2.0 * (q.x * q.z) + 2.0 * (q.w * q.y)) * (2.0 * (q.y * q.z) - 2.0 * (q.w * q.x))
  {
    RowsDotFirst01(a0, a1, a2, b0, b1, b2, q);
    RowsDotSecond01(b0, b1, b2, q);
  }

  lemma RowsDotFirst01(a0: real, a1: real, a2: real, b0: real, b1: real, b2: real, q: Quat)
    requires a0 == 1.0 - 2.0 * (q.y * q.y) - 2.0 * (q.z * q.z)
    requires a1 == 2.0 * (q.x * q.y) - 2.0 * (q.w * q.z)
    requires a2 == 2.0 * (q.x * q.z) + 2.0 * (q.w * q.y)
    ensures FMat3.Dot3(a0, a1, a2, b0, b1, b2) == (1.0 - 2.0 * (q.y * q.y) - 2.0 * (q.z * q.z)) * b0 + (2.0 * (q.x * q.y) - 2.0 * (q.w * q.z)) * b1 + (2.0 * (q.x * q.z) + 2.0 * (q.w * q.y)) * b2
  {
  }

  lemma RowsDotSecond01(b0: real, b1: real, b2: real, q: Quat)
    requires b0 == 2.0 * (q.x * q.y) + 2.0 * (q.w * q.z)
    requires b1 == 1.0 - 2.0 * (q.x * q.x) - 2.0 * (q.z * q.z)
    requires b2 == 2.0 * (q.y * q.z) - 2.0 * (q.w * q.x)
    ensures (1.0 - 2.0 * (q.y * q.y) - 2.0 * (q.z * q.z)) * b0 + (2.0 * (q.x * q.y) - 2.0 * (q.w * q.z)) * b1 + (2.0 * (q.x * q.z) + 2.0 * (q.w * q.y)) * b2 == (1.0 - 2.0 * (q.y * q.y) - 2.0 * (q.z * q.z)) * (2.0 * (q.x * q.y) + 2.0 * (q.w * q.z)) + (2.0 * (q.x * q.y) - 2.0 * (q.w * q.z)) * (1.0 - 2.0 * (q.x * q.x) - 2.0 * (q.z * q.z)) + (2.0 * (q.x * q.z) + 2.0 * (q.w * q.y)) * (2.0 * (q.y * q.z) - 2.0 * (q.w * q.x))
  {
  }

  lemma ProductTransposePoly01(q: Quat)
    ensures (1.0 - 2.0 * (q.y * q.y) - 2.0 * (q.z * q.z)) * (2.0 * (q.x * q.y) + 2.0 * (q.w * q.z)) + (2.0 * (q.x * q.y) - 2.0 * (q.w * q.z)) * (1.0 - 2.0 * (q.x * q.x) - 2.0 * (q.z * q.z)) + (2.0 * (q.x * q.z) + 2.0 * (q.w * q.y)) * (2.0 * (q.y * q.z) - 2.0 * (q.w * q.x))
            == 0.0 + 4.0 * ((q.x * q.x + q.y * q.y + q.z * q.z + q.w * q.w) - 1.0) * (-(q.x * q.y))
  {
  }

  lemma ProductTransposeEntry02(q: Quat)
    requires IsUnit(q)
    ensures FMat3.Product(ToMatrix3(q), FMat3.Transpose(ToMatrix3(q)))[0][2] == 0.0
  {
    MatrixEntry00(q);
    MatrixEntry01(q);
    MatrixEntry02(q);
    MatrixEntry20(q);
    MatrixEntry21(q);
    MatrixEntry22(q);
    UnitProductTranspose02(ToMatrix3(q), q);
  }

  lemma UnitProductTranspose02(m: Mat3, q: Quat)
    requires m[0][0] == 1.0 - 2.0 * (q.y * q.y) - 2.0 * (q.z * q.z)
    requires m[0][1] == 2.0 * (q.x * q.y) - 2.0 * (q.w * q.z)
    requires m[0][2] == 2.0 * (q.x * q.z) + 2.0 * (q.w * q.y)
    requires m[2][0] == 2.0 * (q.x * q.z) - 2.0 * (q.w * q.y)
    requires m[2][1] == 2.0 * (q.y * q.z) + 2.0 * (q.w * q.x)
    requires m[2][2] == 1.0 - 2.0 * (q.x * q.x) - 2.0 * (q.y * q.y)
    requires IsUnit(q)
    ensures FMat3.Product(m, FMat3.Transpose(m))[0][2] == 0.0
  {
    ProductTransposeRows(m, 0, 2);
    UnitRowsDot02(m[0][0], m[0][1], m[0][2], m[2][0], m[2][1], m[2][2], q);
  }

  lemma UnitRowsDot02(a0: real, a1: real, a2: real, b0: real, b1: real, b2: real, q: Quat)
    requires a0 == 1.0 - 2.0 * (q.y * q.y) - 2.0 * (q.z * q.z)
    requires a1 == 2.0 * (q.x * q.y) - 2.0 * (q.w * q.z)
    requires a2 == 2.0 * (q.x * q.z) + 2.0 * (q.w * q.y)
    requires b0 == 2.0 * (q.x * q.z) - 2.0 * (q.w * q.y)
    requires b1 == 2.0 * (q.y * q.z) + 2.0 * (q.w * q.x)
    requires b2 == 1.0 - 2.0 * (q.x * q.x) - 2.0 * (q.y * q.y)
    requires IsUnit(q)
    ensures FMat3.Dot3(a0, a1, a2, b0, b1, b2) == 0.0
  {
    RowsDot02(a0, a1, a2, b0, b1, b2, q);
    ProductTransposeUnitPoly02(q);
  }

  lemma ProductTransposeUnitPoly02(q: Quat)
    requires IsUnit(q)
    ensures (1.0 - 2.0 * (q.y * q.y) - 2.0 * (q.z * q.z)) * (2.0 * (q.x * q.z) - 2.0 * (q.w * q.y)) + (2.0 * (q.x * q.y) - 2.0 * (q.w * q.z)) * (2.0 * (q.y * q.z) + 2.0 * (q.w * q.x)) + (2.0 * (q.x * q.z) + 2.0 * (q.w * q.y)) * (1.0 - 2.0 * (q.x * q.x) - 2.0 * (q.y * q.y)) == 0.0
  {
    ProductTransposePoly02(q);
  }

  lemma RowsDot02(a0: real, a1: real, a2: real, b0: real, b1: real, b2: real, q: Quat)
    requires a0 == 1.0 - 2.0 * (q.y * q.y) - 2.0 * (q.z * q.z)
    requires a1 == 2.0 * (q.x * q.y) - 2.0 * (q.w * q.z)
    requires a2 == 2.0 * (q.x * q.z) + 2.0 * (q.w * q.y)
    requires b0 == 2.0 * (q.x * q.z) - 2.0 * (q.w * q.y)
    requires b1 == 2.0 * (q.y * q.z) + 2.0 * (q.w * q.x)
    requires b2 == 1.0 - 2.0 * (q.x * q.x) - 2.0 * (q.y * q.y)
    ensures FMat3.Dot3(a0, a1, a2, b0, b1, b2) == (1.0 - 2.0 * (q.y * q.y) - 2.0 * (q.z * q.z)) * (2.0 * (q.x * q.z) - 2.0 * (q.w * q.y)) + (2.0 * (q.x * q.y) - 2.0 * (q.w * q.z)) * (2.0 * (q.y * q.z) + 2.0 * (q.w * q.x)) + (2.0 * (q.x * q.z) + 2.0 * (q.w * q.y)) * (1.0 - 2.0 * (q.x * q.x) - 2.0 * (q.y * q.y))
  {
    RowsDotFirst02(a0, a1, a2, b0, b1, b2, q);
    RowsDotSecond02(b0, b1, b2, q);
  }

  lemma RowsDotFirst02(a0: real, a1: real, a2: real, b0: real, b1: real, b2: real, q: Quat)
    requires a0 == 1.0 - 2.0 * (q.y * q.y) - 2.0 * (q.z * q.z)
    requires a1 == 2.0 * (q.x * q.y) - 2.0 * (q.w * q.z)
    requires a2 == 2.0 * (q.x * q.z) + 2.0 * (q.w * q.y)
    ensures FMat3.Dot3(a0, a1, a2, b0, b1, b2) == (1.0 - 2.0 * (q.y * q.y) - 2.0 * (q.z * q.z)) * b0 + (2.0 * (q.x * q.y) - 2.0 * (q.w * q.z)) * b1 + (2.0 * (q.x * q.z) + 2.0 * (q.w * q.y)) * b2
  {
  }

  lemma RowsDotSecond02(b0: real, b1: real, b2: real, q: Quat)
    requires b0 == 2.0 * (q.x * q.z) - 2.0 * (q.w * q.y)
    requires b1 == 2.0 * (q.y * q.z) + 2.0 * (q.w * q.x)
    requires b2 == 1.0 - 2.0 * (q.x * q.x) - 2.0 * (q.y * q.y)
    ensures (1.0 - 2.0 * (q.y * q.y) - 2.0 * (q.z * q.z)) * b0 + (2.0 * (q.x * q.y) - 2.0 * (q.w * q.z)) * b1 + (2.0 * (q.x * q.z) + 2.0 * (q.w * q.y)) * b2 == (1.0 - 2.0 * (q.y * q.y) - 2.0 * (q.z * q.z)) * (2.0 * (q.x * q.z) - 2.0 * (q.w * q.y)) + (2.0 * (q.x * q.y) - 2.0 * (q.w * q.z)) * (2.0 * (q.y * q.z) + 2.0 * (q.w * q.x)) + (2.0 * (q.x * q.z) + 2.0 * (q.w * q.y)) * (1.0 - 2.0 * (q.x * q.x) - 2.0 * (q.y * q.y))
  {
  }

  lemma ProductTransposePoly02(q: Quat)
    ensures (1.0 - 2.0 * (q.y * q.y) - 2.0 * (q.z * q.z)) * (2.0 * (q.x * q.z) - 2.0 * (q.w * q.y)) + (2.0 * (q.x * q.y) - 2.0 * (q.w * q.z)) * (2.0 * (q.y * q.z) + 2.0 * (q.w * q.x)) + (2.0 * (q.x * q.z) + 2.0 * (q.w * q.y)) * (1.0 - 2.0 * (q.x * q.x) - 2.0 * (q.y * q.y))
            == 0.0 + 4.0 * ((q.x * q.x + q.y * q.y + q.z * q.z + q.w * q.w) - 1.0) * (-(q.x * q.z))
  {
  }

  lemma ProductTransposeEntry10(q: Quat)
    requires IsUnit(q)
    ensures FMat3.Product(ToMatrix3(q), FMat3.Transpose(ToMatrix3(q)))[1][0] == 0.0
  {
    MatrixEntry10(q);
    MatrixEntry11(q);
    MatrixEntry12(q);
    MatrixEntry00(q);
    MatrixEntry01(q);
    MatrixEntry02(q);
    UnitProductTranspose10(ToMatrix3(q), q);
  }

  lemma UnitProductTranspose10(m: Mat3, q: Quat)
    requires m[1][0] == 2.0 * (q.x * q.y) + 2.0 * (q.w * q.z)
    requires m[1][1] == 1.0 - 2.0 * (q.x * q.x) - 2.0 * (q.z * q.z)
    requires m[1][2] == 2.0 * (q.y * q.z) - 2.0 * (q.w * q.x)
    requires m[0][0] == 1.0 - 2.0 * (q.y * q.y) - 2.0 * (q.z * q.z)
    requires m[0][1] == 2.0 * (q.x * q.y) - 2.0 * (q.w * q.z)
    requires m[0][2] == 2.0 * (q.x * q.z) + 2.0 * (q.w * q.y)
    requires IsUnit(q)
    ensures FMat3.Product(m, FMat3.Transpose(m))[1][0] == 0.0
  {
    ProductTransposeRows(m, 1, 0);
    UnitRowsDot10(m[1][0], m[1][1], m[1][2], m[0][0], m[0][1], m[0][2], q);
  }

  lemma UnitRowsDot10(a0: real, a1: real, a2: real, b0: real, b1: real, b2: real, q: Quat)
    requires a0 == 2.0 * (q.x * q.y) + 2.0 * (q.w * q.z)
    requires a1 == 1.0 - 2.0 * (q.x * q.x) - 2.0 * (q.z * q.z)
    requires a2 == 2.0 * (q.y * q.z) - 2.0 * (q.w * q.x)
    requires b0 == 1.0 - 2.0 * (q.y * q.y) - 2.0 * (q.z * q.z)
    requires b1 == 2.0 * (q.x * q.y) - 2.0 * (q.w * q.z)
    requires b2 == 2.0 * (q.x * q.z) + 2.0 * (q.w * q.y)
    requires IsUnit(q)
    ensures FMat3.Dot3(a0, a1, a2, b0, b1, b2) == 0.0
  {
    RowsDot10(a0, a1, a2, b0, b1, b2, q);
    ProductTransposeUnitPoly10(q);
  }

  lemma ProductTransposeUnitPoly10(q: Quat)
    requires IsUnit(q)
    ensures (2.0 * (q.x * q.y) + 2.0 * (q.w * q.z)) * (1.0 - 2.0 * (q.y * q.y) - 2.0 * (q.z * q.z)) + (1.0 - 2.0 * (q.x * q.x) - 2.0 * (q.z * q.z)) * (2.0 * (q.x * q.y) - 2.0 * (q.w * q.z)) + (2.0 * (q.y * q.z) - 2.0 * (q.w * q.x)) * (2.0 * (q.x * q.z) + 2.0 * (q.w * q.y)) == 0.0
  {
    ProductTransposePoly10(q);
  }

  lemma RowsDot10(a0: real, a1: real, a2: real, b0: real, b1: real, b2: real, q: Quat)
    requires a0 == 2.0 * (q.x * q.y) + 2.0 * (q.w * q.z)
    requires a1 == 1.0 - 2.0 * (q.x * q.x) - 2.0 * (q.z * q.z)
    requires a2 == 2.0 * (q.y * q.z) - 2.0 * (q.w * q.x)
    requires b0 == 1.0 - 2.0 * (q.y * q.y) - 2.0 * (q.z * q.z)
    requires b1 == 2.0 * (q.x * q.y) - 2.0 * (q.w * q.z)
    requires b2 == 2.0 * (q.x * q.z) + 2.0 * (q.w * q.y)
    ensures FMat3.Dot3(a0, a1, a2, b0, b1, b2) == (2.0 * (q.x * q.y) + 2.0 * (q.w * q.z)) * (1.0 - 2.0 * (q.y * q.y) - 2.0 * (q.z * q.z)) + (1.0 - 2.0 * (q.x * q.x) - 2.0 * (q.z * q.z)) * (2.0 * (q.x * q.y) - 2.0 * (q.w * q.z)) + (2.0 * (q.y * q.z) - 2.0 * (q.w * q.x)) * (2.0 * (q.x * q.z) + 2.0 * (q.w * q.y))
  {
    RowsDotFirst10(a0, a1, a2, b0, b1, b2, q);
    RowsDotSecond10(b0, b1, b2, q);
  }

  lemma RowsDotFirst10(a0: real, a1: real, a2: real, b0: real, b1: real, b2: real, q: Quat)
    requires a0 == 2.0 * (q.x * q.y) + 2.0 * (q.w * q.z)
    requires a1 == 1.0 - 2.0 * (q.x * q.x) - 2.0 * (q.z * q.z)
    requires a2 == 2.0 * (q.y * q.z) - 2.0 * (q.w * q.x)
    ensures FMat3.Dot3(a0, a1, a2, b0, b1, b2) == (2.0 * (q.x * q.y) + 2.0 * (q.w * q.z)) * b0 + (1.0 - 2.0 * (q.x * q.x) - 2.0 * (q.z * q.z)) * b1 + (2.0 * (q.y * q.z) - 2.0 * (q.w * q.x)) * b2
  {
  }

  lemma RowsDotSecond10(b0: real, b1: real, b2: real, q: Quat)
    requires b0 == 1.0 - 2.0 * (q.y * q.y) - 2.0 * (q.z * q.z)
    requires b1 == 2.0 * (q.x * q.y) - 2.0 * (q.w * q.z)
    requires b2 == 2.0 * (q.x * q.z) + 2.0 * (q.w * q.y)
    ensures (2.0 * (q.x * q.y) + 2.0 * (q.w * q.z)) * b0 + (1.0 - 2.0 * (q.x * q.x) - 2.0 * (q.z * q.z)) * b1 + (2.0 * (q.y * q.z) - 2.0 * (q.w * q.x)) * b2 == (2.0 * (q.x * q.y) + 2.0 * (q.w * q.z)) * (1.0 - 2.0 * (q.y * q.y) - 2.0 * (q.z * q.z)) + (1.0 - 2.0 * (q.x * q.x) - 2.0 * (q.z * q.z)) * (2.0 * (q.x * q.y) - 2.0 * (q.w * q.z)) + (2.0 * (q.y * q.z) - 2.0 * (q.w * q.x)) * (2.0 * (q.x * q.z) + 2.0 * (q.w * q.y))
  {
  }

  lemma ProductTransposePoly10(q: Quat)
    ensures (2.0 * (q.x * q.y) + 2.0 * (q.w * q.z)) * (1.0 - 2.0 * (q.y * q.y) - 2.0 * (q.z * q.z)) + (1.0 - 2.0 * (q.x * q.x) - 2.0 * (q.z * q.z)) * (2.0 * (q.x * q.y) - 2.0 * (q.w * q.z)) + (2.0 * (q.y * q.z) - 2.0 * (q.w * q.x)) * (2.0 * (q.x * q.z) + 2.0 * (q.w * q.y))
            == 0.0 + 4.0 * ((q.x * q.x + q.y * q.y + q.z * q.z + q.w * q.w) - 1.0) * (-(q.x * q.y))
  {
  }

  lemma ProductTransposeEntry11(q: Quat)
    requires IsUnit(q)
    ensures FMat3.Product(ToMatrix3(q), FMat3.Transpose(ToMatrix3(q)))[1][1] == 1.0
  {
    MatrixEntry10(q);
    MatrixEntry11(q);
    MatrixEntry12(q);
    UnitProductTranspose11(ToMatrix3(q), q);
  }

  lemma UnitProductTranspose11(m: Mat3, q: Quat)
    requires m[1][0] == 2.0 * (q.x * q.y) + 2.0 * (q.w * q.z)
    requires m[1][1] == 1.0 - 2.0 * (q.x * q.x) - 2.0 * (q.z * q.z)
    requires m[1][2] == 2.0 * (q.y * q.z) - 2.0 * (q.w * q.x)
    requires IsUnit(q)
    ensures FMat3.Product(m, FMat3.Transpose(m))[1][1] == 1.0
  {
    ProductTransposeRows(m, 1, 1);
    UnitRowsDot11(m[1][0], m[1][1], m[1][2], m[1][0], m[1][1], m[1][2], q);
  }

  lemma UnitRowsDot11(a0: real, a1: real, a2: real, b0: real, b1: real, b2: real, q: Quat)
    requires a0 == 2.0 * (q.x * q.y) + 2.0 * (q.w * q.z)
    requires a1 == 1.0 - 2.0 * (q.x * q.x) - 2.0 * (q.z * q.z)
    requires a2 == 2.0 * (q.y * q.z) - 2.0 * (q.w * q.x)
    requires b0 == 2.0 * (q.x * q.y) + 2.0 * (q.w * q.z)
    requires b1 == 1.0 - 2.0 * (q.x * q.x) - 2.0 * (q.z * q.z)
    requires b2 == 2.0 * (q.y * q.z) - 2.0 * (q.w * q.x)
    requires IsUnit(q)
    ensures FMat3.Dot3(a0, a1, a2, b0, b1, b2) == 1.0
  {
    RowsDot11(a0, a1, a2, b0, b1, b2, q);
    ProductTransposeUnitPoly11(q);
  }

  lemma ProductTransposeUnitPoly11(q: Quat)
    requires IsUnit(q)
    ensures (2.0 * (q.x * q.y) + 2.0 * (q.w * q.z)) * (2.0 * (q.x * q.y) + 2.0 * (q.w * q.z)) + (1.0 - 2.0 * (q.x * q.x) - 2.0 * (q.z * q.z)) * (1.0 - 2.0 * (q.x * q.x) - 2.0 * (q.z * q.z)) + (2.0 * (q.y * q.z) - 2.0 * (q.w * q.x)) * (2.0 * (q.y * q.z) - 2.0 * (q.w * q.x)) == 1.0
  {
    ProductTransposePoly11(q);
  }

  lemma RowsDot11(a0: real, a1: real, a2: real, b0: real, b1: real, b2: real, q: Quat)
    requires a0 == 2.0 * (q.x * q.y) + 2.0 * (q.w * q.z)
    requires a1 == 1.0 - 2.0 * (q.x * q.x) - 2.0 * (q.z * q.z)
    requires a2 == 2.0 * (q.y * q.z) - 2.0 * (q.w * q.x)
    requires b0 == 2.0 * (q.x * q.y) + 2.0 * (q.w * q.z)
    requires b1 == 1.0 - 2.0 * (q.x * q.x) - 2.0 * (q.z * q.z)
    requires b2 == 2.0 * (q.y * q.z) - 2.0 * (q.w * q.x)
    ensures FMat3.Dot3(a0, a1, a2, b0, b1, b2) == (2.0 * (q.x * q.y) + 2.0 * (q.w * q.z)) * (2.0 * (q.x * q.y) + 2.0 * (q.w * q.z)) + (1.0 - 2.0 * (q.x * q.x) - 2.0 * (q.z * q.z)) * (1.0 - 2.0 * (q.x * q.x) - 2.0 * (q.z * q.z)) + (2.0 * (q.y * q.z) - 2.0 * (q.w * q.x)) * (2.0 * (q.y * q.z) - 2.0 * (q.w * q.x))
  {
    RowsDotFirst11(a0, a1, a2, b0, b1, b2, q);
    RowsDotSecond11(b0, b1, b2, q);
  }

  lemma RowsDotFirst11(a0: real, a1: real, a2: real, b0: real, b1: real, b2: real, q: Quat)
    requires a0 == 2.0 * (q.x * q.y) + 2.0 * (q.w * q.z)
    requires a1 == 1.0 - 2.0 * (q.x * q.x) - 2.0 * (q.z * q.z)
    requires a2 == 2.0 * (q.y * q.z) - 2.0 * (q.w * q.x)
    ensures FMat3.Dot3(a0, a1, a2, b0, b1, b2) == (2.0 * (q.x * q.y) + 2.0 * (q.w * q.z)) * b0 + (1.0 - 2.0 * (q.x * q.x) - 2.0 * (q.z * q.z)) * b1 + (2.0 * (q.y * q.z) - 2.0 * (q.w * q.x)) * b2
  {
  }

  lemma RowsDotSecond11(b0: real, b1: real, b2: real, q: Quat)
    requires b0 == 2.0 * (q.x * q.y) + 2.0 * (q.w * q.z)
    requires b1 == 1.0 - 2.0 * (q.x * q.x) - 2.0 * (q.z * q.z)
    requires b2 == 2.0 * (q.y * q.z) - 2.0 * (q.w * q.x)
    ensures (2.0 * (q.x * q.y) + 2.0 * (q.w * q.z)) * b0 + (1.0 - 2.0 * (q.x * q.x) - 2.0 * (q.z * q.z)) * b1 + (2.0 * (q.y * q.z) - 2.0 * (q.w * q.x)) * b2 == (2.0 * (q.x * q.y) + 2.0 * (q.w * q.z)) * (2.0 * (q.x * q.y) + 2.0 * (q.w * q.z)) + (1.0 - 2.0 * (q.x * q.x) - 2.0 * (q.z * q.z)) * (1.0 - 2.0 * (q.x * q.x) - 2.0 * (q.z * q.z)) + (2.0 * (q.y * q.z) - 2.0 * (q.w * q.x)) * (2.0 * (q.y * q.z) - 2.0 * (q.w * q.x))
  {
  }

  lemma ProductTransposePoly11(q: Quat)
    ensures (2.0 * (q.x * q.y) + 2.0 * (q.w * q.z)) * (2.0 * (q.x * q.y) + 2.0 * (q.w * q.z)) + (1.0 - 2.0 * (q.x * q.x) - 2.0 * (q.z * q.z)) * (1.0 - 2.0 * (q.x * q.x) - 2.0 * (q.z * q.z)) + (2.0 * (q.y * q.z) - 2.0 * (q.w * q.x)) * (2.0 * (q.y * q.z) - 2.0 * (q.w * q.x))
            == 1.0 + 4.0 * ((q.x * q.x + q.y * q.y + q.z * q.z + q.w * q.w) - 1.0) * (q.x * q.x + q.z * q.z)
  {
  }

  lemma ProductTransposeEntry12(q: Quat)
    requires IsUnit(q)
    ensures FMat3.Product(ToMatrix3(q), FMat3.Transpose(ToMatrix3(q)))[1][2] == 0.0
  {
    MatrixEntry10(q);
    MatrixEntry11(q);
    MatrixEntry12(q);
    MatrixEntry20(q);
    MatrixEntry21(q);
    MatrixEntry22(q);
    UnitProductTranspose12(ToMatrix3(q), q);
  }

  lemma UnitProductTranspose12(m: Mat3, q: Quat)
    requires m[1][0] == 2.0 * (q.x * q.y) + 2.0 * (q.w * q.z)
    requires m[1][1] == 1.0 - 2.0 * (q.x * q.x) - 2.0 * (q.z * q.z)
    requires m[1][2] == 2.0 * (q.y * q.z) - 2.0 * (q.w * q.x)
    requires m[2][0] == 2.0 * (q.x * q.z) - 2.0 * (q.w * q.y)
    requires m[2][1] == 2.0 * (q.y * q.z) + 2.0 * (q.w * q.x)
    requires m[2][2] == 1.0 - 2.0 * (q.x * q.x) - 2.0 * (q.y * q.y)
    requires IsUnit(q)
    ensures FMat3.Product(m, FMat3.Transpose(m))[1][2] == 0.0
  {
    ProductTransposeRows(m, 1, 2);
    UnitRowsDot12(m[1][0], m[1][1], m[1][2], m[2][0], m[2][1], m[2][2], q);
  }

  lemma UnitRowsDot12(a0: real, a1: real, a2: real, b0: real, b1: real, b2: real, q: Quat)
    requires a0 == 2.0 * (q.x * q.y) + 2.0 * (q.w * q.z)
    requires a1 == 1.0 - 2.0 * (q.x * q.x) - 2.0 * (q.z * q.z)
    requires a2 == 2.0 * (q.y * q.z) - 2.0 * (q.w * q.x)
    requires b0 == 2.0 * (q.x * q.z) - 2.0 * (q.w * q.y)
    requires b1 == 2.0 * (q.y * q.z) + 2.0 * (q.w * q.x)
    requires b2 == 1.0 - 2.0 * (q.x * q.x) - 2.0 * (q.y * q.y)
    requires IsUnit(q)
    ensures FMat3.Dot3(a0, a1, a2, b0, b1, b2) == 0.0
  {
    RowsDot12(a0, a1, a2, b0, b1, b2, q);
    ProductTransposeUnitPoly12(q);
  }

  lemma ProductTransposeUnitPoly12(q: Quat)
    requires IsUnit(q)
    ensures (2.0 * (q.x * q.y) + 2.0 * (q.w * q.z)) * (2.0 * (q.x * q.z) - 2.0 * (q.w * q.y)) + (1.0 - 2.0 * (q.x * q.x) - 2.0 * (q.z * q.z)) * (2.0 * (q.y * q.z) + 2.0 * (q.w * q.x)) + (2.0 * (q.y * q.z) - 2.0 * (q.w * q.x)) * (1.0 - 2.0 * (q.x * q.x) - 2.0 * (q.y * q.y)) == 0.0
  {
    ProductTransposePoly12(q);
  }

  lemma RowsDot12(a0: real, a1: real, a2: real, b0: real, b1: real, b2: real, q: Quat)
    requires a0 == 2.0 * (q.x * q.y) + 2.0 * (q.w * q.z)
    requires a1 == 1.0 - 2.0 * (q.x * q.x) - 2.0 * (q.z * q.z)
    requires a2 == 2.0 * (q.y * q.z) - 2.0 * (q.w * q.x)
    requires b0 == 2.0 * (q.x * q.z) - 2.0 * (q.w * q.y)
    requires b1 == 2.0 * (q.y * q.z) + 2.0 * (q.w * q.x)
    requires b2 == 1.0 - 2.0 * (q.x * q.x) - 2.0 * (q.y * q.y)
    ensures FMat3.Dot3(a0, a1, a2, b0, b1, b2) == (2.0 * (q.x * q.y) + 2.0 * (q.w * q.z)) * (2.0 * (q.x * q.z) - 2.0 * (q.w * q.y)) + (1.0 - 2.0 * (q.x * q.x) - 2.0 * (q.z * q.z)) * (2.0 * (q.y * q.z) + 2.0 * (q.w * q.x)) + (2.0 * (q.y * q.z) - 2.0 * (q.w * q.x)) * (1.0 - 2.0 * (q.x * q.x) - 2.0 * (q.y * q.y))
  {
    RowsDotFirst12(a0, a1, a2, b0, b1, b2, q);
    RowsDotSecond12(b0, b1, b2, q);
  }

  lemma RowsDotFirst12(a0: real, a1: real, a2: real, b0: real, b1: real, b2: real, q: Quat)
    requires a0 == 2.0 * (q.x * q.y) + 2.0 * (q.w * q.z)
    requires a1 == 1.0 - 2.0 * (q.x * q.x) - 2.0 * (q.z * q.z)
    requires a2 == 2.0 * (q.y * q.z) - 2.0 * (q.w * q.x)
    ensures FMat3.Dot3(a0, a1, a2, b0, b1, b2) == (2.0 * (q.x * q.y) + 2.0 * (q.w * q.z)) * b0 + (1.0 - 2.0 * (q.x * q.x) - 2.0 * (q.z * q.z)) * b1 + (2.0 * (q.y * q.z) - 2.0 * (q.w * q.x)) * b2
  {
  }

  lemma RowsDotSecond12(b0: real, b1: real, b2: real, q: Quat)
    requires b0 == 2.0 * (q.x * q.z) - 2.0 * (q.w * q.y)
    requires b1 == 2.0 * (q.y * q.z) + 2.0 * (q.w * q.x)
    requires b2 == 1.0 - 2.0 * (q.x * q.x) - 2.0 * (q.y * q.y)
    ensures (2.0 * (q.x * q.y) + 2.0 * (q.w * q.z)) * b0 + (1.0 - 2.0 * (q.x * q.x) - 2.0 * (q.z * q.z)) * b1 + (2.0 * (q.y * q.z) - 2.0 * (q.w * q.x)) * b2 == (2.0 * (q.x * q.y) + 2.0 * (q.w * q.z)) * (2.0 * (q.x * q.z) - 2.0 * (q.w * q.y)) + (1.0 - 2.0 * (q.x * q.x) - 2.0 * (q.z * q.z)) * (2.0 * (q.y * q.z) + 2.0 * (q.w * q.x)) + (2.0 * (q.y * q.z) - 2.0 * (q.w * q.x)) * (1.0 - 2.0 * (q.x * q.x) - 2.0 * (q.y * q.y))
  {
  }

  lemma ProductTransposePoly12(q: Quat)
    ensures (2.0 * (q.x * q.y) + 2.0 * (q.w * q.z)) * (2.0 * (q.x * q.z) - 2.0 * (q.w * q.y)) + (1.0 - 2.0 * (q.x * q.x) - 2.0 * (q.z * q.z)) * (2.0 * (q.y * q.z) + 2.0 * (q.w * q.x)) + (2.0 * (q.y * q.z) - 2.0 * (q.w * q.x)) * (1.0 - 2.0 * (q.x * q.x) - 2.0 * (q.y * q.y))
            == 0.0 + 4.0 * ((q.x * q.x + q.y * q.y + q.z * q.z + q.w * q.w) - 1.0) * (-(q.y * q.z))
  {
  }

  lemma ProductTransposeEntry20(q: Quat)
    requires IsUnit(q)
    ensures FMat3.Product(ToMatrix3(q), FMat3.Transpose(ToMatrix3(q)))[2][0] == 0.0
  {
    MatrixEntry20(q);
    MatrixEntry21(q);
    MatrixEntry22(q);
    MatrixEntry00(q);
    MatrixEntry01(q);
    MatrixEntry02(q);
    UnitProductTranspose20(ToMatrix3(q), q);
  }

  lemma UnitProductTranspose20(m: Mat3, q: Quat)
    requires m[2][0] == 2.0 * (q.x * q.z) - 2.0 * (q.w * q.y)
    requires m[2][1] == 2.0 * (q.y * q.z) + 2.0 * (q.w * q.x)
    requires m[2][2] == 1.0 - 2.0 * (q.x * q.x) - 2.0 * (q.y * q.y)
    requires m[0][0] == 1.0 - 2.0 * (q.y * q.y) - 2.0 * (q.z * q.z)
    requires m[0][1] == 2.0 * (q.x * q.y) - 2.0 * (q.w * q.z)
    requires m[0][2] == 2.0 * (q.x * q.z) + 2.0 * (q.w * q.y)
    requires IsUnit(q)
    ensures FMat3.Product(m, FMat3.Transpose(m))[2][0] == 0.0
  {
    ProductTransposeRows(m, 2, 0);
    UnitRowsDot20(m[2][0], m[2][1], m[2][2], m[0][0], m[0][1], m[0][2], q);
  }

  lemma UnitRowsDot20(a0: real, a1: real, a2: real, b0: real, b1: real, b2: real, q: Quat)
    requires a0 == 2.0 * (q.x * q.z) - 2.0 * (q.w * q.y)
    requires a1 == 2.0 * (q.y * q.z) + 2.0 * (q.w * q.x)
    requires a2 == 1.0 - 2.0 * (q.x * q.x) - 2.0 * (q.y * q.y)
    requires b0 == 1.0 - 2.0 * (q.y * q.y) - 2.0 * (q.z * q.z)
    requires b1 == 2.0 * (q.x * q.y) - 2.0 * (q.w * q.z)
    requires b2 == 2.0 * (q.x * q.z) + 2.0 * (q.w * q.y)
    requires IsUnit(q)
    ensures FMat3.Dot3(a0, a1, a2, b0, b1, b2) == 0.0
  {
    RowsDot20(a0, a1, a2, b0, b1, b2, q);
    ProductTransposeUnitPoly20(q);
  }

  lemma ProductTransposeUnitPoly20(q: Quat)
    requires IsUnit(q)
    ensures (2.0 * (q.x * q.z) - 2.0 * (q.w * q.y)) * (1.0 - 2.0 * (q.y * q.y) - 2.0 * (q.z * q.z)) + (2.0 * (q.y * q.z) + 2.0 * (q.w * q.x)) * (2.0 * (q.x * q.y) - 2.0 * (q.w * q.z)) + (1.0 - 2.0 * (q.x * q.x) - 2.0 * (q.y * q.y)) * (2.0 * (q.x * q.z) + 2.0 * (q.w * q.y)) == 0.0
  {
    ProductTransposePoly20(q);
  }

  lemma RowsDot20(a0: real, a1: real, a2: real, b0: real, b1: real, b2: real, q: Quat)
    requires a0 == 2.0 * (q.x * q.z) - 2.0 * (q.w * q.y)
    requires a1 == 2.0 * (q.y * q.z) + 2.0 * (q.w * q.x)
    requires a2 == 1.0 - 2.0 * (q.x * q.x) - 2.0 * (q.y * q.y)
    requires b0 == 1.0 - 2.0 * (q.y * q.y) - 2.0 * (q.z * q.z)
    requires b1 == 2.0 * (q.x * q.y) - 2.0 * (q.w * q.z)
    requires b2 == 2.0 * (q.x * q.z) + 2.0 * (q.w * q.y)
    ensures FMat3.Dot3(a0, a1, a2, b0, b1, b2) == (2.0 * (q.x * q.z) - 2.0 * (q.w * q.y)) * (1.0 - 2.0 * (q.y * q.y) - 2.0 * (q.z * q.z)) + (2.0 * (q.y * q.z) + 2.0 * (q.w * q.x)) * (2.0 * (q.x * q.y) - 2.0 * (q.w * q.z)) + (1.0 - 2.0 * (q.x * q.x) - 2.0 * (q.y * q.y)) * (2.0 * (q.x * q.z) + 2.0 * (q.w * q.y))
  {
    RowsDotFirst20(a0, a1, a2, b0, b1, b2, q);
    RowsDotSecond20(b0, b1, b2, q);
  }

  lemma RowsDotFirst20(a0: real, a1: real, a2: real, b0: real, b1: real, b2: real, q: Quat)
    requires a0 == 2.0 * (q.x * q.z) - 2.0 * (q.w * q.y)
    requires a1 == 2.0 * (q.y * q.z) + 2.0 * (q.w * q.x)
    requires a2 == 1.0 - 2.0 * (q.x * q.x) - 2.0 * (q.y * q.y)
    ensures FMat3.Dot3(a0, a1, a2, b0, b1, b2) == (2.0 * (q.x * q.z) - 2.0 * (q.w * q.y)) * b0 + (2.0 * (q.y * q.z) + 2.0 * (q.w * q.x)) * b1 + (1.0 - 2.0 * (q.x * q.x) - 2.0 * (q.y * q.y)) * b2
  {
  }

  lemma RowsDotSecond20(b0: real, b1: real, b2: real, q: Quat)
    requires b0 == 1.0 - 2.0 * (q.y * q.y) - 2.0 * (q.z * q.z)
    requires b1 == 2.0 * (q.x * q.y) - 2.0 * (q.w * q.z)
    requires b2 == 2.0 * (q.x * q.z) + 2.0 * (q.w * q.y)
    ensures (2.0 * (q.x * q.z) - 2.0 * (q.w * q.y)) * b0 + (2.0 * (q.y * q.z) + 2.0 * (q.w * q.x)) * b1 + (1.0 - 2.0 * (q.x * q.x) - 2.0 * (q.y * q.y)) * b2 == (2.0 * (q.x * q.z) - 2.0 * (q.w * q.y)) * (1.0 - 2.0 * (q.y * q.y) - 2.0 * (q.z * q.z)) + (2.0 * (q.y * q.z) + 2.0 * (q.w * q.x)) * (2.0 * (q.x * q.y) - 2.0 * (q.w * q.z)) + (1.0 - 2.0 * (q.x * q.x) - 2.0 * (q.y * q.y)) * (2.0 * (q.x * q.z) + 2.0 * (q.w * q.y))
  {
  }

  lemma ProductTransposePoly20(q: Quat)
    ensures (2.0 * (q.x * q.z) - 2.0 * (q.w * q.y)) * (1.0 - 2.0 * (q.y * q.y) - 2.0 * (q.z * q.z)) + (2.0 * (q.y * q.z) + 2.0 * (q.w * q.x)) * (2.0 * (q.x * q.y) - 2.0 * (q.w * q.z)) + (1.0 - 2.0 * (q.x * q.x) - 2.0 * (q.y * q.y)) * (2.0 * (q.x * q.z) + 2.0 * (q.w * q.y))
            == 0.0 + 4.0 * ((q.x * q.x + q.y * q.y + q.z * q.z + q.w * q.w) - 1.0) * (-(q.x * q.z))
  {
  }

  lemma ProductTransposeEntry21(q: Quat)
    requires IsUnit(q)
    ensures FMat3.Product(ToMatrix3(q), FMat3.Transpose(ToMatrix3(q)))[2][1] == 0.0
  {
    MatrixEntry20(q);
    MatrixEntry21(q);
    MatrixEntry22(q);
    MatrixEntry10(q);
    MatrixEntry11(q);
    MatrixEntry12(q);
    UnitProductTranspose21(ToMatrix3(q), q);
  }

  lemma UnitProductTranspose21(m: Mat3, q: Quat)
    requires m[2][0] == 2.0 * (q.x * q.z) - 2.0 * (q.w * q.y)
    requires m[2][1] == 2.0 * (q.y * q.z) + 2.0 * (q.w * q.x)
    requires m[2][2] == 1.0 - 2.0 * (q.x * q.x) - 2.0 * (q.y * q.y)
    requires m[1][0] == 2.0 * (q.x * q.y) + 2.0 * (q.w * q.z)
    requires m[1][1] == 1.0 - 2.0 * (q.x * q.x) - 2.0 * (q.z * q.z)
    requires m[1][2] == 2.0 * (q.y * q.z) - 2.0 * (q.w * q.x)
    requires IsUnit(q)
    ensures FMat3.Product(m, FMat3.Transpose(m))[2][1] == 0.0
  {
    ProductTransposeRows(m, 2, 1);
    UnitRowsDot21(m[2][0], m[2][1], m[2][2], m[1][0], m[1][1], m[1][2], q);
  }

  lemma UnitRowsDot21(a0: real, a1: real, a2: real, b0: real, b1: real, b2: real, q: Quat)
    requires a0 == 2.0 * (q.x * q.z) - 2.0 * (q.w * q.y)
    requires a1 == 2.0 * (q.y * q.z) + 2.0 * (q.w * q.x)
    requires a2 == 1.0 - 2.0 * (q.x * q.x) - 2.0 * (q.y * q.y)
    requires b0 == 2.0 * (q.x * q.y) + 2.0 * (q.w * q.z)
    requires b1 == 1.0 - 2.0 * (q.x * q.x) - 2.0 * (q.z * q.z)
    requires b2 == 2.0 * (q.y * q.z) - 2.0 * (q.w * q.x)
    requires IsUnit(q)
    ensures FMat3.Dot3(a0, a1, a2, b0, b1, b2) == 0.0
  {
    RowsDot21(a0, a1, a2, b0, b1, b2, q);
    ProductTransposeUnitPoly21(q);
  }

  lemma ProductTransposeUnitPoly21(q: Quat)
    requires IsUnit(q)
    ensures (2.0 * (q.x * q.z) - 2.0 * (q.w * q.y)) * (2.0 * (q.x * q.y) + 2.0 * (q.w * q.z)) + (2.0 * (q.y * q.z) + 2.0 * (q.w * q.x)) * (1.0 - 2.0 * (q.x * q.x) - 2.0 * (q.z * q.z)) + (1.0 - 2.0 * (q.x * q.x) - 2.0 * (q.y * q.y)) * (2.0 * (q.y * q.z) - 2.0 * (q.w * q.x)) == 0.0
  {
    ProductTransposePoly21(q);
  }

  lemma RowsDot21(a0: real, a1: real, a2: real, b0: real, b1: real, b2: real, q: Quat)
    requires a0 == 2.0 * (q.x * q.z) - 2.0 * (q.w * q.y)
    requires a1 == 2.0 * (q.y * q.z) + 2.0 * (q.w * q.x)
    requires a2 == 1.0 - 2.0 * (q.x * q.x) - 2.0 * (q.y * q.y)
    requires b0 == 2.0 * (q.x * q.y) + 2.0 * (q.w * q.z)
    requires b1 == 1.0 - 2.0 * (q.x * q.x) - 2.0 * (q.z * q.z)
    requires b2 == 2.0 * (q.y * q.z) - 2.0 * (q.w * q.x)
    ensures FMat3.Dot3(a0, a1, a2, b0, b1, b2) == (2.0 * (q.x * q.z) - 2.0 * (q.w * q.y)) * (2.0 * (q.x * q.y) + 2.0 * (q.w * q.z)) + (2.0 * (q.y * q.z) + 2.0 * (q.w * q.x)) * (1.0 - 2.0 * (q.x * q.x) - 2.0 * (q.z * q.z)) + (1.0 - 2.0 * (q.x * q.x) - 2.0 * (q.y * q.y)) * (2.0 * (q.y * q.z) - 2.0 * (q.w * q.x))
  {
    RowsDotFirst21(a0, a1, a2, b0, b1, b2, q);
    RowsDotSecond21(b0, b1, b2, q);
  }

  lemma RowsDotFirst21(a0: real, a1: real, a2: real, b0: real, b1: real, b2: real, q: Quat)
    requires a0 == 2.0 * (q.x * q.z) - 2.0 * (q.w * q.y)
    requires a1 == 2.0 * (q.y * q.z) + 2.0 * (q.w * q.x)
    requires a2 == 1.0 - 2.0 * (q.x * q.x) - 2.0 * (q.y * q.y)
    ensures FMat3.Dot3(a0, a1, a2, b0, b1, b2) == (2.0 * (q.x * q.z) - 2.0 * (q.w * q.y)) * b0 + (2.0 * (q.y * q.z) + 2.0 * (q.w * q.x)) * b1 + (1.0 - 2.0 * (q.x * q.x) - 2.0 * (q.y * q.y)) * b2
  {
  }

  lemma RowsDotSecond21(b0: real, b1: real, b2: real, q: Quat)
    requires b0 == 2.0 * (q.x * q.y) + 2.0 * (q.w * q.z)
    requires b1 == 1.0 - 2.0 * (q.x * q.x) - 2.0 * (q.z * q.z)
    requires b2 == 2.0 * (q.y * q.z) - 2.0 * (q.w * q.x)
    ensures (2.0 * (q.x * q.z) - 2.0 * (q.w * q.y)) * b0 + (2.0 * (q.y * q.z) + 2.0 * (q.w * q.x)) * b1 + (1.0 - 2.0 * (q.x * q.x) - 2.0 * (q.y * q.y)) * b2 == (2.0 * (q.x * q.z) - 2.0 * (q.w * q.y)) * (2.0 * (q.x * q.y) + 2.0 * (q.w * q.z)) + (2.0 * (q.y * q.z) + 2.0 * (q.w * q.x)) * (1.0 - 2.0 * (q.x * q.x) - 2.0 * (q.z * q.z)) + (1.0 - 2.0 * (q.x * q.x) - 2.0 * (q.y * q.y)) * (2.0 * (q.y * q.z) - 2.0 * (q.w * q.x))
  {
  }

  lemma ProductTransposePoly21(q: Quat)
    ensures (2.0 * (q.x * q.z) - 2.0 * (q.w * q.y)) * (2.0 * (q.x * q.y) + 2.0 * (q.w * q.z)) + (2.0 * (q.y * q.z) + 2.0 * (q.w * q.x)) * (1.0 - 2.0 * (q.x * q.x) - 2.0 * (q.z * q.z)) + (1.0 - 2.0 * (q.x * q.x) - 2.0 * (q.y * q.y)) * (2.0 * (q.y * q.z) - 2.0 * (q.w * q.x))
            == 0.0 + 4.0 * ((q.x * q.x + q.y * q.y + q.z * q.z + q.w * q.w) - 1.0) * (-(q.y * q.z))
  {
  }

  lemma ProductTransposeEntry22(q: Quat)
    requires IsUnit(q)
    ensures FMat3.Product(ToMatrix3(q), FMat3.Transpose(ToMatrix3(q)))[2][2] == 1.0
  {
    MatrixEntry20(q);
    MatrixEntry21(q);
    MatrixEntry22(q);
    UnitProductTranspose22(ToMatrix3(q), q);
  }

  lemma UnitProductTranspose22(m: Mat3, q: Quat)
    requires m[2][0] == 2.0 * (q.x * q.z) - 2.0 * (q.w * q.y)
    requires m[2][1] == 2.0 * (q.y * q.z) + 2.0 * (q.w * q.x)
    requires m[2][2] == 1.0 - 2.0 * (q.x * q.x) - 2.0 * (q.y * q.y)
    requires IsUnit(q)
    ensures FMat3.Product(m, FMat3.Transpose(m))[2][2] == 1.0
  {
    ProductTransposeRows(m, 2, 2);
    UnitRowsDot22(m[2][0], m[2][1], m[2][2], m[2][0], m[2][1], m[2][2], q);
  }

  lemma UnitRowsDot22(a0: real, a1: real, a2: real, b0: real, b1: real, b2: real, q: Quat)
    requires a0 == 2.0 * (q.x * q.z) - 2.0 * (q.w * q.y)
    requires a1 == 2.0 * (q.y * q.z) + 2.0 * (q.w * q.x)
    requires a2 == 1.0 - 2.0 * (q.x * q.x) - 2.0 * (q.y * q.y)
    requires b0 == 2.0 * (q.x * q.z) - 2.0 * (q.w * q.y)
    requires b1 == 2.0 * (q.y * q.z) + 2.0 * (q.w * q.x)
    requires b2 == 1.0 - 2.0 * (q.x * q.x) - 2.0 * (q.y * q.y)
    requires IsUnit(q)
    ensures FMat3.Dot3(a0, a1, a2, b0, b1, b2) == 1.0
  {
    RowsDot22(a0, a1, a2, b0, b1, b2, q);
    ProductTransposeUnitPoly22(q);
  }

  lemma ProductTransposeUnitPoly22(q: Quat)
    requires IsUnit(q)
    ensures (2.0 * (q.x * q.z) - 2.0 * (q.w * q.y)) * (2.0 * (q.x * q.z) - 2.0 * (q.w * q.y)) + (2.0 * (q.y * q.z) + 2.0 * (q.w * q.x)) * (2.0 * (q.y * q.z) + 2.0 * (q.w * q.x)) + (1.0 - 2.0 * (q.x * q.x) - 2.0 * (q.y * q.y)) * (1.0 - 2.0 * (q.x * q.x) - 2.0 * (q.y * q.y)) == 1.0
  {
    ProductTransposePoly22(q);
  }

  lemma RowsDot22(a0: real, a1: real, a2: real, b0: real, b1: real, b2: real, q: Quat)
    requires a0 == 2.0 * (q.x * q.z) - 2.0 * (q.w * q.y)
    requires a1 == 2.0 * (q.y * q.z) + 2.0 * (q.w * q.x)
    requires a2 == 1.0 - 2.0 * (q.x * q.x) - 2.0 * (q.y * q.y)
    requires b0 == 2.0 * (q.x * q.z) - 2.0 * (q.w * q.y)
    requires b1 == 2.0 * (q.y * q.z) + 2.0 * (q.w * q.x)
    requires b2 == 1.0 - 2.0 * (q.x * q.x) - 2.0 * (q.y * q.y)
    ensures FMat3.Dot3(a0, a1, a2, b0, b1, b2) == (2.0 * (q.x * q.z) - 2.0 * (q.w * q.y)) * (2.0 * (q.x * q.z) - 2.0 * (q.w * q.y)) + (2.0 * (q.y * q.z) + 2.0 * (q.w * q.x)) * (2.0 * (q.y * q.z) + 2.0 * (q.w * q.x)) + (1.0 - 2.0 * (q.x * q.x) - 2.0 * (q.y * q.y)) * (1.0 - 2.0 * (q.x * q.x) - 2.0 * (q.y * q.y))
  {
    RowsDotFirst22(a0, a1, a2, b0, b1, b2, q);
    RowsDotSecond22(b0, b1, b2, q);
  }

  lemma RowsDotFirst22(a0: real, a1: real, a2: real, b0: real, b1: real, b2: real, q: Quat)
    requires a0 == 2.0 * (q.x * q.z) - 2.0 * (q.w * q.y)
    requires a1 == 2.0 * (q.y * q.z) + 2.0 * (q.w * q.x)
    requires a2 == 1.0 - 2.0 * (q.x * q.x) - 2.0 * (q.y * q.y)
    ensures FMat3.Dot3(a0, a1, a2, b0, b1, b2) == (2.0 * (q.x * q.z) - 2.0 * (q.w * q.y)) * b0 + (2.0 * (q.y * q.z) + 2.0 * (q.w * q.x)) * b1 + (1.0 - 2.0 * (q.x * q.x) - 2.0 * (q.y * q.y)) * b2
  {
  }

  lemma RowsDotSecond22(b0: real, b1: real, b2: real, q: Quat)
    requires b0 == 2.0 * (q.x * q.z) - 2.0 * (q.w * q.y)
    requires b1 == 2.0 * (q.y * q.z) + 2.0 * (q.w * q.x)
    requires b2 == 1.0 - 2.0 * (q.x * q.x) - 2.0 * (q.y * q.y)
    ensures (2.0 * (q.x * q.z) - 2.0 * (q.w * q.y)) * b0 + (2.0 * (q.y * q.z) + 2.0 * (q.w * q.x)) * b1 + (1.0 - 2.0 * (q.x * q.x) - 2.0 * (q.y * q.y)) * b2 == (2.0 * (q.x * q.z) - 2.0 * (q.w * q.y)) * (2.0 * (q.x * q.z) - 2.0 * (q.w * q.y)) + (2.0 * (q.y * q.z) + 2.0 * (q.w * q.x)) * (2.0 * (q.y * q.z) + 2.0 * (q.w * q.x)) + (1.0 - 2.0 * (q.x * q.x) - 2.0 * (q.y * q.y)) * (1.0 - 2.0 * (q.x * q.x) - 2.0 * (q.y * q.y))
  {
  }

  lemma ProductTransposePoly22(q: Quat)
    ensures (2.0 * (q.x * q.z) - 2.0 * (q.w * q.y)) * (2.0 * (q.x * q.z) - 2.0 * (q.w * q.y)) + (2.0 * (q.y * q.z) + 2.0 * (q.w * q.x)) * (2.0 * (q.y * q.z) + 2.0 * (q.w * q.x)) + (1.0 - 2.0 * (q.x * q.x) - 2.0 * (q.y * q.y)) * (1.0 - 2.0 * (q.x * q.x) - 2.0 * (q.y * q.y))
            == 1.0 + 4.0 * ((q.x * q.x + q.y * q.y + q.z * q.z + q.w * q.w) - 1.0) * (q.x * q.x + q.y * q.y)
  {
  }
  lemma {:induction false} FromEntriesRoundTrip(m: Mat3, q: Quat, root: real)
    requires m[0][0] == 1.0 - 2.0 * (q.y * q.y) - 2.0 * (q.z * q.z)
    requires m[0][1] == 2.0 * (q.x * q.y) - 2.0 * (q.w * q.z)
    requires m[0][2] == 2.0 * (q.x * q.z) + 2.0 * (q.w * q.y)
    requires m[1][0] == 2.0 * (q.x * q.y) + 2.0 * (q.w * q.z)
    requires m[1][1] == 1.0 - 2.0 * (q.x * q.x) - 2.0 * (q.z * q.z)
    requires m[1][2] == 2.0 * (q.y * q.z) - 2.0 * (q.w * q.x)
    requires m[2][0] == 2.0 * (q.x * q.z) - 2.0 * (q.w * q.y)
    requires m[2][1] == 2.0 * (q.y * q.z) + 2.0 * (q.w * q.x)
    requires m[2][2] == 1.0 - 2.0 * (q.x * q.x) - 2.0 * (q.y * q.y)
    requires IsUnit(q)
    requires IsSqrt(Radicand(m), root)
    ensures FromMatrix3(m, root) == if PivotComponent(q, PivotOf(m)) > 0.0 then q else Negate(q)
  {
    match PivotOf(m)
    case TracePivot => RoundTripTrace(m, q, root);
    case XPivot => RoundTripX(m, q, root);
    case YPivot => RoundTripY(m, q, root);
    case ZPivot => RoundTripZ(m, q, root);
  }

  lemma {:induction false} RoundTripTrace(m: Mat3, q: Quat, root: real)
    requires m[0][0] == 1.0 - 2.0 * (q.y * q.y) - 2.0 * (q.z * q.z)
    requires m[0][1] == 2.0 * (q.x * q.y) - 2.0 * (q.w * q.z)
    requires m[0][2] == 2.0 * (q.x * q.z) + 2.0 * (q.w * q.y)
    requires m[1][0] == 2.0 * (q.x * q.y) + 2.0 * (q.w * q.z)
    requires m[1][1] == 1.0 - 2.0 * (q.x * q.x) - 2.0 * (q.z * q.z)
    requires m[1][2] == 2.0 * (q.y * q.z) - 2.0 * (q.w * q.x)
    requires m[2][0] == 2.0 * (q.x * q.z) - 2.0 * (q.w * q.y)
    requires m[2][1] == 2.0 * (q.y * q.z) + 2.0 * (q.w * q.x)
    requires m[2][2] == 1.0 - 2.0 * (q.x * q.x) - 2.0 * (q.y * q.y)
    requires IsUnit(q)
    requires PivotOf(m) == TracePivot
    requires IsSqrt(Radicand(m), root)
    ensures FromMatrix3(m, root) == if q.w > 0.0 then q else Negate(q)
  {
    RadicandTrace(m, q);
    RootOfFourSquares(Radicand(m), q.w, root);
    NumeratorsTrace(m, q);
    FromMatrix3Trace(m, root, q);
  }

  lemma FromMatrix3Trace(m: Mat3, root: real, q: Quat)
    requires PivotOf(m) == TracePivot
    requires IsSqrt(Radicand(m), root)
    requires q.w != 0.0 && root == 2.0 * (if q.w >= 0.0 then q.w else -q.w)
    requires m[2][1] - m[1][2] == 4.0 * (q.w * q.x)
    requires m[0][2] - m[2][0] == 4.0 * (q.w * q.y)
    requires m[1][0] - m[0][1] == 4.0 * (q.w * q.z)
    ensures FromMatrix3(m, root) == if q.w > 0.0 then q else Negate(q)
  {
    QuotientBySign(m[2][1] - m[1][2], q.w, q.x, root);
    QuotientBySign(m[0][2] - m[2][0], q.w, q.y, root);
    QuotientBySign(m[1][0] - m[0][1], q.w, q.z, root);
  }

  lemma RadicandTrace(m: Mat3, q: Quat)
    requires m[0][0] == 1.0 - 2.0 * (q.y * q.y) - 2.0 * (q.z * q.z)
    requires m[1][1] == 1.0 - 2.0 * (q.x * q.x) - 2.0 * (q.z * q.z)
    requires m[2][2] == 1.0 - 2.0 * (q.x * q.x) - 2.0 * (q.y * q.y)
    requires IsUnit(q)
    requires PivotOf(m) == TracePivot
    ensures Radicand(m) == 4.0 * (q.w * q.w)
  {
  }

  lemma NumeratorsTrace(m: Mat3, q: Quat)
    requires m[0][1] == 2.0 * (q.x * q.y) - 2.0 * (q.w * q.z)
    requires m[0][2] == 2.0 * (q.x * q.z) + 2.0 * (q.w * q.y)
    requires m[1][0] == 2.0 * (q.x * q.y) + 2.0 * (q.w * q.z)
    requires m[1][2] == 2.0 * (q.y * q.z) - 2.0 * (q.w * q.x)
    requires m[2][0] == 2.0 * (q.x * q.z) - 2.0 * (q.w * q.y)
    requires m[2][1] == 2.0 * (q.y * q.z) + 2.0 * (q.w * q.x)
    ensures m[2][1] - m[1][2] == 4.0 * (q.w * q.x)
    ensures m[0][2] - m[2][0] == 4.0 * (q.w * q.y)
    ensures m[1][0] - m[0][1] == 4.0 * (q.w * q.z)
  {
  }

  lemma {:induction false} RoundTripX(m: Mat3, q: Quat, root: real)
    requires m[0][0] == 1.0 - 2.0 * (q.y * q.y) - 2.0 * (q.z * q.z)
    requires m[0][1] == 2.0 * (q.x * q.y) - 2.0 * (q.w * q.z)
    requires m[0][2] == 2.0 * (q.x * q.z) + 2.0 * (q.w * q.y)
    requires m[1][0] == 2.0 * (q.x * q.y) + 2.0 * (q.w * q.z)
    requires m[1][1] == 1.0 - 2.0 * (q.x * q.x) - 2.0 * (q.z * q.z)
    requires m[1][2] == 2.0 * (q.y * q.z) - 2.0 * (q.w * q.x)
    requires m[2][0] == 2.0 * (q.x * q.z) - 2.0 * (q.w * q.y)
    requires m[2][1] == 2.0 * (q.y * q.z) + 2.0 * (q.w * q.x)
    requires m[2][2] == 1.0 - 2.0 * (q.x * q.x) - 2.0 * (q.y * q.y)
    requires PivotOf(m) == XPivot
    requires IsSqrt(Radicand(m), root)
    ensures FromMatrix3(m, root) == if q.x > 0.0 then q else Negate(q)
  {
    RadicandX(m, q);
    RootOfFourSquares(Radicand(m), q.x, root);
    NumeratorsX(m, q);
    FromMatrix3X(m, root, q);
  }

  lemma FromMatrix3X(m: Mat3, root: real, q: Quat)
    requires PivotOf(m) == XPivot
    requires IsSqrt(Radicand(m), root)
    requires q.x != 0.0 && root == 2.0 * (if q.x >= 0.0 then q.x else -q.x)
    requires m[0][1] + m[1][0] == 4.0 * (q.x * q.y)
    requires m[0][2] + m[2][0] == 4.0 * (q.x * q.z)
    requires m[2][1] - m[1][2] == 4.0 * (q.x * q.w)
    ensures FromMatrix3(m, root) == if q.x > 0.0 then q else Negate(q)
  {
    QuotientBySign(m[0][1] + m[1][0], q.x, q.y, root);
    QuotientBySign(m[0][2] + m[2][0], q.x, q.z, root);
    QuotientBySign(m[2][1] - m[1][2], q.x, q.w, root);
  }

  lemma RadicandX(m: Mat3, q: Quat)
    requires m[0][0] == 1.0 - 2.0 * (q.y * q.y) - 2.0 * (q.z * q.z)
    requires m[1][1] == 1.0 - 2.0 * (q.x * q.x) - 2.0 * (q.z * q.z)
    requires m[2][2] == 1.0 - 2.0 * (q.x * q.x) - 2.0 * (q.y * q.y)
    requires PivotOf(m) == XPivot
    ensures Radicand(m) == 4.0 * (q.x * q.x)
  {
  }

  lemma NumeratorsX(m: Mat3, q: Quat)
    requires m[0][1] == 2.0 * (q.x * q.y) - 2.0 * (q.w * q.z)
    requires m[0][2] == 2.0 * (q.x * q.z) + 2.0 * (q.w * q.y)
    requires m[1][0] == 2.0 * (q.x * q.y) + 2.0 * (q.w * q.z)
    requires m[1][2] == 2.0 * (q.y * q.z) - 2.0 * (q.w * q.x)
    requires m[2][0] == 2.0 * (q.x * q.z) - 2.0 * (q.w * q.y)
    requires m[2][1] == 2.0 * (q.y * q.z) + 2.0 * (q.w * q.x)
    ensures m[0][1] + m[1][0] == 4.0 * (q.x * q.y)
    ensures m[0][2] + m[2][0] == 4.0 * (q.x * q.z)
    ensures m[2][1] - m[1][2] == 4.0 * (q.x * q.w)
  {
  }

  lemma {:induction false} RoundTripY(m: Mat3, q: Quat, root: real)
    requires m[0][0] == 1.0 - 2.0 * (q.y * q.y) - 2.0 * (q.z * q.z)
    requires m[0][1] == 2.0 * (q.x * q.y) - 2.0 * (q.w * q.z)
    requires m[0][2] == 2.0 * (q.x * q.z) + 2.0 * (q.w * q.y)
    requires m[1][0] == 2.0 * (q.x * q.y) + 2.0 * (q.w * q.z)
    requires m[1][1] == 1.0 - 2.0 * (q.x * q.x) - 2.0 * (q.z * q.z)
    requires m[1][2] == 2.0 * (q.y * q.z) - 2.0 * (q.w * q.x)
    requires m[2][0] == 2.0 * (q.x * q.z) - 2.0 * (q.w * q.y)
    requires m[2][1] == 2.0 * (q.y * q.z) + 2.0 * (q.w * q.x)
    requires m[2][2] == 1.0 - 2.0 * (q.x * q.x) - 2.0 * (q.y * q.y)
    requires PivotOf(m) == YPivot
    requires IsSqrt(Radicand(m), root)
    ensures FromMatrix3(m, root) == if q.y > 0.0 then q else Negate(q)
  {
    RadicandY(m, q);
    RootOfFourSquares(Radicand(m), q.y, root);
    NumeratorsY(m, q);
    FromMatrix3Y(m, root, q);
  }

  lemma FromMatrix3Y(m: Mat3, root: real, q: Quat)
    requires PivotOf(m) == YPivot
    requires IsSqrt(Radicand(m), root)
    requires q.y != 0.0 && root == 2.0 * (if q.y >= 0.0 then q.y else -q.y)
    requires m[0][1] + m[1][0] == 4.0 * (q.y * q.x)
    requires m[1][2] + m[2][1] == 4.0 * (q.y * q.z)
    requires m[0][2] - m[2][0] == 4.0 * (q.y * q.w)
    ensures FromMatrix3(m, root) == if q.y > 0.0 then q else Negate(q)
  {
    QuotientBySign(m[0][1] + m[1][0], q.y, q.x, root);
    QuotientBySign(m[1][2] + m[2][1], q.y, q.z, root);
    QuotientBySign(m[0][2] - m[2][0], q.y, q.w, root);
  }

  lemma RadicandY(m: Mat3, q: Quat)
    requires m[0][0] == 1.0 - 2.0 * (q.y * q.y) - 2.0 * (q.z * q.z)
    requires m[1][1] == 1.0 - 2.0 * (q.x * q.x) - 2.0 * (q.z * q.z)
    requires m[2][2] == 1.0 - 2.0 * (q.x * q.x) - 2.0 * (q.y * q.y)
    requires PivotOf(m) == YPivot
    ensures Radicand(m) == 4.0 * (q.y * q.y)
  {
  }

  lemma NumeratorsY(m: Mat3, q: Quat)
    requires m[0][1] == 2.0 * (q.x * q.y) - 2.0 * (q.w * q.z)
    requires m[0][2] == 2.0 * (q.x * q.z) + 2.0 * (q.w * q.y)
    requires m[1][0] == 2.0 * (q.x * q.y) + 2.0 * (q.w * q.z)
    requires m[1][2] == 2.0 * (q.y * q.z) - 2.0 * (q.w * q.x)
    requires m[2][0] == 2.0 * (q.x * q.z) - 2.0 * (q.w * q.y)
    requires m[2][1] == 2.0 * (q.y * q.z) + 2.0 * (q.w * q.x)
    ensures m[0][1] + m[1][0] == 4.0 * (q.y * q.x)
    ensures m[1][2] + m[2][1] == 4.0 * (q.y * q.z)
    ensures m[0][2] - m[2][0] == 4.0 * (q.y * q.w)
  {
  }

  lemma {:induction false} RoundTripZ(m: Mat3, q: Quat, root: real)
    requires m[0][0] == 1.0 - 2.0 * (q.y * q.y) - 2.0 * (q.z * q.z)
    requires m[0][1] == 2.0 * (q.x * q.y) - 2.0 * (q.w * q.z)
    requires m[0][2] == 2.0 * (q.x * q.z) + 2.0 * (q.w * q.y)
    requires m[1][0] == 2.0 * (q.x * q.y) + 2.0 * (q.w * q.z)
    requires m[1][1] == 1.0 - 2.0 * (q.x * q.x) - 2.0 * (q.z * q.z)
    requires m[1][2] == 2.0 * (q.y * q.z) - 2.0 * (q.w * q.x)
    requires m[2][0] == 2.0 * (q.x * q.z) - 2.0 * (q.w * q.y)
    requires m[2][1] == 2.0 * (q.y * q.z) + 2.0 * (q.w * q.x)
    requires m[2][2] == 1.0 - 2.0 * (q.x * q.x) - 2.0 * (q.y * q.y)
    requires PivotOf(m) == ZPivot
    requires IsSqrt(Radicand(m), root)
    ensures FromMatrix3(m, root) == if q.z > 0.0 then q else Negate(q)
  {
    RadicandZ(m, q);
    RootOfFourSquares(Radicand(m), q.z, root);
    NumeratorsZ(m, q);
    FromMatrix3Z(m, root, q);
  }

  lemma FromMatrix3Z(m: Mat3, root: real, q: Quat)
    requires PivotOf(m) == ZPivot
    requires IsSqrt(Radicand(m), root)
    requires q.z != 0.0 && root == 2.0 * (if q.z >= 0.0 then q.z else -q.z)
    requires m[0][2] + m[2][0] == 4.0 * (q.z * q.x)
    requires m[1][2] + m[2][1] == 4.0 * (q.z * q.y)
    requires m[1][0] - m[0][1] == 4.0 * (q.z * q.w)
    ensures FromMatrix3(m, root) == if q.z > 0.0 then q else Negate(q)
  {
    QuotientBySign(m[0][2] + m[2][0], q.z, q.x, root);
    QuotientBySign(m[1][2] + m[2][1], q.z, q.y, root);
    QuotientBySign(m[1][0] - m[0][1], q.z, q.w, root);
  }

  lemma RadicandZ(m: Mat3, q: Quat)
    requires m[0][0] == 1.0 - 2.0 * (q.y * q.y) - 2.0 * (q.z * q.z)
    requires m[1][1] == 1.0 - 2.0 * (q.x * q.x) - 2.0 * (q.z * q.z)
    requires m[2][2] == 1.0 - 2.0 * (q.x * q.x) - 2.0 * (q.y * q.y)
    requires PivotOf(m) == ZPivot
    ensures Radicand(m) == 4.0 * (q.z * q.z)
  {
  }

  lemma NumeratorsZ(m: Mat3, q: Quat)
    requires m[0][1] == 2.0 * (q.x * q.y) - 2.0 * (q.w * q.z)
    requires m[0][2] == 2.0 * (q.x * q.z) + 2.0 * (q.w * q.y)
    requires m[1][0] == 2.0 * (q.x * q.y) + 2.0 * (q.w * q.z)
    requires m[1][2] == 2.0 * (q.y * q.z) - 2.0 * (q.w * q.x)
    requires m[2][0] == 2.0 * (q.x * q.z) - 2.0 * (q.w * q.y)
    requires m[2][1] == 2.0 * (q.y * q.z) + 2.0 * (q.w * q.x)
    ensures m[0][2] + m[2][0] == 4.0 * (q.z * q.x)
    ensures m[1][2] + m[2][1] == 4.0 * (q.z * q.y)
    ensures m[1][0] - m[0][1] == 4.0 * (q.z * q.w)
  {
  }

  lemma {:induction false} NegateEntries(q: Quat)
    ensures FMat3.SameEntries(ToMatrix3(Negate(q)), ToMatrix3(q))
  {
    MatrixEntry00(q);
    MatrixEntry00(Negate(q));
    MatrixEntry01(q);
    MatrixEntry01(Negate(q));
    MatrixEntry02(q);
    MatrixEntry02(Negate(q));
    MatrixEntry10(q);
    MatrixEntry10(Negate(q));
    MatrixEntry11(q);
    MatrixEntry11(Negate(q));
    MatrixEntry12(q);
    MatrixEntry12(Negate(q));
    MatrixEntry20(q);
    MatrixEntry20(Negate(q));
    MatrixEntry21(q);
    MatrixEntry21(Negate(q));
    MatrixEntry22(q);
    MatrixEntry22(Negate(q));
    NegateProducts(q, Negate(q));
  }

  lemma NegateProducts(q: Quat, p: Quat)
    requires p == Quat(-q.x, -q.y, -q.z, -q.w)
    ensures p.x * p.x == q.x * q.x && p.y * p.y == q.y * q.y && p.z * p.z == q.z * q.z
    ensures p.x * p.y == q.x * q.y && p.x * p.z == q.x * q.z && p.y * p.z == q.y * q.z
    ensures p.w * p.x == q.w * q.x && p.w * p.y == q.w * q.y && p.w * p.z == q.w * q.z
  {
  }
}
