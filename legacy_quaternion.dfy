/** The older Quaternion<T> of LibMaths/Quaternion/Quaternion.h. It shares the algebra of
    QuatAlgebra and QuatMatrix, but its default constructor gives the identity, its
    operator[] falls back to x instead of throwing, its Normalize divides by the length
    without a guard, and it converts to and from 4x4 matrices as well as 3x3 ones. */
module LegacyQuaternion {
  import opened Utilities
  import opened QuatAlgebra
  import FVec3
  import FVec4
  import FMat3
  import FMat4
  import QuatMatrix

  type Mat3 = FMat3.Mat3
  type Mat4 = FMat4.Mat4

  /** Both overloads of operator[]: 0..3 read x, y, z, w, and every other index reads x. */
  function Index(q: Quat, index: int): (r: real)
    ensures index == 1 ==> r == q.y
    ensures index == 2 ==> r == q.z
    ensures index == 3 ==> r == q.w
    ensures index != 1 && index != 2 && index != 3 ==> r == q.x
  {
    match index
    case 1 => q.y
    case 2 => q.z
    case 3 => q.w
    case _ => q.x
  }

  /** Normalize(): `*this / Length()`, with `length` the value of Length(). There is no
      guard, so the length must not be 0; the result is then a unit quaternion. */
  function Normalize(q: Quat, length: real): (r: Quat)
    requires IsSqrt(Length2(q), length) && length != 0.0
    ensures r == Scale(q, 1.0 / length)
    ensures IsUnit(r)
  {
    DivScalarIsScale(q, length);
    Length2Scale(q, 1.0 / length);
    CancelSquare(Length2(q), length, 1.0 / length);
    DivScalar(q, length)
  }

  /** Where the unguarded Normalize is defined it agrees with the guarded normalize of FQuat
      and the template, and the only quaternion it cannot take is Zero. */
  lemma NormalizeAgreesWithGuarded(q: Quat, length: real)
    requires IsSqrt(Length2(q), length)
    ensures length != 0.0 <==> q != Zero
    ensures length != 0.0 ==> Normalize(q, length) == NormalizeGuarded(q, length)
  {
    SqrtPositive(Length2(q), length);
  }

  /** Rotate(axis, angle): the quaternion (axis sin(angle / 2), cos(angle / 2)), with the sine
      and cosine of the half angle given. For a unit axis it is a unit quaternion. */
  function HalfAngle(axis: FVec3.Vec3, sinHalf: real, cosHalf: real): (r: Quat)
    ensures FVec3.Length2(axis) == 1.0 && sinHalf * sinHalf + cosHalf * cosHalf == 1.0 ==> IsUnit(r)
  {
    if FVec3.Length2(axis) == 1.0 && sinHalf * sinHalf + cosHalf * cosHalf == 1.0 then
      HalfAngleUnit(axis, sinHalf, cosHalf);
      Quat(axis.x * sinHalf, axis.y * sinHalf, axis.z * sinHalf, cosHalf)
    else
      Quat(axis.x * sinHalf, axis.y * sinHalf, axis.z * sinHalf, cosHalf)
  }

  /** The squared length of (axis s, c) is |axis|^2 s^2 + c^2. */
  lemma HalfAngleUnit(axis: FVec3.Vec3, s: real, c: real)
    requires FVec3.Length2(axis) == 1.0 && s * s + c * c == 1.0
    ensures Length2(Quat(axis.x * s, axis.y * s, axis.z * s, c)) == 1.0
  {
    calc {
      Length2(Quat(axis.x * s, axis.y * s, axis.z * s, c));
    ==
      (axis.x * axis.x + axis.y * axis.y + axis.z * axis.z) * (s * s) + c * c;
    ==
      FVec3.Length2(axis) * (s * s) + c * c;
    }
  }

  /** The vector part of g (p, 0) conj(g), the point Rotate(v, angle, p) returns. It is the
      closed-form rotation plus (length2(g) - 1) p, so for a unit g it is g * p. */
  function Sandwich(g: Quat, p: FVec3.Vec3): (r: FVec3.Vec3)
    ensures r == FVec3.Add(RotateVector(g, p), FVec3.Multiply(p, Length2(g) - 1.0))
    ensures IsUnit(g) ==> r == RotateVector(g, p)
  {
    SandwichClosedForm(g, p);
    VectorPart(Hamilton(Hamilton(g, Pure(p)), Conjugate(g)))
  }

  /** Rotate(v, angle, p): normalizes the caller's v in place, builds g = Rotate(v, angle)
      from the half-angle sine and cosine, and returns the vector part of g (p, 0) conj(g).
      `length` is the length of v before the call. For a non-zero v and a true sine and
      cosine pair g is a unit quaternion and the point is rotated by the closed form. */
  method RotatePoint(v: FVec3.Vec3Var, sinHalf: real, cosHalf: real, p: FVec3.Vec3, length: real)
    returns (r: FVec3.Vec3)
    requires IsSqrt(FVec3.Length2(v.Value()), length)
    modifies v
    ensures v.Value() == FVec3.Normalize(old(v.Value()), length)
    ensures r == Sandwich(HalfAngle(v.Value(), sinHalf, cosHalf), p)
    ensures old(v.Value()) != FVec3.Zero && sinHalf * sinHalf + cosHalf * cosHalf == 1.0 ==>
              r == RotateVector(HalfAngle(v.Value(), sinHalf, cosHalf), p)
  {
    var unit := FVec3.Normalize(v.Value(), length);
    v.Assign(unit);
    var g := HalfAngle(v.Value(), sinHalf, cosHalf);
    var q := Pure(p);
    var pPrime := Hamilton(Hamilton(g, q), Conjugate(g));
    r := VectorPart(pPrime);
  }

  /** The value QuaternionTest.cpp checks: half a turn about z (sine 1, cosine 0 of the half
      angle) takes (2, 0, 0) to (-2, 0, 0). The axis (0, 0, 1) is already a unit vector. */
  lemma RotateHalfTurnExample()
    ensures FVec3.Normalize(FVec3.Vec3(0.0, 0.0, 1.0), 1.0) == FVec3.Vec3(0.0, 0.0, 1.0)
    ensures HalfAngle(FVec3.Vec3(0.0, 0.0, 1.0), 1.0, 0.0) == Quat(0.0, 0.0, 1.0, 0.0)
    ensures Sandwich(Quat(0.0, 0.0, 1.0, 0.0), FVec3.Vec3(2.0, 0.0, 0.0)) == FVec3.Vec3(-2.0, 0.0, 0.0)
  {
    assert Pure(FVec3.Vec3(2.0, 0.0, 0.0)) == Quat(2.0, 0.0, 0.0, 0.0);
    assert Hamilton(Quat(0.0, 0.0, 1.0, 0.0), Quat(2.0, 0.0, 0.0, 0.0)) == Quat(0.0, 2.0, 0.0, 0.0);
    assert Conjugate(Quat(0.0, 0.0, 1.0, 0.0)) == Quat(0.0, 0.0, -1.0, 0.0);
    assert Hamilton(Quat(0.0, 2.0, 0.0, 0.0), Quat(0.0, 0.0, -1.0, 0.0)) == Quat(-2.0, 0.0, 0.0, 0.0);
  }

  /** The sums, differences and conjugates QuaternionTest.cpp checks. */
  lemma ArithmeticExamples()
    ensures Add(Quat(1.0, 2.0, 3.0, 4.0), Quat(5.0, 6.0, 7.0, 8.0)) == Quat(6.0, 8.0, 10.0, 12.0)
    ensures Sub(Quat(1.0, 2.0, 3.0, 4.0), Quat(5.0, 6.0, 7.0, 8.0)) == Quat(-4.0, -4.0, -4.0, -4.0)
    ensures Conjugate(Quat(1.0, 2.0, 3.0, 4.0)) == Quat(-1.0, -2.0, -3.0, 4.0)
  {
  }

  /** toMatrix4(): the entries of toMatrix3 in the top-left 3x3, zeros in the rest of row 3
      and column 3, and 1 in [3][3]. */
  function ToMatrix4(q: Quat): (r: Mat4)
    ensures FMat4.Row(r, 3) == FVec4.Vec4(0.0, 0.0, 0.0, 1.0)
    ensures r[0][3] == 0.0 && r[1][3] == 0.0 && r[2][3] == 0.0
  {
    FMat4.FromEntries(
      1.0 - 2.0 * (q.y * q.y) - 2.0 * (q.z * q.z), 2.0 * (q.x * q.y) - 2.0 * (q.w * q.z), 2.0 * (q.x * q.z) + 2.0 * (q.w * q.y), 0.0,
      2.0 * (q.x * q.y) + 2.0 * (q.w * q.z), 1.0 - 2.0 * (q.x * q.x) - 2.0 * (q.z * q.z), 2.0 * (q.y * q.z) - 2.0 * (q.w * q.x), 0.0,
      2.0 * (q.x * q.z) - 2.0 * (q.w * q.y), 2.0 * (q.y * q.z) + 2.0 * (q.w * q.x), 1.0 - 2.0 * (q.x * q.x) - 2.0 * (q.y * q.y), 0.0,
      0.0, 0.0, 0.0, 1.0)
  }

  /** The top-left of toMatrix4 is toMatrix3, and toMatrix4 is toMatrix3 widened by ToMat4. */
  lemma {:induction false} ToMatrix4Embeds(q: Quat)
    ensures FMat4.TopLeft(ToMatrix4(q)) == QuatMatrix.ToMatrix3(q)
    ensures ToMatrix4(q) == FMat4.ToMat4(QuatMatrix.ToMatrix3(q))
  {
    var m4 := ToMatrix4(q);
    var m3 := QuatMatrix.ToMatrix3(q);
    FMat3.SameEntriesEqual(FMat4.TopLeft(m4), m3);
    FMat4.ToMat4Entries(m3);
    FMat4.SameEntriesEqual(m4, FMat4.ToMat4(m3));
  }

  /** A Quaternion<T> object: its four fields, written in place by the compound operators,
      the non-const operator[], fromMatrix3 and fromMatrix4. */
  class QuatVar {
    var x: real
    var y: real
    var z: real
    var w: real

    function Value(): Quat
      reads this
    {
      Quat(x, y, z, w)
    }

    /** The default constructor: the identity (0, 0, 0, 1). */
    constructor()
      ensures Value() == Identity
    {
      x, y, z := 0.0, 0.0, 0.0;
      w := 1.0;
    }

    /** Quaternion(x, y, z, w). */
    constructor Of(x0: real, y0: real, z0: real, w0: real)
      ensures Value() == Quat(x0, y0, z0, w0)
    {
      x, y, z, w := x0, y0, z0, w0;
    }

    /** The copy constructor. */
    constructor Copy(q: QuatVar)
      ensures Value() == q.Value()
    {
      x, y, z, w := q.x, q.y, q.z, q.w;
    }

    /** Quaternion(Mat4): the fields fromMatrix4 writes. */
    constructor FromMat4(m: Mat4, root: real)
      requires IsSqrt(QuatMatrix.Radicand(FMat4.TopLeft(m)), root)
      ensures Value() == QuatMatrix.FromMatrix3(FMat4.TopLeft(m), root)
    {
      new;
      var _ := FromMatrix4(m, root);
    }

    /** A write through the non-const operator[]: 1..3 write y, z, w, and every other index,
        out of range or not, writes x. */
    method SetAt(index: int, value: real)
      modifies this
      ensures index == 1 ==> Value() == old(Value()).(y := value)
      ensures index == 2 ==> Value() == old(Value()).(z := value)
      ensures index == 3 ==> Value() == old(Value()).(w := value)
      ensures index != 1 && index != 2 && index != 3 ==> Value() == old(Value()).(x := value)
      ensures Index(Value(), index) == value
    {
      match index
      case 1 => y := value;
      case 2 => z := value;
      case 3 => w := value;
      case _ => x := value;
    }

    /** operator=: the fields of q; the object itself is returned. */
    method Assign(q: QuatVar)
      modifies this
      ensures Value() == old(q.Value())
    {
      x := q.x;
      y := q.y;
      z := q.z;
      w := q.w;
    }

    /** operator+=: field by field. */
    method AddAssign(q: QuatVar)
      modifies this
      ensures Value() == Add(old(Value()), old(q.Value()))
    {
      x := x + q.x;
      y := y + q.y;
      z := z + q.z;
      w := w + q.w;
    }

    /** operator-=: field by field. */
    method SubAssign(q: QuatVar)
      modifies this
      ensures Value() == Sub(old(Value()), old(q.Value()))
    {
      x := x - q.x;
      y := y - q.y;
      z := z - q.z;
      w := w - q.w;
    }

    /** operator*=(Quaternion): `*this = *this * q`; the product is formed before the
        assignment, so `q *= q` squares q. */
    method MulAssign(q: QuatVar)
      modifies this
      ensures Value() == Hamilton(old(Value()), old(q.Value()))
    {
      var product := Hamilton(Value(), q.Value());
      x, y, z, w := product.x, product.y, product.z, product.w;
    }

    /** operator*=(T): every field times s. */
    method ScaleAssign(s: real)
      modifies this
      ensures Value() == Scale(old(Value()), s)
    {
      x := x * s;
      y := y * s;
      z := z * s;
      w := w * s;
    }

    /** operator/=(T): every field divided by s, which must not be 0. */
    method DivAssign(s: real)
      requires s != 0.0
      modifies this
      ensures Value() == DivScalar(old(Value()), s)
    {
      x := x / s;
      y := y / s;
      z := z / s;
      w := w / s;
    }

    /** fromMatrix3(m): the body FQuat and the template share, under sqrt instead of
        sqrtf; all four fields are overwritten and a copy is returned. */
    method FromMatrix3(m: Mat3, root: real) returns (r: Quat)
      requires IsSqrt(QuatMatrix.Radicand(m), root)
      modifies this
      ensures Value() == QuatMatrix.FromMatrix3(m, root) && r == Value()
    {
      var trace := m[0][0] + m[1][1] + m[2][2];
      var s := root * 2.0;
      QuatMatrix.RootAtLeastOne(QuatMatrix.Radicand(m), root);
      if trace > 0.0 {
        x := (m[2][1] - m[1][2]) / s;
        y := (m[0][2] - m[2][0]) / s;
        z := (m[1][0] - m[0][1]) / s;
        w := 0.25 * s;
      } else if m[0][0] > m[1][1] && m[0][0] > m[2][2] {
        x := 0.25 * s;
        y := (m[0][1] + m[1][0]) / s;
        z := (m[0][2] + m[2][0]) / s;
        w := (m[2][1] - m[1][2]) / s;
      } else if m[1][1] > m[2][2] {
        x := (m[0][1] + m[1][0]) / s;
        y := 0.25 * s;
        z := (m[1][2] + m[2][1]) / s;
        w := (m[0][2] - m[2][0]) / s;
      } else {
        x := (m[0][2] + m[2][0]) / s;
        y := (m[1][2] + m[2][1]) / s;
        z := 0.25 * s;
        w := (m[1][0] - m[0][1]) / s;
      }
      r := Value();
    }

    /** fromMatrix4(m): the same body on a 4x4 matrix. It reads only the top-left 3x3, so it
        is fromMatrix3 of that corner. */
    method FromMatrix4(m: Mat4, root: real) returns (r: Quat)
      requires IsSqrt(QuatMatrix.Radicand(FMat4.TopLeft(m)), root)
      modifies this
      ensures Value() == QuatMatrix.FromMatrix3(FMat4.TopLeft(m), root) && r == Value()
    {
      var trace := m[0][0] + m[1][1] + m[2][2];
      var s := root * 2.0;
      QuatMatrix.RootAtLeastOne(QuatMatrix.Radicand(FMat4.TopLeft(m)), root);
      if trace > 0.0 {
        x := (m[2][1] - m[1][2]) / s;
        y := (m[0][2] - m[2][0]) / s;
        z := (m[1][0] - m[0][1]) / s;
        w := 0.25 * s;
      } else if m[0][0] > m[1][1] && m[0][0] > m[2][2] {
        x := 0.25 * s;
        y := (m[0][1] + m[1][0]) / s;
        z := (m[0][2] + m[2][0]) / s;
        w := (m[2][1] - m[1][2]) / s;
      } else if m[1][1] > m[2][2] {
        x := (m[0][1] + m[1][0]) / s;
        y := 0.25 * s;
        z := (m[1][2] + m[2][1]) / s;
        w := (m[0][2] - m[2][0]) / s;
      } else {
        x := (m[0][2] + m[2][0]) / s;
        y := (m[1][2] + m[2][1]) / s;
        z := 0.25 * s;
        w := (m[1][0] - m[0][1]) / s;
      }
      r := Value();
    }
  }

  /** `q *= q` with the older class: the square of the old value. */
  method SquareInPlace(q: QuatVar)
    modifies q
    ensures q.Value() == Hamilton(old(q.Value()), old(q.Value()))
  {
    q.MulAssign(q);
  }
}
