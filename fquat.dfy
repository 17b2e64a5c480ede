/** FQuat (Quaternion/FQuat.cpp) and the template Quaternion<T> (Quaternion/Quaternion.h).
    The two have the same member bodies: a zero default constructor, an operator[] that
    throws runtime_error outside 0..3 and 'x'..'w', compound operators that write the four
    fields, binary operators that copy and then apply the compound operator, and a
    fromMatrix3 that overwrites the receiver. The pure members (conjugate, inverse, dot,
    cross, length2, normalize, toMatrix3, rotate) are the shared algebra of QuatAlgebra
    and QuatMatrix. */
module FQuat {
  import opened Utilities
  import opened QuatAlgebra
  import FVec3
  import FVec4
  import FMat3
  import QuatMatrix

  type Vec4 = FVec4.Vec4
  type Mat3 = FMat3.Mat3

  /** The indices operator[] accepts: 0..3, and the characters 'x', 'y', 'z', 'w'. */
  predicate ValidIndex(index: int)
  {
    0 <= index < 4 || index == 'x' as int || index == 'y' as int || index == 'z' as int || index == 'w' as int
  }

  /** Both overloads of operator[]: 0 or 'x' reads x, 1 or 'y' reads y, 2 or 'z' reads z,
      3 or 'w' reads w, and every other index throws runtime_error. */
  function Index(q: Quat, index: int): (r: Result<real>)
    ensures r.Ok? <==> ValidIndex(index)
    ensures r.Throws? ==> r.error.RuntimeError?
    ensures index == 0 || index == 'x' as int ==> r == Ok(q.x)
    ensures index == 1 || index == 'y' as int ==> r == Ok(q.y)
    ensures index == 2 || index == 'z' as int ==> r == Ok(q.z)
    ensures index == 3 || index == 'w' as int ==> r == Ok(q.w)
  {
    if index == 0 || index == 'x' as int then Ok(q.x)
    else if index == 1 || index == 'y' as int then Ok(q.y)
    else if index == 2 || index == 'z' as int then Ok(q.z)
    else if index == 3 || index == 'w' as int then Ok(q.w)
    else Throws(RuntimeError("Quaternion::operator[]: Invalide index or out of range"))
  }

  /** operator*(FVec4): x, y, z rotated by the closed form operator*(FVec3), w kept. */
  function TimesVec4(q: Quat, v: Vec4): (r: Vec4)
    ensures r.w == v.w
    ensures FVec3.Vec3(r.x, r.y, r.z) == RotateVector(q, FVec3.Vec3(v.x, v.y, v.z))
  {
    FVec4.FromVec3(RotateVector(q, FVec3.Vec3(v.x, v.y, v.z)), v.w)
  }

  /** For a unit quaternion the vector part of operator*(FVec4) is that of rotate(v) on
      x, y, z, and w passes through. */
  lemma TimesVec4IsRotation(q: Quat, v: Vec4)
    requires IsUnit(q)
    ensures FVec3.Vec3(TimesVec4(q, v).x, TimesVec4(q, v).y, TimesVec4(q, v).z)
            == VectorPart(Rotate(q, FVec3.Vec3(v.x, v.y, v.z)))
    ensures TimesVec4(q, v).w == v.w
  {
  }

  /** The free `v * q` (FVec3 and FVec4 alike): the closed form applied with q.inverse().
      For a unit quaternion that is the closed form of the conjugate. */
  function VecTimes(v: FVec3.Vec3, q: Quat): (r: FVec3.Vec3)
    requires Length2(q) != 0.0
    ensures IsUnit(q) ==> r == RotateVector(Conjugate(q), v)
  {
    if IsUnit(q) then
      UnitInverse(q);
      RotateVector(Inverse(q), v)
    else
      RotateVector(Inverse(q), v)
  }

  /** The free `s * q` of FQuat: `q * s`. */
  function ScalarTimes(s: real, q: Quat): (r: Quat)
    ensures r == Hamilton(Quat(0.0, 0.0, 0.0, s), q)
    ensures r == Hamilton(q, Quat(0.0, 0.0, 0.0, s))
  {
    Scale(q, s)
  }

  /** An FQuat or Quaternion<T> object: its four fields, written in place by the compound
      operators, the non-const operator[] and fromMatrix3. */
  class QuatVar {
    var x: real
    var y: real
    var z: real
    var w: real

    function Value(): Quat
      reads this
    {
      Quat(x, y, z, w)
    }

    /** The default constructor: all four fields 0, which is not the constant identity. */
    constructor()
      ensures Value() == Zero && Value() != Identity
    {
      x, y, z, w := 0.0, 0.0, 0.0, 0.0;
    }

    /** FQuat(x, y, z, w). */
    constructor Of(x0: real, y0: real, z0: real, w0: real)
      ensures Value() == Quat(x0, y0, z0, w0)
    {
      x, y, z, w := x0, y0, z0, w0;
    }

    /** The copy constructor. */
    constructor Copy(q: QuatVar)
      ensures Value() == q.Value()
    {
      x, y, z, w := q.x, q.y, q.z, q.w;
    }

    /** FQuat(Mat3): the fields fromMatrix3 writes, for `root` the square root that branch
        takes. */
    constructor FromMatrix(m: Mat3, root: real)
      requires IsSqrt(QuatMatrix.Radicand(m), root)
      ensures Value() == QuatMatrix.FromMatrix3(m, root)
    {
      new;
      var _ := FromMatrix3(m, root);
    }

    /** operator=: the fields of q, returned as a copy. */
    method Assign(q: QuatVar) returns (r: Quat)
      modifies this
      ensures Value() == old(q.Value()) && r == Value()
    {
      x := q.x;
      y := q.y;
      z := q.z;
      w := q.w;
      r := Value();
    }

    /** A write through the non-const operator[]: the component the index selects becomes
        value and the other three stay; any other index throws and writes nothing. */
    method SetAt(index: int, value: real) returns (r: Result<real>)
      modifies this
      ensures r.Ok? <==> ValidIndex(index)
      ensures r.Throws? ==> r.error.RuntimeError? && Value() == old(Value())
      ensures index == 0 || index == 'x' as int ==> Value() == old(Value()).(x := value)
      ensures index == 1 || index == 'y' as int ==> Value() == old(Value()).(y := value)
      ensures index == 2 || index == 'z' as int ==> Value() == old(Value()).(z := value)
      ensures index == 3 || index == 'w' as int ==> Value() == old(Value()).(w := value)
      ensures r.Ok? ==> Index(Value(), index) == Ok(value)
    {
      if index == 0 || index == 'x' as int {
        x := value;
      } else if index == 1 || index == 'y' as int {
        y := value;
      } else if index == 2 || index == 'z' as int {
        z := value;
      } else if index == 3 || index == 'w' as int {
        w := value;
      } else {
        return Throws(RuntimeError("Quaternion::operator[]: Invalide index or out of range"));
      }
      r := Ok(value);
    }

    /** operator+=: field by field, which is Add even when q is this object. */
    method AddAssign(q: QuatVar) returns (r: Quat)
      modifies this
      ensures Value() == Add(old(Value()), old(q.Value())) && r == Value()
    {
      x := x + q.x;
      y := y + q.y;
      z := z + q.z;
      w := w + q.w;
      r := Value();
    }

    /** operator-=: field by field, which is Sub even when q is this object. */
    method SubAssign(q: QuatVar) returns (r: Quat)
      modifies this
      ensures Value() == Sub(old(Value()), old(q.Value())) && r == Value()
    {
      x := x - q.x;
      y := y - q.y;
      z := z - q.z;
      w := w - q.w;
      r := Value();
    }

    /** operator*=(FQuat): both operands are copied before any field is written, so the
        new value is the Hamilton product of the old ones, even when other is this object. */
    method MulAssign(other: QuatVar) returns (r: Quat)
      modifies this
      ensures Value() == Hamilton(old(Value()), old(other.Value())) && r == Value()
    {
      var p := Value();
      var q := other.Value();
      var product := Hamilton(p, q);
      x := product.x;
      y := product.y;
      z := product.z;
      w := product.w;
      r := Value();
    }

    /** operator*=(float): every field times s. */
    method ScaleAssign(s: real) returns (r: Quat)
      modifies this
      ensures Value() == Scale(old(Value()), s) && r == Value()
    {
      x := x * s;
      y := y * s;
      z := z * s;
      w := w * s;
      r := Value();
    }

    /** operator/=(float): every field divided by s, which must not be 0. */
    method DivAssign(s: real) returns (r: Quat)
      requires s != 0.0
      modifies this
      ensures Value() == DivScalar(old(Value()), s) && r == Value()
    {
      x := x / s;
      y := y / s;
      z := z / s;
      w := w / s;
      r := Value();
    }

    /** operator+: a copy of this with q added. */
    method Plus(q: QuatVar) returns (r: Quat)
      ensures r == Add(Value(), q.Value())
    {
      var c := new QuatVar.Copy(this);
      r := c.AddAssign(q);
    }

    /** operator-: a copy of this with q subtracted. */
    method Minus(q: QuatVar) returns (r: Quat)
      ensures r == Sub(Value(), q.Value())
    {
      var c := new QuatVar.Copy(this);
      r := c.SubAssign(q);
    }

    /** operator*(FQuat): a copy of this multiplied by p, the same value as cross(p). */
    method Times(p: QuatVar) returns (r: Quat)
      ensures r == Hamilton(Value(), p.Value())
    {
      var c := new QuatVar.Copy(this);
      r := c.MulAssign(p);
    }

    /** operator*(float): a copy of this scaled by s. */
    method TimesScalar(s: real) returns (r: Quat)
      ensures r == Scale(Value(), s)
    {
      var c := new QuatVar.Copy(this);
      r := c.ScaleAssign(s);
    }

    /** fromMatrix3(m): the branch of the four that the trace and the diagonal select
        overwrites all four fields, and a copy of the new value is returned. `root` is the
        value of sqrtf in that branch. */
    method FromMatrix3(m: Mat3, root: real) returns (r: Quat)
      requires IsSqrt(QuatMatrix.Radicand(m), root)
      modifies this
      ensures Value() == QuatMatrix.FromMatrix3(m, root) && r == Value()
    {
      var trace := m[0][0] + m[1][1] + m[2][2];
      var s := root * 2.0;
      QuatMatrix.RootAtLeastOne(QuatMatrix.Radicand(m), root);
      if trace > 0.0 {
        x := (m[2][1] - m[1][2]) / s;
        y := (m[0][2] - m[2][0]) / s;
        z := (m[1][0] - m[0][1]) / s;
        w := 0.25 * s;
      } else if m[0][0] > m[1][1] && m[0][0] > m[2][2] {
        x := 0.25 * s;
        y := (m[0][1] + m[1][0]) / s;
        z := (m[0][2] + m[2][0]) / s;
        w := (m[2][1] - m[1][2]) / s;
      } else if m[1][1] > m[2][2] {
        x := (m[0][1] + m[1][0]) / s;
        y := 0.25 * s;
        z := (m[1][2] + m[2][1]) / s;
        w := (m[0][2] - m[2][0]) / s;
      } else {
        x := (m[0][2] + m[2][0]) / s;
        y := (m[1][2] + m[2][1]) / s;
        z := 0.25 * s;
        w := (m[1][0] - m[0][1]) / s;
      }
      r := Value();
    }
  }

  /** `q *= q`: operator*= reads copies, so a quaternion multiplied by itself in place
      becomes its square. */
  method SquareInPlace(q: QuatVar)
    modifies q
    ensures q.Value() == Hamilton(old(q.Value()), old(q.Value()))
  {
    var _ := q.MulAssign(q);
  }
}
