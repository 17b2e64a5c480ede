/** The float 3-vector FVec3 (Vec3/FVec3.cpp). Its value type Vec3 is also the 3-vector
    of the double copy DVec3, of the quaternions and of the 3x3 matrices. */
module FVec3 {
  import opened Utilities

  datatype Vec3 = Vec3(x: real, y: real, z: real)

  const Zero: Vec3 := Vec3(0.0, 0.0, 0.0)
  const One: Vec3 := Vec3(1.0, 1.0, 1.0)
  const Forward: Vec3 := Vec3(0.0, 0.0, 1.0)
  const Right: Vec3 := Vec3(1.0, 0.0, 0.0)
  const Up: Vec3 := Vec3(0.0, 1.0, 0.0)

  function Add(a: Vec3, b: Vec3): Vec3
  {
    Vec3(a.x + b.x, a.y + b.y, a.z + b.z)
  }

  function Substract(a: Vec3, b: Vec3): Vec3
  {
    Vec3(a.x - b.x, a.y - b.y, a.z - b.z)
  }

  /** Multiply(v, s), also `v * s` and the free `s * v`. */
  function Multiply(v: Vec3, s: real): Vec3
  {
    Vec3(v.x * s, v.y * s, v.z * s)
  }

  /** Unary minus, written `operator*(-1)`. */
  function Negate(v: Vec3): Vec3
  {
    Multiply(v, -1.0)
  }

  /** Adding and subtracting the same vector cancel, in either order, and v + (-v) is Zero. */
  lemma AddSubstractInverse(a: Vec3, b: Vec3)
    ensures Substract(Add(a, b), b) == a
    ensures Add(Substract(a, b), b) == a
    ensures Add(a, Negate(a)) == Zero
    ensures Substract(a, b) == Add(a, Negate(b))
  {
  }

  /** Divide throws logic_error for a zero scalar; otherwise it divides every component,
      so multiplying the quotient back by the scalar restores the vector. */
  function Divide(v: Vec3, s: real): (r: Result<Vec3>)
    ensures r.Throws? <==> s == 0.0
    ensures r.Throws? ==> r.error.LogicError?
    ensures r.Ok? ==> Multiply(r.value, s) == v
  {
    if s == 0.0 then Throws(LogicError("Division by 0"))
    else Ok(Vec3(v.x / s, v.y / s, v.z / s))
  }

  /** The free `scalar / v` divides v's components by the scalar without Divide's check. */
  function ScalarDivide(s: real, v: Vec3): (r: Vec3)
    requires s != 0.0
    ensures Multiply(r, s) == v
    ensures Divide(v, s) == Ok(r)
  {
    Vec3(v.x / s, v.y / s, v.z / s)
  }

  /** The free componentwise `v * w`. */
  function Hadamard(a: Vec3, b: Vec3): Vec3
  {
    Vec3(a.x * b.x, a.y * b.y, a.z * b.z)
  }

  /** The componentwise product is commutative and has One as its unit. */
  lemma HadamardCommutes(a: Vec3, b: Vec3)
    ensures Hadamard(a, b) == Hadamard(b, a)
    ensures Hadamard(a, One) == a
  {
  }

  function Dot(a: Vec3, b: Vec3): real
  {
    a.x * b.x + a.y * b.y + a.z * b.z
  }

  /** The squared length, the radicand of Length (DVec3 exposes it as Length2). It is
      never negative and is zero exactly for the zero vector. */
  function Length2(v: Vec3): (r: real)
    ensures r == Dot(v, v)
    ensures r >= 0.0
    ensures r == 0.0 <==> v == Zero
  {
    SquareNonNegative(v.x);
    SquareNonNegative(v.y);
    SquareNonNegative(v.z);
    v.x * v.x + v.y * v.y + v.z * v.z
  }

  /** A square is non-negative, and zero only for zero. */
  lemma SquareNonNegative(a: real)
    ensures a * a >= 0.0
    ensures a * a == 0.0 <==> a == 0.0
  {
    if a != 0.0 {
      if a > 0.0 {
        SquareStrictlyMonotone(0.0, a);
      } else {
        SquareStrictlyMonotone(0.0, -a);
      }
    }
  }

  /** Scaling a vector by s scales its squared length by s*s. */
  lemma Length2Multiply(v: Vec3, s: real)
    ensures Length2(Multiply(v, s)) == s * s * Length2(v)
  {
  }

  /** Cross is orthogonal to both of its arguments. */
  function Cross(a: Vec3, b: Vec3): (r: Vec3)
    ensures Dot(a, r) == 0.0
    ensures Dot(b, r) == 0.0
  {
    Vec3(a.y * b.z - a.z * b.y, a.z * b.x - a.x * b.z, a.x * b.y - a.y * b.x)
  }

  /** Cross is anti-symmetric, so a vector crossed with itself is Zero. */
  lemma CrossAntiSymmetric(a: Vec3, b: Vec3)
    ensures Cross(a, b) == Negate(Cross(b, a))
    ensures Cross(a, a) == Zero
  {
  }

  /** Normalize, with `length` the value of Length(v) = sqrt(Length2(v)). A vector whose
      length is not positive becomes Zero; any other becomes a vector of length 1 that is
      v divided by its length, so that scaling it back by the length gives v. */
  function Normalize(v: Vec3, length: real): (r: Vec3)
    requires IsSqrt(Length2(v), length)
    ensures v == Zero ==> r == Zero
    ensures v != Zero ==> Length2(r) == 1.0 && Multiply(r, length) == v
  {
    SqrtPositive(Length2(v), length);
    if length > 0.0 then
      var k := 1.0 / length;
      Length2Multiply(v, k);
      assert k * k * (length * length) == 1.0;
      Vec3(v.x * k, v.y * k, v.z * k)
    else
      Zero
  }

  /** Lerp is `start + (end - start) * alpha`: it gives start at alpha 0 and end at alpha 1. */
  function Lerp(start: Vec3, end: Vec3, alpha: real): (r: Vec3)
    ensures alpha == 0.0 ==> r == start
    ensures alpha == 1.0 ==> r == end
  {
    Add(start, Multiply(Substract(end, start), alpha))
  }

  /** Project scales the normal by Dot(target, normal), without dividing by the normal's
      squared length. For a unit normal what is left over is orthogonal to the normal. */
  function Project(target: Vec3, normal: Vec3): (r: Vec3)
    ensures r == Multiply(normal, Dot(target, normal))
    ensures Dot(normal, normal) == 1.0 ==> Dot(Substract(target, r), normal) == 0.0
  {
    var dot := Dot(target, normal);
    var r := Vec3(normal.x * dot, normal.y * dot, normal.z * dot);
    assert Dot(Substract(target, r), normal) == dot - dot * Dot(normal, normal);
    r
  }

  /** Projecting onto a unit normal twice is projecting once. */
  lemma {:induction false} ProjectIdempotent(target: Vec3, normal: Vec3)
    requires Dot(normal, normal) == 1.0
    ensures Project(Project(target, normal), normal) == Project(target, normal)
  {
    var p := Project(target, normal);
    var d := Dot(target, normal);
    assert Dot(p, normal) == d * Dot(normal, normal);
  }

  /** Reflect is `target - normal * 2 * Dot(target, normal)`. */
  function Reflect(target: Vec3, normal: Vec3): Vec3
  {
    Substract(target, Multiply(Multiply(normal, 2.0), Dot(target, normal)))
  }

  /** For a unit normal Reflect flips the component along the normal and keeps the
      squared length. */
  lemma {:induction false} ReflectUnitNormal(target: Vec3, normal: Vec3)
    requires Dot(normal, normal) == 1.0
    ensures Dot(Reflect(target, normal), normal) == -Dot(target, normal)
    ensures Length2(Reflect(target, normal)) == Length2(target)
  {
    ReflectUnfold(target, normal);
    ReflectFlipsNormalPart(target, normal, 2.0 * Dot(target, normal));
    ReflectKeepsLength2(target, normal, 2.0 * Dot(target, normal));
  }

  /** Reflect subtracts the normal scaled by twice the dot product. */
  lemma ReflectUnfold(target: Vec3, normal: Vec3)
    ensures Reflect(target, normal) == Substract(target, Multiply(normal, 2.0 * Dot(target, normal)))
  {
    MultiplyTwice(normal, 2.0, Dot(target, normal));
  }

  /** Scaling by a and then by b is scaling by a * b. */
  lemma MultiplyTwice(v: Vec3, a: real, b: real)
    ensures Multiply(Multiply(v, a), b) == Multiply(v, a * b)
  {
  }

  /** The normal component of `target - normal * c` for c = 2 (target . normal). */
  lemma ReflectFlipsNormalPart(target: Vec3, normal: Vec3, c: real)
    requires Dot(normal, normal) == 1.0 && c == 2.0 * Dot(target, normal)
    ensures Dot(Substract(target, Multiply(normal, c)), normal) == -Dot(target, normal)
  {
    DotSubstractMultiple(target, normal, c);
  }

  /** The squared length of `target - normal * c` for c = 2 (target . normal). */
  lemma ReflectKeepsLength2(target: Vec3, normal: Vec3, c: real)
    requires Dot(normal, normal) == 1.0 && c == 2.0 * Dot(target, normal)
    ensures Length2(Substract(target, Multiply(normal, c))) == Length2(target)
  {
    Length2SubstractMultiple(target, normal, c);
    assert c * c * Length2(normal) == c * c;
    assert 2.0 * c * Dot(target, normal) == c * c;
  }

  /** The dot product of `a - b * c` with b, expanded. */
  lemma DotSubstractMultiple(a: Vec3, b: Vec3, c: real)
    ensures Dot(Substract(a, Multiply(b, c)), b) == Dot(a, b) - c * Dot(b, b)
  {
  }

  /** The squared length of `a - b * c`, expanded. */
  lemma Length2SubstractMultiple(a: Vec3, b: Vec3, c: real)
    ensures Length2(Substract(a, Multiply(b, c)))
            == Length2(a) - 2.0 * c * Dot(a, b) + c * c * Length2(b)
  {
  }

  /** Reflecting twice in the same unit normal gives back the original vector. */
  lemma {:induction false} ReflectInvolution(target: Vec3, normal: Vec3)
    requires Dot(normal, normal) == 1.0
    ensures Reflect(Reflect(target, normal), normal) == target
  {
    var c := 2.0 * Dot(target, normal);
    var r := Reflect(target, normal);
    ReflectUnitNormal(target, normal);
    ReflectUnfold(target, normal);
    ReflectUnfold(r, normal);
    assert 2.0 * Dot(r, normal) == -c;
    SubstractAddBack(target, normal, c);
  }

  /** Subtracting v * c and then v * (-c) gives back the vector. */
  lemma SubstractAddBack(a: Vec3, v: Vec3, c: real)
    ensures Substract(Substract(a, Multiply(v, c)), Multiply(v, -c)) == a
  {
  }

  /** The radicand k = 1 - eta^2 (1 - dot^2) of Refract. */
  function RefractK(target: Vec3, normal: Vec3, eta: real): real
  {
    var dot := Dot(target, normal);
    1.0 - eta * eta * (1.0 - dot * dot)
  }

  /** Refract, with `root` the value of sqrtf(k) when k is not negative. A negative k
      (total internal reflection) gives Zero. Otherwise, for a unit normal, the refracted
      ray's component along the normal is -sqrt(k), and its part across the normal is the
      incoming ray's part across the normal scaled by eta (Snell's law). */
  function Refract(target: Vec3, normal: Vec3, eta: real, root: real): (r: Vec3)
    requires RefractK(target, normal, eta) >= 0.0 ==> IsSqrt(RefractK(target, normal, eta), root)
    ensures RefractK(target, normal, eta) < 0.0 ==> r == Zero
    ensures RefractK(target, normal, eta) >= 0.0 && Dot(normal, normal) == 1.0 ==>
              Dot(r, normal) == -root
    ensures RefractK(target, normal, eta) >= 0.0 && Dot(normal, normal) == 1.0 ==>
              Substract(r, Multiply(normal, Dot(r, normal)))
                == Multiply(Substract(target, Multiply(normal, Dot(target, normal))), eta)
  {
    var dot := Dot(target, normal);
    var k := RefractK(target, normal, eta);
    if k < 0.0 then Zero
    else
      var r := Substract(Multiply(target, eta), Multiply(normal, eta * dot + root));
      RefractAcross(target, normal, eta, root);
      r
  }

  /** The non-negative branch of Refract against a unit normal: the normal component is
      -root, and what is left is eta times the incoming ray's part across the normal. */
  lemma {:induction false} RefractAcross(target: Vec3, normal: Vec3, eta: real, root: real)
    ensures var r := Substract(Multiply(target, eta), Multiply(normal, eta * Dot(target, normal) + root));
            Dot(normal, normal) == 1.0 ==>
              Dot(r, normal) == -root &&
              Substract(r, Multiply(normal, Dot(r, normal)))
                == Multiply(Substract(target, Multiply(normal, Dot(target, normal))), eta)
  {
    var dot := Dot(target, normal);
    var c := eta * dot + root;
    var r := Substract(Multiply(target, eta), Multiply(normal, c));
    if Dot(normal, normal) == 1.0 {
      DotSubstractMultiple(Multiply(target, eta), normal, c);
      assert Dot(Multiply(target, eta), normal) == eta * dot;
      assert Dot(r, normal) == eta * dot - c;
    }
  }

  /** With eta = 1 (no change of medium) a ray that meets the surface against its normal
      passes through unchanged. */
  lemma {:induction false} RefractSameMedium(target: Vec3, normal: Vec3, root: real)
    requires Dot(target, normal) <= 0.0
    requires IsSqrt(RefractK(target, normal, 1.0), root)
    ensures Refract(target, normal, 1.0, root) == target
  {
    var dot := Dot(target, normal);
    assert RefractK(target, normal, 1.0) == dot * dot;
    assert IsSqrt(dot * dot, -dot);
    SqrtUnique(dot * dot, root, -dot);
  }

  /** True when every component of v lies between those of lo and hi. */
  predicate Between(lo: Vec3, v: Vec3, hi: Vec3)
  {
    lo.x <= v.x <= hi.x && lo.y <= v.y <= hi.y && lo.z <= v.z <= hi.z
  }

  /** Clamp applies lm::clamp to each component. With ordered bounds the result lies between
      them, and a vector already between them is returned unchanged. */
  function Clamp(target: Vec3, min: Vec3, max: Vec3): (r: Vec3)
    ensures Between(min, max, max) && Between(min, min, max) ==> Between(min, r, max)
    ensures Between(min, target, max) ==> r == target
  {
    Vec3(Utilities.Clamp(target.x, min.x, max.x),
         Utilities.Clamp(target.y, min.y, max.y),
         Utilities.Clamp(target.z, min.z, max.z))
  }

  /** operator[] and operator() (both overloads of each): 0, 1 and 2 select x, y and z,
      any other index throws out_of_range. */
  function Index(v: Vec3, i: int): (r: Result<real>)
    ensures r.Ok? <==> 0 <= i < 3
    ensures r.Throws? ==> r.error.OutOfRange?
    ensures r == Ok(v.x) <== i == 0
    ensures r == Ok(v.y) <== i == 1
    ensures r == Ok(v.z) <== i == 2
  {
    match i
    case 0 => Ok(v.x)
    case 1 => Ok(v.y)
    case 2 => Ok(v.z)
    case _ => Throws(OutOfRange("Index out of range"))
  }

  /** IsZero compares every component with 0: it holds exactly when the squared length is 0. */
  predicate IsZero(v: Vec3)
    ensures IsZero(v) <==> Length2(v) == 0.0
  {
    v.x == 0.0 && v.y == 0.0 && v.z == 0.0
  }

  /** An FVec3 object, whose compound operators and non-const operator[] write its fields. */
  class Vec3Var {
    var x: real
    var y: real
    var z: real

    function Value(): Vec3
      reads this
    {
      Vec3(x, y, z)
    }

    /** FVec3(x, y, z). */
    constructor(x0: real, y0: real, z0: real)
      ensures Value() == Vec3(x0, y0, z0)
    {
      x, y, z := x0, y0, z0;
    }

    /** FVec3(): every coordinate defaults to 0. */
    constructor Default()
      ensures Value() == Zero
    {
      x, y, z := 0.0, 0.0, 0.0;
    }

    /** operator=. */
    method Assign(other: Vec3)
      modifies this
      ensures Value() == other
    {
      x, y, z := other.x, other.y, other.z;
    }

    /** operator+=. */
    method AddAssign(other: Vec3)
      modifies this
      ensures Value() == Add(old(Value()), other)
    {
      var r := Add(Value(), other);
      x, y, z := r.x, r.y, r.z;
    }

    /** operator-=. */
    method SubstractAssign(other: Vec3)
      modifies this
      ensures Value() == Substract(old(Value()), other)
    {
      var r := Substract(Value(), other);
      x, y, z := r.x, r.y, r.z;
    }

    /** operator*=. */
    method MultiplyAssign(s: real)
      modifies this
      ensures Value() == Multiply(old(Value()), s)
    {
      var r := Multiply(Value(), s);
      x, y, z := r.x, r.y, r.z;
    }

    /** operator/=: Divide throws before the assignment, so a zero scalar leaves the
        vector as it was. */
    method DivideAssign(s: real) returns (r: Result<Vec3>)
      modifies this
      ensures r == Divide(old(Value()), s)
      ensures r.Ok? ==> Value() == r.value
      ensures r.Throws? ==> Value() == old(Value())
    {
      r := Divide(Value(), s);
      if r.Ok? {
        x, y, z := r.value.x, r.value.y, r.value.z;
      }
    }

    /** A write through the non-const operator[] (or operator()): index 0..2 stores into
        that component, any other index throws out_of_range and writes nothing. */
    method SetAt(i: int, value: real) returns (r: Result<real>)
      modifies this
      ensures r.Ok? <==> 0 <= i < 3
      ensures r.Throws? ==> r.error.OutOfRange? && Value() == old(Value())
      ensures i == 0 ==> Value() == old(Value()).(x := value)
      ensures i == 1 ==> Value() == old(Value()).(y := value)
      ensures i == 2 ==> Value() == old(Value()).(z := value)
      ensures r.Ok? ==> Index(Value(), i) == Ok(value)
    {
      if i == 0 {
        x := value;
      } else if i == 1 {
        y := value;
      } else if i == 2 {
        z := value;
      } else {
        return Throws(OutOfRange("Index out of range"));
      }
      r := Ok(value);
    }
  }
}
