/** The float 4-vector FVec4 (Vec4/FVec4.cpp), also the 4-vector the matrices and the
    template quaternion work with. */
module FVec4 {
  import opened Utilities
  import FVec3

  datatype Vec4 = Vec4(x: real, y: real, z: real, w: real)

  const Zero4: Vec4 := Vec4(0.0, 0.0, 0.0, 0.0)
  const One4: Vec4 := Vec4(1.0, 1.0, 1.0, 1.0)

  /** FVec4(FVec3 v, float w = 0): copies x, y and z and sets w. */
  function FromVec3(v: FVec3.Vec3, w: real := 0.0): (r: Vec4)
    ensures FVec3.Vec3(r.x, r.y, r.z) == v && r.w == w
  {
    Vec4(v.x, v.y, v.z, w)
  }

  /** With its default fourth argument the conversion gives w = 0. */
  lemma FromVec3Default(v: FVec3.Vec3)
    ensures FromVec3(v).w == 0.0
    ensures FromVec3(v) == FromVec3(v, 0.0)
  {
  }

  function Add(a: Vec4, b: Vec4): Vec4
  {
    Vec4(a.x + b.x, a.y + b.y, a.z + b.z, a.w + b.w)
  }

  function Substract(a: Vec4, b: Vec4): Vec4
  {
    Vec4(a.x - b.x, a.y - b.y, a.z - b.z, a.w - b.w)
  }

  /** Multiply(v, s), also `v * s` and the free `s * v`. */
  function Multiply(v: Vec4, s: real): Vec4
  {
    Vec4(v.x * s, v.y * s, v.z * s, v.w * s)
  }

  /** Unary minus, written `operator*(-1)`. */
  function Negate(v: Vec4): Vec4
  {
    Multiply(v, -1.0)
  }

  /** Adding and subtracting the same vector cancel, and v + (-v) is Zero4. */
  lemma AddSubstractInverse(a: Vec4, b: Vec4)
    ensures Substract(Add(a, b), b) == a
    ensures Add(Substract(a, b), b) == a
    ensures Add(a, Negate(a)) == Zero4
  {
  }

  /** Divide, and the free `scalar / v` that calls it: logic_error for a zero scalar,
      otherwise componentwise, so that multiplying back restores the vector. */
  function Divide(v: Vec4, s: real): (r: Result<Vec4>)
    ensures r.Throws? <==> s == 0.0
    ensures r.Throws? ==> r.error.LogicError?
    ensures r.Ok? ==> Multiply(r.value, s) == v
  {
    if s == 0.0 then Throws(LogicError("Division by 0"))
    else Ok(Vec4(v.x / s, v.y / s, v.z / s, v.w / s))
  }

  function Dot(a: Vec4, b: Vec4): real
  {
    a.x * b.x + a.y * b.y + a.z * b.z + a.w * b.w
  }

  /** The radicand of Length: never negative, and zero exactly for the zero vector. */
  function Length2(v: Vec4): (r: real)
    ensures r == Dot(v, v)
    ensures r >= 0.0
    ensures r == 0.0 <==> v == Zero4
  {
    FVec3.SquareNonNegative(v.x);
    FVec3.SquareNonNegative(v.y);
    FVec3.SquareNonNegative(v.z);
    FVec3.SquareNonNegative(v.w);
    v.x * v.x + v.y * v.y + v.z * v.z + v.w * v.w
  }

  /** Scaling a vector by s scales its squared length by s*s. */
  lemma Length2Multiply(v: Vec4, s: real)
    ensures Length2(Multiply(v, s)) == s * s * Length2(v)
  {
  }

  /** Normalize, with `length` the value of Length(v): Zero4 when the length is not
      positive, otherwise a vector of length 1 that scales back to v. */
  function Normalize(v: Vec4, length: real): (r: Vec4)
    requires IsSqrt(Length2(v), length)
    ensures v == Zero4 ==> r == Zero4
    ensures v != Zero4 ==> Length2(r) == 1.0 && Multiply(r, length) == v
  {
    SqrtPositive(Length2(v), length);
    if length > 0.0 then
      var k := 1.0 / length;
      Length2Multiply(v, k);
      assert k * k * (length * length) == 1.0;
      Vec4(v.x * k, v.y * k, v.z * k, v.w * k)
    else
      Zero4
  }

  /** Lerp gives start at alpha 0 and end at alpha 1. */
  function Lerp(start: Vec4, end: Vec4, alpha: real): (r: Vec4)
    ensures alpha == 0.0 ==> r == start
    ensures alpha == 1.0 ==> r == end
  {
    Add(start, Multiply(Substract(end, start), alpha))
  }

  /** The threshold above which Slerp falls back to Lerp. */
  const SLERP_THRESHOLD: real := 0.9995

  /** The part of Slerp the model covers: when the plain dot product exceeds 0.9995
      (no absolute value is taken) the result is Lerp; otherwise Slerp goes on to acos,
      cos and sin, which the model leaves out, and this gives None. */
  function SlerpFallback(start: Vec4, end: Vec4, alpha: real): (r: Option<Vec4>)
    ensures r.Some? <==> Dot(start, end) > SLERP_THRESHOLD
    ensures r.Some? ==> r.value == Lerp(start, end, alpha)
  {
    if Dot(start, end) > SLERP_THRESHOLD then Some(Lerp(start, end, alpha)) else None
  }

  /** Without the absolute value, two opposite unit vectors never take the fallback. */
  lemma SlerpOppositeNoFallback(v: Vec4, alpha: real)
    requires Length2(v) == 1.0
    ensures SlerpFallback(v, Negate(v), alpha) == None
  {
    var n := Negate(v);
    assert n.x == -v.x && n.y == -v.y && n.z == -v.z && n.w == -v.w;
    assert v.x * n.x == -(v.x * v.x) && v.y * n.y == -(v.y * v.y);
    assert v.z * n.z == -(v.z * v.z) && v.w * n.w == -(v.w * v.w);
    assert Dot(v, n) == -Length2(v);
  }

  /** True when every component of v lies between those of lo and hi. */
  predicate Between(lo: Vec4, v: Vec4, hi: Vec4)
  {
    lo.x <= v.x <= hi.x && lo.y <= v.y <= hi.y && lo.z <= v.z <= hi.z && lo.w <= v.w <= hi.w
  }

  /** Clamp applies lm::clamp to each component: with ordered bounds the result lies between
      them, and a vector already between them is unchanged. */
  function Clamp(target: Vec4, min: Vec4, max: Vec4): (r: Vec4)
    ensures Between(min, max, max) && Between(min, min, max) ==> Between(min, r, max)
    ensures Between(min, target, max) ==> r == target
  {
    Vec4(Utilities.Clamp(target.x, min.x, max.x),
         Utilities.Clamp(target.y, min.y, max.y),
         Utilities.Clamp(target.z, min.z, max.z),
         Utilities.Clamp(target.w, min.w, max.w))
  }

  /** operator[] and operator(): 0..3 select x, y, z and w, any other index throws
      out_of_range. */
  function Index(v: Vec4, i: int): (r: Result<real>)
    ensures r.Ok? <==> 0 <= i < 4
    ensures r.Throws? ==> r.error.OutOfRange?
    ensures r == Ok(v.x) <== i == 0
    ensures r == Ok(v.y) <== i == 1
    ensures r == Ok(v.z) <== i == 2
    ensures r == Ok(v.w) <== i == 3
  {
    match i
    case 0 => Ok(v.x)
    case 1 => Ok(v.y)
    case 2 => Ok(v.z)
    case 3 => Ok(v.w)
    case _ => Throws(OutOfRange("Index out of range"))
  }

  /** IsHomogenized: the w coordinate is 1. */
  predicate IsHomogenized(v: Vec4)
  {
    v.w == 1.0
  }

  /** IsZero holds exactly when the squared length is 0. */
  predicate IsZero(v: Vec4)
    ensures IsZero(v) <==> Length2(v) == 0.0
  {
    v.x == 0.0 && v.y == 0.0 && v.z == 0.0 && v.w == 0.0
  }

  /** The value Homogenize leaves behind: x, y and z divided by a non-zero w and w set
      to 1; a vector with w = 0 stays as it is. */
  function Homogenized(v: Vec4): (r: Vec4)
    ensures v.w != 0.0 ==> IsHomogenized(r) && Multiply(r, v.w) == v
    ensures v.w == 0.0 ==> r == v
  {
    if v.w != 0.0 then Vec4(v.x / v.w, v.y / v.w, v.z / v.w, 1.0) else v
  }

  /** Homogenizing twice is homogenizing once, and a homogenized vector is a fixed point. */
  lemma HomogenizedIdempotent(v: Vec4)
    ensures Homogenized(Homogenized(v)) == Homogenized(v)
    ensures IsHomogenized(v) ==> Homogenized(v) == v
  {
  }

  /** An FVec4 object: its compound operators, Homogenize and the non-const operator[]
      write its fields. */
  class Vec4Var {
    var x: real
    var y: real
    var z: real
    var w: real

    function Value(): Vec4
      reads this
    {
      Vec4(x, y, z, w)
    }

    /** FVec4(x = 0, y = 0, z = 0, w = 0). */
    constructor(x0: real := 0.0, y0: real := 0.0, z0: real := 0.0, w0: real := 0.0)
      ensures Value() == Vec4(x0, y0, z0, w0)
    {
      x, y, z, w := x0, y0, z0, w0;
    }

    /** operator=. */
    method Assign(other: Vec4)
      modifies this
      ensures Value() == other
    {
      x, y, z, w := other.x, other.y, other.z, other.w;
    }

    /** operator+=. */
    method AddAssign(other: Vec4)
      modifies this
      ensures Value() == Add(old(Value()), other)
    {
      var r := Add(Value(), other);
      x, y, z, w := r.x, r.y, r.z, r.w;
    }

    /** operator-=. */
    method SubstractAssign(other: Vec4)
      modifies this
      ensures Value() == Substract(old(Value()), other)
    {
      var r := Substract(Value(), other);
      x, y, z, w := r.x, r.y, r.z, r.w;
    }

    /** operator*=. */
    method MultiplyAssign(s: real)
      modifies this
      ensures Value() == Multiply(old(Value()), s)
    {
      var r := Multiply(Value(), s);
      x, y, z, w := r.x, r.y, r.z, r.w;
    }

    /** operator/=: a zero scalar throws before the assignment and changes nothing. */
    method DivideAssign(s: real) returns (r: Result<Vec4>)
      modifies this
      ensures r == Divide(old(Value()), s)
      ensures r.Ok? ==> Value() == r.value
      ensures r.Throws? ==> Value() == old(Value())
    {
      r := Divide(Value(), s);
      if r.Ok? {
        x, y, z, w := r.value.x, r.value.y, r.value.z, r.value.w;
      }
    }

    /** Homogenize: if w is not 0, divides x, y and z by w in turn and then sets w to 1,
        after which IsHomogenized holds; with w = 0 nothing changes. */
    method Homogenize()
      modifies this
      ensures Value() == Homogenized(old(Value()))
      ensures IsHomogenized(Value()) <==> old(w) != 0.0 || old(w) == 1.0
    {
      if w != 0.0 {
        x := x / w;
        y := y / w;
        z := z / w;
        w := 1.0;
      }
    }

    /** A write through the non-const operator[] (or operator()): 0..3 store into that
        component, any other index throws out_of_range and writes nothing. */
    method SetAt(i: int, value: real) returns (r: Result<real>)
      modifies this
      ensures r.Ok? <==> 0 <= i < 4
      ensures r.Throws? ==> r.error.OutOfRange? && Value() == old(Value())
      ensures r.Ok? ==> Index(Value(), i) == Ok(value)
      ensures r.Ok? ==> forall j :: 0 <= j < 4 && j != i ==> Index(Value(), j) == Index(old(Value()), j)
    {
      if i == 0 {
        x := value;
      } else if i == 1 {
        y := value;
      } else if i == 2 {
        z := value;
      } else if i == 3 {
        w := value;
      } else {
        return Throws(OutOfRange("Index out of range"));
      }
      r := Ok(value);
    }
  }

  /** A client of Homogenize: calling it twice leaves what calling it once leaves. */
  method HomogenizeTwice(v: Vec4Var)
    modifies v
    ensures v.Value() == Homogenized(old(v.Value()))
  {
    v.Homogenize();
    v.Homogenize();
    HomogenizedIdempotent(old(v.Value()));
  }
}
