/** The float 2-vector FVec2 (Vec2/FVec2.cpp). */
module FVec2 {
  import opened Utilities
  import FVec3

  datatype Vec2 = Vec2(x: real, y: real)

  const Zero2: Vec2 := Vec2(0.0, 0.0)
  const One2: Vec2 := Vec2(1.0, 1.0)

  function Add(a: Vec2, b: Vec2): Vec2
  {
    Vec2(a.x + b.x, a.y + b.y)
  }

  function Substract(a: Vec2, b: Vec2): Vec2
  {
    Vec2(a.x - b.x, a.y - b.y)
  }

  /** Multiply(v, s), also `v * s` and the free `s * v`. */
  function Multiply(v: Vec2, s: real): Vec2
  {
    Vec2(v.x * s, v.y * s)
  }

  /** Unary minus, written `operator*(-1)`. */
  function Negate(v: Vec2): Vec2
  {
    Multiply(v, -1.0)
  }

  /** Adding and subtracting the same vector cancel, and v + (-v) is Zero2. */
  lemma AddSubstractInverse(a: Vec2, b: Vec2)
    ensures Substract(Add(a, b), b) == a
    ensures Add(Substract(a, b), b) == a
    ensures Add(a, Negate(a)) == Zero2
  {
  }

  /** Divide, and the free `scalar / v` that calls it: logic_error for a zero scalar,
      otherwise componentwise, so that multiplying back restores the vector. */
  function Divide(v: Vec2, s: real): (r: Result<Vec2>)
    ensures r.Throws? <==> s == 0.0
    ensures r.Throws? ==> r.error.LogicError?
    ensures r.Ok? ==> Multiply(r.value, s) == v
  {
    if s == 0.0 then Throws(LogicError("Division by 0"))
    else Ok(Vec2(v.x / s, v.y / s))
  }

  function Dot(a: Vec2, b: Vec2): real
  {
    a.x * b.x + a.y * b.y
  }

  /** The radicand of Length: never negative, and zero exactly for the zero vector. */
  function Length2(v: Vec2): (r: real)
    ensures r == Dot(v, v)
    ensures r >= 0.0
    ensures r == 0.0 <==> v == Zero2
  {
    FVec3.SquareNonNegative(v.x);
    FVec3.SquareNonNegative(v.y);
    v.x * v.x + v.y * v.y
  }

  /** Scaling a vector by s scales its squared length by s*s. */
  lemma Length2Multiply(v: Vec2, s: real)
    ensures Length2(Multiply(v, s)) == s * s * Length2(v)
  {
  }

  /** Normalize, with `length` the value of Length(v): Zero2 when the length is not
      positive, otherwise a vector of length 1 that scales back to v. */
  function Normalize(v: Vec2, length: real): (r: Vec2)
    requires IsSqrt(Length2(v), length)
    ensures v == Zero2 ==> r == Zero2
    ensures v != Zero2 ==> Length2(r) == 1.0 && Multiply(r, length) == v
  {
    SqrtPositive(Length2(v), length);
    if length > 0.0 then
      var k := 1.0 / length;
      Length2Multiply(v, k);
      assert k * k * (length * length) == 1.0;
      Vec2(v.x * k, v.y * k)
    else
      Zero2
  }

  /** Lerp gives start at alpha 0 and end at alpha 1. */
  function Lerp(start: Vec2, end: Vec2, alpha: real): (r: Vec2)
    ensures alpha == 0.0 ==> r == start
    ensures alpha == 1.0 ==> r == end
  {
    Add(start, Multiply(Substract(end, start), alpha))
  }

  /** The threshold above which Slerp falls back to Lerp. */
  const SLERP_THRESHOLD: real := 0.9995

  /** The part of Slerp the model covers: the dot product is first replaced by its absolute
      value, and when that exceeds 0.9995 the result is Lerp; otherwise Slerp goes on to
      acos and sin, which the model leaves out, and this gives None. */
  function SlerpFallback(start: Vec2, end: Vec2, alpha: real): (r: Option<Vec2>)
    ensures r.Some? <==> Dot(start, end) > SLERP_THRESHOLD || Dot(start, end) < -SLERP_THRESHOLD
    ensures r.Some? ==> r.value == Lerp(start, end, alpha)
  {
    var dot := Dot(start, end);
    var dot := if dot < 0.0 then -dot else dot;
    if dot > SLERP_THRESHOLD then Some(Lerp(start, end, alpha)) else None
  }

  /** Because of the absolute value, two opposite unit vectors take the Lerp fallback,
      which passes through the zero vector halfway. */
  lemma SlerpOppositeFallback(v: Vec2)
    requires Length2(v) == 1.0
    ensures SlerpFallback(v, Negate(v), 0.5) == Some(Zero2)
  {
    var n := Negate(v);
    assert n.x == -v.x && n.y == -v.y;
    assert v.x * n.x == -(v.x * v.x) && v.y * n.y == -(v.y * v.y);
    assert Dot(v, n) == -1.0;
  }

  /** Reflect is `target - 2 * Dot(target, normal) * normal`. */
  function Reflect(target: Vec2, normal: Vec2): Vec2
  {
    Substract(target, Multiply(normal, 2.0 * Dot(target, normal)))
  }

  /** For a unit normal Reflect flips the component along the normal and keeps the
      squared length. */
  lemma {:induction false} ReflectUnitNormal(target: Vec2, normal: Vec2)
    requires Dot(normal, normal) == 1.0
    ensures Dot(Reflect(target, normal), normal) == -Dot(target, normal)
    ensures Length2(Reflect(target, normal)) == Length2(target)
  {
    var d := Dot(target, normal);
    var c := 2.0 * d;
    var r := Reflect(target, normal);
    assert Dot(r, normal) == d - c * Dot(normal, normal);
    assert Length2(r) == Length2(target) - 2.0 * c * d + c * c * Dot(normal, normal);
    assert c * c * Dot(normal, normal) == c * c;
    assert 2.0 * c * d == c * c;
  }

  /** Reflecting twice in the same unit normal gives back the original vector. */
  lemma {:induction false} ReflectInvolution(target: Vec2, normal: Vec2)
    requires Dot(normal, normal) == 1.0
    ensures Reflect(Reflect(target, normal), normal) == target
  {
    var d := Dot(target, normal);
    var r := Reflect(target, normal);
    ReflectUnitNormal(target, normal);
    assert Reflect(r, normal) == Substract(r, Multiply(normal, 2.0 * -d));
  }

  /** Project is `Dot(target, normal) * normal`, with no division by the normal's squared
      length: it is the orthogonal projection only for a unit normal, for which what is left
      over is orthogonal to the normal and projecting again changes nothing. */
  function Project(target: Vec2, normal: Vec2): (r: Vec2)
    ensures r == Multiply(normal, Dot(target, normal))
    ensures Dot(normal, normal) == 1.0 ==> Dot(Substract(target, r), normal) == 0.0
    ensures Dot(r, normal) == Dot(target, normal) * Dot(normal, normal)
  {
    var d := Dot(target, normal);
    var r := Multiply(normal, d);
    assert Dot(r, normal) == d * Dot(normal, normal);
    assert Dot(Substract(target, r), normal) == d - d * Dot(normal, normal);
    r
  }

  /** Projecting onto a unit normal twice is projecting once; for the normal (2, 0) of
      length 2 the result is four times too long. */
  lemma {:induction false} ProjectIdempotent(target: Vec2, normal: Vec2)
    requires Dot(normal, normal) == 1.0
    ensures Project(Project(target, normal), normal) == Project(target, normal)
    ensures Project(Vec2(1.0, 0.0), Vec2(2.0, 0.0)) == Vec2(4.0, 0.0)
  {
    assert Dot(Project(target, normal), normal) == Dot(target, normal);
  }

  /** True when every component of v lies between those of lo and hi. */
  predicate Between(lo: Vec2, v: Vec2, hi: Vec2)
  {
    lo.x <= v.x <= hi.x && lo.y <= v.y <= hi.y
  }

  /** Clamp applies lm::clamp to each component: with ordered bounds the result lies between
      them, and a vector already between them is unchanged. */
  function Clamp(target: Vec2, min: Vec2, max: Vec2): (r: Vec2)
    ensures Between(min, max, max) && Between(min, min, max) ==> Between(min, r, max)
    ensures Between(min, target, max) ==> r == target
  {
    Vec2(Utilities.Clamp(target.x, min.x, max.x), Utilities.Clamp(target.y, min.y, max.y))
  }

  /** operator[] and operator(): 0 and 1 select x and y, any other index throws
      out_of_range. */
  function Index(v: Vec2, i: int): (r: Result<real>)
    ensures r.Ok? <==> 0 <= i < 2
    ensures r.Throws? ==> r.error.OutOfRange?
    ensures r == Ok(v.x) <== i == 0
    ensures r == Ok(v.y) <== i == 1
  {
    match i
    case 0 => Ok(v.x)
    case 1 => Ok(v.y)
    case _ => Throws(OutOfRange("Index out of range"))
  }

  /** IsZero holds exactly when the squared length is 0. */
  predicate IsZero(v: Vec2)
    ensures IsZero(v) <==> Length2(v) == 0.0
  {
    v.x == 0.0 && v.y == 0.0
  }

  /** An FVec2 object, whose compound operators and non-const operator[] write its fields. */
  class Vec2Var {
    var x: real
    var y: real

    function Value(): Vec2
      reads this
    {
      Vec2(x, y)
    }

    /** FVec2(x = 0, y = 0). */
    constructor(x0: real := 0.0, y0: real := 0.0)
      ensures Value() == Vec2(x0, y0)
    {
      x, y := x0, y0;
    }

    /** operator=. */
    method Assign(other: Vec2)
      modifies this
      ensures Value() == other
    {
      x, y := other.x, other.y;
    }

    /** operator+=. */
    method AddAssign(other: Vec2)
      modifies this
      ensures Value() == Add(old(Value()), other)
    {
      var r := Add(Value(), other);
      x, y := r.x, r.y;
    }

    /** operator-=. */
    method SubstractAssign(other: Vec2)
      modifies this
      ensures Value() == Substract(old(Value()), other)
    {
      var r := Substract(Value(), other);
      x, y := r.x, r.y;
    }

    /** operator*=. */
    method MultiplyAssign(s: real)
      modifies this
      ensures Value() == Multiply(old(Value()), s)
    {
      var r := Multiply(Value(), s);
      x, y := r.x, r.y;
    }

    /** operator/=: a zero scalar throws before the assignment and changes nothing. */
    method DivideAssign(s: real) returns (r: Result<Vec2>)
      modifies this
      ensures r == Divide(old(Value()), s)
      ensures r.Ok? ==> Value() == r.value
      ensures r.Throws? ==> Value() == old(Value())
    {
      r := Divide(Value(), s);
      if r.Ok? {
        x, y := r.value.x, r.value.y;
      }
    }

    /** A write through the non-const operator[] (or operator()): 0 and 1 store into that
        component, any other index throws out_of_range and writes nothing. */
    method SetAt(i: int, value: real) returns (r: Result<real>)
      modifies this
      ensures r.Ok? <==> 0 <= i < 2
      ensures r.Throws? ==> r.error.OutOfRange? && Value() == old(Value())
      ensures i == 0 ==> Value() == Vec2(value, old(y))
      ensures i == 1 ==> Value() == Vec2(old(x), value)
    {
      if i == 0 {
        x := value;
      } else if i == 1 {
        y := value;
      } else {
        return Throws(OutOfRange("Index out of range"));
      }
      r := Ok(value);
    }
  }
}
