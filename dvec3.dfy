/** The double 3-vector DVec3 (Vec3/DVec3.cpp). Over the reals double and float coincide,
    so DVec3 shares FVec3's value type Vec3 and every operation whose body is the same
    (Add, Substract, Multiply, Divide, Dot, Length2, Cross, Normalize, Lerp, Reflect,
    Refract, Clamp, indexing, IsZero). What is particular to DVec3 is here. */
module DVec3 {
  import opened Utilities
  import FVec3
  import FVec4

  type Vec3 = FVec3.Vec3

  /** DVec3(double init): all three components set to init. */
  function Splat(init: real): (r: Vec3)
    ensures FVec3.Multiply(FVec3.One, init) == r
  {
    FVec3.Vec3(init, init, init)
  }

  /** DVec3(const FVec4&): copies x, y and z and drops w. */
  function FromVec4(v: FVec4.Vec4): (r: Vec3)
    ensures FVec4.FromVec3(r, v.w) == v
  {
    FVec3.Vec3(v.x, v.y, v.z)
  }

  /** Converting a 3-vector to a 4-vector and back gives the 3-vector, whatever w was. */
  lemma FromVec4RoundTrip(v: Vec3, w: real)
    ensures FromVec4(FVec4.FromVec3(v, w)) == v
  {
  }

  /** The factor DVec3::Project scales the normal by: 0 for a normal of squared length 0,
      otherwise Dot(target, normal) / Dot(normal, normal). */
  function ProjectFactor(target: Vec3, normal: Vec3): real
  {
    var bDotB := FVec3.Dot(normal, normal);
    if bDotB == 0.0 then 0.0 else FVec3.Dot(target, normal) / bDotB
  }

  /** DVec3::Project: Zero when the normal has squared length 0, otherwise the normal
      scaled by Dot(target, normal) / Dot(normal, normal). The result is a multiple of the
      normal, and what is left over is orthogonal to the normal. */
  function Project(target: Vec3, normal: Vec3): (r: Vec3)
    ensures FVec3.Dot(normal, normal) == 0.0 ==> r == FVec3.Zero
    ensures r == FVec3.Multiply(normal, ProjectFactor(target, normal))
    ensures FVec3.Dot(FVec3.Substract(target, r), normal) == 0.0
  {
    var aDotb := FVec3.Dot(target, normal);
    var bDotB := FVec3.Dot(normal, normal);
    ProjectResidual(target, normal);
    if bDotB == 0.0 then
      FVec3.Zero
    else
      FVec3.Multiply(normal, aDotb / bDotB)
  }

  /** The facts behind Project's contract, one branch at a time. */
  lemma ProjectResidual(target: Vec3, normal: Vec3)
    ensures FVec3.Dot(normal, normal) == 0.0 ==>
              normal == FVec3.Zero && FVec3.Multiply(normal, 0.0) == FVec3.Zero
    ensures FVec3.Dot(FVec3.Substract(target, FVec3.Multiply(normal, ProjectFactor(target, normal))), normal) == 0.0
  {
    if FVec3.Dot(normal, normal) == 0.0 {
      assert FVec3.Length2(normal) == 0.0;
      assert normal == FVec3.Zero;
      ZeroResidual(target);
    } else {
      ResidualOrthogonal(target, normal, ProjectFactor(target, normal));
    }
  }

  /** With the zero normal the residual is the target and orthogonal to it. */
  lemma ZeroResidual(target: Vec3)
    ensures FVec3.Multiply(FVec3.Zero, 0.0) == FVec3.Zero
    ensures FVec3.Dot(FVec3.Substract(target, FVec3.Multiply(FVec3.Zero, 0.0)), FVec3.Zero) == 0.0
  {
  }

  /** Removing the multiple Dot(target, n) / Dot(n, n) of a non-zero n leaves a vector
      orthogonal to n. */
  lemma ResidualOrthogonal(target: Vec3, normal: Vec3, t: real)
    requires FVec3.Dot(normal, normal) != 0.0
    requires t == FVec3.Dot(target, normal) / FVec3.Dot(normal, normal)
    ensures FVec3.Dot(FVec3.Substract(target, FVec3.Multiply(normal, t)), normal) == 0.0
  {
    FVec3.DotSubstractMultiple(target, normal, t);
    assert t * FVec3.Dot(normal, normal) == FVec3.Dot(target, normal);
  }

  /** Projecting a projection again changes nothing. */
  lemma {:induction false} ProjectIdempotent(target: Vec3, normal: Vec3)
    ensures Project(Project(target, normal), normal) == Project(target, normal)
  {
    var p := Project(target, normal);
    var bDotB := FVec3.Dot(normal, normal);
    if bDotB != 0.0 {
      var t := FVec3.Dot(target, normal) / bDotB;
      assert p == FVec3.Multiply(normal, t);
      assert FVec3.Dot(p, normal) == t * bDotB;
      assert FVec3.Dot(p, normal) / bDotB == t;
    }
  }

  /** DVec3's Project divides by Dot(normal, normal) and FVec3's does not: the two agree for
      a unit normal, and for the normal (2, 0, 0) FVec3's result is four times DVec3's. */
  lemma {:induction false} ProjectAgreesForUnitNormal(target: Vec3, normal: Vec3)
    requires FVec3.Dot(normal, normal) == 1.0
    ensures FVec3.Project(target, normal) == Project(target, normal)
    ensures FVec3.Project(FVec3.Vec3(1.0, 0.0, 0.0), FVec3.Vec3(2.0, 0.0, 0.0)) == FVec3.Vec3(4.0, 0.0, 0.0)
    ensures Project(FVec3.Vec3(1.0, 0.0, 0.0), FVec3.Vec3(2.0, 0.0, 0.0)) == FVec3.Vec3(1.0, 0.0, 0.0)
  {
    assert ProjectFactor(target, normal) == FVec3.Dot(target, normal);
    assert ProjectFactor(FVec3.Vec3(1.0, 0.0, 0.0), FVec3.Vec3(2.0, 0.0, 0.0)) == 0.5;
  }

  /** The const `operator/(const DVec3&)`: componentwise quotient, with no check for a
      zero component. Multiplying back componentwise restores the dividend. */
  function DivideComponents(a: Vec3, b: Vec3): (r: Vec3)
    requires b.x != 0.0 && b.y != 0.0 && b.z != 0.0
    ensures FVec3.Hadamard(r, b) == a
  {
    FVec3.Vec3(a.x / b.x, a.y / b.y, a.z / b.z)
  }

  /** The non-const `operator/(const DVec3&)`: overwrites the receiver with the
      componentwise quotient and returns it. */
  method DivideInPlace(self: FVec3.Vec3Var, other: Vec3) returns (r: Vec3)
    requires other.x != 0.0 && other.y != 0.0 && other.z != 0.0
    modifies self
    ensures r == DivideComponents(old(self.Value()), other)
    ensures self.Value() == r
  {
    var result := self.Value();
    result := result.(x := result.x / other.x);
    result := result.(y := result.y / other.y);
    result := result.(z := result.z / other.z);
    self.Assign(result);
    r := self.Value();
  }

  /** The free `operator/=(DVec3&, const DVec3&)`: divides the left operand componentwise
      in place. */
  method DivideAssign(left: FVec3.Vec3Var, right: Vec3) returns (r: Vec3)
    requires right.x != 0.0 && right.y != 0.0 && right.z != 0.0
    modifies left
    ensures left.Value() == DivideComponents(old(left.Value()), right)
    ensures r == left.Value()
  {
    left.x := left.x / right.x;
    left.y := left.y / right.y;
    left.z := left.z / right.z;
    r := left.Value();
  }

  /** The free `operator*=(DVec3&, const DVec3&)`: multiplies the left operand
      componentwise in place. */
  method MultiplyAssign(left: FVec3.Vec3Var, right: Vec3) returns (r: Vec3)
    modifies left
    ensures left.Value() == FVec3.Hadamard(old(left.Value()), right)
    ensures r == left.Value()
  {
    left.x := left.x * right.x;
    left.y := left.y * right.y;
    left.z := left.z * right.z;
    r := left.Value();
  }

  /** Dividing in place and then multiplying in place by the same vector restores it. */
  method DivideThenMultiply(v: FVec3.Vec3Var, divisor: Vec3)
    requires divisor.x != 0.0 && divisor.y != 0.0 && divisor.z != 0.0
    modifies v
    ensures v.Value() == old(v.Value())
  {
    var _ := DivideAssign(v, divisor);
    var _ := MultiplyAssign(v, divisor);
  }

  /** The const `operator/` leaves its receiver alone: it is a function of the values. The
      non-const one, applied to an object, leaves the object holding that same value. */
  method ConstAndMutatingDivideAgree(v: FVec3.Vec3Var, other: Vec3)
    requires other.x != 0.0 && other.y != 0.0 && other.z != 0.0
    modifies v
    ensures v.Value() == DivideComponents(old(v.Value()), other)
  {
    var copy := DivideComponents(v.Value(), other);
    var r := DivideInPlace(v, other);
    assert r == copy;
  }

  /** The free operator==: all three components equal. */
  predicate Equal(a: Vec3, b: Vec3)
    ensures Equal(a, b) <==> a == b
  {
    a.x == b.x && a.y == b.y && a.z == b.z
  }

  /** The free operator!=, written as a disjunction of component inequalities: it holds
      exactly when operator== does not. */
  predicate NotEqual(a: Vec3, b: Vec3)
    ensures NotEqual(a, b) <==> !Equal(a, b)
  {
    a.x != b.x || a.y != b.y || a.z != b.z
  }
}
