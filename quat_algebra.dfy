/** The quaternion algebra shared by the three quaternion classes of the library: FQuat
    (Quaternion/FQuat.cpp), the template Quaternion<T> (Quaternion/Quaternion.h) and the
    older Quaternion<T> (LibMaths/Quaternion/Quaternion.h). Their products, conjugates,
    inverses and rotations have the same bodies; what differs between the copies (default
    constructor, operator[], normalize) is in their own modules. */
module QuatAlgebra {
  import opened Utilities
  import FVec3

  type Vec3 = FVec3.Vec3

  /** A quaternion with vector part (x, y, z) and scalar part w. */
  datatype Quat = Quat(x: real, y: real, z: real, w: real)

  /** The all-zero quaternion. */
  const Zero: Quat := Quat(0.0, 0.0, 0.0, 0.0)

  /** The constant `identity`, (0, 0, 0, 1), in every copy. */
  const Identity: Quat := Quat(0.0, 0.0, 0.0, 1.0)

  /** `q.x`, `q.y`, `q.z` as a 3-vector (the value getVec3Part and getVectorPart mean to
      return). */
  function VectorPart(q: Quat): Vec3
  {
    FVec3.Vec3(q.x, q.y, q.z)
  }

  /** The quaternion (v, 0) that rotate(v) builds from a vector. */
  function Pure(v: Vec3): (r: Quat)
    ensures VectorPart(r) == v && r.w == 0.0
  {
    Quat(v.x, v.y, v.z, 0.0)
  }

  /** operator+ and operator+=: componentwise. */
  function Add(p: Quat, q: Quat): Quat
  {
    Quat(p.x + q.x, p.y + q.y, p.z + q.z, p.w + q.w)
  }

  /** operator- and operator-=: componentwise. */
  function Sub(p: Quat, q: Quat): Quat
  {
    Quat(p.x - q.x, p.y - q.y, p.z - q.z, p.w - q.w)
  }

  /** Adding and subtracting the same quaternion cancel, and addition commutes. */
  lemma AddSubInverse(p: Quat, q: Quat)
    ensures Sub(Add(p, q), q) == p
    ensures Add(Sub(p, q), q) == p
    ensures Add(p, q) == Add(q, p)
  {
  }

  /** operator*(s) and operator*=(s): every component times s. */
  function Scale(q: Quat, s: real): Quat
  {
    Quat(q.x * s, q.y * s, q.z * s, q.w * s)
  }

  /** Unary operator-: every component negated; it is the additive inverse. */
  function Negate(q: Quat): (r: Quat)
    ensures Add(q, r) == Zero
    ensures r == Scale(q, -1.0)
  {
    Quat(-q.x, -q.y, -q.z, -q.w)
  }

  /** operator/(s) and operator/=(s): every component divided by s. No copy checks s, so
      the model requires it to be non-zero. Multiplying back by s restores q. */
  function DivScalar(q: Quat, s: real): (r: Quat)
    requires s != 0.0
    ensures Scale(r, s) == q
  {
    Quat(q.x / s, q.y / s, q.z / s, q.w / s)
  }

  /** Dividing by s is multiplying by 1 / s. */
  lemma DivScalarIsScale(q: Quat, s: real)
    requires s != 0.0
    ensures DivScalar(q, s) == Scale(q, 1.0 / s)
  {
  }

  /** The Hamilton product: cross, operator*= (computed from copies of both operands) and
      operator* in every copy. */
  function Hamilton(p: Quat, q: Quat): Quat
  {
    Quat(p.w * q.x + p.x * q.w + p.y * q.z - p.z * q.y,
         p.w * q.y + p.y * q.w + p.z * q.x - p.x * q.z,
         p.w * q.z + p.z * q.w + p.x * q.y - p.y * q.x,
         p.w * q.w - p.x * q.x - p.y * q.y - p.z * q.z)
  }

  /** identity is the unit of the product on both sides. */
  lemma HamiltonIdentity(q: Quat)
    ensures Hamilton(Identity, q) == q
    ensures Hamilton(q, Identity) == q
  {
  }

  /** The product is associative. */
  lemma {:induction false} HamiltonAssociative(p: Quat, q: Quat, r: Quat)
    ensures Hamilton(Hamilton(p, q), r) == Hamilton(p, Hamilton(q, r))
  {
    Assoc11X(p, q, r);
    Assoc14Y(p, q, r);
    Assoc17Z(p, q, r);
    Assoc20W(p, q, r);
  }

  // Component-wise steps of HamiltonAssociative, (pq)r = p(qr): each component is brought to a polynomial in the
  // coordinates, and the two polynomials are compared.
  // Naming: <Group><n><C> states component C (X, Y, Z or W) of one sub-term as a polynomial in
  // the coordinates; a name ending in S substitutes already-expanded operands into the outer
  // formula; a name ending in P is the bare polynomial identity between the two sides; and the
  // last unsuffixed lemma of each component states that component of the identity itself.

  lemma Assoc2X(p: Quat, q: Quat)
    ensures Hamilton(p, q).x == p.w * q.x + p.x * q.w + p.y * q.z - p.z * q.y
  {
    UnfoldHamiltonX(p, q);
  }

  lemma Assoc3Y(p: Quat, q: Quat)
    ensures Hamilton(p, q).y == p.w * q.y + p.y * q.w + p.z * q.x - p.x * q.z
  {
    UnfoldHamiltonY(p, q);
  }

  lemma Assoc4Z(p: Quat, q: Quat)
    ensures Hamilton(p, q).z == p.w * q.z + p.z * q.w + p.x * q.y - p.y * q.x
  {
    UnfoldHamiltonZ(p, q);
  }

  lemma Assoc5W(p: Quat, q: Quat)
    ensures Hamilton(p, q).w == p.w * q.w - p.x * q.x - p.y * q.y - p.z * q.z
  {
    UnfoldHamiltonW(p, q);
  }

  lemma Assoc1XS(a0: Quat, p: Quat, q: Quat, r: Quat)
    requires a0.x == p.w * q.x + p.x * q.w + p.y * q.z - p.z * q.y
    requires a0.y == p.w * q.y + p.y * q.w + p.z * q.x - p.x * q.z
    requires a0.z == p.w * q.z + p.z * q.w + p.x * q.y - p.y * q.x
    requires a0.w == p.w * q.w - p.x * q.x - p.y * q.y - p.z * q.z
    ensures a0.w * r.x + a0.x * r.w + a0.y * r.z - a0.z * r.y == (p.w * q.w - p.x * q.x - p.y * q.y - p.z * q.z) * r.x + (p.w * q.x + p.x * q.w + p.y * q.z - p.z * q.y) * r.w + (p.w * q.y + p.y * q.w + p.z * q.x - p.x * q.z) * r.z - (p.w * q.z + p.z * q.w + p.x * q.y - p.y * q.x) * r.y
  {
  }

  lemma Assoc1X(p: Quat, q: Quat, r: Quat)
    ensures Hamilton(Hamilton(p, q), r).x == (p.w * q.w - p.x * q.x - p.y * q.y - p.z * q.z) * r.x + (p.w * q.x + p.x * q.w + p.y * q.z - p.z * q.y) * r.w + (p.w * q.y + p.y * q.w + p.z * q.x - p.x * q.z) * r.z - (p.w * q.z + p.z * q.w + p.x * q.y - p.y * q.x) * r.y
  {
    Assoc2X(p, q);
    Assoc3Y(p, q);
    Assoc4Z(p, q);
    Assoc5W(p, q);
    UnfoldHamiltonX(Hamilton(p, q), r);
    Assoc1XS(Hamilton(p, q), p, q, r);
  }

  lemma Assoc7X(q: Quat, r: Quat)
    ensures Hamilton(q, r).x == q.w * r.x + q.x * r.w + q.y * r.z - q.z * r.y
  {
    UnfoldHamiltonX(q, r);
  }

  lemma Assoc8Y(q: Quat, r: Quat)
    ensures Hamilton(q, r).y == q.w * r.y + q.y * r.w + q.z * r.x - q.x * r.z
  {
    UnfoldHamiltonY(q, r);
  }

  lemma Assoc9Z(q: Quat, r: Quat)
    ensures Hamilton(q, r).z == q.w * r.z + q.z * r.w + q.x * r.y - q.y * r.x
  {
    UnfoldHamiltonZ(q, r);
  }

  lemma Assoc10W(q: Quat, r: Quat)
    ensures Hamilton(q, r).w == q.w * r.w - q.x * r.x - q.y * r.y - q.z * r.z
  {
    UnfoldHamiltonW(q, r);
  }

  lemma Assoc6XS(a1: Quat, p: Quat, q: Quat, r: Quat)
    requires a1.x == q.w * r.x + q.x * r.w + q.y * r.z - q.z * r.y
    requires a1.y == q.w * r.y + q.y * r.w + q.z * r.x - q.x * r.z
    requires a1.z == q.w * r.z + q.z * r.w + q.x * r.y - q.y * r.x
    requires a1.w == q.w * r.w - q.x * r.x - q.y * r.y - q.z * r.z
    ensures p.w * a1.x + p.x * a1.w + p.y * a1.z - p.z * a1.y == p.w * (q.w * r.x + q.x * r.w + q.y * r.z - q.z * r.y) + p.x * (q.w * r.w - q.x * r.x - q.y * r.y - q.z * r.z) + p.y * (q.w * r.z + q.z * r.w + q.x * r.y - q.y * r.x) - p.z * (q.w * r.y + q.y * r.w + q.z * r.x - q.x * r.z)
  {
  }

  lemma Assoc6X(p: Quat, q: Quat, r: Quat)
    ensures Hamilton(p, Hamilton(q, r)).x == p.w * (q.w * r.x + q.x * r.w + q.y * r.z - q.z * r.y) + p.x * (q.w * r.w - q.x * r.x - q.y * r.y - q.z * r.z) + p.y * (q.w * r.z + q.z * r.w + q.x * r.y - q.y * r.x) - p.z * (q.w * r.y + q.y * r.w + q.z * r.x - q.x * r.z)
  {
    Assoc7X(q, r);
    Assoc8Y(q, r);
    Assoc9Z(q, r);
    Assoc10W(q, r);
    UnfoldHamiltonX(p, Hamilton(q, r));
    Assoc6XS(Hamilton(q, r), p, q, r);
  }

  lemma Assoc11XP(p: Quat, q: Quat, r: Quat)
    ensures (p.w * q.w - p.x * q.x - p.y * q.y - p.z * q.z) * r.x + (p.w * q.x + p.x * q.w + p.y * q.z - p.z * q.y) * r.w + (p.w * q.y + p.y * q.w + p.z * q.x - p.x * q.z) * r.z - (p.w * q.z + p.z * q.w + p.x * q.y - p.y * q.x) * r.y == p.w * (q.w * r.x + q.x * r.w + q.y * r.z - q.z * r.y) + p.x * (q.w * r.w - q.x * r.x - q.y * r.y - q.z * r.z) + p.y * (q.w * r.z + q.z * r.w + q.x * r.y - q.y * r.x) - p.z * (q.w * r.y + q.y * r.w + q.z * r.x - q.x * r.z)
  {
  }

  lemma Assoc11X(p: Quat, q: Quat, r: Quat)
    ensures Hamilton(Hamilton(p, q), r).x == Hamilton(p, Hamilton(q, r)).x
  {
    Assoc1X(p, q, r);
    Assoc6X(p, q, r);
    Assoc11XP(p, q, r);
  }

  lemma Assoc12YS(a0: Quat, p: Quat, q: Quat, r: Quat)
    requires a0.x == p.w * q.x + p.x * q.w + p.y * q.z - p.z * q.y
    requires a0.y == p.w * q.y + p.y * q.w + p.z * q.x - p.x * q.z
    requires a0.z == p.w * q.z + p.z * q.w + p.x * q.y - p.y * q.x
    requires a0.w == p.w * q.w - p.x * q.x - p.y * q.y - p.z * q.z
    ensures a0.w * r.y + a0.y * r.w + a0.z * r.x - a0.x * r.z == (p.w * q.w - p.x * q.x - p.y * q.y - p.z * q.z) * r.y + (p.w * q.y + p.y * q.w + p.z * q.x - p.x * q.z) * r.w + (p.w * q.z + p.z * q.w + p.x * q.y - p.y * q.x) * r.x - (p.w * q.x + p.x * q.w + p.y * q.z - p.z * q.y) * r.z
  {
  }

  lemma Assoc12Y(p: Quat, q: Quat, r: Quat)
    ensures Hamilton(Hamilton(p, q), r).y == (p.w * q.w - p.x * q.x - p.y * q.y - p.z * q.z) * r.y + (p.w * q.y + p.y * q.w + p.z * q.x - p.x * q.z) * r.w + (p.w * q.z + p.z * q.w + p.x * q.y - p.y * q.x) * r.x - (p.w * q.x + p.x * q.w + p.y * q.z - p.z * q.y) * r.z
  {
    Assoc2X(p, q);
    Assoc3Y(p, q);
    Assoc4Z(p, q);
    Assoc5W(p, q);
    UnfoldHamiltonY(Hamilton(p, q), r);
    Assoc12YS(Hamilton(p, q), p, q, r);
  }

  lemma Assoc13YS(a1: Quat, p: Quat, q: Quat, r: Quat)
    requires a1.x == q.w * r.x + q.x * r.w + q.y * r.z - q.z * r.y
    requires a1.y == q.w * r.y + q.y * r.w + q.z * r.x - q.x * r.z
    requires a1.z == q.w * r.z + q.z * r.w + q.x * r.y - q.y * r.x
    requires a1.w == q.w * r.w - q.x * r.x - q.y * r.y - q.z * r.z
    ensures p.w * a1.y + p.y * a1.w + p.z * a1.x - p.x * a1.z == p.w * (q.w * r.y + q.y * r.w + q.z * r.x - q.x * r.z) + p.y * (q.w * r.w - q.x * r.x - q.y * r.y - q.z * r.z) + p.z * (q.w * r.x + q.x * r.w + q.y * r.z - q.z * r.y) - p.x * (q.w * r.z + q.z * r.w + q.x * r.y - q.y * r.x)
  {
  }

  lemma Assoc13Y(p: Quat, q: Quat, r: Quat)
    ensures Hamilton(p, Hamilton(q, r)).y == p.w * (q.w * r.y + q.y * r.w + q.z * r.x - q.x * r.z) + p.y * (q.w * r.w - q.x * r.x - q.y * r.y - q.z * r.z) + p.z * (q.w * r.x + q.x * r.w + q.y * r.z - q.z * r.y) - p.x * (q.w * r.z + q.z * r.w + q.x * r.y - q.y * r.x)
  {
    Assoc7X(q, r);
    Assoc8Y(q, r);
    Assoc9Z(q, r);
    Assoc10W(q, r);
    UnfoldHamiltonY(p, Hamilton(q, r));
    Assoc13YS(Hamilton(q, r), p, q, r);
  }

  lemma Assoc14YP(p: Quat, q: Quat, r: Quat)
    ensures (p.w * q.w - p.x * q.x - p.y * q.y - p.z * q.z) * r.y + (p.w * q.y + p.y * q.w + p.z * q.x - p.x * q.z) * r.w + (p.w * q.z + p.z * q.w + p.x * q.y - p.y * q.x) * r.x - (p.w * q.x + p.x * q.w + p.y * q.z - p.z * q.y) * r.z == p.w * (q.w * r.y + q.y * r.w + q.z * r.x - q.x * r.z) + p.y * (q.w * r.w - q.x * r.x - q.y * r.y - q.z * r.z) + p.z * (q.w * r.x + q.x * r.w + q.y * r.z - q.z * r.y) - p.x * (q.w * r.z + q.z * r.w + q.x * r.y - q.y * r.x)
  {
  }

  lemma Assoc14Y(p: Quat, q: Quat, r: Quat)
    ensures Hamilton(Hamilton(p, q), r).y == Hamilton(p, Hamilton(q, r)).y
  {
    Assoc12Y(p, q, r);
    Assoc13Y(p, q, r);
    Assoc14YP(p, q, r);
  }

  lemma Assoc15ZS(a0: Quat, p: Quat, q: Quat, r: Quat)
    requires a0.x == p.w * q.x + p.x * q.w + p.y * q.z - p.z * q.y
    requires a0.y == p.w * q.y + p.y * q.w + p.z * q.x - p.x * q.z
    requires a0.z == p.w * q.z + p.z * q.w + p.x * q.y - p.y * q.x
    requires a0.w == p.w * q.w - p.x * q.x - p.y * q.y - p.z * q.z
    ensures a0.w * r.z + a0.z * r.w + a0.x * r.y - a0.y * r.x == (p.w * q.w - p.x * q.x - p.y * q.y - p.z * q.z) * r.z + (p.w * q.z + p.z * q.w + p.x * q.y - p.y * q.x) * r.w + (p.w * q.x + p.x * q.w + p.y * q.z - p.z * q.y) * r.y - (p.w * q.y + p.y * q.w + p.z * q.x - p.x * q.z) * r.x
  {
  }

  lemma Assoc15Z(p: Quat, q: Quat, r: Quat)
    ensures Hamilton(Hamilton(p, q), r).z == (p.w * q.w - p.x * q.x - p.y * q.y - p.z * q.z) * r.z + (p.w * q.z + p.z * q.w + p.x * q.y - p.y * q.x) * r.w + (p.w * q.x + p.x * q.w + p.y * q.z - p.z * q.y) * r.y - (p.w * q.y + p.y * q.w + p.z * q.x - p.x * q.z) * r.x
  {
    Assoc2X(p, q);
    Assoc3Y(p, q);
    Assoc4Z(p, q);
    Assoc5W(p, q);
    UnfoldHamiltonZ(Hamilton(p, q), r);
    Assoc15ZS(Hamilton(p, q), p, q, r);
  }

  lemma Assoc16ZS(a1: Quat, p: Quat, q: Quat, r: Quat)
    requires a1.x == q.w * r.x + q.x * r.w + q.y * r.z - q.z * r.y
    requires a1.y == q.w * r.y + q.y * r.w + q.z * r.x - q.x * r.z
    requires a1.z == q.w * r.z + q.z * r.w + q.x * r.y - q.y * r.x
    requires a1.w == q.w * r.w - q.x * r.x - q.y * r.y - q.z * r.z
    ensures p.w * a1.z + p.z * a1.w + p.x * a1.y - p.y * a1.x == p.w * (q.w * r.z + q.z * r.w + q.x * r.y - q.y * r.x) + p.z * (q.w * r.w - q.x * r.x - q.y * r.y - q.z * r.z) + p.x * (q.w * r.y + q.y * r.w + q.z * r.x - q.x * r.z) - p.y * (q.w * r.x + q.x * r.w + q.y * r.z - q.z * r.y)
  {
  }

  lemma Assoc16Z(p: Quat, q: Quat, r: Quat)
    ensures Hamilton(p, Hamilton(q, r)).z == p.w * (q.w * r.z + q.z * r.w + q.x * r.y - q.y * r.x) + p.z * (q.w * r.w - q.x * r.x - q.y * r.y - q.z * r.z) + p.x * (q.w * r.y + q.y * r.w + q.z * r.x - q.x * r.z) - p.y * (q.w * r.x + q.x * r.w + q.y * r.z - q.z * r.y)
  {
    Assoc7X(q, r);
    Assoc8Y(q, r);
    Assoc9Z(q, r);
    Assoc10W(q, r);
    UnfoldHamiltonZ(p, Hamilton(q, r));
    Assoc16ZS(Hamilton(q, r), p, q, r);
  }

  lemma Assoc17ZP(p: Quat, q: Quat, r: Quat)
    ensures (p.w * q.w - p.x * q.x - p.y * q.y - p.z * q.z) * r.z + (p.w * q.z + p.z * q.w + p.x * q.y - p.y * q.x) * r.w + (p.w * q.x + p.x * q.w + p.y * q.z - p.z * q.y) * r.y - (p.w * q.y + p.y * q.w + p.z * q.x - p.x * q.z) * r.x == p.w * (q.w * r.z + q.z * r.w + q.x * r.y - q.y * r.x) + p.z * (q.w * r.w - q.x * r.x - q.y * r.y - q.z * r.z) + p.x * (q.w * r.y + q.y * r.w + q.z * r.x - q.x * r.z) - p.y * (q.w * r.x + q.x * r.w + q.y * r.z - q.z * r.y)
  {
  }

  lemma Assoc17Z(p: Quat, q: Quat, r: Quat)
    ensures Hamilton(Hamilton(p, q), r).z == Hamilton(p, Hamilton(q, r)).z
  {
    Assoc15Z(p, q, r);
    Assoc16Z(p, q, r);
    Assoc17ZP(p, q, r);
  }

  lemma Assoc18WS(a0: Quat, p: Quat, q: Quat, r: Quat)
    requires a0.x == p.w * q.x + p.x * q.w + p.y * q.z - p.z * q.y
    requires a0.y == p.w * q.y + p.y * q.w + p.z * q.x - p.x * q.z
    requires a0.z == p.w * q.z + p.z * q.w + p.x * q.y - p.y * q.x
    requires a0.w == p.w * q.w - p.x * q.x - p.y * q.y - p.z * q.z
    ensures a0.w * r.w - a0.x * r.x - a0.y * r.y - a0.z * r.z == (p.w * q.w - p.x * q.x - p.y * q.y - p.z * q.z) * r.w - (p.w * q.x + p.x * q.w + p.y * q.z - p.z * q.y) * r.x - (p.w * q.y + p.y * q.w + p.z * q.x - p.x * q.z) * r.y - (p.w * q.z + p.z * q.w + p.x * q.y - p.y * q.x) * r.z
  {
  }

  lemma Assoc18W(p: Quat, q: Quat, r: Quat)
    ensures Hamilton(Hamilton(p, q), r).w == (p.w * q.w - p.x * q.x - p.y * q.y - p.z * q.z) * r.w - (p.w * q.x + p.x * q.w + p.y * q.z - p.z * q.y) * r.x - (p.w * q.y + p.y * q.w + p.z * q.x - p.x * q.z) * r.y - (p.w * q.z + p.z * q.w + p.x * q.y - p.y * q.x) * r.z
  {
    Assoc2X(p, q);
    Assoc3Y(p, q);
    Assoc4Z(p, q);
    Assoc5W(p, q);
    UnfoldHamiltonW(Hamilton(p, q), r);
    Assoc18WS(Hamilton(p, q), p, q, r);
  }

  lemma Assoc19WS(a1: Quat, p: Quat, q: Quat, r: Quat)
    requires a1.x == q.w * r.x + q.x * r.w + q.y * r.z - q.z * r.y
    requires a1.y == q.w * r.y + q.y * r.w + q.z * r.x - q.x * r.z
    requires a1.z == q.w * r.z + q.z * r.w + q.x * r.y - q.y * r.x
    requires a1.w == q.w * r.w - q.x * r.x - q.y * r.y - q.z * r.z
    ensures p.w * a1.w - p.x * a1.x - p.y * a1.y - p.z * a1.z == p.w * (q.w * r.w - q.x * r.x - q.y * r.y - q.z * r.z) - p.x * (q.w * r.x + q.x * r.w + q.y * r.z - q.z * r.y) - p.y * (q.w * r.y + q.y * r.w + q.z * r.x - q.x * r.z) - p.z * (q.w * r.z + q.z * r.w + q.x * r.y - q.y * r.x)
  {
  }

  lemma Assoc19W(p: Quat, q: Quat, r: Quat)
    ensures Hamilton(p, Hamilton(q, r)).w == p.w * (q.w * r.w - q.x * r.x - q.y * r.y - q.z * r.z) - p.x * (q.w * r.x + q.x * r.w + q.y * r.z - q.z * r.y) - p.y * (q.w * r.y + q.y * r.w + q.z * r.x - q.x * r.z) - p.z * (q.w * r.z + q.z * r.w + q.x * r.y - q.y * r.x)
  {
    Assoc7X(q, r);
    Assoc8Y(q, r);
    Assoc9Z(q, r);
    Assoc10W(q, r);
    UnfoldHamiltonW(p, Hamilton(q, r));
    Assoc19WS(Hamilton(q, r), p, q, r);
  }

  lemma Assoc20WP(p: Quat, q: Quat, r: Quat)
    ensures (p.w * q.w - p.x * q.x - p.y * q.y - p.z * q.z) * r.w - (p.w * q.x + p.x * q.w + p.y * q.z - p.z * q.y) * r.x - (p.w * q.y + p.y * q.w + p.z * q.x - p.x * q.z) * r.y - (p.w * q.z + p.z * q.w + p.x * q.y - p.y * q.x) * r.z == p.w * (q.w * r.w - q.x * r.x - q.y * r.y - q.z * r.z) - p.x * (q.w * r.x + q.x * r.w + q.y * r.z - q.z * r.y) - p.y * (q.w * r.y + q.y * r.w + q.z * r.x - q.x * r.z) - p.z * (q.w * r.z + q.z * r.w + q.x * r.y - q.y * r.x)
  {
  }

  lemma Assoc20W(p: Quat, q: Quat, r: Quat)
    ensures Hamilton(Hamilton(p, q), r).w == Hamilton(p, Hamilton(q, r)).w
  {
    Assoc18W(p, q, r);
    Assoc19W(p, q, r);
    Assoc20WP(p, q, r);
  }

  /** The product is linear in each operand: a scalar factor can be moved out. */
  lemma {:induction false} HamiltonScale(p: Quat, q: Quat, s: real)
    ensures Hamilton(p, Scale(q, s)) == Scale(Hamilton(p, q), s)
    ensures Hamilton(Scale(p, s), q) == Scale(Hamilton(p, q), s)
  {
    ScaleR8X(p, q, s);
    ScaleR12Y(p, q, s);
    ScaleR16Z(p, q, s);
    ScaleR20W(p, q, s);
    ScaleL8X(p, q, s);
    ScaleL12Y(p, q, s);
    ScaleL16Z(p, q, s);
    ScaleL20W(p, q, s);
  }

  // Component-wise steps of HamiltonScale: ScaleR proves (p (q s)) = (p q) s and ScaleL proves ((p s) q) = (p q) s: each component is brought to a polynomial in the
  // coordinates, and the two polynomials are compared.
  // Naming: <Group><n><C> states component C (X, Y, Z or W) of one sub-term as a polynomial in
  // the coordinates; a name ending in S substitutes already-expanded operands into the outer
  // formula; a name ending in P is the bare polynomial identity between the two sides; and the
  // last unsuffixed lemma of each component states that component of the identity itself.

  lemma ScaleR2X(q: Quat, s: real)
    ensures Scale(q, s).x == q.x * s
  {
  }

  lemma ScaleR3Y(q: Quat, s: real)
    ensures Scale(q, s).y == q.y * s
  {
  }

  lemma ScaleR4Z(q: Quat, s: real)
    ensures Scale(q, s).z == q.z * s
  {
  }

  lemma ScaleR5W(q: Quat, s: real)
    ensures Scale(q, s).w == q.w * s
  {
  }

  lemma ScaleR1XS(a1: Quat, p: Quat, q: Quat, s: real)
    requires a1.x == q.x * s
    requires a1.y == q.y * s
    requires a1.z == q.z * s
    requires a1.w == q.w * s
    ensures p.w * a1.x + p.x * a1.w + p.y * a1.z - p.z * a1.y == p.w * (q.x * s) + p.x * (q.w * s) + p.y * (q.z * s) - p.z * (q.y * s)
  {
  }

  lemma ScaleR1X(p: Quat, q: Quat, s: real)
    ensures Hamilton(p, Scale(q, s)).x == p.w * (q.x * s) + p.x * (q.w * s) + p.y * (q.z * s) - p.z * (q.y * s)
  {
    ScaleR2X(q, s);
    ScaleR3Y(q, s);
    ScaleR4Z(q, s);
    ScaleR5W(q, s);
    UnfoldHamiltonX(p, Scale(q, s));
    ScaleR1XS(Scale(q, s), p, q, s);
  }

  lemma ScaleR7X(p: Quat, q: Quat)
    ensures Hamilton(p, q).x == p.w * q.x + p.x * q.w + p.y * q.z - p.z * q.y
  {
    UnfoldHamiltonX(p, q);
  }

  lemma ScaleR6XS(a0: Quat, p: Quat, q: Quat, s: real)
    requires a0.x == p.w * q.x + p.x * q.w + p.y * q.z - p.z * q.y
    ensures Scale(a0, s).x == (p.w * q.x + p.x * q.w + p.y * q.z - p.z * q.y) * s
  {
  }

  lemma ScaleR6X(p: Quat, q: Quat, s: real)
    ensures Scale(Hamilton(p, q), s).x == (p.w * q.x + p.x * q.w + p.y * q.z - p.z * q.y) * s
  {
    ScaleR7X(p, q);
    ScaleR6XS(Hamilton(p, q), p, q, s);
  }

  lemma ScaleR8XP(p: Quat, q: Quat, s: real)
    ensures p.w * (q.x * s) + p.x * (q.w * s) + p.y * (q.z * s) - p.z * (q.y * s) == (p.w * q.x + p.x * q.w + p.y * q.z - p.z * q.y) * s
  {
  }

  lemma ScaleR8X(p: Quat, q: Quat, s: real)
    ensures Hamilton(p, Scale(q, s)).x == Scale(Hamilton(p, q), s).x
  {
    ScaleR1X(p, q, s);
    ScaleR6X(p, q, s);
    ScaleR8XP(p, q, s);
  }

  lemma ScaleR9YS(a1: Quat, p: Quat, q: Quat, s: real)
    requires a1.x == q.x * s
    requires a1.y == q.y * s
    requires a1.z == q.z * s
    requires a1.w == q.w * s
    ensures p.w * a1.y + p.y * a1.w + p.z * a1.x - p.x * a1.z == p.w * (q.y * s) + p.y * (q.w * s) + p.z * (q.x * s) - p.x * (q.z * s)
  {
  }

  lemma ScaleR9Y(p: Quat, q: Quat, s: real)
    ensures Hamilton(p, Scale(q, s)).y == p.w * (q.y * s) + p.y * (q.w * s) + p.z * (q.x * s) - p.x * (q.z * s)
  {
    ScaleR2X(q, s);
    ScaleR3Y(q, s);
    ScaleR4Z(q, s);
    ScaleR5W(q, s);
    UnfoldHamiltonY(p, Scale(q, s));
    ScaleR9YS(Scale(q, s), p, q, s);
  }

  lemma ScaleR11Y(p: Quat, q: Quat)
    ensures Hamilton(p, q).y == p.w * q.y + p.y * q.w + p.z * q.x - p.x * q.z
  {
    UnfoldHamiltonY(p, q);
  }

  lemma ScaleR10YS(a0: Quat, p: Quat, q: Quat, s: real)
    requires a0.y == p.w * q.y + p.y * q.w + p.z * q.x - p.x * q.z
    ensures Scale(a0, s).y == (p.w * q.y + p.y * q.w + p.z * q.x - p.x * q.z) * s
  {
  }

  lemma ScaleR10Y(p: Quat, q: Quat, s: real)
    ensures Scale(Hamilton(p, q), s).y == (p.w * q.y + p.y * q.w + p.z * q.x - p.x * q.z) * s
  {
    ScaleR11Y(p, q);
    ScaleR10YS(Hamilton(p, q), p, q, s);
  }

  lemma ScaleR12YP(p: Quat, q: Quat, s: real)
    ensures p.w * (q.y * s) + p.y * (q.w * s) + p.z * (q.x * s) - p.x * (q.z * s) == (p.w * q.y + p.y * q.w + p.z * q.x - p.x * q.z) * s
  {
  }

  lemma ScaleR12Y(p: Quat, q: Quat, s: real)
    ensures Hamilton(p, Scale(q, s)).y == Scale(Hamilton(p, q), s).y
  {
    ScaleR9Y(p, q, s);
    ScaleR10Y(p, q, s);
    ScaleR12YP(p, q, s);
  }

  lemma ScaleR13ZS(a1: Quat, p: Quat, q: Quat, s: real)
    requires a1.x == q.x * s
    requires a1.y == q.y * s
    requires a1.z == q.z * s
    requires a1.w == q.w * s
    ensures p.w * a1.z + p.z * a1.w + p.x * a1.y - p.y * a1.x == p.w * (q.z * s) + p.z * (q.w * s) + p.x * (q.y * s) - p.y * (q.x * s)
  {
  }

  lemma ScaleR13Z(p: Quat, q: Quat, s: real)
    ensures Hamilton(p, Scale(q, s)).z == p.w * (q.z * s) + p.z * (q.w * s) + p.x * (q.y * s) - p.y * (q.x * s)
  {
    ScaleR2X(q, s);
    ScaleR3Y(q, s);
    ScaleR4Z(q, s);
    ScaleR5W(q, s);
    UnfoldHamiltonZ(p, Scale(q, s));
    ScaleR13ZS(Scale(q, s), p, q, s);
  }

  lemma ScaleR15Z(p: Quat, q: Quat)
    ensures Hamilton(p, q).z == p.w * q.z + p.z * q.w + p.x * q.y - p.y * q.x
  {
    UnfoldHamiltonZ(p, q);
  }

  lemma ScaleR14ZS(a0: Quat, p: Quat, q: Quat, s: real)
    requires a0.z == p.w * q.z + p.z * q.w + p.x * q.y - p.y * q.x
    ensures Scale(a0, s).z == (p.w * q.z + p.z * q.w + p.x * q.y - p.y * q.x) * s
  {
  }

  lemma ScaleR14Z(p: Quat, q: Quat, s: real)
    ensures Scale(Hamilton(p, q), s).z == (p.w * q.z + p.z * q.w + p.x * q.y - p.y * q.x) * s
  {
    ScaleR15Z(p, q);
    ScaleR14ZS(Hamilton(p, q), p, q, s);
  }

  lemma ScaleR16ZP(p: Quat, q: Quat, s: real)
    ensures p.w * (q.z * s) + p.z * (q.w * s) + p.x * (q.y * s) - p.y * (q.x * s) == (p.w * q.z + p.z * q.w + p.x * q.y - p.y * q.x) * s
  {
  }

  lemma ScaleR16Z(p: Quat, q: Quat, s: real)
    ensures Hamilton(p, Scale(q, s)).z == Scale(Hamilton(p, q), s).z
  {
    ScaleR13Z(p, q, s);
    ScaleR14Z(p, q, s);
    ScaleR16ZP(p, q, s);
  }

  lemma ScaleR17WS(a1: Quat, p: Quat, q: Quat, s: real)
    requires a1.x == q.x * s
    requires a1.y == q.y * s
    requires a1.z == q.z * s
    requires a1.w == q.w * s
    ensures p.w * a1.w - p.x * a1.x - p.y * a1.y - p.z * a1.z == p.w * (q.w * s) - p.x * (q.x * s) - p.y * (q.y * s) - p.z * (q.z * s)
  {
  }

  lemma ScaleR17W(p: Quat, q: Quat, s: real)
    ensures Hamilton(p, Scale(q, s)).w == p.w * (q.w * s) - p.x * (q.x * s) - p.y * (q.y * s) - p.z * (q.z * s)
  {
    ScaleR2X(q, s);
    ScaleR3Y(q, s);
    ScaleR4Z(q, s);
    ScaleR5W(q, s);
    UnfoldHamiltonW(p, Scale(q, s));
    ScaleR17WS(Scale(q, s), p, q, s);
  }

  lemma ScaleR19W(p: Quat, q: Quat)
    ensures Hamilton(p, q).w == p.w * q.w - p.x * q.x - p.y * q.y - p.z * q.z
  {
    UnfoldHamiltonW(p, q);
  }

  lemma ScaleR18WS(a0: Quat, p: Quat, q: Quat, s: real)
    requires a0.w == p.w * q.w - p.x * q.x - p.y * q.y - p.z * q.z
    ensures Scale(a0, s).w == (p.w * q.w - p.x * q.x - p.y * q.y - p.z * q.z) * s
  {
  }

  lemma ScaleR18W(p: Quat, q: Quat, s: real)
    ensures Scale(Hamilton(p, q), s).w == (p.w * q.w - p.x * q.x - p.y * q.y - p.z * q.z) * s
  {
    ScaleR19W(p, q);
    ScaleR18WS(Hamilton(p, q), p, q, s);
  }

  lemma ScaleR20WP(p: Quat, q: Quat, s: real)
    ensures p.w * (q.w * s) - p.x * (q.x * s) - p.y * (q.y * s) - p.z * (q.z * s) == (p.w * q.w - p.x * q.x - p.y * q.y - p.z * q.z) * s
  {
  }

  lemma ScaleR20W(p: Quat, q: Quat, s: real)
    ensures Hamilton(p, Scale(q, s)).w == Scale(Hamilton(p, q), s).w
  {
    ScaleR17W(p, q, s);
    ScaleR18W(p, q, s);
    ScaleR20WP(p, q, s);
  }

  lemma ScaleL2X(p: Quat, s: real)
    ensures Scale(p, s).x == p.x * s
  {
  }

  lemma ScaleL3Y(p: Quat, s: real)
    ensures Scale(p, s).y == p.y * s
  {
  }

  lemma ScaleL4Z(p: Quat, s: real)
    ensures Scale(p, s).z == p.z * s
  {
  }

  lemma ScaleL5W(p: Quat, s: real)
    ensures Scale(p, s).w == p.w * s
  {
  }

  lemma ScaleL1XS(a0: Quat, p: Quat, q: Quat, s: real)
    requires a0.x == p.x * s
    requires a0.y == p.y * s
    requires a0.z == p.z * s
    requires a0.w == p.w * s
    ensures a0.w * q.x + a0.x * q.w + a0.y * q.z - a0.z * q.y == (p.w * s) * q.x + (p.x * s) * q.w + (p.y * s) * q.z - (p.z * s) * q.y
  {
  }

  lemma ScaleL1X(p: Quat, q: Quat, s: real)
    ensures Hamilton(Scale(p, s), q).x == (p.w * s) * q.x + (p.x * s) * q.w + (p.y * s) * q.z - (p.z * s) * q.y
  {
    ScaleL2X(p, s);
    ScaleL3Y(p, s);
    ScaleL4Z(p, s);
    ScaleL5W(p, s);
    UnfoldHamiltonX(Scale(p, s), q);
    ScaleL1XS(Scale(p, s), p, q, s);
  }

  lemma ScaleL7X(p: Quat, q: Quat)
    ensures Hamilton(p, q).x == p.w * q.x + p.x * q.w + p.y * q.z - p.z * q.y
  {
    UnfoldHamiltonX(p, q);
  }

  lemma ScaleL6XS(a0: Quat, p: Quat, q: Quat, s: real)
    requires a0.x == p.w * q.x + p.x * q.w + p.y * q.z - p.z * q.y
    ensures Scale(a0, s).x == (p.w * q.x + p.x * q.w + p.y * q.z - p.z * q.y) * s
  {
  }

  lemma ScaleL6X(p: Quat, q: Quat, s: real)
    ensures Scale(Hamilton(p, q), s).x == (p.w * q.x + p.x * q.w + p.y * q.z - p.z * q.y) * s
  {
    ScaleL7X(p, q);
    ScaleL6XS(Hamilton(p, q), p, q, s);
  }

  lemma ScaleL8XP(p: Quat, q: Quat, s: real)
    ensures (p.w * s) * q.x + (p.x * s) * q.w + (p.y * s) * q.z - (p.z * s) * q.y == (p.w * q.x + p.x * q.w + p.y * q.z - p.z * q.y) * s
  {
  }

  lemma ScaleL8X(p: Quat, q: Quat, s: real)
    ensures Hamilton(Scale(p, s), q).x == Scale(Hamilton(p, q), s).x
  {
    ScaleL1X(p, q, s);
    ScaleL6X(p, q, s);
    ScaleL8XP(p, q, s);
  }

  lemma ScaleL9YS(a0: Quat, p: Quat, q: Quat, s: real)
    requires a0.x == p.x * s
    requires a0.y == p.y * s
    requires a0.z == p.z * s
    requires a0.w == p.w * s
    ensures a0.w * q.y + a0.y * q.w + a0.z * q.x - a0.x * q.z == (p.w * s) * q.y + (p.y * s) * q.w + (p.z * s) * q.x - (p.x * s) * q.z
  {
  }

  lemma ScaleL9Y(p: Quat, q: Quat, s: real)
    ensures Hamilton(Scale(p, s), q).y == (p.w * s) * q.y + (p.y * s) * q.w + (p.z * s) * q.x - (p.x * s) * q.z
  {
    ScaleL2X(p, s);
    ScaleL3Y(p, s);
    ScaleL4Z(p, s);
    ScaleL5W(p, s);
    UnfoldHamiltonY(Scale(p, s), q);
    ScaleL9YS(Scale(p, s), p, q, s);
  }

  lemma ScaleL11Y(p: Quat, q: Quat)
    ensures Hamilton(p, q).y == p.w * q.y + p.y * q.w + p.z * q.x - p.x * q.z
  {
    UnfoldHamiltonY(p, q);
  }

  lemma ScaleL10YS(a0: Quat, p: Quat, q: Quat, s: real)
    requires a0.y == p.w * q.y + p.y * q.w + p.z * q.x - p.x * q.z
    ensures Scale(a0, s).y == (p.w * q.y + p.y * q.w + p.z * q.x - p.x * q.z) * s
  {
  }

  lemma ScaleL10Y(p: Quat, q: Quat, s: real)
    ensures Scale(Hamilton(p, q), s).y == (p.w * q.y + p.y * q.w + p.z * q.x - p.x * q.z) * s
  {
    ScaleL11Y(p, q);
    ScaleL10YS(Hamilton(p, q), p, q, s);
  }

  lemma ScaleL12YP(p: Quat, q: Quat, s: real)
    ensures (p.w * s) * q.y + (p.y * s) * q.w + (p.z * s) * q.x - (p.x * s) * q.z == (p.w * q.y + p.y * q.w + p.z * q.x - p.x * q.z) * s
  {
  }

  lemma ScaleL12Y(p: Quat, q: Quat, s: real)
    ensures Hamilton(Scale(p, s), q).y == Scale(Hamilton(p, q), s).y
  {
    ScaleL9Y(p, q, s);
    ScaleL10Y(p, q, s);
    ScaleL12YP(p, q, s);
  }

  lemma ScaleL13ZS(a0: Quat, p: Quat, q: Quat, s: real)
    requires a0.x == p.x * s
    requires a0.y == p.y * s
    requires a0.z == p.z * s
    requires a0.w == p.w * s
    ensures a0.w * q.z + a0.z * q.w + a0.x * q.y - a0.y * q.x == (p.w * s) * q.z + (p.z * s) * q.w + (p.x * s) * q.y - (p.y * s) * q.x
  {
  }

  lemma ScaleL13Z(p: Quat, q: Quat, s: real)
    ensures Hamilton(Scale(p, s), q).z == (p.w * s) * q.z + (p.z * s) * q.w + (p.x * s) * q.y - (p.y * s) * q.x
  {
    ScaleL2X(p, s);
    ScaleL3Y(p, s);
    ScaleL4Z(p, s);
    ScaleL5W(p, s);
    UnfoldHamiltonZ(Scale(p, s), q);
    ScaleL13ZS(Scale(p, s), p, q, s);
  }

  lemma ScaleL15Z(p: Quat, q: Quat)
    ensures Hamilton(p, q).z == p.w * q.z + p.z * q.w + p.x * q.y - p.y * q.x
  {
    UnfoldHamiltonZ(p, q);
  }

  lemma ScaleL14ZS(a0: Quat, p: Quat, q: Quat, s: real)
    requires a0.z == p.w * q.z + p.z * q.w + p.x * q.y - p.y * q.x
    ensures Scale(a0, s).z == (p.w * q.z + p.z * q.w + p.x * q.y - p.y * q.x) * s
  {
  }

  lemma ScaleL14Z(p: Quat, q: Quat, s: real)
    ensures Scale(Hamilton(p, q), s).z == (p.w * q.z + p.z * q.w + p.x * q.y - p.y * q.x) * s
  {
    ScaleL15Z(p, q);
    ScaleL14ZS(Hamilton(p, q), p, q, s);
  }

  lemma ScaleL16ZP(p: Quat, q: Quat, s: real)
    ensures (p.w * s) * q.z + (p.z * s) * q.w + (p.x * s) * q.y - (p.y * s) * q.x == (p.w * q.z + p.z * q.w + p.x * q.y - p.y * q.x) * s
  {
  }

  lemma ScaleL16Z(p: Quat, q: Quat, s: real)
    ensures Hamilton(Scale(p, s), q).z == Scale(Hamilton(p, q), s).z
  {
    ScaleL13Z(p, q, s);
    ScaleL14Z(p, q, s);
    ScaleL16ZP(p, q, s);
  }

  lemma ScaleL17WS(a0: Quat, p: Quat, q: Quat, s: real)
    requires a0.x == p.x * s
    requires a0.y == p.y * s
    requires a0.z == p.z * s
    requires a0.w == p.w * s
    ensures a0.w * q.w - a0.x * q.x - a0.y * q.y - a0.z * q.z == (p.w * s) * q.w - (p.x * s) * q.x - (p.y * s) * q.y - (p.z * s) * q.z
  {
  }

  lemma ScaleL17W(p: Quat, q: Quat, s: real)
    ensures Hamilton(Scale(p, s), q).w == (p.w * s) * q.w - (p.x * s) * q.x - (p.y * s) * q.y - (p.z * s) * q.z
  {
    ScaleL2X(p, s);
    ScaleL3Y(p, s);
    ScaleL4Z(p, s);
    ScaleL5W(p, s);
    UnfoldHamiltonW(Scale(p, s), q);
    ScaleL17WS(Scale(p, s), p, q, s);
  }

  lemma ScaleL19W(p: Quat, q: Quat)
    ensures Hamilton(p, q).w == p.w * q.w - p.x * q.x - p.y * q.y - p.z * q.z
  {
    UnfoldHamiltonW(p, q);
  }

  lemma ScaleL18WS(a0: Quat, p: Quat, q: Quat, s: real)
    requires a0.w == p.w * q.w - p.x * q.x - p.y * q.y - p.z * q.z
    ensures Scale(a0, s).w == (p.w * q.w - p.x * q.x - p.y * q.y - p.z * q.z) * s
  {
  }

  lemma ScaleL18W(p: Quat, q: Quat, s: real)
    ensures Scale(Hamilton(p, q), s).w == (p.w * q.w - p.x * q.x - p.y * q.y - p.z * q.z) * s
  {
    ScaleL19W(p, q);
    ScaleL18WS(Hamilton(p, q), p, q, s);
  }

  lemma ScaleL20WP(p: Quat, q: Quat, s: real)
    ensures (p.w * s) * q.w - (p.x * s) * q.x - (p.y * s) * q.y - (p.z * s) * q.z == (p.w * q.w - p.x * q.x - p.y * q.y - p.z * q.z) * s
  {
  }

  lemma ScaleL20W(p: Quat, q: Quat, s: real)
    ensures Hamilton(Scale(p, s), q).w == Scale(Hamilton(p, q), s).w
  {
    ScaleL17W(p, q, s);
    ScaleL18W(p, q, s);
    ScaleL20WP(p, q, s);
  }

  /** conjugate()/Conjugate(): the vector part negated, w kept. */
  function Conjugate(q: Quat): Quat
  {
    Quat(-q.x, -q.y, -q.z, q.w)
  }

  /** dot(p): the sum of the four componentwise products. */
  function Dot(p: Quat, q: Quat): real
  {
    p.x * q.x + p.y * q.y + p.z * q.z + p.w * q.w
  }

  /** length2()/LengthSquared(): the dot product of q with itself, never negative, and zero
      exactly for Zero. */
  function Length2(q: Quat): (r: real)
    ensures r == Dot(q, q)
    ensures r >= 0.0
    ensures r == 0.0 <==> q == Zero
  {
    FVec3.SquareNonNegative(q.x);
    FVec3.SquareNonNegative(q.y);
    FVec3.SquareNonNegative(q.z);
    FVec3.SquareNonNegative(q.w);
    q.x * q.x + q.y * q.y + q.z * q.z + q.w * q.w
  }

  /** Scaling by s scales the squared length by s*s. */
  lemma Length2Scale(q: Quat, s: real)
    ensures Length2(Scale(q, s)) == s * s * Length2(q)
  {
  }

  /** isUnit(): `dot(*this) == 1`, which is squared length 1. */
  predicate IsUnit(q: Quat)
  {
    Dot(q, q) == 1.0
  }

  /** Conjugation is an involution and keeps the squared length. */
  lemma ConjugateInvolution(q: Quat)
    ensures Conjugate(Conjugate(q)) == q
    ensures Length2(Conjugate(q)) == Length2(q)
  {
  }

  /** The conjugate of a product is the product of the conjugates in reverse order. */
  lemma {:induction false} ConjugateReverses(p: Quat, q: Quat)
    ensures Conjugate(Hamilton(p, q)) == Hamilton(Conjugate(q), Conjugate(p))
  {
    ConjRev12X(p, q);
    ConjRev16Y(p, q);
    ConjRev20Z(p, q);
    ConjRev24W(p, q);
  }

  // Component-wise steps of ConjugateReverses, conj(pq) = conj(q) conj(p): each component is brought to a polynomial in the
  // coordinates, and the two polynomials are compared.
  // Naming: <Group><n><C> states component C (X, Y, Z or W) of one sub-term as a polynomial in
  // the coordinates; a name ending in S substitutes already-expanded operands into the outer
  // formula; a name ending in P is the bare polynomial identity between the two sides; and the
  // last unsuffixed lemma of each component states that component of the identity itself.

  lemma ConjRev2X(p: Quat, q: Quat)
    ensures Hamilton(p, q).x == p.w * q.x + p.x * q.w + p.y * q.z - p.z * q.y
  {
    UnfoldHamiltonX(p, q);
  }

  lemma ConjRev1XS(a0: Quat, p: Quat, q: Quat)
    requires a0.x == p.w * q.x + p.x * q.w + p.y * q.z - p.z * q.y
    ensures Conjugate(a0).x == -(p.w * q.x + p.x * q.w + p.y * q.z - p.z * q.y)
  {
  }

  lemma ConjRev1X(p: Quat, q: Quat)
    ensures Conjugate(Hamilton(p, q)).x == -(p.w * q.x + p.x * q.w + p.y * q.z - p.z * q.y)
  {
    ConjRev2X(p, q);
    ConjRev1XS(Hamilton(p, q), p, q);
  }

  lemma ConjRev4X(q: Quat)
    ensures Conjugate(q).x == -q.x
  {
  }

  lemma ConjRev5Y(q: Quat)
    ensures Conjugate(q).y == -q.y
  {
  }

  lemma ConjRev6Z(q: Quat)
    ensures Conjugate(q).z == -q.z
  {
  }

  lemma ConjRev7W(q: Quat)
    ensures Conjugate(q).w == q.w
  {
  }

  lemma ConjRev8X(p: Quat)
    ensures Conjugate(p).x == -p.x
  {
  }

  lemma ConjRev9Y(p: Quat)
    ensures Conjugate(p).y == -p.y
  {
  }

  lemma ConjRev10Z(p: Quat)
    ensures Conjugate(p).z == -p.z
  {
  }

  lemma ConjRev11W(p: Quat)
    ensures Conjugate(p).w == p.w
  {
  }

  lemma ConjRev3XS(a0: Quat, a1: Quat, p: Quat, q: Quat)
    requires a0.x == -q.x
    requires a0.y == -q.y
    requires a0.z == -q.z
    requires a0.w == q.w
    requires a1.x == -p.x
    requires a1.y == -p.y
    requires a1.z == -p.z
    requires a1.w == p.w
    ensures a0.w * a1.x + a0.x * a1.w + a0.y * a1.z - a0.z * a1.y == q.w * (-p.x) + (-q.x) * p.w + (-q.y) * (-p.z) - (-q.z) * (-p.y)
  {
  }

  lemma ConjRev3X(p: Quat, q: Quat)
    ensures Hamilton(Conjugate(q), Conjugate(p)).x == q.w * (-p.x) + (-q.x) * p.w + (-q.y) * (-p.z) - (-q.z) * (-p.y)
  {
    ConjRev4X(q);
    ConjRev5Y(q);
    ConjRev6Z(q);
    ConjRev7W(q);
    ConjRev8X(p);
    ConjRev9Y(p);
    ConjRev10Z(p);
    ConjRev11W(p);
    UnfoldHamiltonX(Conjugate(q), Conjugate(p));
    ConjRev3XS(Conjugate(q), Conjugate(p), p, q);
  }

  lemma ConjRev12XP(p: Quat, q: Quat)
    ensures -(p.w * q.x + p.x * q.w + p.y * q.z - p.z * q.y) == q.w * (-p.x) + (-q.x) * p.w + (-q.y) * (-p.z) - (-q.z) * (-p.y)
  {
  }

  lemma ConjRev12X(p: Quat, q: Quat)
    ensures Conjugate(Hamilton(p, q)).x == Hamilton(Conjugate(q), Conjugate(p)).x
  {
    ConjRev1X(p, q);
    ConjRev3X(p, q);
    ConjRev12XP(p, q);
  }

  lemma ConjRev14Y(p: Quat, q: Quat)
    ensures Hamilton(p, q).y == p.w * q.y + p.y * q.w + p.z * q.x - p.x * q.z
  {
    UnfoldHamiltonY(p, q);
  }

  lemma ConjRev13YS(a0: Quat, p: Quat, q: Quat)
    requires a0.y == p.w * q.y + p.y * q.w + p.z * q.x - p.x * q.z
    ensures Conjugate(a0).y == -(p.w * q.y + p.y * q.w + p.z * q.x - p.x * q.z)
  {
  }

  lemma ConjRev13Y(p: Quat, q: Quat)
    ensures Conjugate(Hamilton(p, q)).y == -(p.w * q.y + p.y * q.w + p.z * q.x - p.x * q.z)
  {
    ConjRev14Y(p, q);
    ConjRev13YS(Hamilton(p, q), p, q);
  }

  lemma ConjRev15YS(a0: Quat, a1: Quat, p: Quat, q: Quat)
    requires a0.x == -q.x
    requires a0.y == -q.y
    requires a0.z == -q.z
    requires a0.w == q.w
    requires a1.x == -p.x
    requires a1.y == -p.y
    requires a1.z == -p.z
    requires a1.w == p.w
    ensures a0.w * a1.y + a0.y * a1.w + a0.z * a1.x - a0.x * a1.z == q.w * (-p.y) + (-q.y) * p.w + (-q.z) * (-p.x) - (-q.x) * (-p.z)
  {
  }

  lemma ConjRev15Y(p: Quat, q: Quat)
    ensures Hamilton(Conjugate(q), Conjugate(p)).y == q.w * (-p.y) + (-q.y) * p.w + (-q.z) * (-p.x) - (-q.x) * (-p.z)
  {
    ConjRev4X(q);
    ConjRev5Y(q);
    ConjRev6Z(q);
    ConjRev7W(q);
    ConjRev8X(p);
    ConjRev9Y(p);
    ConjRev10Z(p);
    ConjRev11W(p);
    UnfoldHamiltonY(Conjugate(q), Conjugate(p));
    ConjRev15YS(Conjugate(q), Conjugate(p), p, q);
  }

  lemma ConjRev16YP(p: Quat, q: Quat)
    ensures -(p.w * q.y + p.y * q.w + p.z * q.x - p.x * q.z) == q.w * (-p.y) + (-q.y) * p.w + (-q.z) * (-p.x) - (-q.x) * (-p.z)
  {
  }

  lemma ConjRev16Y(p: Quat, q: Quat)
    ensures Conjugate(Hamilton(p, q)).y == Hamilton(Conjugate(q), Conjugate(p)).y
  {
    ConjRev13Y(p, q);
    ConjRev15Y(p, q);
    ConjRev16YP(p, q);
  }

  lemma ConjRev18Z(p: Quat, q: Quat)
    ensures Hamilton(p, q).z == p.w * q.z + p.z * q.w + p.x * q.y - p.y * q.x
  {
    UnfoldHamiltonZ(p, q);
  }

  lemma ConjRev17ZS(a0: Quat, p: Quat, q: Quat)
    requires a0.z == p.w * q.z + p.z * q.w + p.x * q.y - p.y * q.x
    ensures Conjugate(a0).z == -(p.w * q.z + p.z * q.w + p.x * q.y - p.y * q.x)
  {
  }

  lemma ConjRev17Z(p: Quat, q: Quat)
    ensures Conjugate(Hamilton(p, q)).z == -(p.w * q.z + p.z * q.w + p.x * q.y - p.y * q.x)
  {
    ConjRev18Z(p, q);
    ConjRev17ZS(Hamilton(p, q), p, q);
  }

  lemma ConjRev19ZS(a0: Quat, a1: Quat, p: Quat, q: Quat)
    requires a0.x == -q.x
    requires a0.y == -q.y
    requires a0.z == -q.z
    requires a0.w == q.w
    requires a1.x == -p.x
    requires a1.y == -p.y
    requires a1.z == -p.z
    requires a1.w == p.w
    ensures a0.w * a1.z + a0.z * a1.w + a0.x * a1.y - a0.y * a1.x == q.w * (-p.z) + (-q.z) * p.w + (-q.x) * (-p.y) - (-q.y) * (-p.x)
  {
  }

  lemma ConjRev19Z(p: Quat, q: Quat)
    ensures Hamilton(Conjugate(q), Conjugate(p)).z == q.w * (-p.z) + (-q.z) * p.w + (-q.x) * (-p.y) - (-q.y) * (-p.x)
  {
    ConjRev4X(q);
    ConjRev5Y(q);
    ConjRev6Z(q);
    ConjRev7W(q);
    ConjRev8X(p);
    ConjRev9Y(p);
    ConjRev10Z(p);
    ConjRev11W(p);
    UnfoldHamiltonZ(Conjugate(q), Conjugate(p));
    ConjRev19ZS(Conjugate(q), Conjugate(p), p, q);
  }

  lemma ConjRev20ZP(p: Quat, q: Quat)
    ensures -(p.w * q.z + p.z * q.w + p.x * q.y - p.y * q.x) == q.w * (-p.z) + (-q.z) * p.w + (-q.x) * (-p.y) - (-q.y) * (-p.x)
  {
  }

  lemma ConjRev20Z(p: Quat, q: Quat)
    ensures Conjugate(Hamilton(p, q)).z == Hamilton(Conjugate(q), Conjugate(p)).z
  {
    ConjRev17Z(p, q);
    ConjRev19Z(p, q);
    ConjRev20ZP(p, q);
  }

  lemma ConjRev22W(p: Quat, q: Quat)
    ensures Hamilton(p, q).w == p.w * q.w - p.x * q.x - p.y * q.y - p.z * q.z
  {
    UnfoldHamiltonW(p, q);
  }

  lemma ConjRev21WS(a0: Quat, p: Quat, q: Quat)
    requires a0.w == p.w * q.w - p.x * q.x - p.y * q.y - p.z * q.z
    ensures Conjugate(a0).w == p.w * q.w - p.x * q.x - p.y * q.y - p.z * q.z
  {
  }

  lemma ConjRev21W(p: Quat, q: Quat)
    ensures Conjugate(Hamilton(p, q)).w == p.w * q.w - p.x * q.x - p.y * q.y - p.z * q.z
  {
    ConjRev22W(p, q);
    ConjRev21WS(Hamilton(p, q), p, q);
  }

  lemma ConjRev23WS(a0: Quat, a1: Quat, p: Quat, q: Quat)
    requires a0.x == -q.x
    requires a0.y == -q.y
    requires a0.z == -q.z
    requires a0.w == q.w
    requires a1.x == -p.x
    requires a1.y == -p.y
    requires a1.z == -p.z
    requires a1.w == p.w
    ensures a0.w * a1.w - a0.x * a1.x - a0.y * a1.y - a0.z * a1.z == q.w * p.w - (-q.x) * (-p.x) - (-q.y) * (-p.y) - (-q.z) * (-p.z)
  {
  }

  lemma ConjRev23W(p: Quat, q: Quat)
    ensures Hamilton(Conjugate(q), Conjugate(p)).w == q.w * p.w - (-q.x) * (-p.x) - (-q.y) * (-p.y) - (-q.z) * (-p.z)
  {
    ConjRev4X(q);
    ConjRev5Y(q);
    ConjRev6Z(q);
    ConjRev7W(q);
    ConjRev8X(p);
    ConjRev9Y(p);
    ConjRev10Z(p);
    ConjRev11W(p);
    UnfoldHamiltonW(Conjugate(q), Conjugate(p));
    ConjRev23WS(Conjugate(q), Conjugate(p), p, q);
  }

  lemma ConjRev24WP(p: Quat, q: Quat)
    ensures p.w * q.w - p.x * q.x - p.y * q.y - p.z * q.z == q.w * p.w - (-q.x) * (-p.x) - (-q.y) * (-p.y) - (-q.z) * (-p.z)
  {
  }

  lemma ConjRev24W(p: Quat, q: Quat)
    ensures Conjugate(Hamilton(p, q)).w == Hamilton(Conjugate(q), Conjugate(p)).w
  {
    ConjRev21W(p, q);
    ConjRev23W(p, q);
    ConjRev24WP(p, q);
  }

  /** A quaternion times its conjugate, on either side, is (0, 0, 0, length2). */
  lemma {:induction false} ConjugateProduct(q: Quat)
    ensures Hamilton(q, Conjugate(q)) == Quat(0.0, 0.0, 0.0, Length2(q))
    ensures Hamilton(Conjugate(q), q) == Quat(0.0, 0.0, 0.0, Length2(q))
  {
    ConjProdR7X(q);
    ConjProdR10Y(q);
    ConjProdR13Z(q);
    ConjProdR17W(q);
    ConjProdL7X(q);
    ConjProdL10Y(q);
    ConjProdL13Z(q);
    ConjProdL17W(q);
  }

  // Component-wise steps of ConjugateProduct: ConjProdR proves q conj(q) = (0, 0, 0, length2) and ConjProdL the same for conj(q) q: each component is brought to a polynomial in the
  // coordinates, and the two polynomials are compared.
  // Naming: <Group><n><C> states component C (X, Y, Z or W) of one sub-term as a polynomial in
  // the coordinates; a name ending in S substitutes already-expanded operands into the outer
  // formula; a name ending in P is the bare polynomial identity between the two sides; and the
  // last unsuffixed lemma of each component states that component of the identity itself.

  lemma ConjProdR2X(q: Quat)
    ensures Conjugate(q).x == -q.x
  {
  }

  lemma ConjProdR3Y(q: Quat)
    ensures Conjugate(q).y == -q.y
  {
  }

  lemma ConjProdR4Z(q: Quat)
    ensures Conjugate(q).z == -q.z
  {
  }

  lemma ConjProdR5W(q: Quat)
    ensures Conjugate(q).w == q.w
  {
  }

  lemma ConjProdR1XS(a1: Quat, q: Quat)
    requires a1.x == -q.x
    requires a1.y == -q.y
    requires a1.z == -q.z
    requires a1.w == q.w
    ensures q.w * a1.x + q.x * a1.w + q.y * a1.z - q.z * a1.y == q.w * (-q.x) + q.x * q.w + q.y * (-q.z) - q.z * (-q.y)
  {
  }

  lemma ConjProdR1X(q: Quat)
    ensures Hamilton(q, Conjugate(q)).x == q.w * (-q.x) + q.x * q.w + q.y * (-q.z) - q.z * (-q.y)
  {
    ConjProdR2X(q);
    ConjProdR3Y(q);
    ConjProdR4Z(q);
    ConjProdR5W(q);
    UnfoldHamiltonX(q, Conjugate(q));
    ConjProdR1XS(Conjugate(q), q);
  }

  lemma ConjProdR6XS(a3: real, q: Quat)
    ensures Quat(0.0, 0.0, 0.0, a3).x == 0.0
  {
  }

  lemma ConjProdR6X(q: Quat)
    ensures Quat(0.0, 0.0, 0.0, Length2(q)).x == 0.0
  {
    ConjProdR6XS(Length2(q), q);
  }

  lemma ConjProdR7XP(q: Quat)
    ensures q.w * (-q.x) + q.x * q.w + q.y * (-q.z) - q.z * (-q.y) == 0.0
  {
  }

  lemma ConjProdR7X(q: Quat)
    ensures Hamilton(q, Conjugate(q)).x == Quat(0.0, 0.0, 0.0, Length2(q)).x
  {
    ConjProdR1X(q);
    ConjProdR6X(q);
    ConjProdR7XP(q);
  }

  lemma ConjProdR8YS(a1: Quat, q: Quat)
    requires a1.x == -q.x
    requires a1.y == -q.y
    requires a1.z == -q.z
    requires a1.w == q.w
    ensures q.w * a1.y + q.y * a1.w + q.z * a1.x - q.x * a1.z == q.w * (-q.y) + q.y * q.w + q.z * (-q.x) - q.x * (-q.z)
  {
  }

  lemma ConjProdR8Y(q: Quat)
    ensures Hamilton(q, Conjugate(q)).y == q.w * (-q.y) + q.y * q.w + q.z * (-q.x) - q.x * (-q.z)
  {
    ConjProdR2X(q);
    ConjProdR3Y(q);
    ConjProdR4Z(q);
    ConjProdR5W(q);
    UnfoldHamiltonY(q, Conjugate(q));
    ConjProdR8YS(Conjugate(q), q);
  }

  lemma ConjProdR9YS(a3: real, q: Quat)
    ensures Quat(0.0, 0.0, 0.0, a3).y == 0.0
  {
  }

  lemma ConjProdR9Y(q: Quat)
    ensures Quat(0.0, 0.0, 0.0, Length2(q)).y == 0.0
  {
    ConjProdR9YS(Length2(q), q);
  }

  lemma ConjProdR10YP(q: Quat)
    ensures q.w * (-q.y) + q.y * q.w + q.z * (-q.x) - q.x * (-q.z) == 0.0
  {
  }

  lemma ConjProdR10Y(q: Quat)
    ensures Hamilton(q, Conjugate(q)).y == Quat(0.0, 0.0, 0.0, Length2(q)).y
  {
    ConjProdR8Y(q);
    ConjProdR9Y(q);
    ConjProdR10YP(q);
  }

  lemma ConjProdR11ZS(a1: Quat, q: Quat)
    requires a1.x == -q.x
    requires a1.y == -q.y
    requires a1.z == -q.z
    requires a1.w == q.w
    ensures q.w * a1.z + q.z * a1.w + q.x * a1.y - q.y * a1.x == q.w * (-q.z) + q.z * q.w + q.x * (-q.y) - q.y * (-q.x)
  {
  }

  lemma ConjProdR11Z(q: Quat)
    ensures Hamilton(q, Conjugate(q)).z == q.w * (-q.z) + q.z * q.w + q.x * (-q.y) - q.y * (-q.x)
  {
    ConjProdR2X(q);
    ConjProdR3Y(q);
    ConjProdR4Z(q);
    ConjProdR5W(q);
    UnfoldHamiltonZ(q, Conjugate(q));
    ConjProdR11ZS(Conjugate(q), q);
  }

  lemma ConjProdR12ZS(a3: real, q: Quat)
    ensures Quat(0.0, 0.0, 0.0, a3).z == 0.0
  {
  }

  lemma ConjProdR12Z(q: Quat)
    ensures Quat(0.0, 0.0, 0.0, Length2(q)).z == 0.0
  {
    ConjProdR12ZS(Length2(q), q);
  }

  lemma ConjProdR13ZP(q: Quat)
    ensures q.w * (-q.z) + q.z * q.w + q.x * (-q.y) - q.y * (-q.x) == 0.0
  {
  }

  lemma ConjProdR13Z(q: Quat)
    ensures Hamilton(q, Conjugate(q)).z == Quat(0.0, 0.0, 0.0, Length2(q)).z
  {
    ConjProdR11Z(q);
    ConjProdR12Z(q);
    ConjProdR13ZP(q);
  }

  lemma ConjProdR14WS(a1: Quat, q: Quat)
    requires a1.x == -q.x
    requires a1.y == -q.y
    requires a1.z == -q.z
    requires a1.w == q.w
    ensures q.w * a1.w - q.x * a1.x - q.y * a1.y - q.z * a1.z == q.w * q.w - q.x * (-q.x) - q.y * (-q.y) - q.z * (-q.z)
  {
  }

  lemma ConjProdR14W(q: Quat)
    ensures Hamilton(q, Conjugate(q)).w == q.w * q.w - q.x * (-q.x) - q.y * (-q.y) - q.z * (-q.z)
  {
    ConjProdR2X(q);
    ConjProdR3Y(q);
    ConjProdR4Z(q);
    ConjProdR5W(q);
    UnfoldHamiltonW(q, Conjugate(q));
    ConjProdR14WS(Conjugate(q), q);
  }

  lemma ConjProdR16(q: Quat)
    ensures Length2(q) == q.x * q.x + q.y * q.y + q.z * q.z + q.w * q.w
  {
    UnfoldLength2(q);
  }

  lemma ConjProdR15WS(a3: real, q: Quat)
    requires a3 == q.x * q.x + q.y * q.y + q.z * q.z + q.w * q.w
    ensures Quat(0.0, 0.0, 0.0, a3).w == q.x * q.x + q.y * q.y + q.z * q.z + q.w * q.w
  {
  }

  lemma ConjProdR15W(q: Quat)
    ensures Quat(0.0, 0.0, 0.0, Length2(q)).w == q.x * q.x + q.y * q.y + q.z * q.z + q.w * q.w
  {
    ConjProdR16(q);
    ConjProdR15WS(Length2(q), q);
  }

  lemma ConjProdR17WP(q: Quat)
    ensures q.w * q.w - q.x * (-q.x) - q.y * (-q.y) - q.z * (-q.z) == q.x * q.x + q.y * q.y + q.z * q.z + q.w * q.w
  {
  }

  lemma ConjProdR17W(q: Quat)
    ensures Hamilton(q, Conjugate(q)).w == Quat(0.0, 0.0, 0.0, Length2(q)).w
  {
    ConjProdR14W(q);
    ConjProdR15W(q);
    ConjProdR17WP(q);
  }

  lemma ConjProdL2X(q: Quat)
    ensures Conjugate(q).x == -q.x
  {
  }

  lemma ConjProdL3Y(q: Quat)
    ensures Conjugate(q).y == -q.y
  {
  }

  lemma ConjProdL4Z(q: Quat)
    ensures Conjugate(q).z == -q.z
  {
  }

  lemma ConjProdL5W(q: Quat)
    ensures Conjugate(q).w == q.w
  {
  }

  lemma ConjProdL1XS(a0: Quat, q: Quat)
    requires a0.x == -q.x
    requires a0.y == -q.y
    requires a0.z == -q.z
    requires a0.w == q.w
    ensures a0.w * q.x + a0.x * q.w + a0.y * q.z - a0.z * q.y == q.w * q.x + (-q.x) * q.w + (-q.y) * q.z - (-q.z) * q.y
  {
  }

  lemma ConjProdL1X(q: Quat)
    ensures Hamilton(Conjugate(q), q).x == q.w * q.x + (-q.x) * q.w + (-q.y) * q.z - (-q.z) * q.y
  {
    ConjProdL2X(q);
    ConjProdL3Y(q);
    ConjProdL4Z(q);
    ConjProdL5W(q);
    UnfoldHamiltonX(Conjugate(q), q);
    ConjProdL1XS(Conjugate(q), q);
  }

  lemma ConjProdL6XS(a3: real, q: Quat)
    ensures Quat(0.0, 0.0, 0.0, a3).x == 0.0
  {
  }

  lemma ConjProdL6X(q: Quat)
    ensures Quat(0.0, 0.0, 0.0, Length2(q)).x == 0.0
  {
    ConjProdL6XS(Length2(q), q);
  }

  lemma ConjProdL7XP(q: Quat)
    ensures q.w * q.x + (-q.x) * q.w + (-q.y) * q.z - (-q.z) * q.y == 0.0
  {
  }

  lemma ConjProdL7X(q: Quat)
    ensures Hamilton(Conjugate(q), q).x == Quat(0.0, 0.0, 0.0, Length2(q)).x
  {
    ConjProdL1X(q);
    ConjProdL6X(q);
    ConjProdL7XP(q);
  }

  lemma ConjProdL8YS(a0: Quat, q: Quat)
    requires a0.x == -q.x
    requires a0.y == -q.y
    requires a0.z == -q.z
    requires a0.w == q.w
    ensures a0.w * q.y + a0.y * q.w + a0.z * q.x - a0.x * q.z == q.w * q.y + (-q.y) * q.w + (-q.z) * q.x - (-q.x) * q.z
  {
  }

  lemma ConjProdL8Y(q: Quat)
    ensures Hamilton(Conjugate(q), q).y == q.w * q.y + (-q.y) * q.w + (-q.z) * q.x - (-q.x) * q.z
  {
    ConjProdL2X(q);
    ConjProdL3Y(q);
    ConjProdL4Z(q);
    ConjProdL5W(q);
    UnfoldHamiltonY(Conjugate(q), q);
    ConjProdL8YS(Conjugate(q), q);
  }

  lemma ConjProdL9YS(a3: real, q: Quat)
    ensures Quat(0.0, 0.0, 0.0, a3).y == 0.0
  {
  }

  lemma ConjProdL9Y(q: Quat)
    ensures Quat(0.0, 0.0, 0.0, Length2(q)).y == 0.0
  {
    ConjProdL9YS(Length2(q), q);
  }

  lemma ConjProdL10YP(q: Quat)
    ensures q.w * q.y + (-q.y) * q.w + (-q.z) * q.x - (-q.x) * q.z == 0.0
  {
  }

  lemma ConjProdL10Y(q: Quat)
    ensures Hamilton(Conjugate(q), q).y == Quat(0.0, 0.0, 0.0, Length2(q)).y
  {
    ConjProdL8Y(q);
    ConjProdL9Y(q);
    ConjProdL10YP(q);
  }

  lemma ConjProdL11ZS(a0: Quat, q: Quat)
    requires a0.x == -q.x
    requires a0.y == -q.y
    requires a0.z == -q.z
    requires a0.w == q.w
    ensures a0.w * q.z + a0.z * q.w + a0.x * q.y - a0.y * q.x == q.w * q.z + (-q.z) * q.w + (-q.x) * q.y - (-q.y) * q.x
  {
  }

  lemma ConjProdL11Z(q: Quat)
    ensures Hamilton(Conjugate(q), q).z == q.w * q.z + (-q.z) * q.w + (-q.x) * q.y - (-q.y) * q.x
  {
    ConjProdL2X(q);
    ConjProdL3Y(q);
    ConjProdL4Z(q);
    ConjProdL5W(q);
    UnfoldHamiltonZ(Conjugate(q), q);
    ConjProdL11ZS(Conjugate(q), q);
  }

  lemma ConjProdL12ZS(a3: real, q: Quat)
    ensures Quat(0.0, 0.0, 0.0, a3).z == 0.0
  {
  }

  lemma ConjProdL12Z(q: Quat)
    ensures Quat(0.0, 0.0, 0.0, Length2(q)).z == 0.0
  {
    ConjProdL12ZS(Length2(q), q);
  }

  lemma ConjProdL13ZP(q: Quat)
    ensures q.w * q.z + (-q.z) * q.w + (-q.x) * q.y - (-q.y) * q.x == 0.0
  {
  }

  lemma ConjProdL13Z(q: Quat)
    ensures Hamilton(Conjugate(q), q).z == Quat(0.0, 0.0, 0.0, Length2(q)).z
  {
    ConjProdL11Z(q);
    ConjProdL12Z(q);
    ConjProdL13ZP(q);
  }

  lemma ConjProdL14WS(a0: Quat, q: Quat)
    requires a0.x == -q.x
    requires a0.y == -q.y
    requires a0.z == -q.z
    requires a0.w == q.w
    ensures a0.w * q.w - a0.x * q.x - a0.y * q.y - a0.z * q.z == q.w * q.w - (-q.x) * q.x - (-q.y) * q.y - (-q.z) * q.z
  {
  }

  lemma ConjProdL14W(q: Quat)
    ensures Hamilton(Conjugate(q), q).w == q.w * q.w - (-q.x) * q.x - (-q.y) * q.y - (-q.z) * q.z
  {
    ConjProdL2X(q);
    ConjProdL3Y(q);
    ConjProdL4Z(q);
    ConjProdL5W(q);
    UnfoldHamiltonW(Conjugate(q), q);
    ConjProdL14WS(Conjugate(q), q);
  }

  lemma ConjProdL16(q: Quat)
    ensures Length2(q) == q.x * q.x + q.y * q.y + q.z * q.z + q.w * q.w
  {
    UnfoldLength2(q);
  }

  lemma ConjProdL15WS(a3: real, q: Quat)
    requires a3 == q.x * q.x + q.y * q.y + q.z * q.z + q.w * q.w
    ensures Quat(0.0, 0.0, 0.0, a3).w == q.x * q.x + q.y * q.y + q.z * q.z + q.w * q.w
  {
  }

  lemma ConjProdL15W(q: Quat)
    ensures Quat(0.0, 0.0, 0.0, Length2(q)).w == q.x * q.x + q.y * q.y + q.z * q.z + q.w * q.w
  {
    ConjProdL16(q);
    ConjProdL15WS(Length2(q), q);
  }

  lemma ConjProdL17WP(q: Quat)
    ensures q.w * q.w - (-q.x) * q.x - (-q.y) * q.y - (-q.z) * q.z == q.x * q.x + q.y * q.y + q.z * q.z + q.w * q.w
  {
  }

  lemma ConjProdL17W(q: Quat)
    ensures Hamilton(Conjugate(q), q).w == Quat(0.0, 0.0, 0.0, Length2(q)).w
  {
    ConjProdL14W(q);
    ConjProdL15W(q);
    ConjProdL17WP(q);
  }

  /** inverse()/Inverse(): `conjugate() / length2()`. The division is unchecked, so the
      model requires a non-zero quaternion; the result is then a two-sided inverse. */
  function Inverse(q: Quat): (r: Quat)
    requires Length2(q) != 0.0
    ensures r == Scale(Conjugate(q), 1.0 / Length2(q))
    ensures Hamilton(q, r) == Identity
    ensures Hamilton(r, q) == Identity
  {
    var n := Length2(q);
    DivScalarIsScale(Conjugate(q), n);
    ConjugateProduct(q);
    HamiltonScale(q, Conjugate(q), 1.0 / n);
    HamiltonScale(Conjugate(q), q, 1.0 / n);
    DivScalar(Conjugate(q), n)
  }

  /** The inverse of a unit quaternion is its conjugate. */
  lemma UnitInverse(q: Quat)
    requires IsUnit(q)
    ensures Length2(q) == 1.0 && Inverse(q) == Conjugate(q)
  {
  }

  /** normalize() in FQuat and the template: identity (0, 0, 0, 1) when the length is not
      positive, otherwise every component times 1 / length, with `length` the value of
      sqrt(length2()). The guard holds exactly for Zero; otherwise the factor is positive
      and the result is a unit quaternion. */
  function NormalizeGuarded(q: Quat, length: real): (r: Quat)
    requires IsSqrt(Length2(q), length)
    ensures length <= 0.0 <==> q == Zero
    ensures q == Zero ==> r == Identity
    ensures q != Zero ==> 1.0 / length > 0.0 && r == Scale(q, 1.0 / length) && IsUnit(r)
  {
    SqrtPositive(Length2(q), length);
    if length <= 0.0 then
      Identity
    else
      var oneOverLen := 1.0 / length;
      Length2Scale(q, oneOverLen);
      CancelSquare(Length2(q), length, oneOverLen);
      Scale(q, oneOverLen)
  }

  /** The factor 1 / length cancels the square of the length. */
  lemma CancelSquare(l2: real, length: real, k: real)
    requires length > 0.0 && length * length == l2 && k == 1.0 / length
    ensures k * k * l2 == 1.0
  {
    assert k * length == 1.0;
    calc {
      k * k * l2;
      == (k * length) * (k * length);
    }
  }

  /** operator== compares all four components; operator!= is its complement. */
  function Equal(p: Quat, q: Quat): (r: bool)
    ensures r <==> p == q
  {
    p.x == q.x && p.y == q.y && p.z == q.z && p.w == q.w
  }

  /** operator!= is true when some component differs. */
  function NotEqual(p: Quat, q: Quat): (r: bool)
    ensures r <==> !Equal(p, q)
  {
    p.x != q.x || p.y != q.y || p.z != q.z || p.w != q.w
  }

  /** operator*(FVec3) in FQuat and the template: with u the vector part,
      `v + ((u x v) * w + u x (u x v)) * 2`. */
  function RotateVector(q: Quat, v: Vec3): Vec3
  {
    var u := VectorPart(q);
    var uv := FVec3.Cross(u, v);
    var uuv := FVec3.Cross(u, uv);
    FVec3.Add(v, FVec3.Multiply(FVec3.Add(FVec3.Multiply(uv, q.w), uuv), 2.0))
  }

  /** For every q, q (v, 0) conj(q) is a pure quaternion whose vector part is the closed form
      plus (length2(q) - 1) v. */
  lemma {:induction false} SandwichClosedForm(q: Quat, v: Vec3)
    ensures Hamilton(Hamilton(q, Pure(v)), Conjugate(q))
            == Pure(FVec3.Add(RotateVector(q, v), FVec3.Multiply(v, Length2(q) - 1.0)))
  {
    Sandwich31X(q, v);
    Sandwich42Y(q, v);
    Sandwich53Z(q, v);
    Sandwich56W(q, v);
  }

  // Component-wise steps of SandwichClosedForm, q (v, 0) conj(q) = (closed form + (length2 - 1) v, 0): each component is brought to a polynomial in the
  // coordinates, and the two polynomials are compared.
  // Naming: <Group><n><C> states component C (X, Y, Z or W) of one sub-term as a polynomial in
  // the coordinates; a name ending in S substitutes already-expanded operands into the outer
  // formula; a name ending in P is the bare polynomial identity between the two sides; and the
  // last unsuffixed lemma of each component states that component of the identity itself.

  lemma Sandwich3X(v: Vec3)
    ensures Pure(v).x == v.x
  {
  }

  lemma Sandwich4Y(v: Vec3)
    ensures Pure(v).y == v.y
  {
  }

  lemma Sandwich5Z(v: Vec3)
    ensures Pure(v).z == v.z
  {
  }

  lemma Sandwich6W(v: Vec3)
    ensures Pure(v).w == 0.0
  {
  }

  lemma Sandwich2XS(a1: Quat, q: Quat, v: Vec3)
    requires a1.x == v.x
    requires a1.y == v.y
    requires a1.z == v.z
    requires a1.w == 0.0
    ensures q.w * a1.x + q.x * a1.w + q.y * a1.z - q.z * a1.y == q.w * v.x + q.x * 0.0 + q.y * v.z - q.z * v.y
  {
  }

  lemma Sandwich2X(q: Quat, v: Vec3)
    ensures Hamilton(q, Pure(v)).x == q.w * v.x + q.x * 0.0 + q.y * v.z - q.z * v.y
  {
    Sandwich3X(v);
    Sandwich4Y(v);
    Sandwich5Z(v);
    Sandwich6W(v);
    UnfoldHamiltonX(q, Pure(v));
    Sandwich2XS(Pure(v), q, v);
  }

  lemma Sandwich7YS(a1: Quat, q: Quat, v: Vec3)
    requires a1.x == v.x
    requires a1.y == v.y
    requires a1.z == v.z
    requires a1.w == 0.0
    ensures q.w * a1.y + q.y * a1.w + q.z * a1.x - q.x * a1.z == q.w * v.y + q.y * 0.0 + q.z * v.x - q.x * v.z
  {
  }

  lemma Sandwich7Y(q: Quat, v: Vec3)
    ensures Hamilton(q, Pure(v)).y == q.w * v.y + q.y * 0.0 + q.z * v.x - q.x * v.z
  {
    Sandwich3X(v);
    Sandwich4Y(v);
    Sandwich5Z(v);
    Sandwich6W(v);
    UnfoldHamiltonY(q, Pure(v));
    Sandwich7YS(Pure(v), q, v);
  }

  lemma Sandwich8ZS(a1: Quat, q: Quat, v: Vec3)
    requires a1.x == v.x
    requires a1.y == v.y
    requires a1.z == v.z
    requires a1.w == 0.0
    ensures q.w * a1.z + q.z * a1.w + q.x * a1.y - q.y * a1.x == q.w * v.z + q.z * 0.0 + q.x * v.y - q.y * v.x
  {
  }

  lemma Sandwich8Z(q: Quat, v: Vec3)
    ensures Hamilton(q, Pure(v)).z == q.w * v.z + q.z * 0.0 + q.x * v.y - q.y * v.x
  {
    Sandwich3X(v);
    Sandwich4Y(v);
    Sandwich5Z(v);
    Sandwich6W(v);
    UnfoldHamiltonZ(q, Pure(v));
    Sandwich8ZS(Pure(v), q, v);
  }

  lemma Sandwich9WS(a1: Quat, q: Quat, v: Vec3)
    requires a1.x == v.x
    requires a1.y == v.y
    requires a1.z == v.z
    requires a1.w == 0.0
    ensures q.w * a1.w - q.x * a1.x - q.y * a1.y - q.z * a1.z == q.w * 0.0 - q.x * v.x - q.y * v.y - q.z * v.z
  {
  }

  lemma Sandwich9W(q: Quat, v: Vec3)
    ensures Hamilton(q, Pure(v)).w == q.w * 0.0 - q.x * v.x - q.y * v.y - q.z * v.z
  {
    Sandwich3X(v);
    Sandwich4Y(v);
    Sandwich5Z(v);
    Sandwich6W(v);
    UnfoldHamiltonW(q, Pure(v));
    Sandwich9WS(Pure(v), q, v);
  }

  lemma Sandwich10X(q: Quat)
    ensures Conjugate(q).x == -q.x
  {
  }

  lemma Sandwich11Y(q: Quat)
    ensures Conjugate(q).y == -q.y
  {
  }

  lemma Sandwich12Z(q: Quat)
    ensures Conjugate(q).z == -q.z
  {
  }

  lemma Sandwich13W(q: Quat)
    ensures Conjugate(q).w == q.w
  {
  }

  lemma Sandwich1XS(a0: Quat, a1: Quat, q: Quat, v: Vec3)
    requires a0.x == q.w * v.x + q.x * 0.0 + q.y * v.z - q.z * v.y
    requires a0.y == q.w * v.y + q.y * 0.0 + q.z * v.x - q.x * v.z
    requires a0.z == q.w * v.z + q.z * 0.0 + q.x * v.y - q.y * v.x
    requires a0.w == q.w * 0.0 - q.x * v.x - q.y * v.y - q.z * v.z
    requires a1.x == -q.x
    requires a1.y == -q.y
    requires a1.z == -q.z
    requires a1.w == q.w
    ensures a0.w * a1.x + a0.x * a1.w + a0.y * a1.z - a0.z * a1.y == (q.w * 0.0 - q.x * v.x - q.y * v.y - q.z * v.z) * (-q.x) + (q.w * v.x + q.x * 0.0 + q.y * v.z - q.z * v.y) * q.w + (q.w * v.y + q.y * 0.0 + q.z * v.x - q.x * v.z) * (-q.z) - (q.w * v.z + q.z * 0.0 + q.x * v.y - q.y * v.x) * (-q.y)
  {
  }

  lemma Sandwich1X(q: Quat, v: Vec3)
    ensures Hamilton(Hamilton(q, Pure(v)), Conjugate(q)).x == (q.w * 0.0 - q.x * v.x - q.y * v.y - q.z * v.z) * (-q.x) + (q.w * v.x + q.x * 0.0 + q.y * v.z - q.z * v.y) * q.w + (q.w * v.y + q.y * 0.0 + q.z * v.x - q.x * v.z) * (-q.z) - (q.w * v.z + q.z * 0.0 + q.x * v.y - q.y * v.x) * (-q.y)
  {
    Sandwich2X(q, v);
    Sandwich7Y(q, v);
    Sandwich8Z(q, v);
    Sandwich9W(q, v);
    Sandwich10X(q);
    Sandwich11Y(q);
    Sandwich12Z(q);
    Sandwich13W(q);
    UnfoldHamiltonX(Hamilton(q, Pure(v)), Conjugate(q));
    Sandwich1XS(Hamilton(q, Pure(v)), Conjugate(q), q, v);
  }

  lemma Sandwich22Y(q: Quat)
    ensures VectorPart(q).y == q.y
  {
  }

  lemma Sandwich23Z(q: Quat)
    ensures VectorPart(q).z == q.z
  {
  }

  lemma Sandwich21XS(a0: Vec3, q: Quat, v: Vec3)
    requires a0.y == q.y
    requires a0.z == q.z
    ensures a0.y * v.z - a0.z * v.y == q.y * v.z - q.z * v.y
  {
  }

  lemma Sandwich21X(q: Quat, v: Vec3)
    ensures FVec3.Cross(VectorPart(q), v).x == q.y * v.z - q.z * v.y
  {
    Sandwich22Y(q);
    Sandwich23Z(q);
    UnfoldCrossX(VectorPart(q), v);
    Sandwich21XS(VectorPart(q), q, v);
  }

  lemma Sandwich20XS(a0: Vec3, q: Quat, v: Vec3)
    requires a0.x == q.y * v.z - q.z * v.y
    ensures FVec3.Multiply(a0, q.w).x == (q.y * v.z - q.z * v.y) * q.w
  {
  }

  lemma Sandwich20X(q: Quat, v: Vec3)
    ensures FVec3.Multiply(FVec3.Cross(VectorPart(q), v), q.w).x == (q.y * v.z - q.z * v.y) * q.w
  {
    Sandwich21X(q, v);
    Sandwich20XS(FVec3.Cross(VectorPart(q), v), q, v);
  }

  lemma Sandwich26X(q: Quat)
    ensures VectorPart(q).x == q.x
  {
  }

  lemma Sandwich25YS(a0: Vec3, q: Quat, v: Vec3)
    requires a0.x == q.x
    requires a0.z == q.z
    ensures a0.z * v.x - a0.x * v.z == q.z * v.x - q.x * v.z
  {
  }

  lemma Sandwich25Y(q: Quat, v: Vec3)
    ensures FVec3.Cross(VectorPart(q), v).y == q.z * v.x - q.x * v.z
  {
    Sandwich26X(q);
    Sandwich23Z(q);
    UnfoldCrossY(VectorPart(q), v);
    Sandwich25YS(VectorPart(q), q, v);
  }

  lemma Sandwich27ZS(a0: Vec3, q: Quat, v: Vec3)
    requires a0.x == q.x
    requires a0.y == q.y
    ensures a0.x * v.y - a0.y * v.x == q.x * v.y - q.y * v.x
  {
  }

  lemma Sandwich27Z(q: Quat, v: Vec3)
    ensures FVec3.Cross(VectorPart(q), v).z == q.x * v.y - q.y * v.x
  {
    Sandwich26X(q);
    Sandwich22Y(q);
    UnfoldCrossZ(VectorPart(q), v);
    Sandwich27ZS(VectorPart(q), q, v);
  }

  lemma Sandwich24XS(a0: Vec3, a1: Vec3, q: Quat, v: Vec3)
    requires a0.y == q.y
    requires a0.z == q.z
    requires a1.y == q.z * v.x - q.x * v.z
    requires a1.z == q.x * v.y - q.y * v.x
    ensures a0.y * a1.z - a0.z * a1.y == q.y * (q.x * v.y - q.y * v.x) - q.z * (q.z * v.x - q.x * v.z)
  {
  }

  lemma Sandwich24X(q: Quat, v: Vec3)
    ensures FVec3.Cross(VectorPart(q), FVec3.Cross(VectorPart(q), v)).x == q.y * (q.x * v.y - q.y * v.x) - q.z * (q.z * v.x - q.x * v.z)
  {
    Sandwich22Y(q);
    Sandwich23Z(q);
    Sandwich25Y(q, v);
    Sandwich27Z(q, v);
    UnfoldCrossX(VectorPart(q), FVec3.Cross(VectorPart(q), v));
    Sandwich24XS(VectorPart(q), FVec3.Cross(VectorPart(q), v), q, v);
  }

  lemma Sandwich19XS(a0: Vec3, a1: Vec3, q: Quat, v: Vec3)
    requires a0.x == (q.y * v.z - q.z * v.y) * q.w
    requires a1.x == q.y * (q.x * v.y - q.y * v.x) - q.z * (q.z * v.x - q.x * v.z)
    ensures FVec3.Add(a0, a1).x == ((q.y * v.z - q.z * v.y) * q.w) + (q.y * (q.x * v.y - q.y * v.x) - q.z * (q.z * v.x - q.x * v.z))
  {
  }

  lemma Sandwich19X(q: Quat, v: Vec3)
    ensures FVec3.Add(FVec3.Multiply(FVec3.Cross(VectorPart(q), v), q.w), FVec3.Cross(VectorPart(q), FVec3.Cross(VectorPart(q), v))).x == ((q.y * v.z - q.z * v.y) * q.w) + (q.y * (q.x * v.y - q.y * v.x) - q.z * (q.z * v.x - q.x * v.z))
  {
    Sandwich20X(q, v);
    Sandwich24X(q, v);
    Sandwich19XS(FVec3.Multiply(FVec3.Cross(VectorPart(q), v), q.w), FVec3.Cross(VectorPart(q), FVec3.Cross(VectorPart(q), v)), q, v);
  }

  lemma Sandwich18XS(a0: Vec3, q: Quat, v: Vec3)
    requires a0.x == ((q.y * v.z - q.z * v.y) * q.w) + (q.y * (q.x * v.y - q.y * v.x) - q.z * (q.z * v.x - q.x * v.z))
    ensures FVec3.Multiply(a0, 2.0).x == (((q.y * v.z - q.z * v.y) * q.w) + (q.y * (q.x * v.y - q.y * v.x) - q.z * (q.z * v.x - q.x * v.z))) * 2.0
  {
  }

  lemma Sandwich18X(q: Quat, v: Vec3)
    ensures FVec3.Multiply(FVec3.Add(FVec3.Multiply(FVec3.Cross(VectorPart(q), v), q.w), FVec3.Cross(VectorPart(q), FVec3.Cross(VectorPart(q), v))), 2.0).x == (((q.y * v.z - q.z * v.y) * q.w) + (q.y * (q.x * v.y - q.y * v.x) - q.z * (q.z * v.x - q.x * v.z))) * 2.0
  {
    Sandwich19X(q, v);
    Sandwich18XS(FVec3.Add(FVec3.Multiply(FVec3.Cross(VectorPart(q), v), q.w), FVec3.Cross(VectorPart(q), FVec3.Cross(VectorPart(q), v))), q, v);
  }

  lemma Sandwich17XS(a1: Vec3, q: Quat, v: Vec3)
    requires a1.x == (((q.y * v.z - q.z * v.y) * q.w) + (q.y * (q.x * v.y - q.y * v.x) - q.z * (q.z * v.x - q.x * v.z))) * 2.0
    ensures FVec3.Add(v, a1).x == v.x + ((((q.y * v.z - q.z * v.y) * q.w) + (q.y * (q.x * v.y - q.y * v.x) - q.z * (q.z * v.x - q.x * v.z))) * 2.0)
  {
  }

  lemma Sandwich17X(q: Quat, v: Vec3)
    ensures FVec3.Add(v, FVec3.Multiply(FVec3.Add(FVec3.Multiply(FVec3.Cross(VectorPart(q), v), q.w), FVec3.Cross(VectorPart(q), FVec3.Cross(VectorPart(q), v))), 2.0)).x == v.x + ((((q.y * v.z - q.z * v.y) * q.w) + (q.y * (q.x * v.y - q.y * v.x) - q.z * (q.z * v.x - q.x * v.z))) * 2.0)
  {
    Sandwich18X(q, v);
    Sandwich17XS(FVec3.Multiply(FVec3.Add(FVec3.Multiply(FVec3.Cross(VectorPart(q), v), q.w), FVec3.Cross(VectorPart(q), FVec3.Cross(VectorPart(q), v))), 2.0), q, v);
  }

  lemma RotateVectorExpandedX(q: Quat, v: Vec3)
    ensures RotateVector(q, v).x == v.x + ((((q.y * v.z - q.z * v.y) * q.w) + (q.y * (q.x * v.y - q.y * v.x) - q.z * (q.z * v.x - q.x * v.z))) * 2.0)
  {
    UnfoldRotateVector(q, v);
    Sandwich17X(q, v);
  }

  lemma Sandwich30(q: Quat)
    ensures Length2(q) == q.x * q.x + q.y * q.y + q.z * q.z + q.w * q.w
  {
    UnfoldLength2(q);
  }

  lemma Sandwich29S(a0: real, q: Quat)
    requires a0 == q.x * q.x + q.y * q.y + q.z * q.z + q.w * q.w
    ensures a0 - 1.0 == (q.x * q.x + q.y * q.y + q.z * q.z + q.w * q.w) - 1.0
  {
  }

  lemma Sandwich29(q: Quat)
    ensures Length2(q) - 1.0 == (q.x * q.x + q.y * q.y + q.z * q.z + q.w * q.w) - 1.0
  {
    Sandwich30(q);
    Sandwich29S(Length2(q), q);
  }

  lemma Sandwich28XS(a1: real, q: Quat, v: Vec3)
    requires a1 == (q.x * q.x + q.y * q.y + q.z * q.z + q.w * q.w) - 1.0
    ensures FVec3.Multiply(v, a1).x == v.x * ((q.x * q.x + q.y * q.y + q.z * q.z + q.w * q.w) - 1.0)
  {
  }

  lemma Sandwich28X(q: Quat, v: Vec3)
    ensures FVec3.Multiply(v, (Length2(q) - 1.0)).x == v.x * ((q.x * q.x + q.y * q.y + q.z * q.z + q.w * q.w) - 1.0)
  {
    Sandwich29(q);
    Sandwich28XS(Length2(q) - 1.0, q, v);
  }

  lemma Sandwich15XS(a0: Vec3, a1: Vec3, q: Quat, v: Vec3)
    requires a0.x == v.x + ((((q.y * v.z - q.z * v.y) * q.w) + (q.y * (q.x * v.y - q.y * v.x) - q.z * (q.z * v.x - q.x * v.z))) * 2.0)
    requires a1.x == v.x * ((q.x * q.x + q.y * q.y + q.z * q.z + q.w * q.w) - 1.0)
    ensures FVec3.Add(a0, a1).x == (v.x + ((((q.y * v.z - q.z * v.y) * q.w) + (q.y * (q.x * v.y - q.y * v.x) - q.z * (q.z * v.x - q.x * v.z))) * 2.0)) + (v.x * ((q.x * q.x + q.y * q.y + q.z * q.z + q.w * q.w) - 1.0))
  {
  }

  lemma Sandwich15X(q: Quat, v: Vec3)
    ensures FVec3.Add(RotateVector(q, v), FVec3.Multiply(v, (Length2(q) - 1.0))).x == (v.x + ((((q.y * v.z - q.z * v.y) * q.w) + (q.y * (q.x * v.y - q.y * v.x) - q.z * (q.z * v.x - q.x * v.z))) * 2.0)) + (v.x * ((q.x * q.x + q.y * q.y + q.z * q.z + q.w * q.w) - 1.0))
  {
    RotateVectorExpandedX(q, v);
    Sandwich28X(q, v);
    Sandwich15XS(RotateVector(q, v), FVec3.Multiply(v, (Length2(q) - 1.0)), q, v);
  }

  lemma Sandwich14XS(a0: Vec3, q: Quat, v: Vec3)
    requires a0.x == (v.x + ((((q.y * v.z - q.z * v.y) * q.w) + (q.y * (q.x * v.y - q.y * v.x) - q.z * (q.z * v.x - q.x * v.z))) * 2.0)) + (v.x * ((q.x * q.x + q.y * q.y + q.z * q.z + q.w * q.w) - 1.0))
    ensures Pure(a0).x == (v.x + ((((q.y * v.z - q.z * v.y) * q.w) + (q.y * (q.x * v.y - q.y * v.x) - q.z * (q.z * v.x - q.x * v.z))) * 2.0)) + (v.x * ((q.x * q.x + q.y * q.y + q.z * q.z + q.w * q.w) - 1.0))
  {
  }

  lemma Sandwich14X(q: Quat, v: Vec3)
    ensures Pure(FVec3.Add(RotateVector(q, v), FVec3.Multiply(v, (Length2(q) - 1.0)))).x == (v.x + ((((q.y * v.z - q.z * v.y) * q.w) + (q.y * (q.x * v.y - q.y * v.x) - q.z * (q.z * v.x - q.x * v.z))) * 2.0)) + (v.x * ((q.x * q.x + q.y * q.y + q.z * q.z + q.w * q.w) - 1.0))
  {
    Sandwich15X(q, v);
    Sandwich14XS(FVec3.Add(RotateVector(q, v), FVec3.Multiply(v, (Length2(q) - 1.0))), q, v);
  }

  lemma Sandwich31XP(q: Quat, v: Vec3)
    ensures (q.w * 0.0 - q.x * v.x - q.y * v.y - q.z * v.z) * (-q.x) + (q.w * v.x + q.x * 0.0 + q.y * v.z - q.z * v.y) * q.w + (q.w * v.y + q.y * 0.0 + q.z * v.x - q.x * v.z) * (-q.z) - (q.w * v.z + q.z * 0.0 + q.x * v.y - q.y * v.x) * (-q.y) == (v.x + ((((q.y * v.z - q.z * v.y) * q.w) + (q.y * (q.x * v.y - q.y * v.x) - q.z * (q.z * v.x - q.x * v.z))) * 2.0)) + (v.x * ((q.x * q.x + q.y * q.y + q.z * q.z + q.w * q.w) - 1.0))
  {
  }

  lemma Sandwich31X(q: Quat, v: Vec3)
    ensures Hamilton(Hamilton(q, Pure(v)), Conjugate(q)).x == Pure(FVec3.Add(RotateVector(q, v), FVec3.Multiply(v, (Length2(q) - 1.0)))).x
  {
    Sandwich1X(q, v);
    Sandwich14X(q, v);
    Sandwich31XP(q, v);
  }

  lemma Sandwich32YS(a0: Quat, a1: Quat, q: Quat, v: Vec3)
    requires a0.x == q.w * v.x + q.x * 0.0 + q.y * v.z - q.z * v.y
    requires a0.y == q.w * v.y + q.y * 0.0 + q.z * v.x - q.x * v.z
    requires a0.z == q.w * v.z + q.z * 0.0 + q.x * v.y - q.y * v.x
    requires a0.w == q.w * 0.0 - q.x * v.x - q.y * v.y - q.z * v.z
    requires a1.x == -q.x
    requires a1.y == -q.y
    requires a1.z == -q.z
    requires a1.w == q.w
    ensures a0.w * a1.y + a0.y * a1.w + a0.z * a1.x - a0.x * a1.z == (q.w * 0.0 - q.x * v.x - q.y * v.y - q.z * v.z) * (-q.y) + (q.w * v.y + q.y * 0.0 + q.z * v.x - q.x * v.z) * q.w + (q.w * v.z + q.z * 0.0 + q.x * v.y - q.y * v.x) * (-q.x) - (q.w * v.x + q.x * 0.0 + q.y * v.z - q.z * v.y) * (-q.z)
  {
  }

  lemma Sandwich32Y(q: Quat, v: Vec3)
    ensures Hamilton(Hamilton(q, Pure(v)), Conjugate(q)).y == (q.w * 0.0 - q.x * v.x - q.y * v.y - q.z * v.z) * (-q.y) + (q.w * v.y + q.y * 0.0 + q.z * v.x - q.x * v.z) * q.w + (q.w * v.z + q.z * 0.0 + q.x * v.y - q.y * v.x) * (-q.x) - (q.w * v.x + q.x * 0.0 + q.y * v.z - q.z * v.y) * (-q.z)
  {
    Sandwich2X(q, v);
    Sandwich7Y(q, v);
    Sandwich8Z(q, v);
    Sandwich9W(q, v);
    Sandwich10X(q);
    Sandwich11Y(q);
    Sandwich12Z(q);
    Sandwich13W(q);
    UnfoldHamiltonY(Hamilton(q, Pure(v)), Conjugate(q));
    Sandwich32YS(Hamilton(q, Pure(v)), Conjugate(q), q, v);
  }

  lemma Sandwich39YS(a0: Vec3, q: Quat, v: Vec3)
    requires a0.y == q.z * v.x - q.x * v.z
    ensures FVec3.Multiply(a0, q.w).y == (q.z * v.x - q.x * v.z) * q.w
  {
  }

  lemma Sandwich39Y(q: Quat, v: Vec3)
    ensures FVec3.Multiply(FVec3.Cross(VectorPart(q), v), q.w).y == (q.z * v.x - q.x * v.z) * q.w
  {
    Sandwich25Y(q, v);
    Sandwich39YS(FVec3.Cross(VectorPart(q), v), q, v);
  }

  lemma Sandwich40YS(a0: Vec3, a1: Vec3, q: Quat, v: Vec3)
    requires a0.x == q.x
    requires a0.z == q.z
    requires a1.x == q.y * v.z - q.z * v.y
    requires a1.z == q.x * v.y - q.y * v.x
    ensures a0.z * a1.x - a0.x * a1.z == q.z * (q.y * v.z - q.z * v.y) - q.x * (q.x * v.y - q.y * v.x)
  {
  }

  lemma Sandwich40Y(q: Quat, v: Vec3)
    ensures FVec3.Cross(VectorPart(q), FVec3.Cross(VectorPart(q), v)).y == q.z * (q.y * v.z - q.z * v.y) - q.x * (q.x * v.y - q.y * v.x)
  {
    Sandwich26X(q);
    Sandwich23Z(q);
    Sandwich21X(q, v);
    Sandwich27Z(q, v);
    UnfoldCrossY(VectorPart(q), FVec3.Cross(VectorPart(q), v));
    Sandwich40YS(VectorPart(q), FVec3.Cross(VectorPart(q), v), q, v);
  }

  lemma Sandwich38YS(a0: Vec3, a1: Vec3, q: Quat, v: Vec3)
    requires a0.y == (q.z * v.x - q.x * v.z) * q.w
    requires a1.y == q.z * (q.y * v.z - q.z * v.y) - q.x * (q.x * v.y - q.y * v.x)
    ensures FVec3.Add(a0, a1).y == ((q.z * v.x - q.x * v.z) * q.w) + (q.z * (q.y * v.z - q.z * v.y) - q.x * (q.x * v.y - q.y * v.x))
  {
  }

  lemma Sandwich38Y(q: Quat, v: Vec3)
    ensures FVec3.Add(FVec3.Multiply(FVec3.Cross(VectorPart(q), v), q.w), FVec3.Cross(VectorPart(q), FVec3.Cross(VectorPart(q), v))).y == ((q.z * v.x - q.x * v.z) * q.w) + (q.z * (q.y * v.z - q.z * v.y) - q.x * (q.x * v.y - q.y * v.x))
  {
    Sandwich39Y(q, v);
    Sandwich40Y(q, v);
    Sandwich38YS(FVec3.Multiply(FVec3.Cross(VectorPart(q), v), q.w), FVec3.Cross(VectorPart(q), FVec3.Cross(VectorPart(q), v)), q, v);
  }

  lemma Sandwich37YS(a0: Vec3, q: Quat, v: Vec3)
    requires a0.y == ((q.z * v.x - q.x * v.z) * q.w) + (q.z * (q.y * v.z - q.z * v.y) - q.x * (q.x * v.y - q.y * v.x))
    ensures FVec3.Multiply(a0, 2.0).y == (((q.z * v.x - q.x * v.z) * q.w) + (q.z * (q.y * v.z - q.z * v.y) - q.x * (q.x * v.y - q.y * v.x))) * 2.0
  {
  }

  lemma Sandwich37Y(q: Quat, v: Vec3)
    ensures FVec3.Multiply(FVec3.Add(FVec3.Multiply(FVec3.Cross(VectorPart(q), v), q.w), FVec3.Cross(VectorPart(q), FVec3.Cross(VectorPart(q), v))), 2.0).y == (((q.z * v.x - q.x * v.z) * q.w) + (q.z * (q.y * v.z - q.z * v.y) - q.x * (q.x * v.y - q.y * v.x))) * 2.0
  {
    Sandwich38Y(q, v);
    Sandwich37YS(FVec3.Add(FVec3.Multiply(FVec3.Cross(VectorPart(q), v), q.w), FVec3.Cross(VectorPart(q), FVec3.Cross(VectorPart(q), v))), q, v);
  }

  lemma Sandwich36YS(a1: Vec3, q: Quat, v: Vec3)
    requires a1.y == (((q.z * v.x - q.x * v.z) * q.w) + (q.z * (q.y * v.z - q.z * v.y) - q.x * (q.x * v.y - q.y * v.x))) * 2.0
    ensures FVec3.Add(v, a1).y == v.y + ((((q.z * v.x - q.x * v.z) * q.w) + (q.z * (q.y * v.z - q.z * v.y) - q.x * (q.x * v.y - q.y * v.x))) * 2.0)
  {
  }

  lemma Sandwich36Y(q: Quat, v: Vec3)
    ensures FVec3.Add(v, FVec3.Multiply(FVec3.Add(FVec3.Multiply(FVec3.Cross(VectorPart(q), v), q.w), FVec3.Cross(VectorPart(q), FVec3.Cross(VectorPart(q), v))), 2.0)).y == v.y + ((((q.z * v.x - q.x * v.z) * q.w) + (q.z * (q.y * v.z - q.z * v.y) - q.x * (q.x * v.y - q.y * v.x))) * 2.0)
  {
    Sandwich37Y(q, v);
    Sandwich36YS(FVec3.Multiply(FVec3.Add(FVec3.Multiply(FVec3.Cross(VectorPart(q), v), q.w), FVec3.Cross(VectorPart(q), FVec3.Cross(VectorPart(q), v))), 2.0), q, v);
  }

  lemma RotateVectorExpandedY(q: Quat, v: Vec3)
    ensures RotateVector(q, v).y == v.y + ((((q.z * v.x - q.x * v.z) * q.w) + (q.z * (q.y * v.z - q.z * v.y) - q.x * (q.x * v.y - q.y * v.x))) * 2.0)
  {
    UnfoldRotateVector(q, v);
    Sandwich36Y(q, v);
  }

  lemma Sandwich41YS(a1: real, q: Quat, v: Vec3)
    requires a1 == (q.x * q.x + q.y * q.y + q.z * q.z + q.w * q.w) - 1.0
    ensures FVec3.Multiply(v, a1).y == v.y * ((q.x * q.x + q.y * q.y + q.z * q.z + q.w * q.w) - 1.0)
  {
  }

  lemma Sandwich41Y(q: Quat, v: Vec3)
    ensures FVec3.Multiply(v, (Length2(q) - 1.0)).y == v.y * ((q.x * q.x + q.y * q.y + q.z * q.z + q.w * q.w) - 1.0)
  {
    Sandwich29(q);
    Sandwich41YS(Length2(q) - 1.0, q, v);
  }

  lemma Sandwich34YS(a0: Vec3, a1: Vec3, q: Quat, v: Vec3)
    requires a0.y == v.y + ((((q.z * v.x - q.x * v.z) * q.w) + (q.z * (q.y * v.z - q.z * v.y) - q.x * (q.x * v.y - q.y * v.x))) * 2.0)
    requires a1.y == v.y * ((q.x * q.x + q.y * q.y + q.z * q.z + q.w * q.w) - 1.0)
    ensures FVec3.Add(a0, a1).y == (v.y + ((((q.z * v.x - q.x * v.z) * q.w) + (q.z * (q.y * v.z - q.z * v.y) - q.x * (q.x * v.y - q.y * v.x))) * 2.0)) + (v.y * ((q.x * q.x + q.y * q.y + q.z * q.z + q.w * q.w) - 1.0))
  {
  }

  lemma Sandwich34Y(q: Quat, v: Vec3)
    ensures FVec3.Add(RotateVector(q, v), FVec3.Multiply(v, (Length2(q) - 1.0))).y == (v.y + ((((q.z * v.x - q.x * v.z) * q.w) + (q.z * (q.y * v.z - q.z * v.y) - q.x * (q.x * v.y - q.y * v.x))) * 2.0)) + (v.y * ((q.x * q.x + q.y * q.y + q.z * q.z + q.w * q.w) - 1.0))
  {
    RotateVectorExpandedY(q, v);
    Sandwich41Y(q, v);
    Sandwich34YS(RotateVector(q, v), FVec3.Multiply(v, (Length2(q) - 1.0)), q, v);
  }

  lemma Sandwich33YS(a0: Vec3, q: Quat, v: Vec3)
    requires a0.y == (v.y + ((((q.z * v.x - q.x * v.z) * q.w) + (q.z * (q.y * v.z - q.z * v.y) - q.x * (q.x * v.y - q.y * v.x))) * 2.0)) + (v.y * ((q.x * q.x + q.y * q.y + q.z * q.z + q.w * q.w) - 1.0))
    ensures Pure(a0).y == (v.y + ((((q.z * v.x - q.x * v.z) * q.w) + (q.z * (q.y * v.z - q.z * v.y) - q.x * (q.x * v.y - q.y * v.x))) * 2.0)) + (v.y * ((q.x * q.x + q.y * q.y + q.z * q.z + q.w * q.w) - 1.0))
  {
  }

  lemma Sandwich33Y(q: Quat, v: Vec3)
    ensures Pure(FVec3.Add(RotateVector(q, v), FVec3.Multiply(v, (Length2(q) - 1.0)))).y == (v.y + ((((q.z * v.x - q.x * v.z) * q.w) + (q.z * (q.y * v.z - q.z * v.y) - q.x * (q.x * v.y - q.y * v.x))) * 2.0)) + (v.y * ((q.x * q.x + q.y * q.y + q.z * q.z + q.w * q.w) - 1.0))
  {
    Sandwich34Y(q, v);
    Sandwich33YS(FVec3.Add(RotateVector(q, v), FVec3.Multiply(v, (Length2(q) - 1.0))), q, v);
  }

  lemma Sandwich42YP(q: Quat, v: Vec3)
    ensures (q.w * 0.0 - q.x * v.x - q.y * v.y - q.z * v.z) * (-q.y) + (q.w * v.y + q.y * 0.0 + q.z * v.x - q.x * v.z) * q.w + (q.w * v.z + q.z * 0.0 + q.x * v.y - q.y * v.x) * (-q.x) - (q.w * v.x + q.x * 0.0 + q.y * v.z - q.z * v.y) * (-q.z) == (v.y + ((((q.z * v.x - q.x * v.z) * q.w) + (q.z * (q.y * v.z - q.z * v.y) - q.x * (q.x * v.y - q.y * v.x))) * 2.0)) + (v.y * ((q.x * q.x + q.y * q.y + q.z * q.z + q.w * q.w) - 1.0))
  {
  }

  lemma Sandwich42Y(q: Quat, v: Vec3)
    ensures Hamilton(Hamilton(q, Pure(v)), Conjugate(q)).y == Pure(FVec3.Add(RotateVector(q, v), FVec3.Multiply(v, (Length2(q) - 1.0)))).y
  {
    Sandwich32Y(q, v);
    Sandwich33Y(q, v);
    Sandwich42YP(q, v);
  }

  lemma Sandwich43ZS(a0: Quat, a1: Quat, q: Quat, v: Vec3)
    requires a0.x == q.w * v.x + q.x * 0.0 + q.y * v.z - q.z * v.y
    requires a0.y == q.w * v.y + q.y * 0.0 + q.z * v.x - q.x * v.z
    requires a0.z == q.w * v.z + q.z * 0.0 + q.x * v.y - q.y * v.x
    requires a0.w == q.w * 0.0 - q.x * v.x - q.y * v.y - q.z * v.z
    requires a1.x == -q.x
    requires a1.y == -q.y
    requires a1.z == -q.z
    requires a1.w == q.w
    ensures a0.w * a1.z + a0.z * a1.w + a0.x * a1.y - a0.y * a1.x == (q.w * 0.0 - q.x * v.x - q.y * v.y - q.z * v.z) * (-q.z) + (q.w * v.z + q.z * 0.0 + q.x * v.y - q.y * v.x) * q.w + (q.w * v.x + q.x * 0.0 + q.y * v.z - q.z * v.y) * (-q.y) - (q.w * v.y + q.y * 0.0 + q.z * v.x - q.x * v.z) * (-q.x)
  {
  }

  lemma Sandwich43Z(q: Quat, v: Vec3)
    ensures Hamilton(Hamilton(q, Pure(v)), Conjugate(q)).z == (q.w * 0.0 - q.x * v.x - q.y * v.y - q.z * v.z) * (-q.z) + (q.w * v.z + q.z * 0.0 + q.x * v.y - q.y * v.x) * q.w + (q.w * v.x + q.x * 0.0 + q.y * v.z - q.z * v.y) * (-q.y) - (q.w * v.y + q.y * 0.0 + q.z * v.x - q.x * v.z) * (-q.x)
  {
    Sandwich2X(q, v);
    Sandwich7Y(q, v);
    Sandwich8Z(q, v);
    Sandwich9W(q, v);
    Sandwich10X(q);
    Sandwich11Y(q);
    Sandwich12Z(q);
    Sandwich13W(q);
    UnfoldHamiltonZ(Hamilton(q, Pure(v)), Conjugate(q));
    Sandwich43ZS(Hamilton(q, Pure(v)), Conjugate(q), q, v);
  }

  lemma Sandwich50ZS(a0: Vec3, q: Quat, v: Vec3)
    requires a0.z == q.x * v.y - q.y * v.x
    ensures FVec3.Multiply(a0, q.w).z == (q.x * v.y - q.y * v.x) * q.w
  {
  }

  lemma Sandwich50Z(q: Quat, v: Vec3)
    ensures FVec3.Multiply(FVec3.Cross(VectorPart(q), v), q.w).z == (q.x * v.y - q.y * v.x) * q.w
  {
    Sandwich27Z(q, v);
    Sandwich50ZS(FVec3.Cross(VectorPart(q), v), q, v);
  }

  lemma Sandwich51ZS(a0: Vec3, a1: Vec3, q: Quat, v: Vec3)
    requires a0.x == q.x
    requires a0.y == q.y
    requires a1.x == q.y * v.z - q.z * v.y
    requires a1.y == q.z * v.x - q.x * v.z
    ensures a0.x * a1.y - a0.y * a1.x == q.x * (q.z * v.x - q.x * v.z) - q.y * (q.y * v.z - q.z * v.y)
  {
  }

  lemma Sandwich51Z(q: Quat, v: Vec3)
    ensures FVec3.Cross(VectorPart(q), FVec3.Cross(VectorPart(q), v)).z == q.x * (q.z * v.x - q.x * v.z) - q.y * (q.y * v.z - q.z * v.y)
  {
    Sandwich26X(q);
    Sandwich22Y(q);
    Sandwich21X(q, v);
    Sandwich25Y(q, v);
    UnfoldCrossZ(VectorPart(q), FVec3.Cross(VectorPart(q), v));
    Sandwich51ZS(VectorPart(q), FVec3.Cross(VectorPart(q), v), q, v);
  }

  lemma Sandwich49ZS(a0: Vec3, a1: Vec3, q: Quat, v: Vec3)
    requires a0.z == (q.x * v.y - q.y * v.x) * q.w
    requires a1.z == q.x * (q.z * v.x - q.x * v.z) - q.y * (q.y * v.z - q.z * v.y)
    ensures FVec3.Add(a0, a1).z == ((q.x * v.y - q.y * v.x) * q.w) + (q.x * (q.z * v.x - q.x * v.z) - q.y * (q.y * v.z - q.z * v.y))
  {
  }

  lemma Sandwich49Z(q: Quat, v: Vec3)
    ensures FVec3.Add(FVec3.Multiply(FVec3.Cross(VectorPart(q), v), q.w), FVec3.Cross(VectorPart(q), FVec3.Cross(VectorPart(q), v))).z == ((q.x * v.y - q.y * v.x) * q.w) + (q.x * (q.z * v.x - q.x * v.z) - q.y * (q.y * v.z - q.z * v.y))
  {
    Sandwich50Z(q, v);
    Sandwich51Z(q, v);
    Sandwich49ZS(FVec3.Multiply(FVec3.Cross(VectorPart(q), v), q.w), FVec3.Cross(VectorPart(q), FVec3.Cross(VectorPart(q), v)), q, v);
  }

  lemma Sandwich48ZS(a0: Vec3, q: Quat, v: Vec3)
    requires a0.z == ((q.x * v.y - q.y * v.x) * q.w) + (q.x * (q.z * v.x - q.x * v.z) - q.y * (q.y * v.z - q.z * v.y))
    ensures FVec3.Multiply(a0, 2.0).z == (((q.x * v.y - q.y * v.x) * q.w) + (q.x * (q.z * v.x - q.x * v.z) - q.y * (q.y * v.z - q.z * v.y))) * 2.0
  {
  }

  lemma Sandwich48Z(q: Quat, v: Vec3)
    ensures FVec3.Multiply(FVec3.Add(FVec3.Multiply(FVec3.Cross(VectorPart(q), v), q.w), FVec3.Cross(VectorPart(q), FVec3.Cross(VectorPart(q), v))), 2.0).z == (((q.x * v.y - q.y * v.x) * q.w) + (q.x * (q.z * v.x - q.x * v.z) - q.y * (q.y * v.z - q.z * v.y))) * 2.0
  {
    Sandwich49Z(q, v);
    Sandwich48ZS(FVec3.Add(FVec3.Multiply(FVec3.Cross(VectorPart(q), v), q.w), FVec3.Cross(VectorPart(q), FVec3.Cross(VectorPart(q), v))), q, v);
  }

  lemma Sandwich47ZS(a1: Vec3, q: Quat, v: Vec3)
    requires a1.z == (((q.x * v.y - q.y * v.x) * q.w) + (q.x * (q.z * v.x - q.x * v.z) - q.y * (q.y * v.z - q.z * v.y))) * 2.0
    ensures FVec3.Add(v, a1).z == v.z + ((((q.x * v.y - q.y * v.x) * q.w) + (q.x * (q.z * v.x - q.x * v.z) - q.y * (q.y * v.z - q.z * v.y))) * 2.0)
  {
  }

  lemma Sandwich47Z(q: Quat, v: Vec3)
    ensures FVec3.Add(v, FVec3.Multiply(FVec3.Add(FVec3.Multiply(FVec3.Cross(VectorPart(q), v), q.w), FVec3.Cross(VectorPart(q), FVec3.Cross(VectorPart(q), v))), 2.0)).z == v.z + ((((q.x * v.y - q.y * v.x) * q.w) + (q.x * (q.z * v.x - q.x * v.z) - q.y * (q.y * v.z - q.z * v.y))) * 2.0)
  {
    Sandwich48Z(q, v);
    Sandwich47ZS(FVec3.Multiply(FVec3.Add(FVec3.Multiply(FVec3.Cross(VectorPart(q), v), q.w), FVec3.Cross(VectorPart(q), FVec3.Cross(VectorPart(q), v))), 2.0), q, v);
  }

  lemma RotateVectorExpandedZ(q: Quat, v: Vec3)
    ensures RotateVector(q, v).z == v.z + ((((q.x * v.y - q.y * v.x) * q.w) + (q.x * (q.z * v.x - q.x * v.z) - q.y * (q.y * v.z - q.z * v.y))) * 2.0)
  {
    UnfoldRotateVector(q, v);
    Sandwich47Z(q, v);
  }

  lemma Sandwich52ZS(a1: real, q: Quat, v: Vec3)
    requires a1 == (q.x * q.x + q.y * q.y + q.z * q.z + q.w * q.w) - 1.0
    ensures FVec3.Multiply(v, a1).z == v.z * ((q.x * q.x + q.y * q.y + q.z * q.z + q.w * q.w) - 1.0)
  {
  }

  lemma Sandwich52Z(q: Quat, v: Vec3)
    ensures FVec3.Multiply(v, (Length2(q) - 1.0)).z == v.z * ((q.x * q.x + q.y * q.y + q.z * q.z + q.w * q.w) - 1.0)
  {
    Sandwich29(q);
    Sandwich52ZS(Length2(q) - 1.0, q, v);
  }

  lemma Sandwich45ZS(a0: Vec3, a1: Vec3, q: Quat, v: Vec3)
    requires a0.z == v.z + ((((q.x * v.y - q.y * v.x) * q.w) + (q.x * (q.z * v.x - q.x * v.z) - q.y * (q.y * v.z - q.z * v.y))) * 2.0)
    requires a1.z == v.z * ((q.x * q.x + q.y * q.y + q.z * q.z + q.w * q.w) - 1.0)
    ensures FVec3.Add(a0, a1).z == (v.z + ((((q.x * v.y - q.y * v.x) * q.w) + (q.x * (q.z * v.x - q.x * v.z) - q.y * (q.y * v.z - q.z * v.y))) * 2.0)) + (v.z * ((q.x * q.x + q.y * q.y + q.z * q.z + q.w * q.w) - 1.0))
  {
  }

  lemma Sandwich45Z(q: Quat, v: Vec3)
    ensures FVec3.Add(RotateVector(q, v), FVec3.Multiply(v, (Length2(q) - 1.0))).z == (v.z + ((((q.x * v.y - q.y * v.x) * q.w) + (q.x * (q.z * v.x - q.x * v.z) - q.y * (q.y * v.z - q.z * v.y))) * 2.0)) + (v.z * ((q.x * q.x + q.y * q.y + q.z * q.z + q.w * q.w) - 1.0))
  {
    RotateVectorExpandedZ(q, v);
    Sandwich52Z(q, v);
    Sandwich45ZS(RotateVector(q, v), FVec3.Multiply(v, (Length2(q) - 1.0)), q, v);
  }

  lemma Sandwich44ZS(a0: Vec3, q: Quat, v: Vec3)
    requires a0.z == (v.z + ((((q.x * v.y - q.y * v.x) * q.w) + (q.x * (q.z * v.x - q.x * v.z) - q.y * (q.y * v.z - q.z * v.y))) * 2.0)) + (v.z * ((q.x * q.x + q.y * q.y + q.z * q.z + q.w * q.w) - 1.0))
    ensures Pure(a0).z == (v.z + ((((q.x * v.y - q.y * v.x) * q.w) + (q.x * (q.z * v.x - q.x * v.z) - q.y * (q.y * v.z - q.z * v.y))) * 2.0)) + (v.z * ((q.x * q.x + q.y * q.y + q.z * q.z + q.w * q.w) - 1.0))
  {
  }

  lemma Sandwich44Z(q: Quat, v: Vec3)
    ensures Pure(FVec3.Add(RotateVector(q, v), FVec3.Multiply(v, (Length2(q) - 1.0)))).z == (v.z + ((((q.x * v.y - q.y * v.x) * q.w) + (q.x * (q.z * v.x - q.x * v.z) - q.y * (q.y * v.z - q.z * v.y))) * 2.0)) + (v.z * ((q.x * q.x + q.y * q.y + q.z * q.z + q.w * q.w) - 1.0))
  {
    Sandwich45Z(q, v);
    Sandwich44ZS(FVec3.Add(RotateVector(q, v), FVec3.Multiply(v, (Length2(q) - 1.0))), q, v);
  }

  lemma Sandwich53ZP(q: Quat, v: Vec3)
    ensures (q.w * 0.0 - q.x * v.x - q.y * v.y - q.z * v.z) * (-q.z) + (q.w * v.z + q.z * 0.0 + q.x * v.y - q.y * v.x) * q.w + (q.w * v.x + q.x * 0.0 + q.y * v.z - q.z * v.y) * (-q.y) - (q.w * v.y + q.y * 0.0 + q.z * v.x - q.x * v.z) * (-q.x) == (v.z + ((((q.x * v.y - q.y * v.x) * q.w) + (q.x * (q.z * v.x - q.x * v.z) - q.y * (q.y * v.z - q.z * v.y))) * 2.0)) + (v.z * ((q.x * q.x + q.y * q.y + q.z * q.z + q.w * q.w) - 1.0))
  {
  }

  lemma Sandwich53Z(q: Quat, v: Vec3)
    ensures Hamilton(Hamilton(q, Pure(v)), Conjugate(q)).z == Pure(FVec3.Add(RotateVector(q, v), FVec3.Multiply(v, (Length2(q) - 1.0)))).z
  {
    Sandwich43Z(q, v);
    Sandwich44Z(q, v);
    Sandwich53ZP(q, v);
  }

  lemma Sandwich54WS(a0: Quat, a1: Quat, q: Quat, v: Vec3)
    requires a0.x == q.w * v.x + q.x * 0.0 + q.y * v.z - q.z * v.y
    requires a0.y == q.w * v.y + q.y * 0.0 + q.z * v.x - q.x * v.z
    requires a0.z == q.w * v.z + q.z * 0.0 + q.x * v.y - q.y * v.x
    requires a0.w == q.w * 0.0 - q.x * v.x - q.y * v.y - q.z * v.z
    requires a1.x == -q.x
    requires a1.y == -q.y
    requires a1.z == -q.z
    requires a1.w == q.w
    ensures a0.w * a1.w - a0.x * a1.x - a0.y * a1.y - a0.z * a1.z == (q.w * 0.0 - q.x * v.x - q.y * v.y - q.z * v.z) * q.w - (q.w * v.x + q.x * 0.0 + q.y * v.z - q.z * v.y) * (-q.x) - (q.w * v.y + q.y * 0.0 + q.z * v.x - q.x * v.z) * (-q.y) - (q.w * v.z + q.z * 0.0 + q.x * v.y - q.y * v.x) * (-q.z)
  {
  }

  lemma Sandwich54W(q: Quat, v: Vec3)
    ensures Hamilton(Hamilton(q, Pure(v)), Conjugate(q)).w == (q.w * 0.0 - q.x * v.x - q.y * v.y - q.z * v.z) * q.w - (q.w * v.x + q.x * 0.0 + q.y * v.z - q.z * v.y) * (-q.x) - (q.w * v.y + q.y * 0.0 + q.z * v.x - q.x * v.z) * (-q.y) - (q.w * v.z + q.z * 0.0 + q.x * v.y - q.y * v.x) * (-q.z)
  {
    Sandwich2X(q, v);
    Sandwich7Y(q, v);
    Sandwich8Z(q, v);
    Sandwich9W(q, v);
    Sandwich10X(q);
    Sandwich11Y(q);
    Sandwich12Z(q);
    Sandwich13W(q);
    UnfoldHamiltonW(Hamilton(q, Pure(v)), Conjugate(q));
    Sandwich54WS(Hamilton(q, Pure(v)), Conjugate(q), q, v);
  }

  lemma Sandwich55WS(a0: Vec3, q: Quat, v: Vec3)
    ensures Pure(a0).w == 0.0
  {
  }

  lemma Sandwich55W(q: Quat, v: Vec3)
    ensures Pure(FVec3.Add(RotateVector(q, v), FVec3.Multiply(v, (Length2(q) - 1.0)))).w == 0.0
  {
    Sandwich55WS(FVec3.Add(RotateVector(q, v), FVec3.Multiply(v, (Length2(q) - 1.0))), q, v);
  }

  lemma Sandwich56WP(q: Quat, v: Vec3)
    ensures (q.w * 0.0 - q.x * v.x - q.y * v.y - q.z * v.z) * q.w - (q.w * v.x + q.x * 0.0 + q.y * v.z - q.z * v.y) * (-q.x) - (q.w * v.y + q.y * 0.0 + q.z * v.x - q.x * v.z) * (-q.y) - (q.w * v.z + q.z * 0.0 + q.x * v.y - q.y * v.x) * (-q.z) == 0.0
  {
  }

  lemma Sandwich56W(q: Quat, v: Vec3)
    ensures Hamilton(Hamilton(q, Pure(v)), Conjugate(q)).w == Pure(FVec3.Add(RotateVector(q, v), FVec3.Multiply(v, (Length2(q) - 1.0)))).w
  {
    Sandwich54W(q, v);
    Sandwich55W(q, v);
    Sandwich56WP(q, v);
  }

  /** rotate(v): `*this * q * inverse()` for q = (v, 0). For a unit quaternion this is the
      pure quaternion of the closed form operator*(FVec3): the vector part of rotate(v) is
      q * v, and its w is 0. */
  function Rotate(q: Quat, v: Vec3): (r: Quat)
    requires Length2(q) != 0.0
    ensures IsUnit(q) ==> VectorPart(r) == RotateVector(q, v) && r.w == 0.0
  {
    if IsUnit(q) then
      UnitInverse(q);
      SandwichClosedForm(q, v);
      assert FVec3.Multiply(v, Length2(q) - 1.0) == FVec3.Zero;
      Hamilton(Hamilton(q, Pure(v)), Inverse(q))
    else
      Hamilton(Hamilton(q, Pure(v)), Inverse(q))
  }

  /** rotate(q): `*this * q * inverse()`. It keeps the scalar part of p, and on a pure
      quaternion it is rotate(v). */
  function RotateQuat(q: Quat, p: Quat): (r: Quat)
    requires Length2(q) != 0.0
    ensures r.w == p.w
    ensures p.w == 0.0 ==> r == Rotate(q, VectorPart(p))
  {
    RotateQuatScalar(q, p);
    assert p.w == 0.0 ==> p == Pure(VectorPart(p));
    Hamilton(Hamilton(q, p), Inverse(q))
  }

  /** The scalar part survives the sandwich by q and its inverse. */
  lemma RotateQuatScalar(q: Quat, p: Quat)
    requires Length2(q) != 0.0
    ensures Hamilton(Hamilton(q, p), Inverse(q)).w == p.w
  {
    var n := Length2(q);
    var t := 1.0 / n;
    var h := Hamilton(q, p);
    HamiltonScale(h, Conjugate(q), t);
    SandwichScalar(q, p);
    ScaleScalarPart(Hamilton(h, Conjugate(q)), p.w * n, t);
    CancelFactor(p.w, n, t);
  }

  /** The scalar part of a scaled quaternion, for a known scalar part. */
  lemma ScaleScalarPart(a: Quat, b: real, t: real)
    requires a.w == b
    ensures Scale(a, t).w == b * t
  {
  }

  /** The scalar part of q p conj(q) is p.w times length2(q). */
  lemma {:induction false} SandwichScalar(q: Quat, p: Quat)
    ensures Hamilton(Hamilton(q, p), Conjugate(q)).w == p.w * Length2(q)
  {
    SandwichW12W(q, p);
  }

  // Component-wise steps of SandwichScalar, the w of q p conj(q) is p.w length2(q): each component is brought to a polynomial in the
  // coordinates, and the two polynomials are compared.
  // Naming: <Group><n><C> states component C (X, Y, Z or W) of one sub-term as a polynomial in
  // the coordinates; a name ending in S substitutes already-expanded operands into the outer
  // formula; a name ending in P is the bare polynomial identity between the two sides; and the
  // last unsuffixed lemma of each component states that component of the identity itself.

  lemma SandwichW2X(q: Quat, p: Quat)
    ensures Hamilton(q, p).x == q.w * p.x + q.x * p.w + q.y * p.z - q.z * p.y
  {
    UnfoldHamiltonX(q, p);
  }

  lemma SandwichW3Y(q: Quat, p: Quat)
    ensures Hamilton(q, p).y == q.w * p.y + q.y * p.w + q.z * p.x - q.x * p.z
  {
    UnfoldHamiltonY(q, p);
  }

  lemma SandwichW4Z(q: Quat, p: Quat)
    ensures Hamilton(q, p).z == q.w * p.z + q.z * p.w + q.x * p.y - q.y * p.x
  {
    UnfoldHamiltonZ(q, p);
  }

  lemma SandwichW5W(q: Quat, p: Quat)
    ensures Hamilton(q, p).w == q.w * p.w - q.x * p.x - q.y * p.y - q.z * p.z
  {
    UnfoldHamiltonW(q, p);
  }

  lemma SandwichW6X(q: Quat)
    ensures Conjugate(q).x == -q.x
  {
  }

  lemma SandwichW7Y(q: Quat)
    ensures Conjugate(q).y == -q.y
  {
  }

  lemma SandwichW8Z(q: Quat)
    ensures Conjugate(q).z == -q.z
  {
  }

  lemma SandwichW9W(q: Quat)
    ensures Conjugate(q).w == q.w
  {
  }

  lemma SandwichW1WS(a0: Quat, a1: Quat, q: Quat, p: Quat)
    requires a0.x == q.w * p.x + q.x * p.w + q.y * p.z - q.z * p.y
    requires a0.y == q.w * p.y + q.y * p.w + q.z * p.x - q.x * p.z
    requires a0.z == q.w * p.z + q.z * p.w + q.x * p.y - q.y * p.x
    requires a0.w == q.w * p.w - q.x * p.x - q.y * p.y - q.z * p.z
    requires a1.x == -q.x
    requires a1.y == -q.y
    requires a1.z == -q.z
    requires a1.w == q.w
    ensures a0.w * a1.w - a0.x * a1.x - a0.y * a1.y - a0.z * a1.z == (q.w * p.w - q.x * p.x - q.y * p.y - q.z * p.z) * q.w - (q.w * p.x + q.x * p.w + q.y * p.z - q.z * p.y) * (-q.x) - (q.w * p.y + q.y * p.w + q.z * p.x - q.x * p.z) * (-q.y) - (q.w * p.z + q.z * p.w + q.x * p.y - q.y * p.x) * (-q.z)
  {
  }

  lemma SandwichW1W(q: Quat, p: Quat)
    ensures Hamilton(Hamilton(q, p), Conjugate(q)).w == (q.w * p.w - q.x * p.x - q.y * p.y - q.z * p.z) * q.w - (q.w * p.x + q.x * p.w + q.y * p.z - q.z * p.y) * (-q.x) - (q.w * p.y + q.y * p.w + q.z * p.x - q.x * p.z) * (-q.y) - (q.w * p.z + q.z * p.w + q.x * p.y - q.y * p.x) * (-q.z)
  {
    SandwichW2X(q, p);
    SandwichW3Y(q, p);
    SandwichW4Z(q, p);
    SandwichW5W(q, p);
    SandwichW6X(q);
    SandwichW7Y(q);
    SandwichW8Z(q);
    SandwichW9W(q);
    UnfoldHamiltonW(Hamilton(q, p), Conjugate(q));
    SandwichW1WS(Hamilton(q, p), Conjugate(q), q, p);
  }

  lemma SandwichW11(q: Quat)
    ensures Length2(q) == q.x * q.x + q.y * q.y + q.z * q.z + q.w * q.w
  {
    UnfoldLength2(q);
  }

  lemma SandwichW10S(a1: real, q: Quat, p: Quat)
    requires a1 == q.x * q.x + q.y * q.y + q.z * q.z + q.w * q.w
    ensures p.w * a1 == p.w * (q.x * q.x + q.y * q.y + q.z * q.z + q.w * q.w)
  {
  }

  lemma SandwichW10(q: Quat, p: Quat)
    ensures p.w * Length2(q) == p.w * (q.x * q.x + q.y * q.y + q.z * q.z + q.w * q.w)
  {
    SandwichW11(q);
    SandwichW10S(Length2(q), q, p);
  }

  lemma SandwichW12WP(q: Quat, p: Quat)
    ensures (q.w * p.w - q.x * p.x - q.y * p.y - q.z * p.z) * q.w - (q.w * p.x + q.x * p.w + q.y * p.z - q.z * p.y) * (-q.x) - (q.w * p.y + q.y * p.w + q.z * p.x - q.x * p.z) * (-q.y) - (q.w * p.z + q.z * p.w + q.x * p.y - q.y * p.x) * (-q.z) == p.w * (q.x * q.x + q.y * q.y + q.z * q.z + q.w * q.w)
  {
  }

  lemma SandwichW12W(q: Quat, p: Quat)
    ensures Hamilton(Hamilton(q, p), Conjugate(q)).w == p.w * Length2(q)
  {
    SandwichW1W(q, p);
    SandwichW10(q, p);
    SandwichW12WP(q, p);
  }

  /** A factor n != 0 and its reciprocal t cancel. */
  lemma CancelFactor(a: real, n: real, t: real)
    requires n != 0.0 && t == 1.0 / n
    ensures a * n * t == a
  {
    assert n * t == 1.0;
  }
  // Each component of the basic operations, as a polynomial in the coordinates.

  lemma UnfoldCrossX(a: Vec3, b: Vec3)
    ensures FVec3.Cross(a, b).x == a.y * b.z - a.z * b.y
  {
  }

  lemma UnfoldCrossY(a: Vec3, b: Vec3)
    ensures FVec3.Cross(a, b).y == a.z * b.x - a.x * b.z
  {
  }

  lemma UnfoldCrossZ(a: Vec3, b: Vec3)
    ensures FVec3.Cross(a, b).z == a.x * b.y - a.y * b.x
  {
  }

  lemma UnfoldHamiltonW(a: Quat, b: Quat)
    ensures Hamilton(a, b).w == a.w * b.w - a.x * b.x - a.y * b.y - a.z * b.z
  {
  }

  lemma UnfoldHamiltonX(a: Quat, b: Quat)
    ensures Hamilton(a, b).x == a.w * b.x + a.x * b.w + a.y * b.z - a.z * b.y
  {
  }

  lemma UnfoldHamiltonY(a: Quat, b: Quat)
    ensures Hamilton(a, b).y == a.w * b.y + a.y * b.w + a.z * b.x - a.x * b.z
  {
  }

  lemma UnfoldHamiltonZ(a: Quat, b: Quat)
    ensures Hamilton(a, b).z == a.w * b.z + a.z * b.w + a.x * b.y - a.y * b.x
  {
  }

  lemma UnfoldLength2(a: Quat)
    ensures Length2(a) == a.x * a.x + a.y * a.y + a.z * a.z + a.w * a.w
  {
  }

  lemma UnfoldRotateVector(a: Quat, b: Vec3)
    ensures RotateVector(a, b) == FVec3.Add(b, FVec3.Multiply(FVec3.Add(FVec3.Multiply(FVec3.Cross(VectorPart(a), b), a.w), FVec3.Cross(VectorPart(a), FVec3.Cross(VectorPart(a), b))), 2.0))
  {
  }

}
