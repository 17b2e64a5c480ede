/** The float 4x4 matrix FMat4 (Mat4/FMat4.cpp): four FVec4 rows, indexed [row][column]. */
module FMat4 {
  import opened Utilities
  import FVec3
  import FVec4
  import FMat3
  import QuatAlgebra
  import QuatMatrix

  type Vec3 = FVec3.Vec3
  type Vec4 = FVec4.Vec4
  type Mat3 = FMat3.Mat3

  /** A 4x4 matrix as its rows of entries. */
  type Mat4 = m: seq<seq<real>> | |m| == 4 && |m[0]| == 4 && |m[1]| == 4 && |m[2]| == 4 && |m[3]| == 4
    witness [[0.0, 0.0, 0.0, 0.0], [0.0, 0.0, 0.0, 0.0], [0.0, 0.0, 0.0, 0.0], [0.0, 0.0, 0.0, 0.0]]

  /** FMat4(): every row is a default FVec4, so every entry is 0. */
  const Zero4: Mat4 := [[0.0, 0.0, 0.0, 0.0], [0.0, 0.0, 0.0, 0.0], [0.0, 0.0, 0.0, 0.0], [0.0, 0.0, 0.0, 0.0]]

  /** The sixteen entries of a and b agree. */
  predicate SameEntries(a: Mat4, b: Mat4)
  {
    a[0][0] == b[0][0] && a[0][1] == b[0][1] && a[0][2] == b[0][2] && a[0][3] == b[0][3] &&
    a[1][0] == b[1][0] && a[1][1] == b[1][1] && a[1][2] == b[1][2] && a[1][3] == b[1][3] &&
    a[2][0] == b[2][0] && a[2][1] == b[2][1] && a[2][2] == b[2][2] && a[2][3] == b[2][3] &&
    a[3][0] == b[3][0] && a[3][1] == b[3][1] && a[3][2] == b[3][2] && a[3][3] == b[3][3]
  }

  /** Matrices with the same entries are equal. */
  lemma SameEntriesEqual(a: Mat4, b: Mat4)
    requires SameEntries(a, b)
    ensures a == b
  {
    assert a[0] == b[0];
    assert a[1] == b[1];
    assert a[2] == b[2];
    assert a[3] == b[3];
  }

  /** The matrix m with entry [i][j] replaced by v. */
  function SetEntry(m: Mat4, i: nat, j: nat, v: real): (r: Mat4)
    requires i < 4 && j < 4
    ensures r[i][j] == v
    ensures forall ii, jj | 0 <= ii < 4 && 0 <= jj < 4 && (ii != i || jj != j) :: r[ii][jj] == m[ii][jj]
  {
    m[i := m[i][j := v]]
  }

  /** Component j of a 4-vector, as FVec4's const operator[] reads it. */
  function Component(v: Vec4, j: nat): real
    requires j < 4
  {
    match j
    case 0 => v.x
    case 1 => v.y
    case 2 => v.z
    case _ => v.w
  }

  /** The vector v with component j replaced by value. */
  function SetComponent(v: Vec4, j: nat, value: real): (r: Vec4)
    requires j < 4
    ensures Component(r, j) == value
    ensures forall k | 0 <= k < 4 && k != j :: Component(r, k) == Component(v, k)
  {
    match j
    case 0 => v.(x := value)
    case 1 => v.(y := value)
    case 2 => v.(z := value)
    case _ => v.(w := value)
  }

  /** operator[](int): row i as an FVec4. The index is unchecked. */
  function Row(m: Mat4, i: nat): (r: Vec4)
    requires i < 4
    ensures forall j | 0 <= j < 4 :: Component(r, j) == m[i][j]
  {
    FVec4.Vec4(m[i][0], m[i][1], m[i][2], m[i][3])
  }

  /** The matrix m with row i replaced by v. */
  function ReplaceRow(m: Mat4, i: nat, v: Vec4): (r: Mat4)
    requires i < 4
    ensures Row(r, i) == v
    ensures forall k | 0 <= k < 4 && k != i :: r[k] == m[k]
  {
    m[i := [v.x, v.y, v.z, v.w]]
  }

  /** FMat4(row1, row2, row3, row4). */
  function FromRows(v0: Vec4, v1: Vec4, v2: Vec4, v3: Vec4): (r: Mat4)
    ensures Row(r, 0) == v0 && Row(r, 1) == v1 && Row(r, 2) == v2 && Row(r, 3) == v3
  {
    [[v0.x, v0.y, v0.z, v0.w], [v1.x, v1.y, v1.z, v1.w], [v2.x, v2.y, v2.z, v2.w], [v3.x, v3.y, v3.z, v3.w]]
  }

  /** Every matrix is rebuilt from its four rows. */
  lemma FromRowsOfRows(m: Mat4)
    ensures FromRows(Row(m, 0), Row(m, 1), Row(m, 2), Row(m, 3)) == m
  {
    SameEntriesEqual(FromRows(Row(m, 0), Row(m, 1), Row(m, 2), Row(m, 3)), m);
  }

  /** FMat4(p_00, ..., p_33): the sixteen entries in row order. */
  function FromEntries(p00: real, p01: real, p02: real, p03: real,
                       p10: real, p11: real, p12: real, p13: real,
                       p20: real, p21: real, p22: real, p23: real,
                       p30: real, p31: real, p32: real, p33: real): (r: Mat4)
    ensures r == FromRows(FVec4.Vec4(p00, p01, p02, p03), FVec4.Vec4(p10, p11, p12, p13),
                          FVec4.Vec4(p20, p21, p22, p23), FVec4.Vec4(p30, p31, p32, p33))
  {
    [[p00, p01, p02, p03], [p10, p11, p12, p13], [p20, p21, p22, p23], [p30, p31, p32, p33]]
  }

  /** operator()(row, col): the entry, unchecked. */
  function Entry(m: Mat4, row: nat, col: nat): (r: real)
    requires row < 4 && col < 4
    ensures r == Component(Row(m, row), col)
  {
    m[row][col]
  }

  /** The matrix with init on the diagonal and 0 elsewhere. */
  function Diagonal(init: real): (r: Mat4)
    ensures forall i, j | 0 <= i < 4 && 0 <= j < 4 :: r[i][j] == if i == j then init else 0.0
  {
    [[init, 0.0, 0.0, 0.0], [0.0, init, 0.0, 0.0], [0.0, 0.0, init, 0.0], [0.0, 0.0, 0.0, init]]
  }

  /** The static IdentityMatrix, built as FMat4(1.0f). */
  const IdentityMatrix: Mat4 := Diagonal(1.0)

  /** FMat4(init): the double loop writes init where i == j and 0 elsewhere. */
  method Fill(init: real) returns (r: Mat4)
    ensures r == Diagonal(init)
  {
    r := Zero4;
    for i := 0 to 4
      invariant forall ii, jj | 0 <= ii < i && 0 <= jj < 4 :: r[ii][jj] == Diagonal(init)[ii][jj]
    {
      for j := 0 to 4
        invariant forall ii, jj | 0 <= ii < i && 0 <= jj < 4 :: r[ii][jj] == Diagonal(init)[ii][jj]
        invariant forall jj | 0 <= jj < j :: r[i][jj] == Diagonal(init)[i][jj]
      {
        if i == j {
          r := SetEntry(r, i, j, init);
        } else {
          r := SetEntry(r, i, j, 0.0);
        }
      }
    }
    SameEntriesEqual(r, Diagonal(init));
  }

  /** Identity(): a default (all-zero) matrix with 1 written on the diagonal; the result is
      FMat4(1.0f), the static IdentityMatrix. */
  method Identity() returns (r: Mat4)
    ensures r == IdentityMatrix
    ensures r == Diagonal(1.0)
  {
    r := Zero4;
    for i := 0 to 4
      invariant forall ii, jj | 0 <= ii < 4 && 0 <= jj < 4 ::
                  r[ii][jj] == if ii == jj && ii < i then 1.0 else 0.0
    {
      r := SetEntry(r, i, i, 1.0);
    }
    SameEntriesEqual(r, Diagonal(1.0));
  }

  /** The sum of the four pairwise products. */
  function Dot4(x0: real, x1: real, x2: real, x3: real, y0: real, y1: real, y2: real, y3: real): real
  {
    x0 * y0 + x1 * y1 + x2 * y2 + x3 * y3
  }

  /** The row-major product: entry [i][j] is row i of a times column j of b. */
  function Product(a: Mat4, b: Mat4): Mat4
  {
    seq(4, i requires 0 <= i < 4 => seq(4, j requires 0 <= j < 4 =>
      Dot4(a[i][0], a[i][1], a[i][2], a[i][3], b[0][j], b[1][j], b[2][j], b[3][j])))
  }

  /** Multiply(m1, m2): fills the identity-initialised result with the row-major product. */
  method Multiply(a: Mat4, b: Mat4) returns (r: Mat4)
    ensures r == Product(a, b)
  {
    r := Identity();
    for i := 0 to 4
      invariant forall ii, jj | 0 <= ii < i && 0 <= jj < 4 :: r[ii][jj] == Product(a, b)[ii][jj]
    {
      for j := 0 to 4
        invariant forall ii, jj | 0 <= ii < i && 0 <= jj < 4 :: r[ii][jj] == Product(a, b)[ii][jj]
        invariant forall jj | 0 <= jj < j :: r[i][jj] == Product(a, b)[i][jj]
      {
        r := SetEntry(r, i, j, a[i][0] * b[0][j] + a[i][1] * b[1][j] + a[i][2] * b[2][j] + a[i][3] * b[3][j]);
      }
    }
    SameEntriesEqual(r, Product(a, b));
  }

  /** Multiplying by the identity on either side leaves the matrix unchanged. */
  lemma ProductIdentity(m: Mat4)
    ensures Product(IdentityMatrix, m) == m
    ensures Product(m, IdentityMatrix) == m
  {
    SameEntriesEqual(Product(IdentityMatrix, m), m);
    SameEntriesEqual(Product(m, IdentityMatrix), m);
  }

  /** One row of the member operator*: the rows of a weighted by the entries of r and added
      left to right, as `SrcA00 * r[0] + SrcA10 * r[1] + SrcA20 * r[2] + SrcA30 * r[3]`. */
  function CombineRows(a: Mat4, r: seq<real>): Vec4
    requires |r| == 4
  {
    FVec4.Add(FVec4.Add(FVec4.Add(FVec4.Multiply(Row(a, 0), r[0]), FVec4.Multiply(Row(a, 1), r[1])),
                        FVec4.Multiply(Row(a, 2), r[2])),
              FVec4.Multiply(Row(a, 3), r[3]))
  }

  /** The member `a * b`: row i of the result combines the rows of a with the entries of row i
      of b. */
  function Compose(a: Mat4, b: Mat4): Mat4
  {
    FromRows(CombineRows(a, b[0]), CombineRows(a, b[1]), CombineRows(a, b[2]), CombineRows(a, b[3]))
  }

  /** The member `a * b` is the row-major product with the operands swapped: Multiply(b, a). */
  lemma ComposeSwapsOperands(a: Mat4, b: Mat4)
    ensures Compose(a, b) == Product(b, a)
  {
    ComposeEntries(a, b);
    forall i, j | 0 <= i < 4 && 0 <= j < 4
      ensures Compose(a, b)[i][j] == Product(b, a)[i][j]
    {
      Dot4Commute(a[0][j], a[1][j], a[2][j], a[3][j], b[i][0], b[i][1], b[i][2], b[i][3]);
    }
    SameEntriesEqual(Compose(a, b), Product(b, a));
  }

  /** Entry [i][j] of the member product: column j of a weighted by row i of b. */
  lemma ComposeEntries(a: Mat4, b: Mat4)
    ensures forall i, j | 0 <= i < 4 && 0 <= j < 4 ::
              Compose(a, b)[i][j] == Dot4(a[0][j], a[1][j], a[2][j], a[3][j], b[i][0], b[i][1], b[i][2], b[i][3])
  {
    CombineRowsEntries(a, b[0]);
    CombineRowsEntries(a, b[1]);
    CombineRowsEntries(a, b[2]);
    CombineRowsEntries(a, b[3]);
    forall i, j | 0 <= i < 4 && 0 <= j < 4
      ensures Compose(a, b)[i][j] == Dot4(a[0][j], a[1][j], a[2][j], a[3][j], b[i][0], b[i][1], b[i][2], b[i][3])
    {
      assert Compose(a, b)[i][j] == Component(CombineRows(a, b[i]), j);
    }
  }

  /** Entry [i][j] of the member product, as the loops of `Mat4<T>::operator*` add it up. */
  lemma ComposeEntry(a: Mat4, b: Mat4, i: nat, j: nat)
    requires i < 4 && j < 4
    ensures Compose(a, b)[i][j] == a[0][j] * b[i][0] + a[1][j] * b[i][1] + a[2][j] * b[i][2] + a[3][j] * b[i][3]
  {
    ComposeEntries(a, b);
  }

  /** Entry j of a combined row is column j of a dotted with the weights. */
  lemma CombineRowsEntries(a: Mat4, r: seq<real>)
    requires |r| == 4
    ensures forall j | 0 <= j < 4 ::
              Component(CombineRows(a, r), j) == Dot4(a[0][j], a[1][j], a[2][j], a[3][j], r[0], r[1], r[2], r[3])
  {
  }

  /** operator*(FVec4): component i is row i of m dotted with v. */
  function Apply(m: Mat4, v: Vec4): (r: Vec4)
    ensures forall i | 0 <= i < 4 :: Component(r, i) == FVec4.Dot(Row(m, i), v)
  {
    FVec4.Vec4(FVec4.Dot(Row(m, 0), v), FVec4.Dot(Row(m, 1), v), FVec4.Dot(Row(m, 2), v), FVec4.Dot(Row(m, 3), v))
  }

  /** The first n terms of row times v, summed left to right. */
  function PartialDot(row: seq<real>, v: Vec4, n: nat): real
    requires |row| == 4 && n <= 4
  {
    if n == 0 then 0.0 else PartialDot(row, v, n - 1) + row[n - 1] * Component(v, n - 1)
  }

  /** All four terms summed left to right are the dot product. */
  lemma PartialDotFull(row: seq<real>, v: Vec4)
    requires |row| == 4
    ensures PartialDot(row, v, 4) == FVec4.Dot(FVec4.Vec4(row[0], row[1], row[2], row[3]), v)
  {
    assert PartialDot(row, v, 1) == row[0] * v.x;
    assert PartialDot(row, v, 2) == row[0] * v.x + row[1] * v.y;
    assert PartialDot(row, v, 3) == row[0] * v.x + row[1] * v.y + row[2] * v.z;
  }

  /** operator*(FVec4): result[i] is reset to 0 and then accumulates m[i][j] * v[j]. */
  method MultiplyVector(m: Mat4, v: Vec4) returns (r: Vec4)
    ensures r == Apply(m, v)
  {
    r := FVec4.Zero4;
    for i := 0 to 4
      invariant forall ii | 0 <= ii < i :: Component(r, ii) == FVec4.Dot(Row(m, ii), v)
    {
      r := SetComponent(r, i, 0.0);
      for j := 0 to 4
        invariant forall ii | 0 <= ii < i :: Component(r, ii) == FVec4.Dot(Row(m, ii), v)
        invariant Component(r, i) == PartialDot(m[i], v, j)
      {
        r := SetComponent(r, i, Component(r, i) + m[i][j] * Component(v, j));
      }
      PartialDotFull(m[i], v);
    }
  }

  /** Component i of ApplyProduct. */
  lemma ApplyProductComponent(b: Mat4, a: Mat4, v: Vec4, i: nat)
    requires i < 4
    ensures FVec4.Dot(Row(Product(b, a), i), v) == FVec4.Dot(Row(b, i), Apply(a, v))
  {
    ProductEntries(b, a, i);
    ApplyEntries(a, v);
    RegroupProductRow(Product(b, a), b, a, Apply(a, v), v, i);
  }

  /** Row i of Product(b, a), entry by entry. */
  lemma ProductEntries(b: Mat4, a: Mat4, i: nat)
    requires i < 4
    ensures forall j | 0 <= j < 4 :: Product(b, a)[i][j] == Dot4(b[i][0], b[i][1], b[i][2], b[i][3], a[0][j], a[1][j], a[2][j], a[3][j])
  {
  }

  /** The components of Apply(a, v) as dot products. */
  lemma ApplyEntries(a: Mat4, v: Vec4)
    ensures Apply(a, v).x == Dot4(a[0][0], a[0][1], a[0][2], a[0][3], v.x, v.y, v.z, v.w)
    ensures Apply(a, v).y == Dot4(a[1][0], a[1][1], a[1][2], a[1][3], v.x, v.y, v.z, v.w)
    ensures Apply(a, v).z == Dot4(a[2][0], a[2][1], a[2][2], a[2][3], v.x, v.y, v.z, v.w)
    ensures Apply(a, v).w == Dot4(a[3][0], a[3][1], a[3][2], a[3][3], v.x, v.y, v.z, v.w)
  {
  }

  /** ApplyProductComponent for any p whose row i is row i of b a and any q equal to a v. */
  lemma RegroupProductRow(p: Mat4, b: Mat4, a: Mat4, q: Vec4, v: Vec4, i: nat)
    requires i < 4
    requires p[i][0] == Dot4(b[i][0], b[i][1], b[i][2], b[i][3], a[0][0], a[1][0], a[2][0], a[3][0])
    requires p[i][1] == Dot4(b[i][0], b[i][1], b[i][2], b[i][3], a[0][1], a[1][1], a[2][1], a[3][1])
    requires p[i][2] == Dot4(b[i][0], b[i][1], b[i][2], b[i][3], a[0][2], a[1][2], a[2][2], a[3][2])
    requires p[i][3] == Dot4(b[i][0], b[i][1], b[i][2], b[i][3], a[0][3], a[1][3], a[2][3], a[3][3])
    requires q.x == Dot4(a[0][0], a[0][1], a[0][2], a[0][3], v.x, v.y, v.z, v.w)
    requires q.y == Dot4(a[1][0], a[1][1], a[1][2], a[1][3], v.x, v.y, v.z, v.w)
    requires q.z == Dot4(a[2][0], a[2][1], a[2][2], a[2][3], v.x, v.y, v.z, v.w)
    requires q.w == Dot4(a[3][0], a[3][1], a[3][2], a[3][3], v.x, v.y, v.z, v.w)
    ensures FVec4.Dot(Row(p, i), v) == FVec4.Dot(Row(b, i), q)
  {
    RegroupRow(p[i][0], p[i][1], p[i][2], p[i][3], q.x, q.y, q.z, q.w,
               b[i][0], b[i][1], b[i][2], b[i][3],
               a[0][0], a[0][1], a[0][2], a[0][3], a[1][0], a[1][1], a[1][2], a[1][3],
               a[2][0], a[2][1], a[2][2], a[2][3], a[3][0], a[3][1], a[3][2], a[3][3],
               v.x, v.y, v.z, v.w);
  }

  /** Row i of a product times v, regrouped: with p the row of the product b a and q = a v,
      p . v == b . q. */
  lemma RegroupRow(p0: real, p1: real, p2: real, p3: real, q0: real, q1: real, q2: real, q3: real,
                   b0: real, b1: real, b2: real, b3: real,
                   a00: real, a01: real, a02: real, a03: real,
                   a10: real, a11: real, a12: real, a13: real,
                   a20: real, a21: real, a22: real, a23: real,
                   a30: real, a31: real, a32: real, a33: real,
                   v0: real, v1: real, v2: real, v3: real)
    requires p0 == Dot4(b0, b1, b2, b3, a00, a10, a20, a30) && p1 == Dot4(b0, b1, b2, b3, a01, a11, a21, a31)
    requires p2 == Dot4(b0, b1, b2, b3, a02, a12, a22, a32) && p3 == Dot4(b0, b1, b2, b3, a03, a13, a23, a33)
    requires q0 == Dot4(a00, a01, a02, a03, v0, v1, v2, v3) && q1 == Dot4(a10, a11, a12, a13, v0, v1, v2, v3)
    requires q2 == Dot4(a20, a21, a22, a23, v0, v1, v2, v3) && q3 == Dot4(a30, a31, a32, a33, v0, v1, v2, v3)
    ensures Dot4(p0, p1, p2, p3, v0, v1, v2, v3) == Dot4(b0, b1, b2, b3, q0, q1, q2, q3)
  {
    ScaleDot(b0, b1, b2, b3, a00, a10, a20, a30, v0);
    ScaleDot(b0, b1, b2, b3, a01, a11, a21, a31, v1);
    ScaleDot(b0, b1, b2, b3, a02, a12, a22, a32, v2);
    ScaleDot(b0, b1, b2, b3, a03, a13, a23, a33, v3);
    SumOfDots(b0, b1, b2, b3,
              a00 * v0, a10 * v0, a20 * v0, a30 * v0, a01 * v1, a11 * v1, a21 * v1, a31 * v1,
              a02 * v2, a12 * v2, a22 * v2, a32 * v2, a03 * v3, a13 * v3, a23 * v3, a33 * v3,
              q0, q1, q2, q3);
  }

  /** A dot product scaled by t is the dot product with the second factor scaled. */
  lemma ScaleDot(b0: real, b1: real, b2: real, b3: real, c0: real, c1: real, c2: real, c3: real, t: real)
    ensures Dot4(b0, b1, b2, b3, c0, c1, c2, c3) * t == Dot4(b0, b1, b2, b3, c0 * t, c1 * t, c2 * t, c3 * t)
  {
  }

  /** Four dot products with the same first factor add up to its dot product with the sum of
      the four second factors. */
  lemma SumOfDots(b0: real, b1: real, b2: real, b3: real,
                  c0: real, c1: real, c2: real, c3: real, d0: real, d1: real, d2: real, d3: real,
                  e0: real, e1: real, e2: real, e3: real, f0: real, f1: real, f2: real, f3: real,
                  q0: real, q1: real, q2: real, q3: real)
    requires q0 == c0 + d0 + e0 + f0 && q1 == c1 + d1 + e1 + f1
    requires q2 == c2 + d2 + e2 + f2 && q3 == c3 + d3 + e3 + f3
    ensures Dot4(b0, b1, b2, b3, c0, c1, c2, c3) + Dot4(b0, b1, b2, b3, d0, d1, d2, d3) +
            Dot4(b0, b1, b2, b3, e0, e1, e2, e3) + Dot4(b0, b1, b2, b3, f0, f1, f2, f3)
         == Dot4(b0, b1, b2, b3, q0, q1, q2, q3)
  {
  }

  /** Applying a row-major product applies the right factor first. */
  lemma {:induction false} ApplyProduct(b: Mat4, a: Mat4, v: Vec4)
    ensures Apply(Product(b, a), v) == Apply(b, Apply(a, v))
  {
    ApplyProductComponent(b, a, v, 0);
    ApplyProductComponent(b, a, v, 1);
    ApplyProductComponent(b, a, v, 2);
    ApplyProductComponent(b, a, v, 3);
  }

  /** Because `m * v` dots rows and the member `a * b` swaps its operands, `(a * b) * v`
      applies a first and then b. */
  lemma {:induction false} ComposeApply(a: Mat4, b: Mat4, v: Vec4)
    ensures Apply(Compose(a, b), v) == Apply(b, Apply(a, v))
  {
    ComposeSwapsOperands(a, b);
    ApplyProduct(b, a, v);
  }

  /** Orthographic(left, right, bottom, top, near, far): the identity with the scale
      factors 2 / (right - left), 2 / (top - bottom), -2 / (far - near) on the first three
      diagonal entries and the offsets that centre the box in row 3. */
  function Orthographic(left: real, right: real, bottom: real, top: real, near: real, far: real): (r: Mat4)
    requires right != left && top != bottom && far != near
    ensures forall i, j | 0 <= i < 4 && 0 <= j < 4 && (i == 3 || j == 3) && !(i == 3 && j < 3) ::
              r[i][j] == IdentityMatrix[i][j]
    ensures forall i, j | 0 <= i < 3 && 0 <= j < 3 && i != j :: r[i][j] == 0.0
  {
    FromEntries(2.0 / (right - left), 0.0, 0.0, 0.0,
                0.0, 2.0 / (top - bottom), 0.0, 0.0,
                0.0, 0.0, -2.0 / (far - near), 0.0,
                -(right + left) / (right - left), -(top + bottom) / (top - bottom), -(far + near) / (far - near), 1.0)
  }

  /** The affine map x * 2 / (hi - lo) - (hi + lo) / (hi - lo) sends lo to -1 and hi to 1. */
  lemma {:induction false} UnitInterval(lo: real, hi: real)
    requires hi != lo
    ensures lo * (2.0 / (hi - lo)) + -(hi + lo) / (hi - lo) == -1.0
    ensures hi * (2.0 / (hi - lo)) + -(hi + lo) / (hi - lo) == 1.0
  {
    var d := hi - lo;
    assert lo * (2.0 / d) == (2.0 * lo) / d;
    assert hi * (2.0 / d) == (2.0 * hi) / d;
    assert (2.0 * lo) / d + -(hi + lo) / d == (2.0 * lo - (hi + lo)) / d;
    assert (2.0 * hi) / d + -(hi + lo) / d == (2.0 * hi - (hi + lo)) / d;
    assert 2.0 * lo - (hi + lo) == -d;
    assert 2.0 * hi - (hi + lo) == d;
  }

  /** Read with row vectors (the point times the matrix, which is the transpose applied to
      it), Orthographic maps the box corner (left, bottom, -near) to (-1, -1, -1) and the
      corner (right, top, -far) to (1, 1, 1), keeping the homogeneous 1. */
  lemma {:induction false} OrthographicMapsBox(left: real, right: real, bottom: real, top: real, near: real, far: real)
    requires right != left && top != bottom && far != near
    ensures Apply(Transpose(Orthographic(left, right, bottom, top, near, far)), FVec4.Vec4(left, bottom, -near, 1.0))
              == FVec4.Vec4(-1.0, -1.0, -1.0, 1.0)
    ensures Apply(Transpose(Orthographic(left, right, bottom, top, near, far)), FVec4.Vec4(right, top, -far, 1.0))
              == FVec4.Vec4(1.0, 1.0, 1.0, 1.0)
  {
    var o := Orthographic(left, right, bottom, top, near, far);
    UnitInterval(left, right);
    UnitInterval(bottom, top);
    UnitInterval(near, far);
    assert (-near) * (-2.0 / (far - near)) == near * (2.0 / (far - near));
    assert (-far) * (-2.0 / (far - near)) == far * (2.0 / (far - near));
    var t := Transpose(o);
    assert Row(t, 0) == FVec4.Vec4(o[0][0], 0.0, 0.0, o[3][0]);
    assert Row(t, 1) == FVec4.Vec4(0.0, o[1][1], 0.0, o[3][1]);
    assert Row(t, 2) == FVec4.Vec4(0.0, 0.0, o[2][2], o[3][2]);
    assert Row(t, 3) == FVec4.Vec4(0.0, 0.0, 0.0, 1.0);
  }

  /** The transpose: entry [i][j] is m[j][i]. */
  function Transpose(m: Mat4): (r: Mat4)
    ensures forall i, j | 0 <= i < 4 && 0 <= j < 4 :: r[i][j] == m[j][i]
  {
    seq(4, i requires 0 <= i < 4 => seq(4, j requires 0 <= j < 4 => m[j][i]))
  }

  /** Transpose(m): fills an identity-initialised result with m[j][i]. */
  method TransposeOf(m: Mat4) returns (r: Mat4)
    ensures r == Transpose(m)
  {
    r := Identity();
    for i := 0 to 4
      invariant forall ii, jj | 0 <= ii < i && 0 <= jj < 4 :: r[ii][jj] == m[jj][ii]
    {
      for j := 0 to 4
        invariant forall ii, jj | 0 <= ii < i && 0 <= jj < 4 :: r[ii][jj] == m[jj][ii]
        invariant forall jj | 0 <= jj < j :: r[i][jj] == m[jj][i]
      {
        r := SetEntry(r, i, j, m[j][i]);
      }
    }
    SameEntriesEqual(r, Transpose(m));
  }

  /** Transposing twice gives back the matrix, and the identity is its own transpose. */
  lemma TransposeInvolution(m: Mat4)
    ensures Transpose(Transpose(m)) == m
    ensures Transpose(IdentityMatrix) == IdentityMatrix
  {
    SameEntriesEqual(Transpose(Transpose(m)), m);
    SameEntriesEqual(Transpose(IdentityMatrix), IdentityMatrix);
  }

  /** The dot product does not depend on the order of its two factors. */
  lemma Dot4Commute(x0: real, x1: real, x2: real, x3: real, y0: real, y1: real, y2: real, y3: real)
    ensures Dot4(x0, x1, x2, x3, y0, y1, y2, y3) == Dot4(y0, y1, y2, y3, x0, x1, x2, x3)
  {
  }

  /** The transpose of a product is the product of the transposes in the other order. */
  lemma TransposeProduct(b: Mat4, a: Mat4)
    ensures Transpose(Product(b, a)) == Product(Transpose(a), Transpose(b))
  {
    forall i, j | 0 <= i < 4 && 0 <= j < 4
      ensures Transpose(Product(b, a))[i][j] == Product(Transpose(a), Transpose(b))[i][j]
    {
      Dot4Commute(b[j][0], b[j][1], b[j][2], b[j][3], a[0][i], a[1][i], a[2][i], a[3][i]);
    }
    SameEntriesEqual(Transpose(Product(b, a)), Product(Transpose(a), Transpose(b)));
  }

  /** Component j of a 3-vector. */
  function Component3(t: Vec3, j: nat): real
    requires j < 3
  {
    if j == 0 then t.x else if j == 1 then t.y else t.z
  }

  /** Translation(t): the identity with t written into entries [3][0..2]. */
  function Translation(t: Vec3): (r: Mat4)
    ensures forall i, j | 0 <= i < 4 && 0 <= j < 4 ::
              r[i][j] == if i == 3 && j < 3 then Component3(t, j) else IdentityMatrix[i][j]
  {
    SetEntry(SetEntry(SetEntry(IdentityMatrix, 3, 0, t.x), 3, 1, t.y), 3, 2, t.z)
  }

  /** Translate(m, t): t is added to entries [3][0..2] of a copy of m. */
  function Translate(m: Mat4, t: Vec3): (r: Mat4)
  {
    SetEntry(SetEntry(SetEntry(m, 3, 0, m[3][0] + t.x), 3, 1, m[3][1] + t.y), 3, 2, m[3][2] + t.z)
  }

  /** Translate adds t to the three entries [3][0..2] and leaves the other thirteen alone;
      translating the identity gives Translation(t). */
  lemma TranslateEntries(m: Mat4, t: Vec3)
    ensures forall j | 0 <= j < 3 :: Translate(m, t)[3][j] == m[3][j] + Component3(t, j)
    ensures forall i, j | 0 <= i < 4 && 0 <= j < 4 && !(i == 3 && j < 3) :: Translate(m, t)[i][j] == m[i][j]
    ensures Translate(IdentityMatrix, t) == Translation(t)
  {
    SameEntriesEqual(Translate(IdentityMatrix, t), Translation(t));
  }

  /** Translating by s and then by t is translating by s + t. */
  lemma TranslateTwice(m: Mat4, s: Vec3, t: Vec3)
    ensures Translate(Translate(m, s), t) == Translate(m, FVec3.Add(s, t))
  {
    SameEntriesEqual(Translate(Translate(m, s), t), Translate(m, FVec3.Add(s, t)));
  }

  /** Scale(s): the identity with s.x, s.y and s.z on the first three diagonal entries. */
  function Scaling(s: Vec3): (r: Mat4)
    ensures forall i, j | 0 <= i < 4 && 0 <= j < 4 ::
              r[i][j] == if i == j && i < 3 then Component3(s, i) else IdentityMatrix[i][j]
  {
    SetEntry(SetEntry(SetEntry(IdentityMatrix, 0, 0, s.x), 1, 1, s.y), 2, 2, s.z)
  }

  /** Scale(m, s): entries [0][0], [1][1] and [2][2] of a copy of m are multiplied by s.x,
      s.y and s.z. */
  function Scale(m: Mat4, s: Vec3): (r: Mat4)
  {
    SetEntry(SetEntry(SetEntry(m, 0, 0, m[0][0] * s.x), 1, 1, m[1][1] * s.y), 2, 2, m[2][2] * s.z)
  }

  /** Scale multiplies only the first three diagonal entries and nothing else changes;
      scaling the identity gives Scale(s). */
  lemma ScaleEntries(m: Mat4, s: Vec3)
    ensures forall k | 0 <= k < 3 :: Scale(m, s)[k][k] == m[k][k] * Component3(s, k)
    ensures forall i, j | 0 <= i < 4 && 0 <= j < 4 && !(i == j && i < 3) :: Scale(m, s)[i][j] == m[i][j]
    ensures Scale(IdentityMatrix, s) == Scaling(s)
  {
    SameEntriesEqual(Scale(IdentityMatrix, s), Scaling(s));
  }

  /** ToMat4(m): the identity with m copied into the top-left 3x3. */
  function ToMat4(m: Mat3): (r: Mat4)
  {
    SetEntry(SetEntry(SetEntry(SetEntry(SetEntry(SetEntry(SetEntry(SetEntry(SetEntry(IdentityMatrix,
      0, 0, m[0][0]), 0, 1, m[0][1]), 0, 2, m[0][2]),
      1, 0, m[1][0]), 1, 1, m[1][1]), 1, 2, m[1][2]),
      2, 0, m[2][0]), 2, 1, m[2][1]), 2, 2, m[2][2])
  }

  /** The top-left 3x3 of a 4x4 matrix. */
  function TopLeft(m: Mat4): (r: Mat3)
    ensures forall i, j | 0 <= i < 3 && 0 <= j < 3 :: r[i][j] == m[i][j]
  {
    FMat3.FromEntries(m[0][0], m[0][1], m[0][2], m[1][0], m[1][1], m[1][2], m[2][0], m[2][1], m[2][2])
  }

  /** ToMat4 puts m in the top-left; row 3 and column 3 are those of the identity, and the
      top-left of the result gives m back. */
  lemma ToMat4Entries(m: Mat3)
    ensures forall i, j | 0 <= i < 3 && 0 <= j < 3 :: ToMat4(m)[i][j] == m[i][j]
    ensures Row(ToMat4(m), 3) == FVec4.Vec4(0.0, 0.0, 0.0, 1.0)
    ensures ToMat4(m)[0][3] == 0.0 && ToMat4(m)[1][3] == 0.0 && ToMat4(m)[2][3] == 0.0
    ensures TopLeft(ToMat4(m)) == m
  {
    FMat3.SameEntriesEqual(TopLeft(ToMat4(m)), m);
  }

  /** FMat4(position, rotation): the rotation matrix of the quaternion, widened by ToMat4 and
      translated by position. */
  function FromPose(position: Vec3, rotation: QuatAlgebra.Quat): Mat4
  {
    Translate(ToMat4(QuatMatrix.ToMatrix3(rotation)), position)
  }

  /** The pose matrix holds the rotation in its top-left, the position in row 3 with a final
      1, and zeros above that 1. */
  lemma FromPoseEntries(position: Vec3, rotation: QuatAlgebra.Quat)
    ensures TopLeft(FromPose(position, rotation)) == QuatMatrix.ToMatrix3(rotation)
    ensures Row(FromPose(position, rotation), 3) == FVec4.FromVec3(position, 1.0)
    ensures forall i | 0 <= i < 3 :: FromPose(position, rotation)[i][3] == 0.0
  {
    var m3 := QuatMatrix.ToMatrix3(rotation);
    ToMat4Entries(m3);
    TranslateEntries(ToMat4(m3), position);
    FMat3.SameEntriesEqual(TopLeft(FromPose(position, rotation)), m3);
  }

  /** The column a key letter selects: 'x', 'y', 'z', 'w' are 0..3 and any other letter
      falls back to column 0. */
  function KeyColumn(c: char): (col: nat)
    ensures col < 4
    ensures c == 'y' ==> col == 1
    ensures c == 'z' ==> col == 2
    ensures c == 'w' ==> col == 3
    ensures c !in {'y', 'z', 'w'} ==> col == 0
  {
    match c
    case 'x' => 0
    case 'y' => 1
    case 'z' => 2
    case 'w' => 3
    case _ => 0
  }

  /** A valid operator[](const char*) key: at least two characters, the second a row digit.
      The row index is an unchecked `key[1] - '0'`. */
  predicate ValidKey(key: string)
  {
    |key| >= 2 && '0' <= key[1] <= '3'
  }

  /** The row a valid key selects. */
  function KeyRow(key: string): (row: nat)
    requires ValidKey(key)
    ensures row < 4
  {
    key[1] as int - '0' as int
  }

  /** operator[](const char*), both overloads: the entry in row key[1] and the column of
      key[0], so "x3" is [3][0] and "w0" is [0][3]. */
  function KeyEntry(m: Mat4, key: string): (r: real)
    requires ValidKey(key)
    ensures r == Component(Row(m, KeyRow(key)), KeyColumn(key[0]))
  {
    m[KeyRow(key)][KeyColumn(key[0])]
  }

  /** Translation(t) read back through the keys "x3", "y3" and "z3"; an unknown letter reads
      column x. */
  lemma TranslationKeys(t: Vec3)
    ensures KeyEntry(Translation(t), "x3") == t.x
    ensures KeyEntry(Translation(t), "y3") == t.y
    ensures KeyEntry(Translation(t), "z3") == t.z
    ensures KeyEntry(Translation(t), "w3") == 1.0
    ensures KeyEntry(Translation(t), "q3") == t.x
  {
  }

  /** An entry times a scalar, as a term of its own: entries of two scaled matrices are then
      compared as products of the same factors. */
  function Times(x: real, s: real): real
  {
    x * s
  }

  /** operator*(float): every entry times s. */
  function Scaled(m: Mat4, s: real): (r: Mat4)
  {
    seq(4, i requires 0 <= i < 4 => seq(4, j requires 0 <= j < 4 => Times(m[i][j], s)))
  }

  /** operator/(float): every entry divided by s, with no check for a zero scalar. */
  function Quotient(m: Mat4, s: real): (r: Mat4)
    requires s != 0.0
  {
    seq(4, i requires 0 <= i < 4 => seq(4, j requires 0 <= j < 4 => m[i][j] / s))
  }

  /** Dividing by s and multiplying back restores the matrix. */
  lemma QuotientScaled(m: Mat4, s: real)
    requires s != 0.0
    ensures Scaled(Quotient(m, s), s) == m
  {
    SameEntriesEqual(Scaled(Quotient(m, s), s), m);
  }

  /** Entrywise sum and difference. */
  function Sum(a: Mat4, b: Mat4): Mat4
  {
    seq(4, i requires 0 <= i < 4 => seq(4, j requires 0 <= j < 4 => a[i][j] + b[i][j]))
  }

  function Difference(a: Mat4, b: Mat4): Mat4
  {
    seq(4, i requires 0 <= i < 4 => seq(4, j requires 0 <= j < 4 => a[i][j] - b[i][j]))
  }

  /** Adding then subtracting the same matrix cancels, in either order. */
  lemma SumDifferenceInverse(a: Mat4, b: Mat4)
    ensures Difference(Sum(a, b), b) == a
    ensures Sum(Difference(a, b), b) == a
  {
    SameEntriesEqual(Difference(Sum(a, b), b), a);
    SameEntriesEqual(Sum(Difference(a, b), b), a);
  }

  /** Unary minus: every entry negated. */
  function Negate(m: Mat4): Mat4
  {
    seq(4, i requires 0 <= i < 4 => seq(4, j requires 0 <= j < 4 => -m[i][j]))
  }

  /** A matrix plus its negation is Zero4, and negating twice gives the matrix back. */
  lemma NegateInverse(m: Mat4)
    ensures Sum(m, Negate(m)) == Zero4
    ensures Negate(Negate(m)) == m
  {
    SameEntriesEqual(Sum(m, Negate(m)), Zero4);
    SameEntriesEqual(Negate(Negate(m)), m);
  }

  /** operator*(float): the double loop into a default result. */
  method MultiplyScalar(m: Mat4, s: real) returns (r: Mat4)
    ensures r == Scaled(m, s)
  {
    r := Zero4;
    for i := 0 to 4
      invariant forall ii, jj | 0 <= ii < i && 0 <= jj < 4 :: r[ii][jj] == Times(m[ii][jj], s)
    {
      for j := 0 to 4
        invariant forall ii, jj | 0 <= ii < i && 0 <= jj < 4 :: r[ii][jj] == Times(m[ii][jj], s)
        invariant forall jj | 0 <= jj < j :: r[i][jj] == Times(m[i][jj], s)
      {
        r := SetEntry(r, i, j, Times(m[i][j], s));
      }
    }
    SameEntriesEqual(r, Scaled(m, s));
  }

  /** operator/(float). */
  method DivideScalar(m: Mat4, s: real) returns (r: Mat4)
    requires s != 0.0
    ensures r == Quotient(m, s)
  {
    r := Zero4;
    for i := 0 to 4
      invariant forall ii, jj | 0 <= ii < i && 0 <= jj < 4 :: r[ii][jj] == m[ii][jj] / s
    {
      for j := 0 to 4
        invariant forall ii, jj | 0 <= ii < i && 0 <= jj < 4 :: r[ii][jj] == m[ii][jj] / s
        invariant forall jj | 0 <= jj < j :: r[i][jj] == m[i][jj] / s
      {
        r := SetEntry(r, i, j, m[i][j] / s);
      }
    }
    SameEntriesEqual(r, Quotient(m, s));
  }

  /** operator+. */
  method Add(a: Mat4, b: Mat4) returns (r: Mat4)
    ensures r == Sum(a, b)
  {
    r := Zero4;
    for i := 0 to 4
      invariant forall ii, jj | 0 <= ii < i && 0 <= jj < 4 :: r[ii][jj] == a[ii][jj] + b[ii][jj]
    {
      for j := 0 to 4
        invariant forall ii, jj | 0 <= ii < i && 0 <= jj < 4 :: r[ii][jj] == a[ii][jj] + b[ii][jj]
        invariant forall jj | 0 <= jj < j :: r[i][jj] == a[i][jj] + b[i][jj]
      {
        r := SetEntry(r, i, j, a[i][j] + b[i][j]);
      }
    }
    SameEntriesEqual(r, Sum(a, b));
  }

  /** operator-(FMat4). */
  method Subtract(a: Mat4, b: Mat4) returns (r: Mat4)
    ensures r == Difference(a, b)
  {
    r := Zero4;
    for i := 0 to 4
      invariant forall ii, jj | 0 <= ii < i && 0 <= jj < 4 :: r[ii][jj] == a[ii][jj] - b[ii][jj]
    {
      for j := 0 to 4
        invariant forall ii, jj | 0 <= ii < i && 0 <= jj < 4 :: r[ii][jj] == a[ii][jj] - b[ii][jj]
        invariant forall jj | 0 <= jj < j :: r[i][jj] == a[i][jj] - b[i][jj]
      {
        r := SetEntry(r, i, j, a[i][j] - b[i][j]);
      }
    }
    SameEntriesEqual(r, Difference(a, b));
  }

  /** Unary operator-. */
  method Negated(m: Mat4) returns (r: Mat4)
    ensures r == Negate(m)
  {
    r := Zero4;
    for i := 0 to 4
      invariant forall ii, jj | 0 <= ii < i && 0 <= jj < 4 :: r[ii][jj] == -m[ii][jj]
    {
      for j := 0 to 4
        invariant forall ii, jj | 0 <= ii < i && 0 <= jj < 4 :: r[ii][jj] == -m[ii][jj]
        invariant forall jj | 0 <= jj < j :: r[i][jj] == -m[i][jj]
      {
        r := SetEntry(r, i, j, -m[i][j]);
      }
    }
    SameEntriesEqual(r, Negate(m));
  }

  /** The free `s * m`: the sixteen entries of a copy multiplied by s one by one, which is
      the member `m * s`. */
  function ScalarTimes(s: real, m: Mat4): (r: Mat4)
    ensures r == Scaled(m, s)
  {
    var r: Mat4 := [[Times(m[0][0], s), Times(m[0][1], s), Times(m[0][2], s), Times(m[0][3], s)],
                    [Times(m[1][0], s), Times(m[1][1], s), Times(m[1][2], s), Times(m[1][3], s)],
                    [Times(m[2][0], s), Times(m[2][1], s), Times(m[2][2], s), Times(m[2][3], s)],
                    [Times(m[3][0], s), Times(m[3][1], s), Times(m[3][2], s), Times(m[3][3], s)]];
    SameEntriesEqual(r, Scaled(m, s));
    r
  }

  /** The free `s / m`: despite the operand order, the sixteen entries of m are divided by s,
      which is the member `m / s`. */
  function ScalarOver(s: real, m: Mat4): (r: Mat4)
    requires s != 0.0
    ensures r == Quotient(m, s)
  {
    var r: Mat4 := [[m[0][0] / s, m[0][1] / s, m[0][2] / s, m[0][3] / s],
                    [m[1][0] / s, m[1][1] / s, m[1][2] / s, m[1][3] / s],
                    [m[2][0] / s, m[2][1] / s, m[2][2] / s, m[2][3] / s],
                    [m[3][0] / s, m[3][1] / s, m[3][2] / s, m[3][3] / s]];
    assert r[0] == Quotient(m, s)[0];
    assert r[1] == Quotient(m, s)[1];
    assert r[2] == Quotient(m, s)[2];
    assert r[3] == Quotient(m, s)[3];
    r
  }

  /** operator==: compares the entries in row order and returns false at the first
      difference. */
  method Equals(a: Mat4, b: Mat4) returns (r: bool)
    ensures r <==> a == b
  {
    for i := 0 to 4
      invariant forall ii, jj | 0 <= ii < i && 0 <= jj < 4 :: a[ii][jj] == b[ii][jj]
    {
      for j := 0 to 4
        invariant forall ii, jj | 0 <= ii < i && 0 <= jj < 4 :: a[ii][jj] == b[ii][jj]
        invariant forall jj | 0 <= jj < j :: a[i][jj] == b[i][jj]
      {
        if a[i][j] != b[i][j] {
          return false;
        }
      }
    }
    SameEntriesEqual(a, b);
    return true;
  }

  /** operator!=: the negation of operator==. */
  method NotEquals(a: Mat4, b: Mat4) returns (r: bool)
    ensures r <==> a != b
  {
    var same := Equals(a, b);
    r := !same;
  }

  /** An FMat4 object: the four rows the compound operators and the non-const operator[]
      write. */
  class Mat4Var {
    const rows: array<Vec4>

    ghost predicate Valid()
      reads this
    {
      rows.Length == 4
    }

    function Value(): Mat4
      requires Valid()
      reads this, rows
    {
      FromRows(rows[0], rows[1], rows[2], rows[3])
    }

    /** FMat4(): all entries 0. */
    constructor()
      ensures Valid() && fresh(rows)
      ensures Value() == Zero4
    {
      rows := new Vec4[4](_ => FVec4.Zero4);
    }

    /** The copy constructor and the value constructors, given the value they build. */
    constructor Of(m: Mat4)
      ensures Valid() && fresh(rows)
      ensures Value() == m
    {
      rows := new Vec4[4](i requires 0 <= i < 4 => Row(m, i));
      new;
      FromRowsOfRows(m);
    }

    /** Stores m row by row. */
    method Store(m: Mat4)
      requires Valid()
      modifies rows
      ensures Valid() && Value() == m
    {
      rows[0] := Row(m, 0);
      rows[1] := Row(m, 1);
      rows[2] := Row(m, 2);
      rows[3] := Row(m, 3);
      FromRowsOfRows(m);
    }

    /** operator=: copies the sixteen entries. */
    method Assign(other: Mat4)
      requires Valid()
      modifies rows
      ensures Valid() && Value() == other
    {
      Store(other);
    }

    /** A write through the non-const operator[](int): row i becomes v. */
    method SetRow(i: nat, v: Vec4)
      requires Valid() && i < 4
      modifies rows
      ensures Valid()
      ensures Row(Value(), i) == v
      ensures forall k | 0 <= k < 4 && k != i :: Row(Value(), k) == Row(old(Value()), k)
    {
      rows[i] := v;
    }

    /** A write through the non-const operator[](const char*): the entry the key selects
        becomes value and the other fifteen are unchanged. */
    method SetByKey(key: string, value: real)
      requires Valid() && ValidKey(key)
      modifies rows
      ensures Valid()
      ensures Value() == SetEntry(old(Value()), KeyRow(key), KeyColumn(key[0]), value)
      ensures KeyEntry(Value(), key) == value
    {
      ghost var before := Value();
      var row := KeyRow(key);
      rows[row] := SetComponent(rows[row], KeyColumn(key[0]), value);
      SameEntriesEqual(Value(), SetEntry(before, row, KeyColumn(key[0]), value));
    }

    /** operator+=: `*this = *this + other`. */
    method AddAssign(other: Mat4)
      requires Valid()
      modifies rows
      ensures Valid() && Value() == Sum(old(Value()), other)
    {
      var sum := Add(Value(), other);
      Store(sum);
    }

    /** operator-=: `*this = *this - other`. */
    method SubtractAssign(other: Mat4)
      requires Valid()
      modifies rows
      ensures Valid() && Value() == Difference(old(Value()), other)
    {
      var difference := Subtract(Value(), other);
      Store(difference);
    }

    /** operator*=(FMat4): `*this = *this * other`, the member product, evaluated before the
        assignment, so `m *= m` is Compose(m, m) even though other may be this object. */
    method MultiplyAssign(other: Mat4Var)
      requires Valid() && other.Valid()
      modifies rows
      ensures Valid() && Value() == Compose(old(Value()), old(other.Value()))
      ensures Value() == Product(old(other.Value()), old(Value()))
    {
      var product := Compose(Value(), other.Value());
      ComposeSwapsOperands(Value(), other.Value());
      Store(product);
    }

    /** operator/=(float): `*this = *this / s`. */
    method DivideAssign(s: real)
      requires Valid() && s != 0.0
      modifies rows
      ensures Valid() && Value() == Quotient(old(Value()), s)
    {
      var quotient := DivideScalar(Value(), s);
      Store(quotient);
    }
  }

  /** `m *= m` through one object: the member product of the matrix with itself. */
  method SquareInPlace(m: Mat4Var)
    requires m.Valid()
    modifies m.rows
    ensures m.Valid() && m.Value() == Product(old(m.Value()), old(m.Value()))
  {
    m.MultiplyAssign(m);
  }
}
