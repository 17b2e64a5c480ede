/** The float 3x3 matrix FMat3 (Mat3/FMat3.cpp): three FVec3 rows, indexed [row][column]. */
module FMat3 {
  import opened Utilities
  import FVec3

  type Vec3 = FVec3.Vec3

  /** A 3x3 matrix as its rows of entries. */
  type Mat3 = m: seq<seq<real>> | |m| == 3 && |m[0]| == 3 && |m[1]| == 3 && |m[2]| == 3
    witness [[0.0, 0.0, 0.0], [0.0, 0.0, 0.0], [0.0, 0.0, 0.0]]

  /** FMat3(): every row is a default FVec3, so every entry is 0. */
  const Zero3: Mat3 := [[0.0, 0.0, 0.0], [0.0, 0.0, 0.0], [0.0, 0.0, 0.0]]

  /** The nine entries of a and b agree. */
  predicate SameEntries(a: Mat3, b: Mat3)
  {
    a[0][0] == b[0][0] && a[0][1] == b[0][1] && a[0][2] == b[0][2] &&
    a[1][0] == b[1][0] && a[1][1] == b[1][1] && a[1][2] == b[1][2] &&
    a[2][0] == b[2][0] && a[2][1] == b[2][1] && a[2][2] == b[2][2]
  }

  /** Matrices with the same entries are equal. */
  lemma SameEntriesEqual(a: Mat3, b: Mat3)
    requires SameEntries(a, b)
    ensures a == b
  {
    assert a[0] == b[0];
    assert a[1] == b[1];
    assert a[2] == b[2];
  }

  /** The matrix m with entry [i][j] replaced by v. */
  function SetEntry(m: Mat3, i: nat, j: nat, v: real): (r: Mat3)
    requires i < 3 && j < 3
    ensures r[i][j] == v
    ensures forall ii, jj | 0 <= ii < 3 && 0 <= jj < 3 && (ii != i || jj != j) :: r[ii][jj] == m[ii][jj]
  {
    m[i := m[i][j := v]]
  }

  /** The matrix whose rows are v0, v1 and v2 (FMat3(v1, v2, v3)). */
  function FromRows(v0: Vec3, v1: Vec3, v2: Vec3): (r: Mat3)
    ensures Row(r, 0) == v0 && Row(r, 1) == v1 && Row(r, 2) == v2
  {
    [[v0.x, v0.y, v0.z], [v1.x, v1.y, v1.z], [v2.x, v2.y, v2.z]]
  }

  /** operator[]: row i as an FVec3. The index is unsigned and unchecked. */
  function Row(m: Mat3, i: nat): Vec3
    requires i < 3
  {
    FVec3.Vec3(m[i][0], m[i][1], m[i][2])
  }

  /** Every matrix is rebuilt from its three rows. */
  lemma FromRowsOfRows(m: Mat3)
    ensures FromRows(Row(m, 0), Row(m, 1), Row(m, 2)) == m
  {
    SameEntriesEqual(FromRows(Row(m, 0), Row(m, 1), Row(m, 2)), m);
  }

  /** FMat3(p_00, ..., p_22): the nine entries in row order. */
  function FromEntries(p00: real, p01: real, p02: real,
                       p10: real, p11: real, p12: real,
                       p20: real, p21: real, p22: real): (r: Mat3)
    ensures r == FromRows(FVec3.Vec3(p00, p01, p02), FVec3.Vec3(p10, p11, p12), FVec3.Vec3(p20, p21, p22))
  {
    [[p00, p01, p02], [p10, p11, p12], [p20, p21, p22]]
  }

  /** FMat3(init): init on the diagonal; the other entries keep FVec3's default 0. */
  function Diagonal(init: real): (r: Mat3)
    ensures forall i, j | 0 <= i < 3 && 0 <= j < 3 :: r[i][j] == if i == j then init else 0.0
  {
    [[init, 0.0, 0.0], [0.0, init, 0.0], [0.0, 0.0, init]]
  }

  /** Identity(): the rows (1,0,0), (0,1,0), (0,0,1); the constant `identity` is FMat3(1). */
  function Identity(): (r: Mat3)
    ensures r == Diagonal(1.0)
  {
    FromRows(FVec3.Vec3(1.0, 0.0, 0.0), FVec3.Vec3(0.0, 1.0, 0.0), FVec3.Vec3(0.0, 0.0, 1.0))
  }

  /** Transpose: entry [i][j] of the result is entry [j][i] of m. */
  function Transpose(m: Mat3): (r: Mat3)
    ensures forall i, j | 0 <= i < 3 && 0 <= j < 3 :: r[i][j] == m[j][i]
  {
    FromRows(FVec3.Vec3(m[0][0], m[1][0], m[2][0]),
             FVec3.Vec3(m[0][1], m[1][1], m[2][1]),
             FVec3.Vec3(m[0][2], m[1][2], m[2][2]))
  }

  /** Transposing twice gives the matrix back, and the identity is its own transpose. */
  lemma TransposeInvolution(m: Mat3)
    ensures Transpose(Transpose(m)) == m
    ensures Transpose(Identity()) == Identity()
  {
    SameEntriesEqual(Transpose(Transpose(m)), m);
    SameEntriesEqual(Transpose(Identity()), Identity());
  }

  /** Determinant, by cofactor expansion along column 0. */
  function Determinant(m: Mat3): real
  {
    m[0][0] * (m[1][1] * m[2][2] - m[2][1] * m[1][2])
    - m[1][0] * (m[0][1] * m[2][2] - m[2][1] * m[0][2])
    + m[2][0] * (m[0][1] * m[1][2] - m[1][1] * m[0][2])
  }

  /** The determinant of the transpose is the determinant, and that of the identity is 1. */
  lemma DeterminantTranspose(m: Mat3)
    ensures Determinant(Transpose(m)) == Determinant(m)
    ensures Determinant(Identity()) == 1.0
  {
    var t := Transpose(m);
    assert t[0][0] == m[0][0] && t[0][1] == m[1][0] && t[0][2] == m[2][0];
    assert t[1][0] == m[0][1] && t[1][1] == m[1][1] && t[1][2] == m[2][1];
    assert t[2][0] == m[0][2] && t[2][1] == m[1][2] && t[2][2] == m[2][2];
  }

  /** The row-by-column product: entry [i][j] is row i of a times column j of b. */
  function Product(a: Mat3, b: Mat3): Mat3
  {
    seq(3, i requires 0 <= i < 3 =>
      seq(3, j requires 0 <= j < 3 => Dot3(a[i][0], a[i][1], a[i][2], b[0][j], b[1][j], b[2][j])))
  }

  /** The sum of three products, row times column. */
  function Dot3(x0: real, x1: real, x2: real, y0: real, y1: real, y2: real): real
  {
    x0 * y0 + x1 * y1 + x2 * y2
  }

  /** The identity is neutral for the product on both sides. */
  lemma ProductIdentity(m: Mat3)
    ensures Product(Identity(), m) == m
    ensures Product(m, Identity()) == m
  {
    SameEntriesEqual(Product(Identity(), m), m);
    SameEntriesEqual(Product(m, Identity()), m);
  }

  /** Entry [i][j] of the adjugate: the signed cofactor of entry [j][i]. */
  function Adjugate(m: Mat3): Mat3
  {
    [[(m[1][1] * m[2][2] - m[2][1] * m[1][2]), -(m[0][1] * m[2][2] - m[2][1] * m[0][2]), (m[0][1] * m[1][2] - m[1][1] * m[0][2])],
     [-(m[1][0] * m[2][2] - m[2][0] * m[1][2]), (m[0][0] * m[2][2] - m[2][0] * m[0][2]), -(m[0][0] * m[1][2] - m[1][0] * m[0][2])],
     [(m[1][0] * m[2][1] - m[2][0] * m[1][1]), -(m[0][0] * m[2][1] - m[2][0] * m[0][1]), (m[0][0] * m[1][1] - m[1][0] * m[0][1])]]
  }

  /** The nine entries of the adjugate. */
  lemma AdjugateEntries(m: Mat3)
    ensures Adjugate(m)[0][0] == (m[1][1] * m[2][2] - m[2][1] * m[1][2]) && Adjugate(m)[0][1] == -(m[0][1] * m[2][2] - m[2][1] * m[0][2]) && Adjugate(m)[0][2] == (m[0][1] * m[1][2] - m[1][1] * m[0][2])
    ensures Adjugate(m)[1][0] == -(m[1][0] * m[2][2] - m[2][0] * m[1][2]) && Adjugate(m)[1][1] == (m[0][0] * m[2][2] - m[2][0] * m[0][2]) && Adjugate(m)[1][2] == -(m[0][0] * m[1][2] - m[1][0] * m[0][2])
    ensures Adjugate(m)[2][0] == (m[1][0] * m[2][1] - m[2][0] * m[1][1]) && Adjugate(m)[2][1] == -(m[0][0] * m[2][1] - m[2][0] * m[0][1]) && Adjugate(m)[2][2] == (m[0][0] * m[1][1] - m[1][0] * m[0][1])
  {
  }

  /** The cofactor identities behind AdjugateProduct: a row of m times the cofactors of the
      same row gives the determinant, and times those of another row gives 0. */
  lemma CofactorsRight(m: Mat3)
    ensures Dot3(m[0][0], m[0][1], m[0][2], (m[1][1] * m[2][2] - m[2][1] * m[1][2]), -(m[1][0] * m[2][2] - m[2][0] * m[1][2]), (m[1][0] * m[2][1] - m[2][0] * m[1][1])) == Determinant(m)
    ensures Dot3(m[0][0], m[0][1], m[0][2], -(m[0][1] * m[2][2] - m[2][1] * m[0][2]), (m[0][0] * m[2][2] - m[2][0] * m[0][2]), -(m[0][0] * m[2][1] - m[2][0] * m[0][1])) == 0.0
    ensures Dot3(m[0][0], m[0][1], m[0][2], (m[0][1] * m[1][2] - m[1][1] * m[0][2]), -(m[0][0] * m[1][2] - m[1][0] * m[0][2]), (m[0][0] * m[1][1] - m[1][0] * m[0][1])) == 0.0
    ensures Dot3(m[1][0], m[1][1], m[1][2], (m[1][1] * m[2][2] - m[2][1] * m[1][2]), -(m[1][0] * m[2][2] - m[2][0] * m[1][2]), (m[1][0] * m[2][1] - m[2][0] * m[1][1])) == 0.0
    ensures Dot3(m[1][0], m[1][1], m[1][2], -(m[0][1] * m[2][2] - m[2][1] * m[0][2]), (m[0][0] * m[2][2] - m[2][0] * m[0][2]), -(m[0][0] * m[2][1] - m[2][0] * m[0][1])) == Determinant(m)
    ensures Dot3(m[1][0], m[1][1], m[1][2], (m[0][1] * m[1][2] - m[1][1] * m[0][2]), -(m[0][0] * m[1][2] - m[1][0] * m[0][2]), (m[0][0] * m[1][1] - m[1][0] * m[0][1])) == 0.0
    ensures Dot3(m[2][0], m[2][1], m[2][2], (m[1][1] * m[2][2] - m[2][1] * m[1][2]), -(m[1][0] * m[2][2] - m[2][0] * m[1][2]), (m[1][0] * m[2][1] - m[2][0] * m[1][1])) == 0.0
    ensures Dot3(m[2][0], m[2][1], m[2][2], -(m[0][1] * m[2][2] - m[2][1] * m[0][2]), (m[0][0] * m[2][2] - m[2][0] * m[0][2]), -(m[0][0] * m[2][1] - m[2][0] * m[0][1])) == 0.0
    ensures Dot3(m[2][0], m[2][1], m[2][2], (m[0][1] * m[1][2] - m[1][1] * m[0][2]), -(m[0][0] * m[1][2] - m[1][0] * m[0][2]), (m[0][0] * m[1][1] - m[1][0] * m[0][1])) == Determinant(m)
  {
  }

  /** The same for columns: the cofactors of a column times that column give the
      determinant, and times another column give 0. */
  lemma CofactorsLeft(m: Mat3)
    ensures Dot3((m[1][1] * m[2][2] - m[2][1] * m[1][2]), -(m[0][1] * m[2][2] - m[2][1] * m[0][2]), (m[0][1] * m[1][2] - m[1][1] * m[0][2]), m[0][0], m[1][0], m[2][0]) == Determinant(m)
    ensures Dot3((m[1][1] * m[2][2] - m[2][1] * m[1][2]), -(m[0][1] * m[2][2] - m[2][1] * m[0][2]), (m[0][1] * m[1][2] - m[1][1] * m[0][2]), m[0][1], m[1][1], m[2][1]) == 0.0
    ensures Dot3((m[1][1] * m[2][2] - m[2][1] * m[1][2]), -(m[0][1] * m[2][2] - m[2][1] * m[0][2]), (m[0][1] * m[1][2] - m[1][1] * m[0][2]), m[0][2], m[1][2], m[2][2]) == 0.0
    ensures Dot3(-(m[1][0] * m[2][2] - m[2][0] * m[1][2]), (m[0][0] * m[2][2] - m[2][0] * m[0][2]), -(m[0][0] * m[1][2] - m[1][0] * m[0][2]), m[0][0], m[1][0], m[2][0]) == 0.0
    ensures Dot3(-(m[1][0] * m[2][2] - m[2][0] * m[1][2]), (m[0][0] * m[2][2] - m[2][0] * m[0][2]), -(m[0][0] * m[1][2] - m[1][0] * m[0][2]), m[0][1], m[1][1], m[2][1]) == Determinant(m)
    ensures Dot3(-(m[1][0] * m[2][2] - m[2][0] * m[1][2]), (m[0][0] * m[2][2] - m[2][0] * m[0][2]), -(m[0][0] * m[1][2] - m[1][0] * m[0][2]), m[0][2], m[1][2], m[2][2]) == 0.0
    ensures Dot3((m[1][0] * m[2][1] - m[2][0] * m[1][1]), -(m[0][0] * m[2][1] - m[2][0] * m[0][1]), (m[0][0] * m[1][1] - m[1][0] * m[0][1]), m[0][0], m[1][0], m[2][0]) == 0.0
    ensures Dot3((m[1][0] * m[2][1] - m[2][0] * m[1][1]), -(m[0][0] * m[2][1] - m[2][0] * m[0][1]), (m[0][0] * m[1][1] - m[1][0] * m[0][1]), m[0][1], m[1][1], m[2][1]) == 0.0
    ensures Dot3((m[1][0] * m[2][1] - m[2][0] * m[1][1]), -(m[0][0] * m[2][1] - m[2][0] * m[0][1]), (m[0][0] * m[1][1] - m[1][0] * m[0][1]), m[0][2], m[1][2], m[2][2]) == Determinant(m)
  {
  }

  /** The matrix times its adjugate, on either side, is the determinant on the diagonal. */
  lemma {:induction false} AdjugateProduct(m: Mat3)
    ensures Product(m, Adjugate(m)) == Diagonal(Determinant(m))
    ensures Product(Adjugate(m), m) == Diagonal(Determinant(m))
  {
    AdjugateProductRight(m);
    AdjugateProductLeft(m);
  }

  /** One side of AdjugateProduct, row by row. */
  lemma AdjugateProductRight(m: Mat3)
    ensures Product(m, Adjugate(m)) == Diagonal(Determinant(m))
  {
    AdjugateRightRow0(m);
    AdjugateRightRow1(m);
    AdjugateRightRow2(m);
    SameEntriesEqual(Product(m, Adjugate(m)), Diagonal(Determinant(m)));
  }

  /** The other side of AdjugateProduct, row by row. */
  lemma AdjugateProductLeft(m: Mat3)
    ensures Product(Adjugate(m), m) == Diagonal(Determinant(m))
  {
    AdjugateLeftRow0(m);
    AdjugateLeftRow1(m);
    AdjugateLeftRow2(m);
    SameEntriesEqual(Product(Adjugate(m), m), Diagonal(Determinant(m)));
  }

  /** Each row of the two products of m with its adjugate, entry by entry. */
  lemma AdjugateRightRow0(m: Mat3)
    ensures var p, dg := Product(m, Adjugate(m)), Diagonal(Determinant(m));
      p[0][0] == dg[0][0] && p[0][1] == dg[0][1] && p[0][2] == dg[0][2]
  {
    var adj := Adjugate(m);
    AdjugateEntries(m);
    CofactorsRight(m);
    var p := Product(m, adj);
    var dg := Diagonal(Determinant(m));
    assert p[0][0] == Dot3(m[0][0], m[0][1], m[0][2], adj[0][0], adj[1][0], adj[2][0]) == dg[0][0];
    assert p[0][1] == Dot3(m[0][0], m[0][1], m[0][2], adj[0][1], adj[1][1], adj[2][1]) == dg[0][1];
    assert p[0][2] == Dot3(m[0][0], m[0][1], m[0][2], adj[0][2], adj[1][2], adj[2][2]) == dg[0][2];
  }

  lemma AdjugateRightRow1(m: Mat3)
    ensures var p, dg := Product(m, Adjugate(m)), Diagonal(Determinant(m));
      p[1][0] == dg[1][0] && p[1][1] == dg[1][1] && p[1][2] == dg[1][2]
  {
    var adj := Adjugate(m);
    AdjugateEntries(m);
    CofactorsRight(m);
    var p := Product(m, adj);
    var dg := Diagonal(Determinant(m));
    assert p[1][0] == Dot3(m[1][0], m[1][1], m[1][2], adj[0][0], adj[1][0], adj[2][0]) == dg[1][0];
    assert p[1][1] == Dot3(m[1][0], m[1][1], m[1][2], adj[0][1], adj[1][1], adj[2][1]) == dg[1][1];
    assert p[1][2] == Dot3(m[1][0], m[1][1], m[1][2], adj[0][2], adj[1][2], adj[2][2]) == dg[1][2];
  }

  lemma AdjugateRightRow2(m: Mat3)
    ensures var p, dg := Product(m, Adjugate(m)), Diagonal(Determinant(m));
      p[2][0] == dg[2][0] && p[2][1] == dg[2][1] && p[2][2] == dg[2][2]
  {
    var adj := Adjugate(m);
    AdjugateEntries(m);
    CofactorsRight(m);
    var p := Product(m, adj);
    var dg := Diagonal(Determinant(m));
    assert p[2][0] == Dot3(m[2][0], m[2][1], m[2][2], adj[0][0], adj[1][0], adj[2][0]) == dg[2][0];
    assert p[2][1] == Dot3(m[2][0], m[2][1], m[2][2], adj[0][1], adj[1][1], adj[2][1]) == dg[2][1];
    assert p[2][2] == Dot3(m[2][0], m[2][1], m[2][2], adj[0][2], adj[1][2], adj[2][2]) == dg[2][2];
  }

  lemma AdjugateLeftRow0(m: Mat3)
    ensures var p, dg := Product(Adjugate(m), m), Diagonal(Determinant(m));
      p[0][0] == dg[0][0] && p[0][1] == dg[0][1] && p[0][2] == dg[0][2]
  {
    var adj := Adjugate(m);
    AdjugateEntries(m);
    CofactorsLeft(m);
    var p := Product(adj, m);
    var dg := Diagonal(Determinant(m));
    assert p[0][0] == Dot3(adj[0][0], adj[0][1], adj[0][2], m[0][0], m[1][0], m[2][0]) == dg[0][0];
    assert p[0][1] == Dot3(adj[0][0], adj[0][1], adj[0][2], m[0][1], m[1][1], m[2][1]) == dg[0][1];
    assert p[0][2] == Dot3(adj[0][0], adj[0][1], adj[0][2], m[0][2], m[1][2], m[2][2]) == dg[0][2];
  }

  lemma AdjugateLeftRow1(m: Mat3)
    ensures var p, dg := Product(Adjugate(m), m), Diagonal(Determinant(m));
      p[1][0] == dg[1][0] && p[1][1] == dg[1][1] && p[1][2] == dg[1][2]
  {
    var adj := Adjugate(m);
    AdjugateEntries(m);
    CofactorsLeft(m);
    var p := Product(adj, m);
    var dg := Diagonal(Determinant(m));
    assert p[1][0] == Dot3(adj[1][0], adj[1][1], adj[1][2], m[0][0], m[1][0], m[2][0]) == dg[1][0];
    assert p[1][1] == Dot3(adj[1][0], adj[1][1], adj[1][2], m[0][1], m[1][1], m[2][1]) == dg[1][1];
    assert p[1][2] == Dot3(adj[1][0], adj[1][1], adj[1][2], m[0][2], m[1][2], m[2][2]) == dg[1][2];
  }

  lemma AdjugateLeftRow2(m: Mat3)
    ensures var p, dg := Product(Adjugate(m), m), Diagonal(Determinant(m));
      p[2][0] == dg[2][0] && p[2][1] == dg[2][1] && p[2][2] == dg[2][2]
  {
    var adj := Adjugate(m);
    AdjugateEntries(m);
    CofactorsLeft(m);
    var p := Product(adj, m);
    var dg := Diagonal(Determinant(m));
    assert p[2][0] == Dot3(adj[2][0], adj[2][1], adj[2][2], m[0][0], m[1][0], m[2][0]) == dg[2][0];
    assert p[2][1] == Dot3(adj[2][0], adj[2][1], adj[2][2], m[0][1], m[1][1], m[2][1]) == dg[2][1];
    assert p[2][2] == Dot3(adj[2][0], adj[2][1], adj[2][2], m[0][2], m[1][2], m[2][2]) == dg[2][2];
  }

  /** Inverse: each entry is the signed cofactor, that is the adjugate's entry, times
      1 / Determinant(m). The source does not check for a zero determinant. */
  function Inverse(m: Mat3): Mat3
    requires Determinant(m) != 0.0
  {
    Scaled(Adjugate(m), 1.0 / Determinant(m))
  }

  /** Three-term distributivity of a scalar factor. */
  lemma Distribute(x0: real, x1: real, x2: real, y0: real, y1: real, y2: real, k: real)
    ensures Dot3(x0, x1, x2, y0 * k, y1 * k, y2 * k) == Dot3(x0, x1, x2, y0, y1, y2) * k
    ensures Dot3(x0 * k, x1 * k, x2 * k, y0, y1, y2) == Dot3(x0, x1, x2, y0, y1, y2) * k
  {
  }

  /** A scalar factor moves out of either side of a product. */
  lemma ProductScaled(a: Mat3, b: Mat3, k: real)
    ensures Product(a, Scaled(b, k)) == Scaled(Product(a, b), k)
    ensures Product(Scaled(a, k), b) == Scaled(Product(a, b), k)
  {
    forall i, j | 0 <= i < 3 && 0 <= j < 3
      ensures Product(a, Scaled(b, k))[i][j] == Scaled(Product(a, b), k)[i][j]
      ensures Product(Scaled(a, k), b)[i][j] == Scaled(Product(a, b), k)[i][j]
    {
      ProductScaledRightEntry(a, b, k, i, j);
      ProductScaledLeftEntry(a, b, k, i, j);
    }
    SameEntriesEqual(Product(a, Scaled(b, k)), Scaled(Product(a, b), k));
    SameEntriesEqual(Product(Scaled(a, k), b), Scaled(Product(a, b), k));
  }

  /** ProductScaled for entry [i][j], factor on the right operand. */
  lemma ProductScaledRightEntry(a: Mat3, b: Mat3, k: real, i: nat, j: nat)
    requires i < 3 && j < 3
    ensures Product(a, Scaled(b, k))[i][j] == Scaled(Product(a, b), k)[i][j]
  {
    Distribute(a[i][0], a[i][1], a[i][2], b[0][j], b[1][j], b[2][j], k);
    var sb := Scaled(b, k);
    assert sb[0][j] == b[0][j] * k && sb[1][j] == b[1][j] * k && sb[2][j] == b[2][j] * k;
    assert Product(a, sb)[i][j] == Dot3(a[i][0], a[i][1], a[i][2], sb[0][j], sb[1][j], sb[2][j]);
    assert Dot3(a[i][0], a[i][1], a[i][2], sb[0][j], sb[1][j], sb[2][j])
      == Dot3(a[i][0], a[i][1], a[i][2], b[0][j] * k, b[1][j] * k, b[2][j] * k);
    assert Scaled(Product(a, b), k)[i][j] == Dot3(a[i][0], a[i][1], a[i][2], b[0][j], b[1][j], b[2][j]) * k;
  }

  /** ProductScaled for entry [i][j], factor on the left operand. */
  lemma ProductScaledLeftEntry(a: Mat3, b: Mat3, k: real, i: nat, j: nat)
    requires i < 3 && j < 3
    ensures Product(Scaled(a, k), b)[i][j] == Scaled(Product(a, b), k)[i][j]
  {
    Distribute(a[i][0], a[i][1], a[i][2], b[0][j], b[1][j], b[2][j], k);
    var sa := Scaled(a, k);
    assert sa[i][0] == a[i][0] * k && sa[i][1] == a[i][1] * k && sa[i][2] == a[i][2] * k;
    assert Product(sa, b)[i][j] == Dot3(sa[i][0], sa[i][1], sa[i][2], b[0][j], b[1][j], b[2][j]);
    assert Dot3(sa[i][0], sa[i][1], sa[i][2], b[0][j], b[1][j], b[2][j])
      == Dot3(a[i][0] * k, a[i][1] * k, a[i][2] * k, b[0][j], b[1][j], b[2][j]);
    assert Scaled(Product(a, b), k)[i][j] == Dot3(a[i][0], a[i][1], a[i][2], b[0][j], b[1][j], b[2][j]) * k;
  }

  /** For a non-zero determinant, Inverse is a two-sided inverse for the product. */
  lemma {:induction false} InverseProduct(m: Mat3)
    requires Determinant(m) != 0.0
    ensures Product(m, Inverse(m)) == Identity()
    ensures Product(Inverse(m), m) == Identity()
  {
    var d := Determinant(m);
    var k := 1.0 / d;
    AdjugateProduct(m);
    ProductScaled(m, Adjugate(m), k);
    ProductScaled(Adjugate(m), m, k);
    assert d * k == 1.0;
    SameEntriesEqual(Scaled(Diagonal(d), k), Identity());
  }

  /** Multiply(m, s), also `m * s` and the free `s * m`: every entry times s. */
  function Scaled(m: Mat3, s: real): Mat3
  {
    seq(3, i requires 0 <= i < 3 => seq(3, j requires 0 <= j < 3 => m[i][j] * s))
  }

  /** Scaling a matrix scales each of its rows. */
  lemma ScaledRows(m: Mat3, s: real)
    ensures Scaled(m, s)
            == FromRows(FVec3.Multiply(Row(m, 0), s), FVec3.Multiply(Row(m, 1), s), FVec3.Multiply(Row(m, 2), s))
  {
    SameEntriesEqual(Scaled(m, s),
      FromRows(FVec3.Multiply(Row(m, 0), s), FVec3.Multiply(Row(m, 1), s), FVec3.Multiply(Row(m, 2), s)));
  }

  /** FMat3(init) is the identity scaled by init, and multiplying by it scales every entry. */
  lemma DiagonalScales(init: real, m: Mat3)
    ensures Diagonal(init) == Scaled(Identity(), init)
    ensures Product(Diagonal(init), m) == Scaled(m, init)
    ensures Product(m, Diagonal(init)) == Scaled(m, init)
  {
    SameEntriesEqual(Diagonal(init), Scaled(Identity(), init));
    SameEntriesEqual(Product(Diagonal(init), m), Scaled(m, init));
    SameEntriesEqual(Product(m, Diagonal(init)), Scaled(m, init));
  }

  /** Entrywise sum and difference. */
  function Sum(a: Mat3, b: Mat3): Mat3
  {
    seq(3, i requires 0 <= i < 3 => seq(3, j requires 0 <= j < 3 => a[i][j] + b[i][j]))
  }

  function Difference(a: Mat3, b: Mat3): Mat3
  {
    seq(3, i requires 0 <= i < 3 => seq(3, j requires 0 <= j < 3 => a[i][j] - b[i][j]))
  }

  /** Adding then subtracting the same matrix cancels, in either order. */
  lemma SumDifferenceInverse(a: Mat3, b: Mat3)
    ensures Difference(Sum(a, b), b) == a
    ensures Sum(Difference(a, b), b) == a
  {
    SameEntriesEqual(Difference(Sum(a, b), b), a);
    SameEntriesEqual(Sum(Difference(a, b), b), a);
  }

  /** Divide(m, s), also `m / s` and the free `s / m`: every entry divided by s, with no
      check for a zero scalar. */
  function Quotient(m: Mat3, s: real): Mat3
    requires s != 0.0
  {
    seq(3, i requires 0 <= i < 3 => seq(3, j requires 0 <= j < 3 => m[i][j] / s))
  }

  /** Dividing by s and multiplying back restores the matrix. */
  lemma QuotientScaled(m: Mat3, s: real)
    requires s != 0.0
    ensures Scaled(Quotient(m, s), s) == m
  {
    SameEntriesEqual(Scaled(Quotient(m, s), s), m);
  }

  /** No entry of m is 0. */
  predicate NoZeroEntry(m: Mat3)
  {
    forall i, j | 0 <= i < 3 && 0 <= j < 3 :: m[i][j] != 0.0
  }

  /** Divide(m1, m2): the entrywise quotient, with no check for a zero entry. */
  function EntryQuotient(a: Mat3, b: Mat3): Mat3
    requires NoZeroEntry(b)
  {
    seq(3, i requires 0 <= i < 3 => seq(3, j requires 0 <= j < 3 => a[i][j] / b[i][j]))
  }

  /** Multiplying the entrywise quotient back entry by entry gives the dividend. */
  lemma EntryQuotientRestores(a: Mat3, b: Mat3)
    requires NoZeroEntry(b)
    ensures forall i, j | 0 <= i < 3 && 0 <= j < 3 :: EntryQuotient(a, b)[i][j] * b[i][j] == a[i][j]
  {
  }

  /** Multiply(mat, vec): row i of the result holds row i times vec in all three columns. */
  function VectorProduct(m: Mat3, v: Vec3): Mat3
  {
    seq(3, i requires 0 <= i < 3 => seq(3, j requires 0 <= j < 3 => m[i][0] * v.x + m[i][1] * v.y + m[i][2] * v.z))
  }

  /** The matrix whose every column is v. */
  function Columns(v: Vec3): Mat3
  {
    [[v.x, v.x, v.x], [v.y, v.y, v.y], [v.z, v.z, v.z]]
  }

  /** Multiply(mat, vec) is the full product of m with the matrix whose three columns are v:
      each column of the result is the column vector m v. */
  lemma VectorProductIsProduct(m: Mat3, v: Vec3)
    ensures VectorProduct(m, v) == Product(m, Columns(v))
    ensures forall i, j | 0 <= i < 3 && 0 <= j < 3 :: VectorProduct(m, v)[i][j] == FVec3.Dot(Row(m, i), v)
  {
    forall i, j | 0 <= i < 3 && 0 <= j < 3
      ensures VectorProduct(m, v)[i][j] == Product(m, Columns(v))[i][j] == FVec3.Dot(Row(m, i), v)
    {
      VectorProductEntry(m, v, i, j);
    }
    SameEntriesEqual(VectorProduct(m, v), Product(m, Columns(v)));
  }

  /** VectorProductIsProduct for entry [i][j]. */
  lemma VectorProductEntry(m: Mat3, v: Vec3, i: nat, j: nat)
    requires i < 3 && j < 3
    ensures VectorProduct(m, v)[i][j] == Product(m, Columns(v))[i][j] == FVec3.Dot(Row(m, i), v)
  {
    var c := Columns(v);
    assert c[0][j] == v.x && c[1][j] == v.y && c[2][j] == v.z;
    assert Product(m, c)[i][j] == Dot3(m[i][0], m[i][1], m[i][2], c[0][j], c[1][j], c[2][j]);
  }

  /** Multiply(m1, m2) and `m1 * m2`: fills the identity-initialised result entry by entry. */
  method Multiply(a: Mat3, b: Mat3) returns (r: Mat3)
    ensures r == Product(a, b)
  {
    r := Identity();
    for i := 0 to 3
      invariant forall ii, jj | 0 <= ii < i && 0 <= jj < 3 :: r[ii][jj] == Product(a, b)[ii][jj]
    {
      for j := 0 to 3
        invariant forall ii, jj | 0 <= ii < i && 0 <= jj < 3 :: r[ii][jj] == Product(a, b)[ii][jj]
        invariant forall jj | 0 <= jj < j :: r[i][jj] == Product(a, b)[i][jj]
      {
        r := SetEntry(r, i, j, a[i][0] * b[0][j] + a[i][1] * b[1][j] + a[i][2] * b[2][j]);
      }
    }
    SameEntriesEqual(r, Product(a, b));
  }

  /** Multiply(mat, vec) and the free `m * v`. */
  method MultiplyVector(m: Mat3, v: Vec3) returns (r: Mat3)
    ensures r == VectorProduct(m, v)
  {
    r := Identity();
    for i := 0 to 3
      invariant forall ii, jj | 0 <= ii < i && 0 <= jj < 3 :: r[ii][jj] == VectorProduct(m, v)[ii][jj]
    {
      for j := 0 to 3
        invariant forall ii, jj | 0 <= ii < i && 0 <= jj < 3 :: r[ii][jj] == VectorProduct(m, v)[ii][jj]
        invariant forall jj | 0 <= jj < j :: r[i][jj] == VectorProduct(m, v)[i][jj]
      {
        r := SetEntry(r, i, j, m[i][0] * v.x + m[i][1] * v.y + m[i][2] * v.z);
      }
    }
    SameEntriesEqual(r, VectorProduct(m, v));
  }

  /** The free `v * m` calls Multiply(m, v), so it gives the same matrix as `m * v`. */
  method VectorTimesMatrix(v: Vec3, m: Mat3) returns (r: Mat3)
    ensures r == Product(m, Columns(v))
  {
    r := MultiplyVector(m, v);
    VectorProductIsProduct(m, v);
  }

  /** Multiply(m, s). */
  method MultiplyScalar(m: Mat3, s: real) returns (r: Mat3)
    ensures r == Scaled(m, s)
  {
    r := Identity();
    for i := 0 to 3
      invariant forall ii, jj | 0 <= ii < i && 0 <= jj < 3 :: r[ii][jj] == Scaled(m, s)[ii][jj]
    {
      for j := 0 to 3
        invariant forall ii, jj | 0 <= ii < i && 0 <= jj < 3 :: r[ii][jj] == Scaled(m, s)[ii][jj]
        invariant forall jj | 0 <= jj < j :: r[i][jj] == Scaled(m, s)[i][jj]
      {
        assert m[i][j] * s == Scaled(m, s)[i][j];
        r := SetEntry(r, i, j, m[i][j] * s);
      }
    }
    SameEntriesEqual(r, Scaled(m, s));
  }

  /** Add(m1, m2) and `m1 + m2`. */
  method Add(a: Mat3, b: Mat3) returns (r: Mat3)
    ensures r == Sum(a, b)
  {
    r := Identity();
    for i := 0 to 3
      invariant forall ii, jj | 0 <= ii < i && 0 <= jj < 3 :: r[ii][jj] == a[ii][jj] + b[ii][jj]
    {
      for j := 0 to 3
        invariant forall ii, jj | 0 <= ii < i && 0 <= jj < 3 :: r[ii][jj] == a[ii][jj] + b[ii][jj]
        invariant forall jj | 0 <= jj < j :: r[i][jj] == a[i][jj] + b[i][jj]
      {
        r := SetEntry(r, i, j, a[i][j] + b[i][j]);
      }
    }
    SameEntriesEqual(r, Sum(a, b));
  }

  /** Subtract(m1, m2) and `m1 - m2`. */
  method Subtract(a: Mat3, b: Mat3) returns (r: Mat3)
    ensures r == Difference(a, b)
  {
    r := Identity();
    for i := 0 to 3
      invariant forall ii, jj | 0 <= ii < i && 0 <= jj < 3 :: r[ii][jj] == a[ii][jj] - b[ii][jj]
    {
      for j := 0 to 3
        invariant forall ii, jj | 0 <= ii < i && 0 <= jj < 3 :: r[ii][jj] == a[ii][jj] - b[ii][jj]
        invariant forall jj | 0 <= jj < j :: r[i][jj] == a[i][jj] - b[i][jj]
      {
        r := SetEntry(r, i, j, a[i][j] - b[i][j]);
      }
    }
    SameEntriesEqual(r, Difference(a, b));
  }

  /** Divide(m, s) and `m / s`. */
  method Divide(m: Mat3, s: real) returns (r: Mat3)
    requires s != 0.0
    ensures r == Quotient(m, s)
  {
    r := Identity();
    for i := 0 to 3
      invariant forall ii, jj | 0 <= ii < i && 0 <= jj < 3 :: r[ii][jj] == Quotient(m, s)[ii][jj]
    {
      for j := 0 to 3
        invariant forall ii, jj | 0 <= ii < i && 0 <= jj < 3 :: r[ii][jj] == Quotient(m, s)[ii][jj]
        invariant forall jj | 0 <= jj < j :: r[i][jj] == Quotient(m, s)[i][jj]
      {
        assert m[i][j] / s == Quotient(m, s)[i][j];
        r := SetEntry(r, i, j, m[i][j] / s);
      }
    }
    SameEntriesEqual(r, Quotient(m, s));
  }

  /** Divide(m1, m2). */
  method DivideEntries(a: Mat3, b: Mat3) returns (r: Mat3)
    requires NoZeroEntry(b)
    ensures r == EntryQuotient(a, b)
  {
    r := Identity();
    for i := 0 to 3
      invariant forall ii, jj | 0 <= ii < i && 0 <= jj < 3 :: r[ii][jj] == EntryQuotient(a, b)[ii][jj]
    {
      for j := 0 to 3
        invariant forall ii, jj | 0 <= ii < i && 0 <= jj < 3 :: r[ii][jj] == EntryQuotient(a, b)[ii][jj]
        invariant forall jj | 0 <= jj < j :: r[i][jj] == EntryQuotient(a, b)[i][jj]
      {
        assert a[i][j] / b[i][j] == EntryQuotient(a, b)[i][j];
        r := SetEntry(r, i, j, a[i][j] / b[i][j]);
      }
    }
    SameEntriesEqual(r, EntryQuotient(a, b));
  }

  /** Unary minus negates each row; a matrix plus its negation is Zero3. */
  function Negate(m: Mat3): (r: Mat3)
    ensures Sum(m, r) == Zero3
  {
    var r := FromRows(FVec3.Negate(Row(m, 0)), FVec3.Negate(Row(m, 1)), FVec3.Negate(Row(m, 2)));
    SameEntriesEqual(Sum(m, r), Zero3);
    r
  }

  /** Scale(vec): the identity with the diagonal replaced by vec. Multiplying by it on the
      left scales row i by component i of vec. */
  function Scale(v: Vec3): Mat3
  {
    SetEntry(SetEntry(SetEntry(Identity(), 0, 0, v.x), 1, 1, v.y), 2, 2, v.z)
  }

  /** Scale(x, y, z) is Scale(FVec3(x, y, z)) and Scale(f) is FMat3(f); multiplying by
      Scale(v) on the left scales row i of the other matrix by component i of v. */
  lemma {:induction false} ScaleVariants(x: real, y: real, z: real, f: real, m: Mat3)
    ensures ScaleXYZ(x, y, z) == Scale(FVec3.Vec3(x, y, z))
    ensures ScaleUniform(f) == Diagonal(f)
    ensures Product(Scale(FVec3.Vec3(x, y, z)), m) ==
              FromRows(FVec3.Multiply(Row(m, 0), x), FVec3.Multiply(Row(m, 1), y), FVec3.Multiply(Row(m, 2), z))
  {
    SameEntriesEqual(ScaleXYZ(x, y, z), Scale(FVec3.Vec3(x, y, z)));
    SameEntriesEqual(ScaleUniform(f), Diagonal(f));
    var s := Scale(FVec3.Vec3(x, y, z));
    SameEntriesEqual(Product(s, m),
      FromRows(FVec3.Multiply(Row(m, 0), x), FVec3.Multiply(Row(m, 1), y), FVec3.Multiply(Row(m, 2), z)));
  }

  /** Scale(f): the identity with f on the diagonal. */
  function ScaleUniform(f: real): Mat3
  {
    SetEntry(SetEntry(SetEntry(Identity(), 0, 0, f), 1, 1, f), 2, 2, f)
  }

  /** Scale(x, y, z): the identity with x, y, z on the diagonal. */
  function ScaleXYZ(x: real, y: real, z: real): Mat3
  {
    SetEntry(SetEntry(SetEntry(Identity(), 0, 0, x), 1, 1, y), 2, 2, z)
  }

  /** operator==: the three rows compare equal with FVec3's ==. */
  predicate Equal(a: Mat3, b: Mat3)
    ensures Equal(a, b) <==> a == b
  {
    FromRowsOfRows(a);
    FromRowsOfRows(b);
    Row(a, 0) == Row(b, 0) && Row(a, 1) == Row(b, 1) && Row(a, 2) == Row(b, 2)
  }

  /** operator!=: the negation of operator==. */
  predicate NotEqual(a: Mat3, b: Mat3)
    ensures NotEqual(a, b) <==> a != b
  {
    !Equal(a, b)
  }

  /** An FMat3 object: its three rows are a fixed-size array of FVec3. */
  class Mat3Var {
    const rows: array<Vec3>

    ghost predicate Valid()
      reads this
    {
      rows.Length == 3
    }

    function Value(): Mat3
      requires Valid()
      reads this, rows
    {
      FromRows(rows[0], rows[1], rows[2])
    }

    /** FMat3(): all entries 0. */
    constructor()
      ensures Valid() && fresh(rows)
      ensures Value() == Zero3
    {
      rows := new Vec3[3](_ => FVec3.Zero);
    }

    /** The copy constructor and the value constructors (FMat3(init), FMat3(rows...),
        FMat3(p_00, ..., p_22)), given the value they build. */
    constructor Of(m: Mat3)
      ensures Valid() && fresh(rows)
      ensures Value() == m
    {
      rows := new Vec3[3](i requires 0 <= i < 3 => Row(m, i));
      new;
      FromRowsOfRows(m);
    }

    /** Stores m row by row. */
    method Store(m: Mat3)
      requires Valid()
      modifies rows
      ensures Valid() && Value() == m
    {
      rows[0] := Row(m, 0);
      rows[1] := Row(m, 1);
      rows[2] := Row(m, 2);
      FromRowsOfRows(m);
    }

    /** operator=. */
    method Assign(other: Mat3)
      requires Valid()
      modifies rows
      ensures Valid() && Value() == other
    {
      Store(other);
    }

    /** A write through the non-const operator[]: row i becomes v. */
    method SetRow(i: nat, v: Vec3)
      requires Valid() && i < 3
      modifies rows
      ensures Valid()
      ensures Row(Value(), i) == v
      ensures forall k | 0 <= k < 3 && k != i :: Row(Value(), k) == Row(old(Value()), k)
    {
      rows[i] := v;
    }

    /** operator+=: each row += the matching row of other. */
    method AddAssign(other: Mat3)
      requires Valid()
      modifies rows
      ensures Valid() && Value() == Sum(old(Value()), other)
    {
      ghost var before := Value();
      rows[0] := FVec3.Add(rows[0], Row(other, 0));
      rows[1] := FVec3.Add(rows[1], Row(other, 1));
      rows[2] := FVec3.Add(rows[2], Row(other, 2));
      SameEntriesEqual(Value(), Sum(before, other));
    }

    /** operator-=: each row -= the matching row of other. */
    method SubtractAssign(other: Mat3)
      requires Valid()
      modifies rows
      ensures Valid() && Value() == Difference(old(Value()), other)
    {
      ghost var before := Value();
      rows[0] := FVec3.Substract(rows[0], Row(other, 0));
      rows[1] := FVec3.Substract(rows[1], Row(other, 1));
      rows[2] := FVec3.Substract(rows[2], Row(other, 2));
      SameEntriesEqual(Value(), Difference(before, other));
    }

    /** operator*=(FMat3): the product is accumulated into a temporary and then assigned,
        so `m *= m` is the square of m even though other may be this object. */
    method MultiplyAssign(other: Mat3Var)
      requires Valid() && other.Valid()
      modifies rows
      ensures Valid() && Value() == Product(old(Value()), old(other.Value()))
    {
      var result := Multiply(Value(), other.Value());
      Store(result);
    }

    /** operator*=(float): each row *= s. */
    method MultiplyScalarAssign(s: real)
      requires Valid()
      modifies rows
      ensures Valid() && Value() == Scaled(old(Value()), s)
    {
      ghost var before := Value();
      rows[0] := FVec3.Multiply(rows[0], s);
      rows[1] := FVec3.Multiply(rows[1], s);
      rows[2] := FVec3.Multiply(rows[2], s);
      ScaledRows(before, s);
    }

    /** operator/=(float): each row /= s through FVec3's Divide, which throws logic_error for
        a zero scalar on the first row, before anything is written. Unlike Divide(m, s), this
        operator does check. */
    method DivideAssign(s: real) returns (r: Result<Mat3>)
      requires Valid()
      modifies rows
      ensures Valid()
      ensures r.Throws? <==> s == 0.0
      ensures r.Throws? ==> r.error.LogicError? && Value() == old(Value())
      ensures r.Ok? ==> s != 0.0 && Value() == Quotient(old(Value()), s) && r.value == Value()
    {
      ghost var before := Value();
      var row0 := FVec3.Divide(rows[0], s);
      if row0.Throws? {
        return Throws(row0.error);
      }
      rows[0] := row0.value;
      var row1 := FVec3.Divide(rows[1], s);
      rows[1] := row1.value;
      var row2 := FVec3.Divide(rows[2], s);
      rows[2] := row2.value;
      SameEntriesEqual(Value(), Quotient(before, s));
      r := Ok(Value());
    }
  }

  /** `m *= m` through one object: the matrix is replaced by its square. */
  method SquareInPlace(m: Mat3Var)
    requires m.Valid()
    modifies m.rows
    ensures m.Valid() && m.Value() == Product(old(m.Value()), old(m.Value()))
  {
    m.MultiplyAssign(m);
  }
}
