/** The template 4x4 matrix `Mat4<T>` (Mat4/Mat4.h): four `Vec4<T>` rows stored in the
    object, indexed [row][column]. Its values are the matrices of FMat4. */
module Mat4Template {
  import FVec3
  import FVec4
  import FMat4

  type Vec3 = FVec3.Vec3
  type Vec4 = FVec4.Vec4

  /** Mat4(init) as written: rows 0 and 1 carry init on the diagonal, row 2 is assigned twice
      and ends as (0, 0, 0, 1), and row 3 is never assigned, so it keeps what the default
      `Vec4<T>` constructor leaves in it, given here as rowDefault. */
  function InitAsWritten(init: real, rowDefault: Vec4): FMat4.Mat4
  {
    FMat4.FromRows(FVec4.Vec4(init, 0.0, 0.0, 0.0), FVec4.Vec4(0.0, init, 0.0, 0.0),
                   FVec4.Vec4(0.0, 0.0, 0.0, 1.0), rowDefault)
  }

  /** Mat4(init) as evidently intended, with the second row-2 assignment going to row 3:
      init on the first three diagonal entries and (0, 0, 0, 1) as the last row. */
  function InitIntended(init: real): FMat4.Mat4
  {
    FMat4.FromRows(FVec4.Vec4(init, 0.0, 0.0, 0.0), FVec4.Vec4(0.0, init, 0.0, 0.0),
                   FVec4.Vec4(0.0, 0.0, init, 0.0), FVec4.Vec4(0.0, 0.0, 0.0, 1.0))
  }

  /** As written, Mat4(init) loses init at [2][2] and puts a 1 at [2][3], whatever row 3
      holds: the result is never the intended matrix, not even for init = 1, where the
      intended matrix is the identity. */
  lemma InitAsWrittenLosesDiagonal(init: real, rowDefault: Vec4)
    ensures InitAsWritten(init, rowDefault)[2][2] == 0.0
    ensures InitAsWritten(init, rowDefault)[2][3] == 1.0
    ensures InitAsWritten(init, rowDefault) != InitIntended(init)
    ensures InitAsWritten(1.0, rowDefault) != FMat4.IdentityMatrix
  {
    assert InitAsWritten(init, rowDefault)[2][3] != InitIntended(init)[2][3];
    assert InitAsWritten(1.0, rowDefault)[2][3] != FMat4.IdentityMatrix[2][3];
  }

  /** The intended Mat4(init) is the scale matrix of (init, init, init), and Mat4(1) is the
      identity, the value of the default constructor. */
  lemma InitIntendedIsScaling(init: real)
    ensures InitIntended(init) == FMat4.Scaling(FVec3.Vec3(init, init, init))
    ensures InitIntended(1.0) == FMat4.IdentityMatrix
  {
    FMat4.SameEntriesEqual(InitIntended(init), FMat4.Scaling(FVec3.Vec3(init, init, init)));
    FMat4.SameEntriesEqual(InitIntended(1.0), FMat4.IdentityMatrix);
  }

  /** The letters operator[](const char*) maps to a column. */
  predicate IsAxis(c: char)
  {
    c == 'x' || c == 'y' || c == 'z' || c == 'w'
  }

  /** The character the operator reads as key[1]; a one-letter key has its terminator there. */
  function Digit(key: string): char
    requires |key| >= 1
  {
    if |key| >= 2 then key[1] else '\0'
  }

  /** A key operator[](const char*) can serve when it subtracts base from key[1]: the row
      index `key[1] - base` is unsigned and unchecked, so for an axis letter it must fall in
      0..3; any other letter reads [0][0] and ignores the digit. */
  predicate ValidKey(key: string, base: char)
  {
    |key| >= 1 && (IsAxis(key[0]) ==> base as int <= Digit(key) as int < base as int + 4)
  }

  /** The row a key selects. */
  function KeyRow(key: string, base: char): (row: nat)
    requires ValidKey(key, base)
    ensures row < 4
    ensures !IsAxis(key[0]) ==> row == 0
  {
    if IsAxis(key[0]) then Digit(key) as int - base as int else 0
  }

  /** The column a key selects: x, y, z, w are 0..3 and any other letter is column 0. */
  function KeyColumn(key: string): (col: nat)
    requires |key| >= 1
    ensures col < 4
  {
    FMat4.KeyColumn(key[0])
  }

  /** The entry operator[](const char*) reads when it subtracts base from the digit. */
  function KeyEntry(m: FMat4.Mat4, key: string, base: char): real
    requires ValidKey(key, base)
  {
    m[KeyRow(key, base)][KeyColumn(key)]
  }

  /** The non-const operator[]("x3") reads [3][0], the entry translation(t) sets to t.x, but
      the const overload as written subtracts '1' and reads [2][0] of the same matrix, which
      is 0 there; the key "x0" that names row 0 for the non-const overload is out of range
      for the const one. */
  lemma ConstKeyOffsetAsWritten(t: Vec3)
    ensures KeyEntry(FMat4.Translation(t), "x3", '0') == t.x
    ensures KeyEntry(FMat4.Translation(t), "x3", '1') == 0.0
    ensures ValidKey("x0", '0') && !ValidKey("x0", '1')
  {
  }

  /** With the intended offset '0' both overloads read the entry the non-const overload
      writes: a key write followed by a key read of the same key gives the written value,
      and translation(t) reads back t through "x3", "y3" and "z3". */
  lemma KeyReadAfterWrite(m: FMat4.Mat4, key: string, value: real, t: Vec3)
    requires ValidKey(key, '0')
    ensures KeyEntry(FMat4.SetEntry(m, KeyRow(key, '0'), KeyColumn(key), value), key, '0') == value
    ensures KeyEntry(FMat4.Translation(t), "x3", '0') == t.x
    ensures KeyEntry(FMat4.Translation(t), "y3", '0') == t.y
    ensures KeyEntry(FMat4.Translation(t), "z3", '0') == t.z
  {
  }

  /** operator*(Vec4): component j is column j of m dotted with v, written out term by
      term. */
  function ColumnApply(m: FMat4.Mat4, v: Vec4): Vec4
  {
    FVec4.Vec4(m[0][0] * v.x + m[1][0] * v.y + m[2][0] * v.z + m[3][0] * v.w,
               m[0][1] * v.x + m[1][1] * v.y + m[2][1] * v.z + m[3][1] * v.w,
               m[0][2] * v.x + m[1][2] * v.y + m[2][2] * v.z + m[3][2] * v.w,
               m[0][3] * v.x + m[1][3] * v.y + m[2][3] * v.z + m[3][3] * v.w)
  }

  /** The column-style product is FMat4's row-style product with the transpose. */
  lemma ColumnApplyIsTransposed(m: FMat4.Mat4, v: Vec4)
    ensures ColumnApply(m, v) == FMat4.Apply(FMat4.Transpose(m), v)
  {
  }

  /** operator*(Mat4) combines rows like FMat4's member product, so with the column-style
      operator*(Vec4), `(a * b) * v` == `a * (b * v)`. */
  lemma {:induction false} ColumnApplyCompose(a: FMat4.Mat4, b: FMat4.Mat4, v: Vec4)
    ensures ColumnApply(FMat4.Compose(a, b), v) == ColumnApply(a, ColumnApply(b, v))
  {
    ColumnApplyIsTransposed(FMat4.Compose(a, b), v);
    ColumnApplyIsTransposed(b, v);
    ColumnApplyIsTransposed(a, ColumnApply(b, v));
    FMat4.ComposeSwapsOperands(a, b);
    FMat4.TransposeProduct(b, a);
    FMat4.ApplyProduct(FMat4.Transpose(a), FMat4.Transpose(b), v);
  }

  /** The entries getInverse negates: [2][0], [0][2], [2][1], [1][2] and all of row 3. */
  predicate Flipped(i: nat, j: nat)
  {
    i == 3 || (i == 2 && j == 0) || (i == 0 && j == 2) || (i == 2 && j == 1) || (i == 1 && j == 2)
  }

  /** The matrix getInverse leaves: the flipped entries multiplied by -1. */
  function InverseFlip(m: FMat4.Mat4): (r: FMat4.Mat4)
  {
    seq(4, i requires 0 <= i < 4 => seq(4, j requires 0 <= j < 4 => if Flipped(i, j) then m[i][j] * -1.0 else m[i][j]))
  }

  /** getInverse negates exactly the eight flipped entries and keeps the other eight, so
      applying it twice gives the matrix back. */
  lemma InverseFlipInvolution(m: FMat4.Mat4)
    ensures forall i, j | 0 <= i < 4 && 0 <= j < 4 ::
              InverseFlip(m)[i][j] == if Flipped(i, j) then -m[i][j] else m[i][j]
    ensures InverseFlip(InverseFlip(m)) == m
  {
    FMat4.SameEntriesEqual(InverseFlip(InverseFlip(m)), m);
  }

  /** A `Mat4<T>` object: its four rows. */
  class Mat4 {
    const rows: array<Vec4>

    ghost predicate Valid()
      reads this
    {
      rows.Length == 4
    }

    function Value(): FMat4.Mat4
      requires Valid()
      reads this, rows
    {
      FMat4.FromRows(rows[0], rows[1], rows[2], rows[3])
    }

    /** Mat4(): the rows of the identity, which is also the static `identity`. */
    constructor()
      ensures Valid() && fresh(rows)
      ensures Value() == FMat4.IdentityMatrix
    {
      rows := new Vec4[4](_ => FVec4.Zero4);
      new;
      rows[0] := FVec4.Vec4(1.0, 0.0, 0.0, 0.0);
      rows[1] := FVec4.Vec4(0.0, 1.0, 0.0, 0.0);
      rows[2] := FVec4.Vec4(0.0, 0.0, 1.0, 0.0);
      rows[3] := FVec4.Vec4(0.0, 0.0, 0.0, 1.0);
      FMat4.SameEntriesEqual(Value(), FMat4.IdentityMatrix);
    }

    /** Mat4(init) as written; rowDefault is the row the default `Vec4<T>` constructor
        leaves, which only row 3 keeps. */
    constructor InitWritten(init: real, rowDefault: Vec4)
      ensures Valid() && fresh(rows)
      ensures Value() == InitAsWritten(init, rowDefault)
    {
      rows := new Vec4[4](_ => rowDefault);
      new;
      rows[0] := FVec4.Vec4(init, 0.0, 0.0, 0.0);
      rows[1] := FVec4.Vec4(0.0, init, 0.0, 0.0);
      rows[2] := FVec4.Vec4(0.0, 0.0, init, 0.0);
      rows[2] := FVec4.Vec4(0.0, 0.0, 0.0, 1.0);
    }

    /** Mat4(init) as evidently intended, the last assignment going to row 3. */
    constructor Init(init: real)
      ensures Valid() && fresh(rows)
      ensures Value() == InitIntended(init)
    {
      rows := new Vec4[4](_ => FVec4.Zero4);
      new;
      rows[0] := FVec4.Vec4(init, 0.0, 0.0, 0.0);
      rows[1] := FVec4.Vec4(0.0, init, 0.0, 0.0);
      rows[2] := FVec4.Vec4(0.0, 0.0, init, 0.0);
      rows[3] := FVec4.Vec4(0.0, 0.0, 0.0, 1.0);
    }

    /** Mat4(v1, v2, v3, v4): the four rows. */
    constructor FromRows(v1: Vec4, v2: Vec4, v3: Vec4, v4: Vec4)
      ensures Valid() && fresh(rows)
      ensures Value() == FMat4.FromRows(v1, v2, v3, v4)
    {
      rows := new Vec4[4](_ => FVec4.Zero4);
      new;
      rows[0] := v1;
      rows[1] := v2;
      rows[2] := v3;
      rows[3] := v4;
    }

    /** The copy constructor: the rows of other, copied one by one. */
    constructor Copy(other: Mat4)
      requires other.Valid()
      ensures Valid() && fresh(rows)
      ensures Value() == other.Value()
    {
      rows := new Vec4[4](_ => FVec4.Zero4);
      new;
      for i := 0 to 4
        invariant forall k | 0 <= k < i :: rows[k] == other.rows[k]
      {
        rows[i] := other.rows[i];
      }
    }

    /** get(i, j): the entry, unchecked. */
    function Get(i: nat, j: nat): (r: real)
      requires Valid() && i < 4 && j < 4
      reads this, rows
      ensures r == Value()[i][j]
    {
      FMat4.Component(rows[i], j)
    }

    /** operator=: nothing to do for a self-assignment; otherwise the rows of other are
        copied. Distinct objects own distinct storage. */
    method Assign(other: Mat4)
      requires Valid() && other.Valid()
      requires other == this || other.rows != rows
      modifies rows
      ensures Valid() && Value() == old(other.Value())
    {
      if other == this {
        return;
      }
      for i := 0 to 4
        invariant forall k | 0 <= k < i :: rows[k] == other.rows[k]
        invariant forall k | 0 <= k < 4 :: other.rows[k] == old(other.rows[k])
      {
        rows[i] := other.rows[i];
      }
    }

    /** operator[](int), both overloads: row idx, or row 0 when idx is outside 0..3. */
    function RowAt(idx: int): (r: Vec4)
      requires Valid()
      reads this, rows
      ensures 0 <= idx < 4 ==> r == FMat4.Row(Value(), idx)
      ensures !(0 <= idx < 4) ==> r == FMat4.Row(Value(), 0)
    {
      if 0 <= idx < 4 then rows[idx] else rows[0]
    }

    /** A write through the non-const operator[](int): row idx, or row 0 when idx is outside
        0..3, becomes v. */
    method SetRowAt(idx: int, v: Vec4)
      requires Valid()
      modifies rows
      ensures Valid()
      ensures Value() == FMat4.ReplaceRow(old(Value()), if 0 <= idx < 4 then idx else 0, v)
    {
      ghost var before := Value();
      var i := if 0 <= idx < 4 then idx else 0;
      rows[i] := v;
      FMat4.SameEntriesEqual(Value(), FMat4.ReplaceRow(before, i, v));
    }

    /** A read through the non-const operator[](const char*), and through the const one with
        its intended offset '0'. */
    function KeyValue(key: string): (r: real)
      requires Valid() && ValidKey(key, '0')
      reads this, rows
      ensures r == KeyEntry(Value(), key, '0')
    {
      FMat4.Component(rows[KeyRow(key, '0')], KeyColumn(key))
    }

    /** A read through the const operator[](const char*) as written, which subtracts '1'. */
    function ConstKeyValueAsWritten(key: string): (r: real)
      requires Valid() && ValidKey(key, '1')
      reads this, rows
      ensures r == KeyEntry(Value(), key, '1')
    {
      FMat4.Component(rows[KeyRow(key, '1')], KeyColumn(key))
    }

    /** A write through the non-const operator[](const char*): the entry the key selects
        becomes value and the other fifteen are unchanged. */
    method SetByKey(key: string, value: real)
      requires Valid() && ValidKey(key, '0')
      modifies rows
      ensures Valid()
      ensures Value() == FMat4.SetEntry(old(Value()), KeyRow(key, '0'), KeyColumn(key), value)
      ensures KeyValue(key) == value
    {
      ghost var before := Value();
      var row := KeyRow(key, '0');
      rows[row] := FMat4.SetComponent(rows[row], KeyColumn(key), value);
      FMat4.SameEntriesEqual(Value(), FMat4.SetEntry(before, row, KeyColumn(key), value));
    }

    /** operator*(Mat4): entry [i][j] of the new matrix is column j of this weighted by row i
        of other, which is FMat4's member product and the row-major product other * this.
        The new matrix is returned as its value. */
    method Multiply(other: Mat4) returns (r: FMat4.Mat4)
      requires Valid() && other.Valid()
      ensures r == FMat4.Compose(Value(), other.Value())
      ensures r == FMat4.Product(other.Value(), Value())
    {
      var a := Value();
      var b := other.Value();
      r := FMat4.IdentityMatrix;
      for i := 0 to 4
        invariant forall ii, jj | 0 <= ii < i && 0 <= jj < 4 :: r[ii][jj] == FMat4.Compose(a, b)[ii][jj]
      {
        var row := FVec4.Zero4;
        for j := 0 to 4
          invariant forall jj | 0 <= jj < j :: FMat4.Component(row, jj) == FMat4.Compose(a, b)[i][jj]
        {
          var entry := a[0][j] * b[i][0] + a[1][j] * b[i][1] + a[2][j] * b[i][2] + a[3][j] * b[i][3];
          FMat4.ComposeEntry(a, b, i, j);
          row := FMat4.SetComponent(row, j, entry);
        }
        r := FMat4.ReplaceRow(r, i, row);
      }
      FMat4.SameEntriesEqual(r, FMat4.Compose(a, b));
      FMat4.ComposeSwapsOperands(a, b);
    }

    /** operator*(Vec4): the column-style product, `this^T v`. */
    function TimesVector(v: Vec4): (r: Vec4)
      requires Valid()
      reads this, rows
      ensures r == ColumnApply(Value(), v)
      ensures r == FMat4.Apply(FMat4.Transpose(Value()), v)
    {
      ColumnApplyIsTransposed(Value(), v);
      FVec4.Vec4(rows[0].x * v.x + rows[1].x * v.y + rows[2].x * v.z + rows[3].x * v.w,
                 rows[0].y * v.x + rows[1].y * v.y + rows[2].y * v.z + rows[3].y * v.w,
                 rows[0].z * v.x + rows[1].z * v.y + rows[2].z * v.z + rows[3].z * v.w,
                 rows[0].w * v.x + rows[1].w * v.y + rows[2].w * v.z + rows[3].w * v.w)
    }

    /** getInverse(): negates [2][0] and [0][2] (the Y rotation), [2][1] and [1][2] (the X
        rotation) and row 3 (the translation) in place, and returns a copy of the result. */
    method GetInverse() returns (r: FMat4.Mat4)
      requires Valid()
      modifies rows
      ensures Valid() && Value() == InverseFlip(old(Value())) && r == Value()
    {
      ghost var before := Value();
      rows[2] := rows[2].(x := rows[2].x * -1.0);
      rows[0] := rows[0].(z := rows[0].z * -1.0);
      rows[2] := rows[2].(y := rows[2].y * -1.0);
      rows[1] := rows[1].(z := rows[1].z * -1.0);
      rows[3] := FVec4.Multiply(rows[3], -1.0);
      FMat4.SameEntriesEqual(Value(), InverseFlip(before));
      r := Value();
    }

    /** transpose(): swaps [i][j] with [j][i] in place for every i < j, leaving the
        diagonal alone, and returns a copy of the result. */
    method Transpose() returns (r: FMat4.Mat4)
      requires Valid()
      modifies rows
      ensures Valid() && Value() == FMat4.Transpose(old(Value())) && r == Value()
    {
      ghost var before := rows[..];
      for i := 0 to 4
        invariant rows[..] == if i == 0 then before else SwapsBefore(before, i - 1, 4)
      {
        for j := i + 1 to 4
          invariant rows[..] == SwapsBefore(before, i, j)
        {
          ghost var prev := rows[..];
          var t := FMat4.Component(rows[i], j);
          rows[i] := FMat4.SetComponent(rows[i], j, FMat4.Component(rows[j], i));
          rows[j] := FMat4.SetComponent(rows[j], i, t);
          assert rows[..] == SwapStep(prev, i, j);
        }
      }
      TransposeBySwaps(before);
      r := Value();
    }

    /** operator==: true at once for the same object, otherwise the rows are compared in
        order and the first difference returns false. */
    method Equals(other: Mat4) returns (r: bool)
      requires Valid() && other.Valid()
      ensures r <==> Value() == other.Value()
    {
      if other == this {
        return true;
      }
      for i := 0 to 4
        invariant forall k | 0 <= k < i :: rows[k] == other.rows[k]
      {
        if rows[i] != other.rows[i] {
          assert FMat4.Row(Value(), i) != FMat4.Row(other.Value(), i);
          return false;
        }
      }
      return true;
    }

    /** operator!=: the negation of operator==. */
    method NotEquals(other: Mat4) returns (r: bool)
      requires Valid() && other.Valid()
      ensures r <==> Value() != other.Value()
    {
      var same := Equals(other);
      r := !same;
    }
  }

  /** One swap of transpose(): entries [i][j] and [j][i] of the rows change places. */
  function SwapStep(rs: seq<Vec4>, i: nat, j: nat): (r: seq<Vec4>)
    requires |rs| == 4 && i < j < 4
    ensures |r| == 4
  {
    rs[i := FMat4.SetComponent(rs[i], j, FMat4.Component(rs[j], i))]
      [j := FMat4.SetComponent(rs[j], i, FMat4.Component(rs[i], j))]
  }

  /** The rows transpose() has produced when its loops reach the pair (i, j): every pair
      before it, in loop order, has been swapped. */
  function SwapsBefore(rs: seq<Vec4>, i: nat, j: nat): (r: seq<Vec4>)
    requires |rs| == 4 && i < j <= 4
    ensures |r| == 4
    decreases i, j
  {
    if j == i + 1 then (if i == 0 then rs else SwapsBefore(rs, i - 1, 4))
    else SwapStep(SwapsBefore(rs, i, j - 1), i, j - 1)
  }

  /** The six swaps of transpose(), in their loop order, transpose the matrix. */
  lemma {:induction false} TransposeBySwaps(rs: seq<Vec4>)
    requires |rs| == 4
    ensures FMat4.FromRows(SwapsBefore(rs, 3, 4)[0], SwapsBefore(rs, 3, 4)[1],
                           SwapsBefore(rs, 3, 4)[2], SwapsBefore(rs, 3, 4)[3])
            == FMat4.Transpose(FMat4.FromRows(rs[0], rs[1], rs[2], rs[3]))
  {
    var s1 := SwapStep(rs, 0, 1);
    var s2 := SwapStep(s1, 0, 2);
    var s3 := SwapStep(s2, 0, 3);
    var s4 := SwapStep(s3, 1, 2);
    var s5 := SwapStep(s4, 1, 3);
    var s6 := SwapStep(s5, 2, 3);
    assert SwapsBefore(rs, 0, 2) == s1;
    assert SwapsBefore(rs, 0, 4) == s3;
    assert SwapsBefore(rs, 1, 4) == s5;
    assert SwapsBefore(rs, 3, 4) == s6;
    FMat4.SameEntriesEqual(FMat4.FromRows(s6[0], s6[1], s6[2], s6[3]),
                           FMat4.Transpose(FMat4.FromRows(rs[0], rs[1], rs[2], rs[3])));
  }

  /** translation(t): a default (identity) matrix with "x3", "y3" and "z3" set to t, which is
      FMat4's Translation(t). */
  method Translation(t: Vec3) returns (r: Mat4)
    ensures fresh(r.rows) && r.Valid()
    ensures r.Value() == FMat4.Translation(t)
  {
    r := new Mat4();
    r.SetByKey("x3", t.x);
    r.SetByKey("y3", t.y);
    r.SetByKey("z3", t.z);
    FMat4.SameEntriesEqual(r.Value(), FMat4.Translation(t));
  }

  /** scale(s): a default (identity) matrix with "x0", "y1" and "z2" set to s, which is
      FMat4's Scale(s). */
  method Scale(s: Vec3) returns (r: Mat4)
    ensures fresh(r.rows) && r.Valid()
    ensures r.Value() == FMat4.Scaling(s)
  {
    r := new Mat4();
    r.SetByKey("x0", s.x);
    r.SetByKey("y1", s.y);
    r.SetByKey("z2", s.z);
    FMat4.SameEntriesEqual(r.Value(), FMat4.Scaling(s));
  }

  /** transpose() twice on one object restores it. */
  method TransposeTwice(x: Mat4)
    requires x.Valid()
    modifies x.rows
    ensures x.Valid() && x.Value() == old(x.Value())
  {
    var first := x.Transpose();
    var second := x.Transpose();
    FMat4.TransposeInvolution(old(x.Value()));
  }

  /** getInverse() twice on one object restores it. */
  method InverseTwice(x: Mat4)
    requires x.Valid()
    modifies x.rows
    ensures x.Valid() && x.Value() == old(x.Value())
  {
    var first := x.GetInverse();
    var second := x.GetInverse();
    InverseFlipInvolution(old(x.Value()));
  }
}
